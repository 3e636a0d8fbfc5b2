/** A pandas DataFrame as the pipeline sees it: named columns and rows of
    cells, each row a mapping from column name to cell. */
module Tables {
  import opened Wrappers
  import opened Seqs
  import opened Strings

  /** A cell: text, a whole number, or missing (NaN / None). */
  datatype Cell = Text(text: string) | Int(number: int) | Missing

  type Row = map<string, Cell>

  datatype Table = Table(columns: seq<string>, rows: seq<Row>)

  /** The cell of `row` under `column`; a row without that key reads as missing. */
  function At(row: Row, column: string): Cell {
    if column in row then row[column] else Missing
  }

  /** The cells of one column, top to bottom. */
  function Column(t: Table, column: string): (cells: seq<Cell>)
    ensures |cells| == |t.rows|
  {
    seq(|t.rows|, i requires 0 <= i < |t.rows| => At(t.rows[i], column))
  }

  /** `astype(str)` of a cell. */
  function Rendered(c: Cell): string {
    match c
    case Text(s) => s
    case Int(n) => IntToString(n)
    case Missing => "nan"
  }

  /** `DataFrame.empty`: true when either axis has length zero. */
  predicate IsEmpty(t: Table) {
    |t.rows| == 0 || |t.columns| == 0
  }

  /** A column name that holds years: it contains "year", ignoring case. */
  predicate IsYearColumn(name: string) {
    Contains(Lower(name), "year")
  }

  /** The first year column in column order (`next(col for col in cols if ...)`). */
  function FirstYearColumn(columns: seq<string>): (r: Option<string>)
    ensures r.Some? ==> r.value in columns && IsYearColumn(r.value)
    ensures r.None? <==> forall i :: 0 <= i < |columns| ==> !IsYearColumn(columns[i])
    ensures forall k :: 0 <= k < |columns| && IsYearColumn(columns[k]) ==>
      (forall j :: 0 <= j < k ==> !IsYearColumn(columns[j])) ==> r == Some(columns[k])
  {
    var isYear := (k: nat) => k < |columns| && IsYearColumn(columns[k]);
    match Leftmost(isYear, 0, |columns|)
    case Some(k) =>
      assert forall i :: 0 <= i < |columns| && IsYearColumn(columns[i]) ==>
        (forall j :: 0 <= j < i ==> !IsYearColumn(columns[j])) ==> i == k
      by {
        forall i | 0 <= i < |columns| && IsYearColumn(columns[i]) && (forall j :: 0 <= j < i ==> !IsYearColumn(columns[j]))
          ensures i == k
        {
          assert isYear(k) && isYear(i);
        }
      }
      Some(columns[k])
    case None =>
      assert forall i :: 0 <= i < |columns| ==> !IsYearColumn(columns[i]) by {
        forall i | 0 <= i < |columns| ensures !IsYearColumn(columns[i]) {
          assert !isYear(i);
        }
      }
      None
  }

  /** The column that holds the country role: "Team" when present, else "Country". */
  function CountryColumn(columns: seq<string>): Option<string> {
    if "Team" in columns then Some("Team")
    else if "Country" in columns then Some("Country")
    else None
  }

  /** The column that holds the athlete role: "Name" when present, else "Athlete". */
  function AthleteColumn(columns: seq<string>): Option<string> {
    if "Name" in columns then Some("Name")
    else if "Athlete" in columns then Some("Athlete")
    else None
  }
}
