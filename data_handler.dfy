/** The data handler of backend/data_handler.py: the schema summary of the
    loaded table and the filter / rank / metadata pipeline of `search_data`.

    `search_data` narrows a copy of the table stage by stage. Its reference
    meaning is `Retrieve`: one order-preserving filter by the conjunction of
    all stage conditions, then the optional ranking. */
module DataHandling {
  import opened Wrappers
  import opened Seqs
  import opened Strings
  import opened Tables
  import opened Queries

  /** The medal count columns, in the order ranking looks for them. */
  const CountColumns: seq<string> := ["Gold", "Silver", "Bronze", "Total"]

  /** The number of rows ranking keeps when the parameters name no limit. */
  const DefaultLimit: int := 10

  // ---------------------------------------------------------------------
  // Schema

  /** The boolean and list entries of `data_schema`. */
  datatype Schema = Schema(hasCountry: bool, hasAthlete: bool, hasYear: bool, medalColumns: seq<string>)

  /** A column that counts medals: its name mentions "medal" in any case,
      or it is one of the count columns. */
  predicate IsMedalColumn(name: string) {
    Contains(Lower(name), "medal") || name in CountColumns
  }

  /** `_analyze_schema` on a column list. */
  function SchemaOf(columns: seq<string>): (s: Schema)
    ensures s.hasCountry <==> "Country" in columns || "Team" in columns
    ensures s.hasAthlete <==> "Athlete" in columns || "Name" in columns
    ensures s.hasYear <==> exists i :: 0 <= i < |columns| && IsYearColumn(columns[i])
    ensures IsSubseq(s.medalColumns, columns)
    ensures forall i :: 0 <= i < |s.medalColumns| ==> IsMedalColumn(s.medalColumns[i])
    ensures forall i :: 0 <= i < |columns| && IsMedalColumn(columns[i]) ==> columns[i] in s.medalColumns
  {
    FilterIsSubseq(columns, IsMedalColumn);
    Schema(
      "Country" in columns || "Team" in columns,
      "Athlete" in columns || "Name" in columns,
      FirstYearColumn(columns).Some?,
      Filter(columns, IsMedalColumn))
  }

  // ---------------------------------------------------------------------
  // Row conditions, one per stage of `search_data`

  /** `col.str.contains(v, case=False, na=False)` on one cell: only text
      cells can match. */
  predicate TextMatches(c: Cell, v: string) {
    c.Text? && ContainsIgnoringCase(c.text, v)
  }

  /** `col.astype(str).str.contains(v, na=False)`: case-sensitive, on the
      rendered cell. */
  predicate RenderedMatches(c: Cell, v: string) {
    Contains(Rendered(c), v)
  }

  /** `col > 0`: only a positive whole number passes. */
  predicate PositiveCount(c: Cell) {
    c.Int? && c.number > 0
  }

  predicate CountryOk(columns: seq<string>, f: Filters, row: Row) {
    f.country.Some? && CountryColumn(columns).Some? ==>
      TextMatches(At(row, CountryColumn(columns).value), f.country.value)
  }

  predicate CityOk(columns: seq<string>, f: Filters, row: Row) {
    f.city.Some? && "City" in columns ==> TextMatches(At(row, "City"), f.city.value)
  }

  predicate YearOk(columns: seq<string>, f: Filters, row: Row) {
    f.year.Some? && FirstYearColumn(columns).Some? ==>
      RenderedMatches(At(row, FirstYearColumn(columns).value), f.year.value)
  }

  predicate AthleteOk(columns: seq<string>, f: Filters, row: Row) {
    f.athlete.Some? && AthleteColumn(columns).Some? ==>
      TextMatches(At(row, AthleteColumn(columns).value), f.athlete.value)
  }

  /** The count column the medal stage filters on, if any: a "Medal" column
      or a column named exactly like the medal type makes the stage a
      no-op; otherwise gold, silver and bronze use their capitalised column. */
  function MedalCountColumn(columns: seq<string>, medalType: string): (r: Option<string>)
    ensures r.Some? ==> "Medal" !in columns && medalType !in columns && r.value in columns
    ensures r.Some? ==> medalType in {"gold", "silver", "bronze"}
    ensures r.Some? ==>
      || (medalType == "gold" && r.value == "Gold")
      || (medalType == "silver" && r.value == "Silver")
      || (medalType == "bronze" && r.value == "Bronze")
    ensures r.None? && "Medal" !in columns && medalType !in columns ==>
      !(medalType == "gold" && "Gold" in columns) && !(medalType == "silver" && "Silver" in columns)
      && !(medalType == "bronze" && "Bronze" in columns)
  {
    if "Medal" in columns then None
    else if medalType in columns then None
    else if "Gold" in columns && medalType == "gold" then Some("Gold")
    else if "Silver" in columns && medalType == "silver" then Some("Silver")
    else if "Bronze" in columns && medalType == "bronze" then Some("Bronze")
    else None
  }

  predicate MedalOk(columns: seq<string>, f: Filters, row: Row) {
    f.medalType.Some? && MedalCountColumn(columns, f.medalType.value).Some? ==>
      PositiveCount(At(row, MedalCountColumn(columns, f.medalType.value).value))
  }

  /** The conditions of the first `stages` filter stages, in source order. */
  predicate Passes(columns: seq<string>, f: Filters, stages: nat, row: Row) {
    && (stages >= 1 ==> CountryOk(columns, f, row))
    && (stages >= 2 ==> CityOk(columns, f, row))
    && (stages >= 3 ==> YearOk(columns, f, row))
    && (stages >= 4 ==> AthleteOk(columns, f, row))
    && (stages >= 5 ==> MedalOk(columns, f, row))
  }

  /** A row survives all filter stages. */
  predicate RowMatches(columns: seq<string>, f: Filters, row: Row) {
    Passes(columns, f, 5, row)
  }

  /** The conditions one stage of the code filters by, as values `Filter` takes. */
  function MatchesText(column: string, v: string): Row -> bool {
    row => TextMatches(At(row, column), v)
  }

  function MatchesRendered(column: string, v: string): Row -> bool {
    row => RenderedMatches(At(row, column), v)
  }

  function HasPositive(column: string): Row -> bool {
    row => PositiveCount(At(row, column))
  }

  /** The condition of the first `stages` stages, as a value `Filter` takes. */
  function UpTo(columns: seq<string>, f: Filters, stages: nat): Row -> bool {
    row => Passes(columns, f, stages, row)
  }

  // ---------------------------------------------------------------------
  // Ranking

  /** The first count column present (`next(...)` over Gold, Silver, Bronze, Total). */
  function RankColumn(columns: seq<string>): (r: Option<string>)
    ensures r.Some? ==> r.value in CountColumns && r.value in columns
    ensures r.None? <==> forall i :: 0 <= i < |CountColumns| ==> CountColumns[i] !in columns
    ensures forall k :: 0 <= k < |CountColumns| ==>
      (r == Some(CountColumns[k]) <==> CountColumns[k] in columns && forall j :: 0 <= j < k ==> CountColumns[j] !in columns)
  {
    if "Gold" in columns then Some("Gold")
    else if "Silver" in columns then Some("Silver")
    else if "Bronze" in columns then Some("Bronze")
    else if "Total" in columns then Some("Total")
    else None
  }

  /** The sort key of a row: its count, or none for a missing count. */
  function RankKey(row: Row, column: string): Option<int> {
    match At(row, column)
    case Int(n) => Some(n)
    case _ => None
  }

  /** `a` may be placed before `b`: missing keys go last in either
      direction, present keys follow the requested direction. */
  predicate Precedes(a: Option<int>, b: Option<int>, ascending: bool) {
    b.None? || (a.Some? && (if ascending then a.value <= b.value else a.value >= b.value))
  }

  /** Each row may precede the next one. */
  predicate SortedOn(rows: seq<Row>, column: string, ascending: bool) {
    forall i :: 0 < i < |rows| ==> Precedes(RankKey(rows[i - 1], column), RankKey(rows[i], column), ascending)
  }

  /** Sorted rows are in order pairwise, not only neighbour by neighbour. */
  lemma {:induction false} SortedOnPairwise(rows: seq<Row>, column: string, ascending: bool, i: nat, j: nat)
    requires SortedOn(rows, column, ascending) && i < j < |rows|
    ensures Precedes(RankKey(rows[i], column), RankKey(rows[j], column), ascending)
    decreases j - i
  {
    if i + 1 < j {
      SortedOnPairwise(rows, column, ascending, i + 1, j);
    }
  }

  /** Inserts `row` before the first row it may precede. */
  function InsertRow(row: Row, sorted: seq<Row>, column: string, ascending: bool): (r: seq<Row>)
    ensures multiset(r) == multiset(sorted) + multiset{row}
    ensures |r| == |sorted| + 1 && (r[0] == row || (sorted != [] && r[0] == sorted[0]))
  {
    if sorted == [] then [row]
    else if Precedes(RankKey(row, column), RankKey(sorted[0], column), ascending) then [row] + sorted
    else
      assert sorted == [sorted[0]] + sorted[1..];
      [sorted[0]] + InsertRow(row, sorted[1..], column, ascending)
  }

  /** Any two keys can be placed one way or the other. */
  lemma PrecedesTotal(a: Option<int>, b: Option<int>, ascending: bool)
    ensures Precedes(a, b, ascending) || Precedes(b, a, ascending)
  {
  }

  /** Inserting into sorted rows keeps them sorted. */
  lemma {:induction false} InsertRowSorted(row: Row, sorted: seq<Row>, column: string, ascending: bool)
    requires SortedOn(sorted, column, ascending)
    ensures SortedOn(InsertRow(row, sorted, column, ascending), column, ascending)
  {
    if sorted != [] && !Precedes(RankKey(row, column), RankKey(sorted[0], column), ascending) {
      var rest := InsertRow(row, sorted[1..], column, ascending);
      InsertRowSorted(row, sorted[1..], column, ascending);
      PrecedesTotal(RankKey(row, column), RankKey(sorted[0], column), ascending);
      assert Precedes(RankKey(sorted[0], column), RankKey(rest[0], column), ascending);
      var r := [sorted[0]] + rest;
      forall i | 1 < i < |r|
        ensures Precedes(RankKey(r[i - 1], column), RankKey(r[i], column), ascending)
      {
        assert r[i - 1] == rest[i - 2] && r[i] == rest[i - 1];
      }
    }
  }

  /** `sort_values(by=column, ascending=ascending)`, with rows of equal key
      kept in their original order. */
  function SortRows(rows: seq<Row>, column: string, ascending: bool): (r: seq<Row>)
    ensures SortedOn(r, column, ascending)
    ensures multiset(r) == multiset(rows)
  {
    if rows == [] then []
    else
      assert rows == [rows[0]] + rows[1..];
      var rest := SortRows(rows[1..], column, ascending);
      InsertRowSorted(rows[0], rest, column, ascending);
      InsertRow(rows[0], rest, column, ascending)
  }

  /** Ranking applies: the intent is "ranking" and a count column exists. */
  predicate RankingApplies(columns: seq<string>, params: QueryParams) {
    params.intent == Some("ranking") && RankColumn(columns).Some?
  }

  /** The ranking stage: sort on the first count column, then keep the first
      `limit` rows; `ascending` and `limit` are read from the top level of
      the parameters, defaulting to false and 10. */
  function Ranked(columns: seq<string>, rows: seq<Row>, params: QueryParams): (r: seq<Row>)
    ensures !RankingApplies(columns, params) ==> r == rows
    ensures multiset(r) <= multiset(rows)
    ensures RankingApplies(columns, params) && params.limit.None? ==> |r| <= DefaultLimit
  {
    if RankingApplies(columns, params) then
      var ascending := if params.ascending.Some? then params.ascending.value else false;
      var limit := if params.limit.Some? then params.limit.value else DefaultLimit;
      Head(SortRows(rows, RankColumn(columns).value, ascending), limit)
    else rows
  }

  // ---------------------------------------------------------------------
  // Results

  /** The information dictionary returned beside the results. */
  datatype Info = Error(message: string) | EmptyResult | RecordCount(count: nat)

  const NoDataMessage := "No data loaded"

  /** What `search_data` returns for the loaded table `df`. */
  function Retrieve(df: Option<Table>, params: QueryParams): (r: (Table, Info))
    ensures df.None? ==> r == (Table([], []), Error(NoDataMessage))
    ensures df.Some? ==> r.0.columns == df.value.columns
    ensures df.Some? ==> (r.1 == EmptyResult <==> IsEmpty(r.0))
    ensures df.Some? ==> (r.1.RecordCount? <==> !IsEmpty(r.0))
    ensures df.Some? && r.1.RecordCount? ==> r.1.count == |r.0.rows| > 0
  {
    match df
    case None => (Table([], []), Error(NoDataMessage))
    case Some(t) =>
      var kept := Filter(t.rows, UpTo(t.columns, params.filters, 5));
      var results := Table(t.columns, Ranked(t.columns, kept, params));
      (results, if IsEmpty(results) then EmptyResult else RecordCount(|results.rows|))
  }

  // ---------------------------------------------------------------------
  // The handler object

  class DataHandler {
    var df: Option<Table>
    /** `data_schema`; `None` stands for the empty dictionary. */
    var dataSchema: Option<Schema>

    /** Built from an in-memory table, or from none. */
    constructor (df: Option<Table>)
      ensures this.df == df
      ensures dataSchema == if df.Some? then Some(SchemaOf(df.value.columns)) else None
    {
      this.df := df;
      dataSchema := None;
      if df.Some? {
        dataSchema := Some(SchemaOf(df.value.columns));
      }
    }

    /** `_analyze_schema`: summarises the loaded table's columns. */
    method AnalyzeSchema()
      modifies this
      ensures df == old(df)
      ensures dataSchema == if df.Some? then Some(SchemaOf(df.value.columns)) else old(dataSchema)
    {
      if df.None? {
        return;
      }
      dataSchema := Some(SchemaOf(df.value.columns));
    }

    /** `search_data`: filters a copy of the table stage by stage, ranks,
        and reports the outcome. The handler's own table is left as it was. */
    method SearchData(params: QueryParams) returns (results: Table, info: Info)
      ensures (results, info) == Retrieve(df, params)
    {
      if df.None? {
        return Table([], []), Error(NoDataMessage);
      }
      var t := df.value;
      var cols := t.columns;
      var rows := FilterRows(t, params.filters);

      ghost var kept := rows;
      if params.intent == Some("ranking") {
        var rankCol := RankColumn(cols);
        if rankCol.Some? {
          var ascending := if params.ascending.Some? then params.ascending.value else false;
          rows := SortRows(rows, rankCol.value, ascending);
          var limit := if params.limit.Some? then params.limit.value else DefaultLimit;
          rows := Head(rows, limit);
        }
      }

      assert rows == Ranked(cols, kept, params);
      results := Table(cols, rows);
      assert results == Retrieve(df, params).0;
      if IsEmpty(results) {
        info := EmptyResult;
      } else {
        info := RecordCount(|rows|);
      }
      assert info == Retrieve(df, params).1;
    }
  }

  /** The filter stages of `search_data`, each narrowing the rows kept so far. */
  method FilterRows(t: Table, f: Filters) returns (rows: seq<Row>)
    ensures rows == Filter(t.rows, UpTo(t.columns, f, 5))
  {
    var cols := t.columns;
    rows := t.rows;
    assert rows == Filter(t.rows, UpTo(cols, f, 0)) by {
      FilterKeepsAll(t.rows, UpTo(cols, f, 0));
    }
    rows := FilterCountry(rows, cols, f);
    assert rows == Filter(t.rows, UpTo(cols, f, 1)) by {
      CountryStage(t.rows, cols, f);
    }
    rows := FilterCity(rows, cols, f);
    assert rows == Filter(t.rows, UpTo(cols, f, 2)) by {
      CityStage(t.rows, cols, f);
    }
    rows := FilterYear(rows, cols, f);
    assert rows == Filter(t.rows, UpTo(cols, f, 3)) by {
      YearStage(t.rows, cols, f);
    }
    rows := FilterAthlete(rows, cols, f);
    assert rows == Filter(t.rows, UpTo(cols, f, 4)) by {
      AthleteStage(t.rows, cols, f);
    }
    rows := FilterMedal(rows, cols, f);
    assert rows == Filter(t.rows, UpTo(cols, f, 5)) by {
      MedalStage(t.rows, cols, f);
    }
  }

  /** The country stage of `search_data`: "Team", else "Country", must
      contain the value, ignoring case. */
  method FilterCountry(rows: seq<Row>, cols: seq<string>, f: Filters) returns (r: seq<Row>)
    ensures f.country.Some? && CountryColumn(cols).Some? ==>
      r == Filter(rows, MatchesText(CountryColumn(cols).value, f.country.value))
    ensures !(f.country.Some? && CountryColumn(cols).Some?) ==> r == rows
  {
    r := rows;
    if f.country.Some? && ("Country" in cols || "Team" in cols) {
      var col := if "Team" in cols then "Team" else "Country";
      r := Filter(rows, MatchesText(col, f.country.value));
    }
  }

  /** The city stage of `search_data`. */
  method FilterCity(rows: seq<Row>, cols: seq<string>, f: Filters) returns (r: seq<Row>)
    ensures f.city.Some? && "City" in cols ==> r == Filter(rows, MatchesText("City", f.city.value))
    ensures !(f.city.Some? && "City" in cols) ==> r == rows
  {
    r := rows;
    if f.city.Some? && "City" in cols {
      r := Filter(rows, MatchesText("City", f.city.value));
    }
  }

  /** The year stage of `search_data`: the rendered first year column must
      contain the year, case-sensitively. */
  method FilterYear(rows: seq<Row>, cols: seq<string>, f: Filters) returns (r: seq<Row>)
    ensures f.year.Some? && FirstYearColumn(cols).Some? ==>
      r == Filter(rows, MatchesRendered(FirstYearColumn(cols).value, f.year.value))
    ensures !(f.year.Some? && FirstYearColumn(cols).Some?) ==> r == rows
  {
    r := rows;
    if f.year.Some? && FirstYearColumn(cols).Some? {
      var yearCol := FirstYearColumn(cols).value;
      r := Filter(rows, MatchesRendered(yearCol, f.year.value));
    }
  }

  /** The athlete stage of `search_data`: "Name", else "Athlete", must
      contain the value, ignoring case. */
  method FilterAthlete(rows: seq<Row>, cols: seq<string>, f: Filters) returns (r: seq<Row>)
    ensures f.athlete.Some? && AthleteColumn(cols).Some? ==>
      r == Filter(rows, MatchesText(AthleteColumn(cols).value, f.athlete.value))
    ensures !(f.athlete.Some? && AthleteColumn(cols).Some?) ==> r == rows
  {
    r := rows;
    if f.athlete.Some? && ("Name" in cols || "Athlete" in cols) {
      var nameCol := if "Name" in cols then "Name" else "Athlete";
      r := Filter(rows, MatchesText(nameCol, f.athlete.value));
    }
  }

  /** The medal-type stage of `search_data`: a "Medal" column or a column
      named like the medal type is selected and nothing is filtered;
      otherwise gold, silver and bronze keep the rows with a positive count. */
  method FilterMedal(rows: seq<Row>, cols: seq<string>, f: Filters) returns (r: seq<Row>)
    ensures f.medalType.Some? && MedalCountColumn(cols, f.medalType.value).Some? ==>
      r == Filter(rows, HasPositive(MedalCountColumn(cols, f.medalType.value).value))
    ensures !(f.medalType.Some? && MedalCountColumn(cols, f.medalType.value).Some?) ==> r == rows
  {
    r := rows;
    if f.medalType.Some? {
      var medalType := f.medalType.value;
      var medalCol: Option<string> := None;
      if "Medal" in cols {
        medalCol := Some("Medal");
      } else if medalType in cols {
        medalCol := Some(medalType);
      } else if "Gold" in cols && medalType == "gold" {
        r := Filter(rows, HasPositive("Gold"));
      } else if "Silver" in cols && medalType == "silver" {
        r := Filter(rows, HasPositive("Silver"));
      } else if "Bronze" in cols && medalType == "bronze" {
        r := Filter(rows, HasPositive("Bronze"));
      }
    }
  }

  // ---------------------------------------------------------------------
  // Each stage narrows the rows passing the earlier stages to those passing
  // one stage more; a skipped stage changes nothing.

  lemma CountryStage(rows: seq<Row>, columns: seq<string>, f: Filters)
    ensures f.country.Some? && CountryColumn(columns).Some? ==>
      Filter(Filter(rows, UpTo(columns, f, 0)), MatchesText(CountryColumn(columns).value, f.country.value))
      == Filter(rows, UpTo(columns, f, 1))
    ensures !(f.country.Some? && CountryColumn(columns).Some?) ==>
      Filter(rows, UpTo(columns, f, 0)) == Filter(rows, UpTo(columns, f, 1))
  {
    if f.country.Some? && CountryColumn(columns).Some? {
      FilterNarrow(rows, UpTo(columns, f, 0), MatchesText(CountryColumn(columns).value, f.country.value), UpTo(columns, f, 1));
    } else {
      FilterSame(rows, UpTo(columns, f, 0), UpTo(columns, f, 1));
    }
  }

  lemma CityStage(rows: seq<Row>, columns: seq<string>, f: Filters)
    ensures f.city.Some? && "City" in columns ==>
      Filter(Filter(rows, UpTo(columns, f, 1)), MatchesText("City", f.city.value))
      == Filter(rows, UpTo(columns, f, 2))
    ensures !(f.city.Some? && "City" in columns) ==>
      Filter(rows, UpTo(columns, f, 1)) == Filter(rows, UpTo(columns, f, 2))
  {
    if f.city.Some? && "City" in columns {
      FilterNarrow(rows, UpTo(columns, f, 1), MatchesText("City", f.city.value), UpTo(columns, f, 2));
    } else {
      FilterSame(rows, UpTo(columns, f, 1), UpTo(columns, f, 2));
    }
  }

  lemma YearStage(rows: seq<Row>, columns: seq<string>, f: Filters)
    ensures f.year.Some? && FirstYearColumn(columns).Some? ==>
      Filter(Filter(rows, UpTo(columns, f, 2)), MatchesRendered(FirstYearColumn(columns).value, f.year.value))
      == Filter(rows, UpTo(columns, f, 3))
    ensures !(f.year.Some? && FirstYearColumn(columns).Some?) ==>
      Filter(rows, UpTo(columns, f, 2)) == Filter(rows, UpTo(columns, f, 3))
  {
    if f.year.Some? && FirstYearColumn(columns).Some? {
      FilterNarrow(rows, UpTo(columns, f, 2), MatchesRendered(FirstYearColumn(columns).value, f.year.value), UpTo(columns, f, 3));
    } else {
      FilterSame(rows, UpTo(columns, f, 2), UpTo(columns, f, 3));
    }
  }

  lemma AthleteStage(rows: seq<Row>, columns: seq<string>, f: Filters)
    ensures f.athlete.Some? && AthleteColumn(columns).Some? ==>
      Filter(Filter(rows, UpTo(columns, f, 3)), MatchesText(AthleteColumn(columns).value, f.athlete.value))
      == Filter(rows, UpTo(columns, f, 4))
    ensures !(f.athlete.Some? && AthleteColumn(columns).Some?) ==>
      Filter(rows, UpTo(columns, f, 3)) == Filter(rows, UpTo(columns, f, 4))
  {
    if f.athlete.Some? && AthleteColumn(columns).Some? {
      FilterNarrow(rows, UpTo(columns, f, 3), MatchesText(AthleteColumn(columns).value, f.athlete.value), UpTo(columns, f, 4));
    } else {
      FilterSame(rows, UpTo(columns, f, 3), UpTo(columns, f, 4));
    }
  }

  lemma MedalStage(rows: seq<Row>, columns: seq<string>, f: Filters)
    ensures f.medalType.Some? && MedalCountColumn(columns, f.medalType.value).Some? ==>
      Filter(Filter(rows, UpTo(columns, f, 4)), HasPositive(MedalCountColumn(columns, f.medalType.value).value))
      == Filter(rows, UpTo(columns, f, 5))
    ensures !(f.medalType.Some? && MedalCountColumn(columns, f.medalType.value).Some?) ==>
      Filter(rows, UpTo(columns, f, 4)) == Filter(rows, UpTo(columns, f, 5))
  {
    if f.medalType.Some? && MedalCountColumn(columns, f.medalType.value).Some? {
      FilterNarrow(rows, UpTo(columns, f, 4), HasPositive(MedalCountColumn(columns, f.medalType.value).value), UpTo(columns, f, 5));
    } else {
      FilterSame(rows, UpTo(columns, f, 4), UpTo(columns, f, 5));
    }
  }
}

module DataHandlingProperties {
  import opened Wrappers
  import opened Seqs
  import opened Strings
  import opened Tables
  import opened Queries
  import opened DataHandling

  /** The rows that survive all filter stages. */
  function Kept(t: Table, f: Filters): seq<Row> {
    Filter(t.rows, UpTo(t.columns, f, 5))
  }

  /** Without ranking the result rows are exactly the matching rows of the
      table, in their original order. */
  lemma UnrankedResultIsOrderedSelection(t: Table, params: QueryParams)
    requires !RankingApplies(t.columns, params)
    ensures var rows := Retrieve(Some(t), params).0.rows;
      && IsSubseq(rows, t.rows)
      && (forall i :: 0 <= i < |rows| ==> RowMatches(t.columns, params.filters, rows[i]))
      && (forall i :: 0 <= i < |t.rows| && RowMatches(t.columns, params.filters, t.rows[i]) ==> t.rows[i] in rows)
  {
    FilterIsSubseq(t.rows, UpTo(t.columns, params.filters, 5));
  }

  /** Every result row, ranked or not, is a row of the table that passes
      every filter stage. */
  lemma ResultRowsMatch(t: Table, params: QueryParams)
    ensures var rows := Retrieve(Some(t), params).0.rows;
      forall i :: 0 <= i < |rows| ==> rows[i] in t.rows && RowMatches(t.columns, params.filters, rows[i])
  {
    var kept := Kept(t, params.filters);
    var rows := Retrieve(Some(t), params).0.rows;
    forall i | 0 <= i < |rows|
      ensures rows[i] in t.rows && RowMatches(t.columns, params.filters, rows[i])
    {
      if RankingApplies(t.columns, params) {
        var ascending := if params.ascending.Some? then params.ascending.value else false;
        var sorted := SortRows(kept, RankColumn(t.columns).value, ascending);
        assert rows[i] == sorted[i];
        assert rows[i] in multiset(sorted);
        assert rows[i] in multiset(kept);
      }
      assert rows[i] in kept;
    }
  }

  /** A row is kept by the unranked search exactly when it is a row of the
      table that passes every stage. */
  lemma UnrankedMembership(t: Table, params: QueryParams, row: Row)
    requires !RankingApplies(t.columns, params)
    ensures row in Retrieve(Some(t), params).0.rows <==> row in t.rows && RowMatches(t.columns, params.filters, row)
  {
    var rows := Retrieve(Some(t), params).0.rows;
    if row in rows {
      ResultRowsMatch(t, params);
      var i :| 0 <= i < |rows| && rows[i] == row;
    }
    if row in t.rows && RowMatches(t.columns, params.filters, row) {
      var i :| 0 <= i < |t.rows| && t.rows[i] == row;
      UnrankedResultIsOrderedSelection(t, params);
    }
  }

  /** With only a country filter, a row is kept exactly when its "Team"
      (else "Country") cell contains the value in any case; with neither
      column the filter is a no-op. */
  lemma CountryFilterKeepsMatches(t: Table, params: QueryParams, v: string, row: Row)
    requires params.filters == NoFilters.(country := Some(v))
    requires !RankingApplies(t.columns, params)
    ensures row in Retrieve(Some(t), params).0.rows <==>
      row in t.rows
      && (CountryColumn(t.columns).Some? ==> TextMatches(At(row, CountryColumn(t.columns).value), v))
  {
    UnrankedMembership(t, params, row);
  }

  /** With only a city filter, a row is kept exactly when its "City" cell
      contains the value in any case. */
  lemma CityFilterKeepsMatches(t: Table, params: QueryParams, v: string, row: Row)
    requires params.filters == NoFilters.(city := Some(v))
    requires !RankingApplies(t.columns, params)
    ensures row in Retrieve(Some(t), params).0.rows <==>
      row in t.rows && ("City" in t.columns ==> TextMatches(At(row, "City"), v))
  {
    UnrankedMembership(t, params, row);
  }

  /** With only an athlete filter, a row is kept exactly when its "Name"
      (else "Athlete") cell contains the value in any case. */
  lemma AthleteFilterKeepsMatches(t: Table, params: QueryParams, v: string, row: Row)
    requires params.filters == NoFilters.(athlete := Some(v))
    requires !RankingApplies(t.columns, params)
    ensures row in Retrieve(Some(t), params).0.rows <==>
      row in t.rows
      && (AthleteColumn(t.columns).Some? ==> TextMatches(At(row, AthleteColumn(t.columns).value), v))
  {
    UnrankedMembership(t, params, row);
  }

  /** With only a year filter, a row is kept exactly when the text of its
      first year-named cell contains the year, case-sensitively. */
  lemma YearFilterKeepsMatches(t: Table, params: QueryParams, v: string, row: Row)
    requires params.filters == NoFilters.(year := Some(v))
    requires !RankingApplies(t.columns, params)
    ensures row in Retrieve(Some(t), params).0.rows <==>
      row in t.rows
      && (FirstYearColumn(t.columns).Some? ==> Contains(Rendered(At(row, FirstYearColumn(t.columns).value)), v))
  {
    UnrankedMembership(t, params, row);
  }

  /** Filters that accept the same rows give the same search outcome. */
  lemma SameConditionSameOutcome(t: Table, params: QueryParams, g: Filters)
    requires forall row :: RowMatches(t.columns, params.filters, row) == RowMatches(t.columns, g, row)
    ensures Retrieve(Some(t), params) == Retrieve(Some(t), params.(filters := g))
  {
    forall row | row in t.rows
      ensures UpTo(t.columns, params.filters, 5)(row) == UpTo(t.columns, g, 5)(row)
    {
      assert UpTo(t.columns, params.filters, 5)(row) == RowMatches(t.columns, params.filters, row);
    }
    FilterSame(t.rows, UpTo(t.columns, params.filters, 5), UpTo(t.columns, g, 5));
  }

  /** The medal stage removes nothing when a "Medal" column exists, when the
      medal type is itself a column name, or when the medal type is not
      gold, silver or bronze (so "total" never removes rows). */
  lemma MedalFilterNoOp(t: Table, params: QueryParams, m: string)
    requires "Medal" in t.columns || m in t.columns || m !in {"gold", "silver", "bronze"}
    ensures Retrieve(Some(t), params.(filters := params.filters.(medalType := Some(m))))
         == Retrieve(Some(t), params.(filters := params.filters.(medalType := None)))
  {
    var p := params.(filters := params.filters.(medalType := Some(m)));
    SameConditionSameOutcome(t, p, params.filters.(medalType := None));
  }

  /** A country filter without a Team or Country column removes nothing. */
  lemma CountrylessFilterNoOp(t: Table, params: QueryParams)
    requires CountryColumn(t.columns).None?
    ensures Retrieve(Some(t), params) == Retrieve(Some(t), params.(filters := params.filters.(country := None)))
  {
    var g := params.filters.(country := None);
    forall row ensures RowMatches(t.columns, params.filters, row) == RowMatches(t.columns, g, row) {
      assert CountryOk(t.columns, params.filters, row) && CountryOk(t.columns, g, row);
    }
    SameConditionSameOutcome(t, params, g);
  }

  /** A city filter without a City column removes nothing. */
  lemma CitylessFilterNoOp(t: Table, params: QueryParams)
    requires "City" !in t.columns
    ensures Retrieve(Some(t), params) == Retrieve(Some(t), params.(filters := params.filters.(city := None)))
  {
    var g := params.filters.(city := None);
    forall row ensures RowMatches(t.columns, params.filters, row) == RowMatches(t.columns, g, row) {
      assert CityOk(t.columns, params.filters, row) && CityOk(t.columns, g, row);
    }
    SameConditionSameOutcome(t, params, g);
  }

  /** A year filter without a year-named column removes nothing. */
  lemma YearlessFilterNoOp(t: Table, params: QueryParams)
    requires FirstYearColumn(t.columns).None?
    ensures Retrieve(Some(t), params) == Retrieve(Some(t), params.(filters := params.filters.(year := None)))
  {
    var g := params.filters.(year := None);
    forall row ensures RowMatches(t.columns, params.filters, row) == RowMatches(t.columns, g, row) {
      assert YearOk(t.columns, params.filters, row) && YearOk(t.columns, g, row);
    }
    SameConditionSameOutcome(t, params, g);
  }

  /** An athlete filter without a Name or Athlete column removes nothing. */
  lemma AthletelessFilterNoOp(t: Table, params: QueryParams)
    requires AthleteColumn(t.columns).None?
    ensures Retrieve(Some(t), params) == Retrieve(Some(t), params.(filters := params.filters.(athlete := None)))
  {
    var g := params.filters.(athlete := None);
    forall row ensures RowMatches(t.columns, params.filters, row) == RowMatches(t.columns, g, row) {
      assert AthleteOk(t.columns, params.filters, row) && AthleteOk(t.columns, g, row);
    }
    SameConditionSameOutcome(t, params, g);
  }

  /** When the medal stage applies, every result row has a positive count
      in the medal type's column. */
  lemma MedalFilterKeepsPositiveCounts(t: Table, params: QueryParams, m: string)
    requires params.filters.medalType == Some(m)
    requires MedalCountColumn(t.columns, m).Some?
    ensures var rows := Retrieve(Some(t), params).0.rows;
      forall i :: 0 <= i < |rows| ==> PositiveCount(At(rows[i], MedalCountColumn(t.columns, m).value))
  {
    ResultRowsMatch(t, params);
  }

  /** The "limit" inside the filter dictionary never influences the search. */
  lemma FilterLimitIgnored(df: Option<Table>, params: QueryParams, limit: Option<int>)
    ensures Retrieve(df, params.(filters := params.filters.(limit := limit))) == Retrieve(df, params)
  {
    if df.Some? {
      SameConditionSameOutcome(df.value, params, params.filters.(limit := limit));
    }
  }

  /** A prefix of sorted rows is sorted. */
  lemma SortedPrefix(rows: seq<Row>, column: string, ascending: bool, n: nat)
    requires SortedOn(rows, column, ascending) && n <= |rows|
    ensures SortedOn(rows[..n], column, ascending)
  {
  }

  /** The first `limit` rows of a sort are a sorted prefix of it, drawn
      from the sorted rows, `limit` of them when there are enough. */
  lemma SortedHead(kept: seq<Row>, column: string, ascending: bool, limit: int)
    ensures var sorted := SortRows(kept, column, ascending);
      var rows := Head(sorted, limit);
      && SortedOn(rows, column, ascending)
      && rows == sorted[..|rows|]
      && multiset(rows) <= multiset(kept)
      && (limit >= 0 ==> |rows| == if limit < |kept| then limit else |kept|)
  {
    var sorted := SortRows(kept, column, ascending);
    var rows := Head(sorted, limit);
    SortedPrefix(sorted, column, ascending, |rows|);
    assert sorted == rows + sorted[|rows|..];
    assert multiset(sorted) == multiset(rows) + multiset(sorted[|rows|..]);
  }

  /** Ranking sorts the matching rows on the first count column (descending
      unless asked otherwise, missing counts last) and keeps the first
      `limit` of them, 10 when the parameters carry no top-level limit. */
  lemma RankedResult(t: Table, params: QueryParams)
    requires RankingApplies(t.columns, params)
    ensures var rows := Retrieve(Some(t), params).0.rows;
      var column := RankColumn(t.columns).value;
      var ascending := if params.ascending.Some? then params.ascending.value else false;
      var limit := if params.limit.Some? then params.limit.value else DefaultLimit;
      var kept := Kept(t, params.filters);
      && SortedOn(rows, column, ascending)
      && (forall i, j :: 0 <= i < j < |rows| ==> Precedes(RankKey(rows[i], column), RankKey(rows[j], column), ascending))
      && rows == SortRows(kept, column, ascending)[..|rows|]
      && multiset(rows) <= multiset(kept)
      && (limit >= 0 ==> |rows| == if limit < |kept| then limit else |kept|)
      && (params.limit.None? ==> |rows| <= 10)
  {
    var column := RankColumn(t.columns).value;
    var ascending := if params.ascending.Some? then params.ascending.value else false;
    var limit := if params.limit.Some? then params.limit.value else DefaultLimit;
    var kept := Kept(t, params.filters);
    assert Retrieve(Some(t), params).0.rows == Head(SortRows(kept, column, ascending), limit);
    SortedHead(kept, column, ascending, limit);
    var rows := Retrieve(Some(t), params).0.rows;
    forall i, j | 0 <= i < j < |rows|
      ensures Precedes(RankKey(rows[i], column), RankKey(rows[j], column), ascending)
    {
      SortedOnPairwise(rows, column, ascending, i, j);
    }
  }
}
