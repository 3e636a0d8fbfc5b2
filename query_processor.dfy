/** The query processor of backend/query_processor.py: it learns the known
    entity values of a table, normalises a query, extracts entities with
    lexical rules and a thresholded best-candidate rule, classifies the
    intent and assembles the parameter dictionary.

    The sentence-embedding model is abstracted into two score functions
    fixed when the processor is built: `dot`, the dot product of a query's
    and a candidate's embeddings (entity matching), and `cosine`, the cosine
    similarity of a query's and an intent template's embeddings. Only the
    selection rules over those scores are modelled. The tokenizer and the
    stopword corpus are parameters too. */
module QueryProcessing {
  import opened Wrappers
  import opened Seqs
  import opened Strings
  import opened Tables
  import opened Queries

  /** The similarity a match or an intent must strictly exceed. */
  const Threshold: real := 0.6

  /** Stopwords that preprocessing keeps anyway. */
  const ImportantStopwords: set<string> :=
    {"in", "by", "with", "most", "least", "how", "many", "which", "what", "who"}

  /** Medal types, in the order the extractor tries them. */
  const MedalVocabulary: seq<string> := ["gold", "silver", "bronze", "total"]

  /** Words that flag a request for analysis. */
  const AnalysisTerms: seq<string> := ["analyze", "summary", "statistics"]

  /** Intent names and their template sentences, in dictionary order. */
  const IntentKeys: seq<string> := ["ranking", "medal_count", "filter", "analysis"]
  const IntentTemplates: seq<string> := [
    "Show top countries or athletes",
    "How many medals did someone win",
    "Tell me about an athlete or event",
    "Analyze performance or compare stats"
  ]

  /** Roles whose candidate values also get embeddings. */
  const EmbeddedRoles: set<string> := {"country", "city", "athlete"}

  // ---------------------------------------------------------------------
  // Knowledge base

  /** `dropna().tolist()` of a column whose values are used as text. */
  function PresentTexts(cells: seq<Cell>): (r: seq<string>)
    ensures |r| <= |cells|
  {
    if cells == [] then []
    else
      var rest := PresentTexts(cells[1..]);
      if cells[0].Missing? then rest else [Rendered(cells[0])] + rest
  }

  /** `df[column].dropna().unique().tolist()`. */
  function DistinctValues(t: Table, column: string): seq<string> {
    Distinct(PresentTexts(Column(t, column)))
  }

  /** The whole number `astype(int)` gives a year cell. */
  function YearNumber(c: Cell): Option<int> {
    match c
    case Int(n) => Some(n)
    case Text(s) => if s != [] && AllDigits(s) then Some(DigitsValue(s)) else None
    case Missing => None
  }

  function YearNumbers(cells: seq<Cell>): seq<int> {
    if cells == [] then []
    else
      var rest := YearNumbers(cells[1..]);
      match YearNumber(cells[0])
      case Some(n) => [n] + rest
      case None => rest
  }

  /** `df[year_col].dropna().astype(int).unique().tolist()`. */
  function DistinctYears(t: Table, column: string): seq<int> {
    Distinct(YearNumbers(Column(t, column)))
  }

  /** `[str(y) for y in years]`. */
  function YearTexts(years: seq<int>): (r: seq<string>)
    ensures |r| == |years|
  {
    seq(|years|, i requires 0 <= i < |years| => IntToString(years[i]))
  }

  /** The processor's learned state: the per-role value lists, the
      `all_entities` dictionary and the roles whose values were embedded
      (`kb_embeddings`, each embedding list standing for the texts it
      encodes). */
  datatype KnowledgeBase = KnowledgeBase(
    countries: seq<string>,
    cities: seq<string>,
    years: seq<int>,
    athletes: seq<string>,
    allEntities: map<string, seq<string>>,
    embedded: map<string, seq<string>>)

  const EmptyKnowledgeBase := KnowledgeBase([], [], [], [], map[], map[])

  /** A role has embeddings exactly when it has values, and for exactly those values. */
  predicate EmbeddingsMatch(kb: KnowledgeBase, role: string) {
    && (role in kb.allEntities <==> role in kb.embedded)
    && (role in kb.embedded ==> kb.embedded[role] == kb.allEntities[role])
  }

  /** The knowledge-base invariant: embedding lists parallel the value lists
      and every `all_entities` entry mirrors the field it was copied from. */
  predicate Consistent(kb: KnowledgeBase) {
    && kb.embedded.Keys <= EmbeddedRoles
    && EmbeddingsMatch(kb, "country")
    && EmbeddingsMatch(kb, "city")
    && EmbeddingsMatch(kb, "athlete")
    && ("country" in kb.allEntities ==> kb.allEntities["country"] == kb.countries)
    && ("city" in kb.allEntities ==> kb.allEntities["city"] == kb.cities)
    && ("athlete" in kb.allEntities ==> kb.allEntities["athlete"] == kb.athletes)
    && ("year" in kb.allEntities ==> kb.allEntities["year"] == YearTexts(kb.years))
    && ("medal_type" in kb.allEntities ==> kb.allEntities["medal_type"] == MedalVocabulary)
  }

  /** Step one of learning: the country list is relearned from "Team", else
      "Country", else kept, and is always (re)registered and embedded. */
  function LearnCountries(kb: KnowledgeBase, t: Table): (r: KnowledgeBase)
    ensures Consistent(kb) ==> Consistent(r)
    ensures "country" in r.allEntities && r.allEntities["country"] == r.countries
    ensures r.countries ==
      if CountryColumn(t.columns).Some? then DistinctValues(t, CountryColumn(t.columns).value) else kb.countries
    ensures forall role :: role != "country" ==> EntryKept(kb, r, role) && EmbeddingKept(kb, r, role)
  {
    var countries := match CountryColumn(t.columns)
      case Some(c) => DistinctValues(t, c)
      case None => kb.countries;
    kb.(countries := countries,
        allEntities := kb.allEntities["country" := countries],
        embedded := kb.embedded["country" := countries])
  }

  /** Step two: the city list, only when a "City" column exists. */
  function LearnCities(kb: KnowledgeBase, t: Table): (r: KnowledgeBase)
    ensures r.countries == kb.countries
    ensures Consistent(kb) ==> Consistent(r)
    ensures "City" in t.columns ==> "city" in r.allEntities && r.cities == DistinctValues(t, "City")
    ensures forall role :: role != "city" ==> EntryKept(kb, r, role) && EmbeddingKept(kb, r, role)
  {
    if "City" in t.columns then
      var cities := DistinctValues(t, "City");
      kb.(cities := cities,
          allEntities := kb.allEntities["city" := cities],
          embedded := kb.embedded["city" := cities])
    else kb
  }

  /** Step three: the year list, from the first column whose name mentions
      "year"; registered as text and not embedded. */
  function LearnYears(kb: KnowledgeBase, t: Table): (r: KnowledgeBase)
    ensures r.countries == kb.countries
    ensures Consistent(kb) ==> Consistent(r)
    ensures FirstYearColumn(t.columns).Some? ==>
      "year" in r.allEntities && r.years == DistinctYears(t, FirstYearColumn(t.columns).value)
    ensures forall role :: role != "year" ==> EntryKept(kb, r, role)
    ensures forall role :: EmbeddingKept(kb, r, role)
  {
    match FirstYearColumn(t.columns)
    case Some(c) =>
      var years := DistinctYears(t, c);
      kb.(years := years, allEntities := kb.allEntities["year" := YearTexts(years)])
    case None => kb
  }

  /** Step four: the athlete list, from "Name", else "Athlete". */
  function LearnAthletes(kb: KnowledgeBase, t: Table): (r: KnowledgeBase)
    ensures r.countries == kb.countries
    ensures Consistent(kb) ==> Consistent(r)
    ensures AthleteColumn(t.columns).Some? ==>
      "athlete" in r.allEntities && r.athletes == DistinctValues(t, AthleteColumn(t.columns).value)
    ensures forall role :: role != "athlete" ==> EntryKept(kb, r, role) && EmbeddingKept(kb, r, role)
  {
    match AthleteColumn(t.columns)
    case Some(c) =>
      var athletes := DistinctValues(t, c);
      kb.(athletes := athletes,
          allEntities := kb.allEntities["athlete" := athletes],
          embedded := kb.embedded["athlete" := athletes])
    case None => kb
  }

  /** Last step: the fixed medal vocabulary. */
  function LearnMedalTypes(kb: KnowledgeBase): (r: KnowledgeBase)
    ensures r.countries == kb.countries
    ensures Consistent(kb) ==> Consistent(r)
    ensures "medal_type" in r.allEntities && r.allEntities["medal_type"] == MedalVocabulary
    ensures forall role :: role != "medal_type" ==> EntryKept(kb, r, role)
    ensures forall role :: EmbeddingKept(kb, r, role)
  {
    kb.(allEntities := kb.allEntities["medal_type" := MedalVocabulary])
  }

  /** `learn_from_data` on a table: the four roles in source order, then the
      medal vocabulary. */
  function Learn(kb: KnowledgeBase, t: Table): (r: KnowledgeBase)
    ensures Consistent(kb) ==> Consistent(r)
    ensures "country" in r.allEntities && r.allEntities["country"] == r.countries
    ensures "medal_type" in r.allEntities && r.allEntities["medal_type"] == MedalVocabulary
  {
    LearnMedalTypes(LearnAthletes(LearnYears(LearnCities(LearnCountries(kb, t), t), t), t))
  }

  /** Without a "Team" or "Country" column the country values are kept,
      and the country entry is re-registered with them. */
  lemma LearnKeepsCountries(kb: KnowledgeBase, t: Table)
    requires CountryColumn(t.columns).None?
    ensures Learn(kb, t).countries == kb.countries
    ensures Learn(kb, t).allEntities["country"] == kb.countries
  {
  }

  /** `role` is registered with `values`, and embedded with them too when `embeds` holds. */
  predicate EntryIs(kb: KnowledgeBase, role: string, values: seq<string>, embeds: bool) {
    && role in kb.allEntities && kb.allEntities[role] == values
    && (embeds ==> role in kb.embedded && kb.embedded[role] == values)
  }

  /** `role`'s `all_entities` entry is the same, present or absent, in both. */
  predicate EntryKept(kb: KnowledgeBase, kb': KnowledgeBase, role: string) {
    && (role in kb'.allEntities <==> role in kb.allEntities)
    && (role in kb.allEntities ==> kb'.allEntities[role] == kb.allEntities[role])
  }

  /** `role`'s embeddings are the same, present or absent, in both. */
  predicate EmbeddingKept(kb: KnowledgeBase, kb': KnowledgeBase, role: string) {
    && (role in kb'.embedded <==> role in kb.embedded)
    && (role in kb.embedded ==> kb'.embedded[role] == kb.embedded[role])
  }

  /** The roles learning overwrites from table `t`. */
  predicate Relearned(t: Table, role: string) {
    || role == "country" || role == "medal_type"
    || (role == "city" && "City" in t.columns)
    || (role == "year" && FirstYearColumn(t.columns).Some?)
    || (role == "athlete" && AthleteColumn(t.columns).Some?)
  }

  /** The five role names of `all_entities` are pairwise different. */
  lemma RoleNamesDiffer()
    ensures "country" != "city" && "country" != "year" && "country" != "athlete" && "country" != "medal_type"
    ensures "city" != "year" && "city" != "athlete" && "city" != "medal_type"
    ensures "year" != "athlete" && "year" != "medal_type" && "athlete" != "medal_type"
  {
    assert "country"[0] != "year"[0] && "country"[0] != "athlete"[0] && "country"[0] != "medal_type"[0];
    assert "country"[1] != "city"[1];
    assert "city"[0] != "year"[0] && "city"[0] != "athlete"[0] && "city"[0] != "medal_type"[0];
    assert "year"[0] != "athlete"[0] && "year"[0] != "medal_type"[0] && "athlete"[0] != "medal_type"[0];
  }

  /** The country entry and its embeddings always hold the learned countries. */
  lemma LearnCountryEntry(kb: KnowledgeBase, t: Table)
    ensures EntryIs(Learn(kb, t), "country", Learn(kb, t).countries, true)
  {
    RoleNamesDiffer();
    var k1 := LearnCountries(kb, t);
    var k2 := LearnCities(k1, t);
    var k3 := LearnYears(k2, t);
    var k4 := LearnAthletes(k3, t);
    assert EmbeddingKept(k1, k2, "country") && EmbeddingKept(k2, k3, "country") && EmbeddingKept(k3, k4, "country");
    assert EmbeddingKept(k4, LearnMedalTypes(k4), "country");
  }

  /** With a "City" column the city entry and its embeddings hold its distinct values. */
  lemma LearnCityEntry(kb: KnowledgeBase, t: Table)
    requires "City" in t.columns
    ensures EntryIs(Learn(kb, t), "city", DistinctValues(t, "City"), true)
  {
    RoleNamesDiffer();
    var k2 := LearnCities(LearnCountries(kb, t), t);
    var k3 := LearnYears(k2, t);
    var k4 := LearnAthletes(k3, t);
    assert EntryKept(k2, k3, "city") && EntryKept(k3, k4, "city") && EntryKept(k4, LearnMedalTypes(k4), "city");
    assert EmbeddingKept(k2, k3, "city") && EmbeddingKept(k3, k4, "city");
    assert EmbeddingKept(k4, LearnMedalTypes(k4), "city");
  }

  /** With a year-named column the year entry holds its distinct years as
      text; year embeddings, never computed, are unchanged. */
  lemma LearnYearEntry(kb: KnowledgeBase, t: Table)
    requires FirstYearColumn(t.columns).Some?
    ensures EntryIs(Learn(kb, t), "year", YearTexts(DistinctYears(t, FirstYearColumn(t.columns).value)), false)
    ensures EmbeddingKept(kb, Learn(kb, t), "year")
  {
    RoleNamesDiffer();
    var k1 := LearnCountries(kb, t);
    var k2 := LearnCities(k1, t);
    var k3 := LearnYears(k2, t);
    var k4 := LearnAthletes(k3, t);
    assert EntryKept(k3, k4, "year") && EntryKept(k4, LearnMedalTypes(k4), "year");
    assert EmbeddingKept(kb, k1, "year") && EmbeddingKept(k1, k2, "year") && EmbeddingKept(k2, k3, "year");
    assert EmbeddingKept(k3, k4, "year") && EmbeddingKept(k4, LearnMedalTypes(k4), "year");
  }

  /** With a "Name" or "Athlete" column the athlete entry and its embeddings
      hold that column's distinct values. */
  lemma LearnAthleteEntry(kb: KnowledgeBase, t: Table)
    requires AthleteColumn(t.columns).Some?
    ensures EntryIs(Learn(kb, t), "athlete", DistinctValues(t, AthleteColumn(t.columns).value), true)
  {
    RoleNamesDiffer();
    var k4 := LearnAthletes(LearnYears(LearnCities(LearnCountries(kb, t), t), t), t);
    assert EntryKept(k4, LearnMedalTypes(k4), "athlete") && EmbeddingKept(k4, LearnMedalTypes(k4), "athlete");
  }

  /** The medal vocabulary is never embedded: its embeddings are unchanged. */
  lemma LearnMedalTypeEntry(kb: KnowledgeBase, t: Table)
    ensures EntryIs(Learn(kb, t), "medal_type", MedalVocabulary, false)
    ensures EmbeddingKept(kb, Learn(kb, t), "medal_type")
  {
    RoleNamesDiffer();
    var k1 := LearnCountries(kb, t);
    var k2 := LearnCities(k1, t);
    var k3 := LearnYears(k2, t);
    var k4 := LearnAthletes(k3, t);
    assert EmbeddingKept(kb, k1, "medal_type") && EmbeddingKept(k1, k2, "medal_type") && EmbeddingKept(k2, k3, "medal_type");
    assert EmbeddingKept(k3, k4, "medal_type") && EmbeddingKept(k4, LearnMedalTypes(k4), "medal_type");
  }

  /** A role learning does not overwrite keeps its entry and its embeddings. */
  lemma LearnKeepsOtherRoles(kb: KnowledgeBase, t: Table, role: string)
    requires !Relearned(t, role)
    ensures EntryKept(kb, Learn(kb, t), role) && EmbeddingKept(kb, Learn(kb, t), role)
  {
    var k1 := LearnCountries(kb, t);
    var k2 := LearnCities(k1, t);
    var k3 := LearnYears(k2, t);
    var k4 := LearnAthletes(k3, t);
    if role != "city" {
      assert EntryKept(k1, k2, role) && EmbeddingKept(k1, k2, role);
    }
    if role != "year" {
      assert EntryKept(k2, k3, role);
    }
    if role != "athlete" {
      assert EntryKept(k3, k4, role) && EmbeddingKept(k3, k4, role);
    }
    assert EntryKept(kb, k1, role) && EmbeddingKept(kb, k1, role);
    assert EmbeddingKept(k2, k3, role);
    assert EntryKept(k4, LearnMedalTypes(k4), role) && EmbeddingKept(k4, LearnMedalTypes(k4), role);
  }

  /** Relearning from the same table gives every role the entry and the
      embeddings it already had. */
  lemma RelearnKeepsEntry(kb: KnowledgeBase, t: Table, role: string)
    ensures EntryKept(Learn(kb, t), Learn(Learn(kb, t), t), role)
    ensures EmbeddingKept(Learn(kb, t), Learn(Learn(kb, t), t), role)
  {
    var r := Learn(kb, t);
    if role == "country" {
      LearnCountryEntry(kb, t);
      LearnCountryEntry(r, t);
      assert LearnCountries(r, t).countries == LearnCountries(kb, t).countries;
    } else if role == "medal_type" {
      LearnMedalTypeEntry(r, t);
    } else if role == "city" && "City" in t.columns {
      LearnCityEntry(kb, t);
      LearnCityEntry(r, t);
    } else if role == "year" && FirstYearColumn(t.columns).Some? {
      LearnYearEntry(r, t);
      LearnYearEntry(kb, t);
    } else if role == "athlete" && AthleteColumn(t.columns).Some? {
      LearnAthleteEntry(kb, t);
      LearnAthleteEntry(r, t);
    } else {
      LearnKeepsOtherRoles(r, t, role);
    }
  }

  /** Relearning from the same table gives every role the values it already had. */
  lemma RelearnKeepsValues(kb: KnowledgeBase, t: Table)
    ensures Learn(Learn(kb, t), t).countries == Learn(kb, t).countries
    ensures Learn(Learn(kb, t), t).cities == Learn(kb, t).cities
    ensures Learn(Learn(kb, t), t).years == Learn(kb, t).years
    ensures Learn(Learn(kb, t), t).athletes == Learn(kb, t).athletes
  {
    assert LearnCountries(Learn(kb, t), t).countries == LearnCountries(kb, t).countries;
  }

  /** Relearning from the same table leaves `all_entities` as it was. */
  lemma RelearnKeepsEntities(kb: KnowledgeBase, t: Table)
    ensures Learn(Learn(kb, t), t).allEntities == Learn(kb, t).allEntities
  {
    var m := Learn(kb, t).allEntities;
    var m2 := Learn(Learn(kb, t), t).allEntities;
    forall role
      ensures (role in m2 <==> role in m) && (role in m ==> m2[role] == m[role])
    {
      RelearnKeepsEntry(kb, t, role);
    }
  }

  /** Relearning from the same table leaves the embeddings as they were. */
  lemma RelearnKeepsEmbeddings(kb: KnowledgeBase, t: Table)
    ensures Learn(Learn(kb, t), t).embedded == Learn(kb, t).embedded
  {
    var m := Learn(kb, t).embedded;
    var m2 := Learn(Learn(kb, t), t).embedded;
    forall role
      ensures (role in m2 <==> role in m) && (role in m ==> m2[role] == m[role])
    {
      RelearnKeepsEntry(kb, t, role);
    }
  }

  /** Learning twice from the same table is learning once: every role is
      either relearned from the table or kept. */
  lemma LearnIdempotent(kb: KnowledgeBase, t: Table)
    ensures Learn(Learn(kb, t), t) == Learn(kb, t)
  {
    RelearnKeepsValues(kb, t);
    RelearnKeepsEntities(kb, t);
    RelearnKeepsEmbeddings(kb, t);
  }

  /** Without a "City" column the city role keeps its values and entry. */
  lemma LearnKeepsCities(kb: KnowledgeBase, t: Table)
    requires "City" !in t.columns
    ensures Learn(kb, t).cities == kb.cities
    ensures "city" in Learn(kb, t).allEntities <==> "city" in kb.allEntities
    ensures "city" in kb.allEntities ==> Learn(kb, t).allEntities["city"] == kb.allEntities["city"]
  {
    RoleNamesDiffer();
    var k1 := LearnCountries(kb, t);
    assert LearnCities(k1, t) == k1;
    var k3 := LearnYears(k1, t);
    var k4 := LearnAthletes(k3, t);
    assert EntryKept(kb, k1, "city") && EntryKept(k1, k3, "city") && EntryKept(k3, k4, "city");
    assert EntryKept(k4, LearnMedalTypes(k4), "city");
  }

  /** Without a year-named column the year role keeps its values and entry. */
  lemma LearnKeepsYears(kb: KnowledgeBase, t: Table)
    requires FirstYearColumn(t.columns).None?
    ensures Learn(kb, t).years == kb.years
    ensures "year" in Learn(kb, t).allEntities <==> "year" in kb.allEntities
    ensures "year" in kb.allEntities ==> Learn(kb, t).allEntities["year"] == kb.allEntities["year"]
  {
    var k2 := LearnCities(LearnCountries(kb, t), t);
    assert LearnYears(k2, t) == k2;
  }

  /** Without a "Name" or "Athlete" column the athlete role keeps its values and entry. */
  lemma LearnKeepsAthletes(kb: KnowledgeBase, t: Table)
    requires AthleteColumn(t.columns).None?
    ensures Learn(kb, t).athletes == kb.athletes
    ensures "athlete" in Learn(kb, t).allEntities <==> "athlete" in kb.allEntities
    ensures "athlete" in kb.allEntities ==> Learn(kb, t).allEntities["athlete"] == kb.allEntities["athlete"]
  {
    var k3 := LearnYears(LearnCities(LearnCountries(kb, t), t), t);
    assert LearnAthletes(k3, t) == k3;
  }

  /** Country candidates are the distinct non-missing values of "Team" when
      that column exists, else of "Country", in first-seen order. */
  lemma LearnedCountries(kb: KnowledgeBase, t: Table)
    requires CountryColumn(t.columns).Some?
    ensures var c := Learn(kb, t).countries;
      && ("Team" in t.columns ==> c == DistinctValues(t, "Team"))
      && ("Team" !in t.columns ==> c == DistinctValues(t, "Country"))
      && NoDuplicates(c)
      && (forall i, j :: 0 <= i < j < |c| ==>
            FirstIndex(PresentTexts(Column(t, CountryColumn(t.columns).value)), c[i])
            < FirstIndex(PresentTexts(Column(t, CountryColumn(t.columns).value)), c[j]))
  {
    var cells := PresentTexts(Column(t, CountryColumn(t.columns).value));
    forall i, j | 0 <= i < j < |Distinct(cells)|
      ensures FirstIndex(cells, Distinct(cells)[i]) < FirstIndex(cells, Distinct(cells)[j])
    {
      DistinctFirstSeen(cells, i, j);
    }
  }

  /** A row of the three-row medal table the unit tests use. */
  function SampleRow(team: string, gold: int, silver: int, bronze: int): Row {
    map["Team" := Text(team), "Year" := Int(2020), "Gold" := Int(gold), "Silver" := Int(silver), "Bronze" := Int(bronze)]
  }

  function SampleTable(): Table {
    Table(["Team", "Year", "Gold", "Silver", "Bronze"],
          [SampleRow("USA", 39, 41, 33), SampleRow("China", 38, 32, 18), SampleRow("UK", 22, 21, 22)])
  }

  /** The non-missing "Team" values of the unit tests' table, top to bottom. */
  lemma SampleTeamTexts()
    ensures PresentTexts(Column(SampleTable(), "Team")) == ["USA", "China", "UK"]
  {
    var cells := Column(SampleTable(), "Team");
    assert cells == [Text("USA"), Text("China"), Text("UK")];
    assert cells[1..][1..] == [Text("UK")];
    assert cells[1..][1..][1..] == [];
    assert PresentTexts(cells[1..][1..]) == ["UK"];
    assert PresentTexts(cells[1..]) == ["China", "UK"];
  }

  /** The three sample teams are pairwise different, so `unique` keeps all three. */
  lemma SampleTeamsDistinct()
    ensures Distinct(["USA", "China", "UK"]) == ["USA", "China", "UK"]
  {
    var texts := ["USA", "China", "UK"];
    assert texts[..2][..1] == ["USA"];
    assert Distinct(texts[..2][..1]) == ["USA"];
    assert "China" != "USA" by { assert "China"[0] != "USA"[0]; }
    assert Distinct(texts[..2]) == ["USA", "China"];
    assert "UK"[1] != "USA"[1];
    assert "UK" != "China" by { assert "China"[0] != "UK"[0]; }
  }

  /** Learning from the unit tests' table yields exactly USA, China, UK. */
  lemma SampleTableCountries(kb: KnowledgeBase)
    ensures Learn(kb, SampleTable()).countries == ["USA", "China", "UK"]
  {
    var t := SampleTable();
    assert CountryColumn(t.columns) == Some("Team");
    assert Learn(kb, t).countries == LearnCountries(kb, t).countries == DistinctValues(t, "Team");
    SampleTeamTexts();
    SampleTeamsDistinct();
  }

  // ---------------------------------------------------------------------
  // Preprocessing

  /** A token survives preprocessing unless it is an unimportant stopword. */
  predicate KeepToken(stopwords: set<string>, token: string) {
    token !in stopwords || token in ImportantStopwords
  }

  /** The tokens of the lower-cased query that preprocessing keeps. */
  function KeptTokens(stopwords: set<string>, tokenize: string -> seq<string>, query: string): seq<string> {
    Filter(tokenize(Lower(query)), token => KeepToken(stopwords, token))
  }

  /** `preprocess_query`: lower-case, tokenize, drop stopwords, join with spaces. */
  function Preprocess(stopwords: set<string>, tokenize: string -> seq<string>, query: string): (r: string)
    ensures var tokens := tokenize(Lower(query));
      forall i :: 0 <= i < |tokens| && KeepToken(stopwords, tokens[i]) ==> Contains(r, tokens[i])
  {
    var kept := KeptTokens(stopwords, tokenize, query);
    JoinContainsParts(kept, " ");
    Join(kept, " ")
  }

  /** Preprocessing keeps exactly the allowed tokens of the lower-cased
      query, in their original order. */
  lemma KeptTokensSpec(stopwords: set<string>, tokenize: string -> seq<string>, query: string)
    ensures var tokens := tokenize(Lower(query));
      var kept := KeptTokens(stopwords, tokenize, query);
      && IsSubseq(kept, tokens)
      && (forall i :: 0 <= i < |kept| ==> KeepToken(stopwords, kept[i]))
      && (forall i :: 0 <= i < |tokens| && KeepToken(stopwords, tokens[i]) ==> tokens[i] in kept)
  {
    FilterIsSubseq(tokenize(Lower(query)), token => KeepToken(stopwords, token));
  }

  // ---------------------------------------------------------------------
  // Semantic matching

  /** The score of every candidate against the query. */
  function Scores(score: (string, string) -> real, query: string, candidates: seq<string>): (s: seq<real>)
    ensures |s| == |candidates|
    ensures forall i :: 0 <= i < |candidates| ==> s[i] == score(query, candidates[i])
  {
    seq(|candidates|, i requires 0 <= i < |candidates| => score(query, candidates[i]))
  }

  /** `_semantic_match`: the first best-scoring candidate, if its score is
      strictly above the threshold. */
  function SemanticMatch(score: (string, string) -> real, query: string, candidates: seq<string>): (r: Option<string>)
    ensures candidates == [] ==> r == None
    ensures r.Some? <==> exists i :: 0 <= i < |candidates| && score(query, candidates[i]) > Threshold
    ensures r.Some? ==> r.value == candidates[FirstArgMax(Scores(score, query, candidates))]
    ensures r.Some? ==> r.value in candidates && score(query, r.value) > Threshold
    ensures r.Some? ==> forall j :: 0 <= j < |candidates| ==> score(query, candidates[j]) <= score(query, r.value)
  {
    if candidates == [] then None
    else
      var scores := Scores(score, query, candidates);
      var best := FirstArgMax(scores);
      if scores[best] > Threshold then Some(candidates[best]) else None
  }

  /** A candidate that scores above the threshold and strictly above every
      other candidate is the match. */
  lemma ClearWinnerMatches(score: (string, string) -> real, query: string, candidates: seq<string>, i: nat)
    requires i < |candidates| && score(query, candidates[i]) > Threshold
    requires forall j :: 0 <= j < |candidates| && j != i ==> score(query, candidates[j]) < score(query, candidates[i])
    ensures SemanticMatch(score, query, candidates) == Some(candidates[i])
  {
  }

  // ---------------------------------------------------------------------
  // Lexical rules: the regular expressions \b(19|20)\d{2}\b and \b\d+\b

  /** `\b` before a word character at `i`. */
  predicate BoundaryBefore(s: string, i: nat)
    requires i <= |s|
  {
    i == 0 || !IsWordChar(s[i - 1])
  }

  /** `\b` after a word character ending at `j`. */
  predicate BoundaryAfter(s: string, j: nat)
    requires j <= |s|
  {
    j == |s| || !IsWordChar(s[j])
  }

  /** The end of the run of digits starting at `i`. */
  function DigitRunEnd(s: string, i: nat): (j: nat)
    requires i <= |s|
    ensures i <= j <= |s|
    ensures forall k :: i <= k < j ==> IsDigitChar(s[k])
    ensures AllDigits(s[i..j])
    ensures j == |s| || !IsDigitChar(s[j])
    decreases |s| - i
  {
    if i < |s| && IsDigitChar(s[i]) then DigitRunEnd(s, i + 1) else i
  }

  /** `\b\d+\b` matches at `i`: a whole run of digits standing alone. */
  predicate IntegerAt(s: string, i: nat) {
    i < |s| && IsDigitChar(s[i]) && BoundaryBefore(s, i) && BoundaryAfter(s, DigitRunEnd(s, i))
  }

  /** `\b(19|20)\d{2}\b` matches at `i`. */
  predicate YearTokenAt(s: string, i: nat) {
    && i + 4 <= |s|
    && (s[i..i + 2] == "19" || s[i..i + 2] == "20")
    && IsDigitChar(s[i + 2]) && IsDigitChar(s[i + 3])
    && BoundaryBefore(s, i) && BoundaryAfter(s, i + 4)
  }

  /** The four characters of a year token are digits. */
  lemma YearTokenDigits(s: string, i: nat)
    requires YearTokenAt(s, i)
    ensures forall k :: i <= k < i + 4 ==> IsDigitChar(s[k])
    ensures AllDigits(s[i..i + 4])
  {
    assert s[i] == s[i..i + 2][0] && s[i + 1] == s[i..i + 2][1];
  }

  /** `re.search(r'\b(19|20)\d{2}\b', s).group()`. */
  function YearToken(s: string): (r: Option<string>)
    ensures r.Some? ==> |r.value| == 4 && AllDigits(r.value)
  {
    match Leftmost((i: nat) => YearTokenAt(s, i), 0, |s|)
    case Some(i) =>
      YearTokenDigits(s, i);
      Some(s[i..i + 4])
    case None => None
  }

  /** Where `re.search(r'\b\d+\b', s)` matches. */
  function FirstIntegerAt(s: string): Option<nat> {
    Leftmost((i: nat) => IntegerAt(s, i), 0, |s|)
  }

  /** `int(re.search(r'\b\d+\b', s).group())`. */
  function FirstInteger(s: string): Option<nat> {
    match FirstIntegerAt(s)
    case Some(i) => Some(DigitsValue(s[i..DigitRunEnd(s, i)]))
    case None => None
  }

  /** A year token is itself a standalone four-digit integer from 1900 to 2099. */
  lemma YearTokenIsInteger(s: string, i: nat)
    requires YearTokenAt(s, i)
    ensures IntegerAt(s, i) && DigitRunEnd(s, i) == i + 4
    ensures ((k: nat) => IntegerAt(s, k))(i) && ((k: nat) => YearTokenAt(s, k))(i)
    ensures 1900 <= DigitsValue(s[i..i + 4]) <= 2099
  {
    YearTokenDigits(s, i);
    assert DigitRunEnd(s, i) == DigitRunEnd(s, i + 1) == DigitRunEnd(s, i + 2)
      == DigitRunEnd(s, i + 3) == DigitRunEnd(s, i + 4) == i + 4;
    var t := s[i..i + 4];
    assert t[..2] == s[i..i + 2];
    CenturyDigitsValue(t);
  }

  /** Four digits starting with 19 or 20 are worth 1900 to 2099. */
  lemma CenturyDigitsValue(t: string)
    requires |t| == 4 && AllDigits(t) && (t[..2] == "19" || t[..2] == "20")
    ensures 1900 <= DigitsValue(t) <= 2099
  {
    var two := t[..2];
    assert t[..3][..2] == two;
    assert two[..1] == [t[0]] && two[..1][..0] == [];
    assert t[0] == two[0] && t[1] == two[1];
    assert DigitsValue(two[..1]) == t[0] as int - '0' as int;
    assert DigitsValue(two) == DigitsValue(two[..1]) * 10 + (t[1] as int - '0' as int);
    assert DigitsValue(two) == 19 || DigitsValue(two) == 20;
    assert DigitsValue(t[..3]) == DigitsValue(two) * 10 + (t[2] as int - '0' as int);
    assert DigitsValue(t) == DigitsValue(t[..3]) * 10 + (t[3] as int - '0' as int);
  }

  /** When the query holds no standalone integer it holds no year token either. */
  lemma NoIntegerNoYear(s: string)
    requires FirstIntegerAt(s).None?
    ensures YearToken(s).None?
  {
    match Leftmost((i: nat) => YearTokenAt(s, i), 0, |s|)
    case Some(i) =>
      YearTokenIsInteger(s, i);
      assert false;
    case None =>
  }

  /** The year and quantity entities: the year token, overridden by the
      first standalone integer when that lies strictly between 1800 and
      2050; otherwise that integer is the quantity. */
  function YearAndQuantity(q: string): (r: (Option<string>, Option<nat>))
    ensures FirstInteger(q).None? ==> r == (None, None)
    ensures r.0.Some? ==> |r.0.value| == 4 && AllDigits(r.0.value)
    ensures r.1.Some? ==> FirstInteger(q) == r.1 && !(1800 < r.1.value < 2050)
    ensures FirstInteger(q).Some? && 1800 < FirstInteger(q).value < 2050 ==>
      r == (Some(NatToString(FirstInteger(q).value)), None)
    ensures FirstInteger(q).Some? && !(1800 < FirstInteger(q).value < 2050) ==>
      r == (YearToken(q), FirstInteger(q))
  {
    var year := YearToken(q);
    match FirstInteger(q)
    case None =>
      NoIntegerNoYear(q);
      (year, None)
    case Some(n) =>
      if 1800 < n < 2050 then
        FourDigitText(n);
        (Some(NatToString(n)), None)
      else (year, Some(n))
  }

  /** If the first standalone integer is a year token below 2050, the year
      is that token's own text and there is no quantity. */
  lemma LeadingYearTokenIsYear(q: string, i: nat)
    requires FirstIntegerAt(q) == Some(i) && YearTokenAt(q, i)
    requires FirstInteger(q).Some? && FirstInteger(q).value < 2050
    ensures YearAndQuantity(q) == (Some(q[i..i + 4]), None)
  {
    YearTokenIsInteger(q, i);
    var t := q[i..i + 4];
    assert t[0] == q[i..i + 2][0];
    DigitsRoundTrip(t);
  }

  /** If the first standalone integer is a year token from 2050 on, it is
      both the year (via the regex) and the quantity (via the override rule). */
  lemma LateYearTokenIsAlsoQuantity(q: string, i: nat)
    requires FirstIntegerAt(q) == Some(i) && YearTokenAt(q, i)
    requires FirstInteger(q).Some? && FirstInteger(q).value >= 2050
    ensures YearAndQuantity(q) == (Some(q[i..i + 4]), FirstInteger(q))
  {
    YearTokenIsInteger(q, i);
    match Leftmost((j: nat) => YearTokenAt(q, j), 0, |q|)
    case Some(j) =>
      if j < i {
        YearTokenIsInteger(q, j);
        assert false;
      }
      assert ((k: nat) => YearTokenAt(q, k))(i);
    case None =>
      assert false;
  }

  /** The first of the words that occurs in `s`, by position in `words`. */
  function FirstContained(s: string, words: seq<string>): (r: Option<nat>)
    ensures r.Some? ==> r.value < |words| && Contains(s, words[r.value])
    ensures r.Some? ==> forall j :: 0 <= j < r.value ==> !Contains(s, words[j])
    ensures r.None? ==> forall j :: 0 <= j < |words| ==> !Contains(s, words[j])
  {
    var hit := (k: nat) => k < |words| && Contains(s, words[k]);
    var r := Leftmost(hit, 0, |words|);
    assert r.Some? ==> forall j :: 0 <= j < r.value ==> !Contains(s, words[j]) by {
      if r.Some? {
        forall j | 0 <= j < r.value ensures !Contains(s, words[j]) {
          assert !hit(j);
        }
      }
    }
    assert r.None? ==> forall j :: 0 <= j < |words| ==> !Contains(s, words[j]) by {
      if r.None? {
        forall j | 0 <= j < |words| ensures !Contains(s, words[j]) {
          assert !hit(j);
        }
      }
    }
    r
  }

  /** The medal-type entity: the first of gold, silver, bronze, total that
      occurs in the lower-cased query. */
  function MedalMentioned(q: string): (r: Option<string>)
    ensures forall k :: 0 <= k < |MedalVocabulary| ==>
      (r == Some(MedalVocabulary[k]) <==>
        Contains(Lower(q), MedalVocabulary[k]) && forall j :: 0 <= j < k ==> !Contains(Lower(q), MedalVocabulary[j]))
    ensures r.None? <==> forall k :: 0 <= k < |MedalVocabulary| ==> !Contains(Lower(q), MedalVocabulary[k])
    ensures r.Some? ==> r.value in MedalVocabulary && Contains(Lower(q), r.value)
  {
    match FirstContained(Lower(q), MedalVocabulary)
    case Some(k) => Some(MedalVocabulary[k])
    case None => None
  }

  /** The analysis flag: some analysis term occurs in the lower-cased query. */
  function AnalysisRequested(q: string): (b: bool)
    ensures b <==> exists k :: 0 <= k < |AnalysisTerms| && Contains(Lower(q), AnalysisTerms[k])
  {
    FirstContained(Lower(q), AnalysisTerms).Some?
  }

  /** The entities `match_entities` extracts from a preprocessed query. */
  function EntitiesOf(known: map<string, seq<string>>, dot: (string, string) -> real, q: string): (e: Entities)
    ensures e.country.Some? ==> "country" in known && e.country.value in known["country"] && dot(q, e.country.value) > Threshold
    ensures e.city.Some? ==> "city" in known && e.city.value in known["city"] && dot(q, e.city.value) > Threshold
    ensures e.athlete.Some? ==> "athlete" in known && e.athlete.value in known["athlete"] && dot(q, e.athlete.value) > Threshold
    ensures e.comparison.None?
    ensures e.medalType.Some? ==> e.medalType.value in MedalVocabulary && Contains(Lower(q), e.medalType.value)
    ensures e.analysis <==> exists k :: 0 <= k < |AnalysisTerms| && Contains(Lower(q), AnalysisTerms[k])
  {
    var yq := YearAndQuantity(q);
    Entities(
      country := if "country" in known then SemanticMatch(dot, q, known["country"]) else None,
      year := yq.0,
      medalType := MedalMentioned(q),
      comparison := None,
      quantity := yq.1,
      analysis := AnalysisRequested(q),
      city := if "city" in known then SemanticMatch(dot, q, known["city"]) else None,
      athlete := if "athlete" in known then SemanticMatch(dot, q, known["athlete"]) else None)
  }

  /** The unit tests' query "How many gold medals did USA win in 2020?" as
      the stopword filter leaves it. */
  const SampleQuery := "how many gold medals usa win in 2020 ?"

  /** The words before the year hold no digit. */
  lemma SampleQueryTextPart()
    ensures |SampleQuery| == 38
    ensures forall j :: 0 <= j < 32 ==> !IsDigitChar(SampleQuery[j])
  {
  }

  /** Its first standalone integer is the year token at position 32. */
  lemma SampleQueryInteger()
    ensures YearTokenAt(SampleQuery, 32) && FirstIntegerAt(SampleQuery) == Some(32)
  {
    var q := SampleQuery;
    var isInteger := (i: nat) => IntegerAt(q, i);
    assert YearTokenAt(q, 32);
    YearTokenIsInteger(q, 32);
    SampleQueryTextPart();
    forall j | 0 <= j < 32
      ensures !isInteger(j)
    {
      assert !IsDigitChar(q[j]);
    }
    LeftmostAt(isInteger, 0, |q|, 32);
  }

  /** The query yields the year "2020" and no quantity. */
  lemma SampleQueryYear()
    ensures YearAndQuantity(SampleQuery) == (Some("2020"), None)
  {
    SampleQueryInteger();
    YearTokenIsInteger(SampleQuery, 32);
    assert SampleQuery[32..36] == "2020";
    LeadingYearTokenIsYear(SampleQuery, 32);
  }

  /** The query yields the medal type "gold". */
  lemma SampleQueryMedal()
    ensures MedalMentioned(SampleQuery) == Some("gold")
  {
    var lowered := Lower(SampleQuery);
    assert SampleQuery[9] == 'g' && SampleQuery[10] == 'o' && SampleQuery[11] == 'l' && SampleQuery[12] == 'd';
    assert lowered[9] == LowerChar('g') && lowered[10] == LowerChar('o');
    assert lowered[11] == LowerChar('l') && lowered[12] == LowerChar('d');
    assert lowered[9..13] == "gold";
    ContainsAt(lowered, "gold", 9);
  }

  // ---------------------------------------------------------------------
  // Intent

  function TemplateScores(cosine: (string, string) -> real, query: string): seq<real> {
    Scores(cosine, query, IntentTemplates)
  }

  /** `determine_query_intent`: the first template with the highest
      similarity, if that similarity is strictly above the threshold;
      "filter" otherwise. */
  function ClassifyIntent(cosine: (string, string) -> real, query: string): (intent: string)
    ensures intent in IntentKeys
    ensures (forall i :: 0 <= i < |IntentTemplates| ==> cosine(query, IntentTemplates[i]) <= Threshold) ==> intent == "filter"
    ensures (exists i :: 0 <= i < |IntentTemplates| && cosine(query, IntentTemplates[i]) > Threshold) ==>
      intent == IntentKeys[FirstArgMax(TemplateScores(cosine, query))]
  {
    var sims := TemplateScores(cosine, query);
    var best := FirstArgMax(sims);
    if sims[best] > Threshold then IntentKeys[best] else "filter"
  }

  // ---------------------------------------------------------------------
  // Planning

  /** The filter dictionary: one key per truthy entity, value unchanged;
      a non-zero quantity under "limit". */
  function PlanFilters(e: Entities): (f: Filters)
    ensures f.country.Some? <==> Truthy(e.country)
    ensures f.year.Some? <==> Truthy(e.year)
    ensures f.medalType.Some? <==> Truthy(e.medalType)
    ensures f.city.Some? <==> Truthy(e.city)
    ensures f.athlete.Some? <==> Truthy(e.athlete)
    ensures f.country.Some? ==> f.country == e.country
    ensures f.year.Some? ==> f.year == e.year
    ensures f.medalType.Some? ==> f.medalType == e.medalType
    ensures f.city.Some? ==> f.city == e.city
    ensures f.athlete.Some? ==> f.athlete == e.athlete
    ensures f.limit.Some? <==> e.quantity.Some? && e.quantity.value != 0
    ensures f.limit.Some? ==> f.limit.value == e.quantity.value
  {
    Filters(
      country := if Truthy(e.country) then e.country else None,
      year := if Truthy(e.year) then e.year else None,
      medalType := if Truthy(e.medalType) then e.medalType else None,
      city := if Truthy(e.city) then e.city else None,
      athlete := if Truthy(e.athlete) then e.athlete else None,
      limit := if e.quantity.Some? && e.quantity.value != 0 then Some(e.quantity.value) else None)
  }

  /** The parameter dictionary `process_query` returns. It never has a
      top-level "limit" or "ascending" key. */
  function MakeParams(query: string, e: Entities, intent: string): (p: QueryParams)
    ensures p.intent == Some(intent) && p.entities == Some(e) && p.originalQuery == Some(query)
    ensures p.filters.limit.Some? <==> e.quantity.Some? && e.quantity.value != 0
    ensures p.limit.None? && p.ascending.None?
  {
    QueryParams(Some(intent), PlanFilters(e), Some(e), Some(query), None, None)
  }

  /** `process_query` relearns when given a table and either it was built
      without a schema or it knows no country yet. */
  predicate WillLearn(data: Option<Table>, hasDataSchema: bool, known: map<string, seq<string>>): (b: bool)
    ensures b ==> data.Some?
    ensures !hasDataSchema ==> (b <==> data.Some?)
    ensures hasDataSchema && data.Some? ==> (b <==> "country" !in known || known["country"] == [])
  {
    data.Some? && (!hasDataSchema || !("country" in known && known["country"] != []))
  }

  // ---------------------------------------------------------------------
  // The processor object

  class QueryProcessor {
    const dot: (string, string) -> real
    const cosine: (string, string) -> real
    const tokenize: string -> seq<string>
    const stopwords: set<string>
    /** Whether the processor was constructed with a schema dictionary. */
    const hasDataSchema: bool

    var df: Option<Table>
    var countries: seq<string>
    var cities: seq<string>
    var years: seq<int>
    var athletes: seq<string>
    var allEntities: map<string, seq<string>>
    var kbEmbeddings: map<string, seq<string>>

    function Snapshot(): KnowledgeBase
      reads this
    {
      KnowledgeBase(countries, cities, years, athletes, allEntities, kbEmbeddings)
    }

    ghost predicate Valid()
      reads this
    {
      Consistent(Snapshot())
    }

    constructor (dot: (string, string) -> real, cosine: (string, string) -> real,
                 tokenize: string -> seq<string>, stopwords: set<string>, hasDataSchema: bool)
      ensures Valid() && Snapshot() == EmptyKnowledgeBase && df == None
      ensures this.dot == dot && this.cosine == cosine && this.tokenize == tokenize
      ensures this.stopwords == stopwords && this.hasDataSchema == hasDataSchema
    {
      this.dot := dot;
      this.cosine := cosine;
      this.tokenize := tokenize;
      this.stopwords := stopwords;
      this.hasDataSchema := hasDataSchema;
      df := None;
      countries, cities, years, athletes := [], [], [], [];
      allEntities, kbEmbeddings := map[], map[];
    }

    /** `learn_from_data`: nothing changes without a table; otherwise each
        role present in the table is relearned and the medal vocabulary set. */
    method LearnFromData(data: Option<Table>)
      requires Valid()
      modifies this
      ensures Valid()
      ensures data.None? ==> unchanged(this)
      ensures data.Some? ==> df == data && Snapshot() == Learn(old(Snapshot()), data.value)
    {
      if data.None? {
        return;
      }
      var t := data.value;
      df := data;
      LearnCountryRole(t);
      LearnCityRole(t);
      LearnYearRole(t);
      LearnAthleteRole(t);
      allEntities := allEntities["medal_type" := MedalVocabulary];
    }

    /** The country block of `learn_from_data`. */
    method LearnCountryRole(t: Table)
      modifies this
      ensures Snapshot() == LearnCountries(old(Snapshot()), t) && df == old(df)
    {
      if "Team" in t.columns {
        countries := DistinctValues(t, "Team");
      } else if "Country" in t.columns {
        countries := DistinctValues(t, "Country");
      }
      allEntities := allEntities["country" := countries];
      kbEmbeddings := kbEmbeddings["country" := countries];
    }

    /** The city block of `learn_from_data`. */
    method LearnCityRole(t: Table)
      modifies this
      ensures Snapshot() == LearnCities(old(Snapshot()), t) && df == old(df)
    {
      if "City" in t.columns {
        cities := DistinctValues(t, "City");
        allEntities := allEntities["city" := cities];
        kbEmbeddings := kbEmbeddings["city" := cities];
      }
    }

    /** The year block of `learn_from_data`. */
    method LearnYearRole(t: Table)
      modifies this
      ensures Snapshot() == LearnYears(old(Snapshot()), t) && df == old(df)
    {
      var yearCol := FirstYearColumn(t.columns);
      if yearCol.Some? {
        years := DistinctYears(t, yearCol.value);
        allEntities := allEntities["year" := YearTexts(years)];
      }
    }

    /** The athlete block of `learn_from_data`. */
    method LearnAthleteRole(t: Table)
      modifies this
      ensures Snapshot() == LearnAthletes(old(Snapshot()), t) && df == old(df)
    {
      var nameCol := if "Name" in t.columns then "Name" else "Athlete";
      if nameCol in t.columns {
        athletes := DistinctValues(t, nameCol);
        allEntities := allEntities["athlete" := athletes];
        kbEmbeddings := kbEmbeddings["athlete" := athletes];
      }
    }

    /** `match_entities`, filling the entity record step by step. */
    method MatchEntities(query: string) returns (e: Entities)
      ensures e == EntitiesOf(allEntities, dot, query)
    {
      e := Entities(None, None, None, None, None, false, None, None);
      if "country" in allEntities {
        e := e.(country := SemanticMatch(dot, query, allEntities["country"]));
      }
      if "city" in allEntities {
        e := e.(city := SemanticMatch(dot, query, allEntities["city"]));
      }
      if "athlete" in allEntities {
        e := e.(athlete := SemanticMatch(dot, query, allEntities["athlete"]));
      }
      var year, quantity := ExtractYearAndQuantity(query);
      e := e.(year := year, quantity := quantity);
      var medal := ExtractMedalType(query);
      e := e.(medalType := medal);
      if AnalysisRequested(query) {
        e := e.(analysis := true);
      }
    }

    /** The year and quantity blocks of `match_entities`: the year regex,
        then the integer regex, which may overwrite the year. */
    static method ExtractYearAndQuantity(query: string) returns (year: Option<string>, quantity: Option<int>)
      ensures (year, quantity) == YearAndQuantity(query)
    {
      year, quantity := None, None;
      var yearMatch := YearToken(query);
      if yearMatch.Some? {
        year := yearMatch;
      }
      var quantityMatch := FirstInteger(query);
      if quantityMatch.Some? {
        var num := quantityMatch.value;
        if 1800 < num < 2050 {
          year := Some(NatToString(num));
        } else {
          quantity := Some(num);
        }
      }
    }

    /** The medal block of `match_entities`: the vocabulary scan that stops
        at the first word found in the lower-cased query. */
    static method ExtractMedalType(query: string) returns (medal: Option<string>)
      ensures medal == MedalMentioned(query)
    {
      medal := None;
      var lowered := Lower(query);
      var i := 0;
      while i < |MedalVocabulary|
        invariant 0 <= i <= |MedalVocabulary|
        invariant medal.None?
        invariant forall j :: 0 <= j < i ==> !Contains(lowered, MedalVocabulary[j])
      {
        if Contains(lowered, MedalVocabulary[i]) {
          medal := Some(MedalVocabulary[i]);
          return;
        }
        i := i + 1;
      }
    }

    /** `determine_query_intent`: a loop keeping the best similarity so far,
        replaced only by a strictly greater one. */
    method DetermineQueryIntent(query: string) returns (intent: string)
      ensures intent == ClassifyIntent(cosine, query)
    {
      var sims := TemplateScores(cosine, query);
      var maxSim: real := -1.0;
      var bestIntent := "filter";
      for i := 0 to |IntentKeys|
        invariant i == 0 ==> maxSim == -1.0 && bestIntent == "filter"
        invariant i > 0 ==>
          var k := FirstArgMax(sims[..i]);
          if sims[k] > -1.0 then maxSim == sims[k] && bestIntent == IntentKeys[k]
          else maxSim == -1.0 && bestIntent == "filter"
      {
        if i > 0 {
          FirstArgMaxSnoc(sims, i);
        } else {
          assert FirstArgMax(sims[..1]) == 0;
        }
        var sim := sims[i];
        if sim > maxSim {
          maxSim := sim;
          bestIntent := IntentKeys[i];
        }
      }
      assert sims[..|IntentKeys|] == sims;
      intent := if maxSim > Threshold then bestIntent else "filter";
    }

    /** The parameters `process_query` returns for `query` in the current state. */
    function Plan(query: string): (p: QueryParams)
      reads this
      ensures p.originalQuery == Some(query) && p.intent == Some(ClassifyIntent(cosine, query))
      ensures p.entities.Some? && p.filters == PlanFilters(p.entities.value)
      ensures p.limit.None? && p.ascending.None?
      ensures var e := p.entities.value;
        && (e.country.Some? ==> "country" in allEntities && e.country.value in allEntities["country"])
        && (e.city.Some? ==> "city" in allEntities && e.city.value in allEntities["city"])
        && (e.athlete.Some? ==> "athlete" in allEntities && e.athlete.value in allEntities["athlete"])
    {
      var normalized := Preprocess(stopwords, tokenize, query);
      MakeParams(query, EntitiesOf(allEntities, dot, normalized), ClassifyIntent(cosine, query))
    }

    /** `process_query`: relearn if needed, then extract entities from the
        normalised query and the intent from the original one. */
    method ProcessQuery(query: string, data: Option<Table>) returns (params: QueryParams)
      requires Valid()
      modifies this
      ensures Valid()
      ensures Snapshot() == if WillLearn(data, hasDataSchema, old(allEntities))
        then Learn(old(Snapshot()), data.value) else old(Snapshot())
      ensures df == if data.Some? then data else old(df)
      ensures params == Plan(query)
    {
      if WillLearn(data, hasDataSchema, allEntities) {
        LearnFromData(data);
      }
      if data.Some? {
        df := data;
      }
      var normalized := Preprocess(stopwords, tokenize, query);
      var entities := MatchEntities(normalized);
      var intent := DetermineQueryIntent(query);
      params := MakeParams(query, entities, intent);
    }
  }
}
