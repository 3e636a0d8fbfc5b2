/** The search engine of backend/search_engine.py: it wires a query
    processor to a data handler, runs a query through both and shapes the
    outcome into the response dictionary. */
module SearchEngines {
  import opened Wrappers
  import opened Tables
  import opened Queries
  import opened QueryProcessing
  import opened DataHandling
  import opened DataHandlingProperties

  /** The response dictionary of `format_results`. */
  datatype Formatted = Formatted(
    originalQuery: string,
    resultCount: nat,
    data: seq<Row>,
    columns: seq<string>,
    intent: string,
    analysis: Info)

  /** `format_results`: counts the result rows, exposes rows and columns only
      for a non-empty result, and falls back to '' and 'filter' for a
      missing original query and intent. */
  function FormatResults(results: Table, params: QueryParams, info: Info): (r: Formatted)
    ensures r.resultCount == |results.rows|
    ensures IsEmpty(results) ==> r.data == [] && r.columns == []
    ensures !IsEmpty(results) ==> r.data == results.rows && r.columns == results.columns
    ensures r.originalQuery == if params.originalQuery.Some? then params.originalQuery.value else ""
    ensures r.intent == if params.intent.Some? then params.intent.value else "filter"
    ensures r.analysis == info
  {
    Formatted(
      if params.originalQuery.Some? then params.originalQuery.value else "",
      |results.rows|,
      if !IsEmpty(results) then results.rows else [],
      if !IsEmpty(results) then results.columns else [],
      if params.intent.Some? then params.intent.value else "filter",
      info)
  }

  /** The count reported in the response agrees with the handler's record
      count, and a response with data has a record count. */
  lemma ResultCountAgreesWithInfo(df: Option<Table>, params: QueryParams)
    ensures var (results, info) := Retrieve(df, params);
      var r := FormatResults(results, params, info);
      && (info.RecordCount? ==> r.resultCount == info.count && r.data == results.rows)
      && (info == EmptyResult ==> r.data == [] && r.columns == [])
  {
  }

  /** The quantity a query mentions never changes what the search returns:
      it is planned as a filter "limit", which no stage reads, while
      ranking reads the top-level limit the plan never sets. */
  lemma QuantityNeverLimits(df: Option<Table>, query: string, e: Entities, intent: string)
    ensures Retrieve(df, MakeParams(query, e, intent)).0
         == Retrieve(df, MakeParams(query, e.(quantity := None), intent)).0
  {
    var p := MakeParams(query, e, intent);
    FilterLimitIgnored(df, p, None);
    assert p.(filters := p.filters.(limit := None)).filters == MakeParams(query, e.(quantity := None), intent).filters;
  }

  /** A planned ranking query returns at most ten rows, whatever quantity
      the query asks for. */
  lemma PlannedRankingAtMostTen(t: Table, query: string, e: Entities)
    requires RankColumn(t.columns).Some?
    ensures |Retrieve(Some(t), MakeParams(query, e, "ranking")).0.rows| <= 10
  {
    RankedResult(t, MakeParams(query, e, "ranking"));
  }

  class SearchEngine {
    const handler: DataHandler
    const processor: QueryProcessor

    /** Built over an in-memory table (or none); the processor learns from
        the table when there is one. */
    constructor (df: Option<Table>, dot: (string, string) -> real, cosine: (string, string) -> real,
                 tokenize: string -> seq<string>, stopwords: set<string>)
      ensures fresh(handler) && fresh(processor)
      ensures handler.df == df && processor.Valid() && processor.df == df
      ensures !processor.hasDataSchema
      ensures processor.Snapshot() == if df.Some? then Learn(EmptyKnowledgeBase, df.value) else EmptyKnowledgeBase
    {
      var h := new DataHandler(df);
      var p := new QueryProcessor(dot, cosine, tokenize, stopwords, false);
      handler := h;
      processor := p;
      new;
      if df.Some? {
        p.LearnFromData(h.df);
      }
    }

    /** `search`: plan the query against the handler's table, then search
        with exactly those parameters. */
    method Search(query: string) returns (results: Table, params: QueryParams, info: Info)
      requires processor.Valid()
      modifies processor
      ensures processor.Valid()
      ensures processor.Snapshot() ==
        if WillLearn(handler.df, processor.hasDataSchema, old(processor.allEntities))
        then Learn(old(processor.Snapshot()), handler.df.value) else old(processor.Snapshot())
      ensures processor.df == if handler.df.Some? then handler.df else old(processor.df)
      ensures params == processor.Plan(query)
      ensures (results, info) == Retrieve(handler.df, params)
    {
      params := processor.ProcessQuery(query, handler.df);
      results, info := handler.SearchData(params);
    }

    /** `process_query`: the formatted outcome of `search`. */
    method ProcessQuery(query: string) returns (response: Formatted)
      requires processor.Valid()
      modifies processor
      ensures processor.Valid()
      ensures processor.Snapshot() ==
        if WillLearn(handler.df, processor.hasDataSchema, old(processor.allEntities))
        then Learn(old(processor.Snapshot()), handler.df.value) else old(processor.Snapshot())
      ensures processor.df == if handler.df.Some? then handler.df else old(processor.df)
      ensures var params := processor.Plan(query);
        var (results, info) := Retrieve(handler.df, params);
        response == FormatResults(results, params, info)
    {
      var results, params, info := Search(query);
      response := FormatResults(results, params, info);
    }
  }
}
