/** The two tools the server exposes, `update_index` and `query`, with the lazily
    created querier they share (src/cocoindex_code/server.py). */
module Server {
  import opened Wrappers
  import opened Schema
  import Config
  import Query

  /** `UpdateIndexResult`. */
  datatype UpdateIndexResult = UpdateIndexResult(success: bool, message: string, codebaseRoot: string)

  /** `CodeChunkResult`: one hit as the tool reports it. */
  datatype CodeChunkResult = CodeChunkResult(
    filePath: string,
    language: string,
    content: string,
    startLine: int,
    endLine: int,
    score: real)

  /** `QueryResultModel`; `results`, `totalReturned`, `offset` and `message` default to
      [], 0, 0 and None. */
  datatype QueryResultModel = QueryResultModel(
    success: bool,
    results: seq<CodeChunkResult>,
    totalReturned: int,
    offset: int,
    message: Option<string>)

  /** `QueryResultModel(success=False, message=…)`: every other field at its default. */
  function FailedQuery(message: string): QueryResultModel {
    QueryResultModel(false, [], 0, 0, Some(message))
  }

  const DefaultLimit: int := 10
  const MaxLimit: int := 100
  const DefaultOffset: int := 0

  /** The `query` tool's argument rules: `limit` defaults to 10 and must lie in [1, 100];
      `offset` defaults to 0 and must not be negative. None when validation rejects. */
  function QueryArguments(limit: Option<int>, offset: Option<int>): (r: Option<(nat, nat)>)
    ensures r.Some? <==> (limit.None? || 1 <= limit.value <= MaxLimit) && (offset.None? || 0 <= offset.value)
    ensures r.Some? ==> 1 <= r.value.0 <= MaxLimit
    ensures r.Some? && limit.None? ==> r.value.0 == DefaultLimit
    ensures r.Some? && limit.Some? ==> r.value.0 == limit.value
    ensures r.Some? && offset.None? ==> r.value.1 == DefaultOffset
    ensures r.Some? && offset.Some? ==> r.value.1 == offset.value
  {
    var l := if limit.Some? then limit.value else DefaultLimit;
    var o := if offset.Some? then offset.value else DefaultOffset;
    if 1 <= l <= MaxLimit && 0 <= o then Some((l, o)) else None
  }

  function ToChunkResult(r: QueryResult): CodeChunkResult {
    CodeChunkResult(r.filePath, r.language, r.content, r.startLine, r.endLine, r.score)
  }

  /** The envelope `query` returns for what the querier returned or raised: on success
      every result copied, their count, and the offset echoed; a RuntimeError's text as
      is; any other exception's text after "Query failed: "; no results on failure. */
  function QueryEnvelope(outcome: Result<seq<QueryResult>, Raised>, offset: int): (env: QueryResultModel)
    ensures env.success <==> outcome.Success?
    ensures env.totalReturned == |env.results|
    ensures outcome.Success? ==>
      && env.offset == offset && env.message == None
      && |env.results| == |outcome.value|
      && forall i :: 0 <= i < |env.results| ==>
        var e, q := env.results[i], outcome.value[i];
        e.filePath == q.filePath && e.language == q.language && e.content == q.content
        && e.startLine == q.startLine && e.endLine == q.endLine && e.score == q.score
    ensures outcome.Failure? ==> env.results == [] && env.offset == 0
    ensures outcome.Failure? && outcome.error.RuntimeError? ==> env.message == Some(outcome.error.message)
    ensures outcome.Failure? && outcome.error.OtherError? ==> env.message == Some("Query failed: " + outcome.error.message)
  {
    match outcome
    case Success(results) =>
      var copied := seq(|results|, i requires 0 <= i < |results| => ToChunkResult(results[i]));
      QueryResultModel(true, copied, |results|, offset, None)
    case Failure(RuntimeError(message)) => FailedQuery(message)
    case Failure(OtherError(message)) => FailedQuery("Query failed: " + message)
  }

  /** The report `update_index` returns: success with a fixed message when the update
      completes, failure with the exception's text after "Failed to update index: " when
      it raises; the configured root either way. */
  function UpdateReport(raised: Option<Raised>, root: Config.Path): (res: UpdateIndexResult)
    ensures res.success <==> raised.None?
    ensures res.codebaseRoot == Config.PathString(root)
    ensures raised.None? ==> res.message == "Index updated successfully"
    ensures raised.Some? ==> res.message == "Failed to update index: " + raised.value.message
  {
    match raised
    case None => UpdateIndexResult(true, "Index updated successfully", Config.PathString(root))
    case Some(e) => UpdateIndexResult(false, "Failed to update index: " + e.message, Config.PathString(root))
  }

  /** A search through the tool returns at most `limit` hits, reports their number, and
      lists them best score first. */
  lemma ToolResultsRanked(cfg: Config.Config, store: Query.Store, backend: Query.Backend,
                          query: string, limit: nat, offset: nat)
    ensures var env := QueryEnvelope(Query.Search(cfg, store, backend, Query.QueryParams(query, limit, offset)), offset);
      && env.totalReturned == |env.results| <= limit
      && forall i, j :: 0 <= i < j < |env.results| ==> env.results[i].score >= env.results[j].score
  {
    var outcome := Query.Search(cfg, store, backend, Query.QueryParams(query, limit, offset));
    if outcome.Success? {
      var q := backend.embed(query).value;
      var d := Query.DistanceTo(backend, q);
      Query.RankedCount(store.rows, d, limit, offset);
      Query.RankedScoresNonIncreasing(store.rows, d, limit, offset);
    }
  }

  /** The server's module-level state: the configuration and the cached querier. */
  class Server {
    const config: Config.Config
    /** `_querier`: None until the first query and after every `update_index`. */
    var querier: Query.CodebaseQuerier?
    /** The queriers `update_index` has called `close` on, in order: bookkeeping that
        records the calls, since `close` itself changes nothing. */
    ghost var closed: seq<Query.CodebaseQuerier>

    constructor (config: Config.Config)
      ensures this.config == config && querier == null && closed == []
    {
      this.config := config;
      querier := null;
      closed := [];
    }

    /** `_get_querier`: create a querier only when none is cached. */
    method GetQuerier() returns (q: Query.CodebaseQuerier)
      modifies this`querier
      ensures querier == q
      ensures old(querier) != null ==> q == old(querier)
      ensures old(querier) == null ==> fresh(q)
    {
      if querier == null {
        querier := new Query.CodebaseQuerier();
      }
      q := querier;
    }

    /** `update_index`: close and drop the cached querier, run the indexer, report.
        `raised` is the exception the indexer run raised, if any. The `closed` log
        records the `close` call; the querier's state is the same either way. */
    method UpdateIndex(raised: Option<Raised>) returns (res: UpdateIndexResult)
      modifies this`querier, this`closed
      ensures querier == null
      ensures closed == if old(querier) != null then old(closed) + [old(querier)] else old(closed)
      ensures res == UpdateReport(raised, config.codebaseRootPath)
    {
      if querier != null {
        querier.Close();
        closed := closed + [querier];
        querier := null;
      }
      res := UpdateReport(raised, config.codebaseRootPath);
    }

    /** `query`: search through the cached (or a new) querier and wrap what it returns or
        raises. The arguments are those `QueryArguments` accepts. */
    method QueryTool(query: string, limit: int, offset: int, store: Query.Store, backend: Query.Backend)
      returns (res: QueryResultModel)
      requires 1 <= limit <= MaxLimit && 0 <= offset
      modifies this`querier
      ensures querier != null && (old(querier) != null ==> querier == old(querier))
      ensures res == QueryEnvelope(Query.Search(config, store, backend, Query.QueryParams(query, limit, offset)), offset)
    {
      var q := GetQuerier();
      var outcome := q.Query(config, store, backend, Query.QueryParams(query, limit, offset));
      res := QueryEnvelope(outcome, offset);
    }
  }
}
