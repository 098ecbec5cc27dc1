/** Vector search over the stored chunks: order by ascending distance, skip `offset`,
    keep at most `limit`, score each row as 1 - distance (src/cocoindex_code/query.py). */
module Query {
  import opened Wrappers
  import opened Schema
  import Config

  /** `QueryParams`. The server passes validated values, so both bounds are naturals. */
  datatype QueryParams = QueryParams(query: string, limit: nat, offset: nat)

  /** The distance of a stored row from the query vector (`vec_distance_cosine`). */
  type Distance = CodeChunk -> real

  /** What the querier reads: the files that exist, the `code_chunks` rows in the
      store's scan order, the exception looking up the database context raises, if
      any, and the exception opening the read-only transaction or running the select
      raises, if any (a missing table, a vector of another dimension). */
  datatype Store = Store(
    files: set<Config.Path>,
    rows: seq<CodeChunk>,
    contextError: Option<Raised>,
    selectError: Option<Raised>)

  /** The foreign calls the querier makes: embedding the query text, which may raise,
      and the cosine distance between two vectors. */
  datatype Backend = Backend(
    embed: string -> Result<Embedding, Raised>,
    distance: (Embedding, Embedding) -> real)

  function DistanceTo(backend: Backend, q: Embedding): Distance {
    (row: CodeChunk) => backend.distance(row.embedding, q)
  }

  /** `s` is in ascending order of distance. */
  predicate Ascending(s: seq<CodeChunk>, d: Distance) {
    forall i, j :: 0 <= i < j < |s| ==> d(s[i]) <= d(s[j])
  }

  lemma AscendingTail(s: seq<CodeChunk>, d: Distance)
    requires s != [] && Ascending(s, d)
    ensures Ascending(s[1..], d)
  {
    forall i, j | 0 <= i < j < |s| - 1 ensures d(s[1..][i]) <= d(s[1..][j]) {
      assert s[1..][i] == s[i + 1] && s[1..][j] == s[j + 1];
    }
  }

  lemma AscendingCons(h: CodeChunk, rest: seq<CodeChunk>, d: Distance)
    requires Ascending(rest, d)
    requires forall k :: 0 <= k < |rest| ==> d(h) <= d(rest[k])
    ensures Ascending([h] + rest, d)
  {
    var r := [h] + rest;
    forall i, j | 0 <= i < j < |r| ensures d(r[i]) <= d(r[j]) {
      assert r[j] == rest[j - 1];
      if i > 0 {
        assert r[i] == rest[i - 1];
      }
    }
  }

  /** Insert `x` into an ascending sequence, after the rows strictly nearer than it. */
  function InsertByDistance(x: CodeChunk, s: seq<CodeChunk>, d: Distance): (r: seq<CodeChunk>)
    requires Ascending(s, d)
    ensures Ascending(r, d)
    ensures |r| == |s| + 1 && (r[0] == x || (s != [] && r[0] == s[0]))
  {
    if s == [] then [x]
    else if d(x) <= d(s[0]) then
      AscendingCons(x, s, d);
      [x] + s
    else
      AscendingTail(s, d);
      var rest := InsertByDistance(x, s[1..], d);
      assert d(s[0]) <= d(rest[0]);
      assert forall k :: 0 <= k < |rest| ==> d(rest[0]) <= d(rest[k]);
      AscendingCons(s[0], rest, d);
      [s[0]] + rest
  }

  /** Insertion adds exactly `x`. */
  lemma {:induction false} InsertByDistancePermutes(x: CodeChunk, s: seq<CodeChunk>, d: Distance)
    requires Ascending(s, d)
    ensures multiset(InsertByDistance(x, s, d)) == multiset(s) + multiset{x}
  {
    if s != [] && d(s[0]) < d(x) {
      AscendingTail(s, d);
      InsertByDistancePermutes(x, s[1..], d);
      assert s == [s[0]] + s[1..];
    }
  }

  /** `ORDER BY distance ASC` over the table: a permutation of the rows in ascending
      order of distance. How the store breaks ties is its own affair; this order is
      one admissible choice (see `TieOrderIrrelevant`). */
  function OrderByDistance(rows: seq<CodeChunk>, d: Distance): (s: seq<CodeChunk>)
    ensures Ascending(s, d)
    ensures multiset(s) == multiset(rows)
  {
    if rows == [] then []
    else
      var rest := OrderByDistance(rows[1..], d);
      InsertByDistancePermutes(rows[0], rest, d);
      assert rows == [rows[0]] + rows[1..];
      InsertByDistance(rows[0], rest, d)
  }

  /** `LIMIT limit OFFSET offset`: skip the first `offset` elements, keep at most `limit`. */
  function Page<T>(s: seq<T>, offset: nat, limit: nat): (page: seq<T>)
    ensures |page| == if offset >= |s| then 0 else if limit < |s| - offset then limit else |s| - offset
    ensures forall i :: 0 <= i < |page| ==> page[i] == s[offset + i]
  {
    if offset >= |s| then []
    else if limit < |s| - offset then s[offset..offset + limit]
    else s[offset..]
  }

  /** The result built from one cursor row: the stored row's fields, its score, and
      neither its id nor its embedding. */
  function ToResult(row: CodeChunk, score: real): QueryResult {
    QueryResult(row.filePath, row.language, row.content, row.startLine, row.endLine, score)
  }

  /** Cursor rows as results, each scored 1 - its distance. */
  function Scored(cursor: seq<CodeChunk>, d: Distance): seq<QueryResult> {
    seq(|cursor|, i requires 0 <= i < |cursor| => ToResult(cursor[i], 1.0 - d(cursor[i])))
  }

  /** The rows the SQL statement yields, as results in cursor order. */
  function Ranked(rows: seq<CodeChunk>, d: Distance, limit: nat, offset: nat): seq<QueryResult> {
    Scored(Page(OrderByDistance(rows, d), offset, limit), d)
  }

  /** Results come in non-increasing order of score. */
  lemma RankedScoresNonIncreasing(rows: seq<CodeChunk>, d: Distance, limit: nat, offset: nat)
    ensures var r := Ranked(rows, d, limit, offset);
      forall i, j :: 0 <= i < j < |r| ==> r[i].score >= r[j].score
  {
    var s := OrderByDistance(rows, d);
    var r := Ranked(rows, d, limit, offset);
    forall i, j | 0 <= i < j < |r| ensures r[i].score >= r[j].score {
      assert d(s[offset + i]) <= d(s[offset + j]);
    }
  }

  /** At most `limit` results, namely all the rows past the first `offset` when fewer remain. */
  lemma RankedCount(rows: seq<CodeChunk>, d: Distance, limit: nat, offset: nat)
    ensures |Ranked(rows, d, limit, offset)| <= limit
    ensures |Ranked(rows, d, limit, offset)| ==
      if offset >= |rows| then 0 else if limit < |rows| - offset then limit else |rows| - offset
  {
    var s := OrderByDistance(rows, d);
    assert |s| == |multiset(s)| == |multiset(rows)| == |rows|;
  }

  /** Every result is a copy of one stored row, scored 1 - its distance; there are
      exactly `offset` rows of the ordering before it. */
  lemma RankedFromStore(rows: seq<CodeChunk>, d: Distance, limit: nat, offset: nat, i: nat)
    requires i < |Ranked(rows, d, limit, offset)|
    ensures var res, row := Ranked(rows, d, limit, offset)[i], OrderByDistance(rows, d)[offset + i];
      && row in rows
      && res == QueryResult(row.filePath, row.language, row.content, row.startLine, row.endLine, 1.0 - d(row))
  {
    var s := OrderByDistance(rows, d);
    var page := Page(s, offset, limit);
    assert Ranked(rows, d, limit, offset)[i] == ToResult(page[i], 1.0 - d(page[i]));
    PermutedMember(s, rows, offset + i);
  }

  /** An element of a sequence is an element of any permutation of it. */
  lemma PermutedMember(a: seq<CodeChunk>, b: seq<CodeChunk>, k: nat)
    requires multiset(a) == multiset(b) && k < |a|
    ensures a[k] in b
  {
    assert a[k] in multiset(a);
  }

  /** Taking the first element out of `s` and an equal element out of a permutation
      `t` of `s` leaves permutations of each other. */
  lemma RemoveFromPermutation(s: seq<CodeChunk>, t: seq<CodeChunk>, j: nat)
    requires multiset(s) == multiset(t) && s != [] && j < |t| && t[j] == s[0]
    ensures multiset(s[1..]) == multiset(t[..j] + t[j + 1..])
  {
    assert s == [s[0]] + s[1..];
    assert t == t[..j] + [t[j]] + t[j + 1..];
    assert multiset(s[1..]) == multiset(s) - multiset{s[0]};
    assert multiset(t[..j] + t[j + 1..]) == multiset(t) - multiset{t[j]};
  }

  /** Removing one row keeps an ascending sequence ascending. */
  lemma AscendingRemove(o: seq<CodeChunk>, j: nat, d: Distance)
    requires Ascending(o, d) && j < |o|
    ensures Ascending(o[..j] + o[j + 1..], d)
  {
    var r := o[..j] + o[j + 1..];
    forall a, b | 0 <= a < b < |r| ensures d(r[a]) <= d(r[b]) {
      var a', b' := if a < j then a else a + 1, if b < j then b else b + 1;
      assert r[a] == o[a'] && r[b] == o[b'];
    }
  }

  /** Two ascending orderings of the same rows have the same distance at every position:
      they differ at most in the order of rows at equal distance. */
  lemma {:induction false} AscendingPermutationsAgree(s: seq<CodeChunk>, o: seq<CodeChunk>, d: Distance)
    requires Ascending(s, d) && Ascending(o, d) && multiset(s) == multiset(o)
    ensures |s| == |o|
    ensures forall k :: 0 <= k < |s| ==> d(s[k]) == d(o[k])
    decreases |s|
  {
    assert |s| == |multiset(s)| == |multiset(o)| == |o|;
    if s != [] {
      assert s[0] in multiset(o);
      var j :| 0 <= j < |o| && o[j] == s[0];
      assert o[0] in multiset(s);
      var i :| 0 <= i < |s| && s[i] == o[0];
      assert d(s[0]) <= d(s[i]) && d(o[0]) <= d(o[j]);
      var rest := o[..j] + o[j + 1..];
      RemoveFromPermutation(s, o, j);
      AscendingTail(s, d);
      AscendingRemove(o, j, d);
      AscendingPermutationsAgree(s[1..], rest, d);
      forall k | 0 < k < |s| ensures d(s[k]) == d(o[k]) {
        assert s[1..][k - 1] == s[k];
        if k <= j {
          assert rest[k - 1] == o[k - 1];
          assert d(o[0]) <= d(o[k - 1]) && d(o[k - 1]) <= d(o[k]) && d(o[k]) <= d(o[j]);
        } else {
          assert rest[k - 1] == o[k];
        }
      }
    }
  }

  /** Whatever order the store gives rows at equal distance, any ascending ordering of
      the table yields the same page size and the same scores, position by position. */
  lemma TieOrderIrrelevant(rows: seq<CodeChunk>, d: Distance, limit: nat, offset: nat, s: seq<CodeChunk>)
    requires Ascending(s, d) && multiset(s) == multiset(rows)
    ensures |Page(s, offset, limit)| == |Ranked(rows, d, limit, offset)|
    ensures forall i :: 0 <= i < |Page(s, offset, limit)| ==>
      1.0 - d(Page(s, offset, limit)[i]) == Ranked(rows, d, limit, offset)[i].score
  {
    var o := OrderByDistance(rows, d);
    AscendingPermutationsAgree(s, o, d);
    var ps, po := Page(s, offset, limit), Page(o, offset, limit);
    assert |ps| == |po|;
    forall i | 0 <= i < |ps| ensures 1.0 - d(ps[i]) == Ranked(rows, d, limit, offset)[i].score {
      RankedFromStore(rows, d, limit, offset, i);
      assert ps[i] == s[offset + i];
    }
  }

  /** The error raised when the index database does not exist yet. */
  function MissingIndexMessage(cfg: Config.Config): string {
    "Index database not found at " + Config.PathString(cfg.TargetSqliteDbPath()) + ". "
      + "Run the 'update_index' tool first to create the index."
  }

  /** What `query` returns or raises, in the order the steps run: a RuntimeError when
      the index database is missing, then the database lookup's exception, then the
      embedder's, then the select's; otherwise the ranked page. */
  function Search(cfg: Config.Config, store: Store, backend: Backend, params: QueryParams)
    : Result<seq<QueryResult>, Raised>
  {
    if cfg.TargetSqliteDbPath() !in store.files then Failure(RuntimeError(MissingIndexMessage(cfg)))
    else if store.contextError.Some? then Failure(store.contextError.value)
    else
      match backend.embed(params.query)
      case Failure(e) => Failure(e)
      case Success(q) =>
        if store.selectError.Some? then Failure(store.selectError.value)
        else Success(Ranked(store.rows, DistanceTo(backend, q), params.limit, params.offset))
  }

  /** The search succeeds exactly when the database exists, no step raises, and then
      it returns the ranked page; each exception is reported as raised. */
  lemma SearchOutcomes(cfg: Config.Config, store: Store, backend: Backend, params: QueryParams)
    ensures var r := Search(cfg, store, backend, params);
      && (r.Success? <==>
            cfg.TargetSqliteDbPath() in store.files && store.contextError.None?
            && backend.embed(params.query).Success? && store.selectError.None?)
      && (r.Success? ==>
            r.value == Ranked(store.rows, DistanceTo(backend, backend.embed(params.query).value), params.limit, params.offset))
      && (cfg.TargetSqliteDbPath() in store.files && store.contextError.Some? ==>
            r == Failure(store.contextError.value))
      && (cfg.TargetSqliteDbPath() in store.files && store.contextError.None? && backend.embed(params.query).Failure? ==>
            r == Failure(backend.embed(params.query).error))
      && (cfg.TargetSqliteDbPath() in store.files && store.contextError.None?
          && backend.embed(params.query).Success? && store.selectError.Some? ==>
            r == Failure(store.selectError.value))
  {
  }

  /** A missing index fails the search with the RuntimeError, whatever the embedder would do. */
  lemma MissingIndexFailsFirst(cfg: Config.Config, store: Store, backend: Backend, params: QueryParams)
    requires cfg.TargetSqliteDbPath() !in store.files
    ensures Search(cfg, store, backend, params) == Failure(RuntimeError(MissingIndexMessage(cfg)))
    ensures forall b: Backend :: Search(cfg, store, b, params) == Search(cfg, store, backend, params)
  {
  }

  /** `CodebaseQuerier`: it holds no state of its own. */
  class CodebaseQuerier {

    constructor ()
    {
    }

    /** `query`: check the index exists, look up the database, embed the query, run the
        ordered, paginated select and copy each cursor row into a result. */
    method Query(cfg: Config.Config, store: Store, backend: Backend, params: QueryParams)
      returns (r: Result<seq<QueryResult>, Raised>)
      ensures cfg.TargetSqliteDbPath() !in store.files ==> r == Failure(RuntimeError(MissingIndexMessage(cfg)))
      ensures r == Search(cfg, store, backend, params)
    {
      if cfg.TargetSqliteDbPath() !in store.files {
        return Failure(RuntimeError(MissingIndexMessage(cfg)));
      }
      if store.contextError.Some? {
        return Failure(store.contextError.value);
      }
      var embedded := backend.embed(params.query);
      if embedded.Failure? {
        return Failure(embedded.error);
      }
      if store.selectError.Some? {
        return Failure(store.selectError.value);
      }
      var d := DistanceTo(backend, embedded.value);
      var cursor := Page(OrderByDistance(store.rows, d), params.offset, params.limit);
      var results := CopyRows(cursor, d);
      return Success(results);
    }

    /** The loop over `cursor.fetchall()`: append one result per cursor row, in order,
        scored 1 - the row's distance. */
    method CopyRows(cursor: seq<CodeChunk>, d: Distance) returns (results: seq<QueryResult>)
      ensures results == Scored(cursor, d)
    {
      results := [];
      for i := 0 to |cursor|
        invariant |results| == i
        invariant forall j :: 0 <= j < i ==> results[j] == ToResult(cursor[j], 1.0 - d(cursor[j]))
      {
        results := results + [ToResult(cursor[i], 1.0 - d(cursor[i]))];
      }
    }

    /** `close`: nothing to release; the connection belongs to the engine. */
    method Close()
      ensures unchanged(this)
    {
    }
  }
}
