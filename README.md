# cocoindex-code in Dafny

A verified model of the core of cocoindex-code. cocoindex-code is an MCP server that
indexes a codebase into a vector table and answers semantic-search queries over it.
There is one Dafny module per source file:

- `Config` (config.py): how the codebase root is found, by walking up the ancestor
  chain for `.cocoindex_code` and then for `.git`. Also the `COCOINDEX_CODE_ROOT_PATH`
  and `COCOINDEX_CODE_EMBEDDING_MODEL` overrides, and the index and database paths.
- `Embedder` (embedder.py): the `LocalEmbedder` lifecycle. It covers lazy loading of
  the model at most once, the five-setting pickle state, the memo key and the
  vector-schema check.
- `Indexer` (indexer.py): `process_file` and `app_main`. It covers the skip rules,
  the language fallback, one row per chunk, and the `code_chunks` table as an upsert
  map keyed by `id`.
- `Query` (query.py): `CodebaseQuerier.query`. It covers the missing-index error, the
  `ORDER BY distance ASC LIMIT ? OFFSET ?` selection, the score `1 - distance`, and
  copying each row into a result.
- `Server` (server.py): the lazily cached querier, the `update_index` and `query`
  tools, and the result envelopes they build.
- `Schema` and `Wrappers`: the record types (`CodeChunk`, `QueryResult`), an abstract
  `Embedding`, exceptions as `Raised`, and `Option`/`Result`.

Paths are sequences of components, with the filesystem root `[]`. The parent of a path
drops its last component. The filesystem is the set of directories that exist. The
foreign library calls are parameters of the operations that make them: `Path.resolve`,
the language detector, the splitter, the id generator, the encoder, the query embedder
and the cosine distance. None of them is given any meaning beyond what the code
relies on.

The mutable objects are classes: `LocalEmbedder`, the per-file `IdGenerator`, the table
target, the querier, and the server's cached `_querier`. Each loop in the source is a
loop in the model, proved against a specification function:

- the ancestor walk against `NearestWithMarker`;
- the chunk loop and the file loop against `FileRows` and `PassRows`;
- the cursor loop against `Scored`, and the whole query against `Search`.

## Model

| member | source | states |
|---|---|---|
| `Config.NearestWithMarker` | src/cocoindex_code/config.py:8-18 | None exactly when no directory on the chain from the start up to the root holds the marker; otherwise a directory on that chain that holds it, with no nearer directory holding it |
| `Config.FindRootWithMarker` | src/cocoindex_code/config.py:8-18 | the upward walk terminates, because each step moves to a strictly shorter parent, and it returns the nearest directory holding the marker from the resolved start, root checked last |
| `Config.DiscoverCodebaseRoot` | src/cocoindex_code/config.py:21-43 | returns the nearest index-marker directory, else the nearest `.git` directory, else the unresolved cwd |
| `Config.DiscoveryPrefersIndexMarker` | src/cocoindex_code/config.py:32-40 | if any directory on the chain holds `.cocoindex_code`, the root is the nearest such directory, even when a nearer one holds `.git` |
| `Config.DiscoveryFallsBackToGit` | src/cocoindex_code/config.py:37-40 | with no index marker on the chain, the root is the nearest directory holding `.git` |
| `Config.DiscoveryFallsBackToCwd` | src/cocoindex_code/config.py:42-43 | with neither marker on the chain, discovery returns cwd unchanged |
| `Config.FromEnv` | src/cocoindex_code/config.py:54-78 | the root is the override or the discovered root; the model is the variable's value or the default; `index_dir` is root/`.cocoindex_code` |
| `Config.RootOverrideWins` | src/cocoindex_code/config.py:58-60 | a non-empty `COCOINDEX_CODE_ROOT_PATH` is resolved and used, and discovery is not consulted |
| `Config.EmptyRootOverrideFallsThrough` | src/cocoindex_code/config.py:58-62 | an absent or empty `COCOINDEX_CODE_ROOT_PATH` falls through to discovery |
| `Config.ModelDefaultOnlyWhenAbsent` | src/cocoindex_code/config.py:66-69 | the default model is used only when the variable is absent; a set value, even the empty string, is kept |
| `Config.Config.TargetSqliteDbPath` | src/cocoindex_code/config.py:80-83 | the vector database is the file `target_sqlite.db` directly inside `index_dir` |
| `Config.Config.CocoindexDbPath` | src/cocoindex_code/config.py:85-88 | the engine's state database is the file `cocoindex.db` directly inside `index_dir` |
| `Config.StorePathsUnderIndexDir` | src/cocoindex_code/config.py:72-88 | the two databases are root/`.cocoindex_code`/`target_sqlite.db` and root/`.cocoindex_code`/`cocoindex.db`, and the two paths differ |
| `Embedder.LocalEmbedder.constructor` | src/cocoindex_code/embedder.py:26-41 | stores the five settings with their defaults and leaves the model unloaded |
| `Embedder.LocalEmbedder.GetState` | src/cocoindex_code/embedder.py:43-50 | the state has exactly the five setting keys and never the model, and reading it back gives the same settings |
| `Embedder.LocalEmbedder.SetState` | src/cocoindex_code/embedder.py:52-59 | takes the settings from the state and leaves no model loaded, with no construction counted |
| `Embedder.MissingPromptNameIsNone` | src/cocoindex_code/embedder.py:57 | a state without `query_prompt_name` restores it as None |
| `Embedder.LocalEmbedder.GetModel` | src/cocoindex_code/embedder.py:61-73 | the model is constructed only while none is loaded, from exactly the stored name, device and trust flag, and later calls return the same object; when the construction raises, the exception is returned, no model is kept and the next call tries again |
| `Embedder.LocalEmbedder.Embed` | src/cocoindex_code/embedder.py:75-84 | encodes with no prompt name and the stored normalisation flag, with the model built from the stored name, device and trust flag, and returns what `encode` returns or raises; a loaded model is reused, otherwise one is built, and if that raises the exception is returned and no model is kept |
| `Embedder.LocalEmbedder.EmbedQuery` | src/cocoindex_code/embedder.py:86-96 | the same as `embed`, except that it passes the configured query prompt name; the same reuse of a loaded model and the same construction failure |
| `Embedder.LocalEmbedder.GetVectorSchema` | src/cocoindex_code/embedder.py:98-107 | a RuntimeError naming the model when the dimension is unknown, otherwise a float32 schema of that size; the same reuse of a loaded model, and the construction's exception when building it raises |
| `Embedder.LocalEmbedder.MemoKey` | src/cocoindex_code/embedder.py:109-116 | the memo key carries exactly the settings that the pickled state restores |
| `Embedder.MemoKeyDistinguishes` | src/cocoindex_code/embedder.py:109-116 | two embedders share a memo key exactly when all five settings agree |
| `Indexer.LanguageFallback` | src/cocoindex_code/indexer.py:99 | the language is the detected one when detection yields a non-empty name, and "text" otherwise |
| `Indexer.FileRowsPerChunk` | src/cocoindex_code/indexer.py:86-127 | an undecodable or blank file declares no rows; any other file declares one row per chunk, carrying the file's path and language and the chunk's text and lines |
| `Indexer.UpsertAllKeys` | src/cocoindex_code/indexer.py:136-144 | after the upserts, the table's keys are the old keys plus the declared ids |
| `Indexer.UpsertAllLastWins` | src/cocoindex_code/indexer.py:136-144 | the table holds, under an id, the last row declared with that id |
| `Indexer.UpsertAllKeepsOthers` | src/cocoindex_code/indexer.py:136-144 | an id that no declared row carries keeps its old entry, or stays absent |
| `Indexer.UpsertAllFromRows` | src/cocoindex_code/indexer.py:136-144 | every stored value is either a declared row stored under its own id or the old value |
| `Indexer.IdGenerator.constructor` | src/cocoindex_code/indexer.py:111 | a new generator belongs to the unit it is created in and has been given no texts |
| `Indexer.IdGenerator.NextId` | src/cocoindex_code/indexer.py:113 | the id depends on the generator's unit and on the texts it was given before, and the call adds the text to them |
| `Indexer.TableTarget.constructor` | src/cocoindex_code/indexer.py:136-144 | the `code_chunks` table has primary key `id` alone and starts empty |
| `Indexer.TableTarget.DeclareRow` | src/cocoindex_code/indexer.py:117-127 | an upsert by id: a row with an equal id replaces the earlier one |
| `Indexer.ProcessFile` | src/cocoindex_code/indexer.py:81-127 | declares exactly the file's rows, in chunk order; ids come from a generator of the running unit, fresh to this call, with one `next_id` per chunk on that chunk's text |
| `Indexer.AppMain` | src/cocoindex_code/indexer.py:130-163 | declares the `code_chunks` table; mounts one unit per walked file under ("process", its path); the table holds the rows of all files in walk order |
| `Indexer.PassRowsProvenance` | src/cocoindex_code/indexer.py:156-163 | every row declared in a pass comes from a walked, indexable file and carries that file's path |
| `Indexer.StoredRowsFromWalkedFiles` | src/cocoindex_code/indexer.py:130-163 | after a pass, every stored row sits under its own id and belongs to a walked, indexable file |
| `Query.InsertByDistance` | src/cocoindex_code/query.py:58 | inserting a row into an ascending sequence keeps it ascending and adds one element |
| `Query.InsertByDistancePermutes` | src/cocoindex_code/query.py:58 | insertion adds exactly the inserted row |
| `Query.OrderByDistance` | src/cocoindex_code/query.py:56-58 | the ordering is a permutation of the stored rows, in ascending order of distance |
| `Query.Page` | src/cocoindex_code/query.py:59-61 | skips `offset` elements and keeps at most `limit`, in order |
| `Query.RankedScoresNonIncreasing` | src/cocoindex_code/query.py:56-58 | results come in non-increasing order of score |
| `Query.RankedCount` | src/cocoindex_code/query.py:59-61 | at most `limit` results, and exactly all the rows past `offset` when fewer remain |
| `Query.RankedFromStore` | src/cocoindex_code/query.py:50-75 | result i copies the path, language, content and lines of ordered row `offset`+i, which is a stored row, and has score 1 - its distance |
| `Query.AscendingPermutationsAgree` | src/cocoindex_code/query.py:56-58 | two orderings of the same rows by ascending distance have the same number of rows and the same distance at every position |
| `Query.TieOrderIrrelevant` | src/cocoindex_code/query.py:56-62 | any ascending ordering of the table, whatever its tie order, gives the same page size and the same scores at each position |
| `Query.MissingIndexFailsFirst` | src/cocoindex_code/query.py:29-39 | a missing index database gives the RuntimeError with its message, whatever the embedder would do |
| `Query.SearchOutcomes` | src/cocoindex_code/query.py:29-77 | the search succeeds exactly when the database file exists and neither the database lookup, the embedder nor the select raises; it then returns the ranked page; otherwise the first exception in step order is reported |
| `Query.CodebaseQuerier.Query` | src/cocoindex_code/query.py:23-77 | the missing-index RuntimeError comes first; then the exceptions of the database lookup, the embedder and the select, in that order; otherwise the ranked page |
| `Query.CodebaseQuerier.CopyRows` | src/cocoindex_code/query.py:64-75 | one result per cursor row, in cursor order, copying its path, language, content and lines, scored 1 - its distance |
| `Query.CodebaseQuerier.Close` | src/cocoindex_code/query.py:79-82 | changes no state: it modifies nothing and leaves the querier unchanged |
| `Server.QueryArguments` | src/cocoindex_code/server.py:105-117 | arguments are accepted exactly when `limit` lies in [1, 100] (default 10) and `offset` is at least 0 (default 0) |
| `Server.QueryEnvelope` | src/cocoindex_code/server.py:120-157 | on success: every result copied, `total_returned` equal to their number, `offset` echoed. A RuntimeError gives its text verbatim; any other exception gives "Query failed: " + its text. Failures carry no results, `total_returned` 0 and `offset` 0 |
| `Server.UpdateReport` | src/cocoindex_code/server.py:80-92 | success with "Index updated successfully", or failure with "Failed to update index: " + the exception's text; the configured root either way |
| `Server.ToolResultsRanked` | src/cocoindex_code/server.py:120-146 | a tool response holds at most `limit` hits, reports their number and lists them best score first |
| `Server.Server.constructor` | src/cocoindex_code/server.py:13-14 | no querier is cached at start-up |
| `Server.Server.GetQuerier` | src/cocoindex_code/server.py:17-22 | a new querier is created only when none is cached; otherwise the cached one is returned |
| `Server.Server.UpdateIndex` | src/cocoindex_code/server.py:69-92 | afterwards no querier is cached, and the `close` call on a previously cached one is recorded before it is discarded; the report is `UpdateReport` of the run's outcome |
| `Server.Server.QueryTool` | src/cocoindex_code/server.py:105-157 | a querier is cached afterwards, the same one when one already was; the response is the envelope of the search outcome |

## Left out

- Library internals are uninterpreted parameters, and no property of them is claimed.
  They are the recursive splitter, `detect_code_language`, `IdGenerator.next_id`, the
  include/exclude glob matching and `walk_dir` (the walked files are an input sequence).
- Indexer.IdGenerator.NextId: the id is a function of the unit's subpath and the texts
  the generator was given, which is all the library's contract offers. That ids differ
  across units is not claimed; rows of equal id replace each other, as the upsert does.
- Indexer.ProcessFile: a unit that raises is not modelled. `read_text` failing other than
  by `UnicodeDecodeError` (a file removed after the walk), and a raising splitter,
  `next_id` or `embed`, leave the unit with an exception; what the engine then does with
  the rows that unit already declared is engine behaviour outside this model. The model's
  units always complete.
- Incremental evaluation by the indexing engine is not modelled: `memo=True`, pruning
  of units no longer mounted, and reconciling the store with the declared rows. Each
  pass is modelled as a table rebuilt from the rows it declares, with units running at
  mount time in walk order.
- Embedding numerics are not modelled: `SentenceTransformer.encode`, normalisation,
  float32 conversion and `vec_distance_cosine`. Embeddings are an abstract type, the
  distance is an arbitrary real-valued function, and scores are `real`, not IEEE
  doubles.
- Query.OrderByDistance: how the store orders rows at equal distance is the store's
  choice. The model fixes one stable order, and `TieOrderIrrelevant` shows that the
  scores and the page size do not depend on it. Which of several tied rows appears on
  a page is not claimed.
- Concurrency is not modelled: the `threading.Lock` double-checked locking in
  `_get_model`, and the batching, GPU-runner and `max_batch_size=16` decorators.
  `_get_model` is modelled sequentially.
- I/O and environment are inputs: `Path.cwd`, `os.environ`, `Path.resolve` (a function
  parameter), `Path(s)` parsing, `is_dir`/`exists` (sets of existing paths), and
  `read_text` (None stands for `UnicodeDecodeError`). The lifespan that creates the
  index directory and opens and closes SQLite is not modelled.
- Transport is not modelled: FastMCP registration, stdio, pydantic's own validation
  machinery, `main`, `__main__.py` and `__init__.py`. `QueryArguments` states the
  validation rules, and `QueryTool` requires arguments that pass them.
- Embedder.LocalEmbedder.SetState: a state missing one of the four required keys makes
  the source raise `KeyError`. The model requires a well-formed state instead.
- The store's exceptions are given as inputs: the one the database lookup raises, and
  the one opening the transaction or running the select raises. Which database states
  make them raise (a missing table, stored vectors of another dimension) is not modelled.
- The querier embeds the query through the embedder in `shared.py`, the library's
  `SentenceTransformerEmbedder`, not `LocalEmbedder`. Its call is the `embed`
  parameter of the querier, which may raise. `update_index`'s run of the indexer is
  given by the exception it raised, if any.
- Module wiring in `shared.py` (module-level `config` and `embedder`) is not modelled.
  The configuration is passed explicitly.
