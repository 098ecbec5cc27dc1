/** The indexing pass: one `process_file` unit per walked file, each declaring one row
    per chunk into the `code_chunks` table keyed by `id` (src/cocoindex_code/indexer.py). */
module Indexer {
  import opened Wrappers
  import opened Schema
  import Config

  /** Splitter settings passed on every call. */
  const ChunkSize: nat := 1000
  const MinChunkSize: nat := 300
  const ChunkOverlap: nat := 200

  /** A chunk as the splitter returns it: its text and its first and last line. */
  datatype Chunk = Chunk(text: string, startLine: int, endLine: int)

  /** A walked file: its path relative to the codebase root, and its text, or None
      when `read_text` raises `UnicodeDecodeError`. */
  datatype File = File(path: Config.Path, text: Option<string>)

  /** The component subpath a unit is mounted under; `IdGenerator` ids are scoped to it. */
  type Subpath = (string, string)

  /** The library operations `process_file` calls; all are foreign. */
  datatype Library = Library(
    /** `detect_code_language(filename=…)` */
    detectLanguage: string -> Option<string>,
    /** `splitter.split(content, chunk_size, min_chunk_size, chunk_overlap, language)` */
    split: (string, nat, nat, nat, string) -> seq<Chunk>,
    /** `next_id(text)` on an `IdGenerator` created in the unit mounted under the first
        argument, which has already been given the texts in the second */
    nextId: (Subpath, seq<string>, string) -> int,
    /** `embedder.embed(text)` */
    embed: string -> Embedding)

  /** `file_path.path.name`: the last component. */
  function Name(p: Config.Path): string {
    if p == [] then "" else p[|p| - 1]
  }

  /** `str(file_path.path)` for a relative path. */
  function RelPathString(p: Config.Path): string {
    if p == [] then "." else Config.JoinComponents(p)
  }

  /** The characters Python's `str.strip()` removes (those for which `isspace()` holds). */
  predicate IsSpace(c: char) {
    || '\t' <= c <= '\r'
    || '\U{1C}' <= c <= ' '
    || c == '\U{85}' || c == '\U{A0}' || c == '\U{1680}'
    || '\U{2000}' <= c <= '\U{200A}'
    || c == '\U{2028}' || c == '\U{2029}' || c == '\U{202F}' || c == '\U{205F}' || c == '\U{3000}'
  }

  /** `not content.strip()`: the text is empty or only whitespace. */
  predicate IsBlank(s: string) {
    forall i :: 0 <= i < |s| ==> IsSpace(s[i])
  }

  /** A file contributes rows only if it decodes and is not blank. */
  predicate Indexable(f: File) {
    f.text.Some? && !IsBlank(f.text.value)
  }

  /** `detect_code_language(…) or "text"`: None and the empty string are both falsy. */
  function Language(lib: Library, name: string): string {
    match lib.detectLanguage(name)
    case Some(lang) => if lang == "" then "text" else lang
    case None => "text"
  }

  /** The language is the detected one when detection yields a non-empty name, "text" otherwise. */
  lemma LanguageFallback(lib: Library, name: string)
    ensures lib.detectLanguage(name).Some? && lib.detectLanguage(name).value != "" ==>
      Language(lib, name) == lib.detectLanguage(name).value
    ensures lib.detectLanguage(name).None? || lib.detectLanguage(name).value == "" ==>
      Language(lib, name) == "text"
  {
  }

  /** The chunks of an indexable file, split with the fixed sizes and its language. */
  function Chunks(f: File, lib: Library): seq<Chunk>
    requires f.text.Some?
  {
    lib.split(f.text.value, ChunkSize, MinChunkSize, ChunkOverlap, Language(lib, Name(f.path)))
  }

  /** The texts of the chunks, in order: what an id generator has been given after
      one `next_id` call per chunk. */
  function Texts(chunks: seq<Chunk>): (texts: seq<string>)
    ensures |texts| == |chunks|
    ensures forall i :: 0 <= i < |chunks| ==> texts[i] == chunks[i].text
    decreases |chunks|
  {
    if chunks == [] then [] else Texts(chunks[..|chunks| - 1]) + [chunks[|chunks| - 1].text]
  }

  /** The rows `process_file` declares for a file in the unit mounted under `unit`, in
      chunk order: none for an undecodable or blank file; otherwise one per chunk, carrying
      the file's path and language, the chunk's text and lines, an id from a generator of
      that unit, fresh to the call, that has seen the earlier chunks' texts, and the
      chunk's embedding. */
  function FileRows(f: File, unit: Subpath, lib: Library): seq<CodeChunk> {
    if !Indexable(f) then []
    else
      var chunks := Chunks(f, lib);
      var language := Language(lib, Name(f.path));
      seq(|chunks|, i requires 0 <= i < |chunks| => ChunkRow(f, unit, lib, language, chunks, i))
  }

  /** The row declared for chunk `i` of a file. */
  function ChunkRow(f: File, unit: Subpath, lib: Library, language: string, chunks: seq<Chunk>, i: nat): CodeChunk
    requires i < |chunks|
  {
    CodeChunk(lib.nextId(unit, Texts(chunks[..i]), chunks[i].text), RelPathString(f.path), language,
              chunks[i].text, chunks[i].startLine, chunks[i].endLine, lib.embed(chunks[i].text))
  }

  /** Skip rules: an undecodable file and a blank file declare nothing; any other file
      declares exactly one row per chunk, each from the file and its own chunk. */
  lemma FileRowsPerChunk(f: File, unit: Subpath, lib: Library)
    ensures !Indexable(f) ==> FileRows(f, unit, lib) == []
    ensures Indexable(f) ==> |FileRows(f, unit, lib)| == |Chunks(f, lib)|
    ensures Indexable(f) ==> forall i :: 0 <= i < |FileRows(f, unit, lib)| ==>
      var r, c := FileRows(f, unit, lib)[i], Chunks(f, lib)[i];
      && r.filePath == RelPathString(f.path) && r.language == Language(lib, Name(f.path))
      && r.content == c.text && r.startLine == c.startLine && r.endLine == c.endLine
  {
  }

  /** The table contents after upserting `rows` in order into `m`, keyed by `id`. */
  function UpsertAll(m: map<int, CodeChunk>, rows: seq<CodeChunk>): map<int, CodeChunk>
    decreases |rows|
  {
    if rows == [] then m
    else
      var last := rows[|rows| - 1];
      UpsertAll(m, rows[..|rows| - 1])[last.id := last]
  }

  function Ids(rows: seq<CodeChunk>): set<int> {
    set r | r in rows :: r.id
  }

  /** After upserting, the keys are the old keys plus the ids of the rows. */
  lemma {:induction false} UpsertAllKeys(m: map<int, CodeChunk>, rows: seq<CodeChunk>)
    ensures UpsertAll(m, rows).Keys == m.Keys + Ids(rows)
    decreases |rows|
  {
    if rows != [] {
      var init := rows[..|rows| - 1];
      UpsertAllKeys(m, init);
      assert rows == init + [rows[|rows| - 1]];
      assert Ids(rows) == Ids(init) + {rows[|rows| - 1].id};
    }
  }

  /** A row that no later row shares an id with is what the table holds under that id. */
  lemma {:induction false} UpsertAllLastWins(m: map<int, CodeChunk>, rows: seq<CodeChunk>, j: nat)
    requires j < |rows|
    requires forall i :: j < i < |rows| ==> rows[i].id != rows[j].id
    ensures rows[j].id in UpsertAll(m, rows) && UpsertAll(m, rows)[rows[j].id] == rows[j]
    decreases |rows|
  {
    if j < |rows| - 1 {
      UpsertAllLastWins(m, rows[..|rows| - 1], j);
    }
  }

  /** An id no row carries keeps whatever the table held under it. */
  lemma {:induction false} UpsertAllKeepsOthers(m: map<int, CodeChunk>, rows: seq<CodeChunk>, k: int)
    requires forall i :: 0 <= i < |rows| ==> rows[i].id != k
    ensures k in UpsertAll(m, rows) <==> k in m
    ensures k in m ==> UpsertAll(m, rows)[k] == m[k]
    decreases |rows|
  {
    if rows != [] {
      UpsertAllKeepsOthers(m, rows[..|rows| - 1], k);
    }
  }

  /** Every value the table holds is either the old value under that key or one of the
      rows, stored under its own id. */
  lemma {:induction false} UpsertAllFromRows(m: map<int, CodeChunk>, rows: seq<CodeChunk>, k: int)
    requires k in UpsertAll(m, rows)
    ensures (UpsertAll(m, rows)[k] in rows && UpsertAll(m, rows)[k].id == k)
         || (k in m && UpsertAll(m, rows)[k] == m[k])
    decreases |rows|
  {
    if rows != [] {
      var init := rows[..|rows| - 1];
      if k != rows[|rows| - 1].id {
        UpsertAllFromRows(m, init, k);
      }
    }
  }

  /** Extending a prefix by one element. */
  lemma PrefixSnoc<T>(s: seq<T>, i: nat)
    requires i < |s|
    ensures s[..i + 1] == s[..i] + [s[i]]
    ensures s[..i + 1][..i] == s[..i]
  {
  }

  /** The foreign id generator; it belongs to the unit it is created in, and its state
      is the texts it has been given. */
  class IdGenerator {
    /** The subpath of the unit running when `IdGenerator()` was called. */
    const unit: Subpath
    var given: seq<string>

    constructor (unit: Subpath)
      ensures this.unit == unit && given == []
    {
      this.unit := unit;
      given := [];
    }

    /** `next_id(text)`. */
    method NextId(nextId: (Subpath, seq<string>, string) -> int, text: string) returns (id: int)
      modifies this`given
      ensures id == nextId(unit, old(given), text)
      ensures given == old(given) + [text]
    {
      id := nextId(unit, given, text);
      given := given + [text];
    }
  }

  /** The `code_chunks` target table of one pass, whose primary key is `id` alone.
      The rows are the target state the engine reconciles the store with. */
  class TableTarget {
    const tableName: string
    const primaryKey: seq<string>
    var rows: map<int, CodeChunk>
    /** Every row declared in this pass, in order. */
    ghost var declared: seq<CodeChunk>

    ghost predicate Valid()
      reads this
    {
      primaryKey == ["id"] && rows == UpsertAll(map[], declared)
    }

    /** `declare_table_target(table_name=…, primary_key=["id"])`. */
    constructor (tableName: string)
      ensures Valid() && this.tableName == tableName
      ensures rows == map[] && declared == []
    {
      this.tableName := tableName;
      primaryKey := ["id"];
      rows := map[];
      declared := [];
    }

    /** `declare_row`: an upsert by primary key; an equal id replaces the earlier row. */
    method DeclareRow(row: CodeChunk)
      requires Valid()
      modifies this`rows, this`declared
      ensures Valid()
      ensures declared == old(declared) + [row]
      ensures rows == old(rows)[row.id := row]
    {
      assert (declared + [row])[..|declared|] == declared;
      rows := rows[row.id := row];
      declared := declared + [row];
    }
  }

  /** `process_file`, run as the unit mounted under `unit`: declare the file's rows, one
      per chunk, in chunk order. */
  method ProcessFile(f: File, unit: Subpath, table: TableTarget, lib: Library)
    requires table.Valid()
    modifies table`rows, table`declared
    ensures table.Valid()
    ensures table.declared == old(table.declared) + FileRows(f, unit, lib)
  {
    if f.text.None? {
      // Skip binary files.
      return;
    }
    var content := f.text.value;
    if IsBlank(content) {
      return;
    }
    var relPath := RelPathString(f.path);
    var language := Language(lib, Name(f.path));
    var chunks := lib.split(content, ChunkSize, MinChunkSize, ChunkOverlap, language);
    ghost var rows := FileRows(f, unit, lib);
    var idGen := new IdGenerator(unit);
    for i := 0 to |chunks|
      invariant table.Valid()
      invariant idGen.unit == unit && idGen.given == Texts(chunks[..i])
      invariant table.declared == old(table.declared) + rows[..i]
    {
      var chunk := chunks[i];
      var chunkId := idGen.NextId(lib.nextId, chunk.text);
      var embedding := lib.embed(chunk.text);
      var row := CodeChunk(chunkId, relPath, language, chunk.text, chunk.startLine, chunk.endLine, embedding);
      assert row == ChunkRow(f, unit, lib, language, chunks, i) == rows[i];
      table.DeclareRow(row);
      PrefixSnoc(chunks, i);
      PrefixSnoc(rows, i);
      assert table.declared == old(table.declared) + rows[..i + 1];
    }
    assert rows[..|chunks|] == rows;
  }

  /** A unit mounted by `app_main`: its component subpath and its input file. */
  datatype Mount = Mount(subpath: Subpath, file: File)

  /** The subpath `app_main` mounts a file's unit under: ("process", str(path)). */
  function UnitOf(f: File): Subpath {
    ("process", RelPathString(f.path))
  }

  /** The rows a pass over `files` declares, file after file. */
  function PassRows(files: seq<File>, lib: Library): seq<CodeChunk>
    decreases |files|
  {
    if files == [] then []
    else PassRows(files[..|files| - 1], lib) + FileRows(files[|files| - 1], UnitOf(files[|files| - 1]), lib)
  }

  lemma PassRowsSnoc(files: seq<File>, lib: Library, i: nat)
    requires i < |files|
    ensures PassRows(files[..i + 1], lib) == PassRows(files[..i], lib) + FileRows(files[i], UnitOf(files[i]), lib)
  {
    assert files[..i + 1][..i] == files[..i];
  }

  /** `app_main` mounts one unit per file, in walk order. */
  predicate MountedInOrder(files: seq<File>, mounts: seq<Mount>, n: nat)
    requires n <= |files| && n <= |mounts|
  {
    forall j :: 0 <= j < n ==> mounts[j] == Mount(UnitOf(files[j]), files[j])
  }

  lemma MountsSnoc(files: seq<File>, mounts: seq<Mount>, i: nat)
    requires i < |files| && |mounts| == i && MountedInOrder(files, mounts, i)
    ensures MountedInOrder(files, mounts + [Mount(UnitOf(files[i]), files[i])], i + 1)
  {
  }

  /** `app_main`: declare the table, then mount one `process_file` per walked file under
      the subpath ("process", <its path>). The engine's unit runs are modelled as running
      at mount time, in walk order. */
  method AppMain(files: seq<File>, lib: Library) returns (table: TableTarget, mounts: seq<Mount>)
    ensures fresh(table) && table.Valid()
    ensures table.tableName == "code_chunks"
    ensures |mounts| == |files|
    ensures forall i :: 0 <= i < |files| ==>
      mounts[i] == Mount(UnitOf(files[i]), files[i])
    ensures table.declared == PassRows(files, lib)
  {
    table := new TableTarget("code_chunks");
    mounts := [];
    for i := 0 to |files|
      invariant table.Valid() && table.tableName == "code_chunks"
      invariant |mounts| == i
      invariant MountedInOrder(files, mounts, i)
      invariant table.declared == PassRows(files[..i], lib)
    {
      var unit := UnitOf(files[i]);
      MountsSnoc(files, mounts, i);
      mounts := mounts + [Mount(unit, files[i])];
      ProcessFile(files[i], unit, table, lib);
      PassRowsSnoc(files, lib, i);
    }
    assert files[..|files|] == files;
    assert MountedInOrder(files, mounts, |files|);
  }

  /** Every row declared in a pass comes from one walked, indexable file and carries
      that file's path. */
  lemma {:induction false} PassRowsProvenance(files: seq<File>, lib: Library, r: CodeChunk)
    requires r in PassRows(files, lib)
    ensures exists i :: 0 <= i < |files| && Indexable(files[i]) && r.filePath == RelPathString(files[i].path)
    decreases |files|
  {
    var init, last := files[..|files| - 1], files[|files| - 1];
    if r in PassRows(init, lib) {
      PassRowsProvenance(init, lib, r);
      var i :| 0 <= i < |init| && Indexable(init[i]) && r.filePath == RelPathString(init[i].path);
      assert files[i] == init[i];
    } else {
      assert r in FileRows(last, UnitOf(last), lib);
      FileRowsPerChunk(last, UnitOf(last), lib);
      assert files[|files| - 1] == last;
    }
  }

  /** After a pass, every stored row sits under its own id and belongs to a walked,
      indexable file: rows of files no longer walked are gone. */
  lemma StoredRowsFromWalkedFiles(files: seq<File>, lib: Library, k: int)
    requires k in UpsertAll(map[], PassRows(files, lib))
    ensures UpsertAll(map[], PassRows(files, lib))[k].id == k
    ensures exists i :: (0 <= i < |files| && Indexable(files[i]) &&
      UpsertAll(map[], PassRows(files, lib))[k].filePath == RelPathString(files[i].path))
  {
    UpsertAllFromRows(map[], PassRows(files, lib), k);
    PassRowsProvenance(files, lib, UpsertAll(map[], PassRows(files, lib))[k]);
  }
}
