/** Codebase-root discovery and the configuration derived from the environment
    (src/cocoindex_code/config.py). */
module Config {
  import opened Wrappers

  /** An absolute filesystem path as its list of components; the filesystem root is `[]`. */
  type Path = seq<string>

  /** The directory that holds a previous index. */
  const IndexMarker := ".cocoindex_code"
  /** The version-control directory that marks a project root. */
  const GitMarker := ".git"

  const RootPathVar := "COCOINDEX_CODE_ROOT_PATH"
  const EmbeddingModelVar := "COCOINDEX_CODE_EMBEDDING_MODEL"
  const DefaultEmbeddingModel := "sbert/sentence-transformers/all-MiniLM-L6-v2"

  /** `path.parent`: the root is its own parent. */
  function Parent(p: Path): Path {
    if p == [] then [] else p[..|p| - 1]
  }

  /** `str(path)`: components joined by "/" after a leading "/". */
  function PathString(p: Path): string {
    "/" + JoinComponents(p)
  }

  function JoinComponents(p: Path): string {
    if p == [] then ""
    else if |p| == 1 then p[0]
    else p[0] + "/" + JoinComponents(p[1..])
  }

  /** `(dir / marker).is_dir()`, where `dirs` is the set of existing directories. */
  predicate HasMarker(dirs: set<Path>, dir: Path, marker: string) {
    dir + [marker] in dirs
  }

  /** The nearest directory on the ancestor chain of `start` (itself first, the root
      last) that holds `marker`; None when no directory on the chain holds it. */
  function NearestWithMarker(dirs: set<Path>, start: Path, marker: string): (r: Option<Path>)
    ensures r.None? <==> forall k :: 0 <= k <= |start| ==> !HasMarker(dirs, start[..k], marker)
    ensures r.Some? ==>
      && |r.value| <= |start| && r.value == start[..|r.value|]
      && HasMarker(dirs, r.value, marker)
      && forall k :: |r.value| < k <= |start| ==> !HasMarker(dirs, start[..k], marker)
    decreases |start|
  {
    assert start[..|start|] == start;
    if HasMarker(dirs, start, marker) then Some(start)
    else if start == [] then None
    else
      var p := Parent(start);
      assert forall k :: 0 <= k <= |p| ==> p[..k] == start[..k];
      NearestWithMarker(dirs, p, marker)
  }

  /** `_find_root_with_marker`: walk from the resolved start directory up to the
      root, returning the first directory that holds `marker`. */
  method FindRootWithMarker(dirs: set<Path>, resolve: Path -> Path, startDir: Path, marker: string)
    returns (r: Option<Path>)
    ensures r == NearestWithMarker(dirs, resolve(startDir), marker)
  {
    var current := resolve(startDir);
    while current != Parent(current)
      invariant NearestWithMarker(dirs, current, marker) == NearestWithMarker(dirs, resolve(startDir), marker)
      decreases |current|
    {
      if HasMarker(dirs, current, marker) {
        return Some(current);
      }
      current := Parent(current);
    }
    // Check the root directory too.
    if HasMarker(dirs, current, marker) {
      return Some(current);
    }
    return None;
  }

  /** The root that discovery settles on from `cwd`: the nearest ancestor holding an
      index, else the nearest holding `.git`, else `cwd` itself (unresolved). */
  function Discovered(dirs: set<Path>, resolve: Path -> Path, cwd: Path): Path {
    match NearestWithMarker(dirs, resolve(cwd), IndexMarker)
    case Some(root) => root
    case None =>
      match NearestWithMarker(dirs, resolve(cwd), GitMarker)
      case Some(root) => root
      case None => cwd
  }

  /** `_discover_codebase_root`. */
  method DiscoverCodebaseRoot(dirs: set<Path>, resolve: Path -> Path, cwd: Path) returns (root: Path)
    ensures root == Discovered(dirs, resolve, cwd)
  {
    var found := FindRootWithMarker(dirs, resolve, cwd, IndexMarker);
    if found.Some? {
      return found.value;
    }
    found := FindRootWithMarker(dirs, resolve, cwd, GitMarker);
    if found.Some? {
      return found.value;
    }
    return cwd;
  }

  /** An index marker anywhere on the chain wins over `.git`, even over a `.git`
      in a nearer directory: the root is the nearest directory holding the index. */
  lemma DiscoveryPrefersIndexMarker(dirs: set<Path>, resolve: Path -> Path, cwd: Path, k: nat)
    requires k <= |resolve(cwd)| && HasMarker(dirs, resolve(cwd)[..k], IndexMarker)
    ensures var root := Discovered(dirs, resolve, cwd);
      && HasMarker(dirs, root, IndexMarker)
      && k <= |root| <= |resolve(cwd)| && root == resolve(cwd)[..|root|]
      && forall j :: |root| < j <= |resolve(cwd)| ==> !HasMarker(dirs, resolve(cwd)[..j], IndexMarker)
  {
  }

  /** With no index marker on the chain, the nearest `.git` decides. */
  lemma DiscoveryFallsBackToGit(dirs: set<Path>, resolve: Path -> Path, cwd: Path, k: nat)
    requires forall j :: 0 <= j <= |resolve(cwd)| ==> !HasMarker(dirs, resolve(cwd)[..j], IndexMarker)
    requires k <= |resolve(cwd)| && HasMarker(dirs, resolve(cwd)[..k], GitMarker)
    ensures var root := Discovered(dirs, resolve, cwd);
      && HasMarker(dirs, root, GitMarker)
      && k <= |root| <= |resolve(cwd)| && root == resolve(cwd)[..|root|]
      && forall j :: |root| < j <= |resolve(cwd)| ==> !HasMarker(dirs, resolve(cwd)[..j], GitMarker)
  {
  }

  /** With neither marker anywhere on the chain, discovery returns `cwd` unchanged. */
  lemma DiscoveryFallsBackToCwd(dirs: set<Path>, resolve: Path -> Path, cwd: Path)
    requires forall j :: 0 <= j <= |resolve(cwd)| ==>
      !HasMarker(dirs, resolve(cwd)[..j], IndexMarker) && !HasMarker(dirs, resolve(cwd)[..j], GitMarker)
    ensures Discovered(dirs, resolve, cwd) == cwd
  {
  }

  /** The process environment and filesystem that configuration is read from. */
  datatype Host = Host(
    env: map<string, string>,
    cwd: Path,
    dirs: set<Path>,
    resolve: Path -> Path,   // `Path.resolve()`
    parse: string -> Path)   // `Path(s)`, relative strings taken against the cwd

  /** `Config`: the settings resolved once at start-up. */
  datatype Config = Config(codebaseRootPath: Path, embeddingModel: string, indexDir: Path) {

    /** The vector index database: a file directly in the index directory. */
    function TargetSqliteDbPath(): (p: Path)
      ensures p != [] && Parent(p) == indexDir && p[|p| - 1] == "target_sqlite.db"
    {
      indexDir + ["target_sqlite.db"]
    }

    /** The indexing engine's own state database: a file directly in the index directory. */
    function CocoindexDbPath(): (p: Path)
      ensures p != [] && Parent(p) == indexDir && p[|p| - 1] == "cocoindex.db"
    {
      indexDir + ["cocoindex.db"]
    }
  }

  /** The root chosen by `from_env`: a non-empty `COCOINDEX_CODE_ROOT_PATH`, resolved,
      else discovery (an empty value is falsy and falls through). */
  function RootFromEnv(host: Host): Path {
    if RootPathVar in host.env && host.env[RootPathVar] != "" then
      host.resolve(host.parse(host.env[RootPathVar]))
    else
      Discovered(host.dirs, host.resolve, host.cwd)
  }

  /** The model chosen by `from_env`: the variable's value whenever it is set,
      the default only when it is absent. */
  function ModelFromEnv(env: map<string, string>): string {
    if EmbeddingModelVar in env then env[EmbeddingModelVar] else DefaultEmbeddingModel
  }

  /** `Config.from_env`. */
  method FromEnv(host: Host) returns (c: Config)
    ensures c.codebaseRootPath == RootFromEnv(host)
    ensures c.embeddingModel == ModelFromEnv(host.env)
    ensures c.indexDir == c.codebaseRootPath + [IndexMarker]
  {
    var root: Path;
    if RootPathVar in host.env && host.env[RootPathVar] != "" {
      root := host.resolve(host.parse(host.env[RootPathVar]));
    } else {
      root := DiscoverCodebaseRoot(host.dirs, host.resolve, host.cwd);
    }
    var embeddingModel := if EmbeddingModelVar in host.env then host.env[EmbeddingModelVar] else DefaultEmbeddingModel;
    var indexDir := root + [IndexMarker];
    c := Config(root, embeddingModel, indexDir);
  }

  /** A non-empty root override is used as given (after resolving); discovery is not consulted. */
  lemma RootOverrideWins(host: Host)
    requires RootPathVar in host.env && host.env[RootPathVar] != ""
    ensures RootFromEnv(host) == host.resolve(host.parse(host.env[RootPathVar]))
  {
  }

  /** An absent or empty root override falls through to discovery. */
  lemma EmptyRootOverrideFallsThrough(host: Host)
    requires RootPathVar !in host.env || host.env[RootPathVar] == ""
    ensures RootFromEnv(host) == Discovered(host.dirs, host.resolve, host.cwd)
  {
  }

  /** The default model is used only when the variable is absent; a set value,
      even the empty string, is kept as is. */
  lemma ModelDefaultOnlyWhenAbsent(env: map<string, string>)
    ensures EmbeddingModelVar !in env ==> ModelFromEnv(env) == DefaultEmbeddingModel
    ensures EmbeddingModelVar in env ==> ModelFromEnv(env) == env[EmbeddingModelVar]
  {
  }

  /** For a configuration built by `from_env`, both databases live in
      root/.cocoindex_code under distinct names. */
  lemma StorePathsUnderIndexDir(c: Config)
    requires c.indexDir == c.codebaseRootPath + [IndexMarker]
    ensures c.TargetSqliteDbPath() == c.codebaseRootPath + [IndexMarker, "target_sqlite.db"]
    ensures c.CocoindexDbPath() == c.codebaseRootPath + [IndexMarker, "cocoindex.db"]
    ensures c.TargetSqliteDbPath() != c.CocoindexDbPath()
  {
    assert c.TargetSqliteDbPath()[|c.codebaseRootPath| + 1] != c.CocoindexDbPath()[|c.codebaseRootPath| + 1];
  }
}
