/**
 * The file system the commands read and write, as values passed in and returned: a map
 * from file path to content and a set of directory paths. Paths are relative to the
 * working directory, which is written "".
 */
module FileStore {

  /** filepath.Join of two elements (path cleaning is not modelled). */
  function PathJoin(a: string, b: string): string {
    if a == "" then b else if b == "" then a else a + "/" + b
  }

  /** The index of the last '/' in p. */
  function LastSlash(p: string): (k: nat)
    requires '/' in p
    ensures k < |p| && p[k] == '/' && '/' !in p[k + 1..]
  {
    if p[|p| - 1] == '/' then |p| - 1
    else
      assert '/' in p[..|p| - 1] by {
        var j :| 0 <= j < |p| && p[j] == '/';
        assert p[..|p| - 1][j] == '/';
      }
      var k := LastSlash(p[..|p| - 1]);
      assert p[k + 1..] == p[..|p| - 1][k + 1..] + [p[|p| - 1]];
      k
  }

  /** filepath.Dir: the directory that holds p ("" for the working directory). */
  function Parent(p: string): string {
    if '/' in p then p[..LastSlash(p)] else ""
  }

  /** The directories above p: every prefix of p that ends just before a '/'. */
  function Ancestors(p: string): set<string> {
    set k | 0 < k < |p| && p[k] == '/' :: p[..k]
  }

  /** os.Stat(p) succeeds: p is a file or a directory. */
  predicate Exists(files: map<string, string>, dirs: set<string>, p: string) {
    p in files || p in dirs
  }

  /** The directory d is present (the working directory always is). */
  predicate DirPresent(dirs: set<string>, d: string) {
    d == "" || d in dirs
  }

  /** os.Create(p) succeeds: its directory is present and p is not itself a directory. */
  predicate CanCreate(dirs: set<string>, p: string) {
    DirPresent(dirs, Parent(p)) && p !in dirs
  }

  /**
   * os.MkdirAll(p): fails when p or a directory above it is a file; otherwise p and
   * every directory above it are directories afterwards. Nothing is created on failure.
   */
  method MkdirAll(files: map<string, string>, dirs: set<string>, p: string) returns (dirs': set<string>, ok: bool)
    ensures ok <==> CanMkdirAll(files, p)
    ensures dirs' == if ok then dirs + {p} + Ancestors(p) else dirs
  {
    ok := CanMkdirAll(files, p);
    dirs' := if ok then dirs + {p} + Ancestors(p) else dirs;
  }

  /** os.MkdirAll(p) succeeds: neither p nor a directory above it is a file. */
  predicate CanMkdirAll(files: map<string, string>, p: string) {
    p !in files && Ancestors(p) !! files.Keys
  }

  /** Joining a directory with two different names gives two different paths. */
  lemma PathJoinInjective(dir: string, x: string, y: string)
    requires x != y
    ensures PathJoin(dir, x) != PathJoin(dir, y)
  {
    if dir != "" && x != "" && y != "" {
      var px, py := PathJoin(dir, x), PathJoin(dir, y);
      assert px[|dir| + 1..] == x;
      assert py[|dir| + 1..] == y;
    } else if dir != "" && x == "" {
      assert |PathJoin(dir, y)| > |dir|;
    } else if dir != "" && y == "" {
      assert |PathJoin(dir, x)| > |dir|;
    }
  }
}
