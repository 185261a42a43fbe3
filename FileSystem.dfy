/**
 * The part of `java.io.File` the plugin relies on: a path, whether something
 * exists there, whether it is a directory or a regular file, and its name.
 */
module FileSystem {

  /** A path as its sequence of name segments; `Paths.get(dir, "a", "b")` appends segments. */
  datatype Path = Path(segments: seq<string>) {

    function Child(name: string): (r: Path)
      ensures |r.segments| == |segments| + 1 && r.Name() == name
    {
      Path(segments + [name])
    }

    /** `File.getName()`: the last segment, or the empty string for the empty path. */
    function Name(): string {
      if segments == [] then "" else segments[|segments| - 1]
    }

    /** `File.toString()`: the segments joined by the separator. */
    function ToString(): string {
      Join(segments)
    }
  }

  function Join(segments: seq<string>): string
  {
    if segments == [] then ""
    else if |segments| == 1 then segments[0]
    else Join(segments[..|segments| - 1]) + "/" + segments[|segments| - 1]
  }

  /** What is found at a path that exists: `isDirectory()`, `isFile()` or neither (a device, a socket). */
  datatype Node = Directory | RegularFile | Special

  /** The file system as seen by the build: every existing path and its kind. */
  type FileSystem = map<Path, Node>

  predicate Exists(fs: FileSystem, p: Path) {
    p in fs
  }

  predicate IsDirectory(fs: FileSystem, p: Path) {
    p in fs && fs[p] == Directory
  }

  predicate IsFile(fs: FileSystem, p: Path) {
    p in fs && fs[p] == RegularFile
  }

  /** `String.endsWith`. */
  predicate EndsWith(s: string, suffix: string) {
    |suffix| <= |s| && s[|s| - |suffix|..] == suffix
  }

  /** The tests the task applies to a classpath entry. */
  datatype FileTest =
    | Present    // `f.exists()`
    | IsDir      // `File::isDirectory`
    | IsJarFile  // `f.isFile() && f.getName().endsWith(".jar")`

  predicate Holds(fs: FileSystem, t: FileTest, p: Path) {
    match t
    case Present => Exists(fs, p)
    case IsDir => IsDirectory(fs, p)
    case IsJarFile => IsFile(fs, p) && EndsWith(p.Name(), ".jar")
  }

  /**
   * The entries of `ps` that pass test `t`, in their original order: what a
   * `filter` over a list or a stream produces.
   */
  function Select(fs: FileSystem, t: FileTest, ps: seq<Path>): (r: seq<Path>)
    ensures |r| <= |ps|
  {
    if ps == [] then []
    else
      var rest := Select(fs, t, ps[..|ps| - 1]);
      var last := ps[|ps| - 1];
      if Holds(fs, t, last) then rest + [last] else rest
  }

  /** An entry is selected iff it is in the input and passes the test. */
  lemma {:induction false} SelectMembership(fs: FileSystem, t: FileTest, ps: seq<Path>)
    ensures forall p :: p in Select(fs, t, ps) <==> p in ps && Holds(fs, t, p)
    decreases |ps|
  {
    if ps != [] {
      var init := ps[..|ps| - 1];
      assert ps == init + [ps[|ps| - 1]];
      SelectMembership(fs, t, init);
    }
  }

  /** Selecting from a concatenation selects from each part. */
  lemma {:induction false} SelectAppend(fs: FileSystem, t: FileTest, a: seq<Path>, b: seq<Path>)
    ensures Select(fs, t, a + b) == Select(fs, t, a) + Select(fs, t, b)
    decreases |b|
  {
    if b == [] {
      assert a + b == a;
    } else {
      var b' := b[..|b| - 1];
      assert (a + b)[..|a + b| - 1] == a + b';
      SelectAppend(fs, t, a, b');
    }
  }

  /** `a` occurs in `b` in order, possibly with other entries in between. */
  predicate IsSubsequence(a: seq<Path>, b: seq<Path>)
    decreases |b|
  {
    if a == [] then true
    else if b == [] then false
    else if a[0] == b[0] then IsSubsequence(a[1..], b[1..])
    else IsSubsequence(a, b[1..])
  }

  lemma {:induction false} SubsequenceOfPrefix(a: seq<Path>, b: seq<Path>, x: Path)
    requires IsSubsequence(a, b)
    ensures IsSubsequence(a, b + [x])
    decreases |b|
  {
    if a != [] && b != [] {
      assert (b + [x])[1..] == b[1..] + [x];
      if a[0] == b[0] {
        SubsequenceOfPrefix(a[1..], b[1..], x);
      } else {
        SubsequenceOfPrefix(a, b[1..], x);
      }
    }
  }

  lemma {:induction false} SubsequenceExtend(a: seq<Path>, b: seq<Path>, x: Path)
    requires IsSubsequence(a, b)
    ensures IsSubsequence(a + [x], b + [x])
    decreases |b|
  {
    if a == [] {
      if b != [] {
        assert (b + [x])[1..] == b[1..] + [x];
        SubsequenceExtend(a, b[1..], x);
      }
    } else {
      assert b != [];
      assert (b + [x])[1..] == b[1..] + [x];
      assert (a + [x])[1..] == a[1..] + [x];
      if a[0] == b[0] {
        SubsequenceExtend(a[1..], b[1..], x);
      } else {
        SubsequenceExtend(a, b[1..], x);
      }
    }
  }

  /** Selection keeps the original order: the result is a subsequence of the input. */
  lemma {:induction false} SelectIsSubsequence(fs: FileSystem, t: FileTest, ps: seq<Path>)
    ensures IsSubsequence(Select(fs, t, ps), ps)
    decreases |ps|
  {
    if ps != [] {
      var init := ps[..|ps| - 1];
      var last := ps[|ps| - 1];
      assert ps == init + [last];
      SelectIsSubsequence(fs, t, init);
      if Holds(fs, t, last) {
        SubsequenceExtend(Select(fs, t, init), init, last);
      } else {
        SubsequenceOfPrefix(Select(fs, t, init), init, last);
      }
    }
  }

  /** Selection keeps every occurrence of a passing entry and drops every occurrence of a failing one. */
  lemma {:induction false} SelectMultiplicity(fs: FileSystem, t: FileTest, ps: seq<Path>, p: Path)
    ensures multiset(Select(fs, t, ps))[p] == if Holds(fs, t, p) then multiset(ps)[p] else 0
    decreases |ps|
  {
    if ps != [] {
      var init := ps[..|ps| - 1];
      assert ps == init + [ps[|ps| - 1]];
      SelectMultiplicity(fs, t, init, p);
    }
  }

  /** Selecting with a test that implies another gives the same result after pre-selecting with the other. */
  lemma {:induction false} SelectAfterPresent(fs: FileSystem, t: FileTest, ps: seq<Path>)
    ensures Select(fs, t, Select(fs, Present, ps)) == Select(fs, t, ps)
    decreases |ps|
  {
    if ps != [] {
      var init := ps[..|ps| - 1];
      var last := ps[|ps| - 1];
      SelectAfterPresent(fs, t, init);
      if Holds(fs, Present, last) {
        SelectAppend(fs, t, Select(fs, Present, init), [last]);
      }
    }
  }
}
