/**
 * The earlier task of the repository's root project: it compares the lengths of
 * two files, reports the larger one (or the common length) and appends the
 * report to a result file.
 */
module FileDiff {
  import opened FileSystem
  import opened Decimal

  /** The contents of the regular files the task reads and writes, one byte per character. */
  type Store = map<Path, string>

  /** `File.length()`: the number of bytes in the file, 0 when there is no such file. */
  function Length(store: Store, p: Path): (n: nat)
    ensures p !in store ==> n == 0
  {
    if p in store then |store[p]| else 0
  }

  function Max(a: nat, b: nat): nat {
    if a >= b then a else b
  }

  /** The file reported when the lengths differ: `file1` when it is strictly longer, `file2` otherwise. */
  function Largest(store: Store, file1: Path, file2: Path): (r: Path)
    ensures r == file1 || r == file2
    ensures Length(store, r) == Max(Length(store, file1), Length(store, file2))
  {
    if Length(store, file1) > Length(store, file2) then file1 else file2
  }

  /** The report `diff` writes. */
  function DiffMessage(store: Store, file1: Path, file2: Path): (m: string)
    ensures |m| > |" bytes."|
  {
    if Length(store, file1) == Length(store, file2) then
      "Files have the same size at " + DecimalString(Length(store, file1)) + " bytes."
    else
      var largest := Largest(store, file1, file2);
      largest.ToString() + " was the largest file at " + DecimalString(Length(store, largest)) + " bytes."
  }

  /** `appendString`: the file gets `s` after whatever it held; a missing file is created. */
  function AppendString(store: Store, p: Path, s: string): (r: Store)
    ensures r.Keys == store.Keys + {p}
  {
    store[p := (if p in store then store[p] else "") + s]
  }

  /**
   * When the lengths differ the reported file is `file1` iff it is strictly
   * longer, and the reported length is the larger of the two.
   */
  lemma LargestRule(store: Store, file1: Path, file2: Path)
    requires Length(store, file1) != Length(store, file2)
    ensures Largest(store, file1, file2) == file1 <==> Length(store, file1) > Length(store, file2)
    ensures Largest(store, file1, file2) == file2 <==> Length(store, file2) > Length(store, file1)
    ensures Length(store, Largest(store, file1, file2)) == Max(Length(store, file1), Length(store, file2))
  {
  }

  /** The report does not depend on which file is `file1`. */
  lemma DiffMessageSymmetric(store: Store, file1: Path, file2: Path)
    ensures DiffMessage(store, file1, file2) == DiffMessage(store, file2, file1)
  {
  }

  /** Both kinds of report end with the larger length, in decimal, and " bytes.". */
  lemma DiffMessageReportsMaximum(store: Store, file1: Path, file2: Path)
    ensures var n := DecimalString(Max(Length(store, file1), Length(store, file2)));
      var m := DiffMessage(store, file1, file2);
      && |n + " bytes."| <= |m|
      && m[|m| - |n + " bytes."|..] == n + " bytes."
      && DigitsValue(n) == Max(Length(store, file1), Length(store, file2))
  {
    var n := DecimalString(Max(Length(store, file1), Length(store, file2)));
    var tail := n + " bytes.";
    var m := DiffMessage(store, file1, file2);
    var head := if Length(store, file1) == Length(store, file2) then "Files have the same size at "
                else Largest(store, file1, file2).ToString() + " was the largest file at ";
    assert m == head + tail;
    assert m[|head|..] == tail;
  }

  /** Appending keeps what the file held as a prefix, adds exactly `s`, and touches no other file. */
  lemma AppendStringRule(store: Store, p: Path, s: string)
    ensures var after := AppendString(store, p, s);
      && p in after
      && Length(after, p) == Length(store, p) + |s|
      && (p in store ==> after[p][..|store[p]|] == store[p])
      && after[p][Length(store, p)..] == s
      && (forall q :: q != p ==> (q in after <==> q in store) && (q in store ==> after[q] == store[q]))
  {
  }

  /** Two appends are one append of both strings. */
  lemma AppendTwice(store: Store, p: Path, s: string, t: string)
    ensures AppendString(AppendString(store, p, s), p, t) == AppendString(store, p, s + t)
  {
    var before := if p in store then store[p] else "";
    assert (before + s) + t == before + (s + t);
  }

  /** The task object: the two files to compare and the result file, which defaults to `<buildDir>/diff-result.txt`. */
  class DiffTask {
    var file1: Path
    var file2: Path
    var resultFile: Path

    constructor (buildDir: Path, file1: Path, file2: Path)
      ensures this.file1 == file1 && this.file2 == file2
      ensures resultFile == buildDir.Child("diff-result.txt")
      ensures resultFile.segments == buildDir.segments + ["diff-result.txt"]
    {
      this.file1 := file1;
      this.file2 := file2;
      resultFile := buildDir.Child("diff-result.txt");
    }

    /** The task action `diff`: the report, and the files once it is appended to the result file. */
    method Diff(store: Store) returns (message: string, after: Store)
      ensures message == DiffMessage(store, file1, file2)
      ensures after == AppendString(store, resultFile, message)
    {
      var size1 := Length(store, file1);
      var size2 := Length(store, file2);
      if size1 == size2 {
        message := "Files have the same size at " + DecimalString(size1) + " bytes.";
      } else {
        var largestFile := if size1 > size2 then file1 else file2;
        message := largestFile.ToString() + " was the largest file at "
                   + DecimalString(Length(store, largestFile)) + " bytes.";
      }
      after := AppendString(store, resultFile, message);
    }
  }

  /**
   * Running the task again reports the same result and appends it once more,
   * as long as the result file is neither of the compared files.
   */
  lemma DiffRepeated(store: Store, file1: Path, file2: Path, resultFile: Path)
    requires resultFile != file1 && resultFile != file2
    ensures var m := DiffMessage(store, file1, file2);
      var once := AppendString(store, resultFile, m);
      && DiffMessage(once, file1, file2) == m
      && AppendString(once, resultFile, m) == AppendString(store, resultFile, m + m)
  {
    var m := DiffMessage(store, file1, file2);
    var once := AppendString(store, resultFile, m);
    assert Length(once, file1) == Length(store, file1);
    assert Length(once, file2) == Length(store, file2);
    AppendTwice(store, resultFile, m, m);
  }
}
