/** Path.Combine and Path.GetFileName with the Windows separator rules. */
module Paths {

  predicate IsDirectorySeparator(c: char) { c == '\\' || c == '/' }

  predicate IsDriveLetter(c: char) { 'A' <= c <= 'Z' || 'a' <= c <= 'z' }

  /** Path.IsPathRooted: a leading separator or a drive letter and colon. */
  predicate IsPathRooted(p: string) {
    || (|p| >= 1 && IsDirectorySeparator(p[0]))
    || (|p| >= 2 && IsDriveLetter(p[0]) && p[1] == ':')
  }

  /**
   * Path.Combine(a, b): an empty part yields the other, a rooted b replaces a,
   * otherwise the parts are joined with one backslash unless a already ends in
   * a separator.
   */
  function Combine(a: string, b: string): string {
    if a == "" then b
    else if b == "" then a
    else if IsPathRooted(b) then b
    else if IsDirectorySeparator(a[|a| - 1]) then a + b
    else a + "\\" + b
  }

  /** Path.Combine(params string[]): the parts combined pairwise from the left. */
  function CombineAll(parts: seq<string>): string
    decreases |parts|
  {
    if parts == [] then "" else Combine(CombineAll(parts[..|parts| - 1]), parts[|parts| - 1])
  }

  /** Index of the last directory separator in p, or -1. */
  function LastSeparator(p: string): (r: int)
    ensures -1 <= r < |p|
    ensures r >= 0 ==> IsDirectorySeparator(p[r])
    ensures forall j | r < j < |p| :: !IsDirectorySeparator(p[j])
  {
    if p == "" then -1
    else if IsDirectorySeparator(p[|p| - 1]) then |p| - 1
    else LastSeparator(p[..|p| - 1])
  }

  /** Path.GetFileName: what follows the last separator, or a leading drive. */
  function GetFileName(p: string): string {
    var i := LastSeparator(p);
    if i >= 0 then p[i + 1..]
    else if |p| >= 2 && IsDriveLetter(p[0]) && p[1] == ':' then p[2..]
    else p
  }

  predicate IsPlainName(b: string) {
    && |b| >= 2
    && !IsPathRooted(b)
    && forall i | 0 <= i < |b| :: !IsDirectorySeparator(b[i])
  }

  /** Appending text to a plain second part appends it to the combined path. */
  lemma CombineAppend(a: string, b: string, c: string)
    requires |b| >= 2 && !IsPathRooted(b)
    ensures Combine(a, b + c) == Combine(a, b) + c
  {
    var bc := b + c;
    assert bc[0] == b[0] && bc[1] == b[1];
    assert !IsPathRooted(bc) && bc != "";
    if a != "" {
      if IsDirectorySeparator(a[|a| - 1]) {
        assert a + bc == (a + b) + c;
      } else {
        assert a + "\\" + bc == (a + "\\" + b) + c;
      }
    }
  }

  /** The file name of a path combined with a plain name is that name. */
  lemma FileNameOfCombine(a: string, b: string)
    requires IsPlainName(b)
    ensures GetFileName(Combine(a, b)) == b
  {
    var p := Combine(a, b);
    if a != "" {
      var q := |p| - |b| - 1;
      assert p[q + 1..] == b;
      assert IsDirectorySeparator(p[q]);
      assert LastSeparator(p) == q;
    } else {
      assert LastSeparator(p) == -1;
    }
  }

  /** A non-empty, unrooted second part always ends the combined path. */
  lemma CombineEndsWith(a: string, b: string)
    requires b != "" && !IsPathRooted(b)
    ensures |Combine(a, b)| >= |b| && Combine(a, b)[|Combine(a, b)| - |b|..] == b
  {
  }
}
