/** Path names: the directory part of a path, temporary names and backup names. */
module Names {

  type Path = string

  const TEMP_STEM := ".newfile."
  const TEMP_RAND := 6

  /** Length of the directory part, trailing slash included; 0 when there is none. */
  function DirLen(path: Path): (n: nat)
    ensures n <= |path|
    ensures n == 0 || path[n - 1] == '/'
    ensures forall k :: n <= k < |path| ==> path[k] != '/'
  {
    if |path| == 0 then 0
    else if path[|path| - 1] == '/' then |path|
    else DirLen(path[..|path| - 1])
  }

  /** The directory that holds the last component of path. */
  function Dir(path: Path): string {
    var n := DirLen(path);
    var n := if n > 1 then n - 1 else n;
    if n == 0 then "." else path[..n]
  }

  function Base(path: Path): string {
    path[DirLen(path)..]
  }

  predicate AlNum(c: char) {
    'A' <= c <= 'Z' || 'a' <= c <= 'z' || '0' <= c <= '9'
  }

  predicate IsSuffix(s: string) {
    |s| == TEMP_RAND && forall k :: 0 <= k < |s| ==> AlNum(s[k])
  }

  /** A temporary name in the directory of target. */
  function TempName(target: Path, suffix: string): Path {
    target[..DirLen(target)] + TEMP_STEM + suffix
  }

  predicate IsTemp(q: Path) {
    var b := Base(q);
    |b| == |TEMP_STEM| + TEMP_RAND && b[..|TEMP_STEM|] == TEMP_STEM && IsSuffix(b[|TEMP_STEM|..])
  }

  predicate IsDigit(c: char) { '0' <= c <= '9' }

  /** A decimal numeral from 1 up, without leading zeros. */
  predicate Canonical(d: string) {
    |d| > 0 && d[0] != '0' && forall k :: 0 <= k < |d| ==> IsDigit(d[k])
  }

  function SimpleBackup(p: Path): Path { p + "~" }

  function NumberedBackup(p: Path, digits: string): Path { p + ".~" + digits + "~" }

  ghost predicate IsNumbered(p: Path, q: Path) {
    exists d :: Canonical(d) && q == NumberedBackup(p, d)
  }

  ghost predicate IsBackup(p: Path, q: Path) {
    q == SimpleBackup(p) || IsNumbered(p, q)
  }

  /* ----- where a path leads ----- */

  /** The first slash of s, or its length. */
  function Slash(s: string): (i: nat)
    ensures i <= |s| && (i < |s| ==> s[i] == '/') && forall j :: 0 <= j < i ==> s[j] != '/'
  {
    if s == "" || s[0] == '/' then 0 else 1 + Slash(s[1..])
  }

  /** Where s leads from `at`, one name after the other; next says where each leads. */
  function Lead<L>(next: (L, string) -> L, at: L, s: string): L
    decreases |s|
  {
    var i := Slash(s);
    if i == |s| then next(at, s) else Lead(next, next(at, s[..i]), s[i + 1..])
  }

  /** Where a path leads, from the working directory or from the root. */
  function Walk<L>(next: (L, string) -> L, root: L, cwd: L, path: Path): L {
    if path != "" && path[0] == '/' then Lead(next, root, path[1..]) else Lead(next, cwd, path)
  }

  lemma SlashUnique(s: string, i: nat)
    requires i <= |s| && (i < |s| ==> s[i] == '/') && forall j :: 0 <= j < i ==> s[j] != '/'
    ensures Slash(s) == i
  {
  }

  lemma {:induction false} LeadOnce<L>(next: (L, string) -> L, at: L, s: string)
    ensures Lead(next, at, s) == if Slash(s) == |s| then next(at, s) else Lead(next, next(at, s[..Slash(s)]), s[Slash(s) + 1..])
  {}

  lemma {:induction false} LeadOn<L>(next: (L, string) -> L, at: L, a: string, b: string)
    requires forall k :: 0 <= k < |b| ==> b[k] != '/'
    ensures Lead(next, at, a + "/" + b) == next(Lead(next, at, a), b)
    decreases |a|
  {
    hide Lead;
    var s, i := a + "/" + b, Slash(a);
    SlashUnique(s, i);
    SlashUnique(b, |b|);
    LeadOnce(next, at, s);
    LeadOnce(next, at, a);
    if i == |a| {
      assert s[..i] == a && s[i + 1..] == b;
      LeadOnce(next, next(at, a), b);
    } else {
      assert s[..i] == a[..i] && s[i + 1..] == a[i + 1..] + "/" + b;
      LeadOn(next, next(at, a[..i]), a[i + 1..], b);
    }
  }

  /** Dir and Base together lead where the path does, in any tree of directories,
      links included: nothing is asked of it but that "." and no name at all stay. */
  lemma DirThenBase<L>(next: (L, string) -> L, root: L, cwd: L, p: Path)
    requires forall at :: next(at, "") == at && next(at, ".") == at
    ensures Walk(next, root, cwd, p) == next(Walk(next, root, cwd, Dir(p)), Base(p))
    ensures forall k :: 0 <= k < |Base(p)| ==> Base(p)[k] != '/'
  {
    var n, b := DirLen(p), Base(p);
    SlashUnique(b, |b|);
    if n == 0 {
      assert p[0..] == p && Slash(".") == 1;
    } else if n == 1 {
      assert "/"[1..] == "" == p[..1][1..];
    } else {
      var d := p[..n - 1];
      assert Dir(p) == d && p == d + "/" + b;
      if d[0] == '/' {
        assert p[1..] == d[1..] + "/" + b;
        LeadOn(next, root, d[1..], b);
      } else {
        LeadOn(next, cwd, d, b);
      }
    }
  }

  /** The directory length is fixed by its three properties. */
  lemma DirLenUnique(path: Path, n: nat)
    requires n <= |path|
    requires n == 0 || path[n - 1] == '/'
    requires forall k :: n <= k < |path| ==> path[k] != '/'
    ensures DirLen(path) == n
  {
  }

  /** Adding a slash-free tail to a path keeps its directory. */
  lemma SameDir(p: Path, tail: string)
    requires forall k :: 0 <= k < |tail| ==> tail[k] != '/'
    ensures DirLen(p + tail) == DirLen(p)
    ensures Dir(p + tail) == Dir(p)
  {
    DirLenUnique(p + tail, DirLen(p));
    assert (p + tail)[..DirLen(p)] == p[..DirLen(p)];
    var n := DirLen(p);
    if n > 1 {
      assert (p + tail)[..n - 1] == p[..n - 1];
    }
  }

  lemma TempNameFacts(target: Path, suffix: string)
    requires IsSuffix(suffix)
    ensures IsTemp(TempName(target, suffix))
    ensures Dir(TempName(target, suffix)) == Dir(target)
  {
    var n := DirLen(target);
    var q := TempName(target, suffix);
    DirLenUnique(q, n);
    assert Base(q) == TEMP_STEM + suffix;
    assert q[..n] == target[..n];
    if n > 1 {
      assert q[..n - 1] == target[..n - 1];
    }
  }

  lemma BackupFacts(p: Path, q: Path)
    requires IsBackup(p, q)
    ensures Dir(q) == Dir(p)
    ensures !IsTemp(q)
    ensures q != p
  {
    var tail := q[|p|..];
    assert q == p + tail;
    assert q[|q| - 1] == '~';
    if q != SimpleBackup(p) {
      var d :| Canonical(d) && q == NumberedBackup(p, d);
      assert tail == ".~" + d + "~";
      forall k | 0 <= k < |tail| ensures tail[k] != '/' {
        if 2 <= k < |tail| - 1 {
          assert IsDigit(d[k - 2]);
        }
      }
    }
    SameDir(p, tail);
    var b := Base(q);
    if |b| == |TEMP_STEM| + TEMP_RAND {
      assert b[|TEMP_STEM|..][TEMP_RAND - 1] == '~';
    }
  }
}
