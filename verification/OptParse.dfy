/** The command-line parser: options and their arguments are moved to the front
    of the argument array, in place, and then parsed one call at a time. */
module OptParse {
  datatype Option<T> = None | Some(value: T)

  datatype Arity = NoArg | Required | Optional

  datatype LongOption = LongOption(name: string, arity: Arity)

  /** The option string and the table of long options. */
  datatype Table = Table(short: string, long: seq<LongOption>)

  /** What one call returns. */
  datatype Event =
    | Short(c: char, arg: Option<string>)
    | Long(index: nat, arg: Option<string>)
    | UnknownShort(c: char)
    | UnknownLong(word: string)
    | MissingShort(c: char)
    | MissingLong(index: nat)
    | Extra(index: nat)
    | End

  predicate IsMissing(e: Event) { e.MissingShort? || e.MissingLong? }

  predicate IsError(e: Event) { e.UnknownShort? || e.UnknownLong? || IsMissing(e) || e.Extra? }

  /* ----- words ----- */

  predicate IsOperand(w: string) { |w| < 2 || w[0] != '-' }

  predicate IsLong(w: string) { |w| > 2 && w[0] == '-' && w[1] == '-' }

  /** An operand is a word that does not begin with a dash, or is one; a long option is
      two dashes and a name. */
  lemma WordKinds(w: string)
    ensures !IsOperand(w) <==> exists rest: string :: rest != "" && w == "-" + rest
    ensures IsLong(w) <==> exists name: string :: name != "" && w == "--" + name
  {
    if !IsOperand(w) { assert w == "-" + w[1..]; }
    if IsLong(w) { assert w == "--" + w[2..]; }
  }

  /** The first place of c in s, or its length. */
  function Find(s: string, c: char): (i: nat)
    ensures i <= |s| && (i < |s| ==> s[i] == c)
    ensures forall j :: 0 <= j < i ==> s[j] != c
  {
    if s == [] || s[0] == c then 0 else 1 + Find(s[1..], c)
  }

  method IndexOf(s: string, c: char) returns (i: nat)
    ensures i == Find(s, c)
  {
    i := 0;
    while i < |s| && s[i] != c
      invariant i <= |s| && Find(s, c) == i + Find(s[i..], c)
    {
      i := i + 1;
    }
  }

  /** What the option string says of a letter; None if nothing. */
  function ShortArity(t: Table, c: char): Option<Arity> {
    var i := Find(t.short, c);
    if c == ':' || i == |t.short| then None
    else if i + 1 == |t.short| || t.short[i + 1] != ':' then Some(NoArg)
    else if i + 2 < |t.short| && t.short[i + 2] == ':' then Some(Optional)
    else Some(Required)
  }

  /** The first long option of that name, or the length of the table. */
  function FindLong(long: seq<LongOption>, name: string): (i: nat)
    ensures i <= |long| && (i < |long| ==> long[i].name == name)
    ensures forall j :: 0 <= j < i ==> long[j].name != name
  {
    if long == [] || long[0].name == name then 0 else 1 + FindLong(long[1..], name)
  }

  method LookUp(long: seq<LongOption>, name: string) returns (i: nat)
    ensures i == FindLong(long, name)
  {
    i := 0;
    while i < |long| && long[i].name != name
      invariant i <= |long| && FindLong(long, name) == i + FindLong(long[i..], name)
    {
      i := i + 1;
    }
  }

  /* ----- what a word takes with it, as permuting decides ----- */

  function LongTakes(t: Table, text: string): bool {
    var i := FindLong(t.long, text);
    Find(text, '=') == |text| && i < |t.long| && t.long[i].arity == Required
  }

  function ClusterTakes(t: Table, chars: string): bool {
    if chars == [] || chars[0] == ':' then false
    else match ShortArity(t, chars[0])
      case Some(Optional) => false
      case Some(Required) => |chars| == 1
      case _ => ClusterTakes(t, chars[1..])
  }

  function Takes(t: Table, w: string): bool
    requires !IsOperand(w)
  {
    if IsLong(w) then LongTakes(t, w[2..]) else w != "--" && ClusterTakes(t, w[1..])
  }

  method LongTakesArg(t: Table, text: string) returns (b: bool)
    ensures b == LongTakes(t, text)
  {
    var eq := IndexOf(text, '=');
    if eq < |text| {
      return false;
    }
    var i := LookUp(t.long, text);
    b := i < |t.long| && t.long[i].arity == Required;
  }

  method ClusterTakesArg(t: Table, chars: string) returns (b: bool)
    ensures b == ClusterTakes(t, chars)
  {
    var k := 0;
    while k < |chars|
      invariant 0 <= k <= |chars| && ClusterTakes(t, chars) == ClusterTakes(t, chars[k..])
    {
      var c := chars[k];
      ghost var rest := chars[k..];
      assert rest[1..] == chars[k + 1..];
      k := k + 1;
      if c == ':' {
        return false;
      }
      var i := IndexOf(t.short, c);
      if i == |t.short| || i + 1 == |t.short| || t.short[i + 1] != ':' {
        continue;
      }
      if i + 2 < |t.short| && t.short[i + 2] == ':' {
        return false;
      }
      return k == |chars|;
    }
    b := false;
  }

  /* ----- the permutation ----- */

  /** How many words an option and its argument are. */
  function Width(t: Table, words: seq<string>): (n: nat)
    requires words != [] && !IsOperand(words[0])
    ensures 1 <= n <= |words|
  {
    if Takes(t, words[0]) && |words| > 1 then 2 else 1
  }

  /** The options before "--" with their arguments, in order. */
  function Options(t: Table, words: seq<string>): seq<string> {
    if words == [] || words[0] == "--" then []
    else if IsOperand(words[0]) then Options(t, words[1..])
    else words[..Width(t, words)] + Options(t, words[Width(t, words)..])
  }

  /** The operands before "--", in order. */
  function Operands(t: Table, words: seq<string>): seq<string> {
    if words == [] || words[0] == "--" then []
    else if IsOperand(words[0]) then [words[0]] + Operands(t, words[1..])
    else Operands(t, words[Width(t, words)..])
  }

  /** From "--" on. */
  function Tail(t: Table, words: seq<string>): (s: seq<string>)
    ensures s != [] ==> s[0] == "--"
  {
    if words == [] || words[0] == "--" then words
    else if IsOperand(words[0]) then Tail(t, words[1..])
    else Tail(t, words[Width(t, words)..])
  }

  /** Everything in its place, given what was sorted before. */
  function Sorted(t: Table, options: seq<string>, operands: seq<string>, words: seq<string>): seq<string> {
    var tail := Tail(t, words);
    options + Options(t, words) +
    (if tail == [] then operands + Operands(t, words) else ["--"] + operands + Operands(t, words) + tail[1..])
  }

  function Permuted(t: Table, words: seq<string>): seq<string> { Sorted(t, [], [], words) }

  /** The words of an option, or an operand, put before either part. */
  lemma PartsJoin(a: seq<string>, o: seq<string>, p: seq<string>, q: seq<string>, s: seq<string>)
    requires multiset(o) + multiset(p) + multiset(q) == multiset(s)
    ensures multiset(a + o) + multiset(p) + multiset(q) == multiset(a + s)
    ensures multiset(o) + multiset(a + p) + multiset(q) == multiset(a + s)
  {
  }

  lemma {:induction false} PartsSame(t: Table, words: seq<string>)
    ensures multiset(Options(t, words)) + multiset(Operands(t, words)) + multiset(Tail(t, words)) == multiset(words)
  {
    hide Options, Operands, Tail, Takes;
    if words == [] {
      PartsNone(t);
    } else if words[0] != "--" {
      var n := if IsOperand(words[0]) then 1 else Width(t, words);
      var rest := words[n..];
      PartsSame(t, rest);
      PartsJoin(words[..n], Options(t, rest), Operands(t, rest), Tail(t, rest), rest);
      assert words == words[..n] + rest;
      PartsUnfold(t, words, n);
      assert [] + Options(t, rest) == Options(t, rest) && [] + Operands(t, rest) == Operands(t, rest);
    } else {
      PartsEnd(t, words);
    }
  }

  lemma PartsNone(t: Table)
    ensures Options(t, []) == [] && Operands(t, []) == [] && Tail(t, []) == []
  {}

  lemma PartsUnfold(t: Table, words: seq<string>, n: nat)
    requires words != [] && words[0] != "--" && n == if IsOperand(words[0]) then 1 else Width(t, words)
    ensures Tail(t, words) == Tail(t, words[n..])
    ensures Options(t, words) == (if IsOperand(words[0]) then [] else words[..n]) + Options(t, words[n..])
    ensures Operands(t, words) == (if IsOperand(words[0]) then words[..n] else []) + Operands(t, words[n..])
  {
    assert words[..1] == [words[0]];
    assert [] + Options(t, words[n..]) == Options(t, words[n..]);
    assert [] + Operands(t, words[n..]) == Operands(t, words[n..]);
  }

  lemma PartsEnd(t: Table, words: seq<string>)
    requires words != [] && words[0] == "--"
    ensures Options(t, words) == [] && Operands(t, words) == [] && Tail(t, words) == words
  {}

  /** Nothing is lost and nothing added. */
  lemma SameWords(t: Table, words: seq<string>)
    ensures multiset(Permuted(t, words)) == multiset(words)
  {
    hide Options, Operands, Tail;
    PartsSame(t, words);
    var tail := Tail(t, words);
    if tail != [] { assert tail == ["--"] + tail[1..]; }
    assert [] + Options(t, words) == Options(t, words) && [] + Operands(t, words) == Operands(t, words);
  }

  /** s is a and b, each in its order. */
  ghost predicate Merges(a: seq<string>, b: seq<string>, s: seq<string>)
    decreases |s|
  {
    if s == [] then a == [] && b == []
    else
      || (a != [] && a[0] == s[0] && Merges(a[1..], b, s[1..]))
      || (b != [] && b[0] == s[0] && Merges(a, b[1..], s[1..]))
  }

  lemma {:induction false} MergeMore(x: seq<string>, a: seq<string>, b: seq<string>, s: seq<string>)
    requires Merges(a, b, s)
    ensures Merges(x + a, b, x + s)
    decreases |x|
  {
    if x == [] {
      assert x + a == a && x + s == s;
    } else {
      MergeMore(x[1..], a, b, s);
      assert (x + a)[1..] == x[1..] + a && (x + s)[1..] == x[1..] + s;
    }
  }

  /** Both parts keep their order. */
  lemma {:induction false} PartsInOrder(t: Table, words: seq<string>)
    ensures |Tail(t, words)| <= |words| && words[|words| - |Tail(t, words)|..] == Tail(t, words)
    ensures Merges(Options(t, words), Operands(t, words), words[..|words| - |Tail(t, words)|])
  {
    if words != [] && words[0] != "--" {
      var n := if IsOperand(words[0]) then 1 else Width(t, words);
      PartsInOrder(t, words[n..]);
      var rest := words[n..][..|words[n..]| - |Tail(t, words[n..])|];
      assert words[..|words| - |Tail(t, words)|] == words[..n] + rest;
      if IsOperand(words[0]) {
        assert (words[..n] + rest)[1..] == rest;
        assert Operands(t, words)[1..] == Operands(t, words[1..]);
      } else {
        MergeMore(words[..n], Options(t, words[n..]), Operands(t, words[n..]), rest);
      }
    }
  }

  /* ----- in place ----- */

  function Reversed(s: seq<string>): (r: seq<string>)
    ensures |r| == |s|
    ensures forall i :: 0 <= i < |s| ==> r[i] == s[|s| - 1 - i]
  {
    if s == [] then [] else Reversed(s[1..]) + [s[0]]
  }

  /** The block from first to last reversed. */
  function ReversedIn(s: seq<string>, first: nat, last: nat): seq<string>
    requires first <= last <= |s|
  {
    s[..first] + Reversed(s[first..last]) + s[last..]
  }

  /** The block from middle to last moved in front of the block before it. */
  function RotatedIn(s: seq<string>, first: nat, middle: nat, last: nat): seq<string>
    requires first <= middle <= last <= |s|
  {
    s[..first] + s[middle..last] + s[first..middle] + s[last..]
  }

  lemma ReversedInAt(s: seq<string>, first: nat, last: nat, k: nat)
    requires first <= last <= |s| && k < |s|
    ensures |ReversedIn(s, first, last)| == |s|
    ensures ReversedIn(s, first, last)[k] == s[if first <= k < last then first + last - 1 - k else k]
  {
    hide Reversed;
    if first <= k < last {
      assert Reversed(s[first..last])[k - first] == s[first..last][last - 1 - k];
    }
  }

  lemma ReversedInSize(s: seq<string>, first: nat, last: nat)
    requires first <= last <= |s|
    ensures |ReversedIn(s, first, last)| == |s|
  {
    hide Reversed;
  }

  /** Three reversals are an exchange of two blocks. */
  lemma ThreeReversals(s: seq<string>, first: nat, middle: nat, last: nat)
    requires first <= middle <= last <= |s|
    ensures
      var s1 := ReversedIn(s, first, middle);
      && |s1| == |s|
      && var s2 := ReversedIn(s1, middle, last);
      && |s2| == |s| && ReversedIn(s2, first, last) == RotatedIn(s, first, middle, last)
  {
    hide ReversedIn;
    ReversedInSize(s, first, middle);
    var s1 := ReversedIn(s, first, middle);
    ReversedInSize(s1, middle, last);
    var s2 := ReversedIn(s1, middle, last);
    ReversedInSize(s2, first, last);
    var s3, r := ReversedIn(s2, first, last), RotatedIn(s, first, middle, last);
    forall k | 0 <= k < |s| ensures s3[k] == r[k] {
      ReversedInAt(s2, first, last, k);
      var j := if first <= k < last then first + last - 1 - k else k;
      ReversedInAt(s1, middle, last, j);
      var i := if middle <= j < last then middle + last - 1 - j else j;
      ReversedInAt(s, first, middle, i);
    }
    assert s3 == r;
  }

  method Reverse(a: array<string>, first: nat, last: nat)
    requires first <= last <= a.Length
    modifies a
    ensures a[..] == ReversedIn(old(a[..]), first, last)
  {
    hide ReversedIn;
    var i: int, j: int := first, last - 1;
    while i < j
      invariant i + j == first + last - 1 && first <= i <= j + 1 <= last
      invariant forall k :: 0 <= k < a.Length && (k < first || k >= last || i <= k <= j) ==> a[k] == old(a[k])
      invariant forall k :: first <= k < i || j < k < last ==> a[k] == old(a[first + last - 1 - k])
    {
      a[i], a[j] := a[j], a[i];
      i := i + 1;
      j := j - 1;
    }
    ghost var was := old(a[..]);
    ReversedInSize(was, first, last);
    ghost var r := ReversedIn(was, first, last);
    forall k | 0 <= k < a.Length ensures a[k] == r[k] {
      ReversedInAt(was, first, last, k);
    }
    assert a[..] == r;
  }

  method Rotate(a: array<string>, first: nat, middle: nat, last: nat)
    requires first <= middle <= last <= a.Length
    modifies a
    ensures a[..] == RotatedIn(old(a[..]), first, middle, last)
  {
    hide ReversedIn, RotatedIn;
    ThreeReversals(a[..], first, middle, last);
    Reverse(a, first, middle);
    Reverse(a, middle, last);
    Reverse(a, first, last);
  }

  lemma SortedOperand(t: Table, options: seq<string>, operands: seq<string>, words: seq<string>)
    requires words != [] && words[0] != "--" && IsOperand(words[0])
    ensures Sorted(t, options, operands, words) == Sorted(t, options, operands + [words[0]], words[1..])
  {
    var rest := Operands(t, words[1..]);
    assert operands + ([words[0]] + rest) == operands + [words[0]] + rest;
  }

  lemma SortedOption(t: Table, options: seq<string>, operands: seq<string>, words: seq<string>)
    requires words != [] && words[0] != "--" && !IsOperand(words[0])
    ensures
      var n := Width(t, words);
      Sorted(t, options, operands, words) == Sorted(t, options + words[..n], operands, words[n..])
  {
    var n := Width(t, words);
    var rest := Options(t, words[n..]);
    assert options + (words[..n] + rest) == options + words[..n] + rest;
  }

  lemma SortedEnd(t: Table, options: seq<string>, operands: seq<string>, words: seq<string>)
    requires words == [] || words[0] == "--"
    ensures Sorted(t, options, operands, words) == if words == [] then options + operands else options + ["--"] + operands + words[1..]
  {
    assert options + [] == options && operands + [] == operands;
    if words != [] {
      assert options + (["--"] + operands + words[1..]) == options + ["--"] + operands + words[1..];
    }
  }

  /** The array is the program's name, options, operands, and words not looked at. */
  ghost predicate Laid(all: seq<string>, name: string, options: seq<string>, operands: seq<string>, words: seq<string>) {
    all == [name] + options + operands + words
  }

  lemma RotateLaid(all: seq<string>, name: string, options: seq<string>, operands: seq<string>, words: seq<string>, n: nat)
    requires Laid(all, name, options, operands, words) && n <= |words|
    ensures
      var end := 1 + |options|;
      var i := end + |operands|;
      RotatedIn(all, end, i, i + n) == [name] + (options + words[..n]) + operands + words[n..]
  {
    var end := 1 + |options|;
    var i := end + |operands|;
    assert all[..end] == [name] + options;
    assert all[i..i + n] == words[..n];
    assert all[end..i] == operands;
    assert all[i + n..] == words[n..];
  }

  lemma LaidWord(all: seq<string>, name: string, options: seq<string>, operands: seq<string>, words: seq<string>)
    requires Laid(all, name, options, operands, words)
    ensures |all| == 1 + |options| + |operands| + |words|
    ensures words != [] ==> all[1 + |options| + |operands|] == words[0]
    ensures words != [] ==> Laid(all, name, options, operands + [words[0]], words[1..])
  {
    if words != [] {
      assert [name] + options + operands + words == [name] + options + (operands + [words[0]]) + words[1..];
    }
  }

  /** A stable partition: options with their arguments, "--", operands. */
  method Permute(a: array<string>, t: Table)
    modifies a
    ensures a.Length > 0 ==> a[..] == [old(a[0])] + Permuted(t, old(a[1..]))
  {
    hide RotatedIn, Sorted, Laid, IsOperand, Width;
    if a.Length == 0 {
      return;
    }
    ghost var name, all := a[0], a[1..];
    ghost var options: seq<string>, operands: seq<string>, words := [], [], all;
    assert Laid(a[..], name, options, operands, words) by { LaidStart(a[..]); }
    var end, i := 1, 1;
    while i < a.Length
      invariant end == 1 + |options| && i == end + |operands| && |options| + |operands| + |words| + 1 == a.Length
      invariant Laid(a[..], name, options, operands, words)
      invariant Sorted(t, options, operands, words) == Permuted(t, all)
    {
      LaidWord(a[..], name, options, operands, words);
      var arg := a[i];
      var start := i;
      i := i + 1;
      if arg == "--" {
        RotateLaid(a[..], name, options, operands, words, 1);
        SortedEnd(t, options, operands, words);
        assert words[..1] == ["--"];
        Rotate(a, end, start, i);
        Regroup(name, options, operands, words);
        return;
      }
      if |arg| < 2 || arg[0] != '-' {
        SortedOperand(t, options, operands, words) by { OperandWord(arg); }
        operands, words := operands + [words[0]], words[1..];
        continue;
      }
      OperandWord(arg);
      var takes;
      if arg[1] == '-' {
        takes := LongTakesArg(t, arg[2..]);
      } else {
        takes := ClusterTakesArg(t, arg[1..]);
      }
      if takes && i < a.Length {
        i := i + 1;
      }
      WidthWord(t, words, takes);
      ghost var n := Width(t, words);
      RotateLaid(a[..], name, options, operands, words, n);
      SortedOption(t, options, operands, words);
      Rotate(a, end, start, i);
      options, words := options + words[..n], words[n..];
      assert Laid(a[..], name, options, operands, words) by { LaidIs(a[..], name, options, operands, words); }
      end := end + (i - start);
    }
    SortedEnd(t, options, operands, words);
    assert a[..] == [name] + (options + operands) by { LaidEnd(a[..], name, options, operands, words); }
  }

  lemma LaidStart(all: seq<string>)
    requires all != []
    ensures Laid(all, all[0], [], [], all[1..])
  {
    assert all == [all[0]] + [] + [] + all[1..];
  }

  lemma LaidIs(all: seq<string>, name: string, options: seq<string>, operands: seq<string>, words: seq<string>)
    requires all == [name] + options + operands + words
    ensures Laid(all, name, options, operands, words)
  {}

  lemma LaidEnd(all: seq<string>, name: string, options: seq<string>, operands: seq<string>, words: seq<string>)
    requires Laid(all, name, options, operands, words) && words == []
    ensures all == [name] + (options + operands)
  {}

  lemma Regroup(name: string, options: seq<string>, operands: seq<string>, words: seq<string>)
    requires words != [] && words[0] == "--"
    ensures [name] + (options + words[..1]) + operands + words[1..] == [name] + (options + ["--"] + operands + words[1..])
  {}

  lemma OperandWord(w: string)
    ensures IsOperand(w) <==> |w| < 2 || w[0] != '-'
  {}

  lemma WidthWord(t: Table, words: seq<string>, takes: bool)
    requires words != [] && words[0] != "--" && !IsOperand(words[0])
    requires takes == if words[0][1] == '-' then LongTakes(t, words[0][2..]) else ClusterTakes(t, words[0][1..])
    ensures Width(t, words) == if takes && |words| > 1 then 2 else 1
  {
    hide LongTakes, ClusterTakes;
    var w := words[0];
    assert |w| == 2 && w[1] == '-' ==> w == "--";
  }
}
