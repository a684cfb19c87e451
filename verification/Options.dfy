/** The option string and the table of long options, as they are made from the one
    list of the program's options, and what the parser reads out of them. */
module Options {
  import opened OptParse

  /** One option: its letter, its long name, and whether it takes an argument. */
  datatype Definition = Definition(name: Option<string>, letter: Option<char>, arity: Arity)

  /** No letter is a colon. */
  predicate Lettered(opts: seq<Definition>) {
    forall i :: 0 <= i < |opts| ==> opts[i].letter != Some(':')
  }

  function Spelled(o: Definition): string {
    match o.letter
    case None => ""
    case Some(c) => [c] + match o.arity case NoArg => "" case Required => ":" case Optional => "::"
  }

  function ShortOf(opts: seq<Definition>): string {
    if opts == [] then "" else Spelled(opts[0]) + ShortOf(opts[1..])
  }

  function Entry(o: Definition): seq<LongOption> {
    if o.name.Some? then [LongOption(o.name.value, o.arity)] else []
  }

  function LongOf(opts: seq<Definition>): seq<LongOption> {
    if opts == [] then [] else Entry(opts[0]) + LongOf(opts[1..])
  }

  /** build_tables */
  method BuildTables(opts: seq<Definition>) returns (t: Table)
    ensures t == Table(ShortOf(opts), LongOf(opts))
  {
    hide ShortOf, LongOf;
    var short: string, long: seq<LongOption>, i := "", [], 0;
    Unread(opts, 0);
    assert opts[0..] == opts;
    while i < |opts|
      invariant 0 <= i <= |opts|
      invariant ShortOf(opts) == short + ShortOf(opts[i..]) && LongOf(opts) == long + LongOf(opts[i..])
    {
      Unread(opts, i);
      ghost var was, entries := short, long;
      Joined(short, Spelled(opts[i]), ShortOf(opts[i + 1..]));
      Joined(long, Entry(opts[i]), LongOf(opts[i + 1..]));
      var o := opts[i];
      if o.letter.Some? {
        short := short + [o.letter.value];
        if o.arity != NoArg {
          short := short + ":";
        }
        if o.arity == Optional {
          short := short + ":";
        }
      }
      assert short == was + Spelled(o);
      if o.name.Some? {
        long := long + [LongOption(o.name.value, o.arity)];
      }
      assert long == entries + Entry(o);
      i := i + 1;
    }
    Unread(opts, i);
    t := Table(short, long);
  }

  lemma Joined<T>(a: seq<T>, b: seq<T>, d: seq<T>)
    ensures a + b + d == a + (b + d)
  {}

  lemma Unread(opts: seq<Definition>, i: nat)
    requires i <= |opts|
    ensures i == |opts| ==> ShortOf(opts[i..]) == "" && LongOf(opts[i..]) == []
    ensures i < |opts| ==> ShortOf(opts[i..]) == Spelled(opts[i]) + ShortOf(opts[i + 1..])
    ensures i < |opts| ==> LongOf(opts[i..]) == Entry(opts[i]) + LongOf(opts[i + 1..])
  {
    if i < |opts| { assert opts[i..][1..] == opts[i + 1..]; }
  }

  /** The option at i is the first with that letter, or with that name. */
  predicate FirstShort(opts: seq<Definition>, i: int, c: char) {
    0 <= i < |opts| && opts[i].letter == Some(c) && forall j :: 0 <= j < i ==> opts[j].letter != Some(c)
  }

  predicate FirstLong(opts: seq<Definition>, i: int, name: string) {
    0 <= i < |opts| && opts[i].name == Some(name) && forall j :: 0 <= j < i ==> opts[j].name != Some(name)
  }

  lemma FindOn(s: string, t: string, c: char)
    requires c !in s
    ensures Find(s + t, c) == |s| + Find(t, c)
    decreases |s|
  {
    if s != "" {
      assert (s + t)[1..] == s[1..] + t;
      FindOn(s[1..], t, c);
    } else {
      assert s + t == t;
    }
  }

  lemma {:induction false} NoColonFirst(opts: seq<Definition>)
    requires Lettered(opts)
    ensures ShortOf(opts) != "" ==> ShortOf(opts)[0] != ':'
  {
    if opts != [] { NoColonFirst(opts[1..]); }
  }

  lemma {:induction false} ShortSkip(o: Definition, rest: string, long: seq<LongOption>, c: char)
    requires o.letter != Some(c) && c != ':'
    ensures ShortArity(Table(Spelled(o) + rest, long), c) == ShortArity(Table(rest, long), c)
  {
    hide Spelled;
    assert c !in Spelled(o) by { NotSpelled(o, c); }
    Prefixed(Spelled(o), rest, long, c);
  }

  lemma NotSpelled(o: Definition, c: char)
    requires o.letter != Some(c) && c != ':'
    ensures c !in Spelled(o)
  {}

  lemma {:induction false} Prefixed(p: string, rest: string, long: seq<LongOption>, c: char)
    requires c !in p
    ensures ShortArity(Table(p + rest, long), c) == ShortArity(Table(rest, long), c)
  {
    hide Find;
    var s, i := p + rest, Find(rest, c);
    assert Find(s, c) == |p| + i by { FindOn(p, rest, c); }
    assert i + 1 < |rest| ==> s[|p| + i + 1] == rest[i + 1];
    assert i + 2 < |rest| ==> s[|p| + i + 2] == rest[i + 2];
  }

  lemma {:induction false} ShortHere(o: Definition, rest: string, long: seq<LongOption>, c: char)
    requires o.letter == Some(c) && c != ':' && (rest != "" ==> rest[0] != ':')
    ensures ShortArity(Table(Spelled(o) + rest, long), c) == Some(o.arity)
  {
    assert Find(Spelled(o) + rest, c) == 0;
  }

  /** Some option has this letter and arity, and none before it has the letter. */
  ghost predicate SaysShort(opts: seq<Definition>, c: char, a: Arity) {
    exists i :: FirstShort(opts, i, c) && opts[i].arity == a
  }

  ghost predicate SaysLong(opts: seq<Definition>, name: string, a: Arity) {
    exists i :: FirstLong(opts, i, name) && opts[i].arity == a
  }

  lemma SaysShortRest(opts: seq<Definition>, c: char, a: Arity)
    requires opts != []
    ensures SaysShort(opts, c, a) <==> if opts[0].letter == Some(c) then opts[0].arity == a else SaysShort(opts[1..], c, a)
  {
    var rest := opts[1..];
    if opts[0].letter == Some(c) {
      assert FirstShort(opts, 0, c);
    } else {
      if i :| FirstShort(rest, i, c) && rest[i].arity == a { assert FirstShort(opts, i + 1, c); }
      if i :| FirstShort(opts, i, c) && opts[i].arity == a {
        assert forall j :: 0 <= j < i - 1 ==> rest[j] == opts[j + 1];
        assert FirstShort(rest, i - 1, c);
      }
    }
  }

  lemma SaysLongRest(opts: seq<Definition>, name: string, a: Arity)
    requires opts != []
    ensures SaysLong(opts, name, a) <==> if opts[0].name == Some(name) then opts[0].arity == a else SaysLong(opts[1..], name, a)
  {
    var rest := opts[1..];
    if opts[0].name == Some(name) {
      assert FirstLong(opts, 0, name);
    } else {
      if i :| FirstLong(rest, i, name) && rest[i].arity == a { assert FirstLong(opts, i + 1, name); }
      if i :| FirstLong(opts, i, name) && opts[i].arity == a {
        assert forall j :: 0 <= j < i - 1 ==> rest[j] == opts[j + 1];
        assert FirstLong(rest, i - 1, name);
      }
    }
  }

  /** Of the option string, the parser reads what the list of options says: the arity
      of the first option with that letter, and of any other character nothing. */
  lemma {:induction false} ShortIff(opts: seq<Definition>, long: seq<LongOption>, c: char, a: Arity)
    requires Lettered(opts)
    ensures ShortArity(Table(ShortOf(opts), long), c) == Some(a) <==> SaysShort(opts, c, a)
  {
    hide SaysShort, ShortArity;
    if c == ':' || opts == [] {
      NoShort(opts, long, c, a);
    } else {
      var rest := opts[1..];
      SaysShortRest(opts, c, a);
      if opts[0].letter == Some(c) {
        NoColonFirst(rest);
        ShortHere(opts[0], ShortOf(rest), long, c);
      } else {
        ShortSkip(opts[0], ShortOf(rest), long, c);
        ShortIff(rest, long, c, a);
      }
    }
  }

  lemma {:induction false} NoShort(opts: seq<Definition>, long: seq<LongOption>, c: char, a: Arity)
    requires Lettered(opts) && (c == ':' || opts == [])
    ensures ShortArity(Table(ShortOf(opts), long), c) == None && !SaysShort(opts, c, a)
  {}

  /** And so, where letters differ, of each letter its own arity. */
  lemma ShortDistinct(opts: seq<Definition>, long: seq<LongOption>, i: nat)
    requires Lettered(opts) && i < |opts| && opts[i].letter.Some?
    requires forall j, k :: 0 <= j < k < |opts| && opts[j].letter.Some? ==> opts[j].letter != opts[k].letter
    ensures ShortArity(Table(ShortOf(opts), long), opts[i].letter.value) == Some(opts[i].arity)
  {
    hide ShortArity, ShortOf;
    var c := opts[i].letter.value;
    assert FirstShort(opts, i, c);
    ShortIff(opts, long, c, opts[i].arity);
  }

  lemma ShortNone(opts: seq<Definition>, long: seq<LongOption>, c: char)
    requires Lettered(opts) && forall i :: 0 <= i < |opts| ==> opts[i].letter != Some(c)
    ensures ShortArity(Table(ShortOf(opts), long), c) == None
  {
    hide ShortArity, ShortOf;
    var r := ShortArity(Table(ShortOf(opts), long), c);
    if r.Some? { ShortIff(opts, long, c, r.value); }
  }

  /** A long name finds the first option that has it, or none. */
  lemma {:induction false} LongIff(opts: seq<Definition>, name: string, a: Arity)
    ensures
      var k := FindLong(LongOf(opts), name);
      k < |LongOf(opts)| && LongOf(opts)[k].arity == a <==> SaysLong(opts, name, a)
  {
    hide SaysLong;
    if opts == [] {
      NoLong(name, a);
    } else {
      var rest, all := opts[1..], LongOf(opts);
      SaysLongRest(opts, name, a);
      if opts[0].name == Some(name) {
        assert all[0] == LongOption(name, opts[0].arity);
      } else {
        LongIff(rest, name, a);
        if opts[0].name.Some? { assert all[1..] == LongOf(rest); } else { assert all == LongOf(rest); }
      }
    }
  }

  lemma NoLong(name: string, a: Arity)
    ensures !SaysLong([], name, a)
  {}

  /** The program's own options. */
  const OPTIONS := [
    Definition(Some("mode"), Some('m'), Required),
    Definition(Some("owner"), Some('o'), Required),
    Definition(Some("reference"), None, Required),
    Definition(Some("size"), Some('s'), Required),
    Definition(Some("sparse"), None, NoArg),
    Definition(Some("template"), None, Required),
    Definition(Some("parents"), Some('p'), NoArg),
    Definition(Some("force"), Some('f'), NoArg),
    Definition(Some("backup"), None, Optional),
    Definition(None, Some('b'), NoArg),
    Definition(Some("absolute"), Some('A'), NoArg),
    Definition(Some("verbose"), Some('v'), NoArg),
    Definition(Some("help"), None, NoArg),
    Definition(Some("version"), None, NoArg)]

  /** Of the single letters, m, o and s take an argument, each the rest of its word or
      the next one, and p, f, b, A and v take none. */
  lemma ProgramLetters(c: char)
    ensures ShortArity(Table(ShortOf(OPTIONS), LongOf(OPTIONS)), c) ==
            if c in "mos" then Some(Required) else if c in "pfbAv" then Some(NoArg) else None
  {
    hide ShortOf, LongOf, ShortArity;
    if c in "mospfbAv" {
      var i := if c == 'm' then 0 else if c == 'o' then 1 else if c == 's' then 3 else if c == 'p' then 6
               else if c == 'f' then 7 else if c == 'b' then 9 else if c == 'A' then 10 else 11;
      assert OPTIONS[i].letter == Some(c);
      ShortDistinct(OPTIONS, LongOf(OPTIONS), i);
    } else {
      ShortNone(OPTIONS, LongOf(OPTIONS), c);
    }
  }
}
