/** Parsing the permuted words, call by call, and a parser that goes through the
    words once, from left to right, setting operands aside. */
module Parser {
  import opened OptParse

  /* ----- one call ----- */

  datatype Call = Call(event: Event, ind: nat, rest: string)

  function ParseShort(av: seq<string>, t: Table, ind: nat, rest: string): Call
    requires rest != []
  {
    var c, after := rest[0], rest[1..];
    match ShortArity(t, c)
    case None => if after == [] then Call(UnknownShort(c), ind + 1, "") else Call(UnknownShort(c), ind, after)
    case Some(NoArg) => if after == [] then Call(Short(c, None), ind + 1, "") else Call(Short(c, None), ind, after)
    case Some(Optional) => Call(Short(c, if after != [] then Some(after) else None), ind + 1, "")
    case Some(Required) =>
      if after != [] then Call(Short(c, Some(after)), ind + 1, "")
      else if ind + 1 < |av| then Call(Short(c, Some(av[ind + 1])), ind + 2, "")
      else Call(MissingShort(c), ind + 1, "")
  }

  function ParseLong(av: seq<string>, t: Table, ind: nat): Call
    requires ind < |av| && |av[ind]| >= 2
  {
    var text := av[ind][2..];
    var eq := Find(text, '=');
    var i := FindLong(t.long, text[..eq]);
    if i == |t.long| then Call(UnknownLong(av[ind]), ind + 1, "")
    else match t.long[i].arity
      case Required =>
        if eq < |text| then Call(Long(i, Some(text[eq + 1..])), ind + 1, "")
        else if ind + 1 < |av| then Call(Long(i, Some(av[ind + 1])), ind + 2, "")
        else Call(MissingLong(i), ind + 1, "")
      case Optional => Call(Long(i, if eq < |text| then Some(text[eq + 1..]) else None), ind + 1, "")
      case NoArg => Call(if eq < |text| then Extra(i) else Long(i, None), ind + 1, "")
  }

  /** One call, on words already permuted. */
  function Next(av: seq<string>, t: Table, ind: nat, rest: string): Call {
    if rest != [] then ParseShort(av, t, ind, rest)
    else if ind >= |av| || IsOperand(av[ind]) then Call(End, ind, "")
    else if av[ind] == "--" then Call(End, ind + 1, "")
    else if IsLong(av[ind]) then ParseLong(av, t, ind)
    else ParseShort(av, t, ind, av[ind][1..])
  }

  /** The parser's state: where it is in the array, and in a cluster. */
  class Parser {
    const argv: array<string>
    const t: Table
    var optInd: nat
    var nextChars: string
    var started: bool

    constructor (argv: array<string>, t: Table)
      ensures this.argv == argv && this.t == t && optInd == 1 && nextChars == "" && !started
    {
      this.argv, this.t := argv, t;
      optInd, nextChars, started := 1, "", false;
    }

    /** Words from the second on are permuted by the first call, or by one after
        the caller has set optInd to 0. */
    method Parse() returns (e: Event)
      modifies this, argv
      ensures started
      ensures
        var restart := old(optInd) == 0;
        var ind := if restart then 1 else old(optInd);
        var chars := if restart then "" else old(nextChars);
        var first := restart || !old(started);
        && (first && argv.Length > 0 ==> argv[..] == [old(argv[0])] + Permuted(t, old(argv[1..])))
        && (!first ==> argv[..] == old(argv[..]))
        && Call(e, optInd, nextChars) == Next(argv[..], t, ind, chars)
    {
      hide Permuted;
      if optInd == 0 {
        optInd, nextChars, started := 1, "", false;
      }
      if !started {
        Permute(argv, t);
        started := true;
      }
      if nextChars != "" {
        e := Cluster();
        return;
      }
      if optInd >= argv.Length {
        return End;
      }
      var arg := argv[optInd];
      if |arg| < 2 || arg[0] != '-' {
        return End;
      }
      if arg[1] == '-' {
        if |arg| == 2 {
          optInd := optInd + 1;
          return End;
        }
        e := LongWord();
        return;
      }
      nextChars := arg[1..];
      e := Cluster();
    }

    method Cluster() returns (e: Event)
      requires nextChars != ""
      modifies this
      ensures Call(e, optInd, nextChars) == ParseShort(argv[..], t, old(optInd), old(nextChars))
      ensures started == old(started)
    {
      var c := nextChars[0];
      nextChars := nextChars[1..];
      var i := if c == ':' then |t.short| else 0;
      if c != ':' {
        i := IndexOf(t.short, c);
      }
      if i == |t.short| || i + 1 == |t.short| || t.short[i + 1] != ':' {
        if nextChars == "" {
          optInd := optInd + 1;
        }
        return if i == |t.short| then UnknownShort(c) else Short(c, None);
      }
      if nextChars != "" {
        e := Short(c, Some(nextChars));
        nextChars, optInd := "", optInd + 1;
        return;
      }
      if i + 2 < |t.short| && t.short[i + 2] == ':' {
        optInd := optInd + 1;
        return Short(c, None);
      }
      if optInd + 1 < argv.Length {
        e := Short(c, Some(argv[optInd + 1]));
        optInd := optInd + 2;
        return;
      }
      optInd := optInd + 1;
      e := MissingShort(c);
    }

    method LongWord() returns (e: Event)
      requires optInd < argv.Length && |argv[optInd]| >= 2 && nextChars == ""
      modifies this
      ensures Call(e, optInd, nextChars) == ParseLong(argv[..], t, old(optInd))
      ensures started == old(started)
    {
      var word := argv[optInd];
      var text := word[2..];
      var eq := IndexOf(text, '=');
      var i := LookUp(t.long, text[..eq]);
      optInd := optInd + 1;
      if i == |t.long| {
        return UnknownLong(word);
      }
      match t.long[i].arity {
        case Required =>
          if eq < |text| {
            return Long(i, Some(text[eq + 1..]));
          }
          if optInd < argv.Length {
            e := Long(i, Some(argv[optInd]));
            optInd := optInd + 1;
            return;
          }
          return MissingLong(i);
        case Optional =>
          return Long(i, if eq < |text| then Some(text[eq + 1..]) else None);
        case NoArg =>
          return if eq < |text| then Extra(i) else Long(i, None);
      }
    }
  }

  /* ----- all calls, up to the end or the first error ----- */

  datatype Outcome = Outcome(events: seq<Event>, end: nat, error: bool)

  function Run(av: seq<string>, t: Table, ind: nat, rest: string): Outcome
    requires ind <= |av| && (rest != [] ==> ind < |av|)
    decreases |av| - ind, if rest == [] && ind < |av| then 1 + |av[ind]| else |rest|
  {
    var call := Next(av, t, ind, rest);
    if call.event == End then Outcome([], call.ind, false)
    else if IsError(call.event) then Outcome([call.event], call.ind, true)
    else
      var more := Run(av, t, call.ind, call.rest);
      more.(events := [call.event] + more.events)
  }

  /** Calls until the end or an error, as the program makes them. */
  method ParseAll(p: Parser) returns (events: seq<Event>, error: bool)
    requires p.argv.Length > 0 && p.optInd == 1 && p.nextChars == "" && !p.started
    modifies p, p.argv
    ensures p.argv[..] == [old(p.argv[0])] + Permuted(p.t, old(p.argv[1..]))
    ensures Run(p.argv[..], p.t, 1, "") == Outcome(events, p.optInd, error)
  {
    hide Permuted, Run;
    var e := p.Parse();
    events, error := [], false;
    ghost var av := p.argv[..];
    ghost var ind: nat, rest: string := 1, "";
    while e != End && !IsError(e)
      invariant p.started && p.argv[..] == av && 1 <= ind <= |av| && (rest != [] ==> ind < |av|)
      invariant Call(e, p.optInd, p.nextChars) == Next(av, p.t, ind, rest)
      invariant var more := Run(av, p.t, ind, rest); Run(av, p.t, 1, "") == more.(events := events + more.events)
      decreases |av| - ind, if rest == [] && ind < |av| then 1 + |av[ind]| else |rest|
    {
      RunStep(av, p.t, ind, rest);
      events := events + [e];
      ind, rest := p.optInd, p.nextChars;
      e := p.Parse();
    }
    RunStep(av, p.t, ind, rest);
    if e != End {
      events, error := events + [e], true;
    }
  }

  lemma RunStep(av: seq<string>, t: Table, ind: nat, rest: string)
    requires ind <= |av| && (rest != [] ==> ind < |av|)
    ensures
      var call := Next(av, t, ind, rest);
      var run := Run(av, t, ind, rest);
      if call.event == End then run == Outcome([], call.ind, false)
      else if IsError(call.event) then run == Outcome([call.event], call.ind, true)
      else
        && call.ind <= |av| && (call.rest != [] ==> call.ind < |av|) && (ind > 0 ==> call.ind > 0)
        && (call.ind > ind || (call.ind == ind && |call.rest| < if rest == [] then 1 + |av[ind]| else |rest|))
        && run == Run(av, t, call.ind, call.rest).(events := [call.event] + Run(av, t, call.ind, call.rest).events)
  {}

  /* ----- the reference: once, from left to right ----- */

  /** The options of a cluster; next is the word after it. taken: it was used. */
  datatype Group = Group(events: seq<Event>, taken: bool, error: bool)

  function ReadCluster(t: Table, chars: string, next: Option<string>): Group {
    if chars == [] then Group([], false, false)
    else
      var c, after := chars[0], chars[1..];
      match ShortArity(t, c)
      case None => Group([UnknownShort(c)], false, true)
      case Some(NoArg) =>
        var more := ReadCluster(t, after, next);
        more.(events := [Short(c, None)] + more.events)
      case Some(Optional) => Group([Short(c, if after == [] then None else Some(after))], false, false)
      case Some(Required) =>
        if after != [] then Group([Short(c, Some(after))], false, false)
        else match next
          case None => Group([MissingShort(c)], false, true)
          case Some(w) => Group([Short(c, Some(w))], true, false)
  }

  function ReadLong(t: Table, word: string, next: Option<string>): Group
    requires |word| >= 2
  {
    var text := word[2..];
    var eq := Find(text, '=');
    var i := FindLong(t.long, text[..eq]);
    var value := if eq < |text| then Some(text[eq + 1..]) else None;
    if i == |t.long| then Group([UnknownLong(word)], false, true)
    else match t.long[i].arity
      case NoArg => if value.Some? then Group([Extra(i)], false, true) else Group([Long(i, None)], false, false)
      case Optional => Group([Long(i, value)], false, false)
      case Required =>
        if value.Some? then Group([Long(i, value)], false, false)
        else if next.Some? then Group([Long(i, next)], true, false)
        else Group([MissingLong(i)], false, true)
  }

  function ReadWord(t: Table, word: string, next: Option<string>): Group
    requires !IsOperand(word)
  {
    if IsLong(word) then ReadLong(t, word, next) else ReadCluster(t, word[1..], next)
  }

  /** Options in order, operands set aside, up to the first error. */
  datatype Parsed = Parsed(events: seq<Event>, operands: seq<string>, error: bool)

  function NextWord(words: seq<string>): Option<string> {
    if |words| > 1 then Some(words[1]) else None
  }

  function Reference(t: Table, words: seq<string>): Parsed {
    if words == [] then Parsed([], [], false)
    else if words[0] == "--" then Parsed([], words[1..], false)
    else if IsOperand(words[0]) then
      var more := Reference(t, words[1..]);
      more.(operands := [words[0]] + more.operands)
    else
      var g := ReadWord(t, words[0], NextWord(words));
      if g.error then Parsed(g.events, [], true)
      else
        WordAgrees(t, words);
        var more := Reference(t, words[if g.taken then 2 else 1..]);
        more.(events := g.events + more.events)
  }

  /* ----- both phases agree on what an option takes ----- */

  lemma {:induction false} ClusterAgrees(t: Table, chars: string, next: Option<string>)
    ensures var g := ReadCluster(t, chars, next);
            !g.error ==> g.taken == (ClusterTakes(t, chars) && next.Some?)
    ensures var g := ReadCluster(t, chars, next);
            g.taken ==> next.Some?
  {
    if chars != [] { ClusterAgrees(t, chars[1..], next); }
  }

  lemma LongAgrees(t: Table, word: string, next: Option<string>)
    requires |word| >= 2
    ensures var g := ReadLong(t, word, next);
            (!g.error ==> g.taken == (LongTakes(t, word[2..]) && next.Some?)) && (g.taken ==> next.Some?)
  {
    var text := word[2..];
    if Find(text, '=') == |text| { assert text[..|text|] == text; }
  }

  lemma WordAgrees(t: Table, words: seq<string>)
    requires words != [] && !IsOperand(words[0]) && words[0] != "--"
    ensures var g := ReadWord(t, words[0], NextWord(words));
            (!g.error ==> Width(t, words) == if g.taken then 2 else 1) && (g.taken ==> |words| > 1)
  {
    hide ReadCluster, ReadLong, LongTakes, ClusterTakes;
    if IsLong(words[0]) {
      LongAgrees(t, words[0], NextWord(words));
    } else {
      ClusterAgrees(t, words[0][1..], NextWord(words));
    }
  }

  /* ----- the calls read what the reference reads ----- */

  function WordAfter(av: seq<string>, ind: nat): Option<string> {
    if ind + 1 < |av| then Some(av[ind + 1]) else None
  }

  /** What is left once a group was read. */
  ghost predicate Reads(av: seq<string>, t: Table, ind: nat, run: Outcome, g: Group) {
    if g.error then run.events == g.events && run.error
    else
      var ind' := ind + (if g.taken then 2 else 1);
      ind' <= |av| && run == Run(av, t, ind', "").(events := g.events + Run(av, t, ind', "").events)
  }

  lemma {:induction false} RunCluster(av: seq<string>, t: Table, ind: nat, chars: string)
    requires ind < |av| && chars != []
    ensures Reads(av, t, ind, Run(av, t, ind, chars), ReadCluster(t, chars, WordAfter(av, ind)))
    decreases |chars|
  {
    hide Run;
    RunStep(av, t, ind, chars);
    var c, after := chars[0], chars[1..];
    if ShortArity(t, c) == Some(NoArg) && after != [] {
      RunCluster(av, t, ind, after);
    }
  }

  lemma RunWord(av: seq<string>, t: Table, ind: nat)
    requires ind < |av| && !IsOperand(av[ind]) && av[ind] != "--"
    ensures Reads(av, t, ind, Run(av, t, ind, ""), ReadWord(t, av[ind], WordAfter(av, ind)))
  {
    hide Run, ReadCluster;
    RunStep(av, t, ind, "");
    if !IsLong(av[ind]) {
      var chars := av[ind][1..];
      RunStep(av, t, ind, chars);
      RunCluster(av, t, ind, chars);
    }
  }

  ghost predicate EndsMissing(events: seq<Event>) {
    events != [] && IsMissing(events[|events| - 1])
  }

  /** g0 lacks an argument that g1 has. */
  ghost predicate Starves(g0: Group, g1: Group) {
    && g0.error && EndsMissing(g0.events) && !g1.error
    && |g1.events| == |g0.events| && g1.events[|g1.events| - 1] != g0.events[|g0.events| - 1]
  }

  lemma {:induction false} ClusterChoice(t: Table, chars: string, w: string)
    ensures
      var g0, g1 := ReadCluster(t, chars, None), ReadCluster(t, chars, Some(w));
      && (g0.error ==> g0.events != [])
      && if g0 == g1 then !(g0.error && EndsMissing(g0.events)) else ClusterTakes(t, chars) && Starves(g0, g1)
  {
    if chars != [] { ClusterChoice(t, chars[1..], w); }
  }

  lemma WordChoice(t: Table, word: string, w: string)
    requires !IsOperand(word) && word != "--"
    ensures
      var g0, g1 := ReadWord(t, word, None), ReadWord(t, word, Some(w));
      && (g0.error ==> g0.events != [])
      && if g0 == g1 then !(g0.error && EndsMissing(g0.events)) else Takes(t, word) && Starves(g0, g1)
  {
    hide ReadCluster, ClusterTakes;
    if IsLong(word) {
      var text := word[2..];
      if Find(text, '=') == |text| { assert text[..|text|] == text; }
    } else {
      ClusterChoice(t, word[1..], w);
    }
  }

  /** A word that takes nothing reads the same whatever follows it. */
  lemma WordSame(t: Table, word: string, a: Option<string>, b: Option<string>)
    requires !IsOperand(word) && word != "--" && (!Takes(t, word) || a == b)
    ensures ReadWord(t, word, a) == ReadWord(t, word, b)
  {
    hide ReadWord, Takes;
    if a.Some? { WordChoice(t, word, a.value); }
    if b.Some? { WordChoice(t, word, b.value); }
  }

  /* ----- both parsers ----- */

  /** The same options, arguments and error; without one, the same operands. */
  ghost predicate Agrees(av: seq<string>, run: Outcome, ref: Parsed, operands: seq<string>) {
    && run.events == ref.events && run.error == ref.error
    && (!ref.error ==> run.end <= |av| && av[run.end..] == operands + ref.operands)
  }

  /** The last word lacks its argument, and operands were set aside before it. */
  ghost predicate Starved(ref: Parsed, operands: seq<string>) {
    ref.error && EndsMissing(ref.events) && operands + ref.operands != []
  }

  /** What comes first in the permuted words. */
  lemma SortedHead(t: Table, name: string, options: seq<string>, operands: seq<string>, words: seq<string>)
    requires words != [] && words[0] != "--" && !IsOperand(words[0])
    ensures
      var av := [name] + Sorted(t, options, operands, words);
      var ind := 1 + |options|;
      && ind < |av| && av[ind] == words[0]
      && (Width(t, words) == 2 ==> WordAfter(av, ind) == NextWord(words))
      && (|words| == 1 ==> WordAfter(av, ind) == if operands == [] then None else Some(operands[0]))
  {
    hide Options, Operands, Tail;
    var n := Width(t, words);
    SortedOption(t, options, operands, words);
    var s := Sorted(t, options + words[..n], operands, words[n..]);
    assert s[..|options| + n] == options + words[..n];
    if |words| == 1 {
      SortedEnd(t, options + words[..n], operands, words[n..]);
    }
  }

  ghost predicate AllOperands(operands: seq<string>) {
    forall i :: 0 <= i < |operands| ==> IsOperand(operands[i])
  }

  lemma EndAgrees(t: Table, name: string, options: seq<string>, operands: seq<string>, words: seq<string>)
    requires AllOperands(operands) && (words == [] || words[0] == "--")
    ensures
      var av := [name] + Sorted(t, options, operands, words);
      Agrees(av, Run(av, t, 1 + |options|, ""), Reference(t, words), operands)
  {
    hide Sorted;
    SortedEnd(t, options, operands, words);
    var av := [name] + Sorted(t, options, operands, words);
    if words == [] {
      assert av == ([name] + options) + operands;
    } else {
      assert av == ([name] + options) + ["--"] + (operands + words[1..]);
    }
  }

  /** Reading a group keeps agreement, and disagreement. */
  lemma GroupAgrees(av: seq<string>, run: Outcome, more: Outcome, ref: Parsed, after: Parsed, operands: seq<string>, events: seq<Event>)
    requires run == more.(events := events + more.events) && ref == after.(events := events + after.events)
    requires after.error ==> after.events != []
    ensures Agrees(av, run, ref, operands) <==> Agrees(av, more, after, operands)
    ensures Starved(ref, operands) <==> Starved(after, operands)
  {
    if run.events == ref.events {
      assert more.events == run.events[|events|..] && after.events == ref.events[|events|..];
    }
  }

  lemma {:induction false} ErrorHasEvent(t: Table, words: seq<string>)
    ensures Reference(t, words).error ==> Reference(t, words).events != []
  {
    if words != [] && words[0] != "--" {
      if IsOperand(words[0]) {
        ErrorHasEvent(t, words[1..]);
      } else {
        WordAgrees(t, words);
        var g := ReadWord(t, words[0], NextWord(words));
        WordChoice(t, words[0], "");
        if |words| > 1 { WordChoice(t, words[0], words[1]); }
        if !g.error { ErrorHasEvent(t, words[if g.taken then 2 else 1..]); }
      }
    }
  }

  /** The word at the front is an option that reads without error. */
  lemma {:induction false} OptionAgrees(t: Table, name: string, options: seq<string>, operands: seq<string>, words: seq<string>)
    requires AllOperands(operands) && words != [] && words[0] != "--" && !IsOperand(words[0])
    requires !ReadWord(t, words[0], NextWord(words)).error
    ensures
      var n := Width(t, words);
      var av := [name] + Sorted(t, options, operands, words);
      && av == [name] + Sorted(t, options + words[..n], operands, words[n..])
      && 1 + |options| + n <= |av|
      && (Agrees(av, Run(av, t, 1 + |options|, ""), Reference(t, words), operands) <==>
          Agrees(av, Run(av, t, 1 + |options| + n, ""), Reference(t, words[n..]), operands))
      && (Starved(Reference(t, words), operands) <==> Starved(Reference(t, words[n..]), operands))
  {
    hide Sorted, Run, ReadWord, Agrees, Starved, Takes;
    var n := Width(t, words);
    var av := [name] + Sorted(t, options, operands, words);
    var ind := 1 + |options|;
    SortedHead(t, name, options, operands, words);
    SortedOption(t, options, operands, words);
    WordAgrees(t, words);
    var g := ReadWord(t, words[0], NextWord(words));
    assert ReadWord(t, words[0], WordAfter(av, ind)) == g by {
      if |words| > 1 || !Takes(t, words[0]) {
        WordSame(t, words[0], NextWord(words), WordAfter(av, ind));
      } else if WordAfter(av, ind).Some? {
        WordChoice(t, words[0], WordAfter(av, ind).value);
      }
    }
    RunWord(av, t, ind);
    ErrorHasEvent(t, words[n..]);
    GroupAgrees(av, Run(av, t, ind, ""), Run(av, t, ind + n, ""), Reference(t, words), Reference(t, words[n..]), operands, g.events);
  }

  /** The word at the front is an option that does not. */
  lemma ErrorAgrees(t: Table, name: string, options: seq<string>, operands: seq<string>, words: seq<string>)
    requires AllOperands(operands) && words != [] && words[0] != "--" && !IsOperand(words[0])
    requires ReadWord(t, words[0], NextWord(words)).error
    ensures
      var av := [name] + Sorted(t, options, operands, words);
      && 1 + |options| < |av|
      && (Agrees(av, Run(av, t, 1 + |options|, ""), Reference(t, words), operands) <==> !Starved(Reference(t, words), operands))
  {
    hide Sorted, Run, ReadWord, Takes;
    var av := [name] + Sorted(t, options, operands, words);
    var ind := 1 + |options|;
    SortedHead(t, name, options, operands, words);
    RunWord(av, t, ind);
    var g0, g1 := ReadWord(t, words[0], NextWord(words)), ReadWord(t, words[0], WordAfter(av, ind));
    if |words| > 1 || !Takes(t, words[0]) {
      WordSame(t, words[0], NextWord(words), WordAfter(av, ind));
      NotMissing(t, words);
    } else if operands != [] {
      WordChoice(t, words[0], operands[0]);
      if g0 != g1 {
        var run := Run(av, t, ind, "");
        assert run.events[|g0.events| - 1] == g1.events[|g1.events| - 1];
      }
    }
  }

  /** Only the last word can lack its argument. */
  lemma NotMissing(t: Table, words: seq<string>)
    requires words != [] && words[0] != "--" && !IsOperand(words[0]) && (|words| > 1 || !Takes(t, words[0]))
    ensures
      var g := ReadWord(t, words[0], NextWord(words));
      !(g.error && EndsMissing(g.events))
  {
    hide ReadWord, Takes;
    WordChoice(t, words[0], if |words| > 1 then words[1] else "");
  }

  lemma {:induction false} AgreesFrom(t: Table, name: string, options: seq<string>, operands: seq<string>, words: seq<string>)
    requires AllOperands(operands)
    ensures
      var av := [name] + Sorted(t, options, operands, words);
      && 1 + |options| <= |av|
      && (Agrees(av, Run(av, t, 1 + |options|, ""), Reference(t, words), operands) <==> !Starved(Reference(t, words), operands))
    decreases |words|
  {
    hide Sorted, Run, ReadWord, Agrees, Starved, Takes;
    if words == [] || words[0] == "--" {
      EndAgrees(t, name, options, operands, words);
      assert !Starved(Reference(t, words), operands) by { EndNotStarved(t, operands, words); }
      SortedEnd(t, options, operands, words);
    } else if IsOperand(words[0]) {
      AgreesFrom(t, name, options, operands + [words[0]], words[1..]);
      SortedOperand(t, options, operands, words);
      OperandAgrees(t, name, options, operands, words);
    } else if ReadWord(t, words[0], NextWord(words)).error {
      ErrorAgrees(t, name, options, operands, words);
    } else {
      var n := Width(t, words);
      OptionAgrees(t, name, options, operands, words);
      AgreesFrom(t, name, options + words[..n], operands, words[n..]);
    }
  }

  lemma EndNotStarved(t: Table, operands: seq<string>, words: seq<string>)
    requires words == [] || words[0] == "--"
    ensures !Starved(Reference(t, words), operands)
  {}

  lemma OperandAgrees(t: Table, name: string, options: seq<string>, operands: seq<string>, words: seq<string>)
    requires words != [] && words[0] != "--" && IsOperand(words[0])
    ensures forall av, run ::
              Agrees(av, run, Reference(t, words), operands) <==> Agrees(av, run, Reference(t, words[1..]), operands + [words[0]])
    ensures Starved(Reference(t, words), operands) <==> Starved(Reference(t, words[1..]), operands + [words[0]])
  {
    var more := Reference(t, words[1..]);
    assert operands + ([words[0]] + more.operands) == operands + [words[0]] + more.operands;
  }

  /** Permuting the words and then parsing them call by call gives what one pass
      from left to right gives, and stops at the first operand, exactly unless the
      last word lacks its argument and an operand was set aside before it: then
      the operand is taken for the argument. */
  lemma Refines(t: Table, name: string, words: seq<string>)
    ensures
      var av := [name] + Permuted(t, words);
      var ref := Reference(t, words);
      Agrees(av, Run(av, t, 1, ""), ref, []) <==> !(ref.error && EndsMissing(ref.events) && ref.operands != [])
  {
    hide Sorted, Run, Reference, Agrees;
    AgreesFrom(t, name, [], [], words);
    assert [] + Reference(t, words).operands == Reference(t, words).operands;
  }

  /* ----- the same, told from the words ----- */

  /** The last word is an option that takes an argument and has none: it is after no
      "--", and is itself no option's argument. */
  predicate LastTakes(t: Table, words: seq<string>) {
    && words != [] && words[0] != "--"
    && if IsOperand(words[0]) then LastTakes(t, words[1..])
       else if |words| == 1 then Takes(t, words[0])
       else LastTakes(t, words[Width(t, words)..])
  }

  /** Every option is one the table has, and none has an argument it must not have. */
  predicate Readable(t: Table, words: seq<string>) {
    words == [] || words[0] == "--" ||
    if IsOperand(words[0]) then Readable(t, words[1..])
    else
      && !ReadWord(t, words[0], Some(if |words| > 1 then words[1] else "")).error
      && Readable(t, words[Width(t, words)..])
  }

  lemma {:induction false} LastTakesMeans(t: Table, words: seq<string>)
    requires LastTakes(t, words)
    ensures
      var last := words[|words| - 1];
      Tail(t, words) == [] && !IsOperand(last) && last != "--" && Takes(t, last)
  {
    hide Takes;
    if IsOperand(words[0]) {
      LastTakesMeans(t, words[1..]);
    } else if |words| > 1 {
      LastTakesMeans(t, words[Width(t, words)..]);
    } else {
      assert words[1..] == [];
    }
  }

  /** The last word alone. */
  lemma LoneWord(t: Table, word: string)
    requires !IsOperand(word) && word != "--"
    ensures
      var g := ReadWord(t, word, None);
      && (g.error && EndsMissing(g.events) ==> Takes(t, word))
      && (!ReadWord(t, word, Some("")).error ==> (Takes(t, word) <==> g.error && EndsMissing(g.events)))
  {
    hide ReadWord, Takes;
    WordChoice(t, word, "");
    WordAgrees(t, [word, ""]);
    WordAgrees(t, [word]);
  }

  lemma {:induction false} MissingOnWords(t: Table, words: seq<string>)
    ensures
      var ref := Reference(t, words);
      && (ref.error && EndsMissing(ref.events) ==> LastTakes(t, words) && ref.operands == Operands(t, words))
      && (Readable(t, words) && LastTakes(t, words) ==> ref.error && EndsMissing(ref.events) && ref.operands == Operands(t, words))
  {
    hide ReadWord, Takes;
    if words != [] && words[0] != "--" {
      if IsOperand(words[0]) {
        MissingOnWords(t, words[1..]);
      } else {
        var g := ReadWord(t, words[0], NextWord(words));
        WordAgrees(t, words);
        if |words| == 1 {
          LoneWord(t, words[0]);
          assert words[1..] == [];
        } else {
          NotMissing(t, words);
          if !g.error {
            MissingOnWords(t, words[Width(t, words)..]);
            ErrorHasEvent(t, words[Width(t, words)..]);
            EventsAfter(g.events, Reference(t, words[Width(t, words)..]).events);
          }
        }
      }
    }
  }

  lemma EventsAfter(a: seq<Event>, b: seq<Event>)
    ensures b != [] ==> (EndsMissing(a + b) <==> EndsMissing(b))
    ensures b == [] ==> a + b == a
  {}

  /** Permuting first goes wrong only if the last word is an option that lacks its
      argument and an operand is before it, and for options that can be read, always
      then. */
  lemma RefinesOnWords(t: Table, name: string, words: seq<string>)
    ensures
      var av := [name] + Permuted(t, words);
      var right := Agrees(av, Run(av, t, 1, ""), Reference(t, words), []);
      && (!right ==> LastTakes(t, words) && Operands(t, words) != [])
      && (Readable(t, words) ==> (right <==> !(LastTakes(t, words) && Operands(t, words) != [])))
  {
    hide Permuted, Run, Reference, Agrees, LastTakes, Readable, Operands;
    Refines(t, name, words);
    MissingOnWords(t, words);
  }

  /** newfile file -m: the mode is missing, and file becomes the mode. */
  lemma OperandTaken()
    ensures
      var t := Table("m:", []);
      var words := ["file", "-m"];
      var av := ["newfile"] + Permuted(t, words);
      && Reference(t, words) == Parsed([MissingShort('m')], ["file"], true)
      && Run(av, t, 1, "") == Outcome([Short('m', Some("file"))], 3, false)
  {
    var t := Table("m:", []);
    assert ShortArity(t, 'm') == Some(Required);
    assert ClusterTakes(t, "m");
    var words := ["file", "-m"];
    assert words[1..] == ["-m"];
    assert Takes(t, "-m") by { assert "-m"[1..] == "m"; }
    assert Options(t, ["-m"]) == ["-m"];
    assert Operands(t, ["-m"]) == [];
    assert Tail(t, ["-m"]) == [];
    var av := ["newfile"] + Permuted(t, words);
    assert av == ["newfile", "-m", "file"];
    assert Run(av, t, 3, "") == Outcome([], 3, false);
    assert "-m"[1..] == "m";
  }
}
