/** The highest backup number known of each file, directory by directory, so that
    a directory is listed once in a batch. */
module BackupCache {
  import opened Names
  import opened Spec
  import opened Digits

  const MAX_DIRS := 64

  datatype Entry = Entry(base: string, digits: string)

  /* ----- the order of names ----- */

  /** strcmp: a prefix comes first. */
  function Order(a: string, b: string): int {
    if a == [] then (if b == [] then 0 else -1)
    else if b == [] then 1
    else if a[0] < b[0] then -1
    else if a[0] > b[0] then 1
    else Order(a[1..], b[1..])
  }

  lemma {:induction false} OrderFacts(a: string, b: string)
    ensures Order(a, b) == 0 <==> a == b
    ensures (Order(a, b) < 0) == (Order(b, a) > 0)
  {
    if a != [] && b != [] {
      OrderFacts(a[1..], b[1..]);
      assert a == [a[0]] + a[1..] && b == [b[0]] + b[1..];
    }
  }

  lemma {:induction false} OrderTrans(a: string, b: string, c: string)
    requires Order(a, b) <= 0 && Order(b, c) <= 0
    ensures Order(a, c) <= 0 && (Order(a, c) == 0 ==> Order(a, b) == 0 && Order(b, c) == 0)
  {
    if a != [] && b != [] && c != [] && a[0] == b[0] == c[0] {
      OrderTrans(a[1..], b[1..], c[1..]);
    }
  }

  /* ----- what a list of entries says ----- */

  ghost predicate Rising(entries: seq<Entry>) {
    forall i, j :: 0 <= i < j < |entries| ==> Order(entries[i].base, entries[j].base) < 0
  }

  ghost predicate SortedByBase(entries: seq<Entry>) {
    forall i, j :: 0 <= i < j < |entries| ==> Order(entries[i].base, entries[j].base) <= 0
  }

  ghost predicate Numbers(seen: set<Entry>) {
    forall e :: e in seen ==> Canonical(e.digits)
  }

  /** e is not outdone by x. */
  ghost predicate AtLeast(e: Entry, x: Entry) {
    e.base == x.base && Canonical(e.digits) && Canonical(x.digits) && Value(e.digits) >= Value(x.digits)
  }

  ghost predicate Covered(entries: seq<Entry>, x: Entry) {
    exists i :: 0 <= i < |entries| && AtLeast(entries[i], x)
  }

  /** One entry for each base that was seen, with its highest number. */
  ghost predicate Best(entries: seq<Entry>, seen: set<Entry>) {
    && Rising(entries) && Numbers(seen)
    && (forall i :: 0 <= i < |entries| ==> entries[i] in seen)
    && (forall x :: x in seen ==> Covered(entries, x))
  }

  /** The entry of a base has the highest number seen of it. */
  lemma BestIsMaximum(entries: seq<Entry>, seen: set<Entry>, i: nat, x: Entry)
    requires Best(entries, seen) && i < |entries| && x in seen && x.base == entries[i].base
    ensures AtLeast(entries[i], x)
  {
    hide Canonical, Value, Order;
    assert Covered(entries, x);
    var j :| 0 <= j < |entries| && AtLeast(entries[j], x);
    OrderFacts(entries[i].base, entries[j].base);
  }

  lemma AtLeastSelf(e: Entry)
    requires Canonical(e.digits)
    ensures AtLeast(e, e)
  {}

  lemma CoveredBy(entries: seq<Entry>, i: nat, x: Entry)
    requires i < |entries| && AtLeast(entries[i], x)
    ensures Covered(entries, x)
  {}

  lemma CoveredAt(entries: seq<Entry>, x: Entry) returns (i: nat)
    requires Covered(entries, x)
    ensures i < |entries| && AtLeast(entries[i], x)
  {
    i :| 0 <= i < |entries| && AtLeast(entries[i], x);
  }

  lemma RisingInsert(entries: seq<Entry>, i: nat, e: Entry)
    requires Rising(entries) && i <= |entries|
    requires forall j :: 0 <= j < i ==> Order(entries[j].base, e.base) < 0
    requires forall j :: i <= j < |entries| ==> Order(e.base, entries[j].base) < 0
    ensures Rising(entries[..i] + [e] + entries[i..])
  {
    hide Order;
  }

  /** A base seen for the first time goes to its place. */
  lemma BestInsert(entries: seq<Entry>, seen: set<Entry>, i: nat, e: Entry)
    requires Best(entries, seen) && i <= |entries| && Canonical(e.digits)
    requires forall j :: 0 <= j < i ==> Order(entries[j].base, e.base) < 0
    requires forall j :: i <= j < |entries| ==> Order(e.base, entries[j].base) < 0
    ensures Best(entries[..i] + [e] + entries[i..], seen + {e})
  {
    hide Canonical, Order, AtLeast, Covered, Rising;
    var r := entries[..i] + [e] + entries[i..];
    RisingInsert(entries, i, e);
    AtLeastSelf(e);
    CoveredBy(r, i, e);
    forall x | x in seen ensures Covered(r, x) {
      var j := CoveredAt(entries, x);
      CoveredBy(r, if j < i then j else j + 1, x);
    }
  }

  lemma AtLeastTrans(a: Entry, b: Entry, x: Entry)
    requires AtLeast(a, b) && AtLeast(b, x)
    ensures AtLeast(a, x)
  {}

  lemma Higher(old_: Entry, e: Entry, digits: string)
    requires old_.base == e.base && Canonical(old_.digits) && Canonical(e.digits)
    requires digits == if Compare(e.digits, old_.digits) > 0 then e.digits else old_.digits
    ensures AtLeast(Entry(e.base, digits), e) && AtLeast(Entry(e.base, digits), old_)
    ensures Entry(e.base, digits) == e || Entry(e.base, digits) == old_
  {
    hide Canonical, Value, Compare;
    CompareIsNumeric(e.digits, old_.digits);
  }

  /** A base seen before keeps its higher number. */
  lemma BestImprove(entries: seq<Entry>, seen: set<Entry>, i: nat, e: Entry, digits: string)
    requires Best(entries, seen) && i < |entries| && Canonical(e.digits) && entries[i].base == e.base
    requires digits == if Compare(e.digits, entries[i].digits) > 0 then e.digits else entries[i].digits
    ensures Best(entries[i := Entry(e.base, digits)], seen + {e})
  {
    hide Canonical, Order, Compare, AtLeast, Covered;
    var r := entries[i := Entry(e.base, digits)];
    assert entries[i] in seen;
    Higher(entries[i], e, digits);
    assert Rising(r) by { RisingUpdate(entries, i, r[i]); }
    CoveredBy(r, i, e);
    forall x | x in seen ensures Covered(r, x) {
      var j := CoveredAt(entries, x);
      if j == i { AtLeastTrans(r[i], entries[i], x); }
      CoveredBy(r, j, x);
    }
  }

  lemma RisingUpdate(entries: seq<Entry>, i: nat, e: Entry)
    requires Rising(entries) && i < |entries| && e.base == entries[i].base
    ensures Rising(entries[i := e])
  {
    hide Order;
  }

  /* ----- sorting, as qsort is specified ----- */

  function Insert(e: Entry, s: seq<Entry>): seq<Entry> {
    if s == [] || Order(e.base, s[0].base) <= 0 then [e] + s else [s[0]] + Insert(e, s[1..])
  }

  function Sort(s: seq<Entry>): seq<Entry> {
    if s == [] then [] else Insert(s[0], Sort(s[1..]))
  }

  lemma {:induction false} InsertSame(e: Entry, s: seq<Entry>)
    ensures multiset(Insert(e, s)) == multiset(s) + multiset{e}
  {
    hide Order;
    if s != [] && Order(e.base, s[0].base) > 0 {
      InsertSame(e, s[1..]);
      assert s == [s[0]] + s[1..];
    }
  }

  lemma {:induction false} InsertSorted(e: Entry, s: seq<Entry>)
    requires SortedByBase(s)
    ensures SortedByBase(Insert(e, s))
  {
    hide Order;
    if s != [] && Order(e.base, s[0].base) > 0 {
      InsertSorted(e, s[1..]);
      InsertSame(e, s[1..]);
      OrderFacts(e.base, s[0].base);
      var r := Insert(e, s[1..]);
      forall j | 0 <= j < |r| ensures Order(s[0].base, r[j].base) <= 0 {
        assert r[j] in multiset(r);
        assert r[j] == e || r[j] in s[1..];
      }
    } else if s != [] {
      forall j | 0 <= j < |s| ensures Order(e.base, s[j].base) <= 0 {
        if j > 0 { OrderTrans(e.base, s[0].base, s[j].base); }
      }
    }
  }

  lemma {:induction false} SortFacts(s: seq<Entry>)
    ensures SortedByBase(Sort(s)) && multiset(Sort(s)) == multiset(s)
  {
    if s != [] {
      SortFacts(s[1..]);
      InsertSorted(s[0], Sort(s[1..]));
      InsertSame(s[0], Sort(s[1..]));
      assert s == [s[0]] + s[1..];
    }
  }

  /* ----- one entry for each base ----- */

  ghost function Members(s: seq<Entry>): set<Entry> { set e | e in s }

  /** The loop's state: the kept entries are the best of those looked at. */
  ghost predicate Keeping(was: seq<Entry>, kept: seq<Entry>, i: nat)
    requires i <= |was|
  {
    && |kept| <= i && (kept == [] <==> i == 0)
    && Best(kept, Members(was[..i]))
    && (i > 0 ==> kept[|kept| - 1].base == was[i - 1].base)
  }

  lemma MembersNext(was: seq<Entry>, i: nat)
    requires i < |was|
    ensures Members(was[..i + 1]) == Members(was[..i]) + {was[i]} && was[i] in Members(was)
  {
    assert was[..i + 1] == was[..i] + [was[i]];
  }

  lemma KeepNew(was: seq<Entry>, kept: seq<Entry>, i: nat)
    requires i < |was| && SortedByBase(was) && Numbers(Members(was)) && Keeping(was, kept, i)
    requires kept == [] || kept[|kept| - 1].base != was[i].base
    ensures Keeping(was, kept + [was[i]], i + 1)
  {
    hide Best, Members, Order, Canonical;
    var e := was[i];
    MembersNext(was, i);
    assert Canonical(e.digits);
    forall m | 0 <= m < |kept| ensures Order(kept[m].base, e.base) < 0 {
      OrderFacts(kept[|kept| - 1].base, e.base);
      assert Order(was[i - 1].base, was[i].base) <= 0;
      if m < |kept| - 1 {
        BestRises(kept, Members(was[..i]), m);
        OrderTrans(kept[m].base, kept[|kept| - 1].base, e.base);
      }
    }
    BestInsert(kept, Members(was[..i]), |kept|, e);
    assert kept[..|kept|] + [e] + kept[|kept|..] == kept + [e];
  }

  lemma BestRises(entries: seq<Entry>, seen: set<Entry>, m: nat)
    requires Best(entries, seen) && m < |entries| - 1
    ensures Order(entries[m].base, entries[|entries| - 1].base) < 0
  {}

  lemma KeepSame(was: seq<Entry>, kept: seq<Entry>, i: nat, digits: string)
    requires i < |was| && Numbers(Members(was)) && Keeping(was, kept, i)
    requires kept != [] && kept[|kept| - 1].base == was[i].base
    requires digits == if Compare(was[i].digits, kept[|kept| - 1].digits) > 0 then was[i].digits else kept[|kept| - 1].digits
    ensures Keeping(was, kept[|kept| - 1 := Entry(was[i].base, digits)], i + 1)
  {
    hide Best, Members, Order, Canonical, Compare;
    MembersNext(was, i);
    BestImprove(kept, Members(was[..i]), |kept| - 1, was[i], digits);
  }

  /** entries_keep_highest, after the sort: the array's first entries become one
      for each base, with its highest number. */
  method KeepHighest(a: array<Entry>) returns (kept: nat)
    requires SortedByBase(a[..]) && Numbers(Members(a[..]))
    modifies a
    ensures kept <= a.Length && Best(a[..kept], old(Members(a[..])))
  {
    hide Best, SortedByBase, Numbers, Members, Order, Compare;
    ghost var was := a[..];
    kept := 0;
    var i := 0;
    assert Keeping(was, [], 0) by { KeepingStart(was); }
    while i < a.Length
      invariant 0 <= i <= a.Length && kept <= i && a[i..] == was[i..]
      invariant Keeping(was, a[..kept], i)
    {
      assert a[i] == a[i..][0] == was[i];
      var e := a[i];
      ghost var now := a[..kept];
      if kept > 0 && a[kept - 1].base == e.base {
        assert a[kept - 1] == now[kept - 1];
        var digits := if Compare(e.digits, a[kept - 1].digits) > 0 then e.digits else a[kept - 1].digits;
        KeepSame(was, now, i, digits);
        a[kept - 1] := Entry(e.base, digits);
        assert a[..kept] == now[kept - 1 := Entry(e.base, digits)];
      } else {
        KeepNew(was, now, i);
        a[kept] := e;
        kept := kept + 1;
        assert a[..kept] == now + [e];
      }
      assert a[i + 1..] == was[i..][1..];
      i := i + 1;
    }
    assert was[..i] == was;
  }

  lemma KeepingStart(was: seq<Entry>)
    ensures Keeping(was, [], 0)
  {}

  /* ----- listing a directory ----- */

  /** x is the backup name of some file in the listing. */
  ghost predicate IsListed(names: seq<string>, x: Entry) {
    x.base != [] && Canonical(x.digits) && NumberedBackup(x.base, x.digits) in names
  }

  lemma SplitListed(name: string, x: Entry, r: Option<(string, string)>)
    requires r.Some? ==> r.value.0 != [] && Canonical(r.value.1) && name == NumberedBackup(r.value.0, r.value.1)
    requires r == None ==> forall base, d :: base != [] && Canonical(d) ==> name != NumberedBackup(base, d)
    ensures IsListed([name], x) <==> r.Some? && x == Entry(r.value.0, r.value.1)
  {
    hide Canonical, NumberedBackup;
    if IsListed([name], x) && r.Some? {
      NumberedInjective(x.base, x.digits, r.value.0, r.value.1);
    }
  }

  /** backup_dir_list: what readdir gave, one entry for each base. */
  method ListDir(names: seq<string>) returns (entries: seq<Entry>, ghost seen: set<Entry>)
    ensures Best(entries, seen) && forall x :: x in seen <==> IsListed(names, x)
    ensures BestListed(names, entries)
  {
    hide Canonical, NumberedBackup, Best, IsListed, BestListed;
    var found: seq<Entry> := [];
    var i := 0;
    NothingListed();
    assert names[..0] == [];
    while i < |names|
      invariant 0 <= i <= |names| && forall x :: x in Members(found) <==> IsListed(names[..i], x)
    {
      var r := Split(names[i]);
      ghost var was := found;
      if r.Some? {
        found := found + [Entry(r.value.0, r.value.1)];
      }
      assert names[..i + 1] == names[..i] + [names[i]];
      forall x ensures x in Members(found) <==> IsListed(names[..i + 1], x) {
        SplitListed(names[i], x, r);
        ListedBoth(names[..i], [names[i]], x);
        assert x in Members(found) <==> x in Members(was) || (r.Some? && x == Entry(r.value.0, r.value.1));
      }
      i := i + 1;
    }
    assert names[..i] == names;
    seen := Members(found);
    entries := [];
    if |found| > 0 {
      var sorted := Sort(found);
      SortFacts(found);
      SameMembers(sorted, found);
      ListedNumbers(names, seen);
      var a := new Entry[|sorted|](k requires 0 <= k < |sorted| => sorted[k]);
      assert a[..] == sorted;
      var kept := KeepHighest(a);
      entries := a[..kept];
    } else {
      NothingBest();
    }
    BestOfListing(names, entries, seen);
  }

  /** One entry for each base with a numbered backup in the listing, and no more. */
  ghost predicate BestListed(names: seq<string>, entries: seq<Entry>) {
    && Rising(entries) && (forall i :: 0 <= i < |entries| ==> IsListed(names, entries[i]))
    && (forall x :: IsListed(names, x) ==> Covered(entries, x))
  }

  lemma BestOfListing(names: seq<string>, entries: seq<Entry>, seen: set<Entry>)
    requires Best(entries, seen) && forall x :: x in seen <==> IsListed(names, x)
    ensures BestListed(names, entries)
  {
    hide Covered, IsListed, Rising, Numbers;
  }

  lemma NothingListed()
    ensures forall x :: !IsListed([], x)
  {}

  lemma NothingBest()
    ensures Best([], {}) && Members([]) == {}
  {}

  lemma ListedBoth(a: seq<string>, b: seq<string>, x: Entry)
    ensures IsListed(a + b, x) <==> IsListed(a, x) || IsListed(b, x)
  {
    hide Canonical, NumberedBackup;
  }

  lemma ListedNumbers(names: seq<string>, seen: set<Entry>)
    requires forall x :: x in seen <==> IsListed(names, x)
    ensures Numbers(seen)
  {
    hide Canonical, NumberedBackup;
  }

  lemma SameMembers(a: seq<Entry>, b: seq<Entry>)
    requires multiset(a) == multiset(b)
    ensures Members(a) == Members(b)
  {
    forall e ensures e in Members(a) <==> e in Members(b) {
      assert e in a <==> e in multiset(a);
      assert e in b <==> e in multiset(b);
    }
  }

  /* ----- looking up ----- */

  /** bsearch in the sorted entries. */
  method FindBase(entries: seq<Entry>, base: string) returns (r: Option<nat>)
    requires Rising(entries)
    ensures r.Some? ==> r.value < |entries| && entries[r.value].base == base
    ensures r == None ==> forall i :: 0 <= i < |entries| ==> entries[i].base != base
  {
    hide Order;
    var lo: nat, hi: nat := 0, |entries|;
    while lo < hi
      invariant lo <= hi <= |entries|
      invariant forall i :: 0 <= i < lo ==> Order(entries[i].base, base) < 0
      invariant forall i :: hi <= i < |entries| ==> Order(entries[i].base, base) > 0
    {
      var mid := (lo + hi) / 2;
      var o := Order(entries[mid].base, base);
      OrderFacts(entries[mid].base, base);
      if o == 0 {
        return Some(mid);
      } else if o < 0 {
        forall i | lo <= i < mid ensures Order(entries[i].base, base) < 0 {
          OrderTrans(entries[i].base, entries[mid].base, base);
        }
        lo := mid + 1;
      } else {
        forall i | mid < i < hi ensures Order(entries[i].base, base) > 0 {
          OrderFacts(base, entries[mid].base);
          OrderTrans(base, entries[mid].base, entries[i].base);
          OrderFacts(base, entries[i].base);
          OrderFacts(entries[i].base, base);
        }
        hi := mid;
      }
    }
    forall i | 0 <= i < |entries| ensures entries[i].base != base {
      OrderFacts(entries[i].base, base);
    }
    r := None;
  }

  /** The entries once base has a backup numbered digits as well. */
  method NoteIn(entries: seq<Entry>, base: string, digits: string, ghost seen: set<Entry>) returns (entries': seq<Entry>)
    requires Best(entries, seen) && Canonical(digits)
    ensures Best(entries', seen + {Entry(base, digits)})
  {
    hide Canonical, Order, Compare, AtLeast, Covered, Best, Rising;
    var e := Entry(base, digits);
    assert Rising(entries) by { BestRising(entries, seen); }
    var at := FindBase(entries, base);
    if at.Some? {
      var k := at.value;
      var most := if Compare(digits, entries[k].digits) > 0 then digits else entries[k].digits;
      BestImprove(entries, seen, k, e, most);
      return entries[k := Entry(base, most)];
    }
    var i := |entries|;
    while i > 0 && Order(entries[i - 1].base, base) > 0
      invariant 0 <= i <= |entries| && forall j :: i <= j < |entries| ==> Order(base, entries[j].base) < 0
    {
      OrderFacts(base, entries[i - 1].base);
      i := i - 1;
    }
    forall j | 0 <= j < i ensures Order(entries[j].base, base) < 0 {
      OrderFacts(entries[i - 1].base, base);
      if j < i - 1 {
        RisingAt(entries, j, i - 1);
        OrderTrans(entries[j].base, entries[i - 1].base, base);
        OrderFacts(entries[j].base, base);
      }
    }
    BestInsert(entries, seen, i, e);
    entries' := entries[..i] + [e] + entries[i..];
  }

  lemma BestRising(entries: seq<Entry>, seen: set<Entry>)
    requires Best(entries, seen)
    ensures Rising(entries)
  {}

  lemma RisingAt(entries: seq<Entry>, i: nat, j: nat)
    requires Rising(entries) && i < j < |entries|
    ensures Order(entries[i].base, entries[j].base) < 0
  {}

  /* ----- the cache ----- */

  datatype DirCache = DirCache(dir: string, entries: seq<Entry>)

  /** What listing a directory comes to. */
  datatype Listing = Listed(names: seq<string>) | Denied | Broken

  datatype Choice = ByNumber(digits: string) | SimpleName | Refuse

  ghost predicate Distinct(dirs: seq<DirCache>) {
    forall i, j :: 0 <= i < j < |dirs| ==> dirs[i].dir != dirs[j].dir
  }

  function DirNames(dirs: seq<DirCache>): set<string> { set i | 0 <= i < |dirs| :: dirs[i].dir }

  ghost predicate CacheOK(dirs: seq<DirCache>, seen: map<string, set<Entry>>) {
    && |dirs| <= MAX_DIRS && Distinct(dirs) && seen.Keys == DirNames(dirs)
    && (forall i :: 0 <= i < |dirs| ==> dirs[i].dir in seen && Best(dirs[i].entries, seen[dirs[i].dir]))
  }

  /** Nothing that was known is forgotten. */
  ghost predicate Remembers(seen: map<string, set<Entry>>, seen': map<string, set<Entry>>) {
    forall d :: d in seen ==> d in seen' && seen[d] <= seen'[d]
  }

  /** What is known once dir was looked up: it was known, and nothing changes, or it
      was listed. A full cache is emptied first. */
  ghost predicate Looked(seen: map<string, set<Entry>>, full: bool, seen': map<string, set<Entry>>, dir: string, listing: Listing) {
    var kept := if full && dir !in seen then map[] else seen;
    && (forall d :: d in kept ==> d in seen' && seen'[d] == kept[d])
    && (forall d :: d in seen' ==> d in kept || d == dir)
    && (dir in seen' <==> dir in seen || listing.Listed?)
    && (dir in seen' && dir !in seen ==> listing.Listed? && forall x :: x in seen'[dir] <==> IsListed(listing.names, x))
  }

  lemma CacheAdd(dirs: seq<DirCache>, seen: map<string, set<Entry>>, dir: string, entries: seq<Entry>, found: set<Entry>)
    requires CacheOK(dirs, seen) && |dirs| < MAX_DIRS && dir !in seen && Best(entries, found)
    ensures CacheOK(dirs + [DirCache(dir, entries)], seen[dir := found])
  {
    hide Best;
    var dirs' := dirs + [DirCache(dir, entries)];
    assert DirNames(dirs') == DirNames(dirs) + {dir} by {
      assert dirs'[|dirs|].dir == dir && forall i :: 0 <= i < |dirs| ==> dirs'[i] == dirs[i];
    }
    forall i | 0 <= i < |dirs| ensures dirs'[i].dir != dir { assert dirs[i].dir in DirNames(dirs); }
  }

  lemma CacheUpdate(dirs: seq<DirCache>, seen: map<string, set<Entry>>, k: nat, entries: seq<Entry>, found: set<Entry>)
    requires CacheOK(dirs, seen) && k < |dirs| && Best(entries, found)
    ensures
      var dir := dirs[k].dir;
      CacheOK(dirs[k := DirCache(dir, entries)], seen[dir := found])
  {
    hide Best;
    var dirs' := dirs[k := DirCache(dirs[k].dir, entries)];
    forall i | 0 <= i < |dirs| ensures dirs'[i].dir == dirs[i].dir && (i == k || dirs[i].dir != dirs[k].dir) {}
    assert DirNames(dirs') == DirNames(dirs);
  }

  lemma CacheAt(dirs: seq<DirCache>, seen: map<string, set<Entry>>, k: nat)
    requires CacheOK(dirs, seen) && k < |dirs|
    ensures dirs[k].dir in seen && Best(dirs[k].entries, seen[dirs[k].dir])
  {
    hide Best;
  }

  lemma CacheNone(dirs: seq<DirCache>, seen: map<string, set<Entry>>, dir: string)
    requires CacheOK(dirs, seen) && forall j :: 0 <= j < |dirs| ==> dirs[j].dir != dir
    ensures dir !in seen
  {
    hide Best;
  }

  lemma CacheRoom(dirs: seq<DirCache>, seen: map<string, set<Entry>>, batch: seq<Path>, dir: string)
    requires CacheOK(dirs, seen) && DirNames(dirs) <= DirsOf(batch) && |batch| <= MAX_DIRS && dir in DirsOf(batch) && dir !in seen
    ensures |dirs| < MAX_DIRS
  {
    hide Best;
    NeverEvicts(dirs, batch, dir);
  }

  lemma CacheKeys(dirs: seq<DirCache>, seen: map<string, set<Entry>>)
    requires CacheOK(dirs, seen)
    ensures DirNames(dirs) == seen.Keys
  {
    hide Best;
  }

  lemma CacheSize(dirs: seq<DirCache>, seen: map<string, set<Entry>>)
    requires CacheOK(dirs, seen)
    ensures |dirs| <= MAX_DIRS
  {}

  lemma CacheEmpty()
    ensures CacheOK([], map[])
  {}

  class Cache {
    var dirs: seq<DirCache>
    ghost var seen: map<string, set<Entry>>   // listed, or linked since

    ghost predicate Valid()
      reads this
    {
      CacheOK(dirs, seen)
    }

    constructor ()
      ensures Valid() && dirs == [] && seen == map[]
    {
      dirs, seen := [], map[];
      new;
      CacheEmpty();
    }

    /** backup_cache_reset */
    method Reset()
      modifies this
      ensures Valid() && dirs == [] && seen == map[]
    {
      dirs, seen := [], map[];
      CacheEmpty();
    }

    /** The place of dir; it is listed if it was not before. While all directories
        asked for since the last reset are those of a batch, nothing in the cache
        is given up. */
    method Get(dir: string, listing: Listing, ghost batch: seq<Path>) returns (r: Option<nat>)
      requires Valid() && dir in DirsOf(batch)
      modifies this
      ensures Valid() && (r.Some? ==> r.value < |dirs| && dirs[r.value].dir == dir)
      ensures dir in old(seen) ==> r.Some? && seen == old(seen)
      ensures r == None <==> dir !in old(seen) && !listing.Listed?
      ensures dir in seen <==> r.Some?
      ensures Looked(old(seen), |old(dirs)| == MAX_DIRS, seen, dir, listing)
      ensures DirNames(old(dirs)) <= DirsOf(batch) && |batch| <= MAX_DIRS ==> DirNames(dirs) <= DirsOf(batch) && Remembers(old(seen), seen)
    {
      hide Best, IsListed, CacheOK;
      var i := 0;
      while i < |dirs|
        invariant 0 <= i <= |dirs| && forall j :: 0 <= j < i ==> dirs[j].dir != dir
      {
        if dirs[i].dir == dir {
          CacheAt(dirs, seen, i);
          return Some(i);
        }
        i := i + 1;
      }
      CacheNone(dirs, seen, dir);
      CacheKeys(dirs, seen);
      CacheSize(dirs, seen);
      if DirNames(dirs) <= DirsOf(batch) && |batch| <= MAX_DIRS { CacheRoom(dirs, seen, batch, dir); }
      if |dirs| == MAX_DIRS {
        Reset();
      }
      if !listing.Listed? {
        return None;
      }
      var entries;
      ghost var found;
      entries, found := ListDir(listing.names);
      CacheAdd(dirs, seen, dir, entries, found);
      dirs := dirs + [DirCache(dir, entries)];
      seen := seen[dir := found];
      CacheKeys(dirs, seen);
      r := Some(|dirs| - 1);
    }

    /** backup_note: base was given the backup numbered digits. */
    method Note(dir: string, base: string, digits: string, listing: Listing, ghost batch: seq<Path>)
      requires Valid() && Canonical(digits) && dir in DirsOf(batch)
      modifies this
      ensures Valid()
      ensures dir in seen <==> dir in old(seen) || listing.Listed?
      ensures exists before :: Looked(old(seen), |old(dirs)| == MAX_DIRS, before, dir, listing) &&
                seen == if dir in before then before[dir := before[dir] + {Entry(base, digits)}] else before
      ensures DirNames(old(dirs)) <= DirsOf(batch) && |batch| <= MAX_DIRS ==> DirNames(dirs) <= DirsOf(batch) && Remembers(old(seen), seen)
    {
      hide Best, Canonical, IsListed, CacheOK, Looked;
      var r := Get(dir, listing, batch);
      ghost var before := seen;
      if r == None {
        return;
      }
      var k := r.value;
      CacheAt(dirs, seen, k);
      var entries := NoteIn(dirs[k].entries, base, digits, seen[dir]);
      CacheUpdate(dirs, seen, k, entries, seen[dir] + {Entry(base, digits)});
      CacheKeys(dirs, seen);
      dirs := dirs[k := DirCache(dir, entries)];
      seen := seen[dir := seen[dir] + {Entry(base, digits)}];
      CacheKeys(dirs, seen);
    }

    /** backup_next: a number above every one seen, or a simple name. firstExists
        says whether base.~1~ does, where the directory may not be read. */
    method NextNumber(dir: string, base: string, control: Control, listing: Listing, firstExists: bool, ghost batch: seq<Path>) returns (r: Choice)
      requires Valid() && control != NoBackup && dir in DirsOf(batch)
      modifies this
      ensures Valid()
      // what is known of the directory
      ensures if control == Simple then seen == old(seen) else Looked(old(seen), |old(dirs)| == MAX_DIRS, seen, dir, listing)
      ensures control != Simple && listing.Listed? ==> dir in seen
      // which of the three it is
      ensures r == Refuse <==> control != Simple && listing == Broken && dir !in old(seen)
      ensures r == SimpleName <==>
                || control == Simple
                || (control == Existing &&
                    if dir in seen then forall x :: x in seen[dir] ==> x.base != base else listing == Denied && !firstExists)
      // and which number
      ensures r.ByNumber? ==> Canonical(r.digits)
      ensures r.ByNumber? && dir in seen ==> NextAfter(seen[dir], base, r.digits)
      ensures r.ByNumber? && dir !in seen ==> r.digits == "1"
      ensures DirNames(old(dirs)) <= DirsOf(batch) && |batch| <= MAX_DIRS ==> DirNames(dirs) <= DirsOf(batch) && Remembers(old(seen), seen)
    {
      hide Best, Canonical, IsListed, NextAfter, CacheOK;
      if control == Simple {
        return SimpleName;
      }
      OneIsCanonical();
      var numbered := control == Numbered;
      var at := Get(dir, listing, batch);
      if at == None {
        if listing == Broken {
          return Refuse;
        }
        return if numbered || firstExists then ByNumber("1") else SimpleName;
      }
      CacheAt(dirs, seen, at.value);
      var entries := dirs[at.value].entries;
      BestRising(entries, seen[dir]);
      var e := FindBase(entries, base);
      if e == None {
        NoneSeen(entries, seen[dir], base);
        return if numbered then ByNumber("1") else SimpleName;
      }
      BestNumber(entries, seen[dir], e.value);
      var next := Increment(entries[e.value].digits);
      AboveBest(entries, seen[dir], e.value, next);
      r := ByNumber(next);
    }
  }

  /** One more than the highest number seen of base, or 1 if there is none. */
  ghost predicate NextAfter(seen: set<Entry>, base: string, digits: string) {
    && Canonical(digits) && Numbers(seen)
    && (forall x :: x in seen && x.base == base ==> Value(x.digits) < Value(digits))
    && (Value(digits) == 1 || exists x :: x in seen && x.base == base && Value(x.digits) + 1 == Value(digits))
  }

  lemma OneIsCanonical()
    ensures Canonical("1") && Value("1") == 1
  {
    assert "1"[..0] == [];
  }

  lemma NoneSeen(entries: seq<Entry>, seen: set<Entry>, base: string)
    requires Best(entries, seen) && forall i :: 0 <= i < |entries| ==> entries[i].base != base
    ensures (forall x :: x in seen ==> x.base != base) && NextAfter(seen, base, "1")
  {
    hide Order, Canonical, Value;
    OneIsCanonical();
    forall x | x in seen ensures x.base != base {
      var i := CoveredAt(entries, x);
    }
  }

  lemma BestNumber(entries: seq<Entry>, seen: set<Entry>, i: nat)
    requires Best(entries, seen) && i < |entries|
    ensures entries[i] in seen && Canonical(entries[i].digits)
  {
    hide Order, Canonical, Covered;
  }

  lemma AboveBest(entries: seq<Entry>, seen: set<Entry>, i: nat, digits: string)
    requires Best(entries, seen) && i < |entries| && Canonical(entries[i].digits) && Canonical(digits)
    requires Value(digits) == Value(entries[i].digits) + 1
    ensures NextAfter(seen, entries[i].base, digits)
  {
    hide Order, Canonical, Value, Covered, Rising;
    forall x | x in seen && x.base == entries[i].base ensures Canonical(x.digits) && AtLeast(entries[i], x) {
      BestIsMaximum(entries, seen, i, x);
    }
  }

  /* ----- eviction ----- */

  lemma {:induction false} DistinctCount(dirs: seq<DirCache>)
    requires Distinct(dirs)
    ensures |DirNames(dirs)| == |dirs|
  {
    if dirs != [] {
      var n := |dirs| - 1;
      DistinctCount(dirs[..n]);
      assert DirNames(dirs) == DirNames(dirs[..n]) + {dirs[n].dir};
    }
  }

  /** The directories a batch of operands is in. */
  function DirsOf(batch: seq<Path>): set<string> { set p | p in batch :: Dir(p) }

  /** The operands of a batch are in at most that many directories. */
  lemma {:induction false} DirsOfBatch(operands: seq<Path>)
    ensures |DirsOf(operands)| <= |operands|
  {
    hide Dir;
    if operands != [] {
      var n := |operands| - 1;
      DirsOfBatch(operands[..n]);
      assert DirsOf(operands) == DirsOf(operands[..n]) + {Dir(operands[n])};
    }
  }

  /** While only the directories of a batch are asked for, there is room for each. */
  lemma NeverEvicts(dirs: seq<DirCache>, batch: seq<Path>, dir: string)
    requires Distinct(dirs) && DirNames(dirs) <= DirsOf(batch) && |batch| <= MAX_DIRS && dir in DirsOf(batch) && dir !in DirNames(dirs)
    ensures |dirs| < MAX_DIRS
  {
    hide Dir;
    DistinctCount(dirs);
    DirsOfBatch(batch);
    var asked := DirsOf(batch);
    assert asked == (DirNames(dirs) + {dir}) + (asked - DirNames(dirs) - {dir});
  }
}
