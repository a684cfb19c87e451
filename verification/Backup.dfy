/** A second name for a file about to be replaced. */
module Backup {
  import opened Names
  import opened Spec
  import opened World
  import opened Steps
  import opened Coherence
  import opened Kernel
  import opened Frames
  import opened Pending
  import opened Place
  import opened Commit
  import opened Digits

  /** The operand's file n has the name b as well; a name that was free is armed. */
  ghost predicate BackedUp(c: Config, w: World, p: Path, b: Path, n: Ino) {
    && BackupName(c, p, b) && p in w.names && w.names[p] == n && b in w.names && w.names[b] == n
    && |w.slots| == PENDING_SLOTS
    && if b in w.taken then w.slots[PENDING_BACKUP] == Clear
       else w.slots[PENDING_BACKUP] == Armed(b, n) && (Guarded(c) ==> Unprotected(w, b))
  }

  /** The operand was not replaced yet: what it holds is some operand's old file. */
  ghost predicate Unreplaced(c: Config, w: World, p: Path) {
    && (Guarded(c) ==> p !in w.committed && NoSwapAt(w, p) && (p in w.names ==> OldOf(c, w.names[p])))
    && (Separate(c) && BackupOn(c.settings) ==>
          && (p in w.names ==> p in c.init && w.names[p] == c.init[p])
          && (forall b :: BackupName(c, p, b) ==> b !in w.left && b !in w.taken))
  }

  /** No old file depends on the name that a simple backup of p replaces. */
  ghost predicate SimpleFree(c: Config, w: World, p: Path) {
    Guarded(c) && MaySimple(c.settings) ==> Unprotected(w, SimpleBackup(p))
  }

  lemma UnreplacedOld(c: Config, w: World, p: Path)
    requires PointOK(c, w) && Unreplaced(c, w, p) && p in w.names && BackupOn(c.settings)
    ensures SlotOwn(c, w.files, w.names[p])
  {
    hide SignalOK, PublishOK, HistoryOK, CrashOK, Guarded, Separate, BackupName, Replaceable, IsTemp;
  }

  /** Operands that are separate do no harm. */
  lemma SeparateHarmless(c: Config)
    requires Separate(c)
    ensures Harmless(c)
  {
    hide Stands, IsNumbered, Clash;
    forall x: nat, y: nat ensures !Clash(c, x, y) { SeparateClash(c, x, y); }
    forall p, q | MaySimple(c.settings) && MayNumber(c.settings) && p in c.operands && q in c.operands && p != q
      ensures !IsNumbered(p, SimpleBackup(q))
    {
      SeparatePair(c, q, p);
    }
  }

  lemma SeparateClash(c: Config, x: nat, y: nat)
    requires Separate(c)
    ensures !Clash(c, x, y)
  {
    hide Stands, IsNumbered, Separate;
    if x < |c.operands| && y < |c.operands| && c.operands[x] == SimpleBackup(c.operands[y]) {
      BackupFacts(c.operands[y], c.operands[x]);
      SeparatePair(c, c.operands[x], c.operands[y]);
    }
  }

  lemma SeparatePair(c: Config, p: Path, p': Path)
    requires Separate(c) && p in c.operands && p' in c.operands && p != p'
    ensures !BackupName(c, p', p)
    ensures MaySimple(c.settings) && MayNumber(c.settings) ==> !IsNumbered(p', SimpleBackup(p))
  {
    hide BackupName, IsNumbered;
    var i :| 0 <= i < |c.operands| && c.operands[i] == p';
    var j :| 0 <= j < |c.operands| && c.operands[j] == p;
    assert c.operands[i] != c.operands[j];
  }

  lemma UnreplacedUncommitted(c: Config, w: World, p: Path)
    requires Unreplaced(c, w, p)
    ensures Uncommitted(c, w, p)
  {
    hide Separate, Harmless, BackupName;
    if Separate(c) { SeparateHarmless(c); }
  }

  /** Where operands are apart, p's backup may hold what p holds. */
  lemma BackupGivable(c: Config, w: World, p: Path, b: Path)
    requires Unreplaced(c, w, p) && p in w.names && p in c.operands && BackupName(c, p, b)
    ensures Givable(c, w.names[p], b)
  {
    hide Separate, Guarded, BackupName;
    if Separate(c) && BackupOn(c.settings) {
      forall x | x in c.operands && BackupName(c, x, b) ensures x == p {
        if x != p { BackupsDiffer(c, p, x, b); }
      }
    }
  }

  lemma BackupBeside(c: Config, p: Path, b: Path)
    requires p in c.operands && BackupName(c, p, b)
    ensures SlotBeside(c, b)
  {
    hide Separate, BackupName;
    if Separate(c) && b in c.operands {
      BackupNameFacts(c, p, b);
      SeparatePair(c, b, p);
    }
  }

  /** What any of this leaves alone: all but the operand's other names. */
  ghost predicate Apart(c: Config, w: World, w': World, p: Path) {
    && Frame(c, w, w', PENDING_BACKUP, Backing(c, p), w.next)
    && w'.open == w.open && w'.blocked == w.blocked && w'.guard == w.guard && w'.files == w.files
    && w'.committed == w.committed && w'.swapped == w.swapped
  }

  lemma ApartTrans(c: Config, w0: World, w1: World, w2: World, p: Path)
    requires Apart(c, w0, w1, p) && Apart(c, w1, w2, p) && w1.next == w0.next
    ensures Apart(c, w0, w2, p)
  {
    hide Frame;
    FrameTrans(c, w0, w1, w2, PENDING_BACKUP, Backing(c, p), w0.next);
  }

  /** The operand's own file may have another name beside it. */
  lemma OldPresentable(c: Config, w: World, p: Path, b: Path)
    requires ConfigOK(c) && PointOK(c, w) && p in c.operands && p in w.names && BackupName(c, p, b) && c.settings.force
    ensures
      var f := w.files[w.names[p]];
      && f.role != Placeholder && (f.role == Foreign || PublicDone(c, f, Dir(b)))
      && Presentable(c, LinkW(c, w, w.names[p], b), b)
  {
    hide SignalOK, CrashOK, HistoryOK, BackupName, IsTemp, Dir, FilledAndOwned, FinalMode;
    OperandFacts(c, p);
    BackupNameFacts(c, p, b);
    assert Presentable(c, w, p);
  }

  lemma BackupLinked(c: Config, w: World, p: Path, b: Path)
    requires ConfigOK(c) && PointOK(c, w) && Steady(c, w) && p in c.operands && p in w.names && BackupName(c, p, b)
    requires c.settings.force && b !in w.names && w.slots[PENDING_BACKUP] == Clear && Unreplaced(c, w, p)
    ensures
      var w' := ArmedW(c, w, b, MakeLink(p, w.names[p]), PENDING_BACKUP);
      Steady(c, w') && Apart(c, w, w', p) && BackedUp(c, w', p, b, w.names[p])
  {
    hide Steady, SignalOK, PublishOK, CrashOK, HistoryOK, BackupName, IsTemp, Dir, Frame, Presentable, FileDone, SlotOwn, Unclobbered, Unreplaced, Givable, Unprotected, Guarded, SlotBeside;
    var n := w.names[p];
    OldPresentable(c, w, p, b);
    FreeUnprotected(c, w, b);
    FreeNotTaken(c, w, b);
    var w' := ArmedW(c, w, b, MakeLink(p, n), PENDING_BACKUP);
    SameUnprotected(w, w', b);
    ArmedSteady(c, w, w', PENDING_BACKUP, b, n);
    OperandFacts(c, p);
    BackupInZone(c, w, p, b);
    ArmedWFrame(c, w, b, MakeLink(p, n), PENDING_BACKUP, Backing(c, p), w.next);
  }

  lemma OldPresentableBlocked(c: Config, w: World, p: Path, b: Path)
    requires p in w.names && w.names[p] in w.files
    requires Presentable(c, LinkW(c, w, w.names[p], b), b)
    ensures Presentable(c, LinkW(c, BlockW(w, true), w.names[p], b), b)
  {
    hide IsTemp, Dir, FileDone, FilledAndOwned, IsPrivate;
  }

  /** A backup's name is for handling its operand to give. */
  lemma BackupInZone(c: Config, w: World, p: Path, b: Path)
    requires BackupName(c, p, b)
    ensures Within(Backing(c, p), b)
    ensures b !in w.names || Lent(w, b) ==> !Outside(Backing(c, p), b) || Numberable(w, Backing(c, p), b)
  {
    hide IsTemp, IsNumbered, Lent;
  }

  lemma BackupLinkPoint(c: Config, w: World, p: Path, b: Path)
    requires ConfigOK(c) && PointOK(c, w) && Steady(c, w) && p in c.operands && p in w.names && BackupName(c, p, b)
    requires c.settings.force && b !in w.names && w.slots[PENDING_BACKUP] == Clear && Unreplaced(c, w, p)
    ensures PointOK(c, LinkW(c, BlockW(w, true), w.names[p], b)) && b !in c.init
  {
    hide Steady, SignalOK, PublishOK, CrashOK, HistoryOK, BackupName, IsTemp, Dir, Presentable, FileDone, SlotOwn, Unclobbered, Unreplaced, Givable, SlotBeside;
    OldPresentable(c, w, p, b);
    OldPresentableBlocked(c, w, p, b);
    BlockPoint(c, w, true);
    BackupGivable(c, w, p, b);
    LinkPoint(c, BlockW(w, true), w.names[p], b);
    FreeNotInitP(c, w, b);
  }

  /** The backup is linked and armed, and signals are about to be let through again. */
  lemma BackupArmed(c: Config, w: World, w1: World, p: Path, b: Path)
    requires ConfigOK(c) && PointOK(c, w) && Steady(c, w) && p in c.operands && p in w.names && BackupName(c, p, b)
    requires c.settings.force && b !in w.names && |w.slots| == PENDING_SLOTS && w.slots[PENDING_BACKUP] == Clear && Unreplaced(c, w, p)
    requires w1 == ArmW(LinkW(c, BlockW(w, true), w.names[p], b), PENDING_BACKUP, b, w.names[p])
    ensures w.blocked || LetThrough(c, w1)
    ensures
      var w' := BlockW(w1, w.blocked);
      Steady(c, w') && Apart(c, w, w', p) && BackedUp(c, w', p, b, w.names[p]) && w'.next == w.next && w'.left == w.left
  {
    hide PointOK, ConfigOK, Steady, Classified, NoPlaceholder, ArmedFree, NoSpareArmed, Apart, BackedUp, BackupName, Dir, Unreplaced;
    BackupLinked(c, w, p, b);
    BlockedArmed(c, w, b, MakeLink(p, w.names[p]), PENDING_BACKUP, w.blocked);
    SteadyParts(c, BlockW(w1, w.blocked), w1);
    MadeFree(c, w, b, MakeLink(p, w.names[p]), PENDING_BACKUP);
  }

  /** backup_link: armed as it is made. */
  method BackupLink(k: Machine, p: Path, b: Path, n: Ino) returns (r: Reply)
    requires k.Valid() && Steady(k.c, k.w) && p in k.c.operands && p in k.w.names && k.w.names[p] == n && BackupName(k.c, p, b)
    requires k.c.settings.force && |k.w.slots| == PENDING_SLOTS && k.w.slots[PENDING_BACKUP] == Clear && Unreplaced(k.c, k.w, p) && IsRegular(k.w, n)
    modifies k
    ensures k.Valid() && old(k.trace) <= k.trace && old(k.faults) <= k.faults
    ensures r == Ok ==> Steady(k.c, k.w) && Apart(k.c, old(k.w), k.w, p) && BackedUp(k.c, k.w, p, b, n)
    ensures r == Ok ==> k.w.next == old(k.w).next && b !in old(k.w).names && k.w.left == old(k.w).left
    ensures r != Ok ==> k.w == old(k.w)
    ensures r == Exists ==> b in k.w.names
    ensures r != Ok && r != Exists ==> k.faults > old(k.faults)
    ensures |k.w.slots| == PENDING_SLOTS
  {
    hide PointOK, ConfigOK, Tied, Went, KindsOK, Steady, Frame, BackupName, IsTemp, Dir, LetThrough, Apart, BackedUp, SlotOwn, Unreplaced, LinkW, SlotBeside;
    ghost var w0 := k.w;
    LinkSame(k.c, BlockW(w0, true), n, b);
    if b !in k.w.names { BackupLinkPoint(k.c, k.w, p, b); }
    BackupOnName(k.c, p, b);
    UnreplacedOld(k.c, k.w, p);
    var was := k.Hold();
    r := k.Link(p, b);
    if r == Ok {
      BackupBeside(k.c, p, b);
      k.Arm(PENDING_BACKUP, b, n);
      BackupArmed(k.c, w0, k.w, p, b);
      k.Release(was);
    } else {
      BlockedAgain(k.c, w0);
      k.Release(was);
    }
  }

  lemma LinkSame(c: Config, w: World, n: Ino, q: Path)
    ensures
      var w' := LinkW(c, w, n, q);
      w'.blocked == w.blocked && w'.slots == w.slots && w'.files == w.files
  {
    hide Dir;
  }

  lemma BackupOnName(c: Config, p: Path, b: Path)
    requires BackupName(c, p, b)
    ensures BackupOn(c.settings)
  {
    hide IsNumbered;
  }

  /** Nothing was done while signals were blocked. */
  lemma BlockedAgain(c: Config, w: World)
    requires PointOK(c, w) && Steady(c, w)
    ensures
      var w1 := BlockW(w, true);
      (w.blocked || LetThrough(c, w1)) && BlockW(w1, w.blocked) == w
  {
    hide PointOK, Steady, Classified, NoPlaceholder, ArmedFree, NoSpareArmed;
    SteadyParts(c, w, BlockW(w, true));
    StillFree(c, w, 0, "", 0);
  }

  /** A steady state stays safe to unblock when only the mask differs. */
  lemma SteadyParts(c: Config, w: World, w': World)
    requires Steady(c, w) && BlockW(w', w.blocked) == w
    ensures Classified(c, w') && NoPlaceholder(w')
  {
    hide Accounted, SlotsOK;
    BlockSteady(c, w', w.blocked);
  }

  /* ----- numbered ----- */

  /** The numbered backups from v up that are taken. */
  ghost function TakenFrom(names: set<Path>, p: Path, v: nat): set<Path> {
    set q | q in names && IsNumberedFrom(p, q, v)
  }

  ghost predicate IsNumberedFrom(p: Path, q: Path, v: nat) {
    exists d :: Canonical(d) && Value(d) >= v && q == NumberedBackup(p, d)
  }

  lemma TakenShrinks(names: set<Path>, p: Path, d: string)
    requires Canonical(d) && NumberedBackup(p, d) in names
    ensures |TakenFrom(names, p, Value(d) + 1)| < |TakenFrom(names, p, Value(d))|
  {
    hide Value, NumberedBackup, IsNumberedFrom;
    var q, v := NumberedBackup(p, d), Value(d);
    var big, small := TakenFrom(names, p, v), TakenFrom(names, p, v + 1);
    LastFrom(p, d);
    assert small <= big - {q} by {
      forall x | x in small ensures x in big { FromLower(p, x, v); }
    }
    SetSize(small, big - {q});
  }

  lemma FromLower(p: Path, q: Path, v: nat)
    requires IsNumberedFrom(p, q, v + 1)
    ensures IsNumberedFrom(p, q, v)
  {}

  lemma LastFrom(p: Path, d: string)
    requires Canonical(d)
    ensures IsNumberedFrom(p, NumberedBackup(p, d), Value(d))
    ensures !IsNumberedFrom(p, NumberedBackup(p, d), Value(d) + 1)
  {
    hide Value, NumberedBackup;
    var q := NumberedBackup(p, d);
    if IsNumberedFrom(p, q, Value(d) + 1) {
      var e :| Canonical(e) && Value(e) >= Value(d) + 1 && q == NumberedBackup(p, e);
      NumberedInjective(p, d, p, e);
    }
  }

  lemma SetSize(a: set<Path>, b: set<Path>)
    requires a <= b
    ensures |a| <= |b|
  {
    assert b == a + (b - a);
  }

  /** From the number given up, the first that is free. */
  method BackupNumbered(k: Machine, p: Path, n: Ino, first: string) returns (ok: bool, b: Path, number: string)
    requires k.Valid() && Steady(k.c, k.w) && p in k.c.operands && p in k.w.names && k.w.names[p] == n
    requires Canonical(first) && IsRegular(k.w, n) && MayNumber(k.c.settings) && Unreplaced(k.c, k.w, p)
    requires k.c.settings.force && |k.w.slots| == PENDING_SLOTS && k.w.slots[PENDING_BACKUP] == Clear
    modifies k
    ensures k.Valid() && old(k.trace) <= k.trace && old(k.faults) <= k.faults
    ensures ok ==> Steady(k.c, k.w) && Apart(k.c, old(k.w), k.w, p) && BackedUp(k.c, k.w, p, b, n)
    ensures ok ==> k.w.next == old(k.w).next && k.w.left == old(k.w).left
    ensures !ok ==> k.w == old(k.w) && k.faults > old(k.faults)
    ensures |k.w.slots| == PENDING_SLOTS
    ensures ok ==> Canonical(number) && b == NumberedBackup(p, number) && Value(number) >= Value(first)
    ensures ok ==> b !in old(k.w).names
    ensures ok ==> forall v :: Value(first) <= v < Value(number) ==> NumberTaken(old(k.w).names.Keys, p, v)
  {
    hide PointOK, ConfigOK, Tied, Went, KindsOK, Steady, Frame, IsTemp, Dir, TakenFrom, Apart, NumberedBackup, Value, Unreplaced, BackedUp;
    number := first;
    ok := false;
    while true
      invariant Canonical(number) && Value(number) >= Value(first)
      invariant k.Valid() && old(k.trace) <= k.trace && old(k.faults) <= k.faults && k.w == old(k.w)
      invariant forall v :: Value(first) <= v < Value(number) ==> NumberTaken(old(k.w).names.Keys, p, v)
      decreases |TakenFrom(k.w.names.Keys, p, Value(number))|
    {
      b := NumberedBackup(p, number);
      assert BackupName(k.c, p, b);
      var r := BackupLink(k, p, b, n);
      if r == Ok {
        return true, b, number;
      }
      if r != Exists {
        return;
      }
      TakenShrinks(k.w.names.Keys, p, number);
      assert NumberTaken(old(k.w).names.Keys, p, Value(number));
      number := Increment(number);
    }
  }

  ghost predicate NumberTaken(names: set<Path>, p: Path, v: nat) {
    exists d :: Canonical(d) && Value(d) == v && NumberedBackup(p, d) in names
  }

  /* ----- simple ----- */

  /** Operands that do not interfere have no backup name in common. */
  lemma BackupsDiffer(c: Config, p: Path, p': Path, b: Path)
    requires Separate(c) && p in c.operands && p' in c.operands && p != p' && BackupName(c, p, b)
    ensures !BackupName(c, p', b)
  {
    hide Separate, NumberedBackup;
    SeparatePair(c, p, p');
    SeparatePair(c, p', p);
    if BackupName(c, p', b) {
      SimpleInjective(p, p');
      if IsNumbered(p, b) && IsNumbered(p', b) {
        var d :| Canonical(d) && b == NumberedBackup(p, d);
        var d' :| Canonical(d') && b == NumberedBackup(p', d');
        NumberedInjective(p, d, p', d');
      }
    }
  }

  lemma SimpleInjective(p: Path, p': Path)
    ensures SimpleBackup(p) == SimpleBackup(p') ==> p == p'
  {
    assert SimpleBackup(p)[..|p|] == p && SimpleBackup(p')[..|p'|] == p';
  }

  /** A backup that is there and that this run did not make was there at first. */
  lemma BackupWasThere(c: Config, w: World, p: Path, b: Path)
    requires ConfigOK(c) && WellFormed(c, w) && Classified(c, w) && Separate(c) && p in c.operands && c.settings.force
    requires BackupName(c, p, b) && b in w.names && Unreplaced(c, w, p)
    requires |w.slots| == PENDING_SLOTS && (w.slots[PENDING_BACKUP].Armed? ==> w.slots[PENDING_BACKUP].path != b)
    ensures b in c.init
  {
    hide IsTemp, Separate, Guarded, Done, SlotOwn, Unclobbered, IsNumbered, SlotBeside;
    BackupNameFacts(c, p, b);
    UnreplacedUncommitted(c, w, p);
    assert Accounted(c, w, b);
    if b in c.operands { SeparatePair(c, b, p); }
    if x :| x in c.operands && BackupFor(c, w, x, b) {
      if x != p { BackupsDiffer(c, p, x, b); }
    }
  }

  /** tmp is a second link to the operand's file, to be renamed over its backup. */
  ghost predicate Alias(c: Config, w: World, tmp: Path, p: Path, n: Ino) {
    && |w.slots| == PENDING_SLOTS && w.slots[PENDING_BACKUP] == Armed(tmp, n)
    && IsTemp(tmp) && Dir(tmp) == Dir(p) && tmp !in c.init && tmp in w.names && w.names[tmp] == n && FirstUse(w, tmp)
    && p in c.operands && p in w.names && w.names[p] == n && n in w.files
    && SimpleBackup(p) in w.taken && c.settings.force && MaySimple(c.settings)
    && (Guarded(c) ==> Unprotected(w, tmp) && Unprotected(w, SimpleBackup(p))) && Givable(c, n, SimpleBackup(p))
  }

  lemma SimpleName(c: Config, p: Path)
    requires MaySimple(c.settings)
    ensures BackupName(c, p, SimpleBackup(p))
  {}

  lemma AliasPoint(c: Config, w: World, tmp: Path, p: Path, n: Ino)
    requires ConfigOK(c) && PointOK(c, w) && Steady(c, w) && Alias(c, w, tmp, p, n)
    ensures PointOK(c, MoveW(c, w, tmp, SimpleBackup(p)))
    ensures Classified(c, MoveW(c, w, tmp, SimpleBackup(p)))
  {
    hide SignalOK, PublishOK, CrashOK, HistoryOK, IsTemp, Dir, FileDone, Guarded, Unprotected, SlotsOK, SimpleBackup, SlotOwn, Unclobbered, Givable, Uncommitted, SlotBeside;
    var b := SimpleBackup(p);
    SimpleName(c, p);
    BackupNameFacts(c, p, b);
    OldPresentable(c, w, p, b);
    TempNotTaken(c, w, tmp);
    TempUncommitted(c, w, tmp);
    BackupUncommitted(c, w, p, b);
    assert BackupFor(c, MoveW(c, w, tmp, b), p, b);
    MovePoint(c, w, tmp, b);
  }

  lemma BackupUncommitted(c: Config, w: World, p: Path, b: Path)
    requires HistoryOK(c, w) && p in c.operands && BackupName(c, p, b)
    ensures Uncommitted(c, w, b)
  {
    hide Separate, BackupName, BackupsOK, IsTemp, Dir;
    if Separate(c) && b in c.operands {
      BackupNameFacts(c, p, b);
      SeparatePair(c, b, p);
    }
  }

  lemma SameUnprotected(w: World, w': World, q: Path)
    requires w'.guard == w.guard
    ensures Unprotected(w, q) == Unprotected(w', q)
  {}

  lemma AliasRemovable(c: Config, w: World, tmp: Path, p: Path, n: Ino)
    requires ConfigOK(c) && HistoryOK(c, w) && SlotsOK(w) && Alias(c, w, tmp, p, n)
    ensures Removable(c, w, PENDING_BACKUP) && SlotsBut(w, PENDING_BACKUP)
  {
    hide HistoryOK, IsTemp, Guarded, Unprotected, SimpleBackup, Givable;
    TempNotTaken(c, w, tmp);
  }

  lemma AliasMoved(c: Config, w: World, tmp: Path, p: Path, n: Ino)
    requires ConfigOK(c) && WellFormed(c, w) && HistoryOK(c, w) && SlotsOK(w) && NoPlaceholder(w) && Alias(c, w, tmp, p, n)
    ensures
      var w' := MoveW(c, w, tmp, SimpleBackup(p));
      && w'.slots == w.slots && SimpleBackup(p) in w'.names && w'.names[SimpleBackup(p)] == n
      && Removable(c, w', PENDING_BACKUP) && SlotsBut(w', PENDING_BACKUP) && NoPlaceholder(w')
      && p in w'.names && w'.names[p] == n
  {
    hide HistoryOK, IsTemp, Dir, Guarded, Givable, Unprotected, SimpleBackup, WellFormed, SlotsOK, NoPlaceholder, SlotsBut;
    var b := SimpleBackup(p);
    BackupFacts(p, b);
    OperandFacts(c, p);
    TempNotTaken(c, w, tmp);
    SameUnprotected(w, MoveW(c, w, tmp, b), tmp);
    MovedOnto(c, w, tmp, p, b, n);
  }

  /** The other slots and the names that hold no empty file are as they were. */
  lemma MovedOnto(c: Config, w: World, tmp: Path, p: Path, b: Path, n: Ino)
    requires ConfigOK(c) && WellFormed(c, w) && SlotsOK(w) && NoPlaceholder(w) && c.settings.force
    requires |w.slots| == PENDING_SLOTS && w.slots[PENDING_BACKUP] == Armed(tmp, n) && tmp in w.names && w.names[tmp] == n
    requires !IsTemp(b) && p in w.names && w.names[p] == n && IsTemp(tmp) && n in w.files
    ensures SlotsBut(MoveW(c, w, tmp, b), PENDING_BACKUP) && NoPlaceholder(MoveW(c, w, tmp, b))
  {
    hide IsTemp, Dir, SlotOwn, Unclobbered, SlotBeside;
  }

  lemma AliasMoveFrame(c: Config, w: World, tmp: Path, p: Path, n: Ino)
    requires ConfigOK(c) && Alias(c, w, tmp, p, n)
    ensures Apart(c, w, MoveW(c, w, tmp, SimpleBackup(p)), p)
  {
    hide Dir, Outside, NameFrame, Unprotected, SimpleBackup, FileFrame, BindFrame, IsTemp, Numberable, Within, LendsNew, Guarded, Givable, GuardFrame;
    GuardFrameSame(c, w, MoveW(c, w, tmp, SimpleBackup(p)), p) by { MovedSameHere(c, w, tmp, SimpleBackup(p)); }
    var b := SimpleBackup(p);
    var w' := MoveW(c, w, tmp, b);
    if w' == w {
      FrameRefl(c, w, PENDING_BACKUP, Backing(c, p), w.next);
    } else {
      SimpleInZone(c, p);
      TempMine(Backing(c, p), tmp);
      SameLends(w, w');
      NameStepFrame(c, w, w', Backing(c, p), Id(c, b), Move(tmp, b));
      AliasBinds(c, w, tmp, p, n);
    }
  }

  lemma SimpleInZone(c: Config, p: Path)
    requires MaySimple(c.settings)
    ensures !Outside(Backing(c, p), SimpleBackup(p)) && Within(Backing(c, p), SimpleBackup(p))
  {}

  lemma AliasBinds(c: Config, w: World, tmp: Path, p: Path, n: Ino)
    requires ConfigOK(c) && Alias(c, w, tmp, p, n)
    ensures BindFrame(w, MoveW(c, w, tmp, SimpleBackup(p)), Backing(c, p), w.next)
    ensures FileFrame(w, MoveW(c, w, tmp, SimpleBackup(p)), w.next)
  {
    hide Dir, IsTemp, Unprotected, SimpleBackup, Guarded, Givable, MaySimple, MayNumber;
    OperandFacts(c, p);
    assert Given(w, Backing(c, p), n);
  }

  lemma AliasMade(c: Config, w: World, tmp: Path, p: Path, n: Ino)
    requires ConfigOK(c) && PointOK(c, w) && Steady(c, w) && |w.slots| == PENDING_SLOTS && w.slots[PENDING_BACKUP] == Clear
    requires IsTemp(tmp) && Dir(tmp) == Dir(p) && tmp !in w.names && p in c.operands && p in w.names && w.names[p] == n
    requires Makeable(c, w, MakeLink(p, n)) && MaySimple(c.settings) && Unreplaced(c, w, p) && SimpleFree(c, w, p) && SimpleBackup(p) in w.names
    requires PointOK(c, ArmedW(c, w, tmp, MakeLink(p, n), PENDING_BACKUP))
    ensures
      var w1 := ArmedW(c, w, tmp, MakeLink(p, n), PENDING_BACKUP);
      var w2 := TakenW(w1, SimpleBackup(p));
      && PointOK(c, w2) && Steady(c, w2) && Alias(c, w2, tmp, p, n) && Apart(c, w, w2, p) && w2.next == w.next
  {
    hide SignalOK, PublishOK, CrashOK, HistoryOK, WellFormed, IsTemp, Dir, Unprotected, Steady, SimpleBackup, Frame, FdsOK, Separate, Guarded, Within, IsNumbered, SlotOwn, Hideable, Givable, Unreplaced, BackupName;
    var w1 := ArmedW(c, w, tmp, MakeLink(p, n), PENDING_BACKUP);
    var w2 := TakenW(w1, SimpleBackup(p));
    SimpleName(c, p);
    BackupNameFacts(c, p, SimpleBackup(p));
    ArmedWSteady(c, w, tmp, MakeLink(p, n), PENDING_BACKUP);
    if Separate(c) { TakenWasThere(c, w, p); }
    TakenPoint(c, w1, SimpleBackup(p));
    FreeNotInitP(c, w, tmp);
    FreeUnprotected(c, w, tmp);
    SameUnprotected(w, w2, tmp);
    SameUnprotected(w, w2, SimpleBackup(p));
    BackupGivable(c, w, p, SimpleBackup(p));
    MadeFirst(c, w, tmp, MakeLink(p, n), PENDING_BACKUP);
    OperandFacts(c, p);
    TempMine(Backing(c, p), tmp);
    SimpleInZone(c, p);
    ArmedWFrame(c, w, tmp, MakeLink(p, n), PENDING_BACKUP, Backing(c, p), w.next);
    SameFrame(c, w1, w2, PENDING_BACKUP, Backing(c, p), w.next);
    FrameTrans(c, w, w1, w2, PENDING_BACKUP, Backing(c, p), w.next);
    LinkInFiles(c, w, p, n);
  }

  lemma LinkInFiles(c: Config, w: World, p: Path, n: Ino)
    requires Makeable(c, w, MakeLink(p, n))
    ensures n in w.files
  {
    hide Guarded, Hideable;
  }

  lemma TakenWasThere(c: Config, w: World, p: Path)
    requires ConfigOK(c) && PointOK(c, w) && Steady(c, w) && Separate(c) && p in c.operands && MaySimple(c.settings)
    requires SimpleBackup(p) in w.names && Unreplaced(c, w, p) && |w.slots| == PENDING_SLOTS && w.slots[PENDING_BACKUP] == Clear
    ensures SimpleBackup(p) in c.init
  {
    hide SignalOK, PublishOK, CrashOK, HistoryOK, WellFormed, Classified, Separate, Unreplaced, BackupName;
    SimpleName(c, p);
    BackupWasThere(c, w, p, SimpleBackup(p));
  }

  /** The operand's own file may have a temporary name. */
  lemma OldMakeable(c: Config, w: World, p: Path, n: Ino)
    requires ConfigOK(c) && PointOK(c, w) && p in c.operands && p in w.names && w.names[p] == n && c.settings.force
    requires MaySimple(c.settings) && Unreplaced(c, w, p)
    ensures Makeable(c, w, MakeLink(p, n))
  {
    hide PublishOK, SignalOK, CrashOK, HistoryOK, IsTemp, Dir, Presentable, SimpleBackup, Unreplaced, SlotOwn, Unclobbered, Guarded;
    SimpleName(c, p);
    BackupNameFacts(c, p, SimpleBackup(p));
    OldPresentable(c, w, p, SimpleBackup(p));
    UnreplacedOld(c, w, p);
  }

  /** backup_simple: a backup already there is replaced. left: the temporary
      name could not be removed. */
  method BackupSimple(k: Machine, p: Path, n: Ino) returns (ok: bool, left: bool)
    requires k.Valid() && Steady(k.c, k.w) && p in k.c.operands && p in k.w.names && k.w.names[p] == n && IsRegular(k.w, n)
    requires MaySimple(k.c.settings) && |k.w.slots| == PENDING_SLOTS && k.w.slots[PENDING_BACKUP] == Clear && Unreplaced(k.c, k.w, p) && (p in k.w.names ==> SimpleFree(k.c, k.w, p))
    modifies k
    ensures k.Valid() && old(k.trace) <= k.trace && old(k.faults) <= k.faults
    ensures Steady(k.c, k.w) && Apart(k.c, old(k.w), k.w, p) && |k.w.slots| == PENDING_SLOTS
    ensures ok ==> BackedUp(k.c, k.w, p, SimpleBackup(p), n)
    ensures !ok ==> k.w.slots[PENDING_BACKUP] == Clear
    ensures left ==> k.w.left != {} && k.faults > old(k.faults)
    ensures !ok ==> k.faults > old(k.faults) || IsDirectory(k.c, SimpleBackup(p))
    ensures ok && !left ==> k.w.left == old(k.w).left
  {
    hide PointOK, ConfigOK, Tied, Went, KindsOK, Steady, Frame, IsTemp, Dir, SimpleBackup, Makeable, Alias, Unreplaced, SimpleFree, BackedUp, BackupName;
    left := false;
    FrameRefl(k.c, k.w, PENDING_BACKUP, Backing(k.c, p), k.w.next);
    SimpleName(k.c, p);
    var r := BackupLink(k, p, SimpleBackup(p), n);
    if r == Ok {
      return true, false;
    }
    if r != Exists {
      return false, false;
    }
    ok, left := BackupAgain(k, p, n);
  }

  /** The backup b took the place of what was there, under the temporary name tmp
      before; no directory was flushed in between. */
  ghost predicate Overtook(c: Config, w: World, w': World, n: Ino, tmp: Path, b: Path) {
    && tmp != b && Id(c, tmp) == Id(c, b) && w'.disk == w.disk
    && w'.logs == w.logs[Id(c, b) := LogOf(w, Id(c, b)) + [Bind(tmp, n)] + [Move(tmp, b)]]
  }

  /** There is a backup: another link to the file is renamed over it. */
  method BackupAgain(k: Machine, p: Path, n: Ino) returns (ok: bool, left: bool)
    requires k.Valid() && Steady(k.c, k.w) && p in k.c.operands && p in k.w.names && k.w.names[p] == n && IsRegular(k.w, n) && SimpleBackup(p) in k.w.names
    requires MaySimple(k.c.settings) && |k.w.slots| == PENDING_SLOTS && k.w.slots[PENDING_BACKUP] == Clear && Unreplaced(k.c, k.w, p) && SimpleFree(k.c, k.w, p)
    modifies k
    ensures k.Valid() && old(k.trace) <= k.trace && old(k.faults) <= k.faults
    ensures Steady(k.c, k.w) && Apart(k.c, old(k.w), k.w, p) && |k.w.slots| == PENDING_SLOTS
    ensures ok ==> BackedUp(k.c, k.w, p, SimpleBackup(p), n)
    ensures !ok ==> k.w.slots[PENDING_BACKUP] == Clear
    ensures left ==> k.w.left != {} && k.faults > old(k.faults)
    ensures !ok ==> k.faults > old(k.faults) || IsDirectory(k.c, SimpleBackup(p))
    ensures ok && !left ==> k.w.left == old(k.w).left
    ensures ok && old(k.w).names[SimpleBackup(p)] != n ==>
              exists w', tmp :: w' in k.trace && Overtook(k.c, old(k.w), w', n, tmp, SimpleBackup(p))
  {
    hide PointOK, ConfigOK, Tied, Went, KindsOK, Steady, Frame, IsTemp, Dir, SimpleBackup, Makeable, Alias, Unreplaced, SimpleFree, BackedUp, BackupName, Overtook, MoveW;
    ghost var w0 := k.w;
    ok, left := false, false;
    FrameRefl(k.c, w0, PENDING_BACKUP, Backing(k.c, p), w0.next);
    OldMakeable(k.c, k.w, p, n);
    var r, tmp := TempMake(k, p, PENDING_BACKUP, MakeLink(p, n), Backing(k.c, p), k.w.next);
    if r != Ok {
      return;
    }
    AliasMade(k.c, w0, tmp, p, n);
    k.Enter(TakenW(k.w, SimpleBackup(p)));
    ghost var w1 := k.w;
    ok, left := BackupOver(k, tmp, p, n);
    ApartTrans(k.c, w0, w1, k.w, p);
    if ok && w0.names[SimpleBackup(p)] != n {
      Overtaking(k.c, w0, p, n, tmp);
      assert Overtook(k.c, w0, MoveW(k.c, w1, tmp, SimpleBackup(p)), n, tmp, SimpleBackup(p));
    }
  }

  lemma Overtaking(c: Config, w: World, p: Path, n: Ino, tmp: Path)
    requires |w.slots| == PENDING_SLOTS && IsTemp(tmp) && Dir(tmp) == Dir(p) && SimpleBackup(p) in w.names && w.names[SimpleBackup(p)] != n
    ensures
      var w1 := TakenW(ArmedW(c, w, tmp, MakeLink(p, n), PENDING_BACKUP), SimpleBackup(p));
      tmp in w1.names && Overtook(c, w, MoveW(c, w1, tmp, SimpleBackup(p)), n, tmp, SimpleBackup(p))
  {
    hide Dir, IsTemp, SimpleBackup;
    BackupFacts(p, SimpleBackup(p));
  }

  lemma AliasFacts(c: Config, w: World, tmp: Path, p: Path, n: Ino)
    requires Alias(c, w, tmp, p, n)
    ensures |w.slots| == PENDING_SLOTS && w.slots[PENDING_BACKUP] == Armed(tmp, n) && IsTemp(tmp) && MaySimple(c.settings)
    ensures p in c.operands && p in w.names && w.names[p] == n && SimpleBackup(p) in w.taken && tmp in w.names
  {
    hide Guarded, Givable, Unprotected, IsTemp;
  }

  lemma RemovedSame(c: Config, w: World, s: nat)
    requires s < |w.slots| && w.slots[s].Armed?
    ensures
      var w' := RemovedW(c, w, s);
      w'.next == w.next && w'.open == w.open && w'.blocked == w.blocked && w'.guard == w.guard && w'.files == w.files && w'.left == w.left
      && w'.committed == w.committed && w'.swapped == w.swapped
    ensures
      var w' := KeptW(w, s);
      w'.next == w.next && w'.open == w.open && w'.blocked == w.blocked && w'.guard == w.guard && w'.files == w.files && w'.left != {}
      && w'.committed == w.committed && w'.swapped == w.swapped
  {
    hide Dir;
    assert w.slots[s].path in KeptW(w, s).left;
  }

  lemma MovedSameHere(c: Config, w: World, s: Path, t: Path)
    requires s in w.names
    ensures
      var w' := MoveW(c, w, s, t);
      && w'.next == w.next && w'.open == w.open && w'.blocked == w.blocked && w'.guard == w.guard && w'.files == w.files
      && w'.left == w.left && w'.taken == w.taken && w'.slots == w.slots && w'.committed == w.committed && w'.swapped == w.swapped
  {}

  /** What is left once the temporary name was removed, or not. */
  lemma AliasDone(c: Config, w: World, w1: World, w': World, tmp: Path, p: Path, n: Ino, ok: bool, gone: bool)
    requires ConfigOK(c) && PointOK(c, w) && Steady(c, w) && Alias(c, w, tmp, p, n)
    requires w1 == if ok then MoveW(c, w, tmp, SimpleBackup(p)) else w
    requires |w1.slots| == PENDING_SLOTS && w' == if gone then RemovedW(c, w1, PENDING_BACKUP) else KeptW(w1, PENDING_BACKUP)
    ensures Apart(c, w, w', p) && |w'.slots| == PENDING_SLOTS && w'.slots[PENDING_BACKUP] == Clear
    ensures ok ==> BackedUp(c, w', p, SimpleBackup(p), n)
    ensures if gone then w'.left == w.left else w'.left != {}
  {
    hide ConfigOK, PointOK, Classified, SlotsOK, NoPlaceholder, SlotsBut, Removable, Frame, IsTemp, Dir, Unprotected, SimpleBackup, Within, Guarded;
    hide RemovedW, KeptW, MoveW, Outside, Numberable, Alias, BackupName;
    PointParts(c, w);
    AliasFacts(c, w, tmp, p, n);
    AliasMoved(c, w, tmp, p, n);
    AliasMoveFrame(c, w, tmp, p, n);
    SimpleName(c, p);
    RemovedSame(c, w1, PENDING_BACKUP);
    MovedSameHere(c, w, tmp, SimpleBackup(p));
    TempMine(Backing(c, p), tmp);
    FrameRefl(c, w, PENDING_BACKUP, Backing(c, p), w.next);
    RemovedFrame(c, w1, PENDING_BACKUP, Backing(c, p), w.next);
    KeptFrame(c, w1, PENDING_BACKUP, Backing(c, p), w.next);
    FrameTrans(c, w, w1, w', PENDING_BACKUP, Backing(c, p), w.next);
    OperandFacts(c, p);
    BackupFacts(p, SimpleBackup(p));
    AliasGone(c, w1, tmp, n, gone, p);
    if ok { AliasGone(c, w1, tmp, n, gone, SimpleBackup(p)); }
  }

  method BackupOver(k: Machine, tmp: Path, p: Path, n: Ino) returns (ok: bool, left: bool)
    requires k.Valid() && Steady(k.c, k.w) && Alias(k.c, k.w, tmp, p, n)
    modifies k
    ensures k.Valid() && old(k.trace) <= k.trace && old(k.faults) <= k.faults
    ensures Steady(k.c, k.w) && Apart(k.c, old(k.w), k.w, p) && |k.w.slots| == PENDING_SLOTS
    ensures ok ==> BackedUp(k.c, k.w, p, SimpleBackup(p), n)
    ensures k.w.slots[PENDING_BACKUP] == Clear
    ensures left ==> k.w.left != {} && k.faults > old(k.faults)
    ensures !ok ==> k.faults > old(k.faults) || IsDirectory(k.c, SimpleBackup(p))
    ensures ok && !left ==> k.w.left == old(k.w).left
    ensures ok ==> MoveW(k.c, old(k.w), tmp, SimpleBackup(p)) in k.trace
  {
    hide ConfigOK, PointOK, Tied, Went, KindsOK, Classified, SlotsOK, NoPlaceholder, SlotsBut, Removable, IsTemp, Dir, Unprotected, SimpleBackup;
    hide Apart, BackedUp, RemovedW, KeptW, MoveW, Guarded;
    ghost var w := k.w;
    PointParts(k.c, w);
    AliasPoint(k.c, w, tmp, p, n);
    AliasRemovable(k.c, w, tmp, p, n);
    AliasMoved(k.c, w, tmp, p, n);
    BackupFacts(p, SimpleBackup(p));
    ok := k.Rename(tmp, SimpleBackup(p));
    ghost var w1, at := k.w, |k.trace| - 1;
    assert k.trace[at] == w1;
    var gone := PendingRemove(k, PENDING_BACKUP);
    assert k.trace[at] == w1;
    left := !gone;
    AliasDone(k.c, w, w1, k.w, tmp, p, n, ok, gone);
  }

  lemma PointParts(c: Config, w: World)
    requires PointOK(c, w)
    ensures WellFormed(c, w) && HistoryOK(c, w) && CrashOK(c, w) && |w.slots| == PENDING_SLOTS
  {}

  /** Removing the temporary name leaves every other. */
  lemma AliasGone(c: Config, w: World, tmp: Path, n: Ino, gone: bool, q: Path)
    requires |w.slots| == PENDING_SLOTS && w.slots[PENDING_BACKUP] == Armed(tmp, n) && q != tmp && q in w.names
    ensures
      var w' := if gone then RemovedW(c, w, PENDING_BACKUP) else KeptW(w, PENDING_BACKUP);
      q in w'.names && w'.names[q] == w.names[q] && w'.taken == w.taken && w'.slots == w.slots[PENDING_BACKUP := Clear]
  {
    hide Dir;
  }

  /** A backup of p cannot be made: p is no regular file, or a directory has the name
      of the backup. */
  predicate NoBackupFor(c: Config, w: World, p: Path) {
    BackupOn(c.settings) && p in w.names &&
      (Irregular(c, p) || (MaySimple(c.settings) && IsDirectory(c, SimpleBackup(p))))
  }

  datatype Outcome = NotNeeded | Made(name: Path, held: Ino, left: bool) | Refused

  /** backup_make: before p is replaced. Which number comes first, and whether
      numbered backups exist, is for the cache of numbers to say. */
  method BackupMake(k: Machine, p: Path) returns (r: Outcome)
    requires k.Valid() && Steady(k.c, k.w) && p in k.c.operands && k.c.settings.force
    requires |k.w.slots| == PENDING_SLOTS && k.w.slots[PENDING_BACKUP] == Clear && Unreplaced(k.c, k.w, p) && (p in k.w.names ==> SimpleFree(k.c, k.w, p))
    modifies k
    ensures k.Valid() && old(k.trace) <= k.trace && old(k.faults) <= k.faults
    ensures Steady(k.c, k.w) && Apart(k.c, old(k.w), k.w, p) && |k.w.slots| == PENDING_SLOTS
    ensures r == NotNeeded ==> k.w == old(k.w) && (BackupOn(k.c.settings) ==> p !in k.w.names)
    ensures p !in old(k.w).names ==> k.w == old(k.w)
    ensures r.Made? ==> BackupOn(k.c.settings) && BackedUp(k.c, k.w, p, r.name, r.held) && p in old(k.w).names && r.held == old(k.w).names[p]
    ensures r.Made? && k.c.settings.control == Simple ==> r.name == SimpleBackup(p)
    ensures r.Made? && k.c.settings.control == Numbered ==> IsNumbered(p, r.name)
    ensures r == Refused ==> k.w.slots[PENDING_BACKUP] == Clear
    ensures r == Refused ==> k.faults > old(k.faults) || NoBackupFor(k.c, old(k.w), p)
    ensures r.Made? ==> IsRegular(k.w, r.held)
    ensures r.Made? && r.left ==> k.w.left != {} && k.faults > old(k.faults)
    ensures r.Made? && !r.left ==> k.w.left == old(k.w).left
  {
    hide PointOK, ConfigOK, Tied, Went, KindsOK, Steady, Frame, IsTemp, Dir, BackedUp, Unreplaced, SimpleFree, SimpleBackup;
    FrameRefl(k.c, k.w, PENDING_BACKUP, Backing(k.c, p), k.w.next);
    if k.c.settings.control == NoBackup {
      return NotNeeded;
    }
    var st, n := k.Look(p);
    if st != Ok {
      return if st == Missing then NotNeeded else Refused;
    }
    if n !in k.w.files || k.w.files[n].kind != Regular {
      PointNames(k.c, k.w, p);
      KindsAt(k.c, k.w, p);
      return Refused;
    }
    var existing: bool := *;
    if k.c.settings.control != Simple {
      var listed := k.Works();
      if !listed {
        return Refused;
      }
    }
    if k.c.settings.control == Simple || (k.c.settings.control == Existing && !existing) {
      var ok, left := BackupSimple(k, p, n);
      r := if ok then Made(SimpleBackup(p), n, left) else Refused;
    } else {
      var first: string := *;
      if !Canonical(first) {
        first := "1";
      }
      var ok, b, number := BackupNumbered(k, p, n, first);
      r := if ok then Made(b, n, false) else Refused;
    }
  }
}
