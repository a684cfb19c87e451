/** Handling one operand leaves the state of every other operand as it was. */
module Stable {
  import opened Names
  import opened Spec
  import opened World
  import opened Order
  import opened Steps
  import opened Frames
  import opened Pending
  import opened Place
  import opened Commit
  import opened Backup
  import opened Build
  import opened Naming

  /** A step for the names z, in slot, with the file own, is not about op. live: the
      operand's own name still matters. */
  ghost predicate Elsewhere(c: Config, w: World, slot: nat, z: Zone, own: Ino, op: Op, j: nat, live: bool) {
    && j != slot && j < BATCH
    && (Guarded(c) ==> op.path != z.path)
    && (op.fail || op.ino != own)
    && (live && !op.fail ==> Outside(z, op.path) && !Numberable(w, z, op.path))
  }

  lemma SlotSame(c: Config, w: World, w': World, slot: nat, z: Zone, own: Ino, j: nat)
    requires Frame(c, w, w', slot, z, own) && j != slot && j < BATCH && |w.slots| == PENDING_SLOTS
    ensures |w'.slots| == PENDING_SLOTS && w'.slots[j] == w.slots[j]
  {}

  lemma FileSame(c: Config, w: World, w': World, slot: nat, z: Zone, own: Ino, n: Ino)
    requires Frame(c, w, w', slot, z, own) && n in w.files && n != own
    ensures n in w'.files && FlushedSince(w.files[n], w'.files[n]) && w.next <= w'.next
    ensures n in w.open ==> n in w'.open
  {
    hide NameFrame, BindFrame, GuardFrame, HistoryFrame;
  }

  lemma NameSame(c: Config, w: World, w': World, slot: nat, z: Zone, own: Ino, q: Path)
    requires Frame(c, w, w', slot, z, own) && Outside(z, q) && !Numberable(w, z, q)
    ensures Keeps(c, w, w', q)
  {
    hide Outside, Numberable, FileFrame, BindFrame, GuardFrame, HistoryFrame;
  }

  lemma SwapKept(c: Config, w: World, w': World, slot: nat, z: Zone, own: Ino, p: Path)
    requires Frame(c, w, w', slot, z, own) && Guarded(c) && p != z.path && NoSwapAt(w, p)
    ensures NoSwapAt(w', p)
  {
    hide NameFrame, FileFrame, BindFrame, HistoryFrame, SwapFrame, Guarded, BackupName, IsTemp;
  }

  /** A file that has no public name gets none. */
  lemma StillNamedOnly(c: Config, w: World, w': World, slot: nat, z: Zone, own: Ino, n: Ino, tmp: Option<Path>)
    requires Frame(c, w, w', slot, z, own) && NamedOnly(w, n, tmp) && n != own && n < w.next
    requires tmp.Some? ==> IsTemp(tmp.value)
    ensures NamedOnly(w', n, tmp)
  {
    hide NameFrame, FileFrame, GuardFrame, HistoryFrame, IsTemp;
    assert !Given(w, z, n);
  }

  lemma FinishedStable(c: Config, w: World, w': World, slot: nat, z: Zone, own: Ino, op: Op, j: nat)
    requires Finished(c, w, op, j) && Frame(c, w, w', slot, z, own) && Steady(c, w') && j != slot && op.ino != own
    ensures Finished(c, w', op, j)
  {
    hide Frame, Steady, IsTemp, Dir, Filled, FinalOwner, FinalMode, Granted, Guarded;
    SlotSame(c, w, w', slot, z, own, j);
    FileSame(c, w, w', slot, z, own, op.ino);
    SlotNames(c, w', j);
    match op.way
    case Plain =>
    case Unnamed => StillNamedOnly(c, w, w', slot, z, own, op.ino, None);
    case Temp =>
      assert ArmedBeyond(w, slot, op.tmp.value);
      FirstKept(c, w, w', slot, z, own, op.tmp.value);
      assert NamedOnly(w, op.ino, op.tmp);
      StillNamedOnly(c, w, w', slot, z, own, op.ino, op.tmp);
  }

  lemma BuiltStable(c: Config, w: World, w': World, slot: nat, z: Zone, own: Ino, op: Op, j: nat, flushed: bool, live: bool)
    requires Built(c, w, op, j, flushed) && Frame(c, w, w', slot, z, own) && Steady(c, w') && Elsewhere(c, w, slot, z, own, op, j, live)
    requires flushed && !op.fail && op.way == Plain ==> live
    ensures Built(c, w', op, j, flushed)
  {
    hide Frame, Steady, IsTemp, Dir, Outside, Numberable, FileDone, Guarded;
    LeftKept(c, w, w', slot, z, own);
    SlotSame(c, w, w', slot, z, own, j);
    if !op.fail {
      FinishedStable(c, w, w', slot, z, own, op, j);
      FileSame(c, w, w', slot, z, own, op.ino);
      if live { NameSame(c, w, w', slot, z, own, op.path); }
    }
  }

  lemma HoldsSlotStable(c: Config, w: World, w': World, slot: nat, z: Zone, own: Ino, op: Op, j: nat)
    requires |w.slots| == PENDING_SLOTS && j < BATCH && HoldsSlot(c, w, op, j) && Frame(c, w, w', slot, z, own)
    requires j != slot
    ensures |w'.slots| == PENDING_SLOTS && HoldsSlot(c, w', op, j)
  {
    hide Frame, IsTemp;
    SlotSame(c, w, w', slot, z, own, j);
    if op.spare.Some? {
      assert ArmedBeyond(w, slot, op.spare.value);
      SpareKeptOn(c, w, w', slot, z, own, op.spare.value);
    }
  }

  lemma SpareKeptOn(c: Config, w: World, w': World, slot: nat, z: Zone, own: Ino, s: Path)
    requires Frame(c, w, w', slot, z, own) && ArmedBeyond(w, slot, s) && s in w.swapped
    ensures s in w'.swapped && w'.swapped[s] == w.swapped[s]
  {
    hide NameFrame, FileFrame, BindFrame, GuardFrame, HistoryFrame, ArmedBeyond;
  }

  /** The file a named operand holds, and while its name is not taken again, where. */
  ghost predicate Seated(c: Config, w: World, op: Op, live: bool) {
    && op.path in c.operands && op.path in w.committed
    && op.ino in w.files && w.files[op.ino].role == Role.Build && w.files[op.ino].synced
    && FileDone(c, w.files[op.ino], Dir(op.path))
    && (live ==> op.path in w.names && w.names[op.path] == op.ino)
  }

  lemma SeatedStable(c: Config, w: World, w': World, slot: nat, z: Zone, own: Ino, op: Op, j: nat, live: bool)
    requires Seated(c, w, op, live) && !op.fail && Frame(c, w, w', slot, z, own) && Elsewhere(c, w, slot, z, own, op, j, live)
    ensures Seated(c, w', op, live) && (live && op.path in w.anchored ==> op.path in w'.anchored)
  {
    hide Frame, IsTemp, Guarded, Outside, Numberable, Dir, Granted, Filled, FinalOwner, FinalMode;
    CommittedKept(c, w, w', slot, z, own);
    FileSame(c, w, w', slot, z, own, op.ino);
    if live { NameSame(c, w, w', slot, z, own, op.path); }
  }

  lemma NamedStable(c: Config, w: World, w': World, slot: nat, z: Zone, own: Ino, op: Op, j: nat, live: bool)
    requires Named(c, w, op, j, live) && Frame(c, w, w', slot, z, own) && Elsewhere(c, w, slot, z, own, op, j, live)
    ensures Named(c, w', op, j, live)
  {
    hide Frame, IsTemp, Guarded, Outside, Numberable, HoldsSlot, FileDone, Dir;
    LeftKept(c, w, w', slot, z, own);
    SlotSame(c, w, w', slot, z, own, j);
    if !op.fail {
      SeatedStable(c, w, w', slot, z, own, op, j, live);
      FileSame(c, w, w', slot, z, own, op.ino);
      HoldsSlotStable(c, w, w', slot, z, own, op, j);
    }
  }

  lemma CommittedKept(c: Config, w: World, w': World, slot: nat, z: Zone, own: Ino)
    requires Frame(c, w, w', slot, z, own)
    ensures w.committed <= w'.committed <= w.committed + {z.path}
  {
    hide NameFrame, FileFrame, BindFrame, GuardFrame, Within;
  }

  /** A named operand whose file is closed; an old file's spare may remain. */
  ghost predicate Closed(c: Config, w: World, op: Op, slot: nat, live: bool) {
    && slot < BATCH && |w.slots| == PENDING_SLOTS && (op.leftover ==> w.left != {})
    && op.fd == None && op.tmp == None
    && (!op.fail ==> Seated(c, w, op, live) && (live ==> op.path in w.anchored))
  }

  lemma ClosedStable(c: Config, w: World, w': World, slot: nat, z: Zone, own: Ino, op: Op, j: nat, live: bool)
    requires Closed(c, w, op, j, live) && Frame(c, w, w', slot, z, own) && Elsewhere(c, w, slot, z, own, op, j, live)
    ensures Closed(c, w', op, j, live)
  {
    hide Frame, IsTemp, Guarded, Outside, Numberable, Seated;
    LeftKept(c, w, w', slot, z, own);
    SlotSame(c, w, w', slot, z, own, j);
    if !op.fail { SeatedStable(c, w, w', slot, z, own, op, j, live); }
    SeatedName(c, w, op, live);
  }

  lemma SeatedName(c: Config, w: World, op: Op, live: bool)
    ensures Seated(c, w, op, live) && live ==> op.path in w.names && w.names[op.path] == op.ino
  {}

  /** An operand of an earlier batch: finished, and on disk with all that was written
      to it. */
  ghost predicate Durable(c: Config, w: World, p: Path, limit: Ino) {
    && p in w.names && w.names[p] < limit && w.names[p] in w.files && w.files[w.names[p]].synced
    && w.files[w.names[p]].role == Role.Build && FileDone(c, w.files[w.names[p]], Dir(p))
    && SettledAt(c, w, p) && p in w.anchored && p in w.committed
  }

  lemma DurableStable(c: Config, w: World, w': World, slot: nat, z: Zone, own: Ino, q: Path, limit: Ino)
    requires Durable(c, w, q, limit) && Frame(c, w, w', slot, z, own) && Outside(z, q) && !Numberable(w, z, q) && own >= limit
    ensures Durable(c, w', q, limit)
  {
    hide Frame, Outside, Numberable, SettledAt, Dir, Granted, Filled, FinalOwner, FinalMode;
    CommittedKept(c, w, w', slot, z, own);
    FileSame(c, w, w', slot, z, own, w.names[q]);
    NameSame(c, w, w', slot, z, own, q);
  }

  /* ----- whose names a step has to do with ----- */

  /** A path no operand has anything to do with. */
  ghost function Nowhere(c: Config): Path { Longer(c.operands, |c.operands|) }

  /** A path longer than the first n operands, and no backup of one. */
  ghost function Longer(operands: seq<Path>, n: nat): (p: Path)
    requires n <= |operands|
    ensures forall x :: 0 <= x < n ==> |operands[x]| < |p|
    ensures p == "" || p[|p| - 1] == '/'
  {
    if n == 0 then "" else
    var q := Longer(operands, n - 1);
    if |operands[n - 1]| < |q| then q else operands[n - 1] + "/"
  }

  /** z is about the operand at i; about none if i is past the last. */
  ghost predicate ZoneAt(c: Config, z: Zone, i: nat) {
    && (z.simple ==> MaySimple(c.settings)) && (z.numbered ==> MayNumber(c.settings))
    && if i < |c.operands| then z.path == c.operands[i] else z == Own(Nowhere(c))
  }

  lemma ZonesApart(c: Config, z: Zone, i: nat, x: nat)
    requires ConfigOK(c) && ZoneAt(c, z, i) && x < |c.operands| && x != i && (Separate(c) || i >= |c.operands|)
    ensures Outside(z, c.operands[x]) && c.operands[x] != z.path
    ensures !(z.numbered && IsNumbered(z.path, c.operands[x]))
  {
    hide IsTemp, Longer, MaySimple, MayNumber, IsNumbered;
    var q := c.operands[x];
    OperandFacts(c, q);
    if i < |c.operands| {
      SeparatePair(c, c.operands[i], q) by { assert Separate(c) && c.operands[x] != c.operands[i]; }
    }
  }

  /** Nor is a backup of another operand any of its business. */
  lemma BackupsApart(c: Config, z: Zone, i: nat, x: nat, b: Path)
    requires ConfigOK(c) && ZoneAt(c, z, i) && x < |c.operands| && x != i && Separate(c) && BackupName(c, c.operands[x], b)
    ensures !Within(z, b)
  {
    hide IsTemp, Longer, IsNumbered, SimpleBackup;
    var q := c.operands[x];
    BackupNameFacts(c, q, b);
    if i < |c.operands| {
      assert c.operands[x] != c.operands[i];
      SeparatePair(c, q, c.operands[i]);
      BackupsDiffer(c, q, c.operands[i], b);
    } else {
      assert b[|b| - 1] == '~' by { BackupEnds(c, q, b); }
    }
  }

  lemma BackupEnds(c: Config, p: Path, b: Path)
    requires BackupName(c, p, b)
    ensures |b| > 0 && b[|b| - 1] == '~'
  {}

  /** What handling the operand at i gives names to is none of the operand at y. */
  lemma OtherZone(c: Config, z: Zone, i: nat, y: nat)
    requires ConfigOK(c) && Guarded(c) && ZoneAt(c, z, i) && y < |c.operands| && i != y
    ensures c.operands[y] != z.path
    ensures MaySimple(c.settings) ==> !BackupName(c, z.path, SimpleBackup(c.operands[y]))
  {
    hide IsTemp, Longer, Stands, Clash, MaySimple, MayNumber, IsNumbered;
    var q := c.operands[y];
    if i < |c.operands| {
      assert z.path in c.operands && q in c.operands;
      assert c.operands[i] == z.path && (if i < y then c.operands[i] != c.operands[y] else c.operands[y] != c.operands[i]);
      SimpleInjective(z.path, q);
    } else if MaySimple(c.settings) && BackupName(c, z.path, SimpleBackup(q)) {
      BackLength(c, z.path, SimpleBackup(q));
    }
  }

  lemma BackLength(c: Config, p: Path, b: Path)
    requires BackupName(c, p, b)
    ensures |b| > |p|
  {}

  lemma UnreplacedStable(c: Config, w: World, w': World, slot: nat, z: Zone, own: Ino, i: nat, y: nat)
    requires ConfigOK(c) && y < |c.operands| && Unreplaced(c, w, c.operands[y]) && Frame(c, w, w', slot, z, own)
    requires ZoneAt(c, z, i) && (BackupOn(c.settings) ==> i != y) && Gave(c, w, w', z.path)
    ensures Unreplaced(c, w', c.operands[y])
  {
    hide Frame, Separate, Guarded, BackupName, SettledAt, Outside, IsNumbered, ZoneAt, OldOf, NoSwapAt;
    var q := c.operands[y];
    if Guarded(c) {
      GuardedOn(c);
      OtherZone(c, z, i, y);
      OperandFacts(c, q);
      SwapKept(c, w, w', slot, z, own, q);
      CommittedKept(c, w, w', slot, z, own);
    }
    if Separate(c) && BackupOn(c.settings) {
      ZonesApart(c, z, i, y);
      NameSame(c, w, w', slot, z, own, q);
      forall b | BackupName(c, q, b) ensures b !in w'.left && b !in w'.taken {
        BackupsApart(c, z, i, y, b);
        HistoryKeeps(c, w, w', slot, z, own, b);
      }
    }
  }

  lemma GuardedOn(c: Config)
    requires Guarded(c)
    ensures BackupOn(c.settings)
  {
    hide Harmless;
  }

  lemma SimpleFreeStable(c: Config, w: World, w': World, slot: nat, z: Zone, own: Ino, i: nat, y: nat)
    requires ConfigOK(c) && y < |c.operands| && SimpleFree(c, w, c.operands[y]) && Frame(c, w, w', slot, z, own)
    requires ZoneAt(c, z, i) && (BackupOn(c.settings) ==> i != y)
    ensures SimpleFree(c, w', c.operands[y])
  {
    hide NameFrame, FileFrame, BindFrame, HistoryFrame, SwapFrame, Guarded, BackupName, ZoneAt, GuardUses, SimpleBackup, IsTemp;
    if Guarded(c) && MaySimple(c.settings) {
      GuardedOn(c);
      OtherZone(c, z, i, y);
      BackupFacts(c.operands[y], SimpleBackup(c.operands[y]));
    }
  }

  /** A step that gives no name to a backup. */
  lemma GaveOwn(c: Config, w: World, w': World, slot: nat, p: Path, own: Ino)
    requires Frame(c, w, w', slot, Own(p), own)
    ensures Gave(c, w, w', p)
  {
    hide Frame, IsTemp, Guarded;
    OwnNoneNew(c, w, w', slot, p, own);
  }

  lemma HistoryKeeps(c: Config, w: World, w': World, slot: nat, z: Zone, own: Ino, b: Path)
    requires Frame(c, w, w', slot, z, own) && !Within(z, b)
    ensures b in w'.left ==> b in w.left
    ensures b in w'.taken ==> b in w.taken
  {
    hide NameFrame, FileFrame, BindFrame, GuardFrame, Within;
  }

  /* ----- the rest of the run ----- */

  /** The operand's turn is to come. */
  ghost predicate Waits(c: Config, w: World, y: nat)
    requires y < |c.operands|
  {
    Unreplaced(c, w, c.operands[y]) && (Stands(c, c.operands[y], y) ==> SimpleFree(c, w, c.operands[y]))
  }

  lemma WaitsStable(c: Config, w: World, w': World, slot: nat, z: Zone, own: Ino, i: nat, y: nat)
    requires ConfigOK(c) && y < |c.operands| && Waits(c, w, y) && Frame(c, w, w', slot, z, own)
    requires ZoneAt(c, z, i) && (BackupOn(c.settings) ==> i != y) && Gave(c, w, w', z.path)
    ensures Waits(c, w', y)
  {
    hide Frame, Unreplaced, SimpleFree, Stands, ZoneAt, Gave;
    UnreplacedStable(c, w, w', slot, z, own, i, y);
    if SimpleFree(c, w, c.operands[y]) { SimpleFreeStable(c, w, w', slot, z, own, i, y); }
  }

  /** Operands before done are durable if all went well and their names were not
      taken again; those from `from` on are as they were. */
  ghost predicate Rest(c: Config, w: World, good: bool, done: nat, from: nat, limit: Ino) {
    && done <= from <= |c.operands|
    && (good ==> forall x :: 0 <= x < done && Live(c, x, from) ==> Durable(c, w, c.operands[x], limit))
    && (forall y :: from <= y < |c.operands| ==> Waits(c, w, y))
  }

  /** The step has nothing to do with operands of earlier batches. */
  ghost predicate Behind(c: Config, w: World, z: Zone, done: nat, from: nat, limit: Ino) {
    forall x :: 0 <= x < done && x < |c.operands| && Live(c, x, from) && Durable(c, w, c.operands[x], limit) ==> Outside(z, c.operands[x])
  }

  lemma NotNumberable(w: World, z: Zone, q: Path)
    requires |w.slots| == PENDING_SLOTS && w.slots[PENDING_BACKUP] == Clear && q in w.names
    ensures !Numberable(w, z, q)
  {}

  lemma RestStable(c: Config, w: World, w': World, slot: nat, z: Zone, own: Ino, good: bool, done: nat, from: nat, limit: Ino, i: nat)
    requires ConfigOK(c) && Rest(c, w, good, done, from, limit) && Frame(c, w, w', slot, z, own) && own >= limit
    requires |w.slots| == PENDING_SLOTS && w.slots[PENDING_BACKUP] == Clear && Gave(c, w, w', z.path)
    requires ZoneAt(c, z, i) && Behind(c, w, z, done, from, limit) && done <= i && (BackupOn(c.settings) ==> !(from <= i < |c.operands|))
    ensures Rest(c, w', good, done, from, limit)
  {
    hide Frame, Outside, Numberable, Durable, Waits, Live, ZoneAt, Gave;
    if good {
      forall x | 0 <= x < done && Live(c, x, from) ensures Durable(c, w', c.operands[x], limit) {
        assert c.operands[x] in w.names by { DurableNamed(c, w, c.operands[x], limit); }
        NotNumberable(w, z, c.operands[x]);
        DurableStable(c, w, w', slot, z, own, c.operands[x], limit);
      }
    }
    forall y | from <= y < |c.operands| ensures Waits(c, w', y) {
      WaitsStable(c, w, w', slot, z, own, i, y);
    }
  }

  lemma DurableNamed(c: Config, w: World, p: Path, limit: Ino)
    requires Durable(c, w, p, limit)
    ensures p in w.names && w.names[p] < limit
  {}

  /* ----- what operands hold before their turn ----- */

  /** Of the operands, only those that may have a name by now have one. */
  ghost predicate Known(c: Config, w: World, from: nat) {
    MaySimple(c.settings) ==>
      forall y :: 0 <= y < |c.operands| && c.operands[y] in w.names ==> Stands(c, c.operands[y], from)
  }

  /** A file that is not this run's. */
  ghost predicate OldAt(w: World, q: Path, limit: Ino) {
    q in w.names && w.names[q] < limit && w.names[q] in w.files && w.files[w.names[q]].role == Foreign
  }

  /** q is the one name of n. */
  ghost predicate Sole(names: map<Path, Ino>, q: Path, n: Ino) {
    q in names && names[q] == n && forall x :: x in names && names[x] == n ==> x == q
  }

  ghost predicate Gone(names: map<Path, Ino>, n: Ino) {
    forall x :: x in names ==> names[x] != n
  }

  /** The operand x had a file with no other name, and its name is the simple backup
      of an earlier operand, which may have a file when its turn comes. */
  ghost predicate Doomed(c: Config, x: nat, y: nat) {
    y < x && Clash(c, x, y) && Sole(c.init, c.operands[x], c.init[c.operands[x]])
  }

  /** The file that the operand x had has no name at all. */
  ghost predicate OldGone(c: Config, w: World, x: nat) {
    x < |c.operands| && c.operands[x] in c.init && Gone(w.names, c.init[c.operands[x]])
  }

  /** Until the turn of y that file has its name, and then none. */
  ghost predicate DoomAt(c: Config, w: World, x: nat, y: nat, from: nat, limit: Ino)
    requires Doomed(c, x, y)
  {
    var n := c.init[c.operands[x]];
    n < limit && if y < from then Gone(w.names, n) else Sole(w.names, c.operands[x], n)
  }

  /** All that may have a name has one; those whose turn is to come have an old
      file, and so has an operand whose name a backup took. */
  ghost predicate Fate(c: Config, w: World, from: nat, limit: Ino) {
    && (forall y :: 0 <= y < |c.operands| && Stands(c, c.operands[y], from) ==> c.operands[y] in w.names)
    && (forall y :: from <= y < |c.operands| && c.operands[y] in w.names ==> OldAt(w, c.operands[y], limit))
    && (forall x: nat, y: nat :: Overwritten(c, x, y) && y < from ==> OldAt(w, c.operands[x], limit))
    && (forall x: nat, y: nat :: Doomed(c, x, y) ==> DoomAt(c, w, x, y, from, limit))
  }

  /** The operands have the names and the old files they had. */
  ghost predicate OperandsKept(c: Config, w: World, w': World, limit: Ino) {
    && (forall x :: 0 <= x < |c.operands| ==>
          && (c.operands[x] in w'.names <==> c.operands[x] in w.names)
          && (OldAt(w, c.operands[x], limit) ==> OldAt(w', c.operands[x], limit)))
    && (forall n: Ino :: n < limit && Gone(w.names, n) ==> Gone(w'.names, n))
    && (forall x, n: Ino :: 0 <= x < |c.operands| && n < limit && Sole(w.names, c.operands[x], n) ==> Sole(w'.names, c.operands[x], n))
  }

  lemma FateKept(c: Config, w: World, w': World, from: nat, limit: Ino)
    requires OperandsKept(c, w, w', limit)
    ensures Known(c, w, from) ==> Known(c, w', from)
    ensures Fate(c, w, from, limit) ==> Fate(c, w', from, limit)
  {
    hide Stands, MaySimple, OldAt, Sole, Gone, Doomed;
    if Fate(c, w, from, limit) {
      forall x: nat, y: nat | Doomed(c, x, y) ensures DoomAt(c, w', x, y, from, limit) {
        assert DoomAt(c, w, x, y, from, limit);
        assert x < |c.operands| && c.operands[x] in c.init by { DoomedFacts(c, x, y); }
      }
    }
  }

  lemma DoomedFacts(c: Config, x: nat, y: nat)
    requires Doomed(c, x, y)
    ensures y < x < |c.operands| && c.operands[x] in c.init && c.operands[x] == SimpleBackup(c.operands[y]) && Stands(c, c.operands[y], y)
  {
    hide Stands, Sole;
  }

  lemma FateLater(c: Config, w: World, from: nat, limit: Ino, limit': Ino)
    requires Fate(c, w, from, limit) && limit <= limit'
    ensures Fate(c, w, from, limit')
  {
    hide Stands, MaySimple, Sole, Gone, Clash;
  }

  lemma KnownLater(c: Config, w: World, from: nat)
    requires Known(c, w, from)
    ensures Known(c, w, from + 1)
  {
    hide Stands;
    if MaySimple(c.settings) {
      forall y | 0 <= y < |c.operands| && c.operands[y] in w.names ensures Stands(c, c.operands[y], from + 1) {
        StandsLater(c, c.operands[y], from, from + 1);
      }
    }
  }

  /** A file that has no name gets none. */
  lemma GoneStable(c: Config, w: World, w': World, slot: nat, z: Zone, own: Ino, n: Ino)
    requires Frame(c, w, w', slot, z, own) && Gone(w.names, n) && n != own && n < w.next
    ensures Gone(w'.names, n)
  {
    hide NameFrame, FileFrame, GuardFrame, HistoryFrame, SwapFrame, IsTemp;
  }

  lemma SoleStable(c: Config, w: World, w': World, slot: nat, z: Zone, own: Ino, q: Path, n: Ino)
    requires Frame(c, w, w', slot, z, own) && Sole(w.names, q, n) && n != own && n < w.next
    requires Outside(z, q) && !Numberable(w, z, q) && z.path != q
    ensures Sole(w'.names, q, n)
  {
    hide NameFrame, FileFrame, GuardFrame, HistoryFrame, SwapFrame, IsTemp, Outside, Numberable, SettledAt;
    NameSame(c, w, w', slot, z, own, q) by { assert Frame(c, w, w', slot, z, own); }
  }

  /** A step about no operand keeps all that they hold. */
  lemma NowhereKept(c: Config, w: World, w': World, slot: nat, z: Zone, own: Ino, limit: Ino)
    requires ConfigOK(c) && Frame(c, w, w', slot, z, own) && ZoneAt(c, z, |c.operands|) && own >= limit && limit <= w.next
    ensures OperandsKept(c, w, w', limit)
  {
    hide Frame, Outside, ZoneAt, Sole, Gone;
    forall n: Ino | n < limit && Gone(w.names, n) ensures Gone(w'.names, n) { GoneStable(c, w, w', slot, z, own, n); }
    forall x, n: Ino | 0 <= x < |c.operands| && n < limit && Sole(w.names, c.operands[x], n) ensures Sole(w'.names, c.operands[x], n) {
      ZonesApart(c, z, |c.operands|, x);
      SoleStable(c, w, w', slot, z, own, c.operands[x], n);
    }
    forall x | 0 <= x < |c.operands|
      ensures c.operands[x] in w'.names <==> c.operands[x] in w.names
      ensures OldAt(w, c.operands[x], limit) ==> OldAt(w', c.operands[x], limit)
    {
      var q := c.operands[x];
      ZonesApart(c, z, |c.operands|, x);
      NameSame(c, w, w', slot, z, own, q);
      if OldAt(w, q, limit) { FileSame(c, w, w', slot, z, own, w.names[q]); }
    }
  }

  /** Naming an operand is not about an earlier one whose name it does not take. */
  lemma NamingOutside(c: Config, w: World, x: nat, y: nat)
    requires ConfigOK(c) && x < y < |c.operands| && Live(c, x, y + 1) && Known(c, w, y)
    ensures Outside(NamingZone(c, w, c.operands[y]), c.operands[x])
  {
    hide IsTemp, Stands, SimpleBackup;
    assert !Hit(c, x, y);
    OperandFacts(c, c.operands[x]);
  }

  /* ----- the operands of a batch ----- */

  /** The operands from done on, each with a file of its own that is not older. */
  ghost predicate Listed(c: Config, ops: seq<Op>, done: nat, limit: Ino) {
    && |ops| <= BATCH && done + |ops| <= |c.operands|
    && (forall j :: 0 <= j < |ops| ==> ops[j].path == c.operands[done + j] && ops[j].ino >= limit)
    && (forall i, j :: 0 <= i < j < |ops| && !ops[i].fail && !ops[j].fail ==> ops[i].ino != ops[j].ino)
  }
}
