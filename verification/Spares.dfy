/** The names old files were given by an exchange: removed once the directory is
    flushed, kept and reported if that failed. */
module Spares {
  import opened Names
  import opened Spec
  import opened World
  import opened Order
  import opened Steps
  import opened Coherence
  import opened Kernel
  import opened Frames
  import opened Pending
  import opened Place
  import opened Commit
  import opened Backup
  import opened Flush
  import opened Replace
  import opened Build
  import opened Naming
  import opened Stable
  import opened Phases
  import opened Batch
  import opened Sync
  import opened NameBatch

  lemma NoSpareOver(c: Config, w: World, op: Op, x: nat, from: nat, j: nat, qu: Queue)
    requires HoldsAt(c, w, op, x, from, j, Shut(qu)) && op.spare == None
    ensures HoldsAt(c, w, op, x, from, j, Over(qu))
  {
    hide Queued, Seated, Live, SpareHeld;
  }

  lemma SpareFacts(c: Config, w: World, op: Op, x: nat, from: nat, j: nat, qu: Queue)
    requires PointOK(c, w) && HoldsAt(c, w, op, x, from, j, Shut(qu)) && op.spare.Some?
    ensures j < BATCH && |w.slots| == PENDING_SLOTS && w.slots[j].Armed? && w.slots[j].path == op.spare.value && IsTemp(op.spare.value)
    ensures SpareHeld(w, op.path, op.spare.value) && op.fd == None && (op.leftover ==> w.left != {})
    ensures Id(c, op.spare.value) == Id(c, op.path)
  {
    hide WellFormed, SignalOK, PublishOK, CrashOK, FdsOK, BackupsOK, Unflushed, IsTemp, Seated, Live, Dir, Queued;
  }

  /** What p was exchanged with is not all that keeps the old file. */
  ghost predicate SpareSafe(c: Config, w: World, p: Path) {
    Guarded(c) && c.flushes(Id(c, p)) ==> NoSwapAt(w, p)
  }

  lemma SpareFlushed(c: Config, w: World, op: Op, x: nat, from: nat, j: nat, qu: Queue)
    requires HoldsAt(c, w, op, x, from, j, Shut(qu)) && op.spare.Some? && qu.dirs == [] && Dir(op.path) !in qu.suspect
    ensures SpareSafe(c, w, op.path)
  {
    hide IsTemp, Guarded, NoSwapAt, Dir, SettledAt, Seated, Live, HoldsSlot;
  }

  /** The old file is kept by its backup from now on. */
  lemma SpareToGo(c: Config, w: World, p: Path, s: Path)
    requires PointOK(c, w) && w.blocked && SpareSafe(c, w, p) && SpareHeld(w, p, s)
    ensures PointOK(c, UnspareW(w, s)) && (Steady(c, w) ==> Steady(c, UnspareW(w, s)))
  {
    hide WellFormed, SignalOK, PublishOK, HistoryOK, FdsOK, Steady, Guarded, Settled, SwapOK, Dir, GuardNames;
    if Guarded(c) {
      forall x | x in w.guard && w.guard[x].Swapped? && w.guard[x].spare == s ensures !c.flushes(Id(c, w.guard[x].path)) {
        assert GuardAt(c, w, x);
      }
    }
    UnsparePoint(c, w, s);
  }

  /** The spare then guards nothing. */
  lemma SpareUnprotected(c: Config, w: World, s: Path)
    requires ConfigOK(c) && CrashOK(c, UnspareW(w, s)) && IsTemp(s)
    ensures Guarded(c) ==> Unprotected(UnspareW(w, s), s)
  {
    hide GuardAt, GuardUses, IsTemp, Guarded;
    var w' := UnspareW(w, s);
    if Guarded(c) {
      forall x | x in w'.guard ensures !GuardUses(w'.guard[x], s) {
        if GuardUses(w'.guard[x], s) { GuardTemps(c, w', x, s); }
      }
    }
  }

  lemma SpareRemovable(c: Config, w: World, j: nat, s: Path)
    requires ConfigOK(c) && PointOK(c, UnspareW(w, s)) && SlotsOK(w) && IsTemp(s) && j < |w.slots| && w.slots[j].Armed? && w.slots[j].path == s
    ensures Removable(c, UnspareW(w, s), j)
  {
    hide WellFormed, SignalOK, PublishOK, HistoryOK, CrashOK, FdsOK, IsTemp, Unprotected, Guarded;
    PointParts(c, UnspareW(w, s));
    TempNotTaken(c, UnspareW(w, s), s);
    SpareUnprotected(c, w, s);
  }

  /** No operand's names have to do with it. */
  lemma UnspareFrame(c: Config, w: World, s: Path, j: nat, z: Zone, own: Ino)
    ensures Frame(c, w, UnspareW(w, s), j, z, own)
  {
    hide NameFrame, Within, FileFrame, BindFrame, Guarded, Unspared, GuardMoves;
    var w' := UnspareW(w, s);
    SameNameFrame(c, w, w', z) by { SameLends(w, w'); }
    SameFileBind(w, w', z, own);
    forall x | x in w.guard ensures GuardMoves(c, z.path, w.guard[x], w'.guard[x]) { UnsparedMoves(c, z.path, w.guard[x], s); }
  }

  lemma UnsparedMoves(c: Config, p: Path, g: Guard, s: Path)
    ensures GuardMoves(c, p, g, Unspared(g, s))
  {
    hide IsTemp, BackupName;
  }

  /** The operand itself is as it was. */
  lemma DropHolds(c: Config, w: World, w': World, op: Op, x: nat, from: nat, j: nat, qu: Queue, leftover: bool)
    requires ConfigOK(c) && HoldsAt(c, w, op, x, from, j, Shut(qu))
    requires Frame(c, w, w', j, Own(Nowhere(c)), w.next) && w'.files == w.files && w'.committed == w.committed
    requires |w'.slots| == PENDING_SLOTS && w'.slots[j] == Clear && (leftover ==> w'.left != {}) && (op.leftover ==> leftover)
    ensures HoldsAt(c, w', op.(spare := None, leftover := leftover), x, from, j, Over(qu))
  {
    hide IsTemp, Guarded, Dir, SettledAt, Frame, Nowhere, FileDone, Live, Outside, NoSwapAt;
    if !op.fail {
      NowhereOutside(c, op.path);
      NameSame(c, w, w', j, Own(Nowhere(c)), w.next, op.path);
    }
  }

  /** The spare is removed, or kept and reported. */
  method DropSpare(k: Machine, j: nat, ghost p: Path, s: Path, keep: bool) returns (gone: bool)
    requires k.Valid() && Steady(k.c, k.w) && k.w.blocked && j < BATCH && |k.w.slots| == PENDING_SLOTS
    requires k.w.slots[j].Armed? && k.w.slots[j].path == s && IsTemp(s) && SpareHeld(k.w, p, s) && Id(k.c, s) == Id(k.c, p)
    requires if keep then Unflushed(k.w, Id(k.c, p)) else SpareSafe(k.c, k.w, p)
    modifies k
    ensures !gone ==> k.faults > old(k.faults)
    ensures k.Valid() && old(k.trace) <= k.trace && old(k.faults) <= k.faults && Steady(k.c, k.w)
    ensures Frame(k.c, old(k.w), k.w, j, Own(Nowhere(k.c)), old(k.w).next)
    ensures |k.w.slots| == PENDING_SLOTS && k.w.slots[j] == Clear && k.w.slots[PENDING_BACKUP] == old(k.w).slots[PENDING_BACKUP]
    ensures k.w.open == old(k.w).open && k.w.blocked && k.w.files == old(k.w).files && k.w.committed == old(k.w).committed
    ensures if !keep && gone then k.w.left == old(k.w).left else k.w.left != {}
  {
    hide PointOK, ConfigOK, Tied, Went, KindsOK, Frame, IsTemp, Dir, Classified, SlotsOK, NoPlaceholder, SlotsBut, Removable, Guarded, UnspareW, SpareSafe, Outside, Within, Nowhere, Unflushed;
    ghost var w := k.w;
    ghost var z := Own(Nowhere(k.c));
    gone := true;
    TempMine(z, s);
    SteadySlots(k.c, w, j);
    if keep {
      SpareLeft(k.c, w, j, s);
      SpareLeftFrame(k.c, w, j, s, z, w.next);
      k.Enter(LeftW(k.w, s));
      k.ClearSlot(j);
    } else {
      SpareToGo(k.c, w, p, s);
      SpareRemovable(k.c, w, j, s);
      UnspareSame(w, s);
      UnspareFrame(k.c, w, s, j, z, w.next);
      k.Enter(UnspareW(k.w, s));
      ghost var w1 := k.w;
      gone := RemoveSpare(k, j, z, w.next);
      FrameTrans(k.c, w, w1, k.w, j, z, w.next);
    }
  }

  lemma UnspareSame(w: World, s: Path)
    ensures UnspareW(w, s).(guard := w.guard) == w
  {}

  /** A spare that is kept is reported as left behind. */
  lemma SpareLeft(c: Config, w: World, j: nat, s: Path)
    requires PointOK(c, w) && Steady(c, w) && j < BATCH && |w.slots| == PENDING_SLOTS && w.slots[j].Armed? && w.slots[j].path == s
    requires SpareKept(c, w, s)
    ensures PointOK(c, LeftW(w, s)) && PointOK(c, ClearW(LeftW(w, s), j)) && Steady(c, ClearW(LeftW(w, s), j))
  {
    hide PointOK, SpareKept, Classified, SlotsOK, NoPlaceholder, SlotsBut;
    SteadySlots(c, w, j);
    KeptPoint(c, w, j);
    LeftSlots(c, w, j, s);
  }

  lemma LeftSlots(c: Config, w: World, j: nat, s: Path)
    requires j < |w.slots| && SlotsBut(w, j) && NoPlaceholder(w)
    ensures SlotsOK(ClearW(LeftW(w, s), j)) && NoPlaceholder(ClearW(LeftW(w, s), j))
  {
    hide SlotsBut, SlotsOK;
    ClearedSlots(w, ClearW(LeftW(w, s), j), j);
  }

  lemma SpareLeftFrame(c: Config, w: World, j: nat, s: Path, z: Zone, own: Ino)
    requires j < |w.slots| && Within(z, s)
    ensures Frame(c, w, ClearW(LeftW(w, s), j), j, z, own)
  {
    hide Frame, NameFrame, Outside, FileFrame, BindFrame, Within, IsTemp;
    var w' := ClearW(LeftW(w, s), j);
    SameNameFrame(c, w, w', z);
    SameFileBind(w, w', z, own);
    FrameFrom(c, w, w', j, z, own);
  }

  method RemoveSpare(k: Machine, j: nat, ghost z: Zone, ghost own: Ino) returns (gone: bool)
    requires k.Valid() && Steady(k.c, k.w) && j < BATCH && |k.w.slots| == PENDING_SLOTS && Removable(k.c, k.w, j)
    requires k.w.slots[j].Armed? && IsTemp(k.w.slots[j].path)
    modifies k
    ensures !gone ==> k.faults > old(k.faults)
    ensures k.Valid() && old(k.trace) <= k.trace && old(k.faults) <= k.faults && Steady(k.c, k.w)
    ensures Frame(k.c, old(k.w), k.w, j, z, own)
    ensures |k.w.slots| == PENDING_SLOTS && k.w.slots == old(k.w).slots[j := Clear]
    ensures k.w.open == old(k.w).open && k.w.blocked == old(k.w).blocked
    ensures k.w.files == old(k.w).files && k.w.committed == old(k.w).committed
    ensures if gone then k.w.left == old(k.w).left else k.w.left != {}
  {
    hide PointOK, ConfigOK, Tied, Went, KindsOK, Frame, Outside, Within, Removable, Classified, SlotsOK, NoPlaceholder, SlotsBut, IsTemp;
    ghost var w := k.w;
    SteadySlots(k.c, w, j);
    gone := PendingRemove(k, j);
    SpareGoneFrame(k.c, w, j, z, own);
  }

  lemma SpareGoneFrame(c: Config, w: World, j: nat, z: Zone, own: Ino)
    requires j < |w.slots| && w.slots[j].Armed? && IsTemp(w.slots[j].path)
    ensures Frame(c, w, RemovedW(c, w, j), j, z, own) && Frame(c, w, KeptW(w, j), j, z, own)
  {
    hide Frame, Outside, Within, IsTemp;
    TempMine(z, w.slots[j].path);
    MineFacts(z, w.slots[j].path);
    RemovedFrame(c, w, j, z, own);
    KeptFrame(c, w, j, z, own);
  }

  /** That a directory could not be examined is about no operand. */
  lemma UnstatStay(c: Config, w: World, ops: seq<Op>, pr: Progress, from: nat, i: nat, before: Phase, after: Phase, tally: Tally, id: DirId)
    requires ConfigOK(c) && PointOK(c, w) && InBatch(c, w, ops, pr, from, i, before, after, tally)
    ensures InBatch(c, UnstatW(w, id), ops, pr, from, i, before, after, tally)
  {
    hide PointOK, InBatch, Frame, Nowhere, Listed, Known, Steady;
    var w' := UnstatW(w, id);
    InBatchFacts(c, w, ops, pr, from, i, before, after, tally);
    UnstatFrame(c, w, id, PENDING_BACKUP, Own(Nowhere(c)), w.next);
    RefusePoint(c, w, w') by { assert RecordKept(w, w'); }
    BatchStay(c, w, w', ops, pr, from, i, before, after, tally);
  }

  lemma UnstatFrame(c: Config, w: World, id: DirId, slot: nat, z: Zone, own: Ino)
    ensures Frame(c, w, UnstatW(w, id), slot, z, own)
  {
    hide NameFrame, Within, FileFrame, BindFrame, GuardFrame;
    var w' := UnstatW(w, id);
    SameNameFrame(c, w, w', z) by { SameLends(w, w'); }
    SameFileBind(w, w', z, own);
    GuardFrameSame(c, w, w', z.path);
  }

  method DropOne(fs: FlushSet, ops: seq<Op>, i: nat, ghost pr: Progress, ghost ids: seq<DirId>) returns (ops': seq<Op>)
    requires fs.Valid() && fs.dirs == [] && i < |ops| && ops[i].spare.Some? && fs.k.w.blocked && fs.OnRecord(ids)
    requires InBatch(fs.k.c, fs.k.w, ops, pr, pr.done + |ops|, i, Shut(QueueOf(fs)), Over(QueueOf(fs)), Tally(fs.failed, ids))
    modifies fs.k
    ensures AllOk(ops) ==> AllOk(ops') || fs.k.faults > old(fs.k.faults)
    ensures AllOk(ops') ==> AllOk(ops)
    ensures fs.Valid() && old(fs.k.trace) <= fs.k.trace && old(fs.k.faults) <= fs.k.faults && |ops'| == |ops| && fs.k.w.blocked && ops' == ops[i := ops'[i]]
    ensures InBatch(fs.k.c, fs.k.w, ops', pr, pr.done + |ops|, i + 1, Shut(QueueOf(fs)), Over(QueueOf(fs)), Tally(fs.failed, ids))
  {
    hide PointOK, ConfigOK, Tied, Went, KindsOK, Steady, Frame, InBatch, HoldsAt, Beside, Unrelated, Nowhere, Dir, Guarded, SpareSafe, SpareHeld, Listed, Known, OperandsKept, IsTemp, Unflushed, Gave;
    var k := fs.k;
    ghost var qu, from, x, tally := QueueOf(fs), pr.done + |ops|, pr.done + i, Tally(fs.failed, ids);
    ghost var w0 := k.w;
    InBatchFacts(k.c, w0, ops, pr, from, i, Shut(qu), Over(qu), tally);
    UnstatStay(k.c, w0, ops, pr, from, i, Shut(qu), Over(qu), tally, k.c.ident(Dir(ops[i].path)));
    var keep, works := fs.Failed(Dir(ops[i].path), ids);
    ghost var w := k.w;
    InBatchFacts(k.c, w, ops, pr, from, i, Shut(qu), Over(qu), tally);
    SpareFacts(k.c, w, ops[i], x, from, i, qu);
    BatchLimit(k.c);
    if !keep { SpareFlushed(k.c, w, ops[i], x, from, i, qu); }
    var gone := DropSpare(k, i, ops[i].path, ops[i].spare.value, keep);
    ghost var z := Own(Nowhere(k.c));
    LeftKept(k.c, w, k.w, i, z, w.next);
    var op := ops[i].(spare := None, leftover := ops[i].leftover || !gone);
    DropHolds(k.c, w, k.w, ops[i], x, from, i, qu, op.leftover);
    NowhereInBatch(k.c, w, ops, pr, from, i, Shut(qu), Over(qu), tally);
    NextIsFree(k.c, w, ops, pr, from, i, Shut(qu), Over(qu), tally);
    NowhereZone(k.c);
    NowhereKept(k.c, w, k.w, i, z, w.next, pr.limit);
    GaveOwn(k.c, w, k.w, i, z.path, w.next);
    BatchStepBy(k.c, w, k.w, ops, op, w.next, pr, from, i, Shut(qu), Over(qu), tally, z, |k.c.operands|);
    AllOkUpdate(ops, i, op);
    ops' := ops[i := op];
  }

  lemma NextIsFree(c: Config, w: World, ops: seq<Op>, pr: Progress, from: nat, i: nat, before: Phase, after: Phase, tally: Tally)
    requires PointOK(c, w) && InBatch(c, w, ops, pr, from, i, before, after, tally)
    ensures forall j :: 0 <= j < |ops| ==> ops[j].fail || ops[j].ino != w.next
  {
    hide PointOK, InBatch, HoldsAt, WellFormed, CrashOK, HistoryOK;
    PointParts(c, w);
    forall j | 0 <= j < |ops| ensures ops[j].fail || ops[j].ino != w.next {
      InBatchHolds(c, w, ops, pr, from, i, before, after, tally, j);
      HoldsAtRange(c, w, ops[j], pr.done + j, from, j, if j < i then after else before);
      if !ops[j].fail { InoBelow(c, w, ops[j].ino); }
    }
  }

  /* ----- the end of a batch ----- */

  lemma OverClear(c: Config, w: World, ops: seq<Op>, pr: Progress, from: nat, qu: Queue, tally: Tally)
    requires InBatch(c, w, ops, pr, from, |ops|, Raw, Over(qu), tally)
    ensures IdleFrom(w, 0) && w.open == {}
  {
    hide Between, Listed, Blamed, HoldsAt, Fated;
    forall j | 0 <= j < |ops| ensures j < |w.slots| && w.slots[j] == Clear && ops[j].fd == None {
      assert HoldsAt(c, w, ops[j], pr.done + j, from, j, Over(qu));
      OverFacts(c, w, ops[j], pr.done + j, from, j, qu);
    }
    assert forall n :: n !in w.open;
  }

  lemma OverFacts(c: Config, w: World, op: Op, x: nat, from: nat, j: nat, qu: Queue)
    requires HoldsAt(c, w, op, x, from, j, Over(qu))
    ensures j < |w.slots| && w.slots[j] == Clear && op.fd == None
  {
    hide Queued, Seated, Live;
  }

  lemma IdleFree(c: Config, w: World)
    requires IdleFrom(w, 0)
    ensures ArmedFree(c, w.slots, w.guard) && NoSpareArmed(w.slots, w.files)
  {}

  /** drop_spares: and signals are let through again. */
  method DropSpares(fs: FlushSet, ops: seq<Op>, held: bool, mask: bool, ghost pr: Progress, ghost orig: bool, ghost ids: seq<DirId>) returns (ops': seq<Op>)
    requires fs.Valid() && fs.dirs == [] && MaskOK(fs.k.w, held, mask, orig) && SparesHeld(ops, |ops|, held) && fs.OnRecord(ids)
    requires InBatch(fs.k.c, fs.k.w, ops, pr, pr.done + |ops|, |ops|, Raw, Shut(QueueOf(fs)), Tally(fs.failed, ids))
    modifies fs.k
    ensures AllOk(ops) ==> AllOk(ops') || fs.k.faults > old(fs.k.faults)
    ensures AllOk(ops') ==> AllOk(ops)
    ensures fs.Valid() && old(fs.k.trace) <= fs.k.trace && old(fs.k.faults) <= fs.k.faults && |ops'| == |ops| && fs.k.w.blocked == orig
    ensures InBatch(fs.k.c, fs.k.w, ops', pr, pr.done + |ops|, |ops|, Raw, Over(QueueOf(fs)), Tally(fs.failed, ids))
  {
    hide PointOK, ConfigOK, Tied, Went, KindsOK, Steady, InBatch, HoldsAt, LetThrough, IdleFrom, Listed, Known;
    var k := fs.k;
    ghost var qu, from := QueueOf(fs), pr.done + |ops|;
    ops' := ops;
    NextPhase(k.c, k.w, ops, pr, from, |ops|, Raw, Shut(qu), Over(qu), Tally(fs.failed, ids));
    var i := 0;
    while i < |ops|
      invariant AllOk(ops) ==> AllOk(ops') || k.faults > old(k.faults)
      invariant AllOk(ops') ==> AllOk(ops)
      invariant 0 <= i <= |ops| == |ops'| && fs.Valid() && old(k.trace) <= k.trace && old(k.faults) <= k.faults && MaskOK(k.w, held, mask, orig)
      invariant forall j :: i <= j < |ops| ==> ops'[j] == ops[j]
      invariant InBatch(k.c, k.w, ops', pr, from, i, Shut(qu), Over(qu), Tally(fs.failed, ids))
    {
      InBatchFacts(k.c, k.w, ops', pr, from, i, Shut(qu), Over(qu), Tally(fs.failed, ids));
      if ops'[i].spare.Some? {
        ops' := DropOne(fs, ops', i, pr, ids);
      } else {
        NoSpareOver(k.c, k.w, ops'[i], pr.done + i, from, i, qu);
        BatchSkip(k.c, k.w, ops', pr, from, i, Shut(qu), Over(qu), Tally(fs.failed, ids));
      }
      i := i + 1;
    }
    LastPhase(k.c, k.w, ops', pr, from, i, Shut(qu), Over(qu), Tally(fs.failed, ids));
    if held {
      ghost var w := k.w;
      ReleaseBatch(k.c, w, ops', pr, from, qu, Tally(fs.failed, ids), mask);
      k.Release(mask);
    }
  }

  lemma ReleaseBatch(c: Config, w: World, ops: seq<Op>, pr: Progress, from: nat, qu: Queue, tally: Tally, b: bool)
    requires ConfigOK(c) && PointOK(c, w) && InBatch(c, w, ops, pr, from, |ops|, Raw, Over(qu), tally)
    ensures LetThrough(c, w)
    ensures InBatch(c, BlockW(w, b), ops, pr, from, |ops|, Raw, Over(qu), tally)
  {
    hide PointOK, InBatch, Classified, NoPlaceholder, SlotsOK, ArmedFree, NoSpareArmed, IdleFrom, Frame, Nowhere, Listed, Known, HoldsAt, HistoryFrame;
    OverClear(c, w, ops, pr, from, qu, tally);
    IdleFree(c, w);
    InBatchFacts(c, w, ops, pr, from, |ops|, Raw, Over(qu), tally);
    BlockSteady(c, w, b);
    SameNotes(w, BlockW(w, b), Own(Nowhere(c)));
    SameFrame(c, w, BlockW(w, b), PENDING_BACKUP, Own(Nowhere(c)), w.next);
    BatchStay(c, w, BlockW(w, b), ops, pr, from, |ops|, Raw, Over(qu), tally);
  }
}
