/** Flushing and closing the files of a batch, before and after they are named. */
module Sync {
  import opened Names
  import opened Spec
  import opened World
  import opened Order
  import opened Steps
  import opened Coherence
  import opened Kernel
  import opened Frames
  import opened Pending
  import opened Place
  import opened Commit
  import opened Backup
  import opened Flush
  import opened Build
  import opened Naming
  import opened Stable
  import opened Phases
  import opened Batch

  /* ----- fsync of every open file ----- */

  /** Files were flushed, and nothing else was done. */
  ghost predicate OnlySync(w: World, w': World) {
    && w'.(files := w.files, anchored := w.anchored) == w
    && w.anchored <= w'.anchored && w'.files.Keys == w.files.Keys
    && (forall n :: n in w.files ==> FlushedSince(w.files[n], w'.files[n]))
  }

  /** The file was flushed under every name it has. */
  ghost predicate FlushedNow(w: World, n: Ino) {
    n in w.files && w.files[n].synced && forall q :: q in w.names && w.names[q] == n ==> q in w.anchored
  }

  lemma FsyncOnly(w: World, n: Ino)
    requires n in w.files
    ensures OnlySync(w, FsyncW(w, n)) && FlushedNow(FsyncW(w, n), n)
  {}

  lemma OnlySyncTrans(w0: World, w1: World, w2: World)
    requires OnlySync(w0, w1) && OnlySync(w1, w2)
    ensures OnlySync(w0, w2)
  {}

  lemma OnlySyncFlushed(w: World, w': World, n: Ino)
    requires OnlySync(w, w') && FlushedNow(w, n)
    ensures FlushedNow(w', n)
  {}

  lemma OnlySyncFrame(c: Config, w: World, w': World, slot: nat, z: Zone, own: Ino)
    requires OnlySync(w, w')
    ensures Frame(c, w, w', slot, z, own)
  {
    hide NameFrame, Outside, Within;
    SameNameFrame(c, w, w', z);
  }

  predicate IsOpen(op: Op) { !op.fail && op.fd.Some? }

  /** fsync of each open file; bad are the operands it failed for. The worker pool
      returns what this loop does. */
  method SyncFiles(k: Machine, ops: seq<Op>) returns (bad: set<nat>)
    requires k.Valid() && Steady(k.c, k.w)
    requires forall j :: 0 <= j < |ops| && IsOpen(ops[j]) ==> ops[j].fd.value in k.w.open
    modifies k
    ensures |bad| == k.faults - old(k.faults)
    ensures k.Valid() && old(k.trace) <= k.trace && old(k.faults) <= k.faults && Steady(k.c, k.w) && OnlySync(old(k.w), k.w)
    ensures forall j :: j in bad ==> j < |ops| && IsOpen(ops[j])
    ensures forall j :: 0 <= j < |ops| && IsOpen(ops[j]) && j !in bad ==> FlushedNow(k.w, ops[j].fd.value)
  {
    hide PointOK, ConfigOK, Tied, Went, KindsOK, Steady, OnlySync, FlushedNow;
    bad := {};
    var i := 0;
    OnlySyncRefl(k.w);
    while i < |ops|
      invariant 0 <= i <= |ops| && k.Valid() && old(k.trace) <= k.trace && old(k.faults) <= k.faults && Steady(k.c, k.w) && OnlySync(old(k.w), k.w)
      invariant |bad| == k.faults - old(k.faults)
      invariant k.w.open == old(k.w).open
      invariant forall j :: j in bad ==> j < i && IsOpen(ops[j])
      invariant forall j :: 0 <= j < i && IsOpen(ops[j]) && j !in bad ==> FlushedNow(k.w, ops[j].fd.value)
    {
      if IsOpen(ops[i]) {
        ghost var w := k.w;
        var n := ops[i].fd.value;
        var ok := k.Fsync(n);
        if ok {
          FsyncPoint(k.c, w, n);
          FsyncOnly(w, n);
          OnlySyncTrans(old(k.w), w, k.w);
          forall j | 0 <= j < i && IsOpen(ops[j]) && j !in bad ensures FlushedNow(k.w, ops[j].fd.value) {
            OnlySyncFlushed(w, k.w, ops[j].fd.value);
          }
        } else {
          bad := bad + {i};
        }
      }
      i := i + 1;
    }
  }

  lemma OnlySyncRefl(w: World)
    ensures OnlySync(w, w)
  {}

  /* ----- what is known of each operand then ----- */

  function AfterSync(ph: Phase, bad: set<nat>): Phase {
    if ph.Given? then Noted(bad, ph.qu) else Tried(bad)
  }

  lemma HoldsOpen(c: Config, w: World, op: Op, j: nat, ph: Phase, live: bool)
    requires Holds(c, w, op, j, ph, live) && (ph.Raw? || ph.Tried? || ph.Given? || ph.Noted?) && IsOpen(op)
    ensures op.fd == Some(op.ino) && op.ino in w.open
  {
    hide IsTemp, Dir, FileDone, Hidden, HoldsSlot, Guarded, Queued, NamedOnly;
  }

  /** A file that was flushed was flushed under its own name, if that is its own
      still. */
  lemma SyncedHolds(c: Config, w: World, op: Op, j: nat, ph: Phase, bad: set<nat>, live: bool)
    requires Holds(c, w, op, j, ph, live) && (ph.Raw? || ph.Given?) && Steady(c, w)
    requires IsOpen(op) && j !in bad ==> FlushedNow(w, op.fd.value)
    ensures Holds(c, w, op, j, AfterSync(ph, bad), live)
  {
    hide IsTemp, Dir, FileDone, Hidden, Guarded, Queued, NamedOnly, Steady, SpareHeld;
    HoldsSlotRange(c, w, op, j, ph, live);
    SlotNames(c, w, j);
  }

  lemma SyncedHoldsAt(c: Config, w: World, op: Op, x: nat, from: nat, j: nat, ph: Phase, bad: set<nat>)
    requires HoldsAt(c, w, op, x, from, j, ph) && (ph.Raw? || ph.Given?) && Steady(c, w)
    requires IsOpen(op) && j !in bad ==> FlushedNow(w, op.fd.value)
    ensures HoldsAt(c, w, op, x, from, j, AfterSync(ph, bad))
  {
    hide Steady, Built, Named, Queued, Closed, SyncedOp, Live, IsPlain;
    SyncedHolds(c, w, op, j, ph, bad, Matters(c, x, from, ph));
  }

  lemma SyncedSwept(c: Config, w: World, ops: seq<Op>, pr: Progress, from: nat, ph: Phase, bad: set<nat>, tally: Tally)
    requires InBatch(c, w, ops, pr, from, 0, ph, ph, tally) && (ph.Raw? || ph.Given?) && Steady(c, w)
    requires forall j :: 0 <= j < |ops| && IsOpen(ops[j]) && j !in bad ==> FlushedNow(w, ops[j].fd.value)
    ensures InBatch(c, w, ops, pr, from, 0, AfterSync(ph, bad), AfterSync(ph, {}), tally)
  {
    hide HoldsAt, IdleFrom, OpenBy, Blamed, Between, Listed, FlushedNow, Steady, Fated;
    forall j | 0 <= j < |ops| ensures HoldsAt(c, w, ops[j], pr.done + j, from, j, AfterSync(ph, bad)) {
      SyncedHoldsAt(c, w, ops[j], pr.done + j, from, j, ph, bad);
    }
  }

  /* ----- giving up ----- */

  /** The names a failing operand has to do with: a file made under its own name has
      that one, any other a temporary one at most. */
  ghost function FailZone(c: Config, ph: Phase, i: nat): Zone
    requires i < |c.operands|
  {
    Own(if ph.Tried? && IsPlain(c.settings) then c.operands[i] else Nowhere(c))
  }

  ghost function FailIndex(c: Config, ph: Phase, i: nat): nat {
    if ph.Tried? && IsPlain(c.settings) then i else |c.operands|
  }

  lemma FailClear(c: Config, w: World, ops: seq<Op>, pr: Progress, from: nat, i: nat, before: Phase, after: Phase, tally: Tally)
    requires ConfigOK(c) && InBatch(c, w, ops, pr, from, i, before, after, tally) && i < |ops| && !ops[i].fail
    requires before.Tried? ==> from == pr.done && (after.Tried? || after.Flat?)
    ensures
      var z := FailZone(c, before, pr.done + i);
      Unrelated(c, w, z, pr, from, FailIndex(c, before, pr.done + i)) && Beside(c, ops, i, z, pr.done, from, before, after)
  {
    hide Going, Fated, Unrelated, Beside, Nowhere, IsPlain, Listed;
    InBatchFacts(c, w, ops, pr, from, i, before, after, tally);
    NowhereFree(c, w, ops, pr, from, i, before, after, tally);
    if before.Tried? && IsPlain(c.settings) { PlainClear(c, w, ops, pr, i, before, after, tally); }
  }

  lemma PlainName(c: Config, w: World, op: Op, x: nat, from: nat, j: nat, ph: Phase)
    requires Steady(c, w) && HoldsAt(c, w, op, x, from, j, ph) && (ph.Tried? || ph.Flat?) && IsPlain(c.settings) && !op.fail
    ensures op.path in w.names && w.names[op.path] == op.ino
  {
    hide Steady, Holds, IsPlain;
    HoldsName(c, w, op, j, ph, true);
  }

  /** Two plain files cannot have one name. */
  lemma PlainClear(c: Config, w: World, ops: seq<Op>, pr: Progress, i: nat, before: Phase, after: Phase, tally: Tally)
    requires ConfigOK(c) && InBatch(c, w, ops, pr, pr.done, i, before, after, tally) && i < |ops| && !ops[i].fail
    requires before.Tried? && (after.Tried? || after.Flat?) && IsPlain(c.settings)
    ensures
      var z := Own(c.operands[pr.done + i]);
      Unrelated(c, w, z, pr, pr.done, pr.done + i) && Beside(c, ops, i, z, pr.done, pr.done, before, after)
  {
    hide Between, Blamed, OpenBy, IdleFrom, Fated, HoldsAt, IsTemp, Durable, Live, Matters, IsPlain;
    InBatchFacts(c, w, ops, pr, pr.done, i, before, after, tally);
    var p := c.operands[pr.done + i];
    assert HoldsAt(c, w, ops[i], pr.done + i, pr.done, i, before);
    PlainName(c, w, ops[i], pr.done + i, pr.done, i, before);
    forall j | 0 <= j < |ops| && j != i && !ops[j].fail ensures Outside(Own(p), ops[j].path) {
      var ph := if j < i then after else before;
      assert HoldsAt(c, w, ops[j], pr.done + j, pr.done, j, ph);
      PlainName(c, w, ops[j], pr.done + j, pr.done, j, ph);
      OperandFacts(c, ops[j].path);
    }
    forall x | 0 <= x < pr.done && Durable(c, w, c.operands[x], pr.limit) ensures Outside(Own(p), c.operands[x]) {
      DurableNamed(c, w, c.operands[x], pr.limit);
      OperandFacts(c, c.operands[x]);
    }
    PlainNoBackup(c);
  }

  lemma PlainNoBackup(c: Config)
    requires IsPlain(c.settings)
    ensures !BackupOn(c.settings)
  {}

  lemma PlainDroppable(c: Config, w: World, slot: nat, p: Path)
    requires ConfigOK(c) && PointOK(c, w) && Steady(c, w) && p in c.operands && slot < BATCH && |w.slots| == PENDING_SLOTS && w.slots[slot].Armed?
    requires w.slots[slot].path == p && IsPlain(c.settings)
    ensures Droppable(c, w, slot, Own(p))
  {
    hide SignalOK, PublishOK, FdsOK, GuardOK, Harmless, Separate, CrashOK, SlotBeside, IsTemp, Unprotected, SlotOwn, Unclobbered, Classified, NoPlaceholder;
    assert p !in c.init;
    PlainNoBackup(c);
  }

  lemma FailDroppable(c: Config, w: World, op: Op, j: nat, ph: Phase, x: nat, live: bool)
    requires ConfigOK(c) && PointOK(c, w) && Steady(c, w) && Holds(c, w, op, j, ph, live) && (ph.Tried? || ph.Noted?) && !op.fail
    requires x < |c.operands| && op.path == c.operands[x]
    ensures op.spare == None ==> Droppable(c, w, j, FailZone(c, ph, x))
  {
    hide PointOK, Steady, IsTemp, Dir, FileDone, Guarded, Queued, NamedOnly, SpareHeld, Droppable, Nowhere;
    HoldsSlotRange(c, w, op, j, ph, live);
    SlotNames(c, w, j);
    if op.spare == None {
      if ph.Tried? && op.way == Plain {
        PlainDroppable(c, w, j, op.path);
      } else {
        TempDroppable(c, w, j, FailZone(c, ph, x));
      }
    }
  }

  /** What op_fail leaves is as it should be. */
  lemma FailedHolds(c: Config, w: World, w': World, op: Op, j: nat, ph: Phase, after: Phase, live: bool, live': bool)
    requires Holds(c, w, op, j, ph, live) && (ph.Tried? || ph.Noted?) && !op.fail
    requires match ph
             case Tried(_) => after == Tried({}) || after == Flat
             case Noted(_, qu) => after == Noted({}, qu) || after == Shut(qu)
             case _ => false
    requires w'.guard == w.guard && w'.swapped == w.swapped && w.left <= w'.left && |w'.slots| == PENDING_SLOTS
    requires w'.slots[j] == if op.spare == None then Clear else w.slots[j]
    ensures Holds(c, w', op.(fail := true, fd := None, tmp := None), j, after, live')
  {
    hide IsTemp, Dir, FileDone, Hidden, Guarded, NamedOnly, SettledAt;
  }

  predicate SameSpares(ops: seq<Op>, ops': seq<Op>) {
    |ops'| == |ops| && forall j :: 0 <= j < |ops| ==> ops'[j].spare == ops[j].spare
  }

  /** flush_ops: fsync, then give up each operand for which it failed. */
  method FlushOps(k: Machine, ops: seq<Op>, ghost pr: Progress, ghost from: nat, ghost ph: Phase, ghost tally: Tally) returns (ops': seq<Op>)
    requires k.Valid() && InBatch(k.c, k.w, ops, pr, from, 0, ph, ph, tally)
    requires (ph.Raw? && from == pr.done) || (ph.Given? && from == pr.done + |ops|)
    modifies k
    ensures AllOk(ops) ==> AllOk(ops') || k.faults > old(k.faults)
    ensures AllOk(ops') ==> AllOk(ops)
    ensures k.Valid() && old(k.trace) <= k.trace && old(k.faults) <= k.faults && |ops'| == |ops| && k.w.blocked == old(k.w).blocked
    ensures InBatch(k.c, k.w, ops', pr, from, |ops|, Raw, AfterSync(ph, {}), tally)
    ensures SameSpares(ops, ops')
  {
    hide PointOK, ConfigOK, Tied, Went, KindsOK, Steady, Frame, InBatch, HoldsAt, OnlySync, FlushedNow, Nowhere, Listed, Known;
    ghost var w0 := k.w;
    assert Steady(k.c, k.w) by { InBatchFacts(k.c, w0, ops, pr, from, 0, ph, ph, tally); }
    forall j | 0 <= j < |ops| && IsOpen(ops[j]) ensures ops[j].fd.value in k.w.open {
      InBatchHolds(k.c, w0, ops, pr, from, 0, ph, ph, tally, j);
      HoldsAtOpen(k.c, w0, ops[j], pr.done + j, from, j, ph);
    }
    var bad := SyncFiles(k, ops);
    OnlySyncSame(w0, k.w);
    OnlySyncFrame(k.c, w0, k.w, PENDING_BACKUP, Own(Nowhere(k.c)), w0.next);
    BatchStay(k.c, w0, k.w, ops, pr, from, 0, ph, ph, tally);
    SyncedSwept(k.c, k.w, ops, pr, from, ph, bad, tally);
    ops' := FailBad(k, ops, bad, pr, from, AfterSync(ph, bad), AfterSync(ph, {}), tally);
  }

  lemma OnlySyncSame(w: World, w': World)
    requires OnlySync(w, w')
    ensures w'.slots == w.slots && w'.open == w.open && w'.left == w.left && w'.blocked == w.blocked && w'.next == w.next
  {}

  lemma InBatchHolds(c: Config, w: World, ops: seq<Op>, pr: Progress, from: nat, i: nat, before: Phase, after: Phase, tally: Tally, j: nat)
    requires InBatch(c, w, ops, pr, from, i, before, after, tally) && j < |ops|
    ensures HoldsAt(c, w, ops[j], pr.done + j, from, j, if j < i then after else before)
  {
    hide HoldsAt, IdleFrom, OpenBy, Blamed, Between, Listed, Fated;
  }

  lemma HoldsAtOpen(c: Config, w: World, op: Op, x: nat, from: nat, j: nat, ph: Phase)
    requires HoldsAt(c, w, op, x, from, j, ph) && (ph.Raw? || ph.Tried? || ph.Given? || ph.Noted?) && IsOpen(op)
    ensures op.fd == Some(op.ino) && op.ino in w.open
  {
    hide Holds, Matters;
    HoldsOpen(c, w, op, j, ph, Matters(c, x, from, ph));
  }

  method FailBad(k: Machine, ops: seq<Op>, bad: set<nat>, ghost pr: Progress, ghost from: nat, ghost before: Phase, ghost after: Phase, ghost tally: Tally)
      returns (ops': seq<Op>)
    requires k.Valid() && InBatch(k.c, k.w, ops, pr, from, 0, before, after, tally)
    requires forall j :: j in bad ==> j < |ops| && IsOpen(ops[j])
    requires match before
             case Tried(b) => b == bad && after == Tried({}) && from == pr.done
             case Noted(b, qu) => b == bad && after == Noted({}, qu) && from == pr.done + |ops|
             case _ => false
    modifies k
    ensures AllOk(ops') ==> AllOk(ops)
    ensures forall j :: 0 <= j < |ops| && j < |ops'| && j !in bad ==> ops'[j] == ops[j]
    ensures k.Valid() && old(k.trace) <= k.trace && old(k.faults) <= k.faults && |ops'| == |ops| && k.w.blocked == old(k.w).blocked
    ensures InBatch(k.c, k.w, ops', pr, from, |ops|, Raw, after, tally)
    ensures SameSpares(ops, ops')
  {
    hide PointOK, ConfigOK, Tied, Went, KindsOK, Steady, Frame, InBatch, HoldsAt, FailZone, Droppable, Listed, Known;
    ops' := ops;
    var i := 0;
    while i < |ops|
      invariant 0 <= i <= |ops| == |ops'| && k.Valid() && old(k.trace) <= k.trace && old(k.faults) <= k.faults && k.w.blocked == old(k.w).blocked
      invariant InBatch(k.c, k.w, ops', pr, from, i, before, after, tally)
      invariant AllOk(ops') ==> AllOk(ops)
      invariant forall j :: 0 <= j < i && j !in bad ==> ops'[j] == ops[j]
      invariant SameSpares(ops, ops')
      invariant forall j :: i <= j < |ops| ==> ops'[j] == ops[j]
    {
      ghost var w := k.w;
      InBatchFacts(k.c, w, ops', pr, from, i, before, after, tally);
      if i in bad {
        ops' := FailOne(k, ops', i, pr, from, before, after, tally);
      } else {
        StillHolds(k.c, w, ops'[i], pr.done + i, from, i, before, after);
        BatchSkip(k.c, w, ops', pr, from, i, before, after, tally);
      }
      i := i + 1;
    }
    assert InBatch(k.c, k.w, ops', pr, from, |ops|, Raw, after, tally) by {
      LastPhase(k.c, k.w, ops', pr, from, i, before, after, tally);
    }
  }

  lemma LastPhase(c: Config, w: World, ops: seq<Op>, pr: Progress, from: nat, i: nat, before: Phase, after: Phase, tally: Tally)
    requires InBatch(c, w, ops, pr, from, i, before, after, tally) && i == |ops|
    ensures InBatch(c, w, ops, pr, from, i, Raw, after, tally)
  {
    hide HoldsAt, IdleFrom, OpenBy, Blamed, Between, Listed, Fated;
    SweptEnd(c, w, ops, pr.done, from, i, before, after);
  }

  lemma StillHolds(c: Config, w: World, op: Op, x: nat, from: nat, j: nat, before: Phase, after: Phase)
    requires HoldsAt(c, w, op, x, from, j, before)
    requires match before
             case Tried(b) => j !in b && after == Tried({})
             case Noted(b, qu) => j !in b && after == Noted({}, qu)
             case _ => false
    ensures HoldsAt(c, w, op, x, from, j, after)
  {
    hide Built, Named, Closed, Queued, SyncedOp, AnchoredOp, Live, IsPlain, HoldsSlot;
  }

  /** Gives up the operand at i. */
  method FailOne(k: Machine, ops: seq<Op>, i: nat, ghost pr: Progress, ghost from: nat, ghost before: Phase, ghost after: Phase, ghost tally: Tally)
      returns (ops': seq<Op>)
    requires k.Valid() && InBatch(k.c, k.w, ops, pr, from, i, before, after, tally) && i < |ops| && IsOpen(ops[i])
    requires match before
             case Tried(_) => (after == Tried({}) || after == Flat) && from == pr.done
             case Noted(_, qu) => (after == Noted({}, qu) || after == Shut(qu)) && from == pr.done + |ops|
             case _ => false
    modifies k
    ensures k.Valid() && old(k.trace) <= k.trace && old(k.faults) <= k.faults && |ops'| == |ops| && k.w.blocked == old(k.w).blocked
    ensures InBatch(k.c, k.w, ops', pr, from, i + 1, before, after, tally) && ops' == ops[i := ops'[i]]
    ensures ops'[i].fail
    ensures ops'[i].spare == ops[i].spare
  {
    hide PointOK, ConfigOK, Tied, Went, KindsOK, Steady, Frame, InBatch, Holds, FailZone, FailIndex, Droppable, Beside, Unrelated, Matters, Listed, Known;
    ghost var w := k.w;
    ghost var x := pr.done + i;
    InBatchFacts(k.c, w, ops, pr, from, i, before, after, tally);
    BatchLimit(k.c);
    ghost var live := Matters(k.c, x, from, before);
    HoldsOpen(k.c, w, ops[i], i, before, live);
    HoldsSlotRange(k.c, w, ops[i], i, before, live);
    ghost var z := FailZone(k.c, before, x);
    FailClear(k.c, w, ops, pr, from, i, before, after, tally);
    FailDroppable(k.c, w, ops[i], i, before, x, live);
    var op := OpFail(k, ops[i], i, z, ops[i].ino);
    LeftKept(k.c, w, k.w, i, z, ops[i].ino);
    FailedHolds(k.c, w, k.w, ops[i], i, before, after, live, Matters(k.c, x, from, after));
    FailIndexes(k.c, before, x);
    BatchStep(k.c, w, k.w, ops, op, pr, from, i, before, after, tally, z, FailIndex(k.c, before, x));
    ops' := ops[i := op];
  }

  lemma FailIndexes(c: Config, ph: Phase, x: nat)
    ensures FailIndex(c, ph, x) == |c.operands| || (FailIndex(c, ph, x) == x && IsPlain(c.settings))
    ensures x < |c.operands| ==> FailZone(c, ph, x) == Own(FailZone(c, ph, x).path)
  {}

  /* ----- closing ----- */

  /** close_op: an operand whose file does not close is given up. */
  method CloseOp(k: Machine, op: Op, slot: nat, ghost z: Zone) returns (ok: bool, op': Op)
    requires k.Valid() && Steady(k.c, k.w) && slot < BATCH && |k.w.slots| == PENDING_SLOTS && op.fd == Some(op.ino)
    requires op.spare == None ==> Droppable(k.c, k.w, slot, z)
    modifies k
    ensures ok <==> k.faults == old(k.faults)
    ensures k.Valid() && old(k.trace) <= k.trace && old(k.faults) <= k.faults && Steady(k.c, k.w)
    ensures Frame(k.c, old(k.w), k.w, slot, z, op.ino)
    ensures k.w.open == old(k.w).open - {op.ino} && k.w.blocked == old(k.w).blocked && k.w.guard == old(k.w).guard && k.w.swapped == old(k.w).swapped
    ensures |k.w.slots| == PENDING_SLOTS && k.w.slots[PENDING_BACKUP] == old(k.w).slots[PENDING_BACKUP]
    ensures ok ==> k.w == CloseW(old(k.w), op.ino) && op' == op.(fd := None)
    ensures !ok ==> op' == op.(fail := true, fd := None, tmp := None)
    ensures !ok ==> k.w.slots[slot] == if op.spare == None then Clear else old(k.w).slots[slot]
  {
    hide PointOK, ConfigOK, Tied, Went, KindsOK, Steady, Frame, Outside, Droppable;
    ghost var w := k.w;
    CloseFrame(k.c, w, op.ino, slot, z);
    PointSteady(k.c, w, op.ino);
    ok := k.Close(op.ino);
    op' := op.(fd := None);
    ghost var w1 := k.w;
    if !ok {
      if op.spare == None { CloseDroppable(k.c, w, w1, slot, z); }
      op' := OpFail(k, op', slot, z, op.ino);
      FrameTrans(k.c, w, w1, k.w, slot, z, op.ino);
    }
  }

  /** A file that was made under its own name is closed at once. */
  lemma ClosedFlat(c: Config, w: World, op: Op, x: nat, from: nat, j: nat)
    requires HoldsAt(c, w, op, x, from, j, Tried({})) && !op.fail && op.way == Plain
    ensures HoldsAt(c, CloseW(w, op.ino), op.(fd := None), x, from, j, Flat)
  {
    hide IsTemp, Dir, FileDone, Guarded, Live;
  }

  lemma OpenFlat(c: Config, w: World, op: Op, x: nat, from: nat, j: nat)
    requires HoldsAt(c, w, op, x, from, j, Tried({})) && (op.fail || op.way != Plain)
    ensures HoldsAt(c, w, op, x, from, j, Flat)
  {
    hide IsTemp, Dir, FileDone, Guarded, NamedOnly, Live;
  }

  /** flush_batch */
  method FlushBatch(k: Machine, ops: seq<Op>, ghost pr: Progress, ghost tally: Tally) returns (ops': seq<Op>)
    requires k.Valid() && InBatch(k.c, k.w, ops, pr, pr.done, 0, Raw, Raw, tally)
    modifies k
    ensures AllOk(ops) ==> AllOk(ops') || k.faults > old(k.faults)
    ensures AllOk(ops') ==> AllOk(ops)
    ensures k.Valid() && old(k.trace) <= k.trace && old(k.faults) <= k.faults && |ops'| == |ops| && k.w.blocked == old(k.w).blocked
    ensures InBatch(k.c, k.w, ops', pr, pr.done, |ops|, Raw, Flat, tally)
  {
    hide PointOK, ConfigOK, Tied, Went, KindsOK, Steady, Frame, InBatch, HoldsAt, Listed, Known;
    ops' := FlushOps(k, ops, pr, pr.done, Raw, tally);
    NextPhase(k.c, k.w, ops', pr, pr.done, |ops|, Raw, Tried({}), Flat, tally);
    var i := 0;
    while i < |ops|
      invariant AllOk(ops) ==> AllOk(ops') || k.faults > old(k.faults)
      invariant AllOk(ops') ==> AllOk(ops)
      invariant 0 <= i <= |ops| == |ops'| && k.Valid() && old(k.trace) <= k.trace && old(k.faults) <= k.faults && k.w.blocked == old(k.w).blocked
      invariant InBatch(k.c, k.w, ops', pr, pr.done, i, Tried({}), Flat, tally)
    {
      InBatchFacts(k.c, k.w, ops', pr, pr.done, i, Tried({}), Flat, tally);
      if !ops'[i].fail && ops'[i].way == Plain {
        ops' := ClosePlain(k, ops', i, pr, tally);
      } else {
        OpenFlat(k.c, k.w, ops'[i], pr.done + i, pr.done, i);
        BatchSkip(k.c, k.w, ops', pr, pr.done, i, Tried({}), Flat, tally);
      }
      i := i + 1;
    }
    LastPhase(k.c, k.w, ops', pr, pr.done, i, Tried({}), Flat, tally);
  }

  lemma PlainOpen(c: Config, w: World, op: Op, x: nat, from: nat, j: nat)
    requires HoldsAt(c, w, op, x, from, j, Tried({})) && !op.fail
    ensures IsOpen(op)
  {
    hide Finished, Live, IsPlain;
  }

  method ClosePlain(k: Machine, ops: seq<Op>, i: nat, ghost pr: Progress, ghost tally: Tally) returns (ops': seq<Op>)
    requires k.Valid() && InBatch(k.c, k.w, ops, pr, pr.done, i, Tried({}), Flat, tally)
    requires i < |ops| && !ops[i].fail && ops[i].way == Plain
    modifies k
    ensures AllOk(ops) ==> AllOk(ops') || k.faults > old(k.faults)
    ensures AllOk(ops') ==> AllOk(ops)
    ensures k.Valid() && old(k.trace) <= k.trace && old(k.faults) <= k.faults && |ops'| == |ops| && k.w.blocked == old(k.w).blocked
    ensures InBatch(k.c, k.w, ops', pr, pr.done, i + 1, Tried({}), Flat, tally)
  {
    hide PointOK, ConfigOK, Tied, Went, KindsOK, Steady, Frame, InBatch, Holds, FailZone, FailIndex, Droppable, Beside, Unrelated, Matters, Listed, Known;
    ghost var w := k.w;
    ghost var x := pr.done + i;
    ghost var ph := Tried({});
    InBatchFacts(k.c, w, ops, pr, pr.done, i, ph, Flat, tally);
    BatchLimit(k.c);
    PlainOpen(k.c, w, ops[i], x, pr.done, i);
    HoldsOpen(k.c, w, ops[i], i, ph, Matters(k.c, x, pr.done, ph));
    ghost var z := FailZone(k.c, ph, x);
    FailClear(k.c, w, ops, pr, pr.done, i, ph, Flat, tally);
    FailDroppable(k.c, w, ops[i], i, ph, x, Matters(k.c, x, pr.done, ph));
    var ok, op := CloseOp(k, ops[i], i, z);
    if ok {
      ClosedFlat(k.c, w, ops[i], x, pr.done, i);
    } else {
      LeftKept(k.c, w, k.w, i, z, ops[i].ino);
      FailedHolds(k.c, w, k.w, ops[i], i, ph, Flat, Matters(k.c, x, pr.done, ph), Matters(k.c, x, pr.done, Flat));
    }
    FailIndexes(k.c, ph, x);
    BatchStep(k.c, w, k.w, ops, op, pr, pr.done, i, ph, Flat, tally, z, FailIndex(k.c, ph, x));
    AllOkUpdate(ops, i, op);
    ops' := ops[i := op];
  }

  /* ----- settling ----- */

  lemma ShutSkip(c: Config, w: World, op: Op, x: nat, from: nat, j: nat, qu: Queue)
    requires HoldsAt(c, w, op, x, from, j, Noted({}, qu)) && !IsOpen(op)
    ensures HoldsAt(c, w, op, x, from, j, Shut(qu))
  {
    hide IsTemp, SpareHeld, Guarded, Queued, Live, FileDone;
  }

  lemma ShutClosed(c: Config, w: World, op: Op, x: nat, from: nat, j: nat, qu: Queue)
    requires HoldsAt(c, w, op, x, from, j, Noted({}, qu)) && IsOpen(op) && op.tmp == None
    ensures HoldsAt(c, CloseW(w, op.ino), op.(fd := None), x, from, j, Shut(qu))
  {
    hide IsTemp, Guarded, Dir, SettledAt, Live, FileDone;
    SettledClose(c, w, op.ino, op.path);
  }

  lemma SettledClose(c: Config, w: World, n: Ino, q: Path)
    ensures SettledAt(c, w, q) == SettledAt(c, CloseW(w, n), q)
  {
    hide Dir;
  }

  /** The name it was linked from is gone as well, or reported. */
  lemma ShutUnlinked(c: Config, w: World, w': World, op: Op, x: nat, from: nat, j: nat, qu: Queue, leftover: bool)
    requires ConfigOK(c) && HoldsAt(c, w, op, x, from, j, Noted({}, qu)) && IsOpen(op) && op.tmp.Some?
    requires Frame(c, w, w', j, Own(Nowhere(c)), op.ino) && w'.files == w.files && w'.committed == w.committed && w'.guard == w.guard
    requires |w'.slots| == PENDING_SLOTS && w'.slots[j] == Clear && (leftover ==> w'.left != {})
    ensures HoldsAt(c, w', op.(fd := None, tmp := None, leftover := leftover), x, from, j, Shut(qu))
  {
    hide IsTemp, Guarded, Dir, SettledAt, Frame, Nowhere, Live, FileDone, Outside;
    NowhereOutside(c, op.path);
    NameSame(c, w, w', j, Own(Nowhere(c)), op.ino, op.path);
  }

  lemma NowhereOutside(c: Config, p: Path)
    requires ConfigOK(c) && p in c.operands
    ensures Outside(Own(Nowhere(c)), p)
  {
    hide Outside, Nowhere;
    var x :| 0 <= x < |c.operands| && c.operands[x] == p;
    NowhereZone(c);
    ZonesApart(c, Own(Nowhere(c)), |c.operands|, x);
  }

  /** settle_batch */
  method Settle(k: Machine, ops: seq<Op>, ghost pr: Progress, ghost qu: Queue, ghost tally: Tally) returns (ops': seq<Op>)
    requires k.Valid() && InBatch(k.c, k.w, ops, pr, pr.done + |ops|, 0, Given(qu), Given(qu), tally)
    modifies k
    ensures AllOk(ops) ==> AllOk(ops') || k.faults > old(k.faults)
    ensures AllOk(ops') ==> AllOk(ops)
    ensures k.Valid() && old(k.trace) <= k.trace && old(k.faults) <= k.faults && |ops'| == |ops| && k.w.blocked == old(k.w).blocked
    ensures InBatch(k.c, k.w, ops', pr, pr.done + |ops|, |ops|, Raw, Shut(qu), tally)
    ensures SameSpares(ops, ops')
  {
    hide PointOK, ConfigOK, Tied, Went, KindsOK, Steady, Frame, InBatch, HoldsAt, Listed, Known;
    ghost var from := pr.done + |ops|;
    ops' := FlushOps(k, ops, pr, from, Given(qu), tally);
    NextPhase(k.c, k.w, ops', pr, from, |ops|, Raw, Noted({}, qu), Shut(qu), tally);
    var i := 0;
    while i < |ops|
      invariant AllOk(ops) ==> AllOk(ops') || k.faults > old(k.faults)
      invariant AllOk(ops') ==> AllOk(ops)
      invariant 0 <= i <= |ops| == |ops'| && k.Valid() && old(k.trace) <= k.trace && old(k.faults) <= k.faults && k.w.blocked == old(k.w).blocked
      invariant SameSpares(ops, ops')
      invariant InBatch(k.c, k.w, ops', pr, from, i, Noted({}, qu), Shut(qu), tally)
    {
      InBatchFacts(k.c, k.w, ops', pr, from, i, Noted({}, qu), Shut(qu), tally);
      if IsOpen(ops'[i]) {
        ops' := SettleOne(k, ops', i, pr, qu, tally);
      } else {
        ShutSkip(k.c, k.w, ops'[i], pr.done + i, from, i, qu);
        BatchSkip(k.c, k.w, ops', pr, from, i, Noted({}, qu), Shut(qu), tally);
      }
      i := i + 1;
    }
    LastPhase(k.c, k.w, ops', pr, from, i, Noted({}, qu), Shut(qu), tally);
  }

  method SettleOne(k: Machine, ops: seq<Op>, i: nat, ghost pr: Progress, ghost qu: Queue, ghost tally: Tally) returns (ops': seq<Op>)
    requires k.Valid() && InBatch(k.c, k.w, ops, pr, pr.done + |ops|, i, Noted({}, qu), Shut(qu), tally)
    requires i < |ops| && IsOpen(ops[i])
    modifies k
    ensures AllOk(ops) ==> AllOk(ops') || k.faults > old(k.faults)
    ensures AllOk(ops') ==> AllOk(ops)
    ensures k.Valid() && old(k.trace) <= k.trace && old(k.faults) <= k.faults && |ops'| == |ops| && k.w.blocked == old(k.w).blocked
    ensures InBatch(k.c, k.w, ops', pr, pr.done + |ops|, i + 1, Noted({}, qu), Shut(qu), tally)
    ensures SameSpares(ops, ops')
  {
    hide PointOK, ConfigOK, Tied, Went, KindsOK, Steady, Frame, InBatch, HoldsAt, Droppable, Beside, Unrelated, Nowhere, Listed, Known;
    ghost var w := k.w;
    ghost var ph := Noted({}, qu);
    ghost var from := pr.done + |ops|;
    ghost var x := pr.done + i;
    ghost var z := Own(Nowhere(k.c));
    InBatchFacts(k.c, w, ops, pr, from, i, ph, Shut(qu), tally);
    BatchLimit(k.c);
    HoldsAtOpen(k.c, w, ops[i], x, from, i, ph);
    SettleClear(k.c, w, ops[i], x, from, i, qu);
    var ok, op := CloseOp(k, ops[i], i, z);
    if !ok {
      LeftKept(k.c, w, k.w, i, z, ops[i].ino);
      FailedHoldsAt(k.c, w, k.w, ops[i], x, from, i, qu);
    } else if op.tmp == None {
      ShutClosed(k.c, w, ops[i], x, from, i, qu);
    } else {
      ghost var w1 := k.w;
      NoSpare(k.c, w, ops[i], x, from, i, qu);
      CloseDroppable(k.c, w, w1, i, z);
      var gone := DropName(k, z, i, ops[i].ino);
      FrameTrans(k.c, w, w1, k.w, i, z, ops[i].ino);
      LeftKept(k.c, w, k.w, i, z, ops[i].ino);
      HoldsAtRange(k.c, w, ops[i], x, from, i, ph);
      op := op.(tmp := None, leftover := op.leftover || !gone);
      ShutUnlinked(k.c, w, k.w, ops[i], x, from, i, qu, op.leftover);
    }
    NowhereInBatch(k.c, w, ops, pr, from, i, ph, Shut(qu), tally);
    BatchStep(k.c, w, k.w, ops, op, pr, from, i, ph, Shut(qu), tally, z, |k.c.operands|);
    AllOkUpdate(ops, i, op);
    ops' := ops[i := op];
  }

  lemma NowhereInBatch(c: Config, w: World, ops: seq<Op>, pr: Progress, from: nat, i: nat, before: Phase, after: Phase, tally: Tally)
    requires ConfigOK(c) && InBatch(c, w, ops, pr, from, i, before, after, tally)
    ensures Unrelated(c, w, Own(Nowhere(c)), pr, from, |c.operands|) && Beside(c, ops, i, Own(Nowhere(c)), pr.done, from, before, after)
  {
    hide Going, Fated, Unrelated, Beside, Nowhere;
    NowhereFree(c, w, ops, pr, from, i, before, after, tally);
  }

  lemma FailedHoldsAt(c: Config, w: World, w': World, op: Op, x: nat, from: nat, j: nat, qu: Queue)
    requires HoldsAt(c, w, op, x, from, j, Noted({}, qu)) && !op.fail
    requires w'.guard == w.guard && w'.swapped == w.swapped && w.left <= w'.left && |w'.slots| == PENDING_SLOTS && j < BATCH && |w.slots| == PENDING_SLOTS
    requires w'.slots[j] == if op.spare == None then Clear else w.slots[j]
    ensures HoldsAt(c, w', op.(fail := true, fd := None, tmp := None), x, from, j, Shut(qu))
  {
    hide Holds, Matters;
    FailedHolds(c, w, w', op, j, Noted({}, qu), Shut(qu), Matters(c, x, from, Noted({}, qu)), Matters(c, x, from, Shut(qu)));
  }

  /** All that may be removed here is a temporary name. */
  lemma SettleClear(c: Config, w: World, op: Op, x: nat, from: nat, j: nat, qu: Queue)
    requires ConfigOK(c) && PointOK(c, w) && Steady(c, w) && HoldsAt(c, w, op, x, from, j, Noted({}, qu)) && !op.fail
    ensures op.spare == None ==> Droppable(c, w, j, Own(Nowhere(c)))
    ensures j < BATCH && |w.slots| == PENDING_SLOTS
  {
    hide PointOK, Steady, IsTemp, Dir, FileDone, Guarded, Queued, NamedOnly, SpareHeld, Droppable, Nowhere, Live;
    SlotNames(c, w, j);
    if op.spare == None { TempDroppable(c, w, j, Own(Nowhere(c))); }
  }

  lemma NoSpare(c: Config, w: World, op: Op, x: nat, from: nat, j: nat, qu: Queue)
    requires HoldsAt(c, w, op, x, from, j, Noted({}, qu)) && !op.fail && op.tmp.Some?
    ensures op.spare == None
  {
    hide IsTemp, Guarded, Queued, SpareHeld, Live, FileDone;
  }
}
