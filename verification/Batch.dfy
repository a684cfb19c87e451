/** Building, flushing, naming and settling the operands of one batch. */
module Batch {
  import opened Names
  import opened Spec
  import opened World
  import opened Order
  import opened Steps
  import opened Coherence
  import opened Kernel
  import opened Frames
  import opened Pending
  import opened Place
  import opened Commit
  import opened Backup
  import opened Flush
  import opened Build
  import opened Naming
  import opened Stable
  import opened Phases

  ghost predicate IdleFrom(w: World, i: nat) {
    |w.slots| == PENDING_SLOTS && forall s :: i <= s < PENDING_SLOTS ==> w.slots[s] == Clear
  }

  /** The batch begins at operand done, with files from limit on; good says all
      went well so far, and left is what was left behind by then. */
  datatype Progress = Progress(good: bool, done: nat, limit: Ino, left: set<Path>)

  /** The whole run, as far as one batch is concerned; the turn of the operands
      before `from` has come. */
  ghost predicate Between(c: Config, w: World, pr: Progress, from: nat) {
    && Steady(c, w) && Rest(c, w, pr.good, pr.done, from, pr.limit) && Known(c, w, from) && pr.limit <= w.next && w.dirFds == 0
  }

  /** The first i operands of the batch are in the phase after, the others in before. */
  ghost predicate Going(c: Config, w: World, ops: seq<Op>, pr: Progress, from: nat, i: nat, before: Phase, after: Phase, tally: Tally) {
    && Between(c, w, pr, from)
    && Listed(c, ops, pr.done, pr.limit) && Swept(c, w, ops, pr.done, from, i, before, after)
    && Blamed(w.left, pr.left, ops, tally.failed) && tally.ids <= w.flushFailed
    && OpenBy(w, ops) && |w.open| <= |ops| <= c.batch && IdleFrom(w, |ops|)
  }

  /** No operand whose turn has come was given up. */
  ghost predicate AllGiven(ops: seq<Op>, pr: Progress, from: nat) {
    pr.good && forall j :: 0 <= j < |ops| && pr.done + j < from ==> !ops[j].fail
  }

  /** As long as all goes well, it is known what each operand's name holds. */
  ghost predicate Fated(c: Config, w: World, ops: seq<Op>, pr: Progress, from: nat) {
    && (Exactly(c) && AllGiven(ops, pr, from) ==> Fate(c, w, from, pr.limit))
    && Unclaimed(c, w, Turn(c, ops, pr, from))
  }

  /** Without -f, and where nothing stands in the way, operands from m on have no name. */
  ghost predicate Unclaimed(c: Config, w: World, m: nat) {
    AllFree(c) ==> forall x :: m <= x < |c.operands| ==> c.operands[x] !in w.names
  }

  /** The first operand that was not named yet: a plain file has its name once it is
      built. */
  function Turn(c: Config, ops: seq<Op>, pr: Progress, from: nat): nat {
    if IsPlain(c.settings) then pr.done + |ops| else from
  }

  /** A step about the operand x, or about none, gives no name to those from m on. */
  lemma UnclaimedStep(c: Config, w: World, w': World, slot: nat, z: Zone, own: Ino, x: nat, m: nat, m': nat)
    requires ConfigOK(c) && Frame(c, w, w', slot, z, own) && ZoneAt(c, z, x) && Unclaimed(c, w, m)
    requires m <= m' && (x < m' || x >= |c.operands|)
    ensures Unclaimed(c, w', m')
  {
    hide Frame, Longer, IsTemp;
    if AllFree(c) {
      forall y | m' <= y < |c.operands| ensures c.operands[y] !in w'.names {
        var q := c.operands[y];
        OperandFacts(c, q);
        if x < |c.operands| { assert c.operands[x] != c.operands[y]; }
        assert q !in w.names && Outside(z, q) && !Numberable(w, z, q);
        NameSame(c, w, w', slot, z, own, q);
      }
    }
  }

  ghost predicate InBatch(c: Config, w: World, ops: seq<Op>, pr: Progress, from: nat, i: nat, before: Phase, after: Phase, tally: Tally) {
    Going(c, w, ops, pr, from, i, before, after, tally) && Fated(c, w, ops, pr, from)
  }

  /** Between two batches. */
  ghost predicate AtStart(c: Config, w: World, pr: Progress) {
    && Between(c, w, pr, pr.done) && (Exactly(c) && pr.good ==> Fate(c, w, pr.done, pr.limit))
    && Unclaimed(c, w, pr.done)
    && IdleFrom(w, 0) && w.open == {} && w.left == pr.left
  }

  /** What report_one takes for success. */
  predicate Fine(op: Op) { !op.fail && !op.leftover }

  predicate AllOk(ops: seq<Op>) {
    forall j :: 0 <= j < |ops| ==> Fine(ops[j])
  }

  /* ----- one step for one operand ----- */

  /** The names z are those of the operand x, or of none, and say nothing of the
      rest of the run. */
  ghost predicate Unrelated(c: Config, w: World, z: Zone, pr: Progress, from: nat, x: nat) {
    && ZoneAt(c, z, x) && pr.done <= x && (BackupOn(c.settings) ==> !(from <= x < |c.operands|))
    && Behind(c, w, z, pr.done, from, pr.limit)
  }

  lemma BetweenStep(c: Config, w: World, w': World, slot: nat, z: Zone, own: Ino, pr: Progress, from: nat, x: nat)
    requires ConfigOK(c) && Between(c, w, pr, from) && Frame(c, w, w', slot, z, own) && Steady(c, w') && own >= pr.limit
    requires Unrelated(c, w, z, pr, from, x) && |w.slots| == PENDING_SLOTS && w.slots[PENDING_BACKUP] == Clear && Known(c, w', from)
    requires Gave(c, w, w', z.path)
    ensures Between(c, w', pr, from)
  {
    hide Frame, Steady, Rest, ZoneAt, Behind, Known, Gave;
    NextGrows(c, w, w', slot, z, own);
    DirFdsSame(c, w, w', slot, z, own);
    RestStable(c, w, w', slot, z, own, pr.good, pr.done, from, pr.limit, x);
  }

  lemma DirFdsSame(c: Config, w: World, w': World, slot: nat, z: Zone, own: Ino)
    requires Frame(c, w, w', slot, z, own)
    ensures w'.dirFds == w.dirFds && w.flushFailed <= w'.flushFailed
  {
    hide NameFrame, FileFrame, BindFrame, GuardFrame, Within;
  }

  lemma IdleStep(c: Config, w: World, w': World, slot: nat, z: Zone, own: Ino, n: nat)
    requires Frame(c, w, w', slot, z, own) && IdleFrom(w, n) && |w'.slots| == PENDING_SLOTS && w'.slots[PENDING_BACKUP] == Clear
    requires slot < n
    ensures IdleFrom(w', n)
  {
    hide Frame;
    forall s | n <= s < PENDING_SLOTS ensures w'.slots[s] == Clear {
      if s < BATCH { SlotSame(c, w, w', slot, z, own, s); }
    }
  }

  /** The operand at i is handled; own is no other operand's file. */
  lemma GoingStep(c: Config, w: World, w': World, ops: seq<Op>, op: Op, own: Ino, pr: Progress, from: nat, i: nat, before: Phase, after: Phase, tally: Tally, z: Zone, x: nat)
    requires ConfigOK(c) && Going(c, w, ops, pr, from, i, before, after, tally) && i < |ops| && own >= pr.limit
    requires forall j :: 0 <= j < |ops| && j != i ==> ops[j].fail || ops[j].ino != own
    requires Frame(c, w, w', i, z, own) && Steady(c, w') && Unrelated(c, w, z, pr, from, x) && Beside(c, ops, i, z, pr.done, from, before, after)
    requires x == pr.done + i || x == |c.operands|
    requires Known(c, w', from) && Gave(c, w, w', z.path)
    requires op.path == ops[i].path && op.ino == ops[i].ino && (ops[i].fail ==> op.fail) && HoldsAt(c, w', op, pr.done + i, from, i, after)
    requires |w'.slots| == PENDING_SLOTS && w'.slots[PENDING_BACKUP] == Clear
    requires w'.open <= w.open && Released(ops[i], op, w')
    requires (ops[i].leftover ==> op.leftover || op.fail) && (!op.fail && !op.leftover && tally.failed == 0 ==> w'.left == w.left)
    ensures Going(c, w', ops[i := op], pr, from, i + 1, before, after, tally)
  {
    hide Frame, Steady, Swept, HoldsAt, OpenBy, Blamed, Between, Unrelated, Released, Beside, Known, Guarded, Gave;
    BetweenFacts(c, w, pr, from);
    BetweenStep(c, w, w', i, z, own, pr, from, x);
    DirFdsSame(c, w, w', i, z, own);
    PrefixTrans(tally.ids, w.flushFailed, w'.flushFailed);
    OthersApart(c, w, ops, i, z, pr, from, x);
    SweepStep(c, w, w', ops, op, i, own, pr.done, from, pr.limit, z, before, after);
    BlamedStep(w.left, w'.left, pr.left, ops, i, op, tally.failed);
    OpenStep(w, w', ops, i, op);
    SubsetSize(w'.open, w.open);
    IdleStep(c, w, w', i, z, own, |ops|);
  }

  lemma OthersApart(c: Config, w: World, ops: seq<Op>, i: nat, z: Zone, pr: Progress, from: nat, x: nat)
    requires ConfigOK(c) && Unrelated(c, w, z, pr, from, x) && Listed(c, ops, pr.done, pr.limit) && (x == pr.done + i || x == |c.operands|)
    ensures Guarded(c) ==> forall j :: 0 <= j < |ops| && j != i ==> ops[j].path != z.path
  {
    hide Guarded, ZoneAt, Behind;
    if Guarded(c) {
      forall j | 0 <= j < |ops| && j != i ensures ops[j].path != z.path { OtherZone(c, z, x, pr.done + j); }
    }
  }

  /** A step that leaves what operands hold. */
  lemma BatchStepBy(c: Config, w: World, w': World, ops: seq<Op>, op: Op, own: Ino, pr: Progress, from: nat, i: nat, before: Phase, after: Phase, tally: Tally, z: Zone, x: nat)
    requires ConfigOK(c) && InBatch(c, w, ops, pr, from, i, before, after, tally) && i < |ops| && own >= pr.limit
    requires forall j :: 0 <= j < |ops| && j != i ==> ops[j].fail || ops[j].ino != own
    requires Frame(c, w, w', i, z, own) && Steady(c, w') && Unrelated(c, w, z, pr, from, x) && Beside(c, ops, i, z, pr.done, from, before, after)
    requires x == |c.operands| || (x == pr.done + i && (IsPlain(c.settings) || x < from))
    requires (MaySimple(c.settings) ==> OperandsKept(c, w, w', pr.limit)) && Gave(c, w, w', z.path)
    requires op.path == ops[i].path && op.ino == ops[i].ino && (ops[i].fail ==> op.fail) && HoldsAt(c, w', op, pr.done + i, from, i, after)
    requires |w'.slots| == PENDING_SLOTS && w'.slots[PENDING_BACKUP] == Clear
    requires w'.open <= w.open && Released(ops[i], op, w')
    requires (ops[i].leftover ==> op.leftover || op.fail) && (!op.fail && !op.leftover && tally.failed == 0 ==> w'.left == w.left)
    ensures InBatch(c, w', ops[i := op], pr, from, i + 1, before, after, tally)
  {
    hide Unclaimed, IsPlain, Frame, Steady, HoldsAt, Going, Unrelated, Released, Beside, OperandsKept, Fate, Distinct, Gave;
    KnownStep(c, w, w', ops, pr, from, i, before, after, tally);
    GoingStep(c, w, w', ops, op, own, pr, from, i, before, after, tally, z, x);
    assert Unclaimed(c, w', Turn(c, ops, pr, from)) by { StepUnclaimed(c, w, w', ops, own, pr, from, i, before, after, tally, z, x); }
    FatedStep(c, w, w', ops, ops[i := op], pr, from);
  }

  lemma KnownStep(c: Config, w: World, w': World, ops: seq<Op>, pr: Progress, from: nat, i: nat, before: Phase, after: Phase, tally: Tally)
    requires Going(c, w, ops, pr, from, i, before, after, tally) && (MaySimple(c.settings) ==> OperandsKept(c, w, w', pr.limit))
    ensures Known(c, w', from)
  {
    hide Steady, Rest, Swept, Blamed, OpenBy, Listed, OperandsKept;
    if MaySimple(c.settings) { FateKept(c, w, w', from, pr.limit); }
  }

  lemma StepUnclaimed(c: Config, w: World, w': World, ops: seq<Op>, own: Ino, pr: Progress, from: nat, i: nat, before: Phase, after: Phase, tally: Tally, z: Zone, x: nat)
    requires ConfigOK(c) && InBatch(c, w, ops, pr, from, i, before, after, tally) && i < |ops|
    requires Frame(c, w, w', i, z, own) && Unrelated(c, w, z, pr, from, x)
    requires x == |c.operands| || (x == pr.done + i && (IsPlain(c.settings) || x < from))
    ensures Unclaimed(c, w', Turn(c, ops, pr, from))
  {
    hide Frame, Going, Unclaimed, ZoneAt, Fate, Distinct, IsPlain, Behind;
    UnclaimedStep(c, w, w', i, z, own, x, Turn(c, ops, pr, from), Turn(c, ops, pr, from));
  }

  lemma FatedStep(c: Config, w: World, w': World, ops: seq<Op>, ops': seq<Op>, pr: Progress, from: nat)
    requires Unclaimed(c, w', Turn(c, ops, pr, from))
    requires Fated(c, w, ops, pr, from) && (MaySimple(c.settings) ==> OperandsKept(c, w, w', pr.limit))
    requires |ops'| == |ops| && forall j :: 0 <= j < |ops| && ops[j].fail ==> ops'[j].fail
    ensures Fated(c, w', ops', pr, from)
  {
    hide Unclaimed, IsPlain, Fate, OperandsKept, Distinct;
    if Exactly(c) && AllGiven(ops', pr, from) { FateKept(c, w, w', from, pr.limit); }
  }

  lemma BatchStep(c: Config, w: World, w': World, ops: seq<Op>, op: Op, pr: Progress, from: nat, i: nat, before: Phase, after: Phase, tally: Tally, z: Zone, x: nat)
    requires ConfigOK(c) && InBatch(c, w, ops, pr, from, i, before, after, tally) && i < |ops| && !ops[i].fail
    requires Frame(c, w, w', i, z, ops[i].ino) && Steady(c, w') && Unrelated(c, w, z, pr, from, x) && Beside(c, ops, i, z, pr.done, from, before, after)
    requires (x == |c.operands| || (x == pr.done + i && IsPlain(c.settings))) && z == Own(z.path)
    requires op.path == ops[i].path && op.ino == ops[i].ino && HoldsAt(c, w', op, pr.done + i, from, i, after)
    requires |w'.slots| == PENDING_SLOTS && w'.slots[PENDING_BACKUP] == Clear
    requires w'.open <= w.open && Released(ops[i], op, w')
    requires (ops[i].leftover ==> op.leftover || op.fail) && (!op.fail && !op.leftover && tally.failed == 0 ==> w'.left == w.left)
    ensures InBatch(c, w', ops[i := op], pr, from, i + 1, before, after, tally)
  {
    hide Frame, Steady, HoldsAt, Going, Fated, Released, Beside, OperandsKept, Behind, ZoneAt, Gave;
    GaveOwn(c, w, w', i, z.path, ops[i].ino);
    ListedOwn(c, w, ops, pr, from, i, before, after, tally);
    assert pr.limit <= w.next by { InBatchFacts(c, w, ops, pr, from, i, before, after, tally); }
    if x == |c.operands| { NowhereKept(c, w, w', i, z, ops[i].ino, pr.limit); }
    BatchStepBy(c, w, w', ops, op, ops[i].ino, pr, from, i, before, after, tally, z, x);
  }

  lemma ListedOwn(c: Config, w: World, ops: seq<Op>, pr: Progress, from: nat, i: nat, before: Phase, after: Phase, tally: Tally)
    requires Going(c, w, ops, pr, from, i, before, after, tally) && i < |ops| && !ops[i].fail
    ensures ops[i].ino >= pr.limit && forall j :: 0 <= j < |ops| && j != i ==> ops[j].fail || ops[j].ino != ops[i].ino
  {
    hide Between, Swept, Blamed, OpenBy, IdleFrom;
  }

  lemma BatchSkip(c: Config, w: World, ops: seq<Op>, pr: Progress, from: nat, i: nat, before: Phase, after: Phase, tally: Tally)
    requires InBatch(c, w, ops, pr, from, i, before, after, tally) && i < |ops| && HoldsAt(c, w, ops[i], pr.done + i, from, i, after)
    ensures InBatch(c, w, ops, pr, from, i + 1, before, after, tally)
  {
    hide Swept, HoldsAt, IdleFrom, OpenBy, Blamed, Between, Listed, Fated;
    SweepSkip(c, w, ops, pr.done, from, i, before, after);
  }

  lemma BetweenFacts(c: Config, w: World, pr: Progress, from: nat)
    requires Between(c, w, pr, from)
    ensures Steady(c, w) && pr.limit <= w.next && w.dirFds == 0 && pr.done <= from <= |c.operands| && Known(c, w, from)
    ensures Rest(c, w, pr.good, pr.done, from, pr.limit)
  {
    hide Steady, Durable, Waits, Live, Known;
  }

  lemma NowhereClear(c: Config, w: World, pr: Progress, from: nat)
    requires ConfigOK(c) && pr.done <= from <= |c.operands|
    ensures Unrelated(c, w, Own(Nowhere(c)), pr, from, |c.operands|)
  {
    hide Outside, Durable, Live, Longer;
    forall x | 0 <= x < |c.operands| ensures Outside(Own(Nowhere(c)), c.operands[x]) {
      ZonesApart(c, Own(Nowhere(c)), |c.operands|, x);
    }
  }

  lemma NowhereBeside(c: Config, ops: seq<Op>, i: nat, done: nat, from: nat, limit: Ino, before: Phase, after: Phase)
    requires ConfigOK(c) && Listed(c, ops, done, limit)
    ensures Beside(c, ops, i, Own(Nowhere(c)), done, from, before, after)
  {
    hide Outside, Matters, Longer;
    forall j | 0 <= j < |ops| ensures Outside(Own(Nowhere(c)), ops[j].path) {
      ZonesApart(c, Own(Nowhere(c)), |c.operands|, done + j);
    }
  }

  /** Steps about no operand need no more. */
  lemma NowhereFree(c: Config, w: World, ops: seq<Op>, pr: Progress, from: nat, i: nat, before: Phase, after: Phase, tally: Tally)
    requires ConfigOK(c) && Going(c, w, ops, pr, from, i, before, after, tally)
    ensures Unrelated(c, w, Own(Nowhere(c)), pr, from, |c.operands|) && Beside(c, ops, i, Own(Nowhere(c)), pr.done, from, before, after)
  {
    hide Unrelated, Beside, Between, Swept, Blamed, OpenBy, Nowhere;
    BetweenFacts(c, w, pr, from);
    NowhereClear(c, w, pr, from);
    NowhereBeside(c, ops, i, pr.done, from, pr.limit, before, after);
  }

  /** A step that is about no operand. */
  lemma BatchStay(c: Config, w: World, w': World, ops: seq<Op>, pr: Progress, from: nat, i: nat, before: Phase, after: Phase, tally: Tally)
    requires ConfigOK(c) && PointOK(c, w) && InBatch(c, w, ops, pr, from, i, before, after, tally)
    requires Frame(c, w, w', PENDING_BACKUP, Own(Nowhere(c)), w.next) && Steady(c, w')
    requires w'.slots == w.slots && w'.open == w.open && w'.left == w.left
    ensures InBatch(c, w', ops, pr, from, i, before, after, tally)
  {
    hide Frame, Steady, Rest, Swept, Blamed, Between, WellFormed, SignalOK, PublishOK, CrashOK, HistoryOK, FdsOK, Nowhere, Unrelated, Listed, Fated, Known, OperandsKept, OpenBy, Gave;
    var z := Own(Nowhere(c));
    BetweenFacts(c, w, pr, from);
    NowhereFree(c, w, ops, pr, from, i, before, after, tally);
    NowhereZone(c);
    NowhereKept(c, w, w', PENDING_BACKUP, z, w.next, pr.limit);
    FateKept(c, w, w', from, pr.limit);
    assert Unclaimed(c, w', Turn(c, ops, pr, from)) by { StayUnclaimed(c, w, w', ops, pr, from, z); }
    FatedStep(c, w, w', ops, ops, pr, from);
    BatchIdle(c, w, ops, pr, from, i, before, after, tally);
    GaveOwn(c, w, w', PENDING_BACKUP, z.path, w.next);
    BetweenStep(c, w, w', PENDING_BACKUP, z, w.next, pr, from, |c.operands|);
    DirFdsSame(c, w, w', PENDING_BACKUP, z, w.next);
    PrefixTrans(tally.ids, w.flushFailed, w'.flushFailed);
    SweepStay(c, w, w', ops, i, pr.done, from, pr.limit, z, before, after);
    assert OpenBy(w', ops) by { OpenSame(w, w', ops); }
  }

  lemma StayUnclaimed(c: Config, w: World, w': World, ops: seq<Op>, pr: Progress, from: nat, z: Zone)
    requires ConfigOK(c) && Fated(c, w, ops, pr, from) && Frame(c, w, w', PENDING_BACKUP, z, w.next) && ZoneAt(c, z, |c.operands|)
    ensures Unclaimed(c, w', Turn(c, ops, pr, from))
  {
    hide Frame, Unclaimed, ZoneAt, Fate, Distinct, IsPlain;
    UnclaimedStep(c, w, w', PENDING_BACKUP, z, w.next, |c.operands|, Turn(c, ops, pr, from), Turn(c, ops, pr, from));
  }

  lemma OpenSame(w: World, w': World, ops: seq<Op>)
    requires OpenBy(w, ops) && w'.open == w.open
    ensures OpenBy(w', ops)
  {}

  lemma BatchIdle(c: Config, w: World, ops: seq<Op>, pr: Progress, from: nat, i: nat, before: Phase, after: Phase, tally: Tally)
    requires Going(c, w, ops, pr, from, i, before, after, tally)
    ensures |ops| <= BATCH && |w.slots| == PENDING_SLOTS && w.slots[PENDING_BACKUP] == Clear
  {
    hide Between, Swept, Blamed, OpenBy;
  }

  lemma NowhereZone(c: Config)
    ensures ZoneAt(c, Own(Nowhere(c)), |c.operands|)
  {}

  lemma InBatchFacts(c: Config, w: World, ops: seq<Op>, pr: Progress, from: nat, i: nat, before: Phase, after: Phase, tally: Tally)
    requires InBatch(c, w, ops, pr, from, i, before, after, tally)
    ensures Steady(c, w) && w.dirFds == 0 && |w.open| <= |ops| <= c.batch && |w.slots| == PENDING_SLOTS && Listed(c, ops, pr.done, pr.limit)
    ensures pr.done + |ops| <= |c.operands| && pr.limit <= w.next && tally.ids <= w.flushFailed && pr.done <= from <= |c.operands|
    ensures forall j :: 0 <= j < |ops| ==> ops[j].path == c.operands[pr.done + j]
    ensures |ops| <= BATCH && w.slots[PENDING_BACKUP] == Clear && Known(c, w, from)
    ensures i < |ops| ==> HoldsAt(c, w, ops[i], pr.done + i, from, i, before)
  {
    hide Steady, Rest, HoldsAt, Blamed, OpenBy, Known, Between;
    BetweenFacts(c, w, pr, from);
  }

  lemma NextPhase(c: Config, w: World, ops: seq<Op>, pr: Progress, from: nat, i: nat, before: Phase, after: Phase, next: Phase, tally: Tally)
    requires InBatch(c, w, ops, pr, from, i, before, after, tally) && i >= |ops|
    ensures InBatch(c, w, ops, pr, from, 0, after, next, tally)
  {
    hide Swept, HoldsAt, IdleFrom, OpenBy, Blamed, Between, Listed, Fated;
    SweptEnd(c, w, ops, pr.done, from, i, before, after);
    SweptStart(c, w, ops, pr.done, from, after, next);
  }

  /* ----- building ----- */

  /** A plain file takes the operand's own name while it is built, if that is free;
      any other has nothing to do with it until it is finished. */
  ghost function BuildZone(c: Config, w: World, i: nat): Zone
    requires i < |c.operands|
  {
    Own(if IsPlain(c.settings) && c.operands[i] !in w.names then c.operands[i] else Nowhere(c))
  }

  ghost function BuildIndex(c: Config, w: World, i: nat): nat
    requires i < |c.operands|
  {
    if IsPlain(c.settings) && c.operands[i] !in w.names then i else |c.operands|
  }

  lemma BuildZoneClear(c: Config, w: World, pr: Progress, i: nat)
    requires ConfigOK(c) && pr.done <= i < |c.operands|
    ensures Unrelated(c, w, BuildZone(c, w, i), pr, pr.done, BuildIndex(c, w, i))
  {
    hide Nowhere, Durable, Live, IsTemp;
    NowhereClear(c, w, pr, pr.done);
    if BuildIndex(c, w, i) == i {
      forall x | 0 <= x < pr.done && Durable(c, w, c.operands[x], pr.limit) ensures Outside(Own(c.operands[i]), c.operands[x]) {
        DurableNamed(c, w, c.operands[x], pr.limit);
        OperandFacts(c, c.operands[x]);
      }
    }
  }

  lemma BuildSwept(c: Config, w: World, w': World, ops: seq<Op>, op: Op, done: nat, limit: Ino, z: Zone, x: nat)
    requires ConfigOK(c) && WellFormed(c, w) && Listed(c, ops, done, limit) && Swept(c, w, ops, done, done, 0, Raw, Raw) && limit <= w.next
    requires |ops| < BATCH && done + |ops| < |c.operands| && op.path == c.operands[done + |ops|]
    requires Built(c, w', op, |ops|, false) && Grows(c, w, w', |ops|, z, op.ino) && ZoneAt(c, z, x) && (x == done + |ops| || x == |c.operands|)
    ensures Listed(c, ops + [op], done, limit) && Swept(c, w', ops + [op], done, done, 0, Raw, Raw)
  {
    hide Frame, Steady, Outside, Guarded, Built, WellFormed, ZoneAt;
    var i := |ops|;
    forall j | 0 <= j < i ensures Built(c, w', ops[j], j, false) && (ops[j].fail || ops[j].ino != op.ino) {
      assert HoldsAt(c, w, ops[j], done + j, done, j, Raw);
      HoldsSlotRange(c, w, ops[j], j, Raw, false);
      if !ops[j].fail { InoBelow(c, w, ops[j].ino); }
      if Guarded(c) { OtherZone(c, z, x, done + j); }
      BuiltStable(c, w, w', i, z, op.ino, ops[j], j, false, false);
    }
    forall j | 0 <= j < |ops + [op]| ensures HoldsAt(c, w', (ops + [op])[j], done + j, done, j, Raw) {}
  }

  lemma IdleGrows(c: Config, w: World, w': World, z: Zone, own: Ino, n: nat)
    requires Frame(c, w, w', n, z, own) && IdleFrom(w, n) && |w'.slots| == PENDING_SLOTS && w'.slots[PENDING_BACKUP] == w.slots[PENDING_BACKUP]
    requires n < BATCH
    ensures IdleFrom(w', n + 1)
  {
    hide Frame;
    forall s | n + 1 <= s < PENDING_SLOTS ensures w'.slots[s] == Clear {
      if s < BATCH { SlotSame(c, w, w', n, z, own, s); }
    }
  }

  lemma OpenGrows(w: World, w': World, ops: seq<Op>, op: Op, n: Ino)
    requires OpenBy(w, ops) && w'.open <= w.open + (if op.fd.Some? then {n} else {}) && (op.fd.Some? ==> op.fd == Some(n))
    ensures OpenBy(w', ops + [op]) && |w'.open| <= |w.open| + 1
  {
    var ops' := ops + [op];
    forall m | m in w'.open ensures exists j :: 0 <= j < |ops'| && ops'[j].fd == Some(m) {
      if m in w.open {
        var j :| 0 <= j < |ops| && ops[j].fd == Some(m);
        assert ops'[j].fd == Some(m);
      } else {
        assert ops'[|ops|].fd == Some(m);
      }
    }
    SubsetSize(w'.open, w.open + {n});
    assert |w.open + {n}| <= |w.open| + 1;
  }

  lemma BlamedGrows(left: set<Path>, left': set<Path>, left0: set<Path>, ops: seq<Op>, op: Op, failed: nat)
    requires Blamed(left, left0, ops, failed) && (!op.fail && !op.leftover ==> left' == left)
    ensures Blamed(left', left0, ops + [op], failed)
  {
    var ops' := ops + [op];
    if failed == 0 && left' != left0 {
      if op.fail || op.leftover {
        assert ops'[|ops|] == op;
      } else {
        var j :| 0 <= j < |ops| && (ops[j].fail || ops[j].leftover);
        assert ops'[j] == ops[j];
      }
    }
  }

  lemma BuiltFd(c: Config, w: World, op: Op, j: nat)
    requires Built(c, w, op, j, false)
    ensures op.fd.Some? ==> op.fd == Some(op.ino)
  {
    hide Finished;
  }

  lemma BuildStep(c: Config, w: World, w': World, ops: seq<Op>, op: Op, pr: Progress, tally: Tally, z: Zone, x: nat)
    requires ConfigOK(c) && PointOK(c, w) && InBatch(c, w, ops, pr, pr.done, 0, Raw, Raw, tally)
    requires |ops| < c.batch && pr.done + |ops| < |c.operands| && op.path == c.operands[pr.done + |ops|]
    requires z == BuildZone(c, w, pr.done + |ops|) && x == BuildIndex(c, w, pr.done + |ops|)
    requires Built(c, w', op, |ops|, false) && Grows(c, w, w', |ops|, z, op.ino)
    requires w'.open <= w.open + (if op.fd.Some? then {op.ino} else {})
    requires !op.fail && !op.leftover ==> w'.left == w.left
    ensures InBatch(c, w', ops + [op], pr, pr.done, 0, Raw, Raw, tally)
  {
    hide Unclaimed, IsPlain, Frame, Steady, Rest, Swept, OpenBy, Blamed, Between, Unrelated, BuildZone, Listed, Built, Known, Fate, Distinct, Gave;
    hide WellFormed, SignalOK, PublishOK, CrashOK, HistoryOK, FdsOK, OperandsKept;
    BatchIdle(c, w, ops, pr, pr.done, 0, Raw, Raw, tally);
    BetweenFacts(c, w, pr, pr.done);
    BuildZoneClear(c, w, pr, pr.done + |ops|);
    BuildZoneAt(c, w, pr.done + |ops|);
    BuildKnown(c, w, w', |ops|, op.ino, pr, z, x);
    GaveOwn(c, w, w', |ops|, z.path, op.ino) by { assert z == Own(z.path) by { BuildZoneOwn(c, w, pr.done + |ops|); } }
    BetweenStep(c, w, w', |ops|, z, op.ino, pr, pr.done, x);
    DirFdsSame(c, w, w', |ops|, z, op.ino);
    PrefixTrans(tally.ids, w.flushFailed, w'.flushFailed);
    BuildSwept(c, w, w', ops, op, pr.done, pr.limit, z, x);
    BuiltFd(c, w', op, |ops|);
    OpenGrows(w, w', ops, op, op.ino);
    IdleGrows(c, w, w', z, op.ino, |ops|);
    BlamedGrows(w.left, w'.left, pr.left, ops, op, tally.failed);
    assert Unclaimed(c, w', Turn(c, ops + [op], pr, pr.done)) by { BuiltUnclaimed(c, w, w', ops, op, pr, z, x); }
    assert AllGiven(ops, pr, pr.done) == AllGiven(ops + [op], pr, pr.done);
  }

  lemma BuiltUnclaimed(c: Config, w: World, w': World, ops: seq<Op>, op: Op, pr: Progress, z: Zone, x: nat)
    requires ConfigOK(c) && Fated(c, w, ops, pr, pr.done) && pr.done + |ops| < |c.operands|
    requires z == BuildZone(c, w, pr.done + |ops|) && x == BuildIndex(c, w, pr.done + |ops|) && Frame(c, w, w', |ops|, z, op.ino)
    ensures Unclaimed(c, w', Turn(c, ops + [op], pr, pr.done))
  {
    hide Frame, Unclaimed, ZoneAt, Fate, Distinct, IsPlain, BuildZone;
    BuildZoneAt(c, w, pr.done + |ops|);
    UnclaimedStep(c, w, w', |ops|, z, op.ino, x, Turn(c, ops, pr, pr.done), Turn(c, ops + [op], pr, pr.done));
  }

  lemma BuildZoneOwn(c: Config, w: World, i: nat)
    requires i < |c.operands|
    ensures BuildZone(c, w, i) == Own(BuildZone(c, w, i).path)
  {}

  lemma BuildZoneAt(c: Config, w: World, i: nat)
    requires i < |c.operands|
    ensures ZoneAt(c, BuildZone(c, w, i), BuildIndex(c, w, i))
  {}

  lemma BuildKnown(c: Config, w: World, w': World, slot: nat, own: Ino, pr: Progress, z: Zone, x: nat)
    requires ConfigOK(c) && Frame(c, w, w', slot, z, own) && own >= pr.limit && pr.limit <= w.next && Known(c, w, pr.done)
    requires ZoneAt(c, z, x) && (x == |c.operands| || IsPlain(c.settings))
    ensures Known(c, w', pr.done) && (Exactly(c) && Fate(c, w, pr.done, pr.limit) ==> Fate(c, w', pr.done, pr.limit))
  {
    hide Frame, Fate, ZoneAt, OperandsKept, Distinct;
    if x == |c.operands| {
      NowhereKept(c, w, w', slot, z, own, pr.limit);
      FateKept(c, w, w', pr.done, pr.limit);
    }
  }

  lemma NothingBuilt(c: Config, w: World, pr: Progress, tally: Tally)
    requires AtStart(c, w, pr) && tally.ids <= w.flushFailed
    ensures InBatch(c, w, [], pr, pr.done, 0, Raw, Raw, tally) && ProbesOK(c, [])
  {
    hide Steady, Durable, Waits, Fate, Distinct, Known, Live;
  }

  lemma IdleSlot(c: Config, w: World, ops: seq<Op>, pr: Progress, tally: Tally)
    requires InBatch(c, w, ops, pr, pr.done, 0, Raw, Raw, tally) && |ops| < BATCH
    ensures |w.slots| == PENDING_SLOTS && w.slots[|ops|] == Clear && Steady(c, w)
  {
    hide Steady, Rest, Swept, OpenBy, Blamed, Listed, Fated, Known;
  }

  /** Without -f, names that were given are kept; so if each operand that was given last
      has its name, every one has. */
  lemma {:induction false} LiveThere(c: Config, w: World, m: nat, x: nat)
    requires !c.settings.force && x < m <= |c.operands|
    requires forall y :: 0 <= y < m && Live(c, y, m) ==> c.operands[y] in w.names
    ensures c.operands[x] in w.names
    decreases m - x
  {
    hide Stands;
    if !Live(c, x, m) {
      var y :| x < y < m && Hit(c, x, y);
      LiveThere(c, w, m, y);
    }
  }

  /** So an operand that has no name yet is not claimed. */
  lemma NotClaimed(c: Config, w: World, m: nat)
    requires !c.settings.force && PointOK(c, w) && m < |c.operands| && c.operands[m] !in w.names
    requires forall y :: 0 <= y < m && Live(c, y, m) ==> c.operands[y] in w.names
    ensures !ClaimedAt(c, m)
  {
    hide PointOK, Live;
    FreeNotInitP(c, w, c.operands[m]);
    forall x | 0 <= x < m ensures c.operands[x] != c.operands[m] { LiveThere(c, w, m, x); }
  }

  /** What the building of the operand x shows. */
  ghost predicate BuildShows(c: Config, x: nat) {
    x < |c.operands| ==> !Nameless(c.operands[x]) && (IsPlain(c.settings) ==> !ClaimedAt(c, x))
  }

  /** What its naming shows. */
  ghost predicate NameShows(c: Config, x: nat) {
    x < |c.operands| ==> if c.settings.force then !IsDirectory(c, c.operands[x]) else IsPlain(c.settings) || !ClaimedAt(c, x)
  }

  lemma ShowsUnblocked(c: Config, x: nat)
    requires x < |c.operands| && BuildShows(c, x) && NameShows(c, x)
    ensures !BlockedAt(c, x)
  {
    hide Nameless, ClaimedAt;
  }

  /** Plain files that were built have their names. */
  lemma PlainThere(c: Config, w: World, ops: seq<Op>, pr: Progress, tally: Tally)
    requires InBatch(c, w, ops, pr, pr.done, 0, Raw, Raw, tally) && pr.good && AllOk(ops) && IsPlain(c.settings)
    ensures forall y :: 0 <= y < pr.done + |ops| && Live(c, y, pr.done + |ops|) ==> c.operands[y] in w.names
  {
    hide Steady, HoldsAt, Blamed, OpenBy, Known, Waits, Durable, Fated, IsPlain, Listed, Hit;
    InBatchFacts(c, w, ops, pr, pr.done, 0, Raw, Raw, tally);
    forall y | 0 <= y < pr.done + |ops| && Live(c, y, pr.done + |ops|) ensures c.operands[y] in w.names {
      if y < pr.done {
        assert Live(c, y, pr.done);
        DurableNamed(c, w, c.operands[y], pr.limit);
      } else {
        var j := y - pr.done;
        assert HoldsAt(c, w, ops[j], pr.done + j, pr.done, j, Raw);
        assert Fine(ops[j]);
        PlainBuiltName(c, w, ops[j], y, pr.done, j);
      }
    }
  }

  lemma PlainBuiltName(c: Config, w: World, op: Op, x: nat, from: nat, j: nat)
    requires Steady(c, w) && HoldsAt(c, w, op, x, from, j, Raw) && !op.fail && IsPlain(c.settings)
    ensures op.path in w.names
  {
    hide Steady, FileDone, Dir, IsPlain, NamedOnly, Hidden;
    SlotNames(c, w, j);
  }

  /** Where nothing stands in the way, the next operand can be built. */
  lemma BuildUnhindered(c: Config, w: World, ops: seq<Op>, pr: Progress, tally: Tally)
    requires InBatch(c, w, ops, pr, pr.done, 0, Raw, Raw, tally) && pr.done + |ops| < |c.operands| && !Hindered(c)
    ensures !Nameless(c.operands[pr.done + |ops|]) && (c.settings.force || c.operands[pr.done + |ops|] !in w.names)
  {
    hide Going, Fate, Distinct, IsPlain, Stands, Nameless;
    var x := pr.done + |ops|;
    assert !HinderedAt(c, x);
    if !c.settings.force {
      FreeOrHindered(c);
      assert Unclaimed(c, w, Turn(c, ops, pr, pr.done));
    }
  }

  lemma AllOkNone()
    ensures AllOk([])
  {}

  /** What is not fine is not made so. */
  lemma AllOkUpdate(ops: seq<Op>, i: nat, op: Op)
    requires i < |ops| && (Fine(op) ==> Fine(ops[i]))
    ensures AllOk(ops[i := op]) ==> AllOk(ops)
  {
    var ops' := ops[i := op];
    if AllOk(ops') {
      assert ops'[i] == op;
      forall j | 0 <= j < |ops| ensures Fine(ops[j]) { assert j != i ==> ops'[j] == ops[j]; }
    }
  }

  lemma AllOkMore(ops: seq<Op>, op: Op)
    ensures AllOk(ops + [op]) <==> AllOk(ops) && Fine(op)
  {
    var ops' := ops + [op];
    assert ops'[|ops|] == op && forall j :: 0 <= j < |ops| ==> ops'[j] == ops[j];
  }

  lemma BuiltShows(c: Config, w: World, ops: seq<Op>, pr: Progress, tally: Tally)
    requires PointOK(c, w) && InBatch(c, w, ops, pr, pr.done, 0, Raw, Raw, tally) && pr.good && AllOk(ops) && pr.done + |ops| < |c.operands|
    requires var p := c.operands[pr.done + |ops|]; !Nameless(p) && (IsPlain(c.settings) ==> p !in w.names)
    ensures BuildShows(c, pr.done + |ops|)
  {
    hide PointOK, InBatch, Nameless, ClaimedAt, Live;
    if IsPlain(c.settings) {
      PlainThere(c, w, ops, pr, tally);
      NotClaimed(c, w, pr.done + |ops|);
    }
  }

  method BuildAll(k: Machine, paths: seq<Path>, done: nat, n: nat, ghost pr: Progress, ghost tally: Tally) returns (ops: seq<Op>)
    requires k.Valid() && paths == k.c.operands && pr.done == done && done + n <= |paths| && n <= k.c.batch
    requires AtStart(k.c, k.w, pr) && tally.ids <= k.w.flushFailed
    modifies k
    ensures pr.good && AllOk(ops) ==> forall x :: done <= x < done + n ==> BuildShows(k.c, x)
    ensures AllOk(ops) || k.faults > old(k.faults) || Hindered(k.c)
    ensures k.Valid() && old(k.trace) <= k.trace && old(k.faults) <= k.faults && |ops| == n
    ensures InBatch(k.c, k.w, ops, pr, done, 0, Raw, Raw, tally) && k.w.blocked == old(k.w).blocked
  {
    hide PointOK, Tied, Went, KindsOK, Steady, Frame, ProbesOK, Built, InBatch, AtStart, BuildZone, ConfigOK, Hindered, Nameless, BuildShows, IsPlain, AllOk;
    var probes: seq<ProbeEntry> := [];
    ops := [];
    assert AllOk(ops) by { AllOkNone(); }
    NothingBuilt(k.c, k.w, pr, tally);
    BatchLimit(k.c);
    while |ops| < n
      invariant pr.good && AllOk(ops) ==> forall x :: done <= x < done + |ops| ==> BuildShows(k.c, x)
      invariant AllOk(ops) || k.faults > old(k.faults) || Hindered(k.c)
      invariant |ops| <= n && k.Valid() && old(k.trace) <= k.trace && old(k.faults) <= k.faults && ProbesOK(k.c, probes)
      invariant InBatch(k.c, k.w, ops, pr, done, 0, Raw, Raw, tally) && k.w.blocked == old(k.w).blocked
    {
      ghost var w := k.w;
      ghost var z := BuildZone(k.c, w, done + |ops|);
      IdleSlot(k.c, k.w, ops, pr, tally);
      OpenRoom(k.c, k.w, ops, pr, tally);
      BuildZonePlain(k.c, w, done + |ops|);
      if !Hindered(k.c) { BuildUnhindered(k.c, w, ops, pr, tally); }
      var op;
      op, probes := BuildOne(k, paths[done + |ops|], |ops|, probes, z);
      BuildStep(k.c, w, k.w, ops, op, pr, tally, z, BuildIndex(k.c, w, done + |ops|));
      AllOkMore(ops, op);
      if pr.good && AllOk(ops) && Fine(op) { BuiltShows(k.c, w, ops, pr, tally); }
      ops := ops + [op];
    }
  }

  lemma BatchLimit(c: Config)
    requires ConfigOK(c)
    ensures 1 <= c.batch <= BATCH
  {}

  lemma OpenRoom(c: Config, w: World, ops: seq<Op>, pr: Progress, tally: Tally)
    requires InBatch(c, w, ops, pr, pr.done, 0, Raw, Raw, tally)
    ensures |w.open| <= |ops|
  {
    hide Between, Listed, Swept, Blamed, OpenBy, Fated;
  }

  lemma BuildZonePlain(c: Config, w: World, i: nat)
    requires i < |c.operands|
    ensures BuildZone(c, w, i) == Own(c.operands[i]) || !IsPlain(c.settings) || c.operands[i] in w.names
  {}
}
