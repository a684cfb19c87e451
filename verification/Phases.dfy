/** Where each operand of a batch stands, and that a step for one of them, or
    for none, leaves all others where they stand. */
module Phases {
  import opened Names
  import opened Spec
  import opened World
  import opened Order
  import opened Steps
  import opened Frames
  import opened Commit
  import opened Backup
  import opened Flush
  import opened Build
  import opened Naming
  import opened Stable

  /** What the flush set holds: directories still to flush, how many failed so
      far, and which are suspected. */
  datatype Queue = Queue(dirs: seq<string>, failed: nat, suspect: iset<string>)

  /** The operand's name will be durable, is so, or a failure is on record. */
  ghost predicate Due(c: Config, w: World, qu: Queue, p: Path) {
    Dir(p) in qu.dirs || SettledAt(c, w, p) || qu.failed > 0
  }

  /** The exchange will be flushed, is so, or the directory is suspected. */
  ghost predicate SpareDue(c: Config, w: World, qu: Queue, p: Path) {
    Guarded(c) && c.flushes(Id(c, p)) ==> Dir(p) in qu.dirs || NoSwapAt(w, p) || Dir(p) in qu.suspect
  }

  ghost predicate Queued(c: Config, w: World, qu: Queue, op: Op, live: bool) {
    && (!op.fail && live ==> Due(c, w, qu, op.path))
    && (op.spare.Some? ==> SpareDue(c, w, qu, op.path))
  }

  /** The file was flushed under the name it has. */
  ghost predicate SyncedOp(c: Config, w: World, op: Op) {
    op.fail || (op.ino in w.files && w.files[op.ino].synced && (op.way == Plain ==> op.path in w.anchored))
  }

  ghost predicate AnchoredOp(w: World, op: Op, live: bool) {
    op.fail || !live || op.path in w.anchored
  }

  /** No spare is left. */
  predicate SpareGone(w: World, op: Op, slot: nat) {
    slot < |w.slots| && w.slots[slot] == Clear && op.spare == None
  }

  /** Raw: built. Tried: an fsync was made, and failed for the operands in bad.
      Flat: flushed, and closed if it has its name. Given: named. Noted: an fsync
      was made again. Shut: closed. Over: its spare is gone or given up. */
  datatype Phase =
    | Raw
    | Tried(bad: set<nat>)
    | Flat
    | Given(qu: Queue)
    | Noted(bad: set<nat>, qu: Queue)
    | Shut(qu: Queue)
    | Over(qu: Queue)

  /** live: the operand's own name still matters. */
  ghost predicate Holds(c: Config, w: World, op: Op, j: nat, ph: Phase, live: bool) {
    match ph
    case Raw => Built(c, w, op, j, false)
    case Tried(bad) => Built(c, w, op, j, false) && (j !in bad ==> SyncedOp(c, w, op))
    case Flat => Built(c, w, op, j, true)
    case Given(qu) => Named(c, w, op, j, live) && Queued(c, w, qu, op, live)
    case Noted(bad, qu) =>
      && Queued(c, w, qu, op, live)
      && if op.fail then Closed(c, w, op, j, live) && HoldsSlot(c, w, op, j)
         else Named(c, w, op, j, live) && (j !in bad ==> AnchoredOp(w, op, live))
    case Shut(qu) => Closed(c, w, op, j, live) && HoldsSlot(c, w, op, j) && Queued(c, w, qu, op, live)
    case Over(qu) => Closed(c, w, op, j, live) && Queued(c, w, qu, op, live) && SpareGone(w, op, j)
  }

  /** Whether the name of the operand x matters in this phase: until operands are
      named, only a file made under its own name has one. */
  ghost predicate Matters(c: Config, x: nat, from: nat, ph: Phase) {
    match ph
    case Raw => false
    case Tried(_) => IsPlain(c.settings)
    case Flat => IsPlain(c.settings)
    case _ => x < |c.operands| && Live(c, x, from)
  }

  /** An operand that was built says whether it has its own name. */
  lemma BuiltWay(c: Config, w: World, op: Op, j: nat, flushed: bool)
    requires Built(c, w, op, j, flushed) && !op.fail
    ensures op.way == Plain <==> IsPlain(c.settings)
  {
    hide IsTemp, Dir, FileDone, Hidden, NamedOnly, IsPlain;
  }

  lemma QueuedStable(c: Config, w: World, w': World, slot: nat, z: Zone, own: Ino, op: Op, j: nat, qu: Queue, live: bool)
    requires Queued(c, w, qu, op, live) && Frame(c, w, w', slot, z, own) && Elsewhere(c, w, slot, z, own, op, j, live)
    ensures Queued(c, w', qu, op, live)
  {
    hide Frame, IsTemp, Guarded, NoSwapAt, Dir, SettledAt, Outside, Numberable;
    if live && !op.fail { NameSame(c, w, w', slot, z, own, op.path); }
    if Guarded(c) && NoSwapAt(w, op.path) { SwapKept(c, w, w', slot, z, own, op.path); }
  }

  lemma SyncedStable(c: Config, w: World, w': World, slot: nat, z: Zone, own: Ino, op: Op, j: nat)
    requires SyncedOp(c, w, op) && Frame(c, w, w', slot, z, own) && (op.fail || op.ino != own)
    requires !op.fail && op.way == Plain ==> Outside(z, op.path) && !Numberable(w, z, op.path)
    ensures SyncedOp(c, w', op)
  {
    hide Frame, Outside, Numberable, Guarded;
    if !op.fail {
      FileSame(c, w, w', slot, z, own, op.ino);
      if op.way == Plain { NameSame(c, w, w', slot, z, own, op.path); }
    }
  }

  lemma AnchoredStable(c: Config, w: World, w': World, slot: nat, z: Zone, own: Ino, op: Op, j: nat, live: bool)
    requires AnchoredOp(w, op, live) && Frame(c, w, w', slot, z, own) && Elsewhere(c, w, slot, z, own, op, j, live)
    ensures AnchoredOp(w', op, live)
  {
    hide Frame, Outside, Numberable, Guarded;
    if !op.fail && live { NameSame(c, w, w', slot, z, own, op.path); }
  }

  lemma SpareGoneStable(c: Config, w: World, w': World, slot: nat, z: Zone, own: Ino, op: Op, j: nat)
    requires SpareGone(w, op, j) && Frame(c, w, w', slot, z, own) && |w.slots| == PENDING_SLOTS && j != slot && j < BATCH
    ensures SpareGone(w', op, j)
  {
    hide Frame;
    SlotSame(c, w, w', slot, z, own, j);
  }

  lemma HoldsStable(c: Config, w: World, w': World, slot: nat, z: Zone, own: Ino, op: Op, j: nat, ph: Phase, live: bool)
    requires Holds(c, w, op, j, ph, live) && Frame(c, w, w', slot, z, own) && Steady(c, w') && Elsewhere(c, w, slot, z, own, op, j, live)
    requires (ph.Tried? || ph.Flat?) && IsPlain(c.settings) ==> live
    ensures Holds(c, w', op, j, ph, live)
  {
    hide Frame, Steady, Built, Named, Closed, Queued, SyncedOp, AnchoredOp, SpareGone, HoldsSlot, Outside, Numberable, Guarded, IsPlain;
    match ph
    case Raw => BuiltStable(c, w, w', slot, z, own, op, j, false, live);
    case Tried(bad) =>
      if !op.fail { BuiltWay(c, w, op, j, false); }
      BuiltStable(c, w, w', slot, z, own, op, j, false, live);
      if j !in bad { SyncedStable(c, w, w', slot, z, own, op, j); }
    case Flat =>
      if !op.fail { BuiltWay(c, w, op, j, true); }
      BuiltStable(c, w, w', slot, z, own, op, j, true, live);
    case Given(qu) =>
      NamedStable(c, w, w', slot, z, own, op, j, live);
      QueuedStable(c, w, w', slot, z, own, op, j, qu, live);
    case Noted(bad, qu) =>
      QueuedStable(c, w, w', slot, z, own, op, j, qu, live);
      if op.fail {
        ClosedShape(c, w, op, j, live);
        ClosedStable(c, w, w', slot, z, own, op, j, live);
        HoldsSlotStable(c, w, w', slot, z, own, op, j);
      } else {
        NamedStable(c, w, w', slot, z, own, op, j, live);
        if j !in bad { AnchoredStable(c, w, w', slot, z, own, op, j, live); }
      }
    case Shut(qu) =>
      ClosedShape(c, w, op, j, live);
      ClosedStable(c, w, w', slot, z, own, op, j, live);
      HoldsSlotStable(c, w, w', slot, z, own, op, j);
      QueuedStable(c, w, w', slot, z, own, op, j, qu, live);
    case Over(qu) =>
      ClosedShape(c, w, op, j, live);
      ClosedStable(c, w, w', slot, z, own, op, j, live);
      QueuedStable(c, w, w', slot, z, own, op, j, qu, live);
      SpareGoneStable(c, w, w', slot, z, own, op, j);
  }

  lemma ClosedShape(c: Config, w: World, op: Op, j: nat, live: bool)
    requires Closed(c, w, op, j, live)
    ensures j < BATCH && |w.slots| == PENDING_SLOTS
  {
    hide Seated;
  }

  lemma HoldsSlotRange(c: Config, w: World, op: Op, j: nat, ph: Phase, live: bool)
    requires Holds(c, w, op, j, ph, live)
    ensures j < BATCH && |w.slots| == PENDING_SLOTS && (op.leftover ==> w.left != {})
    ensures !op.fail ==> op.path in c.operands && op.ino in w.files && w.files[op.ino].role == Role.Build
  {
    hide IsTemp, Dir, FileDone, Hidden, HoldsSlot, Guarded, Queued, NamedOnly, SpareGone;
  }

  /** A name that matters is there. */
  lemma HoldsName(c: Config, w: World, op: Op, j: nat, ph: Phase, live: bool)
    requires Steady(c, w) && Holds(c, w, op, j, ph, live) && live && !op.fail && !ph.Raw?
    requires ph.Tried? || ph.Flat? ==> IsPlain(c.settings)
    ensures op.path in w.names && w.names[op.path] == op.ino
  {
    hide IsTemp, Dir, FileDone, Hidden, HoldsSlot, Guarded, Queued, NamedOnly, SpareGone, Classified, NoPlaceholder;
  }

  /** What is promised of a name that matters is promised if it matters less. */
  lemma HoldsLess(c: Config, w: World, op: Op, j: nat, ph: Phase, live: bool, live': bool)
    requires Holds(c, w, op, j, ph, live) && (live' ==> live)
    ensures Holds(c, w, op, j, ph, live')
  {
    hide IsTemp, Dir, FileDone, HoldsSlot, Guarded, Built, SyncedOp, SpareGone, Due, SpareDue;
  }

  /* ----- all operands of a batch ----- */

  /** The first i operands are in one phase, the others in another. */
  ghost predicate Swept(c: Config, w: World, ops: seq<Op>, done: nat, from: nat, i: nat, before: Phase, after: Phase) {
    forall j :: 0 <= j < |ops| ==> HoldsAt(c, w, ops[j], done + j, from, j, if j < i then after else before)
  }

  ghost predicate HoldsAt(c: Config, w: World, op: Op, x: nat, from: nat, j: nat, ph: Phase) {
    Holds(c, w, op, j, ph, Matters(c, x, from, ph))
  }

  lemma SweptStart(c: Config, w: World, ops: seq<Op>, done: nat, from: nat, before: Phase, after: Phase)
    requires Swept(c, w, ops, done, from, |ops|, Raw, before)
    ensures Swept(c, w, ops, done, from, 0, before, after)
  {
    hide HoldsAt;
    forall j | 0 <= j < |ops| ensures HoldsAt(c, w, ops[j], done + j, from, j, before) {
      assert HoldsAt(c, w, ops[j], done + j, from, j, if j < |ops| then before else Raw);
    }
  }

  lemma SweptEnd(c: Config, w: World, ops: seq<Op>, done: nat, from: nat, i: nat, before: Phase, after: Phase)
    requires Swept(c, w, ops, done, from, i, before, after) && i >= |ops|
    ensures Swept(c, w, ops, done, from, |ops|, Raw, after)
  {
    hide HoldsAt;
    forall j | 0 <= j < |ops| ensures HoldsAt(c, w, ops[j], done + j, from, j, after) {
      assert HoldsAt(c, w, ops[j], done + j, from, j, if j < i then after else before);
    }
  }

  /** The turn of one more operand has come, and may take names. */
  lemma SweptLater(c: Config, w: World, ops: seq<Op>, done: nat, from: nat, i: nat, before: Phase, after: Phase)
    requires Swept(c, w, ops, done, from, i, before, after)
    ensures Swept(c, w, ops, done, from + 1, i, before, after)
  {
    hide Holds, IsPlain, Hit;
    forall j | 0 <= j < |ops| ensures HoldsAt(c, w, ops[j], done + j, from + 1, j, if j < i then after else before) {
      var ph := if j < i then after else before;
      assert HoldsAt(c, w, ops[j], done + j, from, j, ph);
      HoldsLess(c, w, ops[j], j, ph, Matters(c, done + j, from, ph), Matters(c, done + j, from + 1, ph));
    }
  }

  /** The names z have nothing to do with the other operands' names. */
  ghost predicate Beside(c: Config, ops: seq<Op>, i: nat, z: Zone, done: nat, from: nat, before: Phase, after: Phase) {
    forall j :: 0 <= j < |ops| && j != i && !ops[j].fail && Matters(c, done + j, from, if j < i then after else before) ==> Outside(z, ops[j].path)
  }

  /** The operand at i was handled; the others did not notice. */
  lemma SweepStep(c: Config, w: World, w': World, ops: seq<Op>, op: Op, i: nat, own: Ino, done: nat, from: nat, limit: Ino, z: Zone, before: Phase, after: Phase)
    requires ConfigOK(c) && Listed(c, ops, done, limit) && Steady(c, w) && Swept(c, w, ops, done, from, i, before, after) && i < |ops|
    requires |w.slots| == PENDING_SLOTS && w.slots[PENDING_BACKUP] == Clear
    requires forall j :: 0 <= j < |ops| && j != i ==> ops[j].fail || ops[j].ino != own
    requires Frame(c, w, w', i, z, own) && Steady(c, w') && Beside(c, ops, i, z, done, from, before, after)
    requires Guarded(c) ==> forall j :: 0 <= j < |ops| && j != i ==> ops[j].path != z.path
    requires op.path == ops[i].path && op.ino == ops[i].ino && (ops[i].fail ==> op.fail) && HoldsAt(c, w', op, done + i, from, i, after)
    ensures Listed(c, ops[i := op], done, limit) && Swept(c, w', ops[i := op], done, from, i + 1, before, after)
  {
    hide Frame, Steady, Outside, Guarded, HoldsAt, Matters;
    var ops' := ops[i := op];
    forall j | 0 <= j < |ops| ensures HoldsAt(c, w', ops'[j], done + j, from, j, if j < i + 1 then after else before) {
      if j != i {
        var ph := if j < i then after else before;
        assert HoldsAt(c, w, ops[j], done + j, from, j, ph);
        assert !ops[j].fail && Matters(c, done + j, from, ph) ==> Outside(z, ops[j].path);
        HoldsAtStable(c, w, w', i, z, own, ops[j], done + j, from, j, ph);
      }
    }
  }

  lemma HoldsAtStable(c: Config, w: World, w': World, slot: nat, z: Zone, own: Ino, op: Op, x: nat, from: nat, j: nat, ph: Phase)
    requires HoldsAt(c, w, op, x, from, j, ph) && Frame(c, w, w', slot, z, own) && Steady(c, w) && Steady(c, w')
    requires |w.slots| == PENDING_SLOTS && w.slots[PENDING_BACKUP] == Clear
    requires j != slot && (Guarded(c) ==> op.path != z.path) && (op.fail || op.ino != own)
    requires !op.fail && Matters(c, x, from, ph) ==> Outside(z, op.path)
    ensures HoldsAt(c, w', op, x, from, j, ph)
  {
    hide Frame, Steady, Outside, Guarded, Holds, Numberable, IsPlain, Live;
    var live := Matters(c, x, from, ph);
    HoldsSlotRange(c, w, op, j, ph, live);
    if live && !op.fail {
      HoldsName(c, w, op, j, ph, live);
      NotNumberable(w, z, op.path);
    }
    HoldsStable(c, w, w', slot, z, own, op, j, ph, live);
  }

  lemma SweepSkip(c: Config, w: World, ops: seq<Op>, done: nat, from: nat, i: nat, before: Phase, after: Phase)
    requires Swept(c, w, ops, done, from, i, before, after) && i < |ops| && HoldsAt(c, w, ops[i], done + i, from, i, after)
    ensures Swept(c, w, ops, done, from, i + 1, before, after)
  {
    hide HoldsAt;
    forall j | 0 <= j < |ops| ensures HoldsAt(c, w, ops[j], done + j, from, j, if j < i + 1 then after else before) {
      assert HoldsAt(c, w, ops[j], done + j, from, j, if j < i then after else before);
    }
  }

  /** A step that is about no operand. */
  lemma SweepStay(c: Config, w: World, w': World, ops: seq<Op>, i: nat, done: nat, from: nat, limit: Ino, z: Zone, before: Phase, after: Phase)
    requires ConfigOK(c) && WellFormed(c, w) && Listed(c, ops, done, limit) && Steady(c, w) && Swept(c, w, ops, done, from, i, before, after)
    requires |w.slots| == PENDING_SLOTS && w.slots[PENDING_BACKUP] == Clear
    requires Frame(c, w, w', PENDING_BACKUP, z, w.next) && Steady(c, w') && ZoneAt(c, z, |c.operands|)
    ensures Swept(c, w', ops, done, from, i, before, after)
  {
    hide Frame, Steady, Outside, Guarded, HoldsAt, Matters, WellFormed, ZoneAt;
    forall j | 0 <= j < |ops| ensures HoldsAt(c, w', ops[j], done + j, from, j, if j < i then after else before) {
      var ph := if j < i then after else before;
      assert HoldsAt(c, w, ops[j], done + j, from, j, ph);
      HoldsAtRange(c, w, ops[j], done + j, from, j, ph);
      if !ops[j].fail { InoBelow(c, w, ops[j].ino); }
      ZonesApart(c, z, |c.operands|, done + j);
      HoldsAtStable(c, w, w', PENDING_BACKUP, z, w.next, ops[j], done + j, from, j, ph);
    }
  }

  lemma HoldsAtRange(c: Config, w: World, op: Op, x: nat, from: nat, j: nat, ph: Phase)
    requires HoldsAt(c, w, op, x, from, j, ph)
    ensures j < BATCH && |w.slots| == PENDING_SLOTS && (op.leftover ==> w.left != {})
    ensures !op.fail ==> op.path in c.operands && op.ino in w.files && w.files[op.ino].role == Role.Build
  {
    hide Holds, Matters;
    HoldsSlotRange(c, w, op, j, ph, Matters(c, x, from, ph));
  }

  lemma InoBelow(c: Config, w: World, n: Ino)
    requires WellFormed(c, w) && n in w.files
    ensures n < w.next
  {}

  /* ----- the queue of directories ----- */

  /** What was queued is still queued, or was flushed, or is suspected. */
  ghost predicate Requeued(c: Config, w: World, qu: Queue, qu': Queue) {
    && qu.failed <= qu'.failed && qu.suspect <= qu'.suspect
    && (forall d :: d in qu.dirs && d !in qu'.dirs ==>
          !c.flushes(c.ident(d)) || Clean(c, w, c.ident(d)) || (d in qu'.suspect && qu'.failed > 0))
  }

  lemma QueuedRequeued(c: Config, w: World, op: Op, qu: Queue, qu': Queue, live: bool)
    requires CrashOK(c, w) && Requeued(c, w, qu, qu') && Queued(c, w, qu, op, live)
    requires !op.fail && live ==> op.path in w.names
        ensures Queued(c, w, qu', op, live)
  {
    hide Dir, IsTemp, Guarded, CrashOK, Clean, Settled;
    var p := op.path;
    if Dir(p) in qu.dirs && Dir(p) !in qu'.dirs {
      if !op.fail && live {
        if !c.flushes(Id(c, p)) { UnflushedSettles(c, w, p); }
        if Clean(c, w, Id(c, p)) { CleanSettles(c, w, p); }
      }
      if op.spare.Some? && Guarded(c) && c.flushes(Id(c, p)) && Clean(c, w, Id(c, p)) { CleanSwap(c, w, p); }
    }
  }

  function Requeue(ph: Phase, qu: Queue): Phase {
    match ph
    case Given(_) => Given(qu)
    case Noted(bad, _) => Noted(bad, qu)
    case Shut(_) => Shut(qu)
    case Over(_) => Over(qu)
    case _ => ph
  }

  predicate HasQueue(ph: Phase) { ph.Given? || ph.Noted? || ph.Shut? || ph.Over? }

  lemma HoldsRequeued(c: Config, w: World, op: Op, j: nat, ph: Phase, qu: Queue, live: bool)
    requires CrashOK(c, w) && Holds(c, w, op, j, ph, live) && (HasQueue(ph) ==> Requeued(c, w, ph.qu, qu))
    ensures Holds(c, w, op, j, Requeue(ph, qu), live)
  {
    hide CrashOK, Queued, IsTemp, Guarded, FileDone, Hidden, NamedOnly, SpareHeld, Dir, Clean;
    if HasQueue(ph) { QueuedRequeued(c, w, op, ph.qu, qu, live); }
  }

  lemma SweptRequeued(c: Config, w: World, ops: seq<Op>, done: nat, from: nat, i: nat, before: Phase, after: Phase, qu: Queue)
    requires CrashOK(c, w) && Swept(c, w, ops, done, from, i, before, after)
    requires HasQueue(before) ==> Requeued(c, w, before.qu, qu)
    requires HasQueue(after) ==> Requeued(c, w, after.qu, qu)
    ensures Swept(c, w, ops, done, from, i, Requeue(before, qu), Requeue(after, qu))
  {
    hide CrashOK, Holds, Requeued, Live, IsPlain;
    forall j | 0 <= j < |ops| ensures HoldsAt(c, w, ops[j], done + j, from, j, if j < i then Requeue(after, qu) else Requeue(before, qu)) {
      var ph := if j < i then after else before;
      assert HoldsAt(c, w, ops[j], done + j, from, j, ph);
      HoldsRequeued(c, w, ops[j], j, ph, qu, Matters(c, done + j, from, ph));
    }
  }

  /* ----- reports ----- */

  /** A name is only left behind with a report that fails the run. */
  ghost predicate Blamed(left: set<Path>, left0: set<Path>, ops: seq<Op>, failed: nat) {
    left == left0 || failed > 0 || exists j :: 0 <= j < |ops| && (ops[j].fail || ops[j].leftover)
  }

  lemma BlamedStep(left: set<Path>, left': set<Path>, left0: set<Path>, ops: seq<Op>, i: nat, op: Op, failed: nat)
    requires Blamed(left, left0, ops, failed) && i < |ops|
    requires (ops[i].fail ==> op.fail) && (ops[i].leftover ==> op.leftover || op.fail)
    requires !op.fail && !op.leftover && failed == 0 ==> left' == left
    ensures Blamed(left', left0, ops[i := op], failed)
  {
    var ops' := ops[i := op];
    if failed == 0 && left' != left0 {
      if op.fail || op.leftover {
        assert ops'[i] == op;
      } else {
        var j :| 0 <= j < |ops| && (ops[j].fail || ops[j].leftover);
        assert ops'[j] == ops[j];
      }
    }
  }

  /** Every file that is open belongs to an operand that says so. */
  ghost predicate OpenBy(w: World, ops: seq<Op>) {
    forall n :: n in w.open ==> exists j :: 0 <= j < |ops| && ops[j].fd == Some(n)
  }

  lemma OpenStep(w: World, w': World, ops: seq<Op>, i: nat, op: Op)
    requires OpenBy(w, ops) && i < |ops| && w'.open <= w.open && Released(ops[i], op, w')
    ensures OpenBy(w', ops[i := op])
  {
    var ops' := ops[i := op];
    forall n | n in w'.open ensures exists j :: 0 <= j < |ops'| && ops'[j].fd == Some(n) {
      var j :| 0 <= j < |ops| && ops[j].fd == Some(n);
      assert ops'[j].fd == Some(n);
    }
  }
}
