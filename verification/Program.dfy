/** A whole run over all operands, and what it promises. */
module Program {
  import opened Names
  import opened Spec
  import opened World
  import opened Order
  import opened Steps
  import opened Safety
  import opened Coherence
  import opened Kernel
  import opened Frames
  import opened Commit
  import opened Backup
  import opened Flush
  import opened Build
  import opened Naming
  import opened Stable
  import opened Phases
  import opened Batch
  import opened Sync
  import opened NameBatch
  import opened Spares

  const FD_RESERVE := 16

  /* ----- how many operands at once ----- */

  /** limit is the number of descriptors the process may have, if there is one. */
  function BatchSize(limit: Option<nat>): nat {
    match limit
    case None => BATCH
    case Some(n) =>
      if n >= 2 * BATCH + FD_RESERVE then BATCH
      else
        var room := if n > FD_RESERVE then (n - FD_RESERVE) / 2 else 0;
        if room > 0 then room else 1
  }

  /** With room for one operand and one directory beside the reserve, the files a
      run may have open at once leave the reserve but for one descriptor. */
  lemma DescriptorBound(c: Config, w: World, limit: Option<nat>)
    requires c.batch == BatchSize(limit) && FdsOK(c, w)
    ensures 1 <= c.batch <= BATCH
    ensures limit.Some? && limit.value >= FD_RESERVE + 2 ==> |w.open| + w.dirFds + FD_RESERVE <= limit.value + 1
    ensures limit.Some? && FD_RESERVE + 2 <= limit.value <= 2 * BATCH + FD_RESERVE ==> c.batch == (limit.value - FD_RESERVE) / 2
  {
    if limit.Some? && limit.value < 2 * BATCH + FD_RESERVE && limit.value >= FD_RESERVE + 2 {
      var d := limit.value - FD_RESERVE;
      assert d == 2 * (d / 2) + d % 2;
      assert d / 2 < BATCH;
    }
  }

  /* ----- the start ----- */

  /** Before the first operand: the filesystem is as it is found, and on disk. */
  ghost predicate Initial(c: Config, w: World) {
    && w.names == c.init && w.disk == c.init && w.logs == map[]
    && (forall q :: q in c.init ==> c.init[q] in w.files)
    && c.kinds == (map n | n in w.files :: w.files[n].kind)
    && (forall n :: n in w.files ==> n < w.next && w.files[n].role == Foreign)
    && w.open == {} && w.dirFds == 0 && IdleFrom(w, 0)
    && w.anchored == {} && w.committed == {} && w.taken == {} && w.left == {} && w.swapped == map[] && w.shown == {} && w.again == {}
    && w.refused == {} && w.flushFailed == [] && w.unstat == {}
    && w.guard == (map p | p in c.init && p in c.operands :: At(p))
  }

  lemma InitialPoint(c: Config, w: World)
    requires ConfigOK(c) && Initial(c, w)
    ensures PointOK(c, w) && Steady(c, w)
  {
    hide IsTemp, Dir, FileDone, Guarded, CrashOK, HistoryOK;
    InitialCrash(c, w);
    InitialHistory(c, w);
    forall q | q in w.names ensures Accounted(c, w, q) {}
    assert ArmedFree(c, w.slots, w.guard);
  }

  lemma InitialCrash(c: Config, w: World)
    requires Initial(c, w)
    ensures CrashOK(c, w)
  {
    hide IsTemp, Dir, FileDone, Guarded, Replaceable, IdleFrom;
    forall p | p in w.guard ensures GuardAt(c, w, p) { assert Backs(c, p, p); }
    assert forall id :: LogOf(w, id) == [];
  }

  lemma InitialHistory(c: Config, w: World)
    requires Initial(c, w)
    ensures HistoryOK(c, w)
  {
    hide IsTemp, Dir, FileDone, BackupName, Separate, IdleFrom;
    forall p, q | p in c.operands && q in w.names && BackupName(c, p, q) ensures BackupOld(c, w, p, q) {}
  }

  lemma InitialTied(c: Config, w: World)
    requires Initial(c, w)
    ensures Tied(c, w)
  {
    hide Dir;
    forall q ensures Lookup(Whole(w.disk, LogOf(w, Id(c, q))), q) == Lookup(w.names, q) { NothingToReplay(w.disk); }
  }

  lemma InitialKinds(c: Config, w: World)
    requires Initial(c, w)
    ensures KindsOK(c, w)
  {}

  lemma InitialStart(c: Config, w: World)
    requires ConfigOK(c) && Initial(c, w)
    ensures AtStart(c, w, Progress(true, 0, w.next, {}))
  {
    hide PointOK, Steady, IsTemp, Dir, Durable, MaySimple, Distinct, Waits, Clash, Overwritten, Exactly;
    InitialPoint(c, w);
    forall y | 0 <= y < |c.operands| ensures Waits(c, w, y) { InitialWaits(c, w, y); }
    forall x: nat, y: nat | Doomed(c, x, y) ensures DoomAt(c, w, x, y, 0, w.next) { DoomedFacts(c, x, y); }
  }

  lemma InitialWaits(c: Config, w: World, y: nat)
    requires ConfigOK(c) && Initial(c, w) && y < |c.operands|
    ensures Waits(c, w, y)
  {
    hide Separate, Distinct, BackupName, IsNumbered, Stands, SimpleBackup, MaySimple;
    if Guarded(c) && MaySimple(c.settings) && Stands(c, c.operands[y], y) {
      forall p | p in w.guard ensures !GuardUses(w.guard[p], SimpleBackup(c.operands[y])) {
        var x :| 0 <= x < |c.operands| && c.operands[x] == p;
        assert !Clash(c, x, y);
      }
    }
  }

  /* ----- from batch to batch ----- */

  /** report_one of each operand. */
  method Report(ops: seq<Op>) returns (ok: bool)
    ensures ok <==> AllOk(ops)
  {
    ok := true;
    var i := 0;
    while i < |ops|
      invariant 0 <= i <= |ops|
      invariant ok <==> AllOk(ops[..i])
    {
      assert ops[..i + 1] == ops[..i] + [ops[i]];
      if ops[i].fail || ops[i].leftover {
        ok := false;
      }
      i := i + 1;
    }
    assert ops[..i] == ops;
  }

  ghost function NextProgress(w: World, ops: seq<Op>, pr: Progress, failed: nat): Progress {
    Progress(pr.good && AllOk(ops) && failed == 0, pr.done + |ops|, w.next, w.left)
  }

  lemma OverDurable(c: Config, w: World, op: Op, x: nat, from: nat, j: nat, qu: Queue)
    requires WellFormed(c, w) && HoldsAt(c, w, op, x, from, j, Over(qu)) && qu.dirs == [] && qu.failed == 0 && !op.fail && !op.leftover
    ensures x < |c.operands| && Live(c, x, from) ==> Durable(c, w, op.path, w.next)
  {
    hide Guarded, SettledAt, Dir, IsTemp, Live, FileDone, SlotOwn, SlotBeside, Unclobbered, SpareDue;
  }

  lemma DurableLater(c: Config, w: World, p: Path, limit: Ino, limit': Ino)
    requires Durable(c, w, p, limit) && limit <= limit'
    ensures Durable(c, w, p, limit')
  {
    hide SettledAt, FileDone;
  }

  lemma BatchOver(c: Config, w: World, ops: seq<Op>, pr: Progress, qu: Queue, tally: Tally)
    requires PointOK(c, w) && InBatch(c, w, ops, pr, pr.done + |ops|, |ops|, Raw, Over(qu), tally) && qu.dirs == [] && tally.failed == qu.failed
    ensures
      var pr' := NextProgress(w, ops, pr, qu.failed);
      AtStart(c, w, pr') && (pr'.good ==> w.left == pr.left)
  {
    hide PointOK, Steady, Durable, Waits, HoldsAt, IdleFrom, WellFormed, CrashOK, HistoryOK, Known, Fate, Distinct, Live;
    PointParts(c, w);
    OverClear(c, w, ops, pr, pr.done + |ops|, qu, tally);
    var pr' := NextProgress(w, ops, pr, qu.failed);
    if Exactly(c) && pr'.good { FateLater(c, w, pr'.done, pr.limit, w.next); }
    if pr'.good {
      forall x | 0 <= x < pr'.done && Live(c, x, pr'.done) ensures Durable(c, w, c.operands[x], w.next) {
        if x < pr.done {
          DurableLater(c, w, c.operands[x], pr.limit, w.next);
        } else {
          var j := x - pr.done;
          assert HoldsAt(c, w, ops[j], pr.done + j, pr'.done, j, Over(qu));
          OverDurable(c, w, ops[j], x, pr'.done, j, qu);
        }
      }
    }
  }

  lemma BatchUnblocked(c: Config, done: nat, n: nat)
    requires forall x :: done <= x < done + n ==> BuildShows(c, x) && NameShows(c, x)
    ensures forall x :: done <= x < done + n && x < |c.operands| ==> !BlockedAt(c, x)
  {
    hide BuildShows, NameShows, BlockedAt;
    forall x | done <= x < done + n && x < |c.operands| ensures !BlockedAt(c, x) { ShowsUnblocked(c, x); }
  }

  /** One batch: build, flush, name, settle, flush the directories, drop the spares. */
  method OneBatch(fs: FlushSet, paths: seq<Path>, done: nat, n: nat, ghost pr: Progress, ghost ids: seq<DirId>)
      returns (ok: bool, ghost pr': Progress, ghost ids': seq<DirId>)
    requires fs.Valid() && fs.dirs == [] && paths == fs.k.c.operands && pr.done == done && done + n <= |paths| && n <= fs.k.c.batch
    requires AtStart(fs.k.c, fs.k.w, pr) && fs.OnRecord(ids) && ids <= fs.k.w.flushFailed
    modifies fs, fs.k
    ensures pr'.good ==> forall x :: done <= x < done + n && x < |paths| ==> !BlockedAt(fs.k.c, x)
    ensures ok || fs.k.faults > old(fs.k.faults) || Hindered(fs.k.c)
    ensures fs.failed - old(fs.failed) <= fs.k.faults - old(fs.k.faults)
    ensures fs.Valid() && fs.dirs == [] && old(fs.k.trace) <= fs.k.trace && old(fs.k.faults) <= fs.k.faults && fs.k.w.blocked == old(fs.k.w).blocked
    ensures pr'.done == done + n && pr'.good == (pr.good && ok && fs.failed == 0) && fs.failed >= old(fs.failed)
    ensures AtStart(fs.k.c, fs.k.w, pr') && fs.OnRecord(ids') && ids' <= fs.k.w.flushFailed
    ensures pr'.good ==> pr'.left == pr.left
  {
    hide Hindered, BlockedAt, BuildShows, NameShows, AllOk, MaskOK, SparesHeld, Blamed, Between, PointOK, ConfigOK, Tied, Went, KindsOK, InBatch, AtStart, OnlyDisk, Clean, Requeued, Steady, Listed, Known, HoldsAt;
    var k := fs.k;
    ghost var orig := k.w.blocked;
    fs.Forget();
    var ops := BuildAll(k, paths, done, n, pr, Tally(fs.failed, ids));
    ops := FlushBatch(k, ops, pr, Tally(fs.failed, ids));
    var held, mask;
    ops, held, mask, ids' := NameAll(fs, ops, pr, orig, ids);
    assert |ops| == n;
    NextPhase(k.c, k.w, ops, pr, done + n, n, Raw, Given(QueueOf(fs)), Given(QueueOf(fs)), Tally(fs.failed, ids'));
    var ops1;
    ops1, ids' := SettleAll(fs, ops, held, mask, pr, orig, ids');
    BatchOver(k.c, k.w, ops1, pr, QueueOf(fs), Tally(fs.failed, ids'));
    InBatchFacts(k.c, k.w, ops1, pr, done + n, n, Raw, Over(QueueOf(fs)), Tally(fs.failed, ids'));
    if pr.good && AllOk(ops1) { BatchUnblocked(k.c, done, n); }
    pr' := NextProgress(k.w, ops1, pr, fs.failed);
    ok := Report(ops1);
  }

  /** What is left to do once the operands have their names. */
  method SettleAll(fs: FlushSet, ops: seq<Op>, held: bool, mask: bool, ghost pr: Progress, ghost orig: bool, ghost ids: seq<DirId>)
      returns (ops': seq<Op>, ghost ids': seq<DirId>)
    requires fs.Valid() && MaskOK(fs.k.w, held, mask, orig) && SparesHeld(ops, |ops|, held) && fs.OnRecord(ids)
    requires InBatch(fs.k.c, fs.k.w, ops, pr, pr.done + |ops|, 0, Given(QueueOf(fs)), Given(QueueOf(fs)), Tally(fs.failed, ids))
    modifies fs, fs.k
    ensures (AllOk(ops) ==> AllOk(ops') || fs.k.faults > old(fs.k.faults)) && (AllOk(ops') ==> AllOk(ops))
    ensures fs.failed - old(fs.failed) <= fs.k.faults - old(fs.k.faults)
    ensures fs.Valid() && fs.dirs == [] && old(fs.k.trace) <= fs.k.trace && old(fs.k.faults) <= fs.k.faults && fs.k.w.blocked == orig
    ensures |ops'| == |ops| && fs.failed >= old(fs.failed) && fs.OnRecord(ids')
    ensures InBatch(fs.k.c, fs.k.w, ops', pr, pr.done + |ops|, |ops|, Raw, Over(QueueOf(fs)), Tally(fs.failed, ids'))
  {
    hide AllOk, PointOK, ConfigOK, Tied, Went, KindsOK, InBatch, OnlyDisk, Clean, Requeued, Steady, Listed, Known, HoldsAt;
    var ops1 := Settle(fs.k, ops, pr, QueueOf(fs), Tally(fs.failed, ids));
    assert SparesHeld(ops1, |ops|, held);
    ids' := FlushAll(fs, ops1, pr, ids);
    ops' := DropSpares(fs, ops1, held, mask, pr, orig, ids');
  }

  /** flush_set_run, at the end of a batch. */
  method FlushAll(fs: FlushSet, ops: seq<Op>, ghost pr: Progress, ghost ids: seq<DirId>) returns (ghost ids': seq<DirId>)
    requires fs.Valid() && InBatch(fs.k.c, fs.k.w, ops, pr, pr.done + |ops|, |ops|, Raw, Shut(QueueOf(fs)), Tally(fs.failed, ids))
    requires fs.OnRecord(ids)
    modifies fs, fs.k
    ensures fs.failed - old(fs.failed) <= fs.k.faults - old(fs.k.faults)
    ensures fs.Valid() && fs.dirs == [] && old(fs.k.trace) <= fs.k.trace && old(fs.k.faults) <= fs.k.faults && fs.k.w.blocked == old(fs.k.w).blocked
    ensures fs.failed >= old(fs.failed) && fs.OnRecord(ids')
    ensures InBatch(fs.k.c, fs.k.w, ops, pr, pr.done + |ops|, |ops|, Raw, Shut(QueueOf(fs)), Tally(fs.failed, ids'))
  {
    hide PointOK, ConfigOK, Tied, Went, KindsOK, InBatch, OnlyDisk, Clean, Requeued, Listed, Known, HoldsAt, Steady;
    var k := fs.k;
    ghost var w, qu, from, tally := k.w, QueueOf(fs), pr.done + |ops|, Tally(fs.failed, ids);
    InBatchFacts(k.c, w, ops, pr, from, |ops|, Raw, Shut(qu), tally);
    fs.Run(ids);
    ids' := k.w.flushFailed;
    BatchFlushed(k.c, w, k.w, ops, pr, from, |ops|, Raw, Shut(qu), tally);
    assert Requeued(k.c, k.w, qu, QueueOf(fs)) by { RunRequeued(k.c, k.w, qu, QueueOf(fs)); }
    BatchRequeued(k.c, k.w, ops, pr, from, |ops|, Raw, Shut(qu), QueueOf(fs), tally);
    BlamedMore(k.c, k.w, ops, pr, from, |ops|, Raw, Shut(QueueOf(fs)), tally, Tally(fs.failed, ids'));
  }

  lemma RunRequeued(c: Config, w: World, qu: Queue, qu': Queue)
    requires qu.failed <= qu'.failed && qu.suspect <= qu'.suspect
    requires forall d :: d in qu.dirs ==>
               !c.flushes(c.ident(d)) || Clean(c, w, c.ident(d)) || (d in qu'.suspect && qu'.failed > qu.failed)
    ensures Requeued(c, w, qu, qu')
  {
    hide Clean;
  }

  /* ----- the whole run ----- */

  /** p holds a finished file this run made, flushed under that name, and if its
      directory can be flushed at all, any crash leaves the name. */
  ghost predicate Lasts(c: Config, w: World, p: Path) {
    && Done(c, w, p) && w.files[w.names[p]].role == Role.Build && w.files[w.names[p]].synced && p in w.anchored
    && (c.flushes(Id(c, p)) ==> forall kept :: AfterCrash(c, w, kept, p) == Some(w.names[p]))
  }

  ghost predicate AllDurable(c: Config, w: World) {
    forall p :: p in c.operands ==> Lasts(c, w, p)
  }

  /** The file p had at first has the name of a backup of p, or of one of an operand
      that was such a backup, for good if its directory can be flushed. */
  ghost predicate BackupKept(c: Config, w: World, p: Path)
    requires p in c.init
  {
    exists b :: b != p && Backs(c, p, b) && (Separate(c) ==> BackupName(c, p, b)) && b in w.names && w.names[b] == c.init[p] &&
      (c.flushes(Id(c, b)) ==> forall kept :: AfterCrash(c, w, kept, b) == Some(c.init[p]))
  }

  ghost predicate AllBackedUp(c: Config, w: World) {
    Guarded(c) ==> forall p :: p in c.operands && p in c.init ==> BackupKept(c, w, p)
  }

  /** Nothing this run made for itself is left. */
  ghost predicate NoTrace(c: Config, w: World) {
    forall q :: q in w.names && IsTemp(q) ==> q in c.init && w.names[q] == c.init[q]
  }

  lemma DurableLasts(c: Config, w: World, p: Path, limit: Ino)
    requires Durable(c, w, p, limit)
    ensures Lasts(c, w, p)
  {
    hide Settled, Dir, FileDone;
    if c.flushes(Id(c, p)) {
      forall kept ensures AfterCrash(c, w, kept, p) == Some(w.names[p]) {
        SettledSurvives(c, w, p, w.names[p], kept);
      }
    }
  }

  /** A run in which all went well: what is durable in the end is each operand whose
      name no later one took. */
  lemma EndDurable(c: Config, w: World, pr: Progress)
    requires Between(c, w, pr, pr.done) && pr.done == |c.operands| && pr.good
    ensures forall x :: 0 <= x < |c.operands| && Live(c, x, |c.operands|) ==> Lasts(c, w, c.operands[x])
    ensures Lasting(c) ==> AllDurable(c, w)
  {
    hide Steady, Durable, Lasts, Live, Known, Waits;
    forall x | 0 <= x < |c.operands| && Live(c, x, |c.operands|) ensures Lasts(c, w, c.operands[x]) {
      DurableLasts(c, w, c.operands[x], pr.limit);
    }
  }

  /** And where it is known what each backup replaces, no other is: the name holds
      the file the later operand had before. */
  lemma EndLost(c: Config, w: World, pr: Progress)
    requires AtStart(c, w, pr) && pr.done == |c.operands| && pr.good && Exactly(c)
    ensures forall x: nat, y: nat :: Overwritten(c, x, y) ==> !Lasts(c, w, c.operands[x])
    ensures forall x: nat, y: nat :: Doomed(c, x, y) ==> OldGone(c, w, x)
    ensures AllDurable(c, w) ==> Lasting(c)
  {
    hide Between, IdleFrom, FileDone, Stands, Doomed, Gone, Sole;
    LastingIff(c);
    forall x: nat, y: nat | Doomed(c, x, y) ensures OldGone(c, w, x) {
      DoomedFacts(c, x, y);
      assert DoomAt(c, w, x, y, pr.done, pr.limit);
    }
    forall x: nat, y: nat | Overwritten(c, x, y) ensures !Lasts(c, w, c.operands[x]) {
      assert OldAt(w, c.operands[x], pr.limit);
    }
  }

  lemma EndBackedUp(c: Config, w: World, pr: Progress)
    requires ConfigOK(c) && PointOK(c, w) && Between(c, w, pr, pr.done) && pr.done == |c.operands| && pr.good && NoTrace(c, w)
    ensures AllBackedUp(c, w)
  {
    hide SignalOK, PublishOK, HistoryOK, FdsOK, WellFormed, Steady, Durable, Live, Known, BackupName, Guarded, Waits, GuardAt, Dir;
    if Guarded(c) {
      forall p | p in c.operands && p in c.init ensures BackupKept(c, w, p) {
        var x :| 0 <= x < |c.operands| && c.operands[x] == p;
        StillLive(c, x);
        assert GuardAt(c, w, p);
        GuardLeft(c, w, p, pr.limit);
      }
    }
  }

  /** No backup takes the name of an operand that had a file. */
  lemma StillLive(c: Config, x: nat)
    requires Guarded(c) && x < |c.operands| && c.operands[x] in c.init
    ensures Live(c, x, |c.operands|)
  {
    hide Stands, IsNumbered;
    forall y | x < y < |c.operands| ensures !Hit(c, x, y) {
      assert !Clash(c, x, y);
    }
  }

  /** With no spare left and p given its new file, the old one has a backup. */
  lemma GuardLeft(c: Config, w: World, p: Path, limit: Ino)
    requires ConfigOK(c) && WellFormed(c, w) && NoTrace(c, w) && p in c.operands && GuardAt(c, w, p) && Durable(c, w, p, limit)
    ensures BackupKept(c, w, p)
  {
    hide IsTemp, Backs, Dir, SwapOK, OnDisk, FileDone, SettledAt, SlotOwn, SlotBeside, Unclobbered, BackupName, Separate;
    var n := c.init[p];
    assert w.guard[p].At?;
    var b := w.guard[p].path;
    SettledKept(c, w, b, n);
    if Separate(c) { SeparateBacks(c, p, b); }
  }

  lemma SettledKept(c: Config, w: World, b: Path, n: Ino)
    requires Settled(c, w, b, n)
    ensures c.flushes(Id(c, b)) ==> forall kept :: AfterCrash(c, w, kept, b) == Some(n)
  {
    hide Dir;
    if c.flushes(Id(c, b)) {
      forall kept ensures AfterCrash(c, w, kept, b) == Some(n) {
        SettledSurvives(c, w, b, n, kept);
      }
    }
  }

  /** Where operands are apart none is a backup of another. */
  lemma {:induction false} SeparateBacks(c: Config, p: Path, b: Path)
    requires Separate(c) && p in c.operands && Backs(c, p, b)
    ensures b == p || BackupName(c, p, b)
    decreases |b|
  {
    hide BackupName, Separate;
    if b != p {
      var q :| q in c.operands && |q| < |b| && BackupName(c, q, b) && Backs(c, p, q);
      SeparateBacks(c, p, q);
      if q != p { OperandsApart(c, p, q); }
    }
  }

  lemma EndNoTrace(c: Config, w: World)
    requires ConfigOK(c) && Classified(c, w) && IdleFrom(w, 0) && w.left == {}
    ensures NoTrace(c, w)
  {
    hide Dir, FileDone, IsTemp, BackupName;
    forall q | q in w.names && IsTemp(q) ensures q in c.init && w.names[q] == c.init[q] {
      assert Accounted(c, w, q);
      if p :| p in c.operands && BackupFor(c, w, p, q) { BackupNameFacts(c, p, q); }
    }
  }

  lemma StartFacts(c: Config, w: World, pr: Progress)
    requires AtStart(c, w, pr)
    ensures Classified(c, w) && w.dirFds == 0 && IdleFrom(w, 0) && w.open == {} && w.left == pr.left && Between(c, w, pr, pr.done)
  {
    hide Classified, Rest, Fate, Distinct, Known, SlotsOK, NoPlaceholder;
  }

  lemma TraceSafe(c: Config, trace: seq<World>)
    requires ConfigOK(c) && forall i :: 0 <= i < |trace| ==> PointOK(c, trace[i])
    ensures forall i :: 0 <= i < |trace| ==> |trace[i].slots| == PENDING_SLOTS && Safe(c, trace[i])
  {
    hide PointOK, Safe, ConfigOK;
    forall i | 0 <= i < |trace| ensures |trace[i].slots| == PENDING_SLOTS && Safe(c, trace[i]) {
      PointSafe(c, trace[i]);
    }
  }

  /** batch_run: true when every file was made and every directory flushed. */
  method BatchRun(fs: FlushSet, paths: seq<Path>) returns (ok: bool)
    requires fs.Valid() && fs.dirs == [] && fs.failed == 0 && paths == fs.k.c.operands && Initial(fs.k.c, fs.k.w)
    modifies fs, fs.k
    // every state the run went through
    ensures fs.Valid() && old(fs.k.trace) <= fs.k.trace && old(fs.k.faults) <= fs.k.faults
    ensures forall i :: 0 <= i < |fs.k.trace| ==> |fs.k.trace[i].slots| == PENDING_SLOTS && Safe(fs.k.c, fs.k.trace[i])
    ensures forall i :: 0 <= i < |fs.k.trace| ==> Tied(fs.k.c, fs.k.trace[i])
    ensures forall i :: 0 <= i < |fs.k.trace| - 1 ==> OneCall(fs.k.c, fs.k.trace[i], fs.k.trace[i + 1])
    // the last of them
    ensures IdleFrom(fs.k.w, 0) && fs.k.w.blocked == old(fs.k.w).blocked && fs.k.w.open == {} && fs.k.w.dirFds == 0
    ensures ok ==> forall x :: 0 <= x < |paths| ==> !BlockedAt(fs.k.c, x)
    ensures !ok ==> fs.k.faults > old(fs.k.faults) || Hindered(fs.k.c)
    ensures !fs.k.c.settings.force && fs.k.faults == old(fs.k.faults) ==> (ok <==> !Hindered(fs.k.c))
    ensures ok ==> NoTrace(fs.k.c, fs.k.w) && fs.k.w.left == {} && AllBackedUp(fs.k.c, fs.k.w)
    ensures ok ==> forall x :: 0 <= x < |paths| && Live(fs.k.c, x, |paths|) ==> Lasts(fs.k.c, fs.k.w, paths[x])
    ensures ok && Lasting(fs.k.c) ==> AllDurable(fs.k.c, fs.k.w)
    ensures ok && Exactly(fs.k.c) ==> (AllDurable(fs.k.c, fs.k.w) <==> Lasting(fs.k.c))
    ensures ok && Exactly(fs.k.c) ==> forall x: nat, y: nat :: Doomed(fs.k.c, x, y) ==> OldGone(fs.k.c, fs.k.w, x)
  {
    hide Hindered, BlockedAt, KindsOK, PointOK, ConfigOK, Tied, OneCall, AtStart, Between, IdleFrom, NoTrace, AllDurable, AllBackedUp, Safe, Lasting, Lasts, Live, Exactly, Classified, Doomed, OldGone;
    var k := fs.k;
    InitialStart(k.c, k.w);
    BatchLimit(k.c);
    ghost var pr, ids: seq<DirId> := Progress(true, 0, k.w.next, {}), [];
    assert fs.OnRecord(ids);
    ok := true;
    var done := 0;
    while done < |paths|
      invariant 0 <= done <= |paths| && fs.Valid() && fs.dirs == [] && old(k.trace) <= k.trace && old(k.faults) <= k.faults
      invariant k.w.blocked == old(k.w).blocked && pr.done == done && pr.good == (ok && fs.failed == 0) && (pr.good ==> pr.left == {})
      invariant pr.good ==> forall x :: 0 <= x < done ==> !BlockedAt(k.c, x)
      invariant ok || k.faults > old(k.faults) || Hindered(k.c)
      invariant fs.failed <= k.faults - old(k.faults)
      invariant AtStart(k.c, k.w, pr) && fs.OnRecord(ids) && ids <= k.w.flushFailed
      decreases |paths| - done
    {
      var n := if |paths| - done > k.c.batch then k.c.batch else |paths| - done;
      var all;
      all, pr, ids := OneBatch(fs, paths, done, n, pr, ids);
      ok := ok && all;
      done := done + n;
    }
    ok := ok && fs.failed == 0;
    StartFacts(k.c, k.w, pr);
    if !k.c.settings.force { HinderedUnforced(k.c); }
    if ok {
      EndNoTrace(k.c, k.w);
      EndDurable(k.c, k.w, pr);
      EndBackedUp(k.c, k.w, pr);
      if Exactly(k.c) { EndLost(k.c, k.w, pr); }
    }
    TraceSafe(k.c, k.trace);
  }
}
