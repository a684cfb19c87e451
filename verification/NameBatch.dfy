/** Naming the operands of a batch and queueing their directories. */
module NameBatch {
  import opened Names
  import opened Spec
  import opened World
  import opened Order
  import opened Steps
  import opened Safety
  import opened Coherence
  import opened Kernel
  import opened Frames
  import opened Pending
  import opened Place
  import opened Commit
  import opened Backup
  import opened Flush
  import opened Build
  import opened Naming
  import opened Stable
  import opened Phases
  import opened Batch
  import opened Sync

  ghost function QueueOf(fs: FlushSet): Queue
    reads fs
  {
    Queue(fs.dirs, fs.failed, iset d | fs.Concerns(d))
  }

  /* ----- naming ----- */

  /** The turn of one more operand has come. */
  lemma GoingLater(c: Config, w: World, ops: seq<Op>, pr: Progress, from: nat, i: nat, before: Phase, after: Phase, tally: Tally)
    requires Going(c, w, ops, pr, from, i, before, after, tally) && from < |c.operands|
    ensures Going(c, w, ops, pr, from + 1, i, before, after, tally)
    ensures Waits(c, w, from)
  {
    hide Steady, Durable, Waits, Swept, IdleFrom, OpenBy, Blamed, Listed, Known, Hit;
    KnownLater(c, w, from);
    SweptLater(c, w, ops, pr.done, from, i, before, after);
  }

  lemma BlamedMore(c: Config, w: World, ops: seq<Op>, pr: Progress, from: nat, i: nat, before: Phase, after: Phase, tally: Tally, tally': Tally)
    requires InBatch(c, w, ops, pr, from, i, before, after, tally) && tally.failed <= tally'.failed && tally'.ids <= w.flushFailed
    ensures InBatch(c, w, ops, pr, from, i, before, after, tally')
  {
    hide Between, Swept, IdleFrom, OpenBy, Listed, Fated;
  }

  lemma GoingRequeued(c: Config, w: World, ops: seq<Op>, pr: Progress, from: nat, i: nat, before: Phase, after: Phase, qu: Queue, tally: Tally)
    requires PointOK(c, w) && Going(c, w, ops, pr, from, i, before, after, tally)
    requires HasQueue(before) ==> Requeued(c, w, before.qu, qu)
    requires HasQueue(after) ==> Requeued(c, w, after.qu, qu)
    ensures Going(c, w, ops, pr, from, i, Requeue(before, qu), Requeue(after, qu), tally)
  {
    hide PointOK, CrashOK, Between, Swept, IdleFrom, OpenBy, Listed, Blamed, Requeued;
    PointParts(c, w);
    SweptRequeued(c, w, ops, pr.done, from, i, before, after, qu);
  }

  lemma BatchRequeued(c: Config, w: World, ops: seq<Op>, pr: Progress, from: nat, i: nat, before: Phase, after: Phase, qu: Queue, tally: Tally)
    requires PointOK(c, w) && InBatch(c, w, ops, pr, from, i, before, after, tally)
    requires HasQueue(before) ==> Requeued(c, w, before.qu, qu)
    requires HasQueue(after) ==> Requeued(c, w, after.qu, qu)
    ensures InBatch(c, w, ops, pr, from, i, Requeue(before, qu), Requeue(after, qu), tally)
  {
    hide PointOK, Going, Fated, Requeued;
    GoingRequeued(c, w, ops, pr, from, i, before, after, qu, tally);
  }

  lemma NamedGiven(c: Config, w: World, op: Op, x: nat, from: nat, j: nat, qu: Queue)
    requires Named(c, w, op, j, true) && (op.fail || Dir(op.path) in qu.dirs) && (op.fail ==> op.spare == None)
    ensures HoldsAt(c, w, op, x, from, j, Given(qu))
  {
    hide Guarded, HoldsSlot, FileDone, Live, SettledAt, Dir;
  }

  lemma FailedGiven(c: Config, w: World, op: Op, x: nat, from: nat, j: nat, qu: Queue)
    requires HoldsAt(c, w, op, x, from, j, Flat) && op.fail
    ensures HoldsAt(c, w, op, x, from + 1, j, Given(qu))
  {
    hide Live, IsPlain;
  }

  lemma FlatBuilt(c: Config, w: World, op: Op, x: nat, from: nat, j: nat)
    requires HoldsAt(c, w, op, x, from, j, Flat)
    ensures Built(c, w, op, j, true) && j < BATCH
  {
    hide Live, IsPlain, IsTemp, FileDone, NamedOnly, Hidden;
  }

  lemma KeepingParts(c: Config, w: World, w': World, slot: nat, z: Zone, own: Ino)
    requires Keeping(c, w, w', slot, z, own)
    ensures Steady(c, w') && Frame(c, w, w', slot, z, own) && |w'.slots| == PENDING_SLOTS && w'.open <= w.open
  {
    hide Steady, Frame;
  }

  ghost function With(qu: Queue, dir: string): Queue { qu.(dirs := qu.dirs + [dir]) }

  lemma WithRequeued(c: Config, w: World, qu: Queue, dir: string)
    ensures Requeued(c, w, qu, With(qu, dir))
  {
    hide Clean;
  }

  /* ----- what naming an operand may do to the others ----- */

  lemma NamingZoneAt(c: Config, w: World, x: nat)
    requires x < |c.operands|
    ensures ZoneAt(c, NamingZone(c, w, c.operands[x]), x)
  {
    hide MaySimple, MayNumber, Longer;
  }

  lemma NamingUnrelated(c: Config, w: World, pr: Progress, y: nat)
    requires ConfigOK(c) && pr.done <= y < |c.operands| && Known(c, w, y)
    ensures Unrelated(c, w, NamingZone(c, w, c.operands[y]), pr, y + 1, y)
  {
    hide Durable, Live, Known, NamingZone, Outside, ZoneAt;
    NamingZoneAt(c, w, y);
    forall x | 0 <= x < pr.done && Live(c, x, y + 1) ensures Outside(NamingZone(c, w, c.operands[y]), c.operands[x]) {
      NamingOutside(c, w, x, y);
    }
  }

  lemma NamingBeside(c: Config, w: World, ops: seq<Op>, pr: Progress, i: nat, qu: Queue, tally: Tally)
    requires ConfigOK(c) && InBatch(c, w, ops, pr, pr.done + i, i, Flat, Given(qu), tally) && i < |ops| && !ops[i].fail
    ensures Beside(c, ops, i, NamingZone(c, w, ops[i].path), pr.done, pr.done + i + 1, Flat, Given(qu))
  {
    hide InBatch, HoldsAt, Known, NamingZone, Outside, IsPlain, Live, Steady;
    var y := pr.done + i;
    InBatchFacts(c, w, ops, pr, y, i, Flat, Given(qu), tally);
    forall j | 0 <= j < |ops| && j != i && !ops[j].fail && Matters(c, pr.done + j, y + 1, if j < i then Given(qu) else Flat)
      ensures Outside(NamingZone(c, w, ops[i].path), ops[j].path)
    {
      if j < i {
        NamingOutside(c, w, pr.done + j, y);
      } else {
        InBatchHolds(c, w, ops, pr, y, i, Flat, Given(qu), tally, i);
        InBatchHolds(c, w, ops, pr, y, i, Flat, Given(qu), tally, j);
        PlainName(c, w, ops[i], y, y, i, Flat);
        PlainName(c, w, ops[j], pr.done + j, y, j, Flat);
        PlainOutside(c, w, ops[i].path, ops[j].path);
      }
    }
  }

  lemma PlainOutside(c: Config, w: World, p: Path, q: Path)
    requires ConfigOK(c) && IsPlain(c.settings) && q in c.operands && p != q
    ensures Outside(NamingZone(c, w, p), q)
  {
    hide IsTemp;
    OperandFacts(c, q);
  }

  /** Names come to be only as the order of the operands says. */
  lemma KnownNext(c: Config, w: World, w': World, slot: nat, own: Ino, y: nat)
    requires y < |c.operands| && Known(c, w, y) && Frame(c, w, w', slot, NamingZone(c, w, c.operands[y]), own)
    requires ConfigOK(c)
    ensures Known(c, w', y + 1)
  {
    hide Frame, Stands, SimpleBackup, IsNumbered, Lent, IsTemp;
    var z := NamingZone(c, w, c.operands[y]);
    if MaySimple(c.settings) {
      forall x | 0 <= x < |c.operands| && c.operands[x] in w'.names ensures Stands(c, c.operands[x], y + 1) {
        var q := c.operands[x];
        OperandFacts(c, q);
        if q in w.names {
          StandsLater(c, q, y, y + 1);
        } else if Outside(z, q) && !Numberable(w, z, q) {
          NameSame(c, w, w', slot, z, own, q);
        } else {
          TurnGives(c, q, y);
        }
      }
    }
  }

  lemma TurnGives(c: Config, q: Path, y: nat)
    requires y < |c.operands| && (q == c.operands[y] || (BackupName(c, c.operands[y], q) && Stands(c, c.operands[y], y)))
    ensures Stands(c, q, y + 1)
  {
    hide BackupName;
    assert Gives(c, y, q);
  }

  /** Only simple backups, and no operand twice. */
  lemma ExactlyFacts(c: Config, w: World, y: nat)
    requires Exactly(c) && y < |c.operands|
    ensures MaySimple(c.settings) && !MayNumber(c.settings) && c.settings.force && c.settings.control == Simple
    ensures forall x :: 0 <= x < |c.operands| && x != y ==> c.operands[x] != c.operands[y]
    ensures c.operands[y] in w.names ==> NamingZone(c, w, c.operands[y]) == Zone(c.operands[y], true, false)
    ensures c.operands[y] !in w.names ==> NamingZone(c, w, c.operands[y]) == Own(c.operands[y])
  {
    assert forall x :: 0 <= x < y ==> c.operands[x] != c.operands[y];
  }

  /** What one operand's name holds after the turn of y. */
  lemma FateOne(c: Config, w: World, w': World, slot: nat, own: Ino, y: nat, limit: Ino, q: Path)
    requires ConfigOK(c) && Exactly(c) && y < |c.operands| && Frame(c, w, w', slot, NamingZone(c, w, c.operands[y]), own) && own >= limit
    requires c.operands[y] in w.names ==> BackupAt(w', c.operands[y], w.names[c.operands[y]])
    requires q in c.operands && q != c.operands[y]
    ensures q in w.names ==> q in w'.names
    ensures c.operands[y] in w.names && q == SimpleBackup(c.operands[y]) && OldAt(w, c.operands[y], limit) ==> OldAt(w', q, limit)
    ensures !(c.operands[y] in w.names && q == SimpleBackup(c.operands[y])) ==>
              (q in w'.names ==> q in w.names) && (OldAt(w, q, limit) ==> OldAt(w', q, limit))
  {
    hide Frame, IsTemp, SimpleBackup, Exactly, NamingZone, Lent, IsNumbered;
    var p := c.operands[y];
    ExactlyFacts(c, w, y);
    OperandFacts(c, q);
    if p in w.names && q == SimpleBackup(p) {
      if OldAt(w, p, limit) { FileSame(c, w, w', slot, NamingZone(c, w, p), own, w.names[p]); }
    } else {
      NameSame(c, w, w', slot, NamingZone(c, w, p), own, q);
      if OldAt(w, q, limit) { FileSame(c, w, w', slot, NamingZone(c, w, p), own, w.names[q]); }
    }
  }

  lemma FateNext(c: Config, w: World, w': World, slot: nat, own: Ino, y: nat, limit: Ino)
    requires ConfigOK(c) && Exactly(c) && y < |c.operands| && Frame(c, w, w', slot, NamingZone(c, w, c.operands[y]), own) && own >= limit
    requires Fate(c, w, y, limit) && Known(c, w, y) && c.operands[y] in w'.names && limit <= w.next
    requires c.operands[y] in w.names ==> BackupAt(w', c.operands[y], w.names[c.operands[y]])
    ensures Fate(c, w', y + 1, limit)
  {
    hide Frame, SimpleBackup, Exactly, NamingZone, Stands, OldAt, BackupAt, Known, Fate, Doomed, DoomAt;
    ExactlyFacts(c, w, y);
    forall x | 0 <= x < |c.operands|
      ensures Stands(c, c.operands[x], y + 1) ==> c.operands[x] in w'.names
      ensures x > y && c.operands[x] in w'.names ==> OldAt(w', c.operands[x], limit)
    {
      FateTurn(c, w, w', slot, own, y, limit, x);
    }
    forall x: nat, v: nat | Overwritten(c, x, v) && v < y + 1 ensures OldAt(w', c.operands[x], limit) {
      FateTaken(c, w, w', slot, own, y, limit, x, v);
    }
    forall x: nat, v: nat | Doomed(c, x, v) ensures DoomAt(c, w', x, v, y + 1, limit) {
      DoomNext(c, w, w', slot, own, y, limit, x, v);
    }
    assert Fate(c, w', y + 1, limit) by { FateIntro(c, w', y + 1, limit); }
  }

  lemma FateIntro(c: Config, w: World, from: nat, limit: Ino)
    requires forall y :: 0 <= y < |c.operands| && Stands(c, c.operands[y], from) ==> c.operands[y] in w.names
    requires forall y :: from <= y < |c.operands| && c.operands[y] in w.names ==> OldAt(w, c.operands[y], limit)
    requires forall x: nat, y: nat :: Overwritten(c, x, y) && y < from ==> OldAt(w, c.operands[x], limit)
    requires forall x: nat, y: nat :: Doomed(c, x, y) ==> DoomAt(c, w, x, y, from, limit)
    ensures Fate(c, w, from, limit)
  {
    hide Stands, OldAt, Overwritten, Doomed, DoomAt;
  }

  lemma FateTurn(c: Config, w: World, w': World, slot: nat, own: Ino, y: nat, limit: Ino, x: nat)
    requires ConfigOK(c) && Exactly(c) && y < |c.operands| && Frame(c, w, w', slot, NamingZone(c, w, c.operands[y]), own) && own >= limit
    requires Fate(c, w, y, limit) && Known(c, w, y) && c.operands[y] in w'.names && x < |c.operands|
    requires c.operands[y] in w.names ==> BackupAt(w', c.operands[y], w.names[c.operands[y]])
    ensures Stands(c, c.operands[x], y + 1) ==> c.operands[x] in w'.names
    ensures x > y && c.operands[x] in w'.names ==> OldAt(w', c.operands[x], limit)
  {
    hide Frame, SimpleBackup, Exactly, NamingZone, OldAt, IsNumbered, MaySimple, MayNumber, Overwritten;
    ExactlyFacts(c, w, y);
    var q := c.operands[x];
    if x != y {
      FateOne(c, w, w', slot, own, y, limit, q);
      if Stands(c, q, y + 1) && q !in w.names { StandsNow(c, q, y); }
    }
  }

  /** What has a name only since the turn of y was given it then. */
  lemma StandsNow(c: Config, q: Path, y: nat)
    requires Stands(c, q, y + 1) && y < |c.operands|
    ensures Stands(c, q, y) || q == c.operands[y] || (BackupName(c, c.operands[y], q) && Stands(c, c.operands[y], y))
  {
    hide BackupName;
    if q !in c.init {
      var z :| 0 <= z < y + 1 && z < |c.operands| && Gives(c, z, q);
      if z < y { assert Stands(c, q, y); }
    }
  }

  lemma FateTaken(c: Config, w: World, w': World, slot: nat, own: Ino, y: nat, limit: Ino, x: nat, v: nat)
    requires ConfigOK(c) && Exactly(c) && y < |c.operands| && Frame(c, w, w', slot, NamingZone(c, w, c.operands[y]), own) && own >= limit
    requires Fate(c, w, y, limit) && Overwritten(c, x, v) && v < y + 1
    requires c.operands[y] in w.names ==> BackupAt(w', c.operands[y], w.names[c.operands[y]])
    ensures OldAt(w', c.operands[x], limit)
  {
    hide Frame, SimpleBackup, Exactly, NamingZone, OldAt, IsNumbered, MaySimple, MayNumber, Stands, BackupAt;
    ExactlyFacts(c, w, y);
    FateOne(c, w, w', slot, own, y, limit, c.operands[x]);
    SimpleInjective(c.operands[v], c.operands[y]);
  }

  /** The turn of y takes from a later operand the name of its file, or leaves it. */
  lemma DoomNext(c: Config, w: World, w': World, slot: nat, own: Ino, y: nat, limit: Ino, x: nat, v: nat)
    requires ConfigOK(c) && Exactly(c) && y < |c.operands| && Frame(c, w, w', slot, NamingZone(c, w, c.operands[y]), own) && own >= limit
    requires Fate(c, w, y, limit) && Doomed(c, x, v) && limit <= w.next
    requires c.operands[y] in w.names ==> BackupAt(w', c.operands[y], w.names[c.operands[y]])
    ensures DoomAt(c, w', x, v, y + 1, limit)
  {
    hide Frame, SimpleBackup, Exactly, NamingZone, OldAt, IsNumbered, MaySimple, MayNumber, Stands, Sole, Gone, BackupAt, Overwritten;
    ExactlyFacts(c, w, y);
    var z, q, n := NamingZone(c, w, c.operands[y]), c.operands[x], c.init[c.operands[x]];
    assert DoomAt(c, w, x, v, y, limit);
    if v < y {
      GoneStable(c, w, w', slot, z, own, n);
    } else if v == y {
      BackupFacts(c.operands[y], q);
      assert c.operands[y] in w.names;
      DoomTaken(c, w, w', slot, z, own, c.operands[y], q, n);
    } else {
      OperandFacts(c, q);
      SimpleInjective(c.operands[v], c.operands[y]);
      SoleStable(c, w, w', slot, z, own, q, n);
    }
  }

  lemma DoomTaken(c: Config, w: World, w': World, slot: nat, z: Zone, own: Ino, p: Path, q: Path, n: Ino)
    requires Frame(c, w, w', slot, z, own) && Sole(w.names, q, n) && n != own && n < w.next && z.path == p
    requires p in w.names && p != q && q == SimpleBackup(p) && BackupAt(w', p, w.names[p])
    ensures Gone(w'.names, n)
  {
    hide NameFrame, FileFrame, GuardFrame, HistoryFrame, SwapFrame, IsTemp, SimpleBackup;
  }

  lemma GivenUnclaimed(c: Config, w: World, w': World, ops: seq<Op>, op: Op, pr: Progress, i: nat, slot: nat)
    requires ConfigOK(c) && Fated(c, w, ops, pr, pr.done + i) && i < |ops| && pr.done + i < |c.operands| && ops[i].path == c.operands[pr.done + i]
    requires Frame(c, w, w', slot, NamingZone(c, w, ops[i].path), ops[i].ino)
    ensures Unclaimed(c, w', Turn(c, ops[i := op], pr, pr.done + i + 1))
  {
    hide Frame, Fate, NamingZone, Distinct, Unclaimed, IsPlain, ZoneAt;
    var y := pr.done + i;
    NamingZoneAt(c, w, y);
    UnclaimedStep(c, w, w', slot, NamingZone(c, w, ops[i].path), ops[i].ino, y, Turn(c, ops, pr, y), Turn(c, ops[i := op], pr, y + 1));
  }

  lemma NoneGivenUp(c: Config, w: World, w': World, ops: seq<Op>, op: Op, pr: Progress, i: nat, slot: nat)
    requires ConfigOK(c) && Fated(c, w, ops, pr, pr.done + i) && i < |ops| && pr.done + i < |c.operands| && ops[i].path == c.operands[pr.done + i]
    requires Frame(c, w, w', slot, NamingZone(c, w, ops[i].path), ops[i].ino) && Known(c, w, pr.done + i) && ops[i].ino >= pr.limit && pr.limit <= w.next
    requires !ops[i].fail && op.path == ops[i].path && (!op.fail ==> op.path in w'.names)
    requires !op.fail && c.settings.force && c.settings.control == Simple && op.path in w.names ==> BackupAt(w', op.path, w.names[op.path])
    ensures Fated(c, w', ops[i := op], pr, pr.done + i + 1)
  {
    hide Frame, Fate, Known, NamingZone, BackupAt, Distinct, Unclaimed, IsPlain;
    GivenUnclaimed(c, w, w', ops, op, pr, i, slot);
    var ops' := ops[i := op];
    if Exactly(c) && AllGiven(ops', pr, pr.done + i + 1) {
      assert ops'[i] == op;
      assert forall j :: 0 <= j < i ==> ops'[j] == ops[j];
      FateNext(c, w, w', slot, ops[i].ino, pr.done + i, pr.limit);
    }
  }

  /** Where nothing stands in the way, the operand whose turn has come can be given its
      file. */
  lemma NameUnhindered(c: Config, w: World, ops: seq<Op>, pr: Progress, i: nat, qu: Queue, tally: Tally)
    requires InBatch(c, w, ops, pr, pr.done + i, i, Flat, Given(qu), tally) && i < |ops| && !ops[i].fail && !Hindered(c)
    ensures ops[i].way == Plain || !Barred(c, w, ops[i].path)
  {
    hide Going, Fate, Distinct, Stands, Nameless, HoldsAt;
    var x := pr.done + i;
    InBatchFacts(c, w, ops, pr, x, i, Flat, Given(qu), tally);
    FlatBuilt(c, w, ops[i], x, x, i);
    BuiltWay(c, w, ops[i], i, true);
    assert !HinderedAt(c, x);
    if !c.settings.force {
      FreeOrHindered(c);
      assert Unclaimed(c, w, Turn(c, ops, pr, x));
    }
  }

  predicate NoneFailed(ops: seq<Op>, n: nat) { forall j :: 0 <= j < n && j < |ops| ==> !ops[j].fail }

  /** What the naming of the first n operands showed, if none of them was given up. */
  ghost predicate Shown(c: Config, ops: seq<Op>, pr: Progress, n: nat) {
    pr.good && NoneFailed(ops, n) ==> forall x :: pr.done <= x < pr.done + n ==> NameShows(c, x)
  }

  /** Operands that were given their names have them. */
  lemma GivenThere(c: Config, w: World, ops: seq<Op>, pr: Progress, i: nat, qu: Queue, tally: Tally)
    requires InBatch(c, w, ops, pr, pr.done + i, i, Flat, Given(qu), tally) && i < |ops| && pr.good && NoneFailed(ops, i)
    ensures forall y :: 0 <= y < pr.done + i && Live(c, y, pr.done + i) ==> c.operands[y] in w.names
  {
    hide Steady, HoldsAt, Blamed, OpenBy, Known, Waits, Durable, Fated, IsPlain, Listed, Live;
    InBatchFacts(c, w, ops, pr, pr.done + i, i, Flat, Given(qu), tally);
    forall y | 0 <= y < pr.done + i && Live(c, y, pr.done + i) ensures c.operands[y] in w.names {
      if y < pr.done {
        DurableNamed(c, w, c.operands[y], pr.limit);
      } else {
        var j := y - pr.done;
        assert HoldsAt(c, w, ops[j], pr.done + j, pr.done + i, j, Given(qu));
        GivenName(c, w, ops[j], y, pr.done + i, j, qu);
      }
    }
  }

  lemma GivenName(c: Config, w: World, op: Op, x: nat, from: nat, j: nat, qu: Queue)
    requires HoldsAt(c, w, op, x, from, j, Given(qu)) && !op.fail && x < |c.operands| && Live(c, x, from)
    ensures op.path in w.names
  {
    hide FileDone, Dir, HoldsSlot, Queued, Live;
  }

  lemma PlainUnforced(c: Config)
    requires IsPlain(c.settings)
    ensures !c.settings.force
  {}

  lemma GivenShows(c: Config, w: World, ops: seq<Op>, ops': seq<Op>, pr: Progress, i: nat, qu: Queue, tally: Tally)
    requires PointOK(c, w) && InBatch(c, w, ops, pr, pr.done + i, i, Flat, Given(qu), tally) && i < |ops| && !ops[i].fail && pr.good
    requires |ops'| == |ops| && ops' == ops[i := ops'[i]] && NoneFailed(ops', i + 1)
    requires ops[i].way != Plain ==> if c.settings.force then !IsDirectory(c, ops[i].path) else ops[i].path !in w.names
    ensures NameShows(c, pr.done + i)
  {
    hide PointOK, InBatch, ClaimedAt, Live, IsPlain, Built, HoldsAt;
    var x := pr.done + i;
    InBatchFacts(c, w, ops, pr, x, i, Flat, Given(qu), tally);
    FlatBuilt(c, w, ops[i], x, x, i);
    BuiltWay(c, w, ops[i], i, true);
    assert forall j :: 0 <= j < i ==> ops[j] == ops'[j];
    if ops[i].way == Plain {
      PlainUnforced(c);
    } else if !c.settings.force {
      GivenThere(c, w, ops, pr, i, qu, tally);
      NotClaimed(c, w, x);
    }
  }

  lemma NextShown(c: Config, w: World, ops: seq<Op>, ops': seq<Op>, pr: Progress, i: nat, qu: Queue, tally: Tally)
    requires PointOK(c, w) && InBatch(c, w, ops, pr, pr.done + i, i, Flat, Given(qu), tally) && i < |ops| && !ops[i].fail
    requires |ops'| == |ops| && ops' == ops[i := ops'[i]]
    requires !ops'[i].fail && ops[i].way != Plain ==> if c.settings.force then !IsDirectory(c, ops[i].path) else ops[i].path !in w.names
    ensures Shown(c, ops, pr, i) ==> Shown(c, ops', pr, i + 1)
  {
    hide PointOK, InBatch, NameShows;
    assert forall j :: 0 <= j < i ==> ops[j] == ops'[j];
    if pr.good && NoneFailed(ops', i + 1) { GivenShows(c, w, ops, ops', pr, i, qu, tally); }
  }

  lemma NoneShown(c: Config, ops: seq<Op>, pr: Progress)
    ensures Shown(c, ops, pr, 0)
  {}

  lemma SkipShown(c: Config, ops: seq<Op>, pr: Progress, i: nat)
    requires i < |ops| && ops[i].fail
    ensures Shown(c, ops, pr, i + 1)
  {}

  lemma AllShown(c: Config, ops: seq<Op>, pr: Progress)
    requires Shown(c, ops, pr, |ops|) && pr.good && AllOk(ops)
    ensures forall x :: pr.done <= x < pr.done + |ops| ==> NameShows(c, x)
  {
    hide NameShows;
    assert forall j :: 0 <= j < |ops| ==> Fine(ops[j]);
  }

  /** name_one, up to the flush set: the first i + 1 operands are named, and the
      directory of the last is to be queued. */
  method NameNext(k: Machine, ops: seq<Op>, i: nat, held: bool, mask: bool, ghost orig: bool, ghost pr: Progress, ghost qu: Queue, ghost tally: Tally)
      returns (ops': seq<Op>, held': bool, mask': bool)
    requires k.Valid() && InBatch(k.c, k.w, ops, pr, pr.done + i, i, Flat, Given(qu), tally) && i < |ops| && !ops[i].fail
    requires MaskOK(k.w, held, mask, orig)
    modifies k
    ensures AllOk(ops) && !Hindered(k.c) ==> AllOk(ops') || k.faults > old(k.faults)
    ensures k.Valid() && old(k.trace) <= k.trace && old(k.faults) <= k.faults && |ops'| == |ops| && MaskOK(k.w, held', mask', orig)
    ensures ops' == ops[i := ops'[i]] && ops'[i].path == ops[i].path && (held ==> held') && (ops'[i].spare.Some? ==> held')
    ensures Shown(k.c, ops, pr, i) ==> Shown(k.c, ops', pr, i + 1)
    ensures AllOk(ops') ==> AllOk(ops)
    ensures
      var qu' := if ops'[i].fail then qu else With(qu, Dir(ops[i].path));
      InBatch(k.c, k.w, ops', pr, pr.done + i + 1, i + 1, Flat, Given(qu'), tally)
  {
    hide Hindered, Barred, Shown, PointOK, ConfigOK, Tied, Went, KindsOK, Steady, Frame, InBatch, HoldsAt, Built, Named, Dir, Unreplaced, SimpleFree, Gave, Keeping, NamingZone, Listed, Known, BackupAt;
    ghost var w := k.w;
    InBatchFacts(k.c, w, ops, pr, pr.done + i, i, Flat, Given(qu), tally);
    BatchLimit(k.c);
    TurnUnreplaced(k.c, w, ops, pr, pr.done + i, i, Flat, Given(qu), tally);
    assert ops[i].path == k.c.operands[pr.done + i];
    FlatBuilt(k.c, w, ops[i], pr.done + i, pr.done + i, i);
    ghost var z := NamingZone(k.c, w, ops[i].path);
    if !Hindered(k.c) { NameUnhindered(k.c, w, ops, pr, i, qu, tally); }
    var op;
    op, held', mask' := NameFile(k, ops[i], i, held, mask, orig, z);
    KeepingParts(k.c, w, k.w, i, z, ops[i].ino);
    NamedFacts(k.c, k.w, op, i);
    NextGiven(k.c, w, k.w, ops, op, pr, i, qu, tally, z);
    ops' := ops[i := op];
    AllOkUpdate(ops, i, op);
    NextShown(k.c, w, ops, ops', pr, i, qu, tally);
  }

  lemma TurnUnreplaced(c: Config, w: World, ops: seq<Op>, pr: Progress, from: nat, i: nat, before: Phase, after: Phase, tally: Tally)
    requires InBatch(c, w, ops, pr, from, i, before, after, tally) && from < |c.operands|
    ensures Unreplaced(c, w, c.operands[from])
    ensures c.operands[from] in w.names ==> SimpleFree(c, w, c.operands[from])
  {
    hide Going, Fated, Unreplaced, Stands, Guarded, Unprotected;
    GoingLater(c, w, ops, pr, from, i, before, after, tally);
    assert Known(c, w, from) by { InBatchFacts(c, w, ops, pr, from, i, before, after, tally); }
  }

  lemma NamedFacts(c: Config, w: World, op: Op, slot: nat)
    requires Named(c, w, op, slot, true)
    ensures !op.fail ==> op.path in w.names
    ensures op.fail ==> op.spare == None
  {
    hide FileDone, HoldsSlot;
  }

  /** The batch after one operand was named. */
  lemma NextGiven(c: Config, w: World, w': World, ops: seq<Op>, op: Op, pr: Progress, i: nat, qu: Queue, tally: Tally, z: Zone)
    requires ConfigOK(c) && PointOK(c, w) && InBatch(c, w, ops, pr, pr.done + i, i, Flat, Given(qu), tally) && i < |ops| && !ops[i].fail
    requires z == NamingZone(c, w, ops[i].path) && Frame(c, w, w', i, z, ops[i].ino) && Steady(c, w') && |w'.slots| == PENDING_SLOTS
    requires w'.open <= w.open && w'.slots[PENDING_BACKUP] == Clear && Named(c, w', op, i, true) && Released(ops[i], op, w')
    requires op.path == ops[i].path && op.ino == ops[i].ino && (ops[i].leftover ==> op.leftover)
    requires (!op.fail ==> op.path in w'.names) && (op.fail ==> op.spare == None)
    requires (!op.fail && !op.leftover ==> w'.left == w.left) && Gave(c, w, w', ops[i].path)
    requires !op.fail && c.settings.force && c.settings.control == Simple && op.path in w.names ==> BackupAt(w', op.path, w.names[op.path])
    ensures
      var qu' := if op.fail then qu else With(qu, Dir(ops[i].path));
      InBatch(c, w', ops[i := op], pr, pr.done + i + 1, i + 1, Flat, Given(qu'), tally)
  {
    hide PointOK, ConfigOK, Steady, Frame, Going, Fated, HoldsAt, Named, Dir, NamingZone, Known, BackupAt, Unrelated, Beside, Listed, Released, Waits, Requeued, Gave;
    ZoneFacts(c, w, ops[i].path);
    var y := pr.done + i;
    var qu' := if op.fail then qu else With(qu, Dir(ops[i].path));
    InBatchFacts(c, w, ops, pr, y, i, Flat, Given(qu), tally);
    ListedOwn(c, w, ops, pr, y, i, Flat, Given(qu), tally);
    assert ops[i].path == c.operands[y];
    NamingUnrelated(c, w, pr, y);
    NamingBeside(c, w, ops, pr, i, qu, tally);
    KnownNext(c, w, w', i, ops[i].ino, y);
    NoneGivenUp(c, w, w', ops, op, pr, i, i);
    GoingLater(c, w, ops, pr, y, i, Flat, Given(qu), tally);
    assert Requeued(c, w, qu, qu') by { WithRequeued(c, w, qu, Dir(ops[i].path)); RequeuedRefl(c, w, qu); }
    GoingRequeued(c, w, ops, pr, y + 1, i, Flat, Given(qu), qu', tally);
    BesideRequeued(c, ops, i, z, pr.done, y + 1, qu, qu');
    NamedGiven(c, w', op, y, y + 1, i, qu');
    GoingStep(c, w, w', ops, op, ops[i].ino, pr, y + 1, i, Flat, Given(qu'), tally, z, y);
  }

  lemma BesideRequeued(c: Config, ops: seq<Op>, i: nat, z: Zone, done: nat, from: nat, qu: Queue, qu': Queue)
    requires Beside(c, ops, i, z, done, from, Flat, Given(qu))
    ensures Beside(c, ops, i, z, done, from, Flat, Given(qu'))
  {
    hide Outside, Live, IsPlain;
    forall j | 0 <= j < |ops| && j != i && !ops[j].fail && Matters(c, done + j, from, if j < i then Given(qu') else Flat)
      ensures Outside(z, ops[j].path)
    {
      assert Matters(c, done + j, from, if j < i then Given(qu) else Flat);
    }
  }

  /** An operand that tally before its turn. */
  lemma SkipGiven(c: Config, w: World, ops: seq<Op>, pr: Progress, i: nat, qu: Queue, tally: Tally)
    requires InBatch(c, w, ops, pr, pr.done + i, i, Flat, Given(qu), tally) && i < |ops| && ops[i].fail
    ensures InBatch(c, w, ops, pr, pr.done + i + 1, i + 1, Flat, Given(qu), tally)
  {
    hide Going, HoldsAt, Fate, Listed, Known, Steady;
    InBatchFacts(c, w, ops, pr, pr.done + i, i, Flat, Given(qu), tally);
    FailedGiven(c, w, ops[i], pr.done + i, pr.done + i, i, qu);
    GoingLater(c, w, ops, pr, pr.done + i, i, Flat, Given(qu), tally);
    BatchSkip(c, w, ops, pr, pr.done + i + 1, i, Flat, Given(qu), tally);
  }

  lemma RequeuedRefl(c: Config, w: World, qu: Queue)
    ensures Requeued(c, w, qu, qu)
  {}

  /** The flush set still stands for what it did. */
  lemma AddRequeued(c: Config, w: World, qu: Queue, dir: string, qu': Queue, old_: nat)
    requires qu.failed <= qu'.failed && qu.suspect <= qu'.suspect && dir in qu'.dirs && old_ == qu.failed
    requires forall d :: d in qu.dirs && d !in qu'.dirs ==>
               !c.flushes(c.ident(d)) || Clean(c, w, c.ident(d)) || (d in qu'.suspect && qu'.failed > old_)
    ensures Requeued(c, w, With(qu, dir), qu') && Requeued(c, w, qu, qu')
  {
    hide Clean;
  }

  /** Flushing directories is about no operand. */
  lemma BatchFlushed(c: Config, w: World, w': World, ops: seq<Op>, pr: Progress, from: nat, i: nat, before: Phase, after: Phase, tally: Tally)
    requires ConfigOK(c) && PointOK(c, w) && InBatch(c, w, ops, pr, from, i, before, after, tally)
    requires OnlyDisk(c, w, w') && w'.dirFds == w.dirFds
    ensures InBatch(c, w', ops, pr, from, i, before, after, tally) && w'.blocked == w.blocked
  {
    hide PointOK, ConfigOK, Tied, Went, KindsOK, InBatch, OnlyDisk, Steady, Frame, Nowhere, Listed, Known;
    InBatchFacts(c, w, ops, pr, from, i, before, after, tally);
    OnlyDiskFrame(c, w, w', PENDING_BACKUP, Own(Nowhere(c)), w.next);
    OnlyDiskSteady(c, w, w');
    OnlyDiskSame(c, w, w');
    BatchStay(c, w, w', ops, pr, from, i, before, after, tally);
  }

  predicate SparesHeld(ops: seq<Op>, n: nat, held: bool) {
    forall j :: 0 <= j < n && j < |ops| && ops[j].spare.Some? ==> held
  }

  lemma FailedNoSpare(c: Config, w: World, op: Op, x: nat, from: nat, j: nat)
    requires HoldsAt(c, w, op, x, from, j, Flat)
    ensures op.spare == None
  {
    hide Finished, Live, IsPlain;
  }

  /** Every operand that was built is given its name, and its directory queued. */
  method NameAll(fs: FlushSet, ops: seq<Op>, ghost pr: Progress, ghost orig: bool, ghost ids: seq<DirId>)
      returns (ops': seq<Op>, held: bool, mask: bool, ghost ids': seq<DirId>)
    requires fs.Valid() && fs.k.w.blocked == orig && fs.OnRecord(ids)
    requires InBatch(fs.k.c, fs.k.w, ops, pr, pr.done, |ops|, Raw, Flat, Tally(fs.failed, ids))
    modifies fs, fs.k
    ensures AllOk(ops') ==> AllOk(ops)
    ensures pr.good && AllOk(ops') ==> forall x :: pr.done <= x < pr.done + |ops| ==> NameShows(fs.k.c, x)
    ensures AllOk(ops) && !Hindered(fs.k.c) ==> AllOk(ops') || fs.k.faults > old(fs.k.faults)
    ensures fs.failed - old(fs.failed) <= fs.k.faults - old(fs.k.faults)
    ensures fs.Valid() && old(fs.k.trace) <= fs.k.trace && old(fs.k.faults) <= fs.k.faults && |ops'| == |ops| && MaskOK(fs.k.w, held, mask, orig)
    ensures SparesHeld(ops', |ops|, held) && fs.failed >= old(fs.failed) && fs.OnRecord(ids')
    ensures InBatch(fs.k.c, fs.k.w, ops', pr, pr.done + |ops|, |ops|, Raw, Given(QueueOf(fs)), Tally(fs.failed, ids'))
  {
    hide Hindered, AllOk, Shown, NameShows, PointOK, ConfigOK, Tied, Went, KindsOK, Steady, InBatch, HoldsAt, OnlyDisk, Clean, Requeued, Listed, Known;
    var k := fs.k;
    ops', held, mask, ids' := ops, false, false, ids;
    NextPhase(k.c, k.w, ops, pr, pr.done, |ops|, Raw, Flat, Given(QueueOf(fs)), Tally(fs.failed, ids'));
    assert Shown(k.c, ops', pr, 0) by { NoneShown(k.c, ops', pr); }
    var i := 0;
    while i < |ops|
      invariant AllOk(ops') ==> AllOk(ops)
      invariant Shown(k.c, ops', pr, i)
      invariant AllOk(ops) && !Hindered(k.c) ==> AllOk(ops') || k.faults > old(k.faults)
      invariant fs.failed - old(fs.failed) <= k.faults - old(k.faults)
      invariant 0 <= i <= |ops| == |ops'| && fs.Valid() && old(k.trace) <= k.trace && old(k.faults) <= k.faults && MaskOK(k.w, held, mask, orig)
      invariant SparesHeld(ops', i, held) && fs.failed >= old(fs.failed) && fs.OnRecord(ids')
      invariant InBatch(k.c, k.w, ops', pr, pr.done + i, i, Flat, Given(QueueOf(fs)), Tally(fs.failed, ids'))
    {
      ghost var tally := Tally(fs.failed, ids');
      InBatchFacts(k.c, k.w, ops', pr, pr.done + i, i, Flat, Given(QueueOf(fs)), tally);
      if ops'[i].fail {
        FailedNoSpare(k.c, k.w, ops'[i], pr.done + i, pr.done + i, i);
        SkipShown(k.c, ops', pr, i);
        SkipGiven(k.c, k.w, ops', pr, i, QueueOf(fs), tally);
      } else {
        ops', held, mask := NameNext(k, ops', i, held, mask, orig, pr, QueueOf(fs), tally);
        if !ops'[i].fail {
          ids' := QueueDir(fs, ops', i, pr, ids');
        }
      }
      i := i + 1;
    }
    if pr.good && AllOk(ops') { AllShown(k.c, ops', pr); }
    LastPhase(k.c, k.w, ops', pr, pr.done + i, i, Flat, Given(QueueOf(fs)), Tally(fs.failed, ids'));
  }

  /** flush_set_add, for the operand just named. */
  method QueueDir(fs: FlushSet, ops: seq<Op>, i: nat, ghost pr: Progress, ghost ids: seq<DirId>) returns (ghost ids': seq<DirId>)
    requires fs.Valid() && i < |ops| && fs.OnRecord(ids)
    requires InBatch(fs.k.c, fs.k.w, ops, pr, pr.done + i + 1, i + 1, Flat, Given(With(QueueOf(fs), Dir(ops[i].path))), Tally(fs.failed, ids))
    modifies fs, fs.k
    ensures fs.failed - old(fs.failed) <= fs.k.faults - old(fs.k.faults)
    ensures fs.Valid() && old(fs.k.trace) <= fs.k.trace && old(fs.k.faults) <= fs.k.faults && fs.k.w.blocked == old(fs.k.w).blocked && fs.failed >= old(fs.failed)
    ensures InBatch(fs.k.c, fs.k.w, ops, pr, pr.done + i + 1, i + 1, Flat, Given(QueueOf(fs)), Tally(fs.failed, ids'))
    ensures fs.OnRecord(ids')
  {
    hide PointOK, ConfigOK, Tied, Went, KindsOK, Steady, InBatch, OnlyDisk, Clean, Requeued, Dir, Listed, Known;
    var k := fs.k;
    ghost var w, qu, failed := k.w, QueueOf(fs), fs.failed;
    ghost var tally := Tally(failed, ids);
    ghost var dir := Dir(ops[i].path);
    InBatchFacts(k.c, w, ops, pr, pr.done + i + 1, i + 1, Flat, Given(With(qu, dir)), tally);
    fs.Add(Dir(ops[i].path), ids);
    ids' := k.w.flushFailed;
    BatchFlushed(k.c, w, k.w, ops, pr, pr.done + i + 1, i + 1, Flat, Given(With(qu, dir)), tally);
    AddRequeued(k.c, k.w, qu, dir, QueueOf(fs), failed);
    BatchRequeued(k.c, k.w, ops, pr, pr.done + i + 1, i + 1, Flat, Given(With(qu, dir)), QueueOf(fs), tally);
    BlamedMore(k.c, k.w, ops, pr, pr.done + i + 1, i + 1, Flat, Given(QueueOf(fs)), tally, Tally(fs.failed, ids'));
  }
}
