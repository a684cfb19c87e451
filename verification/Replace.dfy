/** Replacing a file that exists, or may. */
module Replace {
  import opened Names
  import opened Spec
  import opened World
  import opened Steps
  import opened Coherence
  import opened Kernel
  import opened Frames
  import opened Pending
  import opened Place
  import opened Commit
  import opened Backup
  import opened Flush

  /* ----- moving the guard ----- */

  /** The guards that let p be replaced: its backup's, or none to move. */
  function ReguardW(c: Config, w: World, p: Path, b: Option<Path>): World {
    if b.Some? then RebaseW(w, p, b.value) else w
  }

  /** p has a backup that a crash cannot undo, or no need of one. */
  ghost predicate MayReplace(c: Config, w: World, p: Path, b: Option<Path>) {
    && Uncommitted(c, w, p)
    && (Guarded(c) ==>
          && NoSwapAt(w, p)
          && match b
             case Some(x) => p in w.names && BackupName(c, p, x) && Settled(c, w, x, w.names[p])
             case None => p !in w.names)
  }

  lemma ReguardPoint(c: Config, w: World, p: Path, b: Option<Path>)
    requires PointOK(c, w) && w.blocked && MayReplace(c, w, p, b) && p in c.operands
    ensures PointOK(c, ReguardW(c, w, p, b))
    ensures Steady(c, w) ==> Steady(c, ReguardW(c, w, p, b))
  {
    hide Steady, WellFormed, SignalOK, PublishOK, CrashOK, HistoryOK, FdsOK, Settled, BackupName, Guarded, Uncommitted;
    match b
    case Some(x) => RebasePoint(c, w, p, x);
    case None =>
  }

  lemma ReguardUnprotected(c: Config, w: World, p: Path, b: Option<Path>)
    requires ConfigOK(c) && PointOK(c, w) && p in c.operands && MayReplace(c, w, p, b)
    ensures Guarded(c) ==> Unprotected(ReguardW(c, w, p, b), p)
    ensures Uncommitted(c, ReguardW(c, w, p, b), p)
  {
    hide WellFormed, SignalOK, PublishOK, HistoryOK, CrashOK, FdsOK, GuardOK, Guarded, BackupName, Settled, Separate;
    if Guarded(c) {
      if b == None {
        FreeUnprotected(c, w, p);
      } else {
        forall x | x in w.guard ensures !GuardUses(Rebased(w.guard[x], p, b.value), p) {
          assert CrashOK(c, w);
          RebasedLeaves(c, w, p, b.value, x);
        }
      }
    }
  }

  lemma RebasedLeaves(c: Config, w: World, p: Path, b: Path, x: Path)
    requires ConfigOK(c) && Guarded(c) && CrashOK(c, w) && NoSwapAt(w, p) && p in c.operands && BackupName(c, p, b) && x in w.guard
    ensures !GuardUses(Rebased(w.guard[x], p, b), p)
  {
    hide GuardOK, Guarded, BackupName, Dir, Backs, IsTemp;
    assert GuardAt(c, w, x);
    BackupNameFacts(c, p, b);
    OperandFacts(c, p);
  }

  /* ----- rename ----- */

  function ReplacedW(c: Config, w: World, tmp: Path, p: Path, slot: nat, b: Option<Path>): World
    requires tmp in w.names && slot < |w.slots| && PENDING_BACKUP < |w.slots|
  {
    ClearW(RenamedW(c, ReguardW(c, w, p, b), tmp, p, slot), PENDING_BACKUP)
  }

  /** What the backup slot names is the operand's backup, or nothing. */
  ghost predicate BackupSlot(c: Config, w: World, p: Path) {
    && |w.slots| == PENDING_SLOTS
    && (w.slots[PENDING_BACKUP].Armed? ==> BackupName(c, p, w.slots[PENDING_BACKUP].path) && w.slots[PENDING_BACKUP].path !in w.taken)
    && (w.slots[PENDING_BACKUP].Armed? && Guarded(c) ==> Unprotected(w, w.slots[PENDING_BACKUP].path))
  }

  lemma ReguardReady(c: Config, w: World, slot: nat, tmp: Path, p: Path, n: Ino, b: Option<Path>)
    requires Ready(c, w, slot, tmp, p, n)
    ensures Ready(c, ReguardW(c, w, p, b), slot, tmp, p, n)
  {
    hide IsTemp, Dir, FileDone;
  }

  lemma ReplacedPoint(c: Config, w: World, slot: nat, tmp: Path, p: Path, n: Ino, b: Option<Path>)
    requires ConfigOK(c) && PointOK(c, w) && w.blocked && Ready(c, w, slot, tmp, p, n) && MayReplace(c, w, p, b) && c.settings.force
    ensures
      var w1 := ReguardW(c, w, p, b);
      && Ready(c, w1, slot, tmp, p, n)
      && PointOK(c, w1) && PointOK(c, MoveW(c, w1, tmp, p)) && PointOK(c, CommitW(MoveW(c, w1, tmp, p), p))
      && PointOK(c, RenamedW(c, w1, tmp, p, slot)) && PointOK(c, ReplacedW(c, w, tmp, p, slot, b))
  {
    hide WellFormed, SignalOK, PublishOK, HistoryOK, CrashOK, FdsOK, MayReplace, IsTemp, Dir, FileDone, Unprotected, Steady, Guarded, Uncommitted;
    var w1 := ReguardW(c, w, p, b);
    ReguardReady(c, w, slot, tmp, p, n, b);
    ReguardPoint(c, w, p, b);
    ReadySlot(c, w, slot, tmp, p, n);
    ReguardUnprotected(c, w, p, b);
    MovedPoint(c, w1, slot, tmp, p, n);
    assert RenamedW(c, w1, tmp, p, slot).blocked by { ReguardSame(c, w, p, b); }
    ClearPoint(c, RenamedW(c, w1, tmp, p, slot), PENDING_BACKUP);
  }

  lemma ReguardSame(c: Config, w: World, p: Path, b: Option<Path>)
    ensures ReguardW(c, w, p, b).(guard := w.guard) == w
  {}

  /** No slot is about an operand of a run that replaces. */
  lemma NoSlotAtOperand(c: Config, w: World, p: Path)
    requires ConfigOK(c) && WellFormed(c, w) && c.settings.force && p in c.operands && BackupSlot(c, w, p)
    ensures forall s :: 0 <= s < |w.slots| && w.slots[s].Armed? ==> w.slots[s].path != p
  {
    hide IsTemp, BackupName, Guarded, SlotBeside, SlotOwn, Unclobbered;
    OperandFacts(c, p);
    if w.slots[PENDING_BACKUP].Armed? { BackupNameFacts(c, p, w.slots[PENDING_BACKUP].path); }
  }

  lemma ReplacedClass(c: Config, w: World, slot: nat, tmp: Path, p: Path, n: Ino, b: Option<Path>)
    requires ConfigOK(c) && Ready(c, w, slot, tmp, p, n) && Classified(c, w) && BackupSlot(c, w, p)
    ensures Classified(c, ReplacedW(c, w, tmp, p, slot, b))
  {
    hide IsTemp, Dir, FileDone, BackupName;
    ReguardReady(c, w, slot, tmp, p, n, b);
    var w1 := ReguardW(c, w, p, b);
    MovedDone(c, w1, slot, tmp, p, n);
    var w' := ReplacedW(c, w, tmp, p, slot, b);
    forall q | q in w'.names && q != p && ArmedAt(w, q, w.names[q])
      ensures ArmedAt(w', q, w'.names[q]) || BackupFor(c, w', p, q)
    {
      var s :| 0 <= s < |w.slots| && w.slots[s] == Armed(q, w.names[q]);
      if s != PENDING_BACKUP {
        assert s != slot && w'.slots[s] == w.slots[s];
      }
    }
    NamedClass(c, w, w', p);
  }

  lemma ReguardSlots(c: Config, w: World, p: Path, b: Option<Path>)
    ensures ReguardW(c, w, p, b).slots == w.slots
    ensures SlotsOK(w) ==> SlotsOK(ReguardW(c, w, p, b))
    ensures NoPlaceholder(w) ==> NoPlaceholder(ReguardW(c, w, p, b))
  {}

  lemma ReadySlot(c: Config, w: World, slot: nat, tmp: Path, p: Path, n: Ino)
    requires Ready(c, w, slot, tmp, p, n)
    ensures slot < |w.slots| == PENDING_SLOTS && tmp in w.names && p in c.operands
  {}

  lemma ClearBut(w: World, s: nat)
    requires SlotsOK(w)
    ensures SlotsBut(w, s)
  {}

  lemma ReplacedSlots(c: Config, w: World, slot: nat, tmp: Path, p: Path, n: Ino, b: Option<Path>)
    requires ConfigOK(c) && WellFormed(c, w) && c.settings.force && Ready(c, w, slot, tmp, p, n)
    requires SlotsOK(w) && NoPlaceholder(w) && BackupSlot(c, w, p)
    ensures SlotsOK(ReplacedW(c, w, tmp, p, slot, b)) && NoPlaceholder(ReplacedW(c, w, tmp, p, slot, b))
  {
    hide IsTemp, Dir, FileDone, BackupName, Ready, WellFormed, SlotsOK, SlotsBut;
    ReguardReady(c, w, slot, tmp, p, n, b);
    ReadySlot(c, w, slot, tmp, p, n);
    NoSlotAtOperand(c, w, p);
    var w1 := ReguardW(c, w, p, b);
    ReguardSlots(c, w, p, b);
    RenamedSlots(c, w1, slot, tmp, p, n);
    RenamedNoPlaceholder(c, w1, slot, tmp, p, n);
    ClearBut(RenamedW(c, w1, tmp, p, slot), PENDING_BACKUP);
    ClearedSlots(RenamedW(c, w1, tmp, p, slot), ReplacedW(c, w, tmp, p, slot, b), PENDING_BACKUP);
  }

  lemma ReplacedFrame(c: Config, w: World, slot: nat, tmp: Path, p: Path, n: Ino, b: Option<Path>)
    requires ConfigOK(c) && Ready(c, w, slot, tmp, p, n) && MayReplace(c, w, p, b)
    ensures Frame(c, w, ReplacedW(c, w, tmp, p, slot, b), slot, Own(p), n)
  {
    hide Dir, IsTemp, FileDone, Frame, MayReplace;
    var w1 := ReguardW(c, w, p, b);
    ReguardReady(c, w, slot, tmp, p, n, b);
    ReguardFrame(c, w, slot, p, n, b);
    RenamedFrame(c, w1, slot, tmp, p, n);
    var w2 := RenamedW(c, w1, tmp, p, slot);
    ClearBackupFrame(c, w2, slot, p, n);
    FrameTrans(c, w, w1, w2, slot, Own(p), n);
    FrameTrans(c, w, w2, ReplacedW(c, w, tmp, p, slot, b), slot, Own(p), n);
  }

  lemma ReguardFrame(c: Config, w: World, slot: nat, p: Path, n: Ino, b: Option<Path>)
    requires MayReplace(c, w, p, b)
    ensures Frame(c, w, ReguardW(c, w, p, b), slot, Own(p), n)
  {
    hide NameFrame, Outside, FileFrame, BindFrame, Within, GuardFrame, ReguardW;
    ReguardSame(c, w, p, b);
    ReguardMoves(c, w, p, b);
    SameLends(w, ReguardW(c, w, p, b));
    SameNameFrame(c, w, ReguardW(c, w, p, b), Own(p));
    SameFileBind(w, ReguardW(c, w, p, b), Own(p), n);
  }

  lemma ReguardMoves(c: Config, w: World, p: Path, b: Option<Path>)
    requires MayReplace(c, w, p, b)
    ensures GuardFrame(c, w, ReguardW(c, w, p, b), p)
  {
    hide Guarded, IsTemp, BackupName, Settled, Uncommitted, NoSwapAt;
  }

  lemma ClearBackupFrame(c: Config, w: World, slot: nat, p: Path, n: Ino)
    requires |w.slots| == PENDING_SLOTS
    ensures Frame(c, w, ClearW(w, PENDING_BACKUP), slot, Own(p), n)
  {
    hide NameFrame, Outside, FileFrame, BindFrame, Within, GuardFrame;
    SameNameFrame(c, w, ClearW(w, PENDING_BACKUP), Own(p));
    SameFileBind(w, ClearW(w, PENDING_BACKUP), Own(p), n);
    GuardFrameSame(c, w, ClearW(w, PENDING_BACKUP), p);
  }

  lemma ReplacedPublished(c: Config, w: World, slot: nat, tmp: Path, p: Path, n: Ino, b: Option<Path>)
    requires ConfigOK(c) && PointOK(c, w) && c.settings.force && Ready(c, w, slot, tmp, p, n) && Steady(c, w)
    requires BackupSlot(c, w, p) && MayReplace(c, w, p, b)
    ensures Published(c, w, ReplacedW(c, w, tmp, p, slot, b), slot, p, n)
  {
    hide Dir, IsTemp, FileDone, Frame, Classified, SlotsOK, NoPlaceholder, SignalOK, PublishOK, HistoryOK, CrashOK, WellFormed, MayReplace;
    ReplacedClass(c, w, slot, tmp, p, n, b);
    ReplacedSlots(c, w, slot, tmp, p, n, b);
    ReplacedFrame(c, w, slot, tmp, p, n, b);
    ReguardReady(c, w, slot, tmp, p, n, b);
    MovedDone(c, ReguardW(c, w, p, b), slot, tmp, p, n);
  }

  /** The backup the guard moves to is in no slot once the operand is replaced. */
  lemma ReplacedFree(c: Config, w: World, slot: nat, p: Path, b: Option<Path>)
    requires ConfigOK(c) && PointOK(c, w) && c.settings.force && slot < PENDING_SLOTS && !w.blocked && MayReplace(c, w, p, b)
    ensures ArmedFree(c, w.slots[slot := Clear][PENDING_BACKUP := Clear], ReguardW(c, w, p, b).guard)
  {
    hide PublishOK, HistoryOK, CrashOK, FdsOK, Classified, Settled, IsTemp, Guarded, BackupName, NoSwapAt, Uncommitted, SlotOwn, SlotBeside, Unclobbered;
    if Guarded(c) {
      var slots, guard := w.slots[slot := Clear][PENDING_BACKUP := Clear], ReguardW(c, w, p, b).guard;
      if b.Some? { BackupNameFacts(c, p, b.value); }
      forall s, x | 0 <= s < |slots| && slots[s].Armed? && x in guard ensures !GuardUses(guard[x], slots[s].path) {
        assert slots[s] == w.slots[s] && s < BATCH;
        assert !GuardUses(w.guard[x], slots[s].path);
      }
    }
  }

  /** The operand was replaced, and signals are about to be let through again. */
  lemma ReplacedDone(c: Config, w: World, w1: World, slot: nat, tmp: Path, p: Path, n: Ino, b: Option<Path>)
    requires ConfigOK(c) && PointOK(c, w) && PointOK(c, BlockW(w, true)) && c.settings.force && Steady(c, w)
    requires Ready(c, w, slot, tmp, p, n) && BackupSlot(c, w, p) && MayReplace(c, w, p, b)
    requires w1 == ReplacedW(c, BlockW(w, true), tmp, p, slot, b)
    ensures w.blocked || LetThrough(c, w1)
    ensures
      var w' := BlockW(w1, w.blocked);
      && Published(c, w, w', slot, p, n) && |w'.slots| == PENDING_SLOTS
      && w'.slots[slot] == Clear && w'.slots[PENDING_BACKUP] == Clear
  {
    hide PointOK, ConfigOK, Tied, Went, KindsOK, Classified, NoPlaceholder, SlotsOK, ArmedFree, NoSpareArmed, Frame, IsTemp, Dir, FileDone, MayReplace, BackupSlot, ReplacedW, ReguardW;
    ReplacedParts(c, BlockW(w, true), slot, tmp, p, n, b);
    ReguardBlocked(c, w, p, b);
    StillFree(c, w, slot, p, n);
    BlockedReplace(c, w, slot, tmp, p, n, b);
    ReplacedPublished(c, BlockW(w, true), slot, tmp, p, n, b);
    BlockedPublished(c, w, w1, w.blocked, slot, p, n);
    if !w.blocked { ReplacedFree(c, w, slot, p, b); }
    ClearedSpares(w.slots[slot := Clear], w.files);
  }

  lemma ReplacedParts(c: Config, w: World, slot: nat, tmp: Path, p: Path, n: Ino, b: Option<Path>)
    requires Ready(c, w, slot, tmp, p, n)
    ensures
      var w' := ReplacedW(c, w, tmp, p, slot, b);
      && w'.slots == w.slots[slot := Clear][PENDING_BACKUP := Clear] && |w'.slots| == PENDING_SLOTS && w'.files == w.files
      && w'.guard == ReguardW(c, w, p, b).guard
  {
    hide Dir, IsTemp, FileDone;
  }

  lemma ReguardBlocked(c: Config, w: World, p: Path, b: Option<Path>)
    ensures ReguardW(c, BlockW(w, true), p, b).guard == ReguardW(c, w, p, b).guard
  {}

  lemma ClearedSpares(slots: seq<Slot>, files: map<Ino, File>)
    requires |slots| == PENDING_SLOTS
    ensures NoSpareArmed(slots, files) ==> NoSpareArmed(slots[PENDING_BACKUP := Clear], files)
  {}


  /** The finished file replaces p, with what backup it has. */
  method PlaceRename(k: Machine, tmp: Path, p: Path, slot: nat, b: Option<Path>, ghost n: Ino) returns (ok: bool)
    requires k.Valid() && Steady(k.c, k.w) && Ready(k.c, k.w, slot, tmp, p, n) && k.c.settings.force
    requires BackupSlot(k.c, k.w, p) && MayReplace(k.c, k.w, p, b)
    modifies k
    ensures k.Valid() && old(k.trace) <= k.trace && old(k.faults) <= k.faults
    ensures ok ==> Published(k.c, old(k.w), k.w, slot, p, n) && |k.w.slots| == PENDING_SLOTS
    ensures ok ==> k.w.slots[slot] == Clear && k.w.slots[PENDING_BACKUP] == Clear
    ensures !ok ==> k.w == old(k.w)
    ensures !ok ==> k.faults > old(k.faults) || (p in old(k.w).names && IsDirectory(k.c, p))
  {
    hide PointOK, ConfigOK, Tied, Went, KindsOK, IsTemp, Dir, FileDone, Frame, Classified, SlotsOK, NoPlaceholder, MayReplace, BackupSlot, Published, LetThrough;
    ghost var w0 := k.w;
    BlockedAgain(k.c, w0);
    BlockedReplace(k.c, w0, slot, tmp, p, n, b);
    var was := k.Hold();
    ok := RenameHeld(k, tmp, p, slot, b, n);
    if ok { ReplacedDone(k.c, w0, k.w, slot, tmp, p, n, b); }
    k.Release(was);
  }

  /** With signals blocked. */
  method RenameHeld(k: Machine, tmp: Path, p: Path, slot: nat, b: Option<Path>, ghost n: Ino) returns (ok: bool)
    requires k.Valid() && k.w.blocked && Ready(k.c, k.w, slot, tmp, p, n) && MayReplace(k.c, k.w, p, b) && k.c.settings.force
    modifies k
    ensures k.Valid() && old(k.trace) <= k.trace && old(k.faults) <= k.faults
    ensures k.w == if ok then ReplacedW(k.c, old(k.w), tmp, p, slot, b) else old(k.w)
    ensures !ok ==> k.faults > old(k.faults) || (p in old(k.w).names && IsDirectory(k.c, p))
  {
    hide PointOK, ConfigOK, Tied, Went, KindsOK, IsTemp, Dir, FileDone, MayReplace, ReguardW;
    var w1 := k.w;
    ReadySlot(k.c, w1, slot, tmp, p, n);
    ReplacedPoint(k.c, w1, slot, tmp, p, n, b);
    ReguardSame(k.c, w1, p, b);
    k.Enter(ReguardW(k.c, k.w, p, b));
    ok := k.Rename(tmp, p);
    if ok {
      k.Enter(CommitW(k.w, p));
      k.ClearSlot(slot);
      k.ClearSlot(PENDING_BACKUP);
    } else {
      k.Enter(w1);
    }
  }

  lemma BlockedReplace(c: Config, w: World, slot: nat, tmp: Path, p: Path, n: Ino, b: Option<Path>)
    requires Steady(c, w) && Ready(c, w, slot, tmp, p, n) && BackupSlot(c, w, p) && MayReplace(c, w, p, b)
    ensures
      var w1 := BlockW(w, true);
      && Steady(c, w1) && Ready(c, w1, slot, tmp, p, n) && BackupSlot(c, w1, p) && MayReplace(c, w1, p, b)
  {
    hide Steady, IsTemp, Dir, FileDone, BackupName, Untouched, Guarded, Separate;
    BlockSteady(c, w, true);
    BlockedReady(c, w, slot, tmp, p, n, true);
  }

  /* ----- exchange ----- */

  function ExchangedW(c: Config, w: World, tmp: Path, p: Path, slot: nat, b: Path, held: Ino): World
    requires tmp in w.names && p in w.names && slot < |w.slots| && PENDING_BACKUP < |w.slots|
  {
    ClearW(ArmW(CommitW(SwapW(c, w, tmp, p, b), p), slot, tmp, held), PENDING_BACKUP)
  }

  lemma RetargetPoint(c: Config, w: World, s: nat, n: Ino)
    requires PointOK(c, w) && w.blocked && s < PENDING_SLOTS && w.slots[s].Armed? && SlotOwn(c, w.files, n)
    ensures PointOK(c, ArmW(w, s, w.slots[s].path, n))
  {
    hide IsTemp, Dir, CrashOK, HistoryOK, SlotOwn, SlotBeside, Unclobbered, FileDone, Guarded;
    var w' := ArmW(w, s, w.slots[s].path, n);
    SameNamesCrash(c, w, w');
    SamePublish(c, w, w');
    SameUnclobbered(c, w, w');
    assert HistoryOK(c, w') by { assert RecordKept(w, w'); SameHistory(c, w, w'); }
  }

  lemma ReadyExchange(c: Config, w: World, slot: nat, tmp: Path, p: Path, n: Ino, b: Path, held: Ino)
    requires ConfigOK(c) && PointOK(c, w) && Ready(c, w, slot, tmp, p, n) && BackedUp(c, w, p, b, held)
    requires Guarded(c) ==> NoSwapAt(w, p)
    ensures Exchangeable(c, w, tmp, p, b)
  {
    hide SignalOK, PublishOK, HistoryOK, CrashOK, FdsOK, IsTemp, BackupName, Dir, Guarded, SlotOwn, SlotBeside, Unclobbered, FileDone, NoSwapAt;
    OperandFacts(c, p);
    BackupNameFacts(c, p, b);
    if Guarded(c) { BuildUnprotected(c, w, tmp); }
  }

  lemma ExchangedPoint(c: Config, w: World, slot: nat, tmp: Path, p: Path, n: Ino, b: Path, held: Ino)
    requires ConfigOK(c) && PointOK(c, w) && w.blocked && Ready(c, w, slot, tmp, p, n) && BackedUp(c, w, p, b, held)
    requires c.settings.force && (Guarded(c) ==> NoSwapAt(w, p)) && Uncommitted(c, w, p) && SlotOwn(c, w.files, held)
    ensures
      var w1 := SwapW(c, w, tmp, p, b);
      && PointOK(c, w1) && PointOK(c, CommitW(w1, p)) && PointOK(c, ArmW(CommitW(w1, p), slot, tmp, held))
      && PointOK(c, ExchangedW(c, w, tmp, p, slot, b, held))
  {
    hide SignalOK, PublishOK, HistoryOK, CrashOK, FdsOK, IsTemp, BackupName, Dir, GuardUses, Guarded, Uncommitted, Exchangeable, SlotBeside, Unclobbered;
    OperandFacts(c, p);
    BackupNameFacts(c, p, b);
    OldPresentable(c, w, p, b);
    assert Exchangeable(c, w, tmp, p, b) by { ReadyExchange(c, w, slot, tmp, p, n, b, held); }
    SwapPoint(c, w, tmp, p, b);
    var w1 := SwapW(c, w, tmp, p, b);
    CommitPoint(c, w1, p);
    RetargetPoint(c, CommitW(w1, p), slot, held);
    ClearPoint(c, ArmW(CommitW(w1, p), slot, tmp, held), PENDING_BACKUP);
  }

  lemma ExchangedClass(c: Config, w: World, slot: nat, tmp: Path, p: Path, n: Ino, b: Path, held: Ino)
    requires ConfigOK(c) && Ready(c, w, slot, tmp, p, n) && BackedUp(c, w, p, b, held) && Classified(c, w)
    requires BackupOn(c.settings)
    ensures Classified(c, ExchangedW(c, w, tmp, p, slot, b, held))
  {
    hide IsTemp, Dir, FileDone, BackupName, Reswapped, ShownBy, FirstUse, Guarded, Unprotected;
    OperandFacts(c, p);
    var w' := ExchangedW(c, w, tmp, p, slot, b, held);
    assert w'.slots[slot] == Armed(tmp, held);
    forall q | q in w'.names && q != p && q != tmp && ArmedAt(w, q, w.names[q])
      ensures ArmedAt(w', q, w'.names[q]) || BackupFor(c, w', p, q)
    {
      var s :| 0 <= s < |w.slots| && w.slots[s] == Armed(q, w.names[q]);
      if s != PENDING_BACKUP {
        assert s != slot && w'.slots[s] == w.slots[s];
      }
    }
    NamedClass(c, w, w', p);
  }

  lemma ExchangedSlots(c: Config, w: World, slot: nat, tmp: Path, p: Path, n: Ino, b: Path, held: Ino)
    requires ConfigOK(c) && WellFormed(c, w) && c.settings.force && Ready(c, w, slot, tmp, p, n)
    requires SlotsOK(w) && NoPlaceholder(w) && BackedUp(c, w, p, b, held) && BackupSlot(c, w, p)
    ensures SlotsOK(ExchangedW(c, w, tmp, p, slot, b, held)) && NoPlaceholder(ExchangedW(c, w, tmp, p, slot, b, held))
  {
    hide IsTemp, Dir, FileDone, BackupName;
    NoSlotAtOperand(c, w, p);
    var w' := ExchangedW(c, w, tmp, p, slot, b, held);
    forall s | 0 <= s < |w'.slots| && w'.slots[s].Armed?
      ensures w'.slots[s].path in w'.names && w'.names[w'.slots[s].path] == w'.slots[s].ino
      ensures w.slots[s].Armed? && w'.slots[s].path == w.slots[s].path
    {
      if s != slot { assert w'.slots[s] == w.slots[s]; }
    }
  }

  lemma ExchangedFrame(c: Config, w: World, slot: nat, tmp: Path, p: Path, n: Ino, b: Path, held: Ino)
    requires ConfigOK(c) && Ready(c, w, slot, tmp, p, n) && BackedUp(c, w, p, b, held) && SlotsOK(w)
    ensures Frame(c, w, ExchangedW(c, w, tmp, p, slot, b, held), slot, Own(p), n)
  {
    hide Dir, FileDone, Outside, NameFrame, BindFrame, BackupName, IsTemp, Numberable, Within, LendsNew, GuardFrame, SwapFrame, Reswapped, SlotsOK, Guarded;
    var w' := ExchangedW(c, w, tmp, p, slot, b, held);
    assert NameFrame(c, w, w', Own(p)) by {
      TempMine(Own(p), tmp);
      OwnNotOutside(Own(p));
      ClearedLends(w, w');
      NameStepFrame(c, w, w', Own(p), Id(c, p), Swap(tmp, p));
    }
    assert BindFrame(w, w', Own(p), n) by { ExchangedBinds(c, w, slot, tmp, p, n, b, held); }
    assert GuardFrame(c, w, w', p) by { ExchangedMoves(c, w, slot, tmp, p, n, b, held); }
    assert SwapFrame(w, w', slot) by { ExchangedSwaps(c, w, slot, tmp, p, n, b, held); }
  }

  lemma ExchangedMoves(c: Config, w: World, slot: nat, tmp: Path, p: Path, n: Ino, b: Path, held: Ino)
    requires Ready(c, w, slot, tmp, p, n) && BackedUp(c, w, p, b, held)
    ensures GuardFrame(c, w, ExchangedW(c, w, tmp, p, slot, b, held), p)
  {
    hide Dir, FileDone, BackupName, IsTemp, Guarded, Reswapped, Unprotected, GuardMoves;
    forall x | x in w.guard ensures GuardMoves(c, p, w.guard[x], ExchangedW(c, w, tmp, p, slot, b, held).guard[x]) {
      ReswappedMoves(c, w.guard[x], tmp, p, b, |LogOf(w, Id(c, p))|);
    }
  }

  lemma ReswappedMoves(c: Config, g: Guard, s: Path, p: Path, b: Path, k: nat)
    requires IsTemp(s) && BackupName(c, p, b)
    ensures GuardMoves(c, p, g, Reswapped(g, s, p, b, k))
  {
    hide BackupName, IsTemp;
  }

  /** No other slot names what was exchanged. */
  lemma ExchangedSwaps(c: Config, w: World, slot: nat, tmp: Path, p: Path, n: Ino, b: Path, held: Ino)
    requires Ready(c, w, slot, tmp, p, n) && BackedUp(c, w, p, b, held) && SlotsOK(w)
    ensures SwapFrame(w, ExchangedW(c, w, tmp, p, slot, b, held), slot)
  {
    hide Dir, FileDone, BackupName, IsTemp, Guarded, Reswapped, Unprotected;
    assert !ArmedBeyond(w, slot, tmp);
  }

  lemma ClearedLends(w: World, w': World)
    requires |w'.slots| == PENDING_SLOTS && w'.slots[PENDING_BACKUP] == Clear
    ensures LendsNew(w, w')
  {}

  lemma ExchangedBinds(c: Config, w: World, slot: nat, tmp: Path, p: Path, n: Ino, b: Path, held: Ino)
    requires ConfigOK(c) && Ready(c, w, slot, tmp, p, n) && BackedUp(c, w, p, b, held)
    ensures BindFrame(w, ExchangedW(c, w, tmp, p, slot, b, held), Own(p), n)
  {
    hide Dir, IsTemp, FileDone, BackupName, Reswapped, Guarded;
    OperandFacts(c, p);
    assert Given(w, Own(p), held);
  }

  lemma ExchangedPublished(c: Config, w: World, slot: nat, tmp: Path, p: Path, n: Ino, b: Path, held: Ino)
    requires ConfigOK(c) && PointOK(c, w) && Ready(c, w, slot, tmp, p, n) && BackedUp(c, w, p, b, held) && Steady(c, w)
    requires BackupOn(c.settings)
    ensures Published(c, w, ExchangedW(c, w, tmp, p, slot, b, held), slot, p, n)
  {
    hide PointOK, IsTemp, BackupName, Dir, FileDone, Frame, Classified, SlotsOK, NoPlaceholder;
    PointParts(c, w);
    ExchangedClass(c, w, slot, tmp, p, n, b, held);
    ExchangedSlots(c, w, slot, tmp, p, n, b, held);
    ExchangedFrame(c, w, slot, tmp, p, n, b, held);
  }

  /** The finished file and the old one swap names; the old one keeps the
      temporary name until the directory is flushed. Called with signals blocked. */
  method PlaceExchange(k: Machine, tmp: Path, p: Path, slot: nat, b: Path, held: Ino, ghost n: Ino) returns (r: Reply)
    requires k.Valid() && Steady(k.c, k.w) && k.w.blocked && Ready(k.c, k.w, slot, tmp, p, n)
    requires BackedUp(k.c, k.w, p, b, held) && BackupOn(k.c.settings)
    requires (Guarded(k.c) ==> NoSwapAt(k.w, p)) && Uncommitted(k.c, k.w, p) && SlotOwn(k.c, k.w.files, held) && IsRegular(k.w, held)
    modifies k
    ensures k.Valid() && old(k.trace) <= k.trace && old(k.faults) <= k.faults
    ensures r == Ok ==> Published(k.c, old(k.w), k.w, slot, p, n) && |k.w.slots| == PENDING_SLOTS
    ensures r == Ok ==> k.w.slots[slot] == Armed(tmp, held) && k.w.slots[PENDING_BACKUP] == Clear
    ensures r == Ok ==> tmp in k.w.swapped && k.w.swapped[tmp] == p
    ensures r != Ok ==> k.w == old(k.w)
    ensures r == Ok || r == Cannot || k.faults > old(k.faults)
  {
    hide PointOK, ConfigOK, Tied, Went, KindsOK, IsTemp, BackupName, Dir, FileDone, Steady, Published, Classified, NoPlaceholder, SlotOwn, Guarded, Uncommitted, NoSwapAt;
    ghost var w0 := k.w;
    ExchangedPoint(k.c, w0, slot, tmp, p, n, b, held);
    ExchangedPublished(k.c, w0, slot, tmp, p, n, b, held);
    OperandFacts(k.c, p);
    var was := k.Hold();
    assert BlockW(w0, true) == w0;
    assert tmp in k.w.names && IsRegular(k.w, k.w.names[tmp]) by { ReadyFacts(k.c, w0, slot, tmp, p, n); }
    r := k.Exchange(tmp, p, b);
    if r == Ok {
      k.Enter(CommitW(k.w, p));
      k.Retarget(slot, held);
      k.ClearSlot(PENDING_BACKUP);
    }
    k.Release(was);
    assert BlockW(k.w, true) == k.w;
  }
}
