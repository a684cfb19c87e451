/** Giving one finished file its name. */
module Naming {
  import opened Names
  import opened Spec
  import opened World
  import opened Steps
  import opened Coherence
  import opened Kernel
  import opened Frames
  import opened Pending
  import opened Place
  import opened Commit
  import opened Digits
  import opened Backup
  import opened Flush
  import opened Replace
  import opened Build

  /* ----- frames ----- */

  lemma FrameSlot(c: Config, w: World, w': World, slot: nat, z: Zone, own: Ino)
    requires Frame(c, w, w', PENDING_BACKUP, z, own)
    ensures Frame(c, w, w', slot, z, own)
  {
    hide NameFrame, FileFrame, BindFrame, GuardFrame, HistoryFrame;
  }

  /** The names that naming p may touch: its backups only if there is a file to
      keep. */
  ghost function NamingZone(c: Config, w: World, p: Path): Zone {
    if p in w.names then Backing(c, p) else Own(p)
  }

  /** What naming one operand keeps for the others. */
  ghost predicate Keeping(c: Config, w: World, w': World, slot: nat, z: Zone, own: Ino) {
    && Steady(c, w') && Frame(c, w, w', slot, z, own) && |w'.slots| == |w.slots| == PENDING_SLOTS
    && w'.open <= w.open
  }

  lemma KeepingTrans(c: Config, w0: World, w1: World, w2: World, slot: nat, z: Zone, own: Ino)
    requires Keeping(c, w0, w1, slot, z, own) && Keeping(c, w1, w2, slot, z, own)
    ensures Keeping(c, w0, w2, slot, z, own)
  {
    hide Steady, Frame;
    FrameTrans(c, w0, w1, w2, slot, z, own);
  }

  lemma KeepingRefl(c: Config, w: World, slot: nat, z: Zone, own: Ino)
    requires Steady(c, w) && |w.slots| == PENDING_SLOTS
    ensures Keeping(c, w, w, slot, z, own)
  {
    hide Steady, Frame;
    FrameRefl(c, w, slot, z, own);
  }

  lemma ApartKeeping(c: Config, w: World, w': World, slot: nat, p: Path, own: Ino)
    requires WellFormed(c, w) && Apart(c, w, w', p) && Steady(c, w') && |w'.slots| == |w.slots| == PENDING_SLOTS
    ensures Keeping(c, w, w', slot, Backing(c, p), own)
  {
    hide Steady, Frame, WellFormed;
    FrameAny(c, w, w', PENDING_BACKUP, Backing(c, p), w.next, own);
    FrameSlot(c, w, w', slot, Backing(c, p), own);
  }

  lemma ReadyApart(c: Config, w: World, w': World, slot: nat, tmp: Path, p: Path, n: Ino)
    requires WellFormed(c, w) && Ready(c, w, slot, tmp, p, n) && Apart(c, w, w', p) && Steady(c, w') && |w'.slots| == PENDING_SLOTS
    ensures Ready(c, w', slot, tmp, p, n)
  {
    hide IsTemp, Dir, FileDone, Classified, NoPlaceholder, NameFrame, GuardFrame, HistoryFrame, SwapFrame, SlotOwn, Unclobbered, SlotBeside;
    SlotNames(c, w', slot);
    assert FirstUse(w', tmp) by { FirstKept(c, w, w', PENDING_BACKUP, Backing(c, p), w.next, tmp); }
    forall q | q in w'.names && w'.names[q] == n ensures q == tmp {
      assert !Given(w, Backing(c, p), n);
    }
  }

  lemma ReadyOnlyDisk(c: Config, w: World, w': World, slot: nat, tmp: Path, p: Path, n: Ino)
    requires Ready(c, w, slot, tmp, p, n) && OnlyDisk(c, w, w')
    ensures Ready(c, w', slot, tmp, p, n)
  {
    hide IsTemp, Dir, FileDone, SettledAt, Clean;
  }

  /* ----- what is known of an operand ----- */

  /** The mask is blocked exactly while spares are held, or it was so before. */
  ghost predicate MaskOK(w: World, held: bool, mask: bool, orig: bool) {
    w.blocked == (held || orig) && (held ==> mask == orig)
  }

  /** An operand that was named, or given up. live: no other operand took the name
      since. */
  ghost predicate Named(c: Config, w: World, op: Op, slot: nat, live: bool) {
    && slot < BATCH && |w.slots| == PENDING_SLOTS && (op.leftover ==> w.left != {})
    && if op.fail then op.fd == None && op.tmp == None && op.spare == None && w.slots[slot] == Clear
       else
         && op.path in c.operands && op.path in w.committed
         && op.ino in w.files && w.files[op.ino].role == Role.Build && w.files[op.ino].synced
         && FileDone(c, w.files[op.ino], Dir(op.path))
         && (if op.way == Plain then op.fd == None && op.tmp == None && (live ==> op.path in w.anchored)
             else op.fd == Some(op.ino) && op.ino in w.open)
         && HoldsSlot(c, w, op, slot)
         && (live ==> op.path in w.names && w.names[op.path] == op.ino)
  }

  /** What the slot says of a named operand: its spare, its other name, or nothing. */
  ghost predicate HoldsSlot(c: Config, w: World, op: Op, slot: nat)
    requires slot < |w.slots|
  {
    match op.spare
    case Some(s) => op.tmp == None && w.slots[slot].Armed? && w.slots[slot].path == s && SpareHeld(w, op.path, s)
    case None =>
      match op.tmp
      case Some(t) => w.slots[slot] == Armed(t, op.ino) && IsTemp(t)
      case None => w.slots[slot] == Clear
  }

  /** The operand p was exchanged with s. */
  predicate SpareHeld(w: World, p: Path, s: Path) {
    s in w.swapped && w.swapped[s] == p
  }

  /** An operand about to be named from under a temporary name. */
  ghost predicate Waiting(c: Config, w: World, op: Op, slot: nat) {
    && !op.fail && op.spare == None && op.way != Plain && op.tmp.Some?
    && op.fd == Some(op.ino) && op.ino in w.open && (op.leftover ==> w.left != {})
    && Ready(c, w, slot, op.tmp.value, op.path, op.ino)
  }

  /* ----- giving up ----- */

  lemma WaitingDroppable(c: Config, w: World, op: Op, slot: nat, z: Zone)
    requires ConfigOK(c) && PointOK(c, w) && Waiting(c, w, op, slot)
    ensures Droppable(c, w, slot, z)
  {
    hide PointOK, IsTemp, Dir, FileDone, Outside, Mine;
    TempDroppable(c, w, slot, z);
  }

  /** A backup of a file that is not to be replaced after all may go. */
  lemma BackupDroppable(c: Config, w: World, p: Path)
    requires PointOK(c, w) && Steady(c, w) && BackupSlot(c, w, p)
    ensures Removable(c, w, PENDING_BACKUP)
  {
    hide PointOK, Guarded, BackupName, Unprotected, Steady;
    SlotNames(c, w, PENDING_BACKUP);
  }

  lemma BackupSlotZone(c: Config, w: World, p: Path)
    requires BackupSlot(c, w, p) && w.slots[PENDING_BACKUP].Armed?
    ensures
      var b := w.slots[PENDING_BACKUP].path;
      Within(Backing(c, p), b) && (!Outside(Backing(c, p), b) || Numberable(w, Backing(c, p), b))
  {
    hide BackupName, Outside, Numberable, Within;
    BackupInZone(c, w, p, w.slots[PENDING_BACKUP].path);
  }

  /** The operand is given up, with what backup was made for it. */
  method FailReplace(k: Machine, op: Op, slot: nat, ghost z: Zone) returns (op': Op)
    requires k.Valid() && Steady(k.c, k.w) && Waiting(k.c, k.w, op, slot) && BackupSlot(k.c, k.w, op.path)
    requires z.path == op.path && (k.w.slots[PENDING_BACKUP].Armed? ==> z == Backing(k.c, op.path))
    modifies k
    ensures k.Valid() && old(k.trace) <= k.trace && old(k.faults) <= k.faults && op' == op.(fail := true, fd := None, tmp := None)
    ensures Named(k.c, k.w, op', slot, true) && Keeping(k.c, old(k.w), k.w, slot, z, op.ino)
    ensures k.w.slots[PENDING_BACKUP] == Clear && k.w.blocked == old(k.w).blocked
    ensures Released(op, op', k.w) && NoneNew(old(k.w), k.w, op.path)
  {
    hide PointOK, ConfigOK, Tied, Went, KindsOK, Steady, Frame, IsTemp, FileDone, Droppable, Guarded, Waiting, BackupSlot, Named;
    ghost var w0 := k.w;
    WaitingFacts(k.c, w0, op, slot);
    UndoBackup(k, op, slot, z);
    ghost var w1 := k.w;
    ghost var own := Own(op.path);
    WaitingDroppable(k.c, w1, op, slot, own);
    op' := OpFail(k, op, slot, own, op.ino);
    OwnNoneNew(k.c, w1, k.w, slot, op.path, op.ino);
    FrameWiden(k.c, w1, k.w, slot, own, z, op.ino);
    LeftKept(k.c, w1, k.w, slot, z, op.ino);
    GivenUp(k.c, w1, k.w, op, slot);
    FrameTrans(k.c, w0, w1, k.w, slot, z, op.ino);
  }

  /** What backup was made is removed again. */
  method UndoBackup(k: Machine, ghost op: Op, ghost slot: nat, ghost z: Zone)
    requires k.Valid() && Steady(k.c, k.w) && Waiting(k.c, k.w, op, slot) && BackupSlot(k.c, k.w, op.path)
    requires z.path == op.path && (k.w.slots[PENDING_BACKUP].Armed? ==> z == Backing(k.c, op.path))
    modifies k
    ensures k.Valid() && old(k.trace) <= k.trace && old(k.faults) <= k.faults && Steady(k.c, k.w) && Waiting(k.c, k.w, op, slot)
    ensures Frame(k.c, old(k.w), k.w, slot, z, op.ino)
    ensures |k.w.slots| == PENDING_SLOTS && k.w.slots[PENDING_BACKUP] == Clear && k.w.blocked == old(k.w).blocked
    ensures k.w.open == old(k.w).open && NoneNew(old(k.w), k.w, op.path)
  {
    hide PointOK, ConfigOK, Tied, Went, KindsOK, Steady, Frame, FileDone, Removable, Classified, NoPlaceholder, SlotsBut, Guarded, Waiting, BackupSlot, RemovedW, KeptW;
    ghost var w0 := k.w;
    WaitingFacts(k.c, w0, op, slot);
    BackupDroppable(k.c, w0, op.path);
    SteadySlots(k.c, w0, PENDING_BACKUP);
    var _ := PendingRemove(k, PENDING_BACKUP);
    BackupRemovedFrame(k.c, w0, k.w, op.path, slot, z, op.ino);
    WaitingKept(k.c, w0, k.w, op, slot);
    RemovedKeeps(k.c, w0, PENDING_BACKUP);
  }

  lemma RemovedKeeps(c: Config, w: World, s: nat)
    requires s < |w.slots|
    ensures RemovedW(c, w, s).slots == w.slots[s := Clear] && KeptW(w, s).slots == w.slots[s := Clear]
    ensures RemovedW(c, w, s).open == w.open && RemovedW(c, w, s).blocked == w.blocked
    ensures KeptW(w, s).open == w.open && KeptW(w, s).blocked == w.blocked
    ensures forall p :: NoneNew(w, RemovedW(c, w, s), p) && NoneNew(w, KeptW(w, s), p)
  {
    hide Dir;
    assert w.slots[s] == Clear ==> w.slots == w.slots[s := Clear];
  }

  lemma GivenUp(c: Config, w: World, w': World, op: Op, slot: nat)
    requires Waiting(c, w, op, slot) && w.left <= w'.left && |w'.slots| == PENDING_SLOTS && w'.slots[slot] == Clear
    ensures Named(c, w', op.(fail := true, fd := None, tmp := None), slot, true)
  {
    hide Ready;
    assert slot < BATCH by { WaitingFacts(c, w, op, slot); }
  }

  lemma BackupRemovedFrame(c: Config, w: World, w': World, p: Path, slot: nat, z: Zone, own: Ino)
    requires BackupSlot(c, w, p) && (w.slots[PENDING_BACKUP].Armed? ==> z == Backing(c, p))
    requires w' == RemovedW(c, w, PENDING_BACKUP) || w' == KeptW(w, PENDING_BACKUP)
    ensures Frame(c, w, w', slot, z, own)
  {
    hide Frame, Within, Outside, Numberable, BackupName;
    if w.slots[PENDING_BACKUP].Armed? { BackupSlotZone(c, w, p); }
    RemovedFrame(c, w, PENDING_BACKUP, z, own);
    KeptFrame(c, w, PENDING_BACKUP, z, own);
    FrameSlot(c, w, w', slot, z, own);
  }

  /** Removing the backup does not touch the file that waits. */
  lemma WaitingKept(c: Config, w: World, w': World, op: Op, slot: nat)
    requires Waiting(c, w, op, slot) && Steady(c, w') && (w' == RemovedW(c, w, PENDING_BACKUP) || w' == KeptW(w, PENDING_BACKUP))
    ensures Waiting(c, w', op, slot)
  {
    hide IsTemp, Dir, FileDone, Classified, NoPlaceholder;
    SlotNames(c, w', slot);
  }

  lemma WaitingApart(c: Config, w: World, w': World, op: Op, slot: nat)
    requires WellFormed(c, w) && Waiting(c, w, op, slot) && Apart(c, w, w', op.path) && Steady(c, w') && |w'.slots| == PENDING_SLOTS
    ensures Waiting(c, w', op, slot)
  {
    hide IsTemp, Dir, FileDone, Steady, Frame, WellFormed;
    ReadyApart(c, w, w', slot, op.tmp.value, op.path, op.ino);
    LeftKept(c, w, w', PENDING_BACKUP, Backing(c, op.path), w.next);
  }

  /* ----- replacing ----- */

  /** No name but temporary ones and p is new, or has another file. */
  ghost predicate NoneNew(w: World, w': World, p: Path) {
    forall q :: q in w'.names && !IsTemp(q) && q != p ==> q in w.names && w'.names[q] == w.names[q]
  }

  lemma OwnNoneNew(c: Config, w: World, w': World, slot: nat, p: Path, own: Ino)
    requires Frame(c, w, w', slot, Own(p), own)
    ensures NoneNew(w, w', p)
  {
    hide IsTemp, FileFrame, BindFrame, SlotFrame, GuardFrame, HistoryFrame, SwapFrame, SettledAt, Lent, IsNumbered;
    forall q | q in w'.names && !IsTemp(q) && q != p ensures q in w.names && w'.names[q] == w.names[q] {
      assert Outside(Own(p), q) && !Numberable(w, Own(p), q);
      assert Keeps(c, w, w', q);
    }
  }

  /** Of all names but p only backups are new, which hold old files. */
  ghost predicate Gave(c: Config, w: World, w': World, p: Path) {
    Guarded(c) ==>
      forall q :: q in w'.names && !IsTemp(q) && q != p ==> (q in w.names && w'.names[q] == w.names[q]) || OldOf(c, w'.names[q])
  }

  /** A backup of an operand that was not replaced holds what the operand holds. */
  lemma ApartGave(c: Config, w: World, w': World, p: Path)
    requires WellFormed(c, w) && WellFormed(c, w') && Apart(c, w, w', p) && Unreplaced(c, w, p)
    ensures Gave(c, w, w', p)
  {
    hide NameFrame, FileFrame, SlotFrame, GuardFrame, HistoryFrame, SwapFrame, IsTemp, SlotOwn, SlotBeside, Unclobbered, Guarded, Separate, NoSwapAt, OldOf;
  }

  lemma GaveThen(c: Config, w0: World, w1: World, w2: World, p: Path)
    requires (Gave(c, w0, w1, p) && NoneNew(w1, w2, p)) || (NoneNew(w0, w1, p) && Gave(c, w1, w2, p))
    ensures Gave(c, w0, w2, p)
  {
    hide IsTemp, Guarded, OldOf;
  }

  /** The operand was neither replaced nor exchanged, so far as that matters. */
  ghost predicate Unexchanged(c: Config, w: World, p: Path) {
    Uncommitted(c, w, p) && (Guarded(c) ==> NoSwapAt(w, p))
  }

  /** The outcome of a name that was given. */
  lemma PublishedNamed(c: Config, w: World, w': World, op: Op, op': Op, slot: nat, z: Zone)
    requires Published(c, w, w', slot, op.path, op.ino) && |w'.slots| == |w.slots| == PENDING_SLOTS && slot < BATCH
    requires op.path in c.operands && !op.fail && w.files[op.ino].role == Role.Build && w.files[op.ino].synced
    requires FileDone(c, w.files[op.ino], Dir(op.path))
    requires op.way != Plain && op.fd == Some(op.ino) && op.ino in w.open
    requires op'.(tmp := op.tmp, spare := op.spare, backup := op.backup, leftover := op.leftover) == op
    requires op'.leftover ==> w'.left != {}
    requires HoldsSlot(c, w', op', slot) && z.path == op.path
    ensures Named(c, w', op', slot, true) && Keeping(c, w, w', slot, z, op.ino)
  {
    hide Steady, Frame, HoldsSlot, FileDone, Dir;
    FrameWiden(c, w, w', slot, Own(op.path), z, op.ino);
  }

  lemma WaitingDone(c: Config, w: World, op: Op, slot: nat)
    requires Waiting(c, w, op, slot)
    ensures slot < BATCH && |w.slots| == PENDING_SLOTS && op.path in c.operands && op.ino in w.files && op.tmp.value in w.names
    ensures w.files[op.ino].role == Role.Build && w.files[op.ino].synced && FileDone(c, w.files[op.ino], Dir(op.path))
  {
    hide IsTemp, Dir, FileDone;
  }

  /** Nothing need fail, and yet p cannot be given its new file: there is a file, and
      it is not to be replaced, or cannot be, or cannot be backed up. */
  predicate Barred(c: Config, w: World, p: Path) {
    p in w.names && (!c.settings.force || IsDirectory(c, p) || NoBackupFor(c, w, p))
  }

  /** With the old file's second name on disk, or no need of one. */
  method FinishReplace(k: Machine, op: Op, slot: nat, b: Option<Path>, ghost z: Zone) returns (op': Op)
    requires k.Valid() && Steady(k.c, k.w) && Waiting(k.c, k.w, op, slot) && BackupSlot(k.c, k.w, op.path) && k.c.settings.force
    requires MayReplace(k.c, k.w, op.path, b)
    requires z.path == op.path && (k.w.slots[PENDING_BACKUP].Armed? ==> z == Backing(k.c, op.path))
    modifies k
    ensures op'.fail ==> k.faults > old(k.faults) || (op.path in old(k.w).names && IsDirectory(k.c, op.path))
    ensures k.Valid() && old(k.trace) <= k.trace && old(k.faults) <= k.faults && op'.path == op.path && op'.ino == op.ino && op'.way == op.way
    ensures op'.spare == None && (op'.fail || op' == op.(tmp := None))
    ensures Named(k.c, k.w, op', slot, true) && Keeping(k.c, old(k.w), k.w, slot, z, op.ino)
    ensures k.w.slots[PENDING_BACKUP] == Clear && k.w.blocked == old(k.w).blocked
    ensures op'.leftover == op.leftover && (!op'.fail ==> k.w.left == old(k.w).left)
    ensures !op'.fail ==> KeepsNames(old(k.w), k.w, op.path)
    ensures Released(op, op', k.w) && NoneNew(old(k.w), k.w, op.path)
  {
    hide PointOK, ConfigOK, Tied, Went, KindsOK, Steady, Frame, IsTemp, Dir, FileDone, MayReplace, BackupSlot, Guarded, Ready;
    ghost var w0 := k.w;
    WaitingDone(k.c, w0, op, slot);
    var ok := PlaceRename(k, op.tmp.value, op.path, slot, b, op.ino);
    if ok {
      op' := op.(tmp := None);
      LeftKept(k.c, w0, k.w, slot, Own(op.path), op.ino);
      OwnNoneNew(k.c, w0, k.w, slot, op.path, op.ino);
      PublishedNamed(k.c, w0, k.w, op, op', slot, z);
      PublishedKeeps(k.c, w0, k.w, slot, op.path, op.ino);
    } else {
      op' := FailReplace(k, op, slot, z);
    }
  }

  /** Names that are neither temporary nor the operand's own are as they were. */
  ghost predicate KeepsNames(w: World, w': World, p: Path) {
    forall q :: !IsTemp(q) && q != p && q in w.names ==> q in w'.names && w'.names[q] == w.names[q]
  }

  lemma PublishedKeeps(c: Config, w: World, w': World, slot: nat, p: Path, n: Ino)
    requires Published(c, w, w', slot, p, n)
    ensures KeepsNames(w, w', p)
  {
    hide Steady, IsTemp, FileFrame, BindFrame, SlotFrame, GuardFrame, HistoryFrame, SwapFrame, SettledAt, Lent, IsNumbered;
    forall q | !IsTemp(q) && q != p && q in w.names ensures q in w'.names && w'.names[q] == w.names[q] {
      assert Outside(Own(p), q) && !Numberable(w, Own(p), q);
      assert Keeps(c, w, w', q);
    }
  }

  lemma PublishedNoneNew(c: Config, w: World, w': World, slot: nat, p: Path, n: Ino)
    requires Published(c, w, w', slot, p, n)
    ensures NoneNew(w, w', p)
  {
    hide Frame, NoneNew;
    OwnNoneNew(c, w, w', slot, p, n);
  }

  lemma BlockedNoneNew(w: World, w': World, p: Path)
    ensures NoneNew(BlockW(w, true), w', p) == NoneNew(w, w', p)
  {}

  lemma WaitingBlocked(c: Config, w: World, op: Op, slot: nat, b: bool)
    requires Steady(c, w) && Waiting(c, w, op, slot)
    ensures Steady(c, BlockW(w, b)) && Waiting(c, BlockW(w, b), op, slot)
    ensures Classified(c, w) && NoPlaceholder(w)
    ensures forall z, own :: Keeping(c, w, BlockW(w, b), slot, z, own)
  {
    hide Frame, IsTemp, Dir, FileDone, Classified, SlotsOK, NoPlaceholder, HistoryFrame;
    BlockSteady(c, w, b);
    forall z, own ensures Keeping(c, w, BlockW(w, b), slot, z, own) {
      assert HistoryFrame(w, BlockW(w, b), z) by { SameNotes(w, BlockW(w, b), z); }
      SameFrame(c, w, BlockW(w, b), slot, z, own);
    }
  }

  lemma SameNotes(w: World, w': World, z: Zone)
    requires w'.(blocked := w.blocked) == w
    ensures HistoryFrame(w, w', z)
  {}

  /** Once the directory is flushed, the backup cannot be lost. */
  lemma FlushedMayReplace(c: Config, w: World, p: Path, b: Path, n: Ino)
    requires BackedUp(c, w, p, b, n) && (c.flushes(Id(c, p)) ==> Clean(c, w, Id(c, p))) && Unexchanged(c, w, p)
    ensures MayReplace(c, w, p, Some(b))
  {
    hide Guarded, Dir, BackupName, Clean, Settled, Uncommitted, NoSwapAt, Unprotected;
    BackupNameFacts(c, p, b);
    if c.flushes(Id(c, p)) { CleanSettles(c, w, b); } else { UnflushedSettles(c, w, b); }
  }

  lemma FlushedGuards(c: Config, w: World, w': World, q: Path)
    requires OnlyDisk(c, w, w')
    ensures NoSwapAt(w, q) ==> NoSwapAt(w', q)
    ensures Unprotected(w, q) ==> Unprotected(w', q)
    ensures Uncommitted(c, w, q) ==> Uncommitted(c, w', q)
  {
    hide SettledAt, Clean, Separate;
  }

  lemma BackedUpOnlyDisk(c: Config, w: World, w': World, op: Op, slot: nat, b: Path, n: Ino, z: Zone)
    requires OnlyDisk(c, w, w') && w'.dirFds == w.dirFds && Steady(c, w) && Waiting(c, w, op, slot)
    requires BackedUp(c, w, op.path, b, n) && Unexchanged(c, w, op.path)
    ensures Waiting(c, w', op, slot) && BackedUp(c, w', op.path, b, n) && Steady(c, w')
    ensures Keeping(c, w, w', slot, z, op.ino) && Unexchanged(c, w', op.path)
  {
    hide Frame, IsTemp, Dir, FileDone, BackupName, SettledAt, Clean, Steady, Guarded, Uncommitted, NoSwapAt, Unprotected;
    ReadyOnlyDisk(c, w, w', slot, op.tmp.value, op.path, op.ino);
    OnlyDiskSteady(c, w, w');
    OnlyDiskFrame(c, w, w', slot, z, op.ino);
    FlushedGuards(c, w, w', op.path);
    FlushedGuards(c, w, w', b);
  }

  lemma BackedUpSlot(c: Config, w: World, p: Path, b: Path, n: Ino)
    requires BackedUp(c, w, p, b, n)
    ensures BackupSlot(c, w, p) && |w.slots| == PENDING_SLOTS
  {
    hide BackupName, Guarded, Unprotected;
  }

  /** Where names cannot be exchanged: link, flush, then rename. */
  method LinkFlushRename(k: Machine, op: Op, slot: nat, b: Path, held: Ino) returns (op': Op)
    requires k.Valid() && Steady(k.c, k.w) && Waiting(k.c, k.w, op, slot) && k.c.settings.force && k.w.dirFds == 0
    requires BackedUp(k.c, k.w, op.path, b, held) && BackupOn(k.c.settings) && Unexchanged(k.c, k.w, op.path)
    modifies k
    ensures op'.fail ==> k.faults > old(k.faults) || (op.path in old(k.w).names && IsDirectory(k.c, op.path))
    ensures k.Valid() && old(k.trace) <= k.trace && old(k.faults) <= k.faults && op'.path == op.path && op'.ino == op.ino && op'.way == op.way
    ensures op'.spare == None
    ensures Named(k.c, k.w, op', slot, true) && Keeping(k.c, old(k.w), k.w, slot, Backing(k.c, op.path), op.ino)
    ensures k.w.slots[PENDING_BACKUP] == Clear && k.w.blocked == old(k.w).blocked
    ensures op'.leftover == op.leftover && (!op'.fail ==> k.w.left == old(k.w).left)
    ensures !op'.fail ==> KeepsNames(old(k.w), k.w, op.path)
    ensures Released(op, op', k.w) && NoneNew(old(k.w), k.w, op.path)
  {
    hide PointOK, Tied, Went, KindsOK, Steady, Frame, IsTemp, Dir, FileDone, BackupName, OnlyDisk, Clean, Keeping, Ready, MayReplace, Named, Guarded, BackupSlot, BackedUp, Unexchanged;
    ghost var w0 := k.w;
    ghost var z := Backing(k.c, op.path);
    var ok := FlushDir(k, Dir(op.path));
    ghost var w1 := k.w;
    BackedUpOnlyDisk(k.c, w0, w1, op, slot, b, held, z);
    BackedUpSlot(k.c, w1, op.path, b, held);
    OnlyDiskSame(k.c, w0, w1);
    if ok {
      FlushedMayReplace(k.c, w1, op.path, b, held);
      op' := FinishReplace(k, op, slot, Some(b), z);
    } else {
      op' := FailReplace(k, op, slot, z);
    }
    KeepingTrans(k.c, w0, w1, k.w, slot, z, op.ino);
  }

  lemma OnlyDiskSame(c: Config, w: World, w': World)
    requires OnlyDisk(c, w, w')
    ensures w'.blocked == w.blocked && w'.slots == w.slots && w'.names == w.names && w'.open == w.open && w'.files == w.files
    ensures w'.left == w.left && w'.committed == w.committed && w'.next == w.next && w'.anchored == w.anchored && w'.taken == w.taken
  {
    hide SettledAt, Clean;
  }

  /** backup, then exchange, or link, flush and rename. The mask stays blocked once
      an old file has taken a temporary name. */
  method ReplaceOne(k: Machine, op: Op, slot: nat, held: bool, mask: bool, ghost orig: bool, ghost z: Zone) returns (op': Op, held': bool, mask': bool)
    requires k.Valid() && Steady(k.c, k.w) && Waiting(k.c, k.w, op, slot) && k.c.settings.force && k.w.dirFds == 0
    requires k.w.slots[PENDING_BACKUP] == Clear && Unreplaced(k.c, k.w, op.path) && MaskOK(k.w, held, mask, orig)
    requires z == NamingZone(k.c, k.w, op.path) && (op.path in k.w.names ==> SimpleFree(k.c, k.w, op.path))
    modifies k
    ensures op'.fail ==> k.faults > old(k.faults) || Barred(k.c, old(k.w), op.path)
    ensures op'.leftover ==> op.leftover || k.faults > old(k.faults)
    ensures k.Valid() && old(k.trace) <= k.trace && old(k.faults) <= k.faults && op'.path == op.path && op'.ino == op.ino && op'.way == op.way
    ensures Named(k.c, k.w, op', slot, true) && Keeping(k.c, old(k.w), k.w, slot, z, op.ino)
    ensures Gave(k.c, old(k.w), k.w, op.path)
    ensures k.w.slots[PENDING_BACKUP] == Clear && MaskOK(k.w, held', mask', orig)
    ensures (held ==> held') && (op'.spare.Some? ==> held')
    ensures !op'.fail && !op'.leftover ==> k.w.left == old(k.w).left
    ensures Released(op, op', k.w)
    ensures op.leftover ==> op'.leftover
    ensures !op'.fail && k.c.settings.control == Simple && op.path in old(k.w).names ==> BackupAt(k.w, op.path, old(k.w).names[op.path])
  {
    hide PointOK, ConfigOK, Tied, Went, KindsOK, Steady, Frame, IsTemp, Dir, FileDone, BackupName, Keeping, Named, Guarded, WellFormed, MayReplace, Apart, Ready, SimpleBackup, Unreplaced, SimpleFree, NoneNew, Gave;
    hide Waiting, BackedUp, BackupSlot, SlotOwn, Released, BackupAt;
    ghost var w0 := k.w;
    PointParts(k.c, w0);
    WaitingFacts(k.c, w0, op, slot);
    var r := BackupMake(k, op.path);
    ghost var w1 := k.w;
    WaitingApart(k.c, w0, w1, op, slot);
    ApartKeeping(k.c, w0, w1, slot, op.path, op.ino);
    KeepingRefl(k.c, w0, slot, z, op.ino);
    ApartSame(k.c, w0, w1, op.path);
    AfterBackup(k.c, w0, w1, op.path, r);
    PointParts(k.c, w1);
    ApartGave(k.c, w0, w1, op.path);
    op', held', mask' := ReplaceAfter(k, op, slot, r, held, mask, orig, z);
    KeepingTrans(k.c, w0, w1, k.w, slot, z, op.ino);
    GaveThen(k.c, w0, w1, k.w, op.path);
    if r.Made? && !op'.fail && k.c.settings.control == Simple { BackupAtName(k.w, op.path, r.name, r.held); }
  }

  lemma BackupAtName(w: World, p: Path, b: Path, n: Ino)
    requires b == SimpleBackup(p) && b in w.names && w.names[b] == n
    ensures BackupAt(w, p, n)
  {}

  /** What the backup made, or did not make, allows. */
  ghost predicate BackupDone(c: Config, w: World, p: Path, r: Outcome, z: Zone) {
    && z.path == p && |w.slots| == PENDING_SLOTS
    && Unexchanged(c, w, p)
    && match r
       case Refused => w.slots[PENDING_BACKUP] == Clear
       case NotNeeded => w.slots[PENDING_BACKUP] == Clear && MayReplace(c, w, p, None)
       case Made(b, n, left) =>
         && BackedUp(c, w, p, b, n) && BackupOn(c.settings) && SlotOwn(c, w.files, n) && IsRegular(w, n) && z == Backing(c, p)
         && (left ==> w.left != {})
  }

  lemma AfterBackup(c: Config, w: World, w': World, p: Path, r: Outcome)
    requires PointOK(c, w) && Unreplaced(c, w, p) && p in c.operands && Apart(c, w, w', p) && |w'.slots| == PENDING_SLOTS
    requires r == NotNeeded ==> w' == w && w.slots[PENDING_BACKUP] == Clear && (BackupOn(c.settings) ==> p !in w.names)
    requires r == Refused ==> w'.slots[PENDING_BACKUP] == Clear
    requires r.Made? ==> BackupOn(c.settings) && BackedUp(c, w', p, r.name, r.held) && p in w.names && r.held == w.names[p] && (r.left ==> w'.left != {}) && IsRegular(w', r.held)
    ensures BackupDone(c, w', p, r, if r.Made? then Backing(c, p) else Own(p))
    ensures BackupDone(c, w', p, r, NamingZone(c, w, p))
  {
    hide PointOK, Guarded, BackupName, SlotOwn, BackedUp, MayReplace, Frame, Unreplaced, Unexchanged;
    UnreplacedApart(c, w, w', p);
    UnreplacedApart(c, w, w, p);
    if r.Made? { UnreplacedOld(c, w, p); }
    if r == NotNeeded { NoBackupNeeded(c, w, p); }
  }

  /** Once the backup is settled. */
  method ReplaceAfter(k: Machine, op: Op, slot: nat, r: Outcome, held: bool, mask: bool, ghost orig: bool, ghost z: Zone)
      returns (op': Op, held': bool, mask': bool)
    requires k.Valid() && Steady(k.c, k.w) && Waiting(k.c, k.w, op, slot) && k.c.settings.force && k.w.dirFds == 0
    requires BackupDone(k.c, k.w, op.path, r, z) && MaskOK(k.w, held, mask, orig)
    modifies k
    ensures op'.fail ==> r == Refused || k.faults > old(k.faults) || (op.path in old(k.w).names && IsDirectory(k.c, op.path))
    ensures op'.leftover ==> op.leftover || (r.Made? && r.left)
    ensures k.Valid() && old(k.trace) <= k.trace && old(k.faults) <= k.faults && op'.path == op.path && op'.ino == op.ino && op'.way == op.way
    ensures Named(k.c, k.w, op', slot, true) && Keeping(k.c, old(k.w), k.w, slot, z, op.ino)
    ensures k.w.slots[PENDING_BACKUP] == Clear && MaskOK(k.w, held', mask', orig)
    ensures (held ==> held') && (op'.spare.Some? ==> held')
    ensures !op'.fail && !op'.leftover ==> k.w.left == old(k.w).left
    ensures Released(op, op', k.w)
    ensures (op.leftover ==> op'.leftover) && (!op'.fail && r.Made? && r.left ==> op'.leftover)
    ensures NoneNew(old(k.w), k.w, op.path)
    ensures !op'.fail ==> r != Refused
    ensures !op'.fail && r.Made? ==> r.name in k.w.names && k.w.names[r.name] == r.held
  {
    hide PointOK, ConfigOK, Tied, Went, KindsOK, Steady, Frame, IsTemp, Dir, FileDone, BackupName, Keeping, Named, Guarded, MayReplace, Ready, SimpleBackup, Unexchanged;
    hide Waiting, BackedUp, SlotOwn, NoneNew;
    held', mask' := held, mask;
    WaitingFacts(k.c, k.w, op, slot);
    match r {
      case Refused =>
        op' := FailReplace(k, op, slot, z);
      case NotNeeded =>
        op' := FinishReplace(k, op, slot, None, z);
      case Made(b, old_, left) =>
        var op1 := op.(leftover := op.leftover || left, backup := Some(b));
        WaitingLeft(k.c, k.w, op, slot, b, left);
        op', held', mask' := ReplaceKept(k, op1, slot, b, old_, held, mask, orig);
    }
  }

  /** p~ is a name of n. */
  predicate BackupAt(w: World, p: Path, n: Ino) {
    SimpleBackup(p) in w.names && w.names[SimpleBackup(p)] == n
  }

  lemma UnreplacedApart(c: Config, w: World, w': World, p: Path)
    requires Unreplaced(c, w, p) && w'.guard == w.guard && w'.committed == w.committed
    ensures Unexchanged(c, w', p)
  {
    hide Guarded, Separate, BackupName;
    UnreplacedUncommitted(c, w, p);
  }

  lemma WaitingLeft(c: Config, w: World, op: Op, slot: nat, b: Path, left: bool)
    requires Waiting(c, w, op, slot) && (left ==> w.left != {})
    ensures Waiting(c, w, op.(leftover := op.leftover || left, backup := Some(b)), slot)
  {
    hide Ready;
  }

  lemma WaitingFacts(c: Config, w: World, op: Op, slot: nat)
    requires Waiting(c, w, op, slot)
    ensures op.path in c.operands && slot < BATCH && |w.slots| == PENDING_SLOTS && op.spare == None
    ensures op.fd == Some(op.ino)
  {}

  lemma ApartSame(c: Config, w: World, w': World, p: Path)
    requires Apart(c, w, w', p)
    ensures w'.open == w.open && w'.blocked == w.blocked && w'.guard == w.guard && w'.files == w.files && w'.dirFds == w.dirFds
    ensures w.left <= w'.left
  {}

  lemma NoBackupNeeded(c: Config, w: World, p: Path)
    requires Unexchanged(c, w, p) && (BackupOn(c.settings) ==> p !in w.names)
    ensures MayReplace(c, w, p, None)
  {
    hide Harmless, Separate;
  }

  /** The old file has its backup. */
  method ReplaceKept(k: Machine, op: Op, slot: nat, b: Path, held: Ino, spares: bool, mask: bool, ghost orig: bool)
      returns (op': Op, spares': bool, mask': bool)
    requires k.Valid() && Steady(k.c, k.w) && Waiting(k.c, k.w, op, slot) && k.c.settings.force && k.w.dirFds == 0
    requires BackedUp(k.c, k.w, op.path, b, held) && BackupOn(k.c.settings) && SlotOwn(k.c, k.w.files, held) && IsRegular(k.w, held)
    requires MaskOK(k.w, spares, mask, orig) && Unexchanged(k.c, k.w, op.path)
    modifies k
    ensures op'.fail ==> k.faults > old(k.faults) || (op.path in old(k.w).names && IsDirectory(k.c, op.path))
    ensures k.Valid() && old(k.trace) <= k.trace && old(k.faults) <= k.faults && op'.path == op.path && op'.ino == op.ino && op'.way == op.way
    ensures Named(k.c, k.w, op', slot, true) && Keeping(k.c, old(k.w), k.w, slot, Backing(k.c, op.path), op.ino)
    ensures k.w.slots[PENDING_BACKUP] == Clear && MaskOK(k.w, spares', mask', orig)
    ensures (spares ==> spares') && (op'.spare.Some? ==> spares')
    ensures op'.leftover == op.leftover && (!op'.fail ==> k.w.left == old(k.w).left)
    ensures !op'.fail ==> b in k.w.names && k.w.names[b] == held
    ensures Released(op, op', k.w) && NoneNew(old(k.w), k.w, op.path)
  {
    hide PointOK, ConfigOK, Tied, Went, KindsOK, Steady, Frame, IsTemp, Dir, FileDone, BackupName, Keeping, Named, Guarded, Ready, Published, LetThrough, SlotOwn, BackupSlot, NoneNew, Separate;
    ghost var w0 := k.w;
    ghost var z := Backing(k.c, op.path);
    spares', mask' := true, mask;
    BackedUpSlot(k.c, w0, op.path, b, held);
    BackupNameFacts(k.c, op.path, b);
    BlockedAgain(k.c, w0);
    WaitingBlocked(k.c, w0, op, slot, true);
    if !spares {
      mask' := k.Hold();
    }
    ghost var w1 := k.w;
    assert w1 == BlockW(w0, true);
    var r := PlaceExchange(k, op.tmp.value, op.path, slot, b, held, op.ino);
    if r == Ok {
      op' := op.(spare := op.tmp, tmp := None);
      SpareNamed(k.c, w1, k.w, op, slot, b);
      PublishedKeeps(k.c, w1, k.w, slot, op.path, op.ino);
      PublishedNoneNew(k.c, w1, k.w, slot, op.path, op.ino);
      BlockedNoneNew(w0, k.w, op.path);
      KeepingTrans(k.c, w0, w1, k.w, slot, z, op.ino);
      return;
    }
    if !spares {
      spares' := false;
      k.Release(mask');
    }
    assert k.w == w0;
    if r == Cannot {
      op' := LinkFlushRename(k, op, slot, b, held);
    } else {
      op' := FailReplace(k, op, slot, z);
    }
  }

  lemma SpareNamed(c: Config, w: World, w': World, op: Op, slot: nat, b: Path)
    requires Waiting(c, w, op, slot) && Published(c, w, w', slot, op.path, op.ino) && |w'.slots| == PENDING_SLOTS
    requires w'.slots[slot].Armed? && w'.slots[slot].path == op.tmp.value
    requires op.tmp.value in w'.swapped && w'.swapped[op.tmp.value] == op.path
    ensures Named(c, w', op.(spare := op.tmp, tmp := None), slot, true) && Keeping(c, w, w', slot, Backing(c, op.path), op.ino)
    ensures w'.blocked == w.blocked && w'.left == w.left
  {
    hide Steady, Frame, IsTemp, Dir, FileDone;
    LeftKept(c, w, w', slot, Own(op.path), op.ino);
    PublishedNamed(c, w, w', op, op.(spare := op.tmp, tmp := None), slot, Backing(c, op.path));
  }

  /* ----- any operand ----- */

  lemma BuiltWaiting(c: Config, w: World, op: Op, slot: nat)
    requires Built(c, w, op, slot, true) && !op.fail && op.way == Temp
    ensures Waiting(c, w, op, slot)
  {
    hide IsTemp, Dir, FileDone;
  }

  lemma HiddenWaiting(c: Config, w: World, op: Op, slot: nat, name: Path, z: Zone)
    requires z.path == op.path && ConfigOK(c) && PointOK(c, w) && Built(c, w, op, slot, true) && !op.fail && op.way == Unnamed
    requires IsTemp(name) && Dir(name) == Dir(op.path) && name !in w.names
    requires Steady(c, ArmedW(c, w, name, MakeFdLink(op.ino), slot))
    ensures
      var w' := ArmedW(c, w, name, MakeFdLink(op.ino), slot);
      && Waiting(c, w', op.(tmp := Some(name)), slot) && Keeping(c, w, w', slot, z, op.ino)
      && w'.guard == w.guard && w'.slots[PENDING_BACKUP] == w.slots[PENDING_BACKUP] && w'.blocked == w.blocked && w'.dirFds == w.dirFds
      && (op.path in w'.names <==> op.path in w.names) && name != op.path
      && (op.path in w.names ==> w'.names[op.path] == w.names[op.path]) && w'.left == w.left && w'.open == w.open
  {
    hide PointOK, IsTemp, Dir, FileDone, Frame, Steady, Outside, Within, Mine, Numberable;
    TempMine(z, name);
    ArmedWFrame(c, w, name, MakeFdLink(op.ino), slot, z, op.ino);
    OperandFacts(c, op.path);
  }

  lemma DoneHideable(c: Config, f: File, dir: string)
    requires FileDone(c, f, dir) && f.role == Role.Build
    ensures Hideable(c, f) && f.kind == Regular
  {}

  lemma BuiltSlot(c: Config, w: World, op: Op, slot: nat)
    requires Built(c, w, op, slot, true) && !op.fail && op.way != Plain
    ensures slot < BATCH && |w.slots| == PENDING_SLOTS && op.spare == None && op.fd == Some(op.ino) && op.path in c.operands
    ensures op.leftover ==> w.left != {}
    ensures w.slots[slot].Armed? ==>
              var Armed(q, n) := w.slots[slot];
              n == op.ino && IsTemp(q) && q in w.names && w.names[q] == n && n in w.files && w.files[n].role != Foreign
  {
    hide IsTemp, Dir, FileDone, NamedOnly;
  }

  lemma BuiltFile(c: Config, w: World, op: Op, slot: nat)
    requires Built(c, w, op, slot, true) && !op.fail && op.way != Plain
    ensures op.ino in w.files && w.files[op.ino].role == Role.Build && FileDone(c, w.files[op.ino], Dir(op.path))
    ensures op.way == Unnamed ==> w.slots[slot] == Clear && op.tmp == None
  {
    hide IsTemp, Dir, FileDone, NamedOnly;
  }

  /** Hiding the file under a temporary name says nothing of the operand. */
  lemma HiddenUnreplaced(c: Config, w: World, op: Op, slot: nat, name: Path)
    requires Unreplaced(c, w, op.path) && slot < |w.slots| && name != op.path
    ensures Unreplaced(c, ArmedW(c, w, name, MakeFdLink(op.ino), slot), op.path)
    ensures SimpleFree(c, w, op.path) ==> SimpleFree(c, ArmedW(c, w, name, MakeFdLink(op.ino), slot), op.path)
    ensures IsTemp(name) ==> NoneNew(w, ArmedW(c, w, name, MakeFdLink(op.ino), slot), op.path)
    ensures NamingZone(c, ArmedW(c, w, name, MakeFdLink(op.ino), slot), op.path) == NamingZone(c, w, op.path)
  {
    hide Dir, Separate, Guarded, BackupName, IsTemp;
  }

  /** Gives up an operand whose name could not be given. */
  method FailNaming(k: Machine, op: Op, slot: nat, ghost z: Zone) returns (op': Op)
    requires k.Valid() && Steady(k.c, k.w) && Built(k.c, k.w, op, slot, true) && !op.fail && op.way != Plain && z.path == op.path
    modifies k
    ensures k.Valid() && old(k.trace) <= k.trace && old(k.faults) <= k.faults && op' == op.(fail := true, fd := None, tmp := None)
    ensures NoneNew(old(k.w), k.w, op.path)
    ensures Named(k.c, k.w, op', slot, true) && Keeping(k.c, old(k.w), k.w, slot, z, op.ino)
    ensures k.w.slots[PENDING_BACKUP] == old(k.w).slots[PENDING_BACKUP] && k.w.blocked == old(k.w).blocked
    ensures Released(op, op', k.w)
  {
    hide PointOK, ConfigOK, Tied, Went, KindsOK, IsTemp, Dir, FileDone, Frame, Steady, Outside, Droppable, Built, Mine, Within;
    ghost var w0 := k.w;
    BuiltSlot(k.c, w0, op, slot);
    ghost var own := Own(op.path);
    TempDroppable(k.c, w0, slot, own);
    op' := OpFail(k, op, slot, own, op.ino);
    OwnNoneNew(k.c, w0, k.w, slot, op.path, op.ino);
    FrameWiden(k.c, w0, k.w, slot, own, z, op.ino);
    LeftKept(k.c, w0, k.w, slot, z, op.ino);
  }

  /** A file made under its own name keeps it. */
  lemma PlainNamed(c: Config, w: World, op: Op, slot: nat)
    requires PointOK(c, w) && Steady(c, w) && Built(c, w, op, slot, true) && !op.fail && op.way == Plain
    ensures PointOK(c, CommitW(w, op.path))
    ensures
      var w' := ClearW(CommitW(w, op.path), slot);
      && PointOK(c, w') && Steady(c, w') && Named(c, w', op, slot, true) && Keeping(c, w, w', slot, Own(op.path), op.ino)
  {
    hide WellFormed, SignalOK, PublishOK, CrashOK, HistoryOK, FdsOK, Guarded, BackupName, IsTemp, Dir, FileDone, Frame, Outside, NoPlaceholder, SlotsOK;
    SlotNames(c, w, slot);
    var w1 := CommitW(w, op.path);
    var w' := ClearW(w1, slot);
    CommitPoint(c, w, op.path);
    ClearPoint(c, w1, slot);
    SlotClass(c, w1, w', slot);
    PlainSlots(w, w', slot);
    OneSlotLends(w, w', slot);
    SameNameFrame(c, w, w', Own(op.path));
    SameFileBind(w, w', Own(op.path), op.ino);
    assert w'.slots == w.slots[slot := w'.slots[slot]];
    FrameFrom(c, w, w', slot, Own(op.path), op.ino);
  }

  lemma PlainSlots(w: World, w': World, slot: nat)
    requires SlotsOK(w) && NoPlaceholder(w) && slot < |w.slots|
    requires w'.names == w.names && w'.files == w.files && w'.left == w.left && w'.slots == w.slots[slot := Clear]
    ensures SlotsOK(w') && NoPlaceholder(w')
  {
    ClearedSlots(w, w', slot);
  }

  /** The finished file takes its name, by the call its way and -f demand. */
  method NameFile(k: Machine, op: Op, slot: nat, held: bool, mask: bool, ghost orig: bool, ghost z: Zone) returns (op': Op, held': bool, mask': bool)
    requires k.Valid() && Steady(k.c, k.w) && Built(k.c, k.w, op, slot, true) && k.w.dirFds == 0 && |k.w.open| <= k.c.batch
    requires |k.w.slots| == PENDING_SLOTS && k.w.slots[PENDING_BACKUP] == Clear && slot < BATCH
    requires Unreplaced(k.c, k.w, op.path) && MaskOK(k.w, held, mask, orig) && z == NamingZone(k.c, k.w, op.path)
    requires op.path in k.w.names ==> SimpleFree(k.c, k.w, op.path)
    modifies k
    ensures op'.fail ==> op.fail || k.faults > old(k.faults) || (op.way != Plain && Barred(k.c, old(k.w), op.path))
    ensures op'.leftover ==> op.leftover || k.faults > old(k.faults)
    ensures !op'.fail && op.way != Plain ==> if k.c.settings.force then !IsDirectory(k.c, op.path) else op.path !in old(k.w).names
    ensures k.Valid() && old(k.trace) <= k.trace && old(k.faults) <= k.faults && op'.path == op.path && op'.ino == op.ino && op'.way == op.way
    ensures Gave(k.c, old(k.w), k.w, op.path)
    ensures Named(k.c, k.w, op', slot, true) && Keeping(k.c, old(k.w), k.w, slot, z, op.ino)
    ensures k.w.slots[PENDING_BACKUP] == Clear && MaskOK(k.w, held', mask', orig)
    ensures (held ==> held') && (op'.spare.Some? ==> held')
    ensures !op'.fail && !op'.leftover ==> k.w.left == old(k.w).left
    ensures !op'.fail && k.c.settings.force && k.c.settings.control == Simple && op.path in old(k.w).names ==>
              BackupAt(k.w, op.path, old(k.w).names[op.path])
    ensures Released(op, op', k.w)
    ensures op.leftover ==> op'.leftover
  {
    hide PointOK, ConfigOK, Tied, Went, KindsOK, IsTemp, Dir, FileDone, Frame, Steady, Guarded, Built, Named, Unreplaced, SimpleFree, SimpleBackup, Backing, BackupAt, HistoryFrame, Gave;
    ghost var w0 := k.w;
    held', mask' := held, mask;
    ZoneFacts(k.c, w0, op.path);
    FrameRefl(k.c, w0, slot, z, op.ino);
    GaveNothing(k.c, w0, op.path);
    if op.fail {
      FailedNamed(k.c, w0, op, slot);
      op' := op;
    } else if op.way == Plain {
      NamePlain(k, op, slot, z);
      op' := op;
    } else if k.c.settings.force {
      op', held', mask' := NameForced(k, op, slot, held, mask, orig, z);
    } else if op.way == Unnamed {
      op' := NameUnnamed(k, op, slot, z);
    } else {
      op' := NameTemp(k, op, slot, z);
    }
    if !k.c.settings.force { GaveUnforced(k.c, w0, k.w, op.path); }
  }

  lemma GaveNothing(c: Config, w: World, p: Path)
    ensures Gave(c, w, w, p)
  {
    hide IsTemp, Guarded;
  }

  lemma GaveUnforced(c: Config, w: World, w': World, p: Path)
    requires !c.settings.force
    ensures Gave(c, w, w', p)
  {
    hide Harmless, IsTemp;
  }

  method NamePlain(k: Machine, op: Op, slot: nat, ghost z: Zone)
    requires k.Valid() && Steady(k.c, k.w) && Built(k.c, k.w, op, slot, true) && !op.fail && op.way == Plain && z.path == op.path && slot < BATCH
    modifies k
    ensures k.Valid() && old(k.trace) <= k.trace && old(k.faults) <= k.faults && op.spare == None && !k.c.settings.force
    ensures Named(k.c, k.w, op, slot, true) && Keeping(k.c, old(k.w), k.w, slot, z, op.ino)
    ensures |k.w.slots| == PENDING_SLOTS && k.w.slots[PENDING_BACKUP] == old(k.w).slots[PENDING_BACKUP]
    ensures k.w.blocked == old(k.w).blocked && k.w.left == old(k.w).left
  {
    hide PointOK, ConfigOK, Tied, Went, KindsOK, Frame, Steady, Built, Named;
    ghost var w0 := k.w;
    PlainNamed(k.c, w0, op, slot);
    PlainSettings(k.c, w0, op, slot);
    k.Enter(CommitW(k.w, op.path));
    k.ClearSlot(slot);
    FrameWiden(k.c, w0, k.w, slot, Own(op.path), z, op.ino);
  }

  /** A name that holds a finished file is no directory's. */
  lemma NotDirectory(k: Machine, op: Op, slot: nat)
    requires k.Valid() && Named(k.c, k.w, op, slot, true)
    ensures !op.fail ==> !IsDirectory(k.c, op.path)
  {
    hide Tied, Went, SignalOK, PublishOK, CrashOK, HistoryOK, FdsOK, FileDone, HoldsSlot, Dir, SlotOwn, SlotBeside, Unclobbered, IsTemp;
    assert KindsOK(k.c, k.w) && WellFormed(k.c, k.w);
  }

  method NameForced(k: Machine, op: Op, slot: nat, held: bool, mask: bool, ghost orig: bool, ghost z: Zone) returns (op': Op, held': bool, mask': bool)
    requires k.Valid() && Steady(k.c, k.w) && Built(k.c, k.w, op, slot, true) && k.w.dirFds == 0
    requires !op.fail && op.way != Plain && k.c.settings.force
    requires k.w.slots[PENDING_BACKUP] == Clear && Unreplaced(k.c, k.w, op.path) && MaskOK(k.w, held, mask, orig)
    requires z == NamingZone(k.c, k.w, op.path) && (op.path in k.w.names ==> SimpleFree(k.c, k.w, op.path))
    modifies k
    ensures op'.fail ==> k.faults > old(k.faults) || Barred(k.c, old(k.w), op.path)
    ensures op'.leftover ==> op.leftover || k.faults > old(k.faults)
    ensures !op'.fail ==> !IsDirectory(k.c, op.path)
    ensures k.Valid() && old(k.trace) <= k.trace && old(k.faults) <= k.faults && op'.path == op.path && op'.ino == op.ino && op'.way == op.way
    ensures Named(k.c, k.w, op', slot, true) && Keeping(k.c, old(k.w), k.w, slot, z, op.ino)
    ensures Gave(k.c, old(k.w), k.w, op.path)
    ensures k.w.slots[PENDING_BACKUP] == Clear && MaskOK(k.w, held', mask', orig)
    ensures (held ==> held') && (op'.spare.Some? ==> held')
    ensures !op'.fail && !op'.leftover ==> k.w.left == old(k.w).left
    ensures !op'.fail && k.c.settings.force && k.c.settings.control == Simple && op.path in old(k.w).names ==>
              BackupAt(k.w, op.path, old(k.w).names[op.path])
    ensures Released(op, op', k.w)
    ensures op.leftover ==> op'.leftover
  {
    hide PointOK, ConfigOK, Tied, Went, KindsOK, IsTemp, Dir, FileDone, Frame, Steady, Guarded, Waiting, Hideable, Keeping, Named, Built, Unreplaced, SimpleFree, BackupAt, Backing, NoneNew, Gave;
    ghost var w0 := k.w;
    held', mask' := held, mask;
    ZoneFacts(k.c, w0, op.path);
    BuiltSlot(k.c, w0, op, slot);
    var op1 := op;
    if op.way == Unnamed {
      var ok;
      ok, op1 := HideUnnamed(k, op, slot, z);
      if !ok {
        op' := op1;
        GaveNothing(k.c, w0, op.path);
        GaveThen(k.c, w0, w0, k.w, op.path);
        return;
      }
    } else {
      BuiltWaiting(k.c, w0, op, slot);
      KeepingRefl(k.c, w0, slot, z, op.ino);
      SameNoneNew(w0, op.path);
    }
    ghost var w1 := k.w;
    op', held', mask' := ReplaceOne(k, op1, slot, held, mask, orig, z);
    KeepingTrans(k.c, w0, w1, k.w, slot, z, op.ino);
    GaveThen(k.c, w0, w1, k.w, op.path);
    NotDirectory(k, op', slot);
  }

  lemma SameNoneNew(w: World, p: Path)
    ensures NoneNew(w, w, p)
  {
    hide IsTemp;
  }

  /** A file that has no name gets a temporary one. */
  method HideUnnamed(k: Machine, op: Op, slot: nat, ghost z: Zone) returns (ok: bool, op': Op)
    requires k.Valid() && Steady(k.c, k.w) && Built(k.c, k.w, op, slot, true) && !op.fail && op.way == Unnamed
    requires k.w.slots[PENDING_BACKUP] == Clear && Unreplaced(k.c, k.w, op.path) && z == NamingZone(k.c, k.w, op.path)
    modifies k
    ensures !ok ==> k.faults > old(k.faults)
    ensures k.Valid() && old(k.trace) <= k.trace && old(k.faults) <= k.faults && Steady(k.c, k.w) && Keeping(k.c, old(k.w), k.w, slot, z, op.ino)
    ensures |k.w.slots| == PENDING_SLOTS && k.w.slots[PENDING_BACKUP] == Clear && k.w.blocked == old(k.w).blocked && k.w.dirFds == old(k.w).dirFds
    ensures !ok ==> op' == op.(fail := true, fd := None, tmp := None) && Named(k.c, k.w, op', slot, true) && Released(op, op', k.w)
    ensures ok ==> op' == op.(tmp := op'.tmp) && Waiting(k.c, k.w, op', slot) && Unreplaced(k.c, k.w, op.path)
    ensures ok ==> z == NamingZone(k.c, k.w, op.path) && k.w.left == old(k.w).left
    ensures ok && SimpleFree(k.c, old(k.w), op.path) ==> SimpleFree(k.c, k.w, op.path)
    ensures NoneNew(old(k.w), k.w, op.path)
    ensures ok ==> (op.path in k.w.names <==> op.path in old(k.w).names) && (op.path in k.w.names ==> k.w.names[op.path] == old(k.w).names[op.path])
  {
    hide PointOK, ConfigOK, Tied, Went, KindsOK, IsTemp, Dir, FileDone, Frame, Steady, Guarded, Waiting, Hideable, Named, Built, Unreplaced, SimpleFree, Backing, NoneNew;
    ghost var w0 := k.w;
    ZoneFacts(k.c, w0, op.path);
    BuiltSlot(k.c, w0, op, slot);
    BuiltFile(k.c, w0, op, slot);
    var fstat := k.Works();
    var r, name := Failed, "";
    if fstat {
      DoneHideable(k.c, k.w.files[op.ino], Dir(op.path));
      r, name := TempMake(k, op.path, slot, MakeFdLink(op.ino), z, op.ino);
    }
    assert r != Ok ==> k.w == w0;
    assert r != Ok ==> k.faults > old(k.faults);
    ok := r == Ok;
    if ok {
      HiddenWaiting(k.c, w0, op, slot, name, z);
      HiddenUnreplaced(k.c, w0, op, slot, name);
      op' := op.(tmp := Some(name));
    } else {
      op' := FailNaming(k, op, slot, z);
      KeepingDirFds(k.c, w0, k.w, slot, z, op.ino);
    }
  }

  lemma KeepingDirFds(c: Config, w: World, w': World, slot: nat, z: Zone, own: Ino)
    requires Keeping(c, w, w', slot, z, own)
    ensures w'.dirFds == w.dirFds
  {}

  method NameUnnamed(k: Machine, op: Op, slot: nat, ghost z: Zone) returns (op': Op)
    requires k.Valid() && Steady(k.c, k.w) && Built(k.c, k.w, op, slot, true) && !op.fail && op.way == Unnamed && z.path == op.path && !k.c.settings.force
    modifies k
    ensures op'.leftover == op.leftover
    ensures op'.fail ==> k.faults > old(k.faults) || Barred(k.c, old(k.w), op.path)
    ensures !op'.fail ==> op.path !in old(k.w).names
    ensures k.Valid() && old(k.trace) <= k.trace && old(k.faults) <= k.faults && op'.path == op.path && op'.ino == op.ino && op'.way == op.way && op'.spare == None
    ensures Named(k.c, k.w, op', slot, true) && Keeping(k.c, old(k.w), k.w, slot, z, op.ino)
    ensures k.w.slots[PENDING_BACKUP] == old(k.w).slots[PENDING_BACKUP] && k.w.blocked == old(k.w).blocked
    ensures !op'.fail ==> k.w.left == old(k.w).left
    ensures Released(op, op', k.w)
    ensures op.leftover ==> op'.leftover
  {
    hide PointOK, ConfigOK, Tied, Went, KindsOK, IsTemp, Dir, FileDone, Frame, Steady;
    ghost var w0 := k.w;
    if op.path !in k.w.names {
      LinkedPoint(k.c, w0, op.path, op.ino);
      LinkedPublished(k.c, w0, slot, op.path, op.ino);
    }
    assert k.w.files[op.ino].kind == Regular by { DoneHideable(k.c, k.w.files[op.ino], Dir(op.path)); }
    var r := k.LinkFile(op.ino, op.path);
    if r == Ok {
      k.Enter(CommitW(k.w, op.path));
      op' := op;
      LeftKept(k.c, w0, k.w, slot, Own(op.path), op.ino);
      PublishedNamed(k.c, w0, k.w, op, op, slot, z);
    } else {
      op' := FailNaming(k, op, slot, z);
    }
  }

  method NameTemp(k: Machine, op: Op, slot: nat, ghost z: Zone) returns (op': Op)
    requires k.Valid() && Steady(k.c, k.w) && Built(k.c, k.w, op, slot, true) && !op.fail && op.way == Temp
    requires !k.c.settings.force && |k.w.open| <= k.c.batch && z.path == op.path
    modifies k
    ensures op'.leftover == op.leftover
    ensures op'.fail ==> k.faults > old(k.faults) || Barred(k.c, old(k.w), op.path)
    ensures !op'.fail ==> op.path !in old(k.w).names
    ensures k.Valid() && old(k.trace) <= k.trace && old(k.faults) <= k.faults && op'.path == op.path && op'.ino == op.ino && op'.way == op.way && op'.spare == None
    ensures Named(k.c, k.w, op', slot, true) && Keeping(k.c, old(k.w), k.w, slot, z, op.ino)
    ensures k.w.slots[PENDING_BACKUP] == old(k.w).slots[PENDING_BACKUP] && k.w.blocked == old(k.w).blocked
    ensures !op'.fail ==> k.w.left == old(k.w).left
    ensures Released(op, op', k.w)
    ensures op.leftover ==> op'.leftover
  {
    hide PointOK, ConfigOK, Tied, Went, KindsOK, IsTemp, Dir, FileDone, Frame, Steady;
    ghost var w0 := k.w;
    var ok, linked := PlaceCommit(k, op.tmp.value, op.path, slot, op.ino);
    if ok {
      LeftKept(k.c, w0, k.w, slot, Own(op.path), op.ino);
      op' := if linked then op else op.(tmp := None);
      PublishedNamed(k.c, w0, k.w, op, op', slot, z);
    } else {
      ghost var w1 := k.w;
      PointParts(k.c, w0);
      BuiltUndone(k.c, w0, w1, op, slot, z);
      op' := FailNaming(k, op, slot, z);
      KeepingTrans(k.c, w0, w1, k.w, slot, z, op.ino);
    }
  }

  /** An attempt that left nothing leaves the file as it was built. */
  lemma BuiltUndone(c: Config, w: World, w': World, op: Op, slot: nat, z: Zone)
    requires WellFormed(c, w) && Built(c, w, op, slot, true) && !op.fail && op.way == Temp && z.path == op.path
    requires Undone(c, w, w', slot, Own(op.path), w.next)
    ensures Built(c, w', op, slot, true) && Keeping(c, w, w', slot, z, op.ino)
  {
    hide IsTemp, Dir, Filled, FinalOwner, FinalMode, Granted, Classified, NoPlaceholder, NameFrame, GuardFrame, HistoryFrame, SwapFrame, SlotOwn, Unclobbered, SlotBeside;
    SlotNames(c, w', slot);
    assert FirstUse(w', op.tmp.value) by { FirstKept(c, w, w', slot, Own(op.path), w.next, op.tmp.value); }
    LeftKept(c, w, w', slot, Own(op.path), w.next);
    FrameAny(c, w, w', slot, Own(op.path), w.next, op.ino);
    FrameWiden(c, w, w', slot, Own(op.path), z, op.ino);
    forall q | q in w'.names && w'.names[q] == op.ino ensures q == op.tmp.value {
      assert !Given(w, Own(op.path), op.ino);
    }
  }

  lemma FailedNamed(c: Config, w: World, op: Op, slot: nat)
    requires Built(c, w, op, slot, true) && op.fail
    ensures Named(c, w, op, slot, true) && op.spare == None
  {}

  lemma ZoneFacts(c: Config, w: World, p: Path)
    ensures NamingZone(c, w, p).path == p
  {}

  /** Only a run without -f makes a file under its own name. */
  lemma PlainSettings(c: Config, w: World, op: Op, slot: nat)
    requires Built(c, w, op, slot, true) && !op.fail && op.way == Plain
    ensures IsPlain(c.settings) && op.spare == None
  {
    hide Dir, FileDone;
  }
}
