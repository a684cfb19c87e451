/** How a finished file under a temporary name takes the operand's name. */
module Commit {
  import opened Names
  import opened Spec
  import opened World
  import opened Steps
  import opened Coherence
  import opened Kernel
  import opened Frames
  import opened Pending
  import opened Place

  /** tmp is the only name of the finished file n, made for the operand p. */
  ghost predicate Hidden(c: Config, w: World, slot: nat, tmp: Path, p: Path, n: Ino) {
    && slot < BATCH && |w.slots| == PENDING_SLOTS && w.slots[slot] == Armed(tmp, n)
    && IsTemp(tmp) && Dir(tmp) == Dir(p) && p in c.operands
    && tmp in w.names && w.names[tmp] == n && FirstUse(w, tmp)
    && n in w.files && w.files[n].role == Build && FileDone(c, w.files[n], Dir(p))
    && (forall q :: q in w.names && w.names[q] == n ==> q == tmp)
  }

  /** And it was flushed, so it may take its name. */
  ghost predicate Ready(c: Config, w: World, slot: nat, tmp: Path, p: Path, n: Ino) {
    Hidden(c, w, slot, tmp, p, n) && w.files[n].synced
  }

  /** The operand p holds n for good; handling it touched nothing else. */
  ghost predicate Published(c: Config, w: World, w': World, slot: nat, p: Path, n: Ino) {
    && Steady(c, w') && Frame(c, w, w', slot, Own(p), n)
    && p in w'.names && w'.names[p] == n && p in w'.committed
    && w'.open == w.open && w'.blocked == w.blocked && w'.left == w.left
    && n in w'.files && n in w.files && w'.files[n] == w.files[n]
  }

  /* ----- what the operand's names are not ----- */

  lemma OperandFacts(c: Config, p: Path)
    requires ConfigOK(c) && p in c.operands
    ensures !IsTemp(p)
  {}

  /** The name of a file being made guards nothing. */
  lemma BuildUnprotected(c: Config, w: World, tmp: Path)
    requires ConfigOK(c) && Guarded(c) && CrashOK(c, w) && WellFormed(c, w)
    requires IsTemp(tmp) && tmp in w.names && w.files[w.names[tmp]].role != Foreign
    ensures Unprotected(w, tmp)
  {
    hide Settled, SwapOK, IsTemp, Guarded, Backs, SlotOwn, SlotBeside, Unclobbered, Dir;
    forall p | p in w.guard ensures !GuardUses(w.guard[p], tmp) {
      assert GuardAt(c, w, p);
      if GuardUses(w.guard[p], tmp) { GuardTemps(c, w, p, tmp); }
    }
  }

  /** The one temporary name a guard uses holds the old file. */
  lemma GuardTemps(c: Config, w: World, p: Path, q: Path)
    requires ConfigOK(c) && p in c.operands && GuardAt(c, w, p) && GuardUses(w.guard[p], q) && IsTemp(q)
    ensures SpareOf(w.guard[p]) == Some(q) && q in w.names && w.names[q] == c.init[p]
  {
    hide Settled, SwapOK, IsTemp, Backs, Dir;
    match w.guard[p]
    case At(x) => BacksFacts(c, p, x);
    case Swapped(x, s, b, _) =>
      BacksFacts(c, p, b);
      OperandFacts(c, x);
    case Flushed(s, b) => BacksFacts(c, p, b);
  }

  lemma TempNotTaken(c: Config, w: World, tmp: Path)
    requires HistoryOK(c, w) && IsTemp(tmp)
    ensures tmp !in w.taken
  {
    hide IsTemp, Separate;
  }

  /* ----- renaming ----- */

  function RenamedW(c: Config, w: World, tmp: Path, p: Path, slot: nat): World
    requires tmp in w.names && slot < |w.slots|
  {
    ClearW(CommitW(MoveW(c, w, tmp, p), p), slot)
  }

  lemma MovedDone(c: Config, w: World, slot: nat, tmp: Path, p: Path, n: Ino)
    requires ConfigOK(c) && Ready(c, w, slot, tmp, p, n)
    ensures
      var w' := MoveW(c, w, tmp, p);
      && p != tmp && p in w'.names && w'.names[p] == n && tmp !in w'.names && Done(c, w', p)
      && w'.names == (w.names - {tmp})[p := n] && w'.logs == Logged(w, Id(c, p), Move(tmp, p))
  {
    hide IsTemp, Dir, FileDone;
    OperandFacts(c, p);
  }

  lemma MovedPoint(c: Config, w: World, slot: nat, tmp: Path, p: Path, n: Ino)
    requires ConfigOK(c) && PointOK(c, w) && Ready(c, w, slot, tmp, p, n)
    requires (Guarded(c) ==> Unprotected(w, p)) && (p in c.init ==> c.settings.force) && Uncommitted(c, w, p)
    ensures PointOK(c, MoveW(c, w, tmp, p))
    ensures PointOK(c, CommitW(MoveW(c, w, tmp, p), p))
    ensures PointOK(c, RenamedW(c, w, tmp, p, slot))
  {
    hide IsTemp, Dir, FileDone, CrashOK, HistoryOK, PublishOK, SignalOK, Guarded, GuardUses, FilledAndOwned, Uncommitted, Givable;
    MovedDone(c, w, slot, tmp, p, n);
    if Guarded(c) { BuildUnprotected(c, w, tmp); }
    TempNotTaken(c, w, tmp);
    TempUncommitted(c, w, tmp);
    OperandGivable(c, n, p);
    MovePoint(c, w, tmp, p);
    CommitPoint(c, MoveW(c, w, tmp, p), p);
    ClearPoint(c, CommitW(MoveW(c, w, tmp, p), p), slot);
  }

  /** All names but p are as they were, p holds a finished file, and whatever lost
      its slot is gone or is p's backup. */
  lemma NamedClass(c: Config, w: World, w': World, p: Path)
    requires forall q :: q in w.names && q != p ==> Accounted(c, w, q)
    requires p in c.operands && Done(c, w', p)
    requires forall q :: q in w'.names && q != p ==> q in w.names || ArmedAt(w', q, w'.names[q])
    requires forall q :: q in w'.names && q != p && q in w.names ==>
               || ArmedAt(w', q, w'.names[q])
               || (w'.names[q] == w.names[q] && (ArmedAt(w, q, w.names[q]) ==> exists p' :: p' in c.operands && BackupFor(c, w', p', q)))
    requires forall q :: q in w.names && q in w'.names && q != p && w'.names[q] == w.names[q] && Done(c, w, q) ==> Done(c, w', q)
    requires w.left <= w'.left && w.taken <= w'.taken && w.committed <= w'.committed
    ensures Classified(c, w')
  {
    hide Done;
    forall q | q in w'.names ensures Accounted(c, w', q) {
      if q != p && !ArmedAt(w', q, w'.names[q]) {
        assert Accounted(c, w, q);
        if x :| x in c.operands && BackupFor(c, w, x, q) {
          assert BackupFor(c, w', x, q);
        }
      }
    }
  }

  lemma RenamedClass(c: Config, w: World, slot: nat, tmp: Path, p: Path, n: Ino)
    requires ConfigOK(c) && Ready(c, w, slot, tmp, p, n)
    requires forall q :: q in w.names && q != p ==> Accounted(c, w, q)
    ensures Classified(c, RenamedW(c, w, tmp, p, slot))
  {
    hide IsTemp, Dir, FileDone, Accounted, BackupFor;
    MovedDone(c, w, slot, tmp, p, n);
    var w' := RenamedW(c, w, tmp, p, slot);
    forall q | q in w'.names && q != p && ArmedAt(w, q, w.names[q]) ensures ArmedAt(w', q, w'.names[q]) {
      var s :| 0 <= s < |w.slots| && w.slots[s] == Armed(q, w.names[q]);
      assert s != slot && w'.slots[s] == w.slots[s];
    }
    NamedClass(c, w, w', p);
  }

  /** No slot but this one may be about p. */
  lemma RenamedSlots(c: Config, w: World, slot: nat, tmp: Path, p: Path, n: Ino)
    requires ConfigOK(c) && Ready(c, w, slot, tmp, p, n) && SlotsOK(w)
    requires forall s :: 0 <= s < |w.slots| && w.slots[s].Armed? ==> w.slots[s].path != p
    ensures SlotsOK(RenamedW(c, w, tmp, p, slot))
  {
    hide IsTemp, Dir, FileDone;
    MovedDone(c, w, slot, tmp, p, n);
    var w' := RenamedW(c, w, tmp, p, slot);
    forall s | 0 <= s < |w'.slots| && w'.slots[s].Armed?
      ensures w'.slots[s].path in w'.names && w'.names[w'.slots[s].path] == w'.slots[s].ino
    {
      assert w'.slots[s] == w.slots[s];
      if s < slot { assert w.slots[s].path != w.slots[slot].path; }
    }
    forall s, t | 0 <= s < t < |w'.slots| && w'.slots[s].Armed? && w'.slots[t].Armed?
      ensures w'.slots[s].path != w'.slots[t].path
    {
      assert w'.slots[s] == w.slots[s] && w'.slots[t] == w.slots[t];
    }
  }

  lemma RenamedFrame(c: Config, w: World, slot: nat, tmp: Path, p: Path, n: Ino)
    requires ConfigOK(c) && Ready(c, w, slot, tmp, p, n)
    ensures Frame(c, w, RenamedW(c, w, tmp, p, slot), slot, Own(p), n)
  {
    hide Dir, FileDone, Frame, Outside, NameFrame, IsTemp, Numberable, Within, FileFrame, BindFrame, LendsNew;
    MovedDone(c, w, slot, tmp, p, n);
    var w' := RenamedW(c, w, tmp, p, slot);
    assert NameFrame(c, w, w', Own(p)) by {
      TempMine(Own(p), tmp);
      OwnNotOutside(Own(p));
      OneSlotLends(w, w', slot);
      NameStepFrame(c, w, w', Own(p), Id(c, p), Move(tmp, p));
    }
    MovedFileBind(w, w', Own(p), p, n);
    FrameFrom(c, w, w', slot, Own(p), n);
  }

  lemma OneSlotLends(w: World, w': World, slot: nat)
    requires slot < BATCH && |w.slots| == |w'.slots| == PENDING_SLOTS && w'.slots == w.slots[slot := w'.slots[slot]]
    ensures LendsNew(w, w')
  {}

  /** Only p gets a new name, n. */
  lemma MovedFileBind(w: World, w': World, z: Zone, p: Path, n: Ino)
    requires forall q :: q in w'.names && q != p ==> q in w.names && w'.names[q] == w.names[q]
    requires p in w'.names ==> w'.names[p] == n
    requires w'.files == w.files && w'.next == w.next && w'.open == w.open
    ensures FileFrame(w, w', n) && BindFrame(w, w', z, n)
  {
    hide Given;
  }

  /** The names that hold no placeholder still do not. */
  lemma RenamedNoPlaceholder(c: Config, w: World, slot: nat, tmp: Path, p: Path, n: Ino)
    requires ConfigOK(c) && Ready(c, w, slot, tmp, p, n)
    requires forall q :: q in w.names && w.names[q] in w.files && w.files[w.names[q]].role == Placeholder ==> q == p || q in w.left
    ensures NoPlaceholder(RenamedW(c, w, tmp, p, slot))
  {
    hide IsTemp, Dir, FileDone;
    MovedDone(c, w, slot, tmp, p, n);
  }

  /** Renaming a ready file onto a free name. */
  lemma RenamedPublished(c: Config, w: World, slot: nat, tmp: Path, p: Path, n: Ino)
    requires ConfigOK(c) && PointOK(c, w) && Ready(c, w, slot, tmp, p, n) && Steady(c, w) && p !in w.names
    ensures Published(c, w, RenamedW(c, w, tmp, p, slot), slot, p, n)
  {
    hide IsTemp, Dir, FileDone, Frame, Accounted, PointOK;
    MovedDone(c, w, slot, tmp, p, n);
    RenamedClass(c, w, slot, tmp, p, n);
    RenamedSlots(c, w, slot, tmp, p, n);
    RenamedFrame(c, w, slot, tmp, p, n);
    RenamedNoPlaceholder(c, w, slot, tmp, p, n);
  }

  function LinkedW(c: Config, w: World, p: Path, n: Ino): World {
    CommitW(LinkW(c, w, n, p), p)
  }

  /** Giving a finished file the free name p. */
  lemma LinkedPoint(c: Config, w: World, p: Path, n: Ino)
    requires ConfigOK(c) && PointOK(c, w) && p !in w.names && p in c.operands
    requires n in w.files && PublicDone(c, w.files[n], Dir(p))
    ensures PointOK(c, LinkW(c, w, n, p)) && PointOK(c, LinkedW(c, w, p, n))
  {
    hide Dir, FileDone, WellFormed, CrashOK, HistoryOK, PublishOK, FdsOK, SignalOK, IsTemp, Givable;
    OperandGivable(c, n, p);
    LinkPoint(c, w, n, p);
    CommitPoint(c, LinkW(c, w, n, p), p);
  }

  lemma LinkedSteady(c: Config, w: World, p: Path, n: Ino)
    requires Steady(c, w) && p !in w.names && p in c.operands && n in w.files && FileDone(c, w.files[n], Dir(p))
    requires w.files[n].role != Placeholder
    ensures Steady(c, LinkedW(c, w, p, n))
  {
    hide Dir, FileDone;
    var w' := LinkedW(c, w, p, n);
    forall q | q in w'.names && q != p && ArmedAt(w, q, w.names[q]) ensures ArmedAt(w', q, w'.names[q]) {
      var s :| 0 <= s < |w.slots| && w.slots[s] == Armed(q, w.names[q]);
      assert w'.slots[s] == w.slots[s];
    }
    NamedClass(c, w, w', p);
  }

  lemma LinkedPublished(c: Config, w: World, slot: nat, p: Path, n: Ino)
    requires PointOK(c, w) && Steady(c, w) && p !in w.names && p in c.operands && slot < |w.slots|
    requires n in w.files && FileDone(c, w.files[n], Dir(p)) && w.files[n].role == Build
    ensures Published(c, w, LinkedW(c, w, p, n), slot, p, n)
  {
    hide Dir, FileDone, Frame, Outside, NameFrame, Steady, PointOK, IsTemp, Numberable, Within, FileFrame, BindFrame, LendsNew;
    var w' := LinkedW(c, w, p, n);
    LinkedSteady(c, w, p, n);
    assert NameFrame(c, w, w', Own(p)) by {
      OwnNotOutside(Own(p));
      SameLends(w, w');
      NameStepFrame(c, w, w', Own(p), Id(c, p), Bind(p, n));
    }
    MovedFileBind(w, w', Own(p), p, n);
    FrameFrom(c, w, w', slot, Own(p), n);
  }

  lemma ReadyFacts(c: Config, w: World, slot: nat, tmp: Path, p: Path, n: Ino)
    requires Ready(c, w, slot, tmp, p, n)
    ensures slot < BATCH && |w.slots| == PENDING_SLOTS && w.slots[slot] == Armed(tmp, n)
    ensures tmp in w.names && w.names[tmp] == n && Id(c, tmp) == Id(c, p) && p in c.operands
    ensures RenamedW(c, w, tmp, p, slot).slots == w.slots[slot := Clear] && LinkedW(c, w, p, n).slots == w.slots
    ensures n in w.files && w.files[n].role == Build && PublicDone(c, w.files[n], Dir(p)) && IsRegular(w, n)
  {
    hide IsTemp, FilledAndOwned, FinalMode, Dir;
  }

  /** All that giving the free name p to a ready file may come to. */
  lemma FreeToGive(c: Config, w: World, slot: nat, tmp: Path, p: Path, n: Ino)
    requires ConfigOK(c) && PointOK(c, w) && Steady(c, w) && Ready(c, w, slot, tmp, p, n) && p !in w.names
    ensures tmp in w.names && slot < |w.slots|
    ensures PointOK(c, MoveW(c, w, tmp, p)) && PointOK(c, CommitW(MoveW(c, w, tmp, p), p)) && PointOK(c, RenamedW(c, w, tmp, p, slot))
    ensures Published(c, w, RenamedW(c, w, tmp, p, slot), slot, p, n)
    ensures PointOK(c, LinkW(c, w, n, p)) && PointOK(c, LinkedW(c, w, p, n)) && Published(c, w, LinkedW(c, w, p, n), slot, p, n)
  {
    hide PointOK, ConfigOK, Steady, Ready, Published, MoveW, LinkW, Unprotected, Guarded, FileDone, Dir, Uncommitted;
    ReadyFacts(c, w, slot, tmp, p, n);
    FreeUnprotected(c, w, p);
    FreeNotInitP(c, w, p);
    FreeUncommittedP(c, w, p);
    MovedPoint(c, w, slot, tmp, p, n);
    RenamedPublished(c, w, slot, tmp, p, n);
    LinkedPoint(c, w, p, n);
    LinkedPublished(c, w, slot, p, n);
  }

  /** The name is given without replacing anything; linked says tmp stays as well. */
  method PlaceCommit(k: Machine, tmp: Path, p: Path, slot: nat, ghost n: Ino) returns (ok: bool, linked: bool)
    requires k.Valid() && Steady(k.c, k.w) && Ready(k.c, k.w, slot, tmp, p, n) && |k.w.open| <= k.c.batch && !k.c.settings.force
    modifies k
    ensures k.Valid() && old(k.trace) <= k.trace && old(k.faults) <= k.faults
    ensures ok ==> Published(k.c, old(k.w), k.w, slot, p, n) && |k.w.slots| == PENDING_SLOTS
    ensures ok ==> k.w.slots[slot] == if linked then Armed(tmp, n) else Clear
    ensures ok ==> k.w.slots[PENDING_BACKUP] == old(k.w).slots[PENDING_BACKUP]
    ensures !ok ==> Undone(k.c, old(k.w), k.w, slot, Own(p), old(k.w).next)
    ensures ok ==> p !in old(k.w).names
    ensures !ok ==> p in old(k.w).names || k.faults > old(k.faults)
  {
    hide PointOK, ConfigOK, Tied, Went, KindsOK, Steady, Ready, Published, Undone, MoveW, LinkW, FileDone, Dir;
    linked := false;
    ReadyFacts(k.c, k.w, slot, tmp, p, n);
    NothingUndone(k.c, k.w, slot, Own(p), k.w.next);
    if p !in k.w.names { FreeToGive(k.c, k.w, slot, tmp, p, n); }
    var r := k.RenameNoReplace(tmp, p);
    if r == Ok {
      k.Enter(CommitW(k.w, p));
      k.ClearSlot(slot);
      return true, false;
    }
    if r != Cannot {
      return false, false;
    }
    r := k.LinkIfCan(tmp, p);
    if r == Ok {
      k.Enter(CommitW(k.w, p));
      return true, true;
    }
    if r != Cannot {
      return false, false;
    }
    ok := PlaceOver(k, tmp, p, slot, n);
  }

  lemma FreeUnprotected(c: Config, w: World, q: Path)
    requires PointOK(c, w) && q !in w.names
    ensures Guarded(c) ==> Unprotected(w, q)
  {
    hide SignalOK, PublishOK, HistoryOK, WellFormed, Guarded, GuardAt, GuardUses;
    if Guarded(c) { FreeIsUnprotected(c, w, q); }
  }

  lemma FreeUncommittedP(c: Config, w: World, q: Path)
    requires PointOK(c, w) && q !in w.names
    ensures Uncommitted(c, w, q)
  {
    hide SignalOK, PublishOK, HistoryOK, WellFormed, CrashOK, Uncommitted;
    AbortUncommitted(c, w, q);
  }

  /* ----- over a placeholder ----- */

  function HeldW(c: Config, w: World, p: Path): World {
    CloseW(CreateW(c, w, p, Placeholder, PRIVATE), w.next)
  }

  lemma HeldReady(c: Config, w: World, slot: nat, tmp: Path, p: Path, n: Ino)
    requires ConfigOK(c) && PointOK(c, w) && Steady(c, w) && Ready(c, w, slot, tmp, p, n) && p !in w.names
    ensures
      var w1 := HeldW(c, w, p);
      && Ready(c, w1, slot, tmp, p, n) && SlotsOK(w1)
      && (Guarded(c) ==> Unprotected(w1, p)) && Uncommitted(c, w1, p)
      && (forall q :: q in w1.names && q != p ==> Accounted(c, w1, q))
      && (forall q :: q in w1.names && w1.names[q] in w1.files && w1.files[w1.names[q]].role == Placeholder ==> q == p || q in w1.left)
      && (forall s :: 0 <= s < |w1.slots| && w1.slots[s].Armed? ==> w1.slots[s].path != p)
  {
    hide PointOK, ConfigOK, Ready, SlotsOK, Accounted, HeldW, Unprotected, Guarded, Uncommitted, NoPlaceholder;
    var w1 := HeldW(c, w, p);
    PointWell(c, w);
    StillReady(c, w, slot, tmp, p, n);
    HeldGuards(c, w, p);
    HeldSlots(c, w, p);
    HeldNames(c, w, p);
    forall q | q in w1.names && q != p ensures Accounted(c, w1, q) { HeldAccounted(c, w, p, q); }
  }

  lemma StillReady(c: Config, w: World, slot: nat, tmp: Path, p: Path, n: Ino)
    requires ConfigOK(c) && WellFormed(c, w) && Ready(c, w, slot, tmp, p, n) && p !in w.names
    ensures Ready(c, HeldW(c, w, p), slot, tmp, p, n)
  {
    hide IsTemp, Dir, FileDone, Granted, SlotOwn, SlotBeside, Unclobbered;
  }

  lemma HeldGuards(c: Config, w: World, p: Path)
    requires PointOK(c, w) && p !in w.names
    ensures (Guarded(c) ==> Unprotected(HeldW(c, w, p), p)) && Uncommitted(c, HeldW(c, w, p), p)
  {
    hide PointOK, Dir, Granted, GuardUses, Guarded, Separate;
    FreeUnprotected(c, w, p);
    FreeUncommittedP(c, w, p);
  }

  lemma HeldNames(c: Config, w: World, p: Path)
    requires WellFormed(c, w) && NoPlaceholder(w)
    ensures
      var w1 := HeldW(c, w, p);
      && (forall q :: q in w1.names && q != p ==> q in w.names)
      && (forall q :: q in w1.names && w1.names[q] in w1.files && w1.files[w1.names[q]].role == Placeholder ==> q == p || q in w1.left)
      && w1.slots == w.slots
  {
    hide AgainBy, ShownBy, Dir, Granted, SlotOwn, SlotBeside, Unclobbered, IsTemp;
  }

  lemma HeldSlots(c: Config, w: World, p: Path)
    requires SlotsOK(w) && p !in w.names
    ensures SlotsOK(HeldW(c, w, p))
    ensures forall s :: 0 <= s < |w.slots| && w.slots[s].Armed? ==> w.slots[s].path != p
  {
    hide AgainBy, ShownBy, Dir, Granted;
  }

  lemma HeldAccounted(c: Config, w: World, p: Path, q: Path)
    requires WellFormed(c, w) && Classified(c, w) && p !in w.names && q in w.names
    ensures q in HeldW(c, w, p).names && Accounted(c, HeldW(c, w, p), q)
  {
    hide Dir, FileDone, Granted;
    var w1 := HeldW(c, w, p);
    assert Accounted(c, w, q);
    if ArmedAt(w, q, w.names[q]) {
      assert ArmedAt(w1, q, w1.names[q]);
    } else if x :| x in c.operands && BackupFor(c, w, x, q) {
      assert BackupFor(c, w1, x, q);
    }
  }

  lemma HeldFrame(c: Config, w: World, slot: nat, p: Path, n: Ino)
    requires PointOK(c, w) && slot < |w.slots| && p !in w.names
    ensures Frame(c, w, HeldW(c, w, p), slot, Own(p), n)
    ensures HeldW(c, w, p).open == w.open
  {
    hide Used, ShownBy, Dir, Granted, Frame, Outside, NameFrame, SignalOK, PublishOK, CrashOK, HistoryOK, IsTemp, Numberable, Within, LendsNew, FileFrame, BindFrame;
    var w1 := HeldW(c, w, p);
    assert NameFrame(c, w, w1, Own(p)) by {
      OwnNotOutside(Own(p));
      SameLends(w, w1);
      NameStepFrame(c, w, w1, Own(p), Id(c, p), Bind(p, w.next));
    }
    HeldFileBind(c, w, p, n);
    assert w1.slots == w.slots[slot := w1.slots[slot]];
    FrameFrom(c, w, w1, slot, Own(p), n);
  }

  lemma HeldFileBind(c: Config, w: World, p: Path, n: Ino)
    requires WellFormed(c, w)
    ensures FileFrame(w, HeldW(c, w, p), n) && BindFrame(w, HeldW(c, w, p), Own(p), n)
    ensures HeldW(c, w, p).open == w.open
  {
    hide AgainBy, ShownBy, Dir, Granted, Given, SlotOwn, Unclobbered, IsTemp;
  }

  lemma HeldSpares(c: Config, w: World, p: Path, slots: seq<Slot>)
    requires WellFormed(c, w)
    ensures NoSpareArmed(slots, w.files) ==> NoSpareArmed(slots, HeldW(c, w, p).files)
  {
    hide AgainBy, ShownBy, Dir, Granted, SlotOwn, Unclobbered, IsTemp;
  }

  lemma OverPublished(c: Config, w: World, slot: nat, tmp: Path, p: Path, n: Ino)
    requires ConfigOK(c) && PointOK(c, w) && Steady(c, w) && Ready(c, w, slot, tmp, p, n) && p !in w.names
    requires Ready(c, HeldW(c, w, p), slot, tmp, p, n)
    ensures Published(c, w, RenamedW(c, HeldW(c, w, p), tmp, p, slot), slot, p, n)
  {
    hide IsTemp, Dir, FileDone, Frame, Accounted, PointOK, ConfigOK, HeldW;
    HeldReady(c, w, slot, tmp, p, n);
    HeldFrame(c, w, slot, p, n);
    var w1 := HeldW(c, w, p);
    MovedDone(c, w1, slot, tmp, p, n);
    RenamedClass(c, w1, slot, tmp, p, n);
    RenamedSlots(c, w1, slot, tmp, p, n);
    RenamedFrame(c, w1, slot, tmp, p, n);
    RenamedNoPlaceholder(c, w1, slot, tmp, p, n);
    FrameTrans(c, w, w1, RenamedW(c, w1, tmp, p, slot), slot, Own(p), n);
    HeldKeeps(c, w, p, n);
  }

  lemma HeldKeeps(c: Config, w: World, p: Path, n: Ino)
    requires PointOK(c, w) && n in w.files
    ensures n in HeldW(c, w, p).files && HeldW(c, w, p).files[n] == w.files[n]
    ensures HeldW(c, w, p).blocked == w.blocked && HeldW(c, w, p).slots == w.slots && HeldW(c, w, p).left == w.left && HeldW(c, w, p).guard == w.guard
  {
    hide SignalOK, PublishOK, CrashOK, HistoryOK, Dir, Granted;
  }

  lemma BlockedReady(c: Config, w: World, slot: nat, tmp: Path, p: Path, n: Ino, b: bool)
    ensures Ready(c, BlockW(w, b), slot, tmp, p, n) == Ready(c, w, slot, tmp, p, n)
  {
    hide IsTemp, Dir, FileDone;
  }

  /** Frames do not look at the signal mask. */
  lemma BlockedFrame(c: Config, w: World, w': World, a: bool, b: bool, slot: nat, z: Zone, own: Ino)
    requires Frame(c, BlockW(w, a), w', slot, z, own)
    ensures Frame(c, w, BlockW(w', b), slot, z, own)
  {
    hide Frame;
    SameFrame(c, w, BlockW(w, a), slot, z, own);
    SameFrame(c, w', BlockW(w', b), slot, z, own);
    FrameTrans(c, w, BlockW(w, a), w', slot, z, own);
    FrameTrans(c, w, w', BlockW(w', b), slot, z, own);
  }

  /** Only the mask and the history change. */
  lemma SameFrame(c: Config, w: World, w': World, slot: nat, z: Zone, own: Ino)
    requires w'.(blocked := w.blocked, taken := w.taken, left := w.left, committed := w.committed) == w
    requires HistoryFrame(w, w', z)
    ensures Frame(c, w, w', slot, z, own)
  {
    hide NameFrame, Outside, HistoryFrame, FileFrame, BindFrame, GuardMoves, Guarded;
    SameNameFrame(c, w, w', z) by { SameLends(w, w'); }
    SameFileBind(w, w', z, own);
    GuardFrameSame(c, w, w', z.path);
  }

  lemma BlockedPublished(c: Config, w: World, w': World, was: bool, slot: nat, p: Path, n: Ino)
    requires Published(c, BlockW(w, true), w', slot, p, n) && was == w.blocked
    ensures Published(c, w, BlockW(w', was), slot, p, n)
  {
    hide Frame, Steady;
    BlockedFrame(c, w, w', true, was, slot, Own(p), n);
    BlockSteady(c, w', was);
  }

  /** The placeholder was replaced, and signals are about to be let through again. */
  lemma OverDone(c: Config, w: World, w1: World, slot: nat, tmp: Path, p: Path, n: Ino)
    requires ConfigOK(c) && PointOK(c, w) && PointOK(c, BlockW(w, true)) && Steady(c, w) && Ready(c, w, slot, tmp, p, n) && p !in w.names
    requires Ready(c, HeldW(c, BlockW(w, true), p), slot, tmp, p, n)
    requires w1 == RenamedW(c, HeldW(c, BlockW(w, true), p), tmp, p, slot)
    ensures w.blocked || LetThrough(c, w1)
    ensures
      var w' := BlockW(w1, w.blocked);
      && Published(c, w, w', slot, p, n) && |w'.slots| == PENDING_SLOTS
      && w'.slots[slot] == Clear && w'.slots[PENDING_BACKUP] == w.slots[PENDING_BACKUP]
  {
    hide PointOK, ConfigOK, Tied, Went, KindsOK, Classified, NoPlaceholder, SlotsOK, ArmedFree, NoSpareArmed, Frame, HeldW, IsTemp, Dir, FileDone;
    BlockSteady(c, w, true);
    BlockedReady(c, w, slot, tmp, p, n, true);
    OverPublished(c, BlockW(w, true), slot, tmp, p, n);
    BlockedPublished(c, w, w1, w.blocked, slot, p, n);
    HeldKeeps(c, BlockW(w, true), p, n);
    StillFree(c, w, slot, p, n);
    PointWell(c, BlockW(w, true));
    HeldSpares(c, BlockW(w, true), p, w.slots[slot := Clear]);
    assert w1.slots == w.slots[slot := Clear] && w1.guard == w.guard && w1.files == HeldW(c, BlockW(w, true), p).files by { MovedSame(c, HeldW(c, BlockW(w, true), p), tmp, p); }
  }

  lemma PointWell(c: Config, w: World)
    requires PointOK(c, w)
    ensures WellFormed(c, w)
  {}

  lemma MovedSame(c: Config, w: World, tmp: Path, p: Path)
    requires tmp in w.names
    ensures MoveW(c, w, tmp, p).slots == w.slots && MoveW(c, w, tmp, p).guard == w.guard && MoveW(c, w, tmp, p).files == w.files
  {}

  /** Where a name can be given neither by linking nor by renaming without
      replacing: an empty file takes the name and is replaced at once. */
  method PlaceOver(k: Machine, tmp: Path, p: Path, slot: nat, ghost n: Ino) returns (ok: bool)
    requires k.Valid() && Steady(k.c, k.w) && Ready(k.c, k.w, slot, tmp, p, n) && |k.w.open| <= k.c.batch && !k.c.settings.force
    modifies k
    ensures k.Valid() && old(k.trace) <= k.trace && old(k.faults) <= k.faults
    ensures ok ==> Published(k.c, old(k.w), k.w, slot, p, n) && |k.w.slots| == PENDING_SLOTS
    ensures ok ==> k.w.slots[slot] == Clear && k.w.slots[PENDING_BACKUP] == old(k.w).slots[PENDING_BACKUP]
    ensures !ok ==> Undone(k.c, old(k.w), k.w, slot, Own(p), old(k.w).next)
    ensures ok ==> p !in old(k.w).names
    ensures !ok ==> p in old(k.w).names || k.faults > old(k.faults)
  {
    hide PointOK, ConfigOK, Tied, Went, KindsOK, IsTemp, Dir, FileDone, Frame, Classified, SlotsOK, NoPlaceholder, Accounted, Outside, Unprotected, ArmedFree, Undone, Published, HeldW, AbortedW;
    ghost var w0 := k.w;
    var was := k.Hold();
    ghost var w1 := k.w;
    BlockSteady(k.c, w0, true);
    BlockedReady(k.c, w0, slot, tmp, p, n, true);
    OwnNotOutside(Own(p));
    var r, ph := CreateExcl(k, p, Placeholder, PRIVATE);
    if r != Ok {
      AfterCreate(k.c, w0, k.w, p, Placeholder, PRIVATE, slot, Own(p), w0.next, was);
      k.Release(was);
      return false;
    }
    ok := OverHeld(k, tmp, p, slot, ph, w1, n);
    if ok {
      OverDone(k.c, w0, k.w, slot, tmp, p, n);
    } else {
      AfterCreate(k.c, w0, k.w, p, Placeholder, PRIVATE, slot, Own(p), w0.next, was);
    }
    k.Release(was);
  }

  /** The empty file ph holds p, and signals are blocked. */
  method OverHeld(k: Machine, tmp: Path, p: Path, slot: nat, ph: Ino, ghost w1: World, ghost n: Ino) returns (ok: bool)
    requires k.Valid() && PointOK(k.c, w1) && Steady(k.c, w1) && Ready(k.c, w1, slot, tmp, p, n)
    requires w1.blocked && p !in w1.names && |w1.open| <= k.c.batch && !k.c.settings.force
    requires ph == w1.next && k.w == CreateW(k.c, w1, p, Placeholder, PRIVATE)
    modifies k
    ensures k.Valid() && old(k.trace) <= k.trace && old(k.faults) <= k.faults
    ensures ok ==> Ready(k.c, HeldW(k.c, w1, p), slot, tmp, p, n) && k.w == RenamedW(k.c, HeldW(k.c, w1, p), tmp, p, slot)
    ensures !ok ==> k.w == AbortedW(k.c, w1, p, Placeholder, PRIVATE, true) || k.w == AbortedW(k.c, w1, p, Placeholder, PRIVATE, false)
    ensures !ok ==> k.faults > old(k.faults)
  {
    hide PointOK, ConfigOK, Tied, Went, KindsOK, IsTemp, Dir, FileDone, Frame, Steady, SlotsOK, Accounted, Unprotected, Guarded, Granted, PublicDone, AbortedW, Uncommitted;
    var _ := k.Close(ph);
    assert k.w == HeldW(k.c, w1, p);
    FreeNotInitP(k.c, w1, p);
    HeldReady(k.c, w1, slot, tmp, p, n);
    MovedPoint(k.c, k.w, slot, tmp, p, n);
    ok := k.Rename(tmp, p);
    if ok {
      k.Enter(CommitW(k.w, p));
      k.ClearSlot(slot);
    } else {
      DropHeld(k, p, ph, w1);
    }
  }

  /** The empty file is removed again. */
  method DropHeld(k: Machine, p: Path, ph: Ino, ghost w1: World)
    requires k.Valid() && PointOK(k.c, w1) && w1.blocked && p !in w1.names && |w1.open| <= k.c.batch && !k.c.settings.force
    requires ph == w1.next && k.w == HeldW(k.c, w1, p)
    modifies k
    ensures k.Valid() && old(k.trace) <= k.trace && old(k.faults) <= k.faults
    ensures k.w == AbortedW(k.c, w1, p, Placeholder, PRIVATE, true) || k.w == AbortedW(k.c, w1, p, Placeholder, PRIVATE, false)
  {
    hide PointOK, ConfigOK, Tied, Went, KindsOK, IsTemp, Dir, Granted;
    AbortedPoint(k.c, w1, p, Placeholder, PRIVATE);
    var u := RemoveOurs(k, p, ph);
    if u < 0 {
      k.Enter(LeftW(k.w, p));
    }
  }
}
