/** What handling one operand leaves alone. */
module Frames {
  import opened Names
  import opened Spec
  import opened World
  import opened Steps

  ghost predicate SettledAt(c: Config, w: World, q: Path) {
    q in w.names && Settled(c, w, q, w.names[q])
  }

  /** Nothing about the name q was undone. */
  ghost predicate Keeps(c: Config, w: World, w': World, q: Path) {
    && (q in w.names <==> q in w'.names)
    && (q in w.names ==> w'.names[q] == w.names[q])
    && (q in w.anchored ==> q in w'.anchored)
    && (SettledAt(c, w, q) ==> SettledAt(c, w', q))
  }

  /** The names handling an operand may have to do with, besides temporary ones:
      the operand's own, and its backups of either kind. */
  datatype Zone = Zone(path: Path, simple: bool, numbered: bool)

  function Own(p: Path): Zone { Zone(p, false, false) }

  function Backing(c: Config, p: Path): Zone { Zone(p, MaySimple(c.settings), MayNumber(c.settings)) }

  /** A name it has no business with, or only while it is free. */
  ghost predicate Outside(z: Zone, q: Path) {
    !IsTemp(q) && q != z.path && !(z.simple && q == SimpleBackup(z.path))
  }

  ghost predicate Within(z: Zone, q: Path) {
    IsTemp(q) || q == z.path || (z.simple && q == SimpleBackup(z.path)) || (z.numbered && IsNumbered(z.path, q))
  }

  /** q was linked as a backup, and the operand is not replaced yet. */
  predicate Lent(w: World, q: Path) {
    |w.slots| == PENDING_SLOTS && w.slots[PENDING_BACKUP].Armed? && w.slots[PENDING_BACKUP].path == q
  }

  /** A numbered backup may be linked here, or removed again. */
  ghost predicate Numberable(w: World, z: Zone, q: Path) {
    z.numbered && IsNumbered(z.path, q) && (q !in w.names || Lent(w, q))
  }

  /** A name that is there is not lent out afterwards. */
  predicate StillOwned(w: World, w': World, q: Path) {
    q in w.names && !Lent(w, q) ==> !Lent(w', q)
  }

  ghost predicate NameFrame(c: Config, w: World, w': World, z: Zone) {
    forall q :: Outside(z, q) && !Numberable(w, z, q) ==> Keeps(c, w, w', q) && StillOwned(w, w', q)
  }

  /** Flushed since, or the same. */
  predicate FlushedSince(f: File, f': File) { f' == f || f' == f.(synced := true) }

  ghost predicate FileFrame(w: World, w': World, own: Ino) {
    && w.next <= w'.next
    && (forall n :: n in w.files && n != own ==> n in w'.files && FlushedSince(w.files[n], w'.files[n]))
    && (forall n :: n in w'.open && n !in w.open && n != own ==> n >= w.next)
    && (forall n :: n in w.open && n != own ==> n in w'.open)
  }

  /** The operand's own name holds n. */
  ghost predicate Given(w: World, z: Zone, n: Ino) {
    !IsTemp(z.path) && z.path in w.names && w.names[z.path] == n
  }

  /** Files get new names only if they are new, the operand's own, or the one whose
      name the operand is. */
  ghost predicate BindFrame(w: World, w': World, z: Zone, own: Ino) {
    forall q :: q in w'.names ==>
      || (q in w.names && w'.names[q] == w.names[q])
      || w'.names[q] >= w.next
      || w'.names[q] == own
      || Given(w, z, w'.names[q])
  }

  ghost predicate SlotFrame(w: World, w': World, slot: nat) {
    && |w'.slots| == |w.slots|
    && (forall s :: 0 <= s < |w.slots| && s != slot && s != PENDING_BACKUP ==> w'.slots[s] == w.slots[s])
  }

  /** What handling p may make of a guard. */
  ghost predicate GuardMoves(c: Config, p: Path, g: Guard, g': Guard) {
    && (forall q :: GuardUses(g', q) ==> GuardUses(g, q) || IsTemp(q) || BackupName(c, p, q))
    && (g'.Swapped? ==> g'.path == p || (g.Swapped? && g'.path == g.path))
  }

  ghost predicate GuardFrame(c: Config, w: World, w': World, p: Path) {
    && w'.guard.Keys == w.guard.Keys
    && (Guarded(c) ==> forall x :: x in w.guard ==> GuardMoves(c, p, w.guard[x], w'.guard[x]))
  }

  /** q is in the slot of another operand. */
  ghost predicate ArmedBeyond(w: World, slot: nat, q: Path) {
    exists s :: 0 <= s < |w.slots| && s != slot && s != PENDING_BACKUP && w.slots[s].Armed? && w.slots[s].path == q
  }

  /** What other operands were exchanged with is still on record. */
  ghost predicate SwapFrame(w: World, w': World, slot: nat) {
    && (forall q :: q in w.swapped ==> q in w'.swapped && (ArmedBeyond(w, slot, q) ==> w'.swapped[q] == w.swapped[q]))
    && (forall q :: q in w'.swapped && q !in w.swapped ==> !ArmedBeyond(w, slot, q))
  }

  ghost predicate HistoryFrame(w: World, w': World, z: Zone) {
    && w.left <= w'.left && (forall q :: q in w'.left && q !in w.left ==> Within(z, q))
    && w.taken <= w'.taken && (forall q :: q in w'.taken && q !in w.taken ==> Within(z, q))
    && w.committed <= w'.committed <= w.committed + {z.path}
    && RecordKept(w, w')
    && w'.dirFds == w.dirFds
  }

  ghost predicate Frame(c: Config, w: World, w': World, slot: nat, z: Zone, own: Ino) {
    && NameFrame(c, w, w', z)
    && FileFrame(w, w', own)
    && BindFrame(w, w', z, own)
    && SlotFrame(w, w', slot)
    && GuardFrame(c, w, w', z.path)
    && HistoryFrame(w, w', z)
    && SwapFrame(w, w', slot)
  }

  lemma FrameRefl(c: Config, w: World, slot: nat, z: Zone, own: Ino)
    ensures Frame(c, w, w, slot, z, own)
  {
    hide IsTemp, IsNumbered, Settled, Guarded, BackupName;
  }

  lemma FrameTrans(c: Config, w0: World, w1: World, w2: World, slot: nat, z: Zone, own: Ino)
    requires Frame(c, w0, w1, slot, z, own) && Frame(c, w1, w2, slot, z, own)
    ensures Frame(c, w0, w2, slot, z, own)
  {
    hide NameFrame, BindFrame, Within, GuardFrame, SwapFrame;
    assert NameFrame(c, w0, w2, z) by { NameFrameTrans(c, w0, w1, w2, z); }
    assert BindFrame(w0, w2, z, own) by { BindFrameTrans(w0, w1, w2, z, own); }
    assert GuardFrame(c, w0, w2, z.path) by { GuardFrameTrans(c, w0, w1, w2, z.path); }
    assert SwapFrame(w0, w2, slot) by { SwapFrameTrans(w0, w1, w2, slot); }
  }

  lemma GuardFrameTrans(c: Config, w0: World, w1: World, w2: World, p: Path)
    requires GuardFrame(c, w0, w1, p) && GuardFrame(c, w1, w2, p)
    ensures GuardFrame(c, w0, w2, p)
  {
    hide Guarded, IsTemp, BackupName, GuardUses, GuardMoves;
    if Guarded(c) {
      forall x | x in w0.guard ensures GuardMoves(c, p, w0.guard[x], w2.guard[x]) {
        GuardMovesTrans(c, p, w0.guard[x], w1.guard[x], w2.guard[x]);
      }
    }
  }

  lemma GuardFrameSame(c: Config, w: World, w': World, p: Path)
    requires w'.guard == w.guard
    ensures GuardFrame(c, w, w', p)
  {
    hide Guarded, IsTemp, BackupName, GuardUses;
  }

  lemma GuardMovesTrans(c: Config, p: Path, g0: Guard, g1: Guard, g2: Guard)
    requires GuardMoves(c, p, g0, g1) && GuardMoves(c, p, g1, g2)
    ensures GuardMoves(c, p, g0, g2)
  {
    hide IsTemp, BackupName, GuardUses;
  }

  lemma SwapFrameTrans(w0: World, w1: World, w2: World, slot: nat)
    requires SwapFrame(w0, w1, slot) && SwapFrame(w1, w2, slot) && SlotFrame(w0, w1, slot)
    ensures SwapFrame(w0, w2, slot)
  {
    forall q | ArmedBeyond(w0, slot, q) ensures ArmedBeyond(w1, slot, q) {
      var s :| 0 <= s < |w0.slots| && s != slot && s != PENDING_BACKUP && w0.slots[s].Armed? && w0.slots[s].path == q;
      assert w1.slots[s] == w0.slots[s];
    }
  }

  lemma BindFrameTrans(w0: World, w1: World, w2: World, z: Zone, own: Ino)
    requires BindFrame(w0, w1, z, own) && BindFrame(w1, w2, z, own) && w0.next <= w1.next
    ensures BindFrame(w0, w2, z, own)
  {}

  lemma NameFrameTrans(c: Config, w0: World, w1: World, w2: World, z: Zone)
    requires NameFrame(c, w0, w1, z) && NameFrame(c, w1, w2, z)
    ensures NameFrame(c, w0, w2, z)
  {
    hide Outside, SettledAt, IsNumbered, Lent;
    forall q | Outside(z, q) && !Numberable(w0, z, q) ensures Keeps(c, w0, w2, q) && StillOwned(w0, w2, q) {
      assert Keeps(c, w0, w1, q) && StillOwned(w0, w1, q);
      assert Keeps(c, w1, w2, q) && StillOwned(w1, w2, q);
    }
  }

  /** A temporary name in no danger of another file stays so. */
  lemma FirstKept(c: Config, w: World, w': World, slot: nat, z: Zone, own: Ino, s: Path)
    requires Frame(c, w, w', slot, z, own) && FirstUse(w, s) && (ArmedBeyond(w, slot, s) || w'.swapped == w.swapped)
    ensures FirstUse(w', s)
  {
    hide NameFrame, FileFrame, BindFrame, GuardFrame, Within, ArmedBeyond;
  }

  /** What touches less also keeps what touching more would. */
  lemma FrameWiden(c: Config, w: World, w': World, slot: nat, z: Zone, z': Zone, own: Ino)
    requires Frame(c, w, w', slot, z, own)
    requires z.path == z'.path && (z.simple ==> z'.simple) && (z.numbered ==> z'.numbered)
    ensures Frame(c, w, w', slot, z', own)
  {
    hide FileFrame, SlotFrame, GuardFrame, SwapFrame, IsTemp, IsNumbered, Keeps, Lent;
  }

  /** The backup slot names nothing that was there before. */
  ghost predicate LendsNew(w: World, w': World) {
    forall q :: Lent(w', q) ==> Lent(w, q) || q !in w.names || IsTemp(q)
  }

  /** A change of names that are all the operand's own. */
  lemma NameStepFrame(c: Config, w: World, w': World, z: Zone, id: DirId, op: NameOp)
    requires NameStep(c, w, w', id, op) && LendsNew(w, w')
    requires forall q :: q in w'.names && q !in w.names ==> Writes(op, q)
    requires forall q :: Writes(op, q) ==> !Outside(z, q) || Numberable(w, z, q)
    requires forall q :: q in w.anchored && !Writes(op, q) ==> q in w'.anchored
    ensures NameFrame(c, w, w', z)
  {
    hide Settled, IsTemp, Numberable, Lent;
    forall q | Outside(z, q) && !Numberable(w, z, q) ensures Keeps(c, w, w', q) && StillOwned(w, w', q) {
      if SettledAt(c, w, q) {
        NameStepSettled(c, w, w', id, op, q, w.names[q]);
      }
    }
  }

  /** Nothing on disk and no name changes. */
  lemma SameNameFrame(c: Config, w: World, w': World, z: Zone)
    requires w'.names == w.names && w'.disk == w.disk && w'.logs == w.logs && w.anchored <= w'.anchored && LendsNew(w, w')
    ensures NameFrame(c, w, w', z)
  {
    hide Untouched, Numberable, Lent;
  }

  /** Besides names, only one slot and the history change. */
  lemma FrameFrom(c: Config, w: World, w': World, slot: nat, z: Zone, own: Ino)
    requires NameFrame(c, w, w', z)
    requires FileFrame(w, w', own) && BindFrame(w, w', z, own) && w'.guard == w.guard && w'.swapped == w.swapped
    requires slot < |w.slots| == |w'.slots| && w'.slots == w.slots[slot := w'.slots[slot]]
    requires HistoryFrame(w, w', z)
    ensures Frame(c, w, w', slot, z, own)
  {
    hide NameFrame, FileFrame, BindFrame, HistoryFrame, Guarded, BackupName, IsTemp;
  }

  /** A frame that excepts no file that existed holds whichever file is excepted. */
  lemma FrameAny(c: Config, w: World, w': World, slot: nat, z: Zone, none: Ino, own: Ino)
    requires WellFormed(c, w) && none >= w.next && Frame(c, w, w', slot, z, none)
    ensures Frame(c, w, w', slot, z, own)
  {
    hide NameFrame, GuardFrame, SlotFrame, Given, HistoryFrame, SwapFrame, SlotOwn, Unclobbered, SlotBeside;
  }
}
