/** Names this run made and has not committed. */
module Pending {
  import opened Names
  import opened Spec
  import opened World
  import opened Steps
  import opened Coherence
  import opened Kernel
  import opened Frames

  /** The slots but s name what they were armed with; all names differ. */
  ghost predicate SlotsBut(w: World, s: nat) {
    && (forall t :: 0 <= t < |w.slots| && t != s && w.slots[t].Armed? ==>
          w.slots[t].path in w.names && w.names[w.slots[t].path] == w.slots[t].ino)
    && (forall t, u :: 0 <= t < u < |w.slots| && w.slots[t].Armed? && w.slots[u].Armed? ==>
          w.slots[t].path != w.slots[u].path)
  }

  /** What slot s names may go without harm. */
  ghost predicate Removable(c: Config, w: World, s: nat)
    requires s < |w.slots|
  {
    w.slots[s].Armed? ==>
      var Armed(q, n) := w.slots[s];
      && (Guarded(c) ==> Unprotected(w, q)) && q !in w.taken
      && (q in w.names ==> w.names[q] == n)
  }

  function UnlinkedW(c: Config, w: World, q: Path, n: Ino): World {
    if q in w.names && w.names[q] == n then UnlinkW(c, w, q) else w
  }

  function RemovedW(c: Config, w: World, s: nat): World
    requires s < |w.slots|
  {
    if w.slots[s].Armed? then ClearW(UnlinkedW(c, w, w.slots[s].path, w.slots[s].ino), s) else w
  }

  function KeptW(w: World, s: nat): World
    requires s < |w.slots|
  {
    if w.slots[s].Armed? then ClearW(LeftW(RefuseW(w, w.slots[s].path), w.slots[s].path), s) else w
  }

  /** One atomic look and removal. 0: gone, 1: q holds another file, -1: error. */
  method RemoveOurs(k: Machine, q: Path, n: Ino) returns (r: int)
    requires k.Valid()
    requires q in k.w.names ==> PointOK(k.c, UnlinkW(k.c, k.w, q))
    modifies k
    ensures k.Valid() && old(k.trace) <= k.trace && old(k.faults) <= k.faults
    ensures r == 0 ==> k.w == UnlinkedW(k.c, old(k.w), q, n) && (q in k.w.names ==> k.w.names[q] != n)
    ensures r == 1 ==> k.w == old(k.w) && q in k.w.names && k.w.names[q] != n
    ensures r != 0 && r != 1 ==> r == -1 && k.w == RefuseW(old(k.w), q) && k.faults > old(k.faults)
  {
    hide PointOK, Tied, Went, KindsOK;
    var st, m := k.Lstat(q);
    if st != Ok {
      r := if st == Missing then 0 else -1;
    } else if m != n {
      r := 1;
    } else {
      var u := k.Unlink(q);
      r := if u == Ok || u == Missing then 0 else -1;
    }
  }

  /** No slot names an operand that was given its file, where that matters. */
  lemma SlotUncommitted(c: Config, w: World, s: nat)
    requires WellFormed(c, w) && HistoryOK(c, w) && s < |w.slots| && w.slots[s].Armed?
    ensures Uncommitted(c, w, w.slots[s].path)
  {
    hide Separate, BackupsOK, SlotOwn, Unclobbered, IsTemp, Dir;
    assert SlotBeside(c, w.slots[s].path);
  }

  lemma RemovedPoint(c: Config, w: World, s: nat)
    requires PointOK(c, w) && s < PENDING_SLOTS && Removable(c, w, s) && w.slots[s].Armed?
    requires Classified(c, w)
    ensures PointOK(c, UnlinkW(c, w, w.slots[s].path))
    ensures PointOK(c, RemovedW(c, w, s))
    ensures Classified(c, RemovedW(c, w, s))
  {
    hide CrashOK, Guarded, PublishOK, HistoryOK, Unprotected, Accounted, SlotOwn, Unclobbered, SlotBeside, Uncommitted;
    var Armed(q, n) := w.slots[s];
    SlotUncommitted(c, w, s);
    UnlinkPoint(c, w, q);
    var w1 := UnlinkedW(c, w, q, n);
    ClearPoint(c, w1, s);
    SlotClass(c, w1, ClearW(w1, s), s);
  }

  lemma KeptPoint(c: Config, w: World, s: nat)
    requires PointOK(c, w) && s < PENDING_SLOTS && w.slots[s].Armed? && Classified(c, w)
    requires w.slots[s].path in w.refused || SpareKept(c, w, w.slots[s].path)
    ensures PointOK(c, LeftW(w, w.slots[s].path))
    ensures PointOK(c, ClearW(LeftW(w, w.slots[s].path), s))
    ensures Classified(c, ClearW(LeftW(w, w.slots[s].path), s))
  {
    hide CrashOK, PublishOK, HistoryOK, FileDone, Dir, SlotOwn, Unclobbered, IsTemp;
    var w1 := LeftW(w, w.slots[s].path);
    LeftPoint(c, w, w.slots[s].path);
    SameClass(c, w, w1);
    ClearPoint(c, w1, s);
    SlotClass(c, w1, ClearW(w1, s), s);
  }

  lemma RefusedClass(c: Config, w: World, q: Path)
    requires PointOK(c, w) && Classified(c, w)
    ensures PointOK(c, RefuseW(w, q)) && Classified(c, RefuseW(w, q))
  {
    hide PointOK, FileDone, Dir;
    RefusePoint(c, w, RefuseW(w, q));
    SameClass(c, w, RefuseW(w, q));
  }

  lemma RemovedSteady(c: Config, w: World, s: nat)
    requires s < |w.slots| && SlotsBut(w, s) && NoPlaceholder(w)
    ensures SlotsOK(RemovedW(c, w, s)) && NoPlaceholder(RemovedW(c, w, s))
    ensures SlotsOK(KeptW(w, s)) && NoPlaceholder(KeptW(w, s))
  {
    hide SlotsOK, SlotsBut, Dir;
    if w.slots[s] == Clear {
      assert w.slots == w.slots[s := Clear];
    }
    ClearedSlots(w, KeptW(w, s), s);
    ClearedSlots(w, RemovedW(c, w, s), s);
  }

  /** Slot s is clear now, and at most the name it had is gone. */
  lemma ClearedSlots(w: World, w': World, s: nat)
    requires s < |w.slots| && SlotsBut(w, s) && w'.slots == w.slots[s := Clear]
    requires forall q :: q in w.names && w.slots[s].Armed? && q != w.slots[s].path ==>
               q in w'.names && w'.names[q] == w.names[q]
    requires w.slots[s] == Clear ==> w'.names == w.names
    ensures SlotsOK(w')
  {
    forall t | 0 <= t < |w'.slots| && w'.slots[t].Armed?
      ensures w'.slots[t].path in w'.names && w'.names[w'.slots[t].path] == w'.slots[t].ino
    {
      assert w'.slots[t] == w.slots[t];
    }
    forall t, u | 0 <= t < u < |w'.slots| && w'.slots[t].Armed? && w'.slots[u].Armed?
      ensures w'.slots[t].path != w'.slots[u].path
    {
      assert w'.slots[t] == w.slots[t] && w'.slots[u] == w.slots[u];
    }
  }

  /** Removes what slot s names; says so when it stays. */
  method PendingRemove(k: Machine, s: nat) returns (ok: bool)
    requires k.Valid() && s < PENDING_SLOTS && Removable(k.c, k.w, s)
    requires Classified(k.c, k.w) && NoPlaceholder(k.w) && SlotsBut(k.w, s)
    modifies k
    ensures k.Valid() && old(k.trace) <= k.trace && old(k.faults) <= k.faults && Steady(k.c, k.w)
    ensures |old(k.w).slots| == PENDING_SLOTS
    ensures k.w == if ok then RemovedW(k.c, old(k.w), s) else KeptW(old(k.w), s)
    ensures !ok ==> old(k.w).slots[s].Armed? && k.faults > old(k.faults)
  {
    hide PointOK, ConfigOK, Tied, Went, KindsOK, Classified, SlotsOK, NoPlaceholder, SlotsBut, Unprotected, Guarded;
    assert |k.w.slots| == PENDING_SLOTS by { SlotCount(k.c, k.w); }
    RemovedSteady(k.c, k.w, s);
    if k.w.slots[s] == Clear {
      return true;
    }
    var q := k.w.slots[s].path;
    RemovedPoint(k.c, k.w, s);
    RefusedClass(k.c, k.w, q);
    KeptPoint(k.c, RefuseW(k.w, q), s);
    var r := RemoveOurs(k, q, k.w.slots[s].ino);
    ok := r == 0;
    if !ok {
      k.Enter(LeftW(k.w, q));
    }
    k.ClearSlot(s);
  }

  lemma SlotCount(c: Config, w: World)
    requires PointOK(c, w)
    ensures |w.slots| == PENDING_SLOTS
  {}

  lemma RemovedFrame(c: Config, w: World, s: nat, z: Zone, own: Ino)
    requires s < |w.slots| && (w.slots[s].Armed? ==> !Outside(z, w.slots[s].path) || Numberable(w, z, w.slots[s].path))
    ensures Frame(c, w, RemovedW(c, w, s), s, z, own)
  {
    hide Frame, Outside, Numberable, Dir, NameFrame, FileFrame, BindFrame, UnlinkedW, Within;
    if w.slots[s] == Clear {
      FrameRefl(c, w, s, z, own);
    } else {
      var Armed(q, n) := w.slots[s];
      UnlinkedFrame(c, w, s, q, n, z, own);
    }
  }

  lemma UnlinkedFrame(c: Config, w: World, s: nat, q: Path, n: Ino, z: Zone, own: Ino)
    requires s < |w.slots| && (!Outside(z, q) || Numberable(w, z, q))
    ensures Frame(c, w, ClearW(UnlinkedW(c, w, q, n), s), s, z, own)
  {
    hide Frame, Outside, Numberable, Dir, NameFrame, FileFrame, BindFrame, Within, IsTemp;
    var w' := ClearW(UnlinkedW(c, w, q, n), s);
    if q in w.names && w.names[q] == n {
      NameStepFrame(c, w, w', z, Id(c, q), Unbind(q));
    } else {
      SameNameFrame(c, w, w', z);
    }
    FewerFileBind(w, w', z, own);
    FrameFrom(c, w, w', s, z, own);
  }

  lemma FewerFileBind(w: World, w': World, z: Zone, own: Ino)
    requires forall q :: q in w'.names ==> q in w.names && w'.names[q] == w.names[q]
    requires w'.files == w.files && w'.next == w.next && w'.open == w.open
    ensures FileFrame(w, w', own) && BindFrame(w, w', z, own)
  {
    hide Given;
  }

  lemma SameFileBind(w: World, w': World, z: Zone, own: Ino)
    requires w'.names == w.names && w'.files == w.files && w'.next == w.next && w'.open == w.open
    ensures FileFrame(w, w', own) && BindFrame(w, w', z, own)
  {
    hide Given;
  }

  lemma KeptFrame(c: Config, w: World, s: nat, z: Zone, own: Ino)
    requires s < |w.slots| && (w.slots[s].Armed? ==> Within(z, w.slots[s].path))
    ensures Frame(c, w, KeptW(w, s), s, z, own)
  {
    hide Frame, NameFrame, Outside, FileFrame, BindFrame, Within, IsTemp;
    var w' := KeptW(w, s);
    if w.slots[s] == Clear {
      FrameRefl(c, w, s, z, own);
    } else {
      SameNameFrame(c, w, w', z);
      SameFileBind(w, w', z, own);
      FrameFrom(c, w, w', s, z, own);
    }
  }
}
