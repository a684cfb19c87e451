/** Building one file: opened without a name or under a temporary one, filled,
    given its owner, and its mode last. */
module Build {
  import opened Names
  import opened Spec
  import opened World
  import opened Steps
  import opened Coherence
  import opened Kernel
  import opened Frames
  import opened Pending
  import opened Place
  import opened Commit
  import Template

  datatype Way = Plain | Unnamed | Temp

  /** One operand. ino is the file made for it. */
  datatype Op = Op(
    path: Path,
    tmp: Option<Path>,
    backup: Option<Path>,
    spare: Option<Path>,
    fail: bool,
    fd: Option<Ino>,
    way: Way,
    leftover: bool,
    ino: Ino)

  ghost predicate NamedOnly(w: World, n: Ino, tmp: Option<Path>) {
    forall q :: q in w.names && w.names[q] == n ==> tmp == Some(q)
  }

  /** A file in the making: nobody but its owner may look at it by name. */
  ghost predicate InWork(c: Config, w: World, slot: nat, n: Ino, tmp: Option<Path>) {
    && slot < BATCH && |w.slots| == PENDING_SLOTS
    && n in w.open && n in w.files && n < w.next && n !in w.shown
    && w.files[n].role == Role.Build && w.files[n].kind == Regular
    && NamedOnly(w, n, tmp)
    && match tmp
       case None => w.slots[slot] == Clear
       case Some(t) => w.slots[slot] == Armed(t, n) && t !in c.init && IsTemp(t) && FirstUse(w, t) && IsPrivate(w.files[n].mode)
  }

  /* ----- changes of an open file ----- */

  lemma AlterPoint(c: Config, w: World, slot: nat, n: Ino, tmp: Option<Path>, f: File)
    requires ConfigOK(c) && PointOK(c, w) && Steady(c, w) && InWork(c, w, slot, n, tmp)
    requires f.role == Role.Build && f.kind == Regular && (tmp.Some? ==> IsPrivate(f.mode) || FilledAndOwned(c, f))
    ensures PointOK(c, FileW(w, n, f)) && Steady(c, FileW(w, n, f))
  {
    hide PointOK, Steady, IsTemp, IsPrivate, FilledAndOwned, Frame;
    FilePoint(c, w, n, f);
  }

  lemma AlterFrame(c: Config, w: World, n: Ino, f: File, slot: nat, p: Zone)
    ensures Frame(c, w, FileW(w, n, f), slot, p, n)
  {
    hide NameFrame, Outside;
    SameNameFrame(c, w, FileW(w, n, f), p);
  }

  /** fchmod, fchown and write, as one change of the file. */
  method Change(k: Machine, n: Ino, f: File, slot: nat, ghost p: Zone, ghost tmp: Option<Path>) returns (ok: bool)
    requires k.Valid() && Steady(k.c, k.w) && InWork(k.c, k.w, slot, n, tmp)
    requires f.role == Role.Build && f.kind == Regular && !f.synced && (tmp.Some? ==> IsPrivate(f.mode) || FilledAndOwned(k.c, f))
    modifies k
    ensures !ok ==> k.faults > old(k.faults)
    ensures k.Valid() && old(k.trace) <= k.trace && old(k.faults) <= k.faults && Steady(k.c, k.w)
    ensures Frame(k.c, old(k.w), k.w, slot, p, n)
    ensures k.w == if ok then FileW(old(k.w), n, f) else old(k.w)
  {
    hide PointOK, ConfigOK, Tied, Went, KindsOK, Steady, IsTemp, IsPrivate, FilledAndOwned, Frame;
    AlterPoint(k.c, k.w, slot, n, tmp, f);
    AlterFrame(k.c, k.w, n, f, slot, p);
    FrameRefl(k.c, k.w, slot, p, n);
    ok := k.Alter(n, f);
  }

  lemma PrivateStays(m: Mode)
    requires IsPrivate(m)
    ensures IsPrivate(DropSetId(m))
  {}

  /** The content is written in any number of steps; the last brings it to what the
      copying code makes. Each write drops the set-id bits. */
  method FillOne(k: Machine, n: Ino, slot: nat, ghost p: Zone, ghost tmp: Option<Path>) returns (ok: bool)
    requires k.Valid() && Steady(k.c, k.w) && InWork(k.c, k.w, slot, n, tmp)
    requires k.w.files[n].content == [] && k.w.files[n].owner == k.c.me
    modifies k
    ensures !ok ==> k.faults > old(k.faults)
    ensures k.Valid() && old(k.trace) <= k.trace && old(k.faults) <= k.faults && Steady(k.c, k.w)
    ensures Frame(k.c, old(k.w), k.w, slot, p, n) && InWork(k.c, k.w, slot, n, tmp)
    ensures SameButFile(old(k.w), k.w, n) && k.w.files[n].owner == k.c.me
    ensures ok ==> k.w.files[n].content == Filled(k.c.settings.template, k.c.settings.size)
  {
    hide PointOK, ConfigOK, Tied, Went, KindsOK, Steady, IsTemp, IsPrivate, FilledAndOwned, Frame, Filled;
    FrameRefl(k.c, k.w, slot, p, n);
    if !HasContent(k.c.settings) {
      NothingFilled(k.c.settings);
      return true;
    }
    var rounds: nat := *;
    ok := true;
    while rounds > 0 && ok
      invariant !ok ==> k.faults > old(k.faults)
      invariant k.Valid() && old(k.trace) <= k.trace && old(k.faults) <= k.faults && Steady(k.c, k.w)
      invariant Frame(k.c, old(k.w), k.w, slot, p, n) && InWork(k.c, k.w, slot, n, tmp)
      invariant SameButFile(old(k.w), k.w, n) && k.w.files[n].owner == k.c.me
      decreases rounds
    {
      var part: seq<byte> := *;
      ok := WriteContent(k, n, part, slot, p, tmp, old(k.w));
      rounds := rounds - 1;
    }
    if ok {
      var content;
      ghost var faults;
      ok, content, faults := Template.MakeContent(k.c.settings);
      k.CountFaults(faults);
      if ok {
        ok := WriteContent(k, n, content, slot, p, tmp, old(k.w));
      }
    }
  }

  lemma NothingFilled(s: Settings)
    requires !HasContent(s)
    ensures Filled(s.template, s.size) == []
  {}

  /** Only the file n differs, and it is open and named as before. */
  ghost predicate SameButFile(w: World, w': World, n: Ino) {
    n in w'.files && w'.(files := w'.files - {n}) == w.(files := w.files - {n})
  }

  lemma FrameChain(c: Config, w0: World, w1: World, w2: World, n: Ino, slot: nat, p: Zone)
    requires Frame(c, w0, w1, slot, p, n) && Frame(c, w1, w2, slot, p, n)
    ensures Frame(c, w0, w2, slot, p, n)
  {
    hide Frame;
    FrameTrans(c, w0, w1, w2, slot, p, n);
  }

  lemma SameButChain(w0: World, w1: World, w2: World, n: Ino)
    requires SameButFile(w0, w1, n) && SameButFile(w1, w2, n)
    ensures SameButFile(w0, w2, n)
  {}

  lemma SameButAlter(w: World, n: Ino, f: File)
    ensures SameButFile(w, FileW(w, n, f), n)
  {
    assert FileW(w, n, f).files - {n} == w.files - {n};
  }

  lemma InWorkAlter(c: Config, w: World, slot: nat, n: Ino, tmp: Option<Path>, f: File)
    requires InWork(c, w, slot, n, tmp) && f.role == Role.Build && f.kind == Regular && (tmp.Some? ==> IsPrivate(f.mode))
    ensures InWork(c, FileW(w, n, f), slot, n, tmp)
  {
    hide IsTemp, IsPrivate;
  }

  method WriteContent(k: Machine, n: Ino, content: seq<byte>, slot: nat, ghost p: Zone, ghost tmp: Option<Path>, ghost w0: World) returns (ok: bool)
    requires k.Valid() && Steady(k.c, k.w) && InWork(k.c, k.w, slot, n, tmp)
    requires Frame(k.c, w0, k.w, slot, p, n) && SameButFile(w0, k.w, n) && k.w.files[n].owner == k.c.me
    modifies k
    ensures !ok ==> k.faults > old(k.faults)
    ensures k.Valid() && old(k.trace) <= k.trace && old(k.faults) <= k.faults && Steady(k.c, k.w)
    ensures Frame(k.c, w0, k.w, slot, p, n) && InWork(k.c, k.w, slot, n, tmp)
    ensures SameButFile(w0, k.w, n) && k.w.files[n].owner == k.c.me
    ensures ok ==> k.w.files[n].content == content
  {
    hide PointOK, ConfigOK, Tied, Went, KindsOK, Steady, IsTemp, IsPrivate, FilledAndOwned, Frame, DropSetId, SameButFile, NamedOnly;
    var f := k.w.files[n];
    if tmp.Some? { PrivateStays(f.mode); }
    var f' := f.(content := content, mode := DropSetId(f.mode), synced := false);
    ghost var w1 := k.w;
    ok := Change(k, n, f', slot, p, tmp);
    InWorkAlter(k.c, w1, slot, n, tmp, f');
    SameButAlter(w1, n, f');
    if ok { SameButChain(w0, w1, k.w, n); }
    FrameChain(k.c, w0, w1, k.w, n, slot, p);
  }

  /* ----- giving up ----- */

  /** What this slot names may be removed, and concerns only the operand. */
  ghost predicate Droppable(c: Config, w: World, slot: nat, p: Zone) {
    && slot < BATCH && |w.slots| == PENDING_SLOTS && Removable(c, w, slot)
    && (w.slots[slot].Armed? ==> Mine(p, w.slots[slot].path))
  }

  /** The file stays open, or is closed for good. */
  predicate Released(op: Op, op': Op, w: World) {
    op'.fd == op.fd || (op'.fd == None && (op.fd.Some? ==> op.fd.value !in w.open))
  }

  /** Closes the file and removes the name, unless it is an old file's spare. */
  method OpFail(k: Machine, op: Op, slot: nat, ghost fp: Zone, ghost own: Ino) returns (op': Op)
    requires k.Valid() && Steady(k.c, k.w) && slot < BATCH && |k.w.slots| == PENDING_SLOTS
    requires op.spare == None ==> Droppable(k.c, k.w, slot, fp)
    modifies k
    ensures k.Valid() && old(k.trace) <= k.trace && old(k.faults) <= k.faults && Steady(k.c, k.w)
    ensures op' == op.(fail := true, fd := None, tmp := None)
    ensures Frame(k.c, old(k.w), k.w, slot, fp, if op.fd.Some? then op.fd.value else own)
    ensures |k.w.slots| == PENDING_SLOTS && k.w.slots[PENDING_BACKUP] == old(k.w).slots[PENDING_BACKUP]
    ensures k.w.slots[slot] == if op.spare == None then Clear else old(k.w).slots[slot]
    ensures k.w.open == if op.fd.Some? then old(k.w).open - {op.fd.value} else old(k.w).open
    ensures k.w.blocked == old(k.w).blocked && k.w.guard == old(k.w).guard && k.w.swapped == old(k.w).swapped
  {
    hide PointOK, ConfigOK, Tied, Went, KindsOK, Steady, Frame, Outside, Droppable;
    ghost var w0 := k.w;
    ghost var n := if op.fd.Some? then op.fd.value else own;
    FrameRefl(k.c, w0, slot, fp, n);
    if op.fd.Some? {
      CloseFrame(k.c, w0, op.fd.value, slot, fp);
      PointSteady(k.c, w0, op.fd.value);
      var _ := k.Close(op.fd.value);
    }
    ghost var w1 := k.w;
    if op.spare == None {
      CloseDroppable(k.c, w0, w1, slot, fp);
      var _ := DropName(k, fp, slot, n);
      FrameTrans(k.c, w0, w1, k.w, slot, fp, n);
    }
    op' := op.(fail := true, fd := None, tmp := None);
  }

  /** Removes what the slot names; false when it stays. */
  method DropName(k: Machine, ghost p: Zone, slot: nat, ghost own: Ino) returns (gone: bool)
    requires k.Valid() && Steady(k.c, k.w) && Droppable(k.c, k.w, slot, p)
    modifies k
    ensures !gone ==> k.faults > old(k.faults)
    ensures k.Valid() && old(k.trace) <= k.trace && old(k.faults) <= k.faults && Steady(k.c, k.w)
    ensures Frame(k.c, old(k.w), k.w, slot, p, own)
    ensures |k.w.slots| == |old(k.w).slots| == PENDING_SLOTS && k.w.slots == old(k.w).slots[slot := Clear]
    ensures k.w.open == old(k.w).open && k.w.blocked == old(k.w).blocked && k.w.guard == old(k.w).guard && k.w.swapped == old(k.w).swapped
    ensures k.w.files == old(k.w).files && k.w.committed == old(k.w).committed
    ensures !gone ==> k.w.left != {}
    ensures gone ==> k.w.left == old(k.w).left
  {
    hide PointOK, ConfigOK, Tied, Went, KindsOK, Frame, IsTemp, Outside, Removable, Classified, SlotsOK, NoPlaceholder, SlotsBut;
    ghost var w1 := k.w;
    SteadySlots(k.c, w1, slot);
    gone := PendingRemove(k, slot);
    if w1.slots[slot].Armed? { MineFacts(p, w1.slots[slot].path); }
    RemovedFrame(k.c, w1, slot, p, own);
    KeptFrame(k.c, w1, slot, p, own);
  }

  lemma PointSteady(c: Config, w: World, n: Ino)
    requires PointOK(c, w) && Steady(c, w)
    ensures Steady(c, CloseW(w, n))
  {
    hide PointOK, Steady;
    ClosePoint(c, w, n);
  }

  lemma CloseFrame(c: Config, w: World, n: Ino, slot: nat, p: Zone)
    ensures Frame(c, w, CloseW(w, n), slot, p, n)
  {
    hide NameFrame, Outside, GuardFrame;
    SameNameFrame(c, w, CloseW(w, n), p);
    GuardFrameSame(c, w, CloseW(w, n), p.path);
  }

  lemma SteadySlots(c: Config, w: World, s: nat)
    requires Steady(c, w)
    ensures Classified(c, w) && NoPlaceholder(w) && SlotsBut(w, s)
  {
    hide Accounted;
  }

  lemma CloseDroppable(c: Config, w: World, w': World, slot: nat, p: Zone)
    requires Droppable(c, w, slot, p) && w'.(open := w.open) == w
    ensures Droppable(c, w', slot, p)
  {
    hide Outside, GuardUses, Guarded;
  }

  /** What was made for this run may go. */
  lemma TempDroppable(c: Config, w: World, slot: nat, p: Zone)
    requires ConfigOK(c) && PointOK(c, w) && slot < BATCH && |w.slots| == PENDING_SLOTS
    requires w.slots[slot].Armed? ==>
               var Armed(q, n) := w.slots[slot];
               IsTemp(q) && q in w.names && w.names[q] == n && w.files[n].role != Foreign
    ensures Droppable(c, w, slot, p)
  {
    hide IsTemp, SignalOK, PublishOK, FdsOK, Unprotected, GuardOK, Guarded, HistoryOK, Unclobbered;
    if w.slots[slot].Armed? {
      var q := w.slots[slot].path;
      if Guarded(c) { BuildUnprotected(c, w, q); }
      TempNotTaken(c, w, q);
      TempMine(p, q);
    }
  }

  /* ----- the mode a directory grants ----- */

  datatype ProbeEntry = ProbeEntry(dir: string, granted: Mode)

  ghost predicate ProbesOK(c: Config, probes: seq<ProbeEntry>) {
    && |probes| <= BATCH
    && (forall i :: 0 <= i < |probes| ==> probes[i].granted == Granted(c, probes[i].dir, c.settings.mode))
  }

  /** Makes and removes a file to see the mode it got, once for a directory.
      0: done, 1: done but the file was left, -1: error. */
  method ProbeMode(k: Machine, path: Path, slot: nat, probes: seq<ProbeEntry>, ghost fp: Zone) returns (r: int, granted: Mode, probes': seq<ProbeEntry>)
    requires k.Valid() && Steady(k.c, k.w) && slot < BATCH && |k.w.slots| == PENDING_SLOTS && k.w.slots[slot] == Clear
    requires |k.w.open| <= k.c.batch && ProbesOK(k.c, probes)
    modifies k
    ensures r != 0 ==> k.faults > old(k.faults)
    ensures k.Valid() && old(k.trace) <= k.trace && old(k.faults) <= k.faults && ProbesOK(k.c, probes')
    ensures Undone(k.c, old(k.w), k.w, slot, fp, old(k.w).next)
    ensures r >= 0 ==> granted == Granted(k.c, Dir(path), k.c.settings.mode)
    ensures r == 1 ==> k.w.left != {}
    ensures -1 <= r <= 1 && (r == 0 ==> k.w.left == old(k.w).left)
  {
    hide PointOK, ConfigOK, Tied, Went, KindsOK, Steady, Frame, IsTemp, Dir, Outside, Granted, Undone, ArmedW;
    ghost var w0 := k.w;
    NothingUndone(k.c, w0, slot, fp, w0.next);
    probes', granted := probes, PRIVATE;
    var i := 0;
    while i < |probes|
      invariant 0 <= i <= |probes|
    {
      if probes[i].dir == Dir(path) {
        return 0, probes[i].granted, probes;
      }
      i := i + 1;
    }
    var t, name := TempMake(k, path, slot, MakeOpen(Probe, k.c.settings.mode), fp, w0.next);
    if t != Ok {
      r := -1;
      return;
    }
    ProbeMade(k.c, w0, name, slot);
    var n := k.w.names[name];
    granted := k.w.files[n].mode;
    var closed, gone := DropProbe(k, fp, name, slot, w0);
    if !closed {
      r := -1;
      return;
    }
    if |probes| < BATCH {
      probes' := probes + [ProbeEntry(Dir(path), granted)];
    }
    r := if gone then 0 else 1;
  }

  lemma ProbeMade(c: Config, w: World, name: Path, slot: nat)
    requires slot < |w.slots|
    ensures
      var w' := ArmedW(c, w, name, MakeOpen(Probe, c.settings.mode), slot);
      && name in w'.names && w'.names[name] in w'.files
      && w'.files[w'.names[name]].mode == Granted(c, Dir(name), c.settings.mode)
  {
    hide Granted, Dir, AgainBy, ShownBy, Logged;
  }

  method DropProbe(k: Machine, ghost fp: Zone, name: Path, slot: nat, ghost w0: World) returns (closed: bool, gone: bool)
    requires k.Valid() && PointOK(k.c, w0) && Steady(k.c, w0) && slot < BATCH && |w0.slots| == PENDING_SLOTS && w0.slots[slot] == Clear
    requires IsTemp(name) && name !in w0.names && Steady(k.c, k.w)
    requires k.w == ArmedW(k.c, w0, name, MakeOpen(Probe, k.c.settings.mode), slot)
    modifies k
    ensures !closed || !gone ==> k.faults > old(k.faults)
    ensures k.Valid() && old(k.trace) <= k.trace && old(k.faults) <= k.faults
    ensures Undone(k.c, w0, k.w, slot, fp, w0.next)
    ensures !gone ==> k.w.left != {}
    ensures gone ==> k.w.left == w0.left
  {
    hide PointOK, ConfigOK, Tied, Went, KindsOK, Frame, IsTemp, Dir, Outside, Steady, Droppable, Granted;
    ghost var w1 := k.w;
    ghost var made := MakeOpen(Probe, k.c.settings.mode);
    TempMine(fp, name);
    ArmedWFrame(k.c, w0, name, made, slot, fp, w0.next);
    PointSteady(k.c, w1, w0.next);
    closed := k.Close(k.w.names[name]);
    ghost var w2 := k.w;
    CloseFrame(k.c, w1, w0.next, slot, fp);
    FrameTrans(k.c, w0, w1, w2, slot, fp, w0.next);
    TempDroppable(k.c, w2, slot, fp);
    gone := DropName(k, fp, slot, w0.next);
    FrameTrans(k.c, w0, w2, k.w, slot, fp, w0.next);
    assert k.w.slots == w0.slots;
    assert k.w.open == w0.open by { FreshNotOpen(k.c, w0); }
  }

  lemma FreshNotOpen(c: Config, w: World)
    requires PointOK(c, w)
    ensures w.next !in w.open && w.next !in w.files
  {
    hide SignalOK, PublishOK, CrashOK, HistoryOK;
  }

  /* ----- opening ----- */

  /** Nothing is held for the operand. */
  ghost predicate Dropped(c: Config, w: World, op: Op, slot: nat) {
    && slot < BATCH && |w.slots| == PENDING_SLOTS && w.slots[slot] == Clear
    && op.fd == None && op.tmp == None && op.spare == None && op.backup == None
  }

  /** The operand's file is open, and nothing was written to it. */
  ghost predicate Begun(c: Config, w: World, op: Op, slot: nat) {
    && op.spare == None && op.backup == None && !op.fail
    && op.fd == Some(op.ino) && InWork(c, w, slot, op.ino, op.tmp)
    && w.files[op.ino].content == [] && w.files[op.ino].owner == c.me
    && op.way == (if op.tmp.Some? then Temp else Unnamed)
    && (op.tmp.Some? ==> Dir(op.tmp.value) == Dir(op.path))
  }

  /** What building one operand may do to the rest. */
  ghost predicate Grows(c: Config, w: World, w': World, slot: nat, p: Zone, own: Ino) {
    && Steady(c, w') && Frame(c, w, w', slot, p, own) && own >= w.next
    && |w'.slots| == |w.slots| == PENDING_SLOTS && w'.slots[PENDING_BACKUP] == w.slots[PENDING_BACKUP]
    && w'.blocked == w.blocked
  }

  lemma UndoneGrows(c: Config, w: World, w': World, slot: nat, p: Zone)
    requires Undone(c, w, w', slot, p, w.next) && |w.slots| == PENDING_SLOTS
    ensures Grows(c, w, w', slot, p, w.next)
  {
    hide Frame, Steady;
  }

  lemma GrowsTrans(c: Config, w0: World, w1: World, w2: World, slot: nat, p: Zone, a: Ino, b: Ino)
    requires WellFormed(c, w0)
    requires Grows(c, w0, w1, slot, p, a) && Grows(c, w1, w2, slot, p, b)
    ensures Grows(c, w0, w2, slot, p, b)
  {
    hide Frame, Steady, WellFormed;
    FrameAny(c, w0, w1, slot, p, a, b);
    FrameTrans(c, w0, w1, w2, slot, p, b);
    assert w0.next <= w1.next by { NextGrows(c, w0, w1, slot, p, a); }
  }

  lemma NextGrows(c: Config, w: World, w': World, slot: nat, p: Zone, own: Ino)
    requires Frame(c, w, w', slot, p, own)
    ensures w.next <= w'.next
  {}

  lemma TmpfileBegun(c: Config, w: World, op: Op, slot: nat, dir: string, m: Mode, fp: Zone)
    requires PointOK(c, w) && Steady(c, w) && Dropped(c, w, op, slot) && !op.fail && |w.open| <= c.batch
    ensures
      var w' := TmpfileW(c, w, dir, m);
      && Begun(c, w', op.(fd := Some(w.next), ino := w.next, way := Unnamed), slot)
      && Grows(c, w, w', slot, fp, w.next)
      && w.next in w'.files && w'.files[w.next].mode == Granted(c, dir, m)
      && w'.slots == w.slots && w'.open == w.open + {w.next} && w'.left == w.left
  {
    hide PointOK, Granted, IsTemp, Dir, Steady, Frame, WellFormed;
    TmpfilePoint(c, w, dir, m);
    PointParts0(c, w);
    TmpfileFrame(c, w, slot, dir, m, fp);
    TmpfileOnly(c, w, dir, m);
  }

  lemma TmpfileOnly(c: Config, w: World, dir: string, m: Mode)
    requires WellFormed(c, w)
    ensures NamedOnly(TmpfileW(c, w, dir, m), w.next, None)
  {
    hide Granted;
  }

  lemma TmpfileFrame(c: Config, w: World, slot: nat, dir: string, m: Mode, fp: Zone)
    requires WellFormed(c, w)
    ensures Frame(c, w, TmpfileW(c, w, dir, m), slot, fp, w.next)
  {
    hide NameFrame, Granted, Outside, Given, GuardFrame;
    SameNameFrame(c, w, TmpfileW(c, w, dir, m), fp);
    GuardFrameSame(c, w, TmpfileW(c, w, dir, m), fp.path);
  }

  lemma PointParts0(c: Config, w: World)
    requires PointOK(c, w)
    ensures WellFormed(c, w) && w.next !in w.shown
  {
    hide SignalOK, PublishOK, HistoryOK, GuardsOK, NamesKept, LogSound, SlotOwn, SlotBeside, Unclobbered;
  }

  lemma TempBegun(c: Config, w: World, op: Op, slot: nat, name: Path, fp: Zone)
    requires ConfigOK(c) && PointOK(c, w) && Dropped(c, w, op, slot) && !op.fail
    requires IsTemp(name) && Dir(name) == Dir(op.path) && name !in w.names
    requires Steady(c, ArmedW(c, w, name, MakeOpen(Role.Build, PRIVATE), slot))
    ensures
      var w' := ArmedW(c, w, name, MakeOpen(Role.Build, PRIVATE), slot);
      && Begun(c, w', op.(fd := Some(w.next), ino := w.next, tmp := Some(name), way := Temp), slot)
      && Grows(c, w, w', slot, fp, w.next)
  {
    hide PointOK, Granted, IsTemp, IsPrivate, Dir, Outside, Frame, Steady;
    PointParts0(c, w);
    PrivateGranted(c, Dir(name));
    FreeNotInit(c, w, name);
    TempMine(fp, name);
    MadeFirst(c, w, name, MakeOpen(Role.Build, PRIVATE), slot);
    ArmedWFrame(c, w, name, MakeOpen(Role.Build, PRIVATE), slot, fp, w.next);
  }

  method OpenBuilt(k: Machine, op: Op, slot: nat, probes: seq<ProbeEntry>, ghost fp: Zone) returns (op': Op, granted: Mode, probes': seq<ProbeEntry>)
    requires k.Valid() && Steady(k.c, k.w) && Dropped(k.c, k.w, op, slot) && !op.fail && !op.leftover
    requires |k.w.open| < k.c.batch && ProbesOK(k.c, probes)
    modifies k
    ensures op'.fail || op'.leftover ==> k.faults > old(k.faults)
    ensures k.Valid() && old(k.trace) <= k.trace && old(k.faults) <= k.faults && ProbesOK(k.c, probes')
    ensures op'.path == op.path && (op'.leftover ==> k.w.left != {})
    ensures Grows(k.c, old(k.w), k.w, slot, fp, op'.ino)
    ensures op'.fail ==> Dropped(k.c, k.w, op', slot) && k.w.open == old(k.w).open
    ensures !op'.fail ==> Begun(k.c, k.w, op', slot) && k.w.open == old(k.w).open + {op'.ino}
    ensures !op'.fail ==> k.c.settings.absolute || granted == Granted(k.c, Dir(op.path), k.c.settings.mode)
    ensures !op'.fail && !op'.leftover ==> k.w.left == old(k.w).left
  {
    hide PointOK, ConfigOK, Tied, Went, KindsOK, Steady, Frame, IsTemp, Dir, Granted, Grows, Begun, Undone, ProbesOK, TmpfileW;
    ghost var w0 := k.w;
    NothingUndone(k.c, w0, slot, fp, w0.next);
    UndoneGrows(k.c, w0, w0, slot, fp);
    probes' := probes;
    granted := k.c.settings.mode;
    op' := op.(ino := k.w.next);
    var openMode := if k.c.settings.absolute then PRIVATE else k.c.settings.mode;
    TmpfileBegun(k.c, w0, op, slot, Dir(op.path), openMode, fp);
    var r, n := k.Tmpfile(Dir(op.path), openMode);
    if r == Ok {
      op' := op.(fd := Some(n), ino := n, way := Unnamed);
      var fstat := k.Works();
      if fstat {
        granted := k.w.files[n].mode;
      } else {
        op' := CloseNew(k, op', slot, w0, fp);
      }
    } else if r == Cannot {
      op', granted, probes' := OpenTemp(k, op, slot, probes, fp);
    } else {
      op' := op'.(fail := true);
    }
  }

  /** The file was opened, but its mode cannot be had. */
  method CloseNew(k: Machine, op: Op, slot: nat, ghost w0: World, ghost fp: Zone) returns (op': Op)
    requires k.Valid() && PointOK(k.c, w0) && |w0.slots| == PENDING_SLOTS
    requires op.fd == Some(op.ino) && op.ino == w0.next && op.tmp == None && op.spare == None && op.backup == None
    requires slot < BATCH && k.w.slots == w0.slots && k.w.open == w0.open + {w0.next} && w0.slots[slot] == Clear
    requires Grows(k.c, w0, k.w, slot, fp, op.ino)
    modifies k
    ensures k.Valid() && old(k.trace) <= k.trace && old(k.faults) <= k.faults && op' == op.(fail := true, fd := None)
    ensures Grows(k.c, w0, k.w, slot, fp, op.ino) && Dropped(k.c, k.w, op', slot) && k.w.open == w0.open
  {
    hide PointOK, ConfigOK, Tied, Went, KindsOK, Steady, Frame, IsTemp, Outside, Guarded;
    ghost var w1 := k.w;
    op' := OpFail(k, op, slot, fp, op.ino);
    FrameTrans(k.c, w0, w1, k.w, slot, fp, op.ino);
    FreshNotOpen(k.c, w0);
  }

  method OpenTemp(k: Machine, op: Op, slot: nat, probes: seq<ProbeEntry>, ghost fp: Zone) returns (op': Op, granted: Mode, probes': seq<ProbeEntry>)
    requires k.Valid() && Steady(k.c, k.w) && Dropped(k.c, k.w, op, slot) && !op.fail && !op.leftover
    requires |k.w.open| < k.c.batch && ProbesOK(k.c, probes)
    modifies k
    ensures op'.fail || op'.leftover ==> k.faults > old(k.faults)
    ensures k.Valid() && old(k.trace) <= k.trace && old(k.faults) <= k.faults && ProbesOK(k.c, probes')
    ensures op'.path == op.path && (op'.leftover ==> k.w.left != {})
    ensures Grows(k.c, old(k.w), k.w, slot, fp, op'.ino)
    ensures op'.fail ==> Dropped(k.c, k.w, op', slot) && k.w.open == old(k.w).open
    ensures !op'.fail ==> Begun(k.c, k.w, op', slot) && k.w.open == old(k.w).open + {op'.ino}
    ensures !op'.fail ==> k.c.settings.absolute || granted == Granted(k.c, Dir(op.path), k.c.settings.mode)
    ensures !op'.fail && !op'.leftover ==> k.w.left == old(k.w).left
  {
    hide PointOK, ConfigOK, Tied, Went, KindsOK, Steady, Frame, IsTemp, Dir, Granted, Grows, InWork, WellFormed;
    ghost var w0 := k.w;
    PointParts0(k.c, w0);
    NothingUndone(k.c, w0, slot, fp, w0.next);
    UndoneGrows(k.c, w0, w0, slot, fp);
    probes', granted := probes, k.c.settings.mode;
    var left := 0;
    if !k.c.settings.absolute {
      left, granted, probes' := ProbeMode(k, op.path, slot, probes, fp);
      UndoneGrows(k.c, w0, k.w, slot, fp);
    }
    op' := op.(way := Temp, fail := true, leftover := left == 1, ino := k.w.next);
    ghost var w1 := k.w;
    if left < 0 {
      GrowsNext(k.c, w0, w1, slot, fp);
      return;
    }
    var t, name := TempMake(k, op.path, slot, MakeOpen(Role.Build, PRIVATE), fp, k.w.next);
    if t == Ok {
      TempBegun(k.c, w1, op, slot, name, fp);
      op' := op'.(fd := Some(op'.ino), tmp := Some(name), fail := false);
    } else {
      UndoneGrows(k.c, w1, k.w, slot, fp);
    }
    LeftGrows(k.c, w1, k.w, slot, fp, w1.next);
    GrowsTrans(k.c, w0, w1, k.w, slot, fp, w0.next, w1.next);
  }

  lemma LeftGrows(c: Config, w: World, w': World, slot: nat, p: Zone, own: Ino)
    requires Grows(c, w, w', slot, p, own)
    ensures w.left <= w'.left
  {
    hide Steady;
  }

  lemma GrowsNext(c: Config, w: World, w': World, slot: nat, p: Zone)
    requires WellFormed(c, w) && Grows(c, w, w', slot, p, w.next)
    ensures Grows(c, w, w', slot, p, w'.next)
  {
    hide Frame, Steady, WellFormed;
    FrameAny(c, w, w', slot, p, w.next, w'.next);
    NextGrows(c, w, w', slot, p, w.next);
  }

  /* ----- finishing ----- */

  /** The operand's file is as it shall be, under the name its way says. */
  ghost predicate Finished(c: Config, w: World, op: Op, slot: nat) {
    && op.path in c.operands && op.path != [] && slot < BATCH && |w.slots| == PENDING_SLOTS
    && op.ino in w.files && op.ino < w.next && w.files[op.ino].role == Role.Build
    && FileDone(c, w.files[op.ino], Dir(op.path))
    && match op.way
       case Plain =>
         op.tmp == None && IsPlain(c.settings) && w.slots[slot] == Armed(op.path, op.ino)
       case Unnamed => op.tmp == None && w.slots[slot] == Clear && NamedOnly(w, op.ino, None) && !IsPlain(c.settings)
       case Temp => op.tmp.Some? && Hidden(c, w, slot, op.tmp.value, op.path, op.ino) && !IsPlain(c.settings)
  }

  /** The state of an operand between building and naming. */
  ghost predicate Built(c: Config, w: World, op: Op, slot: nat, flushed: bool) {
    && op.spare == None && op.backup == None && (op.leftover ==> w.left != {})
    && if op.fail then Dropped(c, w, op, slot)
       else
         && Finished(c, w, op, slot)
         && (op.fd.Some? ==> op.fd.value == op.ino && op.ino in w.open)
         && (op.fd.Some? <==> !(flushed && op.way == Plain))
         && (flushed ==> w.files[op.ino].synced && (op.way == Plain ==> op.path in w.anchored))
  }

  /** Until it is finished, the file may still be given up. */
  lemma InWorkDroppable(c: Config, w: World, slot: nat, n: Ino, tmp: Option<Path>, p: Zone)
    requires ConfigOK(c) && PointOK(c, w) && Steady(c, w) && InWork(c, w, slot, n, tmp)
    ensures Droppable(c, w, slot, p)
  {
    hide PointOK, IsTemp, Classified, NoPlaceholder, Outside, IsPrivate;
    TempDroppable(c, w, slot, p);
  }

  /** The rest of a failed build: the file is closed and its name removed. */
  method GiveUp(k: Machine, op: Op, slot: nat, ghost w0: World, ghost fp: Zone) returns (op': Op)
    requires k.Valid() && Steady(k.c, k.w) && InWork(k.c, k.w, slot, op.ino, op.tmp) && op.fd == Some(op.ino)
    requires op.spare == None && op.backup == None && (op.leftover ==> k.w.left != {})
    requires Frame(k.c, w0, k.w, slot, fp, op.ino) && |w0.slots| == PENDING_SLOTS
    requires k.w.slots[PENDING_BACKUP] == w0.slots[PENDING_BACKUP] && k.w.blocked == w0.blocked && k.w.open <= w0.open
    modifies k
    ensures k.Valid() && old(k.trace) <= k.trace && old(k.faults) <= k.faults && op'.path == op.path && op'.ino == op.ino && op'.fail && op'.leftover == op.leftover
    ensures Built(k.c, k.w, op', slot, false) && Stays(k.c, w0, k.w, slot, fp, op.ino)
    ensures op.ino !in k.w.open && op'.fd == None
  {
    hide PointOK, ConfigOK, Tied, Went, KindsOK, Steady, Frame, IsTemp, Outside, Droppable, IsPrivate, NamedOnly;
    ghost var w1 := k.w;
    InWorkDroppable(k.c, k.w, slot, op.ino, op.tmp, fp);
    op' := OpFail(k, op, slot, fp, op.ino);
    FrameTrans(k.c, w0, w1, k.w, slot, fp, op.ino);
    LeftKept(k.c, w1, k.w, slot, fp, op.ino);
  }

  lemma LeftKept(c: Config, w: World, w': World, slot: nat, p: Zone, own: Ino)
    requires Frame(c, w, w', slot, p, own)
    ensures w.left <= w'.left
  {}

  /** What handling one operand keeps for the others. */
  ghost predicate Stays(c: Config, w: World, w': World, slot: nat, p: Zone, own: Ino) {
    && Steady(c, w') && Frame(c, w, w', slot, p, own)
    && |w'.slots| == |w.slots| == PENDING_SLOTS && w'.slots[PENDING_BACKUP] == w.slots[PENDING_BACKUP]
    && w'.blocked == w.blocked && w'.open <= w.open
  }

  /** A file that changes hands is hidden under a temporary name first. */
  method HideFirst(k: Machine, op: Op, slot: nat, ghost fp: Zone) returns (ok: bool, op': Op)
    requires k.Valid() && Steady(k.c, k.w) && Begun(k.c, k.w, op, slot) && op.way == Unnamed
    modifies k
    ensures !ok ==> k.faults > old(k.faults)
    ensures k.Valid() && old(k.trace) <= k.trace && old(k.faults) <= k.faults && InWork(k.c, k.w, slot, op.ino, op'.tmp)
    ensures Stays(k.c, old(k.w), k.w, slot, fp, op.ino)
    ensures ok ==> Begun(k.c, k.w, op', slot)
    ensures op' == op.(tmp := op'.tmp, way := op'.way)
    ensures ok ==> k.w.left == old(k.w).left
  {
    hide PointOK, ConfigOK, Tied, Went, KindsOK, Steady, Frame, IsTemp, Outside, IsPrivate, NamedOnly, Dir;
    op' := op;
    FrameRefl(k.c, k.w, slot, fp, op.ino);
    ghost var w0 := k.w;
    var f := k.w.files[op.ino].(mode := PRIVATE, synced := false);
    ok := Change(k, op.ino, f, slot, fp, None);
    ghost var w1 := k.w;
    InWorkAlter(k.c, w0, slot, op.ino, None, f);
    if !ok {
      return;
    }
    var fstat := k.Works();
    if !fstat {
      return false, op;
    }
    PrivateHideable(k.c, f);
    var r, name := TempMake(k, op.path, slot, MakeFdLink(op.ino), fp, op.ino);
    ok := r == Ok;
    if ok {
      op' := op.(tmp := Some(name), way := Temp);
      LinkedInWork(k.c, w1, slot, op.ino, name, fp);
      FrameTrans(k.c, w0, w1, k.w, slot, fp, op.ino);
    }
  }

  lemma PrivateHideable(c: Config, f: File)
    requires f.role == Role.Build && f.mode == PRIVATE
    ensures Hideable(c, f)
  {}

  lemma LinkedInWork(c: Config, w: World, slot: nat, n: Ino, name: Path, p: Zone)
    requires PointOK(c, w) && InWork(c, w, slot, n, None) && IsTemp(name) && name !in w.names && w.files[n].mode == PRIVATE
    ensures InWork(c, ArmedW(c, w, name, MakeFdLink(n), slot), slot, n, Some(name))
    ensures Frame(c, w, ArmedW(c, w, name, MakeFdLink(n), slot), slot, p, n)
  {
    hide PointOK, IsTemp, Dir, Frame, Outside;
    PointParts0(c, w);
    FreeNotInit(c, w, name);
    TempMine(p, name);
    ArmedWFrame(c, w, name, MakeFdLink(n), slot, p, n);
  }

  /** Content and owner are as asked; the mode is still to come. */
  ghost predicate OwnedAt(c: Config, w: World, op: Op, slot: nat) {
    && op.spare == None && op.backup == None && !op.fail && op.fd == Some(op.ino)
    && op.way == (if op.tmp.Some? then Temp else Unnamed)
    && (op.tmp.Some? ==> Dir(op.tmp.value) == Dir(op.path))
    && InWork(c, w, slot, op.ino, op.tmp) && FilledAndOwned(c, w.files[op.ino])
  }

  lemma SameButInWork(c: Config, w: World, w': World, slot: nat, n: Ino, p: Zone)
    requires SameButFile(w, w', n) && Steady(c, w') && Frame(c, w, w', slot, p, n) && |w.slots| == PENDING_SLOTS
    ensures Stays(c, w, w', slot, p, n)
  {
    hide Steady, Frame;
  }

  lemma StaysTrans(c: Config, w0: World, w1: World, w2: World, slot: nat, p: Zone, own: Ino)
    requires Stays(c, w0, w1, slot, p, own) && Stays(c, w1, w2, slot, p, own)
    ensures Stays(c, w0, w2, slot, p, own)
  {
    hide Steady, Frame;
    FrameTrans(c, w0, w1, w2, slot, p, own);
  }

  lemma StaysRefl(c: Config, w: World, slot: nat, p: Zone, own: Ino)
    requires Steady(c, w) && |w.slots| == PENDING_SLOTS
    ensures Stays(c, w, w, slot, p, own)
  {
    hide Steady, Frame;
    FrameRefl(c, w, slot, p, own);
  }

  /** Fills the file and gives it its owner. */
  method FillAndOwn(k: Machine, op: Op, slot: nat, ghost fp: Zone) returns (ok: bool)
    requires k.Valid() && Steady(k.c, k.w) && Begun(k.c, k.w, op, slot)
    modifies k
    ensures !ok ==> k.faults > old(k.faults)
    ensures k.Valid() && old(k.trace) <= k.trace && old(k.faults) <= k.faults && InWork(k.c, k.w, slot, op.ino, op.tmp)
    ensures Stays(k.c, old(k.w), k.w, slot, fp, op.ino)
    ensures ok ==> OwnedAt(k.c, k.w, op, slot)
    ensures ok ==> k.w.left == old(k.w).left
  {
    hide PointOK, ConfigOK, Tied, Went, KindsOK, Steady, Frame, IsTemp, Outside, IsPrivate, NamedOnly, Dir, SameButFile, Stays, DropSetId, Filled;
    ghost var w0 := k.w;
    ok := FillOne(k, op.ino, slot, fp, op.tmp);
    ghost var w1 := k.w;
    SameButInWork(k.c, w0, w1, slot, op.ino, fp);
    SameButLeft(w0, w1, op.ino);
    if !ok || !k.c.settings.ownerGiven {
      return;
    }
    var f := k.w.files[op.ino];
    if op.tmp.Some? { PrivateStays(f.mode); }
    var f' := f.(owner := Chowned(f.owner, k.c.settings.uid, k.c.settings.gid), mode := DropSetId(f.mode), synced := false);
    ok := Change(k, op.ino, f', slot, fp, op.tmp);
    InWorkAlter(k.c, w1, slot, op.ino, op.tmp, f');
    SameButAlter(w1, op.ino, f');
    SameButRefl(w1, op.ino);
    SameButInWork(k.c, w1, k.w, slot, op.ino, fp);
    StaysTrans(k.c, w0, w1, k.w, slot, fp, op.ino);
  }

  lemma SameButLeft(w: World, w': World, n: Ino)
    requires SameButFile(w, w', n)
    ensures w'.left == w.left
  {}

  lemma SameButRefl(w: World, n: Ino)
    requires n in w.files
    ensures SameButFile(w, w, n)
  {}

  lemma LastChange(c: Config, w: World, op: Op, slot: nat, f: File)
    requires ConfigOK(c) && Steady(c, w) && OwnedAt(c, w, op, slot) && op.path in c.operands && op.path != []
    requires f == w.files[op.ino].(mode := FinalMode(c.settings, Granted(c, Dir(op.path), c.settings.mode)), synced := false)
    requires !IsPlain(c.settings) && (op.leftover ==> w.left != {})
    ensures Built(c, FileW(w, op.ino, f), op, slot, false)
  {
    hide Steady, IsTemp, Dir, Granted, IsPrivate;
    SlotNames(c, w, slot);
  }

  lemma SlotNames(c: Config, w: World, slot: nat)
    requires Steady(c, w) && slot < |w.slots|
    ensures w.slots[slot].Armed? ==> w.slots[slot].path in w.names && w.names[w.slots[slot].path] == w.slots[slot].ino
  {
    hide Classified, NoPlaceholder;
  }

  method FinishBuilt(k: Machine, op: Op, slot: nat, granted: Mode, ghost fp: Zone) returns (op': Op)
    requires k.Valid() && Steady(k.c, k.w) && Begun(k.c, k.w, op, slot) && op.path in k.c.operands && op.path != []
    requires !IsPlain(k.c.settings) && (op.leftover ==> k.w.left != {})
    requires k.c.settings.absolute || granted == Granted(k.c, Dir(op.path), k.c.settings.mode)
    modifies k
    ensures op'.fail ==> k.faults > old(k.faults)
    ensures k.Valid() && old(k.trace) <= k.trace && old(k.faults) <= k.faults && op'.path == op.path && op'.ino == op.ino
    ensures Built(k.c, k.w, op', slot, false) && Stays(k.c, old(k.w), k.w, slot, fp, op.ino)
    ensures op'.leftover == op.leftover && (!op'.fail ==> k.w.left == old(k.w).left)
    ensures op'.fail ==> op.ino !in k.w.open
  {
    hide PointOK, ConfigOK, Tied, Went, KindsOK, Steady, Frame, IsTemp, IsPrivate, NamedOnly, Dir, Granted, FilledAndOwned, Finished;
    ghost var w0 := k.w;
    StaysRefl(k.c, w0, slot, fp, op.ino);
    op' := op;
    var ok := true;
    if op.way == Unnamed && k.c.settings.uidChanges {
      ok, op' := HideFirst(k, op, slot, fp);
      LeftKept(k.c, w0, k.w, slot, fp, op.ino);
      if !ok {
        op' := GiveUp(k, op', slot, w0, fp);
        return;
      }
    }
    ghost var w1 := k.w;
    ok := FillAndOwn(k, op', slot, fp);
    StaysTrans(k.c, w0, w1, k.w, slot, fp, op.ino);
    LeftKept(k.c, w0, k.w, slot, fp, op.ino);
    if !ok {
      op' := GiveUp(k, op', slot, w0, fp);
      return;
    }
    op' := SetMode(k, op', slot, granted, w0, fp);
  }

  method SetMode(k: Machine, op: Op, slot: nat, granted: Mode, ghost w0: World, ghost fp: Zone) returns (op': Op)
    requires k.Valid() && Steady(k.c, k.w) && OwnedAt(k.c, k.w, op, slot) && op.path in k.c.operands && op.path != []
    requires !IsPlain(k.c.settings) && (op.leftover ==> k.w.left != {})
    requires k.c.settings.absolute || granted == Granted(k.c, Dir(op.path), k.c.settings.mode)
    requires Stays(k.c, w0, k.w, slot, fp, op.ino)
    modifies k
    ensures op'.fail ==> k.faults > old(k.faults)
    ensures k.Valid() && old(k.trace) <= k.trace && old(k.faults) <= k.faults && op'.path == op.path && op'.ino == op.ino
    ensures Built(k.c, k.w, op', slot, false) && Stays(k.c, w0, k.w, slot, fp, op.ino)
    ensures op'.leftover == op.leftover && (!op'.fail ==> k.w.left == old(k.w).left)
    ensures op'.fail ==> op.ino !in k.w.open
  {
    hide PointOK, ConfigOK, Tied, Went, KindsOK, Steady, Frame, IsTemp, IsPrivate, NamedOnly, Dir, Granted, Finished, Filled, FinalOwner;
    ghost var w1 := k.w;
    var finalMode := if k.c.settings.absolute then k.c.settings.mode else Mode(granted.rwx, k.c.settings.mode.special);
    var f := k.w.files[op.ino].(mode := finalMode, synced := false);
    var ok := Change(k, op.ino, f, slot, fp, op.tmp);
    if ok {
      op' := op;
      LastChange(k.c, w1, op, slot, f);
      FrameTrans(k.c, w0, w1, k.w, slot, fp, op.ino);
    } else {
      op' := GiveUp(k, op, slot, w0, fp);
    }
  }

  /* ----- one operand ----- */

  lemma PlainBuilt(c: Config, w: World, op: Op, slot: nat)
    requires PointOK(c, w) && Dropped(c, w, op, slot) && !op.fail && !op.leftover && op.way == Plain && op.path !in w.names
    requires op.path in c.operands && op.path != [] && IsPlain(c.settings)
    requires Steady(c, ArmedW(c, w, op.path, MakeOpen(Role.Build, c.settings.mode), slot))
    ensures
      var w' := ArmedW(c, w, op.path, MakeOpen(Role.Build, c.settings.mode), slot);
      Built(c, w', op.(fd := Some(w.next), ino := w.next), slot, false)
  {
    hide SignalOK, PublishOK, CrashOK, Steady, IsTemp, Dir, Guarded;
  }

  lemma PlainCreatable(c: Config, p: Path)
    requires IsPlain(c.settings)
    ensures Creatable(c, p, Role.Build, c.settings.mode)
  {
    hide Dir, IsTemp;
  }

  method BuildOne(k: Machine, path: Path, slot: nat, probes: seq<ProbeEntry>, ghost fp: Zone) returns (op: Op, probes': seq<ProbeEntry>)
    requires k.Valid() && Steady(k.c, k.w) && path in k.c.operands
    requires slot < BATCH && |k.w.slots| == PENDING_SLOTS && k.w.slots[slot] == Clear
    requires |k.w.open| < k.c.batch && ProbesOK(k.c, probes) && (fp == Own(path) || !IsPlain(k.c.settings) || path in k.w.names)
    modifies k
    ensures op.fail ==> k.faults > old(k.faults) || Nameless(path) || (!k.c.settings.force && path in old(k.w).names)
    ensures op.leftover ==> k.faults > old(k.faults)
    ensures !op.fail ==> !Nameless(path) && (IsPlain(k.c.settings) ==> path !in old(k.w).names)
    ensures k.Valid() && old(k.trace) <= k.trace && old(k.faults) <= k.faults && ProbesOK(k.c, probes') && op.path == path
    ensures Built(k.c, k.w, op, slot, false) && Grows(k.c, old(k.w), k.w, slot, fp, op.ino)
    ensures k.w.open <= old(k.w).open + (if op.fd.Some? then {op.ino} else {})
    ensures !op.fail && !op.leftover ==> k.w.left == old(k.w).left
  {
    hide PointOK, ConfigOK, Tied, Went, KindsOK, Steady, Frame, IsTemp, Dir, Granted, Finished, Creatable, Begun, ProbesOK;
    ghost var w0 := k.w;
    NothingUndone(k.c, w0, slot, fp, w0.next);
    UndoneGrows(k.c, w0, w0, slot, fp);
    probes' := probes;
    op := Op(path, None, None, None, false, None, Plain, false, k.w.next);
    if Nameless(path) {
      op := op.(fail := true);
      return;
    }
    if k.c.settings.parents {
      var made := k.Works();
      if !made {
        op := op.(fail := true);
        return;
      }
    }
    if IsPlain(k.c.settings) {
      op := BuildPlain(k, op, slot, fp);
      return;
    }
    if HasContent(k.c.settings) && !k.c.settings.force {
      var st, _ := k.Look(path);
      if st == Ok {
        op := op.(fail := true);
        return;
      }
    }
    op, probes' := BuildHidden(k, op, slot, probes, fp);
  }

  /** Any other file is opened without its name, and filled. */
  method BuildHidden(k: Machine, op: Op, slot: nat, probes: seq<ProbeEntry>, ghost fp: Zone) returns (op': Op, probes': seq<ProbeEntry>)
    requires k.Valid() && Steady(k.c, k.w) && op.path in k.c.operands && op.path != [] && !IsPlain(k.c.settings)
    requires Dropped(k.c, k.w, op, slot) && !op.fail && !op.leftover
    requires |k.w.open| < k.c.batch && ProbesOK(k.c, probes)
    modifies k
    ensures op'.fail || op'.leftover ==> k.faults > old(k.faults)
    ensures k.Valid() && old(k.trace) <= k.trace && old(k.faults) <= k.faults && ProbesOK(k.c, probes') && op'.path == op.path
    ensures Built(k.c, k.w, op', slot, false) && Grows(k.c, old(k.w), k.w, slot, fp, op'.ino)
    ensures k.w.open <= old(k.w).open + (if op'.fd.Some? then {op'.ino} else {})
    ensures !op'.fail && !op'.leftover ==> k.w.left == old(k.w).left
  {
    hide PointOK, ConfigOK, Tied, Went, KindsOK, Steady, Frame, IsTemp, Dir, Granted, Finished, Begun, ProbesOK;
    ghost var w0 := k.w;
    var granted;
    op', granted, probes' := OpenBuilt(k, op, slot, probes, fp);
    if !op'.fail {
      ghost var w1 := k.w;
      ghost var n := op'.ino;
      op' := FinishBuilt(k, op', slot, granted, fp);
      FrameTrans(k.c, w0, w1, k.w, slot, fp, n);
    }
  }

  method BuildPlain(k: Machine, op: Op, slot: nat, ghost fp: Zone) returns (op': Op)
    requires k.Valid() && Steady(k.c, k.w) && op.path in k.c.operands && op.path != [] && IsPlain(k.c.settings)
    requires Dropped(k.c, k.w, op, slot) && !op.fail && !op.leftover && op.way == Plain && op.ino == k.w.next
    requires |k.w.open| < k.c.batch && (fp == Own(op.path) || op.path in k.w.names)
    modifies k
    ensures op'.fail ==> k.faults > old(k.faults) || op.path in old(k.w).names
    ensures !op'.leftover
    ensures !op'.fail ==> op.path !in old(k.w).names
    ensures k.Valid() && old(k.trace) <= k.trace && old(k.faults) <= k.faults && op'.path == op.path && op'.ino == op.ino
    ensures Built(k.c, k.w, op', slot, false) && Grows(k.c, old(k.w), k.w, slot, fp, op.ino)
    ensures k.w.open <= old(k.w).open + (if op'.fd.Some? then {op.ino} else {})
    ensures !op'.fail ==> k.w.left == old(k.w).left
  {
    hide PointOK, ConfigOK, Tied, Went, KindsOK, Steady, Frame, IsTemp, Dir, Granted, Finished, Creatable, Outside;
    ghost var w0 := k.w;
    PlainCreatable(k.c, op.path);
    var r, n := PlaceCreate(k, op.path, k.c.settings.mode, slot, k.w.next);
    if r == Ok {
      op' := op.(fd := Some(n));
      PlainBuilt(k.c, w0, op, slot);
      OwnNotOutside(Own(op.path));
      ArmedWFrame(k.c, w0, op.path, MakeOpen(Role.Build, k.c.settings.mode), slot, Own(op.path), w0.next);
    } else {
      op' := op.(fail := true);
      FrameRefl(k.c, w0, slot, fp, op.ino);
    }
  }
}
