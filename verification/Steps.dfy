/** The effect of each system call that succeeds, and of each change of the
    pending table and the signal mask; and what each needs to keep a point safe. */
module Steps {
  import opened Names
  import opened Spec
  import opened World

  /* ----- effects ----- */

  function CreateW(c: Config, w: World, q: Path, role: Role, m: Mode): World {
    w.(names := w.names[q := w.next],
       files := w.files[w.next := File(role, Regular, [], c.me, Granted(c, Dir(q), m), false)],
       next := w.next + 1,
       open := w.open + {w.next},
       logs := Logged(w, Id(c, q), Bind(q, w.next)),
       anchored := w.anchored - {q},
       shown := ShownBy(w, w.next, q),
       again := AgainBy(c, w, q))
  }

  /** n is given the name q. */
  function ShownBy(w: World, n: Ino, q: Path): set<Ino> {
    if IsTemp(q) then w.shown else w.shown + {n}
  }

  /** The free name q is given. */
  function AgainBy(c: Config, w: World, q: Path): set<Path> {
    if IsTemp(q) && Used(c, w, q) then w.again + {q} else w.again
  }

  /** A file without a name, in dir. */
  function TmpfileW(c: Config, w: World, dir: string, m: Mode): World {
    w.(files := w.files[w.next := File(Build, Regular, [], c.me, Granted(c, dir, m), false)],
       next := w.next + 1,
       open := w.open + {w.next})
  }

  function LinkW(c: Config, w: World, n: Ino, q: Path): World {
    w.(names := w.names[q := n],
       logs := Logged(w, Id(c, q), Bind(q, n)),
       anchored := w.anchored - {q},
       shown := ShownBy(w, n, q),
       again := AgainBy(c, w, q))
  }

  function UnlinkW(c: Config, w: World, q: Path): World {
    w.(names := w.names - {q},
       logs := Logged(w, Id(c, q), Unbind(q)),
       anchored := w.anchored - {q})
  }

  /** Renaming one link of a file to another does nothing. */
  function MoveW(c: Config, w: World, s: Path, t: Path): World
    requires s in w.names
  {
    if t in w.names && w.names[t] == w.names[s] then w
    else
      w.(names := (w.names - {s})[t := w.names[s]],
         logs := Logged(w, Id(c, t), Move(s, t)),
         anchored := w.anchored - {s, t},
         shown := ShownBy(w, w.names[s], t))
  }

  /** Exchange s and p; b is the backup p was given. */
  function SwapW(c: Config, w: World, s: Path, p: Path, b: Path): World
    requires s in w.names && p in w.names
  {
    w.(names := w.names[s := w.names[p]][p := w.names[s]],
       logs := Logged(w, Id(c, p), Swap(s, p)),
       anchored := w.anchored - {s, p},
       swapped := w.swapped[s := p],
       shown := ShownBy(w, w.names[s], p),
       guard := map x | x in w.guard :: Reswapped(w.guard[x], s, p, b, |LogOf(w, Id(c, p))|))
  }

  /** What was safe at p is safe at p or s, and live at b, once they are exchanged. */
  function Reswapped(g: Guard, s: Path, p: Path, b: Path, k: nat): Guard {
    match g
    case At(q) => if q == p then Swapped(p, s, b, k) else g
    case Swapped(q, s', b', k') => if b' == p then Swapped(q, s', b, k') else g
    case Flushed(s', b') => if b' == p then Swapped(p, s, b, k) else g
  }

  function FileW(w: World, n: Ino, f: File): World { w.(files := w.files[n := f]) }

  function FsyncW(w: World, n: Ino): World
    requires n in w.files
  {
    w.(files := w.files[n := w.files[n].(synced := true)],
       anchored := w.anchored + set q | q in w.names && w.names[q] == n)
  }

  function CloseW(w: World, n: Ino): World { w.(open := w.open - {n}) }

  function FsyncDirW(c: Config, w: World, id: DirId): World {
    w.(disk := map q | q in w.names.Keys + w.disk.Keys && (if Id(c, q) == id then q in w.names else q in w.disk) ::
                 if Id(c, q) == id then w.names[q] else w.disk[q],
       logs := w.logs[id := []],
       guard := map p | p in w.guard :: FlushedGuard(c, w.guard[p], id))
  }

  function FlushedGuard(c: Config, g: Guard, id: DirId): Guard {
    if g.Swapped? && Id(c, g.path) == id then Flushed(g.spare, g.backup) else g
  }

  function DirFdW(w: World, n: nat): World { w.(dirFds := n) }

  function ArmW(w: World, s: nat, q: Path, n: Ino): World
    requires s < |w.slots|
  {
    w.(slots := w.slots[s := Armed(q, n)])
  }

  function ClearW(w: World, s: nat): World
    requires s < |w.slots|
  {
    w.(slots := w.slots[s := Clear])
  }

  function BlockW(w: World, b: bool): World { w.(blocked := b) }

  /* ----- what a step must not touch ----- */

  ghost predicate Unprotected(w: World, q: Path) {
    forall p :: p in w.guard ==> !GuardUses(w.guard[p], q)
  }

  /** No exchange of p with another name waits to be flushed. */
  ghost predicate NoSwapAt(w: World, p: Path) {
    forall x :: x in w.guard && w.guard[x].Swapped? ==> w.guard[x].path != p
  }

  /** A change of one directory that touches only what op says. */
  ghost predicate NameStep(c: Config, w: World, w': World, id: DirId, op: NameOp) {
    && w'.disk == w.disk && w'.logs == Logged(w, id, op)
    && (forall q :: !Writes(op, q) && q in w.names ==> q in w'.names && w'.names[q] == w.names[q])
  }

  lemma FreeIsUnprotected(c: Config, w: World, q: Path)
    requires Guarded(c) && CrashOK(c, w) && q !in w.names
    ensures Unprotected(w, q)
  {
    hide Guarded, GuardNames, DiskOK;
    forall p | p in w.guard ensures !GuardUses(w.guard[p], q) {
      assert GuardAt(c, w, p);
    }
  }

  lemma UntouchedGrows(log: seq<NameOp>, op: NameOp, q: Path)
    requires Untouched(log, q) && !Writes(op, q)
    ensures Untouched(log + [op], q)
  {}

  lemma NameStepSettled(c: Config, w: World, w': World, id: DirId, op: NameOp, q: Path, n: Ino)
    requires NameStep(c, w, w', id, op) && Settled(c, w, q, n) && !Writes(op, q)
    ensures Settled(c, w', q, n)
  {
    if c.flushes(Id(c, q)) { UntouchedGrows(LogOf(w, Id(c, q)), op, q); }
  }

  lemma NameStepGuard(c: Config, w: World, w': World, id: DirId, op: NameOp, n: Ino, g: Guard)
    requires NameStep(c, w, w', id, op) && GuardOK(c, w, n, g)
    requires forall q :: Writes(op, q) ==> !GuardUses(g, q)
    requires g.Swapped? && g.spare in w.swapped ==> g.spare in w'.swapped && w'.swapped[g.spare] == w.swapped[g.spare]
    ensures GuardOK(c, w', n, g)
  {
    match g
    case At(p) => NameStepSettled(c, w, w', id, op, p, n);
    case Flushed(_, b) => NameStepSettled(c, w, w', id, op, b, n);
    case Swapped(p, s, b, k) =>
      var log := LogOf(w, Id(c, p));
      if Id(c, p) == id && c.flushes(id) {
        assert (log + [op])[..k] == log[..k];
        assert (log + [op])[k + 1..] == log[k + 1..] + [op];
        UntouchedGrows(log[k + 1..], op, p);
        UntouchedGrows(log[k + 1..], op, s);
      }
  }

  lemma NameStepGuards(c: Config, w: World, w': World, id: DirId, op: NameOp)
    requires GuardsOK(c, w) && NameStep(c, w, w', id, op) && w'.guard == w.guard && w'.swapped == w.swapped
    requires Guarded(c) ==> forall q :: Writes(op, q) ==> Unprotected(w, q)
    ensures GuardsOK(c, w')
  {
    hide Guarded, NameStep, GuardNames, GuardOK, GuardUses;
    if Guarded(c) {
      forall p | p in w.guard ensures GuardAt(c, w', p) {
        assert GuardAt(c, w, p);
        NameStepGuard(c, w, w', id, op, c.init[p], w.guard[p]);
      }
    }
  }

  lemma SameNamesGuards(c: Config, w: World, w': World)
    requires GuardsOK(c, w)
    requires w'.names == w.names && w'.disk == w.disk && w'.logs == w.logs && w'.guard == w.guard && w'.swapped == w.swapped
    ensures GuardsOK(c, w')
  {
    hide Guarded, GuardOK, GuardNames;
    if Guarded(c) {
      forall p | p in w.guard ensures GuardAt(c, w', p) {
        assert GuardAt(c, w, p);
        GuardSame(c, w, w', c.init[p], w.guard[p]);
      }
    }
  }

  /** Nothing that a crash or the operands depend on changes. */
  lemma SameNamesCrash(c: Config, w: World, w': World)
    requires CrashOK(c, w)
    requires w'.names == w.names && w'.disk == w.disk && w'.logs == w.logs && w'.guard == w.guard && w'.swapped == w.swapped
    requires w'.files == w.files && w'.shown == w.shown && w'.again == w.again
    ensures CrashOK(c, w')
  {
    hide GuardsOK, DiskOK, MayShow;
    SameNamesGuards(c, w, w');
    forall q, n | MayShow(c, w, q, n) ensures MayShow(c, w', q, n) { SameShow(c, w, w', q, n); }
    DiskSame(c, w, w');
  }

  lemma SameShow(c: Config, w: World, w': World, q: Path, n: Ino)
    requires w'.files == w.files && w'.shown == w.shown
    ensures MayShow(c, w, q, n) == MayShow(c, w', q, n)
  {
    hide Dir, FileDone;
  }

  /** Only files change. */
  lemma FilesCrash(c: Config, w: World, w': World)
    requires CrashOK(c, w)
    requires w'.names == w.names && w'.disk == w.disk && w'.logs == w.logs && w'.guard == w.guard && w'.swapped == w.swapped
    requires w'.shown == w.shown && w'.again == w.again && (forall n :: n in w.files ==> n in w'.files)
    requires forall q, n :: MayShow(c, w, q, n) ==> MayShow(c, w', q, n)
    ensures CrashOK(c, w')
  {
    hide GuardsOK, DiskOK, MayShow;
    SameNamesGuards(c, w, w');
    DiskSame(c, w, w');
  }

  /* ----- what a crash shows ----- */

  /** A change of the log stays as sound as it was. */
  lemma EntryKept(c: Config, w: World, w': World, id: DirId, k: nat)
    requires k < |LogOf(w, id)| && EntryOK(c, w, id, k) && k < |LogOf(w', id)| && LogOf(w', id)[..k + 1] == LogOf(w, id)[..k + 1]
    requires forall q :: Id(c, q) == id ==> (q in w'.disk ==> q in w.disk && w'.disk[q] == w.disk[q])
    requires forall q, n :: MayShow(c, w, q, n) ==> MayShow(c, w', q, n)
    ensures EntryOK(c, w', id, k)
  {
    hide IsTemp, Dir, MayShow, NotInto;
    var log, log' := LogOf(w, id), LogOf(w', id);
    assert log'[k] == log'[..k + 1][k] == log[k];
    assert log'[..k] == log'[..k + 1][..k] == log[..k];
  }

  /** Nothing changes but files. */
  lemma DiskSame(c: Config, w: World, w': World)
    requires DiskOK(c, w)
    requires w'.names == w.names && w'.disk == w.disk && w'.logs == w.logs && w'.swapped == w.swapped
    requires w'.shown == w.shown && w'.again == w.again && (forall n :: n in w.files ==> n in w'.files)
    requires forall q, n :: MayShow(c, w, q, n) ==> MayShow(c, w', q, n)
    ensures DiskOK(c, w')
  {
    hide IsTemp, Dir, MayShow, EntryOK, Single;
    assert NamesKept(c, w') by {
      forall q | q in c.init ensures NameKept(c, w', q) {
        assert NameKept(c, w, q) && LogOf(w', Id(c, q)) == LogOf(w, Id(c, q));
      }
    }
    if w'.again == {} {
      forall s | s in w'.names && Single(c, w, s) ensures Single(c, w', s) { SingleSame(c, w, w', s); }
      forall id, k | 0 <= k < |LogOf(w', id)| ensures EntryOK(c, w', id, k) {
        assert EntryOK(c, w, id, k);
        EntryKept(c, w, w', id, k);
      }
    }
  }

  lemma SingleSame(c: Config, w: World, w': World, s: Path)
    requires s in w.names && Single(c, w, s) && w'.names == w.names && w'.disk == w.disk && w'.logs == w.logs
    ensures Single(c, w', s)
  {
    hide Dir;
  }

  /** One change is made of names. */
  ghost predicate DiskStep(c: Config, w: World, w': World, id: DirId, op: NameOp) {
    && w'.disk == w.disk && w'.logs == Logged(w, id, op)
    && (forall n :: n in w.files ==> n in w'.files && w'.files[n] == w.files[n])
    && w.shown <= w'.shown && w.again <= w'.again
    && (forall q :: q in w'.names && !Writes(op, q) ==> q in w.names && w'.names[q] == w.names[q])
    && (forall q :: q in w.swapped ==> q in w'.swapped)
  }

  lemma StepShow(c: Config, w: World, w': World, id: DirId, op: NameOp, q: Path, n: Ino)
    requires DiskStep(c, w, w', id, op) && MayShow(c, w, q, n)
    ensures MayShow(c, w', q, n)
  {
    hide Dir, FileDone;
  }

  lemma LoggedLog(c: Config, w: World, w': World, id: DirId, op: NameOp, id': DirId)
    requires w'.logs == Logged(w, id, op)
    ensures LogOf(w', id') == if id' == id then LogOf(w, id) + [op] else LogOf(w, id')
  {}

  lemma NamesKeptStep(c: Config, w: World, w': World, id: DirId, op: NameOp)
    requires NamesKept(c, w) && DiskStep(c, w, w', id, op)
    requires forall q :: Writes(op, q) && q in c.init ==> Replaceable(c, q) && !Removes(op, q)
    ensures NamesKept(c, w')
  {
    hide Dir, Replaceable;
    forall q | q in c.init ensures NameKept(c, w', q) {
      assert NameKept(c, w, q);
      LoggedLog(c, w, w', id, op, Id(c, q));
      if !Writes(op, q) && Id(c, q) == id && !Replaceable(c, q) { UntouchedGrows(LogOf(w, id), op, q); }
    }
  }

  /** A temporary name that the change does not write holds what it held. */
  lemma SingleStep(c: Config, w: World, w': World, id: DirId, op: NameOp, s: Path)
    requires DiskStep(c, w, w', id, op) && s in w.names && s in w'.names && w'.names[s] == w.names[s] && Single(c, w, s) && !Writes(op, s)
    ensures Single(c, w', s)
  {
    hide Dir;
    LoggedLog(c, w, w', id, op, Id(c, s));
    var log, log' := LogOf(w, Id(c, s)), LogOf(w', Id(c, s));
    forall j | 0 <= j < |log'| ensures !Into(log'[j], s) {
      if j < |log| { assert log'[j] == log[j]; }
    }
    forall n | Bind(s, n) in log' ensures Bind(s, n) in log {
      var j :| 0 <= j < |log'| && log'[j] == Bind(s, n);
      assert log[j] == Bind(s, n);
    }
    assert NotInto(log', s);
    assert forall n :: Held(w'.disk, log', s, n) ==> Held(w.disk, log, s, n);
  }

  /** The rest of the log is as sound as before; op is judged by itself. */
  lemma LogSoundStep(c: Config, w: World, w': World, id: DirId, op: NameOp)
    requires LogSound(c, w) && DiskStep(c, w, w', id, op)
    requires forall q :: Writes(op, q) && q in w'.names && !IsTemp(q) ==> MayShow(c, w', q, w'.names[q])
    requires EntryOK(c, w', id, |LogOf(w, id)|)
    requires forall q :: Writes(op, q) && q in w'.names && IsTemp(q) && q !in c.init && q !in w'.swapped ==> Single(c, w', q)
    ensures LogSound(c, w')
  {
    hide Dir, IsTemp, EntryOK, Single, MayShow;
    hide DiskStep;
    forall q, n | MayShow(c, w, q, n) ensures MayShow(c, w', q, n) { StepShow(c, w, w', id, op, q, n); }
    forall i, k | 0 <= k < |LogOf(w', i)| ensures EntryOK(c, w', i, k) {
      LogEntry(c, w, w', id, op, i, k);
    }
    StepNames(c, w, w', id, op);
    forall s | s in w'.names && IsTemp(s) && s !in c.init && s !in w'.swapped ensures Single(c, w', s) {
      if !Writes(op, s) { SingleStep(c, w, w', id, op, s); }
    }
  }

  lemma StepNames(c: Config, w: World, w': World, id: DirId, op: NameOp)
    requires DiskStep(c, w, w', id, op)
    ensures w'.disk == w.disk
    ensures forall q :: q in w'.names && !Writes(op, q) ==> q in w.names && w'.names[q] == w.names[q]
    ensures forall q :: q in w.swapped ==> q in w'.swapped
  {}

  lemma LogEntry(c: Config, w: World, w': World, id: DirId, op: NameOp, i: DirId, k: nat)
    requires LogSound(c, w) && DiskStep(c, w, w', id, op) && k < |LogOf(w', i)|
    requires EntryOK(c, w', id, |LogOf(w, id)|)
    requires forall q, n :: MayShow(c, w, q, n) ==> MayShow(c, w', q, n)
    ensures EntryOK(c, w', i, k)
  {
    hide Dir, IsTemp, EntryOK, Single, MayShow;
    LoggedLog(c, w, w', id, op, i);
    if k < |LogOf(w, i)| {
      assert EntryOK(c, w, i, k);
      assert LogOf(w', i)[..k + 1] == LogOf(w, i)[..k + 1];
      EntryKept(c, w, w', i, k);
    }
  }

  /** A free name is bound. */
  lemma DiskBind(c: Config, w: World, w': World, q: Path, n: Ino)
    requires DiskOK(c, w) && q !in w.names && q !in c.init && DiskStep(c, w, w', Id(c, q), Bind(q, n))
    requires q in w'.names && w'.names[q] == n && n in w'.files && (IsTemp(q) || MayShow(c, w', q, n))
    requires w'.shown <= w.shown + {n} && w'.again == AgainBy(c, w, q) && w'.swapped == w.swapped
    ensures DiskOK(c, w')
  {
    hide Dir, IsTemp, MayShow, LogSound, DiskStep, Replaceable, Used;
    NamesKeptStep(c, w, w', Id(c, q), Bind(q, n));
    if w'.again == {} {
      BoundEntry(c, w, w', q, n);
      LogSoundStep(c, w, w', Id(c, q), Bind(q, n));
    }
    assert forall m :: m in w.files ==> m in w'.files by { assert DiskStep(c, w, w', Id(c, q), Bind(q, n)); StepFiles(c, w, w', Id(c, q), Bind(q, n)); }
  }

  lemma StepFiles(c: Config, w: World, w': World, id: DirId, op: NameOp)
    requires DiskStep(c, w, w', id, op)
    ensures forall n :: n in w.files ==> n in w'.files
  {}

  lemma BoundEntry(c: Config, w: World, w': World, q: Path, n: Ino)
    requires DiskStep(c, w, w', Id(c, q), Bind(q, n)) && q in w'.names && w'.names[q] == n
    requires IsTemp(q) || MayShow(c, w', q, n)
    requires w'.swapped == w.swapped && !(IsTemp(q) && Used(c, w, q))
    ensures |LogOf(w, Id(c, q))| < |LogOf(w', Id(c, q))| && EntryOK(c, w', Id(c, q), |LogOf(w, Id(c, q))|)
    ensures IsTemp(q) ==> Single(c, w', q)
  {
    hide Dir, IsTemp, MayShow;
    LoggedLog(c, w, w', Id(c, q), Bind(q, n), Id(c, q));
    if IsTemp(q) {
      assert !Mentions(LogOf(w, Id(c, q)), q);
      forall j | 0 <= j < |LogOf(w, Id(c, q))| ensures !Writes(LogOf(w, Id(c, q))[j], q) {}
    }
  }

  lemma DiskUnlink(c: Config, w: World, q: Path)
    requires DiskOK(c, w) && q !in c.init
    ensures DiskOK(c, UnlinkW(c, w, q))
  {
    hide Dir, IsTemp, MayShow, LogSound, Replaceable;
    var w' := UnlinkW(c, w, q);
    NamesKeptStep(c, w, w', Id(c, q), Unbind(q));
    if w'.again == {} {
      LoggedLog(c, w, w', Id(c, q), Unbind(q), Id(c, q));
      LogSoundStep(c, w, w', Id(c, q), Unbind(q));
    }
  }

  /** The name was not exchanged, or is one that was made again. */
  predicate FirstUse(w: World, s: Path) { s !in w.swapped || w.again != {} }

  /** The file that s holds alone is given the name t. */
  lemma FedBy(c: Config, w: World, w': World, s: Path, t: Path)
    requires LogSound(c, w) && w.again == {} && FirstUse(w, s) && s in w.names && s !in c.init && IsTemp(s) && !IsTemp(t)
    requires w'.disk == w.disk && MayShow(c, w', t, w.names[s])
    ensures Fed(c, w', LogOf(w, Id(c, s)), s, t)
  {
    hide Dir, IsTemp, MayShow, NotInto, EntryOK;
    assert Single(c, w, s);
  }

  lemma DiskMove(c: Config, w: World, s: Path, t: Path)
    requires DiskOK(c, w) && s in w.names && s !in c.init && (t in c.init ==> Replaceable(c, t))
    requires IsTemp(s) && !IsTemp(t) && Id(c, s) == Id(c, t) && FirstUse(w, s) && w.names[s] in w.files
    requires MayShow(c, MoveW(c, w, s, t), t, w.names[s])
    ensures DiskOK(c, MoveW(c, w, s, t))
  {
    hide Dir, IsTemp, MayShow, LogSound, Replaceable;
    var w' := MoveW(c, w, s, t);
    if w' != w && !(t in w.names && w.names[t] == w.names[s]) {
      NamesKeptStep(c, w, w', Id(c, t), Move(s, t));
      if w'.again == {} {
        LoggedLog(c, w, w', Id(c, t), Move(s, t), Id(c, t));
        FedBy(c, w, w', s, t);
        LastEntry(c, w, w', Id(c, t), Move(s, t));
        LogSoundStep(c, w, w', Id(c, t), Move(s, t));
      }
    }
  }

  lemma LastEntry(c: Config, w: World, w': World, id: DirId, op: NameOp)
    requires w'.logs == Logged(w, id, op)
    requires match op
             case Move(s, t) => Id(c, s) == id && Fed(c, w', LogOf(w, id), s, t)
             case Swap(s, t) => Id(c, s) == id && Fed(c, w', LogOf(w, id), s, t)
             case _ => false
    ensures |LogOf(w, id)| < |LogOf(w', id)| && EntryOK(c, w', id, |LogOf(w, id)|)
  {
    hide Dir, IsTemp, Fed;
    LoggedLog(c, w, w', id, op, id);
    assert LogOf(w', id)[..|LogOf(w, id)|] == LogOf(w, id);
  }

  lemma DiskSwap(c: Config, w: World, s: Path, p: Path, b: Path)
    requires DiskOK(c, w) && s in w.names && p in w.names && s != p && s !in c.init && Replaceable(c, p)
    requires IsTemp(s) && !IsTemp(p) && Id(c, s) == Id(c, p) && FirstUse(w, s) && w.names[s] in w.files
    requires MayShow(c, SwapW(c, w, s, p, b), p, w.names[s])
    ensures DiskOK(c, SwapW(c, w, s, p, b))
  {
    hide Dir, IsTemp, MayShow, LogSound, Replaceable, Reswapped;
    var w' := SwapW(c, w, s, p, b);
    NamesKeptStep(c, w, w', Id(c, p), Swap(s, p));
    if w'.again == {} {
      LoggedLog(c, w, w', Id(c, p), Swap(s, p), Id(c, p));
      FedBy(c, w, w', s, p);
      LastEntry(c, w, w', Id(c, p), Swap(s, p));
      LogSoundStep(c, w, w', Id(c, p), Swap(s, p));
    }
  }

  lemma DiskFsync(c: Config, w: World, id: DirId)
    requires DiskOK(c, w) && Unclobbered(c, w)
    ensures DiskOK(c, FsyncDirW(c, w, id))
  {
    hide Dir, IsTemp, MayShow, LogSound, Replaceable, FlushedGuard;
    var w' := FsyncDirW(c, w, id);
    assert NamesKept(c, w') by {
      forall q | q in c.init ensures NameKept(c, w', q) {
        assert NameKept(c, w, q) && q in w.names;
        assert LogOf(w', Id(c, q)) == if Id(c, q) == id then [] else LogOf(w, Id(c, q));
      }
    }
    if w'.again == {} { FsyncSound(c, w, id); }
  }

  lemma FsyncSound(c: Config, w: World, id: DirId)
    requires LogSound(c, w)
    ensures LogSound(c, FsyncDirW(c, w, id))
  {
    hide Dir, IsTemp, MayShow, EntryOK, Single, FlushedGuard;
    var w' := FsyncDirW(c, w, id);
    forall q, n | MayShow(c, w, q, n) ensures MayShow(c, w', q, n) { SameShow(c, w, w', q, n); }
    forall i, k | 0 <= k < |LogOf(w', i)| ensures EntryOK(c, w', i, k) {
      assert i != id && LogOf(w', i) == LogOf(w, i);
      assert EntryOK(c, w, i, k);
      EntryKept(c, w, w', i, k);
    }
    forall s | s in w'.names && IsTemp(s) && s !in c.init && s !in w'.swapped ensures Single(c, w', s) {
      assert Single(c, w, s);
      FsyncSingle(c, w, id, s);
    }
  }

  lemma FsyncSingle(c: Config, w: World, id: DirId, s: Path)
    requires s in w.names && Single(c, w, s)
    ensures Single(c, FsyncDirW(c, w, id), s)
  {
    hide Dir, FlushedGuard;
    var w' := FsyncDirW(c, w, id);
    assert LogOf(w', Id(c, s)) == if Id(c, s) == id then [] else LogOf(w, Id(c, s));
    if Id(c, s) != id {
      assert forall n :: Held(w'.disk, LogOf(w', Id(c, s)), s, n) ==> Held(w.disk, LogOf(w, Id(c, s)), s, n);
    }
  }

  /* ----- new names ----- */

  lemma PrivateGranted(c: Config, dir: string)
    requires ConfigOK(c)
    ensures IsPrivate(Granted(c, dir, PRIVATE))
  {}

  lemma CreateWellFormed(c: Config, w: World, q: Path, role: Role, m: Mode)
    requires WellFormed(c, w) && q !in w.names && (role == Placeholder ==> !c.settings.force)
    ensures WellFormed(c, CreateW(c, w, q, role, m))
  {
    hide Dir, Granted, SlotOwn, IsTemp, Replaceable;
    SlotsKept(c, w, CreateW(c, w, q, role, m));
  }

  lemma CreatePublish(c: Config, w: World, q: Path, role: Role, m: Mode)
    requires ConfigOK(c) && PublishOK(c, w) && WellFormed(c, w) && w.blocked && q !in w.names
    requires
      || (IsTemp(q) && (role == Probe || m == PRIVATE))
      || role == Placeholder
      || PublicDone(c, File(role, Regular, [], c.me, Granted(c, Dir(q), m), false), Dir(q))
    ensures PublishOK(c, CreateW(c, w, q, role, m))
  {
    hide Dir, IsTemp, Granted, FileDone, FilledAndOwned, IsPrivate;
    PrivateGranted(c, Dir(q));
    var w' := CreateW(c, w, q, role, m);
    forall p | p in w'.names && w'.names[p] in w'.files ensures Presentable(c, w', p) {
      if p != q { assert Presentable(c, w, p); }
    }
  }

  lemma CreateCrash(c: Config, w: World, q: Path, role: Role, m: Mode)
    requires WellFormed(c, w) && CrashOK(c, w) && q !in w.names
    requires IsTemp(q) || role == Placeholder || PublicDone(c, File(role, Regular, [], c.me, Granted(c, Dir(q), m), false), Dir(q))
    ensures CrashOK(c, CreateW(c, w, q, role, m))
  {
    hide Guarded, GuardsOK, DiskOK, Dir, AgainBy, ShownBy, WellFormed, IsTemp, FileDone;
    if Guarded(c) { FreeIsUnprotected(c, w, q); }
    NameStepGuards(c, w, CreateW(c, w, q, role, m), Id(c, q), Bind(q, w.next));
    CreateDisk(c, w, q, role, m);
  }

  lemma CreateDisk(c: Config, w: World, q: Path, role: Role, m: Mode)
    requires WellFormed(c, w) && DiskOK(c, w) && q !in w.names
    requires IsTemp(q) || role == Placeholder || PublicDone(c, File(role, Regular, [], c.me, Granted(c, Dir(q), m), false), Dir(q))
    ensures DiskOK(c, CreateW(c, w, q, role, m))
  {
    hide DiskOK, Dir, Used, IsTemp, FileDone, SlotOwn, SlotBeside, Granted, Replaceable;
    DiskBind(c, w, CreateW(c, w, q, role, m), q, w.next);
  }

  /** The same file but for having been flushed since. */
  predicate SameUse(f: File, f': File) { f'.(synced := f.synced) == f && (f.synced ==> f'.synced) }

  /** The name q holds the same file. */
  predicate SameAt(w: World, w': World, q: Path) {
    && q in w.names && q in w'.names && w'.names[q] == w.names[q]
    && w.names[q] in w.files && w.names[q] in w'.files
    && SameUse(w.files[w.names[q]], w'.files[w.names[q]])
  }

  /** What is on record stays there. */
  predicate RecordKept(w: World, w': World) {
    w.refused <= w'.refused && w.flushFailed <= w'.flushFailed && w.unstat <= w'.unstat && w.again <= w'.again
  }

  lemma UnflushedStays(w: World, w': World, id: DirId)
    requires RecordKept(w, w') && Unflushed(w, id)
    ensures Unflushed(w', id)
  {
    if id in w.flushFailed {
      var i :| 0 <= i < |w.flushFailed| && w.flushFailed[i] == id;
      assert w'.flushFailed[i] == id;
    }
  }

  /** Names that a backup replaced are still there. */
  lemma HistoryKept(c: Config, w: World, w': World)
    requires HistoryOK(c, w) && w'.left == w.left && w'.taken == w.taken && w'.committed == w.committed && w'.swapped == w.swapped
    requires RecordKept(w, w') && BackupsOK(c, w')
    requires forall q :: q in w.taken && q in w.names ==> q in w'.names
    ensures HistoryOK(c, w')
  {
    hide Separate, IsTemp, Dir, BackupsOK, RecordKept, Unflushed;
    forall q | q in w'.left ensures q in w'.refused || SpareKept(c, w', q) {
      if q !in w.refused { UnflushedStays(w, w', Id(c, q)); }
      assert w.refused <= w'.refused by { RecordParts(w, w'); }
    }
  }

  lemma RecordParts(w: World, w': World)
    requires RecordKept(w, w')
    ensures w.refused <= w'.refused
  {}

  /** If q is the backup name of an operand, n is that operand's old file. */
  ghost predicate Givable(c: Config, n: Ino, q: Path) {
    Separate(c) && BackupOn(c.settings) ==>
      forall p :: p in c.operands && BackupName(c, p, q) ==> p in c.init && c.init[p] == n
  }

  /** An operand that was given its file is not touched where operands are apart. */
  ghost predicate Uncommitted(c: Config, w: World, q: Path) {
    Separate(c) && BackupOn(c.settings) ==> q !in w.committed
  }

  lemma TempGivable(c: Config, n: Ino, q: Path)
    requires IsTemp(q)
    ensures Givable(c, n, q)
  {
    hide Separate, BackupName;
    forall p | BackupName(c, p, q) ensures false { BackupNameFacts(c, p, q); }
  }

  lemma FreeUncommitted(c: Config, w: World, q: Path)
    requires BackupsOK(c, w) && q !in w.names
    ensures Uncommitted(c, w, q)
  {
    hide Separate, FileDone;
  }

  /** The same operands hold finished files; any new name may have what it has. */
  lemma BackupsKept(c: Config, w: World, w': World)
    requires BackupsOK(c, w) && w'.committed == w.committed
    requires forall p :: p in w.committed && Done(c, w, p) && Separate(c) && BackupOn(c.settings) ==> Done(c, w', p)
    requires forall q :: q in w'.names ==> (q in w.names && w'.names[q] == w.names[q]) || Givable(c, w'.names[q], q)
    ensures BackupsOK(c, w')
  {
    hide Separate, Done, BackupName;
    if Separate(c) && BackupOn(c.settings) {
      forall p, q | p in c.operands && q in w'.names && BackupName(c, p, q) ensures BackupOld(c, w', p, q) {
        if q in w.names && w'.names[q] == w.names[q] { assert BackupOld(c, w, p, q); }
      }
    }
  }

  lemma BackupsSame(c: Config, w: World, w': World)
    requires BackupsOK(c, w) && w'.committed == w.committed && w'.names == w.names && w'.files == w.files
    ensures BackupsOK(c, w')
  {
    hide Separate, BackupName, FileDone, Givable;
    BackupsKept(c, w, w');
  }

  /** Names change that no committed operand has. */
  lemma BackupsRebound(c: Config, w: World, w': World)
    requires BackupsOK(c, w) && w'.committed == w.committed
    requires forall n :: n in w.files ==> n in w'.files && w'.files[n] == w.files[n]
    requires forall q :: q in w.names && !(q in w'.names && w'.names[q] == w.names[q]) ==> Uncommitted(c, w, q)
    requires forall q :: q in w'.names ==> (q in w.names && w'.names[q] == w.names[q]) || Givable(c, w'.names[q], q)
    ensures BackupsOK(c, w')
  {
    hide Separate, BackupName, FileDone, Givable, Dir;
    BackupsKept(c, w, w');
  }

  /** Slots name the same kind of files. */
  lemma SlotsKept(c: Config, w: World, w': World)
    requires w'.slots == w.slots
    requires forall n :: n in w.files ==> n in w'.files && w'.files[n].role == w.files[n].role
    ensures NoSpareArmed(w.slots, w.files) ==> NoSpareArmed(w'.slots, w'.files)
    ensures forall n :: SlotOwn(c, w.files, n) ==> SlotOwn(c, w'.files, n)
  {
    hide Separate, OldOf;
  }

  lemma CreateHistory(c: Config, w: World, q: Path, role: Role, m: Mode)
    requires ConfigOK(c) && WellFormed(c, w) && HistoryOK(c, w) && q !in w.names && (role == Placeholder ==> !c.settings.force)
    requires
      || (IsTemp(q) && (role == Probe || m == PRIVATE))
      || role == Placeholder
      || PublicDone(c, File(role, Regular, [], c.me, Granted(c, Dir(q), m), false), Dir(q))
    ensures HistoryOK(c, CreateW(c, w, q, role, m))
  {
    hide FileDone, IsTemp, Dir, Granted, Separate, Givable, SlotOwn, BackupsOK, Unclobbered, SlotBeside;
    assert Givable(c, w.next, q) by { if IsTemp(q) { TempGivable(c, w.next, q); } else { NoBackupGivable(c, w.next, q); } }
    BackupsRebound(c, w, CreateW(c, w, q, role, m));
    HistoryKept(c, w, CreateW(c, w, q, role, m));
  }

  lemma NoBackupGivable(c: Config, n: Ino, q: Path)
    requires !c.settings.force
    ensures Givable(c, n, q)
  {
    hide Separate;
  }

  lemma CreatePoint(c: Config, w: World, q: Path, role: Role, m: Mode)
    requires ConfigOK(c) && PointOK(c, w) && w.blocked && q !in w.names
    requires |w.open| <= c.batch && (role == Placeholder ==> !c.settings.force)
    requires
      || (IsTemp(q) && (role == Probe || m == PRIVATE))
      || role == Placeholder
      || PublicDone(c, File(role, Regular, [], c.me, Granted(c, Dir(q), m), false), Dir(q))
    ensures PointOK(c, CreateW(c, w, q, role, m))
  {
    hide PublishOK, CrashOK, FileDone, IsTemp, Dir, Granted, HistoryOK;
    CreateWellFormed(c, w, q, role, m);
    CreatePublish(c, w, q, role, m);
    CreateCrash(c, w, q, role, m);
    assert HistoryOK(c, CreateW(c, w, q, role, m)) by { CreateHistory(c, w, q, role, m); }
    assert |w.open + {w.next}| <= |w.open| + 1;
  }

  lemma TmpfileWellFormed(c: Config, w: World, dir: string, m: Mode)
    requires WellFormed(c, w)
    ensures WellFormed(c, TmpfileW(c, w, dir, m))
  {
    hide SlotOwn, IsTemp, Granted, Replaceable;
    SlotsKept(c, w, TmpfileW(c, w, dir, m));
  }

  lemma TmpfilePoint(c: Config, w: World, dir: string, m: Mode)
    requires PointOK(c, w) && |w.open| <= c.batch
    ensures PointOK(c, TmpfileW(c, w, dir, m))
    ensures Steady(c, w) ==> Steady(c, TmpfileW(c, w, dir, m))
  {
    hide Granted, CrashOK, Steady, SignalOK, PublishOK, HistoryOK, WellFormed;
    TmpfileWellFormed(c, w, dir, m);
    TmpfileFiles(c, w, dir, m);
    FilesPoint(c, w, TmpfileW(c, w, dir, m));
    assert |w.open + {w.next}| <= |w.open| + 1;
  }

  lemma TmpfileFiles(c: Config, w: World, dir: string, m: Mode)
    requires WellFormed(c, w)
    ensures
      var w' := TmpfileW(c, w, dir, m);
      && (forall q :: q in w.names && w.names[q] in w.files ==> SameAt(w, w', q))
      && (forall n :: n in w.files ==> n in w'.files && SameUse(w.files[n], w'.files[n]))
  {
    hide SlotOwn, IsTemp, Granted, Replaceable;
  }

  /** Accounts of names stay when neither names, slots nor finished files change. */
  lemma SameClass(c: Config, w: World, w': World)
    requires Classified(c, w)
    requires w'.names == w.names && w'.slots == w.slots
    requires forall q :: q in c.operands && Done(c, w, q) ==> Done(c, w', q)
    requires w.left <= w'.left && w.taken <= w'.taken && w.committed <= w'.committed
    ensures Classified(c, w')
  {
    forall q | q in w'.names ensures Accounted(c, w', q) {
      assert Accounted(c, w, q);
      if ArmedAt(w, q, w.names[q]) {
        assert ArmedAt(w', q, w'.names[q]);
      } else if p :| p in c.operands && BackupFor(c, w, p, q) {
        assert BackupFor(c, w', p, q);
      }
    }
  }

  /** Files are as they were, but may have been flushed. */
  lemma UseCrash(c: Config, w: World, w': World)
    requires CrashOK(c, w) && w'.(files := w.files, next := w.next, open := w.open, anchored := w.anchored) == w
    requires forall n :: n in w.files ==> n in w'.files && SameUse(w.files[n], w'.files[n])
    ensures CrashOK(c, w')
  {
    hide CrashOK, MayShow, SameUse;
    forall q, n | MayShow(c, w, q, n) ensures MayShow(c, w', q, n) {
      ShowFile(c, w, q, n);
      UseShow(c, w, w', q, n);
    }
    FilesCrash(c, w, w');
  }

  lemma ShowFile(c: Config, w: World, q: Path, n: Ino)
    requires MayShow(c, w, q, n)
    ensures n in w.files
  {}

  lemma UseShow(c: Config, w: World, w': World, q: Path, n: Ino)
    requires MayShow(c, w, q, n) && w'.shown == w.shown && n in w'.files && SameUse(w.files[n], w'.files[n])
    ensures MayShow(c, w', q, n)
  {
    hide Dir, Granted, Filled, FinalOwner, FinalMode;
  }

  lemma FilesHistory(c: Config, w: World, w': World)
    requires HistoryOK(c, w) && w'.(files := w.files, next := w.next, open := w.open, anchored := w.anchored) == w
    requires forall q :: q in w.names && w.names[q] in w.files ==> SameAt(w, w', q)
    ensures HistoryOK(c, w')
  {
    hide IsTemp, Dir, Granted, Filled, FinalOwner, FinalMode, Separate, BackupsOK, Givable;
    BackupsKept(c, w, w') by { HistoryBackups(c, w); }
    HistoryKept(c, w, w') by { assert RecordKept(w, w'); }
  }

  lemma HistoryBackups(c: Config, w: World)
    requires HistoryOK(c, w)
    ensures BackupsOK(c, w)
  {}

  /** Only files change, and none that has a name other than a temporary one. */
  lemma FilesPoint(c: Config, w: World, w': World)
    requires WellFormed(c, w) && SignalOK(c, w) && PublishOK(c, w) && CrashOK(c, w) && HistoryOK(c, w)
    requires w'.(files := w.files, next := w.next, open := w.open, anchored := w.anchored) == w
    requires forall q :: q in w.names && w.names[q] in w.files ==> SameAt(w, w', q)
    requires forall n :: n in w.files ==> n in w'.files && SameUse(w.files[n], w'.files[n])
    ensures SignalOK(c, w') && PublishOK(c, w') && CrashOK(c, w') && HistoryOK(c, w')
    ensures Steady(c, w) ==> Steady(c, w')
  {
    hide IsTemp, Dir, Granted, Filled, FinalOwner, FinalMode, Separate, Guarded, CrashOK, SlotsOK, NoSpareArmed, SlotOwn, HistoryOK;
    SlotsKept(c, w, w');
    assert CrashOK(c, w') by { UseCrash(c, w, w'); }
    assert HistoryOK(c, w') by { FilesHistory(c, w, w'); }
    if Classified(c, w) { SameClass(c, w, w'); }
    assert PublishOK(c, w') by {
      forall q | q in w'.names && w'.names[q] in w'.files ensures Presentable(c, w', q) {
        assert Presentable(c, w, q);
      }
    }
    assert SlotsOK(w) ==> SlotsOK(w') by { SameSlots(w, w'); }
  }

  lemma SameWellFormed(c: Config, w: World, w': World)
    requires WellFormed(c, w) && w'.names == w.names && w'.files == w.files && w'.slots == w.slots
    requires w'.open <= w.open && w'.next == w.next
    ensures WellFormed(c, w')
  {
    hide SlotOwn, Unclobbered, IsTemp;
    assert Unclobbered(c, w') by { SameUnclobbered(c, w, w'); }
  }

  lemma SameSlots(w: World, w': World)
    requires w'.names == w.names && w'.slots == w.slots
    ensures SlotsOK(w) == SlotsOK(w')
  {}

  /* ----- links and removals ----- */

  /** One name is bound or rebound to n and at most one other is removed. */
  lemma RebindPublish(c: Config, w: World, w': World, t: Path)
    requires PublishOK(c, w) && w'.files == w.files && w'.left == w.left && w'.blocked == w.blocked
    requires forall q :: q in w'.names && q != t ==> q in w.names && w'.names[q] == w.names[q]
    requires t in w'.names && w'.names[t] in w'.files ==> Presentable(c, w', t)
    ensures PublishOK(c, w')
  {
    hide IsTemp, Dir, FileDone, FilledAndOwned, IsPrivate;
    forall q | q in w'.names && w'.names[q] in w'.files ensures Presentable(c, w', q) {
      if q != t { assert Presentable(c, w, q); }
    }
  }

  lemma RebindClass(c: Config, w: World, w': World, t: Path)
    requires Classified(c, w) && w'.files == w.files && w'.slots == w.slots
    requires w'.left == w.left && w'.taken == w.taken && w'.committed == w.committed
    requires forall q :: q in w'.names && q != t ==> q in w.names && w'.names[q] == w.names[q]
    requires t in w'.names ==> Accounted(c, w', t)
    ensures Classified(c, w')
  {
    hide Dir, FileDone;
    forall q | q in w'.names ensures Accounted(c, w', q) {
      if q != t {
        assert Accounted(c, w, q);
        if ArmedAt(w, q, w.names[q]) {
          assert ArmedAt(w', q, w'.names[q]);
        } else if p :| p in c.operands && BackupFor(c, w, p, q) {
          assert BackupFor(c, w', p, q);
        }
      }
    }
  }

  lemma LinkPoint(c: Config, w: World, n: Ino, q: Path)
    requires PointOK(c, w) && q !in w.names && n in w.files && Givable(c, n, q)
    requires Presentable(c, LinkW(c, w, n, q), q)
    requires w.blocked || Accounted(c, LinkW(c, w, n, q), q)
    ensures PointOK(c, LinkW(c, w, n, q))
  {
    hide IsTemp, Dir, FileDone, CrashOK, Presentable, Accounted, Givable, HistoryOK, SlotBeside;
    var w' := LinkW(c, w, n, q);
    assert CrashOK(c, w') by { LinkCrash(c, w, n, q); }
    RebindPublish(c, w, w', q);
    assert HistoryOK(c, w') by { RebindHistory(c, w, w'); }
    if !w.blocked { RebindClass(c, w, w', q); }
  }

  /** Names change, and neither files nor what is on record. */
  lemma RebindHistory(c: Config, w: World, w': World)
    requires HistoryOK(c, w)
    requires w'.(names := w.names, logs := w.logs, anchored := w.anchored, shown := w.shown, again := w.again) == w && w.again <= w'.again
    requires forall q :: q in w.names && !(q in w'.names && w'.names[q] == w.names[q]) ==>
               Uncommitted(c, w, q) && (q in w.taken ==> q in w'.names)
    requires forall q :: q in w'.names ==> (q in w.names && w'.names[q] == w.names[q]) || Givable(c, w'.names[q], q)
    ensures HistoryOK(c, w')
  {
    hide IsTemp, Dir, Separate, BackupsOK, Givable, Uncommitted;
    BackupsRebound(c, w, w') by { HistoryBackups(c, w); }
    HistoryKept(c, w, w') by { assert RecordKept(w, w'); }
  }

  lemma LinkCrash(c: Config, w: World, n: Ino, q: Path)
    requires CrashOK(c, w) && q !in w.names && q !in c.init && n in w.files && Presentable(c, LinkW(c, w, n, q), q)
    ensures CrashOK(c, LinkW(c, w, n, q))
  {
    hide Guarded, GuardsOK, DiskOK, Dir, AgainBy, ShownBy, Presentable;
    if Guarded(c) { FreeIsUnprotected(c, w, q); }
    NameStepGuards(c, w, LinkW(c, w, n, q), Id(c, q), Bind(q, n));
    LinkDisk(c, w, n, q);
  }

  lemma LinkDisk(c: Config, w: World, n: Ino, q: Path)
    requires DiskOK(c, w) && q !in w.names && q !in c.init && n in w.files && Presentable(c, LinkW(c, w, n, q), q)
    ensures DiskOK(c, LinkW(c, w, n, q))
  {
    hide DiskOK, Dir, Used, IsTemp, FileDone, IsPrivate, FilledAndOwned, Replaceable;
    DiskBind(c, w, LinkW(c, w, n, q), q, n);
  }

  lemma UnlinkCrash(c: Config, w: World, q: Path)
    requires CrashOK(c, w) && (Guarded(c) ==> Unprotected(w, q)) && q !in c.init
    ensures CrashOK(c, UnlinkW(c, w, q))
  {
    hide Guarded, GuardsOK, DiskOK, Dir;
    NameStepGuards(c, w, UnlinkW(c, w, q), Id(c, q), Unbind(q));
    DiskUnlink(c, w, q);
  }

  lemma UnlinkPoint(c: Config, w: World, q: Path)
    requires PointOK(c, w) && q !in c.init && Uncommitted(c, w, q)
    requires Guarded(c) ==> Unprotected(w, q)
    requires q !in w.taken
    ensures PointOK(c, UnlinkW(c, w, q))
    ensures Classified(c, w) ==> Classified(c, UnlinkW(c, w, q))
  {
    hide IsTemp, Dir, FileDone, CrashOK, Presentable, Accounted, HistoryOK, Uncommitted, Givable, SlotBeside;
    var w' := UnlinkW(c, w, q);
    assert CrashOK(c, w') by { UnlinkCrash(c, w, q); }
    RebindPublish(c, w, w', q);
    assert HistoryOK(c, w') by { RebindHistory(c, w, w'); }
    if Classified(c, w) { RebindClass(c, w, w', q); }
  }

  /** A temporary name may be renamed to t. */
  ghost predicate Renamable(c: Config, w: World, s: Path, t: Path) {
    && s in w.names && w.names[s] in w.files && s !in c.init && (t in c.init ==> Replaceable(c, t))
    && IsTemp(s) && !IsTemp(t) && Id(c, s) == Id(c, t) && FirstUse(w, s)
  }

  lemma MoveCrash(c: Config, w: World, s: Path, t: Path)
    requires CrashOK(c, w) && Renamable(c, w, s, t) && Presentable(c, MoveW(c, w, s, t), t)
    requires Guarded(c) ==> Unprotected(w, s) && Unprotected(w, t)
    ensures CrashOK(c, MoveW(c, w, s, t))
  {
    hide Guarded, GuardsOK, DiskOK, Dir, ShownBy, FirstUse, IsTemp, Replaceable, Presentable;
    if !(t in w.names && w.names[t] == w.names[s]) {
      NameStepGuards(c, w, MoveW(c, w, s, t), Id(c, t), Move(s, t));
      MoveDisk(c, w, s, t);
    }
  }

  lemma MoveDisk(c: Config, w: World, s: Path, t: Path)
    requires DiskOK(c, w) && Renamable(c, w, s, t) && Presentable(c, MoveW(c, w, s, t), t)
    requires !(t in w.names && w.names[t] == w.names[s])
    ensures DiskOK(c, MoveW(c, w, s, t))
  {
    hide DiskOK, Dir, IsTemp, FileDone, IsPrivate, FilledAndOwned, Replaceable, FirstUse;
    DiskMove(c, w, s, t);
  }

  lemma MoveWell(c: Config, w: World, s: Path, t: Path)
    requires WellFormed(c, w) && s in w.names && s !in c.init && (t in c.init ==> Replaceable(c, t))
    ensures WellFormed(c, MoveW(c, w, s, t))
  {
    hide IsTemp, Dir, Replaceable, SlotBeside, SlotOwn;
  }

  lemma MovePoint(c: Config, w: World, s: Path, t: Path)
    requires PointOK(c, w) && Renamable(c, w, s, t)
    requires Guarded(c) ==> Unprotected(w, s) && Unprotected(w, t)
    requires Presentable(c, MoveW(c, w, s, t), t)
    requires w.blocked || Accounted(c, MoveW(c, w, s, t), t)
    requires s !in w.taken && Uncommitted(c, w, s) && Uncommitted(c, w, t) && Givable(c, w.names[s], t)
    ensures PointOK(c, MoveW(c, w, s, t))
    ensures Classified(c, w) && Accounted(c, MoveW(c, w, s, t), t) ==> Classified(c, MoveW(c, w, s, t))
  {
    hide IsTemp, Dir, FileDone, CrashOK, Presentable, Accounted, HistoryOK, Replaceable, Classified, Uncommitted, Givable, WellFormed, FirstUse, ShownBy;
    var w' := MoveW(c, w, s, t);
    if w' != w {
      assert WellFormed(c, w') by { MoveWell(c, w, s, t); }
      assert CrashOK(c, w') by { MoveCrash(c, w, s, t); }
      RebindPublish(c, w, w', t);
      if Classified(c, w) && Accounted(c, w', t) { RebindClass(c, w, w', t); }
      assert HistoryOK(c, w') by { RebindHistory(c, w, w'); }
    }
  }

  /* ----- the exchange ----- */

  /** A file that is safe at p is safe at p or s once they are exchanged. */
  lemma SwapSettled(c: Config, w: World, s: Path, p: Path, b: Path, n: Ino)
    requires s in w.names && p in w.names && s != p && Id(c, s) == Id(c, p) && Settled(c, w, p, n)
    requires b != s && b != p && b in w.names && w.names[b] == n
    ensures GuardOK(c, SwapW(c, w, s, p, b), n, Swapped(p, s, b, |LogOf(w, Id(c, p))|))
  {
    hide Dir, Reswapped;
    var log := LogOf(w, Id(c, p));
    assert (log + [Swap(s, p)])[..|log|] == log;
    assert (log + [Swap(s, p)])[|log| + 1..] == [];
  }

  lemma SwapElsewhere(c: Config, w: World, s: Path, p: Path, b: Path, n: Ino, g: Guard)
    requires s in w.names && p in w.names && s != p && Id(c, s) == Id(c, p)
    requires GuardOK(c, w, n, g) && !GuardUses(g, s) && !GuardUses(g, p)
    ensures GuardOK(c, SwapW(c, w, s, p, b), n, g)
  {
    hide Dir, Reswapped, GuardOK;
    NameStepGuard(c, w, SwapW(c, w, s, p, b), Id(c, p), Swap(s, p), n, g);
  }

  /** An earlier exchange waits to be flushed, and its backup is exchanged again. */
  lemma SwapAgain(c: Config, w: World, s: Path, p: Path, b: Path, n: Ino, g: Guard)
    requires s in w.names && p in w.names && s != p && Id(c, s) == Id(c, p)
    requires GuardOK(c, w, n, g) && g.Swapped? && g.backup == p && g.path != p && g.spare != p && !GuardUses(g, s)
    requires b != s && b != p && b in w.names && w.names[b] == n
    ensures GuardOK(c, SwapW(c, w, s, p, b), n, Swapped(g.path, g.spare, b, g.at))
  {
    hide Dir, Reswapped, Untouched;
    var w' := SwapW(c, w, s, p, b);
    if c.flushes(Id(c, g.path)) && Id(c, p) == Id(c, g.path) {
      var log, op := LogOf(w, Id(c, p)), Swap(s, p);
      assert (log + [op])[..g.at] == log[..g.at];
      assert (log + [op])[g.at + 1..] == log[g.at + 1..] + [op];
      UntouchedGrows(log[g.at + 1..], op, g.path);
      UntouchedGrows(log[g.at + 1..], op, g.spare);
    }
  }

  ghost predicate Exchangeable(c: Config, w: World, s: Path, p: Path, b: Path) {
    && s in w.names && p in w.names && s != p && Id(c, s) == Id(c, p) && p in c.operands
    && Spare(c, s) && BackupName(c, p, b) && b != s && b in w.names && w.names[b] == w.names[p]
    && (Guarded(c) ==> Unprotected(w, s) && NoSwapAt(w, p)) && FirstUse(w, s)
  }

  lemma SwapGuard(c: Config, w: World, s: Path, p: Path, b: Path, x: Path)
    requires ConfigOK(c) && Exchangeable(c, w, s, p, b) && Guarded(c) && x in w.guard && x in c.operands && GuardAt(c, w, x)
    ensures GuardAt(c, SwapW(c, w, s, p, b), x)
  {
    hide IsTemp, Dir, Guarded, BackupName, GuardOK;
    var g, n, k := w.guard[x], c.init[x], |LogOf(w, Id(c, p))|;
    var w' := SwapW(c, w, s, p, b);
    assert w'.guard[x] == Reswapped(g, s, p, b, k);
    BackupNameFacts(c, p, b);
    assert !GuardUses(g, s) && (g.Swapped? ==> g.path != p);
    assert GuardNames(c, x, w'.guard[x]) by { SwapNames(c, s, p, b, x, g, k); }
    match g
    case At(q) =>
      if q == p {
        GuardHolds(c, w, n, g);
        SwapSettled(c, w, s, p, b, n);
      } else { SwapElsewhere(c, w, s, p, b, n, g); }
    case Flushed(_, q) =>
      if q == p {
        GuardHolds(c, w, n, g);
        SwapSettled(c, w, s, p, b, n);
      } else {
        assert g.spare != p;
        SwapElsewhere(c, w, s, p, b, n, g);
      }
    case Swapped(_, _, q, _) =>
      assert g.spare != p;
      if q == p {
        GuardHolds(c, w, n, g);
        SwapAgain(c, w, s, p, b, n, g);
      } else { SwapElsewhere(c, w, s, p, b, n, g); }
  }

  lemma GuardHolds(c: Config, w: World, n: Ino, g: Guard)
    requires GuardOK(c, w, n, g)
    ensures
      match g
      case At(q) => Settled(c, w, q, n)
      case Flushed(_, b) => Settled(c, w, b, n)
      case Swapped(_, _, b, _) => b in w.names && w.names[b] == n
  {
    hide Settled, SwapOK;
  }

  lemma BackLonger(c: Config, p: Path, q: Path, x: Path)
    requires Backs(c, p, q) && q in c.operands && BackupName(c, q, x)
    ensures Backs(c, p, x)
  {
    assert |q| < |x|;
  }

  /** What backs p up lies beside it, and is no temporary name. */
  lemma {:induction false} BacksFacts(c: Config, p: Path, x: Path)
    requires ConfigOK(c) && p in c.operands && Backs(c, p, x)
    ensures Dir(x) == Dir(p) && !IsTemp(x)
    decreases |x|
  {
    hide BackupName, Dir, IsTemp;
    if x != p {
      var q :| q in c.operands && |q| < |x| && BackupName(c, q, x) && Backs(c, p, q);
      BackupNameFacts(c, q, x);
      BacksFacts(c, p, q);
    }
  }

  lemma SwapNames(c: Config, s: Path, p: Path, b: Path, x: Path, g: Guard, k: nat)
    requires ConfigOK(c) && x in c.operands && GuardNames(c, x, g) && p in c.operands && Spare(c, s) && BackupName(c, p, b)
    ensures GuardNames(c, x, Reswapped(g, s, p, b, k))
  {
    hide IsTemp, Dir, BackupName, Backs;
    BackupNameFacts(c, p, b);
    match g
    case At(q) => if q == p { BackLonger(c, x, p, b); BacksFacts(c, x, p); }
    case Flushed(_, q) => if q == p { BackLonger(c, x, p, b); BacksFacts(c, x, p); }
    case Swapped(_, _, q, _) => if q == p { BackLonger(c, x, p, b); BacksFacts(c, x, p); }
  }

  lemma SwapGuards(c: Config, w: World, s: Path, p: Path, b: Path)
    requires ConfigOK(c) && GuardsOK(c, w) && Exchangeable(c, w, s, p, b)
    ensures GuardsOK(c, SwapW(c, w, s, p, b))
  {
    hide Dir, Guarded, GuardAt, IsTemp, BackupName, FirstUse;
    if Guarded(c) {
      var w' := SwapW(c, w, s, p, b);
      forall x | x in w'.guard ensures GuardAt(c, w', x) { SwapGuard(c, w, s, p, b, x); }
    }
  }

  lemma SwapCrash(c: Config, w: World, s: Path, p: Path, b: Path)
    requires ConfigOK(c) && CrashOK(c, w) && Exchangeable(c, w, s, p, b) && Replaceable(c, p)
    requires w.names[s] in w.files && PublicDone(c, w.files[w.names[s]], Dir(p))
    ensures CrashOK(c, SwapW(c, w, s, p, b))
  {
    hide GuardsOK, DiskOK, Exchangeable;
    SwapGuards(c, w, s, p, b);
    SwapDisk(c, w, s, p, b);
  }

  lemma SwapDisk(c: Config, w: World, s: Path, p: Path, b: Path)
    requires ConfigOK(c) && DiskOK(c, w) && Exchangeable(c, w, s, p, b) && Replaceable(c, p)
    requires w.names[s] in w.files && PublicDone(c, w.files[w.names[s]], Dir(p))
    ensures DiskOK(c, SwapW(c, w, s, p, b))
  {
    hide DiskOK, Dir, IsTemp, FileDone, Replaceable, FirstUse, Guarded, Reswapped, BackupName, Unprotected, NoSwapAt;
    DiskSwap(c, w, s, p, b);
  }

  /* ----- flushing a directory ----- */

  lemma FsyncDirGuard(c: Config, w: World, id: DirId, p: Path, n: Ino, g: Guard)
    requires GuardOK(c, w, n, g) && GuardNames(c, p, g) && (g.Swapped? ==> Dir(g.backup) == Dir(g.path))
    ensures GuardOK(c, FsyncDirW(c, w, id), n, FlushedGuard(c, g, id))
    ensures GuardNames(c, p, FlushedGuard(c, g, id))
  {
    hide IsTemp, Dir, Backs;
  }

  lemma FsyncDirCrash(c: Config, w: World, id: DirId)
    requires CrashOK(c, w) && WellFormed(c, w)
    ensures CrashOK(c, FsyncDirW(c, w, id))
  {
    hide GuardsOK, DiskOK, Unclobbered, SlotOwn, SlotBeside, IsTemp;
    FsyncDirGuards(c, w, id);
    DiskFsync(c, w, id);
  }

  lemma FsyncDirGuards(c: Config, w: World, id: DirId)
    requires GuardsOK(c, w)
    ensures GuardsOK(c, FsyncDirW(c, w, id))
  {
    hide GuardOK, Guarded, Dir, Backs;
    if Guarded(c) {
      var w' := FsyncDirW(c, w, id);
      forall p | p in w'.guard ensures GuardAt(c, w', p) {
        assert GuardAt(c, w, p);
        FsyncDirGuard(c, w, id, p, c.init[p], w.guard[p]);
      }
    }
  }

  lemma FsyncDirPoint(c: Config, w: World, id: DirId)
    requires PointOK(c, w)
    ensures PointOK(c, FsyncDirW(c, w, id))
    ensures Steady(c, w) ==> Steady(c, FsyncDirW(c, w, id))
  {
    hide CrashOK, Dir, IsTemp, SlotsOK, Presentable, Guarded, WellFormed, HistoryOK;
    var w' := FsyncDirW(c, w, id);
    SameWellFormed(c, w, w');
    assert CrashOK(c, w') by { FsyncDirCrash(c, w, id); }
    assert SlotsOK(w) ==> SlotsOK(w') by { SameSlots(w, w'); }
    if Classified(c, w) { SameClass(c, w, w'); }
    assert PublishOK(c, w') by { SamePublish(c, w, w'); }
    assert HistoryOK(c, w') by { SameHistory(c, w, w'); }
  }

  /** Neither names nor files change, nor what is on record of them. */
  lemma SameHistory(c: Config, w: World, w': World)
    requires HistoryOK(c, w) && w'.left == w.left && w'.taken == w.taken && w'.committed == w.committed && w'.swapped == w.swapped
    requires RecordKept(w, w') && w'.names == w.names && w'.files == w.files
    ensures HistoryOK(c, w')
  {
    hide IsTemp, Dir, Separate, BackupsOK, RecordKept;
    BackupsSame(c, w, w') by { HistoryBackups(c, w); }
    HistoryKept(c, w, w');
  }

  lemma SamePublish(c: Config, w: World, w': World)
    requires PublishOK(c, w) && w'.names == w.names && w'.files == w.files
    requires w.left <= w'.left && (w.blocked ==> w'.blocked)
    ensures PublishOK(c, w')
  {
    hide IsTemp, Dir, FileDone, FilledAndOwned, IsPrivate;
    forall q | q in w'.names && w'.names[q] in w'.files ensures Presentable(c, w', q) {
      assert Presentable(c, w, q);
    }
  }

  lemma SwapPoint(c: Config, w: World, s: Path, p: Path, b: Path)
    requires ConfigOK(c) && PointOK(c, w) && w.blocked && Exchangeable(c, w, s, p, b) && Replaceable(c, p)
    requires PublicDone(c, w.files[w.names[s]], Dir(p)) && Uncommitted(c, w, p)
    requires w.files[w.names[p]].role == Foreign || FilledAndOwned(c, w.files[w.names[p]])
    ensures PointOK(c, SwapW(c, w, s, p, b))
  {
    hide IsTemp, Dir, GuardUses, CrashOK, FilledAndOwned, FileDone, PublishOK, WellFormed, HistoryOK, Classified, Backs, Guarded;
    var w' := SwapW(c, w, s, p, b);
    assert WellFormed(c, w') by { SwapWell(c, w, s, p, b); }
    assert CrashOK(c, w') by { ForceNoPlaceholder(c, w, w.names[s]); SwapCrash(c, w, s, p, b); }
    assert PublishOK(c, w') by { ForceNoPlaceholder(c, w, w.names[s]); ForceNoPlaceholder(c, w, w.names[p]); SwapPublish(c, w, s, p, b); }
    assert HistoryOK(c, w') by { SwapHistory(c, w, s, p, b); }
  }

  /** No operand's name is that of a backup where operands are apart. */
  lemma OperandGivable(c: Config, n: Ino, q: Path)
    requires q in c.operands
    ensures Givable(c, n, q)
  {
    hide BackupName, Separate;
    if Separate(c) {
      forall p | p in c.operands && BackupName(c, p, q) ensures false {
        BackupNameFacts(c, p, q);
        OperandsApart(c, p, q);
      }
    }
  }

  lemma OperandsApart(c: Config, p: Path, q: Path)
    requires Separate(c) && p in c.operands && q in c.operands && p != q
    ensures !BackupName(c, p, q)
  {
    hide BackupName;
    var i :| 0 <= i < |c.operands| && c.operands[i] == p;
    var j :| 0 <= j < |c.operands| && c.operands[j] == q;
    assert c.operands[i] != c.operands[j];
  }

  lemma TempUncommitted(c: Config, w: World, q: Path)
    requires ConfigOK(c) && HistoryOK(c, w) && IsTemp(q)
    ensures Uncommitted(c, w, q)
  {
    hide BackupsOK, Separate, Dir, IsTemp;
  }

  lemma SwapHistory(c: Config, w: World, s: Path, p: Path, b: Path)
    requires ConfigOK(c) && HistoryOK(c, w) && s in w.names && p in w.names && s != p && Id(c, s) == Id(c, p)
    requires p in c.operands && IsTemp(s) && Uncommitted(c, w, p)
    ensures HistoryOK(c, SwapW(c, w, s, p, b))
  {
    hide IsTemp, Dir, Separate, BackupsOK, Givable, Uncommitted, Reswapped, Unflushed;
    var w' := SwapW(c, w, s, p, b);
    TempGivable(c, w'.names[s], s);
    OperandGivable(c, w'.names[p], p);
    TempUncommitted(c, w, s);
    BackupsRebound(c, w, w') by { HistoryBackups(c, w); }
    forall q | q in w'.left ensures q in w'.refused || SpareKept(c, w', q) {
      if q !in w.refused { UnflushedStays(w, w', Id(c, q)) by { assert RecordKept(w, w'); } }
    }
  }

  lemma ForceNoPlaceholder(c: Config, w: World, n: Ino)
    requires WellFormed(c, w) && n in w.names.Values
    ensures n in w.files && (c.settings.force ==> w.files[n].role != Placeholder)
  {
    hide SlotOwn, Unclobbered;
  }

  lemma SwapWell(c: Config, w: World, s: Path, p: Path, b: Path)
    requires WellFormed(c, w) && s in w.names && p in w.names && s != p && Replaceable(c, p) && s !in c.init
    ensures WellFormed(c, SwapW(c, w, s, p, b))
  {
    hide IsTemp, SlotOwn, Replaceable, Reswapped, SlotBeside;
  }

  lemma SwapPublish(c: Config, w: World, s: Path, p: Path, b: Path)
    requires PublishOK(c, w) && s in w.names && p in w.names && s != p && IsTemp(s)
    requires w.names[s] in w.files && w.names[p] in w.files && PublicDone(c, w.files[w.names[s]], Dir(p))
    requires w.files[w.names[p]].role == Foreign || FilledAndOwned(c, w.files[w.names[p]])
    requires w.files[w.names[p]].role != Placeholder
    ensures PublishOK(c, SwapW(c, w, s, p, b))
  {
    hide IsTemp, Dir, FilledAndOwned, FileDone;
    var w' := SwapW(c, w, s, p, b);
    forall q | q in w'.names && w'.names[q] in w'.files ensures Presentable(c, w', q) {
      if q != s && q != p { assert Presentable(c, w, q); }
    }
  }

  /* ----- one file ----- */

  lemma FilePoint(c: Config, w: World, n: Ino, f: File)
    requires ConfigOK(c) && PointOK(c, w) && n in w.files && f.role == w.files[n].role && n !in w.shown
    requires forall q :: q in w.names && w.names[q] == n ==>
               IsTemp(q) && q !in c.init && (IsPrivate(f.mode) || FilledAndOwned(c, f))
    ensures PointOK(c, FileW(w, n, f))
    ensures Steady(c, w) ==> Steady(c, FileW(w, n, f))
  {
    hide IsTemp, Dir, FilledAndOwned, FileDone, IsPrivate, CrashOK, HistoryOK, PublishOK, Guarded, Unclobbered, SlotBeside;
    var w' := FileW(w, n, f);
    assert CrashOK(c, w') by { FileCrash(c, w, n, f); }
    assert PublishOK(c, w') by { FilePublish(c, w, n, f); }
    assert HistoryOK(c, w') by { FileHistory(c, w, n, f); }
    SlotsKept(c, w, w');
    assert Unclobbered(c, w') by { SameUnclobbered(c, w, w'); }
    if Classified(c, w) { SameClass(c, w, w'); }
  }

  lemma FileCrash(c: Config, w: World, n: Ino, f: File)
    requires CrashOK(c, w) && n in w.files && f.role == w.files[n].role && n !in w.shown
    ensures CrashOK(c, FileW(w, n, f))
  {
    hide CrashOK, FileDone, Dir;
    FilesCrash(c, w, FileW(w, n, f));
  }

  lemma FileHistory(c: Config, w: World, n: Ino, f: File)
    requires ConfigOK(c) && HistoryOK(c, w) && n in w.files
    requires forall q :: q in w.names && w.names[q] == n ==> IsTemp(q)
    ensures HistoryOK(c, FileW(w, n, f))
  {
    hide IsTemp, Dir, FileDone, Separate, BackupsOK, Givable;
    var w' := FileW(w, n, f);
    BackupsKept(c, w, w') by { HistoryBackups(c, w); }
    HistoryKept(c, w, w') by { assert RecordKept(w, w'); }
  }

  lemma SameUnclobbered(c: Config, w: World, w': World)
    requires Unclobbered(c, w) && w'.names == w.names
    ensures Unclobbered(c, w')
  {}

  lemma FilePublish(c: Config, w: World, n: Ino, f: File)
    requires PublishOK(c, w) && n in w.files && f.role == w.files[n].role
    requires forall q :: q in w.names && w.names[q] == n ==> IsTemp(q) && (IsPrivate(f.mode) || FilledAndOwned(c, f))
    ensures PublishOK(c, FileW(w, n, f))
  {
    hide IsTemp, Dir, FilledAndOwned, FileDone, IsPrivate;
    var w' := FileW(w, n, f);
    forall q | q in w'.names && w'.names[q] in w'.files ensures Presentable(c, w', q) {
      assert Presentable(c, w, q);
    }
  }

  lemma FsyncPoint(c: Config, w: World, n: Ino)
    requires PointOK(c, w) && n in w.files
    ensures PointOK(c, FsyncW(w, n))
    ensures Steady(c, w) ==> Steady(c, FsyncW(w, n))
  {
    hide IsTemp, Dir, SignalOK, PublishOK, CrashOK, HistoryOK, Steady, SlotOwn, Unclobbered;
    SlotsKept(c, w, FsyncW(w, n));
    assert Unclobbered(c, FsyncW(w, n)) by { SameUnclobbered(c, w, FsyncW(w, n)); }
    FilesPoint(c, w, FsyncW(w, n));
  }

  lemma CloseFiles(c: Config, w: World, n: Ino)
    requires WellFormed(c, w)
    ensures forall q :: q in w.names && w.names[q] in w.files ==> SameAt(w, CloseW(w, n), q)
    ensures forall m :: m in w.files ==> SameUse(w.files[m], CloseW(w, n).files[m])
  {}

  lemma ClosePoint(c: Config, w: World, n: Ino)
    requires PointOK(c, w)
    ensures PointOK(c, CloseW(w, n))
    ensures Steady(c, w) ==> Steady(c, CloseW(w, n))
  {
    hide IsTemp, Dir, SignalOK, PublishOK, CrashOK, HistoryOK, Steady, WellFormed;
    SameWellFormed(c, w, CloseW(w, n));
    CloseFiles(c, w, n);
    FilesPoint(c, w, CloseW(w, n));
    assert w.open - {n} <= w.open;
    SubsetSize(w.open - {n}, w.open);
  }

  lemma DirFdPoint(c: Config, w: World, n: nat)
    requires PointOK(c, w) && n <= c.batch
    ensures PointOK(c, DirFdW(w, n))
    ensures Steady(c, w) ==> Steady(c, DirFdW(w, n))
  {
    hide IsTemp, Dir, CrashOK, HistoryOK, SlotsOK, Guarded, FileDone, WellFormed;
    var w' := DirFdW(w, n);
    SameWellFormed(c, w, w');
    SameNamesCrash(c, w, w');
    SamePublish(c, w, w');
    SameSlots(w, w');
    assert HistoryOK(c, w') by { assert RecordKept(w, w'); SameHistory(c, w, w'); }
    if Classified(c, w) { SameClass(c, w, w'); }
  }

  lemma SubsetSize(a: set<Ino>, b: set<Ino>)
    requires a <= b
    ensures |a| <= |b|
  {
    assert b == a + (b - a);
  }

  /* ----- the pending table and the signal mask ----- */

  lemma ArmPoint(c: Config, w: World, s: nat, q: Path, n: Ino)
    requires PointOK(c, w) && w.blocked && s < PENDING_SLOTS && w.slots[s] == Clear && q !in c.init
    requires (s < BATCH ==> IsTemp(q) || !c.settings.force) && SlotOwn(c, w.files, n) && SlotBeside(c, q)
    ensures PointOK(c, ArmW(w, s, q, n))
  {
    hide IsTemp, Dir, CrashOK, Guarded, FileDone, HistoryOK, SlotBeside;
    var w' := ArmW(w, s, q, n);
    SameNamesCrash(c, w, w');
    SamePublish(c, w, w');
    assert HistoryOK(c, w') by { assert RecordKept(w, w'); SameHistory(c, w, w'); }
  }

  /** One slot changes; what it alone accounted for is accounted for otherwise. */
  lemma SlotClass(c: Config, w: World, w': World, s: nat)
    requires Classified(c, w)
    requires w'.(slots := w.slots) == w
    requires s < |w.slots| == |w'.slots| && forall t :: 0 <= t < |w.slots| && t != s ==> w'.slots[t] == w.slots[t]
    requires w.slots[s].Armed? ==>
               var Armed(q, n) := w.slots[s];
               q in w.names && w.names[q] == n ==> Accounted(c, w', q)
    ensures Classified(c, w')
  {
    hide Dir, FileDone;
    forall q | q in w'.names ensures Accounted(c, w', q) {
      assert Accounted(c, w, q);
      if w.slots[s] == Armed(q, w.names[q]) {
      } else if t :| 0 <= t < |w.slots| && w.slots[t] == Armed(q, w.names[q]) && t != s {
        assert w'.slots[t] == Armed(q, w'.names[q]);
      } else if p :| p in c.operands && BackupFor(c, w, p, q) {
        assert BackupFor(c, w', p, q);
      }
    }
  }

  lemma ClearPoint(c: Config, w: World, s: nat)
    requires PointOK(c, w) && s < PENDING_SLOTS
    requires w.slots[s].Armed? && !w.blocked ==>
               var Armed(q, n) := w.slots[s];
               q in w.names && w.names[q] == n ==> Accounted(c, ClearW(w, s), q)
    ensures PointOK(c, ClearW(w, s))
  {
    hide IsTemp, Dir, CrashOK, Guarded, FileDone, Accounted, HistoryOK, SlotBeside;
    var w' := ClearW(w, s);
    SameNamesCrash(c, w, w');
    SamePublish(c, w, w');
    assert HistoryOK(c, w') by { assert RecordKept(w, w'); SameHistory(c, w, w'); }
    if !w.blocked { SlotClass(c, w, w', s); }
  }

  /** What must hold where signals are let through. */
  ghost predicate LetThrough(c: Config, w: World) {
    Classified(c, w) && NoPlaceholder(w) && ArmedFree(c, w.slots, w.guard) && NoSpareArmed(w.slots, w.files)
  }

  lemma BlockPoint(c: Config, w: World, b: bool)
    requires PointOK(c, w) && (b || LetThrough(c, w))
    ensures PointOK(c, BlockW(w, b))
    ensures Steady(c, w) == Steady(c, BlockW(w, b))
  {
    hide IsTemp, Dir, CrashOK, Guarded, FileDone, FilledAndOwned, IsPrivate, WellFormed, HistoryOK;
    var w' := BlockW(w, b);
    SameWellFormed(c, w, w');
    SameNamesCrash(c, w, w');
    assert HistoryOK(c, w') by { assert RecordKept(w, w'); SameHistory(c, w, w'); }
    if Classified(c, w) { SameClass(c, w, w'); }
    if Classified(c, w') { SameClass(c, w', w); }
    assert PublishOK(c, w') by {
      forall q | q in w'.names && w'.names[q] in w'.files ensures Presentable(c, w', q) {
        assert Presentable(c, w, q);
      }
    }
  }

  /* ----- history ----- */

  function CommitW(w: World, p: Path): World { w.(committed := w.committed + {p}) }

  function TakenW(w: World, q: Path): World { w.(taken := w.taken + {q}) }

  function LeftW(w: World, q: Path): World { w.(left := w.left + {q}) }

  /** What was safe at p is safe at its backup b. */
  function Rebased(g: Guard, p: Path, b: Path): Guard {
    match g
    case At(q) => if q == p then At(b) else g
    case Swapped(q, s, b', k) => if b' == p then Swapped(q, s, b, k) else g
    case Flushed(s, b') => if b' == p then At(b) else g
  }

  function RebaseW(w: World, p: Path, b: Path): World {
    w.(guard := map x | x in w.guard :: Rebased(w.guard[x], p, b))
  }

  /** The backup keeps what the spare s kept beside it. */
  function Unspared(g: Guard, s: Path): Guard {
    if SpareOf(g) == Some(s) then At(g.backup) else g
  }

  function UnspareW(w: World, s: Path): World {
    w.(guard := map x | x in w.guard :: Unspared(w.guard[x], s))
  }

  /** Only what is on record changes. */
  lemma NotePoint(c: Config, w: World, w': World)
    requires PointOK(c, w)
    requires w'.(committed := w.committed, taken := w.taken, left := w.left) == w
    requires w.committed <= w'.committed && w.taken <= w'.taken && w.left <= w'.left
    requires HistoryOK(c, w')
    ensures PointOK(c, w')
    ensures Steady(c, w) ==> Steady(c, w')
  {
    hide IsTemp, Dir, CrashOK, Guarded, FileDone, HistoryOK, SlotBeside;
    SameNamesCrash(c, w, w');
    SamePublish(c, w, w');
    if Classified(c, w) { SameClass(c, w, w'); }
  }

  lemma NotedHistory(c: Config, w: World, w': World)
    requires HistoryOK(c, w)
    requires w'.(committed := w.committed, taken := w.taken, left := w.left) == w
    requires forall p :: p in w'.committed && p !in w.committed ==> p in c.operands && Done(c, w, p)
    requires forall q :: q in w'.left && q !in w.left ==> q in w.refused || SpareKept(c, w, q)
    requires forall q :: q in w'.taken && q !in w.taken ==> q in w.names && BackupOn(c.settings) && !IsTemp(q) && (Separate(c) ==> q in c.init)
    ensures HistoryOK(c, w')
  {
    hide Separate, Done, IsTemp, Dir, BackupsOK;
    assert BackupsOK(c, w') by { NotedBackups(c, w, w'); }
    forall q | q in w'.left ensures q in w'.refused || SpareKept(c, w', q) {
      assert q in w.refused || SpareKept(c, w, q);
    }
  }

  lemma NotedBackups(c: Config, w: World, w': World)
    requires BackupsOK(c, w)
    requires w'.(committed := w.committed, taken := w.taken, left := w.left) == w
    requires forall p :: p in w'.committed && p !in w.committed ==> Done(c, w, p)
    ensures BackupsOK(c, w')
  {
    hide Separate, FileDone, BackupName;
    if Separate(c) && BackupOn(c.settings) {
      forall p, q | p in c.operands && q in w'.names && BackupName(c, p, q) ensures BackupOld(c, w', p, q) {
        assert BackupOld(c, w, p, q);
      }
    }
  }

  /** An operand is finished. */
  lemma CommitPoint(c: Config, w: World, p: Path)
    requires PointOK(c, w) && p in c.operands && Done(c, w, p)
    ensures PointOK(c, CommitW(w, p))
    ensures Steady(c, w) ==> Steady(c, CommitW(w, p))
  {
    hide WellFormed, SignalOK, PublishOK, CrashOK, FdsOK, Steady, Done, Separate, IsTemp, Dir, BackupsOK, Unflushed, HistoryOK, SpareKept;
    NotedHistory(c, w, CommitW(w, p));
    NotePoint(c, w, CommitW(w, p));
  }

  /** A name is left behind that could not be removed, or must not be. */
  lemma LeftPoint(c: Config, w: World, q: Path)
    requires PointOK(c, w) && (q in w.refused || SpareKept(c, w, q))
    ensures PointOK(c, LeftW(w, q))
    ensures Steady(c, w) ==> Steady(c, LeftW(w, q))
  {
    hide WellFormed, SignalOK, PublishOK, CrashOK, FdsOK, Steady, Separate, IsTemp, Dir, BackupsOK, Unflushed, HistoryOK, SpareKept, Done;
    NotedHistory(c, w, LeftW(w, q));
    NotePoint(c, w, LeftW(w, q));
  }

  /** A backup is about to replace what q names. */
  lemma TakenPoint(c: Config, w: World, q: Path)
    requires PointOK(c, w) && q in w.names && BackupOn(c.settings) && !IsTemp(q) && (Separate(c) ==> q in c.init)
    ensures PointOK(c, TakenW(w, q))
    ensures Steady(c, w) ==> Steady(c, TakenW(w, q))
  {
    hide WellFormed, SignalOK, PublishOK, CrashOK, FdsOK, Steady, Separate, IsTemp, Dir, BackupsOK, Unflushed, HistoryOK, SpareKept, Done;
    NotedHistory(c, w, TakenW(w, q));
    NotePoint(c, w, TakenW(w, q));
  }

  /** A call for the name q failed, or for a directory. */
  function RefuseW(w: World, q: Path): World { w.(refused := w.refused + {q}) }

  function FlushFailW(w: World, id: DirId): World { w.(flushFailed := w.flushFailed + [id]) }

  function UnstatW(w: World, id: DirId): World { w.(unstat := w.unstat + {id}) }

  lemma RefusePoint(c: Config, w: World, w': World)
    requires PointOK(c, w)
    requires w'.(refused := w.refused, flushFailed := w.flushFailed, unstat := w.unstat) == w && RecordKept(w, w')
    ensures PointOK(c, w')
    ensures Steady(c, w) ==> Steady(c, w')
  {
    hide IsTemp, Dir, CrashOK, HistoryOK, SlotsOK, Guarded, FileDone, OldOf, WellFormed, RecordKept;
    SameWellFormed(c, w, w');
    SameNamesCrash(c, w, w');
    SamePublish(c, w, w');
    SameSlots(w, w');
    assert HistoryOK(c, w') by { SameHistory(c, w, w'); }
    if Classified(c, w) { SameClass(c, w, w'); }
  }

  /* ----- guards ----- */

  lemma GuardSame(c: Config, w: World, w': World, n: Ino, g: Guard)
    requires w'.names == w.names && w'.disk == w.disk && w'.logs == w.logs && w'.swapped == w.swapped
    ensures GuardOK(c, w, n, g) == GuardOK(c, w', n, g)
  {
    hide Dir, IsTemp, Untouched;
  }

  /** Only guards change, while no signal is let through, and each of them holds. */
  lemma GuardsPoint(c: Config, w: World, w': World)
    requires PointOK(c, w) && w.blocked && w'.(guard := w.guard) == w && w'.guard.Keys == w.guard.Keys
    requires Guarded(c) ==> forall p :: p in w'.guard && p in c.operands && GuardAt(c, w, p) ==>
               GuardOK(c, w, c.init[p], w'.guard[p]) && GuardNames(c, p, w'.guard[p])
    ensures PointOK(c, w')
    ensures Steady(c, w) ==> Steady(c, w')
  {
    hide IsTemp, Dir, Guarded, FileDone, SlotsOK, WellFormed, HistoryOK, GuardOK, GuardNames, DiskOK;
    SameWellFormed(c, w, w');
    SamePublish(c, w, w');
    assert HistoryOK(c, w') by { assert RecordKept(w, w'); SameHistory(c, w, w'); }
    SameSlots(w, w');
    if Classified(c, w) { SameClass(c, w, w'); }
    if Guarded(c) {
      forall p | p in w'.guard ensures GuardAt(c, w', p) {
        assert GuardAt(c, w, p);
        GuardSame(c, w, w', c.init[p], w'.guard[p]);
      }
    }
    DiskGuards(c, w, w');
  }

  lemma DiskGuards(c: Config, w: World, w': World)
    requires DiskOK(c, w) && w'.(guard := w.guard) == w
    ensures DiskOK(c, w')
  {
    hide DiskOK, MayShow;
    forall q, n | MayShow(c, w, q, n) ensures MayShow(c, w', q, n) { SameShow(c, w, w', q, n); }
    DiskSame(c, w, w');
  }

  /** The backup b of p has what p has, for good; p is about to be replaced. */
  lemma RebasePoint(c: Config, w: World, p: Path, b: Path)
    requires PointOK(c, w) && w.blocked && p in c.operands
    requires Guarded(c) ==> p in w.names && BackupName(c, p, b) && Settled(c, w, b, w.names[p])
    ensures PointOK(c, RebaseW(w, p, b))
    ensures Steady(c, w) ==> Steady(c, RebaseW(w, p, b))
  {
    hide PointOK, Steady, Guarded, BackupName, GuardOK, GuardNames, Settled, Rebased;
    var w' := RebaseW(w, p, b);
    if Guarded(c) {
      forall x | x in w'.guard && x in c.operands && GuardAt(c, w, x)
        ensures GuardOK(c, w, c.init[x], w'.guard[x]) && GuardNames(c, x, w'.guard[x])
      {
        RebasedOK(c, w, p, b, c.init[x], w.guard[x]);
        RebasedNames(c, p, b, x, w.guard[x]);
      }
    }
    GuardsPoint(c, w, w');
  }

  lemma RebasedOK(c: Config, w: World, p: Path, b: Path, n: Ino, g: Guard)
    requires GuardOK(c, w, n, g) && p in w.names && Settled(c, w, b, w.names[p])
    ensures GuardOK(c, w, n, Rebased(g, p, b))
  {
    hide Dir, Untouched;
  }

  lemma RebasedNames(c: Config, p: Path, b: Path, x: Path, g: Guard)
    requires GuardNames(c, x, g) && p in c.operands && BackupName(c, p, b)
    ensures GuardNames(c, x, Rebased(g, p, b))
  {
    hide Dir, BackupName, Backs, IsTemp;
    BackupNameFacts(c, p, b);
    if Backs(c, x, p) { BackLonger(c, x, p, b); }
  }

  /** The spare s is about to go: what it kept is on disk under a backup's name. */
  lemma UnsparePoint(c: Config, w: World, s: Path)
    requires PointOK(c, w) && w.blocked
    requires Guarded(c) ==> forall x :: x in w.guard && w.guard[x].Swapped? && w.guard[x].spare == s ==> !c.flushes(Id(c, w.guard[x].path))
    ensures PointOK(c, UnspareW(w, s))
    ensures Steady(c, w) ==> Steady(c, UnspareW(w, s))
  {
    hide PointOK, Steady, Guarded, BackupName, GuardOK, GuardNames, Unspared, Id;
    var w' := UnspareW(w, s);
    if Guarded(c) {
      forall x | x in w'.guard && x in c.operands && GuardAt(c, w, x)
        ensures GuardOK(c, w, c.init[x], w'.guard[x]) && GuardNames(c, x, w'.guard[x])
      {
        UnsparedOK(c, w, s, x, c.init[x], w.guard[x]);
      }
    }
    GuardsPoint(c, w, w');
  }

  lemma UnsparedOK(c: Config, w: World, s: Path, x: Path, n: Ino, g: Guard)
    requires GuardOK(c, w, n, g) && GuardNames(c, x, g)
    requires g.Swapped? && g.spare == s ==> !c.flushes(Id(c, g.path))
    ensures GuardOK(c, w, n, Unspared(g, s)) && GuardNames(c, x, Unspared(g, s))
  {
    hide Dir, Untouched, Backs, IsTemp;
  }
}
