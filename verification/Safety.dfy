/** What the invariants of a point mean: the state a signal or a crash leaves. */
module Safety {
  import opened Names
  import opened Spec
  import opened World
  import opened Steps

  /* ----- signals ----- */

  /** The handler removes exactly the names that still hold what a slot says. */
  lemma {:induction false} HandlerRemoves(names: map<Path, Ino>, slots: seq<Slot>, n: nat, q: Path)
    requires n <= |slots|
    ensures
      var after := Handler(names, slots, n);
      && (q in after ==> q in names && after[q] == names[q])
      && (q in after <==> q in names && !exists s :: 0 <= s < n && slots[s] == Armed(q, names[q]))
  {
    if n > 0 {
      HandlerRemoves(names, slots, n - 1, q);
      var before := Handler(names, slots, n - 1);
      match slots[n - 1]
      case Clear =>
      case Armed(p, i) => HandlerRemoves(names, slots, n - 1, p);
    }
  }

  /** q is a backup that p was to have: where operands are apart it holds p's old
      file, and either replaced what was there at first or p holds its new one. */
  ghost predicate BackupLeft(c: Config, w: World, after: map<Path, Ino>, p: Path, q: Path)
    requires q in after
  {
    && BackupName(c, p, q)
    && if Separate(c) then p in c.init && after[q] == c.init[p] && (q in c.init || Done(c, w.(names := after), p))
       else q in w.taken || p in w.committed
  }

  /** What may be left of a name once the handler has run. */
  ghost predicate LeftClean(c: Config, w: World, after: map<Path, Ino>, q: Path)
    requires q in after
  {
    || (q in c.init && after[q] == c.init[q])
    || (q in c.operands && Done(c, w.(names := after), q))
    || (exists p :: p in c.operands && BackupLeft(c, w, after, p, q))
    || q in w.left
  }

  /** A signal that is let through leaves every name that was there, no name
      this run made for itself, and no backup of a file it did not replace. */
  ghost predicate SignalSafe(c: Config, w: World)
    requires |w.slots| == PENDING_SLOTS
  {
    !w.blocked ==>
      var after := Handler(w.names, w.slots, PENDING_SLOTS);
      && (forall q :: q in c.init ==> q in after)
      && (forall q :: q in after ==> LeftClean(c, w, after, q))
      && (forall q :: q in after && IsTemp(q) ==> (q in c.init && after[q] == c.init[q]) || q in w.left)
  }

  lemma SignalSafety(c: Config, w: World)
    requires ConfigOK(c) && PointOK(c, w)
    ensures SignalSafe(c, w)
  {
    hide PublishOK, CrashOK, ArmedFree, NoSpareArmed, SlotOwn, Separate, Harmless, BackupsOK, Unflushed, IsTemp, Dir, FileDone;
    if !w.blocked {
      var after := Handler(w.names, w.slots, PENDING_SLOTS);
      forall q ensures q in c.init ==> q in after {
        HandlerRemoves(w.names, w.slots, PENDING_SLOTS, q);
      }
      forall q | q in after ensures LeftClean(c, w, after, q) {
        HandlerRemoves(w.names, w.slots, PENDING_SLOTS, q);
        assert Accounted(c, w, q);
        if p :| p in c.operands && BackupFor(c, w, p, q) { BackupIsLeft(c, w, p, q); }
      }
      forall q | q in after && IsTemp(q)
        ensures (q in c.init && after[q] == c.init[q]) || q in w.left
      {
        assert LeftClean(c, w, after, q);
        if p :| p in c.operands && BackupLeft(c, w, after, p, q) {
          BackupNameFacts(c, p, q);
        }
      }
    }
  }

  lemma BackupIsLeft(c: Config, w: World, p: Path, q: Path)
    requires WellFormed(c, w) && HistoryOK(c, w) && p in c.operands && BackupFor(c, w, p, q)
    requires q in Handler(w.names, w.slots, PENDING_SLOTS)
    ensures LeftClean(c, w, Handler(w.names, w.slots, PENDING_SLOTS), q)
  {
    hide SlotOwn, Separate, Unflushed, IsTemp, Dir, FileDone, Unclobbered, BackupName;
    var after := Handler(w.names, w.slots, PENDING_SLOTS);
    HandlerRemoves(w.names, w.slots, PENDING_SLOTS, q);
    BackupNameFacts(c, p, q);
    if Separate(c) {
      assert BackupOld(c, w, p, q);
      if p in w.committed {
        assert Done(c, w, p);
        HandlerRemoves(w.names, w.slots, PENDING_SLOTS, p);
        assert forall s :: 0 <= s < |w.slots| && w.slots[s].Armed? ==> SlotBeside(c, w.slots[s].path);
      }
    }
    assert p in c.operands && (BackupLeft(c, w, after, p, q) || (q in c.init && after[q] == c.init[q]));
  }

  /* ----- crashes ----- */

  lemma {:induction false} ReplayUntouched(disk: map<Path, Ino>, log: seq<NameOp>, kept: set<nat>, q: Path)
    requires Untouched(log, q)
    ensures
      var names := Replay(disk, log, kept);
      (q in names <==> q in disk) && (q in disk ==> names[q] == disk[q])
  {
    if log != [] {
      var k := |log| - 1;
      ReplayUntouched(disk, log[..k], kept, q);
      assert !Writes(log[k], q);
    }
  }

  lemma {:induction false} ReplaySwap(disk: map<Path, Ino>, log: seq<NameOp>, kept: set<nat>, p: Path, s: Path, k: nat)
    requires k < |log| && log[k] == Swap(s, p) && p != s
    requires p in disk
    requires Untouched(log[..k], p) && Untouched(log[k + 1..], p) && Untouched(log[k + 1..], s)
    ensures
      var names := Replay(disk, log, kept);
      (p in names && names[p] == disk[p]) || (s in names && names[s] == disk[p])
  {
    var m := |log| - 1;
    if m == k {
      assert log[..m] == log[..k];
      ReplayUntouched(disk, log[..k], kept, p);
    } else {
      assert log[..m][..k] == log[..k];
      assert log[..m][k + 1..] == log[k + 1..m];
      forall j | k < j < |log|
        ensures !Writes(log[j], p) && !Writes(log[j], s)
      {
        assert log[k + 1..][j - k - 1] == log[j];
      }
      ReplaySwap(disk, log[..m], kept, p, s, k);
    }
  }

  lemma SettledSurvives(c: Config, w: World, q: Path, n: Ino, kept: map<DirId, set<nat>>)
    requires Settled(c, w, q, n) && c.flushes(Id(c, q))
    ensures AfterCrash(c, w, kept, q) == Some(n)
  {
    var id := Id(c, q);
    ReplayUntouched(w.disk, LogOf(w, id), if id in kept then kept[id] else {}, q);
  }

  ghost predicate Survives(c: Config, w: World, kept: map<DirId, set<nat>>, n: Ino) {
    exists q :: AfterCrash(c, w, kept, q) == Some(n)
  }

  /** Every inode that a backup is to keep has a name after any crash, if its
      directory can be flushed at all. */
  ghost predicate CrashSafe(c: Config, w: World) {
    Guarded(c) ==>
      forall p, kept :: p in c.operands && p in c.init && c.flushes(Id(c, p)) ==> Survives(c, w, kept, c.init[p])
  }

  lemma CrashSafety(c: Config, w: World)
    requires ConfigOK(c) && CrashOK(c, w)
    ensures CrashSafe(c, w)
  {
    hide Guarded, Dir;
    if Guarded(c) {
      forall p, kept: map<DirId, set<nat>> | p in c.operands && p in c.init && c.flushes(Id(c, p))
        ensures Survives(c, w, kept, c.init[p])
      {
        GuardSurvives(c, w, p, kept);
      }
    }
  }

  lemma GuardSurvives(c: Config, w: World, p: Path, kept: map<DirId, set<nat>>)
    requires ConfigOK(c) && p in c.operands && GuardAt(c, w, p) && c.flushes(Id(c, p))
    ensures Survives(c, w, kept, c.init[p])
  {
    hide IsTemp, Backs;
    var n := c.init[p];
    match w.guard[p]
    case At(x) =>
      BacksFacts(c, p, x);
      SettledSurvives(c, w, x, n, kept);
    case Flushed(_, b) =>
      BacksFacts(c, p, b);
      SettledSurvives(c, w, b, n, kept);
    case Swapped(x, s, b, k) =>
      var id := Id(c, x);
      ReplaySwap(w.disk, LogOf(w, id), if id in kept then kept[id] else {}, x, s, k);
      assert AfterCrash(c, w, kept, x) == Some(n) || AfterCrash(c, w, kept, s) == Some(n);
  }

  /** What a name may show to others: a file that was there, the empty file that holds
      a name, or a finished one, flushed if anything was written to it. */
  ghost predicate Shown(c: Config, w: World, q: Path, n: Ino) {
    && n in w.files
    && var f := w.files[n];
       f.role == Foreign || f.role == Placeholder || (FileDone(c, f, Dir(q)) && (f.synced || IsPlain(c.settings)))
  }

  /** After a crash every name of the start is there, and those the run may not
      replace name what they named. Each name others use shows its old file or a
      finished one, unless a temporary name was made again while the directory still
      owed a change of it to the disk. */
  ghost predicate CrashShows(c: Config, w: World) {
    && (forall q, kept :: q in c.init ==>
          && AfterCrash(c, w, kept, q).Some?
          && (!Replaceable(c, q) ==> AfterCrash(c, w, kept, q) == Some(c.init[q])))
    && (w.again == {} ==> forall q, kept :: !IsTemp(q) && AfterCrash(c, w, kept, q).Some? ==> Shown(c, w, q, AfterCrash(c, w, kept, q).value))
  }

  lemma {:induction false} ReplayKeeps(disk: map<Path, Ino>, log: seq<NameOp>, kept: set<nat>, q: Path)
    requires q in disk && forall k :: 0 <= k < |log| ==> !Removes(log[k], q)
    ensures q in Replay(disk, log, kept)
  {
    if log != [] { ReplayKeeps(disk, log[..|log| - 1], kept, q); }
  }

  /** A name to which no other's file came holds what it was bound to. */
  lemma {:induction false} ReplayHeld(disk: map<Path, Ino>, log: seq<NameOp>, kept: set<nat>, s: Path)
    requires NotInto(log, s) && s in Replay(disk, log, kept)
    ensures Held(disk, log, s, Replay(disk, log, kept)[s])
  {
    if log != [] {
      var k := |log| - 1;
      var before := Replay(disk, log[..k], kept);
      assert !Into(log[k], s);
      if log[k] == Bind(s, Replay(disk, log, kept)[s]) {
      } else {
        ReplayHeld(disk, log[..k], kept, s);
        assert forall n :: Bind(s, n) in log[..k] ==> Bind(s, n) in log;
      }
    }
  }

  lemma {:induction false} ReplayShows(c: Config, w: World, id: DirId, m: nat, kept: set<nat>, q: Path)
    requires LogSound(c, w) && m <= |LogOf(w, id)| && !IsTemp(q) && q in Replay(w.disk, LogOf(w, id)[..m], kept)
    ensures MayShow(c, w, q, Replay(w.disk, LogOf(w, id)[..m], kept)[q])
    decreases m
  {
    hide MayShow, IsTemp, Dir;
    var log := LogOf(w, id);
    if m > 0 {
      var k := m - 1;
      assert log[..m][..k] == log[..k] && log[..m][k] == log[k];
      var before := Replay(w.disk, log[..k], kept);
      if k in kept {
        assert EntryOK(c, w, id, k);
        match log[k]
        case Bind(p, n) => if p != q { ReplayShows(c, w, id, k, kept, q); }
        case Unbind(p) => ReplayShows(c, w, id, k, kept, q);
        case Move(s, t) =>
          if t == q && s in before { ReplayHeld(w.disk, log[..k], kept, s); } else { ReplayShows(c, w, id, k, kept, q); }
        case Swap(s, t) =>
          if t == q && s in before && q in before { ReplayHeld(w.disk, log[..k], kept, s); } else { ReplayShows(c, w, id, k, kept, q); }
      } else {
        ReplayShows(c, w, id, k, kept, q);
      }
    }
  }

  lemma CrashShowing(c: Config, w: World)
    requires DiskOK(c, w)
    ensures CrashShows(c, w)
  {
    hide LogSound, Dir, IsTemp, MayShow, Replaceable;
    forall q, kept: map<DirId, set<nat>> | q in c.init
      ensures AfterCrash(c, w, kept, q).Some?
      ensures !Replaceable(c, q) ==> AfterCrash(c, w, kept, q) == Some(c.init[q])
    {
      var id := Id(c, q);
      assert NameKept(c, w, q);
      ReplayKeeps(w.disk, LogOf(w, id), if id in kept then kept[id] else {}, q);
      if !Replaceable(c, q) { ReplayUntouched(w.disk, LogOf(w, id), if id in kept then kept[id] else {}, q); }
    }
    if w.again == {} {
      forall q, kept: map<DirId, set<nat>> | !IsTemp(q) && AfterCrash(c, w, kept, q).Some?
        ensures Shown(c, w, q, AfterCrash(c, w, kept, q).value)
      {
        var log := LogOf(w, Id(c, q));
        assert log[..|log|] == log;
        ReplayShows(c, w, Id(c, q), |log|, if Id(c, q) in kept then kept[Id(c, q)] else {}, q);
        ShownThen(c, w, q, AfterCrash(c, w, kept, q).value);
      }
    }
  }

  lemma ShownThen(c: Config, w: World, q: Path, n: Ino)
    requires MayShow(c, w, q, n)
    ensures Shown(c, w, q, n)
  {
    hide Dir, FileDone;
  }

  /* ----- while there is no crash ----- */

  ghost predicate Lives(names: map<Path, Ino>, n: Ino) {
    exists q :: q in names && names[q] == n
  }

  /** Whether or not directories can be flushed, the file a backup is to keep has a
      name, and keeps one however far the handler gets. */
  ghost predicate LiveSafe(c: Config, w: World)
    requires |w.slots| == PENDING_SLOTS
  {
    Guarded(c) ==>
      forall p :: p in c.operands && p in c.init ==>
        && Lives(w.names, c.init[p])
        && (!w.blocked ==> forall n :: 0 <= n <= PENDING_SLOTS ==> Lives(Handler(w.names, w.slots, n), c.init[p]))
  }

  /** A name under which the file is found now. */
  lemma GuardName(c: Config, w: World, p: Path) returns (x: Path)
    requires GuardAt(c, w, p)
    ensures GuardUses(w.guard[p], x) && x in w.names && w.names[x] == c.init[p]
  {
    hide GuardNames, OnDisk, SwapOK;
    x := match w.guard[p]
         case At(q) => q
         case Swapped(_, _, b, _) => b
         case Flushed(_, b) => b;
  }

  lemma LiveSafety(c: Config, w: World)
    requires PointOK(c, w)
    ensures |w.slots| == PENDING_SLOTS && LiveSafe(c, w)
  {
    hide PublishOK, HistoryOK, Guarded, GuardAt, GuardUses, Classified, SlotOwn, SlotBeside, Unclobbered;
    if Guarded(c) {
      forall p | p in c.operands && p in c.init
        ensures Lives(w.names, c.init[p])
        ensures !w.blocked ==> forall n :: 0 <= n <= PENDING_SLOTS ==> Lives(Handler(w.names, w.slots, n), c.init[p])
      {
        var x := GuardName(c, w, p);
        if !w.blocked {
          forall n | 0 <= n <= PENDING_SLOTS ensures Lives(Handler(w.names, w.slots, n), c.init[p]) {
            HandlerRemoves(w.names, w.slots, n, x);
          }
        }
      }
    }
  }

  /* ----- a signal, and then a crash ----- */

  /** The state once the handler has gone through the first n slots. */
  function HandlerW(c: Config, w: World, n: nat): World
    requires n <= |w.slots|
  {
    if n == 0 then w
    else
      var before := HandlerW(c, w, n - 1);
      match w.slots[n - 1]
      case Clear => before
      case Armed(p, i) => if p in before.names && before.names[p] == i then UnlinkW(c, before, p) else before
  }

  lemma {:induction false} HandlerKeeps(c: Config, w: World, n: nat)
    requires n <= |w.slots| && CrashOK(c, w) && ArmedFree(c, w.slots, w.guard)
    requires forall s :: 0 <= s < |w.slots| && w.slots[s].Armed? ==> w.slots[s].path !in c.init
    ensures HandlerW(c, w, n).names == Handler(w.names, w.slots, n)
    ensures HandlerW(c, w, n).guard == w.guard && CrashOK(c, HandlerW(c, w, n))
  {
    hide CrashOK, Guarded, GuardUses, Dir;
    if n > 0 {
      HandlerKeeps(c, w, n - 1);
      var before := HandlerW(c, w, n - 1);
      if w.slots[n - 1].Armed? { UnlinkCrash(c, before, w.slots[n - 1].path); }
    }
  }

  /** A crash while the handler runs, or after it, loses no old file either: this
      is why signals stay blocked while an old file has only its spare name. */
  ghost predicate SignalCrashSafe(c: Config, w: World)
    requires |w.slots| == PENDING_SLOTS
  {
    !w.blocked ==> forall n :: 0 <= n <= PENDING_SLOTS ==> CrashSafe(c, HandlerW(c, w, n)) && CrashShows(c, HandlerW(c, w, n))
  }

  lemma SignalCrashSafety(c: Config, w: World)
    requires ConfigOK(c) && PointOK(c, w)
    ensures SignalCrashSafe(c, w)
  {
    hide PublishOK, HistoryOK, GuardsOK, DiskOK, CrashSafe, CrashShows, Classified, SlotOwn, SlotBeside, Unclobbered, IsTemp;
    if !w.blocked {
      forall n | 0 <= n <= PENDING_SLOTS ensures CrashSafe(c, HandlerW(c, w, n)) && CrashShows(c, HandlerW(c, w, n)) {
        HandlerKeeps(c, w, n);
        CrashSafety(c, HandlerW(c, w, n));
        CrashShowing(c, HandlerW(c, w, n));
      }
    }
  }

  /* ----- what others see ----- */

  /** No name but an operand's, or its backup's, is taken from the file it had;
      without -f none is. */
  ghost predicate NothingClobbered(c: Config, w: World) {
    forall q :: q in c.init ==>
      && q in w.names
      && (w.names[q] == c.init[q] ||
          (c.settings.force && (q in c.operands || exists p :: p in c.operands && BackupName(c, p, q))))
  }

  /** A file this run made shows under a name others use only when it is finished
      and flushed; under a temporary name it is private until it has its content
      and owner. */
  ghost predicate OnlyFinishedShown(c: Config, w: World) {
    forall q :: q in w.names && w.names[q] in w.files && w.files[w.names[q]].role == Build ==>
      var f := w.files[w.names[q]];
      if IsTemp(q) then IsPrivate(f.mode) || FilledAndOwned(c, f)
      else FileDone(c, f, Dir(q)) && (f.synced || IsPlain(c.settings))
  }

  /** Whatever is left behind, the system refused to remove, or it is the name an
      operand was exchanged with whose directory was not flushed, or may not have
      been; without a failure nothing is left. A backup replaced only names that
      were there at the start. */
  ghost predicate LeftOnlyIfRefused(c: Config, w: World) {
    && (forall q :: q in w.left ==>
          || q in w.refused
          || (q in w.swapped && w.swapped[q] in c.operands && Unflushed(w, Id(c, w.swapped[q]))))
    && (w.refused == {} && w.flushFailed == [] ==> w.left == {})
    && (Separate(c) ==> forall q :: q in w.taken ==> q in c.init)
  }

  lemma LeftIfRefused(c: Config, w: World)
    requires HistoryOK(c, w)
    ensures LeftOnlyIfRefused(c, w)
  {
    hide Separate, BackupsOK, IsTemp, Dir;
  }

  /** n has a name besides q. */
  ghost predicate NamedBeside(names: map<Path, Ino>, q: Path, n: Ino) {
    exists x :: x != q && x in names && names[x] == n
  }

  /** What a slot names, the handler may remove: a file this run made, or, in the
      slot for backups, an old file that has another name. Signals are blocked
      while any other slot names an old file's spare. */
  ghost predicate OnlyOwnRemoved(c: Config, w: World) {
    forall s :: 0 <= s < |w.slots| && w.slots[s].Armed? ==>
      var Armed(q, n) := w.slots[s];
      && n in w.files
      && (w.files[n].role == Foreign ==>
            && BackupOn(c.settings) && (Guarded(c) ==> OldOf(c, n))
            && (!w.blocked ==> s == PENDING_BACKUP && (Guarded(c) ==> NamedBeside(w.names, q, n))))
  }

  lemma OwnRemoved(c: Config, w: World)
    requires PointOK(c, w)
    ensures OnlyOwnRemoved(c, w)
  {
    hide PublishOK, HistoryOK, Guarded, GuardAt, GuardUses, Classified, Unclobbered, IsTemp, SlotBeside;
    forall s | 0 <= s < |w.slots| && w.slots[s].Armed? && w.slots[s].ino in w.files && w.files[w.slots[s].ino].role == Foreign && !w.blocked && Guarded(c)
      ensures NamedBeside(w.names, w.slots[s].path, w.slots[s].ino)
    {
      assert SlotOwn(c, w.files, w.slots[s].ino);
      var p :| p in c.operands && p in c.init && c.init[p] == w.slots[s].ino;
      assert BackupOn(c.settings) && GuardAt(c, w, p);
      var x := GuardName(c, w, p);
    }
  }

  /** Everything promised of a point in a run. */
  ghost predicate Safe(c: Config, w: World)
    requires |w.slots| == PENDING_SLOTS
  {
    && SignalSafe(c, w) && CrashSafe(c, w) && CrashShows(c, w) && SignalCrashSafe(c, w) && LiveSafe(c, w)
    && NothingClobbered(c, w) && OnlyFinishedShown(c, w) && LeftOnlyIfRefused(c, w) && OnlyOwnRemoved(c, w)
    && |w.open| <= c.batch + 1 && w.dirFds <= c.batch
  }

  lemma PointSafe(c: Config, w: World)
    requires ConfigOK(c) && PointOK(c, w)
    ensures |w.slots| == PENDING_SLOTS && Safe(c, w)
  {
    hide SignalSafe, CrashSafe, CrashShows, SignalCrashSafe, LiveSafe, OnlyOwnRemoved, OnlyFinishedShown;
    hide DiskOK, GuardsOK, SignalOK, HistoryOK, LeftOnlyIfRefused, Dir, IsTemp, BackupName, Guarded, SlotOwn, SlotBeside;
    SignalSafety(c, w);
    CrashSafety(c, w);
    CrashShowing(c, w);
    SignalCrashSafety(c, w);
    LiveSafety(c, w);
    OwnRemoved(c, w);
    LeftIfRefused(c, w);
    OnlyFinished(c, w);
  }

  lemma OnlyFinished(c: Config, w: World)
    requires PointOK(c, w)
    ensures OnlyFinishedShown(c, w)
  {
    hide WellFormed, CrashOK, SignalOK, HistoryOK, Dir, Granted, Filled, FinalOwner, FinalMode, IsTemp, IsPrivate;
    forall q | q in w.names && w.names[q] in w.files && w.files[w.names[q]].role == Build
      ensures
        var f := w.files[w.names[q]];
        if IsTemp(q) then IsPrivate(f.mode) || FilledAndOwned(c, f)
        else FileDone(c, f, Dir(q)) && (f.synced || IsPlain(c.settings))
    {
      assert Presentable(c, w, q);
    }
  }
}
