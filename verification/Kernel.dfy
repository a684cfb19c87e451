/** The calls a run makes. Each may fail for any reason of the system's own; one
    that succeeds has the effect Steps gives it. trace holds every state the run
    went through, so what holds of all of it holds at every point of the run. */
module Kernel {
  import opened Names
  import opened Spec
  import opened World
  import opened Steps
  import opened Coherence

  /** Exists: the name is taken. Missing: it is free. Cannot: the system has no
      such call for this file. Failed: any other error. */
  datatype Reply = Ok | Exists | Missing | Cannot | Failed

  /** What one step of a run does. */
  datatype Call =
    | DoCreate(path: Path, role: Role, mode: Mode)
    | DoTmpfile(dir: string, mode: Mode)
    | DoLink(ino: Ino, path: Path)
    | DoUnlink(path: Path)
    | DoRename(src: Path, dst: Path)
    | DoExchange(spare: Path, path: Path, backup: Path)
    | DoAlter(ino: Ino, file: File)
    | DoFsync(ino: Ino)
    | DoClose(ino: Ino)
    | DoOpenDir
    | DoCloseDir
    | DoFsyncDir(id: DirId)
    | DoMask(blocked: bool)
    | DoArm(slot: nat, path: Path, ino: Ino)
    | DoClear(slot: nat)
    | DoRefuse(path: Path)
    | DoFlushFail(id: DirId)
    | DoUnstat(id: DirId)
    | DoNote

  /** The call works and takes w to w'. What is written to a file is not flushed;
      a refusal is a step of its own. */
  predicate Happens(c: Config, w: World, call: Call, w': World) {
    match call
    case DoCreate(q, role, m) => q !in w.names && w' == CreateW(c, w, q, role, m)
    case DoTmpfile(dir, m) => w' == TmpfileW(c, w, dir, m)
    case DoLink(n, q) => q !in w.names && w' == LinkW(c, w, n, q)
    case DoUnlink(q) => q in w.names && w' == UnlinkW(c, w, q)
    case DoRename(s, t) => s in w.names && Id(c, s) == Id(c, t) && w' == MoveW(c, w, s, t)
    case DoExchange(s, p, b) => s in w.names && p in w.names && Id(c, s) == Id(c, p) && w' == SwapW(c, w, s, p, b)
    case DoAlter(n, f) => n in w.open && !f.synced && w' == FileW(w, n, f)
    case DoFsync(n) => n in w.files && w' == FsyncW(w, n)
    case DoClose(n) => w' == CloseW(w, n)
    case DoOpenDir => w' == DirFdW(w, w.dirFds + 1)
    case DoCloseDir => w.dirFds > 0 && w' == DirFdW(w, w.dirFds - 1)
    case DoFsyncDir(id) => w' == FsyncDirW(c, w, id)
    case DoMask(b) => w' == BlockW(w, b)
    case DoArm(s, q, n) => s < |w.slots| && w' == ArmW(w, s, q, n)
    case DoClear(s) => s < |w.slots| && w' == ClearW(w, s)
    case DoRefuse(q) => w' == RefuseW(w, q)
    case DoFlushFail(id) => w' == FlushFailW(w, id)
    case DoUnstat(id) => w' == UnstatW(w, id)
    case DoNote => OnlyNoted(w, w')
  }

  /** Nothing changes but what is kept of the run for the proof. */
  predicate OnlyNoted(w: World, w': World) {
    w'.(committed := w.committed, taken := w.taken, left := w.left, guard := w.guard) == w
  }

  /** One call leads from w to w'. */
  ghost predicate OneCall(c: Config, w: World, w': World) {
    exists call :: Happens(c, w, call, w')
  }

  /** A name's file counts as flushed under it only by an fsync of that file, and
      a file as flushed until it is written to. */
  lemma OnlyFsyncAnchors(c: Config, w: World, w': World, q: Path)
    requires OneCall(c, w, w') && q in w'.anchored && q !in w.anchored
    ensures q in w.names && w.names[q] in w.files && w' == FsyncW(w, w.names[q])
  {
    hide Happens;
    var call :| Happens(c, w, call, w');
    if call.DoFsync? { FsyncHappens(c, w, call, w'); } else { NotFsynced(c, w, call, w'); }
  }

  lemma OnlyFsyncSyncs(c: Config, w: World, w': World, n: Ino)
    requires OneCall(c, w, w') && n in w.files && n < w.next && !w.files[n].synced && n in w'.files && w'.files[n].synced
    ensures w' == FsyncW(w, n)
  {
    hide Happens;
    var call :| Happens(c, w, call, w');
    if call.DoFsync? { FsyncHappens(c, w, call, w'); } else { NotFsynced(c, w, call, w'); }
  }

  lemma FsyncHappens(c: Config, w: World, call: Call, w': World)
    requires Happens(c, w, call, w') && call.DoFsync?
    ensures call.ino in w.files && w' == FsyncW(w, call.ino)
  {}

  lemma NotFsynced(c: Config, w: World, call: Call, w': World)
    requires Happens(c, w, call, w') && !call.DoFsync?
    ensures w'.anchored <= w.anchored
    ensures forall n :: n in w.files && n < w.next && n in w'.files && w'.files[n].synced ==> w.files[n].synced
  {
    hide Dir, Granted, Reswapped, FlushedGuard, Logged;
    match call
    case DoCreate(q, role, m) =>
    case DoTmpfile(dir, m) =>
    case DoLink(n, q) =>
    case DoUnlink(q) =>
    case DoRename(s, t) =>
    case DoExchange(s, p, b) =>
    case DoAlter(n, f) =>
    case DoClose(n) =>
    case DoOpenDir =>
    case DoCloseDir =>
    case DoFsyncDir(id) =>
    case DoMask(b) =>
    case DoArm(s, q, n) =>
    case DoClear(s) =>
    case DoRefuse(q) =>
    case DoFlushFail(id) =>
    case DoUnstat(id) =>
    case DoNote =>
  }

  /** The invariants hold in every state of a run, and each comes from the last by
      one call. */
  ghost predicate Went(c: Config, trace: seq<World>) {
    && (forall i :: 0 <= i < |trace| ==> PointOK(c, trace[i]) && Tied(c, trace[i]))
    && (forall i :: 0 <= i < |trace| - 1 ==> OneCall(c, trace[i], trace[i + 1]))
  }

  /* ----- kinds of files ----- */

  lemma SameKinds(c: Config, w: World, w': World)
    requires KindsOK(c, w) && w'.names == w.names && w'.files == w.files
    ensures KindsOK(c, w')
  {}

  /** A regular file is new, or has a further name. */
  lemma NewKinds(c: Config, w: World, w': World, n: Ino)
    requires KindsOK(c, w) && WellFormed(c, w) && n in w'.files && w'.files[n].kind == Regular
    requires w'.files == w.files || (n == w.next && w'.files == w.files[n := w'.files[n]])
    requires forall q :: q in w'.names ==> w'.names[q] == n || (q in w.names && w'.names[q] == w.names[q])
    requires forall q :: q in w.names ==> q in w'.names && w'.names[q] == w.names[q]
    ensures KindsOK(c, w')
  {}

  lemma CreateKinds(c: Config, w: World, q: Path, role: Role, m: Mode)
    requires KindsOK(c, w) && WellFormed(c, w) && q !in w.names
    ensures KindsOK(c, CreateW(c, w, q, role, m))
  {
    hide WellFormed, KindsOK, Granted, Dir, AgainBy, ShownBy;
    NewKinds(c, w, CreateW(c, w, q, role, m), w.next);
  }

  lemma LinkKinds(c: Config, w: World, n: Ino, q: Path)
    requires KindsOK(c, w) && WellFormed(c, w) && q !in w.names && n in w.files && IsRegular(w, n)
    ensures KindsOK(c, LinkW(c, w, n, q))
  {
    hide WellFormed, KindsOK, Granted, Dir, AgainBy, ShownBy;
    NewKinds(c, w, LinkW(c, w, n, q), n);
  }

  lemma FewerKinds(c: Config, w: World, w': World)
    requires KindsOK(c, w) && Unclobbered(c, w') && w'.files == w.files && forall q :: q in w'.names ==> q in w.names && w'.names[q] == w.names[q]
    ensures KindsOK(c, w')
  {
    hide Replaceable;
  }

  /** What had a name at the start has one still, so only a regular file can be moved. */
  lemma MoveKinds(c: Config, w: World, s: Path, t: Path)
    requires KindsOK(c, w) && s in w.names && !(t in w.names && IsDirectory(c, t)) && Unclobbered(c, MoveW(c, w, s, t))
    ensures KindsOK(c, MoveW(c, w, s, t))
  {
    hide Replaceable;
  }

  lemma SwapKinds(c: Config, w: World, s: Path, p: Path, b: Path)
    requires KindsOK(c, w) && s in w.names && p in w.names && w.names[s] in w.files && w.names[p] in w.files
    requires IsRegular(w, w.names[s]) && IsRegular(w, w.names[p])
    ensures KindsOK(c, SwapW(c, w, s, p, b))
  {
    hide Reswapped;
  }

  lemma FileKinds(c: Config, w: World, w': World, n: Ino)
    requires KindsOK(c, w) && n in w.files && n in w'.files && w'.files == w.files[n := w'.files[n]] && w'.files[n].kind == w.files[n].kind
    requires w'.names == w.names
    ensures KindsOK(c, w')
  {}

  /** Something that is no regular file has only names it had at the start. */
  lemma KindsAt(c: Config, w: World, q: Path)
    requires KindsOK(c, w) && q in w.names && w.names[q] in w.files && w.files[w.names[q]].kind != Regular
    ensures q in c.init && c.init[q] == w.names[q] && KindOf(c, c.init[q]) == w.files[w.names[q]].kind
  {}

  /** A directory has the names it had. */
  lemma DirectoryAt(c: Config, w: World, q: Path)
    requires KindsOK(c, w) && q in w.names && w.names[q] in w.files && IsDirectory(c, q)
    ensures w.names[q] == c.init[q] && w.files[w.names[q]].kind == Directory
  {}

  lemma NoDirectory(c: Config, w: World, q: Path)
    requires KindsOK(c, w) && (q in w.names ==> w.names[q] in w.files && w.files[w.names[q]].kind != Directory)
    ensures q in w.names ==> !IsDirectory(c, q)
  {
    if q in w.names && IsDirectory(c, q) { DirectoryAt(c, w, q); }
  }

  lemma TmpfileKinds(c: Config, w: World, dir: string, m: Mode)
    requires KindsOK(c, w) && WellFormed(c, w)
    ensures KindsOK(c, TmpfileW(c, w, dir, m))
  {
    hide WellFormed, KindsOK, Granted;
    NewKinds(c, w, TmpfileW(c, w, dir, m), w.next);
  }

  lemma UnlinkFewer(c: Config, w: World, q: Path)
    requires q in w.names
    ensures var w' := UnlinkW(c, w, q); w'.files == w.files && forall x :: x in w'.names ==> x in w.names && w'.names[x] == w.names[x]
  {}

  lemma OpenDirHappens(c: Config, w: World)
    ensures
      var w' := DirFdW(w, w.dirFds + 1);
      Happens(c, w, DoOpenDir, w') && w'.names == w.names && w'.disk == w.disk && w'.logs == w.logs && w'.files == w.files
  {}

  lemma TmpfileHappens(c: Config, w: World, dir: string, m: Mode)
    ensures
      var w' := TmpfileW(c, w, dir, m);
      Happens(c, w, DoTmpfile(dir, m), w') && w'.names == w.names && w'.disk == w.disk && w'.logs == w.logs
  {
    hide Granted;
  }

  lemma PointWellFormed(c: Config, w: World)
    requires PointOK(c, w)
    ensures WellFormed(c, w)
  {}

  lemma PointNames(c: Config, w: World, q: Path)
    requires PointOK(c, w) && q in w.names
    ensures w.names[q] in w.files
  {
    hide SignalOK, PublishOK, CrashOK, HistoryOK;
  }

  lemma PointUnclobbered(c: Config, w: World)
    requires PointOK(c, w)
    ensures Unclobbered(c, w)
  {
    hide SignalOK, PublishOK, CrashOK, HistoryOK, Unclobbered;
  }

  /** How many names are tried before a temporary name is given up. */
  const TEMP_TRIES := 100

  /** faults counts the calls that failed, other than for a name that is there or
      missing, and other than one the system does not have. */
  class Machine {
    const c: Config
    var w: World
    ghost var trace: seq<World>
    ghost var faults: nat

    ghost predicate Valid()
      reads this
    {
      && ConfigOK(c) && PointOK(c, w) && Tied(c, w) && KindsOK(c, w)
      && |trace| > 0 && trace[|trace| - 1] == w && Went(c, trace)
    }

    constructor (c: Config, w: World)
      requires ConfigOK(c) && PointOK(c, w) && Tied(c, w) && KindsOK(c, w)
      ensures Valid() && this.c == c && this.w == w && trace == [w] && faults == 0
    {
      this.c := c;
      this.w := w;
      trace, faults := [w], 0;
    }

    /** One step. */
    method Step(ghost call: Call, w': World)
      requires Valid() && PointOK(c, w') && Tied(c, w') && KindsOK(c, w') && Happens(c, w, call, w')
      modifies this
      ensures Valid() && w == w' && trace == old(trace) + [w'] && faults == old(faults)
    {
      hide PointOK, ConfigOK, Tied, KindsOK, Happens;
      assert OneCall(c, w, w');
      w := w';
      trace := trace + [w'];
    }

    /** A step that changes no name. */
    method Do(ghost call: Call, w': World)
      requires Valid() && PointOK(c, w') && KindsOK(c, w') && Happens(c, w, call, w')
      requires w'.names == w.names && w'.disk == w.disk && w'.logs == w.logs
      modifies this
      ensures Valid() && w == w' && trace == old(trace) + [w'] && faults == old(faults)
    {
      hide PointOK, ConfigOK, Tied, Went, Happens;
      SameTied(c, w, w');
      Step(call, w');
    }

    /** No step of the program: something is noted. */
    method Enter(w': World)
      requires Valid() && PointOK(c, w') && OnlyNoted(w, w')
      modifies this
      ensures Valid() && w == w' && trace == old(trace) + [w'] && faults == old(faults)
    {
      hide PointOK, ConfigOK, Tied, Went, KindsOK;
      Same(DoNote, w');
    }

    /** A step that changes no file either. */
    method Same(ghost call: Call, w': World)
      requires Valid() && PointOK(c, w') && Happens(c, w, call, w')
      requires w'.names == w.names && w'.disk == w.disk && w'.logs == w.logs && w'.files == w.files
      modifies this
      ensures Valid() && w == w' && trace == old(trace) + [w'] && faults == old(faults)
    {
      hide PointOK, ConfigOK, Tied, Went, Happens;
      SameKinds(c, w, w');
      Do(call, w');
    }

    /* ----- what counts as a fault ----- */

    /** Some call that tells no more than whether it worked, or work of that kind. */
    method Works() returns (ok: bool)
      requires Valid()
      modifies this`faults
      ensures Valid() && faults == old(faults) + if ok then 0 else 1
    {
      hide PointOK, ConfigOK, Tied, Went, KindsOK;
      ok := *;
      if !ok { faults := faults + 1; }
    }

    /** Every temporary name that was tried was taken. */
    ghost method RanOut(tried: seq<Path>)
      requires Valid() && |tried| == TEMP_TRIES && forall i :: 0 <= i < |tried| ==> tried[i] in w.names
      modifies this`faults
      ensures Valid() && faults == old(faults) + 1
    {
      hide PointOK, ConfigOK, Tied, Went, KindsOK;
      faults := faults + 1;
    }

    /** n calls that failed on files that have no name. */
    ghost method CountFaults(n: nat)
      requires Valid()
      modifies this`faults
      ensures Valid() && faults == old(faults) + n
    {
      hide PointOK, ConfigOK, Tied, Went, KindsOK;
      faults := faults + n;
    }

    /** A call failed; it did nothing else. */
    method Refuse(q: Path)
      requires Valid()
      modifies this
      ensures Valid() && w == RefuseW(old(w), q) && old(trace) <= trace && faults == old(faults)
    {
      hide PointOK, ConfigOK, Tied, Went, KindsOK;
      RefusePoint(c, w, RefuseW(w, q));
      Same(DoRefuse(q), RefuseW(w, q));
    }

    method FlushFail(id: DirId)
      requires Valid()
      modifies this
      ensures Valid() && w == FlushFailW(old(w), id) && old(trace) <= trace && faults == old(faults)
    {
      hide PointOK, ConfigOK, Tied, Went, KindsOK;
      RefusePoint(c, w, FlushFailW(w, id));
      Same(DoFlushFail(id), FlushFailW(w, id));
    }

    /* ----- names ----- */

    method Open(q: Path, role: Role, m: Mode) returns (r: Reply, n: Ino)
      requires Valid()
      requires q !in w.names ==> PointOK(c, CreateW(c, w, q, role, m))
      modifies this
      ensures Valid() && old(trace) <= trace && faults == old(faults) + if r == Failed then 1 else 0
      ensures r == Ok ==> q !in old(w).names && n == old(w).next && w == CreateW(c, old(w), q, role, m)
      ensures r != Ok ==> w == old(w)
      ensures r == Ok || r == Failed || (r == Exists && q in w.names)
    {
      hide PointOK, ConfigOK, Tied, Went, KindsOK;
      n := w.next;
      if q in w.names {
        return Exists, n;
      }
      var works := Works();
      if works {
        r := Ok;
        CreateKinds(c, w, q, role, m) by { PointWellFormed(c, w); }
        CreateTied(c, w, q, role, m);
        Step(DoCreate(q, role, m), CreateW(c, w, q, role, m));
      } else {
        r := Failed;
      }
    }

    method Tmpfile(dir: string, m: Mode) returns (r: Reply, n: Ino)
      requires Valid() && |w.open| <= c.batch
      modifies this
      ensures Valid() && old(trace) <= trace && faults == old(faults) + if r == Failed then 1 else 0
      ensures r == Ok ==> n == old(w).next && w == TmpfileW(c, old(w), dir, m)
      ensures r != Ok ==> w == old(w) && (r == Cannot || r == Failed)
    {
      hide Happens, TmpfileW, PointOK, ConfigOK, Tied, Went, KindsOK;
      n := w.next;
      var has: bool := *;
      if !has {
        return Cannot, n;
      }
      var works := Works();
      r := if works then Ok else Failed;
      if works {
        TmpfileHappens(c, w, dir, m);
        TmpfilePoint(c, w, dir, m);
        TmpfileKinds(c, w, dir, m) by { PointWellFormed(c, w); }
        Do(DoTmpfile(dir, m), TmpfileW(c, w, dir, m));
      }
    }

    /** Gives the open file n the name q. */
    method LinkFile(n: Ino, q: Path) returns (r: Reply)
      requires Valid()
      requires n in w.files && IsRegular(w, n) && (q !in w.names ==> PointOK(c, LinkW(c, w, n, q)))
      modifies this
      ensures Valid() && old(trace) <= trace && faults == old(faults) + if r == Failed then 1 else 0
      ensures r == Ok ==> q !in old(w).names && w == LinkW(c, old(w), n, q)
      ensures r != Ok ==> w == old(w)
      ensures r == Ok || r == Failed || (r == Exists && q in w.names)
    {
      hide PointOK, ConfigOK, Tied, Went, KindsOK;
      if q in w.names {
        return Exists;
      }
      var works := Works();
      if works {
        r := Ok;
        LinkKinds(c, w, n, q) by { PointWellFormed(c, w); }
        LinkTied(c, w, n, q);
        Step(DoLink(n, q), LinkW(c, w, n, q));
      } else {
        r := Failed;
      }
    }

    method Link(s: Path, q: Path) returns (r: Reply)
      requires Valid()
      requires s in w.names ==> IsRegular(w, w.names[s]) && (q !in w.names ==> PointOK(c, LinkW(c, w, w.names[s], q)))
      modifies this
      ensures Valid() && old(trace) <= trace && faults == old(faults) + if r == Failed then 1 else 0
      ensures r == Ok ==> s in old(w).names && q !in old(w).names && w == LinkW(c, old(w), old(w).names[s], q)
      ensures r != Ok ==> w == old(w)
      ensures r == Ok || r == Failed || (r == Exists && q in w.names) || (r == Missing && s !in w.names)
    {
      hide PointOK, ConfigOK, Tied, Went, KindsOK;
      if s in w.names {
        assert w.names[s] in w.files by { PointNames(c, w, s); }
        r := LinkFile(w.names[s], q);
      } else {
        r := Missing;
      }
    }

    /** link, where the system may have none for this file. */
    method LinkIfCan(s: Path, q: Path) returns (r: Reply)
      requires Valid()
      requires s in w.names ==> IsRegular(w, w.names[s]) && (q !in w.names ==> PointOK(c, LinkW(c, w, w.names[s], q)))
      modifies this
      ensures Valid() && old(trace) <= trace && faults == old(faults) + if r == Failed then 1 else 0
      ensures r == Ok ==> s in old(w).names && q !in old(w).names && w == LinkW(c, old(w), old(w).names[s], q)
      ensures r != Ok ==> w == old(w)
      ensures r == Ok || r == Failed || r == Cannot || (r == Exists && q in w.names) || (r == Missing && s !in w.names)
    {
      hide PointOK, ConfigOK, Tied, Went, KindsOK;
      var has: bool := *;
      if !has {
        return Cannot;
      }
      r := Link(s, q);
    }

    method Unlink(q: Path) returns (r: Reply)
      requires Valid()
      requires q in w.names ==> PointOK(c, UnlinkW(c, w, q))
      modifies this
      ensures Valid() && old(trace) <= trace && faults == old(faults) + if r == Failed then 1 else 0
      ensures r == Ok ==> q in old(w).names && w == UnlinkW(c, old(w), q)
      ensures r == Missing ==> w == old(w) && q !in w.names
      ensures r != Ok && r != Missing ==> r == Failed && w == RefuseW(old(w), q)
    {
      hide PointOK, ConfigOK, Tied, Went, KindsOK;
      var works := Works();
      if !works {
        r := Failed;
        Refuse(q);
      } else if q !in w.names {
        r := Missing;
      } else {
        r := Ok;
        FewerKinds(c, w, UnlinkW(c, w, q)) by { UnlinkFewer(c, w, q); PointUnclobbered(c, UnlinkW(c, w, q)); }
        UnlinkTied(c, w, q);
        Step(DoUnlink(q), UnlinkW(c, w, q));
      }
    }

    /** Replaces t if it exists and is not a directory. */
    method Rename(s: Path, t: Path) returns (ok: bool)
      requires Valid()
      requires Id(c, s) == Id(c, t) && (s in w.names ==> PointOK(c, MoveW(c, w, s, t)))
      modifies this
      ensures Valid() && old(trace) <= trace && faults >= old(faults)
      ensures ok ==> s in old(w).names && w == MoveW(c, old(w), s, t)
      ensures !ok ==> w == old(w) && (faults > old(faults) || s !in w.names || (t in w.names && IsDirectory(c, t)))
    {
      hide PointOK, ConfigOK, Tied, Went, KindsOK;
      var works := Works();
      var isDir := t in w.names && w.names[t] in w.files && w.files[w.names[t]].kind == Directory;
      ok := works && s in w.names && !isDir;
      if isDir { KindsAt(c, w, t); } else { NoDirectory(c, w, t) by { if t in w.names { PointNames(c, w, t); } } }
      if ok {
        MoveKinds(c, w, s, t) by { PointUnclobbered(c, MoveW(c, w, s, t)); }
        MoveTied(c, w, s, t);
        Step(DoRename(s, t), MoveW(c, w, s, t));
      }
    }

    method RenameNoReplace(s: Path, t: Path) returns (r: Reply)
      requires Valid()
      requires Id(c, s) == Id(c, t) && (s in w.names && t !in w.names ==> PointOK(c, MoveW(c, w, s, t)))
      modifies this
      ensures Valid() && old(trace) <= trace && faults == old(faults) + if r == Failed then 1 else 0
      ensures r == Ok ==> s in old(w).names && t !in old(w).names && w == MoveW(c, old(w), s, t)
      ensures r != Ok ==> w == old(w) && (r == Cannot || r == Failed || (r == Exists && t in w.names) || (r == Missing && s !in w.names))
    {
      hide PointOK, ConfigOK, Tied, Went, KindsOK;
      var has: bool := *;
      if !has {
        return Cannot;
      }
      if s !in w.names || t in w.names {
        return if t in w.names then Exists else Missing;
      }
      var works := Works();
      if works {
        r := Ok;
        MoveKinds(c, w, s, t) by { PointUnclobbered(c, MoveW(c, w, s, t)); }
        MoveTied(c, w, s, t);
        Step(DoRename(s, t), MoveW(c, w, s, t));
      } else {
        r := Failed;
      }
    }

    method Exchange(s: Path, p: Path, b: Path) returns (r: Reply)
      requires Valid()
      requires s != p && Id(c, s) == Id(c, p) && (s in w.names && p in w.names ==> PointOK(c, SwapW(c, w, s, p, b)))
      requires s in w.names && p in w.names ==> IsRegular(w, w.names[s]) && IsRegular(w, w.names[p])
      modifies this
      ensures Valid() && old(trace) <= trace && faults == old(faults) + if r == Failed then 1 else 0
      ensures r == Ok ==> s in old(w).names && p in old(w).names && w == SwapW(c, old(w), s, p, b)
      ensures r != Ok ==> w == old(w) && (r == Cannot || r == Failed || (r == Missing && (s !in w.names || p !in w.names)))
    {
      hide PointOK, ConfigOK, Tied, Went, KindsOK;
      var has: bool := *;
      if !has {
        return Cannot;
      }
      if s !in w.names || p !in w.names {
        return Missing;
      }
      var works := Works();
      if works {
        r := Ok;
        PointNames(c, w, s);
        PointNames(c, w, p);
        SwapKinds(c, w, s, p, b);
        SwapTied(c, w, s, p, b);
        Step(DoExchange(s, p, b), SwapW(c, w, s, p, b));
      } else {
        r := Failed;
      }
    }

    /** Ok gives the inode, Missing says there is none. */
    method Lstat(q: Path) returns (r: Reply, n: Ino)
      requires Valid()
      modifies this
      ensures Valid() && old(trace) <= trace && faults == old(faults) + if r == Failed then 1 else 0
      ensures r == Ok ==> w == old(w) && q in w.names && n == w.names[q]
      ensures r == Missing ==> w == old(w) && q !in w.names
      ensures r != Ok && r != Missing ==> r == Failed && w == RefuseW(old(w), q)
    {
      hide PointOK, ConfigOK, Tied, Went, KindsOK;
      r, n := Look(q);
      if r == Failed {
        Refuse(q);
      }
    }

    /** lstat where a failure is no refusal to remove anything. */
    method Look(q: Path) returns (r: Reply, n: Ino)
      requires Valid()
      modifies this`faults
      ensures Valid() && faults == old(faults) + if r == Failed then 1 else 0
      ensures r == Ok ==> q in w.names && n == w.names[q]
      ensures r == Missing ==> q !in w.names
      ensures r == Ok || r == Missing || r == Failed
    {
      hide PointOK, ConfigOK, Tied, Went, KindsOK;
      var works := Works();
      n := 0;
      if !works {
        r := Failed;
      } else if q in w.names {
        r, n := Ok, w.names[q];
      } else {
        r := Missing;
      }
    }

    /* ----- open files ----- */

    /** Content, owner and mode of an open file change; fsync is then due again. */
    method Alter(n: Ino, f: File) returns (ok: bool)
      requires Valid() && n in w.open && !f.synced && PointOK(c, FileW(w, n, f)) && n in w.files && f.kind == w.files[n].kind
      modifies this
      ensures Valid() && old(trace) <= trace && faults == old(faults) + if ok then 0 else 1
      ensures w == if ok then FileW(old(w), n, f) else old(w)
    {
      hide PointOK, ConfigOK, Tied, Went, KindsOK;
      ok := Works();
      if ok {
        FileKinds(c, w, FileW(w, n, f), n);
        Do(DoAlter(n, f), FileW(w, n, f));
      }
    }

    method Fsync(n: Ino) returns (ok: bool)
      requires Valid() && n in w.open
      modifies this
      ensures Valid() && old(trace) <= trace && faults == old(faults) + if ok then 0 else 1
      ensures n in old(w).files
      ensures w == if ok then FsyncW(old(w), n) else old(w)
    {
      hide Tied, Went, KindsOK, SignalOK, PublishOK, CrashOK, HistoryOK;
      ok := Works();
      assert n in w.files;
      if ok {
        FsyncPoint(c, w, n);
        FileKinds(c, w, FsyncW(w, n), n);
        Do(DoFsync(n), FsyncW(w, n));
      }
    }

    /** The descriptor is gone whether or not the call reports an error. */
    method Close(n: Ino) returns (ok: bool)
      requires Valid()
      modifies this
      ensures Valid() && old(trace) <= trace && faults == old(faults) + if ok then 0 else 1
      ensures w == CloseW(old(w), n)
    {
      hide PointOK, ConfigOK, Tied, Went, KindsOK;
      ok := Works();
      ClosePoint(c, w, n);
      Same(DoClose(n), CloseW(w, n));
    }

    /* ----- directories ----- */

    /** Cannot: permission is denied, which is no error here. */
    method OpenDir(dir: string) returns (r: Reply)
      requires Valid() && w.dirFds < c.batch
      modifies this
      ensures r == Ok || r == Cannot || r == Failed
      ensures Valid() && old(trace) <= trace && faults == old(faults) + if r == Failed then 1 else 0
      ensures w == match r
                   case Ok => DirFdW(old(w), old(w).dirFds + 1)
                   case Cannot => old(w)
                   case _ => FlushFailW(old(w), c.ident(dir))
      ensures c.flushes(c.ident(dir)) ==> r != Cannot
    {
      hide PointOK, ConfigOK, Tied, Went, KindsOK, Happens, DirFdW, FlushFailW;
      OpenDirHappens(c, w);
      var has: bool := *;
      if !has && !c.flushes(c.ident(dir)) {
        return Cannot;
      }
      var works := Works();
      if works {
        r := Ok;
        DirFdPoint(c, w, w.dirFds + 1);
        Same(DoOpenDir, DirFdW(w, w.dirFds + 1));
      } else {
        r := Failed;
        FlushFail(c.ident(dir));
      }
    }

    method CloseDir()
      requires Valid() && w.dirFds > 0
      modifies this
      ensures Valid() && old(trace) <= trace && faults == old(faults)
      ensures w == DirFdW(old(w), old(w).dirFds - 1)
    {
      hide Tied, Went, KindsOK, SignalOK, PublishOK, CrashOK, HistoryOK;
      DirFdPoint(c, w, w.dirFds - 1);
      Same(DoCloseDir, DirFdW(w, w.dirFds - 1));
    }

    /** Cannot: a filesystem that does not flush directories. */
    method FsyncDir(id: DirId) returns (r: Reply)
      requires Valid()
      modifies this
      ensures r == Ok || r == Cannot || r == Failed
      ensures Valid() && old(trace) <= trace && faults == old(faults) + if r == Failed then 1 else 0
      ensures w == match r
                   case Ok => FsyncDirW(c, old(w), id)
                   case Cannot => old(w)
                   case _ => FlushFailW(old(w), id)
      ensures c.flushes(id) ==> r != Cannot
    {
      hide PointOK, ConfigOK, Tied, Went, KindsOK;
      var has: bool := *;
      if !has && !c.flushes(id) {
        return Cannot;
      }
      var works := Works();
      if works {
        r := Ok;
        FsyncDirPoint(c, w, id);
        SameKinds(c, w, FsyncDirW(c, w, id));
        FsyncDirTied(c, w, id);
        Step(DoFsyncDir(id), FsyncDirW(c, w, id));
      } else {
        r := Failed;
        FlushFail(id);
      }
    }

    /** stat of a directory; ok says that it could be examined. */
    method StatDir(id: DirId) returns (ok: bool)
      requires Valid()
      modifies this
      ensures Valid() && old(trace) <= trace && faults == old(faults) + if ok then 0 else 1
      ensures w == if ok then old(w) else UnstatW(old(w), id)
    {
      hide PointOK, ConfigOK, Tied, Went, KindsOK;
      ok := Works();
      if !ok {
        RefusePoint(c, w, UnstatW(w, id));
        Same(DoUnstat(id), UnstatW(w, id));
      }
    }

    /* ----- the signal mask and the pending table ----- */

    method Hold() returns (was: bool)
      requires Valid()
      modifies this
      ensures Valid() && old(trace) <= trace && faults == old(faults)
      ensures was == old(w).blocked && w == BlockW(old(w), true)
    {
      hide PointOK, ConfigOK, Tied, Went, KindsOK;
      was := w.blocked;
      BlockPoint(c, w, true);
      Same(DoMask(true), BlockW(w, true));
    }

    method Release(was: bool)
      requires Valid() && (was || LetThrough(c, w))
      modifies this
      ensures Valid() && old(trace) <= trace && faults == old(faults)
      ensures w == BlockW(old(w), was)
    {
      hide PointOK, ConfigOK, Tied, Went, KindsOK;
      BlockPoint(c, w, was);
      Same(DoMask(was), BlockW(w, was));
    }

    method Arm(s: nat, q: Path, n: Ino)
      requires Valid() && w.blocked && s < PENDING_SLOTS && w.slots[s] == Clear && q !in c.init
      requires (s < BATCH ==> IsTemp(q) || !c.settings.force) && SlotOwn(c, w.files, n) && SlotBeside(c, q)
      modifies this
      ensures Valid() && old(trace) <= trace && faults == old(faults)
      ensures |old(w).slots| == PENDING_SLOTS && w == ArmW(old(w), s, q, n)
    {
      hide Tied, Went, KindsOK, SignalOK, PublishOK, CrashOK, HistoryOK;
      ArmPoint(c, w, s, q, n);
      Same(DoArm(s, q, n), ArmW(w, s, q, n));
    }

    /** The same name, and another file. */
    method Retarget(s: nat, n: Ino)
      requires Valid() && s < |w.slots| && w.slots[s].Armed? && PointOK(c, ArmW(w, s, w.slots[s].path, n))
      modifies this
      ensures Valid() && old(trace) <= trace && faults == old(faults)
      ensures w == ArmW(old(w), s, old(w).slots[s].path, n)
    {
      hide PointOK, ConfigOK, Tied, Went, KindsOK;
      Same(DoArm(s, w.slots[s].path, n), ArmW(w, s, w.slots[s].path, n));
    }

    method ClearSlot(s: nat)
      requires Valid() && s < PENDING_SLOTS && PointOK(c, ClearW(w, s))
      modifies this
      ensures Valid() && old(trace) <= trace && faults == old(faults)
      ensures |old(w).slots| == PENDING_SLOTS && w == ClearW(old(w), s)
    {
      hide Tied, Went, KindsOK, SignalOK, PublishOK, CrashOK, HistoryOK;
      Same(DoClear(s), ClearW(w, s));
    }
  }
}
