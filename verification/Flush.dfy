/** Making the directories that name new files durable. */
module Flush {
  import opened Names
  import opened Spec
  import opened World
  import opened Steps
  import opened Coherence
  import opened Kernel
  import opened Frames

  /** Every name in the directory is on disk as it is seen. */
  ghost predicate Clean(c: Config, w: World, id: DirId) {
    && LogOf(w, id) == []
    && (forall q :: q in w.names && Id(c, q) == id ==> q in w.disk && w.disk[q] == w.names[q])
  }

  predicate GuardFlushes(g: Guard, g': Guard) {
    g' == g || (g.Swapped? && g' == Flushed(g.spare, g.backup))
  }

  /** Flushing directories changes nothing else; what was on disk stays. */
  ghost predicate OnlyDisk(c: Config, w: World, w': World) {
    && w'.(disk := w.disk, logs := w.logs, guard := w.guard, dirFds := w.dirFds, flushFailed := w.flushFailed) == w
    && w.flushFailed <= w'.flushFailed
    && (forall q :: SettledAt(c, w, q) ==> SettledAt(c, w', q))
    && (forall id :: Clean(c, w, id) ==> Clean(c, w', id))
    && w'.guard.Keys == w.guard.Keys
    && (forall p :: p in w.guard ==> GuardFlushes(w.guard[p], w'.guard[p]))
  }

  lemma OnlyDiskTrans(c: Config, w0: World, w1: World, w2: World)
    requires OnlyDisk(c, w0, w1) && OnlyDisk(c, w1, w2)
    ensures OnlyDisk(c, w0, w2)
  {
    hide SettledAt, Clean;
    PrefixTrans(w0.flushFailed, w1.flushFailed, w2.flushFailed);
  }

  lemma PrefixTrans(a: seq<DirId>, b: seq<DirId>, d: seq<DirId>)
    requires a <= b && b <= d
    ensures a <= d
  {}

  lemma OnlyDiskFrame(c: Config, w: World, w': World, slot: nat, z: Zone, own: Ino)
    requires OnlyDisk(c, w, w') && w'.dirFds == w.dirFds
    ensures Frame(c, w, w', slot, z, own)
  {
    hide Outside, SettledAt, Clean, IsNumbered, IsTemp, Within, Guarded, GuardFrame;
    FlushMoves(c, w, w', z.path);
  }

  lemma FlushMoves(c: Config, w: World, w': World, p: Path)
    requires w'.guard.Keys == w.guard.Keys && forall x :: x in w.guard ==> GuardFlushes(w.guard[x], w'.guard[x])
    ensures GuardFrame(c, w, w', p)
  {
    hide Guarded, IsTemp, BackupName;
  }

  lemma OnlyDiskSteady(c: Config, w: World, w': World)
    requires OnlyDisk(c, w, w')
    ensures Steady(c, w) ==> Steady(c, w')
  {
    hide SettledAt, Clean, SlotsOK, FileDone, Dir;
    SameSlots(w, w');
    if Classified(c, w) { SameClass(c, w, w'); }
  }

  lemma DirFdOnly(c: Config, w: World, n: nat)
    ensures OnlyDisk(c, w, DirFdW(w, n)) && DirFdW(w, n).dirFds == n && DirFdW(w, n).flushFailed == w.flushFailed && DirFdW(w, w.dirFds) == w
  {
    hide Dir, Untouched;
  }

  lemma FsyncDirOnly(c: Config, w: World, id: DirId)
    ensures OnlyDisk(c, w, FsyncDirW(c, w, id)) && Clean(c, FsyncDirW(c, w, id), id)
  {
    hide Dir, SettledAt, Clean;
    FsyncDirSettled(c, w, id);
    FsyncDirClean(c, w, id);
  }

  lemma FsyncDirSettled(c: Config, w: World, id: DirId)
    ensures forall q :: SettledAt(c, w, q) ==> SettledAt(c, FsyncDirW(c, w, id), q)
  {
    hide Dir;
  }

  lemma FsyncDirClean(c: Config, w: World, id: DirId)
    ensures Clean(c, FsyncDirW(c, w, id), id) && forall d :: Clean(c, w, d) ==> Clean(c, FsyncDirW(c, w, id), d)
  {
    hide Dir;
  }

  /** What is in a clean directory is safe from a crash. */
  lemma CleanSettles(c: Config, w: World, q: Path)
    requires Clean(c, w, Id(c, q)) && q in w.names
    ensures Settled(c, w, q, w.names[q])
  {
    hide Dir;
  }

  lemma OnlyDiskFailed(c: Config, w: World, w': World)
    requires OnlyDisk(c, w, w')
    ensures w.flushFailed <= w'.flushFailed
  {}

  /** A failure is noted, nothing else. */
  lemma FlushFailOnly(c: Config, w: World, id: DirId)
    ensures OnlyDisk(c, w, FlushFailW(w, id)) && FlushFailW(w, id).flushFailed == w.flushFailed + [id]
    ensures FlushFailW(w, id).dirFds == w.dirFds
  {
    hide Dir, Untouched;
  }

  /** Where flushing does nothing, nothing is promised. */
  lemma UnflushedSettles(c: Config, w: World, q: Path)
    requires !c.flushes(Id(c, q)) && q in w.names
    ensures Settled(c, w, q, w.names[q])
  {
    hide Dir;
  }

  /** In a clean directory no exchange is waiting to be flushed. */
  lemma CleanSwap(c: Config, w: World, p: Path)
    requires Guarded(c) && CrashOK(c, w) && Clean(c, w, Id(c, p)) && c.flushes(Id(c, p))
    ensures NoSwapAt(w, p)
  {
    hide Guarded, Dir, GuardNames;
    forall x | x in w.guard && w.guard[x].Swapped? ensures w.guard[x].path != p {
      assert GuardAt(c, w, x);
    }
  }

  /** One directory at once. A directory that may not be found, or that the
      filesystem does not flush, is not an error. */
  method FlushDir(k: Machine, dir: string) returns (ok: bool)
    requires k.Valid() && k.w.dirFds < k.c.batch
    modifies k
    ensures k.Valid() && old(k.trace) <= k.trace && old(k.faults) <= k.faults
    ensures OnlyDisk(k.c, old(k.w), k.w) && k.w.dirFds == old(k.w).dirFds
    ensures ok <==> k.faults == old(k.faults)
    ensures ok && k.c.flushes(k.c.ident(dir)) ==> Clean(k.c, k.w, k.c.ident(dir))
  {
    hide PointOK, ConfigOK, Tied, Went, KindsOK, OnlyDisk, Clean, DirFdW, FlushFailW;
    ghost var w0 := k.w;
    DirFdOnly(k.c, w0, w0.dirFds);
    DirFdOnly(k.c, w0, w0.dirFds + 1);
    FlushFailOnly(k.c, w0, k.c.ident(dir));
    var r := k.OpenDir(dir);
    if r != Ok {
      ok := r == Cannot;
      return;
    }
    ghost var w1 := k.w;
    r := FsyncOne(k, k.c.ident(dir));
    ghost var w2 := k.w;
    OnlyDiskTrans(k.c, w0, w1, w2);
    k.CloseDir();
    DirFdOnly(k.c, w2, w2.dirFds - 1);
    OnlyDiskTrans(k.c, w0, w2, k.w);
    CleanKept(k.c, w2, k.w, k.c.ident(dir));
    ok := r == Ok || r == Cannot;
  }

  /** fsync of a directory that is open. */
  method FsyncOne(k: Machine, id: DirId) returns (r: Reply)
    requires k.Valid()
    modifies k
    ensures k.Valid() && old(k.trace) <= k.trace && old(k.faults) <= k.faults
    ensures OnlyDisk(k.c, old(k.w), k.w) && k.w.dirFds == old(k.w).dirFds
    ensures r == Ok || r == Cannot <==> k.faults == old(k.faults)
    ensures r == Ok ==> Clean(k.c, k.w, id)
    ensures k.c.flushes(id) ==> r != Cannot
    ensures k.w.flushFailed == if r != Ok && r != Cannot then old(k.w).flushFailed + [id] else old(k.w).flushFailed
  {
    hide PointOK, ConfigOK, Tied, Went, KindsOK, OnlyDisk, Clean;
    ghost var w := k.w;
    FsyncDirOnly(k.c, w, id);
    FlushFailOnly(k.c, w, id);
    DirFdOnly(k.c, w, w.dirFds);
    r := k.FsyncDir(id);
  }

  lemma CleanKept(c: Config, w: World, w': World, id: DirId)
    requires OnlyDisk(c, w, w')
    ensures Clean(c, w, id) ==> Clean(c, w', id)
  {}

  lemma InPrefix(ids: seq<DirId>, ids': seq<DirId>, id: DirId)
    requires ids <= ids'
    ensures id in ids ==> id in ids'
  {
    if id in ids {
      var i :| 0 <= i < |ids| && ids[i] == id;
      assert ids'[i] == id;
    }
  }

  /** How many there are. */
  function Trues(errs: seq<bool>): nat {
    if errs == [] then 0 else Trues(errs[..|errs| - 1]) + (if errs[|errs| - 1] then 1 else 0)
  }

  lemma TruesNone(errs: seq<bool>)
    ensures Trues(errs[..0]) == 0
  {}

  lemma {:induction false} TruesAdd(errs: seq<bool>, err: bool)
    ensures Trues(errs + [err]) == Trues(errs) + if err then 1 else 0
  {
    assert (errs + [err])[..|errs|] == errs;
  }

  lemma {:induction false} TruesMore(errs: seq<bool>, i: nat)
    requires i < |errs|
    ensures Trues(errs[..i + 1]) == Trues(errs[..i]) + (if errs[i] then 1 else 0)
    ensures Trues(errs[..i + 1]) <= Trues(errs)
    decreases |errs|
  {
    assert errs[..i + 1][..i] == errs[..i];
    if i + 1 < |errs| {
      var m := |errs| - 1;
      assert errs[..m][..i + 1] == errs[..i + 1];
      TruesMore(errs[..m], i);
    } else {
      assert errs[..i + 1] == errs;
    }
  }

  datatype Failure = Failure(name: string, known: bool, id: DirId)

  datatype OpenDirectory = OpenDirectory(name: string, known: bool, id: DirId)

  /** How many directories the record holds a failure of, and all that failed by then. */
  datatype Tally = Tally(failed: nat, ids: seq<DirId>)

  /** The directories to flush, and a record of those that failed. */
  class FlushSet {
    const k: Machine
    const dirsMax: nat
    var dirs: seq<string>
    var failed: nat
    var failures: seq<Failure>
    var lost: bool

    constructor (k: Machine, max: nat)
      requires k.Valid() && 1 <= max && (if max > BATCH then BATCH else max) <= k.c.batch
      ensures Valid() && this.k == k && dirs == [] && failed == 0 && failures == [] && !lost
    {
      this.k := k;
      dirsMax := if max > BATCH then BATCH else max;
      dirs, failed, failures, lost := [], 0, [], false;
      new;
      assert ConfigOK(k.c);
    }

    ghost predicate Valid()
      reads this, k
    {
      && k.Valid()
      && 1 <= dirsMax <= k.c.batch <= BATCH
      && |dirs| <= dirsMax && |failures| <= BATCH
      && (failures != [] || lost ==> failed > 0)
    }

    /** A failure was recorded under this name or this directory, or may have been. */
    ghost predicate Concerns(dir: string)
      reads `lost, `failures
    {
      lost || exists i :: 0 <= i < |failures| && Hits(failures[i], dir)
    }

    /** Nothing is on record but what failed: ids are the directories that did. */
    ghost predicate OnRecord(ids: seq<DirId>)
      reads `failed, `lost, `failures
    {
      && failed <= |ids| && (lost ==> failed > BATCH)
      && |failures| <= failed
      && (forall i :: 0 <= i < |failures| ==> TrueOf(failures[i], ids))
    }

    ghost predicate TrueOf(f: Failure, ids: seq<DirId>) {
      k.c.ident(f.name) in ids && (f.known ==> f.id in ids)
    }

    lemma RecordGrows(ids: seq<DirId>, ids': seq<DirId>)
      requires OnRecord(ids) && ids <= ids'
      ensures OnRecord(ids')
    {
      forall i | 0 <= i < |failures| ensures TrueOf(failures[i], ids') {
        assert TrueOf(failures[i], ids);
        InPrefix(ids, ids', k.c.ident(failures[i].name));
        InPrefix(ids, ids', failures[i].id);
      }
    }

    ghost predicate Hits(f: Failure, dir: string) {
      f.name == dir || (f.known && f.id == k.c.ident(dir))
    }

    /** What the lookup can tell when stat of dir works or does not. */
    ghost predicate Suspects(f: Failure, dir: string, statWorks: bool) {
      f.name == dir || (f.known && (statWorks ==> f.id == k.c.ident(dir)))
    }

    method DirFailed(name: string, known: bool, id: DirId, ghost ids: seq<DirId>)
      requires Valid() && OnRecord(ids) && failed < |ids| && k.c.ident(name) in ids && (known ==> id in ids)
      modifies this
      ensures Valid() && dirs == old(dirs) && failed == old(failed) + 1 && OnRecord(ids)
      ensures lost || Failure(name, known, id) in failures
      ensures forall d :: old(Concerns(d)) ==> Concerns(d)
    {
      hide PointOK, ConfigOK, Tied, Went, KindsOK;
      failed := failed + 1;
      if |failures| == BATCH {
        lost := true;
      } else {
        ghost var was := failures;
        failures := failures + [Failure(name, known, id)];
        assert failures[|was|] == Failure(name, known, id);
        assert forall i :: 0 <= i < |was| ==> failures[i] == was[i];
      }
    }

    ghost predicate Suspected(dir: string, works: bool)
      reads `lost, `failures
    {
      lost || exists i :: 0 <= i < |failures| && Suspects(failures[i], dir, works)
    }

    lemma SuspectedUnflushed(w: World, dir: string, works: bool, ids: seq<DirId>)
      requires OnRecord(ids) && ids <= w.flushFailed && Suspected(dir, works)
      requires works || k.c.ident(dir) in w.unstat
      ensures Unflushed(w, k.c.ident(dir))
    {
      if !lost {
        var i :| 0 <= i < |failures| && Suspects(failures[i], dir, works);
        assert TrueOf(failures[i], ids);
        InPrefix(ids, w.flushFailed, k.c.ident(dir));
      }
    }

    lemma ConcernsSuspected(dir: string, works: bool)
      requires Concerns(dir)
      ensures Suspected(dir, works)
    {
      if !lost {
        var i :| 0 <= i < |failures| && Hits(failures[i], dir);
        assert Suspects(failures[i], dir, works);
      }
    }

    /** flush_set_failed. works: stat of dir did not fail. */
    method Failed(dir: string, ghost ids: seq<DirId>) returns (b: bool, ghost works: bool)
      requires Valid() && OnRecord(ids) && ids <= k.w.flushFailed
      modifies k
      ensures Valid() && old(k.trace) <= k.trace && old(k.faults) <= k.faults
      ensures k.w == if works then old(k.w) else UnstatW(old(k.w), k.c.ident(dir))
      ensures b <==> Suspected(dir, works)
      ensures Concerns(dir) ==> b
      ensures b ==> Unflushed(k.w, k.c.ident(dir)) && failed > 0
    {
      hide PointOK, ConfigOK, Tied, Went, KindsOK, OnRecord, Concerns, Unflushed, Suspects;
      b, works := Lookup(dir);
      if b { SuspectedUnflushed(k.w, dir, works, ids); }
      if Concerns(dir) { ConcernsSuspected(dir, works); }
    }

    method Lookup(dir: string) returns (b: bool, ghost works: bool)
      requires Valid()
      modifies k
      ensures Valid() && old(k.trace) <= k.trace && old(k.faults) <= k.faults
      ensures k.w == if works then old(k.w) else UnstatW(old(k.w), k.c.ident(dir))
      ensures b <==> Suspected(dir, works)
    {
      hide PointOK, ConfigOK, Tied, Went, KindsOK;
      works := true;
      if lost {
        return true, works;
      }
      var i, stated := 0, false;
      while i < |failures|
        invariant 0 <= i <= |failures| && Valid() && k.w == old(k.w) && old(k.trace) <= k.trace && old(k.faults) <= k.faults
        invariant forall j :: 0 <= j < i ==> !Suspects(failures[j], dir, true)
      {
        if failures[i].name == dir {
          return true, works;
        }
        if failures[i].known {
          if !stated {
            stated := k.StatDir(k.c.ident(dir));
            if !stated {
              works := false;
              return true, works;
            }
          }
          if failures[i].id == k.c.ident(dir) {
            return true, works;
          }
        }
        i := i + 1;
      }
      b := false;
    }

    method Forget()
      requires Valid()
      modifies this
      ensures Valid() && dirs == old(dirs) && failed == old(failed) && failures == [] && !lost
      ensures forall ids :: old(OnRecord(ids)) ==> OnRecord(ids)
    {
      failures, lost := [], false;
    }

    /** Either the directory is on disk, or its failure is recorded. */
    ghost predicate Handled(dir: string, failedBefore: nat)
      reads this, k
    {
      || !k.c.flushes(k.c.ident(dir))
      || Clean(k.c, k.w, k.c.ident(dir))
      || (Concerns(dir) && failed > failedBefore)
    }

    method Add(dir: string, ghost ids: seq<DirId>)
      requires Valid() && k.w.dirFds == 0 && OnRecord(ids) && ids <= k.w.flushFailed
      modifies this, k
      ensures Valid() && old(k.trace) <= k.trace && old(k.faults) <= k.faults && k.w.dirFds == 0
      ensures OnlyDisk(k.c, old(k.w), k.w)
      ensures dir in dirs && failed >= old(failed) && failed - old(failed) <= k.faults - old(k.faults) && OnRecord(k.w.flushFailed)
      ensures forall d :: old(Concerns(d)) ==> Concerns(d)
      ensures forall d :: d in old(dirs) ==> d in dirs || Handled(d, old(failed))
      ensures forall d :: d in dirs ==> d in old(dirs) || d == dir
    {
      hide PointOK, ConfigOK, Tied, Went, KindsOK, OnlyDisk, Clean;
      DirFdOnly(k.c, k.w, k.w.dirFds);
      RecordGrows(ids, k.w.flushFailed);
      if dir in dirs {
        return;
      }
      if |dirs| == dirsMax {
        Run(k.w.flushFailed);
      }
      dirs := dirs + [dir];
    }

    method Run(ghost ids: seq<DirId>)
      requires Valid() && k.w.dirFds == 0 && OnRecord(ids) && ids <= k.w.flushFailed
      modifies this, k
      ensures Valid() && old(k.trace) <= k.trace && old(k.faults) <= k.faults && k.w.dirFds == 0
      ensures OnlyDisk(k.c, old(k.w), k.w)
      ensures dirs == [] && failed >= old(failed) && failed - old(failed) <= k.faults - old(k.faults) && OnRecord(k.w.flushFailed)
      ensures forall d :: old(Concerns(d)) ==> Concerns(d)
      ensures forall d :: d in old(dirs) ==> Handled(d, old(failed))
    {
      hide PointOK, ConfigOK, Tied, Went, KindsOK, OnlyDisk, Clean;
      ghost var w0 := k.w;
      RecordGrows(ids, w0.flushFailed);
      var found := OpenAll();
      ghost var w1 := k.w;
      ghost var before := failed;
      label Opened:
      var errs := SyncAll(found);
      OnlyDiskTrans(k.c, w0, w1, k.w);
      OnlyDiskFailed(k.c, w1, k.w);
      RecordGrows(w1.flushFailed, k.w.flushFailed);
      ghost var w2 := k.w;
      CloseAll(found, errs);
      OnlyDiskTrans(k.c, w0, w2, k.w);
      forall d | d in old(dirs) ensures Handled(d, old(failed)) {
        assert old@Opened(Concerns(d)) ==> Concerns(d);
        if j :| 0 <= j < |found| && Covers(found[j], d) {
          CleanKept(k.c, w2, k.w, found[j].id);
          TruesMore(errs, j);
        }
      }
      dirs := [];
    }

    /** The open directory o stands for d. */
    ghost predicate Covers(o: OpenDirectory, d: string) {
      o.id == k.c.ident(d) && (o.name == d || o.known)
    }

    /** Opens each directory once, by its identity where that is known. */
    method OpenAll() returns (found: seq<OpenDirectory>)
      requires Valid() && k.w.dirFds == 0 && OnRecord(k.w.flushFailed)
      modifies this, k
      ensures Valid() && old(k.trace) <= k.trace && old(k.faults) <= k.faults && dirs == old(dirs) && failed >= old(failed) && OnRecord(k.w.flushFailed)
      ensures failed - old(failed) <= k.faults - old(k.faults)
      ensures OnlyDisk(k.c, old(k.w), k.w) && k.w.dirFds == |found| <= |dirs|
      ensures forall j :: 0 <= j < |found| ==> found[j].id == k.c.ident(found[j].name)
      ensures forall d :: old(Concerns(d)) ==> Concerns(d)
      ensures forall d :: d in dirs ==>
                !k.c.flushes(k.c.ident(d)) || (Concerns(d) && failed > old(failed)) || exists j :: 0 <= j < |found| && Covers(found[j], d)
    {
      hide PointOK, ConfigOK, Tied, Went, KindsOK, OnlyDisk;
      found := [];
      DirFdOnly(k.c, k.w, k.w.dirFds);
      var i := 0;
      while i < |dirs|
        invariant 0 <= i <= |dirs| && Valid() && old(k.trace) <= k.trace && old(k.faults) <= k.faults && dirs == old(dirs) && failed >= old(failed)
        invariant failed - old(failed) <= k.faults - old(k.faults)
        invariant OnRecord(k.w.flushFailed)
        invariant forall j :: 0 <= j < |found| ==> found[j].id == k.c.ident(found[j].name)
        invariant OnlyDisk(k.c, old(k.w), k.w) && k.w.dirFds == |found| <= i
        invariant forall d :: old(Concerns(d)) ==> Concerns(d)
        invariant forall m :: 0 <= m < i ==>
                    || !k.c.flushes(k.c.ident(dirs[m]))
                    || (Concerns(dirs[m]) && failed > old(failed))
                    || exists j :: 0 <= j < |found| && Covers(found[j], dirs[m])
      {
        ghost var wi := k.w;
        ghost var was, before := found, failed;
        label Before:
        found := OpenOne(dirs[i], found);
        OnlyDiskTrans(k.c, old(k.w), wi, k.w);
        OnlyDiskFailed(k.c, wi, k.w);
        forall m | 0 <= m < i && (exists j :: 0 <= j < |was| && Covers(was[j], dirs[m]))
          ensures exists j :: 0 <= j < |found| && Covers(found[j], dirs[m])
        {
          var j :| 0 <= j < |was| && Covers(was[j], dirs[m]);
          assert found[j] == was[j];
        }
        assert forall m :: 0 <= m < i && old@Before(Concerns(dirs[m])) ==> Concerns(dirs[m]);
        i := i + 1;
      }
    }

    /** Opens one directory, unless one that is open is the same. */
    method OpenOne(name: string, found: seq<OpenDirectory>) returns (found': seq<OpenDirectory>)
      requires Valid() && k.w.dirFds == |found| < |dirs| && OnRecord(k.w.flushFailed)
      requires forall j :: 0 <= j < |found| ==> found[j].id == k.c.ident(found[j].name)
      modifies this, k
      ensures Valid() && old(k.trace) <= k.trace && old(k.faults) <= k.faults && dirs == old(dirs) && failed >= old(failed) && OnRecord(k.w.flushFailed)
      ensures forall j :: 0 <= j < |found'| ==> found'[j].id == k.c.ident(found'[j].name)
      ensures failed - old(failed) <= k.faults - old(k.faults)
      ensures OnlyDisk(k.c, old(k.w), k.w) && k.w.dirFds == |found'| <= |found| + 1 && found <= found'
      ensures forall d :: old(Concerns(d)) ==> Concerns(d)
      ensures !k.c.flushes(k.c.ident(name)) || (Concerns(name) && failed > old(failed)) || exists j :: 0 <= j < |found'| && Covers(found'[j], name)
    {
      hide PointOK, ConfigOK, Tied, Went, KindsOK, OnlyDisk, DirFdW, FlushFailW;
      ghost var w := k.w;
      found' := found;
      FlushFailOnly(k.c, w, k.c.ident(name));
      DirFdOnly(k.c, w, w.dirFds);
      DirFdOnly(k.c, w, w.dirFds + 1);
      var r := k.OpenDir(name);
      if r == Ok {
        var known: bool := *;
        var o := OpenDirectory(name, known, k.c.ident(name));
        var dup := FindDup(found, o);
        if dup {
          ghost var w1 := k.w;
          k.CloseDir();
          DirFdOnly(k.c, w1, w1.dirFds - 1);
          OnlyDiskTrans(k.c, w, w1, k.w);
        } else {
          found' := found + [o];
          assert found'[|found|] == o && Covers(found'[|found|], name);
        }
      } else if r != Cannot {
        RecordGrows(w.flushFailed, k.w.flushFailed);
        assert k.w.flushFailed[|w.flushFailed|] == k.c.ident(name);
        DirFailed(name, false, 0, k.w.flushFailed);
        assert Concerns(name);
      }
    }

    method FindDup(found: seq<OpenDirectory>, o: OpenDirectory) returns (dup: bool)
      ensures dup ==> o.known && exists j :: 0 <= j < |found| && found[j].known && found[j].id == o.id
      ensures !dup && o.known ==> forall j :: 0 <= j < |found| && found[j].known ==> found[j].id != o.id
    {
      dup := false;
      if !o.known {
        return;
      }
      var j := 0;
      while j < |found|
        invariant 0 <= j <= |found|
        invariant forall m :: 0 <= m < j && found[m].known ==> found[m].id != o.id
      {
        if found[j].known && found[j].id == o.id {
          return true;
        }
        j := j + 1;
      }
    }

    method SyncAll(found: seq<OpenDirectory>) returns (errs: seq<bool>)
      requires Valid()
      modifies k
      ensures Valid() && old(k.trace) <= k.trace && old(k.faults) <= k.faults
      ensures OnlyDisk(k.c, old(k.w), k.w) && k.w.dirFds == old(k.w).dirFds
      ensures |errs| == |found| && Trues(errs) <= k.faults - old(k.faults)
      ensures forall j :: 0 <= j < |found| ==> errs[j] || !k.c.flushes(found[j].id) || Clean(k.c, k.w, found[j].id)
      ensures forall j :: 0 <= j < |found| && errs[j] ==> found[j].id in k.w.flushFailed
      ensures |k.w.flushFailed| == |old(k.w).flushFailed| + Trues(errs)
    {
      hide PointOK, ConfigOK, Tied, Went, KindsOK, OnlyDisk, Clean, Trues;
      errs := [];
      TruesNone(errs);
      assert errs[..0] == errs;
      DirFdOnly(k.c, k.w, k.w.dirFds);
      while |errs| < |found|
        invariant Trues(errs) <= k.faults - old(k.faults)
        invariant |errs| <= |found| && Valid() && old(k.trace) <= k.trace && old(k.faults) <= k.faults
        invariant OnlyDisk(k.c, old(k.w), k.w) && k.w.dirFds == old(k.w).dirFds
        invariant forall j :: 0 <= j < |errs| ==> errs[j] || !k.c.flushes(found[j].id) || Clean(k.c, k.w, found[j].id)
        invariant forall j :: 0 <= j < |errs| && errs[j] ==> found[j].id in k.w.flushFailed
        invariant |k.w.flushFailed| == |old(k.w).flushFailed| + Trues(errs)
      {
        ghost var wi := k.w;
        var id := found[|errs|].id;
        var r := FsyncOne(k, id);
        OnlyDiskFailed(k.c, wi, k.w);
        OnlyDiskTrans(k.c, old(k.w), wi, k.w);
        forall j | 0 <= j < |errs| ensures errs[j] || !k.c.flushes(found[j].id) || Clean(k.c, k.w, found[j].id) {
          CleanKept(k.c, wi, k.w, found[j].id);
        }
        forall j | 0 <= j < |errs| && errs[j] ensures found[j].id in k.w.flushFailed {
          InPrefix(wi.flushFailed, k.w.flushFailed, found[j].id);
        }
        var err := r != Ok && r != Cannot;
        assert err ==> k.w.flushFailed[|wi.flushFailed|] == id;
        TruesAdd(errs, err);
        errs := errs + [err];
      }
    }

    /** The open directory o failed to flush. */
    method NoteFailed(o: OpenDirectory, ghost ids: seq<DirId>)
      requires Valid() && OnRecord(ids) && failed < |ids| && o.id == k.c.ident(o.name) && o.id in ids
      modifies this
      ensures Valid() && dirs == old(dirs) && failed == old(failed) + 1 && OnRecord(ids)
      ensures forall d :: old(Concerns(d)) ==> Concerns(d)
      ensures forall d :: Covers(o, d) ==> Concerns(d)
    {
      hide PointOK, ConfigOK, Tied, Went, KindsOK;
      DirFailed(o.name, o.known, o.id, ids);
      forall d | Covers(o, d) ensures Concerns(d) {
        if !lost {
          var f := Failure(o.name, o.known, o.id);
          assert f in failures && Hits(f, d);
        }
      }
    }

    method CloseAll(found: seq<OpenDirectory>, errs: seq<bool>)
      requires Valid() && |errs| == |found| == k.w.dirFds && OnRecord(k.w.flushFailed) && failed + Trues(errs) <= |k.w.flushFailed|
      requires forall j :: 0 <= j < |found| ==> found[j].id == k.c.ident(found[j].name) && (errs[j] ==> found[j].id in k.w.flushFailed)
      modifies this, k
      ensures Valid() && old(k.trace) <= k.trace && old(k.faults) <= k.faults && k.w.dirFds == 0 && failed >= old(failed) && dirs == old(dirs)
      ensures k.w.flushFailed == old(k.w).flushFailed && OnRecord(k.w.flushFailed)
      ensures OnlyDisk(k.c, old(k.w), k.w)
      ensures forall d :: old(Concerns(d)) ==> Concerns(d)
      ensures failed == old(failed) + Trues(errs)
      ensures forall j, d :: 0 <= j < |found| && errs[j] && Covers(found[j], d) ==> Concerns(d)
    {
      hide PointOK, ConfigOK, Tied, Went, KindsOK, OnlyDisk, Concerns, Covers, OnRecord, Trues;
      DirFdOnly(k.c, k.w, k.w.dirFds);
      TruesNone(errs);
      assert errs[..|errs|] == errs;
      var i := 0;
      while i < |found|
        invariant 0 <= i <= |found| && Valid() && old(k.trace) <= k.trace && old(k.faults) <= k.faults
        invariant k.w.dirFds == |found| - i && dirs == old(dirs)
        invariant k.w.flushFailed == old(k.w).flushFailed && OnRecord(k.w.flushFailed)
        invariant failed == old(failed) + Trues(errs[..i])
        invariant OnlyDisk(k.c, old(k.w), k.w)
        invariant forall d :: old(Concerns(d)) ==> Concerns(d)
        invariant forall j, d :: 0 <= j < i && errs[j] && Covers(found[j], d) ==> Concerns(d)
      {
        label Before:
        TruesMore(errs, i);
        if errs[i] {
          NoteFailed(found[i], k.w.flushFailed);
        }
        forall j, d | 0 <= j < i + 1 && errs[j] && Covers(found[j], d) ensures Concerns(d) {
          if j < i { assert old@Before(Concerns(d)); }
        }
        ghost var wi := k.w;
        k.CloseDir();
        DirFdOnly(k.c, wi, k.w.dirFds);
        OnlyDiskTrans(k.c, old(k.w), wi, k.w);
        i := i + 1;
      }
    }
  }
}
