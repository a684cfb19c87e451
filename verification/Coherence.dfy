/** The log of a directory is what its names owe to the steps since it was flushed:
    a crash that keeps every change leaves the names as processes see them. */
module Coherence {
  import opened Names
  import opened Spec
  import opened World
  import opened Steps

  function All(n: nat): (s: set<nat>)
    ensures forall k :: k in s <==> 0 <= k < n
  {
    if n == 0 then {} else All(n - 1) + {n - 1}
  }

  function Lookup(names: map<Path, Ino>, q: Path): Option<Ino> {
    if q in names then Some(names[q]) else None
  }

  /** The names with every change of the log made. */
  function Whole(disk: map<Path, Ino>, log: seq<NameOp>): map<Path, Ino> {
    Replay(disk, log, All(|log|))
  }

  lemma {:induction false} ReplayMore(disk: map<Path, Ino>, log: seq<NameOp>, a: set<nat>, b: set<nat>)
    requires forall k :: 0 <= k < |log| ==> (k in a <==> k in b)
    ensures Replay(disk, log, a) == Replay(disk, log, b)
  {
    if log != [] { ReplayMore(disk, log[..|log| - 1], a, b); }
  }

  lemma WholeStep(disk: map<Path, Ino>, log: seq<NameOp>, op: NameOp)
    ensures Whole(disk, log + [op]) == Apply(Whole(disk, log), op)
  {
    var longer := log + [op];
    assert longer[..|longer| - 1] == log;
    ReplayMore(disk, log, All(|longer|), All(|log|));
  }

  ghost predicate Coherent(c: Config, w: World) {
    forall q :: Lookup(Whole(w.disk, LogOf(w, Id(c, q))), q) == Lookup(w.names, q)
  }

  lemma CoherentAt(c: Config, w: World, q: Path)
    requires Coherent(c, w)
    ensures Lookup(Whole(w.disk, LogOf(w, Id(c, q))), q) == Lookup(w.names, q)
  {}

  /** A crash that loses nothing is no crash. */
  lemma NothingLost(c: Config, w: World, kept: map<DirId, set<nat>>, q: Path)
    requires Coherent(c, w)
    requires var id := Id(c, q); LogOf(w, id) == [] || (id in kept && kept[id] >= All(|LogOf(w, id)|))
    ensures AfterCrash(c, w, kept, q) == Lookup(w.names, q)
  {
    hide Dir;
    var id := Id(c, q);
    CoherentAt(c, w, q);
    ReplayMore(w.disk, LogOf(w, id), if id in kept then kept[id] else {}, All(|LogOf(w, id)|));
  }

  /** A change looks at no name but those it writes. */
  lemma ApplyAgrees(x: map<Path, Ino>, y: map<Path, Ino>, op: NameOp, q: Path)
    requires forall z :: Writes(op, z) ==> Lookup(x, z) == Lookup(y, z)
    ensures Lookup(Apply(x, op), q) == if Writes(op, q) then Lookup(Apply(y, op), q) else Lookup(x, q)
  {
    match op
    case Bind(p, _) => assert Writes(op, p);
    case Unbind(p) => assert Writes(op, p);
    case Move(s, t) => assert Writes(op, s) && Writes(op, t);
    case Swap(a, b) => assert Writes(op, a) && Writes(op, b);
  }

  lemma LoggedCoherent(c: Config, w: World, w': World, id: DirId, op: NameOp)
    requires Coherent(c, w) && w'.disk == w.disk && w'.logs == Logged(w, id, op) && w'.names == Apply(w.names, op)
    requires forall q :: Writes(op, q) ==> Id(c, q) == id
    ensures Coherent(c, w')
  {
    hide Dir, Whole, Apply;
    var log := LogOf(w, id);
    var before := Whole(w.disk, log);
    WholeStep(w.disk, log, op);
    forall x | Writes(op, x) ensures Lookup(before, x) == Lookup(w.names, x) { CoherentAt(c, w, x); }
    forall q ensures Lookup(Whole(w'.disk, LogOf(w', Id(c, q))), q) == Lookup(w'.names, q) {
      CoherentAt(c, w, q);
      ApplyAgrees(before, w.names, op, q);
      ApplyAgrees(w.names, w.names, op, q);
    }
  }

  /** A directory's log is about names in it. */
  ghost predicate LogsLocal(c: Config, w: World) {
    forall id, k, q :: id in w.logs && 0 <= k < |w.logs[id]| && Writes(w.logs[id][k], q) ==> Id(c, q) == id
  }

  /** Disk and logs belong to the names. */
  ghost predicate Tied(c: Config, w: World) { Coherent(c, w) && LogsLocal(c, w) }

  lemma LoggedTied(c: Config, w: World, w': World, id: DirId, op: NameOp)
    requires Tied(c, w) && w'.disk == w.disk && w'.logs == Logged(w, id, op) && w'.names == Apply(w.names, op)
    requires forall q :: Writes(op, q) ==> Id(c, q) == id
    ensures Tied(c, w')
  {
    hide Dir, Coherent, Apply;
    LoggedCoherent(c, w, w', id, op);
  }

  lemma SameTied(c: Config, w: World, w': World)
    requires Tied(c, w) && w'.names == w.names && w'.disk == w.disk && w'.logs == w.logs
    ensures Tied(c, w')
  {
    hide Dir, Whole;
  }

  lemma CreateTied(c: Config, w: World, q: Path, role: Role, m: Mode)
    requires Tied(c, w)
    ensures Tied(c, CreateW(c, w, q, role, m))
  {
    hide Tied, Dir, Granted;
    LoggedTied(c, w, CreateW(c, w, q, role, m), Id(c, q), Bind(q, w.next));
  }

  lemma LinkTied(c: Config, w: World, n: Ino, q: Path)
    requires Tied(c, w)
    ensures Tied(c, LinkW(c, w, n, q))
  {
    hide Tied, Dir;
    LoggedTied(c, w, LinkW(c, w, n, q), Id(c, q), Bind(q, n));
  }

  lemma UnlinkTied(c: Config, w: World, q: Path)
    requires Tied(c, w)
    ensures Tied(c, UnlinkW(c, w, q))
  {
    hide Tied, Dir;
    LoggedTied(c, w, UnlinkW(c, w, q), Id(c, q), Unbind(q));
  }

  lemma MoveTied(c: Config, w: World, s: Path, t: Path)
    requires Tied(c, w) && s in w.names && Id(c, s) == Id(c, t)
    ensures Tied(c, MoveW(c, w, s, t))
  {
    hide Tied, Dir;
    if s != t && !(t in w.names && w.names[t] == w.names[s]) {
      LoggedTied(c, w, MoveW(c, w, s, t), Id(c, t), Move(s, t));
    }
  }

  lemma SwapTied(c: Config, w: World, s: Path, p: Path, b: Path)
    requires Tied(c, w) && s in w.names && p in w.names && s != p && Id(c, s) == Id(c, p)
    ensures Tied(c, SwapW(c, w, s, p, b))
  {
    hide Tied, Dir;
    LoggedTied(c, w, SwapW(c, w, s, p, b), Id(c, p), Swap(s, p));
  }

  /** Names of other directories say nothing of this one. */
  lemma {:induction false} ReplayOther(disk: map<Path, Ino>, disk': map<Path, Ino>, log: seq<NameOp>, kept: set<nat>, here: iset<Path>, q: Path)
    requires forall x :: x in here ==> Lookup(disk, x) == Lookup(disk', x)
    requires forall k, x :: 0 <= k < |log| && Writes(log[k], x) ==> x in here
    requires q in here
    ensures Lookup(Replay(disk, log, kept), q) == Lookup(Replay(disk', log, kept), q)
    decreases |log|
  {
    hide Apply;
    if log != [] {
      var k := |log| - 1;
      ReplayOther(disk, disk', log[..k], kept, here, q);
      var x, y := Replay(disk, log[..k], kept), Replay(disk', log[..k], kept);
      forall z | Writes(log[k], z) ensures Lookup(x, z) == Lookup(y, z) {
        ReplayOther(disk, disk', log[..k], kept, here, z);
      }
      ApplyAgrees(x, y, log[k], q);
      ApplyAgrees(y, y, log[k], q);
    }
  }

  lemma FsyncDirCoherent(c: Config, w: World, id: DirId)
    requires Coherent(c, w) && LogsLocal(c, w)
    ensures Coherent(c, FsyncDirW(c, w, id))
  {
    hide Dir, Coherent, Whole, LogsLocal;
    var w' := FsyncDirW(c, w, id);
    assert Coherent(c, w') by {
      forall q ensures Lookup(Whole(w'.disk, LogOf(w', Id(c, q))), q) == Lookup(w'.names, q) {
        FlushedAt(c, w, id, q);
      }
      CoherentIf(c, w');
    }
  }

  lemma CoherentIf(c: Config, w: World)
    requires forall q :: Lookup(Whole(w.disk, LogOf(w, Id(c, q))), q) == Lookup(w.names, q)
    ensures Coherent(c, w)
  {}

  lemma FlushedAt(c: Config, w: World, id: DirId, q: Path)
    requires Coherent(c, w) && LogsLocal(c, w)
    ensures
      var w' := FsyncDirW(c, w, id);
      Lookup(Whole(w'.disk, LogOf(w', Id(c, q))), q) == Lookup(w'.names, q)
  {
    hide Dir, Coherent, Replay;
    var w' := FsyncDirW(c, w, id);
    CoherentAt(c, w, q);
    if Id(c, q) == id {
      assert LogOf(w', id) == [];
      NothingToReplay(w'.disk);
    } else {
      var log := LogOf(w, Id(c, q));
      var here := iset x | Id(c, x) == Id(c, q);
      assert forall k, x :: 0 <= k < |log| && Writes(log[k], x) ==> x in here;
      ReplayOther(w.disk, w'.disk, log, All(|log|), here, q);
    }
  }

  lemma NothingToReplay(disk: map<Path, Ino>)
    ensures Whole(disk, []) == disk
  {}

  lemma FsyncDirTied(c: Config, w: World, id: DirId)
    requires Tied(c, w)
    ensures Tied(c, FsyncDirW(c, w, id))
  {
    hide Dir, Coherent;
    FsyncDirCoherent(c, w, id);
  }
}
