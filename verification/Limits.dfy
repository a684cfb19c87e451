/** Where the promises end: what a run does when a directory cannot be flushed, or
    when operands stand in each other's way. */
module Limits {
  import opened Names
  import opened Spec
  import opened World
  import opened Order
  import opened Steps
  import opened Coherence
  import opened Kernel
  import opened Flush
  import opened Backup
  import opened Stable
  import opened Batch
  import opened Safety
  import opened Program

  /* ----- a directory that is not flushed ----- */

  /** The names a replaced operand and its backup go through: a new file under the
      spare name, the backup, the exchange, and the spare dropped. */
  function ReplacedUnflushed(c: Config, w: World, p: Path, s: Path, b: Path): World
    requires p in w.names
  {
    var w1 := CreateW(c, w, s, Build, PRIVATE);
    var w2 := LinkW(c, w1, w.names[p], b);
    UnlinkW(c, SwapW(c, w2, s, p, b), s)
  }

  lemma ReplacedLog(c: Config, w: World, p: Path, s: Path, b: Path)
    requires Initial(c, w) && p in w.names && s !in w.names && b != s && Id(c, s) == Id(c, p) == Id(c, b)
    ensures
      var w' := ReplacedUnflushed(c, w, p, s, b);
      && w'.disk == c.init
      && LogOf(w', Id(c, p)) == [Bind(s, w.next), Bind(b, w.names[p]), Swap(s, p), Unbind(s)]
      && (forall id :: id != Id(c, p) ==> LogOf(w', id) == [])
  {
    hide AgainBy, ShownBy, Dir, Granted, Reswapped, SlotOwn, IdleFrom;
  }

  lemma LosesBackupOnly(disk: map<Path, Ino>, p: Path, s: Path, b: Path, n: Ino, m: Ino)
    requires Sole(disk, p, n) && s != p && m != n
    ensures Gone(Replay(disk, [Bind(s, m), Bind(b, n), Swap(s, p), Unbind(s)], {0, 2, 3}), n)
  {
    var log := [Bind(s, m), Bind(b, n), Swap(s, p), Unbind(s)];
    var kept: set<nat> := {0, 2, 3};
    assert log[..3] == [Bind(s, m), Bind(b, n), Swap(s, p)];
    assert log[..3][..2] == [Bind(s, m), Bind(b, n)];
    assert log[..3][..2][..1] == [Bind(s, m)];
    assert log[..3][..2][..1][..0] == [];
    assert Replay(disk, log[..3][..2][..1], kept) == disk[s := m];
    assert Replay(disk, log[..3][..2], kept) == disk[s := m];
  }

  /** If the directory is never flushed, and that is not taken for a failure, some
      crash leaves the old file no name at all, whatever the names are. */
  lemma UnflushedLoses(c: Config, w: World, p: Path, s: Path, b: Path)
    requires Initial(c, w) && p in w.names && Sole(c.init, p, w.names[p]) && s !in w.names && b != s
    requires Id(c, s) == Id(c, p) == Id(c, b)
    ensures exists kept :: !Survives(c, ReplacedUnflushed(c, w, p, s, b), kept, w.names[p])
  {
    hide Dir, ReplacedUnflushed;
    ReplacedLog(c, w, p, s, b);
    var w', n, id := ReplacedUnflushed(c, w, p, s, b), w.names[p], Id(c, p);
    var kept: map<DirId, set<nat>> := map[id := {0, 2, 3}];
    LosesBackupOnly(w'.disk, p, s, b, n, w.next);
    forall q ensures AfterCrash(c, w', kept, q) != Some(n) {
      if Id(c, q) != id { ElsewhereLost(c, w', kept, p, q, n); }
    }
    assert !Survives(c, w', kept, n);
  }

  lemma ElsewhereLost(c: Config, w: World, kept: map<DirId, set<nat>>, p: Path, q: Path, n: Ino)
    requires Sole(w.disk, p, n) && LogOf(w, Id(c, q)) == [] && q != p
    ensures AfterCrash(c, w, kept, q) != Some(n)
  {
    hide Dir;
  }

  /* ----- a temporary name made again ----- */

  /** A file made under s was given up, and s was made again for the file that p is
      given; nothing was flushed. */
  function MadeAgain(c: Config, w: World, p: Path, s: Path): World {
    MoveW(c, CreateW(c, UnlinkW(c, CreateW(c, w, s, Build, PRIVATE), s), s, Build, PRIVATE), s, p)
  }

  /** Some crash then shows the first under p. */
  lemma MadeAgainShows(c: Config, w: World, p: Path, s: Path)
    requires s != p && (p in w.names ==> w.names[p] < w.next) && LogOf(w, Id(c, p)) == [] && Id(c, s) == Id(c, p) && IsTemp(s)
    ensures
      var w' := MadeAgain(c, w, p, s);
      && s in w'.again && p in w'.names && w'.names[p] == w.next + 1
      && exists kept :: AfterCrash(c, w', kept, p) == Some(w.next)
  {
    hide Dir, MadeAgain, IsTemp;
    var w' := MadeAgain(c, w, p, s);
    MadeAgainLog(c, w, p, s);
    MadeAgainUsed(c, w, p, s);
    AgainReplay(w.disk, p, s, w.next, w.next + 1);
    var kept: map<DirId, set<nat>> := map[Id(c, p) := {0, 3}];
    assert AfterCrash(c, w', kept, p) == Some(w.next);
  }

  lemma MadeAgainLog(c: Config, w: World, p: Path, s: Path)
    requires s != p && (p in w.names ==> w.names[p] < w.next) && LogOf(w, Id(c, p)) == [] && Id(c, s) == Id(c, p)
    ensures
      var w' := MadeAgain(c, w, p, s);
      && w'.disk == w.disk && p in w'.names && w'.names[p] == w.next + 1
      && LogOf(w', Id(c, p)) == [Bind(s, w.next), Unbind(s), Bind(s, w.next + 1), Move(s, p)]
  {
    hide AgainBy, ShownBy, Dir, Granted;
  }

  lemma MadeAgainUsed(c: Config, w: World, p: Path, s: Path)
    requires s != p && LogOf(w, Id(c, p)) == [] && Id(c, s) == Id(c, p) && IsTemp(s)
    ensures s in MadeAgain(c, w, p, s).again
  {
    hide ShownBy, Dir, Granted, IsTemp;
    var w0 := UnlinkW(c, CreateW(c, w, s, Build, PRIVATE), s);
    assert Writes(LogOf(w0, Id(c, s))[0], s);
    assert Used(c, w0, s);
  }

  lemma AgainReplay(disk: map<Path, Ino>, p: Path, s: Path, a: Ino, b: Ino)
    requires s != p
    ensures
      var names := Replay(disk, [Bind(s, a), Unbind(s), Bind(s, b), Move(s, p)], {0, 3});
      p in names && names[p] == a
  {
    hide Apply;
    var log, kept: set<nat> := [Bind(s, a), Unbind(s), Bind(s, b)], {0, 3};
    ReplayLast(disk, [], Bind(s, a), kept);
    assert [] + [Bind(s, a)] == [Bind(s, a)];
    assert log[..2] == [Bind(s, a), Unbind(s)] && log[..2][..1] == [Bind(s, a)];
    assert Replay(disk, log, kept) == Replay(disk, log[..2], kept) == Replay(disk, [Bind(s, a)], kept);
    ReplayLast(disk, log, Move(s, p), kept);
    assert log + [Move(s, p)] == [Bind(s, a), Unbind(s), Bind(s, b), Move(s, p)];
    AppliedMove(disk, s, p, a);
  }

  lemma AppliedMove(disk: map<Path, Ino>, s: Path, p: Path, a: Ino)
    requires s != p
    ensures var names := Apply(Apply(disk, Bind(s, a)), Move(s, p)); p in names && names[p] == a
  {}

  /* ----- operands in each other's way ----- */

  /** A name that is replaced was the last of its file. */
  lemma LastNameReplaced(c: Config, w: World, t: Path, q: Path, n: Ino)
    requires Sole(w.names, q, n) && t in w.names && t != q
    ensures Gone(MoveW(c, w, t, q).names, n)
  {}

  /** The operand p has its backup b, and holds the new file that was under t. */
  function BackedUpAndReplaced(c: Config, w: World, p: Path, b: Path, t: Path): World
    requires p in w.names
  {
    MoveW(c, LinkW(c, CreateW(c, w, t, Build, PRIVATE), w.names[p], b), t, p)
  }

  lemma OnlyBackupLeft(c: Config, w: World, p: Path, b: Path, t: Path)
    requires p in w.names && Sole(w.names, p, w.names[p]) && b !in w.names && t !in w.names && b != t && w.names[p] < w.next
    requires t != p && b != p
    ensures
      var w' := BackedUpAndReplaced(c, w, p, b, t);
      && Sole(w'.names, b, w.names[p]) && p in w'.names && w'.names[p] == w.next
      && (forall x :: x in w.names ==> x in w'.names) && (forall x :: x in w'.names ==> x in w.names || x == b)
  {
    hide AgainBy, ShownBy, Dir, Granted;
  }

  /** The backup of q, made over what is there: a second link to q's file, renamed. */
  function BackedUpOver(c: Config, w: World, q: Path, b: Path, t: Path): World
    requires q in w.names
  {
    MoveW(c, LinkW(c, w, w.names[q], t), t, b)
  }

  lemma BackupLost(c: Config, w: World, q: Path, b: Path, t: Path, n: Ino)
    requires Sole(w.names, b, n) && q in w.names && q != b && t !in w.names
    ensures Gone(BackedUpOver(c, w, q, b, t).names, n)
  {
    hide Dir;
    LastNameReplaced(c, LinkW(c, w, w.names[q], t), t, b, n);
  }

  /** The operand a given twice, with simple backups: the second backup replaces
      the first, and the file a had is gone without any crash. */
  lemma DuplicateLoses(c: Config, w: World, a: Path, t: Path, t': Path)
    requires c.operands == [a, a] && a in w.names && Sole(w.names, a, w.names[a]) && w.names[a] < w.next
    requires SimpleBackup(a) !in w.names && t !in w.names && t' !in w.names
    requires t != a && t' != a && t' != t && SimpleBackup(a) != t && SimpleBackup(a) != t'
    ensures !Distinct(c) && !Harmless(c)
    ensures
      var w1 := BackedUpAndReplaced(c, w, a, SimpleBackup(a), t);
      a in w1.names && Gone(BackedUpOver(c, w1, a, SimpleBackup(a), t').names, w.names[a])
  {
    hide Dir, BackedUpOver, BackupName, Granted;
    assert SimpleBackup(a)[..|a|] == a && |SimpleBackup(a)| > |a|;
    OnlyBackupLeft(c, w, a, SimpleBackup(a), t);
    var w1 := BackedUpAndReplaced(c, w, a, SimpleBackup(a), t);
    BackupLost(c, w1, a, SimpleBackup(a), t', w.names[a]);
    assert c.operands[0] == c.operands[1];
  }

  /** Operands f and f.~d where both kinds of backup may be made: the numbered backup
      of the first is the simple backup of the second, which replaces it. */
  lemma SharedBackupLoses(c: Config, w: World, f: Path, d: string, t: Path, t': Path)
    requires Canonical(d) && c.operands == [f, f + ".~" + d] && c.settings.force && c.settings.control == Existing
    requires
      var g := f + ".~" + d;
      var b := SimpleBackup(g);
      && f in w.names && Sole(w.names, f, w.names[f]) && w.names[f] < w.next && g in w.names
      && b !in w.names && t !in w.names && t' !in w.names && t != t' && b != t && b != t'
    ensures
      var g := f + ".~" + d;
      var b := SimpleBackup(g);
      && BackupName(c, f, b) && BackupName(c, g, b) && Distinct(c) && !Harmless(c)
      && var w1 := BackedUpAndReplaced(c, w, f, b, t);
         g in w1.names && Gone(BackedUpOver(c, w1, g, b, t').names, w.names[f])
  {
    hide Dir, BackedUpOver, BackedUpAndReplaced, Granted, Harmless;
    var g := f + ".~" + d;
    var b := SimpleBackup(g);
    assert b == NumberedBackup(f, d);
    OnlyBackupLeft(c, w, f, b, t);
    var w1 := BackedUpAndReplaced(c, w, f, b, t);
    assert |g| > |f| && |b| > |g|;
    BackupLost(c, w1, g, b, t', w.names[f]);
    SharedHarms(c, f, d);
  }

  lemma SharedHarms(c: Config, f: Path, d: string)
    requires Canonical(d) && c.operands == [f, f + ".~" + d] && c.settings.force && c.settings.control == Existing
    ensures Distinct(c) && !Harmless(c)
  {
    hide Clash;
    var b := SimpleBackup(c.operands[1]);
    assert b == NumberedBackup(f, d);
    assert |c.operands[1]| > |c.operands[0]|;
    assert c.operands[0] in c.operands && c.operands[1] in c.operands && IsNumbered(c.operands[0], b);
  }

  /** With backups of one kind only, the same operands are no trouble. */
  lemma OneKindShares(c: Config, f: Path, d: string)
    requires Canonical(d) && c.operands == [f, f + ".~" + d] && c.settings.control != Existing
    ensures Separate(c)
  {
    var g := f + ".~" + d;
    assert g[|g| - 1] == d[|d| - 1] && IsDigit(d[|d| - 1]);
    assert |g| > |f|;
    assert SimpleBackup(f)[|f|] == '~' && g[|f|] == '.';
    if BackupName(c, f, g) { assert IsNumbered(f, g); }
    if BackupName(c, g, f) && f != SimpleBackup(g) { assert IsNumbered(g, f); }
  }

  /** For distinct operands and backups of one kind: numbered ones never harm, and
      simple ones do just when one takes the name of an operand that had a file. */
  lemma HarmlessIff(c: Config)
    requires Distinct(c) && c.settings.control != Existing
    ensures Harmless(c) <==> (c.settings.force && c.settings.control == Simple ==> forall x: nat, y: nat :: !Clash(c, x, y))
  {
    hide Stands;
  }

  /** Operands a and a~, which both had a file: the backup of the first replaces the
      second, whose own file has no backup yet. */
  lemma BackupIsOperandLoses(c: Config, w: World, a: Path, t: Path)
    requires c.operands == [a, SimpleBackup(a)] && MaySimple(c.settings) && a in c.init && SimpleBackup(a) in c.init
    requires a in w.names && SimpleBackup(a) in w.names && Sole(w.names, SimpleBackup(a), w.names[SimpleBackup(a)]) && t !in w.names
    ensures Distinct(c) && Clash(c, 1, 0) && !Harmless(c)
    ensures Gone(BackedUpOver(c, w, a, SimpleBackup(a), t).names, w.names[SimpleBackup(a)])
  {
    hide Dir, BackedUpOver;
    var b := SimpleBackup(a);
    assert |b| > |a|;
    BackupLost(c, w, a, b, t, w.names[b]);
    assert Clash(c, 1, 0);
  }

  /** A run over them that returns true has lost the old file of a~. */
  method RunLosesOld(fs: FlushSet, a: Path) returns (ok: bool)
    requires fs.Valid() && fs.dirs == [] && fs.failed == 0 && Initial(fs.k.c, fs.k.w)
    requires fs.k.c.operands == [a, SimpleBackup(a)] && fs.k.c.settings.force && fs.k.c.settings.control == Simple
    requires a in fs.k.c.init && SimpleBackup(a) in fs.k.c.init && Sole(fs.k.c.init, SimpleBackup(a), fs.k.c.init[SimpleBackup(a)])
    modifies fs, fs.k
    ensures !ok ==> fs.k.faults > old(fs.k.faults) || Hindered(fs.k.c)
    ensures ok ==> Gone(fs.k.w.names, fs.k.c.init[SimpleBackup(a)])
  {
    hide Hindered, KindsOK, PointOK, ConfigOK, Safe, Lasts, Lasting, SimpleBackup, Tied, Went, OneCall, IdleFrom, NoTrace, AllBackedUp, Gone, Sole;
    ghost var c := fs.k.c;
    assert |SimpleBackup(a)| > |a| by { TildeLonger(a); }
    assert Exactly(c) && Doomed(c, 1, 0);
    ok := BatchRun(fs, [a, SimpleBackup(a)]);
    assert ok ==> OldGone(c, fs.k.w, 1);
  }

  lemma TildeLonger(a: Path)
    ensures |SimpleBackup(a)| > |a|
  {}

  lemma {:induction false} ReplayNone(disk: map<Path, Ino>, log: seq<NameOp>, kept: set<nat>)
    requires forall k :: 0 <= k < |log| ==> k !in kept
    ensures Replay(disk, log, kept) == disk
  {
    if log != [] { ReplayNone(disk, log[..|log| - 1], kept); }
  }

  lemma ReplayLastTwo(disk: map<Path, Ino>, log: seq<NameOp>, t: Path, b: Path, m: Ino)
    requires t != b
    ensures Replay(disk, log + [Bind(t, m)] + [Move(t, b)], {|log|, |log| + 1}) == (disk - {t})[b := m]
  {
    var kept: set<nat> := {|log|, |log| + 1};
    var log1 := log + [Bind(t, m)];
    ReplayNone(disk, log, kept);
    ReplayLast(disk, log, Bind(t, m), kept);
    ReplayLast(disk, log1, Move(t, b), kept);
    assert disk[t := m] - {t} == disk - {t};
  }

  lemma ReplayLast(disk: map<Path, Ino>, log: seq<NameOp>, op: NameOp, kept: set<nat>)
    requires |log| in kept
    ensures Replay(disk, log + [op], kept) == Apply(Replay(disk, log, kept), op)
  {
    hide Apply;
    assert (log + [op])[..|log|] == log;
  }

  /** Whenever a backup replaces the name b, and on disk b still is the one name of
      another file, some crash leaves that file no name at all: whatever happened
      before, and under whatever name the file is seen now. */
  lemma UnflushedTaken(c: Config, w: World, p: Path, b: Path, t: Path, n: Ino)
    requires p in w.names && Sole(w.disk, b, n) && w.names[p] != n && (b in w.names ==> w.names[b] != w.names[p])
    requires t != b && t != p && Id(c, t) == Id(c, b)
    ensures exists kept :: !Survives(c, BackedUpOver(c, w, p, b, t), kept, n)
  {
    hide Dir, Survives;
    var log := LogOf(w, Id(c, b));
    assert log + [Bind(t, w.names[p])] + [Move(t, b)] == (log + [Bind(t, w.names[p])]) + [Move(t, b)];
    OvertookLoses(c, w, BackedUpOver(c, w, p, b, t), w.names[p], t, b, n);
  }

  /** So it is in every run: where the simple backup of p takes a name that, on disk,
      is the one name of another file, the run comes through a state from which some
      crash leaves that file no name. */
  method BackupTakes(k: Machine, p: Path, n: Ino, ghost m: Ino) returns (ok: bool)
    requires k.Valid() && Steady(k.c, k.w) && p in k.c.operands && p in k.w.names && k.w.names[p] == n && IsRegular(k.w, n) && SimpleBackup(p) in k.w.names
    requires MaySimple(k.c.settings) && |k.w.slots| == PENDING_SLOTS && k.w.slots[PENDING_BACKUP] == Clear && Unreplaced(k.c, k.w, p) && SimpleFree(k.c, k.w, p)
    requires Sole(k.w.disk, SimpleBackup(p), m) && m != n && k.w.names[SimpleBackup(p)] != n
    modifies k
    ensures k.Valid() && old(k.trace) <= k.trace && old(k.faults) <= k.faults
    ensures !ok ==> k.faults > old(k.faults) || IsDirectory(k.c, SimpleBackup(p))
    ensures ok ==> exists w, kept :: w in k.trace && !Survives(k.c, w, kept, m)
  {
    hide PointOK, ConfigOK, Tied, Went, KindsOK, Steady, Apart, Unreplaced, SimpleFree, Survives, Overtook, Sole, SimpleBackup, BackedUp;
    ghost var w0 := k.w;
    var left;
    ok, left := BackupAgain(k, p, n);
    if ok {
      ghost var w', tmp :| w' in k.trace && Overtook(k.c, w0, w', n, tmp, SimpleBackup(p));
      OvertookLoses(k.c, w0, w', n, tmp, SimpleBackup(p), m);
    }
  }

  lemma OvertookLoses(c: Config, w: World, w': World, n: Ino, t: Path, b: Path, m: Ino)
    requires Overtook(c, w, w', n, t, b) && Sole(w.disk, b, m) && m != n
    ensures exists kept :: !Survives(c, w', kept, m)
  {
    hide Dir;
    var id := Id(c, b);
    var log := LogOf(w, id);
    assert LogOf(w', id) == log + [Bind(t, n)] + [Move(t, b)];
    var kept: map<DirId, set<nat>> := map[id := {|log|, |log| + 1}];
    ReplayLastTwo(w.disk, log, t, b, n);
    forall q ensures AfterCrash(c, w', kept, q) != Some(m) {
      if Id(c, q) != id { ReplayNone(w'.disk, LogOf(w', Id(c, q)), {}); }
    }
    assert !Survives(c, w', kept, m);
  }

  /** The operand p was exchanged with s, after its backup b was made. */
  function ExchangedFor(c: Config, w: World, p: Path, s: Path, b: Path): World
    requires p in w.names
  {
    SwapW(c, LinkW(c, CreateW(c, w, s, Build, PRIVATE), w.names[p], b), s, p, b)
  }

  /** Operands a~ and a, in this order, which both had a file: until the directory is
      flushed, the backup of a lets a crash take the old file of a~ from the disk,
      though a~~ and a spare name it. */
  lemma BackupTakesUnflushed(c: Config, w: World, a: Path, s: Path, t: Path)
    requires Initial(c, w) && c.operands == [SimpleBackup(a), a] && MaySimple(c.settings) && a in c.init && SimpleBackup(a) in c.init
    requires Sole(c.init, SimpleBackup(a), c.init[SimpleBackup(a)]) && IsTemp(s) && IsTemp(t) && s !in w.names && s != a && t != a
    requires Id(c, t) == Id(c, SimpleBackup(a)) && SimpleBackup(SimpleBackup(a)) !in w.names
    ensures Distinct(c) && Clash(c, 0, 1) && !Harmless(c)
    ensures
      var q := SimpleBackup(a);
      var w1 := ExchangedFor(c, w, q, s, SimpleBackup(q));
      && w1.names[s] == w1.names[SimpleBackup(q)] == c.init[q] && a in w1.names
      && exists kept :: !Survives(c, BackedUpOver(c, w1, a, q, t), kept, c.init[q])
  {
    hide Dir, BackedUpOver, Granted, Reswapped, IsTemp;
    var q := SimpleBackup(a);
    TildeLonger(a);
    TildeLonger(q);
    BackupFacts(a, q);
    BackupFacts(q, SimpleBackup(q));
    assert Clash(c, 0, 1);
    var w1 := ExchangedFor(c, w, q, s, SimpleBackup(q));
    UnflushedTaken(c, w1, a, q, t, c.init[q]);
  }

  /** Operands a~ and a, in this order, where a has a file: a~ does not last. */
  lemma BackupTakesOperand(c: Config, a: Path)
    requires c.operands == [SimpleBackup(a), a] && c.settings.force && c.settings.control == Simple && a in c.init
    ensures Exactly(c) && !Lasting(c) && Overwritten(c, 0, 1)
  {
    assert |SimpleBackup(a)| > |a|;
    LastingIff(c);
    assert Overwritten(c, 0, 1);
  }

  /** A run over them that returns true has lost the finished file a~. */
  method RunTakesOperand(fs: FlushSet, a: Path) returns (ok: bool)
    requires fs.Valid() && fs.dirs == [] && fs.failed == 0 && Initial(fs.k.c, fs.k.w)
    requires fs.k.c.operands == [SimpleBackup(a), a] && fs.k.c.settings.force && fs.k.c.settings.control == Simple && a in fs.k.c.init
    modifies fs, fs.k
    ensures !ok ==> fs.k.faults > old(fs.k.faults) || Hindered(fs.k.c)
    ensures ok ==> Lasts(fs.k.c, fs.k.w, a) && !Lasts(fs.k.c, fs.k.w, SimpleBackup(a))
  {
    hide Hindered, KindsOK, PointOK, ConfigOK, Safe, Lasts, Exactly, Lasting, SimpleBackup, Tied, Went, OneCall, IdleFrom, NoTrace, AllBackedUp;
    ghost var c := fs.k.c;
    BackupTakesOperand(c, a);
    ok := BatchRun(fs, [SimpleBackup(a), a]);
    assert Live(c, 1, 2);
    assert c.operands[1] == a;
  }
}
