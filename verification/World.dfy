/** The state a run acts on: the filesystem as processes see it, what a crash
    would leave of it, and the process's pending table and signal mask. */
module World {
  import opened Names
  import opened Spec

  const BATCH := 64
  const PENDING_BACKUP := BATCH
  const PENDING_SLOTS := BATCH + 1

  type Ino = nat
  type DirId = nat

  datatype Kind = Regular | Directory | Special

  /** Why a file exists: it was there before, it is a file being made, it was
      made to learn the mode a directory grants, or it holds a name. */
  datatype Role = Foreign | Build | Probe | Placeholder

  datatype File = File(role: Role, kind: Kind, content: seq<byte>, owner: Owner, mode: Mode, synced: bool)

  datatype Slot = Clear | Armed(path: Path, ino: Ino)

  /** One change of a directory, as its log holds it until it is flushed. */
  datatype NameOp =
    | Bind(path: Path, ino: Ino)
    | Unbind(path: Path)
    | Move(src: Path, dst: Path)
    | Swap(a: Path, b: Path)

  /** Where the inode an operand had at first is certain to be found: under a name;
      under one of two that were exchanged; or under a backup, beside the spare. */
  datatype Guard =
    | At(path: Path)
    | Swapped(path: Path, spare: Path, backup: Path, at: nat)
    | Flushed(spare: Path, backup: Path)

  datatype Config = Config(
    settings: Settings,
    operands: seq<Path>,
    init: map<Path, Ino>,               // the names at the start
    kinds: map<Ino, Kind>,              // what they name
    me: Owner,
    grant: (string, set<PermBit>) -> set<PermBit>,  // umask or default ACL of a directory
    ident: string -> DirId,             // which directory a name leads to
    flushes: DirId -> bool,             // the directory can be opened, and fsync works on it
    batch: nat)

  datatype World = World(
    names: map<Path, Ino>,
    files: map<Ino, File>,
    next: Ino,
    open: set<Ino>,                     // files this run has open
    dirFds: nat,                        // directories this run has open
    slots: seq<Slot>,
    blocked: bool,
    disk: map<Path, Ino>,               // the names that are certain to survive a crash
    logs: map<DirId, seq<NameOp>>,      // changes since each directory was flushed
    anchored: set<Path>,                // names whose file was flushed after it took the name
    guard: map<Path, Guard>,
    committed: set<Path>,               // operands that were given a finished file
    taken: set<Path>,                   // names a backup replaced
    left: set<Path>,                    // names that were not removed; the run fails for them
    swapped: map<Path, Path>,           // names that an operand was exchanged with
    shown: set<Ino>,                    // files that were given a name that is not temporary
    again: set<Path>,                   // temporary names that were made again too soon
    refused: set<Path>,                 // names for which lstat or unlink failed
    flushFailed: seq<DirId>,            // directories that could not be opened or flushed
    unstat: set<DirId>)                 // directories for which stat failed

  /* ----- configuration ----- */

  /** A file that was not there at the start is a regular one. */
  function KindOf(c: Config, n: Ino): Kind { if n in c.kinds then c.kinds[n] else Regular }

  predicate IsRegular(w: World, n: Ino) { n in w.files ==> w.files[n].kind == Regular }

  /** At the start p was the name of something else. */
  predicate Irregular(c: Config, p: Path) { p in c.init && KindOf(c, c.init[p]) != Regular }

  predicate IsDirectory(c: Config, p: Path) { p in c.init && KindOf(c, c.init[p]) == Directory }

  /** A path that names no file. */
  predicate Nameless(path: Path) { path == "" || path[|path| - 1] == '/' }

  function Id(c: Config, q: Path): DirId { c.ident(Dir(q)) }

  function Granted(c: Config, dir: string, m: Mode): Mode {
    Mode(c.grant(dir, m.rwx), m.special)
  }

  ghost predicate ConfigOK(c: Config) {
    && 1 <= c.batch <= BATCH
    && (forall d: string, r: set<PermBit> :: c.grant(d, r) <= r)
    && (forall i :: 0 <= i < |c.operands| ==> !IsTemp(c.operands[i]))
  }

  /** q is a name the backup of p may get, by the control asked for. */
  ghost predicate BackupName(c: Config, p: Path, q: Path) {
    (MaySimple(c.settings) && q == SimpleBackup(p)) || (MayNumber(c.settings) && IsNumbered(p, q))
  }

  lemma BackupNameFacts(c: Config, p: Path, q: Path)
    requires BackupName(c, p, q)
    ensures IsBackup(p, q) && BackupOn(c.settings) && Dir(q) == Dir(p) && !IsTemp(q) && q != p
  {
    BackupFacts(p, q);
  }

  /** Handling the operand at z, a file comes to have the name q. */
  ghost predicate Gives(c: Config, z: nat, q: Path)
    requires z < |c.operands|
    decreases z, 1
  {
    c.operands[z] == q || (BackupName(c, c.operands[z], q) && Stands(c, c.operands[z], z))
  }

  /** q may name a file once the first m operands are handled. */
  ghost predicate Stands(c: Config, q: Path, m: nat)
    decreases m, 0
  {
    q in c.init || exists z :: 0 <= z < m && z < |c.operands| && Gives(c, z, q)
  }

  ghost predicate Distinct(c: Config) {
    forall x, y :: 0 <= x < y < |c.operands| ==> c.operands[x] != c.operands[y]
  }

  /** The operand x had a file at the start, and its name is the simple backup of
      the operand y, which may have a file when its turn comes. */
  ghost predicate Clash(c: Config, x: nat, y: nat) {
    && x < |c.operands| && y < |c.operands| && MaySimple(c.settings)
    && c.operands[x] in c.init && c.operands[x] == SimpleBackup(c.operands[y]) && Stands(c, c.operands[y], y)
  }

  /** Distinct operands; no simple backup takes the name of one that had a file,
      nor, where both kinds may be made, that of a numbered backup of another. */
  ghost predicate Harmless(c: Config) {
    && Distinct(c)
    && (forall x: nat, y: nat :: !Clash(c, x, y))
    && (MaySimple(c.settings) && MayNumber(c.settings) ==>
          forall p, q :: p in c.operands && q in c.operands && p != q ==> !IsNumbered(p, SimpleBackup(q)))
  }

  /** Backups are to keep the old files, and can. */
  ghost predicate Guarded(c: Config) { Harmless(c) && BackupOn(c.settings) }

  /** x is p, or a backup of p, or a backup of an operand that is one. */
  ghost predicate Backs(c: Config, p: Path, x: Path)
    decreases |x|
  {
    x == p || exists q :: q in c.operands && |q| < |x| && BackupName(c, q, x) && Backs(c, p, q)
  }

  /** Distinct operands; no operand is a backup name of another, and no two have
      a backup name in common, which only a mix of both kinds could bring about. */
  ghost predicate Separate(c: Config) {
    forall i, j :: 0 <= i < |c.operands| && 0 <= j < |c.operands| && i != j ==>
      && c.operands[i] != c.operands[j]
      && !BackupName(c, c.operands[i], c.operands[j])
      && !(MaySimple(c.settings) && MayNumber(c.settings) && IsNumbered(c.operands[i], SimpleBackup(c.operands[j])))
  }

  /** Content and owner as asked. */
  predicate FilledAndOwned(c: Config, f: File) {
    f.content == Filled(c.settings.template, c.settings.size) && f.owner == FinalOwner(c.settings, c.me)
  }

  /** Everything as asked for a file in dir. */
  predicate FileDone(c: Config, f: File, dir: string) {
    && f.kind == Regular
    && FilledAndOwned(c, f)
    && f.mode == FinalMode(c.settings, Granted(c, dir, c.settings.mode))
  }

  /** Of a finished file: each id that -o gives is the file's, each it does not give is
      the process's own; the mode is the one asked for, where it is absolute, and else
      what the directory grants with the special bits asked for; and each byte is the
      template's, or NUL. */
  lemma DoneIff(c: Config, f: File, dir: string)
    ensures FileDone(c, f, dir) <==>
              var s := c.settings;
              && f.kind == Regular
              && (s.size.Some? ==> |f.content| == s.size.value)
              && (s.size.None? ==> |f.content| == (if s.template.Some? then |s.template.value| else 0))
              && (forall i :: 0 <= i < |f.content| ==>
                    f.content[i] == if s.template.Some? && i < |s.template.value| then s.template.value[i] else 0)
              && f.owner.uid == (if s.ownerGiven && s.uid.Some? then s.uid.value else c.me.uid)
              && f.owner.gid == (if s.ownerGiven && s.gid.Some? then s.gid.value else c.me.gid)
              && f.mode.special == s.mode.special
              && f.mode.rwx == (if s.absolute then s.mode.rwx else c.grant(dir, s.mode.rwx))
  {
    hide Filled;
    FilledIff(c.settings.template, c.settings.size, f.content);
  }

  /** Finished, and flushed before anyone could see it, unless nothing was written. */
  predicate PublicDone(c: Config, f: File, dir: string) {
    FileDone(c, f, dir) && (f.synced || IsPlain(c.settings))
  }

  /** The name q holds a finished file. */
  predicate Done(c: Config, w: World, q: Path) {
    q in w.names && w.names[q] in w.files && FileDone(c, w.files[w.names[q]], Dir(q))
  }

  /* ----- logs and crashes ----- */

  predicate Writes(op: NameOp, q: Path) {
    match op
    case Bind(p, _) => p == q
    case Unbind(p) => p == q
    case Move(s, t) => s == q || t == q
    case Swap(a, b) => a == q || b == q
  }

  function LogOf(w: World, id: DirId): seq<NameOp> {
    if id in w.logs then w.logs[id] else []
  }

  function Logged(w: World, id: DirId, op: NameOp): map<DirId, seq<NameOp>> {
    w.logs[id := LogOf(w, id) + [op]]
  }

  ghost predicate Untouched(log: seq<NameOp>, q: Path) {
    forall k :: 0 <= k < |log| ==> !Writes(log[k], q)
  }

  /** The change takes the name q away. */
  predicate Removes(op: NameOp, q: Path) {
    match op
    case Unbind(p) => p == q
    case Move(s, _) => s == q
    case _ => false
  }

  predicate Mentions(log: seq<NameOp>, q: Path) {
    exists k :: 0 <= k < |log| && Writes(log[k], q)
  }

  /** A crash may still bring back another file under the name q, or q was the spare
      of an operand. */
  predicate Used(c: Config, w: World, q: Path) {
    q in w.disk || Mentions(LogOf(w, Id(c, q)), q) || q in w.swapped
  }

  /** A change whose source is missing does nothing. */
  function Apply(names: map<Path, Ino>, op: NameOp): map<Path, Ino> {
    match op
    case Bind(p, n) => names[p := n]
    case Unbind(p) => names - {p}
    case Move(s, t) => if s in names then (names - {s})[t := names[s]] else names
    case Swap(a, b) => if a in names && b in names then names[a := names[b]][b := names[a]] else names
  }

  /** The changes of a log whose index is kept, on top of disk. */
  function Replay(disk: map<Path, Ino>, log: seq<NameOp>, kept: set<nat>): map<Path, Ino> {
    if log == [] then disk
    else
      var k := |log| - 1;
      var before := Replay(disk, log[..k], kept);
      if k in kept then Apply(before, log[k]) else before
  }

  /** What q names after a crash that kept, of each directory's log, some changes. */
  ghost function AfterCrash(c: Config, w: World, kept: map<DirId, set<nat>>, q: Path): Option<Ino> {
    var id := Id(c, q);
    var names := Replay(w.disk, LogOf(w, id), if id in kept then kept[id] else {});
    if q in names then Some(names[q]) else None
  }

  /* ----- the cleanup handler ----- */

  /** remove_ours: only while the name holds that inode. */
  function WithoutOurs(names: map<Path, Ino>, path: Path, ino: Ino): map<Path, Ino> {
    if path in names && names[path] == ino then names - {path} else names
  }

  /** The names after the handler has gone through the first n slots. */
  function Handler(names: map<Path, Ino>, slots: seq<Slot>, n: nat): map<Path, Ino>
    requires n <= |slots|
  {
    if n == 0 then names
    else
      var before := Handler(names, slots, n - 1);
      match slots[n - 1]
      case Clear => before
      case Armed(p, i) => WithoutOurs(before, p, i)
  }

  /* ----- invariants of a point ----- */

  ghost predicate ArmedAt(w: World, q: Path, n: Ino) {
    exists s :: 0 <= s < |w.slots| && w.slots[s] == Armed(q, n)
  }

  /** A name this run may take from the file that has it. */
  ghost predicate Replaceable(c: Config, q: Path) {
    c.settings.force && (q in c.operands || exists p :: p in c.operands && BackupName(c, p, q))
  }

  /** Every other name keeps the file it had. */
  ghost predicate Unclobbered(c: Config, w: World) {
    forall q :: q in c.init ==> q in w.names && (w.names[q] == c.init[q] || Replaceable(c, q))
  }

  /** n is the file some operand had at first. */
  ghost predicate OldOf(c: Config, n: Ino) {
    exists p :: p in c.operands && p in c.init && c.init[p] == n
  }

  /** What a slot may name: a file this run made, or an old one that has a backup. */
  ghost predicate SlotOwn(c: Config, files: map<Ino, File>, n: Ino) {
    n in files && (files[n].role != Foreign || (BackupOn(c.settings) && (Guarded(c) ==> OldOf(c, n))))
  }

  /** Directories keep the names they had, and what is no regular file gets no others. */
  ghost predicate KindsOK(c: Config, w: World) {
    && (forall n :: n in w.files ==> w.files[n].kind == KindOf(c, n))
    && (forall n :: n in c.kinds ==> n in w.files)
    && (forall q :: q in w.names && KindOf(c, w.names[q]) != Regular ==> q in c.init && c.init[q] == w.names[q])
    && (forall q :: q in c.init && KindOf(c, c.init[q]) == Directory ==> q in w.names && w.names[q] == c.init[q])
  }

  /** Operands that are replaced are in no slot. */
  ghost predicate SlotBeside(c: Config, q: Path) {
    Separate(c) && c.settings.force ==> q !in c.operands
  }

  ghost predicate WellFormed(c: Config, w: World) {
    && Unclobbered(c, w)
    && |w.slots| == PENDING_SLOTS
    && (forall q :: q in w.names ==> w.names[q] in w.files)
    && (forall n :: n in w.files ==> n < w.next && (w.files[n].role == Placeholder ==> !c.settings.force))
    && (forall n :: n in w.open ==> n in w.files)
    && (forall q :: q in c.init ==> c.init[q] in w.files && w.files[c.init[q]].role == Foreign)
    && (forall s :: 0 <= s < |w.slots| && w.slots[s].Armed? ==> w.slots[s].path !in c.init && SlotOwn(c, w.files, w.slots[s].ino))
    && (forall s :: 0 <= s < BATCH && w.slots[s].Armed? ==> IsTemp(w.slots[s].path) || !c.settings.force)
    && (forall s :: 0 <= s < |w.slots| && w.slots[s].Armed? ==> SlotBeside(c, w.slots[s].path))
  }

  ghost predicate BackupFor(c: Config, w: World, p: Path, q: Path) {
    BackupName(c, p, q) && (q in w.taken || p in w.committed)
  }

  /** A name is as it was, is about to be removed by the handler, is an operand
      that holds a finished file, is the backup of one, or could not be removed. */
  ghost predicate Accounted(c: Config, w: World, q: Path)
    requires q in w.names
  {
    || (q in c.init && w.names[q] == c.init[q])
    || ArmedAt(w, q, w.names[q])
    || (q in c.operands && Done(c, w, q))
    || (exists p :: p in c.operands && BackupFor(c, w, p, q))
    || q in w.left
  }

  ghost predicate Classified(c: Config, w: World) {
    forall q :: q in w.names ==> Accounted(c, w, q)
  }

  /** The names a guard depends on. */
  predicate GuardUses(g: Guard, q: Path) {
    match g
    case At(p) => q == p
    case Swapped(p, s, b, _) => q == p || q == s || q == b
    case Flushed(s, b) => q == s || q == b
  }

  /** What the handler would remove keeps no old file. */
  ghost predicate ArmedFree(c: Config, slots: seq<Slot>, guard: map<Path, Guard>) {
    Guarded(c) ==>
      forall s, p :: 0 <= s < |slots| && slots[s].Armed? && p in guard ==> !GuardUses(guard[p], slots[s].path)
  }

  /** The handler would remove no old file's spare. */
  ghost predicate NoSpareArmed(slots: seq<Slot>, files: map<Ino, File>) {
    forall s :: 0 <= s < |slots| && s < BATCH && slots[s].Armed? ==> slots[s].ino in files && files[slots[s].ino].role != Foreign
  }

  ghost predicate SignalOK(c: Config, w: World) {
    w.blocked || (Classified(c, w) && ArmedFree(c, w.slots, w.guard) && NoSpareArmed(w.slots, w.files))
  }

  /** What may be seen under q of a file this run made. */
  ghost predicate Presentable(c: Config, w: World, q: Path)
    requires q in w.names && w.names[q] in w.files
  {
    var f := w.files[w.names[q]];
    || f.role == Foreign
    || (IsTemp(q) && (f.role == Probe || IsPrivate(f.mode) || FilledAndOwned(c, f)))
    || PublicDone(c, f, Dir(q))
    || (f.role == Placeholder && (w.blocked || q in w.left))
  }

  ghost predicate PublishOK(c: Config, w: World) {
    forall q :: q in w.names && w.names[q] in w.files ==> Presentable(c, w, q)
  }

  /** q names n, for good if its directory can be flushed. */
  ghost predicate Settled(c: Config, w: World, q: Path, n: Ino) {
    q in w.names && w.names[q] == n && (c.flushes(Id(c, q)) ==> OnDisk(c, w, q, n))
  }

  ghost predicate OnDisk(c: Config, w: World, q: Path, n: Ino) {
    q in w.disk && w.disk[q] == n && Untouched(LogOf(w, Id(c, q)), q)
  }

  ghost predicate SwapOK(c: Config, w: World, p: Path, n: Ino, s: Path, k: nat) {
    var log := LogOf(w, Id(c, p));
    && p in w.disk && w.disk[p] == n
    && p != s && Id(c, s) == Id(c, p)
    && k < |log| && log[k] == Swap(s, p)
    && Untouched(log[..k], p)
    && Untouched(log[k + 1..], p) && Untouched(log[k + 1..], s)
  }

  /** The inode n cannot be lost. */
  ghost predicate GuardOK(c: Config, w: World, n: Ino, g: Guard) {
    match g
    case At(p) => Settled(c, w, p, n)
    case Swapped(p, s, b, k) =>
      && p in w.names
      && s in w.names && w.names[s] == n && b in w.names && w.names[b] == n
      && (c.flushes(Id(c, p)) ==> SwapOK(c, w, p, n, s, k))
      && s in w.swapped && w.swapped[s] == p
    case Flushed(s, b) => s in w.names && w.names[s] == n && Settled(c, w, b, n)
  }

  /** The names a guard uses are the operand's own, a backup's, and a spare's. */
  ghost predicate GuardNames(c: Config, p: Path, g: Guard) {
    match g
    case At(q) => Backs(c, p, q)
    case Swapped(q, s, b, _) => Spare(c, s) && q in c.operands && Backs(c, p, b) && Dir(b) == Dir(q) == Dir(p)
    case Flushed(s, b) => Spare(c, s) && Backs(c, p, b)
  }

  predicate Spare(c: Config, s: Path) { IsTemp(s) && s !in c.init }

  function SpareOf(g: Guard): Option<Path> {
    match g
    case At(_) => None
    case Swapped(_, s, _, _) => Some(s)
    case Flushed(s, _) => Some(s)
  }

  /** The guard of p keeps the file p had at first. */
  ghost predicate GuardAt(c: Config, w: World, p: Path) {
    p in w.guard && p in c.init && GuardOK(c, w, c.init[p], w.guard[p]) && GuardNames(c, p, w.guard[p])
  }

  /** Every name of the start is on disk and no change takes it away; those the run
      may not replace are not touched. */
  ghost predicate NamesKept(c: Config, w: World) {
    forall q :: q in c.init ==> NameKept(c, w, q)
  }

  ghost predicate NameKept(c: Config, w: World, q: Path)
    requires q in c.init
  {
    var log := LogOf(w, Id(c, q));
    && q in w.disk
    && (forall k :: 0 <= k < |log| ==> !Removes(log[k], q))
    && (!Replaceable(c, q) ==> w.disk[q] == c.init[q] && Untouched(log, q))
  }

  /** The name q may show n, whoever looks. */
  ghost predicate MayShow(c: Config, w: World, q: Path, n: Ino) {
    && n in w.files
    && match w.files[n].role
       case Foreign => true
       case Placeholder => true
       case _ => n in w.shown && PublicDone(c, w.files[n], Dir(q))
  }

  /** On disk, or by a change of the log, the name s is bound to n. */
  ghost predicate Held(disk: map<Path, Ino>, log: seq<NameOp>, s: Path, n: Ino) {
    (s in disk && disk[s] == n) || Bind(s, n) in log
  }

  /** Another name's file comes to s. */
  predicate Into(op: NameOp, s: Path) {
    match op
    case Move(_, t) => t == s
    case Swap(a, b) => a == s || b == s
    case _ => false
  }

  ghost predicate NotInto(log: seq<NameOp>, s: Path) {
    forall j :: 0 <= j < |log| ==> !Into(log[j], s)
  }

  /** All that the temporary name s may hold after a crash, t may show. */
  ghost predicate Fed(c: Config, w: World, log: seq<NameOp>, s: Path, t: Path) {
    IsTemp(s) && !IsTemp(t) && NotInto(log, s) && forall n :: Held(w.disk, log, s, n) ==> MayShow(c, w, t, n)
  }

  /** What the change at k gives a name that others use may be shown. */
  ghost predicate EntryOK(c: Config, w: World, id: DirId, k: nat)
    requires k < |LogOf(w, id)|
  {
    var log := LogOf(w, id);
    match log[k]
    case Bind(q, n) => IsTemp(q) || MayShow(c, w, q, n)
    case Unbind(_) => true
    case Move(s, t) => Id(c, s) == id && Fed(c, w, log[..k], s, t)
    case Swap(s, t) => Id(c, s) == id && Fed(c, w, log[..k], s, t)
  }

  /** A temporary name that was not exchanged holds one file, before and after a crash. */
  ghost predicate Single(c: Config, w: World, s: Path)
    requires s in w.names
  {
    var log := LogOf(w, Id(c, s));
    NotInto(log, s) && forall n :: Held(w.disk, log, s, n) ==> n == w.names[s]
  }

  ghost predicate LogSound(c: Config, w: World) {
    && (forall q :: q in w.names && !IsTemp(q) ==> MayShow(c, w, q, w.names[q]))
    && (forall q :: q in w.disk && !IsTemp(q) ==> MayShow(c, w, q, w.disk[q]))
    && (forall id, k :: 0 <= k < |LogOf(w, id)| ==> EntryOK(c, w, id, k))
    && (forall s :: s in w.names && IsTemp(s) && s !in c.init && s !in w.swapped ==> Single(c, w, s))
  }

  /** What the disk and the changes to it make of names after a crash. */
  ghost predicate DiskOK(c: Config, w: World) {
    && NamesKept(c, w)
    && (forall n :: n in w.shown ==> n in w.files)
    && (w.again == {} ==> LogSound(c, w))
  }

  ghost predicate CrashOK(c: Config, w: World) { DiskOK(c, w) && GuardsOK(c, w) }

  ghost predicate GuardsOK(c: Config, w: World) {
    Guarded(c) ==>
      && (forall p :: p in w.guard ==> p in c.operands && GuardAt(c, w, p))
      && (forall p :: p in c.operands && p in c.init ==> p in w.guard)
  }

  /** A directory that was not flushed, or of which that cannot be told: it could
      not be examined, or there were more failures than the record holds. */
  predicate Unflushed(w: World, id: DirId) {
    || id in w.flushFailed
    || |w.flushFailed| > BATCH
    || (id in w.unstat && w.flushFailed != [])
  }

  /** An old file may keep the name q that it was given in exchange. */
  predicate SpareKept(c: Config, w: World, q: Path) {
    q in w.swapped && Unflushed(w, Id(c, q))
  }

  /** Where operands are apart, each that was given a file has it, and a backup's
      name holds what it held, or the operand's old file. */
  ghost predicate BackupsOK(c: Config, w: World) {
    Separate(c) && BackupOn(c.settings) ==>
      && (forall p :: p in w.committed ==> Done(c, w, p))
      && (forall p, q :: p in c.operands && q in w.names && BackupName(c, p, q) ==> BackupOld(c, w, p, q))
  }

  ghost predicate BackupOld(c: Config, w: World, p: Path, q: Path)
    requires q in w.names
  {
    (q in c.init && w.names[q] == c.init[q]) || (p in c.init && w.names[q] == c.init[p])
  }

  /** What was left behind was refused, or is a spare kept because its directory was
      not flushed; what a backup replaced was there. */
  ghost predicate HistoryOK(c: Config, w: World) {
    && (forall q :: q in w.left ==> q in w.refused || SpareKept(c, w, q))
    && (forall q :: q in w.swapped ==> IsTemp(q) && w.swapped[q] in c.operands && Id(c, w.swapped[q]) == Id(c, q))
    && (forall q :: q in w.taken ==> q in w.names && BackupOn(c.settings) && !IsTemp(q) && (Separate(c) ==> q in c.init))
    && (forall p :: p in w.committed ==> p in c.operands)
    && BackupsOK(c, w)
  }

  ghost predicate FdsOK(c: Config, w: World) {
    |w.open| <= c.batch + 1 && w.dirFds <= c.batch
  }

  ghost predicate PointOK(c: Config, w: World) {
    WellFormed(c, w) && SignalOK(c, w) && PublishOK(c, w) && CrashOK(c, w) && HistoryOK(c, w) && FdsOK(c, w)
  }

  /** Slots name what they were armed with, each its own name. */
  ghost predicate SlotsOK(w: World) {
    && (forall s :: 0 <= s < |w.slots| && w.slots[s].Armed? ==>
          w.slots[s].path in w.names && w.names[w.slots[s].path] == w.slots[s].ino)
    && (forall s, t :: 0 <= s < t < |w.slots| && w.slots[s].Armed? && w.slots[t].Armed? ==>
          w.slots[s].path != w.slots[t].path)
  }

  /** No empty file holds a name that is still to be given. */
  ghost predicate NoPlaceholder(w: World) {
    forall q :: q in w.names && w.names[q] in w.files && w.files[w.names[q]].role == Placeholder ==> q in w.left
  }

  /** Between the steps of the run: also safe to unblock signals. */
  ghost predicate Steady(c: Config, w: World) {
    Classified(c, w) && SlotsOK(w) && NoPlaceholder(w)
  }
}
