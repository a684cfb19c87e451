/** How a file comes to hold its name. */
module Place {
  import opened Names
  import opened Spec
  import opened World
  import opened Steps
  import opened Coherence
  import opened Kernel
  import opened Frames
  import opened Pending

  /** A name that is made for the operand z is about, and removed again. */
  ghost predicate Mine(z: Zone, q: Path) { IsTemp(q) || q == z.path }

  lemma MineFacts(z: Zone, q: Path)
    requires Mine(z, q)
    ensures !Outside(z, q) && Within(z, q)
  {}

  /** What may be created under q. */
  ghost predicate Creatable(c: Config, q: Path, role: Role, m: Mode) {
    || (IsTemp(q) && (role == Probe || (role == Build && m == PRIVATE)))
    || (role == Placeholder && !c.settings.force)
    || (role == Build && PublicDone(c, File(role, Regular, [], c.me, Granted(c, Dir(q), m), false), Dir(q)))
  }

  /** An attempt left nothing but, at worst, a name that could not be removed. */
  ghost predicate Undone(c: Config, w: World, w': World, slot: nat, z: Zone, own: Ino) {
    && Steady(c, w') && Frame(c, w, w', slot, z, own)
    && w'.slots == w.slots && w'.open == w.open && w'.blocked == w.blocked
    && w'.committed == w.committed && w'.swapped == w.swapped
  }

  /* ----- exclusive creation ----- */

  function AbortedW(c: Config, w: World, q: Path, role: Role, m: Mode, removed: bool): World {
    var w1 := CloseW(CreateW(c, w, q, role, m), w.next);
    if removed then UnlinkW(c, w1, q) else LeftW(RefuseW(w1, q), q)
  }

  lemma FreeNotTaken(c: Config, w: World, q: Path)
    requires HistoryOK(c, w) && q !in w.names
    ensures q !in w.taken
  {}

  lemma AbortedPoint(c: Config, w: World, q: Path, role: Role, m: Mode)
    requires ConfigOK(c) && PointOK(c, w) && w.blocked && q !in w.names
    requires |w.open| <= c.batch && Creatable(c, q, role, m)
    ensures PointOK(c, CreateW(c, w, q, role, m))
    ensures PointOK(c, CloseW(CreateW(c, w, q, role, m), w.next))
    ensures PointOK(c, AbortedW(c, w, q, role, m, true))
    ensures PointOK(c, AbortedW(c, w, q, role, m, false))
    ensures PointOK(c, RefuseW(CloseW(CreateW(c, w, q, role, m), w.next), q))
  {
    hide AgainBy, ShownBy, WellFormed, CrashOK, PublishOK, HistoryOK, FdsOK, Guarded, Dir, GuardUses, FileDone, IsTemp;
    CreatePoint(c, w, q, role, m);
    var w1 := CloseW(CreateW(c, w, q, role, m), w.next);
    ClosePoint(c, CreateW(c, w, q, role, m), w.next);
    assert q !in w1.taken by { FreeNotTaken(c, w, q); }
    assert Guarded(c) ==> Unprotected(w1, q) by {
      if Guarded(c) { FreeIsUnprotected(c, w, q); }
    }
    assert Uncommitted(c, w1, q) by { AbortUncommitted(c, w, q); }
    assert q !in c.init by { FreeNotInit(c, w, q); }
    UnlinkPoint(c, w1, q);
    RefusePoint(c, w1, RefuseW(w1, q));
    LeftPoint(c, RefuseW(w1, q), q);
  }

  lemma AbortUncommitted(c: Config, w: World, q: Path)
    requires HistoryOK(c, w) && q !in w.names
    ensures Uncommitted(c, w, q)
  {
    hide Separate, BackupsOK;
    FreeUncommitted(c, w, q) by { HistoryBackups(c, w); }
  }

  lemma FreeNotInit(c: Config, w: World, q: Path)
    requires WellFormed(c, w) && q !in w.names
    ensures q !in c.init
  {}

  /** Called with signals blocked. */
  method CreateExcl(k: Machine, q: Path, role: Role, m: Mode) returns (r: Reply, n: Ino)
    requires k.Valid() && k.w.blocked && |k.w.open| <= k.c.batch && Creatable(k.c, q, role, m)
    modifies k
    ensures k.Valid() && old(k.trace) <= k.trace && old(k.faults) <= k.faults
    ensures r == Ok ==> q !in old(k.w).names && n == old(k.w).next && k.w == CreateW(k.c, old(k.w), q, role, m)
    ensures r == Exists ==> k.w == old(k.w) && q in k.w.names
    ensures r != Ok && r != Exists ==> k.faults > old(k.faults)
    ensures r != Ok ==>
              || k.w == old(k.w)
              || (q !in old(k.w).names && k.w == AbortedW(k.c, old(k.w), q, role, m, true))
              || (q !in old(k.w).names && k.w == AbortedW(k.c, old(k.w), q, role, m, false))
  {
    hide PointOK, ConfigOK, Tied, Went, KindsOK, Creatable;
    if q !in k.w.names { AbortedPoint(k.c, k.w, q, role, m); }
    r, n := k.Open(q, role, m);
    if r != Ok {
      return;
    }
    var fstat := k.Works();
    if fstat {
      return;
    }
    var _ := k.Close(n);
    var u := k.Unlink(q);
    if u != Ok && u != Missing {
      k.Enter(LeftW(k.w, q));
    }
    r := Failed;
  }

  lemma AbortedNames(c: Config, w: World, q: Path, role: Role, m: Mode, removed: bool, z: Zone)
    requires q !in w.names && Mine(z, q)
    ensures NameFrame(c, w, AbortedW(c, w, q, role, m, removed), z)
  {
    hide Outside, Dir, NameFrame, IsTemp, Numberable, Within, Lent, Granted;
    MineFacts(z, q);
    var w0 := CreateW(c, w, q, role, m);
    var w1 := CloseW(w0, w.next);
    NameStepFrame(c, w, w0, z, Id(c, q), Bind(q, w.next)) by { SameLends(w, w0); }
    SameNameFrame(c, w0, w1, z) by { SameLends(w0, w1); }
    NameFrameTrans(c, w, w0, w1, z);
    var w2 := AbortedW(c, w, q, role, m, removed);
    if removed {
      NameStepFrame(c, w1, w2, z, Id(c, q), Unbind(q)) by { SameLends(w1, w2); }
    } else {
      SameNameFrame(c, w1, w2, z) by { SameLends(w1, w2); }
    }
    NameFrameTrans(c, w, w1, w2, z);
  }

  lemma SameLends(w: World, w': World)
    requires w'.slots == w.slots
    ensures LendsNew(w, w')
  {}

  /** A name that is gone again, or could not be removed, changes no account. */
  lemma AbortedSteady(c: Config, w: World, q: Path, role: Role, m: Mode, removed: bool)
    requires WellFormed(c, w) && Steady(c, w) && q !in w.names
    ensures Steady(c, AbortedW(c, w, q, role, m, removed))
  {
    hide AgainBy, ShownBy, Dir, FileDone, Granted, Unclobbered, SlotOwn, SlotBeside, IsTemp, BackupName;
    var w' := AbortedW(c, w, q, role, m, removed);
    forall x | x in w'.names ensures Accounted(c, w', x) {
      if x != q {
        assert Accounted(c, w, x);
        if ArmedAt(w, x, w.names[x]) {
          assert ArmedAt(w', x, w'.names[x]);
        } else if p :| p in c.operands && BackupFor(c, w, p, x) {
          assert BackupFor(c, w', p, x);
        }
      }
    }
    forall s | 0 <= s < |w'.slots| && w'.slots[s].Armed?
      ensures w'.slots[s].path in w'.names && w'.names[w'.slots[s].path] == w'.slots[s].ino
    {
      assert w.slots[s].path in w.names;
    }
  }

  lemma AbortedUndone(c: Config, w: World, q: Path, role: Role, m: Mode, removed: bool, slot: nat, z: Zone, own: Ino)
    requires WellFormed(c, w) && Steady(c, w) && q !in w.names && Mine(z, q)
    ensures Undone(c, w, AbortedW(c, w, q, role, m, removed), slot, z, own)
  {
    hide AgainBy, ShownBy, Steady, NameFrame, FileFrame, BindFrame, Outside, Dir, Granted, HistoryFrame, IsTemp, Given, Guarded, SlotOwn, Unclobbered, Mine;
    AbortedSteady(c, w, q, role, m, removed);
    AbortedNames(c, w, q, role, m, removed, z);
    AbortedHistory(c, w, q, role, m, removed, z);
    AbortedFiles(c, w, q, role, m, removed, own);
    AbortedBinds(c, w, q, role, m, removed, z, own);
  }

  lemma AbortedBinds(c: Config, w: World, q: Path, role: Role, m: Mode, removed: bool, z: Zone, own: Ino)
    ensures BindFrame(w, AbortedW(c, w, q, role, m, removed), z, own)
  {
    hide AgainBy, ShownBy, Dir, Granted, Given;
  }

  lemma AbortedHistory(c: Config, w: World, q: Path, role: Role, m: Mode, removed: bool, z: Zone)
    requires Mine(z, q)
    ensures HistoryFrame(w, AbortedW(c, w, q, role, m, removed), z)
  {
    hide Used, ShownBy, Dir, Granted, IsTemp;
    MineFacts(z, q);
  }

  lemma AbortedFiles(c: Config, w: World, q: Path, role: Role, m: Mode, removed: bool, own: Ino)
    requires WellFormed(c, w)
    ensures FileFrame(w, AbortedW(c, w, q, role, m, removed), own)
    ensures AbortedW(c, w, q, role, m, removed).open == w.open
  {
    hide AgainBy, ShownBy, Dir, Granted;
  }

  lemma AbortedSlots(c: Config, w: World, q: Path, role: Role, m: Mode, removed: bool)
    requires WellFormed(c, w)
    ensures
      var w' := AbortedW(c, w, q, role, m, removed);
      w'.slots == w.slots && w'.guard == w.guard && (NoSpareArmed(w.slots, w.files) ==> NoSpareArmed(w'.slots, w'.files))
  {
    hide AgainBy, ShownBy, Dir, Granted, SlotOwn, Unclobbered, IsTemp;
    SlotsKept(c, w, AbortedW(c, w, q, role, m, removed));
  }

  /* ----- names that are armed as they are made ----- */

  /** How temp_make makes a name: by opening a file, by linking an open file, or
      by linking another name. */
  datatype Make = MakeOpen(role: Role, mode: Mode) | MakeFdLink(ino: Ino) | MakeLink(src: Path, ino: Ino)

  function MadeIno(w: World, make: Make): Ino {
    match make
    case MakeOpen(_, _) => w.next
    case MakeFdLink(n) => n
    case MakeLink(_, n) => n
  }

  function MadeW(c: Config, w: World, q: Path, make: Make): World {
    match make
    case MakeOpen(role, m) => CreateW(c, w, q, role, m)
    case MakeFdLink(n) => LinkW(c, w, n, q)
    case MakeLink(_, n) => LinkW(c, w, n, q)
  }

  function ArmedW(c: Config, w: World, q: Path, make: Make, slot: nat): World
    requires slot < |w.slots|
  {
    ArmW(MadeW(c, w, q, make), slot, q, MadeIno(w, make))
  }

  /** A file that may have a temporary name. */
  ghost predicate Hideable(c: Config, f: File) {
    f.role == Foreign || (f.role != Placeholder && (IsPrivate(f.mode) || FilledAndOwned(c, f)))
  }

  ghost predicate Makeable(c: Config, w: World, make: Make) {
    match make
    case MakeOpen(role, m) => |w.open| <= c.batch && (role == Probe || (role == Build && m == PRIVATE))
    case MakeFdLink(n) => n in w.files && w.files[n].role != Foreign && Hideable(c, w.files[n])
    case MakeLink(src, n) => src in w.names && w.names[src] == n && SlotOwn(c, w.files, n) && Hideable(c, w.files[n])
  }

  predicate MakesRegular(w: World, make: Make) { make.MakeOpen? || IsRegular(w, make.ino) }

  lemma MadePoint(c: Config, w: World, q: Path, make: Make)
    requires ConfigOK(c) && PointOK(c, w) && w.blocked && q !in w.names && IsTemp(q) && Makeable(c, w, make)
    ensures PointOK(c, MadeW(c, w, q, make))
  {
    hide IsTemp, Dir, WellFormed, CrashOK, HistoryOK, FileDone, FilledAndOwned, PublishOK, Granted, IsPrivate, Givable;
    TempGivable(c, MadeIno(w, make), q);
    match make
    case MakeOpen(role, m) => CreatePoint(c, w, q, role, m);
    case MakeFdLink(n) => LinkPoint(c, w, n, q);
    case MakeLink(_, n) => LinkPoint(c, w, n, q);
  }

  /** A new name that is armed is accounted for. */
  lemma ArmedSteady(c: Config, w: World, w': World, slot: nat, q: Path, n: Ino)
    requires Steady(c, w) && WellFormed(c, w) && q !in w.names && slot < |w.slots| && w.slots[slot] == Clear
    requires w'.names == w.names[q := n] && w'.slots == w.slots[slot := Armed(q, n)]
    requires forall m :: m in w.files ==> m in w'.files && w'.files[m] == w.files[m]
    requires n in w'.files && w'.files[n].role != Placeholder
    requires w'.left == w.left && w'.taken == w.taken && w'.committed == w.committed
    ensures Steady(c, w')
  {
    hide Dir, FileDone;
    forall x | x in w'.names ensures Accounted(c, w', x) {
      if x == q {
        assert w'.slots[slot] == Armed(q, n);
      } else {
        assert Accounted(c, w, x);
        if s :| 0 <= s < |w.slots| && w.slots[s] == Armed(x, w.names[x]) {
          assert w'.slots[s] == Armed(x, w'.names[x]);
        } else if p :| p in c.operands && BackupFor(c, w, p, x) {
          assert BackupFor(c, w', p, x);
        }
      }
    }
    assert SlotsOK(w') by { ArmedSlots(w, w', slot, q, n); }
  }

  lemma ArmedSlots(w: World, w': World, slot: nat, q: Path, n: Ino)
    requires SlotsOK(w) && q !in w.names && slot < |w.slots| && w.slots[slot] == Clear
    requires w'.names == w.names[q := n] && w'.slots == w.slots[slot := Armed(q, n)]
    ensures SlotsOK(w')
  {}

  lemma ArmedWSteady(c: Config, w: World, q: Path, make: Make, slot: nat)
    requires PointOK(c, w) && Steady(c, w) && q !in w.names && slot < PENDING_SLOTS && w.slots[slot] == Clear
    requires Makeable(c, w, make)
    ensures Steady(c, ArmedW(c, w, q, make, slot))
  {
    hide AgainBy, ShownBy, Steady, Dir, CrashOK, PublishOK, HistoryOK, IsPrivate, FilledAndOwned, Granted;
    ArmedSteady(c, w, ArmedW(c, w, q, make, slot), slot, q, MadeIno(w, make));
  }

  lemma ArmedWFrame(c: Config, w: World, q: Path, make: Make, slot: nat, z: Zone, own: Ino)
    requires PointOK(c, w) && q !in w.names && slot < |w.slots| && (!Outside(z, q) || Numberable(w, z, q))
    requires make.MakeFdLink? ==> own == make.ino
    requires make.MakeLink? ==> Given(w, z, make.ino)
    ensures Frame(c, w, ArmedW(c, w, q, make, slot), slot, z, own)
  {
    hide NameFrame, Outside, Dir, PointOK, Granted, FileFrame, Frame, IsTemp, Numberable, Within, BindFrame;
    var w' := ArmedW(c, w, q, make, slot);
    assert NameFrame(c, w, w', z) by { MadeNames(c, w, q, make, slot, z); }
    assert FileFrame(w, w', own) by { MadeFiles(c, w, q, make, slot, own); }
    assert BindFrame(w, w', z, own) by { MadeBinds(c, w, q, make, slot, z, own); }
    FrameFrom(c, w, w', slot, z, own);
  }

  lemma MadeBinds(c: Config, w: World, q: Path, make: Make, slot: nat, z: Zone, own: Ino)
    requires slot < |w.slots| && (make.MakeFdLink? ==> own == make.ino)
    requires make.MakeLink? ==> Given(w, z, make.ino)
    ensures BindFrame(w, ArmedW(c, w, q, make, slot), z, own)
  {
    hide AgainBy, ShownBy, Dir, Granted, IsTemp;
  }

  lemma MadeNames(c: Config, w: World, q: Path, make: Make, slot: nat, z: Zone)
    requires q !in w.names && slot < |w.slots| && (!Outside(z, q) || Numberable(w, z, q))
    ensures NameFrame(c, w, ArmedW(c, w, q, make, slot), z)
  {
    hide Outside, Dir, Numberable, IsTemp, NameFrame, Granted;
    NameStepFrame(c, w, ArmedW(c, w, q, make, slot), z, Id(c, q), Bind(q, MadeIno(w, make)));
  }

  lemma MadeFiles(c: Config, w: World, q: Path, make: Make, slot: nat, own: Ino)
    requires PointOK(c, w) && slot < |w.slots|
    ensures FileFrame(w, ArmedW(c, w, q, make, slot), own)
  {
    hide Dir, CrashOK, PublishOK, HistoryOK, SignalOK;
  }

  /** Where signals were let through before, a new name may be armed, or a slot
      cleared. */
  lemma StillFree(c: Config, w: World, slot: nat, q: Path, n: Ino)
    requires PointOK(c, w)
    ensures w.blocked || (ArmedFree(c, w.slots, w.guard) && NoSpareArmed(w.slots, w.files))
    ensures slot < |w.slots| && q !in w.names ==> w.blocked || ArmedFree(c, w.slots[slot := Armed(q, n)], w.guard)
    ensures slot < |w.slots| ==> w.blocked || (ArmedFree(c, w.slots[slot := Clear], w.guard) && NoSpareArmed(w.slots[slot := Clear], w.files))
  {
    hide WellFormed, PublishOK, HistoryOK, FdsOK, Classified, GuardOK, GuardUses, Guarded;
    if Guarded(c) && q !in w.names { FreeIsUnprotected(c, w, q); }
  }

  /** The same, for a name that was just made. */
  lemma MadeFree(c: Config, w: World, q: Path, make: Make, slot: nat)
    requires PointOK(c, w) && q !in w.names && slot < |w.slots| && (slot < BATCH ==> MadeOwn(w, make))
    ensures
      var w' := ArmedW(c, w, q, make, slot);
      w.blocked || (ArmedFree(c, w'.slots, w'.guard) && NoSpareArmed(w'.slots, w'.files))
  {
    hide ArmedFree, PublishOK, HistoryOK, FdsOK, CrashOK, Classified, SlotOwn, Unclobbered, Dir, Granted, IsTemp;
    StillFree(c, w, slot, q, MadeIno(w, make));
  }

  /** The file is one this run made. */
  predicate MadeOwn(w: World, make: Make) {
    match make
    case MakeOpen(role, _) => role != Foreign
    case MakeFdLink(n) => n in w.files && w.files[n].role != Foreign
    case MakeLink(_, n) => n in w.files && w.files[n].role != Foreign
  }

  /** One attempt, with signals blocked. */
  method MakeName(k: Machine, q: Path, make: Make) returns (r: Reply, n: Ino)
    requires k.Valid() && k.w.blocked && IsTemp(q) && Makeable(k.c, k.w, make) && MakesRegular(k.w, make)
    modifies k
    ensures k.Valid() && old(k.trace) <= k.trace && old(k.faults) <= k.faults
    ensures r == Ok ==> q !in old(k.w).names && k.w == MadeW(k.c, old(k.w), q, make) && n == MadeIno(old(k.w), make)
    ensures r == Exists ==> k.w == old(k.w) && q in k.w.names
    ensures r != Ok && r != Exists ==> k.faults > old(k.faults)
    ensures r != Ok ==>
              || k.w == old(k.w)
              || (make.MakeOpen? && q !in old(k.w).names &&
                  exists b :: k.w == AbortedW(k.c, old(k.w), q, make.role, make.mode, b))
  {
    hide PointOK, ConfigOK, Tied, Went, KindsOK, IsTemp, FileDone, Hideable;
    if q !in k.w.names { MadePoint(k.c, k.w, q, make); }
    match make {
      case MakeOpen(role, m) =>
        r, n := CreateExcl(k, q, role, m);
      case MakeFdLink(i) =>
        n := i;
        r := k.LinkFile(n, q);
      case MakeLink(src, i) =>
        n := i;
        r := k.Link(src, q);
    }
  }

  lemma BlockedArmed(c: Config, w: World, q: Path, make: Make, slot: nat, was: bool)
    requires slot < |w.slots| && was == w.blocked
    ensures BlockW(ArmedW(c, BlockW(w, true), q, make, slot), was) == ArmedW(c, w, q, make, slot)
  {
    hide Mentions, IsTemp, Dir, Granted;
  }

  lemma BlockedAborted(c: Config, w: World, q: Path, role: Role, m: Mode, b: bool, was: bool)
    requires was == w.blocked
    ensures BlockW(AbortedW(c, BlockW(w, true), q, role, m, b), was) == AbortedW(c, w, q, role, m, b)
  {
    hide Mentions, IsTemp, Dir, Granted;
  }

  /** A fresh name beside target, armed in slot; retried while names are taken. */
  method TempMake(k: Machine, target: Path, slot: nat, make: Make, ghost z: Zone, ghost own: Ino) returns (r: Reply, name: Path)
    requires k.Valid() && Steady(k.c, k.w) && slot < PENDING_SLOTS && k.w.slots[slot] == Clear
    requires Makeable(k.c, k.w, make) && MakesRegular(k.w, make) && (make.MakeLink? ==> slot == PENDING_BACKUP)
    modifies k
    ensures k.Valid() && old(k.trace) <= k.trace && old(k.faults) <= k.faults && Steady(k.c, k.w)
    ensures |old(k.w).slots| == PENDING_SLOTS
    ensures r == Ok ==> IsTemp(name) && Dir(name) == Dir(target) && name !in old(k.w).names
    ensures r == Ok ==> k.w == ArmedW(k.c, old(k.w), name, make, slot)
    ensures r != Ok ==> Undone(k.c, old(k.w), k.w, slot, z, own)
    ensures r != Ok && !make.MakeOpen? ==> k.w == old(k.w)
    ensures r != Ok ==> k.faults > old(k.faults)
  {
    hide PointOK, ConfigOK, Tied, Went, KindsOK, IsTemp, Steady, Undone, Dir, IsSuffix, TempName, Hideable;
    assert |k.w.slots| == PENDING_SLOTS by { SlotCount(k.c, k.w); }
    NothingUndone(k.c, k.w, slot, z, own);
    r, name := Exists, "";
    var tries := 0;
    ghost var tried: seq<Path> := [];
    while tries < TEMP_TRIES && r == Exists
      invariant k.Valid() && old(k.trace) <= k.trace && old(k.faults) <= k.faults && Steady(k.c, k.w)
      invariant r == Ok ==> IsTemp(name) && Dir(name) == Dir(target) && name !in old(k.w).names
      invariant r == Ok ==> k.w == ArmedW(k.c, old(k.w), name, make, slot)
      invariant r == Exists || (r != Ok && !make.MakeOpen?) ==> k.w == old(k.w)
      invariant r != Ok ==> Undone(k.c, old(k.w), k.w, slot, z, own)
      invariant r != Ok && r != Exists ==> k.faults > old(k.faults)
      invariant r == Exists ==> |tried| == tries <= TEMP_TRIES && forall i :: 0 <= i < |tried| ==> tried[i] in k.w.names
    {
      name := PickTemp(target);
      r := TempTry(k, name, slot, make, z, own);
      tries := tries + 1;
      tried := tried + [name];
    }
    if r == Exists {
      k.RanOut(tried);
    }
  }

  method PickTemp(target: Path) returns (name: Path)
    ensures IsTemp(name) && Dir(name) == Dir(target)
  {
    var suffix: string := *;
    if !IsSuffix(suffix) {
      suffix := "AAAAAA";
    }
    name := TempName(target, suffix);
    TempNameFacts(target, suffix);
  }

  lemma NothingUndone(c: Config, w: World, slot: nat, z: Zone, own: Ino)
    requires Steady(c, w)
    ensures Undone(c, w, w, slot, z, own)
  {
    hide Steady, Frame;
    FrameRefl(c, w, slot, z, own);
  }

  lemma MadeSame(c: Config, w: World, q: Path, make: Make)
    ensures MadeW(c, w, q, make).slots == w.slots && MadeW(c, w, q, make).blocked == w.blocked
  {
    hide AgainBy, ShownBy, Dir, Granted;
  }

  /** What is made now was not exchanged, or is known to be used again. */
  lemma MadeFirst(c: Config, w: World, q: Path, make: Make, slot: nat)
    requires IsTemp(q) && slot < |w.slots|
    ensures FirstUse(ArmedW(c, w, q, make, slot), q)
  {
    hide Dir, IsTemp, Granted, Mentions;
    if q in w.swapped { assert Used(c, w, q); }
  }

  lemma TempBeside(c: Config, q: Path)
    requires ConfigOK(c) && IsTemp(q)
    ensures SlotBeside(c, q)
  {
    hide IsTemp, Separate;
  }

  lemma PlainBeside(c: Config, q: Path)
    requires !c.settings.force
    ensures SlotBeside(c, q)
  {}

  method TempTry(k: Machine, name: Path, slot: nat, make: Make, ghost z: Zone, ghost own: Ino) returns (r: Reply)
    requires k.Valid() && Steady(k.c, k.w) && slot < PENDING_SLOTS && |k.w.slots| == PENDING_SLOTS
    requires k.w.slots[slot] == Clear
    requires Makeable(k.c, k.w, make) && MakesRegular(k.w, make) && (make.MakeLink? ==> slot == PENDING_BACKUP) && IsTemp(name)
    modifies k
    ensures k.Valid() && old(k.trace) <= k.trace && old(k.faults) <= k.faults && Steady(k.c, k.w)
    ensures r == Ok ==> name !in old(k.w).names && k.w == ArmedW(k.c, old(k.w), name, make, slot)
    ensures r == Exists || (r != Ok && !make.MakeOpen?) ==> k.w == old(k.w)
    ensures r == Exists ==> name in k.w.names
    ensures r != Ok && r != Exists ==> k.faults > old(k.faults)
    ensures r != Ok ==> Undone(k.c, old(k.w), k.w, slot, z, own)
  {
    hide PointOK, ConfigOK, Tied, Went, KindsOK, IsTemp, Dir, Hideable, Steady, Frame, LetThrough, SlotOwn, MadeW, AbortedW, SlotBeside;
    ghost var w0 := k.w;
    MadeSame(k.c, BlockW(w0, true), name, make);
    var was := k.Hold();
    BlockSteady(k.c, w0, true);
    var n;
    r, n := MakeName(k, name, make);
    if r == Ok {
      assert name !in k.c.init by { FreeNotInitP(k.c, w0, name); }
      ArmedWSteady(k.c, BlockW(w0, true), name, make, slot);
      MadeSlotOwn(k.c, BlockW(w0, true), name, make, slot);
      ArmedThrough(k.c, w0, name, make, slot);
      TempBeside(k.c, name);
      k.Arm(slot, name, n);
      k.Release(was);
      BlockedArmed(k.c, w0, name, make, slot, was);
      BlockSteady(k.c, ArmedW(k.c, BlockW(w0, true), name, make, slot), was);
    } else {
      AfterAttempt(k.c, w0, k.w, name, make, slot, z, own, was);
      k.Release(was);
    }
  }

  lemma BlockSteady(c: Config, w: World, b: bool)
    ensures Steady(c, BlockW(w, b)) == Steady(c, w)
    ensures Classified(c, BlockW(w, b)) == Classified(c, w)
    ensures NoPlaceholder(BlockW(w, b)) == NoPlaceholder(w)
  {
    hide FileDone, Dir;
    if Classified(c, w) { SameClass(c, w, BlockW(w, b)); }
    if Classified(c, BlockW(w, b)) { SameClass(c, BlockW(w, b), w); }
  }

  lemma FreeNotInitP(c: Config, w: World, q: Path)
    requires PointOK(c, w) && q !in w.names
    ensures q !in c.init
  {
    hide SignalOK, PublishOK, CrashOK, HistoryOK;
  }

  lemma TempMine(z: Zone, q: Path)
    requires IsTemp(q)
    ensures Mine(z, q) && !Outside(z, q) && Within(z, q)
  {}

  lemma MadeSlotOwn(c: Config, w: World, q: Path, make: Make, slot: nat)
    requires Makeable(c, w, make) && slot < |w.slots|
    ensures SlotOwn(c, MadeW(c, w, q, make).files, MadeIno(w, make))
    ensures slot < BATCH && !make.MakeLink? ==> MadeOwn(w, make)
  {
    hide Hideable, Dir, Granted, Guarded;
  }

  lemma ArmedThrough(c: Config, w: World, q: Path, make: Make, slot: nat)
    requires PointOK(c, w) && q !in w.names && slot < PENDING_SLOTS && |w.slots| == PENDING_SLOTS
    requires slot < BATCH ==> MadeOwn(w, make)
    requires Steady(c, ArmedW(c, BlockW(w, true), q, make, slot))
    ensures w.blocked || LetThrough(c, ArmedW(c, BlockW(w, true), q, make, slot))
  {
    hide PointOK, Classified, NoPlaceholder, SlotsOK, ArmedFree, NoSpareArmed, MadeOwn, Dir, Granted;
    MadeFree(c, w, q, make, slot);
    BlockedArmed(c, w, q, make, slot, w.blocked);
  }

  /** An attempt that failed, before signals are unblocked. */
  lemma AfterAttempt(c: Config, w: World, w': World, q: Path, make: Make, slot: nat, z: Zone, own: Ino, was: bool)
    requires PointOK(c, w) && Steady(c, w) && was == w.blocked && IsTemp(q)
    requires
      || w' == BlockW(w, true)
      || (make.MakeOpen? && q !in w.names && exists b :: w' == AbortedW(c, BlockW(w, true), q, make.role, make.mode, b))
    ensures was || LetThrough(c, w')
    ensures Undone(c, w, BlockW(w', was), slot, z, own)
  {
    hide PointOK, Steady, Undone, IsTemp, Dir, AbortedW, LetThrough;
    TempMine(z, q);
    if w' == BlockW(w, true) {
      AfterCreate(c, w, w', q, Build, PRIVATE, slot, z, own, was);
    } else {
      AfterCreate(c, w, w', q, make.role, make.mode, slot, z, own, was);
    }
  }

  /* ----- what callers use ----- */

  /** The file takes its own name at once, armed until the name is kept. */
  method PlaceCreate(k: Machine, path: Path, m: Mode, slot: nat, ghost own: Ino) returns (r: Reply, n: Ino)
    requires k.Valid() && Steady(k.c, k.w) && slot < PENDING_SLOTS && k.w.slots[slot] == Clear
    requires |k.w.open| <= k.c.batch && Creatable(k.c, path, Build, m) && !k.c.settings.force
    modifies k
    ensures k.Valid() && old(k.trace) <= k.trace && old(k.faults) <= k.faults && Steady(k.c, k.w)
    ensures |old(k.w).slots| == PENDING_SLOTS
    ensures r == Ok ==> path !in old(k.w).names && n == old(k.w).next
    ensures r == Ok ==> k.w == ArmedW(k.c, old(k.w), path, MakeOpen(Build, m), slot)
    ensures r != Ok ==> Undone(k.c, old(k.w), k.w, slot, Own(path), own)
    ensures path in old(k.w).names ==> k.w == old(k.w)
    ensures r != Ok ==> path in old(k.w).names || k.faults > old(k.faults)
  {
    hide AgainBy, ShownBy, PointOK, ConfigOK, Tied, Went, KindsOK, Dir, Classified, SlotsOK, NoPlaceholder, Frame, Creatable, Outside, LetThrough, IsTemp, SlotOwn, AbortedW, Guarded, SlotBeside;
    ghost var w0 := k.w;
    assert |k.w.slots| == PENDING_SLOTS by { SlotCount(k.c, k.w); }
    var was := k.Hold();
    BlockSteady(k.c, w0, true);
    r, n := CreateExcl(k, path, Build, m);
    if r == Ok {
      assert path !in k.c.init by { FreeNotInitP(k.c, w0, path); }
      CreatedSteady(k.c, BlockW(w0, true), path, m, slot);
      CreatedThrough(k.c, w0, path, m, slot);
      assert SlotBeside(k.c, path) by { PlainBeside(k.c, path); }
      k.Arm(slot, path, n);
      k.Release(was);
      BlockedArmed(k.c, w0, path, MakeOpen(Build, m), slot, was);
      BlockSteady(k.c, ArmedW(k.c, BlockW(w0, true), path, MakeOpen(Build, m), slot), was);
    } else {
      AfterCreate(k.c, w0, k.w, path, Build, m, slot, Own(path), own, was);
      k.Release(was);
    }
  }

  lemma CreatedThrough(c: Config, w: World, q: Path, m: Mode, slot: nat)
    requires PointOK(c, w) && q !in w.names && slot < PENDING_SLOTS && |w.slots| == PENDING_SLOTS
    requires Steady(c, ArmedW(c, BlockW(w, true), q, MakeOpen(Build, m), slot))
    ensures w.blocked || LetThrough(c, ArmedW(c, BlockW(w, true), q, MakeOpen(Build, m), slot))
    ensures SlotOwn(c, CreateW(c, BlockW(w, true), q, Build, m).files, w.next)
  {
    hide PointOK, Steady, LetThrough, Dir, Granted, Guarded;
    ArmedThrough(c, w, q, MakeOpen(Build, m), slot);
  }

  lemma OwnNotOutside(z: Zone)
    ensures !Outside(z, z.path) && Within(z, z.path)
  {}

  lemma CreatedSteady(c: Config, w: World, q: Path, m: Mode, slot: nat)
    requires PointOK(c, w) && Steady(c, w) && q !in w.names && slot < PENDING_SLOTS && w.slots[slot] == Clear
    ensures Steady(c, ArmedW(c, w, q, MakeOpen(Build, m), slot))
  {
    hide Steady, Dir, CrashOK, PublishOK, HistoryOK, Granted;
    ArmedSteady(c, w, ArmedW(c, w, q, MakeOpen(Build, m), slot), slot, q, w.next);
  }

  /** A creation that failed, before signals are unblocked. */
  lemma AfterCreate(c: Config, w: World, w': World, q: Path, role: Role, m: Mode, slot: nat, z: Zone, own: Ino, was: bool)
    requires PointOK(c, w) && Steady(c, w) && was == w.blocked && Mine(z, q)
    requires
      || w' == BlockW(w, true)
      || (q !in w.names && w' == AbortedW(c, BlockW(w, true), q, role, m, true))
      || (q !in w.names && w' == AbortedW(c, BlockW(w, true), q, role, m, false))
    ensures was || LetThrough(c, w')
    ensures Undone(c, w, BlockW(w', was), slot, z, own)
  {
    hide Classified, SlotsOK, NoPlaceholder, Frame, SignalOK, PublishOK, CrashOK, HistoryOK, IsTemp, Dir, Outside, ArmedFree, NoSpareArmed, Granted, SlotOwn, Unclobbered;
    StillFree(c, w, 0, q, 0);
    BlockSteady(c, w, true);
    if w' == BlockW(w, true) {
      NothingUndone(c, w, slot, z, own);
    } else {
      var b := w' == AbortedW(c, BlockW(w, true), q, role, m, true);
      BlockedAborted(c, w, q, role, m, b, was);
      AbortedUndone(c, w, q, role, m, b, slot, z, own);
      BlockSteady(c, w', was);
      SameWellFormed(c, w, BlockW(w, true));
      AbortedSlots(c, BlockW(w, true), q, role, m, b);
    }
  }
}
