/** Making, naming and removing files without -f while other processes are at work:
    each call is one step, and between any two of them anything may happen to the
    names. */
module Race {
  import opened Names

  /** A file, whatever names it has. */
  type Ino = nat

  datatype Slot = Clear | Armed(path: Path, ino: Ino)

  /** Between which calls the run is. Opened: n was created at q, and fstat is next;
      hold: it is to hold the name for the file of the slot. Doomed: fstat failed, and
      unlink is next. Holding: n holds the name q, and rename over it is next. Over:
      that failed, and n is to be removed. Looked: lstat found n at q, and unlink is
      next. */
  datatype Pc =
    | Calm
    | Opened(q: Path, n: Ino, slot: nat, hold: bool)
    | Doomed(q: Path, n: Ino)
    | Holding(q: Path, n: Ino, slot: nat)
    | Over(q: Path, n: Ino)
    | Looked(q: Path, n: Ino, slots: map<nat, Slot>)

  /** own are the files this run made. */
  datatype State = State(names: map<Path, Ino>, own: set<Ino>, slots: map<nat, Slot>, pc: Pc)

  /** Others: another process changed the names. */
  datatype Step =
    | Open(q: Path, n: Ino, slot: nat, hold: bool)  // create_excl
    | Fstat
    | FstatFails
    | UnlinkBlind                                   // its unlink after that
    | LinkFd(n: Ino, q: Path)                       // fast_link, to the operand's name
    | LinkTemp(n: Ino, q: Path, slot: nat)          // fast_link, to a temporary name
    | Rename(slot: nat, target: Path)               // fast_rename_noreplace
    | Link(slot: nat, target: Path)
    | RenameOver                                    // place_over
    | OverFails
    | Look(slot: nat)                               // remove_ours, of what a slot names
    | LookHeld                                      // remove_ours, of the empty file
    | Unlink                                        // its unlink
    | Forget(slot: nat)                             // pending_clear
    | Signal                                        // the handler starts over with the slots
    | GiveUp                                        // a call fails, and nothing more is tried
    | Others(names: map<Path, Ino>)

  predicate ArmedTemp(s: State, slot: nat) {
    slot in s.slots && s.slots[slot].Armed? && IsTemp(s.slots[slot].path)
  }

  predicate Allowed(s: State, t: Step) {
    match t
    case Open(q, n, slot, hold) =>
      && s.pc == Calm && q !in s.names && n !in s.own && n !in s.names.Values
      && (if hold then ArmedTemp(s, slot) else slot !in s.slots)
    case Fstat => s.pc.Opened?
    case FstatFails => s.pc.Opened?
    case UnlinkBlind => s.pc.Doomed?
    case LinkFd(n, q) => s.pc == Calm && n in s.own && q !in s.names
    case LinkTemp(n, q, slot) => s.pc == Calm && n in s.own && q !in s.names && IsTemp(q) && slot !in s.slots
    case Rename(slot, target) => s.pc == Calm && ArmedTemp(s, slot) && s.slots[slot].path in s.names && target !in s.names
    case Link(slot, target) => s.pc == Calm && ArmedTemp(s, slot) && s.slots[slot].path in s.names && target !in s.names
    case RenameOver => s.pc.Holding? && ArmedTemp(s, s.pc.slot) && s.slots[s.pc.slot].path in s.names
    case OverFails => s.pc.Holding?
    case Look(slot) => s.pc == Calm && slot in s.slots && s.slots[slot].Armed?
    case LookHeld => s.pc.Over?
    case Unlink => s.pc.Looked?
    case Forget(slot) => s.pc == Calm && slot in s.slots
    case Signal => s.pc.Looked?
    case GiveUp => s.pc.Doomed? || s.pc.Over? || s.pc.Looked?
    case Others(names) => true
  }

  /** rename(2): between two names of one file it does nothing. */
  function Moved(names: map<Path, Ino>, s: Path, t: Path): map<Path, Ino>
    requires s in names
  {
    if t in names && names[t] == names[s] then names else (names - {s})[t := names[s]]
  }

  /** lstat says which file the name has; another is left alone. */
  function LookedAt(s: State, q: Path, n: Ino, slots: map<nat, Slot>): State {
    if q in s.names && s.names[q] == n then s.(pc := Looked(q, n, slots)) else s.(slots := slots, pc := Calm)
  }

  function Apply(s: State, t: Step): State
    requires Allowed(s, t)
  {
    match t
    case Open(q, n, slot, hold) => s.(names := s.names[q := n], own := s.own + {n}, pc := Opened(q, n, slot, hold))
    case Fstat =>
      var Opened(q, n, slot, hold) := s.pc;
      if hold then s.(pc := Holding(q, n, slot)) else s.(slots := s.slots[slot := Armed(q, n)], pc := Calm)
    case FstatFails => s.(pc := Doomed(s.pc.q, s.pc.n))
    case UnlinkBlind => s.(names := s.names - {s.pc.q}, pc := Calm)
    case LinkFd(n, q) => s.(names := s.names[q := n])
    case LinkTemp(n, q, slot) => s.(names := s.names[q := n], slots := s.slots[slot := Armed(q, n)])
    case Rename(slot, target) => s.(names := Moved(s.names, s.slots[slot].path, target), slots := s.slots - {slot})
    case Link(slot, target) => s.(names := s.names[target := s.names[s.slots[slot].path]])
    case RenameOver => s.(names := Moved(s.names, s.slots[s.pc.slot].path, s.pc.q), slots := s.slots - {s.pc.slot}, pc := Calm)
    case OverFails => s.(pc := Over(s.pc.q, s.pc.n))
    case Look(slot) => LookedAt(s, s.slots[slot].path, s.slots[slot].ino, s.slots - {slot})
    case LookHeld => LookedAt(s, s.pc.q, s.pc.n, s.slots)
    case Unlink => s.(names := s.names - {s.pc.q}, slots := s.pc.slots, pc := Calm)
    case Forget(slot) => s.(slots := s.slots - {slot})
    case Signal => s.(pc := Calm)
    case GiveUp => s.(slots := if s.pc.Looked? then s.pc.slots else s.slots, pc := Calm)
    case Others(names) => s.(names := names)
  }

  /* ----- what the run goes by ----- */

  /** Slots name files this run made, and so does what it is about to remove. */
  ghost predicate Inv(s: State) {
    && (forall k :: k in s.slots && s.slots[k].Armed? ==> s.slots[k].ino in s.own)
    && (s.pc != Calm ==> s.pc.n in s.own)
    && (s.pc.Looked? ==>
          && (forall k :: k in s.pc.slots ==> k in s.slots && s.pc.slots[k] == s.slots[k])
          && (forall k :: k in s.slots && k !in s.pc.slots ==> s.slots[k] == Armed(s.pc.q, s.pc.n)))
    && (s.pc.Opened? ==> if s.pc.hold then ArmedTemp(s, s.pc.slot) else s.pc.slot !in s.slots)
    && (s.pc.Holding? ==> ArmedTemp(s, s.pc.slot))
  }

  lemma StepKeeps(s: State, t: Step)
    requires Inv(s) && Allowed(s, t)
    ensures Inv(Apply(s, t))
  {
    hide IsTemp;
  }

  /** A name by which the run may move or remove what is there without looking again:
      a temporary one, and another only between two calls. */
  ghost predicate GoesBy(s: State, q: Path) {
    || ((s.pc.Opened? || s.pc.Doomed? || s.pc.Looked?) && s.pc.q == q)
    || (s.pc.Holding? && s.pc.q == q && ArmedTemp(s, s.pc.slot) && s.slots[s.pc.slot].path in s.names)
    || exists k :: ArmedTemp(s, k) && s.slots[k].path == q
  }

  /** Another's file has such a name. */
  ghost predicate ExposedAt(s: State, q: Path) {
    GoesBy(s, q) && q in s.names && s.names[q] !in s.own
  }

  ghost predicate Exposed(s: State) {
    exists q :: ExposedAt(s, q)
  }

  /** Every file that is not this run's keeps its names. */
  ghost predicate LeavesAlone(s: State, s': State) {
    forall q :: q in s.names && s.names[q] !in s.own ==> q in s'.names && s'.names[q] == s.names[q]
  }

  lemma OwnStepLeaves(s: State, t: Step)
    requires Inv(s) && Allowed(s, t) && !t.Others? && !Exposed(s)
    ensures LeavesAlone(s, Apply(s, t)) && !Exposed(Apply(s, t))
  {
    hide IsTemp;
    var s' := Apply(s, t);
    forall q | q in s.names && s.names[q] !in s.own ensures q in s'.names && s'.names[q] == s.names[q] {
      assert !ExposedAt(s, q);
    }
    if t.Rename? || t.Link? { assert !ExposedAt(s, s.slots[t.slot].path); }
    if t.RenameOver? { assert !ExposedAt(s, s.slots[s.pc.slot].path); }
    forall q ensures !ExposedAt(s', q) {
      assert !ExposedAt(s, q);
      if GoesBy(s', q) && !GoesBy(s, q) { assert t.Open? || t.LinkTemp? || t.Look? || t.LookHeld?; }
    }
  }

  /* ----- runs ----- */

  ghost predicate Runs(s: State, steps: seq<Step>, s': State)
    decreases |steps|
  {
    if steps == [] then s' == s
    else Allowed(s, steps[0]) && Runs(Apply(s, steps[0]), steps[1..], s')
  }

  /** No other process puts a file of its own under a name the run goes by. */
  ghost predicate Spared(s: State, steps: seq<Step>)
    decreases |steps|
  {
    steps == [] ||
    (Allowed(s, steps[0]) ==>
       && (steps[0].Others? && !Exposed(s) ==> !Exposed(Apply(s, steps[0])))
       && Spared(Apply(s, steps[0]), steps[1..]))
  }

  /** However other processes come in between, as long as they do not do that, no step
      of this run takes a name from a file that is not its own. */
  lemma {:induction false} NeverClobbers(s: State, steps: seq<Step>, s': State, t: Step)
    requires Inv(s) && !Exposed(s) && Runs(s, steps, s') && Spared(s, steps) && Allowed(s', t) && !t.Others?
    ensures Inv(s') && !Exposed(s') && LeavesAlone(s', Apply(s', t))
    decreases |steps|
  {
    hide Inv, Exposed, Allowed, Apply, LeavesAlone;
    if steps == [] {
      OwnStepLeaves(s, t);
    } else {
      StepKeeps(s, steps[0]);
      if !steps[0].Others? { OwnStepLeaves(s, steps[0]); }
      NeverClobbers(Apply(s, steps[0]), steps[1..], s', t);
    }
  }

  ghost predicate OwnSteps(steps: seq<Step>) {
    forall i :: 0 <= i < |steps| ==> !steps[i].Others?
  }

  /** What the run does by itself from here may take a name from another's file. */
  ghost predicate MayClobber(s: State) {
    exists steps, s', t :: OwnSteps(steps) && Runs(s, steps, s') && Clobbers(s', t)
  }

  ghost predicate Clobbers(s: State, t: Step) {
    Allowed(s, t) && !t.Others? && !LeavesAlone(s, Apply(s, t))
  }

  lemma {:induction false} OwnSpared(s: State, steps: seq<Step>)
    requires OwnSteps(steps)
    ensures Spared(s, steps)
    decreases |steps|
  {
    hide Allowed, Apply, Exposed;
    if steps != [] && Allowed(s, steps[0]) {
      assert forall i :: 0 <= i < |steps[1..]| ==> steps[1..][i] == steps[i + 1];
      OwnSpared(Apply(s, steps[0]), steps[1..]);
    }
  }

  lemma Clobber(s: State, s': State, t: Step, steps: seq<Step>)
    requires OwnSteps(steps) && Runs(s, steps, s') && Clobbers(s', t)
    ensures MayClobber(s)
  {}

  /** A name that none has. */
  lemma FreeName(names: map<Path, Ino>) returns (q: Path)
    ensures q !in names
  {
    q := Longer(names.Keys);
  }

  ghost function Longer(names: set<Path>): (q: Path)
    ensures forall p :: p in names ==> |p| < |q|
  {
    if names == {} then "/" else
    var p :| p in names;
    var q := Longer(names - {p});
    if |p| < |q| then q else p + "/"
  }

  /** The exact condition: the run takes a name from another's file if, and only if,
      one has a name the run goes by. */
  lemma ClobbersIffExposed(s: State)
    requires Inv(s)
    ensures MayClobber(s) <==> Exposed(s)
  {
    hide Inv, Allowed, Apply, LeavesAlone, ExposedAt;
    if Exposed(s) {
      var q :| ExposedAt(s, q);
      ExposedClobbers(s, q);
    }
    if !Exposed(s) && MayClobber(s) {
      var steps, s', t :| OwnSteps(steps) && Runs(s, steps, s') && Clobbers(s', t);
      OwnSpared(s, steps);
      NeverClobbers(s, steps, s', t);
    }
  }

  lemma ExposedClobbers(s: State, q: Path)
    requires Inv(s) && ExposedAt(s, q)
    ensures MayClobber(s)
  {
    hide IsTemp;
    assert Runs(s, [], s);
    if k :| ArmedTemp(s, k) && s.slots[k].path == q {
      SlotClobbers(s, k);
    } else if s.pc.Doomed? {
      Clobber(s, s, UnlinkBlind, []);
    } else if s.pc.Looked? {
      Clobber(s, s, Unlink, []);
    } else if s.pc.Opened? {
      RunsOne(s, FstatFails);
      Clobber(s, Apply(s, FstatFails), UnlinkBlind, [FstatFails]);
    } else {
      var tmp := s.slots[s.pc.slot].path;
      if s.names[tmp] == s.names[q] {
        SlotClobbers(s, s.pc.slot);
      } else {
        Clobber(s, s, RenameOver, []);
      }
    }
  }

  /** The calls that bring the run to where the next operand is handled. */
  function Finish(s: State): seq<Step> {
    match s.pc
    case Calm => []
    case Opened(_, _, _, _) => [FstatFails, GiveUp]
    case Holding(_, _, _) => [OverFails, GiveUp]
    case _ => [GiveUp]
  }

  lemma FinishRuns(s: State)
    ensures
      var s' := s.(slots := if s.pc.Looked? then s.pc.slots else s.slots, pc := Calm);
      OwnSteps(Finish(s)) && Runs(s, Finish(s), s')
  {
    var steps := Finish(s);
    var s' := s.(slots := if s.pc.Looked? then s.pc.slots else s.slots, pc := Calm);
    assert Runs(s', [], s');
    if |steps| == 1 {
      assert steps[1..] == [];
    } else if |steps| == 2 {
      assert steps[1..] == [GiveUp] && steps[1..][1..] == [];
      assert Runs(Apply(s, steps[0]), [GiveUp], s');
    }
  }

  /** A temporary name is moved without a look at what it holds. */
  lemma SlotClobbers(s: State, k: nat)
    requires Inv(s) && ArmedTemp(s, k) && ExposedAt(s, s.slots[k].path)
    ensures MayClobber(s)
  {
    hide IsTemp;
    var q := s.slots[k].path;
    if s.pc.Looked? && s.pc.q == q {
      assert Runs(s, [], s);
      Clobber(s, s, Unlink, []);
    } else {
      FinishRuns(s);
      var s' := s.(slots := if s.pc.Looked? then s.pc.slots else s.slots, pc := Calm);
      var target := FreeName(s.names);
      assert ArmedTemp(s', k) && s'.slots[k].path == q;
      assert q !in Apply(s', Rename(k, target)).names;
      Clobber(s, s', Rename(k, target), Finish(s));
    }
  }

  lemma RunsOne(s: State, t: Step)
    requires Allowed(s, t)
    ensures Runs(s, [t], Apply(s, t))
  {
    assert [t][1..] == [];
    assert Runs(Apply(s, t), [], Apply(s, t));
  }

  /* ----- what is given, and what is removed ----- */

  /** The name a step gives to a file. */
  function Gives(s: State, t: Step): set<Path> {
    match t
    case Open(q, _, _, _) => {q}
    case LinkFd(_, q) => {q}
    case LinkTemp(_, q, _) => {q}
    case Rename(_, target) => {target}
    case Link(_, target) => {target}
    case RenameOver => if s.pc.Holding? then {s.pc.q} else {}
    case _ => {}
  }

  /** A name is given only if it is free, or holds a file of this run; and only to a
      file of this run. */
  lemma GivenOnlyIfFree(s: State, t: Step, q: Path)
    requires Inv(s) && !Exposed(s) && Allowed(s, t) && q in Gives(s, t)
    ensures q in s.names ==> s.names[q] in s.own
    ensures q in Apply(s, t).names && Apply(s, t).names[q] in Apply(s, t).own
  {
    hide IsTemp;
    assert !ExposedAt(s, q);
    if t.Rename? || t.Link? {
      assert !ExposedAt(s, s.slots[t.slot].path);
    } else if t.RenameOver? {
      assert !ExposedAt(s, s.slots[s.pc.slot].path);
    }
  }

  /** A file that another process put under a name of this run's is not removed, if it
      was there when lstat looked. */
  lemma LookSpares(s: State, t: Step)
    requires Inv(s) && Allowed(s, t) && (t.Look? || t.LookHeld?)
    ensures Apply(s, t).names == s.names
    ensures
      var q := if t.Look? then s.slots[t.slot].path else s.pc.q;
      q in s.names && s.names[q] !in s.own ==> Apply(s, t).pc == Calm
  {
    hide IsTemp;
  }

  /* ----- the runs that do clobber ----- */

  /** The file is created, another process replaces it, fstat fails, and unlink takes
      the name from the other file. */
  lemma FstatRaceLoses(names: map<Path, Ino>, p: Path, n: Ino, m: Ino)
    requires p !in names && n !in names.Values && m != n
    ensures
      var s := State(names, {}, map[], Calm);
      && Inv(s) && !Exposed(s)
      && exists s' :: Runs(s, [Open(p, n, 0, false), Others(names[p := m]), FstatFails], s') && Clobbers(s', UnlinkBlind)
                      && p !in Apply(s', UnlinkBlind).names
  {
    hide IsTemp;
    var s := State(names, {}, map[], Calm);
    var steps := [Open(p, n, 0, false), Others(names[p := m]), FstatFails];
    assert steps[1..] == [Others(names[p := m]), FstatFails] && steps[1..][1..] == [FstatFails] && steps[1..][1..][1..] == [];
    var s1 := Apply(s, steps[0]);
    var s2 := Apply(s1, steps[1]);
    var s3 := Apply(s2, FstatFails);
    RunsOne(s2, FstatFails);
    assert Runs(s1, steps[1..], s3);
    assert Runs(s, steps, s3);
    assert s3.names == names[p := m] && s3.own == {n} && s3.pc == Doomed(p, n);
    assert p !in Apply(s3, UnlinkBlind).names;
    assert Clobbers(s3, UnlinkBlind);
  }

  /** The empty file that holds a name is replaced, and rename takes the name from what
      replaced it. */
  lemma HolderRaceLoses(s: State, m: Ino)
    requires Inv(s) && s.pc.Holding? && s.slots[s.pc.slot].path in s.names && s.slots[s.pc.slot].path != s.pc.q
    requires m !in s.own && s.names[s.slots[s.pc.slot].path] != m
    ensures Clobbers(s.(names := s.names[s.pc.q := m]), RenameOver)
  {
    hide IsTemp;
    var s1 := s.(names := s.names[s.pc.q := m]);
    assert s1.names[s.pc.q] == m && Apply(s1, RenameOver).names[s.pc.q] != m;
  }

  /** What lstat found is replaced before unlink. */
  lemma LookRaceLoses(s: State, slot: nat, m: Ino)
    requires Inv(s) && Allowed(s, Look(slot)) && Apply(s, Look(slot)).pc.Looked? && m !in s.own
    ensures
      var s1 := Apply(s, Look(slot));
      Clobbers(s1.(names := s1.names[s1.pc.q := m]), Unlink)
  {
    hide IsTemp;
    var s1 := Apply(s, Look(slot));
    var s2 := s1.(names := s1.names[s1.pc.q := m]);
    assert s2.names[s1.pc.q] == m && s1.pc.q !in Apply(s2, Unlink).names;
  }
}
