/** What the command line asks for, and what a finished file therefore holds. */
module Spec {

  type byte = x: int | 0 <= x < 256

  datatype Option<+T> = None | Some(value: T)

  /* ----- content ----- */

  function Zeros(n: nat): (s: seq<byte>)
    ensures |s| == n
    ensures forall k :: 0 <= k < n ==> s[k] == 0
  {
    seq(n, _ => 0)
  }

  /** Truncated, or padded with NUL bytes. */
  function Resize(s: seq<byte>, n: nat): (r: seq<byte>)
    ensures |r| == n
  {
    if n <= |s| then s[..n] else s + Zeros(n - |s|)
  }

  function Filled(template: Option<seq<byte>>, size: Option<nat>): seq<byte> {
    var base := if template.Some? then template.value else [];
    if size.Some? then Resize(base, size.value) else base
  }

  /** With a size: that many bytes, each the template's, or NUL past its end or where
      there is none. Without: the template, or nothing. */
  lemma FilledIff(template: Option<seq<byte>>, size: Option<nat>, d: seq<byte>)
    ensures d == Filled(template, size) <==>
              && (size.Some? ==> |d| == size.value)
              && (size.None? ==> |d| == (if template.Some? then |template.value| else 0))
              && forall i :: 0 <= i < |d| ==> d[i] == if template.Some? && i < |template.value| then template.value[i] else 0
  {
    var r := Filled(template, size);
    if |d| == |r| && forall i :: 0 <= i < |d| ==> d[i] == r[i] { assert d == r; }
  }

  /* ----- owner and mode ----- */

  datatype PermBit = UR | UW | UX | GR | GW | GX | OR | OW | OX
  datatype SpecialBit = SetUid | SetGid | Sticky

  datatype Mode = Mode(rwx: set<PermBit>, special: set<SpecialBit>)

  datatype Owner = Owner(uid: nat, gid: nat)

  /** Mode 0600. */
  const PRIVATE := Mode({UR, UW}, {})

  /** What writing to a file and changing its owner leave of its mode. */
  function DropSetId(m: Mode): Mode {
    m.(special := m.special - {SetUid, SetGid})
  }

  /** Nobody but the owner has access, and nothing runs as another user. */
  predicate IsPrivate(m: Mode) {
    m.rwx <= PRIVATE.rwx && m.special == {}
  }

  datatype Access = Reading | Writing | Executing

  /** The permission check, for a process that is not privileged: of the three sets of
      bits, the first that is about it decides. */
  predicate Allows(m: Mode, o: Owner, uid: nat, gids: set<nat>, a: Access) {
    var bits :=
      if uid == o.uid then [UR, UW, UX] else if o.gid in gids then [GR, GW, GX] else [OR, OW, OX];
    bits[match a case Reading => 0 case Writing => 1 case Executing => 2] in m.rwx
  }

  lemma PrivateIff(m: Mode, o: Owner)
    ensures IsPrivate(m) <==> m.special == {} && forall uid, gids, a :: Allows(m, o, uid, gids, a) ==> uid == o.uid && a != Executing
  {
    if b :| b in m.rwx && b !in PRIVATE.rwx { Opens(m, o, b); }
  }

  /** Whoever else, or whatever else, a bit is for. */
  lemma Opens(m: Mode, o: Owner, b: PermBit)
    requires b in m.rwx && b !in PRIVATE.rwx
    ensures exists uid, gids, a :: Allows(m, o, uid, gids, a) && !(uid == o.uid && a != Executing)
  {
    var other := o.uid + 1;
    match b
    case UX => assert Allows(m, o, o.uid, {}, Executing);
    case GR => assert Allows(m, o, other, {o.gid}, Reading);
    case GW => assert Allows(m, o, other, {o.gid}, Writing);
    case GX => assert Allows(m, o, other, {o.gid}, Executing);
    case OR => assert Allows(m, o, other, {}, Reading);
    case OW => assert Allows(m, o, other, {}, Writing);
    case OX => assert Allows(m, o, other, {}, Executing);
  }

  /* ----- settings ----- */

  datatype Control = NoBackup | Simple | Numbered | Existing

  datatype Settings = Settings(
    template: Option<seq<byte>>,
    size: Option<nat>,
    mode: Mode,
    absolute: bool,
    ownerGiven: bool,
    uid: Option<nat>,
    gid: Option<nat>,
    uidChanges: bool,
    force: bool,
    parents: bool,
    control: Control)

  predicate HasContent(s: Settings) {
    s.template.Some? || s.size.Some?
  }

  /** An empty file with the mode the directory grants: made under its own name. */
  predicate IsPlain(s: Settings) {
    !HasContent(s) && !s.ownerGiven && !s.absolute && !s.force
  }

  predicate BackupOn(s: Settings) {
    s.force && s.control != NoBackup
  }

  /** Whether p~ may be the backup of p, and whether p.~n~ may. */
  predicate MaySimple(s: Settings) { BackupOn(s) && s.control != Numbered }

  predicate MayNumber(s: Settings) { BackupOn(s) && s.control != Simple }

  /** fchown; an id that is not given stays. */
  function Chowned(o: Owner, uid: Option<nat>, gid: Option<nat>): (r: Owner)
    ensures r.uid == match uid case Some(u) => u case None => o.uid
    ensures r.gid == match gid case Some(g) => g case None => o.gid
  {
    Owner(if uid.Some? then uid.value else o.uid, if gid.Some? then gid.value else o.gid)
  }

  function FinalOwner(s: Settings, me: Owner): Owner {
    if s.ownerGiven then
      Owner(if s.uid.Some? then s.uid.value else me.uid,
            if s.gid.Some? then s.gid.value else me.gid)
    else me
  }

  /** granted is the mode a new file gets in the directory. */
  function FinalMode(s: Settings, granted: Mode): Mode {
    if s.absolute then s.mode else Mode(granted.rwx, s.mode.special)
  }
}
