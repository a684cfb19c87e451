/** Which operands stand in each other's way: a backup may take the name of an
    operand that was finished before, and so may an operand given twice. */
module Order {
  import opened Names
  import opened Spec
  import opened World

  lemma StandsLater(c: Config, q: Path, m: nat, m': nat)
    requires Stands(c, q, m) && m <= m'
    ensures Stands(c, q, m')
  {
    if q !in c.init {
      var z :| 0 <= z < m && z < |c.operands| && Gives(c, z, q);
      assert 0 <= z < m';
    }
  }

  /** A later operand y takes the name of the operand x: it is the same operand,
      or there is a file to back up, and the name of x is its simple backup. */
  ghost predicate Hit(c: Config, x: nat, y: nat)
    requires x < |c.operands| && y < |c.operands|
  {
    c.operands[y] == c.operands[x] ||
    (MaySimple(c.settings) && c.operands[x] == SimpleBackup(c.operands[y]) && Stands(c, c.operands[y], y))
  }

  /** No operand before `from` takes the name of x after x had it. */
  ghost predicate Live(c: Config, x: nat, from: nat)
    requires x < |c.operands|
  {
    forall y :: x < y < from && y < |c.operands| ==> !Hit(c, x, y)
  }

  /** Every name asked for keeps the file that was made for it last. */
  ghost predicate Lasting(c: Config) {
    forall p :: p in c.operands ==> exists x :: 0 <= x < |c.operands| && c.operands[x] == p && Live(c, x, |c.operands|)
  }

  /** Where it can be told from the command line and the names at the start alone
      what each backup replaces. */
  ghost predicate Exactly(c: Config) {
    c.settings.force && c.settings.control == Simple && Distinct(c)
  }

  /** The operand x is the simple backup name of a later one that has a file. */
  ghost predicate Overwritten(c: Config, x: nat, y: nat) {
    x < y < |c.operands| && MaySimple(c.settings) && c.operands[x] == SimpleBackup(c.operands[y]) && Stands(c, c.operands[y], y)
  }

  /** For distinct operands that is the one way to lose a finished file's name. */
  lemma LastingIff(c: Config)
    requires Distinct(c)
    ensures Lasting(c) <==> !exists x: nat, y: nat :: Overwritten(c, x, y)
  {
    hide Stands, BackupOn, SimpleBackup;
    if x: nat, y: nat :| Overwritten(c, x, y) {
      forall x' | 0 <= x' < |c.operands| && c.operands[x'] == c.operands[x] ensures !Live(c, x', |c.operands|) {
        assert x' == x && Hit(c, x, y);
      }
      assert c.operands[x] in c.operands;
    } else {
      forall p | p in c.operands ensures exists x :: 0 <= x < |c.operands| && c.operands[x] == p && Live(c, x, |c.operands|) {
        var x :| 0 <= x < |c.operands| && c.operands[x] == p;
        forall y | x < y < |c.operands| ensures !Hit(c, x, y) {
          assert !Overwritten(c, x, y);
        }
      }
    }
  }

  /** The last index at which p is given. */
  lemma LastIndex(c: Config, p: Path) returns (x: nat)
    requires p in c.operands
    ensures x < |c.operands| && c.operands[x] == p && forall y :: x < y < |c.operands| ==> c.operands[y] != p
  {
    x := |c.operands| - 1;
    while c.operands[x] != p
      invariant 0 <= x < |c.operands| && p in c.operands[..x + 1]
      invariant forall y :: x < y < |c.operands| ==> c.operands[y] != p
      decreases x
    {
      x := x - 1;
    }
  }

  /** Without simple backups names are never lost, nor where operands are apart. */
  lemma LastingUnless(c: Config)
    requires !MaySimple(c.settings) || Separate(c)
    ensures Lasting(c)
  {
    hide Stands, IsNumbered;
    forall p | p in c.operands ensures exists x :: 0 <= x < |c.operands| && c.operands[x] == p && Live(c, x, |c.operands|) {
      var x := LastIndex(c, p);
      forall y | x < y < |c.operands| ensures !Hit(c, x, y) {
        assert Separate(c) ==> !BackupName(c, c.operands[y], c.operands[x]);
      }
    }
  }

  /* ----- what need not fail ----- */

  /** p was there at the start, or is given before. */
  ghost predicate ClaimedAt(c: Config, x: nat)
    requires x < |c.operands|
  {
    c.operands[x] in c.init || exists y :: 0 <= y < x && c.operands[y] == c.operands[x]
  }

  /** The operand x is never given its file: its path names none; or without -f it is
      claimed already; or, with -f, it is a directory. */
  ghost predicate BlockedAt(c: Config, x: nat)
    requires x < |c.operands|
  {
    || Nameless(c.operands[x])
    || (if c.settings.force then IsDirectory(c, c.operands[x]) else ClaimedAt(c, x))
  }

  /** Even if every call works, the operand x may be given up: it is blocked; or no
      backup can be made of what it is, because that is no regular file, or because a
      directory has the name of the backup. */
  ghost predicate HinderedAt(c: Config, x: nat)
    requires x < |c.operands|
  {
    var p := c.operands[x];
    || BlockedAt(c, x)
    || (BackupOn(c.settings) && Irregular(c, p))
    || (MaySimple(c.settings) && IsDirectory(c, SimpleBackup(p)) && Stands(c, p, x))
  }

  ghost predicate Hindered(c: Config) { exists x :: 0 <= x < |c.operands| && HinderedAt(c, x) }

  /** Without -f there is nothing else to be in the way. */
  lemma HinderedUnforced(c: Config)
    requires !c.settings.force
    ensures Hindered(c) <==> exists x :: 0 <= x < |c.operands| && BlockedAt(c, x)
  {
    hide Stands, ClaimedAt, Nameless, IsDirectory;
    if x :| 0 <= x < |c.operands| && BlockedAt(c, x) { assert HinderedAt(c, x); }
    if x :| 0 <= x < |c.operands| && HinderedAt(c, x) { assert BlockedAt(c, x); }
  }

  /** Without -f, no operand is there and none is given twice. */
  ghost predicate AllFree(c: Config) {
    !c.settings.force && Distinct(c) && forall x :: 0 <= x < |c.operands| ==> c.operands[x] !in c.init
  }

  lemma FreeOrHindered(c: Config)
    requires !c.settings.force
    ensures AllFree(c) || Hindered(c)
  {
    hide Stands;
    if x :| 0 <= x < |c.operands| && c.operands[x] in c.init {
      assert HinderedAt(c, x);
    } else if x, y :| 0 <= x < y < |c.operands| && c.operands[x] == c.operands[y] {
      assert HinderedAt(c, y);
    }
  }
}
