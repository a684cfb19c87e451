/** Making the directories above a path, and making them last. */
module Parents {
  import opened Names

  /** A directory name ends at i: before a slash, or with the path. */
  predicate EndsAt(path: string, i: int) {
    0 < i <= |path| && (i == |path| || path[i] == '/')
  }

  datatype Made = New | There | Refused

  /** The directories as they are found: mkdir may make one, find one, or fail. */
  class Tree {
    const flushes: string -> bool   // the directory can be opened, and fsync works on it
    const max: nat                  // how many may be queued
    var dirs: set<string>           // known to be directories
    var queued: seq<string>         // to be flushed
    var failed: nat                 // flushes that failed
    ghost var refused: nat          // directories that could not be made, nor were there
    ghost var made: set<string>     // made by this run
    ghost var lasting: set<string>  // made, and the directory that names it flushed since

    constructor (flushes: string -> bool, max: nat)
      requires max > 0
      ensures this.flushes == flushes && this.max == max && Valid() && dirs == {} && made == {} && failed == 0 && refused == 0
    {
      this.flushes, this.max := flushes, max;
      dirs, queued, failed, refused, made, lasting := {}, [], 0, 0, {}, {};
    }

    /** A directory that was made lasts, or will once the queue is flushed, unless the
        flush is of no use or has failed. */
    ghost predicate Kept(d: string)
      reads this
    {
      d in lasting || Dir(d) in queued || !flushes(Dir(d)) || failed > 0
    }

    ghost predicate Valid()
      reads this
    {
      && |queued| <= max && max > 0 && lasting <= made <= dirs
      && forall d :: d in made ==> Kept(d)
    }

    /** mkdir, and where something is there already, stat. Nothing is removed
        meanwhile. */
    method MakeDir(name: string) returns (r: Made)
      modifies `dirs, `made, `refused
      ensures refused == old(refused) + if r == Refused then 1 else 0
      ensures r != Refused ==> dirs == old(dirs) + {name}
      ensures r == Refused ==> dirs == old(dirs)
      ensures made == if r == New then old(made) + {name} else old(made)
      ensures r == New ==> name !in old(dirs)
    {
      var choice: nat := *;
      r := Refused;
      if choice >= 2 { refused := refused + 1; }
      if choice < 2 {
        r := There;
        if choice == 0 && name !in dirs {
          made := made + {name};
          r := New;
        }
        dirs := dirs + {name};
      }
    }

    /** flush_set_run: each queued directory, once. */
    method Run()
      requires lasting <= made
      modifies `queued, `failed, `lasting
      ensures queued == [] && failed >= old(failed) && old(lasting) <= lasting <= made
      ensures forall d :: d in made && old(Kept(d)) ==> d in lasting || !flushes(Dir(d)) || failed > 0
    {
      hide Dir;
      var i := 0;
      while i < |queued|
        invariant 0 <= i <= |queued| && queued == old(queued) && failed >= old(failed) && old(lasting) <= lasting <= made
        invariant forall d :: d in made && Dir(d) in queued[..i] ==> d in lasting || !flushes(Dir(d)) || failed > 0
      {
        var works: bool := *;
        assert queued[..i + 1] == queued[..i] + [queued[i]];
        if works {
          lasting := lasting + (set d | d in made && Dir(d) == queued[i]);
        } else if flushes(queued[i]) {
          failed := failed + 1;
        }
        i := i + 1;
      }
      assert queued[..i] == queued;
      queued := [];
    }

    /** flush_set_add */
    method Add(dir: string)
      requires |queued| <= max && max > 0 && lasting <= made <= dirs
      requires forall d :: d in made ==> Kept(d) || Dir(d) == dir
      modifies `queued, `failed, `lasting
      ensures Valid() && failed >= old(failed)
    {
      hide Dir;
      if dir in queued {
        return;
      }
      if |queued| == max {
        Run();
      }
      queued := queued + [dir];
    }

    /** path_make_parents: every directory above path exists then, and whichever was
        made will last. */
    method MakeParents(path: string) returns (ok: bool)
      requires Valid()
      modifies this
      ensures Valid() && old(dirs) <= dirs && failed >= old(failed)
      ensures ok ==> Above(path)
      ensures ok <==> refused == old(refused)
      ensures refused >= old(refused)
    {
      hide Dir;
      var slash := DirLen(path);
      if slash <= 1 {
        NoSlash(path);
        return true;
      }
      var buf := path[..slash - 1];
      var p := 1;
      while p <= |buf|
        invariant refused == old(refused)
        invariant 1 <= p <= |buf| + 1 && Valid() && old(dirs) <= dirs && failed >= old(failed)
        invariant forall i :: EndsAt(buf, i) && i < p ==> buf[..i] in dirs
      {
        if EndsAt(buf, p) {
          var r := MakeDir(buf[..p]);
          if r == Refused {
            return false;
          }
          if r == New {
            Add(Dir(buf[..p]));
          }
        }
        p := p + 1;
      }
      forall i | EndsAt(path, i) && i < |path| ensures path[..i] in dirs {
        assert i <= |buf| && EndsAt(buf, i) && buf[..i] == path[..i];
      }
      DirOf(path);
      assert EndsAt(path, slash - 1);
      ok := true;
    }

    /** Every directory above path is there. */
    ghost predicate Above(path: string)
      reads this
    {
      && (forall i :: EndsAt(path, i) && i < |path| ==> path[..i] in dirs)
      && (DirLen(path) > 1 ==> Dir(path) in dirs)
    }

    /** The parents of all operands, and the flush at the end: if nothing failed, every
        one is there, and those that were made last, each named in a directory that was
        flushed after, and so on up to one that was there before. */
    method MakeAll(paths: seq<string>) returns (ok: bool)
      requires Valid() && made == {} && failed == 0 && refused == 0
      modifies this
      ensures Valid() && (ok <==> refused == 0 && failed == 0)
      ensures ok ==> forall k :: 0 <= k < |paths| ==> Above(paths[k])
      ensures ok ==> forall d :: d in made ==> d in lasting || !flushes(Dir(d))
    {
      hide Dir, Valid, Above;
      ok := true;
      var k := 0;
      while k < |paths|
        invariant 0 <= k <= |paths| && Valid() && (ok <==> refused == 0)
        invariant ok ==> forall j :: 0 <= j < k ==> Above(paths[j])
      {
        label Before:
        var good := MakeParents(paths[k]);
        forall j | 0 <= j < k && old@Before(Above(paths[j])) ensures Above(paths[j]) {
          AboveStays@Before(paths[j]);
        }
        ok := ok && good;
        k := k + 1;
      }
      ok := LastRun(ok, paths);
    }

    twostate lemma AboveStays(path: string)
      requires old(Above(path)) && old(dirs) <= dirs
      ensures Above(path)
    {}

    method LastRun(ok: bool, ghost paths: seq<string>) returns (ok': bool)
      requires Valid()
      modifies `queued, `failed, `lasting
      ensures Valid() && (ok' <==> ok && failed == 0)
      ensures forall k :: 0 <= k < |paths| && old(Above(paths[k])) ==> Above(paths[k])
      ensures ok' ==> forall d :: d in made ==> d in lasting || !flushes(Dir(d))
    {
      hide Dir;
      Run();
      ok' := ok && failed == 0;
    }
  }

  lemma NoSlash(path: string)
    requires DirLen(path) <= 1
    ensures forall i :: EndsAt(path, i) ==> i == |path|
  {}

  lemma DirOf(path: string)
    requires DirLen(path) > 1
    ensures Dir(path) == path[..DirLen(path) - 1]
  {}
}
