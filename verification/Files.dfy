/** Open files as the copying code sees them: every call may transfer less than
    asked, and may fail or be refused. */
module Files {
  import opened Spec

  /** The byte at i; past the end, a NUL. */
  function At(s: seq<byte>, i: nat): byte { if i < |s| then s[i] else 0 }

  /** s and t cannot be told apart below n. */
  ghost predicate Same(s: seq<byte>, t: seq<byte>, n: nat) {
    forall i :: 0 <= i < n ==> At(s, i) == At(t, i)
  }

  /** data written at off; a gap before it reads as NUL. */
  function Written(s: seq<byte>, off: nat, data: seq<byte>): (r: seq<byte>)
    ensures data != [] ==> |r| == if |s| > off + |data| then |s| else off + |data|
    ensures data == [] ==> r == s
  {
    if data == [] then s
    else
      var padded := if off > |s| then Resize(s, off) else s;
      padded[..off] + data + (if off + |data| < |s| then s[off + |data|..] else [])
  }

  lemma WrittenAt(s: seq<byte>, off: nat, data: seq<byte>, i: nat)
    ensures At(Written(s, off, data), i) == if off <= i < off + |data| then data[i - off] else At(s, i)
  {}

  lemma ResizeAt(s: seq<byte>, n: nat, i: nat)
    ensures i < n ==> At(Resize(s, n), i) == At(s, i)
  {}

  /** Files of one length that cannot be told apart are equal. */
  lemma SameResized(d: seq<byte>, s: seq<byte>, n: nat)
    requires Same(d, s, n) && |d| == n
    ensures d == Resize(s, n)
  {
    forall i | 0 <= i < n ensures d[i] == Resize(s, n)[i] {
      assert At(d, i) == At(s, i);
      ResizeAt(s, n, i);
    }
  }

  lemma ResizedSame(d: seq<byte>, s: seq<byte>, n: nat)
    requires Same(d, s, n)
    ensures Resize(d, n) == Resize(s, n)
  {
    forall i | 0 <= i < n ensures Resize(d, n)[i] == Resize(s, n)[i] {
      assert At(d, i) == At(s, i);
      ResizeAt(d, n, i);
      ResizeAt(s, n, i);
    }
  }

  datatype Seek = Found(at: nat) | NoMore | Unsupported | SeekError

  /** Cannot: the kernel refuses this call for these files. */
  datatype Transfer = Moved(n: nat) | Cannot | IoError

  /* ----- where the data of a file sits ----- */

  /** Data from start on, up to end. */
  datatype Extent = Extent(start: nat, end: nat)

  ghost predicate InOrder(exts: seq<Extent>) {
    && (forall k :: 0 <= k < |exts| ==> exts[k].start < exts[k].end)
    && (forall j, k :: 0 <= j < k < |exts| ==> exts[j].end <= exts[k].start)
  }

  ghost predicate Covered(exts: seq<Extent>, i: nat) {
    exists k :: 0 <= k < |exts| && exts[k].start <= i < exts[k].end
  }

  /** What is in no extent reads as NUL. */
  ghost predicate Sound(s: seq<byte>, exts: seq<Extent>) {
    InOrder(exts) && forall i: nat :: At(s, i) != 0 ==> Covered(exts, i)
  }

  function Least(a: nat, b: nat): nat { if a < b then a else b }

  function Most(a: nat, b: nat): nat { if a > b then a else b }

  /** The extents that end past from. */
  function From(exts: seq<Extent>, from: nat): (r: seq<Extent>)
    ensures |r| <= |exts|
  {
    if exts == [] || exts[0].end > from then exts else From(exts[1..], from)
  }

  lemma {:induction false} FromOrder(exts: seq<Extent>, from: nat)
    requires InOrder(exts)
    ensures InOrder(From(exts, from)) && (From(exts, from) != [] ==> From(exts, from)[0].end > from)
  {
    if exts != [] && exts[0].end <= from { FromOrder(exts[1..], from); }
  }

  lemma {:induction false} FromCovers(exts: seq<Extent>, from: nat, i: nat)
    requires InOrder(exts) && from <= i
    ensures Covered(From(exts, from), i) <==> Covered(exts, i)
  {
    if exts != [] && exts[0].end <= from {
      FromCovers(exts[1..], from, i);
      if k :| 0 <= k < |exts| && exts[k].start <= i < exts[k].end {
        assert exts[1..][k - 1] == exts[k];
      }
      if k :| 0 <= k < |exts[1..]| && exts[1..][k].start <= i < exts[1..][k].end {
        assert exts[k + 1] == exts[1..][k];
      }
    }
  }

  /** The first of them is found from anywhere before its end. */
  lemma {:induction false} FromWithin(exts: seq<Extent>, from: nat, at: nat)
    requires InOrder(exts) && from <= at && From(exts, from) != [] && at < From(exts, from)[0].end
    ensures From(exts, at) == From(exts, from)
  {
    if exts[0].end <= from { FromWithin(exts[1..], from, at); }
  }

  /** Past the first of them, the next place to look from finds the rest. */
  lemma {:induction false} FromNext(exts: seq<Extent>, from: nat, to: nat)
    requires InOrder(exts) && from <= to && From(exts, from) != [] && From(exts, from)[0].end <= to
    ensures From(exts, to) == From(From(exts, from)[1..], to)
  {
    if exts[0].end <= from { FromNext(exts[1..], from, to); }
  }

  /* ----- the files ----- */

  /** The calls on these files that failed, so far. */
  ghost function Faults(dst: Target, src: Source): nat
    reads dst, src
  {
    dst.faults + src.faults
  }

  /** A file that is read. content is what reading it gives, and extents what it says
      of where its data sits; neither changes. */
  class Source {
    const content: seq<byte>
    const canSeek: bool
    const extents: seq<Extent>
    var pos: nat
    ghost var faults: nat

    constructor (content: seq<byte>, canSeek: bool, extents: seq<Extent>)
      ensures this.content == content && this.canSeek == canSeek && this.extents == extents && pos == 0 && faults == 0
    {
      this.content, this.canSeek, this.extents := content, canSeek, extents;
      pos, faults := 0, 0;
    }

    /** SEEK_DATA */
    method SeekData(from: nat) returns (r: Seek)
      modifies this`faults
      ensures faults == old(faults) + if r == SeekError then 1 else 0
      ensures r == Unsupported <==> !canSeek
      ensures r.Found? ==> From(extents, from) != [] && r.at == Most(From(extents, from)[0].start, from)
      ensures r.NoMore? ==> From(extents, from) == []
    {
      if !canSeek {
        return Unsupported;
      }
      var works: bool := *;
      if !works {
        faults := faults + 1;
        return SeekError;
      }
      var i := 0;
      while i < |extents| && extents[i].end <= from
        invariant 0 <= i <= |extents| && From(extents, from) == From(extents[i..], from)
      {
        i := i + 1;
      }
      assert i < |extents| ==> From(extents[i..], from) == extents[i..];
      r := if i == |extents| then NoMore else Found(Most(extents[i].start, from));
    }

    /** SEEK_HOLE, from a place that holds data. Where it fails the data is taken to
        reach the end: that is an extent with an end past all. */
    method SeekHole(data: nat, size: nat) returns (r: Seek)
      ensures r.Found? && From(extents, data) != [] ==> r.at == From(extents, data)[0].end
      ensures !r.Found? ==> r.SeekError? && (From(extents, data) != [] ==> From(extents, data)[0].end >= size)
    {
      var works: bool := *;
      var rest := From(extents, data);
      if rest == [] || (!works && rest[0].end >= size) {
        return SeekError;
      }
      r := Found(rest[0].end);
    }

    method Pread(off: nat, max: nat) returns (ok: bool, data: seq<byte>)
      requires max > 0
      modifies this`faults
      ensures faults == old(faults) + if ok then 0 else 1
      ensures ok ==> |data| <= max && off + |data| <= |content| + (if off > |content| then off - |content| else 0)
      ensures ok ==> (data == [] <==> off >= |content|)
      ensures ok && data != [] ==> off + |data| <= |content| && data == content[off..off + |data|]
    {
      ok := *;
      data := [];
      if !ok { faults := faults + 1; }
      if ok && off < |content| {
        var most := if max < |content| - off then max else |content| - off;
        var n: nat := *;
        if !(0 < n <= most) {
          n := most;
        }
        assert n <= most <= |content| - off;
        data := content[off..off + n];
      }
    }

    /** Reads on from where the last read ended. */
    method Read(max: nat) returns (ok: bool, data: seq<byte>)
      requires max > 0
      modifies this
      ensures faults == old(faults) + if ok then 0 else 1
      ensures ok ==> (data == [] <==> old(pos) >= |content|)
      ensures ok && data != [] ==> old(pos) + |data| <= |content| && data == content[old(pos)..old(pos) + |data|]
      ensures pos == old(pos) + |data| && (!ok ==> data == [])
    {
      ok, data := Pread(pos, max);
      if !ok {
        data := [];
      }
      pos := pos + |data|;
    }
  }

  /** A file that is written. */
  class Target {
    var content: seq<byte>
    var pos: nat
    ghost var faults: nat

    constructor ()
      ensures content == [] && pos == 0 && faults == 0
    {
      content, pos, faults := [], 0, 0;
    }

    /** pwrite: some of data, from its start. */
    method Pwrite(data: seq<byte>, off: nat) returns (r: Transfer)
      modifies `content, `faults
      ensures faults == old(faults) + if r == IoError || (r == Moved(0) && data != []) then 1 else 0
      ensures r.Moved? ==> r.n <= |data| && content == Written(old(content), off, data[..r.n])
      ensures !r.Moved? ==> content == old(content) && r == IoError
    {
      var works: bool, n: nat := *, *;
      if !works {
        faults := faults + 1;
        return IoError;
      }
      if n > |data| {
        n := |data|;
      }
      if n == 0 && data != [] { faults := faults + 1; }
      content := Written(content, off, data[..n]);
      r := Moved(n);
    }

    method Write(data: seq<byte>) returns (r: Transfer)
      modifies this
      ensures faults == old(faults) + if r == IoError || (r == Moved(0) && data != []) then 1 else 0
      ensures r.Moved? ==> r.n <= |data| && content == Written(old(content), old(pos), data[..r.n]) && pos == old(pos) + r.n
      ensures !r.Moved? ==> content == old(content) && pos == old(pos) && r == IoError
    {
      r := Pwrite(data, pos);
      if r.Moved? {
        pos := pos + r.n;
      }
    }

    method Lseek(to: nat) returns (ok: bool)
      modifies `pos, `faults
      ensures faults == old(faults) + if ok then 0 else 1
      ensures pos == if ok then to else old(pos)
    {
      ok := *;
      if ok {
        pos := to;
      } else {
        faults := faults + 1;
      }
    }

    /** copy_file_range with both offsets given; nothing at the source's end. */
    method CopyRange(src: Source, from: nat, to: nat, len: nat) returns (r: Transfer)
      modifies `content, `faults
      ensures faults == old(faults) + if r == IoError then 1 else 0
      ensures r.Moved? ==> r.n <= len && (r.n > 0 ==> from + r.n <= |src.content|)
      ensures r.Moved? && r.n > 0 ==> content == Written(old(content), to, src.content[from..from + r.n])
      ensures !r.Moved? || r.n == 0 ==> content == old(content)
    {
      var choice: nat, n: nat := *, *;
      if choice == 0 {
        return Cannot;
      }
      if choice == 1 {
        faults := faults + 1;
        return IoError;
      }
      if n > len || from + n > |src.content| {
        n := 0;
      }
      if n > 0 {
        content := Written(content, to, src.content[from..from + n]);
      }
      r := Moved(n);
    }

    /** sendfile: to where the target's own offset is, which advances. */
    method Sendfile(src: Source, from: nat, len: nat) returns (r: Transfer)
      modifies this
      ensures faults == old(faults) + if r == IoError then 1 else 0
      ensures r.Moved? ==> r.n <= len && (r.n > 0 ==> from + r.n <= |src.content|) && pos == old(pos) + r.n
      ensures r.Moved? && r.n > 0 ==> content == Written(old(content), old(pos), src.content[from..from + r.n])
      ensures !r.Moved? || r.n == 0 ==> content == old(content)
    {
      r := CopyRange(src, from, pos, len);
      if r.Moved? {
        pos := pos + r.n;
      }
    }

    method Truncate(n: nat) returns (ok: bool)
      modifies `content, `faults
      ensures faults == old(faults) + if ok then 0 else 1
      ensures content == if ok then Resize(old(content), n) else old(content)
    {
      ok := *;
      if ok {
        content := Resize(content, n);
      } else {
        faults := faults + 1;
      }
    }

    method Fstat() returns (ok: bool, size: nat)
      modifies `faults
      ensures faults == old(faults) + (if ok then 0 else 1) && (ok ==> size == |content|)
    {
      ok, size := *, |content|;
      if !ok { faults := faults + 1; }
    }

    /** fallocate: the range exists afterwards, and what is new reads as NUL. */
    method Allocate(off: nat, len: nat) returns (r: Transfer)
      modifies `content, `faults
      ensures faults == old(faults) + if r == IoError then 1 else 0
      ensures r.Moved? ==> content == Resize(old(content), if off + len > |old(content)| then off + len else |old(content)|)
      ensures !r.Moved? ==> content == old(content)
    {
      var choice: nat := *;
      if choice == 0 {
        return Cannot;
      }
      if choice == 1 {
        faults := faults + 1;
        return IoError;
      }
      content := Resize(content, if off + len > |content| then off + len else |content|);
      r := Moved(len);
    }
  }
}
