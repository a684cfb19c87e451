/** Filling a new file: from a template, by whichever calls the kernel offers, and
    then to the size asked for. */
module Template {
  import opened Spec
  import opened Files

  /* ----- whole writes ----- */

  lemma WrittenOn(s: seq<byte>, off: nat, a: seq<byte>, b: seq<byte>)
    ensures Written(Written(s, off, a), off + |a|, b) == Written(s, off, a + b)
  {
    var x, y := Written(Written(s, off, a), off + |a|, b), Written(s, off, a + b);
    if a == [] {
      assert a + b == b;
    } else if b == [] {
      assert a + b == a;
    } else {
      SizeWrittenOn(s, off, a, b);
      forall i | 0 <= i < |x| ensures x[i] == y[i] {
        WrittenAt(Written(s, off, a), off + |a|, b, i);
        WrittenAt(s, off, a, i);
        WrittenAt(s, off, a + b, i);
      }
    }
  }

  lemma SizeWrittenOn(s: seq<byte>, off: nat, a: seq<byte>, b: seq<byte>)
    requires a != [] && b != []
    ensures |Written(Written(s, off, a), off + |a|, b)| == |Written(s, off, a + b)|
  {
    hide Written;
  }

  /** Leaves the file offset alone. */
  method IoPwrite(dst: Target, data: seq<byte>, off: nat) returns (ok: bool)
    modifies dst`content, dst`faults
    ensures dst.faults >= old(dst.faults) && (!ok ==> dst.faults > old(dst.faults))
    ensures ok ==> dst.content == Written(old(dst.content), off, data)
  {
    hide Written;
    var done := 0;
    assert data[..0] == [];
    while done < |data|
      invariant 0 <= done <= |data| && dst.faults >= old(dst.faults) && dst.content == Written(old(dst.content), off, data[..done])
    {
      var r := dst.Pwrite(data[done..], off + done);
      if r == IoError || r.n == 0 {
        return false;
      }
      WrittenOn(old(dst.content), off, data[..done], data[done..][..r.n]);
      assert data[..done] + data[done..][..r.n] == data[..done + r.n];
      done := done + r.n;
    }
    assert data[..done] == data;
    ok := true;
  }

  method IoWrite(dst: Target, data: seq<byte>) returns (ok: bool)
    modifies dst
    ensures dst.faults >= old(dst.faults) && (!ok ==> dst.faults > old(dst.faults))
    ensures ok ==> dst.content == Written(old(dst.content), old(dst.pos), data) && dst.pos == old(dst.pos) + |data|
  {
    hide Written;
    var off := 0;
    assert data[..0] == [];
    while off < |data|
      invariant 0 <= off <= |data| && dst.faults >= old(dst.faults) && dst.pos == old(dst.pos) + off
      invariant dst.content == Written(old(dst.content), old(dst.pos), data[..off])
    {
      var r := dst.Write(data[off..]);
      if r == IoError || r.n == 0 {
        return false;
      }
      WrittenOn(old(dst.content), old(dst.pos), data[..off], data[off..][..r.n]);
      assert data[..off] + data[off..][..r.n] == data[..off + r.n];
      off := off + r.n;
    }
    assert data[..off] == data;
    ok := true;
  }

  /** len NUL bytes from the end of the file on. */
  method IoFill(dst: Target, off: nat, len: int, bufsize: nat) returns (ok: bool)
    requires off == |dst.content| && bufsize > 0
    modifies dst`content, dst`faults
    ensures dst.faults >= old(dst.faults) && (!ok ==> dst.faults > old(dst.faults))
    ensures ok ==> dst.content == Resize(old(dst.content), if len > 0 then off + len else off)
  {
    hide Written;
    if len <= 0 {
      return true;
    }
    var r := dst.Allocate(off, len);
    if r != Cannot {
      return r.Moved?;
    }
    var buf := Zeros(if len < bufsize then len else bufsize);
    var pos, remaining := off, len;
    ghost var was := dst.content;
    while remaining > 0
      invariant 0 <= remaining <= len && dst.faults >= old(dst.faults) && pos + remaining == off + len && dst.content == Resize(was, pos)
    {
      var chunk := if remaining > |buf| then |buf| else remaining;
      ok := IoPwrite(dst, buf[..chunk], pos);
      if !ok {
        return;
      }
      WrittenZeros(was, pos, chunk);
      assert buf[..chunk] == Zeros(chunk);
      pos := pos + chunk;
      remaining := remaining - chunk;
    }
    ok := true;
  }

  lemma WrittenZeros(s: seq<byte>, pos: nat, n: nat)
    requires |s| <= pos
    ensures Written(Resize(s, pos), pos, Zeros(n)) == Resize(s, pos + n)
  {}

  /* ----- parts of the source ----- */

  function Part(s: seq<byte>, from: nat, to: nat): seq<byte>
    requires from < to ==> to <= |s|
  {
    if from < to then s[from..to] else []
  }

  lemma PartOn(s: seq<byte>, a: nat, b: nat, c: nat)
    requires a <= b < c <= |s|
    ensures Part(s, a, b) + Part(s, b, c) == Part(s, a, c)
  {}

  /** What was copied: the source from its offset on, as far as it advanced. */
  ghost predicate Copied(was: seq<byte>, now: seq<byte>, s: seq<byte>, src0: nat, src1: nat, dst0: nat, dst1: nat) {
    && src0 <= src1 && dst1 - dst0 == src1 - src0
    && (src0 < src1 ==> src1 <= |s|)
    && now == Written(was, dst0, Part(s, src0, src1))
  }

  lemma CopiedNothing(was: seq<byte>, s: seq<byte>, src: nat, dst: nat)
    ensures Copied(was, was, s, src, src, dst, dst)
  {}

  lemma CopiedMore(was: seq<byte>, now: seq<byte>, s: seq<byte>, src0: nat, src1: nat, dst0: nat, dst1: nat, n: nat)
    requires Copied(was, now, s, src0, src1, dst0, dst1) && n > 0 && src1 + n <= |s|
    ensures Copied(was, Written(now, dst1, s[src1..src1 + n]), s, src0, src1 + n, dst0, dst1 + n)
  {
    hide Written;
    PartOn(s, src0, src1, src1 + n);
    WrittenOn(was, dst0, Part(s, src0, src1), Part(s, src1, src1 + n));
  }

  /* ----- copying in the kernel ----- */

  const SSIZE_MAX := 0x7fff_ffff_ffff_ffff

  function ClampLen(len: nat): (n: nat)
    ensures n <= len && (len > 0 ==> n > 0)
  {
    if len > SSIZE_MAX then SSIZE_MAX else len
  }

  /** 0: all of it. 1: no further this way. -1: an error. */
  method FastSendfile(dst: Target, dstOff: nat, src: Source, srcOff: nat, len: nat) returns (r: int, dst1: nat, src1: nat)
    modifies dst
    ensures Faults(dst, src) >= old(Faults(dst, src)) && (r < 0 ==> Faults(dst, src) > old(Faults(dst, src)))
    ensures Copied(old(dst.content), dst.content, src.content, srcOff, src1, dstOff, dst1) && src1 <= srcOff + len
    ensures r == 0 ==> src1 == srcOff + len
    ensures r == 0 || r == 1 || r == -1
  {
    hide Copied;
    dst1, src1 := dstOff, srcOff;
    CopiedNothing(dst.content, src.content, srcOff, dstOff);
    var ok := dst.Lseek(dstOff);
    if !ok {
      return 1, dst1, src1;
    }
    var left := len;
    while left > 0
      invariant 0 <= left <= len && Faults(dst, src) >= old(Faults(dst, src)) && src1 + left == srcOff + len && dst.pos == dst1
      invariant Copied(old(dst.content), dst.content, src.content, srcOff, src1, dstOff, dst1)
    {
      ghost var now := dst.content;
      var t := dst.Sendfile(src, src1, ClampLen(left));
      if !t.Moved? {
        return if t == Cannot then 1 else -1, dst1, src1;
      }
      if t.n == 0 {
        return 1, dst1, src1;
      }
      CopiedMore(old(dst.content), now, src.content, srcOff, src1, dstOff, dst1, t.n);
      dst1, src1, left := dst1 + t.n, src1 + t.n, left - t.n;
    }
    r := 0;
  }

  method FastCopy(dst: Target, dstOff: nat, src: Source, srcOff: nat, len: nat) returns (r: int, dst1: nat, src1: nat)
    modifies dst
    ensures Faults(dst, src) >= old(Faults(dst, src)) && (r < 0 ==> Faults(dst, src) > old(Faults(dst, src)))
    ensures Copied(old(dst.content), dst.content, src.content, srcOff, src1, dstOff, dst1) && src1 <= srcOff + len
    ensures r == 0 ==> src1 == srcOff + len
    ensures r == 0 || r == 1 || r == -1
  {
    hide Copied;
    dst1, src1 := dstOff, srcOff;
    CopiedNothing(dst.content, src.content, srcOff, dstOff);
    var left := len;
    while left > 0
      invariant 0 <= left <= len && Faults(dst, src) >= old(Faults(dst, src)) && src1 + left == srcOff + len
      invariant Copied(old(dst.content), dst.content, src.content, srcOff, src1, dstOff, dst1)
    {
      ghost var now := dst.content;
      var t := dst.CopyRange(src, src1, dst1, ClampLen(left));
      if t == IoError {
        return -1, dst1, src1;
      }
      if t == Cannot || t.n == 0 {
        ghost var a, b := dst1, src1;
        r, dst1, src1 := FastSendfile(dst, dst1, src, src1, left);
        CopiedOn(old(dst.content), now, dst.content, src.content, srcOff, b, src1, dstOff, a, dst1);
        return;
      }
      CopiedMore(old(dst.content), now, src.content, srcOff, src1, dstOff, dst1, t.n);
      dst1, src1, left := dst1 + t.n, src1 + t.n, left - t.n;
    }
    r := 0;
  }

  lemma CopiedOn(w0: seq<byte>, w1: seq<byte>, w2: seq<byte>, s: seq<byte>, a: nat, b: nat, c: nat, x: nat, y: nat, z: nat)
    requires Copied(w0, w1, s, a, b, x, y) && Copied(w1, w2, s, b, c, y, z)
    ensures Copied(w0, w2, s, a, c, x, z)
  {
    hide Written;
    if b < c { CopiedMore(w0, w1, s, a, b, x, y, c - b); }
  }

  /** 0: up to end. 1: the source ended before. -1: an error. */
  method CopySlow(dst: Target, src: Source, srcOff: nat, dstOff: nat, end: nat, bufsize: nat) returns (r: int, dst1: nat, src1: nat)
    requires bufsize > 0
    modifies dst, src`faults
    ensures Faults(dst, src) >= old(Faults(dst, src)) && (r < 0 ==> Faults(dst, src) > old(Faults(dst, src)))
    ensures r >= 0 ==> Copied(old(dst.content), dst.content, src.content, srcOff, src1, dstOff, dst1)
    ensures r == 0 ==> src1 == if srcOff < end then end else srcOff
    ensures r == 1 ==> |src.content| <= src1 < end
    ensures r == 0 || r == 1 || r == -1
  {
    hide Copied, Written;
    dst1, src1 := dstOff, srcOff;
    CopiedNothing(dst.content, src.content, srcOff, dstOff);
    while src1 < end
      invariant src1 <= end || src1 == srcOff
      invariant srcOff <= src1 && Faults(dst, src) >= old(Faults(dst, src))
      invariant Copied(old(dst.content), dst.content, src.content, srcOff, src1, dstOff, dst1)
    {
      var chunk := if end - src1 > bufsize then bufsize else end - src1;
      var ok, data := src.Pread(src1, chunk);
      if !ok {
        return -1, dst1, src1;
      }
      if data == [] {
        return 1, dst1, src1;
      }
      ghost var now := dst.content;
      ok := IoPwrite(dst, data, dst1);
      if !ok {
        return -1, dst1, src1;
      }
      CopiedMore(old(dst.content), now, src.content, srcOff, src1, dstOff, dst1, |data|);
      src1, dst1 := src1 + |data|, dst1 + |data|;
    }
    r := 0;
  }

  /* ----- extents ----- */

  /** What the seeks report: where they are not supported, all of it is data. */
  ghost function Reported(src: Source, size: nat): seq<Extent> {
    if src.canSeek then src.extents else [Extent(0, size + |src.content| + 1)]
  }

  lemma ReportedSound(src: Source, size: nat)
    requires Sound(src.content, src.extents)
    ensures Sound(src.content, Reported(src, size))
  {
    if !src.canSeek {
      forall i: nat | At(src.content, i) != 0 ensures Covered(Reported(src, size), i) {
        assert Reported(src, size)[0].start <= i < Reported(src, size)[0].end;
      }
    }
  }

  /** 1: an extent. 0: none any more. -1: an error. An extent may lie past size, in a
      file that has grown. */
  method HoleNextData(src: Source, from: nat, size: nat) returns (r: int, start: nat, end: nat)
    requires InOrder(src.extents)
    modifies src`faults
    ensures src.faults >= old(src.faults) && (r < 0 ==> src.faults > old(src.faults))
    ensures r == 1 || r == 0 || r == -1
    ensures r == 0 ==> from >= size || From(Reported(src, size), from) == []
    ensures r == 1 ==>
              var rest := From(Reported(src, size), from);
              from < size && rest != [] && start == Most(rest[0].start, from) && end == Least(rest[0].end, size)
  {
    start, end := from, size;
    if from >= size {
      return 0, start, end;
    }
    var data := src.SeekData(from);
    if !data.Found? {
      if data == NoMore {
        return 0, start, end;
      }
      if data == SeekError {
        return -1, start, end;
      }
      return 1, from, size;
    }
    FromOrder(src.extents, from);
    FromWithin(src.extents, from, data.at);
    var gap := src.SeekHole(data.at, size);
    start := data.at;
    end := if !gap.Found? || gap.at > size then size else gap.at;
    r := 1;
  }

  /** How long the copy becomes: each extent is copied as far as the source has bytes;
      once it has none, or data lies past size, the length is left as it is. */
  function FinalLen(exts: seq<Extent>, len: nat, size: nat, from: nat, dlen: nat): (r: nat)
    requires InOrder(exts) && dlen <= size
    ensures r <= size
    decreases |exts|
  {
    FromOrder(exts, from);
    var rest := From(exts, from);
    if from >= size || rest == [] then size
    else if rest[0].start >= size then dlen
    else
      var end := Least(rest[0].end, size);
      if end <= len then FinalLen(rest[1..], len, size, end, end)
      else if Most(rest[0].start, from) < len then len
      else dlen
  }

  ghost predicate Past(exts: seq<Extent>, m: nat) {
    exists k :: 0 <= k < |exts| && exts[k].end > m
  }

  /** Where a copy by extents gives just what the source has below size. If the source
      ends before size: its last byte is data, and data is reported past its end too.
      If not: the byte before size is data, or no data is reported past size. */
  ghost predicate Whole(exts: seq<Extent>, len: nat, size: nat) {
    WholeFrom(exts, len, size, 0)
  }

  ghost predicate WholeFrom(exts: seq<Extent>, len: nat, size: nat, from: nat) {
    var m := Least(size, len);
    var last := m == from || (m > 0 && Covered(exts, m - 1));
    if len < size then last && Past(exts, m) else last || !Past(exts, m)
  }

  lemma WholeIff(exts: seq<Extent>, len: nat, size: nat)
    requires InOrder(exts)
    ensures FinalLen(exts, len, size, 0, 0) == Least(size, len) <==> Whole(exts, len, size)
  {
    WholeFromIff(exts, len, size, 0);
  }

  lemma {:induction false} WholeFromIff(exts: seq<Extent>, len: nat, size: nat, from: nat)
    requires InOrder(exts) && from <= Least(size, len)
    ensures FinalLen(exts, len, size, from, from) == Least(size, len) <==> WholeFrom(exts, len, size, from)
    decreases |exts|
  {
    hide Covered, Past, From;
    FromOrder(exts, from);
    var rest := From(exts, from);
    var m := Least(size, len);
    PastFrom(exts, from, m);
    if m > from { FromCovers(exts, from, m - 1); }
    if from < size {
      if rest == [] {
        NoneCovered(m);
      } else if rest[0].start >= size {
        StartCovers(rest, m);
      } else {
        var end := Least(rest[0].end, size);
        StartCovers(rest, m);
        if end <= len {
          RestCovers(rest, m);
          WholeFromIff(rest[1..], len, size, end);
        }
      }
    }
  }

  lemma NoneCovered(m: nat)
    ensures !Past([], m) && (m > 0 ==> !Covered([], m - 1))
  {}

  lemma {:induction false} PastFrom(exts: seq<Extent>, from: nat, m: nat)
    requires InOrder(exts) && from <= m
    ensures Past(From(exts, from), m) <==> Past(exts, m)
  {
    if exts != [] && exts[0].end <= from {
      PastFrom(exts[1..], from, m);
      if k :| 0 <= k < |exts| && exts[k].end > m { assert exts[1..][k - 1] == exts[k]; }
      if k :| 0 <= k < |exts[1..]| && exts[1..][k].end > m { assert exts[k + 1] == exts[1..][k]; }
    }
  }

  /** Nothing before the first extent is covered; what is in it is. */
  lemma StartCovers(rest: seq<Extent>, m: nat)
    requires InOrder(rest) && rest != []
    ensures m > 0 && m <= rest[0].start ==> !Covered(rest, m - 1)
    ensures rest[0].start < m <= rest[0].end ==> Covered(rest, m - 1)
    ensures m < rest[0].end ==> Past(rest, m)
  {
    forall k | 0 <= k < |rest| ensures rest[0].start <= rest[k].start {
      if k > 0 { assert rest[0].end <= rest[k].start; }
    }
  }

  lemma RestCovers(rest: seq<Extent>, m: nat)
    requires InOrder(rest) && rest != []
    ensures m > rest[0].end ==> (Covered(rest, m - 1) <==> Covered(rest[1..], m - 1))
    ensures m >= rest[0].end ==> (Past(rest, m) <==> Past(rest[1..], m))
  {
    var t := rest[1..];
    if m > rest[0].end {
      if k :| 0 <= k < |rest| && rest[k].start <= m - 1 < rest[k].end { assert t[k - 1] == rest[k]; }
      if k :| 0 <= k < |t| && t[k].start <= m - 1 < t[k].end { assert rest[k + 1] == t[k]; }
    }
    if m >= rest[0].end {
      if k :| 0 <= k < |rest| && rest[k].end > m { assert t[k - 1] == rest[k]; }
      if k :| 0 <= k < |t| && t[k].end > m { assert rest[k + 1] == t[k]; }
    }
  }

  /** Everything below off is copied, and nothing was written at or above it. */
  ghost predicate CopiedTo(d: seq<byte>, s: seq<byte>, off: nat) {
    |d| <= off && Same(d, s, off)
  }

  lemma SkipHole(d: seq<byte>, s: seq<byte>, from: nat, start: nat)
    requires CopiedTo(d, s, from) && from <= start && forall i :: from <= i < start ==> At(s, i) == 0
    ensures CopiedTo(d, s, start)
  {}

  lemma CopyExtent(d: seq<byte>, d': seq<byte>, s: seq<byte>, start: nat, end: nat, off: nat)
    requires CopiedTo(d, s, start) && Copied(d, d', s, start, end, start, off)
    ensures off == end && CopiedTo(d', s, end) && |d'| <= end
    ensures if start < end then |d'| == end <= |s| else d' == d
  {
    hide Written;
    if start < end {
      forall i | 0 <= i < end ensures At(d', i) == At(s, i) {
        WrittenAt(d, start, s[start..end], i);
        if i < start { assert At(d, i) == At(s, i); }
      }
    }
  }

  /** Past the source's end there is nothing to tell apart. */
  lemma SameBeyond(d: seq<byte>, s: seq<byte>, off: nat, n: nat)
    requires CopiedTo(d, s, off) && |s| <= off
    ensures Same(d, s, n)
  {
    forall i | 0 <= i < n ensures At(d, i) == At(s, i) {
      if i < off { assert At(d, i) == At(s, i); }
    }
  }

  /** Between two extents all is NUL. */
  lemma GapIsZero(s: seq<byte>, exts: seq<Extent>, from: nat)
    requires Sound(s, exts)
    ensures
      var rest := From(exts, from);
      forall i: nat :: from <= i && (rest == [] || i < rest[0].start) ==> At(s, i) == 0
  {
    var rest := From(exts, from);
    FromOrder(exts, from);
    forall i: nat | from <= i && (rest == [] || i < rest[0].start) ensures At(s, i) == 0 {
      FromCovers(exts, from, i);
      if rest != [] { StartCovers(rest, i + 1); }
    }
  }

  /** The loop of the copy, for one extent. */
  lemma ScanOn(exts: seq<Extent>, rest: seq<Extent>, from: nat, end: nat, size: nat)
    requires InOrder(exts) && InOrder(rest) && from < size && From(rest, from) == From(exts, from) != []
    requires end == Least(From(exts, from)[0].end, size)
    ensures InOrder(From(rest, from)[1..]) && (end < size ==> From(From(rest, from)[1..], end) == From(exts, end))
  {
    FromOrder(exts, from);
    if end < size { FromNext(exts, from, end); }
  }

  /** What the length becomes, by what the next extent is. */
  lemma ScanStep(exts: seq<Extent>, len: nat, size: nat, from: nat)
    requires InOrder(exts) && from <= size
    ensures from >= size || From(exts, from) == [] ==> FinalLen(exts, len, size, from, from) == size
    ensures from < size && From(exts, from) != [] ==>
              var e := From(exts, from)[0];
              var start, end, total := Most(e.start, from), Least(e.end, size), FinalLen(exts, len, size, from, from);
              && (start >= size ==> total == from)
              && (start < size && end > len ==> total == if start < len then len else from)
              && (start < size && end <= len ==> InOrder(From(exts, from)[1..]) && total == FinalLen(From(exts, from)[1..], len, size, end, end))
  {
    FromOrder(exts, from);
  }

  /** The target cannot be told from the source below size; its length is what the
      extents make it. */
  method CopyExtents(dst: Target, src: Source, size: nat, bufsize: nat) returns (ok: bool)
    requires dst.content == [] && bufsize > 0 && Sound(src.content, src.extents)
    modifies dst, src`faults
    ensures Faults(dst, src) >= old(Faults(dst, src)) && (!ok ==> Faults(dst, src) > old(Faults(dst, src)))
    ensures InOrder(Reported(src, size))
    ensures ok ==> Same(dst.content, src.content, size)
    ensures ok ==> dst.content == Resize(src.content, FinalLen(Reported(src, size), |src.content|, size, 0, 0))
  {
    hide Copied, CopiedTo, Same, Covered, From, Resize, FinalLen;
    ReportedSound(src, size);
    ghost var exts, s := Reported(src, size), src.content;
    ghost var total := FinalLen(exts, |s|, size, 0, 0);
    ghost var rest, beyond := exts, false;
    var from: nat, written: nat := 0, 0;
    var overstated := false;
    CopiedStart(s);
    var found := 1;
    while !overstated && found == 1
      invariant Faults(dst, src) >= old(Faults(dst, src)) && (found < 0 ==> Faults(dst, src) > old(Faults(dst, src)))
      invariant found == 1 || found == 0 || found == -1
      invariant from <= size && |dst.content| <= size && InOrder(rest)
      invariant CopiedTo(dst.content, s, if overstated || beyond then written else from)
      invariant overstated ==> !beyond && |s| <= written < size && found == 1 && |dst.content| == total
      invariant beyond ==> from == size <= written && |dst.content| == total
      invariant !overstated && !beyond ==> |dst.content| == written == from && FinalLen(rest, |s|, size, from, from) == total
      invariant !overstated && !beyond && from < size ==> From(rest, from) == From(exts, from)
      invariant found == 0 ==> from >= size || From(exts, from) == []
      decreases if !overstated && found == 1 then 1 + size - from else 0
    {
      var start, end;
      found, start, end := HoleNextData(src, from, size);
      ScanStep(rest, |s|, size, from);
      if found == 1 {
        ghost var d, e := dst.content, From(exts, from)[0];
        FromOrder(exts, from);
        GapIsZero(s, exts, from);
        SkipHole(d, s, from, start);
        var r, dstOff := CopyOne(dst, src, start, end, bufsize);
        if r < 0 {
          return false;
        }
        ScanOn(exts, rest, from, end, size);
        overstated := r == 1;
        written := dstOff;
        beyond := start >= size;
        rest := From(rest, from)[1..];
        from := end;
      }
    }
    if found < 0 {
      return false;
    }
    ghost var d := dst.content;
    if !overstated && !beyond { ScanStep(rest, |s|, size, from); }
    if !overstated && !beyond && from < size { GapIsZero(s, exts, from); }
    if written < size && !overstated {
      ok := dst.Truncate(size);
      if !ok {
        return;
      }
    }
    ScanEnds(d, s, if overstated || beyond then written else from, size, total, dst.content, overstated);
    ok := true;
  }

  /** What was copied, made as long as it is. */
  lemma ScanEnds(d: seq<byte>, s: seq<byte>, off: nat, size: nat, total: nat, d': seq<byte>, overstated: bool)
    requires CopiedTo(d, s, off) && total <= size
    requires overstated ==> d' == d && |s| <= off && |d| == total
    requires !overstated && off >= size ==> d' == d && |d| == total
    requires !overstated && off < size ==> d' == Resize(d, size) && total == size && forall i :: off <= i < size ==> At(s, i) == 0
    ensures Same(d', s, size) && d' == Resize(s, total)
  {
    if overstated {
      SameBeyond(d, s, off, size);
      SameResized(d, s, total);
    } else if off >= size {
      SameResized(d, s, total);
    } else {
      Finish(d, s, off, size);
    }
  }

  /** One extent, in the kernel as far as that goes. 1: the source ended before. */
  method CopyOne(dst: Target, src: Source, start: nat, end: nat, bufsize: nat) returns (r: int, off: nat)
    requires bufsize > 0 && CopiedTo(dst.content, src.content, start)
    modifies dst, src`faults
    ensures Faults(dst, src) >= old(Faults(dst, src)) && (r < 0 ==> Faults(dst, src) > old(Faults(dst, src)))
    ensures r == 0 || r == 1 || r == -1
    ensures r >= 0 ==> CopiedTo(dst.content, src.content, off)
    ensures r == 0 && start < end ==> off == end == |dst.content| <= |src.content|
    ensures r == 0 && start >= end ==> off == start && dst.content == old(dst.content)
    ensures r == 1 ==> start <= off && |src.content| <= off < end && |dst.content| == if start < |src.content| then |src.content| else |old(dst.content)|
  {
    hide Copied, CopiedTo;
    ghost var d := dst.content;
    var dstOff, srcOff;
    r, dstOff, srcOff := FastCopy(dst, start, src, start, if start < end then end - start else 0);
    off := dstOff;
    if r < 0 {
      return;
    }
    ghost var d1, a, b := dst.content, srcOff, dstOff;
    r, off, srcOff := CopySlow(dst, src, srcOff, dstOff, end, bufsize);
    if r >= 0 {
      CopiedOn(d, d1, dst.content, src.content, start, a, srcOff, start, b, off);
      CopyExtent(d, dst.content, src.content, start, srcOff, off);
      CopiedSteps(d, d1, src.content, start, a, start, b);
      CopiedSteps(d1, dst.content, src.content, a, srcOff, b, off);
    }
  }

  lemma CopiedSteps(was: seq<byte>, now: seq<byte>, s: seq<byte>, src0: nat, src1: nat, dst0: nat, dst1: nat)
    requires Copied(was, now, s, src0, src1, dst0, dst1)
    ensures src0 <= src1 && (src0 < src1 ==> src1 <= |s|)
  {}

  lemma CopiedStart(s: seq<byte>)
    ensures CopiedTo([], s, 0)
  {}

  /** What is left of the source are holes. */
  lemma Finish(d: seq<byte>, s: seq<byte>, from: nat, size: nat)
    requires CopiedTo(d, s, from) && from <= size && forall i :: from <= i < size ==> At(s, i) == 0
    ensures Same(d, s, size) && Same(Resize(d, size), s, size) && Resize(d, size) == Resize(s, size)
    ensures |d| == size ==> d == Resize(s, size)
  {
    SkipHole(d, s, from, size);
    ResizedSame(d, s, size);
    if |d| == size { SameResized(d, s, size); }
    forall i | 0 <= i < size ensures At(Resize(s, size), i) == At(s, i) { ResizeAt(s, size, i); }
  }

  /* ----- blocks of NUL bytes ----- */

  /** As the source tests it: the first byte is NUL, and each equals the next. */
  predicate AllZero(buf: seq<byte>) {
    buf == [] || (buf[0] == 0 && buf[..|buf| - 1] == buf[1..])
  }

  lemma {:induction false} ZeroUpTo(buf: seq<byte>, i: nat)
    requires AllZero(buf) && i < |buf|
    ensures buf[i] == 0
  {
    if i > 0 {
      ZeroUpTo(buf, i - 1);
      assert buf[..|buf| - 1][i - 1] == buf[1..][i - 1];
    }
  }

  lemma AllZeroMeans(buf: seq<byte>)
    ensures AllZero(buf) <==> forall i :: 0 <= i < |buf| ==> buf[i] == 0
  {
    if AllZero(buf) {
      forall i | 0 <= i < |buf| ensures buf[i] == 0 { ZeroUpTo(buf, i); }
    }
  }

  /** Skipping a block of NUL bytes, or writing any block. */
  lemma BlockCopied(d: seq<byte>, s: seq<byte>, off: nat, block: seq<byte>)
    requires CopiedTo(d, s, off) && off + |block| <= |s| && block == s[off..off + |block|]
    ensures AllZero(block) ==> CopiedTo(d, s, off + |block|)
    ensures CopiedTo(Written(d, off, block), s, off + |block|)
  {
    hide Written, AllZero;
    AllZeroMeans(block);
    if AllZero(block) {
      forall i | off <= i < off + |block| ensures At(s, i) == 0 { assert s[i] == block[i - off]; }
      SkipHole(d, s, off, off + |block|);
    }
    forall i | 0 <= i < off + |block| ensures At(Written(d, off, block), i) == At(s, i) {
      WrittenAt(d, off, block, i);
      if i < off { assert At(d, i) == At(s, i); }
    }
  }

  lemma SlicedAgain(s: seq<byte>, off: nat, buf: seq<byte>, i: nat, len: nat)
    requires off + |buf| <= |s| && buf == s[off..off + |buf|] && i + len <= |buf|
    ensures buf[i..i + len] == s[off + i..off + i + len]
  {
    var a, b := buf[i..i + len], s[off + i..off + i + len];
    forall k | 0 <= k < len ensures a[k] == b[k] {
      assert buf[i + k] == s[off + (i + k)];
    }
  }

  /** A buffer just read, block by block. */
  method WriteBlocks(dst: Target, s: seq<byte>, off: nat, buf: seq<byte>, blksize: nat) returns (ok: bool)
    requires blksize > 0 && off + |buf| <= |s| && buf == s[off..off + |buf|] && CopiedTo(dst.content, s, off)
    modifies dst`content, dst`faults
    ensures dst.faults >= old(dst.faults) && (!ok ==> dst.faults > old(dst.faults))
    ensures ok ==> CopiedTo(dst.content, s, off + |buf|)
  {
    hide Written, AllZero, CopiedTo;
    var i := 0;
    while i < |buf|
      invariant 0 <= i <= |buf| && dst.faults >= old(dst.faults) && CopiedTo(dst.content, s, off + i)
    {
      var len := if |buf| - i < blksize then |buf| - i else blksize;
      var block := buf[i..i + len];
      SlicedAgain(s, off, buf, i, len);
      BlockCopied(dst.content, s, off + i, block);
      if !AllZero(block) {
        ok := IoPwrite(dst, block, off + i);
        if !ok {
          return;
        }
      }
      i := i + len;
    }
    ok := true;
  }

  /** The source up to size, whatever blocks were left out. */
  method CopyZeros(dst: Target, src: Source, size: nat, bufsize: nat, blksize: nat) returns (ok: bool)
    requires dst.content == [] && bufsize > 0 && blksize > 0
    modifies dst, src`faults
    ensures Faults(dst, src) >= old(Faults(dst, src)) && (!ok ==> Faults(dst, src) > old(Faults(dst, src)))
    ensures ok ==> dst.content == src.content[..Least(size, |src.content|)]
  {
    hide CopiedTo;
    var off: nat := 0;
    CopiedStart(src.content);
    while off < size
      invariant off <= size && Faults(dst, src) >= old(Faults(dst, src)) && off <= |src.content| && CopiedTo(dst.content, src.content, off)
      decreases size - off
    {
      var chunk := if size - off > bufsize then bufsize else size - off;
      var buf;
      ok, buf := src.Pread(off, chunk);
      if !ok {
        return;
      }
      if buf == [] {
        break;
      }
      ok := WriteBlocks(dst, src.content, off, buf, blksize);
      if !ok {
        return;
      }
      off := off + |buf|;
    }
    assert off == Least(size, |src.content|);
    Finish(dst.content, src.content, off, off);
    ok := dst.Truncate(off);
  }

  /* ----- streams ----- */

  /** What was read before a chunk, and the chunk. */
  lemma ReadOn(s: seq<byte>, d: seq<byte>, from: nat, at: nat, data: seq<byte>)
    requires from <= at && at + |data| <= |s| && d == s[from..at] && data == s[at..at + |data|]
    ensures Written(d, at - from, data) == s[from..at + |data|]
  {}

  /** All the source has left. */
  method CopyStream(dst: Target, src: Source, bufsize: nat) returns (ok: bool)
    requires dst.content == [] && dst.pos == 0 && bufsize > 0 && src.pos <= |src.content|
    modifies dst, src
    ensures Faults(dst, src) >= old(Faults(dst, src)) && (!ok ==> Faults(dst, src) > old(Faults(dst, src)))
    ensures ok ==> dst.content == src.content[old(src.pos)..] && src.pos == |src.content|
  {
    hide Written;
    ghost var from, s := src.pos, src.content;
    var data;
    ok, data := src.Read(bufsize);
    while ok && data != []
      invariant from <= src.pos - |data| && src.pos <= |s| && dst.pos == src.pos - |data| - from
      invariant data == s[src.pos - |data|..src.pos]
      invariant dst.content == s[from..src.pos - |data|]
      invariant Faults(dst, src) >= old(Faults(dst, src)) && (!ok ==> Faults(dst, src) > old(Faults(dst, src)))
      invariant ok && data == [] ==> src.pos == |s|
      decreases |s| - src.pos + |data|, |data|
    {
      ReadOn(s, dst.content, from, src.pos - |data|, data);
      var more := IoWrite(dst, data);
      if !more {
        return false;
      }
      ok, data := src.Read(bufsize);
    }
  }

  /* ----- the template as a whole ----- */

  datatype Kind = Extents | ZeroBlocks | Stream

  /** How to copy what was opened. size is what the file claims, and for one that
      was spooled what was read. */
  method ChooseKind(src: Source, atStart: bool, regular: bool, size: nat, fewBlocks: bool, repeat: bool) returns (kind: Kind)
    modifies src`faults
    ensures kind == ZeroBlocks <==> atStart && regular && size > 0 && fewBlocks && !src.canSeek
    ensures kind == Stream <==> !(atStart && regular && size > 0) && !repeat
  {
    if atStart && regular && size > 0 {
      if fewBlocks {
        var seek := src.SeekData(0);
        if seek == Unsupported {
          return ZeroBlocks;
        }
      }
      return Extents;
    }
    return if repeat then Extents else Stream;
  }

  /** What a new file is to hold: all a stream has left, and of a file that claims a
      size what there is below it. */
  function Asked(kind: Kind, size: nat, s: seq<byte>, pos: nat): seq<byte>
    requires pos <= |s|
  {
    if kind == Stream then s[pos..] else s[..Least(size, |s|)]
  }

  /** What the file holds once the template was copied. */
  ghost predicate TemplateCopied(kind: Kind, size: nat, s: seq<byte>, pos: nat, exts: seq<Extent>, d: seq<byte>)
    requires pos <= |s| && InOrder(exts)
  {
    if kind == Extents then d == Resize(s, FinalLen(exts, |s|, size, 0, 0)) && Same(d, s, size)
    else d == Asked(kind, size, s, pos)
  }

  method TmplApply(dst: Target, src: Source, kind: Kind, size: nat, bufsize: nat, blksize: nat) returns (ok: bool)
    requires dst.content == [] && dst.pos == 0 && bufsize > 0 && blksize > 0 && src.pos <= |src.content|
    requires Sound(src.content, src.extents)
    modifies dst, src
    ensures Faults(dst, src) >= old(Faults(dst, src)) && (!ok ==> Faults(dst, src) > old(Faults(dst, src)))
    ensures InOrder(Reported(src, size))
    ensures ok ==> TemplateCopied(kind, size, src.content, old(src.pos), Reported(src, size), dst.content)
  {
    hide Same, Resize, FinalLen, Covered;
    ReportedSound(src, size);
    match kind {
      case Extents =>
        ok := CopyExtents(dst, src, size, bufsize);
      case ZeroBlocks =>
        ok := CopyZeros(dst, src, size, bufsize, blksize);
      case Stream =>
        ok := CopyStream(dst, src, bufsize);
    }
  }

  /** The copy is what was asked, but for its length; and it has that length too, unless
      it was made by extents that do not reach it. */
  lemma CopiedAsked(kind: Kind, size: nat, s: seq<byte>, pos: nat, exts: seq<Extent>, d: seq<byte>)
    requires pos <= |s| && InOrder(exts) && TemplateCopied(kind, size, s, pos, exts, d)
    ensures forall t :: Resize(d, t) == Resize(Asked(kind, size, s, pos), t)
    ensures d == Asked(kind, size, s, pos) <==> kind != Extents || Whole(exts, |s|, size)
  {
    hide FinalLen, Whole, Resize;
    if kind == Extents {
      WholeIff(exts, |s|, size);
      var r := Asked(kind, size, s, pos);
      ExtentsAsked(d, s, FinalLen(exts, |s|, size, 0, 0), size);
      forall t ensures Resize(d, t) == Resize(r, t) {
        SameAsked(d, s, size, t);
        ResizedSame(d, r, t);
      }
    }
  }

  lemma ExtentsAsked(d: seq<byte>, s: seq<byte>, len: nat, size: nat)
    requires d == Resize(s, len) && len <= size
    ensures d == s[..Least(size, |s|)] <==> len == Least(size, |s|)
  {}

  lemma SameAsked(d: seq<byte>, s: seq<byte>, size: nat, t: nat)
    requires Same(d, s, size) && |d| <= size
    ensures Same(d, s[..Least(size, |s|)], t)
  {
    forall i | 0 <= i < t ensures At(d, i) == At(s[..Least(size, |s|)], i) {
      if i < size { assert At(d, i) == At(s, i); }
    }
  }

  /** A source of three bytes that claims eight, of which the last two are in a hole:
      the copy has one. */
  lemma EarlyEndLoses(d: seq<byte>)
    requires TemplateCopied(Extents, 8, [1, 0, 0], 0, [Extent(0, 1), Extent(5, 6)], d)
    ensures d == [1] != Asked(Extents, 8, [1, 0, 0], 0)
  {
    var exts := [Extent(0, 1), Extent(5, 6)];
    assert From(exts, 0) == exts && exts[1..] == [Extent(5, 6)] && From(exts[1..], 1) == exts[1..];
    assert FinalLen(exts, 3, 8, 0, 0) == FinalLen(exts[1..], 3, 8, 1, 1) == 1;
  }

  /** One of one byte that claims four, with no data past it: the copy has four. */
  lemma EarlyEndGains(d: seq<byte>)
    requires TemplateCopied(Extents, 4, [1], 0, [Extent(0, 1)], d)
    ensures d == [1, 0, 0, 0] != Asked(Extents, 4, [1], 0)
  {
    var exts := [Extent(0, 1)];
    assert From(exts, 0) == exts && exts[1..] == [] && From([], 1) == [];
    assert FinalLen(exts, 1, 4, 0, 0) == FinalLen([], 1, 4, 1, 1) == 4;
    assert Resize([1], 4) == [1, 0, 0, 0];
  }

  /** One that had three bytes when it was opened and has five now: the copy has one. */
  lemma GrownLoses(d: seq<byte>)
    requires TemplateCopied(Extents, 3, [1, 0, 0, 0, 2], 0, [Extent(0, 1), Extent(4, 5)], d)
    ensures d == [1] != Asked(Extents, 3, [1, 0, 0, 0, 2], 0)
  {
    var exts := [Extent(0, 1), Extent(4, 5)];
    assert From(exts, 0) == exts && exts[1..] == [Extent(4, 5)] && From(exts[1..], 1) == exts[1..];
    assert FinalLen(exts, 5, 3, 0, 0) == FinalLen(exts[1..], 5, 3, 1, 1) == 1;
  }

  /* ----- the size ----- */

  method ApplySize(dst: Target, target: nat, sparse: bool, tailHole: bool, filled: bool, bufsize: nat) returns (ok: bool)
    requires bufsize > 0 && (!filled ==> dst.content == [])
    modifies dst`content, dst`faults
    ensures dst.faults >= old(dst.faults) && (!ok ==> dst.faults > old(dst.faults))
    ensures ok ==> dst.content == Resize(old(dst.content), target)
  {
    var size := 0;
    if filled {
      ok, size := dst.Fstat();
      if !ok {
        return;
      }
    }
    if target <= size || sparse || tailHole {
      ok := dst.Truncate(target);
    } else {
      ok := IoFill(dst, size, target - size, bufsize);
    }
  }

  datatype Applied = Applied(kind: Kind, size: nat, tailHole: bool)

  /** What the settings ask of this source. */
  function AskedOf(tmpl: Option<Applied>, s: seq<byte>, pos: nat): Option<seq<byte>>
    requires pos <= |s|
  {
    if tmpl.Some? then Some(Asked(tmpl.value.kind, tmpl.value.size, s, pos)) else None
  }

  /** The copy may be told from the source by its length: it is made by extents that do
      not reach the source's end, and no size is given. */
  ghost predicate Misjudged(src: Source, tmpl: Option<Applied>, size: Option<nat>) {
    size == None && tmpl.Some? && tmpl.value.kind == Extents && !Whole(Reported(src, tmpl.value.size), |src.content|, tmpl.value.size)
  }

  /** fill_one: the content asked for, for every kind of template, every source and
      every way the kernel takes part in copying it, but in one case. */
  method FillFile(dst: Target, src: Source, tmpl: Option<Applied>, size: Option<nat>, sparse: bool, bufsize: nat, blksize: nat) returns (ok: bool)
    requires dst.content == [] && dst.pos == 0 && bufsize > 0 && blksize > 0 && src.pos <= |src.content|
    requires Sound(src.content, src.extents)
    modifies dst, src
    ensures Faults(dst, src) >= old(Faults(dst, src)) && (!ok ==> Faults(dst, src) > old(Faults(dst, src)))
    ensures ok ==> (dst.content == Filled(AskedOf(tmpl, src.content, old(src.pos)), size) <==> !Misjudged(src, tmpl, size))
  {
    hide TemplateCopied, Resize, Whole, Asked, Covered;
    ghost var pos := src.pos;
    if tmpl.Some? {
      var Applied(kind, claimed, _) := tmpl.value;
      ok := TmplApply(dst, src, kind, claimed, bufsize, blksize);
      if !ok {
        return;
      }
      CopiedAsked(kind, claimed, src.content, pos, Reported(src, claimed), dst.content);
    }
    if size.Some? {
      ok := ApplySize(dst, size.value, sparse, tmpl.Some? && tmpl.value.tailHole, tmpl.Some?, bufsize);
      return;
    }
    ok := true;
  }

  /** Some source that is to give this content, in one of the ways, and does: all that
      is told of it is what it must satisfy. */
  method OpenTemplate(content: seq<byte>) returns (src: Source, tmpl: Applied)
    ensures fresh(src) && src.faults == 0 && src.pos <= |src.content| && Sound(src.content, src.extents)
    ensures Asked(tmpl.kind, tmpl.size, src.content, src.pos) == content && !Misjudged(src, Some(tmpl), None)
  {
    var all := Extent(0, |content| + 1);
    src := new Source(content, true, [all]);
    forall i: nat | At(content, i) != 0 ensures Covered([all], i) { assert [all][0] == all; }
    tmpl := Applied(Stream, 0, false);
  }

  /** The content of a new file, made by the code above. */
  method MakeContent(s: Settings) returns (ok: bool, content: seq<byte>, ghost faults: nat)
    ensures !ok ==> faults > 0
    ensures ok ==> content == Filled(s.template, s.size)
  {
    hide Sound, Asked, Whole, Filled;
    var dst := new Target();
    var sparse: bool, bufsize: nat, blksize: nat := *, *, *;
    if s.template.Some? {
      var src, tmpl := OpenTemplate(s.template.value);
      ok := FillFile(dst, src, Some(tmpl), s.size, sparse, bufsize + 1, blksize + 1);
      faults := Faults(dst, src);
    } else {
      var src, _ := OpenTemplate([]);
      ok := FillFile(dst, src, None, s.size, sparse, bufsize + 1, blksize + 1);
      faults := Faults(dst, src);
    }
    content := dst.content;
  }
}
