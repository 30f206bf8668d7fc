/** copyRegularFileSparse and copyFileExtent of lib/forkvm/copy_sparse_unix.go. The source
    file does not change during the copy. The two seeks are arbitrary functions of the
    offset; reads and writes may be short or fail at any point. */
module SparseCopy {
  type Byte = b: int | 0 <= b < 256

  /** What lseek reports: a position, ENXIO, an "unsupported" errno, or another error. */
  datatype Seek = At(pos: int) | NoMore | Unsupported | Failed

  datatype Oracle = Oracle(data: int -> Seek, hole: int -> Seek)

  /* ---- the loop over the file, seek by seek ---- */

  /** The offset of the loop's next iteration after `off`; anything but a position when the loop
      ends there. */
  function NextOffset(size: int, o: Oracle, off: int): Seek {
    if off >= size then NoMore
    else
      var d := o.data(off);
      if !d.At? || d.pos >= size then NoMore
      else
        var h := o.hole(d.pos);
        if h.NoMore? then At(size)
        else if !h.At? || (if h.pos < size then h.pos else size) < d.pos then NoMore
        else At(if h.pos < size then h.pos else size)
  }

  /** The offset after `n` iterations from the start of the file. */
  function OffsetAfter(size: int, o: Oracle, n: nat): Seek {
    if n == 0 then At(0)
    else
      var s := OffsetAfter(size, o, n - 1);
      if s.At? then NextOffset(size, o, s.pos) else s
  }

  /** Iteration `n` begins at `off`, before the end of the file. */
  ghost predicate Visits(size: int, o: Oracle, n: nat, off: int) {
    OffsetAfter(size, o, n) == At(off) && off < size
  }

  /** What SEEK_DATA promises, at the offsets the loop visits: it never answers behind the offset it
      is given. */
  ghost predicate Forward(size: int, o: Oracle) {
    forall n: nat, off :: Visits(size, o, n, off) && o.data(off).At? ==> o.data(off).pos >= off
  }

  /** The position is both a data start and a hole. */
  predicate Stuck(o: Oracle, p: int) { o.data(p) == At(p) && o.hole(p) == At(p) }

  /** The loop visits such a position. */
  ghost predicate GetsStuck(size: int, o: Oracle) {
    exists n: nat, p :: Visits(size, o, n, p) && Stuck(o, p)
  }

  /** The positions one iteration passes over. */
  function SkipAt(size: int, o: Oracle, off: int): set<int> {
    var d := o.data(off);
    if d.At? then Interval(off, if d.pos < size then d.pos else size)
    else if d.NoMore? then Interval(off, size)
    else {}
  }

  /** The positions the first `n` iterations pass over. */
  function Skips(size: int, o: Oracle, n: nat): set<int> {
    if n == 0 then {}
    else
      var s := OffsetAfter(size, o, n - 1);
      Skips(size, o, n - 1) + (if s.At? && s.pos < size then SkipAt(size, o, s.pos) else {})
  }

  /** After `n` iterations begun the loop has ended without an error. */
  ghost predicate Ends(size: int, o: Oracle, n: nat) {
    || (OffsetAfter(size, o, n).At? && OffsetAfter(size, o, n).pos >= size)
    || (n > 0 && OffsetAfter(size, o, n - 1).At? && OffsetAfter(size, o, n - 1).pos < size &&
        var d := o.data(OffsetAfter(size, o, n - 1).pos);
        d.NoMore? || (d.At? && d.pos >= size))
  }

  const CHUNK := 0x10_0000

  /** pread: some bytes of the source, possibly fewer than asked for, or an error. */
  method Pread(src: seq<Byte>, buf: array<Byte>, want: nat, pos: nat) returns (n: nat, ok: bool)
    requires want <= buf.Length && pos + want <= |src|
    modifies buf
    ensures n <= want
    ensures ok ==> buf[..n] == src[pos..pos + n]
  {
    n, ok := *, *;
    if !ok || n > want {
      n := 0;
    }
    for i := 0 to n
      invariant forall j :: 0 <= j < i ==> buf[j] == src[pos + j]
    {
      buf[i] := src[pos + i];
    }
  }

  /** The destination file: its bytes, and the positions that were ever written. */
  class Destination {
    const bytes: array<Byte>
    ghost var written: set<int>

    constructor (size: nat)
      ensures fresh(bytes) && bytes.Length == size && written == {}
      ensures forall k :: 0 <= k < size ==> bytes[k] == 0
    {
      bytes := new Byte[size](_ => 0);
      written := {};
    }

    /** Every byte is the source's where written and zero elsewhere. */
    ghost predicate Faithful(src: seq<Byte>)
      reads this, bytes
    {
      && bytes.Length == |src|
      && forall k :: 0 <= k < |src| ==> bytes[k] == if k in written then src[k] else 0
    }

    ghost predicate Covers(lo: int, hi: int)
      reads this
    {
      forall k :: lo <= k < hi ==> k in written
    }

    /** pwrite: a prefix of the buffer goes to the file; an error may still have written some. */
    method Pwrite(buf: array<Byte>, from: nat, to: nat, pos: nat, ghost src: seq<Byte>) returns (n: nat, ok: bool)
      requires from <= to <= buf.Length && pos + (to - from) <= bytes.Length && buf != bytes
      requires Faithful(src) && buf[from..to] == src[pos..pos + (to - from)]
      modifies this, bytes
      ensures n <= to - from
      ensures Faithful(src) && written == old(written) + Interval(pos, pos + n)
    {
      n, ok := *, *;
      if n > to - from {
        n := 0;
      }
      ghost var before := written;
      for i := 0 to n
        invariant Faithful(src) && written == before + Interval(pos, pos + i)
      {
        assert buf[from + i] == buf[from..to][i];
        bytes[pos + i] := buf[from + i];
        IntervalExtends(pos, pos + i);
        written := written + {pos + i};
      }
    }

    /** copyFileExtent: either the whole extent is written, or the copy fails part of the way. */
    method CopyExtent(src: seq<Byte>, offset: nat, length: nat) returns (ok: bool)
      requires offset + length <= |src| && Faithful(src)
      modifies this, bytes
      ensures Faithful(src) && old(written) <= written <= old(written) + Interval(offset, offset + length)
      ensures ok ==> Covers(offset, offset + length)
    {
      var buf := new Byte[CHUNK];
      var pos, remaining := offset, length;
      while remaining > 0
        invariant offset <= pos && pos + remaining == offset + length
        invariant Faithful(src) && old(written) <= written <= old(written) + Interval(offset, offset + length)
        invariant Covers(offset, pos)
        decreases remaining
      {
        var want := CHUNK;
        if remaining < want {
          want := remaining;
        }
        var n, read := Pread(src, buf, want, pos);
        if !read || n == 0 {
          return false;
        }
        var done := WriteChunk(src, buf, n, pos);
        if !done {
          return false;
        }
        pos, remaining := pos + n, remaining - n;
      }
      return true;
    }

    /** The inner loop: repeats short writes until the chunk is out. */
    method WriteChunk(ghost src: seq<Byte>, buf: array<Byte>, n: nat, pos: nat) returns (ok: bool)
      requires n <= buf.Length && pos + n <= |src| && buf != bytes
      requires Faithful(src) && buf[..n] == src[pos..pos + n]
      modifies this, bytes
      ensures Faithful(src) && old(written) <= written <= old(written) + Interval(pos, pos + n)
      ensures ok ==> Covers(pos, pos + n)
    {
      var out := 0;
      while out < n
        invariant out <= n && buf[..n] == src[pos..pos + n]
        invariant Faithful(src) && old(written) <= written <= old(written) + Interval(pos, pos + n)
        invariant Covers(pos, pos + out)
      {
        assert buf[out..n] == buf[..n][out..];
        var wn, wrote := Pwrite(buf, out, n, pos + out, src);
        if !wrote || wn == 0 {
          return false;
        }
        out := out + wn;
      }
      return true;
    }
  }

  function Interval(lo: int, hi: int): (s: set<int>)
    ensures forall k :: k in s <==> lo <= k < hi
    decreases hi - lo
  {
    if hi <= lo then {} else Interval(lo, hi - 1) + {hi - 1}
  }

  lemma IntervalExtends(lo: int, hi: int)
    requires lo <= hi
    ensures Interval(lo, hi + 1) == Interval(lo, hi) + {hi}
  {}

  /* ---- the whole file ---- */

  datatype Outcome = Copied | SeekUnsupported | CopyFailed

  /** copyRegularFileSparse. On success exactly the positions that no seek passed over are written,
      so the copy is byte for byte the source if and only if everything passed over is zero there.
      After a failure every byte is still either zero or the source's, and nothing passed over has
      been written. `n` counts the iterations begun; the loop must not get stuck, or it would not
      end. */
  method CopyRegularFileSparse(src: seq<Byte>, o: Oracle) returns (r: Outcome, dst: Destination, ghost n: nat)
    requires Forward(|src|, o) && !GetsStuck(|src|, o)
    ensures fresh(dst) && fresh(dst.bytes)
    ensures r.Copied? ==> Ends(|src|, o, n) && dst.written == Interval(0, |src|) - Skips(|src|, o, n)
    ensures r.Copied? ==> (dst.bytes[..] == src <==> forall k :: k in Skips(|src|, o, n) && 0 <= k < |src| ==> src[k] == 0)
    ensures dst.bytes.Length == 0 || dst.Faithful(src)
    ensures dst.written <= Interval(0, |src|) - Skips(|src|, o, n)
    ensures r.SeekUnsupported? ==>
      exists off :: 0 <= off < |src| && (o.data(off).Unsupported? || o.hole(off).Unsupported?)
  {
    hide Skips, SkipAt, OffsetAfter, NextOffset, Interval, Ends;
    dst := new Destination(0);
    n := 0;
    BeforeAll(|src|, o);
    var present: bool, truncated: bool := *, *;
    if !present {
      return CopyFailed, dst, n;
    }
    if !truncated {
      return CopyFailed, dst, n;
    }
    dst := new Destination(|src|);
    var offset := 0;
    while offset < |src|
      invariant 0 <= offset <= |src| && fresh(dst) && fresh(dst.bytes) && dst.Faithful(src)
      invariant OffsetAfter(|src|, o, n) == At(offset)
      invariant Skips(|src|, o, n) <= Interval(0, offset)
      invariant dst.written == Interval(0, offset) - Skips(|src|, o, n)
    {
      assert Visits(|src|, o, n, offset);
      ghost var before := dst.written;
      var turn := CopyNext(src, o, dst, offset);
      IterationBegun(|src|, o, n, offset);
      PassedOver(before, Skips(|src|, o, n), SkipAt(|src|, o, offset), offset, |src|);
      match turn {
        case Over =>
          OverEnds(|src|, o, n, offset);
          n := n + 1;
          break;
        case Stop(outcome) =>
          n := n + 1;
          return outcome, dst, n;
        case More(next) =>
          PassedOver(before, Skips(|src|, o, n), SkipAt(|src|, o, offset), offset, next);
          n := n + 1;
          offset := next;
      }
    }
    var closed: bool := *;
    if offset == |src| {
      EndEnds(|src|, o, n);
    }
    WholeFile(src, dst, Skips(|src|, o, n));
    return if closed then Copied else CopyFailed, dst, n;
  }

  lemma BeforeAll(size: int, o: Oracle)
    ensures Skips(size, o, 0) == {} && OffsetAfter(size, o, 0) == At(0)
  {}

  lemma IterationBegun(size: int, o: Oracle, n: nat, off: int)
    requires Visits(size, o, n, off)
    ensures OffsetAfter(size, o, n + 1) == NextOffset(size, o, off)
    ensures Skips(size, o, n + 1) == Skips(size, o, n) + SkipAt(size, o, off)
  {}

  lemma OverEnds(size: int, o: Oracle, n: nat, off: int)
    requires Visits(size, o, n, off) && (o.data(off).NoMore? || (o.data(off).At? && o.data(off).pos >= size))
    ensures Ends(size, o, n + 1) && SkipAt(size, o, off) == Interval(off, size)
  {}

  lemma EndEnds(size: int, o: Oracle, n: nat)
    requires OffsetAfter(size, o, n) == At(size)
    ensures Ends(size, o, n)
  {}

  /** What is written up to `next` is everything but what was passed over. */
  lemma PassedOver(written: set<int>, skips: set<int>, skip: set<int>, off: int, next: int)
    requires 0 <= off <= next && skips <= Interval(0, off) && written == Interval(0, off) - skips
    ensures skip <= Interval(off, next) ==>
      && written + (Interval(off, next) - skip) == Interval(0, next) - (skips + skip)
      && skips + skip <= Interval(0, next)
  {}

  /** How one iteration ends: at the next offset, past the last data, or with an error. */
  datatype Turn = More(next: int) | Over | Stop(outcome: Outcome)

  /** One iteration: the positions up to the data start are passed over, the extent is copied. */
  method CopyNext(src: seq<Byte>, o: Oracle, dst: Destination, offset: nat) returns (t: Turn)
    requires dst.Faithful(src) && offset < |src| && (o.data(offset).At? ==> o.data(offset).pos >= offset)
    modifies dst, dst.bytes
    ensures dst.Faithful(src) && old(dst.written) <= dst.written
    ensures SkipAt(|src|, o, offset) <= Interval(offset, |src|)
    ensures dst.written <= old(dst.written) + (Interval(offset, |src|) - SkipAt(|src|, o, offset))
    ensures t.More? ==> NextOffset(|src|, o, offset) == At(t.next) && offset <= t.next <= |src|
    ensures t.More? ==> dst.written == old(dst.written) + (Interval(offset, t.next) - SkipAt(|src|, o, offset))
    ensures t.More? ==> SkipAt(|src|, o, offset) <= Interval(offset, t.next) && (t.next == offset ==> Stuck(o, offset))
    ensures t.Over? ==>
      && (o.data(offset).NoMore? || (o.data(offset).At? && o.data(offset).pos >= |src|))
      && dst.written == old(dst.written)
    ensures t.Stop? ==> !t.outcome.Copied?
    ensures t.Stop? && t.outcome.SeekUnsupported? ==>
      exists off :: 0 <= off < |src| && (o.data(off).Unsupported? || o.hole(off).Unsupported?)
  {
    var data := o.data(offset);
    if data.NoMore? {
      return Over;
    }
    if !data.At? {
      return Stop(if data.Unsupported? then SeekUnsupported else CopyFailed);
    }
    if data.pos >= |src| {
      return Over;
    }
    var hole := o.hole(data.pos);
    var end;
    if hole.NoMore? {
      end := |src|;
    } else if hole.At? {
      end := hole.pos;
    } else {
      return Stop(if hole.Unsupported? then SeekUnsupported else CopyFailed);
    }
    if end > |src| {
      end := |src|;
    }
    if end < data.pos {
      return Stop(CopyFailed);
    }
    if end > data.pos {
      var ok := dst.CopyExtent(src, data.pos, end - data.pos);
      if !ok {
        return Stop(CopyFailed);
      }
    }
    return More(end);
  }

  /** With everything but `skipped` written, the copy is the source exactly when `skipped` is zero there. */
  lemma WholeFile(src: seq<Byte>, dst: Destination, skipped: set<int>)
    requires dst.Faithful(src) && dst.written == Interval(0, |src|) - skipped
    ensures dst.bytes[..] == src <==> forall k :: k in skipped && 0 <= k < |src| ==> src[k] == 0
  {
    if dst.bytes[..] == src {
      forall k | k in skipped && 0 <= k < |src|
        ensures src[k] == 0
      {
        assert dst.bytes[..][k] == src[k];
      }
    }
  }

  /* ---- when the loop ends ---- */

  lemma {:induction false} StaysStuck(size: int, o: Oracle, m: nat, p: int, n: nat)
    requires Visits(size, o, m, p) && Stuck(o, p)
    ensures OffsetAfter(size, o, n).At?
    ensures n >= m ==> OffsetAfter(size, o, n) == At(p)
    decreases if n > m then n - m else m - n
  {
    if n < m {
      StaysStuck(size, o, m, p, n + 1);
    } else if n > m {
      StaysStuck(size, o, m, p, n - 1);
    }
  }

  /** Until the loop gets stuck every iteration moves on. */
  lemma {:induction false} MovesOn(size: int, o: Oracle, n: nat)
    requires size >= 0 && Forward(size, o)
    requires forall m: nat, p :: m < n && Visits(size, o, m, p) ==> !Stuck(o, p)
    ensures OffsetAfter(size, o, n).At? ==> n <= OffsetAfter(size, o, n).pos <= size
  {
    if n > 0 {
      MovesOn(size, o, n - 1);
      var s := OffsetAfter(size, o, n - 1);
      if s.At? && s.pos < size {
        assert Visits(size, o, n - 1, s.pos);
      }
    }
  }

  /** The loop runs for ever if and only if it visits a position that is both a data start and a hole. */
  lemma RunsForeverIff(size: int, o: Oracle)
    requires size >= 0 && Forward(size, o)
    ensures (forall n: nat :: OffsetAfter(size, o, n).At?) <==> GetsStuck(size, o)
  {
    if GetsStuck(size, o) {
      var m: nat, p :| Visits(size, o, m, p) && Stuck(o, p);
      forall n: nat
        ensures OffsetAfter(size, o, n).At?
      {
        StaysStuck(size, o, m, p, n);
      }
    } else {
      MovesOn(size, o, size + 1);
      assert !OffsetAfter(size, o, size + 1).At?;
    }
  }

  /* ---- file systems that report their allocation ---- */

  /** The oracle of a file whose allocated positions are `map_`. */
  ghost predicate Reports(map_: seq<bool>, o: Oracle) {
    forall off :: 0 <= off < |map_| ==> FirstAt(map_, off, true, o.data(off)) && FirstAt(map_, off, false, o.hole(off))
  }

  /** `s` is the first position from `off` on with allocation `want`; past the end there is
      an implicit hole. */
  ghost predicate FirstAt(map_: seq<bool>, off: int, want: bool, s: Seek) {
    && (s.At? ==>
          && off <= s.pos <= |map_| && (s.pos == |map_| ==> !want)
          && (0 <= s.pos < |map_| ==> map_[s.pos] == want)
          && (forall k :: 0 <= off <= k < s.pos ==> map_[k] != want))
    && (s.NoMore? ==> want && forall k :: 0 <= off <= k < |map_| ==> map_[k] != want)
  }

  /** One iteration over such a file passes over exactly what is not allocated and copies exactly what is. */
  lemma IterationReports(map_: seq<bool>, o: Oracle, off: int)
    requires Reports(map_, o) && 0 <= off < |map_|
    ensures o.data(off).At? ==> o.data(off).pos >= off
    ensures !Stuck(o, off)
    ensures forall k :: k in SkipAt(|map_|, o, off) ==> off <= k < |map_| && !map_[k]
    ensures var next := NextOffset(|map_|, o, off);
      next.At? ==> off < next.pos <= |map_| && forall k :: off <= k < next.pos && k !in SkipAt(|map_|, o, off) ==> map_[k]
  {
    assert FirstAt(map_, off, true, o.data(off)) && FirstAt(map_, off, false, o.hole(off));
    if o.data(off).At? && o.data(off).pos < |map_| {
      var p := o.data(off).pos;
      assert FirstAt(map_, p, false, o.hole(p));
    }
  }

  lemma {:induction false} PrefixReports(map_: seq<bool>, o: Oracle, n: nat)
    requires Reports(map_, o)
    ensures forall k :: k in Skips(|map_|, o, n) ==> 0 <= k < |map_| && !map_[k]
    ensures OffsetAfter(|map_|, o, n).At? ==>
      && 0 <= OffsetAfter(|map_|, o, n).pos <= |map_|
      && forall k :: 0 <= k < OffsetAfter(|map_|, o, n).pos && k !in Skips(|map_|, o, n) ==> map_[k]
  {
    if n > 0 {
      PrefixReports(map_, o, n - 1);
      var s := OffsetAfter(|map_|, o, n - 1);
      if s.At? && s.pos < |map_| {
        IterationReports(map_, o, s.pos);
      }
    }
  }

  /** For such a file both requirements of the copy hold, and a finished copy has written exactly
      the allocated positions: the copy is as sparse as the source. It is byte for byte the source
      when unallocated bytes read as zero. */
  lemma AllocationKept(src: seq<Byte>, map_: seq<bool>, o: Oracle, n: nat)
    requires |map_| == |src| && Reports(map_, o)
    ensures Forward(|src|, o) && !GetsStuck(|src|, o)
    ensures Ends(|src|, o, n) ==> forall k :: k in Interval(0, |src|) - Skips(|src|, o, n) <==> 0 <= k < |src| && map_[k]
    ensures (forall k :: 0 <= k < |src| && !map_[k] ==> src[k] == 0) ==>
      forall k :: k in Skips(|src|, o, n) && 0 <= k < |src| ==> src[k] == 0
  {
    forall m: nat, off | Visits(|src|, o, m, off)
      ensures (o.data(off).At? ==> o.data(off).pos >= off) && !Stuck(o, off)
    {
      PrefixReports(map_, o, m);
      IterationReports(map_, o, off);
    }
    PrefixReports(map_, o, n);
    if Ends(|src|, o, n) && n > 0 {
      PrefixReports(map_, o, n - 1);
    }
  }
}
