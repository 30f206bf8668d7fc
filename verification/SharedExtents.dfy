/** The shared-extent tracker of lib/diskutilization: a sorted table of physical byte
    ranges that charges every byte of a reflinked extent once.

    Addresses and lengths are 64-bit unsigned numbers, so `start + length` is taken
    modulo 2^64 exactly as in the source, and the charge is converted to a signed
    64-bit number. */
module SharedExtents {
  const U64: int := 0x1_0000_0000_0000_0000
  const I64: int := 0x8000_0000_0000_0000

  datatype Range = Range(start: int, end: int)

  /** The `int64(...)` conversion of an unsigned 64-bit number. */
  function AsInt64(n: int): int {
    if n < I64 then n else n - U64
  }

  /** Unsigned 64-bit addition and subtraction of 64-bit operands. */
  function AddU64(a: int, b: int): int {
    if a + b < U64 then a + b else a + b - U64
  }

  function SubU64(a: int, b: int): int {
    if b <= a then a - b else a - b + U64
  }

  function Min(a: int, b: int): int { if a < b then a else b }

  function Max(a: int, b: int): int { if a < b then b else a }

  /** Ranges are non-empty 64-bit ranges, in order, with a gap between neighbours. */
  ghost predicate WellFormed(rs: seq<Range>) {
    && (forall i :: 0 <= i < |rs| ==> 0 <= rs[i].start < rs[i].end < U64)
    && (forall i, j :: 0 <= i < j < |rs| ==> rs[i].end < rs[j].start)
  }

  ghost predicate Within(r: Range, x: int) {
    r.start <= x < r.end
  }

  ghost predicate Covers(rs: seq<Range>, x: int) {
    exists i :: 0 <= i < |rs| && Within(rs[i], x)
  }

  ghost function Interval(lo: int, hi: int): set<int> {
    set x | lo <= x < hi && Within(Range(lo, hi), x)
  }

  /** The bytes a table stands for. */
  ghost function Bytes(rs: seq<Range>): set<int> {
    set x | 0 <= x < U64 && Covers(rs, x)
  }

  lemma {:induction false} IntervalSize(lo: int, hi: int)
    requires lo <= hi
    ensures |Interval(lo, hi)| == hi - lo
    decreases hi - lo
  {
    if lo < hi {
      IntervalSize(lo, hi - 1);
      assert Interval(lo, hi) == Interval(lo, hi - 1) + {hi - 1};
    }
  }

  lemma UnionSize(a: set<int>, b: set<int>)
    ensures |a + b| == |a| + |b| - |a * b|
  {
    assert a + b == a + (b - a);
    assert b == (b - a) + (a * b);
  }

  lemma UnionAssociates(a: set<int>, b: set<int>, c: set<int>)
    ensures (a + b) + c == a + (b + c) && a + {} == a
  {
  }

  lemma SubsetSize(a: set<int>, b: set<int>)
    requires a <= b
    ensures |a| <= |b|
  {
    assert b == a + (b - a);
  }

  /** The first range that ends at or after `start`: sort.Search over the table. */
  method Search(rs: seq<Range>, start: int) returns (first: nat)
    requires WellFormed(rs)
    ensures first <= |rs|
    ensures forall i :: 0 <= i < first ==> rs[i].end < start
    ensures forall i :: first <= i < |rs| ==> rs[i].end >= start
  {
    var lo, hi := 0, |rs|;
    while lo < hi
      invariant 0 <= lo <= hi <= |rs|
      invariant forall i :: 0 <= i < lo ==> rs[i].end < start
      invariant forall i :: hi <= i < |rs| ==> rs[i].end >= start
    {
      var mid := (lo + hi) / 2;
      if rs[mid].end >= start {
        hi := mid;
      } else {
        lo := mid + 1;
      }
    }
    first := lo;
  }

  /** The part of an extent that a table already covers, when only ranges in
      `rs[first..last]` can meet it. */
  ghost function Overlap(rs: seq<Range>, lo: int, hi: int): set<int> {
    set x | lo <= x < hi && Covers(rs, x)
  }

  lemma OverlapGrows(rs: seq<Range>, first: nat, last: nat, lo: int, hi: int)
    requires WellFormed(rs) && first <= last < |rs| && lo <= hi
    ensures var r := rs[last];
      |Overlap(rs[first..last + 1], lo, hi)| ==
      |Overlap(rs[first..last], lo, hi)| +
      Max(0, Min(hi, r.end) - Max(lo, r.start))
    ensures |Overlap(rs[first..last + 1], lo, hi)| <= hi - lo
  {
    IntervalSize(lo, hi);
    assert Overlap(rs[first..last + 1], lo, hi) <= Interval(lo, hi);
    SubsetSize(Overlap(rs[first..last + 1], lo, hi), Interval(lo, hi));
    var r := rs[last];
    var piece := Interval(Max(lo, r.start), Max(Max(lo, r.start), Min(hi, r.end)));
    IntervalSize(Max(lo, r.start), Max(Max(lo, r.start), Min(hi, r.end)));
    var before, after := rs[first..last], rs[first..last + 1];
    forall x ensures x in Overlap(after, lo, hi) <==> x in Overlap(before, lo, hi) || x in piece {
      if x in Overlap(before, lo, hi) {
        var i :| 0 <= i < |before| && Within(before[i], x);
        assert Within(after[i], x);
      }
      if x in piece {
        assert Within(after[last - first], x);
      }
      if x in Overlap(after, lo, hi) {
        var i :| 0 <= i < |after| && Within(after[i], x);
        assert i < last - first ==> Within(before[i], x);
      }
    }
    assert Overlap(after, lo, hi) == Overlap(before, lo, hi) + piece;
    forall x | x in piece ensures x !in Overlap(before, lo, hi) {
      assert forall i :: 0 <= i < |before| ==> before[i] == rs[first + i] && !Within(before[i], x);
    }
    assert Overlap(before, lo, hi) !! piece;
  }

  /** A table holding the top byte of the address space cannot be represented:
      ends are exclusive 64-bit numbers. */
  lemma TopByteUncovered(rs: seq<Range>)
    requires WellFormed(rs)
    ensures U64 - 1 !in Bytes(rs)
  {
    assert forall i :: 0 <= i < |rs| ==> !Within(rs[i], U64 - 1);
  }

  /** What the splice at the end of `add` leaves behind. */
  ghost function Spliced(rs: seq<Range>, first: nat, last: nat, merged: Range): seq<Range>
    requires first <= last <= |rs|
  {
    rs[..first] + [merged] + rs[last..]
  }

  lemma SplicedWellFormed(rs: seq<Range>, first: nat, last: nat, merged: Range)
    requires WellFormed(rs) && first <= last <= |rs|
    requires 0 <= merged.start < merged.end < U64
    requires forall i :: 0 <= i < first ==> rs[i].end < merged.start
    requires forall i :: last <= i < |rs| ==> merged.end < rs[i].start
    ensures WellFormed(Spliced(rs, first, last, merged))
  {
    var out := Spliced(rs, first, last, merged);
    forall i | 0 <= i < |out| ensures 0 <= out[i].start < out[i].end < U64 {
      assert out[i] == if i < first then rs[i] else if i == first then merged else rs[i - 1 - first + last];
    }
    forall i, j | 0 <= i < j < |out| ensures out[i].end < out[j].start {
      assert out[i] == if i < first then rs[i] else if i == first then merged else rs[i - 1 - first + last];
      assert out[j] == if j < first then rs[j] else if j == first then merged else rs[j - 1 - first + last];
    }
  }

  /** The merged range absorbs exactly the ranges it replaces plus the new extent. */
  lemma SplicedCovers(rs: seq<Range>, first: nat, last: nat, merged: Range, lo: int, hi: int)
    requires first <= last <= |rs|
    requires Spans(rs[first..last], lo, hi, merged)
    ensures forall x :: Covers(Spliced(rs, first, last, merged), x) <==> lo <= x < hi || Covers(rs, x)
  {
    var out := Spliced(rs, first, last, merged);
    forall x ensures Covers(out, x) <==> lo <= x < hi || Covers(rs, x) {
      if Covers(out, x) {
        var i :| 0 <= i < |out| && Within(out[i], x);
        if i < first {
          assert Within(rs[i], x);
        } else if i == first {
          if Covers(rs[first..last], x) {
            var k :| 0 <= k < last - first && Within(rs[first..last][k], x);
            assert Within(rs[first + k], x);
          }
        } else {
          assert Within(rs[i - 1 - first + last], x);
        }
      }
      if lo <= x < hi {
        assert Within(out[first], x);
      }
      if Covers(rs, x) {
        var i :| 0 <= i < |rs| && Within(rs[i], x);
        if i < first {
          assert Within(out[i], x);
        } else if i < last {
          assert Within(rs[first..last][i - first], x);
          assert Within(out[first], x);
        } else {
          assert Within(out[i + 1 + first - last], x);
        }
      }
    }
  }

  ghost predicate Spans(rs: seq<Range>, lo: int, hi: int, merged: Range) {
    forall x :: Within(merged, x) <==> (lo <= x < hi || Covers(rs, x))
  }

  lemma SpansNext(rs: seq<Range>, r: Range, lo: int, hi: int, merged: Range)
    requires Spans(rs, lo, hi, merged) && merged.start <= lo < hi <= merged.end
    requires r.start < r.end && r.start <= merged.end && lo <= r.end
    ensures Spans(rs + [r], lo, hi, Range(Min(merged.start, r.start), Max(merged.end, r.end)))
  {
    var after := rs + [r];
    forall x ensures Covers(after, x) <==> Covers(rs, x) || Within(r, x) {
      if Covers(rs, x) {
        var i :| 0 <= i < |rs| && Within(rs[i], x);
        assert Within(after[i], x);
      }
      if Within(r, x) {
        assert Within(after[|rs|], x);
      }
    }
  }

  /** The state of the merge loop: `merged` is the extent together with the touching
      ranges `rs[first..last]`, and `added` is the length less what they already cover. */
  ghost predicate Merging(rs: seq<Range>, first: nat, last: nat, lo: int, hi: int, merged: Range, added: int) {
    && first <= last <= |rs|
    && 0 <= merged.start <= lo < hi <= merged.end < U64
    && (forall i :: 0 <= i < first ==> rs[i].end < merged.start)
    && merged.end == Max(hi, if first < last then rs[last - 1].end else hi)
    && 0 <= added == hi - lo - |Overlap(rs[first..last], lo, hi)|
    && Spans(rs[first..last], lo, hi, merged)
  }

  /** Absorbing the next touching range. */
  lemma MergeStep(rs: seq<Range>, first: nat, last: nat, lo: int, hi: int, merged: Range, added: int)
    requires WellFormed(rs) && last < |rs| && Merging(rs, first, last, lo, hi, merged, added)
    requires rs[last].start <= merged.end && lo <= rs[last].end
    ensures var r := rs[last];
      var overlap := Max(0, Min(hi, r.end) - Max(lo, r.start));
      && overlap <= added
      && Merging(rs, first, last + 1, lo, hi, Range(Min(merged.start, r.start), Max(merged.end, r.end)), added - overlap)
  {
    OverlapGrows(rs, first, last, lo, hi);
    SpansNext(rs[first..last], rs[last], lo, hi, merged);
    assert rs[first..last + 1] == rs[first..last] + [rs[last]];
  }

  /** Only the absorbed ranges meet the extent. */
  lemma OverlapIsMeet(rs: seq<Range>, first: nat, last: nat, lo: int, hi: int)
    requires first <= last <= |rs| && 0 <= lo && hi < U64
    requires forall i :: 0 <= i < first ==> rs[i].end < lo
    requires forall i :: last <= i < |rs| ==> hi <= rs[i].start
    ensures Overlap(rs[first..last], lo, hi) == Bytes(rs) * Interval(lo, hi)
  {
    var mid := rs[first..last];
    forall x ensures x in Overlap(mid, lo, hi) <==> x in Bytes(rs) * Interval(lo, hi) {
      if x in Overlap(mid, lo, hi) {
        var i :| 0 <= i < |mid| && Within(mid[i], x);
        assert Within(rs[first + i], x);
      }
      if x in Bytes(rs) * Interval(lo, hi) {
        var i :| 0 <= i < |rs| && Within(rs[i], x);
        assert Within(mid[i - first], x);
      }
    }
  }

  /** The splice adds exactly the extent, and its growth is the length less the overlap. */
  lemma AddedExactly(rs: seq<Range>, first: nat, last: nat, lo: int, hi: int, merged: Range, added: int)
    requires WellFormed(rs) && Merging(rs, first, last, lo, hi, merged, added)
    requires forall i :: 0 <= i < first ==> rs[i].end < lo
    requires last < |rs| ==> merged.end < rs[last].start
    ensures var out := Spliced(rs, first, last, merged);
      && WellFormed(out)
      && Bytes(out) == Bytes(rs) + Interval(lo, hi)
      && |Bytes(out)| == |Bytes(rs)| + added
      && added <= hi - lo
  {
    var out := Spliced(rs, first, last, merged);
    SplicedWellFormed(rs, first, last, merged);
    SplicedCovers(rs, first, last, merged, lo, hi);
    assert Bytes(out) == Bytes(rs) + Interval(lo, hi);
    OverlapIsMeet(rs, first, last, lo, hi);
    UnionSize(Bytes(rs), Interval(lo, hi));
    IntervalSize(lo, hi);
  }

  /** The tracker itself. `ranges` is the source's slice, reassigned on every change. */
  class SharedExtentTracker {
    var ranges: seq<Range>

    constructor ()
      ensures ranges == [] && WellFormed(ranges) && Bytes(ranges) == {}
    {
      ranges := [];
    }

    /** Whether `start + length` is computed without wrapping. */
    static predicate NoWrap(start: int, length: int) {
      start + length < U64
    }

    /** Adds an extent and returns the bytes it newly covers. */
    method Add(start: int, length: int) returns (charged: int)
      requires WellFormed(ranges) && 0 <= start < U64 && 0 <= length < U64
      modifies this
      ensures length == 0 ==> ranges == old(ranges) && charged == 0
      ensures NoWrap(start, length) ==>
        && WellFormed(ranges)
        && Bytes(ranges) == old(Bytes(ranges)) + Interval(start, start + length)
        && |old(Bytes(ranges))| <= |Bytes(ranges)| <= |old(Bytes(ranges))| + length
        && charged == AsInt64(|Bytes(ranges)| - |old(Bytes(ranges))|)
        && (charged == |Bytes(ranges)| - |old(Bytes(ranges))| <==> |Bytes(ranges)| - |old(Bytes(ranges))| < I64)
    {
      if length == 0 {
        assert Interval(start, start + length) == {};
        return 0;
      }
      var end := AddU64(start, length);
      var first := Search(ranges, start);
      var last, merged, added := MergeTouching(start, length, end, first);
      ghost var rs := ranges;
      if NoWrap(start, length) {
        AddedExactly(rs, first, last, start, end, merged, added);
      }
      if first == last {
        ranges := ranges[..first] + [merged] + ranges[first..];
      } else {
        ranges := ranges[..first] + [merged] + ranges[last..];
      }
      charged := AsInt64(added);
    }

    /** The merge loop: absorbs the touching ranges from `first` on. */
    method MergeTouching(start: int, length: int, end: int, first: nat)
      returns (last: nat, merged: Range, added: int)
      requires WellFormed(ranges) && 0 <= start < U64 && 0 < length < U64 && end == AddU64(start, length)
      requires first <= |ranges|
      requires forall i :: 0 <= i < first ==> ranges[i].end < start
      requires forall i :: first <= i < |ranges| ==> ranges[i].end >= start
      ensures first <= last <= |ranges|
      ensures NoWrap(start, length) ==>
        && Merging(ranges, first, last, start, end, merged, added)
        && (last < |ranges| ==> merged.end < ranges[last].start)
    {
      last := first;
      var mergedStart, mergedEnd := start, end;
      added := length;
      assert Overlap(ranges[first..first], start, end) == {};
      while last < |ranges| && ranges[last].start <= mergedEnd
        invariant first <= last <= |ranges|
        invariant NoWrap(start, length) ==>
          Merging(ranges, first, last, start, end, Range(mergedStart, mergedEnd), added)
      {
        var existing := ranges[last];
        var overlapStart := Max(start, existing.start);
        var overlapEnd := Min(end, existing.end);
        if NoWrap(start, length) {
          MergeStep(ranges, first, last, start, end, Range(mergedStart, mergedEnd), added);
        }
        if overlapStart < overlapEnd {
          added := SubU64(added, overlapEnd - overlapStart);
        }
        mergedStart := Min(mergedStart, existing.start);
        mergedEnd := Max(mergedEnd, existing.end);
        last := last + 1;
      }
      merged := Range(mergedStart, mergedEnd);
    }
  }

  /** When the end of an extent wraps, no well-formed table can hold the extent, so
      `add` meets its contract exactly on the extents that do not wrap. */
  lemma WrappedExtentIsNeverHeld(before: seq<Range>, after: seq<Range>, start: int, length: int)
    requires WellFormed(before) && WellFormed(after)
    requires 0 <= start < U64 && 0 < length < U64
    requires !SharedExtentTracker.NoWrap(start, length)
    ensures Bytes(after) != Bytes(before) + Interval(start, start + length)
  {
    TopByteUncovered(after);
    assert Within(Range(start, start + length), U64 - 1);
  }

  datatype Extent = Extent(physical: int, length: int, shared: bool)

  ghost predicate Addressable(es: seq<Extent>) {
    forall e :: e in es ==>
      0 <= e.physical && 0 <= e.length < I64 && SharedExtentTracker.NoWrap(e.physical, e.length)
  }

  /** The physical bytes held by the shared extents of a list. */
  ghost function SharedBytes(es: seq<Extent>): set<int> {
    set x | 0 <= x < U64 && HeldShared(es, x)
  }

  ghost predicate HeldShared(es: seq<Extent>, x: int) {
    exists e :: e in es && e.shared && Within(Range(e.physical, e.physical + e.length), x)
  }

  predicate AnyShared(es: seq<Extent>) {
    es != [] && (AnyShared(es[..|es| - 1]) || (es[|es| - 1].shared && es[|es| - 1].length != 0))
  }

  function PrivateLength(es: seq<Extent>): int {
    if es == [] then 0
    else PrivateLength(es[..|es| - 1]) + (if es[|es| - 1].shared then 0 else es[|es| - 1].length)
  }

  lemma SharedBytesNext(es: seq<Extent>, k: nat)
    requires k < |es| && Addressable(es)
    ensures SharedBytes(es[..k + 1]) ==
      SharedBytes(es[..k]) + Held(es[k])
    ensures PrivateLength(es[..k + 1]) == PrivateLength(es[..k]) + (if es[k].shared then 0 else es[k].length)
    ensures AnyShared(es[..k + 1]) <==> AnyShared(es[..k]) || (es[k].shared && es[k].length != 0)
  {
    var next := es[..k + 1];
    assert next == es[..k] + [es[k]] && next[..k] == es[..k];
    assert es[k] in es;
    forall x
      ensures x in SharedBytes(next) <==>
        x in SharedBytes(es[..k]) ||
        (es[k].shared && x in Interval(es[k].physical, es[k].physical + es[k].length))
    {
    }
  }

  lemma NothingShared()
    ensures SharedBytes([]) == {} && PrivateLength([]) == 0 && !AnyShared([])
  {}

  ghost function Held(e: Extent): set<int> {
    if e.shared then Interval(e.physical, e.physical + e.length) else {}
  }

  /** One turn of the accounting loop. */
  method ChargeExtent(t: SharedExtentTracker, e: Extent) returns (privateBytes: int, sharedBytes: int, sawShared: bool)
    requires WellFormed(t.ranges) && Addressable([e])
    modifies t
    ensures WellFormed(t.ranges)
    ensures Bytes(t.ranges) == old(Bytes(t.ranges)) + Held(e)
    ensures privateBytes == if e.shared then 0 else e.length
    ensures sharedBytes == |Bytes(t.ranges)| - |old(Bytes(t.ranges))| >= 0
    ensures sawShared <==> e.shared && e.length != 0
  {
    assert e in [e];
    privateBytes, sharedBytes, sawShared := 0, 0, false;
    if e.length == 0 || !e.shared {
      privateBytes := if e.shared then 0 else e.length;
      UnionAssociates(Bytes(t.ranges), {}, {});
      assert Held(e) == {};
      return;
    }
    sawShared := true;
    sharedBytes := t.Add(e.physical, e.length);
  }

  /** The accounting loop over one file's extents: private bytes are summed, shared
      bytes are charged through the tracker. */
  method AccountExtents(t: SharedExtentTracker, es: seq<Extent>)
    returns (privateBytes: int, sharedBytes: int, sawShared: bool)
    requires WellFormed(t.ranges) && Addressable(es)
    modifies t
    ensures WellFormed(t.ranges)
    ensures Bytes(t.ranges) == old(Bytes(t.ranges)) + SharedBytes(es)
    ensures privateBytes == PrivateLength(es)
    ensures sharedBytes == |Bytes(t.ranges)| - |old(Bytes(t.ranges))|
    ensures sawShared == AnyShared(es)
  {
    hide Bytes, WellFormed, SharedBytes, PrivateLength, AnyShared, Held;
    privateBytes, sharedBytes, sawShared := 0, 0, false;
    assert es[..0] == [];
    NothingShared();
    ghost var before, now, held := Bytes(t.ranges), Bytes(t.ranges), {};
    assert before + held == before;
    for i := 0 to |es|
      invariant WellFormed(t.ranges) && now == Bytes(t.ranges) && now == before + held
      invariant held == SharedBytes(es[..i])
      invariant privateBytes == PrivateLength(es[..i])
      invariant sharedBytes == |now| - |before|
      invariant sawShared == AnyShared(es[..i])
    {
      SharedBytesNext(es, i);
      UnionAssociates(before, held, Held(es[i]));
      assert Addressable([es[i]]) by { assert es[i] in es; }
      var p, s, saw := ChargeExtent(t, es[i]);
      now, held := Bytes(t.ranges), held + Held(es[i]);
      privateBytes, sharedBytes, sawShared := privateBytes + p, sharedBytes + s, sawShared || saw;
    }
    assert es[..|es|] == es;
  }

  /** The bytes charged do not depend on the order of the extents. */
  lemma ChargeIsOrderFree(a: seq<Extent>, b: seq<Extent>)
    requires multiset(a) == multiset(b)
    ensures SharedBytes(a) == SharedBytes(b)
  {
    assert forall e :: e in a <==> e in multiset(a);
    assert forall e :: e in b <==> e in multiset(b);
  }
}
