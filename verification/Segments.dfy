/**
 The fixed-origin byte address space both growing streams share (src/SegmentAppendOffsets.h,
 src/SegmentLookup.h, src/StreamSeek.cpp, src/LiveEdgeMargin.h): segments laid end to end, a
 position finds its segment, and every covered position denotes one byte of one segment's body.
 */
module Segments {
  import opened Common

  type byte = b: int | 0 <= b < 256

  /** `key` says which body the segment is: a live segment's sequence and file, a recording's URL. */
  datatype Segment<K> = Segment(key: K, byteOffset: int, byteSize: int, timeOffsetMs: int)
  {
    function End(): int { byteOffset + byteSize }

    predicate Covers(position: int) { byteOffset <= position < End() }
  }

  /** Segments end to end, the last one ending at `total`. */
  ghost predicate Contiguous<K>(segs: seq<Segment<K>>, total: int) {
    && (forall i :: 0 <= i < |segs| ==> 0 <= segs[i].byteOffset && 0 <= segs[i].byteSize)
    && (forall i, j :: 0 <= i && j == i + 1 && j < |segs| ==> segs[i].End() == segs[j].byteOffset)
    && (segs != [] ==> segs[|segs| - 1].End() == total)
    && 0 <= total
  }

  lemma {:induction false} OffsetsGrow<K>(segs: seq<Segment<K>>, total: int, i: nat, j: nat)
    requires Contiguous(segs, total) && i < j < |segs|
    ensures segs[i].End() <= segs[j].byteOffset <= segs[j].End() <= total
    decreases |segs| - i + |segs| - j
  {
    if i + 1 < j {
      OffsetsGrow(segs, total, i + 1, j);
    } else if j + 1 < |segs| {
      OffsetsGrow(segs, total, j, j + 1);
    }
  }

  function EndOf<K>(segs: seq<Segment<K>>): int {
    if segs == [] then 0 else segs[|segs| - 1].End()
  }

  // ---- Lookup ----

  function Lookup<K>(segs: seq<Segment<K>>, position: int): Option<Segment<K>> {
    if segs == [] then None
    else if segs[0].Covers(position) then Some(segs[0])
    else Lookup(segs[1..], position)
  }

  method FindSegmentContainingPosition<K>(position: int, segs: seq<Segment<K>>) returns (found: Option<Segment<K>>)
    ensures found == Lookup(segs, position)
  {
    for i := 0 to |segs|
      invariant Lookup(segs[i..], position) == Lookup(segs, position)
    {
      if segs[i].Covers(position) { return Some(segs[i]); }
      assert segs[i..][1..] == segs[i + 1..];
    }
    return None;
  }

  lemma {:induction false} LookupIsMember<K>(segs: seq<Segment<K>>, position: int)
    ensures Lookup(segs, position).Some? ==>
              Lookup(segs, position).value in segs && Lookup(segs, position).value.Covers(position)
    ensures Lookup(segs, position).None? ==> forall s :: s in segs ==> !s.Covers(position)
  {
    if segs != [] { LookupIsMember(segs[1..], position); }
  }

  /** In a contiguous list exactly one segment covers a position, and some segment covers all of [first, total). */
  lemma LookupExact<K>(segs: seq<Segment<K>>, total: int, position: int)
    requires Contiguous(segs, total)
    ensures forall s :: s in segs && s.Covers(position) ==> Lookup(segs, position) == Some(s)
    ensures Lookup(segs, position).Some? <==> segs != [] && segs[0].byteOffset <= position < total
  {
    LookupIsMember(segs, position);
    forall s | s in segs && s.Covers(position)
      ensures Lookup(segs, position) == Some(s)
    {
      var t := Lookup(segs, position).value;
      var i :| 0 <= i < |segs| && segs[i] == s;
      var j :| 0 <= j < |segs| && segs[j] == t;
      if i < j { OffsetsGrow(segs, total, i, j); }
      if j < i { OffsetsGrow(segs, total, j, i); }
    }
    if segs != [] && segs[0].byteOffset <= position < total {
      var k := 0;
      while position >= segs[k].End()
        invariant 0 <= k < |segs| && segs[k].byteOffset <= position
        decreases |segs| - k
      {
        k := k + 1;
      }
      assert segs[k].Covers(position);
    }
    if Lookup(segs, position).Some? {
      var s := Lookup(segs, position).value;
      var i :| 0 <= i < |segs| && segs[i] == s;
      if 0 < i { OffsetsGrow(segs, total, 0, i); }
      if i + 1 < |segs| { OffsetsGrow(segs, total, i, |segs| - 1); }
    }
  }

  lemma {:induction false} LookupConcat<K>(a: seq<Segment<K>>, b: seq<Segment<K>>, position: int)
    ensures Lookup(a + b, position) ==
            if Lookup(a, position).Some? then Lookup(a, position) else Lookup(b, position)
  {
    if a == [] {
      assert a + b == b;
    } else {
      assert (a + b)[1..] == a[1..] + b;
      LookupConcat(a[1..], b, position);
    }
  }

  lemma LookupInLonger<K>(segs: seq<Segment<K>>, longer: seq<Segment<K>>, position: int)
    requires segs <= longer && Lookup(segs, position).Some?
    ensures Lookup(longer, position) == Lookup(segs, position)
  {
    assert longer == segs + longer[|segs|..];
    LookupConcat(segs, longer[|segs|..], position);
  }

  /** Past the start of a kept tail, the head in front of it is never what a lookup finds. */
  lemma LookupFromTail<K>(head: seq<Segment<K>>, tail: seq<Segment<K>>, total: int, position: int)
    requires Contiguous(head + tail, total) && tail != [] && tail[0].byteOffset <= position
    ensures Lookup(head + tail, position) == Lookup(tail, position)
  {
    LookupConcat(head, tail, position);
    LookupIsMember(head, position);
    if Lookup(head, position).Some? {
      var i :| 0 <= i < |head| && head[i] == Lookup(head, position).value;
      assert (head + tail)[i] == head[i] && (head + tail)[|head|] == tail[0];
      OffsetsGrow(head + tail, total, i, |head|);
      assert false;
    }
  }

  /** What the byte at `position` of the stream is, where the segments' bodies are `body`. */
  function ByteAt<K>(segs: seq<Segment<K>>, body: K -> seq<byte>, position: int): Option<byte> {
    match Lookup(segs, position)
    case None => None
    case Some(s) =>
      var offset := position - s.byteOffset;
      if 0 <= offset < |body(s.key)| then Some(body(s.key)[offset]) else None
  }

  /** `bytes` is exactly what the stream holds from `from` on. */
  ghost predicate StreamHolds<K>(segs: seq<Segment<K>>, body: K -> seq<byte>, from: int, bytes: seq<byte>) {
    forall i :: 0 <= i < |bytes| ==> ByteAt(segs, body, from + i) == Some(bytes[i])
  }

  /** Appending segments changes no byte that was there. */
  lemma HoldsAfterAppend<K>(a: seq<Segment<K>>, b: seq<Segment<K>>, body: K -> seq<byte>, from: int, bytes: seq<byte>)
    requires StreamHolds(a, body, from, bytes)
    ensures StreamHolds(a + b, body, from, bytes)
  {
    forall i | 0 <= i < |bytes|
      ensures ByteAt(a + b, body, from + i) == Some(bytes[i])
    {
      LookupConcat(a, b, from + i);
      assert ByteAt(a, body, from + i) == Some(bytes[i]);
    }
  }

  lemma HoldsConcat<K>(segs: seq<Segment<K>>, body: K -> seq<byte>, from: int, a: seq<byte>, b: seq<byte>)
    requires StreamHolds(segs, body, from, a) && StreamHolds(segs, body, from + |a|, b)
    ensures StreamHolds(segs, body, from, a + b)
  {
    forall i | 0 <= i < |a + b|
      ensures ByteAt(segs, body, from + i) == Some((a + b)[i])
    {
      if i >= |a| { assert ByteAt(segs, body, from + |a| + (i - |a|)) == Some(b[i - |a|]); }
    }
  }

  /** A piece of one segment's body is what the stream holds at that segment. */
  lemma PieceIsHeld<K>(segs: seq<Segment<K>>, total: int, body: K -> seq<byte>, s: Segment<K>, offset: nat,
                       piece: seq<byte>)
    requires Contiguous(segs, total) && s in segs && offset + |piece| <= s.byteSize
    requires offset + |piece| <= |body(s.key)| && piece == body(s.key)[offset..offset + |piece|]
    ensures StreamHolds(segs, body, s.byteOffset + offset, piece)
  {
    forall i | 0 <= i < |piece|
      ensures ByteAt(segs, body, s.byteOffset + offset + i) == Some(piece[i])
    {
      LookupExact(segs, total, s.byteOffset + offset + i);
    }
  }

  // ---- Appending ----

  /** One more segment at the end of the running totals. */
  function Append<K>(segs: seq<Segment<K>>, totalBytes: int, totalMs: int, key: K, byteSize: int): seq<Segment<K>> {
    segs + [Segment(key, totalBytes, byteSize, totalMs)]
  }

  lemma AppendStaysContiguous<K>(segs: seq<Segment<K>>, totalBytes: int, totalMs: int, key: K, byteSize: nat)
    requires Contiguous(segs, totalBytes)
    ensures Contiguous(Append(segs, totalBytes, totalMs, key, byteSize), totalBytes + byteSize)
    ensures segs <= Append(segs, totalBytes, totalMs, key, byteSize)
  {
    var t := Append(segs, totalBytes, totalMs, key, byteSize);
    assert forall i :: 0 <= i < |segs| ==> t[i] == segs[i];
    forall i, j | 0 <= i && j == i + 1 && j < |t|
      ensures t[i].End() == t[j].byteOffset
    {
      if j < |segs| { assert t[j] == segs[j]; }
    }
  }

  /** A head that runs into a tail runs into any contiguous list that goes on from that tail. */
  lemma GoesOnContiguously<K>(head: seq<Segment<K>>, tail: seq<Segment<K>>, longer: seq<Segment<K>>, end: int,
                              total: int)
    requires Contiguous(head + tail, end) && Contiguous(longer, total) && tail <= longer && tail != []
    ensures Contiguous(head + longer, total)
  {
    var all, grown := head + tail, head + longer;
    assert forall i :: 0 <= i < |all| ==> grown[i] == all[i];
    assert forall i :: |head| <= i < |grown| ==> grown[i] == longer[i - |head|];
    forall i, j | 0 <= i && j == i + 1 && j < |grown|
      ensures grown[i].End() == grown[j].byteOffset
    {
      if j < |all| {
        assert all[i].End() == all[j].byteOffset;
      } else {
        assert longer[i - |head|].End() == longer[j - |head|].byteOffset;
      }
    }
  }

  lemma SuffixIsContiguous<K>(segs: seq<Segment<K>>, total: int, k: nat)
    requires Contiguous(segs, total) && k < |segs|
    ensures Contiguous(segs[k..], total)
  {
    var t := segs[k..];
    assert forall i :: 0 <= i < |t| ==> t[i] == segs[i + k];
    forall i, j | 0 <= i && j == i + 1 && j < |t|
      ensures t[i].End() == t[j].byteOffset
    {
      assert t[i] == segs[i + k] && t[j] == segs[j + k];
    }
  }

  // ---- Reads and seeks ----

  /** How much of one segment a read may take, or None when there is nothing to give. */
  function SegmentReadSize(offset: int, segmentSize: int, requested: nat): (size: Option<nat>)
    ensures size.Some? <==> 0 <= offset < segmentSize && requested > 0
    ensures size.Some? ==> 0 < size.value <= requested && offset + size.value <= segmentSize
    ensures size.Some? ==> size.value == requested || offset + size.value == segmentSize
  {
    if offset < 0 || offset >= segmentSize || requested == 0 then None
    else Some(Min(requested, segmentSize - offset))
  }

  const INT64_MAX := 0x7fff_ffff_ffff_ffff

  datatype Whence = FromStart | FromCurrent | FromEnd | OtherWhence

  /** None is the source's -1: an unknown whence or length, an overflowing sum, or a position before 0. */
  function ResolveSeek(position: int, whence: Whence, current: int, length: int): (r: Option<int>)
    ensures r.Some? ==> 0 <= r.value
    ensures whence.FromStart? && -INT64_MAX - 1 <= position <= INT64_MAX ==>
              r == if position < 0 then None else Some(position)
    ensures whence.FromEnd? && length < 0 ==> r.None?
    ensures whence.OtherWhence? ==> r.None?
    ensures whence.FromCurrent? && 0 <= current <= INT64_MAX && -INT64_MAX - 1 <= position <= INT64_MAX ==>
              r == if 0 <= current + position <= INT64_MAX then Some(current + position) else None
    ensures whence.FromEnd? && 0 <= length <= INT64_MAX && -INT64_MAX - 1 <= position <= INT64_MAX ==>
              r == if 0 <= length + position <= INT64_MAX then Some(length + position) else None
  {
    var base := match whence
                case FromStart => Some(0)
                case FromCurrent => Some(current)
                case FromEnd => if length < 0 then None else Some(length)
                case OtherWhence => None;
    if base.None? then None
    else if position > 0 && base.value > INT64_MAX - position then None
    else if position < 0 && base.value < -INT64_MAX - 1 - position then None
    else if base.value + position < 0 then None
    else Some(base.value + position)
  }

  // ---- The live edge margin ----

  function SizeSum<K>(segs: seq<Segment<K>>): int {
    if segs == [] then 0 else SizeSum(segs[..|segs| - 1]) + segs[|segs| - 1].byteSize
  }

  lemma {:induction false} SizeSumSpans<K>(segs: seq<Segment<K>>, total: int)
    requires Contiguous(segs, total) && segs != []
    ensures SizeSum(segs) == total - segs[0].byteOffset
  {
    var last := |segs| - 1;
    if last > 0 {
      SizeSumSpans(segs[..last], segs[last].byteOffset);
    } else {
      assert segs[..0] == [];
    }
  }

  /** The clamp target of a forward seek: the tail less the trailing segments' sizes, added up in a loop. */
  method ComputeLiveEdgeTailTarget<K>(segs: seq<Segment<K>>, totalBytes: int, margin: nat) returns (target: int)
    ensures target == TailTarget(segs, totalBytes, margin)
  {
    var backoffCount := Min(margin, |segs|);
    var backoffBytes := 0;
    ghost var tail := segs[|segs| - backoffCount..];
    for i := |segs| - backoffCount to |segs|
      invariant backoffBytes == SizeSum(tail[..i - (|segs| - backoffCount)])
    {
      ghost var k := i - (|segs| - backoffCount);
      assert tail[..k + 1][..k] == tail[..k] && tail[k] == segs[i];
      backoffBytes := backoffBytes + segs[i].byteSize;
    }
    assert tail[..|tail|] == tail;
    return Max(0, totalBytes - backoffBytes);
  }

  function TailTarget<K>(segs: seq<Segment<K>>, totalBytes: int, margin: nat): int {
    Max(0, totalBytes - SizeSum(segs[|segs| - Min(margin, |segs|)..]))
  }

  function StartPosition<K>(segs: seq<Segment<K>>, totalBytes: int, margin: nat): int {
    var marginIndex := if |segs| > margin then |segs| - margin else 0;
    if marginIndex < |segs| then segs[marginIndex].byteOffset else totalBytes
  }

  /** On a contiguous address space the byte-sum target and the index-based start position are the same byte. */
  lemma TailTargetIsStartPosition<K>(segs: seq<Segment<K>>, total: int, margin: nat)
    requires Contiguous(segs, total)
    ensures TailTarget(segs, total, margin) == StartPosition(segs, total, margin)
    ensures 0 <= TailTarget(segs, total, margin) <= total
    ensures segs != [] ==> segs[0].byteOffset <= TailTarget(segs, total, margin)
  {
    var k := |segs| - Min(margin, |segs|);
    if k < |segs| {
      SizeSumSpans(segs[k..], total);
      if k + 1 < |segs| { OffsetsGrow(segs, total, k, |segs| - 1); }
      if 0 < k { OffsetsGrow(segs, total, 0, k); }
    } else {
      assert segs[k..] == [];
      if |segs| > 1 { OffsetsGrow(segs, total, 0, |segs| - 1); }
    }
  }

  function ClampSeekToTail(requested: int, current: int, tailTarget: int): int {
    if requested <= tailTarget then requested else Max(tailTarget, Min(current, requested))
  }
}
