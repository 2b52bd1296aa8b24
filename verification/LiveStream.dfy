/**
 The live timeshift stream's address space (src/DispatcharrClient.cpp, src/LiveEdgeMargin.h): manifests
 merged at the tail, rolled-off segments pruned at the head, the opening trim, and seeking between them.
 */
module LiveStream {
  import opened Common
  import opened Segments
  import opened LiveManifest

  const MARGIN := 3

  datatype LiveKey = LiveKey(sequence: int, filename: string)

  type LiveSegment = Segment<LiveKey>

  datatype Manifest = Manifest(raw: seq<RawEntry>, ended: bool)

  datatype Live = Live(segs: seq<LiveSegment>, totalBytes: int, totalMs: int, oldest: int, ended: bool, position: int)

  const EMPTY := Live([], 0, 0, -1, false, 0)

  function LastSequence(segs: seq<LiveSegment>): int {
    if segs == [] then -1 else segs[|segs| - 1].key.sequence
  }

  // ---- The operations ----

  function AppendEntry(s: Live, e: Entry): Live {
    s.(segs := Append(s.segs, s.totalBytes, s.totalMs, LiveKey(e.sequence, e.filename), e.byteSize),
    totalBytes := s.totalBytes + e.byteSize,
    totalMs := s.totalMs + e.durationMs)
  }

  function AppendAll(s: Live, entries: seq<Entry>): Live
    decreases |entries|
  {
    if entries == [] then s else AppendAll(AppendEntry(s, entries[0]), entries[1..])
  }

  function Merge(s: Live, m: Manifest): Live {
    var merged := AppendAll(s, NewEntries(m.raw, LastSequence(s.segs)));
    merged.(ended := s.ended || m.ended, oldest := Max(s.oldest, Oldest(m.raw)))
  }

  function FirstAvailable(segs: seq<LiveSegment>, oldest: int): (index: nat)
    ensures index <= |segs|
    ensures forall i :: 0 <= i < index ==> segs[i].key.sequence < oldest
    ensures index < |segs| && oldest >= 0 ==> oldest <= segs[index].key.sequence
  {
    if segs == [] || oldest < 0 || oldest <= segs[0].key.sequence then 0
    else 1 + FirstAvailable(segs[1..], oldest)
  }

  lemma {:induction false} IsFirstAvailable(segs: seq<LiveSegment>, oldest: int, k: nat)
    requires 0 <= oldest && k <= |segs| && (k < |segs| ==> oldest <= segs[k].key.sequence)
    requires forall i :: 0 <= i < k ==> segs[i].key.sequence < oldest
    ensures FirstAvailable(segs, oldest) == k
  {
    if k > 0 { IsFirstAvailable(segs[1..], oldest, k - 1); }
  }

  function FirstAvailableOffset(s: Live): int { HeadOffset(s.segs, s.oldest) }

  function HeadOffset(segs: seq<LiveSegment>, oldest: int): int {
    var index := FirstAvailable(segs, oldest);
    if index < |segs| then segs[index].byteOffset else 0
  }

  function Prune(s: Live): Live {
    if |s.segs| < 2 then s
    else s.(segs := s.segs[Min(FirstAvailable(s.segs, s.oldest), |s.segs| - 1)..])
  }

  function Refresh(s: Live, m: Manifest): Live { Prune(Merge(s, m)) }

  function Shifted(seg: LiveSegment, byteBase: int, timeBase: int): LiveSegment {
    seg.(byteOffset := seg.byteOffset - byteBase, timeOffsetMs := seg.timeOffsetMs - timeBase)
  }

  function Rebased(segs: seq<LiveSegment>, byteBase: int, timeBase: int): (r: seq<LiveSegment>)
    ensures |r| == |segs|
    ensures forall i :: 0 <= i < |segs| ==> r[i] == Shifted(segs[i], byteBase, timeBase)
  {
    seq(|segs|, i requires 0 <= i < |segs| => Shifted(segs[i], byteBase, timeBase))
  }

  function Trim(s: Live, margin: nat): Live {
    if |s.segs| <= margin then s
    else if margin == 0 then s.(segs := [], totalBytes := 0, totalMs := 0)
    else StartingAt(s, s.segs[|s.segs| - margin..])
  }

  /** Only `kept` is left, and its first segment becomes byte and time 0. */
  function StartingAt(s: Live, kept: seq<LiveSegment>): Live
    requires kept != []
  {
    s.(segs := Rebased(kept, kept[0].byteOffset, kept[0].timeOffsetMs),
    totalBytes := s.totalBytes - kept[0].byteOffset,
    totalMs := s.totalMs - kept[0].timeOffsetMs)
  }

  /** The end of the open: keep only the live edge, and start reading there. */
  function TrimAndStart(s: Live): Live {
    var t := Trim(s, MARGIN);
    t.(position := StartPosition(t.segs, t.totalBytes, MARGIN))
  }

  datatype SeekResolution = SeekResolution(position: int, clampedToTail: bool, clampedToHead: bool)

  function ResolveLiveSeekTarget(requested: int, current: int, tailTarget: int, firstAvailable: int): SeekResolution {
    var clampedToTail := requested > tailTarget;
    var held := if clampedToTail then ClampSeekToTail(requested, current, tailTarget) else requested;
    SeekResolution(Max(held, firstAvailable), clampedToTail, held < firstAvailable)
  }

  /** Where a seek to the non-negative byte `requested` lands. */
  function SeekTarget(s: Live, requested: int): int {
    var tailTarget := TailTarget(s.segs, s.totalBytes, MARGIN);
    ResolveLiveSeekTarget(requested, s.position, tailTarget, FirstAvailableOffset(s)).position
  }

  function Seek(s: Live, position: int, whence: Whence): Option<int> {
    match ResolveSeek(position, whence, s.position, s.totalBytes)
    case None => None
    case Some(requested) => Some(SeekTarget(s, requested))
  }

  /** A read first moves a position the rolling buffer has let go of up to the oldest byte it still holds. */
  function CatchUpToHead(s: Live): Live { s.(position := Max(s.position, FirstAvailableOffset(s))) }

  // ---- The same operations as the client runs them ----

  method FirstAvailableLiveSegmentIndex(segs: seq<LiveSegment>, oldest: int) returns (index: nat)
    requires Ordered(segs)
    ensures index == FirstAvailable(segs, oldest)
  {
    if oldest < 0 { return 0; }
    var lo, hi := 0, |segs|;
    while lo < hi
      invariant 0 <= lo <= hi <= |segs|
      invariant forall i :: 0 <= i < lo ==> segs[i].key.sequence < oldest
      invariant forall i :: hi <= i < |segs| ==> oldest <= segs[i].key.sequence
    {
      var mid := (lo + hi) / 2;
      if segs[mid].key.sequence < oldest { lo := mid + 1; } else { hi := mid; }
    }
    index := lo;
    IsFirstAvailable(segs, oldest, lo);
  }

  class LiveTimeshiftStream {
    var segments: seq<LiveSegment>
    var totalBytes: int
    var totalDurationMs: int
    var oldestAvailableSequence: int
    var ended: bool
    var position: int

    function View(): Live
      reads this
    {
      Live(segments, totalBytes, totalDurationMs, oldestAvailableSequence, ended, position)
    }

    constructor ()
      ensures View() == EMPTY
    {
      segments, totalBytes, totalDurationMs, oldestAvailableSequence, ended, position := [], 0, 0, -1, false, 0;
    }

    method AppendEntries(entries: seq<Entry>)
      modifies this`segments, this`totalBytes, this`totalDurationMs
      ensures View() == AppendAll(old(View()), entries) && Laid(old(View()), View(), entries)
    {
      ghost var before := View();
      for i := 0 to |entries|
        invariant AppendAll(View(), entries[i..]) == AppendAll(old(View()), entries)
      {
        assert entries[i..][1..] == entries[i + 1..];
        var e := entries[i];
        var byteOffset, timeOffsetMs := totalBytes, totalDurationMs;
        totalBytes := totalBytes + e.byteSize;
        totalDurationMs := totalDurationMs + e.durationMs;
        segments := segments + [Segment(LiveKey(e.sequence, e.filename), byteOffset, e.byteSize, timeOffsetMs)];
      }
      AppendAllLays(before, entries);
    }

    /** The merge under the state lock: append what is new, move the oldest sequence forward, prune. */
    method MergeManifest(m: Manifest)
      requires LiveInv(View())
      modifies this
      ensures View() == Refresh(old(View()), m)
    {
      var lastKnownSequence := if segments == [] then -1 else segments[|segments| - 1].key.sequence;
      var entries := ParseNewLiveManifestSegments(m.raw, lastKnownSequence);
      AppendEntries(entries);
      if m.ended { ended := true; }
      var oldestSequence := OldestLiveManifestSequence(m.raw);
      if oldestSequence > oldestAvailableSequence { oldestAvailableSequence := oldestSequence; }
      assert View() == Merge(old(View()), m);
      MergeKeepsInv(old(View()), m);
      var _ := PruneRolledOff();
    }

    method PruneRolledOff() returns (dropped: nat)
      requires LiveInv(View())
      modifies this
      ensures View() == Prune(old(View())) && |segments| + dropped == old(|segments|)
    {
      if |segments| < 2 { return 0; }
      var firstAvailable := FirstAvailableLiveSegmentIndex(segments, oldestAvailableSequence);
      dropped := Min(firstAvailable, |segments| - 1);
      segments := segments[dropped..];
    }

    method TrimToTrailingLiveEdgeMargin(margin: nat)
      modifies this
      ensures View() == Trim(old(View()), margin)
    {
      if |segments| <= margin { return; }
      if margin == 0 {
        segments, totalBytes, totalDurationMs := [], 0, 0;
        return;
      }
      var dropCount := |segments| - margin;
      var byteBase, timeBase := segments[dropCount].byteOffset, segments[dropCount].timeOffsetMs;
      segments := segments[dropCount..];
      ghost var kept := segments;
      for i := 0 to |segments|
        invariant |segments| == |kept| && totalBytes == old(totalBytes) && totalDurationMs == old(totalDurationMs)
        invariant oldestAvailableSequence == old(oldestAvailableSequence)
        invariant ended == old(ended) && position == old(position)
        invariant forall k :: 0 <= k < i ==> segments[k] == Shifted(kept[k], byteBase, timeBase)
        invariant forall k :: i <= k < |kept| ==> segments[k] == kept[k]
      {
        segments := segments[i := Shifted(segments[i], byteBase, timeBase)];
      }
      assert segments == Rebased(kept, byteBase, timeBase);
      totalBytes := totalBytes - byteBase;
      totalDurationMs := totalDurationMs - timeBase;
    }

    method StartAtLiveEdge()
      modifies this
      ensures View() == TrimAndStart(old(View()))
    {
      TrimToTrailingLiveEdgeMargin(MARGIN);
      var marginIndex := if |segments| > MARGIN then |segments| - MARGIN else 0;
      position := if marginIndex < |segments| then segments[marginIndex].byteOffset else totalBytes;
    }

    method FirstAvailableLiveByteOffset() returns (offset: int)
      requires LiveInv(View())
      ensures offset == FirstAvailableOffset(View())
    {
      var index := FirstAvailableLiveSegmentIndex(segments, oldestAvailableSequence);
      return if index < |segments| then segments[index].byteOffset else 0;
    }

    /** The seek itself, on an open stream that is not dead; -1 leaves the position alone. */
    method SeekStream(offset: int, whence: Whence) returns (landed: int)
      requires LiveInv(View())
      modifies this`position
      ensures match Seek(old(View()), offset, whence)
              case None => landed == -1 && position == old(position)
              case Some(target) => landed == target && position == target
      ensures var asked := ResolveSeek(offset, whence, old(position), totalBytes);
              asked.Some? ==>
                var head, edge := FirstAvailableOffset(old(View())), EdgeOf(old(View()));
                landed == if asked.value <= edge then Max(head, asked.value)
                          else Max(Max(edge, head), Min(old(position), asked.value))
    {
      ghost var before := View();
      var requested := ResolveSeek(offset, whence, position, totalBytes);
      if requested.None? { return -1; }
      var tailTarget := ComputeLiveEdgeTailTarget(segments, totalBytes, MARGIN);
      var firstAvailable := FirstAvailableLiveByteOffset();
      landed := requested.value;
      if requested.value > tailTarget { landed := ClampSeekToTail(requested.value, position, tailTarget); }
      if landed < firstAvailable { landed := firstAvailable; }
      position := landed;
      SeekLandsExactly(before, requested.value);
    }
  }

  // ---- The invariant ----

  ghost predicate Ordered(segs: seq<LiveSegment>) {
    && (forall i :: 0 <= i < |segs| ==> 0 <= segs[i].key.sequence && 0 < segs[i].byteSize)
    && (forall i, j :: 0 <= i < j < |segs| ==> segs[i].key.sequence < segs[j].key.sequence)
  }

  ghost predicate TimesGrow(segs: seq<LiveSegment>, totalMs: int) {
    && (forall i :: 0 <= i < |segs| ==> 0 <= segs[i].timeOffsetMs <= totalMs)
    && (forall i, j :: 0 <= i < j < |segs| ==> segs[i].timeOffsetMs <= segs[j].timeOffsetMs)
    && 0 <= totalMs
  }

  /** The list and its totals: contiguous, ordered, timed, and starting from nothing. */
  ghost predicate ListInv(segs: seq<LiveSegment>, totalBytes: int, totalMs: int) {
    && Contiguous(segs, totalBytes)
    && Ordered(segs)
    && TimesGrow(segs, totalMs)
    && (segs == [] ==> totalBytes == 0)
  }

  ghost predicate LiveInv(s: Live) {
    ListInv(s.segs, s.totalBytes, s.totalMs) && 0 <= s.position <= s.totalBytes
  }

  lemma AppendEntryKeepsList(s: Live, e: Entry)
    requires ListInv(s.segs, s.totalBytes, s.totalMs) && e.Valid() && LastSequence(s.segs) < e.sequence
    ensures var t := AppendEntry(s, e);
            ListInv(t.segs, t.totalBytes, t.totalMs) && LastSequence(t.segs) == e.sequence && s.segs <= t.segs
  {
    var seg := Segment(LiveKey(e.sequence, e.filename), s.totalBytes, e.byteSize, s.totalMs);
    AppendStaysContiguous(s.segs, s.totalBytes, s.totalMs, seg.key, e.byteSize);
    OrderedAppend(s.segs, seg);
    TimesAppend(s.segs, s.totalMs, seg, e.durationMs);
  }

  lemma OrderedAppend(segs: seq<LiveSegment>, seg: LiveSegment)
    requires Ordered(segs) && LastSequence(segs) < seg.key.sequence && 0 <= seg.key.sequence && 0 < seg.byteSize
    ensures Ordered(segs + [seg])
  {
    assert forall i :: 0 <= i < |segs| ==> segs[i].key.sequence <= LastSequence(segs);
  }

  lemma TimesAppend(segs: seq<LiveSegment>, totalMs: int, seg: LiveSegment, durationMs: nat)
    requires TimesGrow(segs, totalMs) && seg.timeOffsetMs == totalMs
    ensures TimesGrow(segs + [seg], totalMs + durationMs)
  {
  }

  lemma {:induction false} AppendAllKeepsList(s: Live, entries: seq<Entry>)
    requires ListInv(s.segs, s.totalBytes, s.totalMs) && Ascending(entries, LastSequence(s.segs))
    ensures var t := AppendAll(s, entries);
            && ListInv(t.segs, t.totalBytes, t.totalMs) && s.segs <= t.segs && s.totalBytes <= t.totalBytes
            && LastSequence(t.segs) == NewestOf(entries, LastSequence(s.segs))
            && t == s.(segs := t.segs, totalBytes := t.totalBytes, totalMs := t.totalMs)
    decreases |entries|
  {
    if entries != [] {
      AppendEntryKeepsList(s, entries[0]);
      AscendingTail(entries, LastSequence(s.segs));
      AppendAllKeepsList(AppendEntry(s, entries[0]), entries[1..]);
    }
  }

  lemma AscendingTail(entries: seq<Entry>, above: int)
    requires Ascending(entries, above) && entries != []
    ensures Ascending(entries[1..], entries[0].sequence)
    ensures NewestOf(entries[1..], entries[0].sequence) == NewestOf(entries, above)
  {
    var rest := entries[1..];
    assert forall i :: 0 <= i < |rest| ==> rest[i] == entries[i + 1];
  }

  lemma MergeKeepsList(s: Live, m: Manifest)
    requires ListInv(s.segs, s.totalBytes, s.totalMs)
    ensures var t := Merge(s, m);
            && ListInv(t.segs, t.totalBytes, t.totalMs) && s.segs <= t.segs && s.totalBytes <= t.totalBytes
            && t.position == s.position
            && LastSequence(t.segs) == NewestOf(NewEntries(m.raw, LastSequence(s.segs)), LastSequence(s.segs))
  {
    NewEntriesAscend(m.raw, LastSequence(s.segs));
    AppendAllKeepsList(s, NewEntries(m.raw, LastSequence(s.segs)));
  }

  lemma MergeKeepsInv(s: Live, m: Manifest)
    requires LiveInv(s)
    ensures LiveInv(Merge(s, m)) && Merge(s, m).position == s.position && s.segs <= Merge(s, m).segs
    ensures LastSequence(Merge(s, m).segs) == NewestOf(NewEntries(m.raw, LastSequence(s.segs)), LastSequence(s.segs))
    ensures Laid(s, Merge(s, m), NewEntries(m.raw, LastSequence(s.segs)))
  {
    MergeKeepsList(s, m);
    MergeLaysItsEntries(s, m);
  }

  lemma SuffixKeepsList(segs: seq<LiveSegment>, totalBytes: int, totalMs: int, k: nat)
    requires ListInv(segs, totalBytes, totalMs) && k < |segs|
    ensures ListInv(segs[k..], totalBytes, totalMs) && LastSequence(segs[k..]) == LastSequence(segs)
  {
    SuffixIsContiguous(segs, totalBytes, k);
    assert forall i :: 0 <= i < |segs[k..]| ==> segs[k..][i] == segs[i + k];
  }

  lemma PruneKeepsInv(s: Live)
    requires LiveInv(s)
    ensures LiveInv(Prune(s)) && LastSequence(Prune(s).segs) == LastSequence(s.segs)
  {
    if |s.segs| >= 2 {
      SuffixKeepsList(s.segs, s.totalBytes, s.totalMs, Min(FirstAvailable(s.segs, s.oldest), |s.segs| - 1));
    }
  }

  lemma RefreshKeepsInv(s: Live, m: Manifest)
    requires LiveInv(s)
    ensures LiveInv(Refresh(s, m))
    ensures LastSequence(Refresh(s, m).segs) == NewestOf(NewEntries(m.raw, LastSequence(s.segs)), LastSequence(s.segs))
  {
    MergeKeepsInv(s, m);
    PruneKeepsInv(Merge(s, m));
  }

  lemma RebasedIsContiguous(segs: seq<LiveSegment>, total: int, timeBase: int)
    requires Contiguous(segs, total) && segs != []
    ensures Contiguous(Rebased(segs, segs[0].byteOffset, timeBase), total - segs[0].byteOffset)
  {
    forall i | 0 < i < |segs|
      ensures segs[0].byteOffset <= segs[i].byteOffset <= total
    {
      OffsetsGrow(segs, total, 0, i);
    }
    var t := Rebased(segs, segs[0].byteOffset, timeBase);
    forall i, j | 0 <= i && j == i + 1 && j < |t|
      ensures t[i].End() == t[j].byteOffset
    {
      assert segs[i].End() == segs[j].byteOffset;
    }
  }

  lemma RebasedKeepsList(segs: seq<LiveSegment>, totalBytes: int, totalMs: int)
    requires ListInv(segs, totalBytes, totalMs) && segs != []
    ensures var byteBase, timeBase := segs[0].byteOffset, segs[0].timeOffsetMs;
            && ListInv(Rebased(segs, byteBase, timeBase), totalBytes - byteBase, totalMs - timeBase)
            && LastSequence(Rebased(segs, byteBase, timeBase)) == LastSequence(segs)
  {
    RebasedIsContiguous(segs, totalBytes, segs[0].timeOffsetMs);
  }

  lemma StartingAtKeepsList(s: Live, kept: seq<LiveSegment>)
    requires kept != [] && ListInv(kept, s.totalBytes, s.totalMs)
    ensures var t := StartingAt(s, kept);
            && ListInv(t.segs, t.totalBytes, t.totalMs) && |t.segs| == |kept|
            && LastSequence(t.segs) == LastSequence(kept) && t.segs[0].byteOffset == 0
  {
    RebasedKeepsList(kept, s.totalBytes, s.totalMs);
  }

  ghost predicate TrimOk(s: Live, t: Live, margin: nat) {
    && ListInv(t.segs, t.totalBytes, t.totalMs) && |t.segs| <= margin
    && LastSequence(t.segs) == LastSequence(s.segs)
    && (|s.segs| > margin ==> t.segs != [] && t.segs[0].byteOffset == 0)
  }

  lemma LongTrimIsOk(s: Live, margin: nat)
    requires ListInv(s.segs, s.totalBytes, s.totalMs) && |s.segs| > margin > 0
    ensures TrimOk(s, StartingAt(s, s.segs[|s.segs| - margin..]), margin)
  {
    SuffixKeepsList(s.segs, s.totalBytes, s.totalMs, |s.segs| - margin);
    StartingAtKeepsList(s, s.segs[|s.segs| - margin..]);
  }

  lemma TrimKeepsList(s: Live, margin: nat)
    requires ListInv(s.segs, s.totalBytes, s.totalMs) && margin > 0
    ensures TrimOk(s, Trim(s, margin), margin)
  {
    if |s.segs| > margin {
      LongTrimIsOk(s, margin);
      assert Trim(s, margin) == StartingAt(s, s.segs[|s.segs| - margin..]);
    } else {
      assert TrimOk(s, s, margin);
      assert Trim(s, margin) == s;
    }
  }

  lemma TrimKeepsInv(s: Live, margin: nat)
    requires LiveInv(s) && margin > 0
    ensures var t := Trim(s, margin);
            var started := t.(position := StartPosition(t.segs, t.totalBytes, margin));
            && LiveInv(started) && |t.segs| <= margin && LastSequence(t.segs) == LastSequence(s.segs)
            && (|s.segs| > margin ==> t.segs[0].byteOffset == 0 && started.position == 0)
  {
    TrimKeepsList(s, margin);
    var t := Trim(s, margin);
    TailTargetIsStartPosition(t.segs, t.totalBytes, margin);
  }

  lemma TrimAndStartKeepsInv(s: Live)
    requires LiveInv(s)
    ensures LiveInv(TrimAndStart(s)) && LastSequence(TrimAndStart(s).segs) == LastSequence(s.segs)
    ensures |s.segs| > MARGIN ==> TrimAndStart(s).position == 0
  {
    TrimKeepsInv(s, MARGIN);
  }

  lemma FirstAvailableOffsetInside(s: Live)
    requires LiveInv(s)
    ensures 0 <= FirstAvailableOffset(s) <= s.totalBytes
  {
    var k := FirstAvailable(s.segs, s.oldest);
    if k < |s.segs| - 1 { OffsetsGrow(s.segs, s.totalBytes, k, |s.segs| - 1); }
  }

  // ---- Seeking ----

  /** The rolling buffer has let go of every segment this stream knows. */
  predicate Overtaken(s: Live) { s.segs != [] && LastSequence(s.segs) < s.oldest }

  /** A place a reader can continue from: a byte of a segment the buffer still lists, or the tail. */
  ghost predicate Held(s: Live, position: int) {
    || position == s.totalBytes
    || (Lookup(s.segs, position).Some? && s.oldest <= Lookup(s.segs, position).value.key.sequence)
  }

  lemma ResolvedInside(requested: int, current: int, tailTarget: int, firstAvailable: int, total: int)
    requires 0 <= requested && 0 <= current <= total && 0 <= tailTarget <= total && 0 <= firstAvailable <= total
    ensures var landed := ResolveLiveSeekTarget(requested, current, tailTarget, firstAvailable).position;
            && firstAvailable <= landed <= total && landed <= Max(requested, firstAvailable)
            && (requested >= current ==> landed >= current)
  {
  }

  /** Where a seek may land: inside the stream, not before the first available byte, not backward on a
      forward request, and past the request only when the head has moved past it. */
  lemma SeekLandsInside(s: Live, requested: int)
    requires LiveInv(s) && 0 <= requested
    ensures FirstAvailableOffset(s) <= SeekTarget(s, requested) <= s.totalBytes
    ensures requested >= s.position ==> SeekTarget(s, requested) >= s.position
    ensures SeekTarget(s, requested) <= Max(requested, FirstAvailableOffset(s))
    ensures LiveInv(s.(position := SeekTarget(s, requested)))
  {
    var tailTarget := TailTarget(s.segs, s.totalBytes, MARGIN);
    assert 0 <= tailTarget <= s.totalBytes by { TailTargetIsStartPosition(s.segs, s.totalBytes, MARGIN); }
    FirstAvailableOffsetInside(s);
    ResolvedInside(requested, s.position, tailTarget, FirstAvailableOffset(s), s.totalBytes);
  }

  /** Every seek lands on held bytes exactly when the buffer has not overtaken the whole list. */
  lemma SeeksLandOnHeldBytesIff(s: Live)
    requires LiveInv(s)
    ensures (forall requested | 0 <= requested :: Held(s, SeekTarget(s, requested))) <==> !Overtaken(s)
  {
    if Overtaken(s) {
      TailTargetIsStartPosition(s.segs, s.totalBytes, MARGIN);
      assert FirstAvailable(s.segs, s.oldest) == |s.segs|;
      assert SeekTarget(s, 0) == 0 < s.totalBytes by {
        if |s.segs| > 1 { OffsetsGrow(s.segs, s.totalBytes, 0, |s.segs| - 1); }
      }
      LookupIsMember(s.segs, 0);
      assert !Held(s, SeekTarget(s, 0));
    } else {
      forall requested | 0 <= requested
        ensures Held(s, SeekTarget(s, requested))
      {
        SeekLandsInside(s, requested);
        FromHeadIsHeld(s, SeekTarget(s, requested));
      }
    }
  }

  lemma OneEntryIsKnown(raw: RawEntry)
    requires Usable(raw)
    ensures var s := Refresh(EMPTY, Manifest([raw], false));
            LiveInv(s) && s.segs != [] && LastSequence(s.segs) == raw.sequence
  {
    assert [raw][1..] == [] && NewEntries([raw], -1) == [Cleaned(raw)];
    RefreshKeepsInv(EMPTY, Manifest([raw], false));
  }

  /** The failing state is reached from any known segment by a manifest that lists only an unusable later entry. */
  lemma UnusableEntryOvertakes(s: Live, raw: RawEntry, ended: bool)
    requires LiveInv(s) && s.segs != [] && LastSequence(s.segs) < raw.sequence && !Usable(raw)
    ensures Overtaken(Refresh(s, Manifest([raw], ended)))
  {
    assert [raw][1..] == [] && NewEntries([raw], LastSequence(s.segs)) == [];
    RefreshKeepsInv(s, Manifest([raw], ended));
    OldestIsLeast([raw]);
    assert raw in [raw];
  }

  /** At one input: sequence 1 is known, then the server lists only sequence 5 with no bytes, and a seek hits a gap. */
  lemma BufferCanOvertake()
    ensures var s := Refresh(Refresh(EMPTY, Manifest([RawEntry(1, "a", 10, 0)], false)),
                             Manifest([RawEntry(5, "b", 0, 0)], false));
            LiveInv(s) && Overtaken(s) && exists requested :: 0 <= requested && !Held(s, SeekTarget(s, requested))
  {
    var known := Refresh(EMPTY, Manifest([RawEntry(1, "a", 10, 0)], false));
    OneEntryIsKnown(RawEntry(1, "a", 10, 0));
    UnusableEntryOvertakes(known, RawEntry(5, "b", 0, 0), false);
    RefreshKeepsInv(known, Manifest([RawEntry(5, "b", 0, 0)], false));
    SeeksLandOnHeldBytesIff(Refresh(known, Manifest([RawEntry(5, "b", 0, 0)], false)));
  }

  /** A first manifest of four segments of ten bytes. */
  const FOUR := Manifest([RawEntry(1, "a", 10, 0), RawEntry(2, "b", 10, 0), RawEntry(3, "c", 10, 0),
                          RawEntry(4, "d", 10, 0)], false)

  lemma FourEntriesAreNew()
    ensures NewEntries(FOUR.raw, -1) == [Entry(1, "a", 10, 0), Entry(2, "b", 10, 0), Entry(3, "c", 10, 0),
                                         Entry(4, "d", 10, 0)]
  {
    var raw := FOUR.raw;
    assert raw[3..] == [raw[3]] && raw[3..][1..] == [] && NewEntries(raw[3..], 3) == [Cleaned(raw[3])];
    assert raw[2..][1..] == raw[3..] && NewEntries(raw[2..], 2) == [Cleaned(raw[2])] + NewEntries(raw[3..], 3);
    assert raw[1..][1..] == raw[2..] && NewEntries(raw[1..], 1) == [Cleaned(raw[1])] + NewEntries(raw[2..], 2);
  }

  lemma FourEntriesAreKnown()
    ensures var s := Refresh(EMPTY, FOUR);
            |s.segs| == 4 && Lookup(s.segs, 0).Some? && Lookup(s.segs, 0).value.key.sequence == 1
  {
    FourEntriesAreNew();
    var es := NewEntries(FOUR.raw, -1);
    var s1 := AppendEntry(EMPTY, es[0]);
    var s2 := AppendEntry(s1, es[1]);
    var s3 := AppendEntry(s2, es[2]);
    var s4 := AppendEntry(s3, es[3]);
    assert es[3..][1..] == [] && AppendAll(s3, es[3..]) == AppendAll(s4, []) == s4;
    assert es[2..][1..] == es[3..] && AppendAll(s2, es[2..]) == s4;
    assert es[1..][1..] == es[2..] && AppendAll(s1, es[1..]) == s4;
    OldestIsLeast(FOUR.raw);
    assert FOUR.raw[0].sequence == 1;
    assert s4.segs[0].Covers(0);
  }

  lemma FromHeadIsHeld(s: Live, position: int)
    requires LiveInv(s) && !Overtaken(s) && FirstAvailableOffset(s) <= position <= s.totalBytes
    ensures Held(s, position)
  {
    if position < s.totalBytes {
      var k := FirstAvailable(s.segs, s.oldest);
      assert k < |s.segs|;
      if 0 < k { OffsetsGrow(s.segs, s.totalBytes, 0, k); }
      LookupExact(s.segs, s.totalBytes, position);
      LookupIsMember(s.segs, position);
      var i :| 0 <= i < |s.segs| && s.segs[i] == Lookup(s.segs, position).value;
      if i < k { OffsetsGrow(s.segs, s.totalBytes, i, k); }
    }
  }

  // ---- Runs ----

  datatype Op =
    | Refreshed(manifest: Manifest)
    | Trimmed(margin: nat)
    | Sought(offset: int, whence: Whence)
    | CaughtUp
    | Advanced(bytes: nat)

  predicate Enabled(s: Live, op: Op) {
    match op
    case Trimmed(margin) => margin > 0
    case Advanced(bytes) => s.position + bytes <= s.totalBytes
    case _ => true
  }

  /** `pruning` off is the reference that never forgets a segment. */
  function Step(s: Live, op: Op, pruning: bool): Live {
    match op
    case Refreshed(m) => if pruning then Refresh(s, m) else Merge(s, m)
    case Trimmed(margin) => var t := Trim(s, margin); t.(position := StartPosition(t.segs, t.totalBytes, margin))
    case Sought(offset, whence) =>
      (match Seek(s, offset, whence) case None => s case Some(target) => s.(position := target))
    case CaughtUp => CatchUpToHead(s)
    case Advanced(bytes) => s.(position := s.position + bytes)
  }

  function Run(s: Live, ops: seq<Op>, pruning: bool): Live {
    if ops == [] then s else Step(Run(s, ops[..|ops| - 1], pruning), ops[|ops| - 1], pruning)
  }

  predicate Runs(s: Live, ops: seq<Op>) {
    ops == [] || (Runs(s, ops[..|ops| - 1]) && Enabled(Run(s, ops[..|ops| - 1], true), ops[|ops| - 1]))
  }

  lemma StepKeepsInv(s: Live, op: Op)
    requires LiveInv(s) && Enabled(s, op)
    ensures LiveInv(Step(s, op, true))
    ensures !op.Refreshed? ==> LastSequence(Step(s, op, true).segs) == LastSequence(s.segs)
  {
    match op
    case Refreshed(m) => RefreshKeepsInv(s, m);
    case Trimmed(margin) => TrimKeepsInv(s, margin);
    case Sought(offset, whence) =>
      var r := ResolveSeek(offset, whence, s.position, s.totalBytes);
      if r.Some? { SeekLandsInside(s, r.value); }
    case CaughtUp => FirstAvailableOffsetInside(s);
    case Advanced(_) =>
  }

  /** Whatever is merged, pruned, trimmed, sought or read: contiguous, ordered, and the reader inside it. */
  lemma {:induction false} EveryRunKeepsTheAddressSpace(s: Live, ops: seq<Op>)
    requires LiveInv(s) && Runs(s, ops)
    ensures LiveInv(Run(s, ops, true))
  {
    if ops != [] {
      EveryRunKeepsTheAddressSpace(s, ops[..|ops| - 1]);
      StepKeepsInv(Run(s, ops[..|ops| - 1], true), ops[|ops| - 1]);
    }
  }

  /** What an operation appends. */
  function AppendedBy(s: Live, op: Op): seq<Entry> {
    if op.Refreshed? then NewEntries(op.manifest.raw, LastSequence(s.segs)) else []
  }

  function AppendedOver(s: Live, ops: seq<Op>): seq<Entry> {
    if ops == [] then []
    else AppendedOver(s, ops[..|ops| - 1]) + AppendedBy(Run(s, ops[..|ops| - 1], true), ops[|ops| - 1])
  }

  /** Over a whole run the appended sequences strictly increase: none is ever appended twice. */
  lemma {:induction false} NoSequenceIsAppendedTwice(s: Live, ops: seq<Op>)
    requires LiveInv(s) && Runs(s, ops)
    ensures Ascending(AppendedOver(s, ops), LastSequence(s.segs))
    ensures LastSequence(Run(s, ops, true).segs) == NewestOf(AppendedOver(s, ops), LastSequence(s.segs))
  {
    if ops != [] {
      var init, op := ops[..|ops| - 1], ops[|ops| - 1];
      NoSequenceIsAppendedTwice(s, init);
      EveryRunKeepsTheAddressSpace(s, init);
      var before := Run(s, init, true);
      StepKeepsInv(before, op);
      if op.Refreshed? {
        NewEntriesAscend(op.manifest.raw, LastSequence(before.segs));
        RefreshKeepsInv(before, op.manifest);
        AscendingConcat(AppendedOver(s, init), AppendedBy(before, op), LastSequence(s.segs));
      } else {
        assert AppendedOver(s, init) + [] == AppendedOver(s, init);
      }
    }
  }

  lemma AscendingConcat(a: seq<Entry>, b: seq<Entry>, above: int)
    requires Ascending(a, above) && Ascending(b, NewestOf(a, above))
    ensures Ascending(a + b, above) && NewestOf(a + b, above) == NewestOf(b, NewestOf(a, above))
  {
    assert forall i :: 0 <= i < |a| ==> a[i].sequence <= NewestOf(a, above);
  }

  /** A trim that keeps nothing would forget what is known: the next manifest is appended all over again. */
  lemma EmptyTrimAppendsAgain(s: Live, m: Manifest)
    requires LiveInv(s) && s.segs == [] && NewEntries(m.raw, -1) != []
    ensures var merged := Refresh(s, m);
            && AppendedBy(Trim(merged, 0), Refreshed(m)) == NewEntries(m.raw, -1)
            && AppendedBy(merged, Refreshed(m)) == []
  {
    RefreshKeepsInv(s, m);
    NewEntriesAscend(m.raw, -1);
    NothingTwice(m.raw, -1);
  }

  // ---- Pruning refines never pruning ----

  /** The pruned stream is the reference less a head of segments the buffer has let go of. */
  ghost predicate Refines(p: Live, r: Live, dropped: seq<LiveSegment>) {
    && r.segs == dropped + p.segs
    && (dropped != [] ==> p.segs != [])
    && (forall d :: d in dropped ==> d.key.sequence < p.oldest)
    && r.totalBytes == p.totalBytes && r.totalMs == p.totalMs && r.oldest == p.oldest && r.ended == p.ended
  }

  lemma {:induction false} AppendAllAlike(p: Live, r: Live, dropped: seq<LiveSegment>, entries: seq<Entry>)
    requires r.segs == dropped + p.segs && r.totalBytes == p.totalBytes && r.totalMs == p.totalMs
    ensures var p', r' := AppendAll(p, entries), AppendAll(r, entries);
            && r'.segs == dropped + p'.segs && r'.totalBytes == p'.totalBytes && r'.totalMs == p'.totalMs
            && p.segs <= p'.segs && p'.oldest == p.oldest && r'.oldest == r.oldest
    decreases |entries|
  {
    if entries != [] {
      var p', r' := AppendEntry(p, entries[0]), AppendEntry(r, entries[0]);
      assert r'.segs == dropped + p'.segs;
      assert p'.segs[..|p.segs|] == p.segs;
      AppendAllAlike(p', r', dropped, entries[1..]);
    }
  }

  lemma PruneRefines(p: Live, r: Live, dropped: seq<LiveSegment>) returns (more: seq<LiveSegment>)
    requires Refines(p, r, dropped)
    ensures Refines(Prune(p), r, more)
  {
    var k := if |p.segs| < 2 then 0 else Min(FirstAvailable(p.segs, p.oldest), |p.segs| - 1);
    more := dropped + p.segs[..k];
    assert p.segs == p.segs[..k] + p.segs[k..];
    assert r.segs == more + p.segs[k..];
    forall d | d in more
      ensures d.key.sequence < p.oldest
    {
      if d !in dropped {
        var i :| 0 <= i < k && p.segs[i] == d;
      }
    }
  }

  lemma StepRefines(p: Live, r: Live, dropped: seq<LiveSegment>, op: Op) returns (more: seq<LiveSegment>)
    requires Refines(p, r, dropped) && !op.Trimmed?
    ensures Refines(Step(p, op, true), Step(r, op, false), more)
    ensures AppendedBy(p, op) == AppendedBy(r, op)
  {
    more := dropped;
    if op.Refreshed? {
      var m := op.manifest;
      assert LastSequence(p.segs) == LastSequence(r.segs);
      AppendAllAlike(p, r, dropped, NewEntries(m.raw, LastSequence(p.segs)));
      assert Refines(Merge(p, m), Merge(r, m), dropped);
      more := PruneRefines(Merge(p, m), Merge(r, m), dropped);
    }
  }

  lemma {:induction false} RunRefines(s: Live, ops: seq<Op>) returns (dropped: seq<LiveSegment>)
    requires forall i :: 0 <= i < |ops| ==> !ops[i].Trimmed?
    ensures Refines(Run(s, ops, true), Run(s, ops, false), dropped)
    ensures s.segs <= Run(s, ops, false).segs
  {
    if ops == [] {
      dropped := [];
    } else {
      var init, op := ops[..|ops| - 1], ops[|ops| - 1];
      var d := RunRefines(s, init);
      dropped := StepRefines(Run(s, init, true), Run(s, init, false), d, op);
      if op.Refreshed? {
        var r := Run(s, init, false);
        AppendAllAlike(r, r, [], NewEntries(op.manifest.raw, LastSequence(r.segs)));
      }
    }
  }

  lemma {:induction false} FirstAvailableSkips(dropped: seq<LiveSegment>, segs: seq<LiveSegment>, oldest: int)
    requires forall d :: d in dropped ==> 0 <= d.key.sequence < oldest
    ensures FirstAvailable(dropped + segs, oldest) == |dropped| + FirstAvailable(segs, oldest)
  {
    if dropped == [] {
      assert dropped + segs == segs;
    } else {
      assert (dropped + segs)[1..] == dropped[1..] + segs;
      FirstAvailableSkips(dropped[1..], segs, oldest);
    }
  }

  /** What a reader, a seeker and the next merge can see of the two lists is the same. */
  lemma PrunedLooksTheSame(p: Live, r: Live, dropped: seq<LiveSegment>, position: int)
    requires Refines(p, r, dropped) && ReferenceOk(r)
    ensures FirstAvailableOffset(p) == FirstAvailableOffset(r)
    ensures p.segs != [] && p.segs[0].byteOffset <= position ==> Lookup(p.segs, position) == Lookup(r.segs, position)
    ensures LastSequence(p.segs) == LastSequence(r.segs)
  {
    forall d | d in dropped
      ensures 0 <= d.key.sequence
    {
      var i :| 0 <= i < |dropped| && dropped[i] == d;
      assert r.segs[i] == d;
    }
    FirstAvailableSkips(dropped, p.segs, p.oldest);
    if p.segs != [] && p.segs[0].byteOffset <= position { LookupFromTail(dropped, p.segs, r.totalBytes, position); }
  }

  ghost predicate ReferenceOk(r: Live) { ListInv(r.segs, r.totalBytes, r.totalMs) }

  lemma ReferenceStep(r: Live, op: Op)
    requires ReferenceOk(r) && !op.Trimmed?
    ensures ReferenceOk(Step(r, op, false))
  {
    if op.Refreshed? { MergeKeepsList(r, op.manifest); }
  }

  lemma {:induction false} ReferenceKeepsList(s: Live, ops: seq<Op>)
    requires LiveInv(s) && forall i :: 0 <= i < |ops| ==> !ops[i].Trimmed?
    ensures ReferenceOk(Run(s, ops, false))
  {
    if ops != [] {
      ReferenceKeepsList(s, ops[..|ops| - 1]);
      ReferenceStep(Run(s, ops[..|ops| - 1], false), ops[|ops| - 1]);
    }
  }

  /** Over any run after the opening trim, the pruned list and one that never forgets agree on the first
      available byte, on the segment at every position from the oldest survivor on, and on what the next
      manifest adds. */
  lemma PruningIsInvisible(s: Live, ops: seq<Op>, position: int, next: Manifest)
    requires LiveInv(s) && forall i :: 0 <= i < |ops| ==> !ops[i].Trimmed?
    ensures var p, r := Run(s, ops, true), Run(s, ops, false);
            && FirstAvailableOffset(p) == FirstAvailableOffset(r)
            && (p.segs != [] && p.segs[0].byteOffset <= position ==>
                  Lookup(p.segs, position) == Lookup(r.segs, position))
            && AppendedBy(p, Refreshed(next)) == AppendedBy(r, Refreshed(next))
  {
    var dropped := RunRefines(s, ops);
    ReferenceKeepsList(s, ops);
    PrunedLooksTheSame(Run(s, ops, true), Run(s, ops, false), dropped, position);
  }

  /** After the opening trim a byte that survives keeps denoting the same byte of the same segment. */
  lemma SurvivingBytesKeepTheirMeaning(s: Live, ops: seq<Op>, position: int)
    requires LiveInv(s) && forall i :: 0 <= i < |ops| ==> !ops[i].Trimmed?
    requires Lookup(s.segs, position).Some?
    requires Run(s, ops, true).segs != [] && Run(s, ops, true).segs[0].byteOffset <= position
    ensures Lookup(Run(s, ops, true).segs, position) == Lookup(s.segs, position)
  {
    var _ := RunRefines(s, ops);
    PruningIsInvisible(s, ops, position, Manifest([], false));
    LookupInLonger(s.segs, Run(s, ops, false).segs, position);
  }

  lemma {:induction false} LookupRebased(segs: seq<LiveSegment>, byteBase: int, timeBase: int, position: int)
    ensures Lookup(Rebased(segs, byteBase, timeBase), position - byteBase) ==
            match Lookup(segs, position)
            case None => None
            case Some(at) => Some(Shifted(at, byteBase, timeBase))
  {
    if segs != [] {
      assert Rebased(segs, byteBase, timeBase)[1..] == Rebased(segs[1..], byteBase, timeBase);
      LookupRebased(segs[1..], byteBase, timeBase, position);
    }
  }

  /** The opening trim shifts the space: every kept byte moves down by one fixed base. */
  lemma TrimShiftsBytes(s: Live, margin: nat, position: int)
    requires LiveInv(s) && 0 < margin < |s.segs| && s.segs[|s.segs| - margin].byteOffset <= position
    ensures var base := s.segs[|s.segs| - margin];
            Lookup(Trim(s, margin).segs, position - base.byteOffset) ==
            match Lookup(s.segs, position)
            case None => None
            case Some(at) => Some(Shifted(at, base.byteOffset, base.timeOffsetMs))
  {
    var k := |s.segs| - margin;
    assert s.segs == s.segs[..k] + s.segs[k..];
    LookupFromTail(s.segs[..k], s.segs[k..], s.totalBytes, position);
    LookupRebased(s.segs[k..], s.segs[k].byteOffset, s.segs[k].timeOffsetMs, position);
  }

  /** Seeks agree with the unpruned reference for every request exactly when pruning dropped nothing or
      the buffer still lists something this stream knows. */
  lemma SeeksAgreeIff(p: Live, r: Live, dropped: seq<LiveSegment>)
    requires Refines(p, r, dropped) && LiveInv(p) && LiveInv(r) && Prune(p) == p
    ensures (forall requested, current | 0 <= requested && 0 <= current <= p.totalBytes ::
               SeekTarget(p.(position := current), requested) == SeekTarget(r.(position := current), requested))
            <==> (dropped == [] || !Overtaken(p))
  {
    if dropped != [] && Overtaken(p) {
      OvertakenSeekDiffers(p, r, dropped);
    } else {
      forall requested, current | 0 <= requested && 0 <= current <= p.totalBytes
        ensures SeekTarget(p.(position := current), requested) == SeekTarget(r.(position := current), requested)
      {
        SeekAgrees(p, r, dropped, requested, current);
      }
    }
  }

  lemma PruneTwice(s: Live)
    ensures Prune(Prune(s)) == Prune(s)
  {
    if |s.segs| >= 2 {
      var k := FirstAvailable(s.segs, s.oldest);
      var d := Min(k, |s.segs| - 1);
      var kept := s.segs[d..];
      if k < |s.segs| && s.oldest >= 0 { IsFirstAvailable(kept, s.oldest, 0); }
      if |kept| >= 2 { assert kept[0] == s.segs[k]; }
    }
  }

  /** After any run that ends in a refresh, a seek on the pruned list lands where it would on one never pruned, for
      every request and reader position, exactly when nothing has been pruned or the buffer has not passed every
      known segment. */
  lemma SeeksAgreeAfterAnyRunIff(s: Live, ops: seq<Op>, m: Manifest)
    requires LiveInv(s) && forall i :: 0 <= i < |ops| ==> !ops[i].Trimmed?
    ensures var run := ops + [Refreshed(m)];
            var p, r := Run(s, run, true), Run(s, run, false);
            (forall requested, current | 0 <= requested && 0 <= current <= p.totalBytes ::
               SeekTarget(p.(position := current), requested) == SeekTarget(r.(position := current), requested))
            <==> (|p.segs| == |r.segs| || !Overtaken(p))
  {
    var run := ops + [Refreshed(m)];
    var p, r := Run(s, run, true).(position := 0), Run(s, run, false).(position := 0);
    var dropped := EndsPruned(s, ops, m);
    SeeksAgreeIff(p, r, dropped);
    assert forall current :: Run(s, run, true).(position := current) == p.(position := current);
    assert forall current :: Run(s, run, false).(position := current) == r.(position := current);
  }

  lemma EndsPruned(s: Live, ops: seq<Op>, m: Manifest) returns (dropped: seq<LiveSegment>)
    requires LiveInv(s) && forall i :: 0 <= i < |ops| ==> !ops[i].Trimmed?
    ensures var run := ops + [Refreshed(m)];
            var p, r := Run(s, run, true).(position := 0), Run(s, run, false).(position := 0);
            && Refines(p, r, dropped) && LiveInv(p) && LiveInv(r) && Prune(p) == p
  {
    var run := ops + [Refreshed(m)];
    assert run[..|run| - 1] == ops;
    dropped := RunRefines(s, run);
    ReferenceKeepsList(s, run);
    var p, r := Run(s, run, true).(position := 0), Run(s, run, false).(position := 0);
    PrunedKeepsInv(p, r, dropped);
    PruneTwice(Merge(Run(s, ops, true), m));
  }

  lemma PrunedKeepsInv(p: Live, r: Live, dropped: seq<LiveSegment>)
    requires Refines(p, r, dropped) && LiveInv(r) && p.position == r.position
    ensures LiveInv(p)
  {
    assert r.segs[|dropped|..] == p.segs;
    if p.segs != [] {
      SuffixKeepsList(r.segs, r.totalBytes, r.totalMs, |dropped|);
    } else {
      assert r.segs == [];
    }
  }

  /** Head over tail: a lower tail target changes nothing while the higher one is the first available byte. */
  lemma ResolvesAlike(requested: int, current: int, tp: int, tr: int, first: int)
    requires tr == tp || tr <= tp == first
    ensures ResolveLiveSeekTarget(requested, current, tp, first).position ==
            ResolveLiveSeekTarget(requested, current, tr, first).position
  {
  }

  lemma SeekAgrees(p: Live, r: Live, dropped: seq<LiveSegment>, requested: int, current: int)
    requires Refines(p, r, dropped) && LiveInv(p) && LiveInv(r) && Prune(p) == p
    requires dropped == [] || !Overtaken(p)
    ensures SeekTarget(p.(position := current), requested) == SeekTarget(r.(position := current), requested)
  {
    if dropped == [] {
      assert r.segs == p.segs;
    } else {
      TargetsForSeekAgree(p, r, dropped);
      ResolvesAlike(requested, current, TailTarget(p.segs, p.totalBytes, MARGIN),
                    TailTarget(r.segs, r.totalBytes, MARGIN), FirstAvailableOffset(p));
    }
  }

  lemma TargetsForSeekAgree(p: Live, r: Live, dropped: seq<LiveSegment>)
    requires Refines(p, r, dropped) && LiveInv(p) && LiveInv(r) && Prune(p) == p && dropped != [] && !Overtaken(p)
    ensures FirstAvailableOffset(p) == FirstAvailableOffset(r)
    ensures var tp, tr := TailTarget(p.segs, p.totalBytes, MARGIN), TailTarget(r.segs, r.totalBytes, MARGIN);
            tr == tp || (tr <= tp == FirstAvailableOffset(p))
  {
    PrunedLooksTheSame(p, r, dropped, 0);
    HeadIsFirst(p);
    TailTargetsAlike(p, r, dropped);
  }

  /** Once pruned, a stream the buffer has not overtaken starts at its first available byte. */
  lemma HeadIsFirst(p: Live)
    requires Prune(p) == p && p.segs != [] && !Overtaken(p)
    ensures FirstAvailableOffset(p) == p.segs[0].byteOffset
  {
    if |p.segs| >= 2 { NothingLeftToPrune(p); }
    assert FirstAvailable(p.segs, p.oldest) == 0;
  }

  lemma NothingLeftToPrune(p: Live)
    requires Prune(p) == p && |p.segs| >= 2
    ensures FirstAvailable(p.segs, p.oldest) == 0
  {
    var k := Min(FirstAvailable(p.segs, p.oldest), |p.segs| - 1);
    assert |Prune(p).segs| == |p.segs| - k;
  }

  lemma TailTargetsAlike(p: Live, r: Live, dropped: seq<LiveSegment>)
    requires Refines(p, r, dropped) && LiveInv(p) && LiveInv(r) && p.segs != []
    ensures var tp, tr := TailTarget(p.segs, p.totalBytes, MARGIN), TailTarget(r.segs, r.totalBytes, MARGIN);
            tr == tp || (tr <= tp == p.segs[0].byteOffset)
  {
    TailTargetIsStartPosition(p.segs, p.totalBytes, MARGIN);
    TailTargetIsStartPosition(r.segs, r.totalBytes, MARGIN);
    StartPositionsAlike(dropped, p.segs, p.totalBytes);
  }

  lemma StartPositionsAlike(dropped: seq<LiveSegment>, segs: seq<LiveSegment>, total: int)
    requires Contiguous(dropped + segs, total) && segs != []
    ensures var sp, sr := StartPosition(segs, total, MARGIN), StartPosition(dropped + segs, total, MARGIN);
            sr == sp || (sr <= sp == segs[0].byteOffset)
  {
    var all := dropped + segs;
    if |segs| > MARGIN {
      assert all[|all| - MARGIN] == segs[|segs| - MARGIN];
    } else {
      var i := if |all| > MARGIN then |all| - MARGIN else 0;
      assert all[|dropped|] == segs[0];
      if i < |dropped| { OffsetsGrow(all, total, i, |dropped|); }
    }
  }

  lemma OvertakenSeekDiffers(p: Live, r: Live, dropped: seq<LiveSegment>)
    requires Refines(p, r, dropped) && LiveInv(p) && LiveInv(r) && Prune(p) == p
    requires dropped != [] && Overtaken(p)
    ensures SeekTarget(p.(position := 0), p.totalBytes) != SeekTarget(r.(position := 0), p.totalBytes)
  {
    PrunedLooksTheSame(p, r, dropped, 0);
    OnlyTheLastIsLeft(p);
    TailTargetIsStartPosition(p.segs, p.totalBytes, MARGIN);
    TailTargetBefore(p, r, dropped);
  }

  lemma OnlyTheLastIsLeft(p: Live)
    requires LiveInv(p) && Prune(p) == p && Overtaken(p)
    ensures |p.segs| == 1 && FirstAvailableOffset(p) == 0
  {
    IsFirstAvailable(p.segs, p.oldest, |p.segs|);
    assert |Prune(p).segs| <= 1 || |p.segs| < 2;
  }

  lemma TailTargetBefore(p: Live, r: Live, dropped: seq<LiveSegment>)
    requires Refines(p, r, dropped) && LiveInv(r) && |p.segs| == 1 && dropped != []
    ensures TailTarget(r.segs, r.totalBytes, MARGIN) < p.segs[0].byteOffset
  {
    TailTargetIsStartPosition(r.segs, r.totalBytes, MARGIN);
    var i := if |r.segs| > MARGIN then |r.segs| - MARGIN else 0;
    assert i < |dropped| && r.segs[|dropped|] == p.segs[0];
    OffsetsGrow(r.segs, r.totalBytes, i, |dropped|);
  }

  // ---- What a merge lays ----

  function BytesOf(entries: seq<Entry>): int {
    if entries == [] then 0 else BytesOf(entries[..|entries| - 1]) + entries[|entries| - 1].byteSize
  }

  function MsOf(entries: seq<Entry>): int {
    if entries == [] then 0 else MsOf(entries[..|entries| - 1]) + entries[|entries| - 1].durationMs
  }

  /** `seg` is the entry behind `before`: its own file and size, at the bytes and the time all of them took. */
  predicate LaidAt(seg: LiveSegment, e: Entry, before: seq<Entry>, firstByte: int, firstMs: int) {
    && seg.key.sequence == e.sequence && seg.key.filename == e.filename && seg.byteSize == e.byteSize
    && seg.byteOffset == firstByte + BytesOf(before) && seg.timeOffsetMs == firstMs + MsOf(before)
  }

  /** `t` is `s` with exactly these entries laid behind it. */
  ghost predicate Laid(s: Live, t: Live, entries: seq<Entry>) {
    && |t.segs| == |s.segs| + |entries| && s.segs <= t.segs
    && t.totalBytes == s.totalBytes + BytesOf(entries) && t.totalMs == s.totalMs + MsOf(entries)
    && forall i :: 0 <= i < |entries| ==>
         LaidAt(t.segs[|s.segs| + i], entries[i], entries[..i], s.totalBytes, s.totalMs)
  }

  lemma LaidOneMore(s: Live, t: Live, entries: seq<Entry>, e: Entry)
    requires Laid(s, t, entries)
    ensures Laid(s, AppendEntry(t, e), entries + [e])
  {
    var u, all := AppendEntry(t, e), entries + [e];
    assert all[..|entries|] == entries;
    assert u.segs[..|s.segs|] == s.segs;
    forall i | 0 <= i < |all|
      ensures LaidAt(u.segs[|s.segs| + i], all[i], all[..i], s.totalBytes, s.totalMs)
    {
      if i < |entries| {
        assert all[..i] == entries[..i] && u.segs[|s.segs| + i] == t.segs[|s.segs| + i];
        assert LaidAt(t.segs[|s.segs| + i], entries[i], entries[..i], s.totalBytes, s.totalMs);
      }
    }
  }

  lemma {:induction false} AppendAllSnoc(s: Live, entries: seq<Entry>, e: Entry)
    ensures AppendAll(s, entries + [e]) == AppendEntry(AppendAll(s, entries), e)
    decreases |entries|
  {
    if entries == [] {
      assert [e][1..] == [] && entries + [e] == [e];
    } else {
      assert (entries + [e])[1..] == entries[1..] + [e];
      AppendAllSnoc(AppendEntry(s, entries[0]), entries[1..], e);
    }
  }

  lemma {:induction false} AppendAllLays(s: Live, entries: seq<Entry>)
    ensures Laid(s, AppendAll(s, entries), entries)
    decreases |entries|
  {
    if entries != [] {
      var init, last := entries[..|entries| - 1], entries[|entries| - 1];
      assert entries == init + [last];
      AppendAllLays(s, init);
      AppendAllSnoc(s, init, last);
      LaidOneMore(s, AppendAll(s, init), init, last);
    }
  }

  /** A merge lays each added entry with its own file and size at the sum of what came before it, byte and time alike,
      keeps what was there, remembers that the buffer ended, and moves the oldest sequence forward only. */
  lemma MergeLaysItsEntries(s: Live, m: Manifest)
    ensures var t := Merge(s, m);
            && Laid(s, t, NewEntries(m.raw, LastSequence(s.segs)))
            && (t.ended <==> s.ended || m.ended) && t.position == s.position
            && t.oldest >= s.oldest && t.oldest >= Oldest(m.raw) && (t.oldest == s.oldest || t.oldest == Oldest(m.raw))
  {
    var added := NewEntries(m.raw, LastSequence(s.segs));
    AppendAllLays(s, added);
    AppendAllTouchesOnlyTheList(s, added);
  }

  lemma {:induction false} AppendAllTouchesOnlyTheList(s: Live, entries: seq<Entry>)
    ensures var t := AppendAll(s, entries); t == s.(segs := t.segs, totalBytes := t.totalBytes, totalMs := t.totalMs)
    decreases |entries|
  {
    if entries != [] { AppendAllTouchesOnlyTheList(AppendEntry(s, entries[0]), entries[1..]); }
  }

  lemma {:induction false} SumsConcat(a: seq<Entry>, b: seq<Entry>)
    ensures BytesOf(a + b) == BytesOf(a) + BytesOf(b) && MsOf(a + b) == MsOf(a) + MsOf(b)
    decreases |b|
  {
    if b == [] {
      assert a + b == a;
    } else {
      assert (a + b)[..|a + b| - 1] == a + b[..|b| - 1];
      SumsConcat(a, b[..|b| - 1]);
    }
  }

  lemma LaidConcatAt(s: Live, t: Live, u: Live, a: seq<Entry>, b: seq<Entry>, i: nat)
    requires Laid(s, t, a) && Laid(t, u, b) && i < |a| + |b|
    ensures LaidAt(u.segs[|s.segs| + i], (a + b)[i], (a + b)[..i], s.totalBytes, s.totalMs)
  {
    if i < |a| {
      assert (a + b)[..i] == a[..i] && u.segs[|s.segs| + i] == t.segs[|s.segs| + i];
      assert LaidAt(t.segs[|s.segs| + i], a[i], a[..i], s.totalBytes, s.totalMs);
    } else {
      var k := i - |a|;
      assert (a + b)[..i] == a + b[..k] && |s.segs| + i == |t.segs| + k;
      SumsConcat(a, b[..k]);
      assert LaidAt(u.segs[|t.segs| + k], b[k], b[..k], t.totalBytes, t.totalMs);
    }
  }

  lemma PrefixOfPrefix(a: seq<LiveSegment>, b: seq<LiveSegment>, c: seq<LiveSegment>)
    requires a <= b && b <= c
    ensures a <= c
  {
  }

  lemma LaidConcat(s: Live, t: Live, u: Live, a: seq<Entry>, b: seq<Entry>)
    requires Laid(s, t, a) && Laid(t, u, b)
    ensures Laid(s, u, a + b)
  {
    SumsConcat(a, b);
    PrefixOfPrefix(s.segs, t.segs, u.segs);
    var all := a + b;
    forall i | 0 <= i < |all|
      ensures LaidAt(u.segs[|s.segs| + i], all[i], all[..i], s.totalBytes, s.totalMs)
    {
      LaidConcatAt(s, t, u, a, b, i);
    }
  }

  lemma StepLaysItsEntries(s: Live, r: Live, op: Op, before: seq<Entry>)
    requires Laid(s, r, before) && !op.Trimmed?
    ensures Laid(s, Step(r, op, false), before + AppendedBy(r, op))
  {
    if op.Refreshed? {
      MergeLaysItsEntries(r, op.manifest);
      LaidConcat(s, r, Merge(r, op.manifest), before, AppendedBy(r, op));
    } else {
      assert before + [] == before;
      assert Step(r, op, false) == r.(position := Step(r, op, false).position);
    }
  }

  lemma LaidNothing(s: Live)
    ensures Laid(s, s, [])
  {
  }

  /** Over any run after the opening trim the stream that never forgets is what it was at the start and then every entry
      appended since, one behind the other. The pruned stream is the end of that list (`RunRefines`). */
  lemma {:induction false} RunLaysItsEntries(s: Live, ops: seq<Op>)
    requires forall i :: 0 <= i < |ops| ==> !ops[i].Trimmed?
    ensures Laid(s, Run(s, ops, false), AppendedOver(s, ops))
  {
    if ops == [] {
      LaidNothing(s);
    } else {
      var init, op := ops[..|ops| - 1], ops[|ops| - 1];
      RunLaysItsEntries(s, init);
      AppendsAlike(s, init, op);
      StepLaysItsEntries(s, Run(s, init, false), op, AppendedOver(s, init));
    }
  }

  lemma AppendsAlike(s: Live, ops: seq<Op>, op: Op)
    requires !op.Trimmed? && forall i :: 0 <= i < |ops| ==> !ops[i].Trimmed?
    ensures AppendedBy(Run(s, ops, true), op) == AppendedBy(Run(s, ops, false), op)
  {
    var dropped := RunRefines(s, ops);
    var _ := StepRefines(Run(s, ops, true), Run(s, ops, false), dropped, op);
  }

  // ---- What pruning and the opening trim leave ----

  /** Pruning takes exactly the segments older than the oldest still listed, but never the last one. */
  lemma PruneDropsExactly(s: Live, i: nat)
    requires LiveInv(s) && i < |s.segs|
    ensures Prune(s) == s.(segs := Prune(s).segs) && 0 < |Prune(s).segs| <= |s.segs|
    ensures var dropped := |s.segs| - |Prune(s).segs|;
            && s.segs[dropped..] == Prune(s).segs
            && (i < dropped <==> s.segs[i].key.sequence < s.oldest && i < |s.segs| - 1)
  {
    var first := FirstAvailable(s.segs, s.oldest);
    var k := if |s.segs| < 2 then 0 else Min(first, |s.segs| - 1);
    assert Prune(s).segs == s.segs[k..];
    if s.oldest >= 0 && k == first < i { assert s.segs[first].key.sequence < s.segs[i].key.sequence; }
  }

  /** An open keeps the last three segments, or all if there are fewer, renumbers them from byte and time 0 when it
      dropped any, and starts reading at the first of them. */
  lemma OpenKeepsTheEdge(s: Live)
    requires LiveInv(s)
    ensures var t, n := TrimAndStart(s), |s.segs|;
            && |t.segs| == Min(n, 3) && t.oldest == s.oldest && t.ended == s.ended
            && t.position == (if t.segs == [] then 0 else t.segs[0].byteOffset)
            && (n <= 3 ==> t.segs == s.segs && t.totalBytes == s.totalBytes && t.totalMs == s.totalMs)
            && (n > 3 ==>
                  var base := s.segs[n - 3];
                  && t.totalBytes == s.totalBytes - base.byteOffset && t.totalMs == s.totalMs - base.timeOffsetMs
                  && forall i :: 0 <= i < 3 ==>
                       && t.segs[i].key == s.segs[n - 3 + i].key && t.segs[i].byteSize == s.segs[n - 3 + i].byteSize
                       && t.segs[i].byteOffset == s.segs[n - 3 + i].byteOffset - base.byteOffset
                       && t.segs[i].timeOffsetMs == s.segs[n - 3 + i].timeOffsetMs - base.timeOffsetMs)
  {
  }

  // ---- Where a seek lands ----

  /** The first available byte: the start of the first segment still listed, or 0 when none is. */
  lemma FirstAvailableByte(s: Live, k: nat)
    requires LiveInv(s) && k <= |s.segs| && (forall i :: 0 <= i < k ==> s.segs[i].key.sequence < s.oldest)
    requires k < |s.segs| ==> s.oldest <= s.segs[k].key.sequence
    ensures FirstAvailableOffset(s) == if k < |s.segs| then s.segs[k].byteOffset else 0
  {
    if s.oldest >= 0 { IsFirstAvailable(s.segs, s.oldest, k); }
  }

  /** The start of the third-last segment, or of the first when there are fewer. */
  function EdgeOf(s: Live): int {
    if s.segs == [] then 0 else s.segs[Max(0, |s.segs| - 3)].byteOffset
  }

  /** A seek between the first available byte and the edge lands exactly where it was asked to; past the edge it is held
      back there, unless the reader or the head is further on; before the head it lands on the head. */
  lemma SeekLandsExactly(s: Live, requested: int)
    requires LiveInv(s) && 0 <= requested
    ensures var head, edge, landed := FirstAvailableOffset(s), EdgeOf(s), SeekTarget(s, requested);
            && (head <= requested <= edge ==> landed == requested)
            && (requested < head && requested <= edge ==> landed == head)
            && (requested > edge ==> landed == Max(Max(edge, head), Min(s.position, requested)))
  {
    TailTargetIsStartPosition(s.segs, s.totalBytes, MARGIN);
  }

  /** Every kind of seek, by what it asks for: a request that cannot be resolved moves nothing. */
  lemma SeekMovesAsAsked(s: Live, offset: int, whence: Whence)
    requires LiveInv(s)
    ensures var asked := ResolveSeek(offset, whence, s.position, s.totalBytes);
            var after := Step(s, Sought(offset, whence), true);
            && (asked.None? ==> after == s)
            && (asked.Some? ==> after == s.(position := after.position))
            && (asked.Some? && FirstAvailableOffset(s) <= asked.value <= EdgeOf(s) ==> after.position == asked.value)
  {
    var asked := ResolveSeek(offset, whence, s.position, s.totalBytes);
    if asked.Some? { SeekLandsExactly(s, asked.value); }
  }
}
