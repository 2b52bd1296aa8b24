/**
 The live stream under concurrency (src/DispatcharrClient.cpp): readers, seekers, refreshers and the
 open/close calls interleave wherever the state lock is released, that is around every network call.
 A session counter, a position re-check and the curl mutex keep a stale fetch out of the stream.
 */
module LiveReads {
  import opened Common
  import opened LiveManifest
  import opened LiveStream
  import opened Playback
  import opened Segments

  /** What each segment's file really holds. */
  type Bodies = LiveKey -> seq<byte>

  // ---- One segment response ----

  /** `file` is what the server had under the segment's name, `total` its Content-Range size (-1: none sent). */
  datatype Reply = NoTransfer | Answered(status: int, total: int, file: seq<byte>, sent: seq<byte>)

  datatype SegmentOutcome = TransportFailure | SegmentGone | RangeIgnored | UnexpectedStatus | SizeMismatch | Usable

  function Classify(reply: Reply, offset: int, segmentSize: int): SegmentOutcome {
    if reply.NoTransfer? then TransportFailure
    else if reply.status == 404 then SegmentGone
    else if reply.status == 200 && offset > 0 then RangeIgnored
    else if reply.status != 200 && reply.status != 206 then UnexpectedStatus
    else if reply.total >= 0 && reply.total != segmentSize then SizeMismatch
    else Usable
  }

  /** A server that follows HTTP: a 206 sends the file from the offset on, a 200 from its start, and a stated total is
      the file's size. A recycled file may be anything as long as its stated size gives it away. */
  ghost predicate Plausible(reply: Reply, seg: LiveSegment, offset: int, body: Bodies) {
    reply.Answered? && (reply.status == 200 || reply.status == 206) ==>
      && (reply.total == -1 || reply.total == |reply.file|)
      && (reply.total == -1 || |reply.file| == seg.byteSize ==> reply.file == body(seg.key))
      && (reply.status == 200 ==> reply.sent <= reply.file)
      && (reply.status == 206 ==> 0 <= offset <= |reply.file| && reply.sent <= reply.file[offset..])
  }

  /** The read buffer takes at most what was asked for. */
  function Written(reply: Reply, want: nat): seq<byte>
    requires reply.Answered?
  {
    reply.sent[..Min(want, |reply.sent|)]
  }

  /** A 206, or a 200 at the segment's start, that states the manifest's size or none: exactly these answers are let
      through, and they carry the segment's own bytes at the offset asked for. */
  lemma UsableBytesAreTheSegments(reply: Reply, seg: LiveSegment, offset: nat, want: nat, body: Bodies)
    ensures Classify(reply, offset, seg.byteSize) == Usable <==>
            && reply.Answered? && (reply.status == 206 || (reply.status == 200 && offset == 0))
            && (reply.total < 0 || reply.total == seg.byteSize)
    ensures Plausible(reply, seg, offset, body) && Classify(reply, offset, seg.byteSize) == Usable ==>
              var w := Written(reply, want);
              && |w| <= want && offset + |w| <= |body(seg.key)| && w == body(seg.key)[offset..offset + |w|]
  {
    if Plausible(reply, seg, offset, body) && Classify(reply, offset, seg.byteSize) == Usable {
      assert reply.file == body(seg.key);
      if reply.status == 206 {
        assert reply.sent == body(seg.key)[offset..][..|reply.sent|];
      }
    }
  }

  // ---- The shared state ----

  /** Closed and Starting are not open; Cold is open but not yet trimmed; Started is what a player reads. */
  datatype Phase = Closed | Starting | Cold | Started

  type LiveReader = Reader<LiveKey>

  /** `kept` is, for every session that started, the list it would have without pruning. */
  datatype World = World(session: nat, phase: Phase, fatal: bool, live: Live, kept: map<nat, seq<LiveSegment>>,
                         readers: map<int, LiveReader>, curl: Option<int>, refreshes: map<int, nat>, log: seq<Event>)
  {
    predicate Open() { phase == Cold || phase == Started }

    predicate SameStream(other: nat) { Open() && session == other }
  }

  const NEW := World(0, Closed, false, EMPTY, map[], map[], None, map[], [])

  datatype Step =
    | OpenBegin | BufferStarted | OpenFailed | OpenDone | Close
    | ReadBegin(t: int, size: nat) | ReadChoose(t: int) | ReadLock(t: int) | ReadFinish(t: int, reply: Reply)
    | Seek(offset: int, whence: Whence)
    | RefreshBegin(t: int) | RefreshEnd(t: int, manifest: Manifest) | RefreshFatal(t: int)

  /** The mutexes and the player's calling convention: opening and closing wait for the curl mutex, the player
      opens and closes from one thread, and reads only once the open has returned. */
  ghost predicate Enabled(w: World, step: Step, body: Bodies) {
    match step
    case OpenBegin => w.curl.None? && (w.phase == Closed || w.phase == Started)
    case BufferStarted => w.phase == Starting
    case OpenFailed => w.phase == Starting || w.phase == Cold
    case OpenDone => w.phase == Cold
    case Close => w.curl.None? && (w.phase == Closed || w.phase == Started)
    case ReadBegin(t, _) => w.phase != Cold && t !in w.readers
    case ReadChoose(t) => t in w.readers && w.readers[t].Began?
    case ReadLock(t) => t in w.readers && w.readers[t].Chosen? && w.curl.None?
    case ReadFinish(t, reply) =>
      && t in w.readers && w.readers[t].Fetching?
      && Plausible(reply, w.readers[t].seg, w.readers[t].position - w.readers[t].seg.byteOffset, body)
    case Seek(_, _) => true
    case RefreshBegin(t) => t !in w.refreshes
    case RefreshEnd(t, _) => t in w.refreshes
    case RefreshFatal(t) => t in w.refreshes
  }

  // ---- What a read does ----

  function MoveTo(w: World, to: int): World {
    w.(live := w.live.(position := to), log := w.log + [Moved(w.session, to)])
  }

  function Deliver(w: World, session: nat, from: int, bytes: seq<byte>): World {
    w.(live := w.live.(position := w.live.position + |bytes|), log := w.log + [Delivered(session, from, bytes)])
  }

  /** A read starts: past the checks, a position behind the rolling buffer is moved up. */
  function Begin(w: World, t: int, size: nat): World {
    if !w.Open() || size == 0 || w.fatal then w
    else
      var head := CatchUpToHead(w.live).position;
      var moved := if head != w.live.position then MoveTo(w, head) else w;
      moved.(readers := moved.readers[t := Began(w.session, size)])
  }

  datatype Pick = Pick(seg: LiveSegment, want: nat)

  /** The segment under the reader and how much of it one read may take; None at the tail or in a pruned gap. */
  function PickAt(live: Live, size: nat): Option<Pick> {
    if live.position >= live.totalBytes then None
    else match Lookup(live.segs, live.position)
         case None => None
         case Some(seg) =>
           match SegmentReadSize(live.position - seg.byteOffset, seg.byteSize, size)
           case None => None
           case Some(want) => Some(Pick(seg, want))
  }

  /** With the lock back after a heartbeat or a tail wait: pick the segment, then release the lock again. */
  function Choose(w: World, t: int): World
    requires t in w.readers && w.readers[t].Began?
  {
    var r := w.readers[t];
    if !w.SameStream(r.session) then w.(readers := w.readers - {t})
    else match PickAt(w.live, r.want)
         case None => w.(readers := w.readers - {t})
         case Some(pick) => w.(readers := w.readers[t := Chosen(r.session, w.live.position, pick.seg, pick.want)])
  }

  predicate StillThere(w: World, r: LiveReader)
    requires !r.Began?
  {
    w.SameStream(r.session) && w.live.position == r.position
  }

  /** Under the curl mutex: give up if the stream or the position changed, else start the transfer. */
  function Lock(w: World, t: int): World
    requires t in w.readers && w.readers[t].Chosen?
  {
    var r := w.readers[t];
    if !StillThere(w, r) then w.(readers := w.readers - {t})
    else w.(readers := w.readers[t := Fetching(r.session, r.position, r.seg, r.want)], curl := Some(t))
  }

  /** What the read hands back: bytes, the player's "try again", the end, or one more counted failure. */
  datatype ReadResult = Gave(bytes: seq<byte>) | TryAgain | EndOfStream | FetchFailed

  function Result(w: World, r: LiveReader, reply: Reply): ReadResult
    requires r.Fetching?
  {
    match Classify(reply, r.position - r.seg.byteOffset, r.seg.byteSize)
    case Usable => if StillThere(w, r) then Gave(Written(reply, r.want)) else TryAgain
    case RangeIgnored => EndOfStream
    case SizeMismatch => EndOfStream
    case _ => FetchFailed
  }

  function Finish(w: World, t: int, reply: Reply): World
    requires t in w.readers && w.readers[t].Fetching?
  {
    var r := w.readers[t];
    var done := w.(readers := w.readers - {t}, curl := None);
    match Result(w, r, reply)
    case Gave(bytes) => Deliver(done, r.session, r.position, bytes)
    case EndOfStream => done.(fatal := true)
    case _ => done
  }

  // ---- The other calls ----

  function Reset(w: World, phase: Phase): World {
    w.(session := w.session + 1, phase := phase, fatal := false, live := EMPTY)
  }

  function SeekStep(w: World, offset: int, whence: Whence): World {
    if !w.Open() || w.fatal then w
    else match LiveStream.Seek(w.live, offset, whence)
         case None => w
         case Some(target) => MoveTo(w, target)
  }

  function MergeStep(w: World, session: nat, m: Manifest): World {
    if !w.SameStream(session) then w
    else
      var merged := Merge(w.live, m);
      var grown := merged.segs[Min(|w.live.segs|, |merged.segs|)..];
      w.(live := Prune(merged),
      kept := if w.session in w.kept then w.kept[w.session := w.kept[w.session] + grown] else w.kept)
  }

  function Start(w: World): World {
    var started := TrimAndStart(w.live);
    w.(phase := Started, live := started, kept := w.kept[w.session := started.segs],
    log := w.log + [Moved(w.session, started.position)])
  }

  function Apply(w: World, step: Step): World {
    match step
    case OpenBegin => Reset(w, Starting)
    case BufferStarted => w.(phase := Cold)
    case OpenFailed => Reset(w, Closed)
    case OpenDone => Start(w)
    case Close => Reset(w, Closed)
    case ReadBegin(t, size) => Begin(w, t, size)
    case ReadChoose(t) => if t in w.readers && w.readers[t].Began? then Choose(w, t) else w
    case ReadLock(t) => if t in w.readers && w.readers[t].Chosen? then Lock(w, t) else w
    case ReadFinish(t, reply) => if t in w.readers && w.readers[t].Fetching? then Finish(w, t, reply) else w
    case Seek(offset, whence) => SeekStep(w, offset, whence)
    case RefreshBegin(t) => if w.Open() then w.(refreshes := w.refreshes[t := w.session]) else w
    case RefreshEnd(t, m) =>
      if t in w.refreshes then MergeStep(w, w.refreshes[t], m).(refreshes := w.refreshes - {t}) else w
    case RefreshFatal(t) =>
      if t !in w.refreshes then w
      else w.(refreshes := w.refreshes - {t}, fatal := w.fatal || w.SameStream(w.refreshes[t]))
  }

  function End(w: World, steps: seq<Step>): World
    decreases |steps|
  {
    if steps == [] then w else End(Apply(w, steps[0]), steps[1..])
  }

  ghost predicate Runs(w: World, steps: seq<Step>, body: Bodies)
    decreases |steps|
  {
    steps == [] || (Enabled(w, steps[0], body) && Runs(Apply(w, steps[0]), steps[1..], body))
  }

  // ---- The invariant ----

  ghost predicate Suffix(tail: seq<LiveSegment>, all: seq<LiveSegment>) {
    |tail| <= |all| && all[|all| - |tail|..] == tail && (tail == [] ==> all == [])
  }

  ghost predicate StreamOk(w: World) {
    && (w.session in w.kept <==> w.phase == Started)
    && (forall k | k in w.kept :: k <= w.session && Contiguous(w.kept[k], EndOf(w.kept[k])))
    && (w.Open() ==> LiveInv(w.live))
    && (w.phase == Starting ==> w.live == EMPTY)
    && (w.phase == Started ==> EndOf(w.kept[w.session]) == w.live.totalBytes && Suffix(w.live.segs, w.kept[w.session]))
  }

  ghost predicate ReaderOk(kept: map<nat, seq<LiveSegment>>, r: LiveReader) {
    && r.session in kept
    && (!r.Began? ==>
        && r.seg in kept[r.session] && r.seg.byteOffset <= r.position
        && r.position - r.seg.byteOffset + r.want <= r.seg.byteSize)
  }

  ghost predicate ReadersOk(w: World) {
    forall t | t in w.readers :: ReaderOk(w.kept, w.readers[t])
  }

  /** Only the holder of the curl mutex is mid-transfer, and its stream cannot change under it. */
  ghost predicate CurlOk(w: World) {
    && (forall t | t in w.readers && w.readers[t].Fetching? ::
          w.curl == Some(t) && w.readers[t].session == w.session && w.phase == Started)
    && (w.curl.Some? ==> w.curl.value in w.readers && w.readers[w.curl.value].Fetching?)
  }

  ghost predicate PlaybackOk(w: World, body: Bodies) {
    w.phase == Started ==>
      && w.session in w.kept
      && w.live.position == PlayedOver(w.log).start + |PlayedOver(w.log).bytes|
      && StreamHolds(w.kept[w.session], body, PlayedOver(w.log).start, PlayedOver(w.log).bytes)
  }

  ghost predicate Inv(w: World, body: Bodies) {
    StreamOk(w) && ReadersOk(w) && CurlOk(w) && LogHolds(w.log, w.kept, body) && PlaybackOk(w, body)
  }

  // ---- Every step keeps it ----

  lemma MoveKeepsInv(w: World, to: int, body: Bodies)
    requires Inv(w, body) && w.Open() && 0 <= to <= w.live.totalBytes
    ensures Inv(MoveTo(w, to), body)
  {
    PlayedAfter(w.log, Moved(w.session, to));
  }

  lemma WithReader(w: World, t: int, r: LiveReader, body: Bodies)
    requires Inv(w, body) && ReaderOk(w.kept, r) && !r.Fetching? && (t in w.readers ==> !w.readers[t].Fetching?)
    ensures Inv(w.(readers := w.readers[t := r]), body)
    ensures Inv(w.(readers := w.readers - {t}), body)
  {
  }

  lemma WithTransfer(w: World, t: int, r: LiveReader, body: Bodies)
    requires Inv(w, body) && ReaderOk(w.kept, r) && r.Fetching? && w.curl.None?
    requires r.session == w.session && w.phase == Started
    ensures Inv(w.(readers := w.readers[t := r], curl := Some(t)), body)
  {
  }

  lemma BeginKeepsInv(w: World, t: int, size: nat, body: Bodies)
    requires Inv(w, body) && w.phase != Cold && t !in w.readers
    ensures Inv(Begin(w, t, size), body)
  {
    if w.Open() && size > 0 && !w.fatal {
      FirstAvailableOffsetInside(w.live);
      var head := CatchUpToHead(w.live).position;
      var moved := if head != w.live.position then MoveTo(w, head) else w;
      if head != w.live.position { MoveKeepsInv(w, head, body); }
      WithReader(moved, t, Began(w.session, size), body);
    }
  }

  lemma PickFits(live: Live, all: seq<LiveSegment>, size: nat)
    requires PickAt(live, size).Some? && Suffix(live.segs, all)
    ensures var pick := PickAt(live, size).value;
            && pick.seg in all && pick.seg.byteOffset <= live.position
            && live.position - pick.seg.byteOffset + pick.want <= pick.seg.byteSize
  {
    LookupIsMember(live.segs, live.position);
    var seg := PickAt(live, size).value.seg;
    var i :| 0 <= i < |live.segs| && live.segs[i] == seg;
    assert all[|all| - |live.segs| + i] == seg;
  }

  lemma ChooseKeepsInv(w: World, t: int, body: Bodies)
    requires Inv(w, body) && t in w.readers && w.readers[t].Began?
    ensures Inv(Choose(w, t), body)
  {
    var r := w.readers[t];
    WithReader(w, t, r, body);
    if w.SameStream(r.session) && PickAt(w.live, r.want).Some? {
      PickFits(w.live, w.kept[w.session], r.want);
      var pick := PickAt(w.live, r.want).value;
      WithReader(w, t, Chosen(r.session, w.live.position, pick.seg, pick.want), body);
    }
  }

  lemma LockKeepsInv(w: World, t: int, body: Bodies)
    requires Inv(w, body) && t in w.readers && w.readers[t].Chosen? && w.curl.None?
    ensures Inv(Lock(w, t), body)
  {
    var r := w.readers[t];
    WithReader(w, t, r, body);
    if StillThere(w, r) { WithTransfer(w, t, Fetching(r.session, r.position, r.seg, r.want), body); }
  }

  /** Bytes the checks let through, for a read aimed inside a segment of the list, are the stream there. */
  lemma UsableBytesAreHeld(segs: seq<LiveSegment>, seg: LiveSegment, position: int, want: nat, reply: Reply,
                           body: Bodies)
    requires Contiguous(segs, EndOf(segs)) && seg in segs && seg.byteOffset <= position
    requires position - seg.byteOffset + want <= seg.byteSize
    requires Plausible(reply, seg, position - seg.byteOffset, body)
    requires Classify(reply, position - seg.byteOffset, seg.byteSize) == Usable
    ensures StreamHolds(segs, body, position, Written(reply, want)) && position + |Written(reply, want)| <= EndOf(segs)
  {
    var offset := position - seg.byteOffset;
    UsableBytesAreTheSegments(reply, seg, offset, want, body);
    PieceIsHeld(segs, EndOf(segs), body, seg, offset, Written(reply, want));
    var i :| 0 <= i < |segs| && segs[i] == seg;
    if i < |segs| - 1 { OffsetsGrow(segs, EndOf(segs), i, |segs| - 1); }
  }

  /** What a finished read hands over is the stream at the read's position, and fits before the tail. */
  lemma GivenBytesAreTheStreams(w: World, t: int, reply: Reply, body: Bodies)
    requires StreamOk(w) && ReadersOk(w) && CurlOk(w)
    requires Enabled(w, ReadFinish(t, reply), body) && Result(w, w.readers[t], reply).Gave?
    ensures var r, bytes := w.readers[t], Result(w, w.readers[t], reply).bytes;
            && r.session == w.session && r.position == w.live.position && w.phase == Started
            && StreamHolds(w.kept[w.session], body, r.position, bytes)
            && r.position + |bytes| <= w.live.totalBytes
  {
    var r := w.readers[t];
    assert ReaderOk(w.kept, r);
    UsableBytesAreHeld(w.kept[w.session], r.seg, r.position, r.want, reply, body);
  }

  lemma DeliverKeepsInv(w: World, bytes: seq<byte>, body: Bodies)
    requires Inv(w, body) && w.phase == Started && w.live.position + |bytes| <= w.live.totalBytes
    requires StreamHolds(w.kept[w.session], body, w.live.position, bytes)
    ensures Inv(Deliver(w, w.session, w.live.position, bytes), body)
  {
    PlayedAfter(w.log, Delivered(w.session, w.live.position, bytes));
    HoldsConcat(w.kept[w.session], body, PlayedOver(w.log).start, PlayedOver(w.log).bytes, bytes);
  }

  lemma ReleaseKeepsInv(w: World, t: int, body: Bodies)
    requires Inv(w, body) && t in w.readers && w.readers[t].Fetching?
    ensures Inv(w.(readers := w.readers - {t}, curl := None), body)
    ensures Inv(w.(readers := w.readers - {t}, curl := None, fatal := true), body)
  {
  }

  lemma FinishKeepsInv(w: World, t: int, reply: Reply, body: Bodies)
    requires Inv(w, body) && Enabled(w, ReadFinish(t, reply), body)
    ensures Inv(Finish(w, t, reply), body)
  {
    ReleaseKeepsInv(w, t, body);
    var r := w.readers[t];
    if Result(w, r, reply).Gave? {
      GivenBytesAreTheStreams(w, t, reply, body);
      DeliverKeepsInv(w.(readers := w.readers - {t}, curl := None), Result(w, r, reply).bytes, body);
    }
  }

  /** Segments laid after a list's tail are laid after the list. */
  lemma GrownIsContiguous(all: seq<LiveSegment>, tail: seq<LiveSegment>, grown: seq<LiveSegment>, total: int)
    requires Suffix(tail, all) && Contiguous(all, EndOf(all)) && Contiguous(tail + grown, total)
    requires tail + grown == [] ==> total == 0
    ensures Contiguous(all + grown, total) && EndOf(all + grown) == total && Suffix(tail + grown, all + grown)
  {
    if tail == [] {
      assert all + grown == tail + grown;
    } else {
      var head := all[..|all| - |tail|];
      assert all == head + tail;
      GoesOnContiguously(head, tail, tail + grown, EndOf(all), total);
      assert all + grown == head + (tail + grown);
    }
  }

  lemma SuffixOfSuffix(a: seq<LiveSegment>, b: seq<LiveSegment>, c: seq<LiveSegment>)
    requires Suffix(a, b) && Suffix(b, c)
    ensures Suffix(a, c)
  {
    assert c[|c| - |a|..] == b[|b| - |a|..];
  }

  lemma PruneIsSuffix(s: Live)
    ensures Suffix(Prune(s).segs, s.segs)
  {
  }

  /** The list `all` once everything past `live` in `merged` has been appended to it. */
  function Longer(all: seq<LiveSegment>, live: Live, merged: Live): seq<LiveSegment>
    requires |live.segs| <= |merged.segs|
  {
    all + merged.segs[|live.segs|..]
  }

  /** A merge only lengthens the reference, and the pruned list stays its tail. */
  lemma MergeGrowsKept(live: Live, merged: Live, all: seq<LiveSegment>)
    requires LiveInv(live) && Suffix(live.segs, all) && Contiguous(all, EndOf(all)) && EndOf(all) == live.totalBytes
    requires LiveInv(merged) && live.segs <= merged.segs
    ensures var longer := Longer(all, live, merged);
            && Contiguous(longer, EndOf(longer)) && EndOf(longer) == merged.totalBytes
            && Suffix(Prune(merged).segs, longer)
  {
    var grown := merged.segs[|live.segs|..];
    assert merged.segs == live.segs + grown;
    GrownIsContiguous(all, live.segs, grown, merged.totalBytes);
    PruneIsSuffix(merged);
    SuffixOfSuffix(Prune(merged).segs, merged.segs, all + grown);
  }

  lemma GrowthKeepsStream(w: World, live: Live, longer: seq<LiveSegment>)
    requires StreamOk(w) && ReadersOk(w) && CurlOk(w) && w.phase == Started && w.kept[w.session] <= longer
    requires LiveInv(live) && Contiguous(longer, EndOf(longer)) && EndOf(longer) == live.totalBytes
    requires Suffix(live.segs, longer)
    ensures var w' := w.(live := live, kept := w.kept[w.session := longer]);
            StreamOk(w') && ReadersOk(w') && CurlOk(w')
  {
  }

  lemma GrowthKeepsLog(w: World, live: Live, longer: seq<LiveSegment>, body: Bodies)
    requires StreamOk(w) && LogHolds(w.log, w.kept, body) && PlaybackOk(w, body)
    requires w.phase == Started && w.kept[w.session] <= longer && live.position == w.live.position
    ensures var w' := w.(live := live, kept := w.kept[w.session := longer]);
            LogHolds(w'.log, w'.kept, body) && PlaybackOk(w', body)
  {
    LogHoldsLonger(w.log, w.kept, body, w.session, longer);
    HoldsInLonger(w.kept[w.session], longer, body, PlayedOver(w.log).start, PlayedOver(w.log).bytes);
  }

  lemma GrowthKeepsInv(w: World, live: Live, longer: seq<LiveSegment>, body: Bodies)
    requires Inv(w, body) && w.phase == Started && w.kept[w.session] <= longer
    requires LiveInv(live) && live.position == w.live.position
    requires Contiguous(longer, EndOf(longer)) && EndOf(longer) == live.totalBytes && Suffix(live.segs, longer)
    ensures Inv(w.(live := live, kept := w.kept[w.session := longer]), body)
  {
    GrowthKeepsStream(w, live, longer);
    GrowthKeepsLog(w, live, longer, body);
  }

  lemma ColdMergeKeepsInv(w: World, live: Live, body: Bodies)
    requires Inv(w, body) && w.phase == Cold && LiveInv(live)
    ensures Inv(w.(live := live), body)
  {
  }

  lemma MergeStepKeepsInv(w: World, session: nat, m: Manifest, body: Bodies)
    requires Inv(w, body)
    ensures Inv(MergeStep(w, session, m), body)
  {
    if w.SameStream(session) {
      MergeKeepsInv(w.live, m);
      var merged := Merge(w.live, m);
      PruneKeepsInv(merged);
      assert Prune(merged).position == w.live.position;
      if w.phase == Started {
        MergeGrowsKept(w.live, merged, w.kept[w.session]);
        GrowthKeepsInv(w, Prune(merged), Longer(w.kept[w.session], w.live, merged), body);
      } else {
        ColdMergeKeepsInv(w, Prune(merged), body);
      }
    }
  }

  lemma StartingKeepsInv(w: World, started: Live, body: Bodies)
    requires Inv(w, body) && w.phase == Cold && LiveInv(started)
    ensures Inv(w.(phase := Started, live := started, kept := w.kept[w.session := started.segs],
            log := w.log + [Moved(w.session, started.position)]), body)
  {
    PlayedAfter(w.log, Moved(w.session, started.position));
  }

  lemma StartKeepsInv(w: World, body: Bodies)
    requires Inv(w, body) && w.phase == Cold
    ensures Inv(Start(w), body)
  {
    TrimAndStartKeepsInv(w.live);
    StartingKeepsInv(w, TrimAndStart(w.live), body);
  }

  lemma SeekKeepsInv(w: World, offset: int, whence: Whence, body: Bodies)
    requires Inv(w, body)
    ensures Inv(SeekStep(w, offset, whence), body)
  {
    if w.Open() && !w.fatal {
      var r := ResolveSeek(offset, whence, w.live.position, w.live.totalBytes);
      if r.Some? {
        SeekLandsInside(w.live, r.value);
        FirstAvailableOffsetInside(w.live);
        MoveKeepsInv(w, SeekTarget(w.live, r.value), body);
      }
    }
  }

  lemma StepKeepsInv(w: World, step: Step, body: Bodies)
    requires Inv(w, body) && Enabled(w, step, body)
    ensures Inv(Apply(w, step), body)
  {
    match step
    case OpenDone => StartKeepsInv(w, body);
    case ReadBegin(t, size) => BeginKeepsInv(w, t, size, body);
    case ReadChoose(t) => ChooseKeepsInv(w, t, body);
    case ReadLock(t) => LockKeepsInv(w, t, body);
    case ReadFinish(t, reply) => FinishKeepsInv(w, t, reply, body);
    case Seek(offset, whence) => SeekKeepsInv(w, offset, whence, body);
    case RefreshEnd(t, m) => MergeStepKeepsInv(w, w.refreshes[t], m, body);
    case _ =>
  }

  lemma {:induction false} RunKeepsInv(w: World, steps: seq<Step>, body: Bodies)
    requires Inv(w, body) && Runs(w, steps, body)
    ensures Inv(End(w, steps), body)
    decreases |steps|
  {
    if steps != [] {
      StepKeepsInv(w, steps[0], body);
      RunKeepsInv(Apply(w, steps[0]), steps[1..], body);
    }
  }

  // ---- The theorems ----

  /** Under every interleaving, whatever any read ever handed over is exactly what its session's unpruned stream holds
      at the read's position. */
  lemma EveryDeliveryIsTheStream(steps: seq<Step>, body: Bodies, i: nat)
    requires Runs(NEW, steps, body) && i < |End(NEW, steps).log| && End(NEW, steps).log[i].Delivered?
    ensures var w, e := End(NEW, steps), End(NEW, steps).log[i];
            e.session in w.kept && StreamHolds(w.kept[e.session], body, e.from, e.bytes)
  {
    RunKeepsInv(NEW, steps, body);
  }

  /** Since the reader was last put somewhere the player has received the stream from there to its position, no byte
      missing, repeated or foreign. */
  lemma PlaybackIsUninterrupted(steps: seq<Step>, body: Bodies)
    requires Runs(NEW, steps, body) && End(NEW, steps).phase == Started
    ensures var w, p := End(NEW, steps), PlayedOver(End(NEW, steps).log);
            && w.session in w.kept
            && w.live.position == p.start + |p.bytes| && 0 <= w.live.position <= w.live.totalBytes
            && StreamHolds(w.kept[w.session], body, p.start, p.bytes)
  {
    RunKeepsInv(NEW, steps, body);
  }

  lemma FinishMoves(w: World, t: int, reply: Reply)
    requires t in w.readers && w.readers[t].Fetching?
    ensures var r := w.readers[t];
            var after, result := Finish(w, t, reply), Result(w, r, reply);
            && (result.Gave? ==> w.live.position == r.position && after.live.position == r.position + |result.bytes|)
            && (!result.Gave? ==> after.live == w.live && after.log == w.log)
            && (!StillThere(w, r) ==> !result.Gave?)
            && after.live.segs == w.live.segs && after.live.totalBytes == w.live.totalBytes
  {
  }

  /** A finished read moves the reader by what it gave, from where the read was aimed; a fetch overtaken by a seek or
      another session gives nothing and moves nothing. */
  lemma ReadMovesByWhatItGave(steps: seq<Step>, body: Bodies, t: int, reply: Reply)
    requires Runs(NEW, steps, body) && Enabled(End(NEW, steps), ReadFinish(t, reply), body)
    ensures var w, r := End(NEW, steps), End(NEW, steps).readers[t];
            var after, result := Finish(w, t, reply), Result(w, r, reply);
            && (result.Gave? ==> w.live.position == r.position && after.live.position == r.position + |result.bytes|)
            && (!result.Gave? ==> after.live == w.live && after.log == w.log)
            && (!StillThere(w, r) ==> !result.Gave?)
            && after.live.segs == w.live.segs && after.live.totalBytes == w.live.totalBytes
  {
    FinishMoves(End(NEW, steps), t, reply);
  }

  /** While a transfer runs its session stays the open one, so what it marks dead is the stream it was reading. */
  lemma TransferPinsItsSession(steps: seq<Step>, body: Bodies, t: int)
    requires Runs(NEW, steps, body) && t in End(NEW, steps).readers && End(NEW, steps).readers[t].Fetching?
    ensures var w := End(NEW, steps);
            && w.readers[t].session == w.session && w.phase == Started && w.curl == Some(t)
            && !Enabled(w, Close, body) && !Enabled(w, OpenBegin, body) && !Enabled(w, OpenFailed, body)
  {
    RunKeepsInv(NEW, steps, body);
  }

  /**
   Why no read may begin before the open has returned: the opening trim keeps the session and puts the reader back at
   byte 0. For a read chosen while the open was still running, passing the re-check means the byte is still the chosen
   segment's exactly when nothing was trimmed or the read was not at byte 0.
   */
  lemma EarlyReadSurvivesTheTrimIff(w: World, r: LiveReader)
    requires w.phase == Cold && LiveInv(w.live)
    requires r.Chosen? && r.session == w.session && Lookup(w.live.segs, r.position) == Some(r.seg)
    ensures (StillThere(Start(w), r) ==> Lookup(Start(w).live.segs, r.position) == Some(r.seg))
            <==> (|w.live.segs| <= MARGIN || r.position != 0)
  {
    TrimAndStartKeepsInv(w.live);
    if |w.live.segs| > MARGIN && r.position == 0 { TrimFoolsTheRecheck(w, r); }
  }

  /** The failing case: the re-check passes although byte 0 has become a later segment's. */
  lemma TrimFoolsTheRecheck(w: World, r: LiveReader)
    requires w.phase == Cold && LiveInv(w.live) && |w.live.segs| > MARGIN
    requires r.Chosen? && r.session == w.session && r.position == 0 && Lookup(w.live.segs, 0) == Some(r.seg)
    ensures StillThere(Start(w), r)
    ensures Lookup(Start(w).live.segs, 0).Some?
    ensures Lookup(Start(w).live.segs, 0).value.key.sequence > r.seg.key.sequence
  {
    TrimAndStartKeepsInv(w.live);
    var segs, total := w.live.segs, w.live.totalBytes;
    var k := |segs| - MARGIN;
    TrimShiftsBytes(w.live, MARGIN, segs[k].byteOffset);
    assert segs[k].Covers(segs[k].byteOffset) && segs[k] in segs;
    LookupExact(segs, total, segs[k].byteOffset);
    LookupIsMember(segs, 0);
    var i :| 0 <= i < |segs| && segs[i] == r.seg;
    if k < i { OffsetsGrow(segs, total, k, i); }
    if 0 < k { OffsetsGrow(segs, total, 0, k); }
  }

  /** A read that passes the re-check after the open returns, for a byte of the segment it chose that is so no more. */
  ghost predicate Misled(w: World, r: LiveReader) {
    && r.Chosen? && r.session == w.session && Lookup(w.live.segs, r.position) == Some(r.seg)
    && StillThere(Start(w), r) && Lookup(Start(w).live.segs, r.position) != Some(r.seg)
  }

  lemma ColdMerges(w: World, m: Manifest, body: Bodies)
    requires w.phase == Cold && w.live == EMPTY && w.refreshes == map[]
    ensures var steps := [RefreshBegin(0), RefreshEnd(0, m)];
            Runs(w, steps, body) && End(w, steps).phase == Cold && End(w, steps).live == Refresh(EMPTY, m)
  {
    var v := Apply(w, RefreshBegin(0));
    var u := Apply(v, RefreshEnd(0, m));
    var last := [RefreshEnd(0, m)];
    assert last[1..] == [] && End(u, last[1..]) == u && Runs(u, last[1..], body);
    assert [RefreshBegin(0), RefreshEnd(0, m)][1..] == last && Runs(v, last, body) && End(v, last) == u;
  }

  /**
   From nothing: an open whose first manifest gives more segments than the margin (`LiveStream.FourEntriesAreKnown` has
   one), and a read of its first byte chosen before the open returns.
   */
  lemma EarlyReadIsMisled(m: Manifest, body: Bodies)
    requires |Refresh(EMPTY, m).segs| > MARGIN && Lookup(Refresh(EMPTY, m).segs, 0).Some?
    ensures var steps := [OpenBegin, BufferStarted] + [RefreshBegin(0), RefreshEnd(0, m)];
            && Runs(NEW, steps, body) && Enabled(End(NEW, steps), OpenDone, body)
            && exists r: LiveReader :: Misled(End(NEW, steps), r)
  {
    var merges := [RefreshBegin(0), RefreshEnd(0, m)];
    var steps := [OpenBegin, BufferStarted] + merges;
    var starting := Apply(NEW, OpenBegin);
    var cold := Apply(starting, BufferStarted);
    ColdMerges(cold, m, body);
    assert steps[1..][1..] == merges && Runs(starting, steps[1..], body);
    assert End(NEW, steps) == End(starting, steps[1..]) == End(cold, merges);
    var w := End(cold, merges);
    RefreshKeepsInv(EMPTY, m);
    var r := Chosen(w.session, 0, Lookup(w.live.segs, 0).value, 1);
    TrimFoolsTheRecheck(w, r);
    assert Misled(w, r);
  }

  // ---- What a read gets ----

  /** What is handed over and what ends the stream, for every answer: bytes exactly for a read still in place whose
      answer is a 206, or a 200 at the segment's start, of the size the manifest stated, if one is stated; the end
      exactly for a 200 past the start or a differing size. */
  lemma AnswerIsTakenIff(w: World, t: int, reply: Reply)
    requires t in w.readers && w.readers[t].Fetching?
    ensures var r, after := w.readers[t], Finish(w, t, reply);
            var inPlace := w.Open() && w.session == r.session && w.live.position == r.position;
            var atStart := r.position <= r.seg.byteOffset;
            var good := && reply.Answered? && (reply.status == 206 || (reply.status == 200 && atStart))
                        && (reply.total < 0 || reply.total == r.seg.byteSize);
            var ends := && reply.Answered? && (reply.status == 200 || reply.status == 206)
                        && ((reply.status == 200 && !atStart) || (reply.total >= 0 && reply.total != r.seg.byteSize));
            && (inPlace && good ==>
                  var bytes := reply.sent[..Min(r.want, |reply.sent|)];
                  && after.log == w.log + [Delivered(r.session, r.position, bytes)]
                  && after.live == w.live.(position := r.position + |bytes|))
            && (!(inPlace && good) ==> after.log == w.log && after.live == w.live)
            && (after.fatal <==> w.fatal || ends)
            && after == w.(readers := w.readers - {t}, curl := None, log := after.log, live := after.live,
                           fatal := after.fatal)
  {
  }

  /** A chosen read starts its transfer exactly when the stream and the reader are where it left them; else it ends. */
  lemma TransferStartsIff(w: World, t: int)
    requires t in w.readers && w.readers[t].Chosen? && w.curl.None?
    ensures var r, after := w.readers[t], Lock(w, t);
            var inPlace := w.Open() && w.session == r.session && w.live.position == r.position;
            && (inPlace ==> after == w.(readers := w.readers[t := Fetching(r.session, r.position, r.seg, r.want)],
                                        curl := Some(t)))
            && (!inPlace ==> after == w.(readers := w.readers - {t}))
  {
  }

  /** The server has the whole segment and sends the rest of it: as a range, or from the start if that was asked for. */
  ghost predicate FullAnswer(reply: Reply, seg: LiveSegment, offset: int, body: Bodies) {
    && reply.Answered? && reply.file == body(seg.key) && |reply.file| == seg.byteSize
    && (reply.total == -1 || reply.total == seg.byteSize)
    && 0 <= offset <= seg.byteSize && reply.sent == reply.file[offset..]
    && (reply.status == 206 || (reply.status == 200 && offset == 0))
  }

  /** Where a read that begins now reads from. */
  function ReadsFrom(w: World): int { Max(w.live.position, FirstAvailableOffset(w.live)) }

  lemma PicksTheRest(live: Live, size: nat, seg: LiveSegment)
    requires LiveInv(live) && 0 < size && Lookup(live.segs, live.position) == Some(seg)
    ensures 0 < Min(size, seg.End() - live.position)
    ensures PickAt(live, size) == Some(Pick(seg, Min(size, seg.End() - live.position)))
  {
    LookupIsMember(live.segs, live.position);
    LookupExact(live.segs, live.totalBytes, live.position);
  }

  /** The reader as the choice leaves it, in a world that is otherwise only aimed. */
  predicate Aimed(w: World, chosen: World, t: int, seg: LiveSegment, want: nat) {
    && chosen == w.(live := w.live.(position := ReadsFrom(w)), log := chosen.log,
                    readers := w.readers[t := Chosen(w.session, ReadsFrom(w), seg, want)])
    && chosen.log == if ReadsFrom(w) == w.live.position then w.log else w.log + [Moved(w.session, ReadsFrom(w))]
  }

  lemma ReadIsAimed(w: World, t: int, size: nat, seg: LiveSegment)
    requires w.phase == Started && !w.fatal && LiveInv(w.live) && 0 < size
    requires Lookup(w.live.segs, ReadsFrom(w)) == Some(seg)
    ensures var began, want := Begin(w, t, size), Min(size, seg.End() - ReadsFrom(w));
            && 0 < want && t in began.readers && began.readers[t].Began?
            && Aimed(w, Choose(began, t), t, seg, want)
  {
    var began, want := Begin(w, t, size), Min(size, seg.End() - ReadsFrom(w));
    assert began.live == w.live.(position := ReadsFrom(w));
    assert LiveInv(began.live) by { FirstAvailableOffsetInside(w.live); }
    PicksTheRest(began.live, size, seg);
    var r := Chosen(w.session, ReadsFrom(w), seg, want);
    assert began.readers[t := r] == w.readers[t := r];
  }

  lemma UndisturbedLock(w: World, t: int, seg: LiveSegment, want: nat)
    requires w.phase == Started && t in w.readers
    requires w.readers[t] == Chosen(w.session, w.live.position, seg, want)
    ensures Lock(w, t) ==
            w.(readers := w.readers[t := Fetching(w.session, w.live.position, seg, want)], curl := Some(t))
  {
  }

  lemma FullAnswerIsGood(reply: Reply, seg: LiveSegment, offset: nat, want: nat, body: Bodies)
    requires FullAnswer(reply, seg, offset, body) && offset + want <= seg.byteSize
    ensures Plausible(reply, seg, offset, body) && want <= |reply.sent| && offset + want <= |body(seg.key)|
    ensures reply.sent[..want] == body(seg.key)[offset..offset + want]
  {
  }

  lemma GoodAnswerDelivers(w: World, t: int, seg: LiveSegment, want: nat, reply: Reply, given: seq<byte>)
    requires w.phase == Started && t in w.readers
    requires w.readers[t] == Fetching(w.session, w.live.position, seg, want)
    requires reply.Answered? && (reply.status == 206 || (reply.status == 200 && w.live.position <= seg.byteOffset))
    requires (reply.total < 0 || reply.total == seg.byteSize) && want <= |reply.sent| && given == reply.sent[..want]
    ensures Finish(w, t, reply) ==
            w.(readers := w.readers - {t}, curl := None, live := w.live.(position := w.live.position + want),
               log := w.log + [Delivered(w.session, w.live.position, given)])
  {
    AnswerIsTakenIff(w, t, reply);
  }

  lemma AimedReadIsGiven(w: World, t: int, seg: LiveSegment, want: nat, reply: Reply, body: Bodies)
    requires w.phase == Started && w.curl.None? && t in w.readers
    requires w.readers[t] == Chosen(w.session, w.live.position, seg, want)
    requires FullAnswer(reply, seg, w.live.position - seg.byteOffset, body)
    requires w.live.position - seg.byteOffset + want <= seg.byteSize
    ensures var locked, offset := Lock(w, t), w.live.position - seg.byteOffset;
            && t in locked.readers && locked.readers[t] == Fetching(w.session, w.live.position, seg, want)
            && Plausible(reply, seg, offset, body) && 0 <= offset && offset + want <= |body(seg.key)|
            && Finish(locked, t, reply) ==
               w.(readers := w.readers - {t}, live := w.live.(position := w.live.position + want),
                  log := w.log + [Delivered(w.session, w.live.position, body(seg.key)[offset..offset + want])])
  {
    var offset := w.live.position - seg.byteOffset;
    UndisturbedLock(w, t, seg, want);
    FullAnswerIsGood(reply, seg, offset, want, body);
    var locked := Lock(w, t);
    GoodAnswerDelivers(locked, t, seg, want, reply, body(seg.key)[offset..offset + want]);
    assert locked.readers - {t} == w.readers - {t};
  }

  lemma FourSteps(w: World, a: Step, b: Step, c: Step, d: Step, body: Bodies)
    requires Enabled(w, a, body) && Enabled(Apply(w, a), b, body) && Enabled(Apply(Apply(w, a), b), c, body)
    requires Enabled(Apply(Apply(Apply(w, a), b), c), d, body)
    ensures Runs(w, [a, b, c, d], body)
    ensures End(w, [a, b, c, d]) == Apply(Apply(Apply(Apply(w, a), b), c), d)
  {
    var w1 := Apply(w, a);
    var w2 := Apply(w1, b);
    var w3 := Apply(w2, c);
    var w4 := Apply(w3, d);
    assert [d][1..] == [] && Runs(w4, [], body) && Runs(w3, [d], body) && End(w3, [d]) == End(w4, []) == w4;
    assert [c, d][1..] == [d] && Runs(w2, [c, d], body) && End(w2, [c, d]) == w4;
    assert [b, c, d][1..] == [c, d] && Runs(w1, [b, c, d], body) && End(w1, [b, c, d]) == w4;
    assert [a, b, c, d][1..] == [b, c, d];
  }

  /** What such a read leaves: the log, the reader's place, and everything else as it was. */
  function AfterFullRead(w: World, n: nat, given: seq<byte>): World {
    var at := ReadsFrom(w);
    var aimed := if at == w.live.position then w.log else w.log + [Moved(w.session, at)];
    w.(live := w.live.(position := at + n), log := aimed + [Delivered(w.session, at, given)])
  }

  /** The four steps of one read, nothing in between, hand over what the segment holds and the read asked for. */
  ghost predicate ReadDelivers(w: World, body: Bodies, t: int, size: nat, reply: Reply, seg: LiveSegment) {
    var read := [ReadBegin(t, size), ReadChoose(t), ReadLock(t), ReadFinish(t, reply)];
    var n, offset := Min(size, seg.End() - ReadsFrom(w)), ReadsFrom(w) - seg.byteOffset;
    && 0 < n && 0 <= offset && offset + n <= |body(seg.key)|
    && Runs(w, read, body) && End(w, read) == AfterFullRead(w, n, body(seg.key)[offset..offset + n])
  }

  lemma GivenLeaves(w: World, chosen: World, t: int, seg: LiveSegment, n: nat, given: seq<byte>)
    requires t !in w.readers && Aimed(w, chosen, t, seg, n)
    ensures chosen.(readers := chosen.readers - {t}, live := chosen.live.(position := ReadsFrom(w) + n),
                    log := chosen.log + [Delivered(w.session, ReadsFrom(w), given)]) == AfterFullRead(w, n, given)
  {
    assert w.readers[t := Chosen(w.session, ReadsFrom(w), seg, n)] - {t} == w.readers;
  }

  lemma FullReadFrom(w: World, body: Bodies, t: int, size: nat, reply: Reply, seg: LiveSegment)
    requires w.phase == Started && !w.fatal && LiveInv(w.live) && w.curl.None? && t !in w.readers && 0 < size
    requires Lookup(w.live.segs, ReadsFrom(w)) == Some(seg)
    requires FullAnswer(reply, seg, ReadsFrom(w) - seg.byteOffset, body)
    ensures ReadDelivers(w, body, t, size, reply, seg)
  {
    ReadIsAimed(w, t, size, seg);
    FullReadOnceAimed(w, Choose(Begin(w, t, size), t), body, t, size, reply, seg);
  }

  lemma AimedReadLeaves(w: World, chosen: World, body: Bodies, t: int, reply: Reply, seg: LiveSegment, n: nat)
    requires w.phase == Started && w.curl.None? && t !in w.readers && Aimed(w, chosen, t, seg, n)
    requires FullAnswer(reply, seg, ReadsFrom(w) - seg.byteOffset, body)
    requires ReadsFrom(w) - seg.byteOffset + n <= seg.byteSize
    ensures var locked, offset := Lock(chosen, t), ReadsFrom(w) - seg.byteOffset;
            && t in locked.readers && locked.readers[t] == Fetching(w.session, ReadsFrom(w), seg, n)
            && Plausible(reply, seg, offset, body) && 0 <= offset && offset + n <= |body(seg.key)|
            && Finish(locked, t, reply) == AfterFullRead(w, n, body(seg.key)[offset..offset + n])
  {
    var offset := ReadsFrom(w) - seg.byteOffset;
    AimedReadIsGiven(chosen, t, seg, n, reply, body);
    GivenLeaves(w, chosen, t, seg, n, body(seg.key)[offset..offset + n]);
  }

  lemma FullReadOnceAimed(w: World, chosen: World, body: Bodies, t: int, size: nat, reply: Reply, seg: LiveSegment)
    requires w.phase == Started && w.curl.None? && t !in w.readers && 0 < Min(size, seg.End() - ReadsFrom(w))
    requires t in Begin(w, t, size).readers && Begin(w, t, size).readers[t].Began?
    requires chosen == Choose(Begin(w, t, size), t)
    requires Aimed(w, chosen, t, seg, Min(size, seg.End() - ReadsFrom(w)))
    requires FullAnswer(reply, seg, ReadsFrom(w) - seg.byteOffset, body)
    ensures ReadDelivers(w, body, t, size, reply, seg)
  {
    AimedReadLeaves(w, chosen, body, t, reply, seg, Min(size, seg.End() - ReadsFrom(w)));
    var locked := Lock(chosen, t);
    RunOfFour(w, chosen, locked, t, size, reply, body);
  }

  lemma RunOfFour(w: World, chosen: World, locked: World, t: int, size: nat, reply: Reply, body: Bodies)
    requires w.phase == Started && t !in w.readers
    requires t in Begin(w, t, size).readers && Begin(w, t, size).readers[t].Began?
    requires chosen == Choose(Begin(w, t, size), t)
    requires t in chosen.readers && chosen.readers[t].Chosen? && chosen.curl.None? && locked == Lock(chosen, t)
    requires t in locked.readers && locked.readers[t].Fetching?
    requires Plausible(reply, locked.readers[t].seg, locked.readers[t].position - locked.readers[t].seg.byteOffset,
                       body)
    ensures var read := [ReadBegin(t, size), ReadChoose(t), ReadLock(t), ReadFinish(t, reply)];
            Runs(w, read, body) && End(w, read) == Finish(locked, t, reply)
  {
    FourSteps(w, ReadBegin(t, size), ReadChoose(t), ReadLock(t), ReadFinish(t, reply), body);
  }

  /** In every reachable state a read nobody disturbs, of a byte the stream has, answered in full, hands over exactly as
      much as it asked for and the segment still holds, from the reader's place or the first available byte. */
  lemma UndisturbedReadDelivers(steps: seq<Step>, body: Bodies, t: int, size: nat, reply: Reply, seg: LiveSegment)
    requires Runs(NEW, steps, body)
    requires var w := End(NEW, steps);
             && w.phase == Started && !w.fatal && w.curl.None? && t !in w.readers && 0 < size
             && Lookup(w.live.segs, ReadsFrom(w)) == Some(seg)
             && FullAnswer(reply, seg, ReadsFrom(w) - seg.byteOffset, body)
    ensures ReadDelivers(End(NEW, steps), body, t, size, reply, seg)
  {
    assert LiveInv(End(NEW, steps).live) by { RunKeepsInv(NEW, steps, body); }
    FullReadFrom(End(NEW, steps), body, t, size, reply, seg);
  }

  /** A byte the buffer still lists is one the stream has, so such a read finds its segment. */
  lemma ReadFindsItsSegment(w: World)
    requires LiveInv(w.live) && !Overtaken(w.live) && ReadsFrom(w) < w.live.totalBytes
    ensures Lookup(w.live.segs, ReadsFrom(w)).Some?
  {
    FirstAvailableOffsetInside(w.live);
    FromHeadIsHeld(w.live, ReadsFrom(w));
  }

  /** At the tail or in a gap a read ends with nothing given and no transfer begun. */
  lemma NothingToRead(w: World, t: int, size: nat)
    requires w.Open() && !w.fatal && t !in w.readers && 0 < size && Lookup(w.live.segs, ReadsFrom(w)).None?
    ensures var after := Apply(Apply(w, ReadBegin(t, size)), ReadChoose(t));
            && after.readers == w.readers && after.curl == w.curl
            && after.log == if ReadsFrom(w) == w.live.position then w.log else w.log + [Moved(w.session, ReadsFrom(w))]
  {
    var began := Apply(w, ReadBegin(t, size));
    assert began.readers - {t} == w.readers;
  }

  /** A seek of an open stream that is not dead puts the reader exactly where `LiveStream.SeekLandsExactly` says, and
      the player knows; a request that cannot be resolved, a dead stream and a closed one are left as they are. */
  lemma SeekMovesTheReader(w: World, offset: int, whence: Whence)
    ensures var asked := ResolveSeek(offset, whence, w.live.position, w.live.totalBytes);
            var after := Apply(w, Seek(offset, whence));
            && (!w.Open() || w.fatal || asked.None? ==> after == w)
            && (w.Open() && !w.fatal && asked.Some? ==>
                  var to := SeekTarget(w.live, asked.value);
                  after == w.(live := w.live.(position := to), log := w.log + [Moved(w.session, to)]))
  {
  }

  // ---- The end of a stream, and whose refresh it is ----

  predicate Reopens(step: Step) { step.OpenBegin? || step.OpenFailed? || step.Close? }

  /** Once the stream is marked dead nothing is delivered or moved until it is closed or opened again. */
  lemma {:induction false} DeadStreamStaysDead(w: World, steps: seq<Step>, body: Bodies)
    requires Runs(w, steps, body) && w.phase == Started && w.fatal && w.readers == map[]
    requires forall i :: 0 <= i < |steps| ==> !Reopens(steps[i])
    ensures var e := End(w, steps);
            e.fatal && e.readers == map[] && e.log == w.log && e.live.position == w.live.position && e.phase == Started
    decreases |steps|
  {
    if steps != [] {
      DeadStep(w, steps[0], body);
      DeadStreamStaysDead(Apply(w, steps[0]), steps[1..], body);
    }
  }

  lemma DeadStep(w: World, step: Step, body: Bodies)
    requires Enabled(w, step, body) && w.phase == Started && w.fatal && w.readers == map[] && !Reopens(step)
    ensures var e := Apply(w, step);
            e.fatal && e.readers == map[] && e.log == w.log && e.live.position == w.live.position && e.phase == Started
  {
    if step.RefreshEnd? { MergeLaysItsEntries(w.live, step.manifest); }
  }

  /** A refresh remembers the session it began in until it ends. */
  lemma {:induction false} RefreshRemembersItsSession(w: World, steps: seq<Step>, t: int, body: Bodies)
    requires Runs(w, steps, body) && t in w.refreshes
    requires forall i :: 0 <= i < |steps| ==> !((steps[i].RefreshEnd? || steps[i].RefreshFatal?) && steps[i].t == t)
    ensures t in End(w, steps).refreshes && End(w, steps).refreshes[t] == w.refreshes[t]
    decreases |steps|
  {
    if steps != [] { RefreshRemembersItsSession(Apply(w, steps[0]), steps[1..], t, body); }
  }

  lemma RefreshEndsForItsSession(w: World, t: int, m: Manifest)
    requires t in w.refreshes
    ensures var own := w.Open() && w.session == w.refreshes[t];
            && Apply(w, RefreshEnd(t, m)).live == (if own then Prune(Merge(w.live, m)) else w.live)
            && (Apply(w, RefreshFatal(t)).fatal <==> w.fatal || own)
  {
  }

  /** A manifest reaches the stream its refresh began for and no other: with the same session still open it is merged
      and pruned, after a close or a new open it changes nothing, however long it was on its way. */
  lemma ManifestReachesItsOwnStream(w: World, steps: seq<Step>, t: int, m: Manifest, body: Bodies)
    requires w.Open() && t !in w.refreshes && Runs(Apply(w, RefreshBegin(t)), steps, body)
    requires forall i :: 0 <= i < |steps| ==> !((steps[i].RefreshEnd? || steps[i].RefreshFatal?) && steps[i].t == t)
    ensures var before := End(Apply(w, RefreshBegin(t)), steps);
            var own := before.Open() && before.session == w.session;
            && t in before.refreshes
            && Apply(before, RefreshEnd(t, m)).live == (if own then Prune(Merge(before.live, m)) else before.live)
            && (Apply(before, RefreshFatal(t)).fatal <==> before.fatal || own)
  {
    var began := Apply(w, RefreshBegin(t));
    assert began.refreshes[t] == w.session;
    RefreshRemembersItsSession(began, steps, t, body);
    RefreshEndsForItsSession(End(began, steps), t, m);
  }
}
