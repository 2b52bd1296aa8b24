/**
 Reading an in-progress recording under concurrency (src/DispatcharrClient.cpp): reads fetch whole segments into a
 one-segment cache while refreshes, seeks, opens and closes run wherever the state lock is released.
 */
module RecordingReads {
  import opened Common
  import opened Playback
  import opened Recording
  import Runs = RecordingRuns
  import opened Segments

  /** What each segment URL really holds. */
  type Bodies = string -> seq<byte>

  type RecReader = Reader<string>

  /** `kept` is every started session's list; the stream itself is the run's. */
  datatype World = World(run: Runs.World, position: int, cachedOffset: int, cachedBytes: seq<byte>,
                         kept: map<nat, seq<RecSegment>>, readers: map<int, RecReader>, curl: Option<int>,
                         log: seq<Event>)
  {
    function Session(): nat { run.session }

    function Segs(): seq<RecSegment> { run.stream.segs }

    predicate Started() { run.phase == Runs.Started }
  }

  function New(parser: Runs.Parser): World { World(Runs.New(parser), 0, -1, [], map[], map[], None, []) }

  /** How one response to a whole-segment GET is taken; the 401 comes first even when the transfer failed. */
  datatype SegmentOutcome = RefreshApiKeyAndRetry | RetryTransient | SegmentNotFound | FailPermanently | Usable

  predicate IsTransient(transferOk: bool, status: int) {
    !transferOk || status == 500 || status == 502 || status == 503 || status == 504
  }

  function Classify(transferOk: bool, status: int, keyAlreadyRefreshed: bool): SegmentOutcome {
    if status == 401 && !keyAlreadyRefreshed then RefreshApiKeyAndRetry
    else if IsTransient(transferOk, status) then RetryTransient
    else if status == 404 then SegmentNotFound
    else if status != 200 then FailPermanently
    else Usable
  }

  datatype Step =
    | StreamChanges(step: Runs.Step)
    | ReadBegin(t: int, size: nat) | ReadChoose(t: int) | ReadLock(t: int)
    | Response(t: int, transferOk: bool, status: int, keyAlreadyRefreshed: bool, sent: seq<byte>)
    | ReadGivesUp(t: int)
    | Seek(offset: int, whence: Whence)

  /** Opening and closing wait for the curl mutex, and the player reads only once the open has returned. What a complete
      200 sends is the segment's body, or a prefix of it. */
  ghost predicate Enabled(w: World, step: Step, body: Bodies) {
    match step
    case StreamChanges(s) => Runs.Enabled(w.run, s) && (s.OpenBegin? || s.Close? ==> w.curl.None?)
    case ReadBegin(t, _) => w.run.phase != Runs.Cold && t !in w.readers
    case ReadChoose(t) => t in w.readers && w.readers[t].Began?
    case ReadLock(t) => t in w.readers && w.readers[t].Chosen? && w.curl.None?
    case Response(t, ok, status, refreshed, sent) =>
      && t in w.readers && w.readers[t].Fetching?
      && (ok && status == 200 ==> sent <= body(w.readers[t].seg.key))
    case ReadGivesUp(t) => t in w.readers && w.readers[t].Fetching?
    case Seek(_, _) => true
  }

  // ---- What a read does ----

  function MoveTo(w: World, to: int): World {
    w.(position := to, log := w.log + [Moved(w.Session(), to)])
  }

  function Choose(w: World, t: int): World
    requires t in w.readers && w.readers[t].Began?
  {
    var r := w.readers[t];
    var found := Lookup(w.Segs(), w.position);
    if !w.run.SameStream(r.session) || w.position >= w.run.stream.totalBytes || found.None? then
      w.(readers := w.readers - {t})
    else w.(readers := w.readers[t := Chosen(r.session, w.position, found.value, r.want)])
  }

  predicate StillThere(w: World, r: RecReader)
    requires !r.Began?
  {
    w.run.SameStream(r.session) && w.position == r.position
  }

  /** How much of the cached segment this read may take. */
  function Take(w: World, r: RecReader): Option<nat>
    requires !r.Began?
  {
    SegmentReadSize(r.position - r.seg.byteOffset, |w.cachedBytes|, r.want)
  }

  /** The end of a read whose segment is cached: None is the player's "try again" or the end, position untouched. */
  function Given(w: World, r: RecReader): (bytes: Option<seq<byte>>)
    requires !r.Began?
  {
    if !StillThere(w, r) then None
    else match Take(w, r)
         case None => None
         case Some(n) =>
           var offset := r.position - r.seg.byteOffset;
           Some(w.cachedBytes[offset..offset + n])
  }

  function Deliver(w: World, r: RecReader): World
    requires !r.Began?
  {
    match Given(w, r)
    case None => w
    case Some(bytes) => w.(position := w.position + |bytes|, log := w.log + [Delivered(r.session, r.position, bytes)])
  }

  function Release(w: World, t: int): World { w.(readers := w.readers - {t}, curl := None) }

  function Lock(w: World, t: int): World
    requires t in w.readers && w.readers[t].Chosen?
  {
    var r := w.readers[t];
    if !StillThere(w, r) then w.(readers := w.readers - {t})
    else if w.cachedOffset == r.seg.byteOffset then Deliver(w, r).(readers := w.readers - {t})
    else if w.run.stream.gone then w.(readers := w.readers - {t})
    else w.(readers := w.readers[t := Fetching(r.session, r.position, r.seg, r.want)], curl := Some(t))
  }

  /** The fetched body replaces the cached one only here, offset and bytes together. */
  function Cached(w: World, r: RecReader, sent: seq<byte>): World
    requires !r.Began?
  {
    w.(cachedOffset := r.seg.byteOffset, cachedBytes := sent[..Min(|sent|, Max(0, r.seg.byteSize))])
  }

  /** Anything but a usable answer leaves the cache alone; what to retry ends in another response or in giving up. */
  function Respond(w: World, t: int, outcome: SegmentOutcome, sent: seq<byte>): World
    requires t in w.readers && w.readers[t].Fetching?
  {
    var r := w.readers[t];
    if !w.run.SameStream(r.session) then Release(w, t)
    else if outcome == Usable then Release(Deliver(Cached(w, r, sent), r), t)
    else if outcome == FailPermanently then Release(w, t)
    else w
  }

  function SeekTarget(w: World, requested: int): int {
    var s := w.run.stream;
    var tailTarget := TailTarget(s.segs, s.totalBytes, 1);
    if !s.finished && requested > tailTarget then ClampSeekToTail(requested, w.position, tailTarget) else requested
  }

  function SeekStep(w: World, offset: int, whence: Whence): World {
    if !w.run.Open() then w
    else match ResolveSeek(offset, whence, w.position, w.run.stream.totalBytes)
         case None => w
         case Some(requested) => MoveTo(w, SeekTarget(w, requested))
  }

  /** The stream changes under the reads: a new session forgets everything the old one had cached. */
  function StreamStep(w: World, s: Runs.Step): World
    requires Runs.Enabled(w.run, s)
  {
    var run := Runs.Apply(w.run, s);
    var kept := if run.phase == Runs.Started then w.kept[run.session := run.stream.segs] else w.kept;
    if run.session != w.run.session then
      w.(run := run, kept := kept, position := 0, cachedOffset := -1, cachedBytes := [])
    else if s.OpenDone? then MoveTo(w.(run := run, kept := kept), 0)
    else w.(run := run, kept := kept)
  }

  ghost function Apply(w: World, step: Step, body: Bodies): World
    requires Enabled(w, step, body)
  {
    match step
    case StreamChanges(s) => StreamStep(w, s)
    case ReadBegin(t, size) =>
      if !w.run.Open() || size == 0 then w else w.(readers := w.readers[t := Began(w.Session(), size)])
    case ReadChoose(t) => Choose(w, t)
    case ReadLock(t) => Lock(w, t)
    case Response(t, ok, status, refreshed, sent) => Respond(w, t, Classify(ok, status, refreshed), sent)
    case ReadGivesUp(t) => Release(w, t)
    case Seek(offset, whence) => SeekStep(w, offset, whence)
  }

  ghost predicate Reaches(w: World, steps: seq<Step>, body: Bodies)
    decreases |steps|
  {
    steps == [] || (Enabled(w, steps[0], body) && Reaches(Apply(w, steps[0], body), steps[1..], body))
  }

  ghost function End(w: World, steps: seq<Step>, body: Bodies): World
    requires Reaches(w, steps, body)
    decreases |steps|
  {
    if steps == [] then w else End(Apply(w, steps[0], body), steps[1..], body)
  }

  // ---- The invariant ----

  ghost predicate KeptOk(w: World) {
    && (w.Session() in w.kept <==> w.Started())
    && (w.Started() ==> w.kept[w.Session()] == w.Segs())
    && (forall k | k in w.kept :: k <= w.Session() && Contiguous(w.kept[k], EndOf(w.kept[k])))
  }

  ghost predicate ReaderOk(kept: map<nat, seq<RecSegment>>, r: RecReader) {
    r.session in kept && (!r.Began? ==> r.seg in kept[r.session] && r.seg.Covers(r.position))
  }

  ghost predicate ReadersOk(w: World) {
    forall t | t in w.readers :: ReaderOk(w.kept, w.readers[t])
  }

  ghost predicate CurlOk(w: World) {
    && (forall t | t in w.readers && w.readers[t].Fetching? ::
          w.curl == Some(t) && w.readers[t].session == w.Session() && w.Started())
    && (w.curl.Some? ==> w.curl.value in w.readers && w.readers[w.curl.value].Fetching?)
  }

  /** The cached bytes are a prefix of the body of the segment their offset names. */
  ghost predicate Caches(s: RecSegment, offset: int, bytes: seq<byte>, body: Bodies) {
    s.byteOffset == offset && 0 < s.byteSize && |bytes| <= s.byteSize && bytes <= body(s.key)
  }

  ghost predicate CacheOk(w: World, body: Bodies) {
    w.cachedOffset == -1 || (w.Started() && exists s :: s in w.Segs() && Caches(s, w.cachedOffset, w.cachedBytes, body))
  }

  ghost predicate PlaybackOk(w: World, body: Bodies) {
    w.Started() ==>
      && w.position == PlayedOver(w.log).start + |PlayedOver(w.log).bytes|
      && StreamHolds(w.Segs(), body, PlayedOver(w.log).start, PlayedOver(w.log).bytes)
  }

  /** Everything but the stream's own invariant. */
  ghost predicate ReadsOk(w: World, body: Bodies) {
    && 0 <= w.position && KeptOk(w) && ReadersOk(w) && CurlOk(w)
    && CacheOk(w, body) && LogHolds(w.log, w.kept, body) && PlaybackOk(w, body)
  }

  ghost predicate Inv(w: World, body: Bodies) { Runs.Inv(w.run) && ReadsOk(w, body) }

  // ---- Every step keeps it ----

  lemma MoveKeepsReads(w: World, to: int, body: Bodies)
    requires ReadsOk(w, body) && 0 <= to
    ensures ReadsOk(MoveTo(w, to), body)
  {
    PlayedAfter(w.log, Moved(w.Session(), to));
  }

  lemma WithReader(w: World, t: int, r: RecReader, body: Bodies)
    requires ReadsOk(w, body) && ReaderOk(w.kept, r) && !r.Fetching? && (t in w.readers ==> !w.readers[t].Fetching?)
    ensures ReadsOk(w.(readers := w.readers[t := r]), body)
    ensures ReadsOk(w.(readers := w.readers - {t}), body)
  {
  }

  lemma WithTransfer(w: World, t: int, r: RecReader, body: Bodies)
    requires ReadsOk(w, body) && ReaderOk(w.kept, r) && r.Fetching? && w.curl.None?
    requires r.session == w.Session() && w.Started()
    ensures ReadsOk(w.(readers := w.readers[t := r], curl := Some(t)), body)
  {
  }

  lemma ReleaseKeepsReads(w: World, t: int, body: Bodies)
    requires ReadsOk(w, body) && t in w.readers && w.readers[t].Fetching?
    ensures ReadsOk(Release(w, t), body)
  {
  }

  lemma ChooseKeepsReads(w: World, t: int, body: Bodies)
    requires ReadsOk(w, body) && t in w.readers && w.readers[t].Began?
    ensures ReadsOk(Choose(w, t), body)
  {
    var r := w.readers[t];
    WithReader(w, t, r, body);
    var found := Lookup(w.Segs(), w.position);
    if w.run.SameStream(r.session) && found.Some? {
      LookupIsMember(w.Segs(), w.position);
      WithReader(w, t, Chosen(r.session, w.position, found.value, r.want), body);
    }
  }

  /** Two segments that hold bytes never start at the same offset, placeholders between them or not. */
  lemma OneSegmentPerOffset(segs: seq<RecSegment>, a: RecSegment, b: RecSegment)
    requires Contiguous(segs, EndOf(segs)) && a in segs && b in segs
    requires a.byteOffset == b.byteOffset && 0 < a.byteSize && 0 < b.byteSize
    ensures a == b
  {
    var i :| 0 <= i < |segs| && segs[i] == a;
    var j :| 0 <= j < |segs| && segs[j] == b;
    if i < j { OffsetsGrow(segs, EndOf(segs), i, j); }
    if j < i { OffsetsGrow(segs, EndOf(segs), j, i); }
  }

  lemma CutIsHeld(segs: seq<RecSegment>, s: RecSegment, bytes: seq<byte>, offset: nat, n: nat, body: Bodies)
    requires Contiguous(segs, EndOf(segs)) && s in segs && Caches(s, s.byteOffset, bytes, body) && offset + n <= |bytes|
    ensures StreamHolds(segs, body, s.byteOffset + offset, bytes[offset..offset + n])
  {
    assert bytes == body(s.key)[..|bytes|];
    assert bytes[offset..offset + n] == body(s.key)[offset..offset + n];
    PieceIsHeld(segs, EndOf(segs), body, s, offset, bytes[offset..offset + n]);
  }

  /** The one segment the cache names is the one the reader chose. */
  lemma CacheNames(w: World, seg: RecSegment, body: Bodies)
    requires KeptOk(w) && CacheOk(w, body) && w.Started()
    requires seg in w.Segs() && 0 < seg.byteSize && w.cachedOffset == seg.byteOffset
    ensures Caches(seg, w.cachedOffset, w.cachedBytes, body)
  {
    var i :| 0 <= i < |w.Segs()| && w.Segs()[i] == seg;
    assert seg.byteOffset >= 0;
    var s :| s in w.Segs() && Caches(s, w.cachedOffset, w.cachedBytes, body);
    OneSegmentPerOffset(w.Segs(), s, seg);
  }

  /** A piece of the cached bytes, from the read's place in its segment, is the recording at the read's position. */
  lemma CachedPieceIsHeld(w: World, r: RecReader, offset: nat, n: nat, body: Bodies)
    requires KeptOk(w) && CacheOk(w, body) && w.Started() && !r.Began? && ReaderOk(w.kept, r)
    requires r.session == w.Session() && w.cachedOffset == r.seg.byteOffset
    requires offset == r.position - r.seg.byteOffset && offset + n <= |w.cachedBytes|
    ensures StreamHolds(w.Segs(), body, r.position, w.cachedBytes[offset..offset + n])
  {
    ReaderSegment(w, r);
    CacheNames(w, r.seg, body);
    CutIsHeld(w.Segs(), r.seg, w.cachedBytes, offset, n, body);
  }

  lemma GivenIsTheRecording(w: World, r: RecReader, body: Bodies)
    requires KeptOk(w) && CacheOk(w, body) && w.Started()
    requires !r.Began? && ReaderOk(w.kept, r) && w.cachedOffset == r.seg.byteOffset && Given(w, r).Some?
    ensures r.session == w.Session() && r.position == w.position
    ensures StreamHolds(w.Segs(), body, r.position, Given(w, r).value)
  {
    GivenIsACut(w, r);
    CachedPieceIsHeld(w, r, r.position - r.seg.byteOffset, |Given(w, r).value|, body);
  }

  lemma GivenIsACut(w: World, r: RecReader)
    requires !r.Began? && Given(w, r).Some?
    ensures var offset, n := r.position - r.seg.byteOffset, |Given(w, r).value|;
            && r.session == w.Session() && r.position == w.position && 0 <= offset && offset + n <= |w.cachedBytes|
            && Given(w, r).value == w.cachedBytes[offset..offset + n]
  {
  }

  lemma ReaderSegment(w: World, r: RecReader)
    requires KeptOk(w) && !r.Began? && ReaderOk(w.kept, r) && r.session == w.Session() && w.Started()
    ensures r.seg in w.Segs() && 0 < r.seg.byteSize && r.seg.byteOffset <= r.position
    ensures Contiguous(w.Segs(), EndOf(w.Segs()))
  {
  }

  lemma DeliveryIsLogged(w: World, bytes: seq<byte>, body: Bodies)
    requires KeptOk(w) && LogHolds(w.log, w.kept, body) && PlaybackOk(w, body) && w.Started()
    requires StreamHolds(w.Segs(), body, w.position, bytes)
    ensures var w' := w.(position := w.position + |bytes|, log := w.log + [Delivered(w.Session(), w.position, bytes)]);
            LogHolds(w'.log, w'.kept, body) && PlaybackOk(w', body)
  {
    PlayedAfter(w.log, Delivered(w.Session(), w.position, bytes));
    HoldsConcat(w.Segs(), body, PlayedOver(w.log).start, PlayedOver(w.log).bytes, bytes);
  }

  lemma DeliverKeepsReads(w: World, r: RecReader, body: Bodies)
    requires ReadsOk(w, body) && !r.Began? && ReaderOk(w.kept, r) && w.cachedOffset == r.seg.byteOffset && w.Started()
    ensures ReadsOk(Deliver(w, r), body)
  {
    if Given(w, r).Some? {
      GivenIsTheRecording(w, r, body);
      DeliveryIsLogged(w, Given(w, r).value, body);
    }
  }

  lemma DeliverFrame(w: World, r: RecReader)
    requires !r.Began?
    ensures var d := Deliver(w, r); d == w.(position := d.position, log := d.log)
  {
  }

  lemma ForgetReader(w: World, t: int, body: Bodies)
    requires ReadsOk(w, body) && t in w.readers && !w.readers[t].Fetching?
    ensures ReadsOk(w.(readers := w.readers - {t}), body)
  {
    WithReader(w, t, w.readers[t], body);
  }

  lemma CachedReadKeepsReads(w: World, t: int, body: Bodies)
    requires ReadsOk(w, body) && t in w.readers && w.readers[t].Chosen?
    requires StillThere(w, w.readers[t]) && w.cachedOffset == w.readers[t].seg.byteOffset
    ensures ReadsOk(Deliver(w, w.readers[t]).(readers := w.readers - {t}), body)
  {
    var r := w.readers[t];
    var d := Deliver(w, r);
    DeliverKeepsReads(w, r, body);
    DeliverFrame(w, r);
    ForgetReader(d, t, body);
  }

  lemma LockKeepsReads(w: World, t: int, body: Bodies)
    requires ReadsOk(w, body) && t in w.readers && w.readers[t].Chosen? && w.curl.None?
    ensures ReadsOk(Lock(w, t), body)
  {
    var r := w.readers[t];
    WithReader(w, t, r, body);
    if StillThere(w, r) {
      if w.cachedOffset == r.seg.byteOffset {
        CachedReadKeepsReads(w, t, body);
      } else if !w.run.stream.gone {
        WithTransfer(w, t, Fetching(r.session, r.position, r.seg, r.want), body);
      }
    }
  }

  lemma CachedKeepsReads(w: World, r: RecReader, sent: seq<byte>, body: Bodies)
    requires ReadsOk(w, body) && !r.Began? && ReaderOk(w.kept, r) && r.session == w.Session() && w.Started()
    requires sent <= body(r.seg.key)
    ensures ReadsOk(Cached(w, r, sent), body)
  {
    var w' := Cached(w, r, sent);
    assert Caches(r.seg, w'.cachedOffset, w'.cachedBytes, body);
    assert r.seg in w'.Segs();
  }

  lemma RespondKeepsReads(w: World, t: int, outcome: SegmentOutcome, sent: seq<byte>, body: Bodies)
    requires ReadsOk(w, body) && t in w.readers && w.readers[t].Fetching?
    requires outcome == Usable ==> sent <= body(w.readers[t].seg.key)
    ensures ReadsOk(Respond(w, t, outcome, sent), body)
  {
    var r := w.readers[t];
    ReleaseKeepsReads(w, t, body);
    if outcome == Usable {
      CachedKeepsReads(w, r, sent, body);
      DeliverKeepsReads(Cached(w, r, sent), r, body);
      ReleaseKeepsReads(Deliver(Cached(w, r, sent), r), t, body);
    }
  }

  /** Within a session the stream's list only grows; and a session never comes back. */
  ghost predicate GrowsTo(run: Runs.World, s: Runs.Step, after: Runs.World) {
    && run.session <= after.session
    && (after.session == run.session ==> run.stream.segs <= after.stream.segs)
    && (after.session == run.session ==>
          run.phase == after.phase || (s.OpenDone? && run.phase == Runs.Cold && after.phase == Runs.Started))
    && (after.session != run.session ==> after.phase != Runs.Started)
  }

  lemma StreamOnlyGrows(run: Runs.World, s: Runs.Step)
    requires Runs.Enabled(run, s)
    ensures GrowsTo(run, s, Runs.Apply(run, s))
  {
    if s.ProbesDone? { CompleteOnlyGrows(run.stream, run.refresh.value.snap, s.probed, s.at); }
  }

  lemma StreamIsContiguous(run: Runs.World)
    requires Runs.Inv(run) && run.Open()
    ensures Contiguous(run.stream.segs, EndOf(run.stream.segs))
  {
    assert Runs.MirrorsStream(run.stream, run.Listed(run.stream.id));
  }

  lemma GrowthKeepsCache(w: World, run: Runs.World, body: Bodies)
    requires CacheOk(w, body) && w.Started() && run.phase == Runs.Started && w.Segs() <= run.stream.segs
    ensures CacheOk(w.(run := run), body)
  {
    if w.cachedOffset != -1 {
      var s :| s in w.Segs() && Caches(s, w.cachedOffset, w.cachedBytes, body);
      assert s in run.stream.segs;
    }
  }

  lemma GrowthKeepsLog(w: World, run: Runs.World, body: Bodies)
    requires KeptOk(w) && LogHolds(w.log, w.kept, body) && PlaybackOk(w, body) && w.Started()
    requires run.session == w.Session() && run.phase == Runs.Started && w.Segs() <= run.stream.segs
    ensures LogHolds(w.log, w.kept[run.session := run.stream.segs], body) && PlaybackOk(w.(run := run), body)
  {
    LogHoldsLonger(w.log, w.kept, body, run.session, run.stream.segs);
    HoldsInLonger(w.Segs(), run.stream.segs, body, PlayedOver(w.log).start, PlayedOver(w.log).bytes);
  }

  lemma GrowthKeepsReads(w: World, run: Runs.World, body: Bodies)
    requires ReadsOk(w, body) && w.Started() && run.session == w.Session() && run.phase == Runs.Started
    requires w.Segs() <= run.stream.segs && Contiguous(run.stream.segs, EndOf(run.stream.segs))
    ensures ReadsOk(w.(run := run, kept := w.kept[run.session := run.stream.segs]), body)
  {
    GrowthKeepsLog(w, run, body);
    ReadersInLonger(w, run.stream.segs);
    GrowthKeepsCache(w, run, body);
  }

  lemma ReadersInLonger(w: World, longer: seq<RecSegment>)
    requires KeptOk(w) && ReadersOk(w) && w.Started() && w.Segs() <= longer
    ensures forall t | t in w.readers :: ReaderOk(w.kept[w.Session() := longer], w.readers[t])
  {
  }

  lemma StartKeepsKept(w: World, run: Runs.World)
    requires KeptOk(w) && ReadersOk(w) && CurlOk(w) && w.run.phase == Runs.Cold
    requires run.session == w.Session() && run.phase == Runs.Started
    requires Contiguous(run.stream.segs, EndOf(run.stream.segs))
    ensures var w' := w.(run := run, kept := w.kept[run.session := run.stream.segs]);
            KeptOk(w') && ReadersOk(w') && CurlOk(w')
  {
  }

  lemma StartKeepsLog(w: World, run: Runs.World, body: Bodies)
    requires KeptOk(w) && LogHolds(w.log, w.kept, body) && w.run.phase == Runs.Cold && run.session == w.Session()
    ensures var w' := MoveTo(w.(run := run, kept := w.kept[run.session := run.stream.segs]), 0);
            LogHolds(w'.log, w'.kept, body) && PlaybackOk(w', body)
  {
    PlayedAfter(w.log, Moved(run.session, 0));
    assert StreamHolds(run.stream.segs, body, 0, []);
  }

  lemma StartKeepsReads(w: World, run: Runs.World, body: Bodies)
    requires ReadsOk(w, body) && w.run.phase == Runs.Cold && run.session == w.Session() && run.phase == Runs.Started
    requires Contiguous(run.stream.segs, EndOf(run.stream.segs))
    ensures ReadsOk(MoveTo(w.(run := run, kept := w.kept[run.session := run.stream.segs]), 0), body)
  {
    StartKeepsKept(w, run);
    StartKeepsLog(w, run, body);
    assert w.cachedOffset == -1;
  }

  lemma SessionEndKeepsReads(w: World, run: Runs.World, body: Bodies)
    requires ReadsOk(w, body) && run.session > w.Session() && run.phase != Runs.Started
    requires w.curl.None?
    ensures ReadsOk(w.(run := run, position := 0, cachedOffset := -1, cachedBytes := []), body)
  {
  }

  lemma TransferNeedsStarted(w: World)
    requires CurlOk(w)
    ensures w.curl.Some? ==> w.Started()
  {
    if w.curl.Some? {
      var t := w.curl.value;
      assert t in w.readers && w.readers[t].Fetching?;
      assert w.curl == Some(t) && w.Started();
    }
  }

  lemma StreamStepKeepsReads(w: World, s: Runs.Step, run: Runs.World, body: Bodies)
    requires ReadsOk(w, body) && Enabled(w, StreamChanges(s), body) && run == Runs.Apply(w.run, s)
    requires run.Open() ==> Contiguous(run.stream.segs, EndOf(run.stream.segs))
    requires GrowsTo(w.run, s, run)
    ensures ReadsOk(StreamStep(w, s), body)
  {
    if run.session != w.run.session {
      TransferNeedsStarted(w);
      SessionEndKeepsReads(w, run, body);
    } else if s.OpenDone? {
      StartKeepsReads(w, run, body);
    } else if w.Started() {
      GrowthKeepsReads(w, run, body);
    }
  }

  lemma StreamStepKeepsInv(w: World, s: Runs.Step, body: Bodies)
    requires Inv(w, body) && Enabled(w, StreamChanges(s), body)
    ensures Inv(StreamStep(w, s), body)
  {
    var run := Runs.Apply(w.run, s);
    assert Runs.Inv(run) by { Runs.StepKeepsInv(w.run, s); }
    StreamOnlyGrows(w.run, s);
    if run.Open() { StreamIsContiguous(run); }
    StreamStepKeepsReads(w, s, run, body);
  }

  lemma ReadStepKeepsReads(w: World, step: Step, body: Bodies)
    requires ReadsOk(w, body) && Enabled(w, step, body) && !step.StreamChanges? && !step.Seek?
    ensures ReadsOk(Apply(w, step, body), body)
  {
    match step
    case ReadBegin(t, size) => if w.run.Open() && size > 0 { WithReader(w, t, Began(w.Session(), size), body); }
    case ReadChoose(t) => ChooseKeepsReads(w, t, body);
    case ReadLock(t) => LockKeepsReads(w, t, body);
    case Response(t, ok, status, refreshed, sent) =>
      RespondKeepsReads(w, t, Classify(ok, status, refreshed), sent, body);
    case ReadGivesUp(t) => ReleaseKeepsReads(w, t, body);
    case _ =>
  }

  lemma ReadStepKeepsStream(w: World, step: Step, body: Bodies)
    requires Enabled(w, step, body) && !step.StreamChanges?
    ensures Apply(w, step, body).run == w.run
  {
  }

  lemma SeekKeepsInv(w: World, offset: int, whence: Whence, body: Bodies)
    requires Inv(w, body)
    ensures Inv(SeekStep(w, offset, whence), body)
  {
    var r := ResolveSeek(offset, whence, w.position, w.run.stream.totalBytes);
    if r.Some? { MoveKeepsReads(w, SeekTarget(w, r.value), body); }
  }

  lemma StepKeepsInv(w: World, step: Step, body: Bodies)
    requires Inv(w, body) && Enabled(w, step, body)
    ensures Inv(Apply(w, step, body), body)
  {
    match step
    case StreamChanges(s) => StreamStepKeepsInv(w, s, body);
    case Seek(offset, whence) => SeekKeepsInv(w, offset, whence, body);
    case _ =>
      ReadStepKeepsStream(w, step, body);
      ReadStepKeepsReads(w, step, body);
  }

  lemma {:induction false} RunKeepsInv(w: World, steps: seq<Step>, body: Bodies)
    requires Inv(w, body) && Reaches(w, steps, body)
    ensures Inv(End(w, steps, body), body)
    decreases |steps|
  {
    if steps != [] {
      StepKeepsInv(w, steps[0], body);
      RunKeepsInv(Apply(w, steps[0], body), steps[1..], body);
    }
  }

  // ---- The theorems ----

  /** Under every interleaving, whatever any read ever handed over is the recording's stream at that place. */
  lemma EveryReadIsTheRecording(parser: Runs.Parser, steps: seq<Step>, body: Bodies, i: nat)
    requires Reaches(New(parser), steps, body)
    requires i < |End(New(parser), steps, body).log| && End(New(parser), steps, body).log[i].Delivered?
    ensures var w, e := End(New(parser), steps, body), End(New(parser), steps, body).log[i];
            e.session in w.kept && StreamHolds(w.kept[e.session], body, e.from, e.bytes)
  {
    RunKeepsInv(New(parser), steps, body);
  }

  /** Since the reader was last put somewhere the player has received the stream from there on without a break. */
  lemma PlaybackIsUninterrupted(parser: Runs.Parser, steps: seq<Step>, body: Bodies)
    requires Reaches(New(parser), steps, body) && End(New(parser), steps, body).Started()
    ensures var w, p := End(New(parser), steps, body), PlayedOver(End(New(parser), steps, body).log);
            w.position == p.start + |p.bytes| && StreamHolds(w.Segs(), body, p.start, p.bytes)
  {
    RunKeepsInv(New(parser), steps, body);
  }

  /** Failed fetches included, the cached bytes are a prefix of the body of the one segment their offset names. */
  lemma CachedBytesAreTheNamedSegments(parser: Runs.Parser, steps: seq<Step>, body: Bodies, s: RecSegment)
    requires Reaches(New(parser), steps, body) && End(New(parser), steps, body).Started()
    requires s in End(New(parser), steps, body).Segs() && 0 < s.byteSize
    requires s.byteOffset == End(New(parser), steps, body).cachedOffset
    ensures Caches(s, End(New(parser), steps, body).cachedOffset, End(New(parser), steps, body).cachedBytes, body)
  {
    RunKeepsInv(New(parser), steps, body);
    var w := End(New(parser), steps, body);
    CacheNames(w, s, body);
  }

  /** What one response does to the reader: it moves it by what it gives from where the read was aimed, or not. */
  ghost predicate MovesByWhatItGives(w: World, r: RecReader, after: World)
    requires !r.Began?
  {
    if after.log == w.log then after.position == w.position
    else
      && w.position == r.position && |after.log| == |w.log| + 1
      && after.log[|w.log|].Delivered? && after.log[|w.log|].from == r.position
      && after.position == r.position + |after.log[|w.log|].bytes|
  }

  lemma ResponseMoves(w: World, t: int, outcome: SegmentOutcome, sent: seq<byte>)
    requires t in w.readers && w.readers[t].Fetching?
    ensures var r, after := w.readers[t], Respond(w, t, outcome, sent);
            MovesByWhatItGives(w, r, after) && (!StillThere(w, r) ==> after.log == w.log)
  {
  }

  /** A response moves the reader only by what it gives, and gives nothing once a seek or another session overtook it;
      a session cannot be replaced while its transfer runs. */
  lemma OvertakenReadGivesNothing(parser: Runs.Parser, steps: seq<Step>, body: Bodies, t: int, outcome: SegmentOutcome,
                                  sent: seq<byte>)
    requires Reaches(New(parser), steps, body)
    requires t in End(New(parser), steps, body).readers && End(New(parser), steps, body).readers[t].Fetching?
    ensures var w := End(New(parser), steps, body);
            var r, after := w.readers[t], Respond(w, t, outcome, sent);
            && r.session == w.Session() && w.Started()
            && MovesByWhatItGives(w, r, after)
            && (!StillThere(w, r) ==> after.position == w.position && after.log == w.log)
  {
    RunKeepsInv(New(parser), steps, body);
    ResponseMoves(End(New(parser), steps, body), t, outcome, sent);
  }

  /** Where a seek lands: on the request itself in a finished recording, or up to the start of the last segment; past
      that it is held back there, unless the reader is further on. So never behind the reader on a forward request and
      never past the request. */
  lemma SeekLands(parser: Runs.Parser, steps: seq<Step>, body: Bodies, requested: int)
    requires Reaches(New(parser), steps, body) && End(New(parser), steps, body).run.Open() && 0 <= requested
    ensures var w := End(New(parser), steps, body);
            var s, to := w.run.stream, SeekTarget(w, requested);
            && 0 <= to <= requested
            && (requested >= w.position ==> to >= w.position)
            && var edge := if s.segs == [] then 0 else s.segs[|s.segs| - 1].byteOffset;
               to == (if s.finished || requested <= edge then requested else Max(edge, Min(w.position, requested)))
  {
    RunKeepsInv(New(parser), steps, body);
    var w := End(New(parser), steps, body);
    var s := w.run.stream;
    assert Runs.MirrorsStream(s, w.run.Listed(s.id));
    TailTargetIsStartPosition(s.segs, s.totalBytes, 1);
  }

  // ---- What a read gets ----

  /** What is cached, handed over and retried, for every response: a complete 200 is cached and, if the read is still in
      place, as much of it handed over as was asked for and is there; nothing else touches cache or reader's place. The
      fetch goes on exactly after a first 401, a failed transfer, a 500, 502, 503 or 504, and a 404. */
  lemma ResponseIsTakenIff(w: World, t: int, ok: bool, status: int, refreshed: bool, sent: seq<byte>)
    requires t in w.readers && w.readers[t].Fetching? && w.run.SameStream(w.readers[t].session)
    ensures var r, after := w.readers[t], Respond(w, t, Classify(ok, status, refreshed), sent);
            var whole := ok && status == 200;
            var again := (status == 401 && !refreshed) || !ok || status in {404, 500, 502, 503, 504};
            var cached, offset := sent[..Min(|sent|, Max(0, r.seg.byteSize))], r.position - r.seg.byteOffset;
            && (whole ==> after.cachedOffset == r.seg.byteOffset && after.cachedBytes == cached)
            && (!whole ==> after.cachedOffset == w.cachedOffset && after.cachedBytes == w.cachedBytes)
            && (whole && w.position == r.position && 0 <= offset < |cached| && 0 < r.want ==>
                  var given := cached[offset..offset + Min(r.want, |cached| - offset)];
                  && after.log == w.log + [Delivered(r.session, r.position, given)]
                  && after.position == w.position + |given|)
            && (!(whole && w.position == r.position && 0 <= offset < |cached| && 0 < r.want) ==>
                  after.log == w.log && after.position == w.position)
            && (!whole && again ==> after == w)
            && (whole || !again ==> after.readers == w.readers - {t} && after.curl.None?)
            && after.run == w.run && after.kept == w.kept
  {
    var r := w.readers[t];
    if ok && status == 200 { TakesWhatIsThere(Cached(w, r, sent), r); }
  }

  /** A read whose segment is cached takes as much as it asked for and the cache holds. */
  lemma TakesWhatIsThere(w: World, r: RecReader)
    requires !r.Began?
    ensures var offset, n := r.position - r.seg.byteOffset, |w.cachedBytes|;
            Take(w, r) == if 0 <= offset < n && 0 < r.want then Some(Min(r.want, n - offset)) else None
  {
  }

  /** A chosen read that is still in place is served from the cache when that holds its segment, else starts a transfer
      unless the content is gone; out of place it ends. */
  lemma LockMeans(w: World, t: int)
    requires t in w.readers && w.readers[t].Chosen? && w.curl.None?
    ensures var r, after := w.readers[t], Lock(w, t);
            var inPlace := w.run.Open() && w.Session() == r.session && w.position == r.position;
            var starts := inPlace && w.cachedOffset != r.seg.byteOffset && !w.run.stream.gone;
            && (starts ==> after == w.(readers := w.readers[t := Fetching(r.session, r.position, r.seg, r.want)],
                                       curl := Some(t)))
            && (!starts ==> after.readers == w.readers - {t} && after.curl.None?)
            && (!inPlace || w.cachedOffset != r.seg.byteOffset ==> after.position == w.position && after.log == w.log)
  {
  }

  /** The reader chose the segment under it and now holds the fetch, or hands over what is cached. */
  lemma ChooseAndLock(w: World, t: int, size: nat, seg: RecSegment)
    requires w.Started() && t !in w.readers && w.position < w.run.stream.totalBytes
    requires Lookup(w.Segs(), w.position) == Some(seg)
    ensures var began := w.(readers := w.readers[t := Began(w.Session(), size)]);
            var chosen := w.(readers := w.readers[t := Chosen(w.Session(), w.position, seg, size)]);
            && Choose(began, t) == chosen
            && (w.cachedOffset == seg.byteOffset ==>
                  Lock(chosen, t) == Deliver(w, Chosen(w.Session(), w.position, seg, size)))
            && (w.cachedOffset != seg.byteOffset && !w.run.stream.gone ==>
                  Lock(chosen, t) ==
                  w.(readers := w.readers[t := Fetching(w.Session(), w.position, seg, size)], curl := Some(t)))
  {
    var began := w.(readers := w.readers[t := Began(w.Session(), size)]);
    var chosen := w.(readers := w.readers[t := Chosen(w.Session(), w.position, seg, size)]);
    assert began.readers[t := chosen.readers[t]] == chosen.readers;
    assert chosen.readers - {t} == w.readers;
    assert chosen.readers[t := Fetching(w.Session(), w.position, seg, size)]
        == w.readers[t := Fetching(w.Session(), w.position, seg, size)];
  }

  /** What a read of `n` bytes leaves. */
  function AfterRead(w: World, given: seq<byte>): World {
    w.(position := w.position + |given|, log := w.log + [Delivered(w.Session(), w.position, given)])
  }

  ghost predicate CachedReadDelivers(w: World, body: Bodies, t: int, size: nat, seg: RecSegment) {
    var read, offset := [ReadBegin(t, size), ReadChoose(t), ReadLock(t)], w.position - seg.byteOffset;
    && 0 <= offset < |w.cachedBytes| && Reaches(w, read, body)
    && End(w, read, body) == AfterRead(w, w.cachedBytes[offset..offset + Min(size, |w.cachedBytes| - offset)])
  }

  lemma CachedReadFrom(w: World, body: Bodies, t: int, size: nat, seg: RecSegment)
    requires w.Started() && w.curl.None? && t !in w.readers && 0 < size && w.position < w.run.stream.totalBytes
    requires Lookup(w.Segs(), w.position) == Some(seg) && w.cachedOffset == seg.byteOffset
    requires 0 <= w.position - seg.byteOffset < |w.cachedBytes|
    ensures CachedReadDelivers(w, body, t, size, seg)
  {
    ChooseAndLock(w, t, size, seg);
    TakesWhatIsThere(w, Chosen(w.Session(), w.position, seg, size));
    var began := Apply(w, ReadBegin(t, size), body);
    var chosen := Apply(began, ReadChoose(t), body);
    var after := Apply(chosen, ReadLock(t), body);
    LastThree(w, began, chosen, after, ReadBegin(t, size), ReadChoose(t), ReadLock(t), body);
  }

  lemma LastThree(w: World, w1: World, w2: World, w3: World, a: Step, b: Step, c: Step, body: Bodies)
    requires Enabled(w, a, body) && w1 == Apply(w, a, body) && Enabled(w1, b, body) && w2 == Apply(w1, b, body)
    requires Enabled(w2, c, body) && w3 == Apply(w2, c, body)
    ensures Reaches(w, [a, b, c], body) && End(w, [a, b, c], body) == w3
  {
    assert [c][1..] == [] && Reaches(w3, [], body) && Reaches(w2, [c], body);
    assert End(w2, [c], body) == End(w3, [c][1..], body) == w3;
    assert [b, c][1..] == [c] && Reaches(w1, [b, c], body) && End(w1, [b, c], body) == w3;
    assert [a, b, c][1..] == [b, c];
  }

  ghost predicate FetchedReadDelivers(w: World, body: Bodies, t: int, size: nat, refreshed: bool, seg: RecSegment) {
    var read := [ReadBegin(t, size), ReadChoose(t), ReadLock(t), Response(t, true, 200, refreshed, body(seg.key))];
    var offset, n := w.position - seg.byteOffset, Min(size, seg.End() - w.position);
    && 0 < n && 0 <= offset && offset + n <= |body(seg.key)| && Reaches(w, read, body)
    && End(w, read, body) ==
       AfterRead(w.(cachedOffset := seg.byteOffset, cachedBytes := body(seg.key)), body(seg.key)[offset..offset + n])
  }

  lemma FetchedResponse(w: World, t: int, size: nat, refreshed: bool, seg: RecSegment, body: Bodies)
    requires w.Started() && w.curl.None? && t !in w.readers && 0 < size && seg.Covers(w.position)
    requires |body(seg.key)| == seg.byteSize
    ensures var r := Fetching(w.Session(), w.position, seg, size);
            var locked := w.(readers := w.readers[t := r], curl := Some(t));
            var offset, n := w.position - seg.byteOffset, Min(size, seg.End() - w.position);
            Respond(locked, t, Classify(true, 200, refreshed), body(seg.key)) ==
            AfterRead(w.(cachedOffset := seg.byteOffset, cachedBytes := body(seg.key)),
                      body(seg.key)[offset..offset + n])
  {
    var r := Fetching(w.Session(), w.position, seg, size);
    var locked := w.(readers := w.readers[t := r], curl := Some(t));
    ResponseIsTakenIff(locked, t, true, 200, refreshed, body(seg.key));
    assert locked.readers - {t} == w.readers;
    assert body(seg.key)[..|body(seg.key)|] == body(seg.key);
  }

  lemma FetchedReadFrom(w: World, body: Bodies, t: int, size: nat, refreshed: bool, seg: RecSegment)
    requires w.Started() && w.curl.None? && t !in w.readers && 0 < size && w.position < w.run.stream.totalBytes
    requires Lookup(w.Segs(), w.position) == Some(seg) && seg.Covers(w.position)
    requires w.cachedOffset != seg.byteOffset && !w.run.stream.gone && |body(seg.key)| == seg.byteSize
    ensures FetchedReadDelivers(w, body, t, size, refreshed, seg)
  {
    ChooseAndLock(w, t, size, seg);
    FetchedResponse(w, t, size, refreshed, seg, body);
    var answer := Response(t, true, 200, refreshed, body(seg.key));
    var began := Apply(w, ReadBegin(t, size), body);
    var chosen := Apply(began, ReadChoose(t), body);
    var locked := Apply(chosen, ReadLock(t), body);
    var after := Apply(locked, answer, body);
    LastThree(began, chosen, locked, after, ReadChoose(t), ReadLock(t), answer, body);
    assert [ReadBegin(t, size), ReadChoose(t), ReadLock(t), answer][1..] == [ReadChoose(t), ReadLock(t), answer];
  }

  /** In every reachable state a read nobody disturbs hands over exactly as much as it asked for and is there: from the
      cached segment, or, when the server sends the whole one, from that one, which is then the cached one. */
  lemma UndisturbedReadDelivers(parser: Runs.Parser, steps: seq<Step>, body: Bodies, t: int, size: nat, refreshed: bool,
                                seg: RecSegment)
    requires Reaches(New(parser), steps, body)
    requires var w := End(New(parser), steps, body);
             && w.Started() && w.curl.None? && t !in w.readers && 0 < size
             && Lookup(w.Segs(), w.position) == Some(seg)
    ensures var w := End(New(parser), steps, body);
            && (w.cachedOffset == seg.byteOffset && w.position - seg.byteOffset < |w.cachedBytes| ==>
                  CachedReadDelivers(w, body, t, size, seg))
            && (w.cachedOffset != seg.byteOffset && !w.run.stream.gone && |body(seg.key)| == seg.byteSize ==>
                  FetchedReadDelivers(w, body, t, size, refreshed, seg))
  {
    RunKeepsInv(New(parser), steps, body);
    var w := End(New(parser), steps, body);
    LookupIsMember(w.Segs(), w.position);
    var s := w.run.stream;
    assert Runs.MirrorsStream(s, w.run.Listed(s.id));
    LookupExact(s.segs, s.totalBytes, w.position);
    if w.cachedOffset == seg.byteOffset && w.position - seg.byteOffset < |w.cachedBytes| {
      CachedReadFrom(w, body, t, size, seg);
    }
    if w.cachedOffset != seg.byteOffset && !s.gone && |body(seg.key)| == seg.byteSize {
      FetchedReadFrom(w, body, t, size, refreshed, seg);
    }
  }

  /** Every kind of seek of an open recording, by what it asks for. */
  lemma SeekMovesAsAsked(w: World, offset: int, whence: Whence)
    requires w.run.Open()
    ensures var asked := ResolveSeek(offset, whence, w.position, w.run.stream.totalBytes);
            var after := SeekStep(w, offset, whence);
            && (asked.None? ==> after == w)
            && (asked.Some? ==>
                  var to := SeekTarget(w, asked.value);
                  after == w.(position := to, log := w.log + [Moved(w.Session(), to)]))
  {
  }
}
