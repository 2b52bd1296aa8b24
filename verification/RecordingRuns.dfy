/**
 Whole runs of the in-progress recording (src/DispatcharrClient.cpp): the server appends to playlists, recordings are
 opened and closed, and refreshes look up, fetch, size and merge with the state lock released in between.
 */
module RecordingRuns {
  import opened Common
  import opened Segments
  import opened Playlist
  import opened Recording

  datatype Phase = Closed | Cold | Started

  /** A refresh waiting for the server: for its lookup and playlist, then for its probes. */
  datatype Refresh = Asked(session: nat, id: int, now: int) | Sizing(session: nat, id: int, snap: Snapshot)

  /** How a playlist is read: where its relative URIs belong, and how its numbers are taken. */
  datatype Parser = Parser(baseDir: int -> string, stod: ReadNumber)

  /** A size a probe has reported. */
  datatype SizeAnswer = SizeAnswer(url: string, size: int)

  /** `server` is each recording's playlist text by now; `history` and `tries` are what this session's refreshes found
      and how their leading segments did, `reported` the sizes the server has ever given. */
  datatype World = World(parser: Parser, session: nat, phase: Phase, stream: Stream, cache: Cache,
                         server: map<int, string>, refresh: Option<Refresh>, history: seq<Evidence>, tries: seq<Try>,
                         reported: set<SizeAnswer>)
  {
    predicate Open() { phase != Closed }

    predicate SameStream(other: nat) { Open() && session == other }

    function Text(id: int): string { if id in server then server[id] else "" }

    /** What the recording's playlist lists for good. */
    function Listed(id: int): seq<PlaylistEntry> { ListedAt(parser, server, id) }

    function Parse(id: int, text: string): seq<PlaylistEntry> { Entries(text, parser.baseDir(id), parser.stod) }
  }

  function ListedAt(parser: Parser, server: map<int, string>, id: int): seq<PlaylistEntry> {
    Settled(if id in server then server[id] else "", parser.baseDir(id), parser.stod)
  }

  function New(parser: Parser): World { World(parser, 0, Closed, Opened(map[], 0), map[], map[], None, [], [], {}) }

  datatype Step =
    | ServerAppends(id: int, more: string)
    | OpenBegin(id: int) | OpenFailed | OpenDone | Close
    | RefreshBegin(now: int) | RefreshDropped
    | PlaylistMissing(lookup: Answer, notFound: bool)
    | PlaylistFetched(lookup: Answer, text: string)
    | ProbesDone(probed: seq<int>, at: int)

  /** The refresh mutex admits one refresh; a fetched playlist is some earlier text of the append-only one, not cut in a
      URI; while a leading segment keeps failing only that one is probed. */
  predicate Enabled(w: World, step: Step) {
    match step
    case ServerAppends(_, _) => true
    case OpenBegin(_) => w.phase != Cold
    case OpenFailed => w.phase == Cold
    case OpenDone => w.phase == Cold
    case Close => w.phase != Cold
    case RefreshBegin(_) => w.refresh.None? && w.Open() && !w.stream.gone
    case RefreshDropped => w.refresh.Some?
    case PlaylistMissing(_, _) => w.refresh.Some? && w.refresh.value.Asked?
    case PlaylistFetched(_, text) =>
      && w.refresh.Some? && w.refresh.value.Asked?
      && text <= w.Text(w.refresh.value.id) && !IsUri(LastLine(text))
    case ProbesDone(probed, _) =>
      && w.refresh.Some? && w.refresh.value.Sizing?
      && var pending := w.refresh.value.snap.pending;
      && |probed| == |pending|
      && (pending != [] && ProbesOnlyLeading(w.stream.tracker, pending[0].url) ==>
            forall i :: 1 <= i < |probed| ==> probed[i] == -1)
  }

  function Reset(w: World): World {
    w.(session := w.session + 1, phase := Closed, stream := Opened(map[], 0), history := [], tries := [])
  }

  function Opening(w: World, id: int): World {
    w.(session := w.session + 1, phase := Cold, stream := Opened(w.cache, id), history := [], tries := [])
  }

  /** No playlist this time; a 404 or a redirect still says something about `finished`. */
  function Missing(w: World, lookup: Answer, notFound: bool): World {
    var s := w.stream;
    var resolved := if notFound then s.(finished := ResolveFinished(lookup, s.finished, true)) else s;
    if ContentGone(s.segs != [], notFound, lookup) then
      w.(stream := resolved.(gone := true, finished := true), cache := w.cache - {s.id}, refresh := None)
    else w.(stream := resolved, refresh := None)
  }

  function Fetched(w: World, r: Refresh, lookup: Answer, text: string): World
    requires r.Asked?
  {
    var pending := Drop(w.Parse(r.id, text), |w.stream.segs|);
    w.(refresh := Some(Sizing(r.session, r.id, Snapshot(pending, lookup, HasEndList(text), r.now))))
  }

  function MergedBy(w: World, snap: Snapshot, probed: seq<int>, at: int): nat
    requires |probed| == |snap.pending|
  {
    Size(w.stream.tracker, snap.pending, probed, at).merged
  }

  function Reported(pending: seq<PlaylistEntry>, probed: seq<int>): set<SizeAnswer>
    requires |probed| == |pending|
  {
    set i | 0 <= i < |probed| && probed[i] > 0 :: SizeAnswer(pending[i].url, probed[i])
  }

  function Completed(w: World, snap: Snapshot, probed: seq<int>, at: int): World
    requires |probed| == |snap.pending|
  {
    var sized := Size(w.stream.tracker, snap.pending, probed, at);
    var s := Complete(w.stream, snap, probed, at);
    w.(stream := s, refresh := None, history := w.history + [EvidenceOf(w.stream, snap, sized)],
    tries := w.tries + Tried(w.stream.tracker, snap.pending, probed, at),
    reported := w.reported + Reported(snap.pending, probed),
    cache := if sized.merged <= |s.segs| then UpdateCache(w.cache, s, sized.merged, snap.now) else w.cache)
  }

  function Apply(w: World, step: Step): World
    requires Enabled(w, step)
  {
    match step
    case ServerAppends(id, more) => w.(server := w.server[id := w.Text(id) + more])
    case OpenBegin(id) => Opening(w, id)
    case OpenFailed => Reset(w)
    case OpenDone => w.(phase := Started)
    case Close => Reset(w)
    case RefreshBegin(now) => w.(refresh := Some(Asked(w.session, w.stream.id, now)))
    case RefreshDropped => w.(refresh := None)
    case PlaylistMissing(lookup, notFound) =>
      if w.SameStream(w.refresh.value.session) then Missing(w, lookup, notFound) else w.(refresh := None)
    case PlaylistFetched(lookup, text) =>
      if w.SameStream(w.refresh.value.session) then Fetched(w, w.refresh.value, lookup, text)
      else w.(refresh := None)
    case ProbesDone(probed, at) =>
      if w.SameStream(w.refresh.value.session) then Completed(w, w.refresh.value.snap, probed, at)
      else w.(refresh := None)
  }

  predicate Runs(w: World, steps: seq<Step>)
    decreases |steps|
  {
    steps == [] || (Enabled(w, steps[0]) && Runs(Apply(w, steps[0]), steps[1..]))
  }

  function End(w: World, steps: seq<Step>): World
    requires Runs(w, steps)
    decreases |steps|
  {
    if steps == [] then w else End(Apply(w, steps[0]), steps[1..])
  }

  // ---- The invariant ----

  ghost predicate MirrorsStream(s: Stream, playlist: seq<PlaylistEntry>) {
    Mirrors(s.segs, s.totalBytes, s.totalMs, playlist)
  }

  ghost predicate MirrorsEntry(e: CacheEntry, playlist: seq<PlaylistEntry>) {
    Mirrors(e.segs, e.totalBytes, e.totalMs, playlist)
  }

  /** Every segment has a size the server gave for it, or is the placeholder of one given up on. */
  ghost predicate SizesKnown(segs: seq<RecSegment>, reported: set<SizeAnswer>) {
    forall i :: 0 <= i < |segs| && segs[i].byteSize != 0 ==> SizeAnswer(segs[i].key, segs[i].byteSize) in reported
  }

  ghost predicate SizesOk(w: World) {
    && (w.Open() ==> SizesKnown(w.stream.segs, w.reported))
    && (forall id | id in w.cache :: SizesKnown(w.cache[id].segs, w.reported))
  }

  ghost predicate CacheOk(w: World) {
    && (forall id | id in w.cache :: MirrorsEntry(w.cache[id], w.Listed(id)))
    && (w.Open() && w.stream.id in w.cache ==> SameList(w.cache[w.stream.id], w.stream))
  }

  /** What a refresh is sizing starts exactly where the stream ends. */
  ghost predicate RefreshOk(w: World) {
    w.refresh.Some? ==>
      var r := w.refresh.value;
      && r.session <= w.session
      && (w.SameStream(r.session) ==> r.id == w.stream.id)
      && (w.SameStream(r.session) && r.Sizing? && r.snap.pending != [] ==>
            Continues(|w.stream.segs|, r.snap.pending, w.Listed(r.id)))
  }

  ghost predicate Inv(w: World) {
    && (w.Open() ==>
          && MirrorsStream(w.stream, w.Listed(w.stream.id))
          && WaitOk(w.stream.waitingSince, w.history) && TrackerOk(w.stream.tracker, w.tries))
    && CacheOk(w)
    && SizesOk(w)
    && RefreshOk(w)
  }

  // ---- Every step keeps it ----

  lemma ListedGrows(w: World, id: int, more: string)
    ensures var w' := w.(server := w.server[id := w.Text(id) + more]);
            && w.Listed(id) <= w'.Listed(id)
            && forall k :: k != id ==> w'.Listed(k) == w.Listed(k)
  {
    SettledGrows(w.Text(id), w.Text(id) + more, w.parser.baseDir(id), w.parser.stod);
  }

  lemma MirrorsInLonger(segs: seq<RecSegment>, totalBytes: int, totalMs: int, playlist: seq<PlaylistEntry>,
                        longer: seq<PlaylistEntry>)
    requires Mirrors(segs, totalBytes, totalMs, playlist) && playlist <= longer
    ensures Mirrors(segs, totalBytes, totalMs, longer)
  {
    assert longer == playlist + longer[|playlist|..];
    MirrorsLonger(segs, totalBytes, totalMs, playlist, longer[|playlist|..]);
  }

  /** A longer list at the server disturbs nothing; only what it lists is looked at. */
  lemma LongerListsKeepInv(w: World, w': World)
    requires Inv(w) && w' == w.(server := w'.server)
    requires forall id :: w.Listed(id) <= w'.Listed(id)
    ensures Inv(w')
  {
    var s := w.stream;
    if w.Open() { MirrorsInLonger(s.segs, s.totalBytes, s.totalMs, w.Listed(s.id), w'.Listed(s.id)); }
    forall id | id in w.cache
      ensures MirrorsEntry(w.cache[id], w'.Listed(id))
    {
      assert MirrorsEntry(w.cache[id], w.Listed(id));
      MirrorsInLonger(w.cache[id].segs, w.cache[id].totalBytes, w.cache[id].totalMs, w.Listed(id), w'.Listed(id));
    }
  }

  lemma ServerAppendsKeepsInv(w: World, id: int, more: string)
    requires Inv(w)
    ensures Inv(w.(server := w.server[id := w.Text(id) + more]))
  {
    ListedGrows(w, id, more);
    LongerListsKeepInv(w, w.(server := w.server[id := w.Text(id) + more]));
  }

  lemma OpenKeepsInv(w: World, id: int)
    requires Inv(w)
    ensures Inv(Opening(w, id))
  {
  }

  /** A text fetched whole lists the first entries of what the playlist lists by now. */
  lemma FetchedIsAPrefix(w: World, id: int, text: string)
    requires text <= w.Text(id) && !IsUri(LastLine(text))
    ensures w.Parse(id, text) <= w.Listed(id)
  {
    SettledIsTheParse(text, w.parser.baseDir(id), w.parser.stod);
    SettledGrows(text, w.Text(id), w.parser.baseDir(id), w.parser.stod);
  }

  lemma FetchedKeepsInv(w: World, r: Refresh, lookup: Answer, text: string)
    requires Inv(w) && r.Asked? && w.refresh == Some(r) && w.SameStream(r.session)
    requires text <= w.Text(r.id) && !IsUri(LastLine(text))
    ensures Inv(Fetched(w, r, lookup, text))
  {
    FetchedIsAPrefix(w, r.id, text);
    var parsed, n := w.Parse(r.id, text), |w.stream.segs|;
    assert parsed == w.Listed(r.id)[..|parsed|];
    if Drop(parsed, n) != [] { DropContinues(w.Listed(r.id), |parsed|, n); }
  }

  /** What completing a refresh does to the stream: a longer prefix of the same playlist, and the gate's verdict. */
  lemma CompleteGrows(s: Stream, snap: Snapshot, probed: seq<int>, at: int, playlist: seq<PlaylistEntry>)
    requires MirrorsStream(s, playlist) && |probed| == |snap.pending|
    requires snap.pending != [] ==> Continues(|s.segs|, snap.pending, playlist)
    ensures var s', sized := Complete(s, snap, probed, at), Size(s.tracker, snap.pending, probed, at);
            var e := EvidenceOf(s, snap, sized);
            && MirrorsStream(s', playlist) && s.segs <= s'.segs && |s'.segs| == |s.segs| + sized.merged
            && s'.id == s.id && s'.gone == s.gone
            && (sized.merged == 0 ==> s'.totalBytes == s.totalBytes && s'.totalMs == s.totalMs)
            && s'.tracker == sized.tracker
            && Gated(s'.finished, s'.waitingSince) == Gate(e.candidate, e.hasEndList, s.waitingSince, e.now)
  {
    var sized := Size(s.tracker, snap.pending, probed, at);
    AppendLeadingMirrors(s, snap.pending, sized.sizes, sized.merged, playlist);
  }

  lemma GrowthKeepsInv(w: World, s: Stream, cache: Cache, e: Evidence, tried: seq<Try>, reported: set<SizeAnswer>)
    requires Inv(w) && w.Open() && s.id == w.stream.id
    requires MirrorsStream(s, w.Listed(s.id)) && WaitOk(s.waitingSince, w.history + [e])
    requires TrackerOk(s.tracker, w.tries + tried) && SizesKnown(s.segs, w.reported + reported)
    requires s.id in cache ==> SameList(cache[s.id], s)
    requires forall id | id in cache && id != s.id :: id in w.cache && cache[id] == w.cache[id]
    ensures Inv(w.(stream := s, refresh := None, history := w.history + [e], tries := w.tries + tried,
                   reported := w.reported + reported, cache := cache))
  {
    forall id | id in cache
      ensures SizesKnown(cache[id].segs, w.reported + reported)
    {
      if id != s.id { assert SizesKnown(w.cache[id].segs, w.reported); }
    }
  }

  /** A list that grew by sizes just reported, or by the placeholder, still has only known sizes. */
  lemma LaidSizesAreKnown(segs: seq<RecSegment>, laid: seq<RecSegment>, pending: seq<PlaylistEntry>, sizes: seq<int>,
                          probed: seq<int>, reported: set<SizeAnswer>)
    requires SizesKnown(segs, reported) && |probed| == |pending| && LaidAs(laid, pending, sizes)
    requires forall i :: 0 <= i < |laid| ==> sizes[i] == 0 || sizes[i] == probed[i] > 0
    ensures SizesKnown(segs + laid, reported + Reported(pending, probed))
  {
    var grown := segs + laid;
    forall i | 0 <= i < |grown| && grown[i].byteSize != 0
      ensures SizeAnswer(grown[i].key, grown[i].byteSize) in reported + Reported(pending, probed)
    {
      if i >= |segs| { assert grown[i] == laid[i - |segs|]; }
    }
  }

  lemma SizesAreProbed(sized: Sized, tracker: Tracker, pending: seq<PlaylistEntry>, probed: seq<int>, at: int)
    requires |probed| == |pending| && sized == Size(tracker, pending, probed, at)
    ensures forall i :: 0 <= i < sized.merged ==> sized.sizes[i] == 0 || sized.sizes[i] == probed[i] > 0
  {
  }

  lemma GrownSizesAreKnown(s: Stream, snap: Snapshot, probed: seq<int>, at: int, reported: set<SizeAnswer>)
    requires |probed| == |snap.pending| && SizesKnown(s.segs, reported)
    ensures SizesKnown(Complete(s, snap, probed, at).segs, reported + Reported(snap.pending, probed))
  {
    var sized := Size(s.tracker, snap.pending, probed, at);
    var laid := AppendLeadingLays(s, snap.pending, sized.sizes, sized.merged);
    SizesAreProbed(sized, s.tracker, snap.pending, probed, at);
    LaidSizesAreKnown(s.segs, laid, snap.pending, sized.sizes, probed, reported);
  }

  lemma CompletedKeepsInv(w: World, snap: Snapshot, probed: seq<int>, at: int)
    requires Inv(w) && w.refresh.Some? && w.refresh.value.Sizing? && w.SameStream(w.refresh.value.session)
    requires snap == w.refresh.value.snap && |probed| == |snap.pending|
    ensures Inv(Completed(w, snap, probed, at))
  {
    var s, s' := w.stream, Complete(w.stream, snap, probed, at);
    var sized := Size(s.tracker, snap.pending, probed, at);
    var e := EvidenceOf(s, snap, sized);
    var cache := UpdateCacheAfter(w, snap, probed, at);
    assert SizesKnown(s'.segs, w.reported + Reported(snap.pending, probed)) by {
      GrownSizesAreKnown(s, snap, probed, at, w.reported);
    }
    assert WaitOk(s'.waitingSince, w.history + [e]) by {
      CompleteGrows(s, snap, probed, at, w.Listed(s.id));
      var _ := GateFollowsHistory(s.waitingSince, w.history, e);
    }
    assert TrackerOk(s'.tracker, w.tries + Tried(s.tracker, snap.pending, probed, at)) by {
      SizingFollowsHistory(s.tracker, w.tries, snap.pending, probed, at);
    }
    GrowthKeepsInv(w, s', cache, e, Tried(s.tracker, snap.pending, probed, at), Reported(snap.pending, probed));
  }

  /** The cache after a completed refresh, and what it and the stream have kept. */
  lemma UpdateCacheAfter(w: World, snap: Snapshot, probed: seq<int>, at: int) returns (cache: Cache)
    requires Inv(w) && w.refresh.Some? && w.refresh.value.Sizing? && w.SameStream(w.refresh.value.session)
    requires snap == w.refresh.value.snap && |probed| == |snap.pending|
    ensures var s' := Complete(w.stream, snap, probed, at);
            && MirrorsStream(s', w.Listed(s'.id)) && s'.id == w.stream.id
            && Size(w.stream.tracker, snap.pending, probed, at).merged <= |s'.segs|
            && cache == UpdateCache(w.cache, s', Size(w.stream.tracker, snap.pending, probed, at).merged, snap.now)
            && (s'.id in cache ==> SameList(cache[s'.id], s'))
            && (forall id | id in cache && id != s'.id :: id in w.cache && cache[id] == w.cache[id])
  {
    var s, s' := w.stream, Complete(w.stream, snap, probed, at);
    CompleteGrows(s, snap, probed, at, w.Listed(s.id));
    var merged := Size(s.tracker, snap.pending, probed, at).merged;
    CacheFollows(w.cache, s, s', merged, snap.now);
    cache := UpdateCache(w.cache, s', merged, snap.now);
  }

  lemma MissingKeepsInv(w: World, lookup: Answer, notFound: bool)
    requires Inv(w) && w.Open()
    ensures Inv(Missing(w, lookup, notFound))
  {
  }

  lemma ResetKeepsInv(w: World)
    requires Inv(w)
    ensures Inv(Reset(w))
  {
  }

  /** Content counts as gone only on evidence from both the playlist and the lookup. */
  lemma StaysUnlessGone(w: World, step: Step)
    requires Enabled(w, step) && w.Open() && Apply(w, step).Open() && Apply(w, step).session == w.session
    requires Apply(w, step).stream.gone && !w.stream.gone
    ensures step.PlaylistMissing? && step.notFound && w.stream.segs != []
    ensures (step.lookup.ok && !step.lookup.inProgress) || (!step.lookup.ok && step.lookup.status == 404)
  {
    if step.ProbesDone? && w.SameStream(w.refresh.value.session) {
      var snap := w.refresh.value.snap;
      var sized := Size(w.stream.tracker, snap.pending, step.probed, step.at);
      AppendSizedLengthens(w.stream, snap.pending[..sized.merged], sized.sizes[..sized.merged]);
    }
  }

  lemma StepKeepsInv(w: World, step: Step)
    requires Inv(w) && Enabled(w, step)
    ensures Inv(Apply(w, step))
    ensures w.Open() && Apply(w, step).Open() && Apply(w, step).session == w.session &&
            Apply(w, step).stream.gone && !w.stream.gone ==>
              && step.PlaylistMissing? && step.notFound && w.stream.segs != []
              && ((step.lookup.ok && !step.lookup.inProgress) || (!step.lookup.ok && step.lookup.status == 404))
  {
    if w.Open() && Apply(w, step).Open() && Apply(w, step).session == w.session &&
       Apply(w, step).stream.gone && !w.stream.gone {
      StaysUnlessGone(w, step);
    }
    match step
    case ServerAppends(id, more) => ServerAppendsKeepsInv(w, id, more);
    case OpenBegin(id) => OpenKeepsInv(w, id);
    case OpenFailed => ResetKeepsInv(w);
    case Close => ResetKeepsInv(w);
    case PlaylistMissing(lookup, notFound) =>
      if w.SameStream(w.refresh.value.session) { MissingKeepsInv(w, lookup, notFound); }
    case PlaylistFetched(lookup, text) =>
      if w.SameStream(w.refresh.value.session) { FetchedKeepsInv(w, w.refresh.value, lookup, text); }
    case ProbesDone(probed, at) =>
      if w.SameStream(w.refresh.value.session) { CompletedKeepsInv(w, w.refresh.value.snap, probed, at); }
    case _ =>
  }

  lemma {:induction false} RunKeepsInv(w: World, steps: seq<Step>)
    requires Inv(w) && Runs(w, steps)
    ensures Inv(End(w, steps))
    decreases |steps|
  {
    if steps != [] {
      StepKeepsInv(w, steps[0]);
      RunKeepsInv(Apply(w, steps[0]), steps[1..]);
    }
  }

  // ---- The theorems ----

  /** Whatever text the server appends, whatever fails to be sized, whenever anything is opened, closed or refreshed:
      the open stream lists exactly the first segments a parse of the playlist gives, in order, at prefix sums. */
  lemma MergedListIsAPrefix(parser: Parser, steps: seq<Step>)
    requires Runs(New(parser), steps) && End(New(parser), steps).Open()
    ensures var w := End(New(parser), steps);
            && MirrorsStream(w.stream, w.Listed(w.stream.id))
            && MirrorsStream(w.stream, w.Parse(w.stream.id, w.Text(w.stream.id)))
            && SizesKnown(w.stream.segs, w.reported)
  {
    RunKeepsInv(New(parser), steps);
    var w := End(New(parser), steps);
    var s := w.stream;
    SettledIsTheParse(w.Text(s.id), w.parser.baseDir(s.id), w.parser.stod);
    MirrorsInLonger(s.segs, s.totalBytes, s.totalMs, w.Listed(s.id), w.Parse(s.id, w.Text(s.id)));
  }

  /** In every reachable state the open recording's cache entry is absent or equal to the stream's own list, and every
      entry's totals are the sums of its segments. */
  lemma CacheAgreesWithTheStream(parser: Parser, steps: seq<Step>, id: int)
    requires Runs(New(parser), steps) && id in End(New(parser), steps).cache
    ensures var w := End(New(parser), steps);
            && (w.Open() && w.stream.id == id ==> SameList(w.cache[id], w.stream))
            && MirrorsEntry(w.cache[id], w.Listed(id))
            && |w.cache[id].segs| <= |w.Listed(id)|
            && w.cache[id].totalBytes == SizeSum(w.cache[id].segs)
            && w.cache[id].totalMs == MsBefore(w.Listed(id), |w.cache[id].segs|)
  {
    RunKeepsInv(New(parser), steps);
    var w := End(New(parser), steps);
    var e := w.cache[id];
    assert MirrorsEntry(e, w.Listed(id));
    MirrorsAddsUp(e.segs, e.totalBytes, e.totalMs, w.Listed(id), |e.segs|);
    assert e.segs[..|e.segs|] == e.segs;
  }

  /** A reopen continues with the list the cache kept, at totals those segments add up to. */
  lemma ReopenSeedsItsOwnSums(parser: Parser, steps: seq<Step>, id: int)
    requires Runs(New(parser), steps) && Enabled(End(New(parser), steps), OpenBegin(id))
    ensures var s := Apply(End(New(parser), steps), OpenBegin(id)).stream;
            && s.segs == CachedSegs(End(New(parser), steps).cache, id)
            && s.totalBytes == SizeSum(s.segs) && MirrorsStream(s, End(New(parser), steps).Listed(id))
            && s.id == id && !s.finished && !s.gone && s.waitingSince.None? && s.tracker == NO_TRACKER
  {
    RunKeepsInv(New(parser), steps);
    var w := End(New(parser), steps);
    OpenKeepsInv(w, id);
    var s := Opened(w.cache, id);
    MirrorsAddsUp(s.segs, s.totalBytes, s.totalMs, w.Listed(id), |s.segs|);
    assert s.segs[..|s.segs|] == s.segs;
  }

  /** After an unfinished refresh that merged something the entry equals the stream's list; the whole list has to be
      copied again exactly when the entry had been dropped while the stream already had segments. */
  lemma MergingRefreshUpdatesTheCache(parser: Parser, steps: seq<Step>, probed: seq<int>, at: int)
    requires Runs(New(parser), steps) && Enabled(End(New(parser), steps), ProbesDone(probed, at))
    requires End(New(parser), steps).SameStream(End(New(parser), steps).refresh.value.session)
    ensures var w := End(New(parser), steps);
            var w' := Apply(w, ProbesDone(probed, at));
            var merged := MergedBy(w, w.refresh.value.snap, probed, at);
            && (merged > 0 && !w'.stream.finished ==>
                  w'.stream.id in w'.cache && SameList(w'.cache[w'.stream.id], w'.stream))
            && (ShouldReseed(|CachedSegs(w.cache, w.stream.id)|, merged, |w'.stream.segs|) <==>
                (w.stream.id !in w.cache && w.stream.segs != []))
  {
    RunKeepsInv(New(parser), steps);
    var w := End(New(parser), steps);
    var snap := w.refresh.value.snap;
    CompleteGrows(w.stream, snap, probed, at, w.Listed(w.stream.id));
    CacheFollows(w.cache, w.stream, Complete(w.stream, snap, probed, at), MergedBy(w, snap, probed, at), snap.now);
  }

  /** On the live-playlist path the recording is finished after a refresh exactly when the lookup says it is over and
      everything listed is merged, or failed on a recording that was finished already, and the end tag is there or
      every refresh for the whole grace period was such a candidate. */
  lemma FinishedNeedsEvidence(parser: Parser, steps: seq<Step>, probed: seq<int>, at: int) returns (j: int)
    requires Runs(New(parser), steps) && Enabled(End(New(parser), steps), ProbesDone(probed, at))
    requires End(New(parser), steps).SameStream(End(New(parser), steps).refresh.value.session)
    ensures var w := End(New(parser), steps);
            var snap, w' := w.refresh.value.snap, Apply(w, ProbesDone(probed, at));
            var over := if snap.lookup.ok
                        then !snap.lookup.inProgress && |w'.stream.segs| == |w.stream.segs| + |snap.pending|
                        else w.stream.finished;
            && (over && !snap.hasEndList ==> WaitRun(w'.history, j))
            && (w'.stream.finished <==>
                over && (snap.hasEndList || snap.now - w'.history[j].now >= END_LIST_GRACE_MS))
            && w'.history == w.history + [Evidence(snap.now, over, snap.hasEndList)] && w'.stream.gone == w.stream.gone
  {
    RunKeepsInv(New(parser), steps);
    var w := End(New(parser), steps);
    var snap := w.refresh.value.snap;
    CompleteGrows(w.stream, snap, probed, at, w.Listed(w.stream.id));
    j := GateFollowsHistory(w.stream.waitingSince, w.history,
                            EvidenceOf(w.stream, snap, Size(w.stream.tracker, snap.pending, probed, at)));
  }

  /** A refresh without a playlist: the content counts as gone exactly when the playlist of a stream with segments was
      not found and the lookup says the recording is over, or that there is no such recording. Only then, and when a
      lookup says whether it is in progress, does `finished` change, and only then does the cache entry go. */
  lemma MissingPlaylistMeans(parser: Parser, steps: seq<Step>, lookup: Answer, notFound: bool)
    requires Runs(New(parser), steps) && Enabled(End(New(parser), steps), PlaylistMissing(lookup, notFound))
    requires End(New(parser), steps).SameStream(End(New(parser), steps).refresh.value.session)
    ensures var w := End(New(parser), steps);
            var w' := Apply(w, PlaylistMissing(lookup, notFound));
            var gone := && w.stream.segs != [] && notFound
                        && ((lookup.ok && !lookup.inProgress) || (!lookup.ok && lookup.status == 404));
            && (w'.stream.gone <==> w.stream.gone || gone)
            && (gone ==> w'.stream.finished && w'.stream.id !in w'.cache)
            && (notFound && lookup.ok && lookup.inProgress ==> !w'.stream.finished)
            && (notFound && lookup.ok && !lookup.inProgress ==> w'.stream.finished)
            && (!gone && (!notFound || !lookup.ok) ==> w'.stream.finished == w.stream.finished)
            && (!gone ==> w'.cache == w.cache)
            && (forall id | id != w.stream.id :: id in w'.cache <==> id in w.cache)
            && (forall id | id in w'.cache :: id in w.cache && w'.cache[id] == w.cache[id])
            && w'.stream == w.stream.(gone := w'.stream.gone, finished := w'.stream.finished)
            && w'.refresh.None? && w'.session == w.session && w'.phase == w.phase
  {
  }

  /** A refresh that gets its playlist and every size merges everything the playlist lists, each with the size given
      for it, whatever happened before. */
  lemma GoodRefreshMergesAll(w: World, now: int, lookup: Answer, text: string, probed: seq<int>, at: int)
    requires w.Open() && !w.stream.gone && w.refresh.None?
    requires text <= w.Text(w.stream.id) && !IsUri(LastLine(text))
    requires var pending := Drop(w.Parse(w.stream.id, text), |w.stream.segs|);
             && |probed| == |pending| && (forall i :: 0 <= i < |probed| ==> probed[i] > 0)
             && (|pending| > 1 ==> !ProbesOnlyLeading(w.stream.tracker, pending[0].url))
    ensures var refresh := [RefreshBegin(now), PlaylistFetched(lookup, text), ProbesDone(probed, at)];
            Runs(w, refresh) && LaidAll(w.stream, End(w, refresh).stream, w.Parse(w.stream.id, text), probed)
  {
    var r := Asked(w.session, w.stream.id, now);
    var asked := w.(refresh := Some(r));
    var fetched := Fetched(asked, r, lookup, text);
    AllMergedAreLaid(w.stream, fetched.refresh.value.snap, probed, at, w.Parse(w.stream.id, text));
    ThreeSteps(w, asked, fetched, now, lookup, text, probed, at);
  }

  /** `t` is `s` and then the rest of what is listed, with these sizes. */
  ghost predicate LaidAll(s: Stream, t: Stream, listed: seq<PlaylistEntry>, sizes: seq<int>) {
    && |t.segs| == Max(|s.segs|, |listed|) && s.segs <= t.segs
    && LaidAs(t.segs[|s.segs|..], Drop(listed, |s.segs|), sizes)
  }

  lemma AllSized(tracker: Tracker, pending: seq<PlaylistEntry>, probed: seq<int>, at: int)
    requires |probed| == |pending| && (forall i :: 0 <= i < |probed| ==> probed[i] > 0)
    ensures Size(tracker, pending, probed, at).merged == |probed| && Size(tracker, pending, probed, at).sizes == probed
  {
  }

  lemma AllMergedAreLaid(s: Stream, snap: Snapshot, probed: seq<int>, at: int, listed: seq<PlaylistEntry>)
    requires |probed| == |snap.pending| && (forall i :: 0 <= i < |probed| ==> probed[i] > 0)
    requires snap.pending == Drop(listed, |s.segs|)
    ensures LaidAll(s, Complete(s, snap, probed, at), listed, probed)
  {
    AllSized(s.tracker, snap.pending, probed, at);
    var laid := AppendLeadingLays(s, snap.pending, probed, |probed|);
    assert (s.segs + laid)[|s.segs|..] == laid;
  }

  lemma ThreeSteps(w: World, asked: World, fetched: World, now: int, lookup: Answer, text: string, probed: seq<int>,
                   at: int)
    requires Enabled(w, RefreshBegin(now)) && asked == Apply(w, RefreshBegin(now))
    requires Enabled(asked, PlaylistFetched(lookup, text)) && fetched == Apply(asked, PlaylistFetched(lookup, text))
    requires Enabled(fetched, ProbesDone(probed, at))
    ensures var refresh := [RefreshBegin(now), PlaylistFetched(lookup, text), ProbesDone(probed, at)];
            Runs(w, refresh) && End(w, refresh) == Apply(fetched, ProbesDone(probed, at))
  {
    var last := [ProbesDone(probed, at)];
    var done := Apply(fetched, ProbesDone(probed, at));
    assert last[1..] == [] && Runs(done, []) && Runs(fetched, last) && End(fetched, last) == End(done, []) == done;
    var two := [PlaylistFetched(lookup, text), ProbesDone(probed, at)];
    assert two[1..] == last && Runs(asked, two) && End(asked, two) == done;
    assert [RefreshBegin(now), PlaylistFetched(lookup, text), ProbesDone(probed, at)][1..] == two;
  }

  /** A refresh puts a placeholder in its leading segment's place exactly when that segment has by then failed at least
      five refreshes in a row over at least thirty seconds, by the session's own record. */
  lemma PlaceholderIffUnprobeable(parser: Parser, steps: seq<Step>, probed: seq<int>, at: int)
    requires Runs(New(parser), steps) && Enabled(End(New(parser), steps), ProbesDone(probed, at))
    requires End(New(parser), steps).SameStream(End(New(parser), steps).refresh.value.session)
    ensures var w := End(New(parser), steps);
            var pending, w' := w.refresh.value.snap.pending, Apply(w, ProbesDone(probed, at));
            var n := |w.stream.segs|;
            (|w'.stream.segs| > n && w'.stream.segs[n].byteSize == 0) <==>
            pending != [] && Unprobeable(w.tries + [Try(pending[0].url, probed[0] <= 0, at, false)], pending[0].url)
  {
    var w := End(New(parser), steps);
    var snap := w.refresh.value.snap;
    assert TrackerOk(w.stream.tracker, w.tries) by { RunKeepsInv(New(parser), steps); }
    SizingFollowsHistory(w.stream.tracker, w.tries, snap.pending, probed, at);
    var sized := Size(w.stream.tracker, snap.pending, probed, at);
    var laid := AppendLeadingLays(w.stream, snap.pending, sized.sizes, sized.merged);
    if laid != [] { assert (w.stream.segs + laid)[|w.stream.segs|] == laid[0]; }
  }

  /** Why refreshes take turns: the merge re-checks only the session, so a second refresh that computed its pending list
      from the same stream would lay every segment of it again. */
  lemma OverlappingRefreshesRepeatSegments(s: Stream, pending: seq<PlaylistEntry>, sizes: seq<int>)
    requires |pending| == |sizes| > 0
    ensures var twice := AppendSized(AppendSized(s, pending, sizes), pending, sizes);
            && |twice.segs| == |s.segs| + 2 * |pending|
            && twice.segs[|s.segs|].key == twice.segs[|s.segs| + |pending|].key == pending[0].url
  {
    var once := AppendSized(s, pending, sizes);
    AppendSizedLengthens(s, pending, sizes);
    AppendSizedLengthens(once, pending, sizes);
    FirstAppended(s, pending, sizes);
    FirstAppended(once, pending, sizes);
    var twice := AppendSized(once, pending, sizes);
    assert twice.segs[|s.segs|] == once.segs[|s.segs|];
  }

  lemma FirstAppended(s: Stream, pending: seq<PlaylistEntry>, sizes: seq<int>)
    requires |pending| == |sizes| > 0
    ensures |AppendSized(s, pending, sizes).segs| > |s.segs|
    ensures AppendSized(s, pending, sizes).segs[|s.segs|].key == pending[0].url
  {
    var next := AppendOne(s, pending[0], sizes[0]);
    AppendSizedLengthens(next, pending[1..], sizes[1..]);
    assert AppendSized(s, pending, sizes) == AppendSized(next, pending[1..], sizes[1..]);
  }
}
