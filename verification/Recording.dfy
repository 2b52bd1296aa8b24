/**
 An in-progress recording (src/DispatcharrClient.cpp, src/UnprobeableSegment.cpp, src/RecordingVisibility.cpp,
 src/InProgressSegmentCache.h): a growing playlist merged into one byte stream, the segment cache that outlives an
 open, and the evidence it takes to call the recording finished.
 */
module Recording {
  import opened Common
  import opened Segments
  import opened Playlist

  type RecSegment = Segment<string>

  const MIN_FAILURES := 5
  const MIN_WAIT_MS := 30000
  const END_LIST_GRACE_MS := 15000
  const CACHE_TTL_MS := 86400000

  // ---- Sizing: only a leading run of sized segments may be merged ----

  function LeadingProbed(sizes: seq<int>): (n: nat)
    ensures n <= |sizes| && (forall i :: 0 <= i < n ==> sizes[i] > 0) && (n < |sizes| ==> sizes[n] <= 0)
  {
    if sizes == [] || sizes[0] <= 0 then 0 else 1 + LeadingProbed(sizes[1..])
  }

  method CountLeadingProbedSegments(sizes: seq<int>) returns (count: nat)
    ensures count == LeadingProbed(sizes)
  {
    count := 0;
    while count < |sizes| && sizes[count] > 0
      invariant 0 <= count <= |sizes| && LeadingProbed(sizes) == count + LeadingProbed(sizes[count..])
    {
      assert sizes[count..][1..] == sizes[count + 1..];
      count := count + 1;
    }
  }

  /** A leading segment given up on counts as merged with no bytes. */
  function Mergeable(sizes: seq<int>, leadingGivenUp: bool): (n: nat)
    ensures n <= |sizes| && (n < |sizes| && !(leadingGivenUp && n == 0) ==> sizes[n] <= 0)
    ensures forall i :: 0 <= i < n ==> sizes[i] > 0 || (leadingGivenUp && i == 0)
  {
    if !leadingGivenUp || sizes == [] then LeadingProbed(sizes) else 1 + LeadingProbed(sizes[1..])
  }

  method CountMergeableSegments(sizes: seq<int>, leadingGivenUp: bool) returns (count: nat)
    ensures count == Mergeable(sizes, leadingGivenUp)
  {
    if !leadingGivenUp || sizes == [] {
      count := CountLeadingProbedSegments(sizes);
      return;
    }
    count := 1;
    while count < |sizes| && sizes[count] > 0
      invariant 1 <= count <= |sizes| && 1 + LeadingProbed(sizes[1..]) == count + LeadingProbed(sizes[count..])
    {
      assert sizes[count..][1..] == sizes[count + 1..];
      count := count + 1;
    }
  }

  function FailedFrom(sizes: seq<int>, from: nat): nat
    requires from <= |sizes|
    decreases |sizes| - from
  {
    if from == |sizes| then 0 else FailedFrom(sizes, from + 1) + if sizes[from] <= 0 then 1 else 0
  }

  method CountFailed(sizes: seq<int>, from: nat) returns (failed: nat)
    requires from <= |sizes|
    ensures failed == FailedFrom(sizes, from)
  {
    failed := 0;
    for i := from to |sizes|
      invariant failed + FailedFrom(sizes, i) == FailedFrom(sizes, from)
    {
      if sizes[i] <= 0 { failed := failed + 1; }
    }
  }

  /** No failure is left behind exactly when everything listed was merged. */
  lemma AllMergedIffNoneFailed(sizes: seq<int>, leadingGivenUp: bool)
    ensures FailedFrom(sizes, Mergeable(sizes, leadingGivenUp)) == 0 <==> Mergeable(sizes, leadingGivenUp) == |sizes|
  {
  }

  // ---- The segment that never answers ----

  datatype Tracker = Tracker(url: string, failures: nat, firstFailedAt: int)

  const NO_TRACKER := Tracker("", 0, 0)

  datatype TrackerStep = TrackerStep(tracker: Tracker, giveUp: bool)

  function UpdateTracker(tracker: Tracker, leadingUrl: string, leadingFailed: bool, now: int): TrackerStep {
    if leadingUrl == "" || !leadingFailed then TrackerStep(NO_TRACKER, false)
    else
      var next := if tracker.url != leadingUrl then Tracker(leadingUrl, 1, now)
                  else tracker.(failures := tracker.failures + 1);
      if next.failures >= MIN_FAILURES && now - next.firstFailedAt >= MIN_WAIT_MS then TrackerStep(NO_TRACKER, true)
      else TrackerStep(next, false)
  }

  predicate ProbesOnlyLeading(tracker: Tracker, leadingUrl: string) {
    tracker.failures > 0 && tracker.url != "" && tracker.url == leadingUrl
  }

  function IndexToArm(sizes: seq<int>, merged: nat, leadingGivenUp: bool, probed: nat): nat {
    if leadingGivenUp || merged == 0 || merged >= |sizes| || merged >= probed then |sizes|
    else if sizes[merged] <= 0 then merged else |sizes|
  }

  /** One report to the tracker: how the segment then leading did. */
  datatype Try = Try(url: string, failed: bool, at: int, gaveUp: bool)
  {
    predicate Counts() { failed && url != "" && !gaveUp }

    predicate Fails(which: string) { Counts() && url == which }
  }

  /** From j to the end every report was a failure of this segment, and the one before j was not. */
  ghost predicate FailRun(history: seq<Try>, j: int, url: string) {
    && 0 <= j < |history|
    && (forall i :: j <= i < |history| ==> history[i].Fails(url))
    && (j > 0 ==> !history[j - 1].Fails(url))
  }

  ghost predicate TrackerOk(tracker: Tracker, history: seq<Try>) {
    if tracker.url == "" then
      tracker == NO_TRACKER && (history != [] ==> !history[|history| - 1].Counts())
    else
      exists j :: FailRun(history, j, tracker.url) && tracker.failures == |history| - j
                  && tracker.firstFailedAt == history[j].at
  }

  /** Long enough: the run ending here has the five failures and the thirty seconds. */
  ghost predicate Unprobeable(history: seq<Try>, url: string) {
    exists j :: FailRun(history, j, url) && |history| - j >= MIN_FAILURES
      && history[|history| - 1].at - history[j].at >= MIN_WAIT_MS
  }

  lemma TrackerFollowsHistory(tracker: Tracker, history: seq<Try>, url: string, failed: bool, at: int)
    requires TrackerOk(tracker, history)
    ensures var step := UpdateTracker(tracker, url, failed, at);
            && (step.giveUp <==> Unprobeable(history + [Try(url, failed, at, false)], url))
            && TrackerOk(step.tracker, history + [Try(url, failed, at, step.giveUp)])
  {
    var step := UpdateTracker(tracker, url, failed, at);
    var after := history + [Try(url, failed, at, false)];
    if url != "" && failed {
      var j := |history|;
      if tracker.url == url {
        j :| FailRun(history, j, url) && tracker.failures == |history| - j && tracker.firstFailedAt == history[j].at;
        assert j > 0 ==> after[j - 1] == history[j - 1];
      } else if j > 0 {
        assert after[j - 1] == history[j - 1];
        LastFailureIsTracked(tracker, history, url);
      }
      assert FailRun(after, j, url);
      forall k | FailRun(after, k, url)
        ensures k == j
      {
        FailRunIsUnique(after, j, k, url);
      }
    }
  }

  lemma LastFailureIsTracked(tracker: Tracker, history: seq<Try>, url: string)
    requires TrackerOk(tracker, history) && history != [] && tracker.url != url
    ensures !history[|history| - 1].Fails(url)
  {
    if tracker.url != "" {
      var j :| FailRun(history, j, tracker.url) && tracker.failures == |history| - j;
      assert history[|history| - 1].Fails(tracker.url);
    }
  }

  lemma FailRunIsUnique(history: seq<Try>, j: int, k: int, url: string)
    requires FailRun(history, j, url) && FailRun(history, k, url)
    ensures j == k
  {
  }

  class UnprobeableSegmentTracker {
    var tracker: Tracker
    ghost var history: seq<Try>

    ghost predicate Valid()
      reads this
    {
      TrackerOk(tracker, history)
    }

    constructor ()
      ensures Valid() && history == []
    {
      tracker, history := NO_TRACKER, [];
    }

    /** Giving up is exactly the unbroken run of failures of this one segment being long enough. */
    method Update(leadingUrl: string, leadingFailed: bool, now: int) returns (giveUp: bool)
      requires Valid()
      modifies this
      ensures Valid() && history == old(history) + [Try(leadingUrl, leadingFailed, now, giveUp)]
      ensures giveUp <==> Unprobeable(old(history) + [Try(leadingUrl, leadingFailed, now, false)], leadingUrl)
      ensures tracker == UpdateTracker(old(tracker), leadingUrl, leadingFailed, now).tracker
    {
      TrackerFollowsHistory(tracker, history, leadingUrl, leadingFailed, now);
      giveUp := false;
      if leadingUrl == "" || !leadingFailed {
        tracker := NO_TRACKER;
      } else {
        if tracker.url != leadingUrl {
          tracker := Tracker(leadingUrl, 1, now);
        } else {
          tracker := tracker.(failures := tracker.failures + 1);
        }
        if tracker.failures >= MIN_FAILURES && now - tracker.firstFailedAt >= MIN_WAIT_MS {
          tracker := NO_TRACKER;
          giveUp := true;
        }
      }
      history := history + [Try(leadingUrl, leadingFailed, now, giveUp)];
    }
  }

  // ---- When a recording counts as finished ----

  datatype Answer = Answer(ok: bool, status: int, inProgress: bool)

  function ResolveFinished(lookup: Answer, previous: bool, allMerged: bool): bool {
    if !lookup.ok then previous else if lookup.inProgress then false else allMerged
  }

  predicate ContentGone(hadSegments: bool, notFound: bool, lookup: Answer) {
    hadSegments && notFound && if lookup.ok then !lookup.inProgress else lookup.status == 404
  }

  datatype Gated = Gated(finished: bool, waitingSince: Option<int>)

  function Gate(candidate: bool, hasEndList: bool, waitingSince: Option<int>, now: int): Gated {
    if !candidate then Gated(false, None)
    else if hasEndList then Gated(true, None)
    else
      var since := if waitingSince.None? then now else waitingSince.value;
      Gated(now - since >= END_LIST_GRACE_MS, Some(since))
  }

  /** What one completed refresh found. */
  datatype Evidence = Evidence(now: int, candidate: bool, hasEndList: bool)
  {
    predicate Waits() { candidate && !hasEndList }
  }

  /** From j to the end every refresh was a candidate without the end tag, and the one before j was not. */
  ghost predicate WaitRun(history: seq<Evidence>, j: int) {
    && 0 <= j < |history|
    && (forall i :: j <= i < |history| ==> history[i].Waits())
    && (j > 0 ==> !history[j - 1].Waits())
  }

  /** The one remembered time is the start of that run. */
  ghost predicate WaitOk(waitingSince: Option<int>, history: seq<Evidence>) {
    match waitingSince
    case None => history == [] || !history[|history| - 1].Waits()
    case Some(t) => exists j :: WaitRun(history, j) && history[j].now == t
  }

  lemma GateFollowsHistory(waitingSince: Option<int>, history: seq<Evidence>, e: Evidence) returns (j: int)
    requires WaitOk(waitingSince, history)
    ensures var g, after := Gate(e.candidate, e.hasEndList, waitingSince, e.now), history + [e];
            && WaitOk(g.waitingSince, after)
            && (e.Waits() ==> WaitRun(after, j))
            && (g.finished <==> e.candidate && (e.hasEndList || e.now - after[j].now >= END_LIST_GRACE_MS))
  {
    var after := history + [e];
    j := |history|;
    if e.Waits() {
      if waitingSince.Some? {
        j :| WaitRun(history, j) && history[j].now == waitingSince.value;
        assert after[j] == history[j];
        assert j > 0 ==> after[j - 1] == history[j - 1];
      }
      assert WaitRun(after, j);
    }
  }

  class FinishedGate {
    var waitingSince: Option<int>
    ghost var history: seq<Evidence>

    ghost predicate Valid()
      reads this
    {
      WaitOk(waitingSince, history)
    }

    constructor ()
      ensures Valid() && history == []
    {
      waitingSince, history := None, [];
    }

    /** Finished is the end tag, or an unbroken run of candidates at least the grace period long. */
    method GateFinishedOnEndList(candidate: bool, hasEndList: bool, now: int) returns (finished: bool)
      requires Valid()
      modifies this
      ensures Valid() && history == old(history) + [Evidence(now, candidate, hasEndList)]
      ensures finished <==>
              candidate && (hasEndList || exists j :: WaitRun(history, j) && now - history[j].now >= END_LIST_GRACE_MS)
    {
      ghost var e := Evidence(now, candidate, hasEndList);
      ghost var j := GateFollowsHistory(waitingSince, history, e);
      history := history + [e];
      if !candidate {
        waitingSince := None;
        return false;
      }
      if hasEndList {
        waitingSince := None;
        return true;
      }
      if waitingSince.None? { waitingSince := Some(now); }
      finished := now - waitingSince.value >= END_LIST_GRACE_MS;
      if exists k :: WaitRun(history, k) && now - history[k].now >= END_LIST_GRACE_MS {
        ghost var k :| WaitRun(history, k) && now - history[k].now >= END_LIST_GRACE_MS;
        WaitRunIsUnique(history, j, k);
      }
    }
  }

  lemma WaitRunIsUnique(history: seq<Evidence>, j: int, k: int)
    requires WaitRun(history, j) && WaitRun(history, k)
    ensures j == k
  {
  }

  // ---- The stream and the cache that outlives it ----

  datatype Stream = Stream(id: int, segs: seq<RecSegment>, totalBytes: int, totalMs: int, finished: bool, gone: bool,
                           waitingSince: Option<int>, tracker: Tracker)

  datatype CacheEntry = CacheEntry(segs: seq<RecSegment>, totalBytes: int, totalMs: int, lastUpdated: int)

  type Cache = map<int, CacheEntry>

  /** The duration to the nearest millisecond. */
  function DurationMs(e: PlaylistEntry): (ms: int)
    ensures ms as real - 0.5 <= e.durationSec * 1000.0 < ms as real + 0.5
  {
    (e.durationSec * 1000.0 + 0.5).Floor
  }

  function AppendOne(s: Stream, e: PlaylistEntry, size: int): Stream {
    s.(segs := Append(s.segs, s.totalBytes, s.totalMs, e.url, size), totalBytes := s.totalBytes + size,
    totalMs := s.totalMs + DurationMs(e))
  }

  function AppendSized(s: Stream, pending: seq<PlaylistEntry>, sizes: seq<int>): Stream
    requires |pending| == |sizes|
    decreases |pending|
  {
    if pending == [] then s else AppendSized(AppendOne(s, pending[0], sizes[0]), pending[1..], sizes[1..])
  }

  function AppendLeading(s: Stream, pending: seq<PlaylistEntry>, sizes: seq<int>, n: nat): Stream
    requires |pending| == |sizes| && n <= |pending|
  {
    AppendSized(s, pending[..n], sizes[..n])
  }

  /** A refresh whose playlist came back: what it still has to merge, and what the server said. */
  datatype Snapshot = Snapshot(pending: seq<PlaylistEntry>, lookup: Answer, hasEndList: bool, now: int)

  datatype Sized = Sized(sizes: seq<int>, giveUp: bool, merged: nat, tracker: Tracker)

  /** The probe results as they are used: a leading segment given up on has no bytes. */
  function Size(tracker: Tracker, pending: seq<PlaylistEntry>, probed: seq<int>, at: int): (r: Sized)
    requires |probed| == |pending|
    ensures |r.sizes| == |pending| && r.merged <= |pending| && r.merged == Mergeable(r.sizes, r.giveUp)
    ensures forall i :: 0 <= i < r.merged ==> 0 <= r.sizes[i]
    ensures r.giveUp ==> pending != [] && probed[0] <= 0 && r.sizes == probed[0 := 0] && r.tracker == NO_TRACKER
    ensures !r.giveUp ==> r.sizes == probed
    ensures pending != [] && r.tracker != NO_TRACKER ==>
              r.merged < |pending| && probed[r.merged] <= 0 && r.tracker.url == pending[r.merged].url
  {
    if pending == [] then Sized(probed, false, 0, tracker)
    else
      var step := UpdateTracker(tracker, pending[0].url, probed[0] <= 0, at);
      var sizes := if step.giveUp then probed[0 := 0] else probed;
      var merged := Mergeable(sizes, step.giveUp);
      var probedCount := if ProbesOnlyLeading(tracker, pending[0].url) then 1 else |pending|;
      var arm := IndexToArm(sizes, merged, step.giveUp, probedCount);
      Sized(sizes, step.giveUp, merged,
            if arm < |pending| then UpdateTracker(step.tracker, pending[arm].url, true, at).tracker else step.tracker)
  }

  /** What a refresh reports to the tracker: how the leading segment did and, behind sized ones, the first that failed
      although it was probed. */
  function Tried(tracker: Tracker, pending: seq<PlaylistEntry>, probed: seq<int>, at: int): seq<Try>
    requires |probed| == |pending|
  {
    if pending == [] then []
    else
      var sized := Size(tracker, pending, probed, at);
      var probedCount := if ProbesOnlyLeading(tracker, pending[0].url) then 1 else |pending|;
      [Try(pending[0].url, probed[0] <= 0, at, sized.giveUp)] +
      if !sized.giveUp && 0 < sized.merged < probedCount then [Try(pending[sized.merged].url, true, at, false)] else []
  }

  /** A refresh gives its leading segment up exactly when this failure makes the run of its failures long enough. */
  lemma SizingFollowsHistory(tracker: Tracker, tries: seq<Try>, pending: seq<PlaylistEntry>, probed: seq<int>, at: int)
    requires TrackerOk(tracker, tries) && |probed| == |pending|
    ensures var sized := Size(tracker, pending, probed, at);
            && TrackerOk(sized.tracker, tries + Tried(tracker, pending, probed, at))
            && (sized.giveUp <==>
                pending != [] && Unprobeable(tries + [Try(pending[0].url, probed[0] <= 0, at, false)], pending[0].url))
  {
    if pending == [] {
      assert tries + [] == tries;
    } else {
      TrackerFollowsHistory(tracker, tries, pending[0].url, probed[0] <= 0, at);
      ArmingFollowsHistory(tracker, tries, pending, probed, at);
    }
  }

  lemma ArmingFollowsHistory(tracker: Tracker, tries: seq<Try>, pending: seq<PlaylistEntry>, probed: seq<int>, at: int)
    requires |probed| == |pending| > 0
    requires var step := UpdateTracker(tracker, pending[0].url, probed[0] <= 0, at);
             TrackerOk(step.tracker, tries + [Try(pending[0].url, probed[0] <= 0, at, step.giveUp)])
    ensures TrackerOk(Size(tracker, pending, probed, at).tracker, tries + Tried(tracker, pending, probed, at))
  {
    var sized := Size(tracker, pending, probed, at);
    var step := UpdateTracker(tracker, pending[0].url, probed[0] <= 0, at);
    var first := tries + [Try(pending[0].url, probed[0] <= 0, at, sized.giveUp)];
    var all := Tried(tracker, pending, probed, at);
    if |all| == 1 {
      assert tries + all == first;
    } else {
      TrackerFollowsHistory(step.tracker, first, pending[sized.merged].url, true, at);
      assert tries + all == first + [Try(pending[sized.merged].url, true, at, false)];
    }
  }

  function EvidenceOf(s: Stream, snap: Snapshot, sized: Sized): Evidence {
    Evidence(snap.now, ResolveFinished(snap.lookup, s.finished, sized.merged == |snap.pending|), snap.hasEndList)
  }

  function Complete(s: Stream, snap: Snapshot, probed: seq<int>, at: int): Stream
    requires |probed| == |snap.pending|
  {
    var sized := Size(s.tracker, snap.pending, probed, at);
    var grown := AppendLeading(s, snap.pending, sized.sizes, sized.merged);
    var e := EvidenceOf(s, snap, sized);
    var gated := Gate(e.candidate, e.hasEndList, s.waitingSince, e.now);
    grown.(finished := gated.finished, waitingSince := gated.waitingSince, tracker := sized.tracker)
  }

  predicate ShouldReseed(cached: nat, newlyProbed: nat, current: nat) { cached + newlyProbed != current }

  function Unexpired(cache: Cache, now: int): Cache {
    map id | id in cache && now - cache[id].lastUpdated <= CACHE_TTL_MS :: cache[id]
  }

  function CachedSegs(cache: Cache, id: int): seq<RecSegment> {
    if id in cache then cache[id].segs else []
  }

  /** The cache once a refresh merged `merged` segments into `s`. */
  function UpdateCache(cache: Cache, s: Stream, merged: nat, now: int): Cache
    requires merged <= |s.segs|
  {
    if merged == 0 && !s.finished then cache
    else if s.finished then Unexpired(cache - {s.id}, now)
    else
      var cached := CachedSegs(cache, s.id);
      var segs := if ShouldReseed(|cached|, merged, |s.segs|) then s.segs else cached + s.segs[|s.segs| - merged..];
      Unexpired(cache[s.id := CacheEntry(segs, s.totalBytes, s.totalMs, now)], now)
  }

  predicate SameList(e: CacheEntry, s: Stream) {
    e.segs == s.segs && e.totalBytes == s.totalBytes && e.totalMs == s.totalMs
  }

  /** A recording's cache entry is absent, or the stream's own list. */
  predicate InStep(cache: Cache, s: Stream) { s.id in cache ==> SameList(cache[s.id], s) }

  /** The cache entry either goes, or ends up equal to the stream's list, whichever way it was brought up to date. */
  lemma CacheFollows(cache: Cache, before: Stream, s: Stream, merged: nat, now: int)
    requires before.segs <= s.segs && |s.segs| == |before.segs| + merged && s.id == before.id
    requires s.id in cache ==> SameList(cache[s.id], before)
    requires merged == 0 ==> s.totalBytes == before.totalBytes && s.totalMs == before.totalMs
    ensures var after := UpdateCache(cache, s, merged, now);
            && (s.id in after ==> SameList(after[s.id], s))
            && (s.finished ==> s.id !in after)
            && (merged > 0 && !s.finished ==> s.id in after)
            && (forall id | id in after && id != s.id :: id in cache && after[id] == cache[id])
  {
    if merged > 0 && !s.finished {
      var cached := CachedSegs(cache, s.id);
      if !ShouldReseed(|cached|, merged, |s.segs|) {
        assert cached == before.segs;
        assert s.segs == before.segs + s.segs[|before.segs|..];
      }
    }
  }

  /** A refresh that merged something or found the end dates its own entry and forgets the others exactly when nobody
      touched them for a day; any other refresh leaves the cache alone. */
  lemma CacheForgetsOnlyTheOld(cache: Cache, s: Stream, merged: nat, now: int, id: int)
    requires merged <= |s.segs| && id in cache && id != s.id
    ensures var after := UpdateCache(cache, s, merged, now);
            && (merged == 0 && !s.finished ==> after == cache)
            && (merged > 0 || s.finished ==> (id in after <==> now - cache[id].lastUpdated <= 24 * 3600 * 1000))
            && (id in after ==> after[id] == cache[id])
            && (merged > 0 && !s.finished ==> s.id in after && after[s.id].lastUpdated == now)
  {
  }

  function Opened(cache: Cache, id: int): Stream {
    var empty := Stream(id, [], 0, 0, false, false, None, NO_TRACKER);
    if id !in cache then empty
    else empty.(segs := cache[id].segs, totalBytes := cache[id].totalBytes, totalMs := cache[id].totalMs)
  }

  // ---- The same as the client runs it ----

  /** The prune loop: every entry not touched for longer than the limit is erased. */
  method PruneExpired(cache: Cache, now: int) returns (kept: Cache)
    ensures kept == Unexpired(cache, now)
  {
    kept := cache;
    var todo := cache.Keys;
    while todo != {}
      invariant todo <= cache.Keys && kept == StillListed(cache, now, todo)
      decreases |todo|
    {
      var id := AnyOf(todo);
      StillListedNext(cache, now, todo, id);
      if now - cache[id].lastUpdated > CACHE_TTL_MS { kept := kept - {id}; }
      todo := todo - {id};
    }
  }

  /** The cache while the entries in `todo` have still to be looked at. */
  function StillListed(cache: Cache, now: int, todo: set<int>): Cache {
    map id | id in cache && (id in todo || now - cache[id].lastUpdated <= CACHE_TTL_MS) :: cache[id]
  }

  lemma StillListedNext(cache: Cache, now: int, todo: set<int>, id: int)
    requires todo <= cache.Keys && id in todo
    ensures StillListed(cache, now, todo - {id}) ==
            if now - cache[id].lastUpdated > CACHE_TTL_MS then StillListed(cache, now, todo) - {id}
            else StillListed(cache, now, todo)
  {
  }

  class InProgressRecordings {
    var stream: Stream
    var cache: Cache

    constructor ()
      ensures stream == Opened(map[], 0) && cache == map[]
    {
      stream, cache := Stream(0, [], 0, 0, false, false, None, NO_TRACKER), map[];
    }

    method Open(id: int)
      modifies this`stream
      ensures stream == Opened(cache, id)
    {
      stream := Stream(id, [], 0, 0, false, false, None, NO_TRACKER);
      if id in cache {
        stream := stream.(segs := cache[id].segs, totalBytes := cache[id].totalBytes, totalMs := cache[id].totalMs);
      }
    }

    /** What a fetched playlist lists past the known segments, and whether it says that no more will follow. */
    method ReadPlaylist(text: string, baseDir: string, stod: ReadNumber)
      returns (pending: seq<PlaylistEntry>, hasEndList: bool)
      ensures pending == Drop(Entries(text, baseDir, stod), |stream.segs|) && hasEndList == HasEndList(text)
    {
      var alreadyKnown := |stream.segs|;
      pending := ParseNewM3u8SegmentEntries(text, baseDir, alreadyKnown, stod);
      hasEndList := M3u8HasEndList(text);
    }

    /** The merge loop over the leading run that could be sized. */
    method MergePending(pending: seq<PlaylistEntry>, sizes: seq<int>)
      requires |pending| == |sizes|
      modifies this`stream
      ensures stream == AppendSized(old(stream), pending, sizes)
      ensures old(stream).segs <= stream.segs && LaidAs(stream.segs[|old(stream).segs|..], pending, sizes)
      ensures |stream.segs| == |old(stream).segs| + |pending|
    {
      ghost var laid := AppendLeadingLays(stream, pending, sizes, |pending|);
      assert pending[..|pending|] == pending && sizes[..|sizes|] == sizes;
      for i := 0 to |pending|
        invariant AppendSized(stream, pending[i..], sizes[i..]) == AppendSized(old(stream), pending, sizes)
      {
        assert pending[i..][1..] == pending[i + 1..] && sizes[i..][1..] == sizes[i + 1..];
        var byteOffset, timeOffsetMs := stream.totalBytes, stream.totalMs;
        stream := stream.(totalBytes := byteOffset + sizes[i], totalMs := timeOffsetMs + DurationMs(pending[i]),
        segs := stream.segs + [Segment(pending[i].url, byteOffset, sizes[i], timeOffsetMs)]);
      }
    }

    /** The stream's part of a refresh whose probes are back. */
    method MergeSnapshot(snap: Snapshot, probed: seq<int>, at: int) returns (merged: nat)
      requires |probed| == |snap.pending|
      modifies this`stream
      ensures stream == Complete(old(stream), snap, probed, at) && |stream.segs| == |old(stream).segs| + merged
      ensures old(stream).segs <= stream.segs && stream.id == old(stream).id
      ensures merged == 0 ==> stream.totalBytes == old(stream).totalBytes && stream.totalMs == old(stream).totalMs
    {
      var before := stream;
      var sized := Size(stream.tracker, snap.pending, probed, at);
      MergePending(snap.pending[..sized.merged], sized.sizes[..sized.merged]);
      AppendSizedLengthens(before, snap.pending[..sized.merged], sized.sizes[..sized.merged]);
      var failedProbeCount := CountFailed(sized.sizes, sized.merged);
      AllMergedIffNoneFailed(sized.sizes, sized.giveUp);
      var candidate := ResolveFinished(snap.lookup, before.finished, failedProbeCount == 0);
      var gated := Gate(candidate, snap.hasEndList, stream.waitingSince, snap.now);
      stream := stream.(finished := gated.finished, waitingSince := gated.waitingSince, tracker := sized.tracker);
      merged := sized.merged;
    }

    /** Everything a refresh does once its probes are back. */
    method CompleteRefresh(snap: Snapshot, probed: seq<int>, at: int)
      requires |probed| == |snap.pending|
      modifies this
      ensures stream == Complete(old(stream), snap, probed, at)
      ensures |old(stream).segs| <= |stream.segs|
      ensures cache == UpdateCache(old(cache), stream, |stream.segs| - |old(stream).segs|, snap.now)
      ensures InStep(old(cache), old(stream)) ==>
                && InStep(cache, stream)
                && (stream.finished ==> stream.id !in cache)
                && (|stream.segs| > |old(stream).segs| && !stream.finished ==> stream.id in cache)
    {
      var merged := MergeSnapshot(snap, probed, at);
      KeepCacheInStep(merged, snap.now);
      if InStep(old(cache), old(stream)) { CacheFollows(old(cache), old(stream), stream, merged, snap.now); }
    }

    /** The cross-open cache after a merge: a finished recording's entry goes, any other is appended to, or copied whole
        when it is not the rest of the list; then entries nobody touched for a day go. */
    method KeepCacheInStep(merged: nat, now: int)
      requires merged <= |stream.segs|
      modifies this`cache
      ensures cache == UpdateCache(old(cache), stream, merged, now)
    {
      if merged == 0 && !stream.finished { return; }
      if stream.finished {
        cache := cache - {stream.id};
      } else {
        var segs := if stream.id in cache then cache[stream.id].segs else [];
        if ShouldReseed(|segs|, merged, |stream.segs|) {
          segs := stream.segs;
        } else {
          segs := segs + stream.segs[|stream.segs| - merged..];
        }
        cache := cache[stream.id := CacheEntry(segs, stream.totalBytes, stream.totalMs, now)];
      }
      cache := PruneExpired(cache, now);
    }
  }

  lemma {:induction false} AppendSizedLengthens(s: Stream, pending: seq<PlaylistEntry>, sizes: seq<int>)
    requires |pending| == |sizes|
    ensures var r := AppendSized(s, pending, sizes);
            && |r.segs| == |s.segs| + |pending| && s.segs <= r.segs
            && r == s.(segs := r.segs, totalBytes := r.totalBytes, totalMs := r.totalMs)
    decreases |pending|
  {
    if pending != [] {
      var next := AppendOne(s, pending[0], sizes[0]);
      assert next.segs[..|s.segs|] == s.segs;
      AppendSizedLengthens(next, pending[1..], sizes[1..]);
    }
  }

  lemma CompleteOnlyGrows(s: Stream, snap: Snapshot, probed: seq<int>, at: int)
    requires |probed| == |snap.pending|
    ensures s.segs <= Complete(s, snap, probed, at).segs
  {
    var sized := Size(s.tracker, snap.pending, probed, at);
    AppendSizedLengthens(s, snap.pending[..sized.merged], sized.sizes[..sized.merged]);
  }

  // ---- What a merge lays ----

  function BytesBefore(sizes: seq<int>, n: nat): int
    requires n <= |sizes|
  {
    if n == 0 then 0 else sizes[0] + BytesBefore(sizes[1..], n - 1)
  }

  function TimeBefore(pending: seq<PlaylistEntry>, n: nat): int
    requires n <= |pending|
  {
    if n == 0 then 0 else DurationMs(pending[0]) + TimeBefore(pending[1..], n - 1)
  }

  /** The i-th merged entry is laid with its own URL and the size probed for it, behind all the ones before it. */
  lemma {:induction false} AppendSizedLays(s: Stream, pending: seq<PlaylistEntry>, sizes: seq<int>, i: nat)
    requires |pending| == |sizes| && i <= |pending|
    ensures var r := AppendSized(s, pending, sizes);
            && |r.segs| == |s.segs| + |pending|
            && (i < |pending| ==>
                  r.segs[|s.segs| + i] == Segment(pending[i].url, s.totalBytes + BytesBefore(sizes, i), sizes[i],
                                                  s.totalMs + TimeBefore(pending, i)))
            && r.totalBytes == s.totalBytes + BytesBefore(sizes, |sizes|)
            && r.totalMs == s.totalMs + TimeBefore(pending, |pending|)
    decreases |pending|
  {
    AppendSizedLengthens(s, pending, sizes);
    if pending != [] {
      var next := AppendOne(s, pending[0], sizes[0]);
      AppendSizedLengthens(next, pending[1..], sizes[1..]);
      AppendSizedLays(next, pending[1..], sizes[1..], if i == 0 then 0 else i - 1);
      var r := AppendSized(next, pending[1..], sizes[1..]);
      if i == 0 { assert r.segs[|s.segs|] == next.segs[|s.segs|]; }
      if i > 0 { assert |s.segs| + i == |next.segs| + (i - 1); }
    }
  }

  /** These segments are the first entries, with these sizes. */
  ghost predicate LaidAs(laid: seq<RecSegment>, pending: seq<PlaylistEntry>, sizes: seq<int>) {
    && |laid| <= |pending| == |sizes|
    && forall i :: 0 <= i < |laid| ==> laid[i].key == pending[i].url && laid[i].byteSize == sizes[i]
  }

  lemma AppendLeadingLays(s: Stream, pending: seq<PlaylistEntry>, sizes: seq<int>, n: nat)
    returns (laid: seq<RecSegment>)
    requires |pending| == |sizes| && n <= |pending|
    ensures AppendLeading(s, pending, sizes, n).segs == s.segs + laid && |laid| == n && LaidAs(laid, pending, sizes)
  {
    var r := AppendLeading(s, pending, sizes, n);
    AppendSizedLengthens(s, pending[..n], sizes[..n]);
    laid := r.segs[|s.segs|..];
    forall i | 0 <= i < n
      ensures laid[i].key == pending[i].url && laid[i].byteSize == sizes[i]
    {
      AppendSizedLays(s, pending[..n], sizes[..n], i);
    }
  }

  // ---- A merged list mirrors the playlist ----

  /** The time the playlist's first n entries take. */
  function MsBefore(entries: seq<PlaylistEntry>, n: nat): int
    requires n <= |entries|
  {
    if n == 0 then 0 else MsBefore(entries, n - 1) + DurationMs(entries[n - 1])
  }

  lemma {:induction false} MsBeforeInLonger(entries: seq<PlaylistEntry>, more: seq<PlaylistEntry>, n: nat)
    requires n <= |entries|
    ensures MsBefore(entries + more, n) == MsBefore(entries, n)
  {
    if n > 0 { MsBeforeInLonger(entries, more, n - 1); }
  }

  /** The list is the first |segs| entries of the playlist, in order, laid end to end from 0. */
  ghost predicate Mirrors(segs: seq<RecSegment>, totalBytes: int, totalMs: int, playlist: seq<PlaylistEntry>) {
    && |segs| <= |playlist|
    && Contiguous(segs, totalBytes)
    && (if segs == [] then totalBytes == 0 else segs[0].byteOffset == 0)
    && (forall i :: 0 <= i < |segs| ==> segs[i].key == playlist[i].url && segs[i].timeOffsetMs == MsBefore(playlist, i))
    && totalMs == MsBefore(playlist, |segs|)
  }

  /** Prefix sums and no gap: the totals are what the listed segments add up to. */
  lemma MirrorsAddsUp(segs: seq<RecSegment>, totalBytes: int, totalMs: int, playlist: seq<PlaylistEntry>, i: nat)
    requires Mirrors(segs, totalBytes, totalMs, playlist) && i <= |segs|
    ensures SizeSum(segs[..i]) == if i < |segs| then segs[i].byteOffset else totalBytes
  {
    if i > 0 {
      if i == |segs| { assert segs[..i] == segs; }
      SizeSumSpans(segs[..i], if i < |segs| then segs[i].byteOffset else totalBytes);
    } else {
      assert segs[..0] == [];
    }
  }

  lemma MirrorsLonger(segs: seq<RecSegment>, totalBytes: int, totalMs: int, playlist: seq<PlaylistEntry>,
                      more: seq<PlaylistEntry>)
    requires Mirrors(segs, totalBytes, totalMs, playlist)
    ensures Mirrors(segs, totalBytes, totalMs, playlist + more)
  {
    forall i | 0 <= i <= |segs|
      ensures MsBefore(playlist + more, i) == MsBefore(playlist, i)
    {
      MsBeforeInLonger(playlist, more, i);
    }
  }

  lemma MirrorsNext(s: Stream, playlist: seq<PlaylistEntry>, size: nat)
    requires Mirrors(s.segs, s.totalBytes, s.totalMs, playlist) && |s.segs| < |playlist|
    ensures var next := AppendOne(s, playlist[|s.segs|], size);
            Mirrors(next.segs, next.totalBytes, next.totalMs, playlist)
  {
    AppendStaysContiguous(s.segs, s.totalBytes, s.totalMs, playlist[|s.segs|].url, size);
    var n := |s.segs|;
    var next := AppendOne(s, playlist[n], size);
    assert next.segs[n] == Segment(playlist[n].url, s.totalBytes, size, s.totalMs);
    assert MsBefore(playlist, n + 1) == MsBefore(playlist, n) + DurationMs(playlist[n]);
    forall i | 0 <= i < |next.segs|
      ensures next.segs[i].key == playlist[i].url && next.segs[i].timeOffsetMs == MsBefore(playlist, i)
    {
      if i < n { assert next.segs[i] == s.segs[i]; }
    }
  }

  /** The pending entries are the playlist's from the n-th on. */
  predicate Continues(n: nat, pending: seq<PlaylistEntry>, playlist: seq<PlaylistEntry>) {
    n + |pending| <= |playlist| && forall i :: 0 <= i < |pending| ==> pending[i] == playlist[n + i]
  }

  lemma ContinuesFromNext(n: nat, pending: seq<PlaylistEntry>, playlist: seq<PlaylistEntry>)
    requires Continues(n, pending, playlist) && pending != []
    ensures Continues(n + 1, pending[1..], playlist)
  {
    var rest := pending[1..];
    forall i | 0 <= i < |rest|
      ensures rest[i] == playlist[n + 1 + i]
    {
      assert rest[i] == pending[i + 1] == playlist[n + (i + 1)];
    }
  }

  lemma DropContinues(playlist: seq<PlaylistEntry>, count: nat, n: nat)
    requires count <= |playlist| && Drop(playlist[..count], n) != []
    ensures Continues(n, Drop(playlist[..count], n), playlist)
  {
    var pending := Drop(playlist[..count], n);
    assert forall i :: 0 <= i < |pending| ==> pending[i] == playlist[..count][n + i];
  }

  lemma {:induction false} AppendSizedMirrors(s: Stream, pending: seq<PlaylistEntry>, sizes: seq<int>,
                                              playlist: seq<PlaylistEntry>)
    requires |pending| == |sizes| && forall i :: 0 <= i < |sizes| ==> 0 <= sizes[i]
    requires Mirrors(s.segs, s.totalBytes, s.totalMs, playlist) && Continues(|s.segs|, pending, playlist)
    ensures var r := AppendSized(s, pending, sizes); Mirrors(r.segs, r.totalBytes, r.totalMs, playlist)
    ensures |AppendSized(s, pending, sizes).segs| == |s.segs| + |sizes|
    ensures forall i :: 0 <= i < |sizes| ==> AppendSized(s, pending, sizes).segs[|s.segs| + i].byteSize == sizes[i]
    decreases |pending|
  {
    if pending != [] {
      var next := AppendOne(s, pending[0], sizes[0]);
      MirrorsNext(s, playlist, sizes[0]);
      assert pending[0] == playlist[|s.segs| + 0];
      ContinuesFromNext(|s.segs|, pending, playlist);
      AppendSizedMirrors(next, pending[1..], sizes[1..], playlist);
    }
    AppendSizedLengthens(s, pending, sizes);
    forall i | 0 <= i < |sizes|
      ensures AppendSized(s, pending, sizes).segs[|s.segs| + i].byteSize == sizes[i]
    {
      AppendSizedLays(s, pending, sizes, i);
    }
  }

  lemma AppendLeadingMirrors(s: Stream, pending: seq<PlaylistEntry>, sizes: seq<int>, n: nat,
                             playlist: seq<PlaylistEntry>)
    requires |pending| == |sizes| && n <= |pending| && forall i :: 0 <= i < n ==> 0 <= sizes[i]
    requires Mirrors(s.segs, s.totalBytes, s.totalMs, playlist)
    requires pending != [] ==> Continues(|s.segs|, pending, playlist)
    ensures var r := AppendLeading(s, pending, sizes, n);
            && Mirrors(r.segs, r.totalBytes, r.totalMs, playlist)
            && |r.segs| == |s.segs| + n && s.segs <= r.segs
            && r == s.(segs := r.segs, totalBytes := r.totalBytes, totalMs := r.totalMs)
            && (n == 0 ==> r == s)
  {
    AppendSizedLengthens(s, pending[..n], sizes[..n]);
    if n > 0 { AppendSizedMirrors(s, pending[..n], sizes[..n], playlist); }
  }
}
