/**
 Waiting at the live tail (src/CatchUpUtil.h, DispatcharrClient::ReadLiveTimeshiftStreamOnce): the
 wait is handed back to Kodi in slices, so its budget is counted across calls. Times are
 milliseconds of a clock that is past zero.
 */
module TailWait {
  import opened Common

  const EPISODE_GAP_MS := 3000
  const STALL_BUDGET_MS := 70000

  // ---- Budgets ----

  predicate IsLikelySeekProbe(position: int, lastShortGiveUp: int, lastSeekAt: Option<int>, now: int, window: int) {
    position != lastShortGiveUp && lastSeekAt.Some? && now - lastSeekAt.value < window
  }

  function ShortGiveUpPosition(probe: bool, caughtUp: bool, position: int): int {
    if probe && !caughtUp then position else -1
  }

  function CatchUpAttempts(probe: bool, segmentEstimateMs: nat, sleepMs: nat): int
    requires sleepMs > 0
  {
    if probe then 1 else segmentEstimateMs * 3 / sleepMs + 1
  }

  function LiveBudgetMs(probe: bool, normalBudgetMs: int, lastRefreshAnswered: bool): int {
    if probe || !lastRefreshAnswered then normalBudgetMs else Max(normalBudgetMs, STALL_BUDGET_MS)
  }

  predicate GivesUp(probe: bool, waitedMs: int, budgetMs: int) { probe || waitedMs >= budgetMs }

  // ---- The episode ----

  /** What happened to the episode: a read arrived at the tail, was handed back (-1), or the wait finished. */
  datatype Mark = Entered(position: nat, at: int) | Touched(at: int) | Finished

  /** The read at k continues the wait before it: same position, and soon enough after the last mark. */
  ghost predicate Continues(h: seq<Mark>, k: int)
    requires 0 <= k < |h| && h[k].Entered?
  {
    && k > 0 && !h[k - 1].Finished?
    && h[k].at - h[k - 1].at <= EPISODE_GAP_MS
    && exists j :: PreviousRead(h, j, k) && h[j].position == h[k].position
  }

  ghost predicate PreviousRead(h: seq<Mark>, j: int, k: int) {
    && 0 <= j < k <= |h| && h[j].Entered?
    && forall m :: j < m < k ==> h[m].Touched?
  }

  /** s is where the maximal chain of reads that reaches the end of h began. */
  ghost predicate ChainFrom(h: seq<Mark>, s: int) {
    && 0 <= s < |h| && h[s].Entered? && !Continues(h, s)
    && forall k :: s < k < |h| ==> !h[k].Finished? && (h[k].Entered? ==> Continues(h, k))
  }

  /** What the three fields remember of the history; `chain` is where the wait in progress began. */
  ghost predicate Tracks(h: seq<Mark>, chain: int, position: int, start: int, lastCall: int) {
    if position < 0 then lastCall == 0 && (h == [] || h[|h| - 1].Finished?)
    else
      && ChainFrom(h, chain) && h[chain].at == start
      && lastCall > 0 && h[|h| - 1].at == lastCall
      && exists j :: PreviousRead(h, j, |h|) && h[j].position == position
  }

  class TailWaitEpisode {
    var position: int
    var start: int
    var lastCall: int
    ghost var history: seq<Mark>
    ghost var chain: int

    /** A history in which Touch only follows a read, as its callers use it. */
    ghost predicate Valid()
      reads this
    {
      Tracks(history, chain, position, start, lastCall)
    }

    constructor ()
      ensures Valid() && history == []
    {
      position, start, lastCall, history, chain := -1, 0, 0, [], 0;
    }

    method Enter(pos: nat, now: int) returns (newEpisode: bool)
      requires Valid() && now > 0
      modifies this
      ensures Valid() && history == old(history) + [Entered(pos, now)]
      ensures newEpisode <==> !Continues(history, |history| - 1)
      ensures position == pos
    {
      EnterFollows(history, chain, position, start, lastCall, pos, now);
      newEpisode := position != pos || lastCall == 0 || now - lastCall > EPISODE_GAP_MS;
      if newEpisode {
        position, start := pos, now;
        chain := |history|;
      }
      lastCall := now;
      history := history + [Entered(pos, now)];
    }

    method Touch(now: int)
      requires Valid() && position >= 0 && now > 0
      modifies this
      ensures Valid() && history == old(history) + [Touched(now)] && position == old(position)
    {
      ghost var h := history;
      ghost var j :| PreviousRead(h, j, |h|) && h[j].position == position;
      history := h + [Touched(now)];
      ChainGrows(h, Touched(now), chain);
      lastCall := now;
      assert PreviousRead(history, j, |history|);
    }

    method Reset()
      requires Valid()
      modifies this
      ensures Valid() && history == old(history) + [Finished]
    {
      history := history + [Finished];
      position, start, lastCall := -1, 0, 0;
    }

    /** The time since the chain of reads now waiting began. */
    method WaitedMs(now: int) returns (ms: int)
      requires Valid()
      ensures position < 0 ==> ms == 0
      ensures position >= 0 ==> ChainFrom(history, chain) && ms == now - history[chain].at
    {
      ms := if position < 0 then 0 else now - start;
    }
  }

  /** The read continues the wait exactly when the fields say so, and either way they keep tracking. */
  lemma EnterFollows(h: seq<Mark>, chain: int, position: int, start: int, lastCall: int, pos: nat, now: int)
    requires Tracks(h, chain, position, start, lastCall) && now > 0
    ensures var g := h + [Entered(pos, now)];
            var anew := position != pos || lastCall == 0 || now - lastCall > EPISODE_GAP_MS;
            && (Continues(g, |h|) <==> !anew)
            && (if anew then Tracks(g, |h|, pos, now, now) else Tracks(g, chain, pos, start, now))
  {
    var g := h + [Entered(pos, now)];
    if position >= 0 { LastReadIs(h, g, position); }
    assert h != [] ==> g[|h| - 1] == h[|h| - 1];
    if Continues(g, |h|) && position >= 0 {
      ChainGrows(h, Entered(pos, now), chain);
      assert g[chain] == h[chain];
    }
    assert PreviousRead(g, |h|, |g|) && g[|h|].position == pos;
  }

  /** The read before the newest mark is the one last tracked. */
  lemma LastReadIs(h: seq<Mark>, g: seq<Mark>, position: int)
    requires h < g && exists j :: PreviousRead(h, j, |h|) && h[j].position == position
    ensures exists j :: PreviousRead(g, j, |h|) && g[j].position == position
    ensures forall j :: PreviousRead(g, j, |h|) ==> g[j].position == position
  {
    var j :| PreviousRead(h, j, |h|) && h[j].position == position;
    assert forall i :: 0 <= i < |h| ==> g[i] == h[i];
    assert PreviousRead(g, j, |h|) && g[j].position == position;
  }

  lemma PreviousReadStays(h: seq<Mark>, m: Mark, j: int, k: int)
    requires k <= |h|
    ensures PreviousRead(h + [m], j, k) <==> PreviousRead(h, j, k)
  {
    assert forall i :: 0 <= i < |h| ==> (h + [m])[i] == h[i];
  }

  lemma ContinuesStays(h: seq<Mark>, m: Mark, k: int)
    requires 0 <= k < |h| && h[k].Entered?
    ensures Continues(h + [m], k) <==> Continues(h, k)
  {
    var g := h + [m];
    assert g[k] == h[k] && (k > 0 ==> g[k - 1] == h[k - 1]);
    if Continues(g, k) {
      var j :| PreviousRead(g, j, k) && g[j].position == g[k].position;
      PreviousReadStays(h, m, j, k);
      assert g[j] == h[j];
    }
    if Continues(h, k) {
      var j :| PreviousRead(h, j, k) && h[j].position == h[k].position;
      PreviousReadStays(h, m, j, k);
      assert g[j] == h[j];
    }
  }

  lemma ChainGrows(h: seq<Mark>, m: Mark, s: int)
    requires ChainFrom(h, s) && (m.Touched? || (m.Entered? && Continues(h + [m], |h|)))
    ensures ChainFrom(h + [m], s)
  {
    var g := h + [m];
    assert forall i :: 0 <= i < |h| ==> g[i] == h[i];
    ContinuesStays(h, m, s);
    forall k | s < k < |g|
      ensures !g[k].Finished? && (g[k].Entered? ==> Continues(g, k))
    {
      if k < |h| && h[k].Entered? { ContinuesStays(h, m, k); }
    }
  }

  /** There is only one such chain, so WaitedMs() has one answer. */
  lemma ChainIsUnique(h: seq<Mark>, s: int, t: int)
    requires ChainFrom(h, s) && ChainFrom(h, t)
    ensures s == t
  {
  }

  /** The reads now waiting have waited at least `budget` by `now`. */
  ghost predicate WaitedOut(h: seq<Mark>, now: int, budget: int) {
    exists s :: ChainFrom(h, s) && now - h[s].at >= budget
  }

  lemma WaitedOutFrom(h: seq<Mark>, s: int, now: int, budget: int)
    requires ChainFrom(h, s)
    ensures WaitedOut(h, now, budget) <==> now - h[s].at >= budget
  {
    forall t | ChainFrom(h, t) ensures t == s { ChainIsUnique(h, s, t); }
  }

  /** The budget of a read that is no seek probe: three segments, or the stall budget while refreshes are answered. */
  function WaitBudgetMs(segmentEstimateMs: nat, lastRefreshAnswered: bool): int {
    LiveBudgetMs(false, CatchUpAttempts(false, segmentEstimateMs, 250) * 250, lastRefreshAnswered)
  }

  /** That budget is the first multiple of 250 ms past three segments, at least 70 s while refreshes are answered. */
  lemma WaitBudgetMeans(segmentEstimateMs: nat)
    ensures var unanswered := WaitBudgetMs(segmentEstimateMs, false);
            && unanswered % 250 == 0 && 3 * segmentEstimateMs < unanswered <= 3 * segmentEstimateMs + 250
            && WaitBudgetMs(segmentEstimateMs, true) == Max(70000, unanswered)
  {
  }

  // ---- One read at the tail ----

  /** A finished wait: where its read arrived, and where the reader is when it finishes (a seek may have moved it). */
  datatype Wait = Wait(entered: nat, finished: nat, probe: bool, caughtUp: bool)
  {
    predicate Short() { probe && !caughtUp }
  }

  datatype TailResult = NotAtTail | CaughtUp | HandedBack | GaveUp | Ended

  /** Where the last finished wait gave up short, or -1. */
  function RememberedShort(waits: seq<Wait>): int {
    if waits == [] then -1
    else var w := waits[|waits| - 1]; ShortGiveUpPosition(w.probe, w.caughtUp, w.finished)
  }

  /** No read arrived past `total`, and none gave up short past it. */
  ghost predicate UpTo(waits: seq<Wait>, total: nat) {
    forall i :: 0 <= i < |waits| ==> waits[i].entered <= total && (waits[i].Short() ==> waits[i].finished <= total)
  }

  /** Reads arrive later and later in the stream. */
  ghost predicate Arriving(waits: seq<Wait>) {
    forall i, j :: 0 <= i < j < |waits| ==> waits[i].entered <= waits[j].entered
  }

  /** A short give-up finishes no earlier than it arrived, and no later read arrives before where it finished. */
  ghost predicate Climbing(waits: seq<Wait>) {
    && (forall i :: 0 <= i < |waits| && waits[i].Short() ==> waits[i].entered <= waits[i].finished)
    && (forall i, j :: 0 <= i < j < |waits| && waits[i].Short() ==> waits[i].finished <= waits[j].entered)
  }

  /** The read after a short give-up is no probe if it arrives right there. */
  ghost predicate NextIsNoProbe(waits: seq<Wait>) {
    forall i, j :: 0 <= i && j == i + 1 && j < |waits| && waits[i].Short() && waits[j].probe ==>
      waits[i].finished != waits[j].entered
  }

  /** Waits follow the tail, which only moves forward. */
  ghost predicate FollowTheTail(waits: seq<Wait>) { Arriving(waits) && Climbing(waits) && NextIsNoProbe(waits) }

  lemma OneMoreArrives(waits: seq<Wait>, w: Wait)
    requires Arriving(waits) && UpTo(waits, w.entered)
    ensures Arriving(waits + [w])
  {
  }

  lemma OneMoreClimbs(waits: seq<Wait>, w: Wait)
    requires Climbing(waits) && UpTo(waits, w.entered) && (w.Short() ==> w.entered <= w.finished)
    ensures Climbing(waits + [w])
  {
  }

  lemma OneMoreIsNoProbe(waits: seq<Wait>, w: Wait)
    requires NextIsNoProbe(waits) && (w.probe ==> w.entered != RememberedShort(waits))
    ensures NextIsNoProbe(waits + [w])
  {
  }

  /** What the stream's fields and the waits so far have to do with one another. */
  ghost predicate AtTail(waits: seq<Wait>, position: nat, totalBytes: nat, lastShortGiveUp: int) {
    && position <= totalBytes && lastShortGiveUp == RememberedShort(waits)
    && FollowTheTail(waits) && UpTo(waits, totalBytes)
  }

  lemma OneMoreWait(waits: seq<Wait>, w: Wait, totalBytes: nat, lastShortGiveUp: int)
    requires AtTail(waits, w.finished, totalBytes, lastShortGiveUp) && UpTo(waits, w.entered)
    requires w.entered <= totalBytes && (w.probe ==> w.entered != lastShortGiveUp)
    requires w.caughtUp == (w.finished < totalBytes)
    ensures AtTail(waits + [w], w.finished, totalBytes, ShortGiveUpPosition(w.probe, w.caughtUp, w.finished))
  {
    OneMoreArrives(waits, w);
    OneMoreClimbs(waits, w);
    OneMoreIsNoProbe(waits, w);
  }

  lemma TailMoves(waits: seq<Wait>, position: nat, totalBytes: nat, lastShortGiveUp: int, to: nat, grown: nat)
    requires AtTail(waits, position, totalBytes, lastShortGiveUp) && to <= totalBytes + grown
    ensures AtTail(waits, to, totalBytes + grown, lastShortGiveUp)
  {
  }

  /**
   A position given up on short is not given up on short again before a read arriving there has had the full budget:
   the very next wait is that read's.
   */
  ghost predicate FullWaitBetween(waits: seq<Wait>) {
    forall i, j :: 0 <= i < j < |waits| && FullWaitDue(waits[i], waits[j]) ==>
      i + 1 < j && !waits[i + 1].probe && waits[i + 1].entered == waits[i].finished
  }

  /** Both gave up short, and at one position. */
  predicate FullWaitDue(v: Wait, w: Wait) { v.Short() && w.Short() && v.finished == w.finished }

  lemma FollowingLeavesAFullWait(waits: seq<Wait>)
    requires FollowTheTail(waits)
    ensures FullWaitBetween(waits)
  {
    forall i, j | 0 <= i < j < |waits| && FullWaitDue(waits[i], waits[j])
      ensures i + 1 < j && !waits[i + 1].probe && waits[i + 1].entered == waits[i].finished
    {
      var k := i + 1;
      assert waits[i].finished <= waits[k].entered <= waits[j].entered <= waits[j].finished;
      assert !waits[k].probe;
    }
  }

  /** What the refreshes of one read brought: when it decides, how far the stream grew meanwhile, where and when the
      last seek during them put the reader, whether the last refresh was answered, and whether the stream turned out
      dead, or ended with nothing left to read. */
  datatype Outcome = Outcome(decideAt: int, grown: nat, seek: Option<Landing>, lastRefreshAnswered: bool, over: bool)

  datatype Landing = Landing(position: nat, at: int)

  /** What the end of a read leaves in the history: nothing, a hand-back, or a finished wait. */
  function MarksAfter(r: TailResult, at: int): seq<Mark> {
    match r
    case NotAtTail => []
    case Ended => []
    case HandedBack => [Touched(at)]
    case _ => [Finished]
  }

  class LiveTail {
    const episode: TailWaitEpisode
    var position: nat
    var totalBytes: nat
    var lastShortGiveUp: int
    var lastSeekAt: Option<int>
    ghost var waits: seq<Wait>

    ghost predicate Valid()
      reads this, episode
    {
      episode.Valid() && AtTail(waits, position, totalBytes, lastShortGiveUp)
    }

    constructor (total: nat)
      ensures Valid() && waits == [] && episode.history == [] && fresh(episode)
      ensures position == 0 && totalBytes == total && lastShortGiveUp == -1 && lastSeekAt == None
    {
      episode := new TailWaitEpisode();
      position, totalBytes, lastShortGiveUp, lastSeekAt, waits := 0, total, -1, None, [];
    }

    /** A seek lands inside the stream or at its end. */
    method Seek(to: nat, now: int)
      requires Valid() && to <= totalBytes
      modifies this`lastSeekAt, this`position
      ensures Valid() && lastSeekAt == Some(now) && position == to
    {
      position, lastSeekAt := to, Some(now);
    }

    /** A read delivers bytes the stream has. */
    method Deliver(bytes: nat)
      requires Valid() && position + bytes <= totalBytes
      modifies this`position
      ensures Valid() && position == old(position) + bytes
    {
      position := position + bytes;
    }

    /** A refresh by another thread merges new segments. */
    method Merge(bytes: nat)
      requires Valid()
      modifies this`totalBytes
      ensures Valid() && totalBytes == old(totalBytes) + bytes
    {
      totalBytes := totalBytes + bytes;
    }

    /** The end of a wait: the episode is over, and a short give-up is remembered for where the reader is. */
    method FinishWait(entered: nat, probe: bool)
      requires Valid() && UpTo(waits, entered) && entered <= totalBytes && (probe ==> entered != lastShortGiveUp)
      modifies this`waits, this`lastShortGiveUp, episode
      ensures Valid() && waits == old(waits) + [Wait(entered, position, probe, position < totalBytes)]
      ensures lastShortGiveUp == if probe && position == totalBytes then totalBytes else -1
      ensures episode.history == old(episode.history) + [Finished]
    {
      var caughtUp := position < totalBytes;
      ghost var wait := Wait(entered, position, probe, caughtUp);
      OneMoreWait(waits, wait, totalBytes, lastShortGiveUp);
      lastShortGiveUp, waits := ShortGiveUpPosition(probe, caughtUp, position), waits + [wait];
      assert AtTail(waits, position, totalBytes, lastShortGiveUp);
      episode.Reset();
    }

    /** What the refreshes of a read and the seeks during them left. */
    method Meanwhile(o: Outcome)
      requires Valid() && (o.seek.Some? ==> o.seek.value.position <= totalBytes + o.grown)
      modifies this`position, this`totalBytes, this`lastSeekAt
      ensures Valid() && totalBytes == old(totalBytes) + o.grown
      ensures position == if o.seek.Some? then o.seek.value.position else old(position)
      ensures lastSeekAt == if o.seek.Some? then Some(o.seek.value.at) else old(lastSeekAt)
    {
      Merge(o.grown);
      if o.seek.Some? { Seek(o.seek.value.position, o.seek.value.at); }
    }

    /**
     The tail section of one read (src/DispatcharrClient.cpp:4749-4885): a read that is not a seek probe gives up
     exactly when the chain of reads it belongs to has waited out the budget then in force, and over all reads so far
     a position given up on short was not given up on short again without a full wait there first.
     */
    method Read(now: int, segmentEstimateMs: nat, o: Outcome) returns (r: TailResult, ghost probe: bool)
      requires Valid() && 0 < now <= o.decideAt
      requires o.seek.Some? ==> o.seek.value.position <= totalBytes + o.grown
      modifies this, episode
      ensures Valid() && FullWaitBetween(waits)
      ensures r.NotAtTail? <==> old(position < totalBytes)
      ensures r.NotAtTail? ==> unchanged(this) && unchanged(episode)
      ensures !r.NotAtTail? ==>
                && totalBytes == old(totalBytes) + o.grown
                && position == (if o.seek.Some? then o.seek.value.position else old(position))
                && lastSeekAt == (if o.seek.Some? then Some(o.seek.value.at) else old(lastSeekAt))
      ensures probe <==>
              && !r.NotAtTail? && old(position) != old(lastShortGiveUp)
              && old(lastSeekAt).Some? && now - old(lastSeekAt).value < 800
      ensures r.Ended? <==> !r.NotAtTail? && o.over
      ensures r.CaughtUp? <==> !r.NotAtTail? && !o.over && position < totalBytes
      ensures !probe && !r.NotAtTail? && !o.over && position == totalBytes ==>
                (r.GaveUp? <==> WaitedOut(old(episode.history) + [Entered(old(position), now)], o.decideAt,
                                          WaitBudgetMs(segmentEstimateMs, o.lastRefreshAnswered)))
      ensures probe ==> !r.HandedBack?
      ensures waits == if r.CaughtUp? || r.GaveUp?
                       then old(waits) + [Wait(old(position), position, probe, r.CaughtUp?)] else old(waits)
      ensures !r.NotAtTail? ==>
                episode.history == old(episode.history) + [Entered(old(position), now)] + MarksAfter(r, o.decideAt)
    {
      FollowingLeavesAFullWait(waits);
      if position < totalBytes { return NotAtTail, false; }
      var likelySeekProbe := IsLikelySeekProbe(position, lastShortGiveUp, lastSeekAt, now, 800);
      probe := likelySeekProbe;
      var _ := episode.Enter(position, now);
      r := WaitThere(likelySeekProbe, segmentEstimateMs, o);
      FollowingLeavesAFullWait(waits);
    }

    /** The wait of a read that has arrived at the tail. */
    method WaitThere(likelySeekProbe: bool, segmentEstimateMs: nat, o: Outcome) returns (r: TailResult)
      requires Valid() && position == totalBytes && episode.position >= 0 && 0 < o.decideAt
      requires o.seek.Some? ==> o.seek.value.position <= totalBytes + o.grown
      requires likelySeekProbe ==> position != lastShortGiveUp
      modifies this, episode
      ensures Valid() && !r.NotAtTail?
      ensures totalBytes == old(totalBytes) + o.grown
      ensures position == if o.seek.Some? then o.seek.value.position else old(position)
      ensures lastSeekAt == if o.seek.Some? then Some(o.seek.value.at) else old(lastSeekAt)
      ensures r.Ended? <==> o.over
      ensures r.CaughtUp? <==> !o.over && position < totalBytes
      ensures !o.over && position == totalBytes ==>
                (r.GaveUp? <==> likelySeekProbe || WaitedOut(old(episode.history), o.decideAt,
                                                             WaitBudgetMs(segmentEstimateMs, o.lastRefreshAnswered)))
      ensures waits == if r.CaughtUp? || r.GaveUp?
                       then old(waits) + [Wait(old(position), position, likelySeekProbe, r.CaughtUp?)] else old(waits)
      ensures episode.history == old(episode.history) + MarksAfter(r, o.decideAt)
    {
      var entered := position;
      Meanwhile(o);
      if o.over { return Ended; }
      if position < totalBytes {
        FinishWait(entered, likelySeekProbe);
        return CaughtUp;
      }
      var giveUp := DecideTailWait(likelySeekProbe, o, segmentEstimateMs);
      if giveUp {
        FinishWait(entered, likelySeekProbe);
        return GaveUp;
      }
      episode.Touch(o.decideAt);
      return HandedBack;
    }

    method DecideTailWait(likelySeekProbe: bool, o: Outcome, segmentEstimateMs: nat) returns (giveUp: bool)
      requires Valid() && episode.position >= 0
      ensures giveUp <==>
              (likelySeekProbe ||
               WaitedOut(episode.history, o.decideAt, WaitBudgetMs(segmentEstimateMs, o.lastRefreshAnswered)))
    {
      var attempts := CatchUpAttempts(likelySeekProbe, segmentEstimateMs, 250);
      var budget := LiveBudgetMs(likelySeekProbe, attempts * 250, o.lastRefreshAnswered);
      var waited := episode.WaitedMs(o.decideAt);
      WaitedOutFrom(episode.history, episode.chain, o.decideAt, budget);
      giveUp := GivesUp(likelySeekProbe, waited, budget);
    }
  }
}
