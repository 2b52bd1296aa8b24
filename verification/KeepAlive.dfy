/**
 The HLS viewer keep-alive (src/HlsViewerKeepAlive.h, MaybeSendInProgressHlsKeepAlive): a paused viewer's polls send
 a request whenever one is due, so the server's 20 s viewer key does not lapse while bytes are unread. Times are
 milliseconds; requests take no time, as the schedule is taken from when they finish.
 */
module KeepAlive {
  import opened Common
  import opened Recording

  const VIEWER_TTL_MS := 20000
  const INTERVAL_MS := 10000
  const RETRY_DELAY_MS := 2000

  predicate ShouldSend(contentGone: bool, position: int, totalBytes: int, nextDueAt: int, now: int) {
    !contentGone && position < totalBytes && now >= nextDueAt
  }

  datatype Outcome = Refreshed | Gone | RetryLater

  function ClassifyResponse(transportOk: bool, httpStatus: int): Outcome {
    if !transportOk then RetryLater
    else if 200 <= httpStatus < 300 then Refreshed
    else if httpStatus == 404 || 300 <= httpStatus < 400 then Gone
    else RetryLater
  }

  function NextDueAt(now: int, o: Outcome): int {
    now + if o.RetryLater? then RETRY_DELAY_MS else INTERVAL_MS
  }

  // ---- Runs ----

  /**
   What happens to an open recording: a poll, which starts a refresh (with what a keep-alive, if it sends one, is
   answered), a segment fetched, a refresh that merged sized segments (and the segment behind them it could not size,
   or ""), one that could not size the leading segment, a read or a seek that moves the reader, and a refresh that
   settles whether the recording is finished.
   */
  datatype Event =
    | Poll(at: int, transportOk: bool, status: int)
    | Fetched(at: int)
    | Merged(at: int, bytes: nat, behind: string)
    | ProbeFailed(at: int, url: string)
    | Moved(at: int, to: nat)
    | StatusSeen(at: int, finished: bool)

  /**
   The stream as the schedule sees it, and what the run has been: `lastOk` is the last `.ts` request that refreshed the
   key, `since` the later of that and the moment there was something to protect, `failed` and `postponed` the failed
   attempts and placeholder merges since then, `placedAt` the last placeholder merge or the open, `sent` the requests.
   `refreshing` says that the refresh of the last poll has not merged anything or failed a probe yet.
   */
  datatype World = World(finished: bool, gone: bool, position: nat, totalBytes: nat, nextDueAt: int, tracker: Tracker,
                         lastOk: int, since: int, failed: nat, postponed: nat, placedAt: int,
                         lastPoll: int, refreshing: bool, clock: int, sent: nat)
  {
    /** Unread bytes of a recording not known to be over: what the keep-alive exists for. */
    predicate Protects() { !finished && !gone && position < totalBytes }

    predicate Due(now: int) { ShouldSend(finished || gone, position, totalBytes, nextDueAt, now) }
  }

  function KeyRefreshed(w: World, at: int): World {
    w.(nextDueAt := NextDueAt(at, Refreshed), lastOk := at, since := at, failed := 0, postponed := 0)
  }

  /** A keep-alive that was due, by how it was answered. */
  function Asked(w: World, at: int, answer: Outcome): World {
    match answer
    case Refreshed => KeyRefreshed(w, at).(sent := w.sent + 1)
    case RetryLater => w.(nextDueAt := NextDueAt(at, answer), failed := w.failed + 1, sent := w.sent + 1)
    case Gone => w.(nextDueAt := NextDueAt(at, answer), gone := true, sent := w.sent + 1)
  }

  /** The leading segment could not be sized: once the tracker gives up on it, its placeholder is merged. */
  function Unsized(w: World, at: int, url: string): World {
    var step := UpdateTracker(w.tracker, url, true, at);
    var v := w.(tracker := step.tracker, refreshing := false);
    if step.giveUp then v.(nextDueAt := NextDueAt(at, Refreshed), postponed := w.postponed + 1, placedAt := at) else v
  }

  function Happened(w: World, e: Event): World {
    match e
    case Fetched(at) => KeyRefreshed(w, at)
    case Merged(at, bytes, behind) =>
      KeyRefreshed(w, at).(totalBytes := w.totalBytes + bytes, refreshing := false,
                           tracker := UpdateTracker(NO_TRACKER, behind, true, at).tracker)
    case ProbeFailed(at, url) => Unsized(w, at, url)
    case Moved(at, to) => w.(position := to)
    case StatusSeen(at, finished) => w.(finished := finished)
    case Poll(at, transportOk, status) =>
      (if w.Due(at) then Asked(w, at, ClassifyResponse(transportOk, status)) else w)
      .(lastPoll := at, refreshing := true)
  }

  /** A stretch with something to protect starts its own count. */
  function Apply(w: World, e: Event): World {
    var v := Happened(w, e);
    var begins := v.Protects() && !w.Protects();
    v.(clock := e.at, since := if begins then e.at else v.since,
       failed := if begins then 0 else v.failed, postponed := if begins then 0 else v.postponed)
  }

  /** Time goes forward, polls come at most `period` apart, and each starts one refresh. */
  predicate Enabled(w: World, e: Event, period: nat) {
    && w.clock <= e.at <= w.lastPoll + period
    && (e.Merged? || e.ProbeFailed? ==> w.refreshing) && (e.ProbeFailed? ==> e.url != "")
  }

  ghost predicate Runs(w: World, events: seq<Event>, period: nat)
    decreases |events|
  {
    events == [] || (Enabled(w, events[0], period) && Runs(Apply(w, events[0]), events[1..], period))
  }

  ghost function At(w: World, events: seq<Event>, i: nat): World
    requires i <= |events|
    decreases i
  {
    if i == 0 then w else At(Apply(w, events[0]), events[1..], i - 1)
  }

  lemma {:induction false} AtNext(w: World, events: seq<Event>, i: nat)
    requires i < |events|
    ensures At(w, events, i + 1) == Apply(At(w, events, i), events[i])
    decreases i
  {
    if i > 0 { AtNext(Apply(w, events[0]), events[1..], i - 1); }
  }

  lemma {:induction false} AtOn(w: World, first: seq<Event>, rest: seq<Event>, k: nat)
    requires k <= |rest|
    ensures At(w, first + rest, |first| + k) == At(At(w, first, |first|), rest, k)
    decreases |first|
  {
    if first == [] {
      assert first + rest == rest;
    } else {
      AtOn(Apply(w, first[0]), first[1..], rest, k);
      assert (first + rest)[1..] == first[1..] + rest;
    }
  }

  lemma {:induction false} RunsOn(w: World, first: seq<Event>, rest: seq<Event>, period: nat)
    requires Runs(w, first, period) && Runs(At(w, first, |first|), rest, period)
    ensures Runs(w, first + rest, period)
    decreases |first|
  {
    if first == [] {
      assert first + rest == rest;
    } else {
      RunsOn(Apply(w, first[0]), first[1..], rest, period);
      assert (first + rest)[1..] == first[1..] + rest;
    }
  }

  /**
   The end of an open at `at`: nothing is owed for the first interval, although no request may have been made yet, and
   the tracker has at most just been armed.
   */
  predicate Opened(w: World, at: int) {
    && !w.finished && !w.gone && w.position == 0 && !w.refreshing
    && (w.tracker == NO_TRACKER || (w.tracker.url != "" && w.tracker.failures == 1 && w.tracker.firstFailedAt == at))
    && w.nextDueAt == NextDueAt(at, Refreshed) && w.lastOk <= w.since == w.lastPoll == w.clock == w.placedAt == at
    && w.failed == w.postponed == w.sent == 0
  }

  // ---- Freshness ----

  /**
   The longest a stretch can go before its next attempt, given the failures and placeholder merges in it: the poll that
   makes the attempt comes at the latest one period after a poll a millisecond too early.
   */
  function Bound(period: nat, failed: nat, postponed: nat): int {
    INTERVAL_MS + period - 1 + failed * (RETRY_DELAY_MS + period - 1) + postponed * (INTERVAL_MS + period - 1)
  }

  lemma BoundGrows(period: nat, failed: nat, postponed: nat)
    ensures Bound(period, failed, postponed) >= INTERVAL_MS + period - 1
    ensures Bound(period, failed + 1, postponed) == Bound(period, failed, postponed) + RETRY_DELAY_MS + period - 1
    ensures Bound(period, failed, postponed + 1) == Bound(period, failed, postponed) + INTERVAL_MS + period - 1
  {
    var retry, interval := RETRY_DELAY_MS + period - 1, INTERVAL_MS + period - 1;
    assert (failed + 1) * retry == failed * retry + retry;
    assert (postponed + 1) * interval == postponed * interval + interval;
  }

  /** What the tracker has seen happened after the last placeholder, and placeholders of one stretch are 30 s apart. */
  ghost predicate TrackerInv(w: World) {
    && w.placedAt <= w.clock
    && (w.tracker.url != "" ==> w.placedAt <= w.tracker.firstFailedAt <= w.clock)
    && (w.Protects() && w.postponed > 0 ==> w.placedAt >= w.since + MIN_WAIT_MS * (if w.postponed > 1 then 1 else 0))
  }

  ghost predicate Inv(w: World, period: nat) {
    && w.lastPoll <= w.clock && w.nextDueAt <= w.clock + INTERVAL_MS && w.lastOk <= w.clock
    && TrackerInv(w)
    && (w.Protects() ==>
          && w.lastOk <= w.since <= w.clock
          && Max(w.nextDueAt - 1, w.lastPoll) + period <= w.since + Bound(period, w.failed, w.postponed))
  }

  lemma OpenedHasInv(w: World, at: int, period: nat)
    requires Opened(w, at)
    ensures Inv(w, period)
  {
    BoundGrows(period, 0, 0);
  }

  /** A placeholder is merged only 30 s after the last one, or after the open. */
  lemma StepKeepsTrackerInv(w: World, e: Event, period: nat)
    requires TrackerInv(w) && (w.Protects() ==> w.since <= w.clock) && Enabled(w, e, period)
    ensures TrackerInv(Apply(w, e)) && w.placedAt <= Apply(w, e).placedAt
    ensures e.ProbeFailed? && UpdateTracker(w.tracker, e.url, true, e.at).giveUp ==>
              e.at - w.placedAt >= MIN_WAIT_MS && Apply(w, e).placedAt == e.at
  {
  }

  lemma StepKeepsInv(w: World, e: Event, period: nat)
    requires Inv(w, period) && Enabled(w, e, period)
    ensures Inv(Apply(w, e), period)
    ensures w.Protects() ==> e.at - w.since <= Bound(period, w.failed, w.postponed)
  {
    StepKeepsTrackerInv(w, e, period);
    BoundGrows(period, w.failed, w.postponed);
    BoundGrows(period, 0, 0);
  }

  lemma {:induction false} RunKeepsInv(w: World, events: seq<Event>, i: nat, period: nat)
    requires Inv(w, period) && Runs(w, events, period) && i <= |events|
    ensures Inv(At(w, events, i), period)
    ensures i < |events| ==> Enabled(At(w, events, i), events[i], period)
    decreases i
  {
    if i > 0 {
      StepKeepsInv(w, events[0], period);
      RunKeepsInv(Apply(w, events[0]), events[1..], i - 1, period);
    }
  }

  /**
   From the open on, whatever is read, sought, merged, fetched or refused: at every event with something to protect,
   at most 10 s + p + f(2 s + p) + g(10 s + p) have passed since the key was last refreshed or there was again
   something to protect, with f failed attempts and g placeholder merges in between and p a millisecond under the
   polling period.
   */
  lemma KeyStaysFresh(w: World, openedAt: int, events: seq<Event>, i: nat, period: nat)
    requires Opened(w, openedAt) && Runs(w, events, period) && i < |events| && At(w, events, i).Protects()
    ensures var v := At(w, events, i); events[i].at - v.since <= Bound(period, v.failed, v.postponed)
  {
    OpenedHasInv(w, openedAt, period);
    RunKeepsInv(w, events, i, period);
    StepKeepsInv(At(w, events, i), events[i], period);
  }

  // ---- Placeholders are rare ----

  /** The i-th event gives up on a segment and merges its placeholder. */
  ghost predicate Places(w: World, events: seq<Event>, i: nat)
    requires i < |events|
  {
    events[i].ProbeFailed? && UpdateTracker(At(w, events, i).tracker, events[i].url, true, events[i].at).giveUp
  }

  lemma {:induction false} PlacedStays(w: World, events: seq<Event>, j: nat, i: nat, period: nat)
    requires Inv(w, period) && Runs(w, events, period) && j <= i <= |events|
    ensures At(w, events, j).placedAt <= At(w, events, i).placedAt
    decreases i - j
  {
    if j < i {
      PlacedStays(w, events, j, i - 1, period);
      AtNext(w, events, i - 1);
      RunKeepsInv(w, events, i - 1, period);
      StepKeepsTrackerInv(At(w, events, i - 1), events[i - 1], period);
    }
  }

  /** Two placeholders are 30 s apart, and so are an open and the first. */
  lemma PlaceholdersAreApart(w: World, openedAt: int, events: seq<Event>, j: nat, i: nat, period: nat)
    requires Opened(w, openedAt) && Runs(w, events, period) && i < |events| && Places(w, events, i)
    ensures events[i].at - openedAt >= MIN_WAIT_MS
    ensures j < i && Places(w, events, j) ==> events[i].at - events[j].at >= MIN_WAIT_MS
  {
    OpenedHasInv(w, openedAt, period);
    PlacedStays(w, events, 0, i, period);
    RunKeepsInv(w, events, i, period);
    StepKeepsTrackerInv(At(w, events, i), events[i], period);
    if j < i && Places(w, events, j) {
      AtNext(w, events, j);
      RunKeepsInv(w, events, j, period);
      StepKeepsTrackerInv(At(w, events, j), events[j], period);
      PlacedStays(w, events, j + 1, i, period);
    }
  }

  /** So a stretch has seen at most one for as long as its key could be alive. */
  lemma SecondPlaceholderIsTooLate(w: World, openedAt: int, events: seq<Event>, i: nat, period: nat)
    requires Opened(w, openedAt) && Runs(w, events, period) && i < |events|
    requires At(w, events, i).Protects() && At(w, events, i).postponed > 1
    ensures events[i].at - At(w, events, i).since >= MIN_WAIT_MS > VIEWER_TTL_MS
  {
    OpenedHasInv(w, openedAt, period);
    RunKeepsInv(w, events, i, period);
  }

  // ---- Over one stretch the count starts at a refresh ----

  /** From the refresh at step j to i there was always something to protect, and none of it began by anything else. */
  ghost predicate StretchFrom(w: World, events: seq<Event>, j: nat, i: nat)
    requires i <= |events|
  {
    && j <= i && At(w, events, j).since == At(w, events, j).lastOk
    && forall k :: j <= k <= i ==> At(w, events, k).Protects()
  }

  lemma StepKeepsSince(w: World, e: Event)
    requires w.Protects() && w.since == w.lastOk
    ensures Apply(w, e).Protects() ==> Apply(w, e).since == Apply(w, e).lastOk
  {
  }

  lemma {:induction false} SinceIsTheRefresh(w: World, events: seq<Event>, j: nat, i: nat)
    requires i <= |events| && StretchFrom(w, events, j, i)
    ensures At(w, events, i).since == At(w, events, i).lastOk
    decreases i - j
  {
    if j < i {
      SinceIsTheRefresh(w, events, j, i - 1);
      AtNext(w, events, i - 1);
      StepKeepsSince(At(w, events, i - 1), events[i - 1]);
    }
  }

  lemma RefreshedStretchIsBounded(w: World, openedAt: int, events: seq<Event>, j: nat, i: nat, period: nat)
    requires Opened(w, openedAt) && Runs(w, events, period) && i < |events| && StretchFrom(w, events, j, i)
    ensures var v := At(w, events, i); events[i].at - v.lastOk <= Bound(period, v.failed, v.postponed)
  {
    KeyStaysFresh(w, openedAt, events, i, period);
    SinceIsTheRefresh(w, events, j, i);
  }

  // ---- The bound is reached ----

  const STUCK := "stuck"

  /** A reader with unread bytes, before the next request is due and with the next poll still to come. */
  predicate Waiting(w: World, period: nat) {
    0 < period && w.Protects() && w.lastPoll <= w.clock <= w.lastPoll + period && w.clock < w.nextDueAt
  }

  /** One more failed probe and the leading segment is given up on. */
  predicate Stuck(w: World) {
    w.refreshing && w.tracker.url == STUCK && w.tracker.failures + 1 >= MIN_FAILURES &&
    w.clock - w.tracker.firstFailedAt >= MIN_WAIT_MS
  }

  function FailedPoll(at: int): Event { Poll(at, false, 0) }

  function GoodPoll(at: int): Event { Poll(at, true, 200) }

  /** Poll up to the last moment before a request is due, then a period later fail it, or give up on the segment. */
  function Worst(w: World, period: nat, failed: nat, postponed: nat): (events: seq<Event>)
    requires Waiting(w, period) && postponed <= 1 && (postponed == 1 ==> Stuck(w))
    ensures events != []
    decreases failed + postponed, w.nextDueAt - w.lastPoll
  {
    var late := w.lastPoll + period;
    if w.lastPoll < w.nextDueAt - 1 then
      var e := FailedPoll(Min(late, w.nextDueAt - 1));
      [e] + Worst(Apply(w, e), period, failed, postponed)
    else if failed > 0 then
      var e := FailedPoll(late);
      [e] + Worst(Apply(w, e), period, failed - 1, postponed)
    else if postponed > 0 then
      var e := ProbeFailed(late, STUCK);
      [e] + Worst(Apply(w, e), period, failed, 0)
    else
      [GoodPoll(late)]
  }

  /** When the first request is made that late, the last is made this late. */
  function LastAt(w: World, period: nat, failed: nat, postponed: nat): int {
    w.nextDueAt - INTERVAL_MS + Bound(period, failed, postponed)
  }

  ghost predicate EndsLate(w: World, events: seq<Event>, period: nat, failed: nat, postponed: nat, at: int) {
    && events != [] && Runs(w, events, period) && events[|events| - 1].at == at
    && (forall k :: 0 <= k < |events| ==> At(w, events, k).Protects())
    && var v := At(w, events, |events| - 1);
       v.since == w.since && v.failed == failed && v.postponed == postponed
  }

  lemma EndsLateAfter(w: World, e: Event, rest: seq<Event>, period: nat, failed: nat, postponed: nat, at: int)
    requires w.Protects() && Enabled(w, e, period) && Apply(w, e).since == w.since
    requires EndsLate(Apply(w, e), rest, period, failed, postponed, at)
    ensures EndsLate(w, [e] + rest, period, failed, postponed, at)
  {
    var events := [e] + rest;
    assert events[1..] == rest;
    forall k | 0 <= k < |events| ensures At(w, events, k).Protects() {
      if k > 0 { assert At(w, events, k) == At(Apply(w, e), rest, k - 1); }
    }
    assert At(w, events, |events| - 1) == At(Apply(w, e), rest, |rest| - 1);
  }

  /** The worst run from here ends as late as the bound lets it. */
  ghost predicate Reached(w: World, period: nat, failed: nat, postponed: nat)
    requires Waiting(w, period) && postponed <= 1 && (postponed == 1 ==> Stuck(w))
  {
    EndsLate(w, Worst(w, period, failed, postponed), period, w.failed + failed, w.postponed + postponed,
             LastAt(w, period, failed, postponed))
  }

  lemma ReachedAtOnce(w: World, period: nat)
    requires Waiting(w, period) && w.lastPoll >= w.nextDueAt - 1
    ensures Reached(w, period, 0, 0)
  {
    assert Worst(w, period, 0, 0) == [GoodPoll(w.lastPoll + period)];
  }

  /** A poll before anything is due changes nothing but when the last poll was. */
  lemma EarlyPoll(w: World, period: nat, e: Event)
    requires Waiting(w, period) && w.lastPoll < w.nextDueAt - 1
    requires e == FailedPoll(Min(w.lastPoll + period, w.nextDueAt - 1))
    ensures Apply(w, e) == w.(clock := e.at, lastPoll := e.at, refreshing := true)
    ensures Enabled(w, e, period) && Waiting(Apply(w, e), period) && (Stuck(w) ==> Stuck(Apply(w, e)))
    ensures Apply(w, e).lastPoll > w.lastPoll
  {
  }

  lemma WorstAfterEarlyPoll(w: World, period: nat, failed: nat, postponed: nat, e: Event)
    requires Waiting(w, period) && postponed <= 1 && (postponed == 1 ==> Stuck(w)) && w.lastPoll < w.nextDueAt - 1
    requires e == FailedPoll(Min(w.lastPoll + period, w.nextDueAt - 1))
    ensures Waiting(Apply(w, e), period) && (postponed == 1 ==> Stuck(Apply(w, e)))
    ensures Worst(w, period, failed, postponed) == [e] + Worst(Apply(w, e), period, failed, postponed)
  {
    EarlyPoll(w, period, e);
  }

  lemma ReachedByWaiting(w: World, period: nat, failed: nat, postponed: nat, e: Event)
    requires Waiting(w, period) && postponed <= 1 && (postponed == 1 ==> Stuck(w)) && w.lastPoll < w.nextDueAt - 1
    requires e == FailedPoll(Min(w.lastPoll + period, w.nextDueAt - 1))
    ensures Waiting(Apply(w, e), period) && (postponed == 1 ==> Stuck(Apply(w, e)))
    ensures Apply(w, e).nextDueAt == w.nextDueAt && Apply(w, e).lastPoll > w.lastPoll
    ensures Reached(Apply(w, e), period, failed, postponed) ==> Reached(w, period, failed, postponed)
  {
    EarlyPoll(w, period, e);
    WorstAfterEarlyPoll(w, period, failed, postponed, e);
    var v := Apply(w, e);
    var rest, at := Worst(v, period, failed, postponed), LastAt(w, period, failed, postponed);
    if EndsLate(v, rest, period, w.failed + failed, w.postponed + postponed, at) {
      EndsLateAfter(w, e, rest, period, w.failed + failed, w.postponed + postponed, at);
    }
  }

  lemma ReachedByFailing(w: World, period: nat, failed: nat, postponed: nat, e: Event)
    requires Waiting(w, period) && postponed <= 1 && (postponed == 1 ==> Stuck(w)) && w.lastPoll >= w.nextDueAt - 1
    requires e == FailedPoll(w.lastPoll + period)
    ensures Waiting(Apply(w, e), period) && (postponed == 1 ==> Stuck(Apply(w, e)))
    ensures Reached(Apply(w, e), period, failed, postponed) ==> Reached(w, period, failed + 1, postponed)
  {
    var v := Apply(w, e);
    BoundGrows(period, failed, postponed);
    assert LastAt(v, period, failed, postponed) == LastAt(w, period, failed + 1, postponed);
    if Reached(v, period, failed, postponed) {
      EndsLateAfter(w, e, Worst(v, period, failed, postponed), period, v.failed + failed, v.postponed + postponed,
                    LastAt(v, period, failed, postponed));
    }
  }

  lemma ReachedByPostponing(w: World, period: nat, e: Event)
    requires Waiting(w, period) && Stuck(w) && w.lastPoll >= w.nextDueAt - 1
    requires e == ProbeFailed(w.lastPoll + period, STUCK)
    ensures Waiting(Apply(w, e), period)
    ensures Reached(Apply(w, e), period, 0, 0) ==> Reached(w, period, 0, 1)
  {
    var v := Apply(w, e);
    BoundGrows(period, 0, 0);
    assert LastAt(v, period, 0, 0) == LastAt(w, period, 0, 1);
    if Reached(v, period, 0, 0) {
      EndsLateAfter(w, e, Worst(v, period, 0, 0), period, v.failed, v.postponed, LastAt(v, period, 0, 0));
    }
  }

  lemma {:induction false} WorstEndsLate(w: World, period: nat, failed: nat, postponed: nat)
    requires Waiting(w, period) && postponed <= 1 && (postponed == 1 ==> Stuck(w))
    ensures Reached(w, period, failed, postponed)
    decreases failed + postponed, w.nextDueAt - w.lastPoll
  {
    var late := w.lastPoll + period;
    if w.lastPoll < w.nextDueAt - 1 {
      var e := FailedPoll(Min(late, w.nextDueAt - 1));
      ReachedByWaiting(w, period, failed, postponed, e);
      WorstEndsLate(Apply(w, e), period, failed, postponed);
    } else if failed > 0 {
      ReachedByFailing(w, period, failed - 1, postponed, FailedPoll(late));
      WorstEndsLate(Apply(w, FailedPoll(late)), period, failed - 1, postponed);
    } else if postponed > 0 {
      ReachedByPostponing(w, period, ProbeFailed(late, STUCK));
      WorstEndsLate(Apply(w, ProbeFailed(late, STUCK)), period, 0, 0);
    } else {
      ReachedAtOnce(w, period);
    }
  }

  // ---- A run in which a segment stays unsized ----

  /** An open that a segment request has just refreshed the key for, with one byte to read. */
  const FRESH_OPEN := World(false, false, 0, 1, INTERVAL_MS, NO_TRACKER, 0, 0, 0, 0, 0, 0, false, 0, 0)

  /** The state `w` is what some run after that open leads to. */
  ghost predicate LedTo(w: World, events: seq<Event>, period: nat) {
    Runs(FRESH_OPEN, events, period) && At(FRESH_OPEN, events, |events|) == w
  }

  lemma LedOn(w: World, events: seq<Event>, e: Event, period: nat)
    requires LedTo(w, events, period) && Enabled(w, e, period)
    ensures LedTo(Apply(w, e), events + [e], period)
  {
    var v := Apply(w, e);
    assert [e][1..] == [] && Runs(v, [], period) && Runs(w, [e], period);
    assert At(w, [e], 1) == At(v, [e][1..], 0) == v;
    RunsOn(FRESH_OPEN, events, [e], period);
    AtOn(FRESH_OPEN, events, [e], 1);
  }

  /** A polling reader between two polls that keeps its key, with `failures` failed probes of one segment so far. */
  predicate Polling(w: World, failures: nat) {
    && w.Protects() && w.clock == w.lastPoll
    && w.tracker == if failures == 0 then NO_TRACKER else Tracker(STUCK, failures, 500)
  }

  lemma {:induction false} PollUntil(w: World, events: seq<Event>, period: nat, failures: nat, t: int)
    returns (v: World, more: seq<Event>)
    requires LedTo(w, events, period) && Polling(w, failures) && 0 < period && w.clock <= t
    ensures LedTo(v, more, period) && Polling(v, failures) && v.refreshing && v.clock == t
    decreases t - w.clock
  {
    var e := GoodPoll(Min(w.clock + period, t));
    LedOn(w, events, e, period);
    v, more := Apply(w, e), events + [e];
    if e.at < t { v, more := PollUntil(v, more, period, failures, t); }
  }

  /** Polls until `t`, and the refresh of the last one cannot size the segment. */
  lemma FailProbeAt(w: World, events: seq<Event>, period: nat, failures: nat, t: int)
    returns (v: World, more: seq<Event>)
    requires LedTo(w, events, period) && Polling(w, failures) && 0 < period && w.clock <= t
    requires failures < MIN_FAILURES - 1 && (failures == 0 ==> t == 500)
    ensures LedTo(v, more, period) && Polling(v, failures + 1) && v.clock == t
  {
    v, more := PollUntil(w, events, period, failures, t);
    var e := ProbeFailed(t, STUCK);
    LedOn(v, more, e, period);
    v, more := Apply(v, e), more + [e];
  }

  /** A segment fails to answer four times, 500 ms apart, and 30 s later a read fetches another one. */
  lemma StuckIsReached(period: nat) returns (w: World, events: seq<Event>)
    requires 0 < period
    ensures LedTo(w, events, period) && Waiting(w, period) && Stuck(w)
    ensures w.since == w.lastOk == w.nextDueAt - INTERVAL_MS && w.failed == w.postponed == 0
  {
    w, events := FRESH_OPEN, [];
    w, events := FailProbeAt(w, events, period, 0, 500);
    w, events := FailProbeAt(w, events, period, 1, 1000);
    w, events := FailProbeAt(w, events, period, 2, 1500);
    w, events := FailProbeAt(w, events, period, 3, 2000);
    w, events := PollUntil(w, events, period, 4, 30500);
    LedOn(w, events, Fetched(30500), period);
    w, events := Apply(w, Fetched(30500)), events + [Fetched(30500)];
  }

  // ---- When the key lapses ----

  /** With at most this many failures and placeholder merges since a refresh, the key does not lapse. */
  ghost predicate NeverLapses(period: nat, failed: nat, postponed: nat) {
    forall w, openedAt, events: seq<Event>, j: nat, i: nat ::
      Opened(w, openedAt) && Runs(w, events, period) && i < |events| && StretchFrom(w, events, j, i) &&
      At(w, events, i).failed <= failed && At(w, events, i).postponed <= postponed
      ==> events[i].at - At(w, events, i).lastOk < VIEWER_TTL_MS
  }

  lemma {:induction false} BoundMonotone(period: nat, failed: nat, postponed: nat, moreFailed: nat, morePostponed: nat)
    requires 0 < period && failed <= moreFailed && postponed <= morePostponed
    ensures Bound(period, failed, postponed) <= Bound(period, moreFailed, morePostponed)
    decreases moreFailed + morePostponed
  {
    if failed < moreFailed {
      BoundMonotone(period, failed, postponed, moreFailed - 1, morePostponed);
      BoundGrows(period, moreFailed - 1, morePostponed);
    } else if postponed < morePostponed {
      BoundMonotone(period, failed, postponed, moreFailed, morePostponed - 1);
      BoundGrows(period, moreFailed, morePostponed - 1);
    }
  }

  /** A reachable state at a refresh, from which the bound is reached, lets the key lapse when the bound does. */
  lemma LapsesFrom(w: World, first: seq<Event>, period: nat, failed: nat, postponed: nat)
    requires LedTo(w, first, period) && Waiting(w, period) && postponed <= 1 && (postponed == 1 ==> Stuck(w))
    requires w.since == w.lastOk == w.nextDueAt - INTERVAL_MS && w.failed == w.postponed == 0
    requires Bound(period, failed, postponed) >= VIEWER_TTL_MS
    ensures exists events: seq<Event>, j: nat, i: nat ::
              && Runs(FRESH_OPEN, events, period) && i < |events| && StretchFrom(FRESH_OPEN, events, j, i)
              && At(FRESH_OPEN, events, i).failed == failed && At(FRESH_OPEN, events, i).postponed == postponed
              && events[i].at - At(FRESH_OPEN, events, i).lastOk >= VIEWER_TTL_MS
  {
    var rest := Worst(w, period, failed, postponed);
    WorstEndsLate(w, period, failed, postponed);
    var events, j := first + rest, |first|;
    var i := j + |rest| - 1;
    RunsOn(FRESH_OPEN, first, rest, period);
    AtOn(FRESH_OPEN, first, rest, 0);
    AtOn(FRESH_OPEN, first, rest, |rest| - 1);
    forall k | j <= k <= i ensures At(FRESH_OPEN, events, k).Protects() {
      AtOn(FRESH_OPEN, first, rest, k - j);
      assert At(w, rest, k - j).Protects();
    }
    assert StretchFrom(FRESH_OPEN, events, j, i);
    SinceIsTheRefresh(FRESH_OPEN, events, j, i);
    assert events[i] == rest[|rest| - 1];
  }

  lemma BoundKeepsTheKey(period: nat, failed: nat, postponed: nat)
    requires 0 < period && Bound(period, failed, postponed) < VIEWER_TTL_MS
    ensures NeverLapses(period, failed, postponed)
  {
    forall w, openedAt, events: seq<Event>, j: nat, i: nat |
      Opened(w, openedAt) && Runs(w, events, period) && i < |events| && StretchFrom(w, events, j, i) &&
      At(w, events, i).failed <= failed && At(w, events, i).postponed <= postponed
      ensures events[i].at - At(w, events, i).lastOk < VIEWER_TTL_MS
    {
      RefreshedStretchIsBounded(w, openedAt, events, j, i, period);
      BoundMonotone(period, At(w, events, i).failed, At(w, events, i).postponed, failed, postponed);
    }
  }

  /**
   The key outlives failures and placeholder merges exactly while the bound is under the server's 20 s. The lapsing
   runs have one placeholder at most, given up on after its five failures and 30 s.
   */
  lemma KeyOutlivesFailuresIff(period: nat, failed: nat, postponed: nat)
    requires 0 < period
    ensures NeverLapses(period, failed, postponed) <==> Bound(period, failed, postponed) < VIEWER_TTL_MS
  {
    assert Opened(FRESH_OPEN, 0);
    if Bound(period, failed, postponed) < VIEWER_TTL_MS {
      BoundKeepsTheKey(period, failed, postponed);
    } else if postponed == 0 {
      LapsesFrom(FRESH_OPEN, [], period, failed, 0);
    } else {
      var w, events := StuckIsReached(period);
      LapsesFrom(w, events, period, 0, 1);
    }
  }

  /** With polls a second apart that is three failures; a placeholder merge is too much for any polling. */
  lemma WhatTheKeyAllows(period: nat, failed: nat, postponed: nat)
    requires 0 < period
    ensures NeverLapses(1000, failed, 0) <==> failed <= 3
    ensures postponed > 0 ==> !NeverLapses(period, failed, postponed)
  {
    KeyOutlivesFailuresIff(1000, failed, 0);
    KeyOutlivesFailuresIff(period, failed, postponed);
    if postponed > 0 { BoundMonotone(period, 0, 1, failed, postponed); }
  }

  // ---- What an answer means ----

  /** A poll that is due asks once: a 2xx refreshes the key and is good for 10 s, a 404 or a redirect says the content
      is gone, anything else, no answer included, is tried again 2 s later. A poll that is not due changes nothing. */
  lemma PollMeans(w: World, at: int, transportOk: bool, status: int)
    ensures var after := Apply(w, Poll(at, transportOk, status));
            var due := !w.finished && !w.gone && w.position < w.totalBytes && at >= w.nextDueAt;
            var refreshed := transportOk && 200 <= status <= 299;
            var removed := transportOk && (status == 404 || 300 <= status <= 399);
            var polled := w.(lastPoll := at, refreshing := true, clock := at);
            && (!due ==> after == polled)
            && (due && refreshed ==>
                  after == polled.(nextDueAt := at + 10000, lastOk := at, since := at, failed := 0, postponed := 0,
                                   sent := w.sent + 1))
            && (due && removed ==> after == polled.(nextDueAt := at + 10000, gone := true, sent := w.sent + 1))
            && (due && !refreshed && !removed ==>
                  after == polled.(nextDueAt := at + 2000, failed := w.failed + 1, sent := w.sent + 1))
  {
  }

  /** What a refresh or a fetch does to the schedule: merged segments add their bytes, count as an answer and clear the
      tracker for whatever failed behind them; a failed probe counts against its segment, and the fifth after thirty
      seconds puts the schedule off as a merge would. */
  lemma RefreshMeans(w: World, at: int, bytes: nat, behind: string, url: string)
    requires w.Protects() && url != ""
    ensures Apply(w, Fetched(at)) ==
            w.(clock := at, nextDueAt := at + 10000, lastOk := at, since := at, failed := 0, postponed := 0)
    ensures Apply(w, Merged(at, bytes, behind)) ==
            w.(clock := at, nextDueAt := at + 10000, lastOk := at, since := at, failed := 0, postponed := 0,
               totalBytes := w.totalBytes + bytes, refreshing := false,
               tracker := if behind == "" then NO_TRACKER else Tracker(behind, 1, at))
    ensures var count, first := if w.tracker.url == url then w.tracker.failures + 1 else 1,
                                if w.tracker.url == url then w.tracker.firstFailedAt else at;
            Apply(w, ProbeFailed(at, url)) ==
            if count >= 5 && at - first >= 30000
            then w.(clock := at, refreshing := false, tracker := NO_TRACKER, nextDueAt := at + 10000, placedAt := at,
                    postponed := w.postponed + 1)
            else w.(clock := at, refreshing := false, tracker := Tracker(url, count, first))
  {
  }

  /** No request is scheduled sooner than 10 s after the last one that refreshed the key. */
  ghost predicate Spaced(w: World) { w.lastOk <= w.clock && w.lastOk + 10000 <= w.nextDueAt }

  lemma StepKeepsSpaced(w: World, e: Event, period: nat)
    requires Spaced(w) && Enabled(w, e, period)
    ensures Spaced(Apply(w, e))
  {
  }

  lemma {:induction false} RunKeepsSpaced(w: World, events: seq<Event>, i: nat, period: nat)
    requires Spaced(w) && Runs(w, events, period) && i <= |events|
    ensures Spaced(At(w, events, i))
    decreases i
  {
    if i > 0 {
      StepKeepsSpaced(w, events[0], period);
      RunKeepsSpaced(Apply(w, events[0]), events[1..], i - 1, period);
    }
  }

  /** In every run after an open a request goes out only 10 s after the last fetch, merge or answer that refreshed the
      key, so a viewer who is playing, fetching a segment every few seconds, never sends one. */
  lemma PlayingViewerSendsNone(w: World, openedAt: int, events: seq<Event>, i: nat, period: nat)
    requires Opened(w, openedAt) && Runs(w, events, period) && i < |events|
    ensures At(w, events, i + 1).sent > At(w, events, i).sent ==> events[i].at - At(w, events, i).lastOk >= 10000
    ensures events[i].Fetched? || (events[i].Merged? && events[i].bytes > 0) ==>
              At(w, events, i + 1).lastOk == events[i].at
  {
    AtNext(w, events, i);
    RunKeepsSpaced(w, events, i, period);
  }

  // ---- Who is asked for ----

  /** A request goes out at a step exactly when it is a poll, it is due, and there is something to protect then. */
  lemma RequestsExactlyWhenOwed(w: World, events: seq<Event>, i: nat)
    requires i < |events|
    ensures var before, after := At(w, events, i), At(w, events, i + 1);
            && before.sent <= after.sent <= before.sent + 1
            && (after.sent == before.sent + 1 <==>
                events[i].Poll? && before.Protects() && events[i].at >= before.nextDueAt)
  {
    AtNext(w, events, i);
  }

  /** A reader sends none for as long as it is at the tail, wherever reads, seeks and merges leave the two. */
  lemma {:induction false} ReaderAtTailSendsNone(w: World, events: seq<Event>, i: nat)
    requires i <= |events|
    requires forall k :: 0 <= k < i ==> At(w, events, k).position >= At(w, events, k).totalBytes
    ensures At(w, events, i).sent == w.sent
    decreases i
  {
    if i > 0 {
      assert At(w, events, i - 1).position >= At(w, events, i - 1).totalBytes;
      ReaderAtTailSendsNone(w, events, i - 1);
      AtNext(w, events, i - 1);
    }
  }

  /** Once the recording is known to be finished nothing is sent, however many bytes are still unread. */
  lemma {:induction false} FinishedSendsNone(w: World, events: seq<Event>, i: nat)
    requires i <= |events| && w.finished
    requires forall k :: 0 <= k < i ==> !(events[k].StatusSeen? && !events[k].finished)
    ensures At(w, events, i).sent == w.sent && At(w, events, i).finished
    decreases i
  {
    if i > 0 {
      FinishedSendsNone(w, events, i - 1);
      AtNext(w, events, i - 1);
    }
  }
}
