/**
 Connection reporting (src/ConnectionReport.cpp): `LinkHealth` turns the run of request outcomes into
 "unreachable", `ConnectionReportLatch` decides what is delivered to Kodi and when. Times are milliseconds.
 */
module LinkReport {
  import opened Common

  datatype Report = NoReport | Connected | Unreachable | AccessDenied | ServerMismatch | Disconnected

  // ---- LinkHealth ----

  const FAILURES_TO_TRIP := 3
  const MIN_SPAN_MS := 10000
  const MAX_GAP_MS := 60000

  /** No proxy, host or connection, nothing received, nothing sent, or a timeout before the connection was made. */
  predicate IsConnectLevelFailure(curlCode: int, connectNeverCompleted: bool): (yes: bool)
    ensures yes <==> curlCode in {5, 6, 7, 52, 55, 56} || (curlCode == 28 && connectNeverCompleted)
  {
    match curlCode
    case 5 | 6 | 7 | 52 | 55 | 56 => true
    case 28 => connectNeverCompleted
    case _ => false
  }

  datatype Attempt = Attempt(now: int, curlCode: int, httpCode: int, authenticated: bool, connectNeverCompleted: bool)
  {
    predicate Answers() { curlCode == 0 && httpCode < 500 }

    predicate Fails() { IsConnectLevelFailure(curlCode, connectNeverCompleted) }
  }

  /** j and k are failures of h with none between them. */
  ghost predicate Adjacent(h: seq<Attempt>, j: int, k: int) {
    && 0 <= j < k < |h| && h[j].Fails() && h[k].Fails()
    && forall m :: j < m < k ==> !h[m].Fails()
  }

  /** The connect-level failures of h from i on are one streak: never answered, no gap over the limit. */
  ghost predicate StreakFrom(h: seq<Attempt>, i: int) {
    && 0 <= i < |h| && h[i].Fails()
    && (forall k :: i <= k < |h| ==> !h[k].Answers())
    && (forall j, k :: i <= j && Adjacent(h, j, k) ==> h[k].now - h[j].now <= MAX_GAP_MS)
  }

  function Failures(h: seq<Attempt>): nat {
    if h == [] then 0 else Failures(h[..|h| - 1]) + (if h[|h| - 1].Fails() then 1 else 0)
  }

  /** The maximal streak ending at the last attempt has at least three members and spans at least 10 s. */
  ghost predicate LinkDown(h: seq<Attempt>) {
    && h != [] && h[|h| - 1].Fails()
    && exists i :: 0 <= i < |h| && StreakFrom(h, i) && (forall j :: 0 <= j < i ==> !StreakFrom(h, j))
                   && Failures(h[i..]) >= FAILURES_TO_TRIP && h[|h| - 1].now - h[i].now >= MIN_SPAN_MS
  }

  ghost function ExpectedReport(h: seq<Attempt>): Report
    requires h != []
  {
    var a := h[|h| - 1];
    if a.Answers() && a.authenticated && 200 <= a.httpCode < 300 then Connected
    else if LinkDown(h) then Unreachable
    else NoReport
  }

  /** The three fields describe the maximal streak of h: it began at `start`, `latest` is its last failure. */
  ghost predicate Tracks(h: seq<Attempt>, failures: nat, first: int, last: int, start: int, latest: int) {
    if failures == 0 then forall i :: !StreakFrom(h, i)
    else
      && 0 <= start <= latest < |h| && StreakFrom(h, start) && (forall i :: i < start ==> !StreakFrom(h, i))
      && h[start].now == first
      && h[latest].Fails() && h[latest].now == last && (forall k :: latest < k < |h| ==> !h[k].Fails())
      && Failures(h[start..]) == failures
  }

  lemma FailuresGrow(h: seq<Attempt>, start: int, a: Attempt)
    requires 0 <= start <= |h|
    ensures Failures((h + [a])[start..]) == Failures(h[start..]) + (if a.Fails() then 1 else 0)
  {
    assert (h + [a])[start..] == h[start..] + [a];
    assert (h[start..] + [a])[..|h| - start] == h[start..];
  }

  lemma AdjacentSame(h: seq<Attempt>, a: Attempt, j: int, k: int)
    requires k < |h|
    ensures Adjacent(h + [a], j, k) <==> Adjacent(h, j, k)
  {
    assert forall m :: 0 <= m < |h| ==> (h + [a])[m] == h[m];
  }

  /** Streaks of the longer history, seen from the shorter one. */
  lemma Shorter(h: seq<Attempt>, a: Attempt, i: int)
    requires StreakFrom(h + [a], i) && i < |h|
    ensures StreakFrom(h, i)
  {
    var g := h + [a];
    forall j, k | i <= j && Adjacent(h, j, k)
      ensures h[k].now - h[j].now <= MAX_GAP_MS
    {
      assert Adjacent(g, j, k);
    }
    assert forall k :: i <= k < |h| ==> h[k] == g[k];
  }

  /** An attempt that neither answers nor fails leaves a streak a streak. */
  lemma Longer(h: seq<Attempt>, a: Attempt, i: int)
    requires StreakFrom(h, i) && !a.Answers() && !a.Fails()
    ensures StreakFrom(h + [a], i)
  {
    var g := h + [a];
    assert g[|h|] == a && forall k :: 0 <= k < |h| ==> g[k] == h[k];
    forall j, k | i <= j && Adjacent(g, j, k)
      ensures g[k].now - g[j].now <= MAX_GAP_MS
    {
      AdjacentSame(h, a, j, k);
    }
  }

  lemma Ignored(h: seq<Attempt>, a: Attempt, failures: nat, first: int, last: int, start: int, latest: int)
    requires Tracks(h, failures, first, last, start, latest) && !a.Answers() && !a.Fails()
    ensures Tracks(h + [a], failures, first, last, start, latest)
  {
    forall i | StreakFrom(h + [a], i)
      ensures StreakFrom(h, i)
    {
      Shorter(h, a, i);
    }
    if failures > 0 {
      Longer(h, a, start);
      FailuresGrow(h, start, a);
    }
  }

  lemma Answered(h: seq<Attempt>, a: Attempt)
    requires a.Answers()
    ensures forall i :: !StreakFrom(h + [a], i)
  {
    assert (h + [a])[|h|] == a;
  }

  lemma FailureExtends(h: seq<Attempt>, a: Attempt, failures: nat, first: int, last: int, start: int, latest: int)
    requires Tracks(h, failures, first, last, start, latest) && a.Fails() && failures > 0 && a.now - last <= MAX_GAP_MS
    ensures Tracks(h + [a], failures + 1, first, a.now, start, |h|)
  {
    var g := h + [a];
    assert g[|h|] == a && forall k :: 0 <= k < |h| ==> g[k] == h[k];
    forall j, k | start <= j && Adjacent(g, j, k)
      ensures g[k].now - g[j].now <= MAX_GAP_MS
    {
      if k < |h| {
        AdjacentSame(h, a, j, k);
      } else {
        assert j == latest by { assert g[latest].Fails(); }
      }
    }
    assert StreakFrom(g, start);
    forall i | i < start && StreakFrom(g, i)
      ensures false
    {
      Shorter(h, a, i);
    }
    FailuresGrow(h, start, a);
  }

  lemma FailureRestarts(h: seq<Attempt>, a: Attempt, failures: nat, first: int, last: int, start: int, latest: int)
    requires Tracks(h, failures, first, last, start, latest) && a.Fails()
    requires failures == 0 || a.now - last > MAX_GAP_MS
    ensures Tracks(h + [a], 1, a.now, a.now, |h|, |h|)
  {
    var g := h + [a];
    assert forall j, k :: |h| <= j ==> !Adjacent(g, j, k);
    assert StreakFrom(g, |h|);
    if failures > 0 { assert g[latest].Fails() && Adjacent(g, latest, |h|); }
    forall i | i < |h| && StreakFrom(g, i)
      ensures false
    {
      Shorter(h, a, i);
    }
    FailuresGrow(h, |h|, a);
    assert h[|h|..] == [];
  }

  lemma Verdict(h: seq<Attempt>, failures: nat, first: int, start: int)
    requires h != [] && h[|h| - 1].Fails() && failures > 0
    requires Tracks(h, failures, first, h[|h| - 1].now, start, |h| - 1)
    ensures LinkDown(h) <==> failures >= FAILURES_TO_TRIP && h[|h| - 1].now - first >= MIN_SPAN_MS
  {
    forall i | StreakFrom(h, i) && forall j :: 0 <= j < i ==> !StreakFrom(h, j)
      ensures i == start
    {
    }
  }

  /** Three fields, kept equal to the specification over the whole history. */
  class LinkHealth {
    var failures: nat
    var firstFailure: int
    var lastFailure: int
    ghost var history: seq<Attempt>
    ghost var start: int
    ghost var latest: int

    ghost predicate Valid()
      reads this
    {
      Tracks(history, failures, firstFailure, lastFailure, start, latest)
    }

    constructor ()
      ensures Valid() && history == []
    {
      failures, firstFailure, lastFailure, history, start, latest := 0, 0, 0, [], 0, 0;
    }

    /** One more failure to connect: it extends the streak, or starts a new one after too long a gap. */
    method OnConnectFailure(a: Attempt) returns (report: Report)
      requires Valid()
      requires a.curlCode != 0 && IsConnectLevelFailure(a.curlCode, a.connectNeverCompleted)
      modifies this
      ensures Valid() && history == old(history) + [a] && report == ExpectedReport(history)
    {
      ghost var h := history;
      history := h + [a];
      if failures > 0 && a.now - lastFailure <= MAX_GAP_MS {
        FailureExtends(h, a, failures, firstFailure, lastFailure, start, latest);
      } else {
        FailureRestarts(h, a, failures, firstFailure, lastFailure, start, latest);
        start := |h|;
      }
      latest := |h|;
      if failures > 0 && a.now - lastFailure > MAX_GAP_MS { failures := 0; }
      if failures == 0 { firstFailure := a.now; }
      failures := failures + 1;
      lastFailure := a.now;
      Verdict(history, failures, firstFailure, start);
      if failures >= FAILURES_TO_TRIP && a.now - firstFailure >= MIN_SPAN_MS { return Unreachable; }
      return NoReport;
    }

    method OnAttempt(a: Attempt) returns (report: Report)
      requires Valid()
      modifies this
      ensures Valid() && history == old(history) + [a]
      ensures report == ExpectedReport(history)
    {
      ghost var h := history;
      if a.curlCode == 0 {
        history := h + [a];
        if a.httpCode >= 500 {
          Ignored(h, a, failures, firstFailure, lastFailure, start, latest);
          return NoReport;
        }
        Answered(h, a);
        failures := 0;
        return if a.authenticated && 200 <= a.httpCode < 300 then Connected else NoReport;
      }
      if !IsConnectLevelFailure(a.curlCode, a.connectNeverCompleted) {
        history := h + [a];
        Ignored(h, a, failures, firstFailure, lastFailure, start, latest);
        return NoReport;
      }
      report := OnConnectFailure(a);
    }
  }

  // ---- ConnectionReportLatch ----

  datatype Event =
    | Observed(report: Report)
    | ResendAsked
    | Took(ready: bool, out: Option<Report>, resent: bool)  // a TakePending() and what it handed out

  function LastObserved(log: seq<Event>): Report {
    if log == [] then NoReport
    else if log[|log| - 1].Observed? && log[|log| - 1].report != NoReport then log[|log| - 1].report
    else LastObserved(log[..|log| - 1])
  }

  function LastDelivered(log: seq<Event>): Report {
    if log == [] then NoReport
    else if log[|log| - 1].Took? && log[|log| - 1].out.Some? then log[|log| - 1].out.value
    else LastDelivered(log[..|log| - 1])
  }

  /** A resend was asked for since the last delivery. */
  predicate ResendOwed(log: seq<Event>) {
    log != [] &&
    match log[|log| - 1]
    case ResendAsked => true
    case Took(_, Some(_), _) => false
    case _ => ResendOwed(log[..|log| - 1])
  }

  /** What Kodi was last told stands for what was last observed. */
  predicate Represents(delivered: Report, observed: Report) {
    delivered == observed || (observed.Unreachable? && delivered.Disconnected?)
  }

  predicate WasUp(delivered: Report) { delivered.Connected? || delivered.Disconnected? }

  /** One TakePending(), judged by everything that happened before it. */
  ghost predicate SoundTake(before: seq<Event>, e: Event)
    requires e.Took?
  {
    var prev, seen := LastDelivered(before), LastObserved(before);
    match e.out
    case Some(r) =>
      && r != NoReport && Represents(r, seen)
      && (r.Connected? ==> e.ready)
      && (r == prev ==> ResendOwed(before)) && (e.resent <==> r == prev)
      && (r.Disconnected? ==> WasUp(prev))
      && (r.Unreachable? ==> !WasUp(prev))
    case None =>
      || seen.NoReport?
      || (Represents(prev, seen) && !ResendOwed(before))
      || (seen.Connected? && !e.ready)
  }

  ghost predicate NeverObservesDisconnected(log: seq<Event>) {
    forall j :: 0 <= j < |log| ==> log[j] != Observed(Disconnected)
  }

  ghost predicate Sound(log: seq<Event>) {
    forall j :: 0 <= j < |log| && log[j].Took? ==> SoundTake(log[..j], log[j])
  }

  lemma {:induction false} ObservedIsNotDisconnected(log: seq<Event>)
    requires NeverObservesDisconnected(log)
    ensures LastObserved(log) != Disconnected
  {
    if log != [] { ObservedIsNotDisconnected(log[..|log| - 1]); }
  }

  lemma SoundGrows(log: seq<Event>, e: Event)
    requires Sound(log) && (e.Took? ==> SoundTake(log, e))
    ensures Sound(log + [e])
  {
    var g := log + [e];
    forall j | 0 <= j < |g| && g[j].Took?
      ensures SoundTake(g[..j], g[j])
    {
      assert g[..j] == log[..j];
      assert log[..|log|] == log;
    }
  }

  class ConnectionReportLatch {
    var observed: Report
    var delivered: Report
    var resendRequested: bool
    ghost var log: seq<Event>

    /** The three fields are what the log says, and no delivery of it was ever wrong. */
    ghost predicate Valid()
      reads this
    {
      && observed == LastObserved(log) && delivered == LastDelivered(log) && resendRequested == ResendOwed(log)
      && (NeverObservesDisconnected(log) ==> Sound(log))
    }

    constructor ()
      ensures Valid() && log == []
    {
      observed, delivered, resendRequested, log := NoReport, NoReport, false, [];
    }

    ghost method Record(e: Event)
      requires NeverObservesDisconnected(log) ==> Sound(log)
      requires e.Took? && NeverObservesDisconnected(log) ==> SoundTake(log, e)
      modifies this`log
      ensures log == old(log) + [e] && log[..|log| - 1] == old(log)
      ensures NeverObservesDisconnected(log) ==> Sound(log)
    {
      if NeverObservesDisconnected(log + [e]) {
        assert forall j :: 0 <= j < |log| ==> log[j] == (log + [e])[j];
        SoundGrows(log, e);
      }
      log := log + [e];
    }

    method Observe(report: Report) returns (changed: bool)
      requires Valid()
      modifies this
      ensures Valid() && log == old(log) + [Observed(report)]
      ensures changed <==> report != NoReport && report != LastObserved(old(log))
    {
      Record(Observed(report));
      if report == NoReport { return false; }
      changed := report != observed;
      observed := report;
    }

    method TakePending(connectedReady: bool) returns (out: Option<Report>, resent: bool)
      requires Valid()
      modifies this
      ensures Valid() && log == old(log) + [Took(connectedReady, out, resent)]
    {
      out, resent := None, false;
      ghost var before := log;
      if NeverObservesDisconnected(log) { ObservedIsNotDisconnected(log); }
      if observed == NoReport {
        Record(Took(connectedReady, None, false));
        return;
      }
      var target := observed;
      if target == Unreachable && (delivered == Connected || delivered == Disconnected) { target := Disconnected; }
      var again := target == delivered;
      if again && !resendRequested {
        Record(Took(connectedReady, None, false));
        return;
      }
      if target == Connected && !connectedReady {
        Record(Took(connectedReady, None, false));
        return;
      }
      out, resent := Some(target), again;
      Record(Took(connectedReady, out, resent));
      delivered := target;
      resendRequested := false;
    }

    method RequestResend()
      requires Valid()
      modifies this
      ensures Valid() && log == old(log) + [ResendAsked]
    {
      Record(ResendAsked);
      resendRequested := true;
    }
  }

  ghost predicate Delivers(log: seq<Event>, j: int, r: Report) {
    0 <= j < |log| && log[j].Took? && log[j].out == Some(r)
  }

  lemma {:induction false} WhoDeliveredLast(log: seq<Event>) returns (i: int)
    requires LastDelivered(log) != NoReport
    ensures Delivers(log, i, LastDelivered(log))
    ensures forall k :: i < k < |log| && log[k].Took? ==> log[k].out.None?
  {
    if log[|log| - 1].Took? && log[|log| - 1].out.Some? {
      i := |log| - 1;
    } else {
      i := WhoDeliveredLast(log[..|log| - 1]);
    }
  }

  /** Every block of "connection lost" deliveries directly follows a "connected" one. */
  lemma {:induction false} LostBlockFollowsConnected(log: seq<Event>, j: nat) returns (i: int)
    requires Sound(log) && Delivers(log, j, Disconnected)
    ensures i < j && Delivers(log, i, Connected)
    ensures forall k :: i < k <= j && log[k].Took? && log[k].out.Some? ==> log[k].out == Some(Disconnected)
    decreases j
  {
    var before := log[..j];
    assert SoundTake(before, log[j]);
    i := WhoDeliveredLast(before);
    assert forall k :: 0 <= k < j ==> before[k] == log[k];
    if LastDelivered(before).Disconnected? {
      i := LostBlockFollowsConnected(log, i);
    }
  }

  /** Two deliveries in a row are different, unless a resend was asked for between them. */
  lemma RepeatsNeedAResend(log: seq<Event>, i: int, j: int, r: Report)
    requires Sound(log) && i < j && Delivers(log, i, r) && Delivers(log, j, r)
    requires forall k :: i < k < j && log[k].Took? ==> log[k].out.None?
    ensures exists k :: i < k < j && log[k].ResendAsked?
  {
    assert SoundTake(log[..j], log[j]);
    LastDeliveredAt(log, i, j);
    OwedSince(log, i, j);
  }

  lemma {:induction false} LastDeliveredAt(log: seq<Event>, i: int, j: int)
    requires 0 <= i < j <= |log| && log[i].Took? && log[i].out.Some?
    requires forall k :: i < k < j && log[k].Took? ==> log[k].out.None?
    ensures LastDelivered(log[..j]) == log[i].out.value
    decreases j
  {
    assert log[..j][..j - 1] == log[..j - 1];
    if i < j - 1 { LastDeliveredAt(log, i, j - 1); }
  }

  lemma {:induction false} OwedSince(log: seq<Event>, i: int, j: int)
    requires 0 <= i < j <= |log| && log[i].Took? && log[i].out.Some?
    ensures ResendOwed(log[..j]) ==> exists k :: i < k < j && log[k].ResendAsked?
    decreases j
  {
    assert log[..j][..j - 1] == log[..j - 1];
    if i < j - 1 { OwedSince(log, i, j - 1); }
  }
}
