/**
 The authentication gate (DispatcharrClient::EnsureAuthenticated, src/AuthBackoff.h): all threads
 share one flow lock, so their attempts follow one another; an escalating backoff answers credential
 rejections and a fixed cooldown answers outages. Times are milliseconds.
 */
module AuthGate {
  import opened Common

  const TOKEN_LIFETIME_MS := 240000
  const COOLDOWN_MS := 30000

  function BackoffSeconds(consecutiveFailures: int): int {
    if consecutiveFailures <= 0 then 0
    else
      var shift := Min(consecutiveFailures - 1, 10);
      Min(30 * Pow2(shift), 1800)
  }

  function Pow2(n: nat): nat { if n == 0 then 1 else 2 * Pow2(n - 1) }

  /** The shift is cut off at 10 to avoid overflow; the result is the capped doubling for every count. */
  lemma BackoffIsCappedDoubling(n: nat)
    requires n > 0
    ensures BackoffSeconds(n) == Min(1800, 30 * Pow2(n - 1))
  {
    if n > 11 {
      assert Pow2(10) == 1024;
      Pow2Grows(10, n - 1);
    }
  }

  lemma {:induction false} Pow2Grows(a: nat, b: nat)
    requires a <= b
    ensures Pow2(a) <= Pow2(b)
    decreases b
  {
    if a < b { Pow2Grows(a, b - 1); }
  }

  predicate CountsTowardBackoff(httpCode: int) {
    httpCode == 400 || httpCode == 401 || httpCode == 403 || httpCode == 429
  }

  datatype RefreshFailure = Rejected | Transient | Other

  function ClassifyRefreshFailure(httpCode: int): RefreshFailure {
    if httpCode == 401 || httpCode == 403 then Rejected
    else if httpCode == 0 || 500 <= httpCode < 600 then Transient
    else Other
  }

  datatype Gate = HaveToken | LoginBackoff | TransientCooldown | Proceed

  function DecideGate(tokenStillValid: bool, loginBackoffActive: bool, cooldownBlocking: bool): Gate {
    if tokenStillValid then HaveToken
    else if loginBackoffActive then LoginBackoff
    else if cooldownBlocking then TransientCooldown
    else Proceed
  }

  predicate CooldownBlocking(cooldownActive: bool, armedByShort: bool, callerIsShort: bool) {
    cooldownActive && (!armedByShort || callerIsShort)
  }

  predicate RetryDue(lastFailedAt: Option<int>, now: int, interval: int) {
    lastFailedAt.None? || now - lastFailedAt.value >= interval
  }

  /** The fields EnsureAuthenticated() reads and writes. `tokenUntil` is None while there is no token at all. */
  datatype Auth = Auth(tokenUntil: Option<int>, haveRefresh: bool, failures: nat, backoffUntil: int,
                       cooldownAt: Option<int>, armedByShort: bool)

  /** One network request: whether it brought a token, the status, when it ended, and whether the refresh token in the
      reply, if there is one, is non-empty. */
  datatype Reply = Reply(ok: bool, status: int, endAt: int, newRefresh: Option<bool>)

  /** A call: when it got the flow lock, whether its bound is short, and what its requests would be answered. */
  datatype Call = Call(at: int, short: bool, refresh: Reply, login: Reply)

  datatype Verdict = Granted | Counted | Cooling | Passed

  datatype Attempt = Attempt(isLogin: bool, startAt: int, endAt: int, short: bool, verdict: Verdict)

  function GateFor(a: Auth, c: Call): Gate {
    DecideGate(a.tokenUntil.Some? && c.at < a.tokenUntil.value,
               a.failures > 0 && c.at < a.backoffUntil,
               CooldownBlocking(!RetryDue(a.cooldownAt, c.at, COOLDOWN_MS), a.armedByShort, c.short))
  }

  function RefreshVerdict(r: Reply): Verdict {
    if r.ok then Granted
    else if ClassifyRefreshFailure(r.status).Transient? then Cooling
    else Passed
  }

  function LoginVerdict(r: Reply): Verdict {
    if r.ok then Granted else if CountsTowardBackoff(r.status) then Counted else Cooling
  }

  function AfterRefresh(a: Auth, c: Call): Auth {
    match RefreshVerdict(c.refresh)
    case Granted => a.(tokenUntil := Some(c.refresh.endAt + TOKEN_LIFETIME_MS), failures := 0)
    case Cooling => a.(cooldownAt := Some(c.refresh.endAt), armedByShort := c.short)
    case _ => if ClassifyRefreshFailure(c.refresh.status).Rejected? then a.(haveRefresh := false) else a
  }

  function AfterLogin(a: Auth, c: Call): Auth {
    match LoginVerdict(c.login)
    case Granted => a.(tokenUntil := Some(c.login.endAt + TOKEN_LIFETIME_MS),
                       haveRefresh := if c.login.newRefresh.Some? then c.login.newRefresh.value else a.haveRefresh,
                       failures := 0, cooldownAt := None, armedByShort := false)
    case Counted => a.(failures := a.failures + 1,
                       backoffUntil := c.login.endAt + 1000 * BackoffSeconds(a.failures + 1))
    case _ => a.(cooldownAt := Some(c.login.endAt), armedByShort := c.short)
  }

  /** The requests one call makes, in order, given the state it finds. */
  function Attempts(a: Auth, c: Call): seq<Attempt> {
    if !GateFor(a, c).Proceed? then []
    else if !a.haveRefresh then [Attempt(true, c.at, c.login.endAt, c.short, LoginVerdict(c.login))]
    else
      var r := Attempt(false, c.at, c.refresh.endAt, c.short, RefreshVerdict(c.refresh));
      if r.verdict.Passed?
      then [r, Attempt(true, c.refresh.endAt, c.login.endAt, c.short, LoginVerdict(c.login))]
      else [r]
  }

  function Ensure(a: Auth, c: Call): Auth {
    if !GateFor(a, c).Proceed? then a
    else if !a.haveRefresh then AfterLogin(a, c)
    else if RefreshVerdict(c.refresh).Passed? then AfterLogin(AfterRefresh(a, c), c)
    else AfterRefresh(a, c)
  }

  predicate Succeeds(a: Auth, c: Call) {
    || GateFor(a, c).HaveToken?
    || (GateFor(a, c).Proceed? && exists i :: 0 <= i < |Attempts(a, c)| && Attempts(a, c)[i].verdict.Granted?)
  }

  predicate TokenValid(a: Auth, at: int) { a.tokenUntil.Some? && at < a.tokenUntil.value }

  /** A call may ask the server: it has no valid token, no rejection is counted or the backoff is over, and no cooldown
      is armed, or its 30 s are over, or a short attempt armed it and the caller is not short. */
  predicate Admitted(a: Auth, c: Call) {
    && !TokenValid(a, c.at) && (a.failures == 0 || c.at >= a.backoffUntil)
    && (a.cooldownAt.None? || c.at - a.cooldownAt.value >= 30000 || (a.armedByShort && !c.short))
  }

  /** The client's fields and the flow, step by step as the source takes it. */
  class AuthFlow {
    var tokenUntil: Option<int>
    var haveRefresh: bool
    var failures: nat
    var backoffUntil: int
    var cooldownAt: Option<int>
    var armedByShort: bool

    function View(): Auth
      reads this
    {
      Auth(tokenUntil, haveRefresh, failures, backoffUntil, cooldownAt, armedByShort)
    }

    /** The refresh token is tried first; what it leaves to do, if anything, is a login. */
    method TryRefresh(c: Call) returns (verdict: Verdict)
      modifies this
      ensures View() == AfterRefresh(old(View()), c) && verdict == RefreshVerdict(c.refresh)
    {
      if c.refresh.ok {
        tokenUntil, failures := Some(c.refresh.endAt + TOKEN_LIFETIME_MS), 0;
        return Granted;
      }
      match ClassifyRefreshFailure(c.refresh.status)
      case Rejected =>
        haveRefresh := false;
        return Passed;
      case Transient =>
        cooldownAt, armedByShort := Some(c.refresh.endAt), c.short;
        return Cooling;
      case Other => return Passed;
    }

    method LogIn(c: Call) returns (ok: bool)
      modifies this
      ensures View() == AfterLogin(old(View()), c) && ok == c.login.ok
    {
      if c.login.ok {
        tokenUntil := Some(c.login.endAt + TOKEN_LIFETIME_MS);
        if c.login.newRefresh.Some? { haveRefresh := c.login.newRefresh.value; }
        failures, cooldownAt, armedByShort := 0, None, false;
        return true;
      }
      if CountsTowardBackoff(c.login.status) {
        failures := failures + 1;
        backoffUntil := c.login.endAt + 1000 * BackoffSeconds(failures);
      } else {
        cooldownAt, armedByShort := Some(c.login.endAt), c.short;
      }
      return false;
    }

    method EnsureAuthenticated(c: Call) returns (ok: bool)
      modifies this
      ensures View() == Ensure(old(View()), c)
      ensures ok == Succeeds(old(View()), c)
      ensures !Admitted(old(View()), c) ==> View() == old(View()) && (ok <==> TokenValid(old(View()), c.at))
      ensures Admitted(old(View()), c) && old(haveRefresh) && c.refresh.ok ==>
                ok && tokenUntil == Some(c.refresh.endAt + 240000)
    {
      CallsAskIff(View(), c);
      SucceedsMeans(View(), c);
      var gate := DecideGate(tokenUntil.Some? && c.at < tokenUntil.value, failures > 0 && c.at < backoffUntil,
                             CooldownBlocking(!RetryDue(cooldownAt, c.at, COOLDOWN_MS), armedByShort, c.short));
      match gate
      case HaveToken => return true;
      case LoginBackoff => return false;
      case TransientCooldown => return false;
      case Proceed =>
        if haveRefresh {
          var verdict := TryRefresh(c);
          if verdict != Passed { return verdict == Granted; }
        }
        ok := LogIn(c);
    }
  }

  /** A call succeeds with the token it has, with its refresh, or with the login a failed refresh leads to. */
  lemma SucceedsMeans(a: Auth, c: Call)
    ensures Succeeds(a, c) <==>
            || GateFor(a, c).HaveToken?
            || (GateFor(a, c).Proceed? && a.haveRefresh && RefreshVerdict(c.refresh) == Granted)
            || (GateFor(a, c).Proceed? && (!a.haveRefresh || RefreshVerdict(c.refresh) == Passed) && c.login.ok)
  {
    var made := Attempts(a, c);
    if made != [] && made[0].verdict.Granted? { assert Succeeds(a, c); }
    if |made| == 2 && made[1].verdict.Granted? { assert Succeeds(a, c); }
  }

  // ---- Runs of all threads ----

  datatype Event =
    | Ensured(call: Call)
    | Invalidated          // a 401: the cached token is no longer taken as valid
    | Deferred(at: int)    // the startup check found the server unresponsive

  datatype World = World(auth: Auth, log: seq<Attempt>, clock: int)

  /** The flow lock: a call starts no earlier than the previous one ended, and its requests take time forward. */
  predicate Enabled(w: World, e: Event) {
    match e
    case Ensured(c) => w.clock <= c.at <= c.refresh.endAt <= c.login.endAt
    case Invalidated => true
    case Deferred(at) => w.clock <= at
  }

  function Apply(w: World, e: Event): World {
    match e
    case Ensured(c) => World(Ensure(w.auth, c), w.log + Attempts(w.auth, c), c.login.endAt)
    case Invalidated => if w.auth.tokenUntil.None? then w else w.(auth := w.auth.(tokenUntil := Some(0)))
    case Deferred(at) =>
      World(if w.auth.tokenUntil.Some? then w.auth else w.auth.(cooldownAt := Some(at), armedByShort := false),
            w.log, at)
  }

  ghost predicate Runs(w: World, events: seq<Event>)
    decreases |events|
  {
    events == [] || (Enabled(w, events[0]) && Runs(Apply(w, events[0]), events[1..]))
  }

  ghost function End(w: World, events: seq<Event>): World
    requires Runs(w, events)
    decreases |events|
  {
    if events == [] then w else End(Apply(w, events[0]), events[1..])
  }

  ghost predicate Init(w: World) {
    w.log == [] && w.auth.failures == 0 && w.auth.cooldownAt.None?
  }

  // ---- What the log of all attempts promises ----

  /** Counted rejections since the last success, up to and including the last attempt of the log. */
  function Streak(log: seq<Attempt>): nat {
    if log == [] then 0
    else
      var last := log[|log| - 1];
      if last.verdict.Granted? then 0
      else Streak(log[..|log| - 1]) + (if last.verdict.Counted? then 1 else 0)
  }

  /** When the attempt at `i` bars later attempts, and until when. */
  ghost predicate Paced(log: seq<Attempt>, i: nat, j: nat)
    requires i < j < |log|
  {
    && (log[i].verdict.Counted? && (forall k :: i < k < j ==> !log[k].verdict.Granted?) ==>
          log[j].startAt >= log[i].endAt + 1000 * BackoffSeconds(Streak(log[..i + 1])))
    && (log[i].verdict.Cooling? && !log[i].short ==> log[j].startAt >= log[i].endAt + COOLDOWN_MS)
    && (log[i].verdict.Cooling? && log[j].short &&
        (forall k :: i < k < j ==> !(log[k].isLogin && log[k].verdict.Granted?)) ==>
          log[j].startAt >= log[i].endAt + COOLDOWN_MS)
  }

  ghost predicate AllPaced(log: seq<Attempt>) {
    forall i, j :: 0 <= i < j < |log| ==> Paced(log, i, j)
  }

  /** What a next attempt at time `t`, made after the whole log, would have to respect. */
  ghost predicate Due(log: seq<Attempt>, i: nat, t: int, short: bool)
    requires i < |log|
  {
    && (log[i].verdict.Counted? && (forall k :: i < k < |log| ==> !log[k].verdict.Granted?) ==>
          t >= log[i].endAt + 1000 * BackoffSeconds(Streak(log[..i + 1])))
    && (log[i].verdict.Cooling? && !log[i].short ==> t >= log[i].endAt + COOLDOWN_MS)
    && (log[i].verdict.Cooling? && short &&
        (forall k :: i < k < |log| ==> !(log[k].isLogin && log[k].verdict.Granted?)) ==>
          t >= log[i].endAt + COOLDOWN_MS)
  }

  /** The state remembers enough: whatever gets past the gates from now on respects every earlier attempt. */
  ghost predicate Remembers(a: Auth, log: seq<Attempt>, clock: int) {
    forall i, t, short :: 0 <= i < |log| && clock <= t && Passes(a, t, short) ==> Due(log, i, t, short)
  }

  predicate Passes(a: Auth, t: int, short: bool) {
    (a.failures > 0 ==> t >= a.backoffUntil)
    && !CooldownBlocking(!RetryDue(a.cooldownAt, t, COOLDOWN_MS), a.armedByShort, short)
  }

  ghost predicate Inv(w: World) {
    && w.auth.failures == Streak(w.log)
    && (w.auth.cooldownAt.Some? ==> w.auth.cooldownAt.value <= w.clock)
    && (forall i :: 0 <= i < |w.log| ==> w.log[i].startAt <= w.log[i].endAt <= w.clock)
    && AllPaced(w.log) && Remembers(w.auth, w.log, w.clock)
  }

  /** Adding an attempt that respects the whole log keeps the log paced, and what was due stays due. */
  lemma Extend(log: seq<Attempt>, x: Attempt)
    requires AllPaced(log) && forall i :: 0 <= i < |log| ==> Due(log, i, x.startAt, x.short)
    ensures AllPaced(log + [x])
    ensures Streak(log + [x]) ==
            if x.verdict.Granted? then 0 else Streak(log) + (if x.verdict.Counted? then 1 else 0)
    ensures forall i, t, short :: 0 <= i < |log| && Due(log, i, t, short) ==> Due(log + [x], i, t, short)
  {
    var log' := log + [x];
    assert log'[..|log|] == log;
    forall i, j | 0 <= i < j < |log'|
      ensures Paced(log', i, j)
    {
      if j < |log| { PacedInLonger(log, x, i, j); } else { PacedAtTheEnd(log, x, i); }
    }
    forall i, t, short | 0 <= i < |log| && Due(log, i, t, short)
      ensures Due(log', i, t, short)
    {
      DueInLonger(log, x, i, t, short);
    }
  }

  lemma DueInLonger(log: seq<Attempt>, x: Attempt, i: nat, t: int, short: bool)
    requires i < |log| && Due(log, i, t, short)
    ensures Due(log + [x], i, t, short)
  {
    assert (log + [x])[..i + 1] == log[..i + 1];
    assert forall k :: 0 <= k < |log| ==> (log + [x])[k] == log[k];
  }

  lemma PacedInLonger(log: seq<Attempt>, x: Attempt, i: nat, j: nat)
    requires i < j < |log| && Paced(log, i, j)
    ensures Paced(log + [x], i, j)
  {
    assert (log + [x])[..i + 1] == log[..i + 1];
    assert forall k :: 0 <= k < |log| ==> (log + [x])[k] == log[k];
  }

  lemma PacedAtTheEnd(log: seq<Attempt>, x: Attempt, i: nat)
    requires i < |log| && Due(log, i, x.startAt, x.short)
    ensures Paced(log + [x], i, |log|)
  {
    assert (log + [x])[..i + 1] == log[..i + 1];
    assert forall k :: 0 <= k < |log| ==> (log + [x])[k] == log[k];
  }

  /** One request made at `x.startAt` by a caller the gates let through, and the state it leaves. */
  lemma RequestKeepsInv(w: World, x: Attempt, a': Auth, clock': int)
    requires Inv(w) && w.clock <= x.startAt <= x.endAt <= clock'
    requires forall i :: 0 <= i < |w.log| ==> Due(w.log, i, x.startAt, x.short)
    requires w.auth.failures > 0 ==> x.startAt >= w.auth.backoffUntil
    requires match x.verdict
             case Granted => a'.failures == 0 &&
               (if x.isLogin then a'.cooldownAt.None?
                else a'.cooldownAt == w.auth.cooldownAt && a'.armedByShort == w.auth.armedByShort)
             case Counted => a'.failures == w.auth.failures + 1
               && a'.backoffUntil == x.endAt + 1000 * BackoffSeconds(a'.failures)
               && a'.cooldownAt == w.auth.cooldownAt && a'.armedByShort == w.auth.armedByShort
             case Cooling => a'.failures == w.auth.failures && a'.backoffUntil == w.auth.backoffUntil
               && a'.cooldownAt == Some(x.endAt) && a'.armedByShort == x.short
             case Passed => a'.(haveRefresh := w.auth.haveRefresh) == w.auth
    ensures Inv(World(a', w.log + [x], clock'))
  {
    var log' := w.log + [x];
    Extend(w.log, x);
    assert log'[..|w.log| + 1] == log';
    forall i, t, short | 0 <= i < |log'| && clock' <= t && Passes(a', t, short)
      ensures Due(log', i, t, short)
    {
      if i < |w.log| {
        assert Due(w.log, i, x.startAt, x.short);
        OldStaysDue(w, x, a', i, t, short);
      }
    }
  }

  lemma OldStaysDue(w: World, x: Attempt, a': Auth, i: nat, t: int, short: bool)
    requires Inv(w) && w.clock <= x.startAt <= x.endAt <= t && i < |w.log|
    requires Due(w.log, i, x.startAt, x.short)
    requires w.auth.failures > 0 ==> x.startAt >= w.auth.backoffUntil
    requires Passes(a', t, short)
    requires (x.isLogin && x.verdict.Granted?)
             || (a'.cooldownAt == w.auth.cooldownAt && a'.armedByShort == w.auth.armedByShort)
             || (a'.cooldownAt == Some(x.endAt) && a'.armedByShort == x.short)
    ensures Due(w.log + [x], i, t, short)
  {
    var log' := w.log + [x];
    assert log'[..i + 1] == w.log[..i + 1];
    assert log'[|w.log|] == x;
    assert forall k :: 0 <= k < |w.log| ==> log'[k] == w.log[k];
    if a'.cooldownAt == w.auth.cooldownAt && a'.armedByShort == w.auth.armedByShort {
      assert Passes(w.auth, t, short);
      assert Due(w.log, i, t, short);
    }
  }

  /** A refresh that ends nothing is followed by a login under the same flow lock. */
  lemma TwoRequestsKeepInv(w: World, c: Call)
    requires Inv(w) && Enabled(w, Ensured(c)) && GateFor(w.auth, c).Proceed? && |Attempts(w.auth, c)| == 2
    ensures Inv(Apply(w, Ensured(c)))
  {
    var made := Attempts(w.auth, c);
    assert Passes(w.auth, c.at, c.short);
    var mid := World(AfterRefresh(w.auth, c), w.log + [made[0]], c.refresh.endAt);
    RequestKeepsInv(w, made[0], mid.auth, mid.clock);
    forall i | 0 <= i < |mid.log|
      ensures Due(mid.log, i, made[1].startAt, c.short)
    {
      if i < |w.log| { OldStaysDue(w, made[0], mid.auth, i, made[1].startAt, c.short); }
    }
    RequestKeepsInv(mid, made[1], Ensure(w.auth, c), c.login.endAt);
    assert mid.log + [made[1]] == w.log + made;
  }

  lemma OneRequestKeepsInv(w: World, c: Call)
    requires Inv(w) && Enabled(w, Ensured(c)) && GateFor(w.auth, c).Proceed? && |Attempts(w.auth, c)| == 1
    ensures Inv(Apply(w, Ensured(c)))
  {
    assert Passes(w.auth, c.at, c.short);
    RequestKeepsInv(w, Attempts(w.auth, c)[0], Ensure(w.auth, c), c.login.endAt);
  }

  lemma DeferralKeepsInv(w: World, at: int)
    requires Inv(w) && w.clock <= at
    ensures Inv(Apply(w, Deferred(at)))
  {
    var w' := Apply(w, Deferred(at));
    forall i, t, short | 0 <= i < |w.log| && w'.clock <= t && Passes(w'.auth, t, short)
      ensures Due(w.log, i, t, short)
    {
      if w.auth.tokenUntil.None? {
        assert t >= at + COOLDOWN_MS && Passes(w.auth, t, short);
      }
    }
  }

  lemma StepKeepsInv(w: World, e: Event)
    requires Inv(w) && Enabled(w, e)
    ensures Inv(Apply(w, e))
  {
    match e
    case Ensured(c) =>
      if !GateFor(w.auth, c).Proceed? {
        assert w.log + [] == w.log;
      } else if |Attempts(w.auth, c)| == 1 {
        OneRequestKeepsInv(w, c);
      } else {
        TwoRequestsKeepInv(w, c);
      }
    case Invalidated =>
    case Deferred(at) => DeferralKeepsInv(w, at);
  }

  /** Every run of every thread is paced: backoff after a rejection, cooldown after an outage. */
  lemma {:induction false} EveryRunIsPaced(w: World, events: seq<Event>)
    requires Inv(w) && Runs(w, events)
    ensures Inv(End(w, events)) && AllPaced(End(w, events).log)
    decreases |events|
  {
    if events != [] {
      StepKeepsInv(w, events[0]);
      EveryRunIsPaced(Apply(w, events[0]), events[1..]);
    }
  }

  // ---- How long k rejections take ----

  function BackoffTotal(n: nat): nat {
    if n == 0 then 0 else BackoffTotal(n - 1) + BackoffSeconds(n)
  }

  lemma {:induction false} BackoffTotalClosed(n: nat)
    requires n >= 6
    ensures BackoffTotal(n) == 1890 + 1800 * (n - 6)
  {
    if n == 6 {
      assert Pow2(5) == 32;
      assert BackoffTotal(3) == 210;
      assert BackoffTotal(5) == 930;
    } else {
      BackoffTotalClosed(n - 1);
      BackoffIsCappedDoubling(n);
      assert Pow2(6) == 64;
      Pow2Grows(6, n - 1);
    }
  }

  /** The attempts of a run in which nothing succeeded from `i` to `j`. */
  ghost predicate NoSuccess(log: seq<Attempt>, i: nat, j: nat) {
    forall k :: i <= k <= j < |log| ==> !log[k].verdict.Granted?
  }

  /** Back over the attempts that neither succeed nor count, the streak stays what it was. */
  lemma LastThatMattered(log: seq<Attempt>, j: nat) returns (p: nat)
    requires j < |log|
    ensures p <= j && Streak(log[..p]) == Streak(log[..j])
    ensures forall k :: p <= k < j ==> !log[k].verdict.Granted? && !log[k].verdict.Counted?
    ensures p == 0 || log[p - 1].verdict.Granted? || log[p - 1].verdict.Counted?
  {
    p := j;
    while p > 0 && !log[p - 1].verdict.Granted? && !log[p - 1].verdict.Counted?
      invariant 0 <= p <= j && Streak(log[..p]) == Streak(log[..j])
      invariant forall k :: p <= k < j ==> !log[k].verdict.Granted? && !log[k].verdict.Counted?
    {
      assert log[..p][..p - 1] == log[..p - 1];
      p := p - 1;
    }
  }

  /**
   In a paced log, the n-th rejection in a row ends at least 30 + 60 + ... s after the first: the sum
   of the n - 1 backoffs before it. `i` is the rejection that opened the streak `j` belongs to.
   */
  lemma {:induction false} RejectionsTakeTime(log: seq<Attempt>, j: nat) returns (i: nat)
    requires j < |log| && log[j].verdict.Counted? && AllPaced(log)
    requires forall k :: 0 <= k < |log| ==> log[k].startAt <= log[k].endAt
    ensures i <= j && log[i].verdict.Counted? && NoSuccess(log, i, j) && Streak(log[..i + 1]) == 1
    ensures log[j].endAt >= log[i].endAt + 1000 * BackoffTotal(Streak(log[..j + 1]) - 1)
    decreases j
  {
    assert log[..j + 1][..j] == log[..j];
    var p := LastThatMattered(log, j);
    if p == 0 || log[p - 1].verdict.Granted? {
      assert p > 0 ==> log[..p][|log[..p]| - 1] == log[p - 1];
      i := j;
    } else {
      i := RejectionsTakeTime(log, p - 1);
      assert Paced(log, p - 1, j);
      assert log[..p - 1 + 1] == log[..p];
      StreakPositive(log[..p]);
    }
  }

  lemma StreakPositive(log: seq<Attempt>)
    requires log != [] && log[|log| - 1].verdict.Counted?
    ensures Streak(log) >= 1
  {
  }

  /** Pacing of every run from a fresh client, with the total time its rejections must have taken. */
  lemma RunsFromStartArePaced(w: World, events: seq<Event>, j: nat) returns (i: nat)
    requires Init(w) && Runs(w, events)
    requires var log := End(w, events).log; j < |log| && log[j].verdict.Counted?
    ensures var log := End(w, events).log;
            && AllPaced(log)
            && i <= j && NoSuccess(log, i, j) && Streak(log[..i + 1]) == 1
            && Streak(log[..j + 1]) >= 1
            && log[j].endAt >= log[i].endAt + 1000 * BackoffTotal(Streak(log[..j + 1]) - 1)
  {
    EveryRunIsPaced(w, events);
    var log := End(w, events).log;
    i := RejectionsTakeTime(log, j);
    assert log[..j + 1][j] == log[j];
    StreakPositive(log[..j + 1]);
  }

  // ---- Who is let through, and what a call leaves ----

  /** A call asks the server exactly when it is admitted; one that is not changes nothing, and succeeds exactly with a
      valid token. */
  lemma CallsAskIff(a: Auth, c: Call)
    ensures Attempts(a, c) != [] <==> Admitted(a, c)
    ensures Admitted(a, c) ==>
              && Attempts(a, c)[0].startAt == c.at && Attempts(a, c)[0].isLogin == !a.haveRefresh
              && forall i :: 0 <= i < |Attempts(a, c)| ==> Attempts(a, c)[i].short == c.short
    ensures !Admitted(a, c) ==> Ensure(a, c) == a && (Succeeds(a, c) <==> TokenValid(a, c.at))
  {
  }

  /** A login's answer: a token for 240 s and a clean slate; or, for a 400, 401, 403 or 429, one more rejection and
      twice the wait, half an hour at most; or a cooldown from its end, for the next 30 s. */
  lemma LoginLeaves(a: Auth, c: Call)
    ensures var after := AfterLogin(a, c);
            && (c.login.ok ==>
                  && after.tokenUntil == Some(c.login.endAt + 240000) && after.failures == 0
                  && after.cooldownAt.None? && after.backoffUntil == a.backoffUntil
                  && (c.login.newRefresh.Some? ==> after.haveRefresh == c.login.newRefresh.value)
                  && (c.login.newRefresh.None? ==> after.haveRefresh == a.haveRefresh))
            && (!c.login.ok && c.login.status in {400, 401, 403, 429} ==>
                  after == a.(failures := a.failures + 1,
                              backoffUntil := c.login.endAt + 1000 * Min(1800, 30 * Pow2(a.failures))))
            && (!c.login.ok && c.login.status !in {400, 401, 403, 429} ==>
                  after == a.(cooldownAt := Some(c.login.endAt), armedByShort := c.short))
  {
    BackoffIsCappedDoubling(a.failures + 1);
  }

  /** A call that is let through: a granted refresh ends it with a token for 240 s; no answer or a 5xx to the refresh
      ends it with a cooldown; after anything else, or without a refresh token, the login decides, and a 401 or 403 has
      dropped the refresh token first. */
  lemma AdmittedCallLeaves(a: Auth, c: Call)
    requires Attempts(a, c) != []
    ensures var outage := c.refresh.status == 0 || 500 <= c.refresh.status <= 599;
            var rejected := c.refresh.status == 401 || c.refresh.status == 403;
            && (a.haveRefresh && c.refresh.ok ==>
                  && Ensure(a, c) == a.(tokenUntil := Some(c.refresh.endAt + 240000), failures := 0)
                  && Succeeds(a, c) && |Attempts(a, c)| == 1)
            && (a.haveRefresh && !c.refresh.ok && outage ==>
                  && Ensure(a, c) == a.(cooldownAt := Some(c.refresh.endAt), armedByShort := c.short)
                  && !Succeeds(a, c) && |Attempts(a, c)| == 1)
            && (a.haveRefresh && !c.refresh.ok && !outage ==>
                  && Ensure(a, c) == AfterLogin(if rejected then a.(haveRefresh := false) else a, c)
                  && (Succeeds(a, c) <==> c.login.ok) && |Attempts(a, c)| == 2 && Attempts(a, c)[1].isLogin)
            && (!a.haveRefresh ==>
                  Ensure(a, c) == AfterLogin(a, c) && (Succeeds(a, c) <==> c.login.ok) && |Attempts(a, c)| == 1)
  {
    SucceedsMeans(a, c);
  }

  /** With a token until `until` and no 401 in between, every call before then succeeds and asks nothing. */
  lemma {:induction false} TokenLasts(w: World, events: seq<Event>, until: int)
    requires Runs(w, events) && w.auth.tokenUntil == Some(until)
    requires forall i :: 0 <= i < |events| ==>
               !events[i].Invalidated? && (events[i].Ensured? ==> events[i].call.at < until)
    ensures End(w, events).auth == w.auth && End(w, events).log == w.log
    ensures forall c: Call :: c.at < until ==> Succeeds(w.auth, c)
    decreases |events|
  {
    if events != [] {
      assert w.log + [] == w.log;
      TokenLasts(Apply(w, events[0]), events[1..], until);
    }
  }

  /** After the startup check found the server unresponsive, a client without a token leaves it alone for 30 s, every
      thread of it; one with a token is not touched. */
  lemma DeferralHoldsEveryoneOff(w: World, at: int, c: Call)
    requires at <= c.at
    ensures w.auth.tokenUntil.None? && c.at < at + 30000 ==>
              Attempts(Apply(w, Deferred(at)).auth, c) == [] && !Succeeds(Apply(w, Deferred(at)).auth, c)
    ensures w.auth.tokenUntil.Some? ==> Apply(w, Deferred(at)).auth == w.auth
  {
  }

  /** A token the server turned down is used by no later call. */
  lemma TurnedDownTokenIsNotUsed(w: World, c: Call)
    requires 0 <= c.at
    ensures var after := Apply(w, Invalidated);
            && after == w.(auth := w.auth.(tokenUntil := after.auth.tokenUntil))
            && (Succeeds(after.auth, c) ==> Attempts(after.auth, c) != [])
  {
  }

  // ---- The gates turn nobody away without a reason in the log ----

  /** The backoff in force is the last counted rejection's. */
  ghost predicate BackoffFrom(a: Auth, log: seq<Attempt>, i: int) {
    && 0 <= i < |log| && log[i].verdict.Counted? && (forall k :: i < k < |log| ==> !log[k].verdict.Granted?)
    && a.backoffUntil == log[i].endAt + 1000 * BackoffSeconds(Streak(log[..i + 1]))
  }

  /** The cooldown in force is the last outage's. */
  ghost predicate CooldownFrom(a: Auth, log: seq<Attempt>, i: int) {
    && 0 <= i < |log| && log[i].verdict.Cooling?
    && (forall k :: i < k < |log| ==> !(log[k].isLogin && log[k].verdict.Granted?))
    && a.cooldownAt == Some(log[i].endAt) && a.armedByShort == log[i].short
  }

  ghost predicate Traced(a: Auth, log: seq<Attempt>) {
    && a.failures == Streak(log)
    && (a.failures > 0 ==> exists i :: BackoffFrom(a, log, i))
    && (a.cooldownAt.Some? ==> exists i :: CooldownFrom(a, log, i))
  }

  lemma BackoffStays(a: Auth, a': Auth, log: seq<Attempt>, x: Attempt, i: int)
    requires BackoffFrom(a, log, i) && !x.verdict.Granted? && a'.backoffUntil == a.backoffUntil
    ensures BackoffFrom(a', log + [x], i)
  {
    assert (log + [x])[..i + 1] == log[..i + 1];
  }

  lemma CooldownStays(a: Auth, a': Auth, log: seq<Attempt>, x: Attempt, i: int)
    requires CooldownFrom(a, log, i) && !(x.isLogin && x.verdict.Granted?)
    requires a'.cooldownAt == a.cooldownAt && a'.armedByShort == a.armedByShort
    ensures CooldownFrom(a', log + [x], i)
  {
  }

  /** What each answer does to the fields the gates look at. */
  predicate AnswerLeaves(a: Auth, x: Attempt, a': Auth) {
    match x.verdict
    case Granted => a'.failures == 0 &&
      (if x.isLogin then a'.cooldownAt.None? else a'.cooldownAt == a.cooldownAt && a'.armedByShort == a.armedByShort)
    case Counted => && a'.failures == a.failures + 1 && a'.backoffUntil == x.endAt + 1000 * BackoffSeconds(a'.failures)
                    && a'.cooldownAt == a.cooldownAt && a'.armedByShort == a.armedByShort
    case Cooling => && a'.failures == a.failures && a'.backoffUntil == a.backoffUntil
                    && a'.cooldownAt == Some(x.endAt) && a'.armedByShort == x.short
    case Passed => a'.(haveRefresh := a.haveRefresh) == a
  }

  lemma RequestKeepsTrace(a: Auth, log: seq<Attempt>, x: Attempt, a': Auth)
    requires Traced(a, log) && AnswerLeaves(a, x, a')
    ensures Traced(a', log + [x])
  {
    var log' := log + [x];
    assert log'[..|log|] == log && log'[..|log| + 1] == log';
    if a'.failures > 0 {
      if x.verdict.Counted? {
        assert BackoffFrom(a', log', |log|);
      } else {
        var i :| BackoffFrom(a, log, i);
        BackoffStays(a, a', log, x, i);
      }
    }
    if a'.cooldownAt.Some? {
      if x.verdict.Cooling? {
        assert CooldownFrom(a', log', |log|);
      } else {
        var i :| CooldownFrom(a, log, i);
        CooldownStays(a, a', log, x, i);
      }
    }
  }

  lemma AttemptsLeave(a: Auth, c: Call)
    ensures var made := Attempts(a, c);
            && |made| <= 2
            && (|made| == 1 ==> AnswerLeaves(a, made[0], Ensure(a, c)))
            && (|made| == 2 ==>
                  AnswerLeaves(a, made[0], AfterRefresh(a, c)) &&
                  AnswerLeaves(AfterRefresh(a, c), made[1], Ensure(a, c)))
            && (made == [] ==> Ensure(a, c) == a)
  {
  }

  lemma CallKeepsTrace(a: Auth, log: seq<Attempt>, c: Call)
    requires Traced(a, log)
    ensures Traced(Ensure(a, c), log + Attempts(a, c))
  {
    var made := Attempts(a, c);
    AttemptsLeave(a, c);
    if |made| == 0 {
      assert log + made == log;
    } else if |made| == 1 {
      assert made == [made[0]];
      RequestKeepsTrace(a, log, made[0], Ensure(a, c));
    } else {
      RequestKeepsTrace(a, log, made[0], AfterRefresh(a, c));
      RequestKeepsTrace(AfterRefresh(a, c), log + [made[0]], made[1], Ensure(a, c));
      assert log + [made[0]] + [made[1]] == log + made;
    }
  }

  lemma {:induction false} RunKeepsTrace(w: World, events: seq<Event>)
    requires Traced(w.auth, w.log) && Runs(w, events) && forall i :: 0 <= i < |events| ==> !events[i].Deferred?
    ensures Traced(End(w, events).auth, End(w, events).log)
    decreases |events|
  {
    if events != [] {
      var next := Apply(w, events[0]);
      assert Traced(next.auth, next.log) by {
        if events[0].Ensured? { CallKeepsTrace(w.auth, w.log, events[0].call); } else { InvalidationKeepsTrace(w); }
      }
      RunKeepsTrace(next, events[1..]);
    }
  }

  lemma InvalidationKeepsTrace(w: World)
    requires Traced(w.auth, w.log)
    ensures Traced(Apply(w, Invalidated).auth, w.log)
  {
    var a, a' := w.auth, Apply(w, Invalidated).auth;
    if a.failures > 0 {
      var i :| BackoffFrom(a, w.log, i);
      assert BackoffFrom(a', w.log, i);
    }
    if a.cooldownAt.Some? {
      var i :| CooldownFrom(a, w.log, i);
      assert CooldownFrom(a', w.log, i);
    }
  }

  /**
   In every run of all threads from a fresh client (the startup deferral aside), a call without a valid token asks the
   server if and only if that respects the backoff and the cooldown of every attempt in the log: the gates neither let
   a call through too early nor hold one back without a reason.
   */
  lemma AdmittedExactlyWhenPaced(w: World, events: seq<Event>, c: Call)
    requires Init(w) && Runs(w, events) && forall i :: 0 <= i < |events| ==> !events[i].Deferred?
    requires var e := End(w, events);
             e.clock <= c.at && !TokenValid(e.auth, c.at)
    ensures var e := End(w, events);
            Attempts(e.auth, c) != [] <==> forall i :: 0 <= i < |e.log| ==> Due(e.log, i, c.at, c.short)
  {
    EveryRunIsPaced(w, events);
    RunKeepsTrace(w, events);
    var e := End(w, events);
    CallsAskIff(e.auth, c);
    if Attempts(e.auth, c) != [] { assert Passes(e.auth, c.at, c.short); }
    if forall i :: 0 <= i < |e.log| ==> Due(e.log, i, c.at, c.short) {
      if e.auth.failures > 0 {
        var i :| BackoffFrom(e.auth, e.log, i);
        assert Due(e.log, i, c.at, c.short);
      }
      if e.auth.cooldownAt.Some? {
        var i :| CooldownFrom(e.auth, e.log, i);
        assert Due(e.log, i, c.at, c.short);
      }
    }
  }
}
