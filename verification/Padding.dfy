/**
 The DVR padding push protocol (src/PaddingPush.h).

 Every user edit is pushed by its own detached thread; pushes land, fail, fail after landing or
 throw, in any order, while a background retry pushes what was parked. The bookkeeping is the class
 `PendingPaddingPush`; `World` is the whole system, one step per critical section of the push mutex
 and one for a request being sent, landing or throwing.
 */
module Padding {
  import opened Common

  datatype Edit = Edit(value: int, number: nat)

  /** One side (pre or post): what is parked for the retry, and the newest edit made. */
  datatype SideState = SideState(parked: Option<Edit>, newest: Option<Edit>)

  datatype State = State(pre: SideState, post: SideState, nextSeq: nat, retries: nat, inFlight: nat)
  {
    function On(isPre: bool): SideState { if isPre then pre else post }

    function Put(isPre: bool, s: SideState): State {
      if isPre then this.(pre := s) else this.(post := s)
    }

    predicate HasPending() { pre.parked.Some? || post.parked.Some? }
  }

  const Fresh := State(SideState(None, None), SideState(None, None), 0, 0, 0)

  function Begin(s: State, isPre: bool, value: int): State {
    s.Put(isPre, s.On(isPre).(newest := Some(Edit(value, s.nextSeq + 1))))
     .(nextSeq := s.nextSeq + 1, inFlight := s.inFlight + 1)
  }

  function ParkNewest(s: State, isPre: bool): State {
    var t := s.On(isPre);
    match t.newest
    case None => s
    case Some(n) =>
      var notYet := t.parked.None? || t.parked.value.number != n.number;
      s.Put(isPre, t.(parked := Some(n))).(retries := if notYet then 0 else s.retries)
  }

  function ApplyDirect(s: State, isPre: bool, e: Edit, ok: bool): State {
    var t := s.On(isPre);
    var newest := if t.newest.None? || t.newest.value.number < e.number then e else t.newest.value;
    var s1 := s.(inFlight := if s.inFlight > 0 then s.inFlight - 1 else 0)
               .Put(isPre, t.(newest := Some(newest)));
    if ok && e.number == newest.number then
      if t.parked.Some? && t.parked.value.number <= e.number
      then s1.Put(isPre, SideState(None, Some(newest)))
      else s1
    else
      ParkNewest(s1, isPre)
  }

  function Settle(s: State, isPre: bool, sent: Option<Edit>, succeeded: bool): State {
    match sent
    case None => s
    case Some(e) =>
      var t := s.On(isPre);
      var sentIsNewest := t.newest.None? || t.newest.value.number == e.number;
      if succeeded && sentIsNewest then
        if t.parked.Some? && t.parked.value.number == e.number then s.Put(isPre, t.(parked := None)) else s
      else if !sentIsNewest then ParkNewest(s, isPre)
      else s
  }

  datatype RetryOutcome = Sent | RetryLater | GaveUp

  function SettleBoth(s: State, sentPre: Option<Edit>, sentPost: Option<Edit>, ok: bool): State {
    Settle(Settle(s, true, sentPre, ok), false, sentPost, ok)
  }

  function ApplyRetry(s: State, sentPre: Option<Edit>, sentPost: Option<Edit>, ok: bool, maxRetries: int)
    : (State, RetryOutcome)
  {
    var s1 := SettleBoth(s, sentPre, sentPost, ok);
    if ok then (s1.(retries := 0), Sent)
    else if s1.retries + 1 >= maxRetries then
      (s1.(pre := s1.pre.(parked := None), post := s1.post.(parked := None), retries := 0), GaveUp)
    else (s1.(retries := s1.retries + 1), RetryLater)
  }

  predicate SafeToSync(s: State, nextSeqAtStart: nat) {
    !s.HasPending() && s.inFlight == 0 && s.nextSeq == nextSeqAtStart
  }

  /** The struct as the source keeps it, updated in place. */
  class PendingPaddingPush {
    var pre: Option<int>
    var post: Option<int>
    var preSeq: nat
    var postSeq: nat
    var preNewest: Option<Edit>
    var postNewest: Option<Edit>
    var nextSeq: nat
    var retries: nat
    var inFlightEdits: nat

    function View(): State
      reads this
    {
      State(SideState(if pre.Some? then Some(Edit(pre.value, preSeq)) else None, preNewest),
            SideState(if post.Some? then Some(Edit(post.value, postSeq)) else None, postNewest),
            nextSeq, retries, inFlightEdits)
    }

    constructor ()
      ensures View() == Fresh
    {
      pre, post, preSeq, postSeq, preNewest, postNewest := None, None, 0, 0, None, None;
      nextSeq, retries, inFlightEdits := 0, 0, 0;
    }

    method BeginPaddingEdit(isPre: bool, value: int) returns (number: nat)
      modifies this
      ensures View() == Begin(old(View()), isPre, value)
      ensures View().On(isPre).newest == Some(Edit(value, number)) && number == nextSeq
    {
      nextSeq := nextSeq + 1;
      if isPre { preNewest := Some(Edit(value, nextSeq)); } else { postNewest := Some(Edit(value, nextSeq)); }
      inFlightEdits := inFlightEdits + 1;
      number := nextSeq;
    }

    method ParkNewestPaddingEdit(isPre: bool)
      modifies this
      ensures View() == ParkNewest(old(View()), isPre)
    {
      var newest := if isPre then preNewest else postNewest;
      if newest.None? { return; }
      var side := if isPre then pre else post;
      var sideSeq := if isPre then preSeq else postSeq;
      if side.None? || sideSeq != newest.value.number { retries := 0; }
      if isPre {
        pre, preSeq := Some(newest.value.value), newest.value.number;
      } else {
        post, postSeq := Some(newest.value.value), newest.value.number;
      }
    }

    method ApplyDirectPaddingPushResult(isPre: bool, value: int, number: nat, ok: bool)
      modifies this
      ensures View() == ApplyDirect(old(View()), isPre, Edit(value, number), ok)
    {
      if inFlightEdits > 0 { inFlightEdits := inFlightEdits - 1; }
      var newest := if isPre then preNewest else postNewest;
      if newest.None? || newest.value.number < number {
        newest := Some(Edit(value, number));
        if isPre { preNewest := newest; } else { postNewest := newest; }
      }
      if ok && number == newest.value.number {
        if isPre {
          if pre.Some? && preSeq <= number { pre := None; }
        } else {
          if post.Some? && postSeq <= number { post := None; }
        }
        return;
      }
      ParkNewestPaddingEdit(isPre);
    }

    method SettleSide(isPre: bool, sent: Option<Edit>, succeeded: bool)
      modifies this
      ensures View() == Settle(old(View()), isPre, sent, succeeded)
    {
      if sent.None? { return; }
      var newest := if isPre then preNewest else postNewest;
      var sentIsNewest := newest.None? || newest.value.number == sent.value.number;
      if succeeded && sentIsNewest {
        if isPre {
          if pre.Some? && preSeq == sent.value.number { pre := None; }
        } else {
          if post.Some? && postSeq == sent.value.number { post := None; }
        }
        return;
      }
      if !sentIsNewest { ParkNewestPaddingEdit(isPre); }
    }

    method ApplyPaddingRetryResult(sentPre: Option<Edit>, sentPost: Option<Edit>, ok: bool, maxRetries: int)
      returns (outcome: RetryOutcome)
      modifies this
      ensures (View(), outcome) == ApplyRetry(old(View()), sentPre, sentPost, ok, maxRetries)
    {
      SettleSide(true, sentPre, ok);
      SettleSide(false, sentPost, ok);
      if ok {
        retries := 0;
        return Sent;
      }
      retries := retries + 1;
      if retries >= maxRetries {
        pre, post, retries := None, None, 0;
        return GaveUp;
      }
      return RetryLater;
    }
  }

  // ---- The whole system ----

  datatype Push = Push(isPre: bool, edit: Edit)

  /** The request that holds the client's settings mutex: one direct push, or a retry of what was parked. */
  datatype Request = Direct(push: Push) | Resend(pre: Option<Edit>, post: Option<Edit>)
  {
    function On(isPre: bool): Option<Edit> {
      match this
      case Direct(p) => if p.isPre == isPre then Some(p.edit) else None
      case Resend(a, b) => if isPre then a else b
    }
  }

  /**
   What the rest of the world knows of one side: the server's value, whether a give-up discarded the
   newest edit, and how many failed retries carried the edit that is parked now.
   */
  datatype Side = Side(server: int, dropped: bool, carried: nat)

  /**
   `queued` are direct pushes begun and not answered; `thrown` are pushes whose request raised an
   exception, so the settings mutex was released before their failure is reported
   (src/PVRDispatcharr.cpp:1283-1292). `busy` is the request under way and `landed` whether the
   server has taken it; edits and reports of thrown pushes need only the push mutex, so they come
   in between.
   */
  datatype World = World(client: State, pre: Side, post: Side, queued: set<Push>, thrown: set<Push>,
                         busy: Option<Request>, landed: bool, begun: nat, answered: nat)
  {
    function On(isPre: bool): Side { if isPre then pre else post }

    function Put(isPre: bool, s: Side): World { if isPre then this.(pre := s) else this.(post := s) }

    function Flight(): set<Push> { queued + thrown }

    /** What the request under way carries for a side. */
    function Carries(isPre: bool): Option<Edit> { if busy.Some? then busy.value.On(isPre) else None }
  }

  datatype Step =
    | EditMade(isPre: bool, value: int)
    | PushSent(push: Push)
    | RetrySent
    | RequestLanded
    | Answered(ok: bool)
    | RequestThrew
    | ThrownReported(push: Push)

  predicate Enabled(w: World, s: Step) {
    match s
    case EditMade(_, _) => true
    case PushSent(p) => w.busy.None? && p in w.queued
    case RetrySent => w.busy.None? && w.client.HasPending()
    case RequestLanded => w.busy.Some?
    case Answered(ok) => w.busy.Some? && (ok ==> w.landed)
    case RequestThrew => w.busy.Some?
    case ThrownReported(p) => p in w.thrown
  }

  /** The server's value of a side after a request that carried `sent` for it landed. */
  function Landed(server: int, sent: Option<Edit>): int {
    if sent.Some? then sent.value.value else server
  }

  /** A direct push's result arriving: the failed retries so far count only for an edit that stays parked. */
  function Report(w: World, p: Push, ok: bool): World {
    var c := ApplyDirect(w.client, p.isPre, p.edit, ok);
    var side := w.On(p.isPre);
    var kept := c.On(p.isPre).parked == w.client.On(p.isPre).parked;
    w.(client := c, answered := w.answered + 1, queued := w.queued - {p}, thrown := w.thrown - {p})
     .Put(p.isPre, side.(carried := if kept then side.carried else 0))
  }

  /** A side after a retry that carried `sent` was answered and left `settled` before any give-up. */
  function AfterRetry(side: Side, sent: Option<Edit>, before: SideState, settled: SideState, outcome: RetryOutcome)
    : Side
  {
    var dropsNewest := outcome.GaveUp? && settled.parked.Some? && settled.parked == settled.newest;
    Side(side.server, side.dropped || dropsNewest,
         if settled.parked != before.parked then 0
         else if settled.parked == sent then side.carried + 1
         else side.carried)
  }

  function RetryAnswered(w: World, sentPre: Option<Edit>, sentPost: Option<Edit>, ok: bool, maxRetries: int): World {
    var c := w.client;
    var settled := SettleBoth(c, sentPre, sentPost, ok);
    var r := ApplyRetry(c, sentPre, sentPost, ok, maxRetries);
    w.(client := r.0, pre := AfterRetry(w.pre, sentPre, c.pre, settled.pre, r.1),
       post := AfterRetry(w.post, sentPost, c.post, settled.post, r.1), busy := None)
  }

  function Apply(w: World, s: Step, maxRetries: int): World
    requires Enabled(w, s)
  {
    match s
    case EditMade(isPre, value) =>
      w.(client := Begin(w.client, isPre, value),
         queued := w.queued + {Push(isPre, Edit(value, w.client.nextSeq + 1))}, begun := w.begun + 1)
       .Put(isPre, w.On(isPre).(dropped := false))
    case PushSent(p) => w.(busy := Some(Direct(p)), landed := false)
    case RetrySent => w.(busy := Some(Resend(w.client.pre.parked, w.client.post.parked)), landed := false)
    case RequestLanded =>
      w.(landed := true, pre := w.pre.(server := Landed(w.pre.server, w.Carries(true))),
         post := w.post.(server := Landed(w.post.server, w.Carries(false))))
    case Answered(ok) =>
      (match w.busy.value
       case Direct(p) => Report(w, p, ok).(busy := None)
       case Resend(pre, post) => RetryAnswered(w, pre, post, ok, maxRetries))
    case RequestThrew =>
      (match w.busy.value
       case Direct(p) => w.(queued := w.queued - {p}, thrown := w.thrown + {p}, busy := None)
       case Resend(_, _) => w.(busy := None))
    case ThrownReported(p) => Report(w, p, false)
  }

  ghost predicate Runs(w: World, steps: seq<Step>, maxRetries: int)
    decreases |steps|
  {
    steps == [] || (Enabled(w, steps[0]) && Runs(Apply(w, steps[0], maxRetries), steps[1..], maxRetries))
  }

  ghost function End(w: World, steps: seq<Step>, maxRetries: int): World
    requires Runs(w, steps, maxRetries)
    decreases |steps|
  {
    if steps == [] then w else End(Apply(w, steps[0], maxRetries), steps[1..], maxRetries)
  }

  ghost predicate Init(w: World) {
    && w.client == Fresh && w.queued == w.thrown == {} && w.busy == None && w.begun == w.answered == 0
    && !w.pre.dropped && !w.post.dropped && w.pre.carried == w.post.carried == 0
  }

  // ---- The invariant ----

  ghost predicate SomeThrown(w: World, isPre: bool) {
    exists p :: p in w.thrown && p.isPre == isPre
  }

  /** A direct push of this side is under way, so its result is still to be applied. */
  ghost predicate Pushing(w: World, isPre: bool) {
    w.busy.Some? && w.busy.value.Direct? && w.busy.value.push.isPre == isPre
  }

  /** The pushes and the parked edit of a side, against its newest edit. */
  ghost predicate Ordered(w: World, isPre: bool) {
    var t := w.client.On(isPre);
    match t.newest
    case None => t.parked.None? && forall p :: p in w.Flight() ==> p.isPre != isPre
    case Some(n) =>
      && n.number <= w.client.nextSeq
      && (forall p :: p in w.Flight() && p.isPre == isPre ==> p.edit.number < n.number || p.edit == n)
      && (t.parked.Some? ==>
            t.parked.value == n || (t.parked.value.number < n.number && Push(isPre, n) in w.Flight()))
  }

  /** Why the server holds the newest edit's value, or will be made to. */
  ghost predicate Covered(w: World, isPre: bool) {
    var t := w.client.On(isPre);
    t.newest.Some? ==>
      || t.parked == t.newest
      || Push(isPre, t.newest.value) in w.Flight()
      || SomeThrown(w, isPre) || Pushing(w, isPre)
      || w.On(isPre).server == t.newest.value.value
      || w.On(isPre).dropped
  }

  /**
   The request under way, against one side: once it has landed the server holds what it carried, a
   direct push is still unanswered, and an edit a retry carried stays parked unless a newer one took
   its place, which restarted the retry count.
   */
  ghost predicate UnderWay(w: World, isPre: bool) {
    var t, sent := w.client.On(isPre), w.Carries(isPre);
    && (w.landed && sent.Some? ==> w.On(isPre).server == sent.value.value)
    && (Pushing(w, isPre) ==> w.busy.value.push in w.queued)
    && (w.busy.Some? && w.busy.value.Resend? ==> Resending(t, sent, w.client.retries, w.On(isPre).carried))
  }

  ghost predicate Resending(t: SideState, sent: Option<Edit>, retries: nat, carried: nat) {
    && (sent.Some? ==>
          && t.newest.Some? && t.parked.Some? && (sent == t.newest ==> t.parked == sent)
          && (sent == t.newest || sent.value.number < t.newest.value.number))
    && (t.parked.Some? && t.parked != sent ==> retries <= carried)
  }

  /** As many failed retries carried the parked edit as are counted, but for the one it was parked in. */
  ghost predicate Carried(w: World, isPre: bool) {
    w.client.On(isPre).parked.Some? ==> w.client.retries <= w.On(isPre).carried + 1
  }

  ghost predicate SideInv(w: World, isPre: bool) {
    Ordered(w, isPre) && Covered(w, isPre) && UnderWay(w, isPre) && Carried(w, isPre)
  }

  ghost predicate Counts(w: World) {
    && w.queued !! w.thrown
    && (forall p :: p in w.Flight() ==> p.edit.number <= w.client.nextSeq)
    && w.client.inFlight == |w.Flight()| == w.begun - w.answered
  }

  ghost predicate Inv(w: World) {
    Counts(w) && SideInv(w, true) && SideInv(w, false)
  }

  /** A direct result touches one side and the counter, never the numbering. */
  lemma DirectFrame(s: State, isPre: bool, e: Edit, ok: bool)
    ensures var r := ApplyDirect(s, isPre, e, ok);
            && r.nextSeq == s.nextSeq && r.On(!isPre) == s.On(!isPre)
            && r.inFlight == (if s.inFlight > 0 then s.inFlight - 1 else 0) && r.retries <= s.retries
  {
  }

  /** What settling a retry leaves on one side, and that parking anything anew restarts the retry count. */
  lemma SettleBothOnSide(c: State, sentPre: Option<Edit>, sentPost: Option<Edit>, ok: bool, isPre: bool)
    ensures var r := SettleBoth(c, sentPre, sentPost, ok);
            var t, u, sent := c.On(isPre), r.On(isPre), if isPre then sentPre else sentPost;
            && r.nextSeq == c.nextSeq && r.inFlight == c.inFlight && r.retries <= c.retries
            && u.newest == t.newest
            && (sent.None? ==> u == t)
            && (sent.Some? && t.newest.Some? && t.parked.Some? ==>
                  u.parked == (if sent.value.number != t.newest.value.number then t.newest
                               else if ok && t.parked.value.number == sent.value.number then None
                               else t.parked))
            && (u.parked.Some? && (t.parked.None? || u.parked.value.number != t.parked.value.number) ==> r.retries == 0)
  {
    var mid := Settle(c, true, sentPre, ok);
    assert mid.post == c.post && mid.nextSeq == c.nextSeq && mid.inFlight == c.inFlight && mid.retries <= c.retries;
  }

  /** What a retry leaves of one side, by how it ended. */
  lemma RetryOnSide(c: State, sentPre: Option<Edit>, sentPost: Option<Edit>, ok: bool, maxRetries: int, isPre: bool)
    ensures var settled := SettleBoth(c, sentPre, sentPost, ok);
            var (r, outcome) := ApplyRetry(c, sentPre, sentPost, ok, maxRetries);
            && r.nextSeq == c.nextSeq && r.inFlight == c.inFlight && r.On(isPre).newest == c.On(isPre).newest
            && (ok ==> outcome.Sent? && r.retries == 0)
            && (!ok ==> if settled.retries + 1 >= maxRetries then outcome.GaveUp? && r.retries == 0
                        else outcome.RetryLater? && r.retries == settled.retries + 1)
            && r.On(isPre).parked == if outcome.GaveUp? then None else settled.On(isPre).parked
  {
    SettleBothOnSide(c, sentPre, sentPost, ok, isPre);
  }

  // ---- Every step keeps the counts ----

  /** What an edit does to the counters and the pushes under way. */
  lemma EditFrame(w: World, isPre: bool, value: int)
    ensures var w' := Apply(w, EditMade(isPre, value), 0);
            && w'.queued == w.queued + {Push(isPre, Edit(value, w.client.nextSeq + 1))} && w'.thrown == w.thrown
            && w'.client.nextSeq == w.client.nextSeq + 1 && w'.client.inFlight == w.client.inFlight + 1
            && w'.begun == w.begun + 1 && w'.answered == w.answered
  {
  }

  lemma OneMore(w: World, w': World, p: Push)
    requires Counts(w) && p.edit.number == w.client.nextSeq + 1
    requires w'.queued == w.queued + {p} && w'.thrown == w.thrown
    requires w'.client.nextSeq == w.client.nextSeq + 1 && w'.client.inFlight == w.client.inFlight + 1
    requires w'.begun == w.begun + 1 && w'.answered == w.answered
    ensures Counts(w')
  {
    assert p !in w.Flight();
    assert w'.Flight() == w.Flight() + {p};
  }

  lemma EditKeepsCounts(w: World, isPre: bool, value: int)
    requires Counts(w)
    ensures Counts(Apply(w, EditMade(isPre, value), 0))
  {
    EditFrame(w, isPre, value);
    OneMore(w, Apply(w, EditMade(isPre, value), 0), Push(isPre, Edit(value, w.client.nextSeq + 1)));
  }

  lemma ReportKeepsCounts(w: World, p: Push, ok: bool)
    requires Counts(w) && p in w.Flight()
    ensures Counts(Report(w, p, ok))
  {
    DirectFrame(w.client, p.isPre, p.edit, ok);
    assert Report(w, p, ok).Flight() == w.Flight() - {p};
  }

  lemma RetryKeepsCounts(w: World, sentPre: Option<Edit>, sentPost: Option<Edit>, ok: bool, maxRetries: int)
    requires Counts(w)
    ensures Counts(RetryAnswered(w, sentPre, sentPost, ok, maxRetries))
  {
    RetryOnSide(w.client, sentPre, sentPost, ok, maxRetries, true);
    assert RetryAnswered(w, sentPre, sentPost, ok, maxRetries).Flight() == w.Flight();
  }

  lemma AnswerKeepsCounts(w: World, ok: bool, maxRetries: int)
    requires Inv(w) && Enabled(w, Answered(ok))
    ensures Counts(Apply(w, Answered(ok), maxRetries))
  {
    match w.busy.value
    case Direct(p) =>
      assert Pushing(w, p.isPre);
      ReportKeepsCounts(w, p, ok);
      assert Apply(w, Answered(ok), maxRetries).Flight() == Report(w, p, ok).Flight();
    case Resend(pre, post) => RetryKeepsCounts(w, pre, post, ok, maxRetries);
  }

  lemma ThrowKeepsFlight(w: World)
    requires Inv(w) && w.busy.Some?
    ensures Apply(w, RequestThrew, 0).Flight() == w.Flight()
  {
    if w.busy.value.Direct? { assert Pushing(w, w.busy.value.push.isPre); }
  }

  lemma StepKeepsCounts(w: World, s: Step, maxRetries: int)
    requires Inv(w) && Enabled(w, s)
    ensures Counts(Apply(w, s, maxRetries))
  {
    match s
    case EditMade(isPre, value) => EditKeepsCounts(w, isPre, value);
    case Answered(ok) => AnswerKeepsCounts(w, ok, maxRetries);
    case ThrownReported(p) => ReportKeepsCounts(w, p, false);
    case RequestThrew => ThrowKeepsFlight(w);
    case _ => assert Apply(w, s, maxRetries).Flight() == w.Flight();
  }

  // ---- Every step keeps each side ----

  lemma EditKeepsOwnSide(w: World, isPre: bool, value: int)
    requires Counts(w) && SideInv(w, isPre)
    ensures SideInv(Apply(w, EditMade(isPre, value), 0), isPre)
  {
    var w' := Apply(w, EditMade(isPre, value), 0);
    var n := w'.client.On(isPre).newest;
    assert w'.client.On(isPre).parked == w.client.On(isPre).parked && n == Some(Edit(value, w.client.nextSeq + 1));
    assert Push(isPre, n.value) in w'.Flight();
    assert forall p :: p in w'.Flight() ==> p in w.Flight() || p == Push(isPre, n.value);
    assert Ordered(w', isPre);
    assert w'.busy == w.busy && w'.On(isPre) == w.On(isPre).(dropped := false);
  }

  lemma EditKeepsOtherSide(w: World, isPre: bool, value: int)
    requires SideInv(w, !isPre)
    ensures SideInv(Apply(w, EditMade(isPre, value), 0), !isPre)
  {
    var w' := Apply(w, EditMade(isPre, value), 0);
    assert w'.client.On(!isPre) == w.client.On(!isPre) && w'.On(!isPre) == w.On(!isPre);
    assert forall p :: p in w'.Flight() && p.isPre == !isPre ==> p in w.Flight();
    assert forall p :: p in w.Flight() ==> p in w'.Flight();
    assert Ordered(w', !isPre);
    assert w'.thrown == w.thrown && w'.busy == w.busy;
  }

  lemma EditKeepsSide(w: World, isPre: bool, value: int, side: bool)
    requires Inv(w)
    ensures SideInv(Apply(w, EditMade(isPre, value), 0), side)
  {
    if side == isPre { EditKeepsOwnSide(w, isPre, value); } else { EditKeepsOtherSide(w, isPre, value); }
  }

  /** A request starting: nothing but the mutex has changed, and a retry carries what is parked. */
  lemma SendKeepsSide(w: World, s: Step, side: bool)
    requires Inv(w) && (s.PushSent? || s.RetrySent?) && Enabled(w, s)
    ensures SideInv(Apply(w, s, 0), side)
  {
    var w' := Apply(w, s, 0);
    assert w'.Flight() == w.Flight() && w'.thrown == w.thrown && w'.On(side) == w.On(side);
    if s.RetrySent? { assert w'.Carries(side) == w.client.On(side).parked; }
  }

  lemma LandingKeepsSide(w: World, side: bool)
    requires Inv(w) && w.busy.Some?
    ensures SideInv(Apply(w, RequestLanded, 0), side)
  {
    var w' := Apply(w, RequestLanded, 0);
    assert w'.Flight() == w.Flight() && w'.thrown == w.thrown && w'.Carries(side) == w.Carries(side);
  }

  lemma ReportKeepsOtherSide(w: World, p: Push, ok: bool)
    requires Inv(w) && p in w.Flight()
    ensures SideInv(Report(w, p, ok), !p.isPre)
  {
    var w' := Report(w, p, ok);
    DirectFrame(w.client, p.isPre, p.edit, ok);
    assert w'.Flight() == w.Flight() - {p} && w'.Carries(!p.isPre) == w.Carries(!p.isPre);
    if SomeThrown(w, !p.isPre) {
      var q :| q in w.thrown && q.isPre == !p.isPre;
      assert q in w'.thrown;
    }
  }

  /** A thrown push's failure being reported, whatever request is under way. */
  lemma ThrownReportKeepsOwnSide(w: World, p: Push)
    requires Inv(w) && p in w.thrown
    ensures SideInv(Report(w, p, false), p.isPre)
  {
    var w' := Report(w, p, false);
    assert w'.Flight() == w.Flight() - {p} && w'.Carries(p.isPre) == w.Carries(p.isPre);
  }

  lemma ThrownReportKeepsSide(w: World, p: Push, side: bool)
    requires Inv(w) && p in w.thrown
    ensures SideInv(Report(w, p, false), side)
  {
    if side == p.isPre { ThrownReportKeepsOwnSide(w, p); } else { ReportKeepsOtherSide(w, p, false); }
  }

  /** The direct push under way being answered. */
  lemma AnsweredPushKeepsOwnSide(w: World, p: Push, ok: bool)
    requires SideInv(w, p.isPre) && w.busy == Some(Direct(p)) && (ok ==> w.landed)
    ensures SideInv(Report(w, p, ok).(busy := None), p.isPre)
  {
    assert Pushing(w, p.isPre) && w.Carries(p.isPre) == Some(p.edit);
    var w' := Report(w, p, ok).(busy := None);
    assert w'.Flight() == w.Flight() - {p} && w'.Carries(p.isPre) == None;
    assert w.client.On(p.isPre).newest.Some? && w'.client.On(p.isPre).newest == w.client.On(p.isPre).newest;
  }

  lemma AnsweredPushKeepsOtherSide(w: World, p: Push, ok: bool)
    requires Inv(w) && w.busy == Some(Direct(p))
    ensures SideInv(Report(w, p, ok).(busy := None), !p.isPre)
  {
    assert Pushing(w, p.isPre);
    ReportKeepsOtherSide(w, p, ok);
    var r := Report(w, p, ok);
    var w' := r.(busy := None);
    assert w'.Flight() == r.Flight() && w'.client == r.client && w'.On(!p.isPre) == r.On(!p.isPre);
    assert SomeThrown(r, !p.isPre) == SomeThrown(w', !p.isPre) && w'.Carries(!p.isPre) == None;
  }

  lemma AnsweredPushKeepsSide(w: World, p: Push, ok: bool, side: bool)
    requires Inv(w) && w.busy == Some(Direct(p)) && (ok ==> w.landed)
    ensures SideInv(Report(w, p, ok).(busy := None), side)
  {
    if side == p.isPre { AnsweredPushKeepsOwnSide(w, p, ok); } else { AnsweredPushKeepsOtherSide(w, p, ok); }
  }

  lemma ThrowKeepsSide(w: World, side: bool)
    requires Inv(w) && w.busy.Some?
    ensures SideInv(Apply(w, RequestThrew, 0), side)
  {
    var w' := Apply(w, RequestThrew, 0);
    ThrowKeepsFlight(w);
    if w.busy.value.Direct? { assert w.busy.value.push in w'.thrown; }
    if SomeThrown(w, side) {
      var q :| q in w.thrown && q.isPre == side;
      assert q in w'.thrown;
    }
  }

  lemma RetryKeepsOrder(w: World, ok: bool, maxRetries: int, side: bool)
    requires Inv(w) && w.busy.Some? && w.busy.value.Resend?
    ensures Ordered(RetryAnswered(w, w.Carries(true), w.Carries(false), ok, maxRetries), side)
  {
    RetryOnSide(w.client, w.Carries(true), w.Carries(false), ok, maxRetries, side);
    SettleBothOnSide(w.client, w.Carries(true), w.Carries(false), ok, side);
    assert RetryAnswered(w, w.Carries(true), w.Carries(false), ok, maxRetries).Flight() == w.Flight();
  }

  lemma RetryKeepsCover(w: World, ok: bool, maxRetries: int, side: bool)
    requires Inv(w) && w.busy.Some? && w.busy.value.Resend? && (ok ==> w.landed)
    ensures Covered(RetryAnswered(w, w.Carries(true), w.Carries(false), ok, maxRetries), side)
  {
    RetryOnSide(w.client, w.Carries(true), w.Carries(false), ok, maxRetries, side);
    SettleBothOnSide(w.client, w.Carries(true), w.Carries(false), ok, side);
    var w' := RetryAnswered(w, w.Carries(true), w.Carries(false), ok, maxRetries);
    assert w'.Flight() == w.Flight() && w'.thrown == w.thrown;
  }

  lemma RetryKeepsCarried(w: World, ok: bool, maxRetries: int, side: bool)
    requires Inv(w) && w.busy.Some? && w.busy.value.Resend?
    ensures Carried(RetryAnswered(w, w.Carries(true), w.Carries(false), ok, maxRetries), side)
  {
    RetryOnSide(w.client, w.Carries(true), w.Carries(false), ok, maxRetries, side);
    SettleBothOnSide(w.client, w.Carries(true), w.Carries(false), ok, side);
  }

  lemma AnswerKeepsSide(w: World, ok: bool, maxRetries: int, side: bool)
    requires Inv(w) && Enabled(w, Answered(ok))
    ensures SideInv(Apply(w, Answered(ok), maxRetries), side)
  {
    match w.busy.value
    case Direct(p) => AnsweredPushKeepsSide(w, p, ok, side);
    case Resend(_, _) =>
      RetryKeepsOrder(w, ok, maxRetries, side);
      RetryKeepsCover(w, ok, maxRetries, side);
      RetryKeepsCarried(w, ok, maxRetries, side);
  }

  lemma StepKeepsSide(w: World, s: Step, maxRetries: int, side: bool)
    requires Inv(w) && Enabled(w, s)
    ensures SideInv(Apply(w, s, maxRetries), side)
  {
    match s
    case EditMade(isPre, value) => EditKeepsSide(w, isPre, value, side);
    case RequestLanded => LandingKeepsSide(w, side);
    case Answered(ok) => AnswerKeepsSide(w, ok, maxRetries, side);
    case RequestThrew => ThrowKeepsSide(w, side);
    case ThrownReported(p) => ThrownReportKeepsSide(w, p, side);
    case _ => SendKeepsSide(w, s, side);
  }

  lemma StepKeepsInv(w: World, s: Step, maxRetries: int)
    requires Inv(w) && Enabled(w, s)
    ensures Inv(Apply(w, s, maxRetries))
  {
    StepKeepsCounts(w, s, maxRetries);
    StepKeepsSide(w, s, maxRetries, true);
    StepKeepsSide(w, s, maxRetries, false);
  }

  lemma {:induction false} RunKeepsInv(w: World, steps: seq<Step>, maxRetries: int)
    requires Inv(w) && Runs(w, steps, maxRetries)
    ensures Inv(End(w, steps, maxRetries))
    decreases |steps|
  {
    if steps != [] {
      StepKeepsInv(w, steps[0], maxRetries);
      RunKeepsInv(Apply(w, steps[0], maxRetries), steps[1..], maxRetries);
    }
  }

  lemma ReachableInv(w: World, steps: seq<Step>, maxRetries: int)
    requires Init(w) && Runs(w, steps, maxRetries)
    ensures Inv(End(w, steps, maxRetries))
  {
    assert w.Flight() == {};
    RunKeepsInv(w, steps, maxRetries);
  }

  // ---- What the protocol promises ----

  /** Nothing of this side is on its way: no push unanswered, nothing parked. */
  ghost predicate Quiet(w: World, isPre: bool) {
    w.client.On(isPre).parked.None? && forall p :: p in w.Flight() ==> p.isPre != isPre
  }

  /** The server holds the newest edit of the side, unless a give-up discarded that edit. */
  ghost predicate Converged(w: World, isPre: bool) {
    w.client.On(isPre).newest.Some? && !w.On(isPre).dropped ==>
      w.On(isPre).server == w.client.On(isPre).newest.value.value
  }

  /**
   Convergence, for any number of edits, failures that may or may not have landed, exceptions and
   retries: a quiet side has its newest edit's value on the server.
   */
  lemma Convergence(w: World, steps: seq<Step>, maxRetries: int, isPre: bool)
    requires Init(w) && Runs(w, steps, maxRetries) && Quiet(End(w, steps, maxRetries), isPre)
    ensures Converged(End(w, steps, maxRetries), isPre)
  {
    ReachableInv(w, steps, maxRetries);
  }

  /** Once every push has been answered, one successful retry settles both sides. */
  lemma OneGoodRetrySettles(w: World, steps: seq<Step>, maxRetries: int, isPre: bool)
    requires Init(w) && Runs(w, steps, maxRetries)
    requires var e := End(w, steps, maxRetries); e.Flight() == {} && e.busy.None? && e.client.HasPending()
    ensures var e := End(w, steps, maxRetries);
            && Runs(e, [RetrySent, RequestLanded, Answered(true)], maxRetries)
            && var settled := End(e, [RetrySent, RequestLanded, Answered(true)], maxRetries);
               Quiet(settled, isPre) && Converged(settled, isPre)
  {
    ReachableInv(w, steps, maxRetries);
    var e := End(w, steps, maxRetries);
    ThreeSteps(e, RetrySent, RequestLanded, Answered(true), maxRetries);
    RunKeepsInv(e, [RetrySent, RequestLanded, Answered(true)], maxRetries);
  }

  lemma OneStep(w: World, s: Step, maxRetries: int)
    requires Enabled(w, s)
    ensures Runs(w, [s], maxRetries) && End(w, [s], maxRetries) == Apply(w, s, maxRetries)
  {
    var rest := [s][1..];
    assert rest == [] && End(Apply(w, s, maxRetries), rest, maxRetries) == Apply(w, s, maxRetries);
  }

  lemma TwoSteps(w: World, a: Step, b: Step, maxRetries: int)
    requires Enabled(w, a) && Enabled(Apply(w, a, maxRetries), b)
    ensures Runs(w, [a, b], maxRetries) && End(w, [a, b], maxRetries) == Apply(Apply(w, a, maxRetries), b, maxRetries)
  {
    OneStep(w, a, maxRetries);
    OneStep(Apply(w, a, maxRetries), b, maxRetries);
    RunsOn(w, [a], [b], maxRetries);
  }

  lemma ThreeSteps(w: World, a: Step, b: Step, c: Step, maxRetries: int)
    requires Enabled(w, a) && Enabled(Apply(w, a, maxRetries), b)
    requires Enabled(Apply(Apply(w, a, maxRetries), b, maxRetries), c)
    ensures Runs(w, [a, b, c], maxRetries)
    ensures End(w, [a, b, c], maxRetries) == Apply(Apply(Apply(w, a, maxRetries), b, maxRetries), c, maxRetries)
  {
    OneStep(w, a, maxRetries);
    TwoSteps(Apply(w, a, maxRetries), b, c, maxRetries);
    RunsOn(w, [a], [b, c], maxRetries);
  }

  lemma {:induction false} RunsOn(w: World, first: seq<Step>, rest: seq<Step>, maxRetries: int)
    requires Runs(w, first, maxRetries) && Runs(End(w, first, maxRetries), rest, maxRetries)
    ensures Runs(w, first + rest, maxRetries)
    ensures End(w, first + rest, maxRetries) == End(End(w, first, maxRetries), rest, maxRetries)
    decreases |first|
  {
    if first == [] {
      assert first + rest == rest;
    } else {
      RunsOn(Apply(w, first[0], maxRetries), first[1..], rest, maxRetries);
      assert (first + rest)[1..] == first[1..] + rest;
    }
  }

  /** The in-flight counter never drifts, so the sync test means what it says at the moment it is made. */
  lemma InFlightIsExact(w: World, steps: seq<Step>, maxRetries: int, nextSeqAtStart: nat)
    requires Init(w) && Runs(w, steps, maxRetries)
    ensures var e := End(w, steps, maxRetries);
            && e.client.inFlight == e.begun - e.answered
            && (SafeToSync(e.client, nextSeqAtStart) <==>
                  e.begun == e.answered && Quiet(e, true) && Quiet(e, false) && e.client.nextSeq == nextSeqAtStart)
  {
    ReachableInv(w, steps, maxRetries);
    var e := End(w, steps, maxRetries);
    if e.Flight() != {} {
      var p :| p in e.Flight();
      assert !Quiet(e, p.isPre);
    }
  }

  /** A give-up drops only an edit that at least maxRetries - 1 failed retries carried, this one included. */
  lemma GiveUpIsPatient(w: World, steps: seq<Step>, maxRetries: int, isPre: bool)
    requires Init(w) && Runs(w, steps, maxRetries)
    requires var e := End(w, steps, maxRetries);
             && e.busy.Some? && e.busy.value.Resend? && e.client.On(isPre).parked.Some?
             && ApplyRetry(e.client, e.Carries(true), e.Carries(false), false, maxRetries).1.GaveUp?
    ensures Apply(End(w, steps, maxRetries), Answered(false), maxRetries).On(isPre).carried >= maxRetries - 1
  {
    ReachableInv(w, steps, maxRetries);
    var e := End(w, steps, maxRetries);
    RetryOnSide(e.client, e.Carries(true), e.Carries(false), false, maxRetries, isPre);
    SettleBothOnSide(e.client, e.Carries(true), e.Carries(false), false, isPre);
  }

  // ---- What an answer leaves parked ----

  /** The retry count restarts exactly when a side has another edit parked than before. */
  function Restarted(before: State, after: State, isPre: bool): nat {
    if after.On(isPre).parked.None? || after.On(isPre).parked == before.On(isPre).parked then before.retries else 0
  }

  /** The answer to a direct push: the side has nothing parked exactly when it was the newest edit's and succeeded, else
      the newest edit is parked; the other side and the numbering are as they were. */
  lemma AnsweredPushParks(w: World, steps: seq<Step>, maxRetries: int, ok: bool)
    requires Init(w) && Runs(w, steps, maxRetries) && Enabled(End(w, steps, maxRetries), Answered(ok))
    requires End(w, steps, maxRetries).busy.value.Direct?
    ensures var e := End(w, steps, maxRetries);
            var p, after := e.busy.value.push, Apply(e, Answered(ok), maxRetries);
            var t := e.client.On(p.isPre);
            && t.newest.Some? && after.client.On(p.isPre).newest == t.newest
            && after.client.On(p.isPre).parked == (if ok && t.newest == Some(p.edit) then None else t.newest)
            && after.client.On(!p.isPre) == e.client.On(!p.isPre) && after.client.nextSeq == e.client.nextSeq
            && after.queued == e.queued - {p} && after.busy.None?
            && after.client.retries == Restarted(e.client, after.client, p.isPre)
  {
    ReachableInv(w, steps, maxRetries);
    var e := End(w, steps, maxRetries);
    var p := e.busy.value.push;
    assert Pushing(e, p.isPre) && SideInv(e, p.isPre);
    DirectFrame(e.client, p.isPre, p.edit, ok);
    assert Counts(e);
  }

  /** The same for the late report of a push that threw: the newest edit of its side is parked. */
  lemma ReportedThrowParks(w: World, steps: seq<Step>, maxRetries: int, p: Push)
    requires Init(w) && Runs(w, steps, maxRetries) && p in End(w, steps, maxRetries).thrown
    ensures var e := End(w, steps, maxRetries);
            var after := Apply(e, ThrownReported(p), maxRetries);
            && e.client.On(p.isPre).newest.Some?
            && after.client.On(p.isPre) == e.client.On(p.isPre).(parked := e.client.On(p.isPre).newest)
            && after.client.On(!p.isPre) == e.client.On(!p.isPre)
            && after.client.retries == Restarted(e.client, after.client, p.isPre)
  {
    ReachableInv(w, steps, maxRetries);
    var e := End(w, steps, maxRetries);
    assert SideInv(e, p.isPre);
    DirectFrame(e.client, p.isPre, p.edit, false);
  }

  /** The answer to a retry, on each side it carried an edit for: nothing is left parked exactly when it succeeded with
      the newest edit or the client gives up, else the newest edit is; a side it carried nothing for is left alone. */
  lemma AnsweredRetryParks(w: World, steps: seq<Step>, maxRetries: int, ok: bool, isPre: bool)
    requires Init(w) && Runs(w, steps, maxRetries) && Enabled(End(w, steps, maxRetries), Answered(ok))
    requires End(w, steps, maxRetries).busy.value.Resend?
    ensures var e := End(w, steps, maxRetries);
            var t, sent, after := e.client.On(isPre), e.Carries(isPre), Apply(e, Answered(ok), maxRetries);
            var gaveUp := ApplyRetry(e.client, e.Carries(true), e.Carries(false), ok, maxRetries).1.GaveUp?;
            && (gaveUp ==> !ok && after.client.On(isPre).parked.None?)
            && (!gaveUp && sent.None? ==> after.client.On(isPre).parked == t.parked)
            && (!gaveUp && sent.Some? ==>
                  after.client.On(isPre).parked == if ok && t.newest == sent then None else t.newest)
            && after.client.On(isPre).newest == t.newest && after.busy.None?
  {
    ReachableInv(w, steps, maxRetries);
    var e := End(w, steps, maxRetries);
    assert SideInv(e, isPre);
    RetryOnSide(e.client, e.Carries(true), e.Carries(false), ok, maxRetries, isPre);
    SettleBothOnSide(e.client, e.Carries(true), e.Carries(false), ok, isPre);
  }

  /** `k` retries in a row that fail. */
  function FailedRetries(k: nat): seq<Step> {
    if k == 0 then [] else [RetrySent, Answered(false)] + FailedRetries(k - 1)
  }

  /** Nothing is newer than what is parked. */
  predicate ParkedNewest(c: State) {
    (c.pre.parked.Some? ==> c.pre.parked == c.pre.newest) && (c.post.parked.Some? ==> c.post.parked == c.post.newest)
  }

  lemma FailedRetry(w: World, maxRetries: int)
    requires w.busy.None? && w.client.HasPending() && ParkedNewest(w.client)
    ensures Runs(w, [RetrySent, Answered(false)], maxRetries)
    ensures var after := End(w, [RetrySent, Answered(false)], maxRetries);
            && after.busy.None? && after.queued == w.queued && after.thrown == w.thrown
            && after.pre.server == w.pre.server && after.post.server == w.post.server
            && after.client ==
               if w.client.retries + 1 < maxRetries then w.client.(retries := w.client.retries + 1)
               else w.client.(retries := 0, pre := SideState(None, w.client.pre.newest),
                              post := SideState(None, w.client.post.newest))
  {
    TwoSteps(w, RetrySent, Answered(false), maxRetries);
  }

  /** A client that keeps failing gives up at exactly the maxRetries-th retry: until then it keeps what it parked. */
  lemma {:induction false} GivesUpAtTheLimit(w: World, k: nat, maxRetries: int)
    requires w.busy.None? && w.client.HasPending() && ParkedNewest(w.client)
    requires w.client.retries + k <= maxRetries && w.client.retries < maxRetries
    ensures Runs(w, FailedRetries(k), maxRetries)
    ensures var c := End(w, FailedRetries(k), maxRetries).client;
            if w.client.retries + k < maxRetries then c == w.client.(retries := w.client.retries + k)
            else !c.HasPending() && c.retries == 0 && c.pre.newest == w.client.pre.newest
                 && c.post.newest == w.client.post.newest
    decreases k
  {
    if k > 0 {
      FailedRetry(w, maxRetries);
      var once := [RetrySent, Answered(false)];
      var next := End(w, once, maxRetries);
      if w.client.retries + 1 < maxRetries {
        GivesUpAtTheLimit(next, k - 1, maxRetries);
      } else {
        assert k == 1 && FailedRetries(0) == [];
      }
      RunsOn(w, once, FailedRetries(k - 1), maxRetries);
    }
  }

  // ---- Where the startup sync can be fooled ----

  /** Only a new edit changes which edit is the newest, and it raises the numbering. */
  lemma StepKeepsNewest(w: World, s: Step, maxRetries: int, isPre: bool)
    requires Inv(w) && Enabled(w, s)
    ensures var w' := Apply(w, s, maxRetries);
            if s.EditMade? then w'.client.nextSeq == w.client.nextSeq + 1
            else w'.client.nextSeq == w.client.nextSeq && w'.client.On(isPre).newest == w.client.On(isPre).newest
  {
    match s
    case Answered(ok) =>
      match w.busy.value {
        case Direct(p) =>
          assert Pushing(w, p.isPre);
          ReportKeepsNewest(w, p, ok, isPre);
        case Resend(pre, post) => RetryOnSide(w.client, pre, post, ok, maxRetries, isPre);
      }
    case ThrownReported(p) => ReportKeepsNewest(w, p, false, isPre);
    case _ =>
  }

  lemma ReportKeepsNewest(w: World, p: Push, ok: bool, isPre: bool)
    requires Inv(w) && p in w.Flight()
    ensures var c := Report(w, p, ok).client;
            c.nextSeq == w.client.nextSeq && c.On(isPre).newest == w.client.On(isPre).newest
  {
    DirectFrame(w.client, p.isPre, p.edit, ok);
  }

  lemma {:induction false} NewestIsStable(w: World, steps: seq<Step>, maxRetries: int, isPre: bool)
    requires Inv(w) && Runs(w, steps, maxRetries)
    ensures var e := End(w, steps, maxRetries);
            e.client.nextSeq >= w.client.nextSeq &&
            (e.client.nextSeq == w.client.nextSeq ==> e.client.On(isPre).newest == w.client.On(isPre).newest)
    decreases |steps|
  {
    if steps != [] {
      StepKeepsInv(w, steps[0], maxRetries);
      StepKeepsNewest(w, steps[0], maxRetries, isPre);
      NewestIsStable(Apply(w, steps[0], maxRetries), steps[1..], maxRetries, isPre);
    }
  }

  /**
   A padding sync reads the server in state `read` and is told it is safe in state `checked`. What it
   read is still the server's value exactly when it read the newest edit's value: passing the test at
   the end does not show that no push was in flight when the read was made.
   */
  lemma SyncedValueIsCurrentIff(init: World, before: seq<Step>, between: seq<Step>, maxRetries: int, isPre: bool)
    requires Init(init) && Runs(init, before, maxRetries)
    requires Runs(End(init, before, maxRetries), between, maxRetries)
    requires var read := End(init, before, maxRetries);
             var checked := End(read, between, maxRetries);
             && SafeToSync(checked.client, read.client.nextSeq)
             && read.client.On(isPre).newest.Some? && !checked.On(isPre).dropped
    ensures var read := End(init, before, maxRetries);
            var checked := End(read, between, maxRetries);
            read.On(isPre).server == checked.On(isPre).server <==>
            read.On(isPre).server == read.client.On(isPre).newest.value.value
  {
    ReachableInv(init, before, maxRetries);
    var read := End(init, before, maxRetries);
    RunKeepsInv(read, between, maxRetries);
    NewestIsStable(read, between, maxRetries, isPre);
  }

  /** A side nobody has edited is never stale: nothing this client sends can have changed it. */
  lemma UneditedSideIsCurrent(init: World, before: seq<Step>, between: seq<Step>, maxRetries: int, isPre: bool)
    requires Init(init) && Runs(init, before, maxRetries)
    requires Runs(End(init, before, maxRetries), between, maxRetries)
    requires var read := End(init, before, maxRetries);
             var checked := End(read, between, maxRetries);
             SafeToSync(checked.client, read.client.nextSeq) && read.client.On(isPre).newest.None?
    ensures var read := End(init, before, maxRetries);
            End(read, between, maxRetries).On(isPre).server == read.On(isPre).server
  {
    ReachableInv(init, before, maxRetries);
    QuietSideStays(End(init, before, maxRetries), between, maxRetries, isPre);
  }

  /** Nor is a side that was quiet at the read, whether its newest edit arrived or was given up. */
  lemma QuietSideIsCurrent(init: World, before: seq<Step>, between: seq<Step>, maxRetries: int, isPre: bool)
    requires Init(init) && Runs(init, before, maxRetries)
    requires Runs(End(init, before, maxRetries), between, maxRetries)
    requires var read := End(init, before, maxRetries);
             var checked := End(read, between, maxRetries);
             SafeToSync(checked.client, read.client.nextSeq) && Quiet(read, isPre)
    ensures var read := End(init, before, maxRetries);
            End(read, between, maxRetries).On(isPre).server == read.On(isPre).server
  {
    ReachableInv(init, before, maxRetries);
    QuietSideStays(End(init, before, maxRetries), between, maxRetries, isPre);
  }

  lemma {:induction false} QuietSideStays(w: World, steps: seq<Step>, maxRetries: int, isPre: bool)
    requires Inv(w) && Runs(w, steps, maxRetries) && Quiet(w, isPre)
    requires End(w, steps, maxRetries).client.nextSeq == w.client.nextSeq
    ensures End(w, steps, maxRetries).On(isPre).server == w.On(isPre).server
    decreases |steps|
  {
    if steps != [] {
      var next := Apply(w, steps[0], maxRetries);
      StepKeepsInv(w, steps[0], maxRetries);
      StepKeepsNewest(w, steps[0], maxRetries, isPre);
      NewestIsStable(next, steps[1..], maxRetries, isPre);
      QuietStep(w, steps[0], maxRetries, isPre);
      QuietSideStays(next, steps[1..], maxRetries, isPre);
    }
  }

  /** Without an edit, nothing touches a quiet side. */
  lemma QuietStep(w: World, s: Step, maxRetries: int, isPre: bool)
    requires Inv(w) && Enabled(w, s) && !s.EditMade? && Quiet(w, isPre)
    ensures Quiet(Apply(w, s, maxRetries), isPre) && Apply(w, s, maxRetries).On(isPre).server == w.On(isPre).server
  {
    assert w.Carries(isPre).None? by {
      if Pushing(w, isPre) { assert w.busy.value.push in w.Flight(); }
    }
    match s
    case EditMade(_, _) => assert false;
    case Answered(ok) => QuietAnswer(w, ok, maxRetries, isPre);
    case RequestThrew => ThrowKeepsFlight(w);
    case ThrownReported(p) => DirectFrame(w.client, p.isPre, p.edit, false);
    case _ => assert Apply(w, s, maxRetries).Flight() == w.Flight();
  }

  lemma QuietAnswer(w: World, ok: bool, maxRetries: int, isPre: bool)
    requires Inv(w) && Enabled(w, Answered(ok)) && Quiet(w, isPre) && w.Carries(isPre).None?
    ensures var w' := Apply(w, Answered(ok), maxRetries);
            Quiet(w', isPre) && w'.On(isPre).server == w.On(isPre).server
  {
    match w.busy.value
    case Direct(p) => DirectFrame(w.client, p.isPre, p.edit, ok);
    case Resend(pre, post) =>
      RetryOnSide(w.client, pre, post, ok, maxRetries, isPre);
      SettleBothOnSide(w.client, pre, post, ok, isPre);
  }

  /** The value the last request for a side that landed in a run put on the server. */
  ghost function LastLanded(w: World, steps: seq<Step>, maxRetries: int, isPre: bool): Option<int>
    requires Runs(w, steps, maxRetries)
    decreases |steps|
  {
    if steps == [] then None
    else
      var later := LastLanded(Apply(w, steps[0], maxRetries), steps[1..], maxRetries, isPre);
      if later.Some? then later
      else if steps[0].RequestLanded? && w.Carries(isPre).Some? then Some(w.Carries(isPre).value.value)
      else None
  }

  lemma {:induction false} ServerHoldsLastLanded(w: World, steps: seq<Step>, maxRetries: int, isPre: bool)
    requires Runs(w, steps, maxRetries)
    ensures var last := LastLanded(w, steps, maxRetries, isPre);
            End(w, steps, maxRetries).On(isPre).server == if last.Some? then last.value else w.On(isPre).server
    decreases |steps|
  {
    if steps != [] { ServerHoldsLastLanded(Apply(w, steps[0], maxRetries), steps[1..], maxRetries, isPre); }
  }

  /**
   A side whose newest edit was given up by the test: what the sync read is current exactly when the side was quiet at
   the read, or no request for it landed in between, or the last that did carried the value read.
   */
  lemma GivenUpSideIsCurrentIff(init: World, before: seq<Step>, between: seq<Step>, maxRetries: int, isPre: bool)
    requires Init(init) && Runs(init, before, maxRetries)
    requires Runs(End(init, before, maxRetries), between, maxRetries)
    requires var read := End(init, before, maxRetries);
             var checked := End(read, between, maxRetries);
             SafeToSync(checked.client, read.client.nextSeq) && checked.On(isPre).dropped
    ensures var read := End(init, before, maxRetries);
            var last := LastLanded(read, between, maxRetries, isPre);
            read.On(isPre).server == End(read, between, maxRetries).On(isPre).server <==>
            Quiet(read, isPre) || last.None? || last.value == read.On(isPre).server
  {
    ReachableInv(init, before, maxRetries);
    var read := End(init, before, maxRetries);
    ServerHoldsLastLanded(read, between, maxRetries, isPre);
    if Quiet(read, isPre) { QuietSideStays(read, between, maxRetries, isPre); }
  }

  /** A side whose newest edit was given up can be current although its value is not that edit's. */
  lemma GivenUpEditIsNotTheTest(init: World, value: int)
    requires Init(init) && value != init.pre.server
    ensures var p := Push(true, Edit(value, 1));
            var steps := [EditMade(true, value), PushSent(p), Answered(false)] + [RetrySent, Answered(false)];
            && Runs(init, steps, 1)
            && var read := End(init, steps, 1);
            && SafeToSync(read.client, read.client.nextSeq) && read.pre.dropped
            && read.client.pre.newest == Some(Edit(value, 1)) && read.pre.server == init.pre.server != value
  {
    var p := Push(true, Edit(value, 1));
    var edit, sent, failed := EditMade(true, value), PushSent(p), Answered(false);
    var parked := Apply(Apply(Apply(init, edit, 1), sent, 1), failed, 1);
    ThreeSteps(init, edit, sent, failed, 1);
    TwoSteps(parked, RetrySent, failed, 1);
    RunsOn(init, [edit, sent, failed], [RetrySent, failed], 1);
  }

  /** The family is not empty: one edit in flight at the read, landed before the test, and the sync reverts it. */
  lemma SyncCanRevertAnEdit(init: World, maxRetries: int, value: int)
    requires Init(init) && value != init.pre.server
    ensures var p := Push(true, Edit(value, 1));
            && Runs(init, [EditMade(true, value)], maxRetries)
            && (var read := End(init, [EditMade(true, value)], maxRetries);
                && Runs(read, [PushSent(p), RequestLanded, Answered(true)], maxRetries)
                && (var checked := End(read, [PushSent(p), RequestLanded, Answered(true)], maxRetries);
                    SafeToSync(checked.client, read.client.nextSeq) && read.pre.server != checked.pre.server == value))
  {
    var p := Push(true, Edit(value, 1));
    var edit := EditMade(true, value);
    var read := Apply(init, edit, maxRetries);
    OneStep(init, edit, maxRetries);
    ThreeSteps(read, PushSent(p), RequestLanded, Answered(true), maxRetries);
  }

  /**
   Landing order is load-bearing: had results been applied after the settings mutex was released, two
   successful edits landing 2, 1 with results 1, 2 leave nothing parked and the older value on the server.
   */
  lemma ResultsOutOfLandingOrderLoseTheEdit(v1: int, v2: int)
    ensures var s := Begin(Begin(Fresh, true, v1), true, v2);
            var done := ApplyDirect(ApplyDirect(s, true, Edit(v1, 1), true), true, Edit(v2, 2), true);
            && done.pre.newest == Some(Edit(v2, 2)) && !done.HasPending() && done.inFlight == 0
            && Landed(Landed(0, Some(Edit(v2, 2))), Some(Edit(v1, 1))) == v1
  {
  }
}
