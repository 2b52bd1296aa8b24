/**
 Editing a recurring rule (src/RecurringRuleEdit.cpp): the patch sent to the server is a three-way merge against the
 report the edit started from, and a bounded history finds that report again.
 */
module RecurringRule {
  import opened Common

  const DAY := 86400
  const MAX_REPORTS_PER_RULE := 8

  datatype Fields = Fields(channelId: int, name: string, days: seq<int>, startOfDay: int, endOfDay: int, startDate: int,
                           enabled: bool)

  datatype Patch = Patch(channelId: Option<int>, name: Option<string>, days: Option<seq<int>>, startOfDay: Option<int>,
                         endOfDay: Option<int>, startDate: Option<int>, enabled: Option<bool>)

  // ---- What counts as the same value ----

  /** C++ integer division, which cuts toward zero. */
  function CppDivide(a: int, b: int): int
    requires b > 0
  {
    if a >= 0 then a / b else -((-a) / b)
  }

  function CppRemainder(a: int, b: int): int
    requires b > 0
  {
    a - b * CppDivide(a, b)
  }

  predicate SameCalendarDay(a: int, b: int) { CppDivide(a, DAY) == CppDivide(b, DAY) }

  function Wrap(seconds: int): int { CppRemainder(CppRemainder(seconds, DAY) + DAY, DAY) }

  predicate SameTimeOfDay(a: int, b: int) { Wrap(a) == Wrap(b) }

  /** Days as the server keeps them: sorted and without repeats, so their set. */
  function DaySet(days: seq<int>): set<int> { set d | d in days }

  /** A wrapped time of day is the time modulo a day, whatever sign it came with. */
  lemma WrapIsModulo(seconds: int)
    ensures Wrap(seconds) == seconds % DAY
  {
    if seconds < 0 {
      var q, r := (-seconds) / DAY, (-seconds) % DAY;
      assert -seconds == q * DAY + r;
      assert CppRemainder(seconds, DAY) == -r;
      assert seconds == (-q - 1) * DAY + (DAY - r);
    }
  }

  /**
   Cutting toward zero compares calendar days exactly for dates from 1970 on: below any earlier bound some two dates
   compare wrongly, the days around 1970 merging and one day splitting in two.
   */
  lemma CalendarDayIff(lo: int)
    ensures (forall a, b | lo <= a && lo <= b :: SameCalendarDay(a, b) <==> a / DAY == b / DAY) <==> 0 <= lo
  {
    if lo < 0 {
      DaysMergeAround1970();
      assert SameCalendarDay(-1, 0) && (-1) / DAY != 0 / DAY;
    }
  }

  lemma DaysMergeAround1970()
    ensures SameCalendarDay(-1, 0) && (-1) / DAY != 0 / DAY
  {
  }

  lemma DaySplitsBefore1970()
    ensures !SameCalendarDay(-1, -DAY) && (-1) / DAY == (-DAY) / DAY
  {
  }

  /** Equal as rules: times modulo a day, days as a set, dates by calendar day. */
  predicate SameRule(a: Fields, b: Fields) {
    && a.channelId == b.channelId && a.name == b.name && a.enabled == b.enabled
    && DaySet(a.days) == DaySet(b.days)
    && a.startOfDay % DAY == b.startOfDay % DAY && a.endOfDay % DAY == b.endOfDay % DAY
    && a.startDate / DAY == b.startDate / DAY
  }

  // ---- The patch ----

  function PatchFor(baseline: Option<Fields>, edited: Fields): Patch {
    match baseline
    case None =>
      Patch(Some(edited.channelId), Some(edited.name), Some(edited.days), Some(edited.startOfDay),
            Some(edited.endOfDay), Some(edited.startDate), Some(edited.enabled))
    case Some(b) =>
      Patch(if edited.channelId != b.channelId then Some(edited.channelId) else None,
            if edited.name != b.name then Some(edited.name) else None,
            if DaySet(edited.days) != DaySet(b.days) then Some(edited.days) else None,
            if !SameTimeOfDay(edited.startOfDay, b.startOfDay) then Some(edited.startOfDay) else None,
            if !SameTimeOfDay(edited.endOfDay, b.endOfDay) then Some(edited.endOfDay) else None,
            if !SameCalendarDay(edited.startDate, b.startDate) then Some(edited.startDate) else None,
            if edited.enabled != b.enabled then Some(edited.enabled) else None)
  }

  const EMPTY_PATCH := Patch(None, None, None, None, None, None, None)

  method ComputeRecurringRuleEditPatch(baseline: Option<Fields>, edited: Fields) returns (patch: Patch)
    ensures patch == PatchFor(baseline, edited)
  {
    patch := EMPTY_PATCH;
    if baseline.None? {
      patch := patch.(channelId := Some(edited.channelId), name := Some(edited.name), days := Some(edited.days));
      patch := patch.(startOfDay := Some(edited.startOfDay), endOfDay := Some(edited.endOfDay));
      patch := patch.(startDate := Some(edited.startDate), enabled := Some(edited.enabled));
      return;
    }
    var b := baseline.value;
    if edited.channelId != b.channelId { patch := patch.(channelId := Some(edited.channelId)); }
    if edited.name != b.name { patch := patch.(name := Some(edited.name)); }
    if DaySet(edited.days) != DaySet(b.days) { patch := patch.(days := Some(edited.days)); }
    if !SameTimeOfDay(edited.startOfDay, b.startOfDay) { patch := patch.(startOfDay := Some(edited.startOfDay)); }
    if !SameTimeOfDay(edited.endOfDay, b.endOfDay) { patch := patch.(endOfDay := Some(edited.endOfDay)); }
    if !SameCalendarDay(edited.startDate, b.startDate) { patch := patch.(startDate := Some(edited.startDate)); }
    if edited.enabled != b.enabled { patch := patch.(enabled := Some(edited.enabled)); }
  }

  function Or<T>(change: Option<T>, current: T): T {
    match change case None => current case Some(v) => v
  }

  /** What the server holds once it has taken the patch. */
  function Patched(current: Fields, p: Patch): Fields {
    Fields(Or(p.channelId, current.channelId), Or(p.name, current.name), Or(p.days, current.days),
           Or(p.startOfDay, current.startOfDay), Or(p.endOfDay, current.endOfDay), Or(p.startDate, current.startDate),
           Or(p.enabled, current.enabled))
  }

  lemma SameTimeIsModulo(a: int, b: int)
    ensures SameTimeOfDay(a, b) <==> a % DAY == b % DAY
  {
    WrapIsModulo(a);
    WrapIsModulo(b);
  }

  /** Patching the baseline gives the edited rule, and nothing is sent exactly when nothing changed. */
  lemma PatchGivesTheEdit(baseline: Fields, edited: Fields)
    requires 0 <= baseline.startDate && 0 <= edited.startDate
    ensures SameRule(Patched(baseline, PatchFor(Some(baseline), edited)), edited)
    ensures PatchFor(Some(baseline), edited) == EMPTY_PATCH <==> SameRule(baseline, edited)
  {
    SameTimeIsModulo(edited.startOfDay, baseline.startOfDay);
    SameTimeIsModulo(edited.endOfDay, baseline.endOfDay);
  }

  /** On a rule changed meanwhile, a field the user left alone keeps the server's value and the others the user's. */
  lemma EditIsAThreeWayMerge(baseline: Fields, edited: Fields, current: Fields)
    requires 0 <= baseline.startDate && 0 <= edited.startDate
    ensures var r := Patched(current, PatchFor(Some(baseline), edited));
            && r.channelId == (if edited.channelId == baseline.channelId then current.channelId else edited.channelId)
            && r.name == (if edited.name == baseline.name then current.name else edited.name)
            && r.days == (if DaySet(edited.days) == DaySet(baseline.days) then current.days else edited.days)
            && r.startOfDay == (if edited.startOfDay % DAY == baseline.startOfDay % DAY then current.startOfDay
                                else edited.startOfDay)
            && r.endOfDay == (if edited.endOfDay % DAY == baseline.endOfDay % DAY then current.endOfDay
                              else edited.endOfDay)
            && r.startDate == (if edited.startDate / DAY == baseline.startDate / DAY then current.startDate
                               else edited.startDate)
            && r.enabled == (if edited.enabled == baseline.enabled then current.enabled else edited.enabled)
  {
    SameTimeIsModulo(edited.startOfDay, baseline.startOfDay);
    SameTimeIsModulo(edited.endOfDay, baseline.endOfDay);
  }

  /** Edits of different fields commute: it does not matter which viewer's patch arrives first. */
  lemma DisjointEditsCommute(baseline: Fields, mine: Fields, theirs: Fields, current: Fields)
    requires var a, b := PatchFor(Some(baseline), mine), PatchFor(Some(baseline), theirs);
             && (a.channelId.None? || b.channelId.None?) && (a.name.None? || b.name.None?)
             && (a.days.None? || b.days.None?) && (a.startOfDay.None? || b.startOfDay.None?)
             && (a.endOfDay.None? || b.endOfDay.None?) && (a.startDate.None? || b.startDate.None?)
             && (a.enabled.None? || b.enabled.None?)
    ensures var a, b := PatchFor(Some(baseline), mine), PatchFor(Some(baseline), theirs);
            Patched(Patched(current, a), b) == Patched(Patched(current, b), a)
  {
  }

  // ---- Times of day on an edit ----

  datatype Times = Times(startOfDay: int, endOfDay: int)

  /** An instant the player handed back unmoved keeps the rule's own time of day; a moved one is derived again. */
  function ResolveTimes(baseline: Option<Fields>, timerStart: int, timerEnd: int, reportedStart: Option<int>,
                        reportedEnd: Option<int>, derived: Times): Times {
    Times(if baseline.Some? && reportedStart == Some(timerStart) then baseline.value.startOfDay else derived.startOfDay,
          if baseline.Some? && reportedEnd == Some(timerEnd) then baseline.value.endOfDay else derived.endOfDay)
  }

  /** However far off the re-derivation is, an instant the user did not move never reaches the patch, either side. */
  lemma UnmovedTimesAreNotSent(baseline: Fields, edited: Fields, timerStart: int, timerEnd: int,
                               reportedStart: Option<int>, reportedEnd: Option<int>, derived: Times)
    ensures var times := ResolveTimes(Some(baseline), timerStart, timerEnd, reportedStart, reportedEnd, derived);
            var patch := PatchFor(Some(baseline), edited.(startOfDay := times.startOfDay, endOfDay := times.endOfDay));
            && (reportedStart == Some(timerStart) ==> patch.startOfDay.None?)
            && (reportedEnd == Some(timerEnd) ==> patch.endOfDay.None?)
            && (reportedStart != Some(timerStart) ==>
                  patch.startOfDay == (if derived.startOfDay % DAY == baseline.startOfDay % DAY then None
                                       else Some(derived.startOfDay)))
            && (reportedEnd != Some(timerEnd) ==>
                  patch.endOfDay == (if derived.endOfDay % DAY == baseline.endOfDay % DAY then None
                                     else Some(derived.endOfDay)))
  {
    SameTimeIsModulo(derived.startOfDay, baseline.startOfDay);
    SameTimeIsModulo(derived.endOfDay, baseline.endOfDay);
  }

  /** An edit of a rule that was never reported sends everything, times derived. */
  lemma UnreportedEditSendsAll(edited: Fields, current: Fields, timerStart: int, timerEnd: int,
                               reportedStart: Option<int>, reportedEnd: Option<int>, derived: Times)
    ensures ResolveTimes(None, timerStart, timerEnd, reportedStart, reportedEnd, derived) == derived
    ensures Patched(current, PatchFor(None, edited)) == edited
  {
  }

  // ---- The history of reports ----

  /** A rule as one report to the player showed it. */
  datatype ReportedRule = ReportedRule(fields: Fields, start: int, end: int)

  /** One reported rule under its token; the token is an opaque key. */
  datatype Entry = Entry(token: string, report: ReportedRule)

  function Without(entries: seq<Entry>, token: string): seq<Entry> {
    if entries == [] then []
    else
      var rest := Without(entries[..|entries| - 1], token);
      if entries[|entries| - 1].token == token then rest else rest + [entries[|entries| - 1]]
  }

  function Newest<T>(s: seq<T>, n: nat): seq<T> {
    if |s| > n then s[|s| - n..] else s
  }

  /** The report becomes the newest; an older one under its token goes, and so does what exceeds the cap. */
  function Recorded(entries: seq<Entry>, e: Entry): seq<Entry> {
    Newest(Without(entries, e.token) + [e], MAX_REPORTS_PER_RULE)
  }

  function Entries(reports: map<int, seq<Entry>>, id: int): seq<Entry> {
    if id in reports then reports[id] else []
  }

  /** The entries while the rules in `todo` still have to be given this report. */
  function RecordedFor(kept: map<int, seq<Entry>>, report: map<int, ReportedRule>, tokenOf: ReportedRule -> string,
                       todo: set<int>): map<int, seq<Entry>>
    requires kept.Keys <= report.Keys
  {
    map id | id in report && (id in todo ==> id in kept) ::
      if id in todo then kept[id] else Recorded(Entries(kept, id), Entry(tokenOf(report[id]), report[id]))
  }

  lemma RecordedForNext(kept: map<int, seq<Entry>>, report: map<int, ReportedRule>, tokenOf: ReportedRule -> string,
                        todo: set<int>, id: int)
    requires kept.Keys <= report.Keys && todo <= report.Keys && id in todo
    ensures Entries(RecordedFor(kept, report, tokenOf, todo), id) == Entries(kept, id)
    ensures RecordedFor(kept, report, tokenOf, todo - {id}) ==
            var updated := Recorded(Entries(kept, id), Entry(tokenOf(report[id]), report[id]));
            RecordedFor(kept, report, tokenOf, todo)[id := updated]
  {
  }

  class ReportedRecurringRuleHistory {
    var reports: map<int, seq<Entry>>
    const tokenOf: ReportedRule -> string

    constructor (tokenOf: ReportedRule -> string)
      ensures reports == map[] && this.tokenOf == tokenOf
    {
      reports := map[];
      this.tokenOf := tokenOf;
    }

    function EntriesOf(id: int): seq<Entry>
      reads this
    {
      Entries(reports, id)
    }

    /** A rule missing from the report is forgotten; every rule in it gets this report as its newest. */
    method Record(report: map<int, ReportedRule>)
      modifies this
      ensures reports.Keys == report.Keys
      ensures forall id | id in report ::
                id in reports && reports[id] == Recorded(old(EntriesOf(id)), Entry(tokenOf(report[id]), report[id]))
    {
      var kept := map id | id in reports && id in report :: reports[id];
      reports := RecordAll(kept, report, tokenOf);
    }

    /** The report under the token, or the newest one when the token is not known; None for a rule never reported. */
    method Find(id: int, token: string) returns (found: Option<ReportedRule>)
      ensures EntriesOf(id) == [] ==> found.None?
      ensures EntriesOf(id) != [] && (forall e | e in EntriesOf(id) :: e.token != token) ==>
                found == Some(EntriesOf(id)[|EntriesOf(id)| - 1].report)
      ensures (exists e :: e in EntriesOf(id) && e.token == token) ==>
                exists e :: e in EntriesOf(id) && e.token == token && found == Some(e.report)
    {
      if id !in reports || reports[id] == [] { return None; }
      var entries := reports[id];
      for i := 0 to |entries|
        invariant forall k :: 0 <= k < i ==> entries[k].token != token
      {
        if entries[i].token == token {
          assert entries[i] in EntriesOf(id);
          return Some(entries[i].report);
        }
      }
      return Some(entries[|entries| - 1].report);
    }
  }

  method RecordAll(kept: map<int, seq<Entry>>, report: map<int, ReportedRule>, tokenOf: ReportedRule -> string)
    returns (reports: map<int, seq<Entry>>)
    requires kept.Keys <= report.Keys
    ensures reports.Keys == report.Keys
    ensures forall id | id in report ::
              reports[id] == Recorded(Entries(kept, id), Entry(tokenOf(report[id]), report[id]))
  {
    reports := kept;
    var todo := report.Keys;
    while todo != {}
      invariant todo <= report.Keys && reports == RecordedFor(kept, report, tokenOf, todo)
      decreases |todo|
    {
      var id := AnyOf(todo);
      var updated := RecordOne(Entries(reports, id), Entry(tokenOf(report[id]), report[id]));
      RecordedForNext(kept, report, tokenOf, todo, id);
      reports := reports[id := updated];
      todo := todo - {id};
    }
  }

  method RecordOne(entries: seq<Entry>, e: Entry) returns (updated: seq<Entry>)
    ensures updated == Recorded(entries, e)
  {
    updated := [];
    for i := 0 to |entries|
      invariant updated == Without(entries[..i], e.token)
    {
      assert entries[..i + 1][..i] == entries[..i];
      if entries[i].token != e.token { updated := updated + [entries[i]]; }
    }
    assert entries[..|entries|] == entries;
    updated := updated + [e];
    if |updated| > MAX_REPORTS_PER_RULE { updated := updated[|updated| - MAX_REPORTS_PER_RULE..]; }
  }

  // ---- Over any run of reports ----

  /** A rule's entries after the reports it was in since it was last missing from one. */
  function After(run: seq<Entry>): seq<Entry> {
    if run == [] then [] else Recorded(After(run[..|run| - 1]), run[|run| - 1])
  }

  /** The same without a cap: every token's latest report, in the order of those. */
  function Uncapped(run: seq<Entry>): seq<Entry> {
    if run == [] then []
    else
      var e := run[|run| - 1];
      Without(Uncapped(run[..|run| - 1]), e.token) + [e]
  }

  ghost predicate DistinctTokens(entries: seq<Entry>) {
    forall i, j :: 0 <= i < j < |entries| ==> entries[i].token != entries[j].token
  }

  lemma DistinctAppend(a: seq<Entry>, e: Entry)
    requires DistinctTokens(a) && forall x :: x in a ==> x.token != e.token
    ensures DistinctTokens(a + [e])
  {
    forall i, j | 0 <= i < j < |a + [e]|
      ensures (a + [e])[i].token != (a + [e])[j].token
    {
      assert a[i] in a;
    }
  }

  lemma {:induction false} WithoutKeepsTheRest(entries: seq<Entry>, token: string)
    requires DistinctTokens(entries)
    ensures DistinctTokens(Without(entries, token))
    ensures forall e :: e in Without(entries, token) <==> e in entries && e.token != token
    ensures |entries| - 1 <= |Without(entries, token)| <= |entries|
    ensures (forall e :: e in entries ==> e.token != token) ==> Without(entries, token) == entries
  {
    if entries != [] {
      var init, last := entries[..|entries| - 1], entries[|entries| - 1];
      assert entries == init + [last];
      WithoutKeepsTheRest(init, token);
      assert forall e :: e in init ==> e.token != last.token;
      if last.token != token { DistinctAppend(Without(init, token), last); }
    }
  }

  lemma {:induction false} UncappedIsDistinct(run: seq<Entry>)
    ensures DistinctTokens(Uncapped(run))
    ensures forall e :: e in Uncapped(run) ==> e in run
  {
    if run != [] {
      var init, e := run[..|run| - 1], run[|run| - 1];
      assert run == init + [e];
      UncappedIsDistinct(init);
      WithoutKeepsTheRest(Uncapped(init), e.token);
      DistinctAppend(Without(Uncapped(init), e.token), e);
    }
  }

  /** Removing a token before cutting to the newest n gives what cutting first would, up to the cut. */
  lemma {:induction false} WithoutNewest(entries: seq<Entry>, token: string, n: nat)
    requires DistinctTokens(entries) && n > 0
    ensures Newest(Without(Newest(entries, n), token), n - 1) == Newest(Without(entries, token), n - 1)
  {
    if |entries| > n {
      var k := |entries| - n;
      var head, tail := entries[..k], entries[k..];
      assert entries == head + tail;
      WithoutConcat(head, tail, token);
      WithoutKeepsTheRest(tail, token);
      NewestOfConcat(Without(head, token), Without(tail, token), n - 1);
    }
  }

  lemma NewestOfConcat<T>(a: seq<T>, b: seq<T>, n: nat)
    requires n <= |b|
    ensures Newest(a + b, n) == Newest(b, n)
  {
    assert (a + b)[|a + b| - n..] == b[|b| - n..];
  }

  lemma {:induction false} WithoutConcat(a: seq<Entry>, b: seq<Entry>, token: string)
    ensures Without(a + b, token) == Without(a, token) + Without(b, token)
  {
    if b == [] {
      assert a + b == a;
    } else {
      var init := b[..|b| - 1];
      assert (a + b)[..|a + b| - 1] == a + init;
      WithoutConcat(a, init, token);
    }
  }

  /** Cutting at every report keeps exactly the newest entries of the history that is never cut. */
  lemma {:induction false} CapKeepsTheNewest(run: seq<Entry>)
    ensures After(run) == Newest(Uncapped(run), MAX_REPORTS_PER_RULE)
  {
    if run != [] {
      var init, e := run[..|run| - 1], run[|run| - 1];
      var n := MAX_REPORTS_PER_RULE;
      CapKeepsTheNewest(init);
      UncappedIsDistinct(init);
      WithoutNewest(Uncapped(init), e.token, n);
      var x, y := Without(Newest(Uncapped(init), n), e.token), Without(Uncapped(init), e.token);
      assert Newest(x + [e], n) == Newest(x, n - 1) + [e];
      assert Newest(y + [e], n) == Newest(y, n - 1) + [e];
    }
  }

  /** Distinct tokens, newest last, within the cap, over any run. */
  lemma HistoryStaysInShape(run: seq<Entry>)
    ensures DistinctTokens(After(run)) && |After(run)| <= MAX_REPORTS_PER_RULE
    ensures run != [] ==> After(run) != [] && After(run)[|After(run)| - 1] == run[|run| - 1]
  {
    CapKeepsTheNewest(run);
    UncappedIsDistinct(run);
  }

  ghost function TokensOf(run: seq<Entry>): set<string> { set e | e in run :: e.token }

  /** One more report of another token moves a token's place, not what stands after it. */
  lemma PlaceAfterReport(all: seq<Entry>, p: nat, e: Entry) returns (i: nat)
    requires DistinctTokens(all) && p < |all| && all[p].token != e.token
    ensures var next := Without(all, e.token) + [e];
            && i < |next| && next[i] == all[p]
            && TokensOf(next[i + 1..]) == TokensOf(all[p + 1..]) + {e.token}
  {
    var head, tail := all[..p + 1], all[p + 1..];
    assert all == head + tail && head[..p] == all[..p];
    WithoutConcat(head, tail, e.token);
    var h, t := Without(head, e.token), Without(tail, e.token);
    assert h == Without(head[..p], e.token) + [all[p]];
    i := |h| - 1;
    var next := Without(all, e.token) + [e];
    assert next == h + (t + [e]);
    assert next[i + 1..] == t + [e];
    TokensOfConcat(t, e);
    TokensWithout(tail, e.token);
  }

  lemma LaterTokensGrow(init: seq<Entry>, k: nat, e: Entry)
    requires k < |init|
    ensures TokensOf((init + [e])[k + 1..]) == TokensOf(init[k + 1..]) + {e.token}
  {
    assert (init + [e])[k + 1..] == init[k + 1..] + [e];
    TokensOfConcat(init[k + 1..], e);
  }

  ghost predicate StandsBefore(entries: seq<Entry>, i: int, e: Entry, later: set<string>) {
    0 <= i < |entries| && entries[i] == e && TokensOf(entries[i + 1..]) == later
  }

  /** In the uncut history exactly the tokens reported since stand after a token's latest report. */
  lemma {:induction false} LaterTokensStandAfter(run: seq<Entry>, k: nat) returns (i: nat)
    requires k < |run| && forall j :: k < j < |run| ==> run[j].token != run[k].token
    ensures StandsBefore(Uncapped(run), i, run[k], TokensOf(run[k + 1..]))
    decreases |run|
  {
    var init, e := run[..|run| - 1], run[|run| - 1];
    if k == |run| - 1 {
      i := |Uncapped(run)| - 1;
      assert run[k + 1..] == [] && Uncapped(run)[i + 1..] == [];
    } else {
      assert forall j :: 0 <= j < |init| ==> init[j] == run[j];
      var p := LaterTokensStandAfter(init, k);
      UncappedIsDistinct(init);
      i := PlaceAfterReport(Uncapped(init), p, e);
      assert run == init + [e];
      LaterTokensGrow(init, k, e);
    }
  }

  lemma TokensOfConcat(a: seq<Entry>, e: Entry)
    ensures TokensOf(a + [e]) == TokensOf(a) + {e.token}
  {
    assert forall x :: x in a + [e] <==> x in a || x == e;
  }

  lemma TokensWithout(a: seq<Entry>, token: string)
    requires DistinctTokens(a)
    ensures TokensOf(Without(a, token)) == TokensOf(a) - {token}
  {
    WithoutKeepsTheRest(a, token);
    forall t | t in TokensOf(a) - {token}
      ensures t in TokensOf(Without(a, token))
    {
      var e :| e in a && e.token == t;
      assert e in Without(a, token);
    }
  }

  lemma {:induction false} DistinctCount(a: seq<Entry>)
    requires DistinctTokens(a)
    ensures |TokensOf(a)| == |a|
  {
    if a == [] {
      assert TokensOf(a) == {};
    } else {
      var init, last := a[..|a| - 1], a[|a| - 1];
      assert a == init + [last];
      DistinctCount(init);
      TokensOfConcat(init, last);
      assert last.token !in TokensOf(init);
    }
  }

  lemma InNewest<T>(s: seq<T>, i: nat, n: nat)
    requires i < |s| && forall j :: 0 <= j < |s| && s[j] == s[i] ==> j == i
    ensures s[i] in Newest(s, n) <==> |s| - i <= n
  {
    if |s| > n {
      var k := |s| - n;
      if i >= k { assert s[k..][i - k] == s[i]; }
      if s[i] in s[k..] {
        var j :| 0 <= j < n && s[k..][j] == s[i];
        assert s[k + j] == s[i];
      }
    }
  }

  /** A dialog left open finds the report it started from exactly when fewer than eight other tokens came after that
      report's latest occurrence. */
  lemma ReportIsFoundIffRecent(run: seq<Entry>, k: nat)
    requires k < |run| && forall j :: k < j < |run| ==> run[j].token != run[k].token
    ensures run[k] in After(run) <==> |TokensOf(run[k + 1..])| < MAX_REPORTS_PER_RULE
    ensures forall e :: e in After(run) && e.token == run[k].token ==> e == run[k]
  {
    var i := LaterTokensStandAfter(run, k);
    CapKeepsTheNewest(run);
    UncappedIsDistinct(run);
    var all := Uncapped(run);
    DistinctCount(all[i + 1..]);
    InNewest(all, i, MAX_REPORTS_PER_RULE);
    forall e | e in After(run) && e.token == run[k].token
      ensures e == run[k]
    {
      assert e in all;
      var j :| 0 <= j < |all| && all[j] == e;
      assert j == i;
    }
  }
}
