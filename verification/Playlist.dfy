/**
 The in-progress recording's HLS playlist (src/M3u8SegmentParser.cpp): which segments it lists past the
 ones already known, and whether it says that no more will follow.
 */
module Playlist {
  import opened Common

  /** What std::stod makes of an #EXTINF duration; the text format itself is not modelled. */
  datatype Number = Throws | NotFinite | Finite(value: real)

  type ReadNumber = string -> Number

  const MAX_SEGMENT_SECONDS := 86400.0

  datatype PlaylistEntry = PlaylistEntry(url: string, durationSec: real)

  // ---- Lines ----

  function IndexOf(s: string, c: char): (index: Option<nat>)
    ensures index.Some? ==> index.value < |s| && s[index.value] == c && c !in s[..index.value]
    ensures index.None? ==> c !in s
  {
    if s == "" then None
    else if s[0] == c then Some(0)
    else match IndexOf(s[1..], c)
         case None => None
         case Some(i) => assert s[..i + 1] == [s[0]] + s[1..][..i]; Some(i + 1)
  }

  lemma {:induction false} FirstIndex(s: string, c: char, i: nat)
    requires i < |s| && s[i] == c && c !in s[..i]
    ensures IndexOf(s, c) == Some(i)
  {
    if i > 0 {
      assert s[0] in s[..i] && s[1..][..i - 1] == s[..i][1..];
      FirstIndex(s[1..], c, i - 1);
    }
  }

  /** The text cut at every newline; the piece after the last newline counts, empty or not. */
  function RawLines(text: string): seq<string>
    decreases |text|
  {
    match IndexOf(text, '\n')
    case None => [text]
    case Some(i) => [text[..i]] + RawLines(text[i + 1..])
  }

  /** The lines a newline ended, and what is left after them. */
  function Terminated(text: string): seq<string>
    decreases |text|
  {
    match IndexOf(text, '\n')
    case None => []
    case Some(i) => [text[..i]] + Terminated(text[i + 1..])
  }

  function LastLine(text: string): string
    decreases |text|
  {
    match IndexOf(text, '\n')
    case None => text
    case Some(i) => LastLine(text[i + 1..])
  }

  lemma Regroup(a: seq<string>, b: seq<string>, c: seq<string>)
    ensures a + (b + c) == a + b + c
  {
  }

  /** The line loop of both parsers: find the next newline, take what is before it, go on behind it. */
  method SplitLines(text: string) returns (lines: seq<string>)
    ensures lines == RawLines(text)
  {
    lines := [];
    var rest := text;
    while true
      invariant RawLines(text) == lines + RawLines(rest)
      decreases |rest|
    {
      var newline := IndexOf(rest, '\n');
      if newline.None? { return lines + [rest]; }
      Regroup(lines, [rest[..newline.value]], RawLines(rest[newline.value + 1..]));
      lines := lines + [rest[..newline.value]];
      rest := rest[newline.value + 1..];
    }
  }

  /** A line without its carriage return, if it ends in one. */
  function Chomp(line: string): string {
    if line != "" && line[|line| - 1] == '\r' then line[..|line| - 1] else line
  }

  lemma ChompDropsOneReturn(line: string)
    ensures Chomp(line + "\r") == line
    ensures line == "" || line[|line| - 1] != '\r' ==> Chomp(line) == line
  {
  }

  predicate StartsWith(s: string, prefix: string) { prefix <= s }

  predicate IsDuration(line: string) { StartsWith(Chomp(line), "#EXTINF:") }

  predicate IsUri(line: string) { Chomp(line) != "" && Chomp(line)[0] != '#' }

  function Clamped(n: Number): (seconds: real)
    ensures 0.0 <= seconds <= MAX_SEGMENT_SECONDS
    ensures seconds != 0.0 ==> n.Finite? && (seconds == n.value || n.value > MAX_SEGMENT_SECONDS == seconds)
    ensures n.Finite? && 0.0 <= n.value <= MAX_SEGMENT_SECONDS ==> seconds == n.value
    ensures n.Finite? && n.value > MAX_SEGMENT_SECONDS ==> seconds == MAX_SEGMENT_SECONDS
  {
    match n
    case Finite(v) => if v < 0.0 then 0.0 else if v > MAX_SEGMENT_SECONDS then MAX_SEGMENT_SECONDS else v
    case _ => 0.0
  }

  /** The seconds an #EXTINF line gives: up to its first comma. */
  function DurationOf(line: string, stod: ReadNumber): (seconds: real)
    requires IsDuration(line)
    ensures 0.0 <= seconds <= MAX_SEGMENT_SECONDS
  {
    var text := Chomp(line)[8..];
    Clamped(stod(match IndexOf(text, ',') case None => text case Some(i) => text[..i]))
  }

  /** The text between the tag and the first comma, or all of it, is the number that is read. */
  lemma DurationIsReadUpToTheComma(line: string, number: string, title: string, stod: ReadNumber)
    requires ',' !in number && (Chomp(line) == "#EXTINF:" + number || Chomp(line) == "#EXTINF:" + number + "," + title)
    ensures IsDuration(line) && DurationOf(line, stod) == Clamped(stod(number))
  {
    var text := Chomp(line)[8..];
    if Chomp(line) == "#EXTINF:" + number {
      assert text == number;
    } else {
      assert text == number + "," + title;
      assert text[..|number|] == number;
      FirstIndex(text, ',', |number|);
    }
  }

  function Resolved(baseDir: string, uri: string): string {
    if StartsWith(uri, "http://") || StartsWith(uri, "https://") then uri else baseDir + uri
  }

  // ---- The scan ----

  function PendingAfter(line: string, pending: real, stod: ReadNumber): real {
    if IsDuration(line) then DurationOf(line, stod) else if IsUri(line) then 0.0 else pending
  }

  function Scan(lines: seq<string>, pending: real, baseDir: string, stod: ReadNumber): seq<PlaylistEntry> {
    if lines == [] then []
    else
      var rest := Scan(lines[1..], PendingAfter(lines[0], pending, stod), baseDir, stod);
      if IsUri(lines[0]) then [PlaylistEntry(Resolved(baseDir, Chomp(lines[0])), pending)] + rest else rest
  }

  /** Everything a playlist lists, in order. */
  function Entries(text: string, baseDir: string, stod: ReadNumber): seq<PlaylistEntry> {
    Scan(RawLines(text), 0.0, baseDir, stod)
  }

  function Drop<T>(s: seq<T>, n: int): seq<T> {
    if n <= 0 then s else if n <= |s| then s[n..] else []
  }

  /** With `n` entries still to skip, what is parsed and what the remaining lines give make up the goal. */
  ghost predicate PartWay(goal: seq<PlaylistEntry>, done: seq<PlaylistEntry>, lines: seq<string>, pending: real, n: int,
                          baseDir: string, stod: ReadNumber) {
    done + Drop(Scan(lines, pending, baseDir, stod), n) == goal
  }

  lemma PartWayStarts(lines: seq<string>, n: int, baseDir: string, stod: ReadNumber)
    ensures PartWay(Drop(Scan(lines, 0.0, baseDir, stod), n), [], lines, 0.0, n, baseDir, stod)
  {
  }

  lemma PartWayEnds(goal: seq<PlaylistEntry>, done: seq<PlaylistEntry>, pending: real, n: int, baseDir: string,
                    stod: ReadNumber)
    requires PartWay(goal, done, [], pending, n, baseDir, stod)
    ensures done == goal
  {
    assert Drop<PlaylistEntry>([], n) == [];
  }

  /** What one line adds while `n` entries are still to skip, and how many are left to skip after it. */
  function Added(line: string, pending: real, n: int, baseDir: string): seq<PlaylistEntry> {
    if IsUri(line) && n <= 0 then [PlaylistEntry(Resolved(baseDir, Chomp(line)), pending)] else []
  }

  function LeftToSkip(line: string, n: int): int { if IsUri(line) then n - 1 else n }

  lemma ScanLine(goal: seq<PlaylistEntry>, done: seq<PlaylistEntry>, line: string, rest: seq<string>, pending: real,
                 n: int, baseDir: string, stod: ReadNumber)
    requires PartWay(goal, done, [line] + rest, pending, n, baseDir, stod)
    ensures PartWay(goal, done + Added(line, pending, n, baseDir), rest, PendingAfter(line, pending, stod),
                    LeftToSkip(line, n), baseDir, stod)
  {
    assert ([line] + rest)[1..] == rest;
    var later := Scan(rest, PendingAfter(line, pending, stod), baseDir, stod);
    if !IsUri(line) {
      assert done + [] == done;
    } else {
      var first := [PlaylistEntry(Resolved(baseDir, Chomp(line)), pending)];
      if n > 0 {
        assert done + [] == done;
        DropFirst(first, later, n);
      } else {
        Reassociate(done, first, later);
      }
    }
  }

  lemma DropFirst(first: seq<PlaylistEntry>, later: seq<PlaylistEntry>, n: int)
    requires |first| == 1 && n > 0
    ensures Drop(first + later, n) == Drop(later, n - 1)
  {
  }

  lemma Reassociate(a: seq<PlaylistEntry>, b: seq<PlaylistEntry>, c: seq<PlaylistEntry>)
    ensures a + (b + c) == a + b + c
  {
  }

  /** Skipping the known count while scanning drops exactly that many entries from the full parse. */
  method ParseNewM3u8SegmentEntries(text: string, baseDir: string, known: nat, stod: ReadNumber)
    returns (pending: seq<PlaylistEntry>)
    ensures pending == Drop(Entries(text, baseDir, stod), known)
  {
    var lines := SplitLines(text);
    pending := ScanLines(lines, baseDir, known, stod);
  }

  /** One line of the loop: a duration is kept pending, a URI takes it and counts. */
  method TakeLine(line: string, pendingBefore: real, toSkip: int, baseDir: string, stod: ReadNumber)
    returns (added: seq<PlaylistEntry>, pendingDurationSec: real, leftToSkip: int)
    ensures added == Added(line, pendingBefore, toSkip, baseDir)
    ensures pendingDurationSec == PendingAfter(line, pendingBefore, stod) && leftToSkip == LeftToSkip(line, toSkip)
  {
    added, pendingDurationSec, leftToSkip := [], pendingBefore, toSkip;
    if IsDuration(line) {
      DurationIsNoUri(line);
      pendingDurationSec := DurationOf(line, stod);
    } else if IsUri(line) {
      if toSkip <= 0 { added := [PlaylistEntry(Resolved(baseDir, Chomp(line)), pendingBefore)]; }
      leftToSkip := toSkip - 1;
      pendingDurationSec := 0.0;
    }
  }

  method ScanLines(lines: seq<string>, baseDir: string, known: nat, stod: ReadNumber)
    returns (pending: seq<PlaylistEntry>)
    ensures pending == Drop(Scan(lines, 0.0, baseDir, stod), known)
  {
    pending := [];
    var toSkip: int, pendingDurationSec := known, 0.0;
    ghost var goal := Drop(Scan(lines, 0.0, baseDir, stod), known);
    assert lines[0..] == lines;
    PartWayStarts(lines, known, baseDir, stod);
    for i := 0 to |lines|
      invariant PartWay(goal, pending, lines[i..], pendingDurationSec, toSkip, baseDir, stod)
    {
      assert lines[i..] == [lines[i]] + lines[i + 1..];
      ScanLine(goal, pending, lines[i], lines[i + 1..], pendingDurationSec, toSkip, baseDir, stod);
      var added;
      added, pendingDurationSec, toSkip := TakeLine(lines[i], pendingDurationSec, toSkip, baseDir, stod);
      pending := pending + added;
    }
    assert lines[|lines|..] == [];
    PartWayEnds(goal, pending, pendingDurationSec, toSkip, baseDir, stod);
  }

  lemma DurationIsNoUri(line: string)
    requires IsDuration(line)
    ensures !IsUri(line)
  {
    assert Chomp(line)[0] == "#EXTINF:"[0];
  }

  // ---- What the scan finds, said without scanning ----

  function UriCount(lines: seq<string>): nat {
    if lines == [] then 0 else UriCount(lines[..|lines| - 1]) + if IsUri(lines[|lines| - 1]) then 1 else 0
  }

  /** Looking back from a line: the nearest #EXTINF since the URI before it, or 0 seconds. */
  function DurationBefore(lines: seq<string>, stod: ReadNumber): real {
    if lines == [] then 0.0
    else
      var last := lines[|lines| - 1];
      if IsDuration(last) then DurationOf(last, stod)
      else if IsUri(last) then 0.0
      else DurationBefore(lines[..|lines| - 1], stod)
  }

  function PendingOver(lines: seq<string>, pending: real, stod: ReadNumber): real {
    if lines == [] then pending else PendingOver(lines[1..], PendingAfter(lines[0], pending, stod), stod)
  }

  lemma {:induction false} ScanConcat(a: seq<string>, b: seq<string>, pending: real, baseDir: string, stod: ReadNumber)
    ensures Scan(a + b, pending, baseDir, stod) ==
            Scan(a, pending, baseDir, stod) + Scan(b, PendingOver(a, pending, stod), baseDir, stod)
  {
    if a == [] {
      assert a + b == b;
    } else {
      assert (a + b)[1..] == a[1..] + b;
      ScanConcat(a[1..], b, PendingAfter(a[0], pending, stod), baseDir, stod);
    }
  }

  lemma {:induction false} PendingConcat(a: seq<string>, line: string, pending: real, stod: ReadNumber)
    ensures PendingOver(a + [line], pending, stod) == PendingAfter(line, PendingOver(a, pending, stod), stod)
  {
    if a == [] {
      assert a + [line] == [line];
    } else {
      assert (a + [line])[1..] == a[1..] + [line];
      PendingConcat(a[1..], line, PendingAfter(a[0], pending, stod), stod);
    }
  }

  lemma {:induction false} ScanCounts(lines: seq<string>, baseDir: string, stod: ReadNumber)
    ensures |Scan(lines, 0.0, baseDir, stod)| == UriCount(lines)
    ensures PendingOver(lines, 0.0, stod) == DurationBefore(lines, stod)
  {
    if lines != [] {
      var init, last := lines[..|lines| - 1], lines[|lines| - 1];
      ScanCounts(init, baseDir, stod);
      assert lines == init + [last];
      ScanConcat(init, [last], 0.0, baseDir, stod);
      PendingConcat(init, last, 0.0, stod);
    }
  }

  /** The n-th URI line is the n-th entry, with its own URL and the duration announced for it. */
  lemma UriLineIsItsEntry(lines: seq<string>, j: nat, baseDir: string, stod: ReadNumber)
    requires j < |lines| && Chomp(lines[j]) != "" && Chomp(lines[j])[0] != '#'
    ensures var n, entries := UriCount(lines[..j]), Scan(lines, 0.0, baseDir, stod);
            && n < |entries| && entries[n].durationSec == DurationBefore(lines[..j], stod)
            && var uri := Chomp(lines[j]);
               entries[n].url == if "http://" <= uri || "https://" <= uri then uri else baseDir + uri
  {
    assert lines == lines[..j] + lines[j..];
    ScanConcat(lines[..j], lines[j..], 0.0, baseDir, stod);
    ScanCounts(lines[..j], baseDir, stod);
  }

  /** Every line that is neither empty nor a tag or comment is one more entry, and no other line is. */
  lemma LinesThatAreEntries(lines: seq<string>, j: nat, baseDir: string, stod: ReadNumber)
    requires j < |lines|
    ensures |Scan(lines[..j + 1], 0.0, baseDir, stod)| ==
            |Scan(lines[..j], 0.0, baseDir, stod)| +
            if Chomp(lines[j]) != "" && Chomp(lines[j])[0] != '#' then 1 else 0
  {
    ScanCounts(lines[..j + 1], baseDir, stod);
    ScanCounts(lines[..j], baseDir, stod);
    assert lines[..j + 1][..j] == lines[..j];
  }

  // ---- Appending ----

  lemma {:induction false} LinesOf(text: string)
    ensures RawLines(text) == Terminated(text) + [LastLine(text)]
    decreases |text|
  {
    var newline := IndexOf(text, '\n');
    if newline.Some? {
      var rest := text[newline.value + 1..];
      LinesOf(rest);
      Regroup([text[..newline.value]], Terminated(rest), [LastLine(rest)]);
    }
  }

  lemma FirstLineStays(text: string, more: string, i: nat)
    requires IndexOf(text, '\n') == Some(i)
    ensures RawLines(text + more) == [text[..i]] + RawLines(text[i + 1..] + more)
  {
    var longer := text + more;
    assert longer[..i] == text[..i];
    FirstIndex(longer, '\n', i);
    assert longer[i + 1..] == text[i + 1..] + more;
  }

  lemma {:induction false} LinesOfAppended(text: string, more: string)
    ensures RawLines(text + more) == Terminated(text) + RawLines(LastLine(text) + more)
    decreases |text|
  {
    var newline := IndexOf(text, '\n');
    if newline.None? {
      assert [] + RawLines(text + more) == RawLines(text + more);
    } else {
      var first, rest := text[..newline.value], text[newline.value + 1..];
      FirstLineStays(text, more, newline.value);
      LinesOfAppended(rest, more);
      Regroup([first], Terminated(rest), RawLines(LastLine(rest) + more));
    }
  }

  /** How a playlist and a longer one parse: alike over the terminated lines, then each by its own last part. */
  lemma EntriesOfAppended(text: string, more: string, baseDir: string, stod: ReadNumber)
    returns (head: seq<PlaylistEntry>, d: real)
    ensures Entries(text, baseDir, stod) == head + Scan([LastLine(text)], d, baseDir, stod)
    ensures Entries(text + more, baseDir, stod) == head + Scan(RawLines(LastLine(text) + more), d, baseDir, stod)
  {
    var init := Terminated(text);
    head, d := Scan(init, 0.0, baseDir, stod), PendingOver(init, 0.0, stod);
    LinesOf(text);
    ScanConcat(init, [LastLine(text)], 0.0, baseDir, stod);
    LinesOfAppended(text, more);
    ScanConcat(init, RawLines(LastLine(text) + more), 0.0, baseDir, stod);
  }

  /** Appending to a playlist only ever extends its parse exactly when its last line, if cut short, is not a URI. */
  lemma AppendingExtendsIff(text: string, baseDir: string, stod: ReadNumber)
    ensures (forall more: string :: Entries(text, baseDir, stod) <= Entries(text + more, baseDir, stod))
            <==> !IsUri(LastLine(text))
  {
    if IsUri(LastLine(text)) {
      CutUriChanges(text, baseDir, stod);
    } else {
      forall more: string
        ensures Entries(text, baseDir, stod) <= Entries(text + more, baseDir, stod)
      {
        LongerTextExtends(text, more, baseDir, stod);
      }
    }
  }

  lemma LongerTextExtends(text: string, more: string, baseDir: string, stod: ReadNumber)
    requires !IsUri(LastLine(text))
    ensures Entries(text, baseDir, stod) <= Entries(text + more, baseDir, stod)
  {
    var head, d := EntriesOfAppended(text, more, baseDir, stod);
    ScanNone(LastLine(text), d, baseDir, stod);
    assert head + [] == head;
  }

  lemma ScanNone(line: string, pending: real, baseDir: string, stod: ReadNumber)
    requires !IsUri(line)
    ensures Scan([line], pending, baseDir, stod) == []
  {
    assert [line][1..] == [];
  }

  // ---- The part of a playlist that can no longer change ----

  /** What the terminated lines list; an append can only add to it. */
  function Settled(text: string, baseDir: string, stod: ReadNumber): seq<PlaylistEntry> {
    Scan(Terminated(text), 0.0, baseDir, stod)
  }

  /** A text not cut in a URI lists just that, and any text at least that. */
  lemma SettledIsTheParse(text: string, baseDir: string, stod: ReadNumber)
    ensures !IsUri(LastLine(text)) ==> Entries(text, baseDir, stod) == Settled(text, baseDir, stod)
    ensures Settled(text, baseDir, stod) <= Entries(text, baseDir, stod)
  {
    var init, last := Terminated(text), LastLine(text);
    LinesOf(text);
    ScanConcat(init, [last], 0.0, baseDir, stod);
    if !IsUri(last) {
      ScanNone(last, PendingOver(init, 0.0, stod), baseDir, stod);
      assert Settled(text, baseDir, stod) + [] == Settled(text, baseDir, stod);
    }
  }

  lemma FirstTerminatedStays(text: string, more: string, i: nat)
    requires IndexOf(text, '\n') == Some(i)
    ensures Terminated(text + more) == [text[..i]] + Terminated(text[i + 1..] + more)
  {
    var longer := text + more;
    assert longer[..i] == text[..i];
    FirstIndex(longer, '\n', i);
    assert longer[i + 1..] == text[i + 1..] + more;
  }

  lemma {:induction false} TerminatedOfAppended(text: string, more: string)
    ensures Terminated(text + more) == Terminated(text) + Terminated(LastLine(text) + more)
    decreases |text|
  {
    var newline := IndexOf(text, '\n');
    if newline.None? {
      assert [] + Terminated(text + more) == Terminated(text + more);
    } else {
      var first, rest := text[..newline.value], text[newline.value + 1..];
      FirstTerminatedStays(text, more, newline.value);
      TerminatedOfAppended(rest, more);
      Regroup([first], Terminated(rest), Terminated(LastLine(rest) + more));
    }
  }

  /** Whatever is appended, cut or not, what was settled stays where it was. */
  lemma SettledGrows(text: string, longer: string, baseDir: string, stod: ReadNumber)
    requires text <= longer
    ensures Settled(text, baseDir, stod) <= Settled(longer, baseDir, stod)
  {
    var more := longer[|text|..];
    assert longer == text + more;
    TerminatedOfAppended(text, more);
    ScanConcat(Terminated(text), Terminated(LastLine(text) + more), 0.0, baseDir, stod);
  }

  /** However often an append-only playlist is fetched, each parse extends every earlier one not cut in a URI. */
  lemma GrowingPlaylistParses(texts: seq<string>, i: nat, j: nat, baseDir: string, stod: ReadNumber)
    requires i <= j < |texts| && forall k, l :: 0 <= k && l == k + 1 && l < |texts| ==> texts[k] <= texts[l]
    requires !IsUri(LastLine(texts[i]))
    ensures Entries(texts[i], baseDir, stod) <= Entries(texts[j], baseDir, stod)
  {
    TextChain(texts, i, j);
    ParseOfLonger(texts[i], texts[j], baseDir, stod);
  }

  lemma ParseOfLonger(text: string, longer: string, baseDir: string, stod: ReadNumber)
    requires text <= longer && !IsUri(LastLine(text))
    ensures Entries(text, baseDir, stod) <= Entries(longer, baseDir, stod)
  {
    SettledIsTheParse(text, baseDir, stod);
    SettledGrows(text, longer, baseDir, stod);
    SettledIsTheParse(longer, baseDir, stod);
  }

  lemma {:induction false} TextChain(texts: seq<string>, i: nat, j: nat)
    requires i <= j < |texts| && forall k, l :: 0 <= k && l == k + 1 && l < |texts| ==> texts[k] <= texts[l]
    ensures texts[i] <= texts[j]
    decreases j
  {
    if i < j {
      TextChain(texts, i, j - 1);
      assert texts[j - 1] <= texts[j];
    }
  }

  lemma {:induction false} NoNewlineInLast(text: string)
    ensures '\n' !in LastLine(text)
    decreases |text|
  {
    var newline := IndexOf(text, '\n');
    if newline.Some? { NoNewlineInLast(text[newline.value + 1..]); }
  }

  lemma ScanOne(line: string, pending: real, baseDir: string, stod: ReadNumber)
    requires IsUri(line)
    ensures Scan([line], pending, baseDir, stod) == [PlaylistEntry(Resolved(baseDir, Chomp(line)), pending)]
  {
    assert [line][1..] == [];
  }

  /** One character more makes the cut URI another one. */
  lemma CutUriChanges(text: string, baseDir: string, stod: ReadNumber)
    requires IsUri(LastLine(text))
    ensures !(Entries(text, baseDir, stod) <= Entries(text + "x", baseDir, stod))
  {
    var head, d := EntriesOfAppended(text, "x", baseDir, stod);
    LastLineCut(text);
    var a, b := CutUri(LastLine(text), d, baseDir, stod);
    DifferentAt(head, a, b, d);
  }

  lemma CutUri(last: string, d: real, baseDir: string, stod: ReadNumber) returns (a: string, b: string)
    requires IsUri(last)
    ensures Scan([last], d, baseDir, stod) == [PlaylistEntry(a, d)]
    ensures Scan([last + "x"], d, baseDir, stod) == [PlaylistEntry(b, d)]
    ensures a != b
  {
    var uri := Chomp(last);
    var tail := if uri == last then "x" else "\rx";
    assert last + "x" == uri + tail && Chomp(uri + tail) == uri + tail;
    a, b := Resolved(baseDir, uri), Resolved(baseDir, uri + tail);
    ScanOne(last, d, baseDir, stod);
    ScanOne(uri + tail, d, baseDir, stod);
    ResolvedDiffers(uri, tail, baseDir);
  }

  lemma LastLineCut(text: string)
    ensures RawLines(LastLine(text) + "x") == [LastLine(text) + "x"]
  {
    NoNewlineInLast(text);
  }

  lemma DifferentAt(head: seq<PlaylistEntry>, a: string, b: string, d: real)
    requires a != b
    ensures !(head + [PlaylistEntry(a, d)] <= head + [PlaylistEntry(b, d)])
  {
    assert (head + [PlaylistEntry(a, d)])[|head|] != (head + [PlaylistEntry(b, d)])[|head|];
  }

  lemma ResolvedDiffers(uri: string, tail: string, baseDir: string)
    requires tail == "x" || tail == "\rx"
    ensures Resolved(baseDir, uri) != Resolved(baseDir, uri + tail)
  {
    PrefixNeedsNoTail(uri, tail, "http://");
    PrefixNeedsNoTail(uri, tail, "https://");
  }

  lemma PrefixNeedsNoTail(uri: string, tail: string, prefix: string)
    requires tail == "x" || tail == "\rx"
    requires 'x' !in prefix && '\r' !in prefix
    ensures StartsWith(uri + tail, prefix) <==> StartsWith(uri, prefix)
  {
    if |uri| < |prefix| {
      assert prefix[|uri|] in prefix;
      assert prefix[|uri|] != tail[0] && (uri + tail)[|uri|] == tail[0];
    }
  }

  // ---- The end tag ----

  const END_TAG := "#EXT-X-ENDLIST"

  function Stripped(line: string): string {
    if line != "" && line[|line| - 1] in "\r \t" then Stripped(line[..|line| - 1]) else line
  }

  predicate HasEndList(text: string) {
    var lines := RawLines(text);
    exists i :: 0 <= i < |lines| && Stripped(lines[i]) == END_TAG
  }

  /** The end of a line once its trailing blanks are cut. */
  method CutBlanks(line: string) returns (cut: string)
    ensures cut == Stripped(line)
  {
    var lineEnd := |line|;
    assert line[..lineEnd] == line;
    while lineEnd > 0 && line[lineEnd - 1] in "\r \t"
      invariant 0 <= lineEnd <= |line|
      invariant Stripped(line[..lineEnd]) == Stripped(line)
    {
      assert line[..lineEnd][..lineEnd - 1] == line[..lineEnd - 1];
      lineEnd := lineEnd - 1;
    }
    return line[..lineEnd];
  }

  method M3u8HasEndList(text: string) returns (found: bool)
    ensures found == HasEndList(text)
  {
    var lines := SplitLines(text);
    for i := 0 to |lines|
      invariant forall k :: 0 <= k < i ==> Stripped(lines[k]) != END_TAG
    {
      var cut := CutBlanks(lines[i]);
      if cut == END_TAG { return true; }
    }
    return false;
  }
}
