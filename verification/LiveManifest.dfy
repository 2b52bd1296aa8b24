/**
 The live buffer's manifest (src/LiveManifestParser.cpp): which of its entries are new to this
 stream, and the oldest sequence the rolling buffer still lists.
 */
module LiveManifest {
  import opened Common

  const MAX_SEGMENT_BYTES := 1099511627776
  const MAX_SEGMENT_MS := 86400000

  /** One entry as the server sent it; a missing field reads as -1, "" or 0. */
  datatype RawEntry = RawEntry(sequence: int, filename: string, byteSize: int, durationMs: int)

  /** One entry as the stream takes it. */
  datatype Entry = Entry(sequence: int, filename: string, byteSize: int, durationMs: int)
  {
    predicate Valid() {
      0 <= sequence && filename != "" && 0 < byteSize <= MAX_SEGMENT_BYTES && 0 <= durationMs <= MAX_SEGMENT_MS
    }
  }

  predicate Usable(raw: RawEntry) {
    0 <= raw.sequence && raw.filename != "" && 0 < raw.byteSize
  }

  function Cleaned(raw: RawEntry): (e: Entry)
    ensures Usable(raw) ==> e.Valid()
    ensures e.sequence == raw.sequence && e.filename == raw.filename
    ensures e.byteSize == raw.byteSize || raw.byteSize > MAX_SEGMENT_BYTES == e.byteSize
    ensures e.durationMs == raw.durationMs || (raw.durationMs < 0 == e.durationMs) ||
            (raw.durationMs > MAX_SEGMENT_MS == e.durationMs)
  {
    Entry(raw.sequence, raw.filename, Min(raw.byteSize, MAX_SEGMENT_BYTES), Max(0, Min(raw.durationMs, MAX_SEGMENT_MS)))
  }

  function NewEntries(raw: seq<RawEntry>, newestKept: int): seq<Entry> {
    if raw == [] then []
    else if Usable(raw[0]) && raw[0].sequence > newestKept then
      [Cleaned(raw[0])] + NewEntries(raw[1..], raw[0].sequence)
    else NewEntries(raw[1..], newestKept)
  }

  /** One entry of the loop that has passed the checks, its size and duration clamped. */
  method CleanEntry(raw: RawEntry) returns (e: Entry)
    requires Usable(raw)
    ensures e == Cleaned(raw)
  {
    var byteSize := raw.byteSize;
    if byteSize > MAX_SEGMENT_BYTES { byteSize := MAX_SEGMENT_BYTES; }
    var durationMs := raw.durationMs;
    if durationMs < 0 {
      durationMs := 0;
    } else if durationMs > MAX_SEGMENT_MS {
      durationMs := MAX_SEGMENT_MS;
    }
    e := Entry(raw.sequence, raw.filename, byteSize, durationMs);
  }

  lemma NewEntriesFrom(raw: seq<RawEntry>, i: nat, newestKept: int)
    requires i < |raw|
    ensures NewEntries(raw[i..], newestKept) ==
            if Usable(raw[i]) && raw[i].sequence > newestKept then
              [Cleaned(raw[i])] + NewEntries(raw[i + 1..], raw[i].sequence)
            else NewEntries(raw[i + 1..], newestKept)
  {
    assert raw[i..][1..] == raw[i + 1..];
  }

  lemma Regroup(a: seq<Entry>, b: seq<Entry>, c: seq<Entry>)
    ensures a + (b + c) == a + b + c
  {
  }

  method ParseNewLiveManifestSegments(raw: seq<RawEntry>, lastKnownSequence: int) returns (out: seq<Entry>)
    ensures out == NewEntries(raw, lastKnownSequence)
  {
    out := [];
    var newestKept := lastKnownSequence;
    assert raw[0..] == raw;
    for i := 0 to |raw|
      invariant out + NewEntries(raw[i..], newestKept) == NewEntries(raw, lastKnownSequence)
    {
      NewEntriesFrom(raw, i, newestKept);
      var sequence := raw[i].sequence;
      if sequence < 0 || sequence <= newestKept { continue; }
      if raw[i].filename == "" || raw[i].byteSize <= 0 { continue; }
      var entry := CleanEntry(raw[i]);
      Regroup(out, [entry], NewEntries(raw[i + 1..], sequence));
      newestKept := sequence;
      out := out + [entry];
    }
  }

  // ---- What the kept entries are ----

  ghost predicate Ascending(entries: seq<Entry>, above: int) {
    && (forall i :: 0 <= i < |entries| ==> entries[i].Valid() && above < entries[i].sequence)
    && (forall i, j :: 0 <= i < j < |entries| ==> entries[i].sequence < entries[j].sequence)
  }

  /** Entry i is higher than everything known and than every usable entry listed before it. */
  ghost predicate RecordHigh(raw: seq<RawEntry>, known: int, i: int) {
    && 0 <= i < |raw|
    && Usable(raw[i]) && known < raw[i].sequence
    && forall j :: 0 <= j < i && Usable(raw[j]) ==> raw[j].sequence < raw[i].sequence
  }

  lemma {:induction false} NewEntriesAscend(raw: seq<RawEntry>, known: int)
    ensures Ascending(NewEntries(raw, known), known)
  {
    if raw != [] {
      if Usable(raw[0]) && raw[0].sequence > known {
        NewEntriesAscend(raw[1..], raw[0].sequence);
      } else {
        NewEntriesAscend(raw[1..], known);
      }
    }
  }

  function NextKnown(raw: seq<RawEntry>, known: int): int
    requires raw != []
  {
    if Usable(raw[0]) && raw[0].sequence > known then raw[0].sequence else known
  }

  lemma {:induction false} KeptIsRecordHigh(raw: seq<RawEntry>, known: int, e: Entry) returns (i: int)
    requires e in NewEntries(raw, known)
    ensures RecordHigh(raw, known, i) && e == Cleaned(raw[i])
  {
    if Usable(raw[0]) && raw[0].sequence > known && e == Cleaned(raw[0]) {
      i := 0;
    } else {
      var j := KeptIsRecordHigh(raw[1..], NextKnown(raw, known), e);
      TailRecordHigh(raw, known, j);
      i := j + 1;
    }
  }

  lemma {:induction false} RecordHighIsKept(raw: seq<RawEntry>, known: int, i: int)
    requires RecordHigh(raw, known, i)
    ensures Cleaned(raw[i]) in NewEntries(raw, known)
  {
    if i > 0 {
      TailRecordHigh(raw, known, i - 1);
      RecordHighIsKept(raw[1..], NextKnown(raw, known), i - 1);
    }
  }

  /** Kept means record high, in both directions: nothing usable and new is lost, nothing repeated is taken. An entry
      is a record high if it has a sequence, a file and bytes, and its sequence is above what is known and above every
      such entry before it. */
  lemma KeptIffRecordHigh(raw: seq<RawEntry>, known: int, e: Entry)
    ensures e in NewEntries(raw, known) <==> exists i :: RecordHigh(raw, known, i) && e == Cleaned(raw[i])
    ensures forall i :: 0 <= i < |raw| ==>
              (RecordHigh(raw, known, i) <==>
               && 0 <= raw[i].sequence && raw[i].filename != "" && 0 < raw[i].byteSize && known < raw[i].sequence
               && forall j :: 0 <= j < i && 0 <= raw[j].sequence && raw[j].filename != "" && 0 < raw[j].byteSize ==>
                    raw[j].sequence < raw[i].sequence)
  {
    if e in NewEntries(raw, known) { var i := KeptIsRecordHigh(raw, known, e); }
    if i :| RecordHigh(raw, known, i) && e == Cleaned(raw[i]) { RecordHighIsKept(raw, known, i); }
  }

  lemma TailRecordHigh(raw: seq<RawEntry>, known: int, i: int)
    requires raw != [] && 0 <= i < |raw| - 1
    ensures RecordHigh(raw[1..], NextKnown(raw, known), i) <==> RecordHigh(raw, known, i + 1)
  {
    var rest, next := raw[1..], NextKnown(raw, known);
    if RecordHigh(rest, next, i) {
      forall j | 0 <= j < i + 1 && Usable(raw[j])
        ensures raw[j].sequence < raw[i + 1].sequence
      {
        if j > 0 { assert raw[j] == rest[j - 1]; }
      }
    }
    if RecordHigh(raw, known, i + 1) {
      assert raw[i + 1] == rest[i];
      forall j | 0 <= j < i && Usable(rest[j])
        ensures rest[j].sequence < rest[i].sequence
      {
        assert raw[j + 1] == rest[j];
      }
    }
  }

  /** The sequence the next manifest is compared with once `entries` have been taken. */
  function NewestOf(entries: seq<Entry>, known: int): int {
    if entries == [] then known else entries[|entries| - 1].sequence
  }

  /** The same manifest offered again adds nothing. */
  lemma {:induction false} NothingTwice(raw: seq<RawEntry>, known: int)
    ensures NewEntries(raw, NewestOf(NewEntries(raw, known), known)) == []
  {
    var newest := NewestOf(NewEntries(raw, known), known);
    NewEntriesAscend(raw, known);
    NewEntriesAscend(raw, newest);
    if NewEntries(raw, newest) != [] {
      var e := NewEntries(raw, newest)[0];
      KeptIffRecordHigh(raw, newest, e);
      var i :| RecordHigh(raw, newest, i) && e == Cleaned(raw[i]);
      assert RecordHigh(raw, known, i);
      KeptIffRecordHigh(raw, known, e);
      assert false;
    }
  }

  // ---- The oldest sequence listed ----

  function Oldest(raw: seq<RawEntry>): int {
    if raw == [] then -1
    else
      var rest := Oldest(raw[..|raw| - 1]);
      var sequence := raw[|raw| - 1].sequence;
      if sequence >= 0 && (rest < 0 || sequence < rest) then sequence else rest
  }

  method OldestLiveManifestSequence(raw: seq<RawEntry>) returns (oldest: int)
    ensures oldest == Oldest(raw)
  {
    oldest := -1;
    for i := 0 to |raw|
      invariant oldest == Oldest(raw[..i])
    {
      assert raw[..i + 1][..i] == raw[..i];
      if raw[i].sequence >= 0 && (oldest < 0 || raw[i].sequence < oldest) { oldest := raw[i].sequence; }
    }
    assert raw[..|raw|] == raw;
  }

  /** -1 exactly when no entry carries a sequence; otherwise the least one listed, usable or not. */
  lemma {:induction false} OldestIsLeast(raw: seq<RawEntry>)
    ensures Oldest(raw) == -1 <==> forall r :: r in raw ==> r.sequence < 0
    ensures Oldest(raw) >= 0 || Oldest(raw) == -1
    ensures Oldest(raw) >= 0 ==> exists r :: r in raw && r.sequence == Oldest(raw)
    ensures forall r :: r in raw && r.sequence >= 0 ==> 0 <= Oldest(raw) <= r.sequence
  {
    if raw != [] {
      var init := raw[..|raw| - 1];
      var last := raw[|raw| - 1];
      OldestIsLeast(init);
      assert raw == init + [last];
      if Oldest(init) >= 0 {
        var r :| r in init && r.sequence == Oldest(init);
        assert r in raw;
      }
    }
  }
}
