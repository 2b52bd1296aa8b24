# Verified model of pvr.dispatcharr-unofficial's shared-state protocols

The add-on plays live channels and in-progress recordings from a Dispatcharr server. Its difficult code is state that
several threads, or several clients, change between network calls. This project models that state and proves what the
code promises about it, over every input, every interleaving and every run.

- **Growing byte streams.** `Segments` is the fixed-origin byte address space. `LiveManifest` and `LiveStream` are the
  live timeshift buffer: merge, prune, opening trim, seek. `Playlist`, `Recording` and `RecordingRuns` are the
  in-progress recording: parse, size, merge, the cache that outlives an open, the evidence for "finished". `LiveReads`
  and `RecordingReads` put readers, seekers, refreshers and opens and closes on top, interleaved wherever the source
  releases its state lock; `Playback` holds what those two share.
- **Padding push** (`Padding`), **authentication gate** (`AuthGate`), **API key recovery** (`ApiKey`), **connection
  reports** (`LinkReport`), **waiting at the live tail** (`TailWait`), **keep-alive** (`KeepAlive`) and
  **recurring-rule edits** (`RecurringRule`).

How the model is built. Code that updates an object's fields is a class whose methods are proved equal to a function of
the old state; loops stay loops. Interleavings cannot be written as Dafny methods, so each concurrent part is a step
relation over values: one step per stretch the source runs under its lock, mutexes and the player's calling convention
as enabling conditions, the network as a parameter of the step. Times are integers; 64-bit overflow is modelled where
the source guards it (`ResolveSeek`, the size and duration ceilings).

What turned out not to hold, each with its exact condition and a run or input that shows the failure:

- A padding sync can accept a value read before an in-flight push landed and revert the user's edit:
  `Padding.SyncedValueIsCurrentIff`, `Padding.GivenUpSideIsCurrentIff`, `Padding.UneditedSideIsCurrent`;
  `Padding.SyncCanRevertAnEdit`, `Padding.GivenUpEditIsNotTheTest`. A side that was quiet when it was read is safe:
  `Padding.QuietSideIsCurrent`.
- When the buffer's oldest sequence has passed every known segment, "first available byte" falls back to 0, so a seek
  can land in a gap, and pruning becomes visible to seeks: `LiveStream.SeeksLandOnHeldBytesIff`,
  `LiveStream.SeeksAgreeAfterAnyRunIff`; `LiveStream.BufferCanOvertake`. The comment above
  `PruneRolledOffLiveSegments` says nothing looks a dropped segment up.
- Appending to a playlist extends its parse except when the last, unterminated line is a URI:
  `Playlist.AppendingExtendsIff`, whose proof gives the failing text.
- The opening trim keeps the session and the position while renumbering every byte, so the read path's re-check relies
  on the player not reading before the open returns: `LiveReads.EarlyReadSurvivesTheTrimIff`,
  `LiveReads.TrimFoolsTheRecheck`, `LiveReads.EarlyReadIsMisled`.
- A client can keep a key another client has overwritten: `ApiKey.HoldsTheKeyIff`,
  `ApiKey.FailedVerificationKeepsADeadKey`.
- A refresh that merges only the placeholder of a segment it gave up on puts the next keep-alive off by 10 s although
  no request succeeded, and one such merge can let the key's 20 s lapse: `KeepAlive.KeyOutlivesFailuresIff`,
  `KeepAlive.WhatTheKeyAllows`; `KeepAlive.StuckIsReached` and `KeepAlive.LapsesFrom` give the run.
- Dates before 1970 compare by a day cut toward zero: `RecurringRule.CalendarDayIff`,
  `RecurringRule.DaysMergeAround1970`, `RecurringRule.DaySplitsBefore1970`.

`dafny verify dfyconfig.toml` checks everything.

## Model

| member | source | states |
|---|---|---|
| `Segments.FindSegmentContainingPosition` | src/SegmentLookup.h:25-34 | the scan returns the first segment covering the position |
| `Segments.LookupExact` | src/SegmentLookup.h:25-34 | in a contiguous list exactly one segment covers a position, and one does exactly from the first segment's start to the total |
| `Segments.LookupFromTail` | src/LiveEdgeMargin.h:140-144 | from a kept tail's first byte on, the dropped head never changes what a position finds |
| `Segments.HoldsAfterAppend` | src/SegmentAppendOffsets.h:27-34 | appending segments changes no byte already in the stream |
| `Segments.PieceIsHeld` | src/DispatcharrClient.cpp:4931-4948 | a slice of one segment's body is what the stream holds at that segment |
| `Segments.SegmentReadSize` | src/StreamSeek.cpp:51-58 | something can be read exactly inside the segment, and then as much as the request and the segment's end allow |
| `Segments.ResolveSeek` | src/StreamSeek.cpp:10-39 | for every 64-bit request: the sum when it is between 0 and the 64-bit maximum, else a failure; unknown whence and unknown length fail |
| `Segments.ComputeLiveEdgeTailTarget` | src/LiveEdgeMargin.h:33-41 | the loop computes the total less the trailing segments' sizes, not below 0 |
| `Segments.TailTargetIsStartPosition` | src/LiveEdgeMargin.h:33-41 | on a contiguous space the byte-sum target is the index-based start position (lines 237-243) and lies inside the stream |
| `LiveManifest.Cleaned` | src/LiveManifestParser.cpp:42-64 | a usable entry becomes a valid one: sequence and file kept, size and duration kept or set to the bound they exceed |
| `LiveManifest.CleanEntry` | src/LiveManifestParser.cpp:42-64 | the clamping statements give that entry |
| `LiveManifest.ParseNewLiveManifestSegments` | src/LiveManifestParser.cpp:31-69 | the loop equals the recursive filter whose properties follow |
| `LiveManifest.NewEntriesAscend` | src/LiveManifestParser.cpp:31-69 | kept entries are valid, strictly ascending and above everything known |
| `LiveManifest.KeptIffRecordHigh` | src/LiveManifestParser.cpp:36-67 | an entry is kept if and only if it has a sequence, a file and bytes, is new, and is higher than every such entry before it |
| `LiveManifest.NothingTwice` | src/LiveManifestParser.cpp:31-69 | the same manifest offered again adds nothing |
| `LiveManifest.OldestLiveManifestSequence` | src/LiveManifestParser.cpp:71-81 | the loop computes the oldest listed sequence |
| `LiveManifest.OldestIsLeast` | src/LiveManifestParser.cpp:71-81 | it is -1 exactly when no entry has one, else the least listed, usable or not |
| `LiveStream.FirstAvailable` | src/LiveEdgeMargin.h:123-131 | everything before the index is older than the oldest available, the segment at it is not |
| `LiveStream.FirstAvailableLiveSegmentIndex` | src/LiveEdgeMargin.h:123-131 | the binary search finds that index on an ordered list |
| `LiveStream.LiveTimeshiftStream.constructor` | src/DispatcharrClient.cpp:4185-4189 | a new stream is empty at position 0 |
| `LiveStream.LiveTimeshiftStream.AppendEntries` | src/DispatcharrClient.cpp:4130-4141 | the append loop lays each entry with its own file and size at the sum of the bytes and the times before it |
| `LiveStream.LiveTimeshiftStream.MergeManifest` | src/DispatcharrClient.cpp:4127-4154 | a refresh is: append what is new, move the oldest sequence forward only, prune |
| `LiveStream.LiveTimeshiftStream.PruneRolledOff` | src/LiveEdgeMargin.h:150-161 | the rolled-off head goes, never the last segment |
| `LiveStream.LiveTimeshiftStream.TrimToTrailingLiveEdgeMargin` | src/LiveEdgeMargin.h:189-216 | the rebasing loop equals the trim function, margin 0 included |
| `LiveStream.LiveTimeshiftStream.StartAtLiveEdge` | src/DispatcharrClient.cpp:4481-4527 | the open ends trimmed, reading from the start position |
| `LiveStream.LiveTimeshiftStream.FirstAvailableLiveByteOffset` | src/DispatcharrClient.cpp:5290-5295 | the first available segment's offset, 0 when none is available |
| `LiveStream.LiveTimeshiftStream.SeekStream` | src/DispatcharrClient.cpp:5154-5227 | a failed seek answers -1 and moves nothing; any other lands on the request, not before the head, and past the edge on the furthest of the edge, the head and the reader |
| `LiveStream.MergeKeepsInv` | src/DispatcharrClient.cpp:4121-4141 | a merge keeps the address space, the position and every known segment, and lays exactly the new entries behind them |
| `LiveStream.MergeLaysItsEntries` | src/SegmentAppendOffsets.h:27-34 | each new entry is laid with its own sequence, file and size, at byte and time sums; the totals add all of them; ended stays, the oldest sequence only moves forward |
| `LiveStream.RunLaysItsEntries` | src/DispatcharrClient.cpp:4121-4154 | over every run after the trim the unpruned stream is the start and then every entry appended since, one behind the other |
| `LiveStream.PruneKeepsInv` | src/LiveEdgeMargin.h:150-161 | pruning keeps the address space and the last known sequence |
| `LiveStream.PruneDropsExactly` | src/LiveEdgeMargin.h:150-161 | a segment is dropped if and only if it is older than the oldest listed and not the last |
| `LiveStream.OpenKeepsTheEdge` | src/DispatcharrClient.cpp:4481-4527 | an open keeps the last three segments as they are, from byte and time 0 if it dropped any, and starts at the first |
| `LiveStream.TrimKeepsInv` | src/LiveEdgeMargin.h:189-216 | the trim keeps the address space, starts it at 0, and keeps the last known sequence |
| `LiveStream.EveryRunKeepsTheAddressSpace` | src/DispatcharrClient.cpp:4121-4154 | over every run of merges, prunes, trims, seeks and reads: sequences strictly increase, offsets are contiguous, times do not go back, the total is the end of the last segment, 0 <= position <= total |
| `LiveStream.NoSequenceIsAppendedTwice` | src/DispatcharrClient.cpp:4127-4141 | the sequences appended over a whole run strictly increase |
| `LiveStream.EmptyTrimAppendsAgain` | src/LiveEdgeMargin.h:195-203 | a trim that kept nothing would make the next refresh append the whole manifest again |
| `LiveStream.PruningIsInvisible` | src/LiveEdgeMargin.h:133-161 | over any run the pruned list and one never pruned agree on the first available byte, on every position from the oldest survivor on, and on what the next manifest adds |
| `LiveStream.SurvivingBytesKeepTheirMeaning` | src/LiveEdgeMargin.h:140-144 | after the trim a surviving byte keeps denoting the same byte of the same segment over any run |
| `LiveStream.TrimShiftsBytes` | src/LiveEdgeMargin.h:205-215 | the trim moves every kept byte by one fixed base and nothing else |
| `LiveStream.SeekLandsInside` | src/LiveEdgeMargin.h:62-97 | a seek lands between the first available byte and the total, never backward on a forward request, past the request only if the head moved past it |
| `LiveStream.SeekLandsExactly` | src/LiveEdgeMargin.h:62-97 | between the first available byte and the third-last segment's start a seek lands exactly on the request; before the head on the head; past the edge on the furthest of the edge, the head and the reader |
| `LiveStream.FirstAvailableByte` | src/DispatcharrClient.cpp:5290-5295 | the first available byte is the start of the first segment still listed, 0 when none is |
| `LiveStream.SeekMovesAsAsked` | src/StreamSeek.cpp:10-39 | every kind of seek goes to the byte it asks for, when that is between head and edge |
| `LiveStream.SeeksLandOnHeldBytesIff` | src/DispatcharrClient.cpp:5204-5225 | every seek lands on a byte the buffer still lists or on the tail, if and only if the buffer has not passed every known segment |
| `LiveStream.UnusableEntryOvertakes` | src/LiveManifestParser.cpp:71-81 | from any known segment a manifest listing only an unusable later entry makes the buffer pass every known segment |
| `LiveStream.BufferCanOvertake` | src/DispatcharrClient.cpp:4148-4150 | two manifests after which a seek lands on bytes the buffer no longer lists |
| `LiveStream.FourEntriesAreKnown` | src/DispatcharrClient.cpp:4127-4154 | such a manifest: four entries from an empty stream give four segments, the first at byte 0 |
| `LiveStream.SeeksAgreeIff` | src/DispatcharrClient.cpp:5204-5212 | for a pruned list and the unpruned one it is the tail of: seeks agree for every request and position if and only if nothing was dropped or the buffer has not passed every known segment |
| `LiveStream.SeeksAgreeAfterAnyRunIff` | src/DispatcharrClient.cpp:5204-5212 | the same for the two lists any run of operations ending in a refresh leads to |
| `LiveReads.UsableBytesAreTheSegments` | src/RecordingHttpUtil.h:145-159 | let through are exactly a 206, or a 200 at the segment's start, of the manifest's size if one is stated; from a server that follows HTTP they carry the segment's bytes at the offset asked for |
| `LiveReads.StepKeepsInv` | src/DispatcharrClient.cpp:4655-5129 | every step of every thread keeps the whole invariant: lists, readers in flight, curl mutex, log, playback |
| `LiveReads.EveryDeliveryIsTheStream` | src/DispatcharrClient.cpp:4931-5128 | under every interleaving whatever a read handed over is exactly its session's logical stream at the read's position |
| `LiveReads.PlaybackIsUninterrupted` | src/DispatcharrClient.cpp:4931-5128 | since the reader was last put somewhere the player received the stream from there to the position, no byte missing, repeated or foreign |
| `LiveReads.ReadMovesByWhatItGave` | src/DispatcharrClient.cpp:5120-5128 | a read that gives n bytes moves the position from its own aim by n; one overtaken by a seek or a session gives and moves nothing |
| `LiveReads.AnswerIsTakenIff` | src/DispatcharrClient.cpp:5021-5128 | for every answer: bytes are handed over if and only if it is such a one and the read is still in place, the stream is marked dead if and only if it is a 200 past the start or another size, nothing else changes |
| `LiveReads.TransferStartsIff` | src/DispatcharrClient.cpp:4967-4972 | a chosen read starts its transfer exactly when stream and reader are where it left them |
| `LiveReads.UndisturbedReadDelivers` | src/DispatcharrClient.cpp:4655-5128 | in every reachable state a read nobody disturbs, answered in full, hands over exactly min(asked, rest of the segment) bytes from the reader's place or the first available byte |
| `LiveReads.ReadFindsItsSegment` | src/DispatcharrClient.cpp:4889-4892 | such a read finds its segment whenever the buffer still lists one and the reader is before the tail |
| `LiveReads.NothingToRead` | src/DispatcharrClient.cpp:4886-4926 | at the tail or in a gap a read gives nothing and starts no transfer |
| `LiveReads.SeekMovesTheReader` | src/DispatcharrClient.cpp:5131-5227 | a seek moves the reader of an open stream that is not dead, and nobody else's |
| `LiveReads.DeadStreamStaysDead` | src/DispatcharrClient.cpp:4655-4668 | once dead, nothing is delivered or moved until a close or an open |
| `LiveReads.ManifestReachesItsOwnStream` | src/DispatcharrClient.cpp:4112-4154 | a manifest is merged into the session its refresh began for, and changes nothing after a close or a new open |
| `LiveReads.TransferPinsItsSession` | src/DispatcharrClient.cpp:5396-5402 | while a transfer runs its session stays open and cannot be closed or replaced, so a stream it marks dead is its own |
| `LiveReads.EarlyReadSurvivesTheTrimIff` | src/DispatcharrClient.cpp:4482-4526 | for a read chosen before the open returned, passing the re-check means the byte is still its segment's if and only if nothing was trimmed or the read was not at byte 0 |
| `LiveReads.TrimFoolsTheRecheck` | src/DispatcharrClient.cpp:4482-4526 | in the failing case the re-check passes and byte 0 is a later segment's |
| `LiveReads.EarlyReadIsMisled` | src/DispatcharrClient.cpp:4482-4526 | the run from a new client to that case, for every first manifest of more than three segments |
| `Playback.LogHoldsLonger` | src/DispatcharrClient.cpp:4926-4930 | a stream that only grows keeps every past delivery true |
| `Playlist.SplitLines` | src/M3u8SegmentParser.cpp:22-26 | the newline loop both parsers share gives the text cut at every newline, the last piece included |
| `Playlist.ScanLines` | src/M3u8SegmentParser.cpp:27-74 | the scan with its running count and pending duration equals the full scan without its first k entries |
| `Playlist.ParseNewM3u8SegmentEntries` | src/M3u8SegmentParser.cpp:15-77 | parse(text, k) is parse(text, 0) without its first k entries |
| `Playlist.Clamped` | src/M3u8SegmentParser.cpp:55-58 | a finite number between 0 and a day is itself, a larger one a day, anything else 0 |
| `Playlist.UriLineIsItsEntry` | src/M3u8SegmentParser.cpp:30-70 | the n-th line that is neither empty nor a tag is the n-th entry, with its own URL, absolute or below the base, and the duration announced for it |
| `Playlist.LinesThatAreEntries` | src/M3u8SegmentParser.cpp:30-70 | no other line is an entry |
| `Playlist.DurationIsReadUpToTheComma` | src/M3u8SegmentParser.cpp:36-58 | the number read is the text between the tag and the first comma |
| `Playlist.AppendingExtendsIff` | src/M3u8SegmentParser.cpp:22-75 | every longer text extends the parse if and only if the last unterminated line is not a URI |
| `Playlist.GrowingPlaylistParses` | src/M3u8SegmentParser.cpp:15-77 | over any number of fetches of an append-only playlist each parse not cut in a URI is a prefix of every later one |
| `Playlist.SettledGrows` | src/M3u8SegmentParser.cpp:22-75 | whatever text is appended, cut or not, what the terminated lines list stays a prefix |
| `Playlist.SettledIsTheParse` | src/M3u8SegmentParser.cpp:15-77 | the terminated lines list a prefix of the parse, and all of it when the text is not cut in a URI |
| `Playlist.M3u8HasEndList` | src/M3u8SegmentParser.cpp:110-131 | true exactly when some line is the end tag once trailing blanks are cut |
| `Recording.CountLeadingProbedSegments` | src/M3u8SegmentParser.cpp:79-85 | the loop counts the leading run of sized segments |
| `Recording.Mergeable` | src/UnprobeableSegment.cpp:53-62 | what is merged is sized or the one leading placeholder, and stops at the first that is not |
| `Recording.CountMergeableSegments` | src/UnprobeableSegment.cpp:53-62 | the loop computes that count |
| `Recording.AllMergedIffNoneFailed` | src/DispatcharrClient.cpp:2889-2895 | no failure is left behind exactly when everything listed was merged |
| `Recording.UnprobeableSegmentTracker.Update` | src/UnprobeableSegment.cpp:13-41 | gives up exactly when the unbroken run of failures of this one leading segment has 5 members over 30 s |
| `Recording.TrackerFollowsHistory` | src/UnprobeableSegment.cpp:13-41 | the three tracker fields equal the history's run of failures |
| `Recording.FinishedGate.GateFinishedOnEndList` | src/RecordingVisibility.cpp:37-54 | finished exactly when a candidate has the end tag or the unbroken run of candidates without it is 15 s long |
| `Recording.GateFollowsHistory` | src/RecordingVisibility.cpp:37-54 | the one remembered time is the start of that run |
| `Recording.Size` | src/DispatcharrClient.cpp:2873-2903 | merged sizes are never negative; a give-up turns only the failed leading size into 0 and clears the tracker; a tracker left armed names the first segment not merged, and that one failed |
| `Recording.SizingFollowsHistory` | src/DispatcharrClient.cpp:2873-2903 | the tracker after a refresh, arming included, is what the record of all reports says; the leading segment is given up exactly when its run of failures is long enough |
| `Recording.InProgressRecordings.Open` | src/DispatcharrClient.cpp:3045-3059 | an open seeds list and totals from the cache entry, or starts empty |
| `Recording.InProgressRecordings.MergePending` | src/DispatcharrClient.cpp:2904-2916 | the merge loop lays each entry with its own URL and probed size behind what was there |
| `Recording.AppendSizedLays` | src/DispatcharrClient.cpp:2904-2916 | the i-th merged entry has its URL and its probed size, at the byte and time sums of the ones before it; the totals add all of them |
| `Recording.InProgressRecordings.MergeSnapshot` | src/DispatcharrClient.cpp:2873-2949 | the stream after a refresh whose probes are back |
| `Recording.InProgressRecordings.ReadPlaylist` | src/DispatcharrClient.cpp:2811-2812 | what a fetched text lists past the known segments, and whether it carries the end tag |
| `Recording.PruneExpired` | src/DispatcharrClient.cpp:3003-3010 | the erase loop keeps exactly the entries touched within a day |
| `Recording.InProgressRecordings.KeepCacheInStep` | src/DispatcharrClient.cpp:2968-3011 | erase, reseed or append, then prune, equals the update the cache lemmas are about |
| `Recording.CacheFollows` | src/DispatcharrClient.cpp:2968-2994 | an entry that was the stream's list before a merge is gone or the stream's list after it, whichever way it was updated |
| `Recording.CacheForgetsOnlyTheOld` | src/DispatcharrClient.cpp:2968-3011 | other recordings' entries go exactly when nobody touched them for a day, and only at a refresh that merged something or found the end |
| `Recording.InProgressRecordings.CompleteRefresh` | src/DispatcharrClient.cpp:2889-3011 | a refresh keeps the cache in step with the stream: entry gone when finished, equal to the list after an unfinished merge |
| `Recording.AppendSizedMirrors` | src/DispatcharrClient.cpp:2904-2916 | merging the next entries keeps the list a prefix of the playlist at prefix sums, each with the size probed for it |
| `Recording.MirrorsAddsUp` | src/DispatcharrClient.cpp:2910-2914 | every offset is the sum of the sizes before it |
| `RecordingRuns.StepKeepsInv` | src/DispatcharrClient.cpp:2576-3030 | every step of opens, closes, server and refreshes keeps list, sizes, cache, tracker and gate in step; content turns gone only on evidence from playlist and lookup |
| `RecordingRuns.MergedListIsAPrefix` | src/DispatcharrClient.cpp:2811-2916 | whatever text the server appends, fails to size or answers: the open stream lists exactly the first segments of the parsed playlist at prefix sums, each of a size the server gave for it, or the placeholder |
| `RecordingRuns.FetchedIsAPrefix` | src/DispatcharrClient.cpp:2811-2812 | an earlier text not cut in a URI parses to a prefix of what the playlist lists by now |
| `RecordingRuns.CacheAgreesWithTheStream` | src/DispatcharrClient.cpp:2968-2994 | in every run the open recording's cache entry is absent or equal to the stream's list, and every entry's totals are its segments' sums |
| `RecordingRuns.ReopenSeedsItsOwnSums` | src/DispatcharrClient.cpp:3045-3059 | a reopen seeds the cached list with totals that are its sums |
| `RecordingRuns.MergingRefreshUpdatesTheCache` | src/InProgressSegmentCache.h:33-37 | after an unfinished refresh that merged something the entry equals the list; a reseed happens exactly when the entry was gone while the stream had segments |
| `RecordingRuns.FinishedNeedsEvidence` | src/RecordingVisibility.cpp:28-54 | with a playlist, finished if and only if the lookup says it is over and all is merged, or failed on a finished one, and the end tag is there or every refresh of the grace period was such a candidate |
| `RecordingRuns.MissingPlaylistMeans` | src/DispatcharrClient.cpp:2719-2792 | without one, gone if and only if a stream with segments lost its playlist and the lookup says over or 404; finished, cache entry and the rest for every lookup |
| `RecordingRuns.GoodRefreshMergesAll` | src/DispatcharrClient.cpp:2811-2916 | a refresh that gets its playlist and every size merges everything listed, each with its size |
| `RecordingRuns.PlaceholderIffUnprobeable` | src/UnprobeableSegment.cpp:13-41 | over every run a placeholder is laid if and only if the leading segment has by then failed five refreshes in a row over 30 s |
| `RecordingRuns.OverlappingRefreshesRepeatSegments` | src/DispatcharrClient.cpp:2582-2589 | without the refresh mutex two refreshes would lay the same segments twice |
| `RecordingReads.StepKeepsInv` | src/DispatcharrClient.cpp:3178-3554 | every step of every thread keeps the whole invariant |
| `RecordingReads.EveryReadIsTheRecording` | src/DispatcharrClient.cpp:3279-3553 | under every interleaving whatever a read handed over is exactly its session's stream at the read's position |
| `RecordingReads.PlaybackIsUninterrupted` | src/DispatcharrClient.cpp:3279-3553 | since the last reposition the player received the stream without a break |
| `RecordingReads.CachedBytesAreTheNamedSegments` | src/DispatcharrClient.cpp:3376-3393 | failed fetches and placeholders included, the cached bytes are a prefix of the body of the one segment their offset names |
| `RecordingReads.OvertakenReadGivesNothing` | src/DispatcharrClient.cpp:3540-3553 | a response moves the reader by what it gives from where the read aimed, and an overtaken one gives and moves nothing |
| `RecordingReads.SeekLands` | src/DispatcharrClient.cpp:3572-3624 | a seek lands exactly on the request in a finished recording or up to the last segment's start, past that on the furthest of that start and the reader |
| `RecordingReads.SeekMovesAsAsked` | src/DispatcharrClient.cpp:3556-3624 | a request that cannot be resolved moves nothing, any other moves the reader there |
| `RecordingReads.ResponseIsTakenIff` | src/RecordingHttpUtil.h:209-221 | for every response: a complete 200 is cached and handed over as far as asked and there; nothing else is; the fetch goes on exactly after a first 401, a failed transfer, 404, 500, 502, 503 or 504 |
| `RecordingReads.LockMeans` | src/DispatcharrClient.cpp:3298-3316 | a read in place is served from the cache that holds its segment, else starts a transfer unless the content is gone |
| `RecordingReads.UndisturbedReadDelivers` | src/DispatcharrClient.cpp:3178-3553 | in every reachable state a read nobody disturbs hands over exactly min(asked, what is there) bytes, from the cache or from the segment the server sends, which is then cached |
| `Padding.PendingPaddingPush.constructor` | src/PaddingPush.h:36-56 | nothing parked, in flight or counted |
| `Padding.PendingPaddingPush.BeginPaddingEdit` | src/PaddingPush.h:60-66 | the edit gets the next number, becomes the side's newest and counts as in flight |
| `Padding.PendingPaddingPush.ParkNewestPaddingEdit` | src/PaddingPush.h:70-81 | the newest edit is parked and the retry count restarts only for a different edit |
| `Padding.PendingPaddingPush.ApplyDirectPaddingPushResult` | src/PaddingPush.h:84-100 | the new state for every result, success or failure, newest or overtaken |
| `Padding.PendingPaddingPush.SettleSide` | src/PaddingPush.h:144-160 | the new state of one side after a retry |
| `Padding.PendingPaddingPush.ApplyPaddingRetryResult` | src/PaddingPush.h:141-178 | the new state and outcome of a retry, give-up included |
| `Padding.StepKeepsInv` | src/PVRDispatcharr.cpp:604-632 | every edit, request sent, landing, answer, exception and late report of a thrown push keeps the protocol invariant, whatever request holds the settings mutex |
| `Padding.Convergence` | src/DispatcharrClient.cpp:2046-2078 | for any number of edits, failures that may have landed, exceptions and retries, edits and thrown pushes reported during a request included: a side with nothing parked, nothing in flight and no give-up since its newest edit has that edit's value on the server |
| `Padding.OneGoodRetrySettles` | src/PaddingPush.h:141-178 | once every push is answered one successful retry settles both sides |
| `Padding.InFlightIsExact` | src/PaddingPush.h:122-125 | the in-flight count is edits begun less results applied, and the sync test holds exactly when all are answered, none is parked and none began since the capture |
| `Padding.GiveUpIsPatient` | src/PaddingPush.h:141-178 | a give-up drops a parked edit only after at least maxRetries - 1 failed retries carried it |
| `Padding.AnsweredPushParks` | src/PaddingPush.h:84-100 | after a push's answer its side has nothing parked if it was the newest edit's and succeeded, else the newest edit; the retry count restarts exactly for another edit |
| `Padding.ReportedThrowParks` | src/PVRDispatcharr.cpp:1283-1292 | after a thrown push's report the newest edit is parked |
| `Padding.AnsweredRetryParks` | src/PaddingPush.h:141-178 | the same for a retry, side by side, give-up included |
| `Padding.GivesUpAtTheLimit` | src/PaddingPush.h:141-178 | a client that keeps failing keeps what it parked until exactly the maxRetries-th retry |
| `Padding.SyncedValueIsCurrentIff` | src/PVRDispatcharr.cpp:343-441 | for a side with an edit that was not given up: a value that passed the sync test is still the server's if and only if it was the newest edit's value when it was read |
| `Padding.UneditedSideIsCurrent` | src/PVRDispatcharr.cpp:343-441 | on a side never edited a value that passed the test is current |
| `Padding.QuietSideIsCurrent` | src/PVRDispatcharr.cpp:343-441 | so it is on a side with nothing parked or in flight when it was read, given up or not |
| `Padding.GivenUpSideIsCurrentIff` | src/PVRDispatcharr.cpp:343-441 | on a side whose newest edit was given up: current if and only if the side was quiet at the read, or no request for it landed since, or the last that did carried the value read |
| `Padding.GivenUpEditIsNotTheTest` | src/PVRDispatcharr.cpp:343-441 | after a give-up a current value need not be the newest edit's |
| `Padding.SyncCanRevertAnEdit` | src/PVRDispatcharr.cpp:343-441 | a run in which the sync test passes on a stale value |
| `AuthGate.AuthFlow.EnsureAuthenticated` | src/DispatcharrClient.cpp:570-750 | the new fields for every gate and every answer; turned away are exactly the calls that are not admitted, and a granted refresh succeeds with a token for 240 s |
| `AuthGate.SucceedsMeans` | src/DispatcharrClient.cpp:570-750 | a call succeeds with the token it has, with its refresh, or with the login that follows |
| `AuthGate.CallsAskIff` | src/AuthBackoff.h:107-185 | a call asks the server if and only if it has no valid token, no backoff runs, and no cooldown does, or only one a short attempt armed and the caller is not short |
| `AuthGate.AdmittedCallLeaves` | src/DispatcharrClient.cpp:641-694 | what every answer to the refresh leaves, and when the login decides |
| `AuthGate.LoginLeaves` | src/DispatcharrClient.cpp:697-749 | what every answer to the login leaves: a token for 240 s, one more rejection at twice the wait up to half an hour, or a cooldown |
| `AuthGate.TokenLasts` | src/DispatcharrClient.cpp:578-582 | until it runs out or a 401 comes, every call of every thread uses the token and asks nothing |
| `AuthGate.DeferralHoldsEveryoneOff` | src/DispatcharrClient.cpp:2124-2137 | after an unresponsive start nobody without a token asks for 30 s |
| `AuthGate.TurnedDownTokenIsNotUsed` | src/DispatcharrClient.cpp:557-568 | a token the server turned down is used by no later call |
| `AuthGate.BackoffIsCappedDoubling` | src/AuthBackoff.cpp:8-22 | the clipped shift is min(1800, 30 * 2^(n-1)) s for every n |
| `AuthGate.StepKeepsInv` | src/AuthBackoff.h:107-185 | every call, invalidation and deferral keeps: whatever passes the gates later respects every earlier attempt |
| `AuthGate.EveryRunIsPaced` | src/DispatcharrClient.cpp:570-750 | over all threads, with no success between, the attempt after the n-th rejection starts the full backoff later; nobody attempts in a cooldown armed by a full-length attempt, no short caller in one armed by a short attempt |
| `AuthGate.AdmittedExactlyWhenPaced` | src/DispatcharrClient.cpp:570-750 | over every run a call without a token asks if and only if that respects every attempt in the log: nobody is held back without a reason |
| `AuthGate.RejectionsTakeTime` | src/AuthBackoff.cpp:8-22 | the n-th rejection in a row ends at least the sum of the n - 1 backoffs after the first |
| `AuthGate.BackoffTotalClosed` | src/AuthBackoff.cpp:8-22 | that sum is 1890 + 1800 * (n - 6) s from six on |
| `AuthGate.RunsFromStartArePaced` | src/DispatcharrClient.cpp:570-750 | both, for every run of a client that starts fresh |
| `ApiKey.OverwritesAreBounded` | src/ApiKeyRecovery.cpp:39-74 | once there is a key each client already past a keyless lookup overwrites it at most once, nobody else ever |
| `ApiKey.KeyIsStable` | src/DispatcharrClient.cpp:1495-1564 | with a key and nobody between a keyless lookup and its generate the key never changes again |
| `ApiKey.AtMostOneKeyPerClient` | src/DispatcharrClient.cpp:1495-1564 | N clients generate at most N keys however long they run |
| `ApiKey.GeneratesOnlyAfterOwnKeylessLookup` | src/ApiKeyRecovery.cpp:49-65 | a client generates only when its own last step was a lookup that saw no key |
| `ApiKey.ReadersAgreeAfterLastGenerate` | src/ApiKeyRecovery.cpp:67-74 | every client whose verification or lookup succeeded after the last generate ends with the server's key |
| `ApiKey.HoldsTheKeyIff` | src/DispatcharrClient.cpp:1495-1564 | with a server that never repeats a key, a client ends with the account's key if and only if no generate landed after the last step that gave it one |
| `ApiKey.FailedVerificationKeepsADeadKey` | src/DispatcharrClient.cpp:1530-1564 | a run in which a failed verification leaves a dead key |
| `ApiKey.AnsweredLookupLeads` | src/ApiKeyRecovery.cpp:11-65 | a key that is not blank is taken, anything else answered leads to a generate |
| `ApiKey.FailedLookupLeads` | src/ApiKeyRecovery.cpp:39-65 | a 4xx other than 408 and 429 leads to a generate, any other failure to a later try |
| `ApiKey.UndisturbedClientGetsTheKey` | src/DispatcharrClient.cpp:1495-1564 | a client nobody disturbs holds the account's key after one answered lookup, or after lookup, generate and verification |
| `LinkReport.LinkHealth.OnConnectFailure` | src/ConnectionReport.cpp:57-65 | one more failure extends or restarts the streak and reports what the history says |
| `LinkReport.LinkHealth.OnAttempt` | src/ConnectionReport.cpp:26-66 | reports unreachable exactly when the maximal streak of connect failures ending now, broken only by an answer below 500 or a gap over 60 s, has 3 members over 10 s; connected exactly on an authenticated 2xx |
| `LinkReport.ConnectionReportLatch.Observe` | src/ConnectionReport.cpp:68-76 | remembers the newest report and says whether it changed |
| `LinkReport.ConnectionReportLatch.TakePending` | src/ConnectionReport.cpp:78-98 | over the whole log: a delivery represents the newest report, connected only when ready, lost only after connected, unreachable never after it; a refusal means nothing was seen, the last delivery already represents it, or connected is not ready |
| `LinkReport.ConnectionReportLatch.RequestResend` | src/ConnectionReport.cpp:100-104 | a resend is owed from here on |
| `LinkReport.LostBlockFollowsConnected` | src/ConnectionReport.cpp:78-98 | each block of lost deliveries directly follows a connected one |
| `LinkReport.RepeatsNeedAResend` | src/ConnectionReport.cpp:78-98 | consecutive equal deliveries have a resend request between them |
| `TailWait.TailWaitEpisode.Enter` | src/CatchUpUtil.h:178-190 | an episode is new exactly when the read does not continue the chain of reads at its position |
| `TailWait.TailWaitEpisode.Touch` | src/CatchUpUtil.h:192-195 | handing a read back keeps the chain |
| `TailWait.TailWaitEpisode.WaitedMs` | src/CatchUpUtil.h:200-203 | the time since the start of the maximal chain of calls at this position with gaps of at most 3 s |
| `TailWait.ChainIsUnique` | src/CatchUpUtil.h:174-209 | there is one such chain, so the waited time has one value |
| `TailWait.LiveTail.Read` | src/DispatcharrClient.cpp:4749-4884 | a read that is no seek probe gives up exactly when its chain of calls has waited out the budget in force, -1 returns included; over all reads, seeks and growth so far, between two short give-ups at one position the very next read arrived there and had the full budget |
| `TailWait.LiveTail.WaitThere` | src/DispatcharrClient.cpp:4798-4884 | what a wait leaves, by what its refreshes and the seeks during them brought: ended, caught up exactly when the reader is before the total, handed back, or given up |
| `TailWait.FollowingLeavesAFullWait` | src/CatchUpUtil.h:114-149 | waits that follow a tail which only grows never give up short twice at one position without that full wait |
| `TailWait.LiveTail.constructor` | src/CatchUpUtil.h:205-208 | nothing waited for, remembered or sought |
| `TailWait.LiveTail.FinishWait` | src/CatchUpUtil.h:128-149 | a finished wait resets the episode and remembers a short give-up where the reader is |
| `TailWait.LiveTail.DecideTailWait` | src/CatchUpUtil.h:217-257 | gives up for a probe or at the budget, never before |
| `TailWait.WaitBudgetMeans` | src/CatchUpUtil.h:83-88 | the budget is the first multiple of 250 ms past three segments, at least 70 s while refreshes are answered |
| `KeepAlive.OpenedHasInv` | src/DispatcharrClient.cpp:3167-3174 | the state an open leaves starts the schedule |
| `KeepAlive.StepKeepsInv` | src/HlsViewerKeepAlive.h:36-116 | every poll, fetch, merge, failed probe, move and status keeps it |
| `KeepAlive.PollMeans` | src/HlsViewerKeepAlive.h:68-116 | what every answer to a due poll means: refreshed for 10 s, gone, or asked again in 2 s |
| `KeepAlive.RefreshMeans` | src/DispatcharrClient.cpp:2867-2924 | what a fetch, a merge and a failed probe do to schedule and tracker |
| `KeepAlive.PlayingViewerSendsNone` | src/HlsViewerKeepAlive.h:100-116 | over every run a request goes out only 10 s after the last one that refreshed the key, so a playing viewer sends none |
| `KeepAlive.PlaceholdersAreApart` | src/UnprobeableSegment.cpp:13-41 | in every run two placeholder merges are at least 30 s apart, and the first is 30 s after the open |
| `KeepAlive.SecondPlaceholderIsTooLate` | src/UnprobeableSegment.cpp:13-41 | a stretch has seen at most one while its key could be alive |
| `KeepAlive.KeyStaysFresh` | src/HlsViewerKeepAlive.h:36-116 | in every run of polls at most P apart, reads, seeks, merges and fetches after an open: while there is something to protect, at most 10 s + p + f(2 s + p) + g(10 s + p) have passed since the last refresh or since there was again something to protect, with f failed attempts, g placeholder merges and p = P - 1 ms |
| `KeepAlive.KeyOutlivesFailuresIff` | src/DispatcharrClient.cpp:2497-2563 | for every P, f and g: with at most f failures and g placeholder merges since a refresh the key never lapses if and only if that bound is under 20 s |
| `KeepAlive.LapsesFrom` | src/DispatcharrClient.cpp:2497-2563 | otherwise a run from an open lets it lapse: the bound is reached for every number of failures, with no placeholder or with one |
| `KeepAlive.StuckIsReached` | src/DispatcharrClient.cpp:2867-2924 | for every polling period a run leads to a fresh key with one failed probe left before the placeholder |
| `KeepAlive.WhatTheKeyAllows` | src/HlsViewerKeepAlive.h:36-47 | with polls a second apart the key survives exactly up to three failures; a placeholder merge is too much for any polling period |
| `KeepAlive.ReaderAtTailSendsNone` | src/HlsViewerKeepAlive.h:68-77 | none goes out for as long as reads, seeks and merges leave the reader at the tail |
| `KeepAlive.FinishedSendsNone` | src/DispatcharrClient.cpp:2511-2513 | once the recording is known finished none goes out, however many bytes are unread |
| `RecurringRule.WrapIsModulo` | src/RecurringRuleEdit.cpp:24-28 | the wrapped time is the time modulo a day, negative ones included |
| `RecurringRule.CalendarDayIff` | src/RecurringRuleEdit.cpp:13-16 | the comparison is by calendar day for all dates from a bound on if and only if the bound is not before 1970 |
| `RecurringRule.DaysMergeAround1970` | src/RecurringRuleEdit.cpp:13-16 | the days on both sides of 1970 compare equal |
| `RecurringRule.DaySplitsBefore1970` | src/RecurringRuleEdit.cpp:13-16 | two moments of one day before 1970 compare different |
| `RecurringRule.ComputeRecurringRuleEditPatch` | src/RecurringRuleEdit.cpp:47-86 | the patch built field by field equals the patch the lemmas below are about |
| `RecurringRule.PatchGivesTheEdit` | src/RecurringRuleEdit.cpp:47-86 | the patch turns the baseline into the edited rule and is empty exactly when nothing changed |
| `RecurringRule.EditIsAThreeWayMerge` | src/RecurringRuleEdit.cpp:63-84 | on a concurrently changed rule a field left alone keeps the server's value, any other gets the user's |
| `RecurringRule.UnmovedTimesAreNotSent` | src/RecurringRuleEdit.cpp:31-45 | an instant not moved never reaches the patch, however it would be derived again |
| `RecurringRule.UnreportedEditSendsAll` | src/RecurringRuleEdit.cpp:31-84 | an edit of a rule never reported sends everything |
| `RecurringRule.ReportedRecurringRuleHistory.Record` | src/RecurringRuleEdit.cpp:120-134 | a missing rule is forgotten, every reported one gets the report as its newest |
| `RecurringRule.ReportedRecurringRuleHistory.Find` | src/RecurringRuleEdit.cpp:136-147 | the report under the token, else the newest, else none |
| `RecurringRule.CapKeepsTheNewest` | src/RecurringRuleEdit.cpp:126-132 | cutting at every report keeps exactly the newest eight of the history never cut |
| `RecurringRule.HistoryStaysInShape` | src/RecurringRuleEdit.cpp:126-132 | over any run tokens are distinct, the newest is last, the cap holds |
| `RecurringRule.ReportIsFoundIffRecent` | src/RecurringRuleEdit.cpp:126-147 | a report is still found exactly when fewer than eight other tokens came after its latest occurrence |

## Left out

- HTTP, libcurl handles, JSON field mapping, redirects and TLS: a step carries the outcome of the transfer instead.
- The server's honesty beyond HTTP: a recycled live segment of exactly the manifest's size, or without a Content-Range, cannot be told from the real one by the client, so `LiveReads.Plausible` takes such a file to be the segment.
- Reads before `OpenLiveTimeshiftStream` or `OpenInProgressRecordingStream` returned, and opens and closes from two threads at once: the player's calling convention rules them out and the step relations follow it.
- `HandleLiveTimeshiftSegmentFetchFailure` and the permanent-failure counters: retry counts and delays, no effect on which bytes are delivered.
- Playlists fetched while cut in the middle of a URI: a fetch in `RecordingRuns` returns an earlier text of the append-only playlist that is not cut there; `Playlist.AppendingExtendsIff` says what a cut one would do.
- `std::stod` on EXTINF text: a parameter that throws, is not finite, or gives a real number.
- `RebaseRecordingSegmentUrl`, `IsOnConfiguredServer`, URL building, tokens and headers: string rewriting of one segment's address; a segment on another server is never sized, so it has no bytes to read.
- `EstimateSegmentDurationMs`: the estimate is a parameter of the tail budget.
- Requests that land after their failure was reported, and other writers of the server's padding: convergence is about this client's own pushes in landing order.
- The contents of the recurring-rule report token (an FNV hash): an opaque key, collisions allowed.
- Recurring-rule end dates, time zones and calendar arithmetic; sorting and de-duplicating days is taken as their set.
- Completed recordings, EPG, channels, timers, EDL, genre and settings code: mapping and one-branch decisions that would add only easy members.
