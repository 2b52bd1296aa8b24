/**
 What the two growing streams' read paths share (src/DispatcharrClient.cpp): a read between its lock releases, and the
 log of where the reader was put and what it was given.
 */
module Playback {
  import opened Common
  import opened Segments

  /** A read that has begun, has chosen a segment, or holds the curl mutex for a transfer; it may take `want` bytes. */
  datatype Reader<K> =
    | Began(session: nat, want: nat)
    | Chosen(session: nat, position: int, seg: Segment<K>, want: nat)
    | Fetching(session: nat, position: int, seg: Segment<K>, want: nat)

  datatype Event = Moved(session: nat, to: int) | Delivered(session: nat, from: int, bytes: seq<byte>)

  /** What the player received since the reader was last put somewhere. */
  datatype Played = Played(start: int, bytes: seq<byte>)

  function PlayedOver(log: seq<Event>): Played {
    if log == [] then Played(0, [])
    else match log[|log| - 1]
         case Moved(_, to) => Played(to, [])
         case Delivered(_, _, bytes) =>
           var before := PlayedOver(log[..|log| - 1]);
           before.(bytes := before.bytes + bytes)
  }

  lemma PlayedAfter(log: seq<Event>, e: Event)
    ensures PlayedOver(log + [e]) == match e
                                     case Moved(_, to) => Played(to, [])
                                     case Delivered(_, _, bytes) =>
                                       Played(PlayedOver(log).start, PlayedOver(log).bytes + bytes)
  {
    assert (log + [e])[..|log|] == log;
  }

  /** Every delivery logged is what its session's stream holds at that place. */
  ghost predicate LogHolds<K(!new)>(log: seq<Event>, kept: map<nat, seq<Segment<K>>>, body: K -> seq<byte>) {
    forall i :: 0 <= i < |log| && log[i].Delivered? ==>
      log[i].session in kept && StreamHolds(kept[log[i].session], body, log[i].from, log[i].bytes)
  }

  /** Growing one session's stream keeps every delivery true of it. */
  lemma LogHoldsLonger<K(!new)>(log: seq<Event>, kept: map<nat, seq<Segment<K>>>, body: K -> seq<byte>,
                                session: nat, longer: seq<Segment<K>>)
    requires LogHolds(log, kept, body) && session in kept && kept[session] <= longer
    ensures LogHolds(log, kept[session := longer], body)
  {
    forall i | 0 <= i < |log| && log[i].Delivered? && log[i].session == session
      ensures StreamHolds(longer, body, log[i].from, log[i].bytes)
    {
      HoldsInLonger(kept[session], longer, body, log[i].from, log[i].bytes);
    }
  }

  lemma HoldsInLonger<K>(segs: seq<Segment<K>>, longer: seq<Segment<K>>, body: K -> seq<byte>, from: int,
                         bytes: seq<byte>)
    requires segs <= longer && StreamHolds(segs, body, from, bytes)
    ensures StreamHolds(longer, body, from, bytes)
  {
    assert longer == segs + longer[|segs|..];
    HoldsAfterAppend(segs, longer[|segs|..], body, from, bytes);
  }
}
