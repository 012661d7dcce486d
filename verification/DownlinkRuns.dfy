/** What a track's RTP stream looks like over any run of voice messages. */
module DownlinkRuns {
  import opened Common
  import opened Bits
  import Opus
  import opened Downlink

  /** A speaker's clock after a run of messages, starting from `m`. */
  function After(m: Media, hs: seq<Hearing>): Media {
    if hs == [] then m
    else Hear(After(m, hs[..|hs| - 1]), hs[|hs| - 1].v, hs[|hs| - 1].now).0
  }

  /** What message `i` of the run led to. */
  function Outcome(m: Media, hs: seq<Hearing>, i: int): WriteResult
    requires 0 <= i < |hs|
  {
    Hear(After(m, hs[..i]), hs[i].v, hs[i].now).1
  }

  predicate Emits(m: Media, hs: seq<Hearing>, i: int)
    requires 0 <= i < |hs|
  {
    Outcome(m, hs, i).Written?
  }

  function Samples(h: Hearing): nat {
    match Opus.TotalSamples(h.v.opus)
    case Success(n) => n
    case Failure(_) => 0
  }

  lemma AfterNext(m: Media, hs: seq<Hearing>, i: int)
    requires 0 <= i < |hs|
    ensures After(m, hs[..i + 1]) == Hear(After(m, hs[..i]), hs[i].v, hs[i].now).0
  {
    assert hs[..i + 1][..i] == hs[..i];
  }

  // ---------------------------------------------------------------- one packet and the next

  /** Message `k` tells that the talk spurt of the packet emitted at `j` is over. */
  predicate EndsTalk(hs: seq<Hearing>, j: int, k: int)
    requires 0 <= k < |hs|
  {
    hs[k].v.last && (k == j || hs[k].v.opus == [])
  }

  /** The spurt of the packet emitted at `j` is over when message `i` comes. */
  ghost predicate SpurtOver(hs: seq<Hearing>, j: int, i: int)
    requires 0 <= j < i < |hs|
  {
    || Ended(hs, j, i)
    || Since(hs[i].now, hs[j].now) / 1_000_000 > 500
  }

  /** `i` is the first packet emitted after the one at `j`. */
  ghost predicate NextEmitted(m: Media, hs: seq<Hearing>, j: int, i: int) {
    && 0 <= j < i < |hs| && Emits(m, hs, j) && Emits(m, hs, i)
    && forall k | j < k < i :: !Emits(m, hs, k)
  }

  /** Since the packet at `j` nothing but the end of its spurt has been noted. */
  ghost predicate Remembers(c: Media, m: Media, hs: seq<Hearing>, j: int, i: int)
    requires 0 <= j < i <= |hs| && Emits(m, hs, j)
  {
    var h := Outcome(m, hs, j).header;
    && c == Media(Some(hs[j].v.frame), h.timestamp, h.sequence, Samples(hs[j]), c.ended, Some(hs[j].now))
    && (c.ended <==> Ended(hs, j, i))
  }

  ghost predicate Ended(hs: seq<Hearing>, j: int, i: int)
    requires 0 <= j <= i <= |hs|
  {
    exists k :: j <= k < i && EndsTalk(hs, j, k)
  }

  lemma EndedNext(hs: seq<Hearing>, j: int, i: int)
    requires 0 <= j < i <= |hs|
    ensures Ended(hs, j, i) <==> Ended(hs, j, i - 1) || EndsTalk(hs, j, i - 1)
  {
    if Ended(hs, j, i - 1) {
      var k :| j <= k < i - 1 && EndsTalk(hs, j, k);
      assert j <= k < i && EndsTalk(hs, j, k);
    }
  }

  lemma HearRemembers(c: Media, h: Hearing)
    requires Hear(c, h.v, h.now).1.Written?
    ensures var header := Hear(c, h.v, h.now).1.header;
            Hear(c, h.v, h.now).0
            == Media(Some(h.v.frame), header.timestamp, header.sequence, Samples(h), h.v.last, Some(h.now))
  {
  }

  lemma HearForgetsNothing(c: Media, h: Hearing)
    requires !Hear(c, h.v, h.now).1.Written?
    ensures Hear(c, h.v, h.now).0 == c.(ended := c.ended || (h.v.last && h.v.opus == []))
  {
  }

  lemma {:induction false} ClockRemembers(m: Media, hs: seq<Hearing>, j: int, i: int)
    requires 0 <= j < i <= |hs| && Emits(m, hs, j)
    requires forall k | j < k < i :: !Emits(m, hs, k)
    ensures Remembers(After(m, hs[..i]), m, hs, j, i)
    decreases i
  {
    AfterNext(m, hs, i - 1);
    if i == j + 1 {
      HearRemembers(After(m, hs[..j]), hs[j]);
      EndedNext(hs, j, i);
    } else {
      ClockRemembers(m, hs, j, i - 1);
      assert !Emits(m, hs, i - 1);
      HearForgetsNothing(After(m, hs[..i - 1]), hs[i - 1]);
      EndedNext(hs, j, i);
    }
  }

  /**
   From one emitted packet to the next: the sequence number goes up by one; the marker is set
   exactly if the spurt was over; within a spurt the timestamp moves by 480 per Mumble frame,
   and between spurts by the larger of the elapsed time and the previous packet's duration.
   */
  lemma NextPacket(m: Media, hs: seq<Hearing>, j: int, i: int)
    requires NextEmitted(m, hs, j, i)
    ensures var a, b := Outcome(m, hs, j).header, Outcome(m, hs, i).header;
            && b.sequence == Wrap16(a.sequence + 1)
            && (b.marker <==> SpurtOver(hs, j, i))
            && (!b.marker ==> hs[j].v.frame < hs[i].v.frame)
            && (!b.marker ==> b.timestamp == Wrap32(a.timestamp + 480 * (hs[i].v.frame - hs[j].v.frame)))
            && (b.marker ==>
                  var elapsed := ElapsedTicks(Since(hs[i].now, hs[j].now));
                  b.timestamp == Wrap32(a.timestamp + if elapsed >= Samples(hs[j]) then elapsed else Samples(hs[j])))
  {
    ClockRemembers(m, hs, j, i);
  }

  /** Until the spurt is over, a message is dropped exactly if its frame is not newer; otherwise a good one is emitted. */
  lemma EmittedExactly(m: Media, hs: seq<Hearing>, j: int, i: int)
    requires 0 <= j < i < |hs| && Emits(m, hs, j)
    requires forall k | j < k < i :: !Emits(m, hs, k)
    ensures Emits(m, hs, i) <==>
              hs[i].v.opus != [] && Opus.TotalSamples(hs[i].v.opus).Success?
              && (SpurtOver(hs, j, i) || hs[j].v.frame < hs[i].v.frame)
  {
    ClockRemembers(m, hs, j, i);
  }

  // ---------------------------------------------------------------- unwrapped counters

  /** Packets emitted so far. */
  function Count(hs: seq<Hearing>): nat {
    if hs == [] then 0
    else Count(hs[..|hs| - 1]) + if Emits(SILENT, hs, |hs| - 1) then 1 else 0
  }

  /** The track's timestamp as it would be without wrap-around. */
  function Ticks(hs: seq<Hearing>): int {
    if hs == [] then 0
    else
      var init, h := hs[..|hs| - 1], hs[|hs| - 1];
      Ticks(init) + if Emits(SILENT, hs, |hs| - 1) then Advance(After(SILENT, init), h.v.frame, h.now) else 0
  }

  lemma HearEmits(m: Media, v: Voice, now: nat)
    requires Hear(m, v, now).1.Written?
    ensures var h := Hear(m, v, now).1.header;
            var m' := Hear(m, v, now).0;
            && m'.timestamp == h.timestamp == Wrap32(m.timestamp + Advance(m, v.frame, now))
            && m'.sequence == h.sequence == Wrap16(m.sequence + 1)
            && m'.lastFrame == Some(v.frame) && m'.samples >= 120
            && (m.lastFrame.Some? && m.samples > 0 ==> Advance(m, v.frame, now) > 0)
  {
    Opus.TotalSamplesMatchesRfc(v.opus);
  }

  /**
   The 16- and 32-bit counters in the headers are the unbounded packet count and the unbounded
   timestamp, wrapped; and the unbounded timestamp strictly increases from packet to packet.
   */
  lemma {:induction false} CountersUnwrap(hs: seq<Hearing>)
    ensures var m := After(SILENT, hs);
            && m.sequence == Wrap16(Count(hs)) && m.timestamp == Wrap32(Ticks(hs))
            && (m.lastFrame.Some? <==> Count(hs) > 0)
            && (m.lastFrame.Some? ==> m.samples > 0)
    ensures hs != [] && Emits(SILENT, hs, |hs| - 1) && Count(hs) > 1 ==> Ticks(hs[..|hs| - 1]) < Ticks(hs)
  {
    if hs != [] {
      var init, h := hs[..|hs| - 1], hs[|hs| - 1];
      CountersUnwrap(init);
      var m := After(SILENT, init);
      if Emits(SILENT, hs, |hs| - 1) {
        HearEmits(m, h.v, h.now);
        NextWraps(Ticks(init), Advance(m, h.v.frame, h.now), Count(init));
      } else {
        HearForgetsNothing(m, h);
      }
    }
  }

  lemma NextWraps(x: int, d: int, n: nat)
    ensures Wrap32(Wrap32(x) + d) == Wrap32(x + d)
    ensures Wrap16(Wrap16(n) + 1) == Wrap16(n + 1)
  {
    SameWrap32(x + d, Wrap32(x) + d, x / W32);
    AddMultiple(Wrap16(n) + 1, n / W16, W16);
  }

  /** The first packet emitted is the first message with a valid Opus packet. */
  lemma FirstEmittedExactly(hs: seq<Hearing>, i: int)
    requires 0 <= i < |hs| && Count(hs[..i]) == 0
    ensures Emits(SILENT, hs, i) <==> hs[i].v.opus != [] && Opus.TotalSamples(hs[i].v.opus).Success?
  {
    NothingEmittedYet(hs[..i]);
  }

  /** A track starts at sequence number 1 and timestamp 0, with the marker set. */
  lemma FirstPacket(hs: seq<Hearing>, i: int)
    requires 0 <= i < |hs| && Emits(SILENT, hs, i) && Count(hs[..i]) == 0
    ensures Outcome(SILENT, hs, i).header == Header(1, 0, true)
  {
    CountersUnwrap(hs[..i]);
    NothingEmittedYet(hs[..i]);
  }

  lemma {:induction false} NothingEmittedYet(hs: seq<Hearing>)
    requires Count(hs) == 0
    ensures After(SILENT, hs) == SILENT.(ended := After(SILENT, hs).ended)
  {
    if hs != [] {
      NothingEmittedYet(hs[..|hs| - 1]);
      HearForgetsNothing(After(SILENT, hs[..|hs| - 1]), hs[|hs| - 1]);
    }
  }

  // ---------------------------------------------------------------- many speakers at once

  function TracksAfter(es: seq<TrackEvent>): map<nat, Media> {
    if es == [] then map[] else TracksStep(TracksAfter(es[..|es| - 1]), es[|es| - 1])
  }

  /** The events that concern one speaker. */
  function OfSpeaker(es: seq<TrackEvent>, s: nat): seq<TrackEvent> {
    if es == [] then []
    else
      var rest := OfSpeaker(es[..|es| - 1], s);
      if es[|es| - 1].session == s then rest + [es[|es| - 1]] else rest
  }

  /** A speaker's clock is what it would be if nobody else had ever joined, left or spoken. */
  lemma {:induction false} SpeakersAreIndependent(es: seq<TrackEvent>, s: nat)
    ensures s in TracksAfter(es) <==> s in TracksAfter(OfSpeaker(es, s))
    ensures s in TracksAfter(es) ==> TracksAfter(es)[s] == TracksAfter(OfSpeaker(es, s))[s]
  {
    if es != [] {
      var init, last := es[..|es| - 1], es[|es| - 1];
      SpeakersAreIndependent(init, s);
      if last.session == s {
        var own := OfSpeaker(es, s);
        assert own[..|own| - 1] == OfSpeaker(init, s) && own[|own| - 1] == last;
      }
    }
  }

  /** The speaker's last join that was accepted came after the last leave. */
  predicate Present(es: seq<TrackEvent>, s: nat) {
    if es == [] then false
    else
      var was := Present(es[..|es| - 1], s);
      match es[|es| - 1]
      case Joined(x, accepted) => was || (x == s && accepted)
      case Left(x) => was && x != s
      case Spoke(_, _) => was
  }

  /** The messages in time from a speaker since the join that added its track. */
  function HeardSinceJoin(es: seq<TrackEvent>, s: nat): seq<Hearing> {
    if es == [] then []
    else
      var init := es[..|es| - 1];
      match es[|es| - 1]
      case Joined(x, accepted) => if x == s && accepted && !Present(init, s) then [] else HeardSinceJoin(init, s)
      case Left(_) => HeardSinceJoin(init, s)
      case Spoke(x, h) =>
        if x == s && h.v.ageMs <= 120 then HeardSinceJoin(init, s) + [h] else HeardSinceJoin(init, s)
  }

  /**
   After any events, a speaker has a track exactly if the last accepted join came after the last
   leave, and the track's clock is the run of the messages heard in time since that join.
   */
  lemma {:induction false} TrackHearsItsSpeaker(es: seq<TrackEvent>, s: nat)
    ensures s in TracksAfter(es) <==> Present(es, s)
    ensures s in TracksAfter(es) ==> TracksAfter(es)[s] == After(SILENT, HeardSinceJoin(es, s))
  {
    if es != [] {
      var init, last := es[..|es| - 1], es[|es| - 1];
      TrackHearsItsSpeaker(init, s);
      if last.Spoke? && last.session == s && last.h.v.ageMs <= MAX_AGE_MS {
        var hs := HeardSinceJoin(es, s);
        assert hs[..|hs| - 1] == HeardSinceJoin(init, s);
      }
    }
  }
}
