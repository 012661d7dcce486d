/**
 The uplink loop of `AudioBridge::start` in `src/bridge.rs`: it filters browser packets
 through the clock, offers them to the Mumble voice queue, and ends a talk spurt with one
 terminator when the microphone has been quiet for 200 ms.
 */
module UplinkLoop {
  import opened Common
  import opened Bits
  import opened Opus
  import opened Uplink

  /** What `try_send` on the bounded Mumble queue answers. */
  datatype Queue = Sent | Full | Closed

  datatype Event =
    | Arrived(timestamp: U32, sequence: U16, opus: seq<Byte>, ageMs: nat, now: nat, queue: Queue)
    | Tick(now: nat)

  /**
   A message offered to the queue (which may drop it when full).  `stamp` and `samples` are
   the RTP timestamp and the duration of the browser packet it stands for; they are not
   part of the message.
   */
  datatype Offer = Offer(number: nat, opus: seq<Byte>, last: bool, stamp: U32, samples: nat)

  /** Loop variables: the clock, when the last packet was accepted, what was offered so far. */
  datatype Loop = Loop(clock: Clock, lastPacket: Option<nat>, offers: seq<Offer>, stopped: bool)

  const FRESH := Loop(START, None, [], false)

  const MAX_AGE_MS: nat := 120
  const QUIET_MS: nat := 200

  function WholeFrames(opus: seq<Byte>): Option<nat> {
    match TotalSamples(opus)
    case Success(samples) => if samples % FRAME == 0 then Some(samples) else None
    case Failure(_) => None
  }

  function LoopStep(l: Loop, e: Event): Loop {
    if l.stopped then l
    else match e
      case Arrived(timestamp, sequence, opus, ageMs, now, queue) =>
        if ageMs > MAX_AGE_MS || WholeFrames(opus).None? then l
        else
          var (clock, number) := Step(l.clock, Rtp(timestamp, sequence, WholeFrames(opus).value));
          if number.None? then l
          else Loop(clock, Some(now), l.offers + [Offer(number.value, opus, false, timestamp, clock.samples)], queue == Closed)
      case Tick(now) =>
        if l.lastPacket.Some? && now >= l.lastPacket.value + QUIET_MS
        then Loop(l.clock, None, l.offers + [Offer(EndFrame(l.clock), [], true, l.clock.lastTimestamp.GetOr(0), 0)], false)
        else l
  }

  function LoopAfter(es: seq<Event>): Loop {
    if es == [] then FRESH else LoopStep(LoopAfter(es[..|es| - 1]), es[|es| - 1])
  }

  lemma {:induction false} StoppedStays(es: seq<Event>, i: nat)
    requires i <= |es| && LoopAfter(es[..i]).stopped
    ensures LoopAfter(es) == LoopAfter(es[..i])
    decreases |es| - i
  {
    if i == |es| {
      assert es[..i] == es;
    } else {
      assert es[..i + 1][..i] == es[..i];
      StoppedStays(es, i + 1);
    }
  }

  /** The uplink loop over the packets and ticks that reach it. */
  method Forward(events: seq<Event>) returns (offers: seq<Offer>)
    ensures offers == LoopAfter(events).offers
  {
    var clock := new UplinkClock();
    var lastPacket: Option<nat> := None;
    offers := [];
    var i := 0;
    while i < |events|
      invariant 0 <= i <= |events|
      invariant LoopAfter(events[..i]) == Loop(clock.Value(), lastPacket, offers, false)
      modifies clock
    {
      assert events[..i + 1][..i] == events[..i];
      var e := events[i];
      i := i + 1;
      match e {
        case Arrived(timestamp, sequence, opus, ageMs, now, queue) =>
          var samples := WholeFrames(opus);
          if ageMs <= MAX_AGE_MS && samples.Some? {
            var number := clock.Packet(timestamp, sequence, samples.value);
            if number.Some? {
              lastPacket := Some(now);
              offers := offers + [Offer(number.value, opus, false, timestamp, samples.value)];
              if queue == Closed {
                StoppedStays(events, i);
                return;
              }
            }
          }
        case Tick(now) =>
          if lastPacket.Some? && now >= lastPacket.value + QUIET_MS {
            var end := clock.End();
            offers := offers + [Offer(end, [], true, clock.lastTimestamp.GetOr(0), 0)];
            lastPacket := None;
          }
      }
    }
    assert events[..i] == events;
  }

  // ---------------------------------------------------------------- what is offered

  /** A voice message lasts 1 to 12 whole frames, and that is its RFC 6716 duration. */
  ghost predicate GoodVoice(o: Offer) {
    && RfcSamples(o.opus) == Some(o.samples)
    && o.samples % 480 == 0 && 1 <= o.samples / 480 <= 12
  }

  lemma WholeFramesAreGood(opus: seq<Byte>)
    requires WholeFrames(opus).Some?
    ensures RfcSamples(opus) == WholeFrames(opus)
    ensures var n := WholeFrames(opus).value; n % FRAME == 0 && 1 <= n / FRAME <= 12
  {
    TotalSamplesMatchesRfc(opus);
  }

  lemma {:induction false} OffersAreGood(es: seq<Event>)
    ensures forall i | 0 <= i < |LoopAfter(es).offers| && !LoopAfter(es).offers[i].last :: GoodVoice(LoopAfter(es).offers[i])
  {
    if es != [] {
      OffersAreGood(es[..|es| - 1]);
      var e := es[|es| - 1];
      if e.Arrived? && WholeFrames(e.opus).Some? {
        WholeFramesAreGood(e.opus);
      }
    }
  }

  /** Every forwarded packet is 1 to 12 whole frames long, as the standard measures it. */
  lemma ForwardedAreWholeFrames(es: seq<Event>, i: nat)
    requires i < |LoopAfter(es).offers| && !LoopAfter(es).offers[i].last
    ensures GoodVoice(LoopAfter(es).offers[i])
  {
    OffersAreGood(es);
  }

  // ---------------------------------------------------------------- how the numbers go on

  /** Packet `b` is numbered after `a` by the frames its timestamp moved on. */
  ghost predicate Advances(a: Offer, b: Offer) {
    var delta := Wrap32(b.stamp - a.stamp);
    0 < delta < 0x8000_0000 && FRAME * (b.number - a.number) == delta
  }

  /** Message `i` fits what was offered before it. */
  ghost predicate Linked(os: seq<Offer>, i: int)
    requires 0 <= i < |os|
  {
    if os[i].last then
      i > 0 && !os[i - 1].last && os[i].number == os[i - 1].number + os[i - 1].samples / FRAME
    else
      && os[i].samples >= FRAME
      && (i > 0 && !os[i - 1].last ==> Advances(os[i - 1], os[i]))
      && (i > 0 && os[i - 1].last ==> i > 1 && Advances(os[i - 2], os[i]))
  }

  ghost predicate Chained(os: seq<Offer>) {
    forall i | 0 <= i < |os| :: Linked(os, i)
  }

  lemma ChainGrows(os: seq<Offer>, o: Offer)
    requires Chained(os) && Linked(os + [o], |os|)
    ensures Chained(os + [o])
  {
    forall i | 0 <= i < |os + [o]|
      ensures Linked(os + [o], i)
    {
      if i < |os| {
        assert Linked(os, i);
      }
    }
  }

  /** The position of the last voice message offered. */
  function LastVoice(os: seq<Offer>): int {
    if os != [] && os[|os| - 1].last then |os| - 2 else |os| - 1
  }

  ghost predicate ClockOk(l: Loop) {
    if l.offers == [] then l.clock == START && l.lastPacket.None?
    else
      var k := LastVoice(l.offers);
      && 0 <= k && !l.offers[k].last
      && (l.lastPacket.Some? ==> k == |l.offers| - 1)
      && l.clock.lastSequence.Some?
      && l.clock.lastTimestamp == Some(l.offers[k].stamp)
      && l.clock.frame == l.offers[k].number
      && l.clock.samples == l.offers[k].samples
  }

  lemma AcceptedAdvances(c: Clock, p: Rtp)
    requires Step(c, p).1.Some? && c.lastTimestamp.Some?
    ensures var delta := Wrap32(p.timestamp - c.lastTimestamp.value);
            0 < delta < 0x8000_0000 && FRAME * (Step(c, p).1.value - c.frame) == delta
  {
    var delta := Wrap32(p.timestamp - c.lastTimestamp.value);
    assert delta == FRAME * (delta / FRAME);
  }

  lemma AcceptedKeepsChain(l: Loop, o: Offer, p: Rtp)
    requires Chained(l.offers) && ClockOk(l) && p.samples >= FRAME
    requires Step(l.clock, p).1 == Some(o.number) && o.stamp == p.timestamp && o.samples == p.samples && !o.last
    ensures Chained(l.offers + [o])
  {
    var os := l.offers;
    if os != [] {
      AcceptedAdvances(l.clock, p);
      var k := LastVoice(os);
      assert Advances(os[k], o);
      assert os[|os| - 1].last ==> Linked(os, |os| - 1);
    }
    ChainGrows(os, o);
  }

  lemma StepKeepsChain(l: Loop, e: Event)
    requires Chained(l.offers) && ClockOk(l)
    ensures Chained(LoopStep(l, e).offers) && ClockOk(LoopStep(l, e))
  {
    var l' := LoopStep(l, e);
    if l' != l {
      var o := l'.offers[|l.offers|];
      assert l'.offers == l.offers + [o];
      if e.Arrived? {
        WholeFramesAreGood(e.opus);
        AcceptedKeepsChain(l, o, Rtp(e.timestamp, e.sequence, WholeFrames(e.opus).value));
      } else {
        ChainGrows(l.offers, o);
      }
    }
  }

  lemma {:induction false} LoopStaysChained(es: seq<Event>)
    ensures Chained(LoopAfter(es).offers) && ClockOk(LoopAfter(es))
  {
    if es != [] {
      LoopStaysChained(es[..|es| - 1]);
      StepKeepsChain(LoopAfter(es[..|es| - 1]), es[|es| - 1]);
    }
  }

  /**
   A terminator directly follows the packet whose spurt it ends and is numbered after it;
   no two are offered without a packet between.  The next packet's number is at least the
   terminator's exactly if its timestamp moved on by at least the previous packet's duration.
   */
  lemma TerminatorBetweenPackets(es: seq<Event>, i: nat)
    requires i < |LoopAfter(es).offers| && LoopAfter(es).offers[i].last
    ensures var os := LoopAfter(es).offers;
            && 0 < i && !os[i - 1].last
            && os[i].number == os[i - 1].number + os[i - 1].samples / FRAME > os[i - 1].number
            && (i + 1 < |os| ==>
                  && !os[i + 1].last
                  && os[i - 1].number < os[i + 1].number
                  && (os[i].number <= os[i + 1].number <==>
                        os[i - 1].samples <= Wrap32(os[i + 1].stamp - os[i - 1].stamp)))
  {
    LoopStaysChained(es);
    OffersAreGood(es);
    var os := LoopAfter(es).offers;
    assert Linked(os, i) && Linked(os, i - 1);
    assert GoodVoice(os[i - 1]);
    if i + 1 < |os| {
      assert Linked(os, i + 1);
      assert os[i - 1].samples == FRAME * (os[i - 1].samples / FRAME);
    }
  }

  const OVERTAKING := [
    Arrived(0, 0, [0xF8], 0, 0, Sent), Tick(QUIET_MS), Arrived(480, 1, [0xF8], 0, 300, Sent)]

  /** It does happen: 10 ms after a packet of 20 ms comes another, and the terminator between them has the higher number. */
  lemma TerminatorOvertakes()
    ensures var os := LoopAfter(OVERTAKING).offers;
            |os| == 3 && os[1].last && !os[2].last && os[2].number < os[1].number
  {
    TwentyMillis();
    var p1, p2, p3 := OVERTAKING[..1], OVERTAKING[..2], OVERTAKING[..3];
    assert p1[..0] == [] && p2[..1] == p1 && p3[..2] == p2 && p3 == OVERTAKING;
    assert LoopAfter(p1).offers == [Offer(0, [0xF8], false, 0, 960)];
    assert LoopAfter(p2).offers == [Offer(0, [0xF8], false, 0, 960), Offer(2, [], true, 0, 0)];
  }

  lemma TwentyMillis()
    ensures WholeFrames([0xF8]) == Some(960)
  {
    TotalSamplesMatchesRfc([0xF8]);
  }

  // ---------------------------------------------------------------- exactly what is offered, and when

  /** Event `k` made the loop offer something. */
  ghost predicate OffersAt(es: seq<Event>, k: int)
    requires 0 <= k < |es|
  {
    |LoopAfter(es[..k + 1]).offers| > |LoopAfter(es[..k]).offers|
  }

  lemma LoopNext(es: seq<Event>, k: int)
    requires 0 <= k < |es|
    ensures LoopAfter(es[..k + 1]) == LoopStep(LoopAfter(es[..k]), es[k])
  {
    assert es[..k + 1][..k] == es[..k];
  }

  /** The queue was found closed at a packet among the first `k` events. */
  ghost predicate ClosedBefore(es: seq<Event>, k: int)
    requires 0 <= k <= |es|
  {
    exists j :: 0 <= j < k && ClosesAt(es, j)
  }

  ghost predicate ClosesAt(es: seq<Event>, j: int)
    requires 0 <= j < |es|
  {
    es[j].Arrived? && OffersAt(es, j) && es[j].queue == Closed
  }

  lemma {:induction false} StoppedExactly(es: seq<Event>, k: nat)
    requires k <= |es|
    ensures LoopAfter(es[..k]).stopped <==> ClosedBefore(es, k)
  {
    if k > 0 {
      StoppedExactly(es, k - 1);
      LoopNext(es, k - 1);
      StepStops(LoopAfter(es[..k - 1]), es[k - 1]);
      assert ClosesAt(es, k - 1) <==> es[k - 1].Arrived? && OffersAt(es, k - 1) && es[k - 1].queue == Closed;
      if ClosedBefore(es, k - 1) {
        var j :| 0 <= j < k - 1 && ClosesAt(es, j);
        assert 0 <= j < k && ClosesAt(es, j);
      }
    }
  }

  lemma StepStops(l: Loop, e: Event)
    ensures LoopStep(l, e).stopped <==>
              l.stopped || (e.Arrived? && |LoopStep(l, e).offers| > |l.offers| && e.queue == Closed)
  {
  }

  /** A packet in time whose TOC and count byte state whole 10 ms units. */
  predicate InTimeAndWhole(e: Event) {
    e.Arrived? && e.ageMs <= 120 && RfcSamples(e.opus).Some? && RfcSamples(e.opus).value % 480 == 0
  }

  function RtpOf(e: Event): Rtp
    requires InTimeAndWhole(e)
  {
    Rtp(e.timestamp, e.sequence, RfcSamples(e.opus).value)
  }

  /** The packets that reach the clock: those in time and whole, until the queue is closed. */
  ghost function ToClock(es: seq<Event>, k: nat): seq<Rtp>
    requires k <= |es|
  {
    if k == 0 then []
    else if InTimeAndWhole(es[k - 1]) && !ClosedBefore(es, k - 1) then ToClock(es, k - 1) + [RtpOf(es[k - 1])]
    else ToClock(es, k - 1)
  }

  lemma WholeExactly(e: Event)
    requires e.Arrived?
    ensures InTimeAndWhole(e) <==> e.ageMs <= MAX_AGE_MS && WholeFrames(e.opus).Some?
    ensures InTimeAndWhole(e) ==> RtpOf(e) == Rtp(e.timestamp, e.sequence, WholeFrames(e.opus).value)
  {
    TotalSamplesMatchesRfc(e.opus);
  }

  lemma StepClocks(l: Loop, e: Event)
    ensures LoopStep(l, e).clock == if !l.stopped && InTimeAndWhole(e) then Step(l.clock, RtpOf(e)).0 else l.clock
  {
    if e.Arrived? {
      WholeExactly(e);
      if !l.stopped && InTimeAndWhole(e) && Step(l.clock, RtpOf(e)).1.None? {
        StepKeepsAnchorless(l.clock, RtpOf(e));
      }
    }
  }

  lemma StepKeepsAnchorless(c: Clock, p: Rtp)
    requires Step(c, p).1.None?
    ensures Step(c, p).0 == c
  {
  }

  /** The loop's clock is the clock of the packets that reached it. */
  lemma {:induction false} ClockIsOfPackets(es: seq<Event>, k: nat)
    requires k <= |es|
    ensures LoopAfter(es[..k]).clock == After(ToClock(es, k))
  {
    if k > 0 {
      ClockIsOfPackets(es, k - 1);
      LoopNext(es, k - 1);
      StoppedExactly(es, k - 1);
      StepClocks(LoopAfter(es[..k - 1]), es[k - 1]);
      if InTimeAndWhole(es[k - 1]) && !ClosedBefore(es, k - 1) {
        var ps := ToClock(es, k);
        assert ps[..|ps| - 1] == ToClock(es, k - 1) && ps[|ps| - 1] == RtpOf(es[k - 1]);
      }
    }
  }

  lemma StepOffersVoice(l: Loop, e: Event)
    requires e.Arrived?
    ensures |LoopStep(l, e).offers| > |l.offers| <==>
              !l.stopped && InTimeAndWhole(e) && Step(l.clock, RtpOf(e)).1.Some?
    ensures |LoopStep(l, e).offers| > |l.offers| ==>
              && LoopStep(l, e).offers[..|l.offers|] == l.offers && |LoopStep(l, e).offers| == |l.offers| + 1
              && var o := LoopStep(l, e).offers[|l.offers|];
                 o.number == Step(l.clock, RtpOf(e)).1.value && o.opus == e.opus && !o.last && o.stamp == e.timestamp
  {
    WholeExactly(e);
  }

  /**
   A browser packet is offered exactly if the queue was not found closed before, it is at most
   120 ms old and whole 10 ms units long, and the clock of the packets before it accepts it; it is
   offered with its own bytes under the clock's number.
   */
  lemma VoiceOfferedExactly(es: seq<Event>, k: nat)
    requires k < |es| && es[k].Arrived?
    ensures OffersAt(es, k) <==>
              !ClosedBefore(es, k) && InTimeAndWhole(es[k]) && Step(After(ToClock(es, k)), RtpOf(es[k])).1.Some?
    ensures OffersAt(es, k) ==>
              var n := |LoopAfter(es[..k]).offers|;
              && |LoopAfter(es[..k + 1]).offers| == n + 1
              && LoopAfter(es[..k + 1]).offers[..n] == LoopAfter(es[..k]).offers
              && var o := LoopAfter(es[..k + 1]).offers[n];
                 o.number == Step(After(ToClock(es, k)), RtpOf(es[k])).1.value && o.opus == es[k].opus && !o.last
  {
    LoopNext(es, k);
    StoppedExactly(es, k);
    ClockIsOfPackets(es, k);
    StepOffersVoice(LoopAfter(es[..k]), es[k]);
  }

  /** The last thing offered before event `k` was the packet of event `j`. */
  ghost predicate LastOfferedAt(es: seq<Event>, j: int, k: int) {
    && 0 <= j < k <= |es| && es[j].Arrived? && OffersAt(es, j)
    && forall m | j < m < k :: !OffersAt(es, m)
  }

  ghost predicate Remembered(lastPacket: Option<nat>, es: seq<Event>, k: int) {
    match lastPacket
    case Some(t) => exists j :: LastOfferedAt(es, j, k) && es[j].now == t
    case None => forall j :: !LastOfferedAt(es, j, k)
  }

  lemma StepRemembers(l: Loop, e: Event)
    ensures LoopStep(l, e).lastPacket ==
              if |LoopStep(l, e).offers| > |l.offers| then (if e.Arrived? then Some(e.now) else None) else l.lastPacket
    ensures |LoopStep(l, e).offers| >= |l.offers|
  {
  }

  lemma LastOfferedNext(es: seq<Event>, j: int, k: int)
    requires 0 <= k < |es|
    ensures LastOfferedAt(es, j, k + 1) <==>
              if OffersAt(es, k) then j == k && es[k].Arrived? else LastOfferedAt(es, j, k)
  {
    if LastOfferedAt(es, j, k + 1) && j < k {
      assert !OffersAt(es, k);
    }
  }

  lemma LoopRemembers(es: seq<Event>, k: int)
    requires 0 <= k < |es|
    ensures LoopAfter(es[..k + 1]).lastPacket ==
              if OffersAt(es, k) then (if es[k].Arrived? then Some(es[k].now) else None)
              else LoopAfter(es[..k]).lastPacket
  {
    LoopNext(es, k);
    StepRemembers(LoopAfter(es[..k]), es[k]);
  }

  lemma RememberedNext(es: seq<Event>, k: int, was: Option<nat>, now: Option<nat>)
    requires 0 <= k < |es| && Remembered(was, es, k)
    requires now == if OffersAt(es, k) then (if es[k].Arrived? then Some(es[k].now) else None) else was
    ensures Remembered(now, es, k + 1)
  {
    if OffersAt(es, k) && es[k].Arrived? {
      LastOfferedNext(es, k, k);
    } else if !OffersAt(es, k) && was.Some? {
      var j :| LastOfferedAt(es, j, k) && es[j].now == was.value;
      LastOfferedNext(es, j, k);
    } else {
      var n := k + 1;
      forall j
        ensures !LastOfferedAt(es, j, n)
      {
        LastOfferedNext(es, j, k);
      }
    }
  }

  lemma {:induction false} LastPacketIsLastOffered(es: seq<Event>, k: nat)
    requires k <= |es|
    ensures Remembered(LoopAfter(es[..k]).lastPacket, es, k)
  {
    if k > 0 {
      LastPacketIsLastOffered(es, k - 1);
      LoopRemembers(es, k - 1);
      RememberedNext(es, k - 1, LoopAfter(es[..k - 1]).lastPacket, LoopAfter(es[..k]).lastPacket);
    }
  }

  lemma StepOffersEnd(l: Loop, e: Event)
    requires e.Tick?
    ensures |LoopStep(l, e).offers| > |l.offers| <==> !l.stopped && l.lastPacket.Some? && l.lastPacket.value + 200 <= e.now
  {
  }

  /**
   A terminator is offered at a tick exactly if the queue was not found closed before, and the
   last thing offered was a packet, at least 200 ms ago.
   */
  lemma TerminatorOfferedExactly(es: seq<Event>, k: nat)
    requires k < |es| && es[k].Tick?
    ensures OffersAt(es, k) <==>
              !ClosedBefore(es, k) && exists j :: LastOfferedAt(es, j, k) && es[j].now + 200 <= es[k].now
  {
    LoopNext(es, k);
    StoppedExactly(es, k);
    LastPacketIsLastOffered(es, k);
    StepOffersEnd(LoopAfter(es[..k]), es[k]);
    OnlyOneLastOffered(es, k);
  }

  lemma OnlyOneLastOffered(es: seq<Event>, k: nat)
    requires k <= |es|
    ensures forall i, j | LastOfferedAt(es, i, k) && LastOfferedAt(es, j, k) :: i == j
  {
  }
}
