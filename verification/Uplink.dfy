/**
 The browser-to-Mumble clock of `src/bridge.rs`: 16-bit RTP sequence numbers and 32-bit
 RTP timestamps are unwrapped into a growing count of 10 ms Mumble frames.
 */
module Uplink {
  import opened Common
  import opened Bits

  datatype Rtp = Rtp(timestamp: U32, sequence: U16, samples: nat)

  /** The fields of an `UplinkClock` as a value. */
  datatype Clock = Clock(lastTimestamp: Option<U32>, lastSequence: Option<U16>, frame: nat, samples: nat)

  const START := Clock(None, None, 0, 0)

  predicate StaleSequence(last: Option<U16>, sequence: U16) {
    last.Some? && (Wrap16(sequence - last.value) == 0 || Wrap16(sequence - last.value) >= 0x8000)
  }

  predicate BadAdvance(delta: int) {
    delta == 0 || delta >= 0x8000_0000 || delta % FRAME != 0
  }

  /** The clock after a packet, and the frame number the packet gets unless it is rejected. */
  function Step(c: Clock, p: Rtp): (Clock, Option<nat>) {
    if StaleSequence(c.lastSequence, p.sequence) then (c, None)
    else if c.lastTimestamp.None? then
      (Clock(Some(p.timestamp), Some(p.sequence), c.frame, p.samples), Some(c.frame))
    else
      var delta := Wrap32(p.timestamp - c.lastTimestamp.value);
      if BadAdvance(delta) then (c, None)
      else
        var frame := c.frame + delta / FRAME;
        (Clock(Some(p.timestamp), Some(p.sequence), frame, p.samples), Some(frame))
  }

  function EndFrame(c: Clock): nat {
    c.frame + c.samples / FRAME
  }

  class UplinkClock {
    var lastTimestamp: Option<U32>
    var lastSequence: Option<U16>
    var frame: nat
    var samples: nat

    ghost function Value(): Clock
      reads this
    {
      Clock(lastTimestamp, lastSequence, frame, samples)
    }

    constructor ()
      ensures Value() == START
    {
      lastTimestamp := None;
      lastSequence := None;
      frame := 0;
      samples := 0;
    }

    method Packet(timestamp: U32, sequence: U16, samples: nat) returns (r: Option<nat>)
      modifies this
      ensures (Value(), r) == Step(old(Value()), Rtp(timestamp, sequence, samples))
    {
      if lastSequence.Some? {
        var delta := Wrap16(sequence - lastSequence.value);
        if delta == 0 || delta >= 0x8000 {
          return None;
        }
      }
      if lastTimestamp.Some? {
        var delta := Wrap32(timestamp - lastTimestamp.value);
        if delta == 0 || delta >= 0x8000_0000 || delta % FRAME != 0 {
          return None;
        }
        frame := frame + delta / FRAME;
      }
      lastTimestamp := Some(timestamp);
      lastSequence := Some(sequence);
      this.samples := samples;
      r := Some(frame);
    }

    method End() returns (r: nat)
      ensures r == EndFrame(Value())
    {
      r := frame + samples / FRAME;
    }
  }

  // ---------------------------------------------------------------- runs

  /** The clock after a whole stream of packets. */
  function After(ps: seq<Rtp>): Clock {
    if ps == [] then START else Step(After(ps[..|ps| - 1]), ps[|ps| - 1]).0
  }

  /** What packet `i` of the stream got. */
  function Number(ps: seq<Rtp>, i: nat): Option<nat>
    requires i < |ps|
  {
    Step(After(ps[..i]), ps[i]).1
  }

  ghost predicate Anchored(c: Clock, first: U32) {
    && c.lastTimestamp.Some? && c.lastSequence.Some?
    && c.lastTimestamp.value == Wrap32(first + FRAME * c.frame)
  }

  lemma StepKeepsAnchor(c: Clock, p: Rtp, first: U32)
    requires Anchored(c, first)
    ensures Anchored(Step(c, p).0, first)
    ensures Step(c, p).1.Some? ==> Step(c, p).0.frame == Step(c, p).1.value > c.frame
    ensures Step(c, p).1.Some? ==> Step(c, p).0.lastTimestamp == Some(p.timestamp)
    ensures Step(c, p).1.None? ==> Step(c, p).0 == c
  {
    var last := c.lastTimestamp.value;
    var delta := Wrap32(p.timestamp - last);
    if Step(c, p).1.Some? {
      assert delta == FRAME * (delta / FRAME);
      var d := first + FRAME * c.frame;
      assert last == d % W32;
      SameWrap32(d + delta, p.timestamp, d / W32 + (delta - (p.timestamp - last)) / W32);
    }
  }

  /**
   After any stream, the last accepted timestamp is the first one plus 480 per frame
   counted, modulo 2^32: the frame count is the unwrapped clock.
   */
  lemma {:induction false} FrameCountsTimestamps(ps: seq<Rtp>)
    requires ps != []
    ensures Anchored(After(ps), ps[0].timestamp)
  {
    var init := ps[..|ps| - 1];
    if init == [] {
      assert After(ps) == Step(START, ps[0]).0;
    } else {
      FrameCountsTimestamps(init);
      StepKeepsAnchor(After(init), ps[|ps| - 1], ps[0].timestamp);
    }
  }

  lemma NumberIsClock(ps: seq<Rtp>, i: nat)
    requires i < |ps| && Number(ps, i).Some?
    ensures After(ps[..i + 1]).frame == Number(ps, i).value
    ensures After(ps[..i + 1]).lastTimestamp == Some(ps[i].timestamp)
    ensures ps[i].timestamp == Wrap32(ps[0].timestamp + 480 * Number(ps, i).value)
  {
    var upto := ps[..i + 1];
    assert upto[..i] == ps[..i] && upto[i] == ps[i] && upto[0] == ps[0];
    FrameCountsTimestamps(upto);
  }

  lemma {:induction false} FrameNeverFalls(ps: seq<Rtp>, i: nat, j: nat)
    requires 0 < i <= j <= |ps|
    ensures After(ps[..i]).frame <= After(ps[..j]).frame
    decreases j - i
  {
    if i < j {
      FrameNeverFalls(ps, i, j - 1);
      var shorter := ps[..j - 1];
      assert ps[..j][..j - 1] == shorter;
      FrameCountsTimestamps(shorter);
      StepKeepsAnchor(After(shorter), ps[j - 1], ps[0].timestamp);
    }
  }

  /** Accepted frame numbers strictly increase, whatever was rejected in between. */
  lemma NumbersIncrease(ps: seq<Rtp>, i: nat, j: nat)
    requires i < j < |ps| && Number(ps, i).Some? && Number(ps, j).Some?
    ensures Number(ps, i).value < Number(ps, j).value
  {
    NumberIsClock(ps, i);
    FrameNeverFalls(ps, i + 1, j);
    FrameCountsTimestamps(ps[..j]);
    StepKeepsAnchor(After(ps[..j]), ps[j], ps[0].timestamp);
  }

  /** A rejected packet leaves the whole clock as it was. */
  lemma RejectedChangesNothing(ps: seq<Rtp>, i: nat)
    requires i < |ps| && Number(ps, i).None?
    ensures After(ps[..i + 1]) == After(ps[..i])
  {
    assert ps[..i + 1][..i] == ps[..i];
  }

  // ---------------------------------------------------------------- the unbounded timeline

  /** A packet with its true, never wrapping, sequence number and timestamp. */
  datatype TruePacket = TruePacket(ticks: int, number: int, samples: nat)

  datatype Timeline = Silent | Heard(first: int, ticks: int, number: int)

  /** The reference: accept exactly what is newer in both and a whole number of frames later. */
  function TrueStep(t: Timeline, p: TruePacket): (Timeline, Option<int>) {
    match t
    case Silent => (Heard(p.ticks, p.ticks, p.number), Some(0))
    case Heard(first, ticks, number) =>
      if p.number > number && p.ticks > ticks && (p.ticks - ticks) % 480 == 0
      then (Heard(first, p.ticks, p.number), Some((p.ticks - first) / 480))
      else (t, None)
  }

  function TrueAfter(ts: seq<TruePacket>): Timeline {
    if ts == [] then Silent else TrueStep(TrueAfter(ts[..|ts| - 1]), ts[|ts| - 1]).0
  }

  function TrueNumber(ts: seq<TruePacket>, i: nat): Option<int>
    requires i < |ts|
  {
    TrueStep(TrueAfter(ts[..i]), ts[i]).1
  }

  function OnTheWire(p: TruePacket): Rtp {
    Rtp(Wrap32(p.ticks), Wrap16(p.number), p.samples)
  }

  function Stream(ts: seq<TruePacket>): seq<Rtp> {
    seq(|ts|, i requires 0 <= i < |ts| => OnTheWire(ts[i]))
  }

  /** Within half a wrap of the last accepted packet, in both counters. */
  ghost predicate Near(t: Timeline, p: TruePacket) {
    t.Heard? ==> -0x8000 <= p.number - t.number < 0x8000 && -0x8000_0000 <= p.ticks - t.ticks < 0x8000_0000
  }

  ghost predicate AllNear(ts: seq<TruePacket>) {
    forall i | 0 <= i < |ts| :: Near(TrueAfter(ts[..i]), ts[i])
  }

  ghost predicate Follows(c: Clock, t: Timeline) {
    match t
    case Silent => c.lastTimestamp.None? && c.lastSequence.None? && c.frame == 0
    case Heard(first, ticks, number) =>
      && c.lastTimestamp == Some(Wrap32(ticks)) && c.lastSequence == Some(Wrap16(number))
      && ticks - first == FRAME * c.frame
  }

  lemma NearSequence(x: int, y: int)
    requires -0x8000 <= x - y < 0x8000
    ensures var d := Wrap16(Wrap16(x) - Wrap16(y)); (d == 0 || d >= 0x8000) <==> x <= y
  {
    var d := Wrap16(x) - Wrap16(y);
    assert (x - y) - d == W16 * (x / W16 - y / W16);
  }

  lemma NearTimestamp(x: int, y: int)
    requires -0x8000_0000 <= x - y < 0x8000_0000
    ensures var d := Wrap32(Wrap32(x) - Wrap32(y));
            (d == 0 || d >= 0x8000_0000 <==> x <= y) && (x > y ==> d == x - y)
  {
    var d := Wrap32(x) - Wrap32(y);
    assert (x - y) - d == W32 * (x / W32 - y / W32);
  }

  lemma StepRefines(c: Clock, t: Timeline, p: TruePacket)
    requires Follows(c, t) && Near(t, p)
    ensures Step(c, OnTheWire(p)).1 == TrueStep(t, p).1
    ensures Follows(Step(c, OnTheWire(p)).0, TrueStep(t, p).0)
  {
    if t.Heard? {
      NearSequence(p.number, t.number);
      NearTimestamp(p.ticks, t.ticks);
      if p.ticks > t.ticks && (p.ticks - t.ticks) % FRAME == 0 {
        var k := (p.ticks - t.ticks) / FRAME;
        assert p.ticks - t.first == FRAME * (c.frame + k);
        ModUnique(p.ticks - t.first, FRAME, c.frame + k, 0);
      }
    }
  }

  /**
   As long as each packet is within half a wrap of the last accepted one, the wrapping
   clock gives every packet exactly the answer of the unbounded timeline.
   */
  lemma {:induction false} ClockRefinesTimeline(ts: seq<TruePacket>)
    requires AllNear(ts)
    ensures Follows(After(Stream(ts)), TrueAfter(ts))
    ensures forall i | 0 <= i < |ts| :: Number(Stream(ts), i) == TrueNumber(ts, i)
  {
    if ts != [] {
      var init, last := ts[..|ts| - 1], ts[|ts| - 1];
      assert AllNear(init) by {
        forall i | 0 <= i < |init|
          ensures Near(TrueAfter(init[..i]), init[i])
        {
          assert init[..i] == ts[..i];
        }
      }
      ClockRefinesTimeline(init);
      assert Stream(ts)[..|ts| - 1] == Stream(init);
      StepRefines(After(Stream(init)), TrueAfter(init), last);
      forall i | 0 <= i < |ts|
        ensures Number(Stream(ts), i) == TrueNumber(ts, i)
      {
        if i < |init| {
          assert Stream(init)[..i] == Stream(ts)[..i] && init[..i] == ts[..i];
          assert Number(Stream(init), i) == TrueNumber(init, i);
        }
      }
    }
  }
}
