/**
 The Mumble-to-browser side of `src/webrtc/speakers.rs`: a media clock and an RTP track per
 speaker.  Times are nanoseconds of one monotonic clock.
 */
module Downlink {
  import opened Common
  import opened Bits
  import Opus

  const NANOS_PER_MILLI: nat := 1_000_000
  const SPURT_GAP_MS: nat := 500
  const MAX_AGE_MS: nat := 120

  datatype Media = Media(
    lastFrame: Option<nat>, timestamp: U32, sequence: U16, samples: nat, ended: bool, receivedAt: Option<nat>)

  const SILENT := Media(None, 0, 0, 0, false, None)

  /** The RTP header fields of an emitted packet. */
  datatype Header = Header(sequence: U16, timestamp: U32, marker: bool)

  function Since(now: nat, earlier: nat): nat {
    if now >= earlier then now - earlier else 0
  }

  /** Elapsed 48 kHz ticks, saturating like a cast to 32 bits. */
  function ElapsedTicks(nanos: nat): (r: nat)
    ensures r < W32 && r * 1_000_000_000 <= nanos * 48_000
    ensures r == W32 - 1 || nanos * 48_000 < (r + 1) * 1_000_000_000
  {
    var ticks := nanos * 6 / 125_000;
    if ticks < W32 then ticks else W32 - 1
  }

  function Max(a: nat, b: nat): nat {
    if a >= b then a else b
  }

  predicate NewTalk(m: Media, now: nat) {
    || m.lastFrame.None?
    || m.ended
    || (m.receivedAt.Some? && Since(now, m.receivedAt.value) / NANOS_PER_MILLI > SPURT_GAP_MS)
  }

  /** Ticks by which the next packet's timestamp moves on. */
  function Advance(m: Media, frame: nat, now: nat): int {
    if m.lastFrame.None? then 0
    else if NewTalk(m, now) then
      Max(if m.receivedAt.Some? then ElapsedTicks(Since(now, m.receivedAt.value)) else 0, m.samples)
    else FRAME * (frame - m.lastFrame.value)
  }

  function Packet(m: Media, frame: nat, samples: nat, ended: bool, now: nat): (Media, Option<Header>) {
    var marker := NewTalk(m, now);
    if !marker && frame <= m.lastFrame.value then (m, None)
    else
      var timestamp := Wrap32(m.timestamp + Advance(m, frame, now));
      var sequence := Wrap16(m.sequence + 1);
      (Media(Some(frame), timestamp, sequence, samples, ended, Some(now)), Some(Header(sequence, timestamp, marker)))
  }

  function Terminate(m: Media, last: bool): Media {
    m.(ended := m.ended || last)
  }

  class MediaClock {
    var lastFrame: Option<nat>
    var timestamp: U32
    var sequence: U16
    var samples: nat
    var ended: bool
    var receivedAt: Option<nat>

    ghost function Value(): Media
      reads this
    {
      Media(lastFrame, timestamp, sequence, samples, ended, receivedAt)
    }

    constructor ()
      ensures Value() == SILENT
    {
      lastFrame, timestamp, sequence, samples, ended, receivedAt := None, 0, 0, 0, false, None;
    }

    /** Frame numbers are 64-bit in the source; the gap is multiplied with wrap-around and truncated. */
    method Next(frame: nat, samples: nat, ended: bool, now: nat) returns (r: Option<Header>)
      modifies this
      ensures (Value(), r) == Packet(old(Value()), frame, samples, ended, now)
    {
      var newTalk := lastFrame.None? || this.ended
                  || (receivedAt.Some? && Since(now, receivedAt.value) / NANOS_PER_MILLI > SPURT_GAP_MS);
      if lastFrame.Some? {
        if newTalk {
          var elapsed := if receivedAt.Some? then ElapsedTicks(Since(now, receivedAt.value)) else 0;
          timestamp := Wrap32(timestamp + Max(elapsed, this.samples));
        } else {
          if frame <= lastFrame.value {
            return None;
          }
          var gap := (frame - lastFrame.value) * FRAME % W64;
          Truncate64((frame - lastFrame.value) * FRAME);
          WrapAdd(timestamp, (frame - lastFrame.value) * FRAME);
          timestamp := Wrap32(timestamp + Wrap32(gap));
        }
      }
      lastFrame := Some(frame);
      this.samples := samples;
      this.ended := ended;
      receivedAt := Some(now);
      sequence := Wrap16(sequence + 1);
      r := Some(Header(sequence, timestamp, newTalk));
    }

    method MarkEnded(last: bool)
      modifies this
      ensures Value() == Terminate(old(Value()), last)
    {
      ended := ended || last;
    }
  }

  lemma WrapAdd(t: int, x: int)
    ensures Wrap32(t + Wrap32(x)) == Wrap32(t + x)
  {
    SameWrap32(t + x, t + Wrap32(x), x / W32);
  }

  // ---------------------------------------------------------------- speaker tracks

  datatype Voice = Voice(session: nat, frame: nat, opus: seq<Byte>, last: bool, ageMs: nat)

  datatype WriteResult = Ignored | Rejected(error: Opus.OpusError) | Written(header: Header)

  /** What one speaker's clock makes of a voice message. */
  function Hear(m: Media, v: Voice, now: nat): (Media, WriteResult) {
    if v.opus == [] then (Terminate(m, v.last), Ignored)
    else
      match Opus.TotalSamples(v.opus)
      case Failure(e) => (m, Rejected(e))
      case Success(samples) =>
        match Packet(m, v.frame, samples, v.last, now)
        case (m', None) => (m', Ignored)
        case (m', Some(h)) => (m', Written(h))
  }

  /** A voice message and when it is handled. */
  datatype Hearing = Hearing(v: Voice, now: nat)

  datatype TrackEvent =
    | Joined(session: nat, accepted: bool)
    | Left(session: nat)
    | Spoke(session: nat, h: Hearing)

  function TracksStep(view: map<nat, Media>, e: TrackEvent): map<nat, Media> {
    match e
    case Joined(s, accepted) => if s !in view && accepted then view[s := SILENT] else view
    case Left(s) => view - {s}
    case Spoke(s, h) => if s in view && h.v.ageMs <= MAX_AGE_MS then view[s := Hear(view[s], h.v, h.now).0] else view
  }

  class SpeakerTracks {
    var speakers: map<nat, MediaClock>

    /** No two speakers share a clock. */
    ghost predicate Valid()
      reads this
    {
      forall a, b | a in speakers && b in speakers && a != b :: speakers[a] != speakers[b]
    }

    ghost function View(): map<nat, Media>
      reads this, speakers.Values
    {
      map s | s in speakers :: speakers[s].Value()
    }

    constructor ()
      ensures Valid() && View() == map[]
    {
      speakers := map[];
    }

    /** `accepted` is whether the peer connection took the new track. */
    method Add(session: nat, accepted: bool) returns (ok: bool)
      requires Valid()
      modifies this
      ensures Valid()
      ensures ok == (session in old(View()) || accepted)
      ensures View() == TracksStep(old(View()), Joined(session, accepted))
    {
      if session in speakers {
        return true;
      }
      if !accepted {
        return false;
      }
      var clock := new MediaClock();
      speakers := speakers[session := clock];
      return true;
    }

    /** The speaker is gone even if the peer connection then refuses to drop the track. */
    method Remove(session: nat, accepted: bool) returns (ok: bool)
      requires Valid()
      modifies this
      ensures Valid()
      ensures ok == (session !in old(View()) || accepted)
      ensures View() == TracksStep(old(View()), Left(session))
    {
      ok := session !in speakers || accepted;
      speakers := speakers - {session};
    }

    method Write(v: Voice, now: nat) returns (r: WriteResult)
      requires Valid()
      modifies speakers.Values
      ensures Valid() && speakers == old(speakers)
      ensures View() == TracksStep(old(View()), Spoke(v.session, Hearing(v, now)))
      ensures r == if v.ageMs <= MAX_AGE_MS && v.session in old(View()) then Hear(old(View())[v.session], v, now).1 else Ignored
    {
      if v.ageMs > MAX_AGE_MS || v.session !in speakers {
        return Ignored;
      }
      var clock := speakers[v.session];
      if v.opus == [] {
        clock.MarkEnded(v.last);
        return Ignored;
      }
      var samples := Opus.TotalSamples(v.opus);
      if samples.Failure? {
        return Rejected(samples.error);
      }
      var h := clock.Next(v.frame, samples.value, v.last, now);
      if h.None? {
        return Ignored;
      }
      return Written(h.value);
    }
  }
}
