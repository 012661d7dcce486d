/**
 The Opus packet durations of `src/bridge.rs`, against sections 3.1 and 3.2 of RFC 6716.
 Durations are in samples at 48 kHz.
 */
module Opus {
  import opened Common
  import opened Bits

  datatype OpusError = EmptyPacket | MissingCount | ZeroFrames | TooLong

  const SAMPLE_RATE: nat := 48_000
  const MAX_SAMPLES: nat := SAMPLE_RATE / 1000 * 120

  function FrameCount(packet: seq<Byte>): Result<nat, OpusError> {
    if packet == [] then Failure(EmptyPacket)
    else
      var code := And(packet[0], 0x03);
      if code == 0 then Success(1)
      else if code == 1 || code == 2 then Success(2)
      else if |packet| < 2 then Failure(MissingCount)
      else
        var count := And(packet[1], 0x3F);
        if count == 0 then Failure(ZeroFrames) else Success(count)
  }

  function SamplesPerFrame(packet: seq<Byte>): Result<nat, OpusError> {
    if packet == [] then Failure(EmptyPacket)
    else
      var config := packet[0] / 8;
      if config >= 16 then Success(SAMPLE_RATE * Pow2(And(config, 0x03)) / 400)
      else if config >= 12 then Success(SAMPLE_RATE * Pow2(And(config, 0x01)) / 100)
      else if And(config, 0x03) == 0x03 then Success(SAMPLE_RATE * 60 / 1000)
      else Success(SAMPLE_RATE * Pow2(And(config, 0x03)) / 100)
  }

  function TotalSamples(packet: seq<Byte>): Result<nat, OpusError> {
    match FrameCount(packet)
    case Failure(e) => Failure(e)
    case Success(count) =>
      match SamplesPerFrame(packet)
      case Failure(e) => Failure(e)
      case Success(samples) =>
        if count * samples > MAX_SAMPLES then Failure(TooLong) else Success(count * samples)
  }

  // ---------------------------------------------------------------- the standard's tables

  /** Table 2 of RFC 6716: the frame size of each of the 32 configurations. */
  const RFC_FRAME_SAMPLES: seq<nat> := [
    480, 960, 1920, 2880, 480, 960, 1920, 2880, 480, 960, 1920, 2880, // SILK-only
    480, 960, 480, 960,                                               // hybrid
    120, 240, 480, 960, 120, 240, 480, 960, 120, 240, 480, 960, 120, 240, 480, 960] // CELT-only

  /** Section 3.2: the number of frames, if TOC and count byte state a legal one; the payload is not looked at. */
  function RfcFrames(packet: seq<Byte>): Option<nat> {
    if packet == [] then None
    else if packet[0] % 4 == 0 then Some(1)
    else if packet[0] % 4 < 3 then Some(2)
    else if |packet| >= 2 && 1 <= packet[1] % 64 then Some(packet[1] % 64)
    else None
  }

  /** The duration the standard gives such a packet, if it is at most 120 ms. */
  function RfcSamples(packet: seq<Byte>): Option<nat> {
    match RfcFrames(packet)
    case None => None
    case Some(frames) =>
      var samples := frames * RFC_FRAME_SAMPLES[packet[0] / 8];
      if samples <= 5760 then Some(samples) else None
  }

  lemma MasksAreRemainders(n: nat)
    ensures And(n, 0x01) == n % 2 && And(n, 0x03) == n % 4 && And(n, 0x3F) == n % 64
  {
    assert Pow2(1) == 2 && Pow2(2) == 4 && Pow2(6) == 64;
    AndLowMask(n, 1);
    AndLowMask(n, 2);
    AndLowMask(n, 6);
  }

  lemma SilkSizes(packet: seq<Byte>)
    requires packet != [] && packet[0] / 8 < 12
    ensures SamplesPerFrame(packet) == Success([480, 960, 1920, 2880][packet[0] / 8 % 4])
  {
    MasksAreRemainders(packet[0] / 8);
    assert Pow2(0) == 1 && Pow2(1) == 2 && Pow2(2) == 4;
  }

  lemma HybridSizes(packet: seq<Byte>)
    requires packet != [] && 12 <= packet[0] / 8 < 16
    ensures SamplesPerFrame(packet) == Success([480, 960][packet[0] / 8 % 2])
  {
    MasksAreRemainders(packet[0] / 8);
    assert Pow2(0) == 1 && Pow2(1) == 2;
  }

  lemma CeltSizes(packet: seq<Byte>)
    requires packet != [] && 16 <= packet[0] / 8
    ensures SamplesPerFrame(packet) == Success([120, 240, 480, 960][packet[0] / 8 % 4])
  {
    MasksAreRemainders(packet[0] / 8);
    assert Pow2(0) == 1 && Pow2(1) == 2 && Pow2(2) == 4 && Pow2(3) == 8;
  }

  lemma TableRows(config: nat)
    requires config < 32
    ensures RFC_FRAME_SAMPLES[config] ==
              if config < 12 then [480, 960, 1920, 2880][config % 4]
              else if config < 16 then [480, 960][config % 2]
              else [120, 240, 480, 960][config % 4]
  {
  }

  lemma FrameSizeMatchesTable(packet: seq<Byte>)
    requires packet != []
    ensures SamplesPerFrame(packet) == Success(RFC_FRAME_SAMPLES[packet[0] / 8])
    ensures 120 <= RFC_FRAME_SAMPLES[packet[0] / 8] && RFC_FRAME_SAMPLES[packet[0] / 8] % 120 == 0
  {
    var config := packet[0] / 8;
    TableRows(config);
    if config >= 16 {
      CeltSizes(packet);
    } else if config >= 12 {
      HybridSizes(packet);
    } else {
      SilkSizes(packet);
    }
  }

  lemma FrameCountMatchesRfc(packet: seq<Byte>)
    ensures FrameCount(packet).Success? <==> RfcFrames(packet).Some?
    ensures FrameCount(packet).Success? ==> FrameCount(packet).value == RfcFrames(packet).value >= 1
  {
    if packet != [] {
      MasksAreRemainders(packet[0]);
      if |packet| >= 2 {
        MasksAreRemainders(packet[1]);
      }
    }
  }

  lemma ProductOf120s(count: nat, size: nat)
    requires count >= 1 && size >= 120 && size % 120 == 0
    ensures count * size >= 120 && (count * size) % 120 == 0
  {
    MulAtLeast(count, size);
    assert count * size == count * (size / 120) * 120;
    ModUnique(count * size, 120, count * (size / 120), 0);
  }

  /** A duration is computed exactly if TOC and count byte state one of at most 120 ms, and it is the standard's. */
  lemma TotalSamplesMatchesRfc(packet: seq<Byte>)
    ensures TotalSamples(packet).Success? <==> RfcSamples(packet).Some?
    ensures TotalSamples(packet).Success? ==> TotalSamples(packet).value == RfcSamples(packet).value
    ensures TotalSamples(packet).Success? ==>
              120 <= TotalSamples(packet).value <= MAX_SAMPLES && TotalSamples(packet).value % 120 == 0
  {
    FrameCountMatchesRfc(packet);
    if packet != [] {
      FrameSizeMatchesTable(packet);
      if FrameCount(packet).Success? {
        ProductOf120s(FrameCount(packet).value, RFC_FRAME_SAMPLES[packet[0] / 8]);
      }
    }
  }
}
