/**
 TURN over a byte stream, `src/turn/stream.rs`: STUN messages carry their own length
 (section 5 of RFC 8489) and ChannelData is padded to four bytes (section 12.5 of RFC 8656).
 */
module Framing {
  import opened Common
  import opened Bits

  datatype FrameError = UnexpectedEnd | UnalignedStun | InvalidType | ExceedsMtu | WriteFailed

  datatype Parsed =
    | Frame(bytes: seq<Byte>, rest: seq<Byte>)
    | Bad(error: FrameError, rest: seq<Byte>)

  function PayloadLength(header: seq<Byte>): nat
    requires |header| >= 4
  {
    256 * header[2] as int + header[3] as int
  }

  /** The reader's rounding up to four bytes: add three, clear the two low bits. */
  function RoundUp(n: nat): nat {
    And(n + 3, W64 - 4)
  }

  /** What the header says: the frame's length, and its length with padding. */
  function Lengths(header: seq<Byte>): Result<(nat, nat), FrameError>
    requires |header| >= 4
  {
    var payload := PayloadLength(header);
    var kind := header[0] / 64;
    if kind == 0 then
      if payload % 4 != 0 then Failure(UnalignedStun) else Success((20 + payload, 20 + payload))
    else if kind == 1 then Success((4 + payload, RoundUp(4 + payload)))
    else Failure(InvalidType)
  }

  /** One read from a stream, into a buffer of `capacity` bytes. */
  function Parse(stream: seq<Byte>, capacity: nat): Parsed {
    if |stream| < 4 then Bad(UnexpectedEnd, [])
    else match Lengths(stream[..4])
      case Failure(e) => Bad(e, stream[4..])
      case Success((len, padded)) =>
        if len > capacity then Bad(ExceedsMtu, stream[4..])
        else if |stream| < len || |stream| < padded || padded < len then Bad(UnexpectedEnd, [])
        else Frame(stream[..len], stream[padded..])
  }

  /** The same once the four header bytes are known; `body` is what follows them. */
  function ParseAfter(
    header: seq<Byte>, lengths: Result<(nat, nat), FrameError>, body: seq<Byte>, capacity: nat): Parsed
    requires |header| == 4 && (lengths.Success? ==> 4 <= lengths.value.0 <= lengths.value.1)
  {
    match lengths
    case Failure(e) => Bad(e, body)
    case Success((len, padded)) =>
      if len > capacity then Bad(ExceedsMtu, body)
      else if |body| < padded - 4 then Bad(UnexpectedEnd, [])
      else Frame(header + body[..len - 4], body[padded - 4..])
  }

  lemma ParseIsParseAfter(stream: seq<Byte>, capacity: nat)
    requires |stream| >= 4
    ensures var lengths := Lengths(stream[..4]);
            && (lengths.Success? ==> 4 <= lengths.value.0 <= lengths.value.1)
            && Parse(stream, capacity) == ParseAfter(stream[..4], lengths, stream[4..], capacity)
  {
    var header, body := stream[..4], stream[4..];
    if Lengths(header).Success? {
      PaddedIsLonger(header);
      var (len, padded) := Lengths(header).value;
      if len <= capacity && padded <= |stream| {
        assert header + body[..len - 4] == stream[..len];
        assert body[padded - 4..] == stream[padded..];
      }
    }
  }

  predicate IsChannelData(frame: seq<Byte>) {
    frame != [] && frame[0] / 64 == 1
  }

  function Zeros(n: nat): seq<Byte> {
    seq(n, _ => 0)
  }

  function Padding(frame: seq<Byte>): nat {
    if IsChannelData(frame) then (4 - |frame| % 4) % 4 else 0
  }

  /** The bytes a frame is sent as. */
  function Encode(frame: seq<Byte>): seq<Byte> {
    frame + Zeros(Padding(frame))
  }

  function Flatten(chunks: seq<seq<Byte>>): seq<Byte> {
    if chunks == [] then [] else chunks[0] + Flatten(chunks[1..])
  }

  method CopyInto(buf: array<Byte>, offset: nat, bytes: seq<Byte>)
    requires offset + |bytes| <= buf.Length
    modifies buf
    ensures buf[..] == old(buf[..])[..offset] + bytes + old(buf[..])[offset + |bytes|..]
  {
    forall i | 0 <= i < |bytes| {
      buf[offset + i] := bytes[i];
    }
  }

  /** A stream connection.  `incoming` is what the peer will send, as it is cut up by the network, and then the end. */
  class StreamConn {
    var incoming: seq<seq<Byte>>
    var outgoing: seq<Byte>
    var closed: bool

    ghost function Stream(): seq<Byte>
      reads this
    {
      Flatten(incoming)
    }

    constructor (incoming: seq<seq<Byte>>)
      ensures Stream() == Flatten(incoming) && outgoing == [] && !closed
    {
      this.incoming := incoming;
      outgoing := [];
      closed := false;
    }

    /** Gathers exactly `n` bytes from however many chunks they come in; at the end of the stream all is lost. */
    method ReadExact(n: nat) returns (bytes: seq<Byte>, ok: bool)
      modifies this`incoming
      ensures ok <==> n <= |old(Stream())|
      ensures ok ==> bytes == old(Stream())[..n] && Stream() == old(Stream())[n..]
      ensures !ok ==> Stream() == []
    {
      bytes := [];
      while |bytes| < n && incoming != []
        invariant |bytes| <= n
        invariant bytes + Stream() == old(Stream())
        decreases |incoming|, |Stream()|
      {
        var chunk := incoming[0];
        var want := n - |bytes|;
        var rest := incoming[1..];
        if |chunk| <= want {
          bytes := bytes + chunk;
          incoming := rest;
        } else {
          bytes := bytes + chunk[..want];
          incoming := [chunk[want..]] + rest;
          assert incoming[1..] == rest;
          assert chunk == chunk[..want] + chunk[want..];
        }
      }
      ok := |bytes| == n;
    }

    /** Reads the rest of a frame whose header is known, and its padding. */
    method ReadBody(buf: array<Byte>, header: seq<Byte>, len: nat, padded: nat) returns (ok: bool)
      requires |header| == 4 <= len <= padded && len <= buf.Length
      modifies this`incoming, buf
      ensures ok <==> padded - 4 <= |old(Stream())|
      ensures ok ==> buf[..len] == header + old(Stream())[..len - 4] && buf[len..] == old(buf[..])[len..]
      ensures Stream() == if ok then old(Stream())[padded - 4..] else []
    {
      ghost var stream, was := Stream(), buf[..];
      CopyInto(buf, 0, header);
      var body;
      body, ok := ReadExact(len - 4);
      if ok {
        ghost var half := buf[..];
        assert half[..4] == header && half[len..] == was[len..];
        CopyInto(buf, 4, body);
        assert buf[..len] == buf[..][..len] == header + body;
        assert buf[len..] == buf[..][len..] == was[len..];
        var padding;
        padding, ok := ReadExact(padded - len);
        assert ok ==> stream[len - 4..][padded - len..] == stream[padded - 4..];
      }
    }

    method ReadFrame(buf: array<Byte>) returns (r: Result<nat, FrameError>)
      modifies this`incoming, buf
      ensures match Parse(old(Stream()), buf.Length)
              case Frame(bytes, rest) =>
                r == Success(|bytes|) && |bytes| <= buf.Length && buf[..|bytes|] == bytes
                && buf[|bytes|..] == old(buf[..])[|bytes|..] && Stream() == rest
              case Bad(error, rest) => r == Failure(error) && Stream() == rest
    {
      var header, ok := ReadExact(4);
      if !ok {
        return Failure(UnexpectedEnd);
      }
      var lengths := Lengths(header);
      ParseIsParseAfter(old(Stream()), buf.Length);
      r := ReadAfterHeader(buf, header, lengths);
    }

    /** The header has been read and taken apart. */
    method ReadAfterHeader(buf: array<Byte>, header: seq<Byte>, lengths: Result<(nat, nat), FrameError>)
      returns (r: Result<nat, FrameError>)
      requires |header| == 4 && (lengths.Success? ==> 4 <= lengths.value.0 <= lengths.value.1)
      modifies this`incoming, buf
      ensures match ParseAfter(header, lengths, old(Stream()), buf.Length)
              case Frame(bytes, rest) =>
                r == Success(|bytes|) && |bytes| <= buf.Length && buf[..|bytes|] == bytes
                && buf[|bytes|..] == old(buf[..])[|bytes|..] && Stream() == rest
              case Bad(error, rest) => r == Failure(error) && Stream() == rest
    {
      if lengths.Failure? {
        return Failure(lengths.error);
      }
      var (len, padded) := lengths.value;
      if len > buf.Length {
        return Failure(ExceedsMtu);
      }
      var ok := ReadBody(buf, header, len, padded);
      if !ok {
        return Failure(UnexpectedEnd);
      }
      return Success(len);
    }

    /**
     `accepted` is how many bytes the transport takes before it fails or times out, and
     `flushed` whether the flush after the last byte succeeds in time.
     */
    method Send(frame: seq<Byte>, accepted: nat, flushed: bool) returns (r: Result<nat, FrameError>)
      modifies this`outgoing, this`closed
      ensures outgoing == old(outgoing) + if |Encode(frame)| <= accepted then Encode(frame) else Encode(frame)[..accepted]
      ensures if |Encode(frame)| <= accepted && flushed
              then r == Success(|frame|) && closed == old(closed)
              else r == Failure(WriteFailed) && closed
    {
      var padding := if frame != [] && frame[0] / 64 == 1 then (4 - |frame| % 4) % 4 else 0;
      var bytes := frame + Zeros(padding);
      outgoing := outgoing + if |bytes| <= accepted then bytes else bytes[..accepted];
      if |bytes| > accepted || !flushed {
        closed := true;
        return Failure(WriteFailed);
      }
      return Success(|frame|);
    }

    /** A failed read closes the connection. */
    method Receive(buf: array<Byte>) returns (r: Result<nat, FrameError>)
      modifies this`incoming, this`closed, buf
      ensures match Parse(old(Stream()), buf.Length)
              case Frame(bytes, rest) =>
                r == Success(|bytes|) && |bytes| <= buf.Length && buf[..|bytes|] == bytes && Stream() == rest
                && closed == old(closed)
              case Bad(error, rest) => r == Failure(error) && Stream() == rest && closed
    {
      r := ReadFrame(buf);
      if r.Failure? {
        closed := true;
      }
    }
  }

  // ---------------------------------------------------------------- reader and writer agree

  /** Bytes 2 and 3 are `n` in network order. */
  predicate HasLength(frame: seq<Byte>, n: int) {
    |frame| >= 4 && 0 <= n < 65536 && frame[2] == n / 256 && frame[3] == n % 256
  }

  /**
   A STUN message (first two bits 00, a 20-byte header, a length that is a multiple of 4) or
   ChannelData (first two bits 01, a 4-byte header) whose length field is right.
   */
  predicate WellFormed(frame: seq<Byte>) {
    && |frame| >= 4
    && (if frame[0] < 64 then HasLength(frame, |frame| - 20) && (|frame| - 20) % 4 == 0
        else frame[0] < 128 && HasLength(frame, |frame| - 4))
  }

  /** The length field is decoded in network order. */
  lemma PayloadIsNetworkOrder(frame: seq<Byte>, n: int)
    requires |frame| >= 4
    ensures HasLength(frame, n) <==> PayloadLength(frame) == n
  {
  }

  /** The reader's mask and the writer's remainder pad alike. */
  lemma RoundingsAgree(n: nat)
    requires n + 3 < W64
    ensures RoundUp(n) == n + (4 - n % 4) % 4
    ensures RoundUp(n) % 4 == 0
  {
    AndNotThree(n + 3);
  }

  lemma PaddedIsLonger(header: seq<Byte>)
    requires |header| >= 4 && Lengths(header).Success?
    ensures 4 <= Lengths(header).value.0 <= Lengths(header).value.1 <= Lengths(header).value.0 + 3
    ensures Lengths(header).value.1 % 4 == 0
  {
    RoundingsAgree(4 + PayloadLength(header));
  }

  lemma EncodedLength(frame: seq<Byte>)
    requires WellFormed(frame)
    ensures Lengths(frame) == Success((|frame|, |Encode(frame)|))
    ensures |Encode(frame)| % 4 == 0
  {
    PayloadIsNetworkOrder(frame, if frame[0] < 64 then |frame| - 20 else |frame| - 4);
    RoundingsAgree(|frame|);
  }

  lemma HeaderDecides(a: seq<Byte>, b: seq<Byte>)
    requires |a| >= 4 && |b| >= 4 && a[..4] == b[..4]
    ensures Lengths(a) == Lengths(b)
  {
    assert a[0] == a[..4][0] == b[0] && a[2] == a[..4][2] == b[2] && a[3] == a[..4][3] == b[3];
  }

  /** Reading back what was sent gives the frame and leaves what follows it. */
  lemma ReadBack(frame: seq<Byte>, suffix: seq<Byte>, capacity: nat)
    requires WellFormed(frame) && |frame| <= capacity
    ensures Parse(Encode(frame) + suffix, capacity) == Frame(frame, suffix)
  {
    var stream := Encode(frame) + suffix;
    EncodedLength(frame);
    assert stream[..4] == frame[..4];
    HeaderDecides(stream[..4], frame);
    assert stream[..|frame|] == frame;
    assert stream[|Encode(frame)|..] == suffix;
  }

  /** Whatever is read is well formed, fits, and took as many bytes as sending it would. */
  lemma ReadIsWellFormed(stream: seq<Byte>, capacity: nat)
    requires Parse(stream, capacity).Frame?
    ensures var f := Parse(stream, capacity);
            && WellFormed(f.bytes) && |f.bytes| <= capacity
            && |stream| == |Encode(f.bytes)| + |f.rest|
            && stream[..|f.bytes|] == f.bytes && stream[|Encode(f.bytes)|..] == f.rest
  {
    var f := Parse(stream, capacity);
    var (len, padded) := Lengths(stream[..4]).value;
    PaddedIsLonger(stream[..4]);
    assert f.bytes[..4] == stream[..4];
    HeaderDecides(f.bytes, stream[..4]);
    assert f.bytes[2] == stream[..4][2] && f.bytes[3] == stream[..4][3] && f.bytes[0] == stream[..4][0];
    PayloadIsNetworkOrder(f.bytes, PayloadLength(f.bytes));
    EncodedLength(f.bytes);
  }

  /** The frames that survive a round trip are exactly the well-formed ones that fit the buffer. */
  lemma RoundTripExactly(frame: seq<Byte>, capacity: nat)
    ensures (forall suffix :: Parse(Encode(frame) + suffix, capacity) == Frame(frame, suffix))
       <==> WellFormed(frame) && |frame| <= capacity
  {
    if WellFormed(frame) && |frame| <= capacity {
      forall suffix
        ensures Parse(Encode(frame) + suffix, capacity) == Frame(frame, suffix)
      {
        ReadBack(frame, suffix, capacity);
      }
    } else if Parse(Encode(frame) + [], capacity) == Frame(frame, []) {
      ReadIsWellFormed(Encode(frame) + [], capacity);
      assert false;
    }
  }

  // ---------------------------------------------------------------- whole streams

  function EncodeAll(frames: seq<seq<Byte>>): seq<Byte> {
    if frames == [] then [] else Encode(frames[0]) + EncodeAll(frames[1..])
  }

  /** The first `n` reads of a stream, and what is left of it; nothing if one of them fails. */
  function ReadMany(stream: seq<Byte>, capacity: nat, n: nat): Option<(seq<seq<Byte>>, seq<Byte>)> {
    if n == 0 then Some(([], stream))
    else match Parse(stream, capacity)
      case Bad(_, _) => None
      case Frame(bytes, rest) =>
        match ReadMany(rest, capacity, n - 1)
        case None => None
        case Some((frames, left)) => Some(([bytes] + frames, left))
  }

  /** Any sequence of frames sent back to back is read back as it was, and nothing after it is touched. */
  lemma {:induction false} StreamRoundTrip(frames: seq<seq<Byte>>, suffix: seq<Byte>, capacity: nat)
    requires forall i | 0 <= i < |frames| :: WellFormed(frames[i]) && |frames[i]| <= capacity
    ensures ReadMany(EncodeAll(frames) + suffix, capacity, |frames|) == Some((frames, suffix))
  {
    if frames == [] {
      assert [] + suffix == suffix;
    } else {
      var rest := EncodeAll(frames[1..]);
      assert EncodeAll(frames) + suffix == Encode(frames[0]) + (rest + suffix);
      ReadBack(frames[0], rest + suffix, capacity);
      StreamRoundTrip(frames[1..], suffix, capacity);
      assert [frames[0]] + frames[1..] == frames;
    }
  }

  /** Every frame starts on a four-byte boundary of the stream. */
  lemma BoundariesAligned(frames: seq<seq<Byte>>, k: nat)
    requires k <= |frames|
    requires forall i | 0 <= i < |frames| :: WellFormed(frames[i])
    ensures |EncodeAll(frames[..k])| % 4 == 0 && EncodeAll(frames[..k]) <= EncodeAll(frames)
  {
    AlignedTotal(frames[..k]);
    PrefixEncodes(frames, k);
  }

  lemma MultiplesAdd(a: nat, b: nat)
    requires a % 4 == 0 && b % 4 == 0
    ensures (a + b) % 4 == 0
  {
  }

  lemma {:induction false} AlignedTotal(frames: seq<seq<Byte>>)
    requires forall i | 0 <= i < |frames| :: WellFormed(frames[i])
    ensures |EncodeAll(frames)| % 4 == 0
  {
    if frames != [] {
      AlignedTotal(frames[1..]);
      EncodedLength(frames[0]);
      MultiplesAdd(|Encode(frames[0])|, |EncodeAll(frames[1..])|);
    }
  }

  lemma {:induction false} PrefixEncodes(frames: seq<seq<Byte>>, k: nat)
    requires k <= |frames|
    ensures EncodeAll(frames[..k]) <= EncodeAll(frames)
  {
    if k > 0 {
      assert frames[..k][1..] == frames[1..][..k - 1];
      PrefixEncodes(frames[1..], k - 1);
    }
  }

  // ---------------------------------------------------------------- frames laid out by hand

  function Header(b0: Byte, b1: Byte, n: nat): seq<Byte>
    requires n < 65536
  {
    [b0, b1, n / 256, n % 256]
  }

  /** A STUN message with `n` bytes of attributes is read as its 20 + n bytes. */
  lemma StunIsRead(b0: Byte, b1: Byte, body: seq<Byte>, suffix: seq<Byte>, n: nat, capacity: nat)
    requires b0 < 64 && n < 65536 && n % 4 == 0 && |body| == 16 + n && 20 + n <= capacity
    ensures Parse(Header(b0, b1, n) + body + suffix, capacity) == Frame(Header(b0, b1, n) + body, suffix)
  {
    var frame := Header(b0, b1, n) + body;
    assert Encode(frame) == frame;
    ReadBack(frame, suffix, capacity);
  }

  /** What the first four bytes say, by their values. */
  lemma LengthsExactly(header: seq<Byte>, n: int)
    requires HasLength(header, n)
    ensures Lengths(header) ==
              if header[0] >= 128 then Failure(InvalidType)
              else if header[0] >= 64 then Success((4 + n, (4 + n + 3) / 4 * 4))
              else if n % 4 != 0 then Failure(UnalignedStun)
              else Success((20 + n, 20 + n))
  {
    PayloadIsNetworkOrder(header, n);
    RoundingsAgree(4 + n);
  }

  lemma HeaderHasLength(b0: Byte, b1: Byte, n: nat, rest: seq<Byte>)
    requires n < 65536
    ensures var stream := Header(b0, b1, n) + rest;
            stream[..4] == Header(b0, b1, n) && stream[4..] == rest && HasLength(stream[..4], n)
  {
  }

  lemma PadsUp(n: nat, pad: nat)
    requires pad < 4 && (n + pad) % 4 == 0
    ensures (4 + n + 3) / 4 * 4 == 4 + n + pad
  {
  }

  lemma AfterHeader(header: seq<Byte>, body: seq<Byte>, padding: seq<Byte>, suffix: seq<Byte>, capacity: nat)
    requires |header| == 4 && 4 + |body| <= capacity
    ensures ParseAfter(header, Success((4 + |body|, 4 + |body| + |padding|)), body + padding + suffix, capacity)
         == Frame(header + body, suffix)
  {
    var rest := body + padding + suffix;
    assert rest[..|body|] == body && rest[|body| + |padding|..] == suffix;
  }

  /** ChannelData of `n` bytes is read as 4 + n bytes; its padding to a multiple of 4, whatever it holds, is skipped. */
  lemma ChannelDataIsRead(
    b0: Byte, b1: Byte, body: seq<Byte>, padding: seq<Byte>, suffix: seq<Byte>, n: nat, capacity: nat)
    requires 64 <= b0 < 128 && n < 65536 && |body| == n && 4 + n <= capacity
    requires |padding| < 4 && (n + |padding|) % 4 == 0
    ensures Parse(Header(b0, b1, n) + (body + padding + suffix), capacity) == Frame(Header(b0, b1, n) + body, suffix)
  {
    var header, rest := Header(b0, b1, n), body + padding + suffix;
    HeaderHasLength(b0, b1, n, rest);
    LengthsExactly(header, n);
    PadsUp(n, |padding|);
    ParseIsParseAfter(header + rest, capacity);
    AfterHeader(header, body, padding, suffix, capacity);
  }

  /** What is sent is the frame and at most three zero bytes. */
  lemma SentIsPaddedWithZeros(frame: seq<Byte>)
    ensures frame <= Encode(frame) && |Encode(frame)| < |frame| + 4
    ensures forall i | |frame| <= i < |Encode(frame)| :: Encode(frame)[i] == 0
    ensures |Encode(frame)| > |frame| ==> 64 <= frame[0] < 128
  {
  }

  /** Which error a stream leads to, by its first bytes and its length; otherwise it begins with a frame. */
  lemma ReadFailsExactly(stream: seq<Byte>, capacity: nat, n: int)
    requires |stream| >= 4 && HasLength(stream[..4], n)
    ensures var len := if stream[0] < 64 then 20 + n else 4 + n;
            var p := Parse(stream, capacity);
            if stream[0] >= 128 then p == Bad(InvalidType, stream[4..])
            else if stream[0] < 64 && n % 4 != 0 then p == Bad(UnalignedStun, stream[4..])
            else if len > capacity then p == Bad(ExceedsMtu, stream[4..])
            else if |stream| < (len + 3) / 4 * 4 then p == Bad(UnexpectedEnd, [])
            else p == Frame(stream[..len], stream[(len + 3) / 4 * 4..])
  {
    var header, body := stream[..4], stream[4..];
    assert header[0] == stream[0];
    LengthsExactly(header, n);
    ParseIsParseAfter(stream, capacity);
    if Parse(stream, capacity).Frame? {
      var len := if stream[0] < 64 then 20 + n else 4 + n;
      assert header + body[..len - 4] == stream[..len];
      assert body[(len + 3) / 4 * 4 - 4..] == stream[(len + 3) / 4 * 4..];
    }
  }
}
