/** Browser to Mumble to browser: the two clocks together keep the speaker's timing. */
module Timing {
  import opened Common
  import opened Bits
  import Opus
  import opened Downlink
  import U = Uplink

  /** The clock goes through `clocks` and answers `outs` as it hears `hs`. */
  ghost predicate Plays(clocks: seq<Media>, outs: seq<WriteResult>, hs: seq<Hearing>) {
    && |clocks| == |hs| + 1 && |outs| == |hs|
    && forall n | 0 <= n < |hs| :: Played(clocks, outs, hs, n)
  }

  ghost predicate Played(clocks: seq<Media>, outs: seq<WriteResult>, hs: seq<Hearing>, n: int)
    requires |clocks| == |hs| + 1 && |outs| == |hs| && 0 <= n < |hs|
  {
    (clocks[n + 1], outs[n]) == Hear(clocks[n], hs[n].v, hs[n].now)
  }

  /** Some accepted uplink packets, in order; the rest were lost on the way. */
  ghost predicate Survivors(ps: seq<U.Rtp>, ks: seq<nat>) {
    && (forall n | 0 <= n < |ks| :: ks[n] < |ps| && U.Number(ps, ks[n]).Some?)
    && (forall n, l | 0 <= n < l < |ks| :: ks[n] < ks[l])
  }

  /** The message heard for uplink packet `k`: a good voice packet with the same frame number. */
  ghost predicate Relays(ps: seq<U.Rtp>, k: nat, h: Hearing) {
    && k < |ps| && U.Number(ps, k) == Some(h.v.frame)
    && h.v.opus != [] && Opus.TotalSamples(h.v.opus).Success? && !h.v.last
  }

  /** The survivors are heard one by one, close enough together to be one talk spurt. */
  ghost predicate OneSpurt(ps: seq<U.Rtp>, ks: seq<nat>, hs: seq<Hearing>) {
    && |hs| == |ks|
    && (forall n | 0 <= n < |hs| :: Relays(ps, ks[n], hs[n]))
    && (forall n | 0 < n < |hs| :: SoonAfter(hs, n))
  }

  ghost predicate SoonAfter(hs: seq<Hearing>, n: int)
    requires 0 < n < |hs|
  {
    Since(hs[n].now, hs[n - 1].now) / NANOS_PER_MILLI <= SPURT_GAP_MS
  }

  lemma FramesIncrease(ps: seq<U.Rtp>, ks: seq<nat>, hs: seq<Hearing>, n: nat)
    requires Survivors(ps, ks) && OneSpurt(ps, ks, hs) && 0 < n < |hs|
    ensures hs[n - 1].v.frame < hs[n].v.frame
  {
    assert Relays(ps, ks[n - 1], hs[n - 1]) && Relays(ps, ks[n], hs[n]);
    U.NumbersIncrease(ps, ks[n - 1], ks[n]);
  }

  /** The clock just emitted the packet heard as `h`, with this timestamp. */
  ghost predicate JustEmitted(c: Media, h: Hearing, stamp: U32) {
    c.lastFrame == Some(h.v.frame) && c.receivedAt == Some(h.now) && c.timestamp == stamp && c.ended == h.v.last
  }

  lemma WrittenIsRemembered(c: Media, h: Hearing)
    requires Hear(c, h.v, h.now).1.Written?
    ensures JustEmitted(Hear(c, h.v, h.now).0, h, Hear(c, h.v, h.now).1.header.timestamp)
  {
  }

  lemma NextIsEmitted(c: Media, prev: Hearing, h: Hearing, stamp: U32)
    requires JustEmitted(c, prev, stamp) && !prev.v.last && prev.v.frame < h.v.frame
    requires Since(h.now, prev.now) / NANOS_PER_MILLI <= SPURT_GAP_MS
    requires h.v.opus != [] && Opus.TotalSamples(h.v.opus).Success?
    ensures var r := Hear(c, h.v, h.now).1;
            r.Written? && !r.header.marker && r.header.timestamp == Wrap32(stamp + FRAME * (h.v.frame - prev.v.frame))
  {
  }

  lemma NextEmitted(clocks: seq<Media>, outs: seq<WriteResult>, hs: seq<Hearing>, n: nat)
    requires Plays(clocks, outs, hs) && 0 < n < |hs| && outs[n - 1].Written?
    requires !hs[n - 1].v.last && hs[n - 1].v.frame < hs[n].v.frame && SoonAfter(hs, n)
    requires hs[n].v.opus != [] && Opus.TotalSamples(hs[n].v.opus).Success?
    ensures outs[n].Written? && !outs[n].header.marker
    ensures outs[n].header.timestamp
         == Wrap32(outs[n - 1].header.timestamp + FRAME * (hs[n].v.frame - hs[n - 1].v.frame))
  {
    assert Played(clocks, outs, hs, n - 1) && Played(clocks, outs, hs, n);
    WrittenIsRemembered(clocks[n - 1], hs[n - 1]);
    NextIsEmitted(clocks[n], hs[n - 1], hs[n], outs[n - 1].header.timestamp);
  }

  lemma AddGap(t0: int, f0: int, f: int, f': int, t: int, t': int)
    requires t == Wrap32(t0 + FRAME * (f - f0)) && t' == Wrap32(t + FRAME * (f' - f))
    ensures t' == Wrap32(t0 + FRAME * (f' - f0))
  {
    var x := t0 + FRAME * (f - f0);
    SameWrap32(x + FRAME * (f' - f), Wrap32(x) + FRAME * (f' - f), x / W32);
  }

  ghost predicate EmittedAt(outs: seq<WriteResult>, hs: seq<Hearing>, n: int)
    requires |outs| == |hs| && 0 <= n < |outs|
  {
    && outs[0].Written? && outs[n].Written?
    && outs[n].header.timestamp == Wrap32(outs[0].header.timestamp + FRAME * (hs[n].v.frame - hs[0].v.frame))
  }

  /** Once the first survivor is emitted, every later one is, without a marker, at the right distance. */
  lemma {:induction false} AllEmitted(
    clocks: seq<Media>, outs: seq<WriteResult>, ps: seq<U.Rtp>, ks: seq<nat>, hs: seq<Hearing>, n: nat)
    requires Survivors(ps, ks) && OneSpurt(ps, ks, hs) && Plays(clocks, outs, hs) && n < |hs| && outs[0].Written?
    ensures EmittedAt(outs, hs, n)
    ensures n > 0 ==> !outs[n].header.marker
  {
    if n > 0 {
      AllEmitted(clocks, outs, ps, ks, hs, n - 1);
      FramesIncrease(ps, ks, hs, n);
      assert Relays(ps, ks[n - 1], hs[n - 1]) && Relays(ps, ks[n], hs[n]) && SoonAfter(hs, n);
      NextEmitted(clocks, outs, hs, n);
      AddGap(outs[0].header.timestamp, hs[0].v.frame, hs[n - 1].v.frame, hs[n].v.frame,
             outs[n - 1].header.timestamp, outs[n].header.timestamp);
    }
  }

  lemma SurvivorStamp(ps: seq<U.Rtp>, ks: seq<nat>, hs: seq<Hearing>, n: nat)
    requires OneSpurt(ps, ks, hs) && n < |hs|
    ensures ks[n] < |ps| && ps[ks[n]].timestamp == Wrap32(ps[0].timestamp + FRAME * hs[n].v.frame)
  {
    assert Relays(ps, ks[n], hs[n]);
    U.NumberIsClock(ps, ks[n]);
  }

  lemma DifferencesWrap(x: int, dx: int, dy: int, p: int, q: int)
    requires p == Wrap32(x + dx) && q == Wrap32(x + dy)
    ensures Wrap32(q - p) == Wrap32(dy - dx)
  {
    SameWrap32(q - p, dy - dx, (x + dx) / W32 - (x + dy) / W32);
  }

  lemma SameDifference(s0: int, f0: int, t0: int, fa: int, fb: int, sa: int, sb: int, ta: int, tb: int)
    requires sa == Wrap32(s0 + FRAME * (fa - f0)) && sb == Wrap32(s0 + FRAME * (fb - f0))
    requires ta == Wrap32(t0 + FRAME * fa) && tb == Wrap32(t0 + FRAME * fb)
    ensures Wrap32(sb - sa) == Wrap32(tb - ta)
  {
    DifferencesWrap(s0, FRAME * (fa - f0), FRAME * (fb - f0), sa, sb);
    DifferencesWrap(t0, FRAME * fa, FRAME * fb, ta, tb);
  }

  /**
   For any in-order subsequence of accepted uplink packets heard within one talk spurt, the
   output RTP timestamps differ exactly as the input timestamps do, modulo 2^32, across
   wraps and losses, and whatever the receiving clock had heard before.
   */
  lemma TimingPreserved(
    clocks: seq<Media>, outs: seq<WriteResult>, ps: seq<U.Rtp>, ks: seq<nat>, hs: seq<Hearing>, a: nat, b: nat)
    requires Survivors(ps, ks) && OneSpurt(ps, ks, hs) && Plays(clocks, outs, hs) && a < |hs| && b < |hs|
    requires outs[0].Written?
    ensures outs[a].Written? && outs[b].Written?
    ensures Wrap32(outs[b].header.timestamp - outs[a].header.timestamp)
         == Wrap32(ps[ks[b]].timestamp - ps[ks[a]].timestamp)
  {
    AllEmitted(clocks, outs, ps, ks, hs, a);
    AllEmitted(clocks, outs, ps, ks, hs, b);
    SurvivorStamp(ps, ks, hs, a);
    SurvivorStamp(ps, ks, hs, b);
    SameDifference(outs[0].header.timestamp, hs[0].v.frame, ps[0].timestamp, hs[a].v.frame, hs[b].v.frame,
                   outs[a].header.timestamp, outs[b].header.timestamp, ps[ks[a]].timestamp, ps[ks[b]].timestamp);
  }
}
