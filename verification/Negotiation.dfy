/**
 The offer/answer queue of `src/webrtc/mod.rs`.  The server always makes the offer and at
 most one is outstanding (section 3.2 of RFC 8829); what is asked for meanwhile is remembered
 in two flags and a list of candidates.
 */
module Negotiation {
  datatype Signaling = Stable | HaveLocalOffer | PeerClosed

  /**
   What is visible of the peer connection: its signaling state, whether it has a remote
   description, the ICE-restart flag of every offer it created, the candidates it took.
   */
  datatype Peer = Peer(signaling: Signaling, remote: bool, offers: seq<bool>, applied: seq<string>)

  /** Candidates go to the peer only between an answer and the next offer. */
  function Take(p: Peer, c: string): Peer
    requires p.remote && p.signaling == Stable
  {
    p.(applied := p.applied + [c])
  }

  function TakeAll(p: Peer, cs: seq<string>): Peer
    requires p.remote && p.signaling == Stable
  {
    p.(applied := p.applied + cs)
  }

  function Create(p: Peer, restart: bool): Peer
    requires p.signaling == Stable
  {
    p.(offers := p.offers + [restart])
  }

  function SetLocal(p: Peer): Peer
    requires p.signaling == Stable
  {
    p.(signaling := HaveLocalOffer)
  }

  function SetRemote(p: Peer): Peer
    requires p.signaling == HaveLocalOffer
  {
    p.(signaling := Stable, remote := true)
  }

  /** `Ok(None)`, `Ok(Some(sdp))`, or an error. */
  datatype Reply = Quiet | Sent(restart: bool) | Failed

  datatype State = State(peer: Peer, started: bool, needsOffer: bool, restartPending: bool, pending: seq<string>)

  const INIT := State(Peer(Stable, false, [], []), false, false, false, [])

  const MAX_PENDING: nat := 128

  /** `createOk` and `localOk` are the peer's answers to creating and to setting the offer. */
  function OfferStep(s: State, restart: bool, createOk: bool, localOk: bool): (State, Reply) {
    var s1 := s.(restartPending := s.restartPending || restart);
    if !s.started then (s1, Quiet)
    else if s.peer.signaling != Stable then (s1.(needsOffer := true), Quiet)
    else if !createOk then (s1, Failed)
    else
      var created := Create(s.peer, s1.restartPending);
      var s2 := s1.(restartPending := false, needsOffer := false, peer := created);
      if !localOk then (s2, Failed) else (s2.(peer := SetLocal(created)), Sent(s1.restartPending))
  }

  predicate AnswerAccepted(s: State, remoteOk: bool) {
    remoteOk && s.peer.signaling == HaveLocalOffer
  }

  /** `good` is how many buffered candidates the peer takes before it refuses one. */
  function AnswerStep(s: State, remoteOk: bool, good: nat, createOk: bool, localOk: bool): (State, Reply) {
    if !AnswerAccepted(s, remoteOk) then (s, Failed)
    else
      var answered := SetRemote(s.peer);
      if good < |s.pending| then
        (s.(peer := TakeAll(answered, s.pending[..good]), pending := []), Failed)
      else
        var s1 := s.(peer := TakeAll(answered, s.pending), pending := []);
        if s.needsOffer then OfferStep(s1, false, createOk, localOk) else (s1, Quiet)
  }

  function CandidateStep(s: State, c: string, takeOk: bool): (State, Reply) {
    if !s.peer.remote || s.peer.signaling == HaveLocalOffer then
      if |s.pending| < MAX_PENDING then (s.(pending := s.pending + [c]), Quiet) else (s, Failed)
    else if takeOk && s.peer.signaling == Stable then (s.(peer := Take(s.peer, c)), Quiet)
    else (s, Failed)
  }

  class WebrtcSession {
    var peer: Peer
    var started: bool
    var needsOffer: bool
    var restartPending: bool
    var pending: seq<string>

    ghost function Value(): State
      reads this
    {
      State(peer, started, needsOffer, restartPending, pending)
    }

    constructor ()
      ensures Value() == INIT
    {
      peer := Peer(Stable, false, [], []);
      started, needsOffer, restartPending, pending := false, false, false, [];
    }

    method Offer(restart: bool, createOk: bool, localOk: bool) returns (r: Reply)
      modifies this
      ensures (Value(), r) == OfferStep(old(Value()), restart, createOk, localOk)
    {
      restartPending := restartPending || restart;
      if !started {
        return Quiet;
      }
      if peer.signaling != Stable {
        needsOffer := true;
        return Quiet;
      }
      if !createOk {
        return Failed;
      }
      var flag := restartPending;
      peer := Create(peer, flag);
      restartPending := false;
      needsOffer := false;
      if !localOk {
        return Failed;
      }
      peer := SetLocal(peer);
      return Sent(flag);
    }

    method Answer(remoteOk: bool, good: nat, createOk: bool, localOk: bool) returns (r: Reply)
      modifies this
      ensures (Value(), r) == AnswerStep(old(Value()), remoteOk, good, createOk, localOk)
    {
      if !remoteOk || peer.signaling != HaveLocalOffer {
        return Failed;
      }
      peer := SetRemote(peer);
      var drained := pending;
      pending := [];
      var i := 0;
      while i < |drained|
        invariant 0 <= i <= |drained| && i <= good
        invariant Value() == old(Value()).(peer := TakeAll(SetRemote(old(peer)), drained[..i]), pending := [])
      {
        if i == good {
          return Failed;
        }
        assert drained[..i + 1] == drained[..i] + [drained[i]];
        peer := Take(peer, drained[i]);
        i := i + 1;
      }
      assert drained[..i] == drained;
      if needsOffer {
        r := Offer(false, createOk, localOk);
      } else {
        r := Quiet;
      }
    }

    method AddIceCandidate(candidate: string, takeOk: bool) returns (r: Reply)
      modifies this
      ensures (Value(), r) == CandidateStep(old(Value()), candidate, takeOk)
    {
      if !peer.remote || peer.signaling == HaveLocalOffer {
        if |pending| >= MAX_PENDING {
          return Failed;
        }
        pending := pending + [candidate];
      } else {
        if !takeOk || peer.signaling != Stable {
          return Failed;
        }
        peer := Take(peer, candidate);
      }
      return Quiet;
    }
  }

  // ---------------------------------------------------------------- runs

  datatype Op =
    | Offer(restart: bool, createOk: bool, localOk: bool)
    | Answer(remoteOk: bool, good: nat, createOk: bool, localOk: bool)
    | Candidate(c: string, takeOk: bool)
    | Start
    | Close

  function Step(s: State, op: Op): (State, Reply) {
    match op
    case Offer(restart, createOk, localOk) => OfferStep(s, restart, createOk, localOk)
    case Answer(remoteOk, good, createOk, localOk) => AnswerStep(s, remoteOk, good, createOk, localOk)
    case Candidate(c, takeOk) => CandidateStep(s, c, takeOk)
    case Start => (s.(started := true), Quiet)
    case Close => (s.(peer := s.peer.(signaling := PeerClosed)), Quiet)
  }

  /** The session after some operations, from `s`. */
  function After(s: State, ops: seq<Op>): State {
    if ops == [] then s else Step(After(s, ops[..|ops| - 1]), ops[|ops| - 1]).0
  }

  lemma AfterSnoc(s: State, ops: seq<Op>, op: Op)
    ensures After(s, ops + [op]) == Step(After(s, ops), op).0
  {
    assert (ops + [op])[..|ops|] == ops;
  }

  // ---------------------------------------------------------------- one offer at a time

  /** Offers handed to the browser. */
  function SentCount(ops: seq<Op>): nat {
    if ops == [] then 0
    else SentCount(ops[..|ops| - 1]) + if Step(After(INIT, ops[..|ops| - 1]), ops[|ops| - 1]).1.Sent? then 1 else 0
  }

  /** Answers the peer accepted. */
  function AnsweredCount(ops: seq<Op>): nat {
    if ops == [] then 0
    else
      var op := ops[|ops| - 1];
      AnsweredCount(ops[..|ops| - 1])
      + if Answers(After(INIT, ops[..|ops| - 1]), op) then 1 else 0
  }

  predicate Answers(s: State, op: Op) {
    op.Answer? && AnswerAccepted(s, op.remoteOk)
  }

  function Unanswered(signaling: Signaling): int {
    if signaling == HaveLocalOffer then 1 else 0
  }

  /** What a step does to the signaling state is what it sends and what it accepts. */
  lemma StepSignals(s: State, op: Op)
    ensures Step(s, op).0.peer.signaling == PeerClosed <==> s.peer.signaling == PeerClosed || op.Close?
    ensures s.peer.signaling == PeerClosed || op.Close? ==> !Step(s, op).1.Sent? && !Answers(s, op)
    ensures s.peer.signaling != PeerClosed && !op.Close? ==>
              Unanswered(Step(s, op).0.peer.signaling)
              == Unanswered(s.peer.signaling) + (if Step(s, op).1.Sent? then 1 else 0) - if Answers(s, op) then 1 else 0
  {
  }

  /**
   Whatever fails, one more offer was sent than answered while an offer is out, as many in the
   stable state, and one or none more once the connection is closed.
   */
  lemma {:induction false} OneOfferOutstanding(ops: seq<Op>)
    ensures After(INIT, ops).peer.signaling == PeerClosed <==> Close in ops
    ensures var unanswered := SentCount(ops) - AnsweredCount(ops);
            match After(INIT, ops).peer.signaling
            case Stable => unanswered == 0
            case HaveLocalOffer => unanswered == 1
            case PeerClosed => 0 <= unanswered <= 1
  {
    if ops != [] {
      OneOfferOutstanding(ops[..|ops| - 1]);
      StepSignals(After(INIT, ops[..|ops| - 1]), ops[|ops| - 1]);
      assert ops == ops[..|ops| - 1] + [ops[|ops| - 1]];
    }
  }

  // ---------------------------------------------------------------- requests coalesce

  /** A request is remembered although nothing is outstanding that would trigger it. */
  predicate Stranded(s: State) {
    s.needsOffer && s.peer.signaling == Stable
  }

  /** The answer is accepted, but a buffered candidate is refused or the follow-up offer cannot be created. */
  predicate FollowUpMissing(s: State, op: Op) {
    Answers(s, op) && s.needsOffer && (op.good < |s.pending| || !op.createOk)
  }

  /** Only a started session remembers requests. */
  ghost predicate Reachable(s: State) {
    s.needsOffer ==> s.started
  }

  /** A request gets stranded exactly by a follow-up that is never created. */
  lemma StrandedExactly(s: State, op: Op)
    requires Reachable(s) && !Stranded(s)
    ensures Reachable(Step(s, op).0)
    ensures Stranded(Step(s, op).0) <==> FollowUpMissing(s, op)
  {
  }

  lemma {:induction false} RunsAreReachable(ops: seq<Op>)
    ensures Reachable(After(INIT, ops))
  {
    if ops != [] {
      RunsAreReachable(ops[..|ops| - 1]);
    }
  }

  lemma PrefixStep(ops: seq<Op>, i: int)
    requires 0 <= i < |ops|
    ensures After(INIT, ops[..i + 1]) == Step(After(INIT, ops[..i]), ops[i]).0
  {
    assert ops[..i + 1] == ops[..i] + [ops[i]];
    AfterSnoc(INIT, ops[..i], ops[i]);
  }

  lemma {:induction false} NothingMissingNoStranding(ops: seq<Op>, n: nat)
    requires n <= |ops|
    requires forall i | 0 <= i < |ops| :: !FollowUpMissing(After(INIT, ops[..i]), ops[i])
    ensures !Stranded(After(INIT, ops[..n]))
  {
    if n > 0 {
      NothingMissingNoStranding(ops, n - 1);
      RunsAreReachable(ops[..n - 1]);
      PrefixStep(ops, n - 1);
      StrandedExactly(After(INIT, ops[..n - 1]), ops[n - 1]);
    }
  }

  /** A run never strands a request, at any point, exactly if every follow-up due in it is created. */
  lemma NeverStrandedExactly(ops: seq<Op>)
    ensures (forall n | 0 <= n <= |ops| :: !Stranded(After(INIT, ops[..n])))
       <==> (forall i | 0 <= i < |ops| :: !FollowUpMissing(After(INIT, ops[..i]), ops[i]))
  {
    if forall i | 0 <= i < |ops| :: !FollowUpMissing(After(INIT, ops[..i]), ops[i]) {
      forall n | 0 <= n <= |ops|
        ensures !Stranded(After(INIT, ops[..n]))
      {
        NothingMissingNoStranding(ops, n);
      }
    } else {
      var i :| 0 <= i < |ops| && FollowUpMissing(After(INIT, ops[..i]), ops[i]);
      RunsAreReachable(ops[..i]);
      PrefixStep(ops, i);
      if !Stranded(After(INIT, ops[..i])) {
        StrandedExactly(After(INIT, ops[..i]), ops[i]);
      }
    }
  }

  const STRANDING := [
    Start, Offer(false, true, true), Candidate("c", true), Offer(false, true, true), Answer(true, 0, true, true)]

  lemma StrandingStates()
    ensures var out := Peer(HaveLocalOffer, false, [false], []);
            && After(INIT, STRANDING[..2]) == State(out, true, false, false, [])
            && After(INIT, STRANDING[..3]) == State(out, true, false, false, ["c"])
            && After(INIT, STRANDING[..4]) == State(out, true, true, false, ["c"])
            && After(INIT, STRANDING[..5]) == State(Peer(Stable, true, [false], []), true, true, false, [])
  {
    PrefixStep(STRANDING, 0);
    PrefixStep(STRANDING, 1);
    PrefixStep(STRANDING, 2);
    PrefixStep(STRANDING, 3);
    PrefixStep(STRANDING, 4);
  }

  /** A stranded request: the one buffered candidate is refused, and the follow-up offer is never made. */
  lemma StrandedWitness()
    ensures Stranded(After(INIT, STRANDING))
  {
    StrandingStates();
    assert STRANDING[..5] == STRANDING;
  }

  predicate AsksRestart(op: Op) {
    op.Offer? && op.restart
  }

  /** What may happen while the browser is still working on an offer. */
  predicate Meanwhile(op: Op) {
    op.Offer? || op.Candidate? || op.Start? || (op.Answer? && !op.remoteOk)
  }

  lemma {:induction false} WaitingRemembers(s: State, ops: seq<Op>)
    requires s.peer.signaling == HaveLocalOffer && s.started
    requires forall i | 0 <= i < |ops| :: Meanwhile(ops[i])
    ensures var t := After(s, ops);
            && t.peer == s.peer && t.started
            && (t.needsOffer <==> s.needsOffer || exists i :: 0 <= i < |ops| && ops[i].Offer?)
            && (t.restartPending <==> s.restartPending || exists i :: 0 <= i < |ops| && AsksRestart(ops[i]))
  {
    if ops != [] {
      var init, last := ops[..|ops| - 1], ops[|ops| - 1];
      WaitingRemembers(s, init);
      assert Meanwhile(last);
      assert forall i | 0 <= i < |init| :: init[i] == ops[i];
      if last.Offer? {
        assert ops[|ops| - 1].Offer?;
        assert last.restart ==> AsksRestart(ops[|ops| - 1]);
      }
      if i :| 0 <= i < |ops| && ops[i].Offer? && i < |init| {
        assert init[i].Offer?;
      }
      if i :| 0 <= i < |ops| && AsksRestart(ops[i]) && i < |init| {
        assert AsksRestart(init[i]);
      }
    }
  }

  lemma {:induction false} StartedExactly(ops: seq<Op>)
    ensures After(INIT, ops).started <==> Start in ops
  {
    if ops != [] {
      StartedExactly(ops[..|ops| - 1]);
      StepStarted(After(INIT, ops[..|ops| - 1]), ops[|ops| - 1]);
      assert ops == ops[..|ops| - 1] + [ops[|ops| - 1]];
    }
  }

  lemma StepStarted(s: State, op: Op)
    ensures Step(s, op).0.started <==> s.started || op.Start?
  {
  }

  /**
   A direct request sends an offer exactly if voice was started, no offer is out and the
   connection is not closed, and the peer can both create and set it; its flag is whether a
   restart is asked for now or waiting.  It fails exactly if the peer refuses; otherwise it waits.
   */
  lemma OfferSendsExactly(ops: seq<Op>, op: Op)
    requires op.Offer?
    ensures var free := Start in ops && Close !in ops && SentCount(ops) == AnsweredCount(ops);
            && (Step(After(INIT, ops), op).1.Sent? <==> free && op.createOk && op.localOk)
            && (Step(After(INIT, ops), op).1 == Failed <==> free && !(op.createOk && op.localOk))
    ensures Step(After(INIT, ops), op).1.Sent? ==>
              Step(After(INIT, ops), op).1.restart == (After(INIT, ops).restartPending || op.restart)
  {
    StartedExactly(ops);
    OneOfferOutstanding(ops);
  }

  /**
   The answer to an offer is followed by the next offer exactly if one was asked for meanwhile,
   every buffered candidate was taken, and the peer could both create and set it.
   */
  lemma AnswerSendsExactly(ops: seq<Op>, answer: Op)
    requires Answers(After(INIT, ops), answer)
    ensures var s := After(INIT, ops);
            && (Step(s, answer).1.Sent? <==>
                  s.needsOffer && |s.pending| <= answer.good && answer.createOk && answer.localOk)
            && (Step(s, answer).1.Sent? ==> Step(s, answer).1.restart == s.restartPending)
            && (Step(s, answer).1 == Quiet <==> !s.needsOffer && |s.pending| <= answer.good)
  {
    RunsAreReachable(ops);
  }

  /**
   However many offers are asked for while one is outstanding, none is made until the answer
   arrives; then exactly one is made if any was asked for, and its restart flag is the
   disjunction of all the requests.
   */
  lemma RequestsCoalesce(s: State, ops: seq<Op>, answer: Op)
    requires s.started && s.peer.signaling == HaveLocalOffer && !s.needsOffer && !s.restartPending
    requires forall i | 0 <= i < |ops| :: Meanwhile(ops[i])
    requires answer.Answer? && answer.remoteOk && answer.createOk && answer.localOk
    requires |After(s, ops).pending| <= answer.good
    ensures var t := After(s, ops);
            var asked := exists i :: 0 <= i < |ops| && ops[i].Offer?;
            var restart := exists i :: 0 <= i < |ops| && AsksRestart(ops[i]);
            && t.peer.offers == s.peer.offers
            && Step(t, answer).1 == (if asked then Sent(restart) else Quiet)
            && Step(t, answer).0.peer.offers == s.peer.offers + (if asked then [restart] else [])
            && !Step(t, answer).0.needsOffer && !Step(t, answer).0.restartPending
  {
    WaitingRemembers(s, ops);
  }

  // ---------------------------------------------------------------- restart flags

  /** Operation `i` made the peer create an offer. */
  predicate Creates(ops: seq<Op>, i: int)
    requires 0 <= i < |ops|
  {
    |After(INIT, ops[..i + 1]).peer.offers| > |After(INIT, ops[..i]).peer.offers|
  }

  lemma StepCreates(s: State, op: Op)
    ensures var t := Step(s, op).0;
            if |t.peer.offers| > |s.peer.offers|
            then t.peer.offers == s.peer.offers + [s.restartPending || AsksRestart(op)] && !t.restartPending
            else t.peer.offers == s.peer.offers && (t.restartPending <==> s.restartPending || AsksRestart(op))
  {
  }

  /** A restart was asked for in `ops[from..]`, no offer having been created there. */
  ghost predicate RestartSince(ops: seq<Op>, from: int) {
    exists k :: 0 <= from <= k < |ops| && AsksRestart(ops[k])
  }

  /** No offer has been created since operation `from`, which is right after the last creation. */
  ghost predicate LastCreation(ops: seq<Op>, from: int) {
    && 0 <= from <= |ops|
    && (from > 0 ==> Creates(ops, from - 1))
    && forall k | from <= k < |ops| :: !Creates(ops, k)
  }

  lemma RestartSinceNext(ops: seq<Op>, from: int)
    requires 0 <= from < |ops|
    ensures RestartSince(ops, from) <==> RestartSince(ops[..|ops| - 1], from) || AsksRestart(ops[|ops| - 1])
  {
    var init := ops[..|ops| - 1];
    if RestartSince(init, from) {
      var k :| 0 <= from <= k < |init| && AsksRestart(init[k]);
      assert AsksRestart(ops[k]);
    }
    if RestartSince(ops, from) {
      var k :| 0 <= from <= k < |ops| && AsksRestart(ops[k]);
      assert k < |init| ==> AsksRestart(init[k]);
    }
  }

  lemma CreatesEarlier(ops: seq<Op>, k: int)
    requires 0 <= k < |ops| - 1
    ensures Creates(ops[..|ops| - 1], k) <==> Creates(ops, k)
  {
    assert ops[..|ops| - 1][..k] == ops[..k] && ops[..|ops| - 1][..k + 1] == ops[..k + 1];
  }

  lemma LastCreationEarlier(ops: seq<Op>, from: int)
    requires LastCreation(ops, from) && from < |ops|
    ensures LastCreation(ops[..|ops| - 1], from)
  {
    var init := ops[..|ops| - 1];
    if from > 0 {
      CreatesEarlier(ops, from - 1);
    }
    forall k | from <= k < |init|
      ensures !Creates(init, k)
    {
      CreatesEarlier(ops, k);
      assert !Creates(ops, k);
    }
  }

  /** Whether the last operation created an offer decides what is waiting after it. */
  lemma LastStep(ops: seq<Op>)
    requires ops != []
    ensures var s := After(INIT, ops[..|ops| - 1]);
            After(INIT, ops).restartPending
            <==> !Creates(ops, |ops| - 1) && (s.restartPending || AsksRestart(ops[|ops| - 1]))
  {
    assert ops[..|ops|] == ops;
    StepCreates(After(INIT, ops[..|ops| - 1]), ops[|ops| - 1]);
  }

  lemma {:induction false} PendingIsDisjunction(ops: seq<Op>, from: int)
    requires LastCreation(ops, from)
    ensures After(INIT, ops).restartPending <==> RestartSince(ops, from)
  {
    if ops != [] {
      LastStep(ops);
      if from < |ops| {
        LastCreationEarlier(ops, from);
        PendingIsDisjunction(ops[..|ops| - 1], from);
        RestartSinceNext(ops, from);
      }
    }
  }

  /**
   The restart flag of a created offer is the disjunction of the restart requests since the
   offer before it, counting those made before the start and those whose creation failed.
   */
  lemma RestartFlagIsDisjunction(ops: seq<Op>, from: int, op: Op)
    requires LastCreation(ops, from) && Creates(ops + [op], |ops|)
    ensures After(INIT, ops + [op]).peer.offers ==
            After(INIT, ops).peer.offers + [RestartSince(ops, from) || AsksRestart(op)]
  {
    AfterSnoc(INIT, ops, op);
    assert (ops + [op])[..|ops|] == ops && (ops + [op])[..|ops| + 1] == ops + [op];
    StepCreates(After(INIT, ops), op);
    PendingIsDisjunction(ops, from);
  }

  // ---------------------------------------------------------------- restarts that reach the browser

  /** Operation `i` handed an offer to the browser. */
  predicate Sends(ops: seq<Op>, i: int)
    requires 0 <= i < |ops|
  {
    Step(After(INIT, ops[..i]), ops[i]).1.Sent?
  }

  /** Nothing has been sent since operation `from`, which is right after the last offer sent. */
  ghost predicate LastSent(ops: seq<Op>, from: int) {
    && 0 <= from <= |ops|
    && (from > 0 ==> Sends(ops, from - 1))
    && forall k | from <= k < |ops| :: !Sends(ops, k)
  }

  /** Operation `i` created a restarting offer that the peer then refused to set. */
  predicate Forgets(ops: seq<Op>, i: int)
    requires 0 <= i < |ops|
  {
    Creates(ops, i) && !Sends(ops, i) && (After(INIT, ops[..i]).restartPending || AsksRestart(ops[i]))
  }

  ghost predicate ForgotSince(ops: seq<Op>, from: int) {
    exists k :: 0 <= from <= k < |ops| && Forgets(ops, k)
  }

  lemma SendsEarlier(ops: seq<Op>, k: int)
    requires 0 <= k < |ops| - 1
    ensures Sends(ops[..|ops| - 1], k) <==> Sends(ops, k)
    ensures Forgets(ops[..|ops| - 1], k) <==> Forgets(ops, k)
  {
    CreatesEarlier(ops, k);
    assert ops[..|ops| - 1][..k] == ops[..k];
  }

  lemma LastSentEarlier(ops: seq<Op>, from: int)
    requires LastSent(ops, from) && from < |ops|
    ensures LastSent(ops[..|ops| - 1], from)
  {
    var init := ops[..|ops| - 1];
    if from > 0 {
      SendsEarlier(ops, from - 1);
    }
    forall k | from <= k < |init|
      ensures !Sends(init, k)
    {
      SendsEarlier(ops, k);
      assert !Sends(ops, k);
    }
  }

  lemma ForgotSinceNext(ops: seq<Op>, from: int)
    requires 0 <= from < |ops|
    ensures ForgotSince(ops, from) <==> ForgotSince(ops[..|ops| - 1], from) || Forgets(ops, |ops| - 1)
  {
    var init := ops[..|ops| - 1];
    if ForgotSince(init, from) {
      var k :| 0 <= from <= k < |init| && Forgets(init, k);
      SendsEarlier(ops, k);
    }
    if ForgotSince(ops, from) {
      var k :| 0 <= from <= k < |ops| && Forgets(ops, k);
      if k < |init| {
        SendsEarlier(ops, k);
      }
    }
  }

  /** Whatever is sent was created. */
  lemma SentWasCreated(ops: seq<Op>, i: int)
    requires 0 <= i < |ops| && Sends(ops, i)
    ensures Creates(ops, i)
    ensures Step(After(INIT, ops[..i]), ops[i]).1.restart == (After(INIT, ops[..i]).restartPending || AsksRestart(ops[i]))
  {
    PrefixStep(ops, i);
  }

  /** A restart asked for since the last offer sent is still waiting, or was forgotten with an offer that was not set. */
  lemma {:induction false} AskedIsWaitingOrForgotten(ops: seq<Op>, from: int)
    requires LastSent(ops, from)
    ensures RestartSince(ops, from) <==> After(INIT, ops).restartPending || ForgotSince(ops, from)
  {
    if ops != [] {
      LastStep(ops);
      if from < |ops| {
        LastSentEarlier(ops, from);
        AskedIsWaitingOrForgotten(ops[..|ops| - 1], from);
        RestartSinceNext(ops, from);
        ForgotSinceNext(ops, from);
      } else {
        SentWasCreated(ops, |ops| - 1);
      }
    }
  }

  /**
   An offer sent to the browser restarts ICE if a restart was asked for since the offer sent
   before it, and only then, exactly if no restarting offer created in between was refused by
   `set_local_description`, or a restart was asked for again after the last one created.
   */
  lemma SentFlagExactly(ops: seq<Op>, from: int, created: int, op: Op)
    requires LastSent(ops, from) && LastCreation(ops, created) && Sends(ops + [op], |ops|)
    ensures Step(After(INIT, ops), op).1 == Sent(RestartSince(ops, from) || AsksRestart(op))
       <==> !ForgotSince(ops, from) || RestartSince(ops, created) || AsksRestart(op)
  {
    assert (ops + [op])[..|ops|] == ops;
    SentWasCreated(ops + [op], |ops|);
    AskedIsWaitingOrForgotten(ops, from);
    PendingIsDisjunction(ops, created);
  }

  const FORGETTING := [Start, Offer(true, true, false), Offer(false, true, true)]

  /** A restart is asked for, its offer is created but not set, and the next offer goes out without it. */
  lemma ForgottenRestart()
    ensures LastSent(FORGETTING[..2], 0) && RestartSince(FORGETTING[..2], 0)
    ensures Step(After(INIT, FORGETTING[..2]), FORGETTING[2]).1 == Sent(false)
  {
    PrefixStep(FORGETTING, 0);
    PrefixStep(FORGETTING, 1);
    var ops := FORGETTING[..2];
    assert ops[..0] == FORGETTING[..0] && ops[..1] == FORGETTING[..1];
    assert AsksRestart(ops[1]);
    assert !Sends(ops, 0) && !Sends(ops, 1);
  }

  // ---------------------------------------------------------------- candidates

  /** A candidate has to wait: there is no remote description yet, or an offer is out. */
  predicate MustWait(s: State) {
    !s.peer.remote || s.peer.signaling == HaveLocalOffer
  }

  /** A candidate that must wait needs a place among 128; one that need not must be taken by a peer in the stable state. */
  predicate Acceptable(s: State, op: Op) {
    op.Candidate? && if MustWait(s) then |s.pending| < 128 else s.peer.signaling == Stable && op.takeOk
  }

  /**
   After any run a candidate is accepted exactly under that condition; then it is the last one
   waiting if it must wait, else the last one applied; and nothing else changes.
   */
  lemma CandidateExactly(ops: seq<Op>, op: Op)
    requires op.Candidate?
    ensures var s := After(INIT, ops);
            && (Step(s, op).1 == Quiet <==> Acceptable(s, op)) && Step(s, op).1 in {Quiet, Failed}
            && Step(s, op).0 ==
               if !Acceptable(s, op) then s
               else if MustWait(s) then s.(pending := s.pending + [op.c])
               else s.(peer := s.peer.(applied := s.peer.applied + [op.c]))
    ensures MustWait(After(INIT, ops)) <==>
              AnsweredCount(ops) == 0 || After(INIT, ops).peer.signaling == HaveLocalOffer
  {
    RemoteExactly(ops);
  }

  /** There is a remote description exactly if some answer was accepted. */
  lemma {:induction false} RemoteExactly(ops: seq<Op>)
    ensures After(INIT, ops).peer.remote <==> AnsweredCount(ops) > 0
  {
    if ops != [] {
      RemoteExactly(ops[..|ops| - 1]);
      StepRemote(After(INIT, ops[..|ops| - 1]), ops[|ops| - 1]);
    }
  }

  lemma StepRemote(s: State, op: Op)
    ensures Step(s, op).0.peer.remote <==> s.peer.remote || Answers(s, op)
  {
  }

  /** The candidates that were accepted, in order of arrival. */
  function Accepted(ops: seq<Op>): seq<string> {
    if ops == [] then []
    else
      var init, op := ops[..|ops| - 1], ops[|ops| - 1];
      Accepted(init) + if Acceptable(After(INIT, init), op) then [op.c] else []
  }

  /** A buffered candidate is refused while an answer is handled; it and those after it are lost. */
  predicate Loses(s: State, op: Op) {
    Answers(s, op) && op.good < |s.pending|
  }

  ghost predicate Ordered(s: State) {
    (s.peer.remote && s.peer.signaling == Stable ==> s.pending == []) && |s.pending| <= 128
  }

  lemma StepKeepsCandidates(s: State, op: Op)
    requires Ordered(s)
    ensures var t := Step(s, op).0;
            var held := s.peer.applied + s.pending;
            var took := if Acceptable(s, op) then [op.c] else [];
            && Ordered(t)
            && s.peer.applied <= t.peer.applied
            && (t.peer.applied != s.peer.applied ==>
                  (op.Candidate? && s.peer.remote && s.peer.signaling == Stable) || Answers(s, op))
            && (!Loses(s, op) ==> t.peer.applied + t.pending == held + took)
            && |t.peer.applied| + |t.pending| <= |held| + |took|
            && (Loses(s, op) ==> |t.peer.applied| + |t.pending| < |held| + |took|)
  {
    var t := Step(s, op).0;
    if op.Candidate? {
      if t.pending != s.pending {
        assert s.peer.applied + (s.pending + [op.c]) == s.peer.applied + s.pending + [op.c];
      }
    }
  }

  /** The buffer never holds more than 128 candidates, and nothing waits while candidates can be applied. */
  lemma {:induction false} BufferBounded(ops: seq<Op>)
    ensures Ordered(After(INIT, ops))
  {
    if ops != [] {
      BufferBounded(ops[..|ops| - 1]);
      StepKeepsCandidates(After(INIT, ops[..|ops| - 1]), ops[|ops| - 1]);
    }
  }

  ghost predicate LosesSome(ops: seq<Op>) {
    exists i :: 0 <= i < |ops| && LosesAt(ops, i)
  }

  predicate LosesAt(ops: seq<Op>, i: int)
    requires 0 <= i < |ops|
  {
    Loses(After(INIT, ops[..i]), ops[i])
  }

  lemma LosesEarlier(ops: seq<Op>, i: int)
    requires 0 <= i < |ops| - 1
    ensures LosesAt(ops[..|ops| - 1], i) <==> LosesAt(ops, i)
  {
    assert ops[..|ops| - 1][..i] == ops[..i];
  }

  lemma LosesSomeNext(ops: seq<Op>)
    requires ops != []
    ensures LosesSome(ops) <==> LosesSome(ops[..|ops| - 1]) || LosesAt(ops, |ops| - 1)
  {
    var init := ops[..|ops| - 1];
    if LosesSome(init) {
      var i :| 0 <= i < |init| && LosesAt(init, i);
      LosesEarlier(ops, i);
    }
    if LosesSome(ops) {
      var i :| 0 <= i < |ops| && LosesAt(ops, i);
      if i < |init| {
        LosesEarlier(ops, i);
      }
    }
  }

  /**
   Candidates applied followed by candidates waiting are the accepted candidates in order of
   arrival, exactly as long as no buffered candidate was refused while an answer was handled.
   */
  lemma {:induction false} CandidatesInOrder(ops: seq<Op>)
    ensures var s := After(INIT, ops);
            && (s.peer.applied + s.pending == Accepted(ops) <==> !LosesSome(ops))
            && |s.peer.applied| + |s.pending| <= |Accepted(ops)|
            && (LosesSome(ops) ==> |s.peer.applied| + |s.pending| < |Accepted(ops)|)
  {
    if ops != [] {
      var init, op := ops[..|ops| - 1], ops[|ops| - 1];
      CandidatesInOrder(init);
      BufferBounded(init);
      var s := After(INIT, init);
      StepKeepsCandidates(s, op);
      LosesSomeNext(ops);
    }
  }

  lemma AcceptedNext(ops: seq<Op>, i: int)
    requires 0 <= i < |ops|
    ensures Accepted(ops[..i + 1]) == Accepted(ops[..i])
              + if Acceptable(After(INIT, ops[..i]), ops[i]) then [ops[i].c] else []
  {
    assert ops[..i + 1][..i] == ops[..i];
  }

  /** In the run that strands a request an accepted candidate is lost too. */
  lemma CandidateLost()
    ensures var s := After(INIT, STRANDING);
            Accepted(STRANDING) == ["c"] && s.peer.applied == [] && s.pending == []
  {
    StrandingStates();
    AcceptedNext(STRANDING, 0);
    AcceptedNext(STRANDING, 1);
    AcceptedNext(STRANDING, 2);
    AcceptedNext(STRANDING, 3);
    AcceptedNext(STRANDING, 4);
    assert STRANDING[..5] == STRANDING;
  }
}
