/**
 The receive loop of one WebSocket, `src/ws/handler.rs`: nothing reaches the session manager
 before a connect message, and every way out goes through one disconnect and one revoke.
 */
module Handler {
  datatype ClientMessage =
    | Connect(username: string)
    | Disconnect
    | LegacyOffer
    | ChatSend(message: string)
    | IceRefresh
    | Other(tag: nat)

  /** What the loop's wait comes back with.  `timedOut` is whether handling the message takes over 15 s. */
  datatype Inbound =
    | Message(m: ClientMessage, timedOut: bool)
    | Malformed
    | Idle
    | Ended

  datatype Call = ConnectUser(username: string) | Operate(m: ClientMessage) | DisconnectUser | RevokeTurn

  const MAX_USERNAME: nat := 128
  const MAX_CHAT: nat := 4096

  predicate Blank(s: string) {
    forall i | 0 <= i < |s| :: s[i] in " \t\n\r"
  }

  /** The call a message leads to, if any. */
  function CallFor(m: ClientMessage): seq<Call> {
    match m
    case Connect(username) => if Blank(username) || |username| > MAX_USERNAME then [] else [ConnectUser(username)]
    case Disconnect => [DisconnectUser]
    case LegacyOffer => []
    case ChatSend(text) => if |text| > MAX_CHAT then [] else [Operate(m)]
    case IceRefresh => [Operate(m)]
    case Other(_) => [Operate(m)]
  }

  method Receive(es: seq<Inbound>) returns (calls: seq<Call>, handled: nat)
    ensures handled <= |es|
    ensures calls == CallsOf(es[..handled]) + [DisconnectUser, RevokeTurn]
    ensures forall i | 0 <= i < handled :: Passes(es, i)
    ensures handled < |es| ==>
              !Passes(es, handled) || (handled > 0 && es[handled - 1].Message? && es[handled - 1].timedOut)
    ensures forall i | 0 <= i < handled - 1 :: !(es[i].Message? && es[i].timedOut)
  {
    calls := [];
    handled := 0;
    var firstMessage := true;
    while handled < |es|
      invariant handled <= |es|
      invariant calls == CallsOf(es[..handled])
      invariant firstMessage <==> !Greeted(es[..handled])
      invariant forall i | 0 <= i < handled :: Passes(es, i) && !(es[i].Message? && es[i].timedOut)
    {
      var e := es[handled];
      assert es[..handled + 1] == es[..handled] + [e];
      if e.Ended? {
        break;
      }
      if e.Message? {
        if firstMessage && !e.m.Connect? {
          break;
        }
        firstMessage := false;
        if e.m.Disconnect? {
          assert !Passes(es, handled);
          break;
        }
        GreetedGrows(es[..handled], e);
        calls := calls + CallFor(e.m);
      } else {
        GreetedGrows(es[..handled], e);
      }
      CallsGrow(es[..handled], e);
      handled := handled + 1;
      if e.Message? && e.timedOut {
        break;
      }
    }
    calls := calls + [DisconnectUser, RevokeTurn];
  }

  ghost predicate Greeted(es: seq<Inbound>) {
    exists i :: 0 <= i < |es| && es[i].Message?
  }

  /** Event `i` is handled rather than ending the loop: the first message must be a connect. */
  ghost predicate Passes(es: seq<Inbound>, i: int)
    requires 0 <= i < |es|
  {
    match es[i]
    case Message(m, _) => !m.Disconnect? && (m.Connect? || Greeted(es[..i]))
    case Malformed => true
    case Idle => true
    case Ended => false
  }

  /** What ends the loop: the end of the socket, a disconnect, or a first message that is no connect. */
  lemma EndsExactly(es: seq<Inbound>, i: int)
    requires 0 <= i < |es|
    ensures !Passes(es, i) <==>
              || es[i] == Ended
              || (es[i].Message? && es[i].m == Disconnect)
              || (es[i].Message? && !es[i].m.Connect? && forall k | 0 <= k < i :: !es[k].Message?)
  {
    var before := es[..i];
    assert forall k | 0 <= k < i :: before[k] == es[k];
  }

  function CallsOf(es: seq<Inbound>): seq<Call> {
    if es == [] then []
    else CallsOf(es[..|es| - 1]) + if es[|es| - 1].Message? then CallFor(es[|es| - 1].m) else []
  }

  lemma CallsGrow(es: seq<Inbound>, e: Inbound)
    ensures CallsOf(es + [e]) == CallsOf(es) + if e.Message? then CallFor(e.m) else []
  {
    assert (es + [e])[..|es|] == es;
  }

  lemma GreetedGrows(es: seq<Inbound>, e: Inbound)
    ensures Greeted(es + [e]) <==> Greeted(es) || e.Message?
  {
    if Greeted(es) {
      var i :| 0 <= i < |es| && es[i].Message?;
      assert (es + [e])[i].Message?;
    }
    if e.Message? {
      assert (es + [e])[|es|].Message?;
    }
  }

  /** Events that all pass lead to no disconnect and no revoke of their own. */
  lemma {:induction false} PassedCalls(es: seq<Inbound>)
    requires forall i | 0 <= i < |es| :: Passes(es, i)
    ensures DisconnectUser !in CallsOf(es) && RevokeTurn !in CallsOf(es)
  {
    if es != [] {
      var init := es[..|es| - 1];
      forall i | 0 <= i < |init|
        ensures Passes(init, i)
      {
        assert Passes(es, i) && init[..i] == es[..i];
      }
      PassedCalls(init);
      assert Passes(es, |es| - 1);
    }
  }

  /** Nothing is called unless the first message there was is a connect. */
  lemma {:induction false} FirstIsConnect(es: seq<Inbound>)
    requires forall i | 0 <= i < |es| :: Passes(es, i)
    requires CallsOf(es) != []
    ensures exists i :: 0 <= i < |es| && es[i].Message? && es[i].m.Connect? && !Greeted(es[..i])
  {
    var init := es[..|es| - 1];
    assert Passes(es, |es| - 1);
    if Greeted(init) {
      FirstMessage(es, |init|);
      var i :| 0 <= i < |init| && es[i].Message? && !Greeted(es[..i]);
      assert Passes(es, i);
    } else {
      NothingCalled(init);
      assert es[|es| - 1].Message?;
    }
  }

  lemma {:induction false} FirstMessage(es: seq<Inbound>, n: nat)
    requires n <= |es| && Greeted(es[..n])
    ensures exists i :: 0 <= i < n && es[i].Message? && !Greeted(es[..i])
  {
    if Greeted(es[..n - 1]) {
      FirstMessage(es, n - 1);
    } else {
      assert es[..n] == es[..n - 1] + [es[n - 1]];
      GreetedGrows(es[..n - 1], es[n - 1]);
    }
  }

  lemma {:induction false} NothingCalled(es: seq<Inbound>)
    requires !Greeted(es)
    ensures CallsOf(es) == []
  {
    if es != [] {
      var init := es[..|es| - 1];
      assert es == init + [es[|es| - 1]];
      GreetedGrows(init, es[|es| - 1]);
      NothingCalled(init);
    }
  }

  lemma {:induction false} CalledFor(es: seq<Inbound>, call: Call)
    ensures call in CallsOf(es) <==> exists i :: 0 <= i < |es| && es[i].Message? && call in CallFor(es[i].m)
  {
    if es != [] {
      var init := es[..|es| - 1];
      CalledFor(init, call);
      if i :| 0 <= i < |init| && init[i].Message? && call in CallFor(init[i].m) {
        assert es[i] == init[i];
      }
      if i :| 0 <= i < |es| && es[i].Message? && call in CallFor(es[i].m) {
        assert i < |init| ==> init[i] == es[i];
      }
    }
  }

  /**
   A user is connected exactly if a connect message was handled whose name has something other
   than blanks in it and at most 128 characters.
   */
  lemma ConnectsExactly(es: seq<Inbound>, username: string)
    ensures ConnectUser(username) in CallsOf(es) <==>
              && (exists i :: 0 <= i < |es| && es[i].Message? && es[i].m == Connect(username))
              && |username| <= 128 && exists k :: 0 <= k < |username| && username[k] !in {' ', '\t', '\n', '\r'}
  {
    CalledFor(es, ConnectUser(username));
    if i :| 0 <= i < |es| && es[i].Message? && es[i].m == Connect(username) {
      assert ConnectUser(username) in CallFor(es[i].m) <==> !Blank(username) && |username| <= 128;
    }
  }

  /**
   Any other message is passed on to the session exactly if it was handled, is neither a connect
   nor a disconnect nor an offer of the old protocol, and is no chat of over 4096 characters.
   */
  lemma OperatesExactly(es: seq<Inbound>, m: ClientMessage)
    ensures Operate(m) in CallsOf(es) <==>
              && (exists i :: 0 <= i < |es| && es[i].Message? && es[i].m == m)
              && !m.Connect? && !m.Disconnect? && !m.LegacyOffer? && (m.ChatSend? ==> |m.message| <= 4096)
  {
    CalledFor(es, Operate(m));
    if i :| 0 <= i < |es| && es[i].Message? && es[i].m == m {
      assert Operate(m) in CallFor(es[i].m)
        <==> !m.Connect? && !m.Disconnect? && !m.LegacyOffer? && (m.ChatSend? ==> |m.message| <= 4096);
    }
  }
}
