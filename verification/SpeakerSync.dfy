/**
 How a session follows the roster, from `src/session.rs`: the set of known speakers, the
 name map for chat, and the RTP tracks, with `start_voice` coming in at any moment.
 */
module SpeakerSync {
  import opened Common
  import opened Roster

  datatype Follower = Follower(
    own: Option<nat>, known: set<nat>, started: bool, tracks: set<nat>, names: map<nat, string>)

  const IDLE := Follower(None, {}, false, {}, map[])

  function Ids(us: seq<UserInfo>): set<nat> {
    set u | u in us :: u.sessionId
  }

  function NamesInto(names: map<nat, string>, us: seq<UserInfo>): map<nat, string> {
    if us == [] then names
    else NamesInto(names, us[..|us| - 1])[us[|us| - 1].sessionId := us[|us| - 1].name]
  }

  /** `addOk` is whether the peer connection takes a new track. */
  function Follow(f: Follower, e: Event, addOk: bool): Follower {
    match e
    case Connected(own, _, us) =>
      f.(own := Some(own), known := Ids(us) - {own}, names := NamesInto(f.names, us))
    case UserJoined(u) =>
      var named := f.(names := f.names[u.sessionId := u.name]);
      if f.own == Some(u.sessionId) then named
      else named.(known := f.known + {u.sessionId},
                  tracks := if f.started && addOk then f.tracks + {u.sessionId} else f.tracks)
    case UserLeft(id) => f.(known := f.known - {id}, tracks := f.tracks - {id}, names := f.names - {id})
    case UserStateChanged(d) =>
      if d.name.Some? then f.(names := f.names[d.sessionId := d.name.value]) else f
    case _ => f
  }

  /** Adds tracks in order until the peer refuses one. */
  function AddTracks(tracks: set<nat>, order: seq<nat>, refused: set<nat>): (set<nat>, bool)
    decreases |order|
  {
    if order == [] then (tracks, true)
    else if order[0] !in tracks && order[0] in refused then (tracks, false)
    else AddTracks(tracks + {order[0]}, order[1..], refused)
  }

  /** The part of `start_voice` before the offer.  `order` is the hash order of the known speakers. */
  function StartVoice(f: Follower, order: seq<nat>, refused: set<nat>): (Follower, bool) {
    if f.own.None? then (f, false)
    else if f.started then (f, true)
    else
      var (tracks, ok) := AddTracks(f.tracks, order, refused);
      (f.(tracks := tracks, started := ok), ok)
  }

  class Session {
    var own: Option<nat>
    var known: set<nat>
    var started: bool
    var tracks: set<nat>
    var names: map<nat, string>

    ghost function Value(): Follower
      reads this
    {
      Follower(own, known, started, tracks, names)
    }

    constructor ()
      ensures Value() == IDLE
    {
      own, known, started, tracks, names := None, {}, false, {}, map[];
    }

    method HandleEvent(e: Event, addOk: bool)
      modifies this
      ensures Value() == Follow(old(Value()), e, addOk)
    {
      match e {
        case Connected(id, _, us) =>
          for i := 0 to |us|
            invariant Value() == old(Value()).(names := NamesInto(old(names), us[..i]))
          {
            assert us[..i + 1][..i] == us[..i];
            names := names[us[i].sessionId := us[i].name];
          }
          assert us[..|us|] == us;
          own := Some(id);
          known := (set u | u in us :: u.sessionId) - {id};
        case UserJoined(u) =>
          if own != Some(u.sessionId) {
            known := known + {u.sessionId};
            if started && addOk {
              tracks := tracks + {u.sessionId};
            }
          }
          names := names[u.sessionId := u.name];
        case UserLeft(id) =>
          known := known - {id};
          tracks := tracks - {id};
          names := names - {id};
        case UserStateChanged(d) =>
          if d.name.Some? {
            names := names[d.sessionId := d.name.value];
          }
        case _ =>
      }
    }

    method Start(order: seq<nat>, refused: set<nat>) returns (ok: bool)
      modifies this
      ensures (Value(), ok) == StartVoice(old(Value()), order, refused)
    {
      if own.None? {
        return false;
      }
      if !started {
        var i := 0;
        while i < |order|
          invariant 0 <= i <= |order|
          invariant Value() == old(Value()).(tracks := tracks)
          invariant AddTracks(tracks, order[i..], refused) == AddTracks(old(tracks), order, refused)
        {
          if order[i] !in tracks && order[i] in refused {
            return false;
          }
          assert order[i..][1..] == order[i + 1..];
          tracks := tracks + {order[i]};
          i := i + 1;
        }
        started := true;
      }
      return true;
    }
  }

  // ---------------------------------------------------------------- runs

  datatype Act = Hear(e: Event, addOk: bool) | Start(order: seq<nat>, refused: set<nat>)

  function Do(f: Follower, a: Act): Follower {
    match a
    case Hear(e, addOk) => Follow(f, e, addOk)
    case Start(order, refused) => StartVoice(f, order, refused).0
  }

  function After(acts: seq<Act>): Follower {
    if acts == [] then IDLE else Do(After(acts[..|acts| - 1]), acts[|acts| - 1])
  }

  /** The events among the acts, in order. */
  function Heard(acts: seq<Act>): seq<Event> {
    if acts == [] then []
    else
      var es := Heard(acts[..|acts| - 1]);
      if acts[|acts| - 1].Hear? then es + [acts[|acts| - 1].e] else es
  }

  /** Each `start_voice` goes through exactly the speakers known at that moment. */
  ghost predicate TrueOrders(acts: seq<Act>) {
    forall i | 0 <= i < |acts| && acts[i].Start? :: (set s | s in acts[i].order) == After(acts[..i]).known
  }

  lemma PrefixOrders(acts: seq<Act>)
    requires acts != [] && TrueOrders(acts)
    ensures TrueOrders(acts[..|acts| - 1])
  {
    var init := acts[..|acts| - 1];
    forall i | 0 <= i < |init| && init[i].Start?
      ensures (set s | s in init[i].order) == After(init[..i]).known
    {
      assert init[..i] == acts[..i];
    }
  }

  // ---------------------------------------------------------------- what the client's events are like

  /** `e` is an event the client could emit when a listener's copy is `v`. */
  ghost predicate Sensible(v: View, e: Event) {
    && (IsRosterEvent(e) ==> v.Synced?)
    && (e.Connected? && v.Synced? ==> UserMap(e.users) == v.users)
    && (e.UserStateChanged? ==> v.Synced? && e.state.sessionId in v.users)
    && (e.UserJoined? ==> v.Synced? && e.user.sessionId !in v.users)
    && (e.ChannelAdded? ==> v.Synced? && e.channel.id !in v.channels)
    && (e.ChannelUpdated? ==> v.Synced? && e.channel.id in v.channels)
  }

  ghost predicate AllSensible(es: seq<Event>) {
    forall i | 0 <= i < |es| :: Sensible(AbsorbAll(es[..i]), es[i])
  }

  lemma HandleIsSensible(v: View, c: Client, p: Packet, l: Listing)
    requires Mirrors(v, c) && KeysMatch(c) && (p.ServerSync? ==> Lists(l, c))
    ensures Handle(c, p, l).1 != [] ==> Sensible(v, Handle(c, p, l).1[0])
    ensures |Handle(c, p, l).1| <= 1
  {
    if p.ServerSync? {
      ListingRebuilds(l, c);
    }
  }

  lemma SensiblePrefix(es: seq<Event>, all: seq<Event>)
    requires es <= all && AllSensible(all)
    ensures AllSensible(es)
  {
    forall i | 0 <= i < |es|
      ensures Sensible(AbsorbAll(es[..i]), es[i])
    {
      assert all[..i] == es[..i] && all[i] == es[i];
    }
  }

  lemma HeardPrefix(acts: seq<Act>)
    requires acts != [] && AllSensible(Heard(acts))
    ensures var es := Heard(acts[..|acts| - 1]);
            && AllSensible(es)
            && (acts[|acts| - 1].Hear? ==> Sensible(AbsorbAll(es), acts[|acts| - 1].e))
  {
    var es, all := Heard(acts[..|acts| - 1]), Heard(acts);
    SensiblePrefix(es, all);
    if acts[|acts| - 1].Hear? {
      assert all[..|es|] == es;
      assert Sensible(AbsorbAll(all[..|es|]), all[|es|]);
    }
  }

  lemma SensibleGrows(es: seq<Event>, e: Event)
    requires AllSensible(es) && Sensible(AbsorbAll(es), e)
    ensures AllSensible(es + [e])
  {
    var all := es + [e];
    forall i | 0 <= i < |all|
      ensures Sensible(AbsorbAll(all[..i]), all[i])
    {
      assert all[..i] == es[..i];
      assert es[..|es|] == es;
    }
  }

  lemma {:induction false} ClientIsSensible(arrivals: seq<Arrival>)
    requires TrueListings(arrivals)
    ensures AllSensible(Events(arrivals))
  {
    if arrivals != [] {
      var init, a := arrivals[..|arrivals| - 1], arrivals[|arrivals| - 1];
      PrefixListings(arrivals);
      ClientIsSensible(init);
      EventsRebuildRoster(init);
      KeysAlwaysMatch(init);
      assert a.p.ServerSync? ==> Lists(a.l, Roster.After(init));
      HandleIsSensible(AbsorbAll(Events(init)), Roster.After(init), a.p, a.l);
      var es := Handle(Roster.After(init), a.p, a.l).1;
      if es != [] {
        SensibleGrows(Events(init), es[0]);
        assert Events(init) + [es[0]] == Events(init) + es;
      } else {
        assert Events(init) + es == Events(init);
      }
    }
  }

  // ---------------------------------------------------------------- the session keeps up

  function NamesOf(users: Users): map<nat, string> {
    map k | k in users :: users[k].name
  }

  /** The session agrees with a listener's copy of the roster. */
  ghost predicate InStep(f: Follower, v: View) {
    match v
    case Waiting => f == IDLE
    case Synced(own, _, users) => f.own == Some(own) && f.known == users.Keys - {own} && f.names == NamesOf(users)
  }

  lemma {:induction false} NamesIntoIsUnion(names: map<nat, string>, us: seq<UserInfo>)
    ensures NamesInto(names, us) == names + NamesOf(UserMap(us))
  {
    if us == [] {
      assert NamesOf(UserMap(us)) == map[];
    } else {
      NamesIntoIsUnion(names, us[..|us| - 1]);
    }
  }

  lemma IdsAreKeys(us: seq<UserInfo>)
    ensures Ids(us) == UserMap(us).Keys
  {
    UserMapOf(us);
    forall k | k in UserMap(us).Keys
      ensures k in Ids(us)
    {
      assert UserMap(us)[k] in us;
    }
  }

  lemma ConnectedIsInStep(f: Follower, v: View, e: Event, addOk: bool)
    requires InStep(f, v) && Sensible(v, e) && e.Connected?
    ensures InStep(Follow(f, e, addOk), Absorb(v, e))
  {
    IdsAreKeys(e.users);
    NamesIntoIsUnion(f.names, e.users);
    var names := NamesOf(UserMap(e.users));
    assert f.names == map[] || f.names == names;
    assert f.names + names == names;
  }

  lemma NamesOfPut(users: Users, k: nat, u: UserInfo)
    ensures NamesOf(users[k := u]) == NamesOf(users)[k := u.name]
  {
  }

  lemma NamesOfDrop(users: Users, k: nat)
    ensures NamesOf(users - {k}) == NamesOf(users) - {k}
  {
  }

  lemma FollowStaysInStep(f: Follower, v: View, e: Event, addOk: bool)
    requires InStep(f, v) && Sensible(v, e)
    ensures InStep(Follow(f, e, addOk), Absorb(v, e))
  {
    match e {
      case Connected(_, _, _) => ConnectedIsInStep(f, v, e, addOk);
      case UserJoined(u) => NamesOfPut(v.users, u.sessionId, u);
      case UserLeft(id) => NamesOfDrop(v.users, id);
      case UserStateChanged(d) =>
        var u := v.users[d.sessionId];
        NamesOfPut(v.users, d.sessionId, Patch(u, d));
        assert d.name.None? ==> f.names[d.sessionId := u.name] == f.names;
      case _ =>
    }
  }

  lemma {:induction false} StaysInStep(acts: seq<Act>)
    requires AllSensible(Heard(acts))
    ensures InStep(After(acts), AbsorbAll(Heard(acts)))
  {
    if acts != [] {
      var init, a := acts[..|acts| - 1], acts[|acts| - 1];
      var es := Heard(init);
      if a.Hear? {
        HeardPrefix(acts);
        StaysInStep(init);
        FollowStaysInStep(After(init), AbsorbAll(es), a.e, a.addOk);
      } else {
        StaysInStep(init);
      }
    }
  }

  /**
   Once a session has handled all the events a client emitted, with `start_voice` calls at any
   points in between, its known speakers are the roster's ids without its own, and its name
   map is the roster's names.
   */
  lemma SessionMatchesRoster(arrivals: seq<Arrival>, acts: seq<Act>)
    requires TrueListings(arrivals) && Heard(acts) == Events(arrivals) && Roster.After(arrivals).connected
    ensures var f, users := After(acts), Roster.After(arrivals).users;
            f.own.Some? && f.known == users.Keys - {f.own.value} && f.names == NamesOf(users)
  {
    ClientIsSensible(arrivals);
    EventsRebuildRoster(arrivals);
    StaysInStep(acts);
  }

  // ---------------------------------------------------------------- tracks

  /** Every snapshot names the same own session id. */
  ghost predicate OneOwnId(es: seq<Event>, own: nat) {
    forall i | 0 <= i < |es| && es[i].Connected? :: es[i].own == own
  }

  lemma {:induction false} AddTracksAdds(tracks: set<nat>, order: seq<nat>, refused: set<nat>)
    ensures var (t, ok) := AddTracks(tracks, order, refused);
            && tracks <= t <= tracks + (set s | s in order)
            && (ok ==> t == tracks + (set s | s in order))
    decreases |order|
  {
    if order != [] {
      AddTracksAdds(tracks + {order[0]}, order[1..], refused);
      assert order == [order[0]] + order[1..];
    }
  }

  ghost predicate TracksOk(f: Follower, allAdded: bool) {
    f.tracks <= f.known && (f.started && allAdded ==> f.tracks == f.known)
  }

  lemma HearKeepsTracks(f: Follower, v: View, e: Event, addOk: bool, allAdded: bool)
    requires InStep(f, v) && Sensible(v, e) && TracksOk(f, allAdded) && (allAdded ==> addOk)
    requires e.Connected? && v.Synced? ==> e.own == v.own
    ensures TracksOk(Follow(f, e, addOk), allAdded)
  {
    if e.Connected? {
      IdsAreKeys(e.users);
    }
  }

  lemma StartKeepsTracks(f: Follower, order: seq<nat>, refused: set<nat>, allAdded: bool)
    requires TracksOk(f, allAdded) && (set s | s in order) == f.known
    ensures TracksOk(StartVoice(f, order, refused).0, allAdded)
  {
    AddTracksAdds(f.tracks, order, refused);
  }

  ghost predicate NoJoinRefused(acts: seq<Act>) {
    forall i | 0 <= i < |acts| && acts[i].Hear? :: acts[i].addOk
  }

  lemma {:induction false} OwnOfView(es: seq<Event>, own: nat)
    requires OneOwnId(es, own)
    ensures AbsorbAll(es).Synced? ==> AbsorbAll(es).own == own
  {
    if es != [] {
      OwnOfView(es[..|es| - 1], own);
    }
  }

  /**
   With one own id, every track belongs to a known speaker, however `start_voice` interleaves
   with joins and leaves and whichever additions fail; and once voice has started, with no
   later addition refused, the tracks are exactly the known speakers.
   */
  lemma {:induction false} TracksFollowSpeakers(acts: seq<Act>, own: nat)
    requires AllSensible(Heard(acts)) && OneOwnId(Heard(acts), own) && TrueOrders(acts)
    ensures TracksOk(After(acts), NoJoinRefused(acts))
  {
    if acts != [] {
      var init, a := acts[..|acts| - 1], acts[|acts| - 1];
      PrefixOrders(acts);
      HeardPrefix(acts);
      OneOwnPrefix(acts, own);
      TracksFollowSpeakers(init, own);
      StaysInStep(init);
      if NoJoinRefused(acts) {
        assert NoJoinRefused(init);
      }
      if a.Hear? {
        OwnOfView(Heard(init), own);
        assert Heard(acts)[|Heard(init)|] == a.e;
        HearKeepsTracks(After(init), AbsorbAll(Heard(init)), a.e, a.addOk, NoJoinRefused(acts));
      } else {
        StartKeepsTracks(After(init), a.order, a.refused, NoJoinRefused(acts));
      }
    }
  }

  /** This `start_voice` comes when our own id is known, and no known speaker without a track is refused. */
  predicate StartsVoice(f: Follower, a: Act) {
    a.Start? && f.own.Some? && forall s | s in a.order && s !in f.tracks :: s !in a.refused
  }

  lemma {:induction false} AddTracksSucceeds(tracks: set<nat>, order: seq<nat>, refused: set<nat>)
    ensures AddTracks(tracks, order, refused).1 <==> forall s | s in order && s !in tracks :: s !in refused
    decreases |order|
  {
    if order != [] {
      AddTracksSucceeds(tracks + {order[0]}, order[1..], refused);
      assert order == [order[0]] + order[1..];
    }
  }

  /** `start_voice` succeeds exactly if it starts voice or voice was started before, with our own id known. */
  lemma StartAnswers(f: Follower, a: Act)
    requires a.Start?
    ensures StartVoice(f, a.order, a.refused).1 <==> f.own.Some? && (f.started || StartsVoice(f, a))
    ensures StartVoice(f, a.order, a.refused).0.started <==> f.started || StartsVoice(f, a)
  {
    AddTracksSucceeds(f.tracks, a.order, a.refused);
  }

  ghost predicate StartsAt(acts: seq<Act>, i: int)
    requires 0 <= i < |acts|
  {
    StartsVoice(After(acts[..i]), acts[i])
  }

  /** After any run voice is started exactly if some `start_voice` in it started it. */
  lemma {:induction false} StartedExactly(acts: seq<Act>)
    ensures After(acts).started <==> exists i :: 0 <= i < |acts| && StartsAt(acts, i)
  {
    if acts != [] {
      var init, a := acts[..|acts| - 1], acts[|acts| - 1];
      StartedExactly(init);
      if a.Start? {
        StartAnswers(After(init), a);
      }
      assert StartsAt(acts, |acts| - 1) <==> StartsVoice(After(init), a);
      if i :| 0 <= i < |init| && StartsAt(init, i) {
        StartsEarlier(acts, i);
      }
      if i :| 0 <= i < |init| && StartsAt(acts, i) {
        StartsEarlier(acts, i);
      }
    }
  }

  lemma StartsEarlier(acts: seq<Act>, i: int)
    requires 0 <= i < |acts| - 1
    ensures StartsAt(acts[..|acts| - 1], i) <==> StartsAt(acts, i)
  {
    assert acts[..|acts| - 1][..i] == acts[..i];
  }

  /** Operation `i` is the one that started voice. */
  ghost predicate FirstStart(acts: seq<Act>, i: int) {
    0 <= i < |acts| && StartsAt(acts, i) && forall k | 0 <= k < i :: !StartsAt(acts, k)
  }

  lemma FirstStartEarlier(acts: seq<Act>, i: int)
    requires FirstStart(acts, i) && i < |acts| - 1
    ensures FirstStart(acts[..|acts| - 1], i)
  {
    var init := acts[..|acts| - 1];
    StartsEarlier(acts, i);
    forall k | 0 <= k < i
      ensures !StartsAt(init, k)
    {
      StartsEarlier(acts, k);
      assert !StartsAt(acts, k);
    }
  }

  /** The `start_voice` that starts voice gives every known speaker a track. */
  lemma FirstStartAddsAll(acts: seq<Act>, own: nat)
    requires acts != [] && FirstStart(acts, |acts| - 1)
    requires AllSensible(Heard(acts)) && OneOwnId(Heard(acts), own) && TrueOrders(acts)
    ensures After(acts).started && After(acts).tracks == After(acts).known
  {
    var init, a := acts[..|acts| - 1], acts[|acts| - 1];
    StartedExactly(init);
    if i :| 0 <= i < |init| && StartsAt(init, i) {
      StartsEarlier(acts, i);
    }
    assert StartsVoice(After(init), a);
    StartAnswers(After(init), a);
    PrefixOrders(acts);
    HeardPrefix(acts);
    TracksFollowSpeakers(init, own);
    AddTracksAdds(After(init).tracks, a.order, a.refused);
  }

  /**
   From the `start_voice` that started voice on, as long as no later join is refused, every known
   speaker has a track and nobody else does.
   */
  lemma {:induction false} TracksEqualAfterStart(acts: seq<Act>, own: nat, i: nat)
    requires AllSensible(Heard(acts)) && OneOwnId(Heard(acts), own) && TrueOrders(acts) && FirstStart(acts, i)
    requires forall k | i < k < |acts| && acts[k].Hear? :: acts[k].addOk
    ensures After(acts).started && After(acts).tracks == After(acts).known
  {
    if i == |acts| - 1 {
      FirstStartAddsAll(acts, own);
    } else {
      var init, a := acts[..|acts| - 1], acts[|acts| - 1];
      PrefixOrders(acts);
      HeardPrefix(acts);
      OneOwnPrefix(acts, own);
      FirstStartEarlier(acts, i);
      TracksEqualAfterStart(init, own, i);
      StaysInStep(init);
      if a.Hear? {
        OwnOfView(Heard(init), own);
        assert Heard(acts)[|Heard(init)|] == a.e;
        HearKeepsTracks(After(init), AbsorbAll(Heard(init)), a.e, a.addOk, true);
        HearKeepsStarted(After(init), a.e, a.addOk);
      }
    }
  }

  lemma HearKeepsStarted(f: Follower, e: Event, addOk: bool)
    ensures Follow(f, e, addOk).started == f.started
  {
  }

  lemma OneOwnPrefix(acts: seq<Act>, own: nat)
    requires acts != [] && OneOwnId(Heard(acts), own)
    ensures OneOwnId(Heard(acts[..|acts| - 1]), own)
  {
    var es := Heard(acts[..|acts| - 1]);
    forall i | 0 <= i < |es| && es[i].Connected?
      ensures es[i].own == own
    {
      assert Heard(acts)[i] == es[i];
    }
  }

  lemma ClientPrefixIsSensible(arrivals: seq<Arrival>, es: seq<Event>)
    requires TrueListings(arrivals) && es <= Events(arrivals)
    ensures AllSensible(es)
  {
    ClientIsSensible(arrivals);
    SensiblePrefix(es, Events(arrivals));
  }

  lemma ClientPrefixIsOurs(arrivals: seq<Arrival>, acts: seq<Act>, own: nat)
    requires TrueListings(arrivals) && Heard(acts) <= Events(arrivals) && OneOwnId(Events(arrivals), own)
    ensures AllSensible(Heard(acts)) && OneOwnId(Heard(acts), own)
  {
    var es, all := Heard(acts), Events(arrivals);
    ClientPrefixIsSensible(arrivals, es);
    assert forall i | 0 <= i < |es| :: es[i] == all[i];
  }

  /** The same for the events of a client whose ServerSyncs all name one own id, handled as far as they may be. */
  lemma ClientTracksFollow(arrivals: seq<Arrival>, acts: seq<Act>, own: nat)
    requires TrueListings(arrivals) && Heard(acts) <= Events(arrivals)
    requires OneOwnId(Events(arrivals), own) && TrueOrders(acts)
    ensures TracksOk(After(acts), NoJoinRefused(acts))
    ensures forall i | FirstStart(acts, i) && (forall k | i < k < |acts| && acts[k].Hear? :: acts[k].addOk) ::
              After(acts).tracks == After(acts).known
  {
    ClientPrefixIsOurs(arrivals, acts, own);
    TracksFollowSpeakers(acts, own);
    forall i | FirstStart(acts, i) && (forall k | i < k < |acts| && acts[k].Hear? :: acts[k].addOk)
      ensures After(acts).tracks == After(acts).known
    {
      TracksEqualAfterStart(acts, own, i);
    }
  }

  /** A snapshot with another own id leaves a track without a known speaker exactly if that id has one. */
  lemma RenumberingExactly(f: Follower, v: View, e: Event, addOk: bool)
    requires InStep(f, v) && v.Synced? && f.tracks <= f.known && e.Connected? && Sensible(v, e)
    ensures Follow(f, e, addOk).tracks <= Follow(f, e, addOk).known <==> e.own !in f.tracks
  {
    IdsAreKeys(e.users);
  }

  /** A snapshot names as our own a user who already has a track. */
  predicate Renumbers(f: Follower, a: Act) {
    a.Hear? && a.e.Connected? && a.e.own in f.tracks
  }

  predicate Within(f: Follower) {
    f.tracks <= f.known
  }

  lemma ActStaysWithin(f: Follower, v: View, a: Act)
    requires InStep(f, v) && Within(f) && (a.Hear? ==> Sensible(v, a.e))
    requires a.Start? ==> (set s | s in a.order) == f.known
    ensures Within(Do(f, a)) <==> !Renumbers(f, a)
  {
    if a.Start? {
      StartKeepsTracks(f, a.order, a.refused, false);
    } else if a.e.Connected? && v.Synced? {
      RenumberingExactly(f, v, a.e, a.addOk);
    } else {
      HearKeepsTracks(f, v, a.e, a.addOk, false);
    }
  }

  lemma {:induction false} HeardIsPrefix(acts: seq<Act>, n: nat)
    requires n <= |acts|
    ensures Heard(acts[..n]) <= Heard(acts)
  {
    if n == |acts| {
      assert acts[..n] == acts;
    } else {
      HeardIsPrefix(acts[..|acts| - 1], n);
      assert acts[..|acts| - 1][..n] == acts[..n];
    }
  }

  lemma ActAt(acts: seq<Act>, n: nat)
    requires n < |acts| && AllSensible(Heard(acts)) && TrueOrders(acts) && Within(After(acts[..n]))
    ensures Within(After(acts[..n + 1])) <==> !Renumbers(After(acts[..n]), acts[n])
  {
    var p := acts[..n + 1];
    assert p[..|p| - 1] == acts[..n] && p[n] == acts[n];
    HeardIsPrefix(acts, n + 1);
    SensiblePrefix(Heard(p), Heard(acts));
    HeardPrefix(p);
    StaysInStep(acts[..n]);
    assert acts[n].Start? ==> (set s | s in acts[n].order) == After(acts[..n]).known;
    ActStaysWithin(After(acts[..n]), AbsorbAll(Heard(acts[..n])), acts[n]);
  }

  lemma {:induction false} NoRenumberingStaysWithin(acts: seq<Act>, n: nat)
    requires n <= |acts| && AllSensible(Heard(acts)) && TrueOrders(acts)
    requires forall i | 0 <= i < |acts| :: !Renumbers(After(acts[..i]), acts[i])
    ensures Within(After(acts[..n]))
  {
    if n > 0 {
      NoRenumberingStaysWithin(acts, n - 1);
      ActAt(acts, n - 1);
    }
  }

  /**
   Tracks belong to known speakers at every point of a run, whatever else happens in it, exactly
   if no snapshot in it names as our own a user who already has a track.
   */
  lemma TracksWithinExactly(arrivals: seq<Arrival>, acts: seq<Act>)
    requires TrueListings(arrivals) && Heard(acts) <= Events(arrivals) && TrueOrders(acts)
    ensures (forall n | 0 <= n <= |acts| :: Within(After(acts[..n])))
       <==> (forall i | 0 <= i < |acts| :: !Renumbers(After(acts[..i]), acts[i]))
  {
    ClientPrefixIsSensible(arrivals, Heard(acts));
    if forall i | 0 <= i < |acts| :: !Renumbers(After(acts[..i]), acts[i]) {
      forall n | 0 <= n <= |acts|
        ensures Within(After(acts[..n]))
      {
        NoRenumberingStaysWithin(acts, n);
      }
    } else {
      var i :| 0 <= i < |acts| && Renumbers(After(acts[..i]), acts[i]);
      if Within(After(acts[..i])) {
        ActAt(acts, i);
      }
    }
  }

  const SECOND := UserInfo(2, "b", 0, false, false, false, false)
  const LISTING := Listing([], [SECOND])

  /** User 2 is announced, then two ServerSyncs call us 1 and 2. */
  const PACKETS := [
    Arrival(UserStatePacket(UserState(Some(2), Some("b"), None, None, None, None, None)), Listing([], [])),
    Arrival(ServerSync(1), LISTING),
    Arrival(ServerSync(2), LISTING)]

  lemma PacketsAnnounce()
    ensures Roster.After(PACKETS[..1]).users == map[2 := SECOND] && Roster.After(PACKETS[..1]).channels == map[]
    ensures Roster.After(PACKETS[..2]).users == map[2 := SECOND] && Roster.After(PACKETS[..2]).channels == map[]
    ensures Events(PACKETS) == [Connected(1, [], [SECOND]), Connected(2, [], [SECOND])]
  {
    RunNext(PACKETS, 0);
    RunNext(PACKETS, 1);
    RunNext(PACKETS, 2);
    assert PACKETS[..3] == PACKETS;
  }

  lemma PacketsListTruly()
    ensures TrueListings(PACKETS)
  {
    PacketsAnnounce();
    assert SECOND in LISTING.users;
  }

  const FIRST_SYNC := Hear(Connected(1, [], [SECOND]), true)
  const SECOND_SYNC := Hear(Connected(2, [], [SECOND]), true)

  /** Voice starts between the two. */
  const RENUMBERING := [FIRST_SYNC, Start([2], {}), SECOND_SYNC]

  lemma ActNext(acts: seq<Act>, i: int)
    requires 0 <= i < |acts|
    ensures After(acts[..i + 1]) == Do(After(acts[..i]), acts[i])
    ensures Heard(acts[..i + 1]) == Heard(acts[..i]) + if acts[i].Hear? then [acts[i].e] else []
  {
    assert acts[..i + 1][..i] == acts[..i];
  }

  lemma RenumberingStates()
    ensures After(RENUMBERING[..1]).known == {2} && After(RENUMBERING[..1]).own == Some(1)
    ensures After(RENUMBERING[..2]).tracks == {2}
    ensures After(RENUMBERING[..3]).tracks == {2} && 2 !in After(RENUMBERING[..3]).known
  {
    ActNext(RENUMBERING, 0);
    assert Ids([SECOND]) == {2} by {
      assert SECOND in [SECOND];
    }
    ActNext(RENUMBERING, 1);
    AddTracksAdds({}, [2], {});
    assert [2][1..] == [] && AddTracks({} + {2}, [], {}).1;
    ActNext(RENUMBERING, 2);
  }

  lemma RenumberingHears()
    ensures Heard(RENUMBERING) == [FIRST_SYNC.e, SECOND_SYNC.e]
  {
    ActNext(RENUMBERING, 0);
    ActNext(RENUMBERING, 1);
    ActNext(RENUMBERING, 2);
    assert RENUMBERING[..3] == RENUMBERING;
  }

  /** It does happen: user 2 keeps a track but is no speaker any more. */
  lemma RenumberingWitness()
    ensures TrueListings(PACKETS) && Heard(RENUMBERING) == Events(PACKETS) && TrueOrders(RENUMBERING)
    ensures !Within(After(RENUMBERING))
  {
    PacketsAnnounce();
    PacketsListTruly();
    RenumberingHears();
    RenumberingStates();
    assert RENUMBERING[..3] == RENUMBERING;
    assert (set s | s in [2]) == {2};
  }
}
