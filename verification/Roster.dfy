/**
 The Mumble control client of `src/mumble/client.rs`: it keeps the user and channel maps and
 turns control packets into events, from which everyone downstream rebuilds those maps.
 */
module Roster {
  import opened Common
  import opened Bits

  datatype ChannelInfo = ChannelInfo(id: nat, name: string, parentId: nat, description: string)

  datatype UserInfo = UserInfo(
    sessionId: nat, name: string, channelId: nat, mute: bool, deaf: bool, selfMute: bool, selfDeaf: bool)

  /** A partial update: absent fields keep their value. */
  datatype UserStateData = UserStateData(
    sessionId: nat, channelId: Option<nat>, name: Option<string>,
    mute: Option<bool>, deaf: Option<bool>, selfMute: Option<bool>, selfDeaf: Option<bool>)

  /** Wire messages; a getter on an absent field gives zero, false or the empty string. */
  datatype ChannelState = ChannelState(
    channelId: Option<nat>, name: Option<string>, parent: Option<nat>, description: Option<string>)

  datatype UserState = UserState(
    session: Option<nat>, name: Option<string>, channelId: Option<nat>,
    mute: Option<bool>, deaf: Option<bool>, selfMute: Option<bool>, selfDeaf: Option<bool>)

  datatype CryptSetup = CryptSetup(key: seq<Byte>, clientNonce: seq<Byte>, serverNonce: seq<Byte>)

  datatype Packet =
    | ChannelStatePacket(channel: ChannelState)
    | ChannelRemove(channelId: nat)
    | UserStatePacket(user: UserState)
    | UserRemove(session: nat)
    | CryptSetupPacket(crypt: CryptSetup)
    | ServerSync(session: nat)
    | TextMessage(actor: nat, channels: seq<nat>, message: string)
    | Reject(reason: string)
    | OtherPacket

  datatype Reason = InvalidSize(field: string, expected: nat, got: nat) | Rejected(text: string)

  datatype Event =
    | Connected(own: nat, channels: seq<ChannelInfo>, users: seq<UserInfo>)
    | UserJoined(user: UserInfo)
    | UserLeft(sessionId: nat)
    | UserStateChanged(state: UserStateData)
    | ChannelAdded(channel: ChannelInfo)
    | ChannelUpdated(channel: ChannelInfo)
    | ChannelRemoved(channelId: nat)
    | ChatMessage(sender: nat, channelId: nat, message: string)
    | Disconnected(reason: Reason)

  const KEY_SIZE: nat := 16
  const BLOCK_SIZE: nat := 16

  datatype CryptState = CryptState(key: seq<Byte>, clientNonce: seq<Byte>, serverNonce: seq<Byte>)

  function FixedSize(bytes: seq<Byte>, size: nat, field: string): Result<seq<Byte>, Reason> {
    if |bytes| == size then Success(bytes) else Failure(InvalidSize(field, size, |bytes|))
  }

  /** Usable exactly if all three fields have their fixed size; otherwise the first wrong one is named. */
  function CryptFromMessage(m: CryptSetup): (r: Result<CryptState, Reason>)
    ensures r.Success? <==> |m.key| == 16 && |m.clientNonce| == 16 && |m.serverNonce| == 16
    ensures r.Success? ==> r.value == CryptState(m.key, m.clientNonce, m.serverNonce)
    ensures r.Failure? ==>
              || (|m.key| != 16 && r.error == InvalidSize("key", 16, |m.key|))
              || (|m.key| == 16 && |m.clientNonce| != 16
                  && r.error == InvalidSize("client nonce", 16, |m.clientNonce|))
              || (|m.key| == 16 && |m.clientNonce| == 16
                  && r.error == InvalidSize("server nonce", 16, |m.serverNonce|))
  {
    var key := FixedSize(m.key, KEY_SIZE, "key");
    if key.Failure? then Failure(key.error)
    else
      var client := FixedSize(m.clientNonce, BLOCK_SIZE, "client nonce");
      if client.Failure? then Failure(client.error)
      else
        var server := FixedSize(m.serverNonce, BLOCK_SIZE, "server nonce");
        if server.Failure? then Failure(server.error)
        else Success(CryptState(key.value, client.value, server.value))
  }

  function ChannelOf(m: ChannelState): ChannelInfo {
    ChannelInfo(m.channelId.GetOr(0), m.name.GetOr(""), m.parent.GetOr(0), m.description.GetOr(""))
  }

  function UserOf(m: UserState): UserInfo {
    UserInfo(m.session.GetOr(0), m.name.GetOr(""), m.channelId.GetOr(0),
             m.mute.GetOr(false), m.deaf.GetOr(false), m.selfMute.GetOr(false), m.selfDeaf.GetOr(false))
  }

  function UpdateOf(m: UserState): UserStateData {
    UserStateData(m.session.GetOr(0), m.channelId, m.name, m.mute, m.deaf, m.selfMute, m.selfDeaf)
  }

  function MergeUserState(u: UserInfo, m: UserState): UserInfo {
    UserInfo(
      u.sessionId,
      if m.name.Some? then m.name.value else u.name,
      if m.channelId.Some? then m.channelId.value else u.channelId,
      if m.mute.Some? then m.mute.value else u.mute,
      if m.deaf.Some? then m.deaf.value else u.deaf,
      if m.selfMute.Some? then m.selfMute.value else u.selfMute,
      if m.selfDeaf.Some? then m.selfDeaf.value else u.selfDeaf)
  }

  type Channels = map<nat, ChannelInfo>
  type Users = map<nat, UserInfo>

  /** Everything the connection loop keeps; `delivered` is what went out over the one-shot channel. */
  datatype Client = Client(
    channels: Channels, users: Users, connected: bool,
    crypt: Option<CryptState>, cryptTx: bool, delivered: seq<CryptState>)

  const INIT := Client(map[], map[], false, None, true, [])

  /** The order in which the hash maps happen to list their values. */
  datatype Listing = Listing(channels: seq<ChannelInfo>, users: seq<UserInfo>)

  /** Every value of the map, once, in some order. */
  ghost predicate ListsUsers(us: seq<UserInfo>, m: Users) {
    && (forall i | 0 <= i < |us| :: us[i].sessionId in m && m[us[i].sessionId] == us[i])
    && (forall k | k in m :: m[k] in us)
    && (forall i, j | 0 <= i < j < |us| :: us[i].sessionId != us[j].sessionId)
  }

  ghost predicate ListsChannels(cs: seq<ChannelInfo>, m: Channels) {
    && (forall i | 0 <= i < |cs| :: cs[i].id in m && m[cs[i].id] == cs[i])
    && (forall k | k in m :: m[k] in cs)
    && (forall i, j | 0 <= i < j < |cs| :: cs[i].id != cs[j].id)
  }

  ghost predicate Lists(l: Listing, c: Client) {
    ListsUsers(l.users, c.users) && ListsChannels(l.channels, c.channels)
  }

  /** The client after a packet, and the events it emits. */
  function Handle(c: Client, p: Packet, l: Listing): (Client, seq<Event>) {
    match p
    case ChannelStatePacket(m) =>
      var info := ChannelOf(m);
      var c' := c.(channels := c.channels[info.id := info]);
      (c', if !c.connected then [] else if info.id in c.channels then [ChannelUpdated(info)] else [ChannelAdded(info)])
    case ChannelRemove(id) =>
      (c.(channels := c.channels - {id}), if c.connected then [ChannelRemoved(id)] else [])
    case UserStatePacket(m) =>
      var info := UserOf(m);
      if !c.connected then (c.(users := c.users[info.sessionId := info]), [])
      else if info.sessionId in c.users then
        (c.(users := c.users[info.sessionId := MergeUserState(c.users[info.sessionId], m)]), [UserStateChanged(UpdateOf(m))])
      else (c.(users := c.users[info.sessionId := info]), [UserJoined(info)])
    case UserRemove(id) =>
      (c.(users := c.users - {id}), if c.connected then [UserLeft(id)] else [])
    case CryptSetupPacket(m) =>
      (match CryptFromMessage(m)
       case Success(cs) => (c.(crypt := Some(cs)), [])
       case Failure(reason) => (c, [Disconnected(reason)]))
    case ServerSync(own) =>
      var sends := c.crypt.Some? && c.cryptTx;
      (c.(connected := true, crypt := None,
          cryptTx := c.cryptTx && !sends,
          delivered := if sends then c.delivered + [c.crypt.value] else c.delivered),
       [Connected(own, l.channels, l.users)])
    case TextMessage(actor, channels, message) =>
      (c, [ChatMessage(actor, if channels == [] then 0 else channels[0], message)])
    case Reject(text) => (c, [Disconnected(Rejected(text))])
    case OtherPacket => (c, [])
  }

  /** The connection loop goes on unless the crypt setup was malformed. */
  predicate KeepsRunning(p: Packet) {
    p.CryptSetupPacket? ==> CryptFromMessage(p.crypt).Success?
  }

  class MumbleClient {
    var channels: Channels
    var users: Users
    var connected: bool
    var crypt: Option<CryptState>
    var cryptTx: bool
    var delivered: seq<CryptState>

    ghost function Value(): Client
      reads this
    {
      Client(channels, users, connected, crypt, cryptTx, delivered)
    }

    constructor ()
      ensures Value() == INIT
    {
      channels, users, connected, crypt, cryptTx, delivered := map[], map[], false, None, true, [];
    }

    /** The values of the user map, in hash order. */
    method ListUsers() returns (us: seq<UserInfo>)
      requires KeysMatch(Value())
      ensures ListsUsers(us, users)
    {
      us := [];
      var left := users.Keys;
      while left != {}
        invariant left <= users.Keys
        invariant forall i | 0 <= i < |us| :: us[i].sessionId in users && users[us[i].sessionId] == us[i]
        invariant forall k | k in users && k !in left :: users[k] in us
        invariant forall i | 0 <= i < |us| :: us[i].sessionId !in left
        invariant forall i, j | 0 <= i < j < |us| :: us[i].sessionId != us[j].sessionId
        decreases |left|
      {
        var k :| k in left;
        us := us + [users[k]];
        left := left - {k};
      }
    }

    /** The values of the channel map, in hash order. */
    method ListChannels() returns (cs: seq<ChannelInfo>)
      requires KeysMatch(Value())
      ensures ListsChannels(cs, channels)
    {
      cs := [];
      var left := channels.Keys;
      while left != {}
        invariant left <= channels.Keys
        invariant forall i | 0 <= i < |cs| :: cs[i].id in channels && channels[cs[i].id] == cs[i]
        invariant forall k | k in channels && k !in left :: channels[k] in cs
        invariant forall i | 0 <= i < |cs| :: cs[i].id !in left
        invariant forall i, j | 0 <= i < j < |cs| :: cs[i].id != cs[j].id
        decreases |left|
      {
        var k :| k in left;
        cs := cs + [channels[k]];
        left := left - {k};
      }
    }

    /** The values of both maps. */
    method Snapshot() returns (l: Listing)
      requires KeysMatch(Value())
      ensures Lists(l, Value())
    {
      var cs := ListChannels();
      var us := ListUsers();
      l := Listing(cs, us);
    }

    method HandleControlPacket(p: Packet) returns (keep: bool, events: seq<Event>, l: Listing)
      requires KeysMatch(Value())
      modifies this
      ensures KeysMatch(Value())
      ensures p.ServerSync? ==> Lists(l, old(Value()))
      ensures (Value(), events) == Handle(old(Value()), p, l)
      ensures keep == KeepsRunning(p)
    {
      HandleKeepsKeys(Value(), p, Listing([], []));
      l := Listing([], []);
      events := [];
      keep := true;
      match p {
        case ChannelStatePacket(m) =>
          var info := ChannelOf(m);
          if connected {
            events := [if info.id in channels then ChannelUpdated(info) else ChannelAdded(info)];
          }
          channels := channels[info.id := info];
        case ChannelRemove(id) =>
          channels := channels - {id};
          if connected {
            events := [ChannelRemoved(id)];
          }
        case UserStatePacket(m) =>
          var info := UserOf(m);
          var id := info.sessionId;
          if !connected {
            users := users[id := info];
          } else if id in users {
            users := users[id := MergeUserState(users[id], m)];
            events := [UserStateChanged(UpdateOf(m))];
          } else {
            users := users[id := info];
            events := [UserJoined(info)];
          }
        case UserRemove(id) =>
          users := users - {id};
          if connected {
            events := [UserLeft(id)];
          }
        case CryptSetupPacket(m) =>
          var r := CryptFromMessage(m);
          if r.Success? {
            crypt := Some(r.value);
          } else {
            events := [Disconnected(r.error)];
            keep := false;
          }
        case ServerSync(own) =>
          connected := true;
          if crypt.Some? {
            if cryptTx {
              cryptTx := false;
              delivered := delivered + [crypt.value];
            }
            crypt := None;
          }
          l := Snapshot();
          events := [Connected(own, l.channels, l.users)];
        case TextMessage(actor, targets, message) =>
          events := [ChatMessage(actor, if targets == [] then 0 else targets[0], message)];
        case Reject(text) =>
          events := [Disconnected(Rejected(text))];
        case OtherPacket =>
      }
    }
  }

  /** Every value is stored under its own id. */
  ghost predicate KeysMatch(c: Client) {
    && (forall k | k in c.users :: c.users[k].sessionId == k)
    && (forall k | k in c.channels :: c.channels[k].id == k)
  }

  lemma HandleKeepsKeys(c: Client, p: Packet, l: Listing)
    requires KeysMatch(c)
    ensures KeysMatch(Handle(c, p, l).0)
  {
  }

  // ---------------------------------------------------------------- runs

  datatype Arrival = Arrival(p: Packet, l: Listing)

  function After(arrivals: seq<Arrival>): Client {
    if arrivals == [] then INIT
    else Handle(After(arrivals[..|arrivals| - 1]), arrivals[|arrivals| - 1].p, arrivals[|arrivals| - 1].l).0
  }

  function Events(arrivals: seq<Arrival>): seq<Event> {
    if arrivals == [] then []
    else
      var init, last := arrivals[..|arrivals| - 1], arrivals[|arrivals| - 1];
      Events(init) + Handle(After(init), last.p, last.l).1
  }

  lemma RunNext(arrivals: seq<Arrival>, i: int)
    requires 0 <= i < |arrivals|
    ensures var c, a := After(arrivals[..i]), arrivals[i];
            && After(arrivals[..i + 1]) == Handle(c, a.p, a.l).0
            && Events(arrivals[..i + 1]) == Events(arrivals[..i]) + Handle(c, a.p, a.l).1
  {
    assert arrivals[..i + 1][..i] == arrivals[..i];
  }

  /** The listing a snapshot is made from really lists the maps of its moment. */
  ghost predicate TrueListings(arrivals: seq<Arrival>) {
    forall i | 0 <= i < |arrivals| && arrivals[i].p.ServerSync? :: Lists(arrivals[i].l, After(arrivals[..i]))
  }

  lemma PrefixListings(arrivals: seq<Arrival>)
    requires arrivals != [] && TrueListings(arrivals)
    ensures TrueListings(arrivals[..|arrivals| - 1])
  {
    var init := arrivals[..|arrivals| - 1];
    forall i | 0 <= i < |init| && init[i].p.ServerSync?
      ensures Lists(init[i].l, After(init[..i]))
    {
      assert init[..i] == arrivals[..i];
    }
  }

  lemma {:induction false} KeysAlwaysMatch(arrivals: seq<Arrival>)
    ensures KeysMatch(After(arrivals))
  {
    if arrivals != [] {
      KeysAlwaysMatch(arrivals[..|arrivals| - 1]);
      HandleKeepsKeys(After(arrivals[..|arrivals| - 1]), arrivals[|arrivals| - 1].p, arrivals[|arrivals| - 1].l);
    }
  }

  // ---------------------------------------------------------------- rebuilding the maps downstream

  datatype View = Waiting | Synced(own: nat, channels: Channels, users: Users)

  function UserMap(us: seq<UserInfo>): Users {
    if us == [] then map[] else UserMap(us[..|us| - 1])[us[|us| - 1].sessionId := us[|us| - 1]]
  }

  function ChannelMap(cs: seq<ChannelInfo>): Channels {
    if cs == [] then map[] else ChannelMap(cs[..|cs| - 1])[cs[|cs| - 1].id := cs[|cs| - 1]]
  }

  /** Only the fields that are present change. */
  function Patch(u: UserInfo, d: UserStateData): UserInfo {
    UserInfo(u.sessionId, d.name.GetOr(u.name), d.channelId.GetOr(u.channelId),
             d.mute.GetOr(u.mute), d.deaf.GetOr(u.deaf), d.selfMute.GetOr(u.selfMute), d.selfDeaf.GetOr(u.selfDeaf))
  }

  /** How a listener that knows nothing but the events keeps its copy. */
  function Absorb(v: View, e: Event): View {
    match e
    case Connected(own, cs, us) => Synced(own, ChannelMap(cs), UserMap(us))
    case UserJoined(u) => if v.Synced? then v.(users := v.users[u.sessionId := u]) else v
    case UserLeft(id) => if v.Synced? then v.(users := v.users - {id}) else v
    case UserStateChanged(d) =>
      if v.Synced? && d.sessionId in v.users then v.(users := v.users[d.sessionId := Patch(v.users[d.sessionId], d)]) else v
    case ChannelAdded(ch) => if v.Synced? then v.(channels := v.channels[ch.id := ch]) else v
    case ChannelUpdated(ch) => if v.Synced? then v.(channels := v.channels[ch.id := ch]) else v
    case ChannelRemoved(id) => if v.Synced? then v.(channels := v.channels - {id}) else v
    case ChatMessage(_, _, _) => v
    case Disconnected(_) => v
  }

  function AbsorbAll(es: seq<Event>): View {
    if es == [] then Waiting else Absorb(AbsorbAll(es[..|es| - 1]), es[|es| - 1])
  }

  lemma {:induction false} UserMapOf(us: seq<UserInfo>)
    ensures forall k | k in UserMap(us) :: UserMap(us)[k] in us && UserMap(us)[k].sessionId == k
    ensures forall u | u in us :: u.sessionId in UserMap(us)
  {
    if us != [] {
      UserMapOf(us[..|us| - 1]);
      assert us == us[..|us| - 1] + [us[|us| - 1]];
    }
  }

  lemma {:induction false} ChannelMapOf(cs: seq<ChannelInfo>)
    ensures forall k | k in ChannelMap(cs) :: ChannelMap(cs)[k] in cs && ChannelMap(cs)[k].id == k
    ensures forall c | c in cs :: c.id in ChannelMap(cs)
  {
    if cs != [] {
      ChannelMapOf(cs[..|cs| - 1]);
      assert cs == cs[..|cs| - 1] + [cs[|cs| - 1]];
    }
  }

  /** A listing of a map, in any order, rebuilds the map. */
  lemma ListingRebuilds(l: Listing, c: Client)
    requires Lists(l, c) && KeysMatch(c)
    ensures UserMap(l.users) == c.users && ChannelMap(l.channels) == c.channels
  {
    UserMapOf(l.users);
    ChannelMapOf(l.channels);
    forall k | k in c.users
      ensures k in UserMap(l.users)
    {
      assert c.users[k] in l.users;
    }
    forall k | k in c.channels
      ensures k in ChannelMap(l.channels)
    {
      assert c.channels[k] in l.channels;
    }
    assert UserMap(l.users) == c.users;
    assert ChannelMap(l.channels) == c.channels;
  }

  /** The copy downstream is the client's own maps, from the first snapshot on. */
  ghost predicate Mirrors(v: View, c: Client) {
    if c.connected then v.Synced? && v.channels == c.channels && v.users == c.users else v == Waiting
  }

  lemma AbsorbSnoc(es: seq<Event>, more: seq<Event>)
    requires |more| <= 1
    ensures AbsorbAll(es + more) == if more == [] then AbsorbAll(es) else Absorb(AbsorbAll(es), more[0])
  {
    if more == [] {
      assert es + more == es;
    } else {
      assert (es + more)[..|es|] == es;
    }
  }

  lemma PatchIsMerge(u: UserInfo, m: UserState)
    ensures Patch(u, UpdateOf(m)) == MergeUserState(u, m)
  {
  }

  lemma HandleMirrors(v: View, c: Client, p: Packet, l: Listing)
    requires Mirrors(v, c) && KeysMatch(c) && (p.ServerSync? ==> Lists(l, c))
    ensures var (c', es) := Handle(c, p, l);
            |es| <= 1 && Mirrors(if es == [] then v else Absorb(v, es[0]), c')
  {
    if p.ServerSync? {
      ListingRebuilds(l, c);
    } else if p.UserStatePacket? && p.user.session.GetOr(0) in c.users {
      PatchIsMerge(c.users[p.user.session.GetOr(0)], p.user);
    }
  }

  /**
   At every point of every run, folding the events emitted so far rebuilds exactly the
   client's user and channel maps (and nothing before the first snapshot).
   */
  lemma {:induction false} EventsRebuildRoster(arrivals: seq<Arrival>)
    requires TrueListings(arrivals)
    ensures Mirrors(AbsorbAll(Events(arrivals)), After(arrivals))
  {
    if arrivals != [] {
      var init, a := arrivals[..|arrivals| - 1], arrivals[|arrivals| - 1];
      PrefixListings(arrivals);
      EventsRebuildRoster(init);
      KeysAlwaysMatch(init);
      assert a.p.ServerSync? ==> Lists(a.l, After(init));
      HandleMirrors(AbsorbAll(Events(init)), After(init), a.p, a.l);
      AbsorbSnoc(Events(init), Handle(After(init), a.p, a.l).1);
    }
  }

  // ---------------------------------------------------------------- order of events, crypt delivery

  predicate IsRosterEvent(e: Event) {
    e.UserJoined? || e.UserLeft? || e.UserStateChanged? || e.ChannelAdded? || e.ChannelUpdated? || e.ChannelRemoved?
  }

  ghost predicate HasConnected(es: seq<Event>) {
    exists i :: 0 <= i < |es| && es[i].Connected?
  }

  /** No user or channel event comes before the first Connected. */
  lemma {:induction false} ConnectedComesFirst(arrivals: seq<Arrival>, i: nat)
    requires i < |Events(arrivals)| && IsRosterEvent(Events(arrivals)[i])
    ensures HasConnected(Events(arrivals)[..i])
  {
    var init := arrivals[..|arrivals| - 1];
    var es, all := Events(init), Events(arrivals);
    if i < |es| {
      ConnectedComesFirst(init, i);
      assert all[..i] == es[..i];
    } else {
      ConnectedWasEmitted(init);
      assert all[..i] == es;
    }
  }

  lemma {:induction false} ConnectedWasEmitted(arrivals: seq<Arrival>)
    ensures After(arrivals).connected ==> HasConnected(Events(arrivals))
  {
    if arrivals != [] && After(arrivals).connected {
      var init := arrivals[..|arrivals| - 1];
      ConnectedWasEmitted(init);
      if After(init).connected {
        var i :| 0 <= i < |Events(init)| && Events(init)[i].Connected?;
        assert Events(arrivals)[i] == Events(init)[i];
      } else {
        assert Events(arrivals)[|Events(arrivals)| - 1].Connected?;
      }
    }
  }

  // ---------------------------------------------------------------- the maps say what the server said

  predicate IsSync(a: Arrival) {
    a.p.ServerSync?
  }

  lemma {:induction false} ConnectedExactly(arrivals: seq<Arrival>)
    ensures After(arrivals).connected <==> exists i :: 0 <= i < |arrivals| && IsSync(arrivals[i])
  {
    if arrivals != [] {
      ConnectedExactly(arrivals[..|arrivals| - 1]);
      HandleConnects(After(arrivals[..|arrivals| - 1]), arrivals[|arrivals| - 1].p, arrivals[|arrivals| - 1].l);
      assert arrivals == arrivals[..|arrivals| - 1] + [arrivals[|arrivals| - 1]];
      if IsSync(arrivals[|arrivals| - 1]) {
        assert IsSync(arrivals[|arrivals| - 1]);
      }
    }
  }

  lemma HandleConnects(c: Client, p: Packet, l: Listing)
    ensures Handle(c, p, l).0.connected <==> c.connected || p.ServerSync?
  {
  }

  /** The last packet about this user was a UserState, not a UserRemove. */
  predicate UserStands(arrivals: seq<Arrival>, id: nat) {
    if arrivals == [] then false
    else
      var was := UserStands(arrivals[..|arrivals| - 1], id);
      match arrivals[|arrivals| - 1].p
      case UserStatePacket(m) => was || m.session.GetOr(0) == id
      case UserRemove(x) => was && x != id
      case _ => was
  }

  /**
   What was last said about one field of a user.  After the first ServerSync a UserState without
   the field says nothing; before it, or about a new user, it means the blank value.
   */
  function LastSaid<T>(arrivals: seq<Arrival>, id: nat, field: UserState -> Option<T>, blank: T): T {
    if arrivals == [] then blank
    else
      var init := arrivals[..|arrivals| - 1];
      var before := LastSaid(init, id, field, blank);
      match arrivals[|arrivals| - 1].p
      case UserStatePacket(m) =>
        if m.session.GetOr(0) != id then before
        else if field(m).Some? then field(m).value
        else if After(init).connected && UserStands(init, id) then before
        else blank
      case _ => before
  }

  function NameIn(m: UserState): Option<string> { m.name }
  function ChannelIn(m: UserState): Option<nat> { m.channelId }
  function MuteIn(m: UserState): Option<bool> { m.mute }
  function DeafIn(m: UserState): Option<bool> { m.deaf }
  function SelfMuteIn(m: UserState): Option<bool> { m.selfMute }
  function SelfDeafIn(m: UserState): Option<bool> { m.selfDeaf }

  ghost predicate UserAsSaid(u: UserInfo, arrivals: seq<Arrival>, id: nat) {
    && u.sessionId == id
    && u.name == LastSaid(arrivals, id, NameIn, "")
    && u.channelId == LastSaid(arrivals, id, ChannelIn, 0)
    && u.mute == LastSaid(arrivals, id, MuteIn, false)
    && u.deaf == LastSaid(arrivals, id, DeafIn, false)
    && u.selfMute == LastSaid(arrivals, id, SelfMuteIn, false)
    && u.selfDeaf == LastSaid(arrivals, id, SelfDeafIn, false)
  }

  /** A field of a user after a UserState about them. */
  function Said<T>(said: Option<T>, known: bool, before: T, blank: T): T {
    if said.Some? then said.value else if known then before else blank
  }

  lemma HandleUserState(c: Client, m: UserState, l: Listing)
    requires KeysMatch(c)
    ensures var id := m.session.GetOr(0);
            var users := Handle(c, UserStatePacket(m), l).0.users;
            && id in users
            && var known := c.connected && id in c.users;
               var was := if id in c.users then c.users[id] else UserInfo(id, "", 0, false, false, false, false);
            && users[id].sessionId == id
            && users[id].name == Said(m.name, known, was.name, "")
            && users[id].channelId == Said(m.channelId, known, was.channelId, 0)
            && users[id].mute == Said(m.mute, known, was.mute, false)
            && users[id].deaf == Said(m.deaf, known, was.deaf, false)
            && users[id].selfMute == Said(m.selfMute, known, was.selfMute, false)
            && users[id].selfDeaf == Said(m.selfDeaf, known, was.selfDeaf, false)
  {
  }

  lemma LastSaidNext<T>(arrivals: seq<Arrival>, m: UserState, field: UserState -> Option<T>, blank: T)
    requires arrivals != [] && arrivals[|arrivals| - 1].p == UserStatePacket(m)
    ensures var init, id := arrivals[..|arrivals| - 1], m.session.GetOr(0);
            LastSaid(arrivals, id, field, blank)
            == Said(field(m), After(init).connected && UserStands(init, id), LastSaid(init, id, field, blank), blank)
  {
  }

  lemma SaidStep(arrivals: seq<Arrival>, m: UserState)
    requires arrivals != [] && arrivals[|arrivals| - 1].p == UserStatePacket(m)
    requires var init, id := arrivals[..|arrivals| - 1], m.session.GetOr(0);
             && (id in After(init).users <==> UserStands(init, id))
             && (id in After(init).users ==> UserAsSaid(After(init).users[id], init, id))
    ensures var id := m.session.GetOr(0);
            id in After(arrivals).users && UserAsSaid(After(arrivals).users[id], arrivals, id)
  {
    var init := arrivals[..|arrivals| - 1];
    KeysAlwaysMatch(init);
    HandleUserState(After(init), m, arrivals[|arrivals| - 1].l);
    LastSaidNext(arrivals, m, NameIn, "");
    LastSaidNext(arrivals, m, ChannelIn, 0);
    LastSaidNext(arrivals, m, MuteIn, false);
    LastSaidNext(arrivals, m, DeafIn, false);
    LastSaidNext(arrivals, m, SelfMuteIn, false);
    LastSaidNext(arrivals, m, SelfDeafIn, false);
  }

  lemma HandleUsers(c: Client, p: Packet, l: Listing, id: nat)
    ensures var users := Handle(c, p, l).0.users;
            match p
            case UserStatePacket(m) =>
              && users.Keys == c.users.Keys + {m.session.GetOr(0)}
              && (id != m.session.GetOr(0) && id in c.users ==> users[id] == c.users[id])
            case UserRemove(x) => users == c.users - {x}
            case _ => users == c.users
  {
  }

  /** The users are those the server announced and has not removed since, each as it was last described. */
  lemma {:induction false} UsersAreAsSaid(arrivals: seq<Arrival>, id: nat)
    ensures id in After(arrivals).users <==> UserStands(arrivals, id)
    ensures id in After(arrivals).users ==> UserAsSaid(After(arrivals).users[id], arrivals, id)
  {
    if arrivals != [] {
      var init, a := arrivals[..|arrivals| - 1], arrivals[|arrivals| - 1];
      UsersAreAsSaid(init, id);
      HandleUsers(After(init), a.p, a.l, id);
      if a.p.UserStatePacket? && a.p.user.session.GetOr(0) == id {
        SaidStep(arrivals, a.p.user);
      }
    }
  }

  predicate ChannelStands(arrivals: seq<Arrival>, id: nat) {
    if arrivals == [] then false
    else
      var was := ChannelStands(arrivals[..|arrivals| - 1], id);
      match arrivals[|arrivals| - 1].p
      case ChannelStatePacket(m) => was || m.channelId.GetOr(0) == id
      case ChannelRemove(x) => was && x != id
      case _ => was
  }

  /** The last ChannelState about this channel. */
  function LastChannelState(arrivals: seq<Arrival>, id: nat): Option<ChannelState> {
    if arrivals == [] then None
    else
      match arrivals[|arrivals| - 1].p
      case ChannelStatePacket(m) =>
        if m.channelId.GetOr(0) == id then Some(m) else LastChannelState(arrivals[..|arrivals| - 1], id)
      case _ => LastChannelState(arrivals[..|arrivals| - 1], id)
  }

  /** The channels are those the server announced and has not removed since, each exactly as in its last ChannelState. */
  lemma {:induction false} ChannelsAreAsSaid(arrivals: seq<Arrival>, id: nat)
    ensures id in After(arrivals).channels <==> ChannelStands(arrivals, id)
    ensures id in After(arrivals).channels ==>
              && LastChannelState(arrivals, id).Some?
              && var c, m := After(arrivals).channels[id], LastChannelState(arrivals, id).value;
              && c.id == id
              && c.name == m.name.GetOr("") && c.description == m.description.GetOr("")
              && c.parentId == m.parent.GetOr(0)
  {
    if arrivals != [] {
      var init, a := arrivals[..|arrivals| - 1], arrivals[|arrivals| - 1];
      ChannelsAreAsSaid(init, id);
      HandleChannels(After(init), a.p, a.l, id);
    }
  }

  lemma HandleChannels(c: Client, p: Packet, l: Listing, id: nat)
    ensures var channels := Handle(c, p, l).0.channels;
            match p
            case ChannelStatePacket(m) =>
              && channels.Keys == c.channels.Keys + {m.channelId.GetOr(0)}
              && (id != m.channelId.GetOr(0) && id in c.channels ==> channels[id] == c.channels[id])
            case ChannelRemove(x) => channels == c.channels - {x}
            case _ => channels == c.channels
  {
  }

  /** Chat and rejections are passed on as sent; the loop ends only at an unusable crypt setup. */
  lemma PassedOnAsSent(c: Client, p: Packet, l: Listing)
    ensures p.TextMessage? ==>
              Handle(c, p, l) == (c, [ChatMessage(p.actor, if p.channels == [] then 0 else p.channels[0], p.message)])
    ensures p.Reject? ==> Handle(c, p, l) == (c, [Disconnected(Rejected(p.reason))])
    ensures p.ServerSync? ==>
              |Handle(c, p, l).1| == 1 && Handle(c, p, l).1[0].Connected? && Handle(c, p, l).1[0].own == p.session
    ensures KeepsRunning(p) <==>
              (p.CryptSetupPacket? ==> |p.crypt.key| == |p.crypt.clientNonce| == |p.crypt.serverNonce| == 16)
    ensures !KeepsRunning(p) ==> |Handle(c, p, l).1| == 1 && Handle(c, p, l).1[0].Disconnected?
  {
  }

  // ---------------------------------------------------------------- crypt state

  /** The last usable crypt setup since the last ServerSync. */
  function LatestCrypt(arrivals: seq<Arrival>): Option<CryptState> {
    if arrivals == [] then None
    else
      var p := arrivals[|arrivals| - 1].p;
      if p.CryptSetupPacket? && CryptFromMessage(p.crypt).Success? then Some(CryptFromMessage(p.crypt).value)
      else if p.ServerSync? then None
      else LatestCrypt(arrivals[..|arrivals| - 1])
  }

  lemma CryptStep(c: Client, p: Packet, l: Listing)
    ensures var c' := Handle(c, p, l).0;
            && c'.crypt == (if p.ServerSync? then None
                            else if p.CryptSetupPacket? && CryptFromMessage(p.crypt).Success?
                            then Some(CryptFromMessage(p.crypt).value)
                            else c.crypt)
            && (if p.ServerSync? && c.crypt.Some? && c.cryptTx
                then c'.delivered == c.delivered + [c.crypt.value] && !c'.cryptTx
                else c'.delivered == c.delivered && c'.cryptTx == c.cryptTx)
  {
  }

  /**
   The crypt state is handed to the voice side at most once, at a ServerSync, and it is the
   latest well-formed one received since the ServerSync before.
   */
  lemma {:induction false} CryptDeliveredOnce(arrivals: seq<Arrival>)
    ensures After(arrivals).crypt == LatestCrypt(arrivals)
    ensures |After(arrivals).delivered| == if After(arrivals).cryptTx then 0 else 1
    ensures arrivals != [] && After(arrivals).delivered != After(arrivals[..|arrivals| - 1]).delivered ==>
              arrivals[|arrivals| - 1].p.ServerSync? && After(arrivals[..|arrivals| - 1]).delivered == []
              && LatestCrypt(arrivals[..|arrivals| - 1]) == Some(After(arrivals).delivered[0])
  {
    if arrivals != [] {
      CryptDeliveredOnce(arrivals[..|arrivals| - 1]);
      CryptStep(After(arrivals[..|arrivals| - 1]), arrivals[|arrivals| - 1].p, arrivals[|arrivals| - 1].l);
    }
  }

  /** A ServerSync comes when a usable crypt setup is waiting. */
  ghost predicate SyncWithCrypt(arrivals: seq<Arrival>, i: int)
    requires 0 <= i < |arrivals|
  {
    arrivals[i].p.ServerSync? && LatestCrypt(arrivals[..i]).Some?
  }

  lemma SyncWithCryptEarlier(arrivals: seq<Arrival>, i: int)
    requires 0 <= i < |arrivals| - 1
    ensures SyncWithCrypt(arrivals[..|arrivals| - 1], i) <==> SyncWithCrypt(arrivals, i)
  {
    assert arrivals[..|arrivals| - 1][..i] == arrivals[..i];
  }

  ghost predicate SomeSyncWithCrypt(arrivals: seq<Arrival>) {
    exists i :: 0 <= i < |arrivals| && SyncWithCrypt(arrivals, i)
  }

  lemma SomeSyncNext(arrivals: seq<Arrival>)
    requires arrivals != []
    ensures SomeSyncWithCrypt(arrivals) <==>
              SomeSyncWithCrypt(arrivals[..|arrivals| - 1]) || SyncWithCrypt(arrivals, |arrivals| - 1)
  {
    var init := arrivals[..|arrivals| - 1];
    if i :| 0 <= i < |init| && SyncWithCrypt(init, i) {
      SyncWithCryptEarlier(arrivals, i);
    }
    if i :| 0 <= i < |init| && SyncWithCrypt(arrivals, i) {
      SyncWithCryptEarlier(arrivals, i);
    }
  }

  /** The voice side is given a crypt state exactly if a ServerSync ever came with a usable one waiting. */
  lemma {:induction false} CryptDeliveredExactly(arrivals: seq<Arrival>)
    ensures After(arrivals).delivered != [] <==> SomeSyncWithCrypt(arrivals)
  {
    if arrivals != [] {
      var init, a := arrivals[..|arrivals| - 1], arrivals[|arrivals| - 1];
      CryptDeliveredExactly(init);
      CryptDeliveredOnce(init);
      CryptStep(After(init), a.p, a.l);
      SomeSyncNext(arrivals);
    }
  }
}
