/**
 The TURN credential table of `src/turn/credentials.rs`.

 `Credentials` is the table itself.  `Book` is the obvious reference for it: an
 ever-growing record of what was minted and which sessions were cleared, never
 pruned.  The theorems run both machines on the same operations and compare them.
 */
module TurnCredentials {
  import opened Common

  // The auth key is only ever compared, so a free constructor stands for the hash.
  datatype AuthKey = AuthKey(username: string, realm: string, password: string)

  datatype Credential = Credential(
    session: string, username: string, password: string, key: AuthKey, expiresAt: nat)

  type Table = map<string, Credential>

  datatype AuthError = InvalidRealm | ExpiredOrUnknown

  datatype IceServer = IceServer(url: string, username: Option<string>, credential: Option<string>)
  datatype IceConfig = IceConfig(iceServers: seq<IceServer>, expiresAt: Option<nat>)

  /** A credential with no more than this many seconds left is replaced, not reused. */
  const REUSE_MARGIN: nat := 90

  /** The TTL range that configuration validation enforces. */
  predicate ValidTtl(ttl: nat) {
    300 <= ttl <= 86400
  }

  function Mint(realm: string, ttl: nat, session: string, username: string, password: string, now: nat): Credential {
    Credential(session, username, password, AuthKey(username, realm, password), now + ttl)
  }

  function Prune(t: Table, now: nat): Table {
    map u | u in t && t[u].expiresAt > now :: t[u]
  }

  function Reusable(t: Table, session: string, now: nat): set<string> {
    set u | u in t && t[u].session == session && t[u].expiresAt > now + REUSE_MARGIN
  }

  /** The table after an issue; `minted` is used only if nothing can be reused. */
  function IssueTable(t: Table, minted: Credential, now: nat): Table {
    var kept := Prune(t, now);
    if Reusable(kept, minted.session, now) == {} then kept[minted.username := minted] else kept
  }

  function RevokeTable(t: Table, session: string): Table {
    map u | u in t && t[u].session != session :: t[u]
  }

  function Authenticate(t: Table, serverRealm: string, username: string, realm: string, now: nat): Result<AuthKey, AuthError> {
    if realm != serverRealm then Failure(InvalidRealm)
    else if username in t && t[username].expiresAt > now then Success(t[username].key)
    else Failure(ExpiredOrUnknown)
  }

  /** `c` is what an issue hands out: the fresh credential, or one that can be reused. */
  ghost predicate HandsOut(t: Table, minted: Credential, now: nat, c: Credential) {
    if Reusable(t, minted.session, now) == {} then c == minted
    else exists u :: u in Reusable(t, minted.session, now) && c == t[u]
  }

  /** An entry is stored under its username, and its key is made from the password that goes with it. */
  predicate Sound(realm: string, u: string, c: Credential) {
    c.username == u && c.key == AuthKey(u, realm, c.password)
  }

  ghost predicate AllSound(realm: string, t: Table) {
    forall u | u in t :: Sound(realm, u, t[u])
  }

  /** Only `turn:` and `turns:` URLs carry the credential; a `stun:` URL carries none. */
  function ServerFor(url: string, c: Credential): IceServer {
    if "turn" <= url then IceServer(url, Some(c.username), Some(c.password)) else IceServer(url, None, None)
  }

  class Credentials {
    const realm: string
    const ttl: nat
    var entries: Table

    ghost predicate Valid()
      reads this
    {
      AllSound(realm, entries)
    }

    constructor (realm: string, ttl: nat)
      ensures Valid() && this.realm == realm && this.ttl == ttl && entries == map[]
    {
      this.realm := realm;
      this.ttl := ttl;
      entries := map[];
    }

    /**
     Issues or reuses a credential.  `username` and `password` are the random
     strings the source would generate; they matter only when nothing is reused.
     Which reusable entry is found depends on hash order, hence the `:|`.
     */
    method IssueAt(session: string, urls: seq<string>, now: nat, username: string, password: string)
      returns (config: IceConfig, chosen: Credential)
      requires Valid()
      modifies this
      ensures Valid()
      ensures entries == IssueTable(old(entries), Mint(realm, ttl, session, username, password, now), now)
      ensures chosen in entries.Values && chosen.session == session
      ensures HandsOut(old(entries), Mint(realm, ttl, session, username, password, now), now, chosen)
      ensures 90 < ttl ==> now + 90 < chosen.expiresAt
      ensures config.expiresAt == Some(chosen.expiresAt)
      ensures |config.iceServers| == |urls|
      ensures forall i | 0 <= i < |urls| ::
                && config.iceServers[i].url == urls[i]
                && config.iceServers[i].username == (if "turn" <= urls[i] then Some(chosen.username) else None)
                && config.iceServers[i].credential == (if "turn" <= urls[i] then Some(chosen.password) else None)
      ensures 0 < ttl ==> forall i | 0 <= i < |urls| && "turn" <= urls[i] ::
                var user, password := config.iceServers[i].username.value, config.iceServers[i].credential.value;
                Authenticate(entries, realm, user, realm, now) == Success(AuthKey(user, realm, password))
      ensures Reusable(old(entries), session, now) == {} ==> forall i | 0 <= i < |urls| && "turn" <= urls[i] ::
                config.iceServers[i] == IceServer(urls[i], Some(username), Some(password))
    {
      entries := Prune(entries, now);
      var candidates := Reusable(entries, session, now);
      assert candidates == Reusable(old(entries), session, now);
      if candidates != {} {
        var u :| u in candidates;
        chosen := entries[u];
      } else {
        chosen := Mint(realm, ttl, session, username, password, now);
        entries := entries[username := chosen];
        assert entries[username] == chosen;
      }
      var servers := [];
      for i := 0 to |urls|
        invariant |servers| == i
        invariant forall k | 0 <= k < i :: servers[k] == ServerFor(urls[k], chosen)
      {
        servers := servers + [ServerFor(urls[i], chosen)];
      }
      config := IceConfig(servers, Some(chosen.expiresAt));
    }

    /** Drops a session's credentials and reports their usernames. */
    method Revoke(session: string) returns (usernames: set<string>)
      requires Valid()
      modifies this
      ensures Valid()
      ensures entries == RevokeTable(old(entries), session)
      ensures forall u :: u in usernames <==>
        exists k :: k in old(entries) && old(entries)[k].session == session && old(entries)[k].username == u
    {
      usernames := set k | k in entries && entries[k].session == session :: entries[k].username;
      entries := RevokeTable(entries, session);
    }

    method AuthenticateAt(username: string, realm: string, now: nat) returns (r: Result<AuthKey, AuthError>)
      ensures r == Authenticate(entries, this.realm, username, realm, now)
    {
      if realm != this.realm {
        return Failure(InvalidRealm);
      }
      if username in entries && entries[username].expiresAt > now {
        return Success(entries[username].key);
      }
      return Failure(ExpiredOrUnknown);
    }
  }

  // ---------------------------------------------------------------- runs

  datatype Op =
    | Issue(now: nat, session: string, username: string, password: string)
    | Revoke(now: nat, session: string)

  /** The table together with the time of its last prune and of its last operation. */
  datatype State = State(table: Table, pruned: nat, clock: nat)

  const INIT := State(map[], 0, 0)

  function Step(realm: string, ttl: nat, s: State, op: Op): State {
    match op
    case Issue(now, session, username, password) =>
      State(IssueTable(s.table, Mint(realm, ttl, session, username, password, now), now), now, now)
    case Revoke(now, session) =>
      State(RevokeTable(s.table, session), s.pruned, now)
  }

  function Run(realm: string, ttl: nat, ops: seq<Op>): State {
    if ops == [] then INIT
    else Step(realm, ttl, Run(realm, ttl, ops[..|ops| - 1]), ops[|ops| - 1])
  }

  /** The clock never goes back. */
  ghost predicate Clocked(ops: seq<Op>) {
    forall i, j | 0 <= i < j < |ops| :: ops[i].now <= ops[j].now
  }

  /** No two issues are given the same random username. */
  ghost predicate FreshNames(ops: seq<Op>) {
    forall i, j | 0 <= i < j < |ops| && ops[i].Issue? && ops[j].Issue? :: ops[i].username != ops[j].username
  }

  // ---------------------------------------------------------------- the reference record

  datatype Entry = Minted(cred: Credential) | Cleared(session: string)
  type Book = seq<Entry>

  /** Entry `i` was minted and its session has not been cleared since. */
  ghost predicate Standing(b: Book, i: int) {
    && 0 <= i < |b| && b[i].Minted?
    && forall j | i < j < |b| :: b[j] != Cleared(b[i].cred.session)
  }

  ghost function BookStep(realm: string, ttl: nat, b: Book, op: Op): Book {
    match op
    case Issue(now, session, username, password) =>
      if exists i :: Standing(b, i) && b[i].cred.session == session && b[i].cred.expiresAt > now + 90
      then b
      else b + [Minted(Mint(realm, ttl, session, username, password, now))]
    case Revoke(now, session) => b + [Cleared(session)]
  }

  ghost function BookRun(realm: string, ttl: nat, ops: seq<Op>): Book {
    if ops == [] then []
    else BookStep(realm, ttl, BookRun(realm, ttl, ops[..|ops| - 1]), ops[|ops| - 1])
  }

  /** What the record says about a username: issued, never cleared since, not expired. */
  ghost predicate BookAccepts(b: Book, realm: string, username: string, now: nat, key: AuthKey) {
    exists i :: Standing(b, i) && b[i].cred.username == username && b[i].cred.expiresAt > now
                && b[i].cred.key == key && key.realm == realm
  }

  // ---------------------------------------------------------------- table and record agree

  ghost predicate Agree(t: Table, b: Book, clock: nat) {
    && (forall u | u in t :: t[u].username == u && exists i :: Standing(b, i) && b[i].cred == t[u])
    && (forall i | Standing(b, i) && b[i].cred.expiresAt > clock ::
          b[i].cred.username in t && t[b[i].cred.username] == b[i].cred)
  }

  ghost predicate NamesFrom(b: Book, ops: seq<Op>) {
    forall i | 0 <= i < |b| && b[i].Minted? ::
      exists k :: 0 <= k < |ops| && ops[k].Issue? && ops[k].username == b[i].cred.username
  }

  lemma AgreeAfterIssue(realm: string, ttl: nat, t: Table, b: Book, clock: nat, op: Op)
    requires op.Issue? && clock <= op.now && Agree(t, b, clock)
    requires forall i | 0 <= i < |b| && b[i].Minted? :: b[i].cred.username != op.username
    ensures Agree(Step(realm, ttl, State(t, 0, clock), op).table, BookStep(realm, ttl, b, op), op.now)
  {
    var now := op.now;
    var minted := Mint(realm, ttl, op.session, op.username, op.password, now);
    var kept := Prune(t, now);
    var b' := BookStep(realm, ttl, b, op);
    var t' := IssueTable(t, minted, now);
    if u :| u in Reusable(kept, op.session, now) {
      var i :| Standing(b, i) && b[i].cred == t[u];
      assert b' == b;
      assert t' == kept;
    } else {
      forall i | Standing(b, i) && b[i].cred.session == op.session
        ensures b[i].cred.expiresAt <= now + REUSE_MARGIN
      {
        assert b[i].cred.username !in Reusable(kept, op.session, now);
      }
      assert b' == b + [Minted(minted)];
      assert Standing(b', |b|) && b'[|b|].cred == minted;
      forall i | Standing(b, i)
        ensures Standing(b', i) && b'[i] == b[i]
      {
      }
      forall i | Standing(b', i) && i < |b|
        ensures Standing(b, i)
      {
        assert forall j | i < j < |b| :: b[j] == b'[j];
      }
      forall u | u in t'
        ensures t'[u].username == u && exists i :: Standing(b', i) && b'[i].cred == t'[u]
      {
        if u != op.username {
          var i :| Standing(b, i) && b[i].cred == t[u];
          assert Standing(b', i) && b'[i].cred == t'[u];
        }
      }
    }
  }

  lemma AgreeAfterRevoke(realm: string, ttl: nat, t: Table, b: Book, clock: nat, op: Op)
    requires op.Revoke? && clock <= op.now && Agree(t, b, clock)
    ensures Agree(RevokeTable(t, op.session), BookStep(realm, ttl, b, op), op.now)
  {
    var b' := b + [Cleared(op.session)];
    forall i | Standing(b, i) && b[i].cred.session != op.session
      ensures Standing(b', i) && b'[i] == b[i]
    {
    }
    forall i | Standing(b', i)
      ensures i < |b| && Standing(b, i) && b[i].cred.session != op.session
    {
      assert b'[|b|] == Cleared(op.session);
      assert i < |b| ==> forall j | i < j < |b| :: b[j] == b'[j];
    }
    var t' := RevokeTable(t, op.session);
    forall u | u in t'
      ensures t'[u].username == u && exists i :: Standing(b', i) && b'[i].cred == t'[u]
    {
      var i :| Standing(b, i) && b[i].cred == t[u];
      assert Standing(b', i) && b'[i].cred == t'[u];
    }
  }

  lemma {:induction false} TableAgreesWithBook(realm: string, ttl: nat, ops: seq<Op>)
    requires Clocked(ops) && FreshNames(ops)
    ensures var s := Run(realm, ttl, ops);
            var b := BookRun(realm, ttl, ops);
            Agree(s.table, b, s.clock) && NamesFrom(b, ops)
            && (ops != [] ==> s.clock == ops[|ops| - 1].now)
            && forall i | 0 <= i < |b| && b[i].Minted? :: b[i].cred.key.realm == realm
  {
    if ops != [] {
      var init, last := ops[..|ops| - 1], ops[|ops| - 1];
      TableAgreesWithBook(realm, ttl, init);
      var s, b := Run(realm, ttl, init), BookRun(realm, ttl, init);
      var b' := BookRun(realm, ttl, ops);
      match last {
        case Issue(_, _, _, _) =>
          forall i | 0 <= i < |b| && b[i].Minted?
            ensures b[i].cred.username != last.username
          {
            var k :| 0 <= k < |init| && init[k].Issue? && init[k].username == b[i].cred.username;
            assert ops[k] == init[k];
          }
          AgreeAfterIssue(realm, ttl, s.table, b, s.clock, last);
        case Revoke(_, _) =>
          AgreeAfterRevoke(realm, ttl, s.table, b, s.clock, last);
      }
      forall i | 0 <= i < |b'| && b'[i].Minted?
        ensures exists k :: 0 <= k < |ops| && ops[k].Issue? && ops[k].username == b'[i].cred.username
      {
        if i < |b| {
          var k :| 0 <= k < |init| && init[k].Issue? && init[k].username == b[i].cred.username;
          assert ops[k] == init[k];
        } else {
          assert ops[|ops| - 1].username == b'[i].cred.username;
        }
      }
    }
  }

  /**
   Authentication against the pruned table succeeds, with a given key, exactly when
   the full record has that credential issued, not cleared since and not expired,
   and the realm is the server's.
   */
  lemma AuthenticationMatchesBook(realm: string, ttl: nat, ops: seq<Op>, username: string, asked: string, now: nat, key: AuthKey)
    requires Clocked(ops) && FreshNames(ops)
    requires Run(realm, ttl, ops).clock <= now
    ensures Authenticate(Run(realm, ttl, ops).table, realm, username, asked, now) == Success(key)
       <==> BookAccepts(BookRun(realm, ttl, ops), asked, username, now, key)
  {
    TableAgreesWithBook(realm, ttl, ops);
    var t, b := Run(realm, ttl, ops).table, BookRun(realm, ttl, ops);
    if Authenticate(t, realm, username, asked, now) == Success(key) {
      var i :| Standing(b, i) && b[i].cred == t[username];
      assert b[i].cred.key == key && key.realm == realm;
    }
  }

  // ---------------------------------------------------------------- size of the table

  ghost predicate Spaced(t: Table, pruned: nat, ttl: nat) {
    && (forall u | u in t :: pruned < t[u].expiresAt <= pruned + ttl)
    && (forall u, v | u in t && v in t && u != v && t[u].session == t[v].session ::
          t[u].expiresAt + ttl <= t[v].expiresAt + REUSE_MARGIN || t[v].expiresAt + ttl <= t[u].expiresAt + REUSE_MARGIN)
  }

  /** The usernames a session has in the table. */
  ghost function Held(t: Table, session: string): set<string> {
    set u | u in t && t[u].session == session
  }

  lemma PruneStaysSpaced(t: Table, pruned: nat, ttl: nat, now: nat)
    requires Spaced(t, pruned, ttl) && pruned <= now
    ensures Spaced(Prune(t, now), now, ttl)
  {
  }

  lemma IssueStaysSpaced(t: Table, pruned: nat, ttl: nat, minted: Credential, now: nat)
    requires Spaced(t, pruned, ttl) && pruned <= now && 0 < ttl && minted.expiresAt == now + ttl
    ensures Spaced(IssueTable(t, minted, now), now, ttl)
  {
    PruneStaysSpaced(t, pruned, ttl, now);
    var kept := Prune(t, now);
    if Reusable(kept, minted.session, now) == {} {
      forall u | u in kept && kept[u].session == minted.session
        ensures kept[u].expiresAt + ttl <= minted.expiresAt + REUSE_MARGIN
      {
        assert u !in Reusable(kept, minted.session, now);
      }
    }
  }

  lemma {:induction false} RunStaysSpaced(realm: string, ttl: nat, ops: seq<Op>)
    requires Clocked(ops) && 0 < ttl
    ensures var s := Run(realm, ttl, ops);
            Spaced(s.table, s.pruned, ttl) && s.pruned <= s.clock && (ops != [] ==> s.clock == ops[|ops| - 1].now)
  {
    if ops != [] {
      RunStaysSpaced(realm, ttl, ops[..|ops| - 1]);
      var s, op := Run(realm, ttl, ops[..|ops| - 1]), ops[|ops| - 1];
      if op.Issue? {
        var minted := Mint(realm, ttl, op.session, op.username, op.password, op.now);
        IssueStaysSpaced(s.table, s.pruned, ttl, minted, op.now);
      }
    }
  }

  /** In every run each key is made from the username, the realm and the password handed out with it. */
  lemma {:induction false} KeysFitPasswords(realm: string, ttl: nat, ops: seq<Op>)
    ensures AllSound(realm, Run(realm, ttl, ops).table)
  {
    if ops != [] {
      KeysFitPasswords(realm, ttl, ops[..|ops| - 1]);
    }
  }

  lemma PairBound(t: Table, session: string)
    requires forall u, v, w | u in Held(t, session) && v in Held(t, session) && w in Held(t, session) :: u == v || v == w || u == w
    ensures |Held(t, session)| <= 2
  {
    var h := Held(t, session);
    if a :| a in h {
      if b :| b in h && b != a {
        assert h <= {a, b};
        SubsetOfPair(h, a, b);
      } else {
        assert h <= {a, a};
        SubsetOfPair(h, a, a);
      }
    }
  }

  /** With a TTL of at least twice the margin no session ever holds more than two credentials. */
  lemma AtMostTwoPerSession(realm: string, ttl: nat, ops: seq<Op>, session: string)
    requires Clocked(ops) && 180 <= ttl
    ensures |Held(Run(realm, ttl, ops).table, session)| <= 2
  {
    RunStaysSpaced(realm, ttl, ops);
    PairBound(Run(realm, ttl, ops).table, session);
  }

  /** At most one of a session's credentials has more than the margin left, so the hash-order search has one answer. */
  lemma ReuseIsUnambiguous(realm: string, ttl: nat, ops: seq<Op>, session: string, now: nat, u: string, v: string)
    requires Clocked(ops) && 0 < ttl && Run(realm, ttl, ops).clock <= now
    requires u in Reusable(Run(realm, ttl, ops).table, session, now)
    requires v in Reusable(Run(realm, ttl, ops).table, session, now)
    ensures u == v
  {
    RunStaysSpaced(realm, ttl, ops);
  }

  /** Three issues, each just late enough not to reuse the one before. */
  ghost function CrowdingRun(ttl: nat): seq<Op> {
    var gap := if ttl > REUSE_MARGIN then ttl - REUSE_MARGIN else 0;
    [Issue(0, "s", "a", ""), Issue(gap, "s", "b", ""), Issue(2 * gap, "s", "c", "")]
  }

  lemma RunNext(realm: string, ttl: nat, ops: seq<Op>, i: int)
    requires 0 <= i < |ops|
    ensures Run(realm, ttl, ops[..i + 1]) == Step(realm, ttl, Run(realm, ttl, ops[..i]), ops[i])
  {
    assert ops[..i + 1][..i] == ops[..i];
  }

  /** An issue that finds nothing expired and nothing to reuse adds one entry. */
  lemma IssueAdds(t: Table, minted: Credential, now: nat)
    requires forall u | u in t :: now < t[u].expiresAt <= now + REUSE_MARGIN
    ensures IssueTable(t, minted, now) == t[minted.username := minted]
  {
    assert Prune(t, now) == t;
    assert Reusable(t, minted.session, now) == {};
  }

  lemma CrowdingRunFills(realm: string, ttl: nat, a: Credential, b: Credential, c: Credential)
    requires 0 < ttl < 180
    requires var ops := CrowdingRun(ttl);
             && a == Mint(realm, ttl, "s", "a", "", ops[0].now)
             && b == Mint(realm, ttl, "s", "b", "", ops[1].now)
             && c == Mint(realm, ttl, "s", "c", "", ops[2].now)
    ensures Run(realm, ttl, CrowdingRun(ttl)).table == map["a" := a]["b" := b]["c" := c]
  {
    var ops := CrowdingRun(ttl);
    RunNext(realm, ttl, ops, 0);
    IssueAdds(map[], a, ops[0].now);
    RunNext(realm, ttl, ops, 1);
    IssueAdds(map["a" := a], b, ops[1].now);
    RunNext(realm, ttl, ops, 2);
    IssueAdds(map["a" := a]["b" := b], c, ops[2].now);
    assert ops[..3] == ops;
  }

  lemma CrowdingRunHoldsThree(realm: string, ttl: nat)
    requires 0 < ttl < 180
    ensures Clocked(CrowdingRun(ttl)) && FreshNames(CrowdingRun(ttl))
    ensures |Held(Run(realm, ttl, CrowdingRun(ttl)).table, "s")| == 3
  {
    var ops := CrowdingRun(ttl);
    var a, b := Mint(realm, ttl, "s", "a", "", ops[0].now), Mint(realm, ttl, "s", "b", "", ops[1].now);
    var c := Mint(realm, ttl, "s", "c", "", ops[2].now);
    CrowdingRunFills(realm, ttl, a, b, c);
    CrowdedTable(a, b, c);
  }

  lemma CrowdedTable(a: Credential, b: Credential, c: Credential)
    requires a.session == "s" && b.session == "s" && c.session == "s"
    ensures |Held(map["a" := a]["b" := b]["c" := c], "s")| == 3
  {
    assert Held(map["a" := a]["b" := b]["c" := c], "s") == {"a", "b", "c"};
  }

  lemma {:induction false} ZeroTtlHoldsOne(realm: string, ops: seq<Op>)
    requires Clocked(ops)
    ensures var s := Run(realm, 0, ops);
            && (forall u, v | u in s.table && v in s.table :: u == v)
            && (forall u | u in s.table :: s.table[u].expiresAt <= s.clock)
            && (ops != [] ==> s.clock == ops[|ops| - 1].now)
  {
    if ops != [] {
      ZeroTtlHoldsOne(realm, ops[..|ops| - 1]);
      var s, op := Run(realm, 0, ops[..|ops| - 1]), ops[|ops| - 1];
      if op.Issue? {
        assert Prune(s.table, op.now) == map[];
      }
    }
  }

  /** The bound of two holds of every run exactly from a TTL of 180 on (or at the degenerate TTL 0). */
  lemma TwoPerSessionExactly(realm: string, ttl: nat)
    ensures (forall ops: seq<Op>, session | Clocked(ops) && FreshNames(ops) ::
               |Held(Run(realm, ttl, ops).table, session)| <= 2)
       <==> ttl == 0 || 180 <= ttl
  {
    if ttl == 0 {
      forall ops: seq<Op>, session | Clocked(ops) && FreshNames(ops)
        ensures |Held(Run(realm, ttl, ops).table, session)| <= 2
      {
        ZeroTtlHoldsOne(realm, ops);
        PairBound(Run(realm, ttl, ops).table, session);
      }
    } else if 180 <= ttl {
      forall ops: seq<Op>, session | Clocked(ops) && FreshNames(ops)
        ensures |Held(Run(realm, ttl, ops).table, session)| <= 2
      {
        AtMostTwoPerSession(realm, ttl, ops, session);
      }
    } else {
      CrowdingRunHoldsThree(realm, ttl);
    }
  }

  /** Every TTL that configuration validation lets through is on the safe side of the bound. */
  lemma ValidTtlBoundsTable(realm: string, ttl: nat, ops: seq<Op>, session: string)
    requires ValidTtl(ttl) && Clocked(ops)
    ensures |Held(Run(realm, ttl, ops).table, session)| <= 2
    ensures forall u | u in Held(Run(realm, ttl, ops).table, session) ::
              Run(realm, ttl, ops).table[u].expiresAt <= Run(realm, ttl, ops).clock + ttl
  {
    AtMostTwoPerSession(realm, ttl, ops, session);
    RunStaysSpaced(realm, ttl, ops);
  }

  // ---------------------------------------------------------------- rotation

  /** Revoking removes one session's credentials and leaves every other session's alone. */
  lemma RevokeIsExact(realm: string, ttl: nat, ops: seq<Op>, now: nat, session: string, other: string)
    ensures var t := Run(realm, ttl, ops).table;
            var t' := Run(realm, ttl, ops + [Revoke(now, session)]).table;
            Held(t', session) == {}
            && (other != session ==> Held(t', other) == Held(t, other) && forall u | u in Held(t, other) :: t'[u] == t[u])
  {
    var ops' := ops + [Revoke(now, session)];
    assert ops'[..|ops'| - 1] == ops;
  }

  /** These operations never revoke the session and all happen before `limit`. */
  ghost predicate Spares(ops: seq<Op>, session: string, limit: nat) {
    forall k | 0 <= k < |ops| :: ops[k].now < limit && (ops[k].Revoke? ==> ops[k].session != session)
  }

  /** A credential outlives any operations that neither revoke its session nor reach its expiry. */
  lemma {:induction false} SurvivesWithoutRevoke(realm: string, ttl: nat, ops: seq<Op>, later: seq<Op>, u: string)
    requires Clocked(ops + later) && FreshNames(ops + later)
    requires u in Run(realm, ttl, ops).table
    requires Spares(later, Run(realm, ttl, ops).table[u].session, Run(realm, ttl, ops).table[u].expiresAt)
    ensures u in Run(realm, ttl, ops + later).table
    ensures Run(realm, ttl, ops + later).table[u] == Run(realm, ttl, ops).table[u]
    decreases |later|
  {
    var all := ops + later;
    if later == [] {
      assert all == ops;
    } else {
      var init, last := later[..|later| - 1], later[|later| - 1];
      var shorter := ops + init;
      assert all[..|all| - 1] == shorter && all[|all| - 1] == last;
      assert forall k | 0 <= k < |shorter| :: all[k] == shorter[k];
      SurvivesWithoutRevoke(realm, ttl, ops, init, u);
      if last.Issue? {
        NameWasIssued(realm, ttl, shorter, u);
        var k :| 0 <= k < |shorter| && shorter[k].Issue? && shorter[k].username == u;
        assert all[k].username == u;
      }
    }
  }

  lemma NameWasIssued(realm: string, ttl: nat, ops: seq<Op>, u: string)
    requires Clocked(ops) && FreshNames(ops) && u in Run(realm, ttl, ops).table
    ensures exists k :: 0 <= k < |ops| && ops[k].Issue? && ops[k].username == u
  {
    TableAgreesWithBook(realm, ttl, ops);
    var t, b := Run(realm, ttl, ops).table, BookRun(realm, ttl, ops);
    var i :| Standing(b, i) && b[i].cred == t[u];
    assert b[i].Minted?;
  }

  lemma RefreshMints(realm: string, ttl: nat, ops: seq<Op>, refresh: Op)
    requires refresh.Issue? && Reusable(Run(realm, ttl, ops).table, refresh.session, refresh.now) == {}
    ensures Run(realm, ttl, ops + [refresh]).table == Prune(Run(realm, ttl, ops).table, refresh.now)
              [refresh.username := Mint(realm, ttl, refresh.session, refresh.username, refresh.password, refresh.now)]
  {
    var t := Run(realm, ttl, ops).table;
    var next := ops + [refresh];
    assert next[..|next| - 1] == ops && next[|ops|] == refresh;
    assert Reusable(Prune(t, refresh.now), refresh.session, refresh.now) <= Reusable(t, refresh.session, refresh.now);
  }

  lemma PrefixOk(ops: seq<Op>, more: seq<Op>)
    requires Clocked(ops + more) && FreshNames(ops + more)
    ensures Clocked(ops) && FreshNames(ops)
  {
    assert forall k | 0 <= k < |ops| :: (ops + more)[k] == ops[k];
  }

  lemma NewNameDiffers(realm: string, ttl: nat, ops: seq<Op>, refresh: Op, previous: string)
    requires Clocked(ops) && FreshNames(ops + [refresh])
    requires refresh.Issue? && previous in Run(realm, ttl, ops).table
    ensures refresh.username != previous
  {
    var next := ops + [refresh];
    assert forall i | 0 <= i < |ops| :: next[i] == ops[i];
    NameWasIssued(realm, ttl, ops, previous);
    var k :| 0 <= k < |ops| && ops[k].Issue? && ops[k].username == previous;
    assert next[k].username == previous && next[|ops|] == refresh;
  }

  lemma SparesRest(first: Op, later: seq<Op>, session: string, limit: nat)
    requires Spares([first] + later, session, limit)
    ensures Spares(later, session, limit)
  {
    assert forall i | 0 <= i < |later| :: later[i] == ([first] + later)[i + 1];
  }

  lemma NewNameSurvives(realm: string, ttl: nat, ops: seq<Op>, refresh: Op, later: seq<Op>)
    requires refresh.Issue? && Reusable(Run(realm, ttl, ops).table, refresh.session, refresh.now) == {}
    requires Clocked(ops + [refresh] + later) && FreshNames(ops + [refresh] + later)
    requires Spares([refresh] + later, refresh.session, refresh.now + ttl)
    ensures refresh.username in Run(realm, ttl, ops + [refresh] + later).table
    ensures Run(realm, ttl, ops + [refresh] + later).table[refresh.username]
         == Mint(realm, ttl, refresh.session, refresh.username, refresh.password, refresh.now)
  {
    RefreshMints(realm, ttl, ops, refresh);
    SparesRest(refresh, later, refresh.session, refresh.now + ttl);
    SurvivesWithoutRevoke(realm, ttl, ops + [refresh], later, refresh.username);
  }

  /**
   A refresh when none of the session's credentials has more than the margin left hands
   out the new name with a full lifetime, and the old credential keeps working: whatever
   follows, short of a revoke of this session, it stays in the table until its own expiry.
   */
  lemma RefreshRotates(realm: string, ttl: nat, ops: seq<Op>, refresh: Op, later: seq<Op>, previous: string)
    requires REUSE_MARGIN < ttl && refresh.Issue?
    requires Clocked(ops + [refresh] + later) && FreshNames(ops + [refresh] + later)
    requires previous in Held(Run(realm, ttl, ops).table, refresh.session)
    requires Reusable(Run(realm, ttl, ops).table, refresh.session, refresh.now) == {}
    requires Spares([refresh] + later, refresh.session, Run(realm, ttl, ops).table[previous].expiresAt)
    ensures var before := Run(realm, ttl, ops).table;
            var after := Run(realm, ttl, ops + [refresh] + later).table;
            && previous in after && after[previous] == before[previous]
            && refresh.username in after && refresh.username != previous
            && after[refresh.username] == Mint(realm, ttl, refresh.session, refresh.username, refresh.password, refresh.now)
            && before[previous].expiresAt < after[refresh.username].expiresAt
  {
    var t := Run(realm, ttl, ops).table;
    var next := ops + [refresh];
    assert next + later == ops + ([refresh] + later);
    PrefixOk(next, later);
    PrefixOk(ops, [refresh]);
    assert t[previous].expiresAt <= refresh.now + REUSE_MARGIN by {
      assert previous !in Reusable(t, refresh.session, refresh.now);
    }
    NewNameDiffers(realm, ttl, ops, refresh, previous);
    SurvivesWithoutRevoke(realm, ttl, ops, [refresh] + later, previous);
    NewNameSurvives(realm, ttl, ops, refresh, later);
  }

  /** A refresh 60 s before the last expiry of a session rotates and leaves a minute to switch. */
  lemma LatestRefreshRotates(realm: string, ttl: nat, ops: seq<Op>, refresh: Op, given: string)
    requires ValidTtl(ttl) && refresh.Issue?
    requires Clocked(ops + [refresh]) && FreshNames(ops + [refresh])
    requires given in Held(Run(realm, ttl, ops).table, refresh.session)
    requires forall u | u in Held(Run(realm, ttl, ops).table, refresh.session) ::
               Run(realm, ttl, ops).table[u].expiresAt <= Run(realm, ttl, ops).table[given].expiresAt
    requires refresh.now + 60 == Run(realm, ttl, ops).table[given].expiresAt
    ensures var t := Run(realm, ttl, ops).table;
            var t' := Run(realm, ttl, ops + [refresh]).table;
            && Reusable(t', refresh.session, refresh.now) == {refresh.username}
            && forall now | refresh.now <= now < refresh.now + 60 ::
                 && Authenticate(t', realm, given, realm, now) == Success(t[given].key)
                 && Authenticate(t', realm, refresh.username, realm, now)
                    == Success(AuthKey(refresh.username, realm, refresh.password))
  {
    var next := ops + [refresh];
    assert next + [] == next;
    assert Reusable(Run(realm, ttl, ops).table, refresh.session, refresh.now) == {};
    RefreshRotates(realm, ttl, ops, refresh, [], given);
    RefreshMints(realm, ttl, ops, refresh);
  }

  function MintFor(realm: string, ttl: nat, op: Op): Credential
    requires op.Issue?
  {
    Mint(realm, ttl, op.session, op.username, op.password, op.now)
  }

  /** No credential of its session expires later than `c`. */
  ghost predicate Latest(t: Table, c: Credential) {
    && c.username in Held(t, c.session) && t[c.username] == c
    && forall u | u in Held(t, c.session) :: t[u].expiresAt <= c.expiresAt
  }

  /**
   What an issue hands out authenticates, until it expires, under the key that the username and
   the password handed out make, whatever other sessions do meanwhile.
   */
  lemma HandedOutAuthenticates(
    realm: string, ttl: nat, ops: seq<Op>, issue: Op, others: seq<Op>, c: Credential, now: nat)
    requires 0 < ttl && issue.Issue? && Clocked(ops + [issue] + others) && FreshNames(ops + [issue] + others)
    requires HandsOut(Run(realm, ttl, ops).table, MintFor(realm, ttl, issue), issue.now, c)
    requires Spares(others, issue.session, c.expiresAt) && now < c.expiresAt
    ensures Authenticate(Run(realm, ttl, ops + [issue] + others).table, realm, c.username, realm, now)
         == Success(AuthKey(c.username, realm, c.password))
    ensures Reusable(Run(realm, ttl, ops).table, issue.session, issue.now) == {} ==>
              c.username == issue.username && c.password == issue.password
  {
    PrefixOk(ops + [issue], others);
    HandedOutIsLatest(realm, ttl, ops, issue, c);
    SurvivesWithoutRevoke(realm, ttl, ops + [issue], others, c.username);
    KeysFitPasswords(realm, ttl, ops + [issue]);
  }

  lemma ReuseIsLatest(realm: string, ttl: nat, ops: seq<Op>, session: string, now: nat, u: string)
    requires 0 < ttl && Clocked(ops) && Run(realm, ttl, ops).clock <= now
    requires u in Reusable(Run(realm, ttl, ops).table, session, now)
    ensures forall v | v in Held(Run(realm, ttl, ops).table, session) ::
              Run(realm, ttl, ops).table[v].expiresAt <= Run(realm, ttl, ops).table[u].expiresAt
  {
    var t := Run(realm, ttl, ops).table;
    forall v | v in Held(t, session)
      ensures t[v].expiresAt <= t[u].expiresAt
    {
      if v in Reusable(t, session, now) {
        ReuseIsUnambiguous(realm, ttl, ops, session, now, u, v);
      }
    }
  }

  lemma ReusedStaysLatest(t: Table, minted: Credential, now: nat, u: string)
    requires u in Reusable(t, minted.session, now) && t[u].username == u
    requires forall v | v in Held(t, minted.session) :: t[v].expiresAt <= t[u].expiresAt
    ensures Latest(IssueTable(t, minted, now), t[u])
  {
    assert u in Reusable(Prune(t, now), minted.session, now);
  }

  lemma MintedIsLatest(t: Table, minted: Credential, now: nat)
    requires Reusable(t, minted.session, now) == {}
    requires forall u | u in t :: t[u].expiresAt <= minted.expiresAt
    ensures Latest(IssueTable(t, minted, now), minted)
  {
    assert Reusable(Prune(t, now), minted.session, now) <= Reusable(t, minted.session, now);
  }

  /** What an issue hands out is in the table, and no credential of the session expires later. */
  lemma HandedOutIsLatest(realm: string, ttl: nat, ops: seq<Op>, issue: Op, c: Credential)
    requires 0 < ttl && issue.Issue? && Clocked(ops + [issue]) && FreshNames(ops + [issue])
    requires HandsOut(Run(realm, ttl, ops).table, MintFor(realm, ttl, issue), issue.now, c)
    ensures Latest(Run(realm, ttl, ops + [issue]).table, c) && c.session == issue.session
  {
    var all := ops + [issue];
    assert all[..|all| - 1] == ops && all[|ops|] == issue;
    PrefixOk(ops, [issue]);
    TableAgreesWithBook(realm, ttl, ops);
    RunStaysSpaced(realm, ttl, ops);
    var t := Run(realm, ttl, ops).table;
    assert Run(realm, ttl, ops).clock <= issue.now by {
      assert ops != [] ==> all[|ops| - 1] == ops[|ops| - 1];
    }
    if Reusable(t, issue.session, issue.now) == {} {
      MintedIsLatest(t, c, issue.now);
    } else {
      var u :| u in Reusable(t, issue.session, issue.now) && c == t[u];
      ReuseIsLatest(realm, ttl, ops, issue.session, issue.now, u);
      ReusedStaysLatest(t, MintFor(realm, ttl, issue), issue.now, u);
    }
  }

  lemma OtherAddsNothing(realm: string, ttl: nat, s: State, op: Op, session: string)
    requires op.session != session
    ensures var t' := Step(realm, ttl, s, op).table;
            forall u | u in Held(t', session) :: u in Held(s.table, session) && t'[u] == s.table[u]
  {
  }

  /** Operations on other sessions give a session nothing new. */
  lemma {:induction false} OthersAddNothing(realm: string, ttl: nat, ops: seq<Op>, later: seq<Op>, session: string)
    requires forall k | 0 <= k < |later| :: later[k].session != session
    ensures var t, t' := Run(realm, ttl, ops).table, Run(realm, ttl, ops + later).table;
            forall u | u in Held(t', session) :: u in Held(t, session) && t'[u] == t[u]
    decreases |later|
  {
    var all := ops + later;
    if later == [] {
      assert all == ops;
    } else {
      var init := later[..|later| - 1];
      OthersAddNothing(realm, ttl, ops, init, session);
      assert all[..|all| - 1] == ops + init && all[|all| - 1] == later[|later| - 1];
      OtherAddsNothing(realm, ttl, Run(realm, ttl, ops + init), later[|later| - 1], session);
    }
  }

  lemma BeforeLast(ops: seq<Op>, others: seq<Op>, last: Op, limit: nat, session: string)
    requires Clocked(ops + others + [last]) && last.now < limit
    requires forall k | 0 <= k < |others| :: others[k].session != session
    ensures Spares(others, session, limit)
  {
    var all := ops + others + [last];
    forall k | 0 <= k < |others|
      ensures others[k].now < limit
    {
      assert all[|ops| + k] == others[k] && all[|ops| + |others|] == last;
    }
  }

  lemma StaysLatest(realm: string, ttl: nat, ops: seq<Op>, others: seq<Op>, refresh: Op, c: Credential)
    requires Clocked(ops + others) && FreshNames(ops + others)
    requires Clocked(ops + others + [refresh]) && refresh.now < c.expiresAt
    requires forall k | 0 <= k < |others| :: others[k].session != c.session
    requires Latest(Run(realm, ttl, ops).table, c)
    ensures Latest(Run(realm, ttl, ops + others).table, c)
  {
    BeforeLast(ops, others, refresh, c.expiresAt, c.session);
    SurvivesWithoutRevoke(realm, ttl, ops, others, c.username);
    OthersAddNothing(realm, ttl, ops, others, c.session);
  }

  /**
   The browser asks again 60 s before the expiry it was last given.  Whatever other sessions did
   meanwhile, that mints a new credential and leaves a minute in which both work.
   */
  lemma BrowserRefreshRotates(
    realm: string, ttl: nat, ops: seq<Op>, issue: Op, others: seq<Op>, refresh: Op, given: Credential)
    requires ValidTtl(ttl) && issue.Issue? && refresh.Issue? && refresh.session == issue.session
    requires Clocked(ops + [issue] + others + [refresh]) && FreshNames(ops + [issue] + others + [refresh])
    requires forall k | 0 <= k < |others| :: others[k].session != issue.session
    requires HandsOut(Run(realm, ttl, ops).table, MintFor(realm, ttl, issue), issue.now, given)
    requires refresh.now + 60 == given.expiresAt
    ensures var t := Run(realm, ttl, ops + [issue] + others + [refresh]).table;
            && Reusable(t, refresh.session, refresh.now) == {refresh.username}
            && forall now | refresh.now <= now < refresh.now + 60 ::
                 && Authenticate(t, realm, given.username, realm, now) == Success(given.key)
                 && Authenticate(t, realm, refresh.username, realm, now)
                    == Success(AuthKey(refresh.username, realm, refresh.password))
  {
    PrefixOk(ops + [issue] + others, [refresh]);
    PrefixOk(ops + [issue], others);
    HandedOutIsLatest(realm, ttl, ops, issue, given);
    StaysLatest(realm, ttl, ops + [issue], others, refresh, given);
    LatestRefreshRotates(realm, ttl, ops + [issue] + others, refresh, given.username);
  }
}
