/** What every run of one gateway node keeps, in any order of its channels. */
module GatewayRuns {
  import opened UserMaps
  import opened Gateway

  /** A node and all clients its handler has accepted so far. */
  datatype State = State(node: Node, accepted: set<Client>)

  datatype Event =
    | Accept(c: Client)
    | TakeRegister
    | TakeUnregister
    | TakeKick
    | Report(userID: string, platformID: int, token: string)
    | Disconnect(c: Client)
    | ForceOff(userID: string, platformID: int)

  function Ids(cs: set<Client>): set<nat> {
    set c | c in cs :: c.id
  }

  ghost predicate Step(policy: int, s: State, e: Event, t: State) {
    var n := s.node;
    match e
    case Accept(c) =>
      && c.id !in Ids(s.accepted)
      && t == State(n.(register := n.register + [c]), s.accepted + {c})
    case TakeRegister =>
      && n.register != []
      && t == s.(node := Registered(policy, n.(register := n.register[1..]), n.register[0]))
    case TakeUnregister =>
      && n.unregister != []
      && t == s.(node := Unregistered(n.(unregister := n.unregister[1..]), n.unregister[0]))
    case TakeKick =>
      && n.kicks != []
      && t == s.(node := Kicked(policy, n.(kicks := n.kicks[1..]), n.kicks[0]))
    case Report(u, p, token) =>
      t == s.(node := LoginReported(n, u, p, token))
    case Disconnect(c) =>
      c in s.accepted && t == s.(node := Close(n, c))
    case ForceOff(u, p) =>
      t == s.(node := ForcedOff(n, OnPlatform(Of(n.conns, u), p)))
  }

  ghost predicate IsRun(policy: int, run: seq<State>, events: seq<Event>) {
    && |run| == |events| + 1
    && run[0] == State(NEW_NODE, {})
    && forall i | 0 <= i < |events| :: Step(policy, run[i], events[i], run[i + 1])
  }

  // ----- What the handlers do to the flags -----

  /** From `n` to `m` exactly the clients `cs` were closed, each new flag with its unregistration. */
  ghost predicate ClosedThese(n: Node, m: Node, cs: seq<Client>) {
    && (forall id :: id in m.closed <==> id in n.closed || exists i :: 0 <= i < |cs| && cs[i].id == id)
    && |m.closed| + |n.unregister| == |n.closed| + |m.unregister|
    && (forall c <- m.unregister :: c in n.unregister || (c in cs && c.id in m.closed))
  }

  predicate SameQueues(n: Node, m: Node) {
    m.register == n.register && m.kicks == n.kicks
  }

  lemma ClosedOne(n: Node, m: Node, cs: seq<Client>, c: Client)
    requires ClosedThese(n, m, cs)
    ensures ClosedThese(n, Close(m, c), cs + [c])
  {
    var r, all := Close(m, c), cs + [c];
    assert all[|cs|] == c;
    forall id: nat
      ensures id in r.closed <==> id in n.closed || exists i :: 0 <= i < |all| && all[i].id == id
    {
      if i :| 0 <= i < |cs| && cs[i].id == id {
        assert all[i].id == id;
      }
      if i :| 0 <= i < |all| && all[i].id == id && i < |cs| {
        assert cs[i].id == id;
      }
    }
  }

  lemma {:induction false} CloseAllFacts(n: Node, cs: seq<Client>)
    ensures ClosedThese(n, CloseAll(n, cs), cs)
    ensures var r := CloseAll(n, cs); r == n.(closed := r.closed, unregister := r.unregister)
  {
    if cs != [] {
      var init, c := cs[..|cs| - 1], cs[|cs| - 1];
      CloseAllFacts(n, init);
      ClosedOne(n, CloseAll(n, init), init, c);
      assert cs == init + [c];
    }
  }

  lemma {:induction false} ForcedOffFlags(n: Node, cs: seq<Client>)
    ensures ClosedThese(n, ForcedOff(n, cs), cs)
    ensures var r := ForcedOff(n, cs);
      r == n.(conns := r.conns, closed := r.closed, unregister := r.unregister)
  {
    if cs != [] {
      var init, c := cs[..|cs| - 1], cs[|cs| - 1];
      ForcedOffFlags(n, init);
      var m := ForcedOff(n, init);
      var dropped := m.(conns := Drop(m.conns, c.userID, {c.remoteAddr}));
      assert ClosedThese(n, dropped, init);
      ClosedOne(n, dropped, init, c);
      assert cs == init + [c];
    }
  }

  /** Closing clients after dropping connections changes neither queues nor the number of connections. */
  lemma ClosedAfterDrop(n: Node, u: string, addrs: set<string>, cs: seq<Client>)
    ensures var r := CloseAll(Dropped(n, u, addrs), cs);
      SameQueues(n, r) && r.connNum == n.connNum && ClosedThese(n, r, cs) && r.conns == Drop(n.conns, u, addrs)
  {
    CloseAllFacts(Dropped(n, u, addrs), cs);
  }

  /** The clients a kick closes. */
  function ClosedByKick(policy: int, k: KickInfo): seq<Client> {
    if Kicks(policy, k.newClient.platformID) && k.clientOK then k.oldClients else []
  }

  lemma KickedFlags(policy: int, n: Node, k: KickInfo)
    ensures var r := Kicked(policy, n, k);
      SameQueues(n, r) && r.connNum == n.connNum && ClosedThese(n, r, ClosedByKick(policy, k))
  {
    if Kicks(policy, k.newClient.platformID) && k.clientOK {
      ClosedAfterDrop(n, k.newClient.userID, Addrs(k.oldClients), k.oldClients);
    }
  }

  /** The connections a login kicks. */
  function KickedBy(policy: int, n: Node, c: Client): seq<Client> {
    if Kicks(policy, c.platformID) then OnPlatform(Of(n.conns, c.userID), c.platformID) else []
  }

  lemma RegisteredFlags(policy: int, n: Node, c: Client)
    ensures var r := Registered(policy, n, c);
      SameQueues(n, r) && r.connNum == n.connNum + 1 && ClosedThese(n, r, KickedBy(policy, n, c))
  {
    var existing := Of(n.conns, c.userID);
    var same := OnPlatform(existing, c.platformID);
    if existing != [] {
      var k := KickInfo(same != [], same, c);
      KickedFlags(policy, n, k);
    }
  }

  // ----- What the handlers do to the registry -----

  lemma DropSizes(conns: Conns, userID: string, addrs: set<string>, u: string, p: int)
    ensures |OnPlatform(Of(Drop(conns, userID, addrs), u), p)| <= |OnPlatform(Of(conns, u), p)|
  {
    OnPlatformOfWithout(Of(conns, userID), p, addrs);
  }

  lemma DropMembers(conns: Conns, userID: string, addrs: set<string>, u: string, c: Client)
    ensures c in Of(Drop(conns, userID, addrs), u)
       <==> c in Of(conns, u) && (u == userID ==> c.remoteAddr !in addrs)
  {
    WithoutMembers(Of(conns, userID), addrs);
  }

  lemma {:induction false} ForcedOffSizes(n: Node, cs: seq<Client>, u: string, p: int)
    ensures |OnPlatform(Of(ForcedOff(n, cs).conns, u), p)| <= |OnPlatform(Of(n.conns, u), p)|
  {
    if cs != [] {
      var init, c := cs[..|cs| - 1], cs[|cs| - 1];
      ForcedOffSizes(n, init, u, p);
      DropSizes(ForcedOff(n, init).conns, c.userID, {c.remoteAddr}, u, p);
    }
  }

  lemma {:induction false} ForcedOffMembers(n: Node, cs: seq<Client>, u: string, d: Client)
    ensures d in Of(ForcedOff(n, cs).conns, u) ==> d in Of(n.conns, u)
    ensures d in Of(n.conns, u) && d !in Of(ForcedOff(n, cs).conns, u) ==> d.remoteAddr in Addrs(cs)
  {
    if cs != [] {
      var init, c := cs[..|cs| - 1], cs[|cs| - 1];
      ForcedOffMembers(n, init, u, d);
      DropMembers(ForcedOff(n, init).conns, c.userID, {c.remoteAddr}, u, d);
      AddrsSnoc(cs);
    }
  }

  /** A list at whose addresses everything is dropped leaves nothing of itself. */
  lemma {:induction false} WithoutAll(clients: seq<Client>, addrs: set<string>)
    requires forall c <- clients :: c.remoteAddr in addrs
    ensures Without(clients, addrs) == []
  {
    if clients != [] {
      WithoutAll(clients[..|clients| - 1], addrs);
    }
  }

  lemma KickedConns(policy: int, n: Node, k: KickInfo)
    ensures Kicked(policy, n, k).conns
         == if Kicks(policy, k.newClient.platformID) && k.clientOK
            then Drop(n.conns, k.newClient.userID, Addrs(k.oldClients)) else n.conns
  {
    if Kicks(policy, k.newClient.platformID) && k.clientOK {
      ClosedAfterDrop(n, k.newClient.userID, Addrs(k.oldClients), k.oldClients);
    }
  }

  lemma RegisteredConns(policy: int, n: Node, c: Client)
    ensures Registered(policy, n, c).conns
         == Added(Drop(n.conns, c.userID, Addrs(KickedBy(policy, n, c))), c)
  {
    var existing := Of(n.conns, c.userID);
    var same := OnPlatform(existing, c.platformID);
    WithoutNone(existing);
    if existing == [] {
      assert Drop(n.conns, c.userID, Addrs(KickedBy(policy, n, c))) == n.conns - {c.userID};
    } else {
      KickedConns(policy, n, KickInfo(same != [], same, c));
    }
  }

  lemma {:induction false} WithoutNone(clients: seq<Client>)
    ensures Addrs([]) == {} && Without(clients, {}) == clients
  {
    if clients != [] {
      WithoutNone(clients[..|clients| - 1]);
    }
  }

  /** After a login that kicks, the new connection is alone on its platform. */
  lemma RegisteredAlone(policy: int, n: Node, c: Client)
    requires Kicks(policy, c.platformID)
    ensures OnPlatform(Of(Registered(policy, n, c).conns, c.userID), c.platformID) == [c]
  {
    var existing := Of(n.conns, c.userID);
    var same := OnPlatform(existing, c.platformID);
    var left := Without(existing, Addrs(same));
    RegisteredConns(policy, n, c);
    OnPlatformOfWithout(existing, c.platformID, Addrs(same));
    WithoutAll(same, Addrs(same));
    OnPlatformAppend(left, c, c.platformID);
  }

  lemma RegisteredSizes(policy: int, n: Node, c: Client, u: string, p: int)
    requires u != c.userID || p != c.platformID
    ensures |OnPlatform(Of(Registered(policy, n, c).conns, u), p)| <= |OnPlatform(Of(n.conns, u), p)|
  {
    var dropped := Drop(n.conns, c.userID, Addrs(KickedBy(policy, n, c)));
    RegisteredConns(policy, n, c);
    DropSizes(n.conns, c.userID, Addrs(KickedBy(policy, n, c)), u, p);
    OnPlatformAppend(Of(dropped, c.userID), c, p);
  }

  lemma RegisteredMembers(policy: int, n: Node, c: Client, u: string, d: Client)
    ensures d in Of(Registered(policy, n, c).conns, u) <==>
      || (d == c && u == c.userID)
      || (d in Of(n.conns, u) && (u == c.userID ==> d.remoteAddr !in Addrs(KickedBy(policy, n, c))))
  {
    RegisteredConns(policy, n, c);
    DropMembers(n.conns, c.userID, Addrs(KickedBy(policy, n, c)), u, d);
  }

  // ----- One connection per user and platform -----

  ghost predicate OnePerPlatform(policy: int, n: Node) {
    forall u, p | Kicks(policy, p) :: |OnPlatform(Of(n.conns, u), p)| <= 1
  }

  lemma StepKeepsOnePerPlatform(policy: int, s: State, e: Event, t: State)
    requires Step(policy, s, e, t) && OnePerPlatform(policy, s.node)
    ensures OnePerPlatform(policy, t.node)
  {
    var n := s.node;
    forall u, p | Kicks(policy, p) ensures |OnPlatform(Of(t.node.conns, u), p)| <= 1 {
      match e
      case Accept(c) =>
      case TakeRegister =>
        var c, m := n.register[0], n.(register := n.register[1..]);
        if u == c.userID && p == c.platformID {
          RegisteredAlone(policy, m, c);
        } else {
          RegisteredSizes(policy, m, c, u, p);
        }
      case TakeUnregister =>
        DropSizes(n.conns, n.unregister[0].userID, {n.unregister[0].remoteAddr}, u, p);
      case TakeKick =>
        var k := n.kicks[0];
        KickedConns(policy, n.(kicks := n.kicks[1..]), k);
        DropSizes(n.conns, k.newClient.userID, Addrs(k.oldClients), u, p);
      case Report(_, _, _) =>
      case Disconnect(c) =>
      case ForceOff(v, q) =>
        ForcedOffSizes(n, OnPlatform(Of(n.conns, v), q), u, p);
    }
  }

  /**
   * Single node: in every state of every run, whatever the order of registrations, unregistrations and
   * kicks, a user has at most one connection on each platform the policy guards: every platform under
   * AllLoginButSameTermKick, every platform but the PC ones under PCAndOther.
   */
  lemma SingleTerminal(
    policy: int, run: seq<State>, events: seq<Event>, i: nat, u: string, p: int)
    requires IsRun(policy, run, events) && i < |run|
    requires policy == ALL_LOGIN_BUT_SAME_TERM_KICK
          || (policy == PC_AND_OTHER && p !in {WINDOWS, OSX, LINUX})
    ensures |OnPlatform(Of(run[i].node.conns, u), p)| <= 1
  {
    RunKeepsOnePerPlatform(policy, run, events, i);
    assert Kicks(policy, p);
  }

  lemma {:induction false} RunKeepsOnePerPlatform(policy: int, run: seq<State>, events: seq<Event>, i: nat)
    requires IsRun(policy, run, events) && i < |run|
    ensures OnePerPlatform(policy, run[i].node)
  {
    if i > 0 {
      RunKeepsOnePerPlatform(policy, run, events, i - 1);
      StepKeepsOnePerPlatform(policy, run[i - 1], events[i - 1], run[i]);
    }
  }

  /**
   * The policy's description, that under PCAndOther all other terminals exclude each other, is not
   * what the code enforces: two mobile platforms of one user may be connected at once.
   */
  lemma OtherTerminalsCoexist(u: string)
    ensures
      var phone := Client(1, u, IOS, "a", "x");
      var tablet := Client(2, u, ANDROID, "b", "y");
      var n := Registered(PC_AND_OTHER, Registered(PC_AND_OTHER, NEW_NODE, phone), tablet);
      Of(n.conns, u) == [phone, tablet]
  {
    var phone := Client(1, u, IOS, "a", "x");
    assert [phone][..0] == [];
    assert OnPlatform([phone], ANDROID) == [];
  }

  /** The policy, by its numbers: which logins end earlier ones of the user on the same platform. */
  predicate Guarded(policy: int, platformID: int) {
    policy == 1 || (policy == 5 && platformID !in {WINDOWS, OSX, LINUX})
  }

  /**
   * Exactly when a login ends an earlier one: another connection of the user on the same platform stays
   * registered if and only if the policy does not guard the platform, and is closed if and only if it
   * does or was closed before.
   */
  lemma EndsExactly(policy: int, n: Node, c: Client, d: Client)
    requires d in Of(n.conns, c.userID) && d.platformID == c.platformID && d != c
    ensures d in Of(Registered(policy, n, c).conns, c.userID) <==> !Guarded(policy, c.platformID)
    ensures Guarded(policy, c.platformID) ==> d.id in Registered(policy, n, c).closed
    ensures !Guarded(policy, c.platformID) ==> Registered(policy, n, c).closed == n.closed
  {
    assert Kicks(policy, c.platformID) <==> Guarded(policy, c.platformID);
    RegisteredMembers(policy, n, c, c.userID, d);
    RegisteredFlags(policy, n, c);
    OnPlatformMembers(Of(n.conns, c.userID), c.platformID);
    if Guarded(policy, c.platformID) {
      var q :| 0 <= q < |KickedBy(policy, n, c)| && KickedBy(policy, n, c)[q] == d;
    }
  }

  /**
   * Under PCAndOther any number of logins on one PC platform stay registered and open, one after the
   * other, whatever else the user is connected on.
   */
  lemma PCsCoexist(n: Node, c: Client)
    requires c.platformID in {WINDOWS, OSX, LINUX}
    ensures var r := Registered(PC_AND_OTHER, n, c);
      && Of(r.conns, c.userID) == Of(n.conns, c.userID) + [c]
      && r.closed == n.closed && r.unregister == n.unregister
  {
  }

  /** Forcing a user off a platform leaves no connection of the user there, and closes all there were. */
  lemma ForcedOffLeavesNone(n: Node, u: string, p: int, d: Client)
    requires forall c | c in Of(n.conns, u) :: c.userID == u
    requires d in Of(n.conns, u) && d.platformID == p
    ensures var r := ForcedOff(n, OnPlatform(Of(n.conns, u), p));
      d !in Of(r.conns, u) && d.id in r.closed
  {
    var cs := OnPlatform(Of(n.conns, u), p);
    OnPlatformMembers(Of(n.conns, u), p);
    ForcedOffFlags(n, cs);
    var q :| 0 <= q < |cs| && cs[q] == d;
    ForcedOffGone(n, cs, u, d);
  }

  lemma {:induction false} ForcedOffGone(n: Node, cs: seq<Client>, u: string, d: Client)
    requires d in cs && forall c <- cs :: c.userID == u
    ensures d !in Of(ForcedOff(n, cs).conns, u)
  {
    var init, c := cs[..|cs| - 1], cs[|cs| - 1];
    assert cs == init + [c];
    DropMembers(ForcedOff(n, init).conns, c.userID, {c.remoteAddr}, u, d);
    if d != c {
      ForcedOffGone(n, init, u, d);
    }
  }

  // ----- The connection counter -----

  ghost predicate Known(s: State) {
    && (forall u, c | c in Of(s.node.conns, u) :: c in s.accepted)
    && (forall c <- s.node.register :: c in s.accepted)
    && (forall c <- s.node.unregister :: c in s.accepted)
    && (forall k <- s.node.kicks, c <- k.oldClients :: c in s.accepted)
  }

  ghost predicate Counted(s: State) {
    && s.node.closed <= Ids(s.accepted)
    && s.node.connNum + |s.node.register| + |s.node.closed| == |Ids(s.accepted)| + |s.node.unregister|
  }

  lemma CountAfter(accepted: set<Client>, n: Node, m: Node, cs: seq<Client>)
    requires ClosedThese(n, m, cs) && n.closed <= Ids(accepted)
    requires forall c <- cs :: c in accepted
    requires forall c <- n.unregister :: c in accepted
    ensures m.closed <= Ids(accepted)
    ensures forall c <- m.unregister :: c in accepted
  {
    forall id <- m.closed ensures id in Ids(accepted) {
      if id !in n.closed {
        var i :| 0 <= i < |cs| && cs[i].id == id;
        assert cs[i] in accepted;
      }
    }
  }

  lemma StepKeepsCounted(policy: int, s: State, e: Event, t: State)
    requires Step(policy, s, e, t) && Known(s) && Counted(s)
    ensures Counted(t)
    ensures forall c <- t.node.unregister :: c in t.accepted
  {
    var n := s.node;
    match e
    case Accept(c) =>
      assert Ids(t.accepted) == Ids(s.accepted) + {c.id};
    case TakeRegister =>
      var c, m := n.register[0], n.(register := n.register[1..]);
      RegisteredFlags(policy, m, c);
      OnPlatformMembers(Of(n.conns, c.userID), c.platformID);
      CountAfter(s.accepted, m, t.node, KickedBy(policy, m, c));
    case TakeUnregister =>
    case TakeKick =>
      var k, m := n.kicks[0], n.(kicks := n.kicks[1..]);
      assert k in n.kicks;
      KickedFlags(policy, m, k);
      CountAfter(s.accepted, m, t.node,
                 if Kicks(policy, k.newClient.platformID) && k.clientOK then k.oldClients else []);
    case Report(u, p, token) =>
    case Disconnect(c) =>
      CountAfter(s.accepted, n, t.node, [c]) by {
        ClosedNone(n);
        ClosedOne(n, n, [], c);
        assert [] + [c] == [c];
      }
    case ForceOff(u, p) =>
      var cs := OnPlatform(Of(n.conns, u), p);
      OnPlatformMembers(Of(n.conns, u), p);
      ForcedOffFlags(n, cs);
      CountAfter(s.accepted, n, t.node, cs);
  }

  lemma ClosedNone(n: Node)
    ensures ClosedThese(n, n, [])
  {
  }

  lemma StepKeepsKnown(policy: int, s: State, e: Event, t: State)
    requires Step(policy, s, e, t) && Known(s)
    requires forall c <- t.node.unregister :: c in t.accepted
    ensures Known(t)
  {
    var n := s.node;
    forall u, d | d in Of(t.node.conns, u) ensures d in t.accepted {
      match e
      case Accept(c) =>
      case TakeRegister =>
        RegisteredMembers(policy, n.(register := n.register[1..]), n.register[0], u, d);
        assert n.register[0] in n.register;
      case TakeUnregister =>
        DropMembers(n.conns, n.unregister[0].userID, {n.unregister[0].remoteAddr}, u, d);
      case TakeKick =>
        KickedConns(policy, n.(kicks := n.kicks[1..]), n.kicks[0]);
        DropMembers(n.conns, n.kicks[0].newClient.userID, Addrs(n.kicks[0].oldClients), u, d);
      case Report(_, _, _) =>
      case Disconnect(c) =>
      case ForceOff(v, q) =>
        ForcedOffMembers(n, OnPlatform(Of(n.conns, v), q), u, d);
    }
    match e
    case TakeRegister =>
      RegisteredFlags(policy, n.(register := n.register[1..]), n.register[0]);
    case TakeKick =>
      KickedFlags(policy, n.(kicks := n.kicks[1..]), n.kicks[0]);
    case Report(u, p, token) =>
      OnPlatformMembers(Of(n.conns, u), p);
    case ForceOff(u, p) =>
      ForcedOffFlags(n, OnPlatform(Of(n.conns, u), p));
    case _ =>
  }

  /**
   * Conservation of connections: in every state of every run the counter is the clients registered
   * less those unregistered, so whenever both channels are empty it is exactly the number of clients
   * accepted and not yet closed.
   */
  lemma ConnectionCount(policy: int, run: seq<State>, events: seq<Event>, i: nat)
    requires IsRun(policy, run, events) && i < |run|
    ensures var s := run[i];
      s.node.connNum == (|Ids(s.accepted)| - |s.node.register|) - (|s.node.closed| - |s.node.unregister|)
    ensures var s := run[i];
      s.node.register == [] && s.node.unregister == [] ==> s.node.connNum == |Ids(s.accepted) - s.node.closed|
  {
    RunKeepsCount(policy, run, events, i);
    DifferenceSize(Ids(run[i].accepted), run[i].node.closed);
  }

  lemma DifferenceSize(a: set<nat>, b: set<nat>)
    requires b <= a
    ensures |a - b| == |a| - |b|
  {
    assert a == (a - b) + b;
  }

  lemma {:induction false} RunKeepsCount(policy: int, run: seq<State>, events: seq<Event>, i: nat)
    requires IsRun(policy, run, events) && i < |run|
    ensures Known(run[i]) && Counted(run[i])
  {
    if i > 0 {
      RunKeepsCount(policy, run, events, i - 1);
      StepKeepsCounted(policy, run[i - 1], events[i - 1], run[i]);
      StepKeepsKnown(policy, run[i - 1], events[i - 1], run[i]);
    }
  }

  // ----- The user counter -----

  /** No key maps to an empty list, and every connection is listed under its own user. */
  ghost predicate RegistryOk(conns: Conns) {
    NoEmptyEntry(conns) && forall u, c | c in Of(conns, u) :: c.userID == u
  }

  /** Whether removing some addresses leaves a user who is in the registry without a connection. */
  predicate Empties(conns: Conns, u: string, addrs: set<string>) {
    Of(conns, u) != [] && Without(Of(conns, u), addrs) == []
  }

  /** A login that kicks the user's only connections, which removes the user for a moment. */
  predicate RepeatLogin(policy: int, n: Node, c: Client) {
    var same := OnPlatform(Of(n.conns, c.userID), c.platformID);
    Kicks(policy, c.platformID) && same != [] && Empties(n.conns, c.userID, Addrs(same))
  }

  /** How far the user counter is above the number of users in the registry. */
  function Surplus(n: Node): int {
    n.userNum - |n.conns|
  }

  /** How a step changes the difference between the user counter and the users in the registry. */
  function Drift(policy: int, n: Node, e: Event): int {
    match e
    case TakeRegister => if n.register != [] && RepeatLogin(policy, n, n.register[0]) then -1 else 0
    case ForceOff(u, p) => if Empties(n.conns, u, Addrs(OnPlatform(Of(n.conns, u), p))) then 1 else 0
    case _ => 0
  }

  function TotalDrift(policy: int, run: seq<State>, events: seq<Event>, i: nat): int
    requires i <= |events| < |run|
  {
    if i == 0 then 0 else TotalDrift(policy, run, events, i - 1) + Drift(policy, run[i - 1].node, events[i - 1])
  }

  lemma DropUsers(conns: Conns, u: string, addrs: set<string>)
    requires NoEmptyEntry(conns)
    ensures var r := Drop(conns, u, addrs);
      && NoEmptyEntry(r) && |r| == |conns| - (if Empties(conns, u, addrs) then 1 else 0)
      && Of(r, u) == Without(Of(conns, u), addrs)
    ensures LastDropped(conns, u, addrs) == if Empties(conns, u, addrs) then 1 else 0
  {
    var r := Drop(conns, u, addrs);
    if Without(Of(conns, u), addrs) == [] {
      assert r == conns - {u};
      if Of(conns, u) == [] {
        assert r == conns;
      } else {
        assert conns.Keys == r.Keys + {u};
        assert |conns.Keys| == |r.Keys| + 1;
      }
    } else {
      assert Of(conns, u) != [];
      assert r.Keys == conns.Keys;
    }
  }

  lemma AddUsers(conns: Conns, c: Client)
    requires NoEmptyEntry(conns)
    ensures var r := Added(conns, c);
      && NoEmptyEntry(r) && |r| == |conns| + (if Of(conns, c.userID) == [] then 1 else 0)
  {
    var r := Added(conns, c);
    assert r == conns[c.userID := Of(conns, c.userID) + [c]];
    assert r.Keys == conns.Keys + {c.userID};
    assert |r.Keys| == |r| && |conns.Keys| == |conns|;
  }

  lemma {:induction false} CloseAllFrame(n: Node, cs: seq<Client>)
    ensures var r := CloseAll(n, cs); r.conns == n.conns && r.userNum == n.userNum
  {
    if cs != [] {
      CloseAllFrame(n, cs[..|cs| - 1]);
    }
  }

  lemma DroppedUsers(n: Node, u: string, addrs: set<string>)
    requires NoEmptyEntry(n.conns)
    ensures NoEmptyEntry(Dropped(n, u, addrs).conns) && Surplus(Dropped(n, u, addrs)) == Surplus(n)
  {
    DropUsers(n.conns, u, addrs);
  }

  lemma KickedIsDropped(policy: int, n: Node, k: KickInfo)
    requires Kicks(policy, k.newClient.platformID) && k.clientOK
    ensures
      var m, r := Dropped(n, k.newClient.userID, Addrs(k.oldClients)), Kicked(policy, n, k);
      r.conns == m.conns && r.userNum == m.userNum
  {
    CloseAllFrame(Dropped(n, k.newClient.userID, Addrs(k.oldClients)), k.oldClients);
  }

  lemma KickedUsers(policy: int, n: Node, k: KickInfo)
    requires NoEmptyEntry(n.conns)
    ensures NoEmptyEntry(Kicked(policy, n, k).conns) && Surplus(Kicked(policy, n, k)) == Surplus(n)
  {
    if Kicks(policy, k.newClient.platformID) && k.clientOK {
      DroppedUsers(n, k.newClient.userID, Addrs(k.oldClients));
      KickedIsDropped(policy, n, k);
    }
  }

  /** Whether kicking for a login empties the user's entry, which is when the login repeats the only one. */
  lemma KickedEntry(policy: int, n: Node, c: Client)
    requires Of(n.conns, c.userID) != []
    ensures
      var same := OnPlatform(Of(n.conns, c.userID), c.platformID);
      Of(Kicked(policy, n, KickInfo(same != [], same, c)).conns, c.userID) == [] <==> RepeatLogin(policy, n, c)
  {
    var same := OnPlatform(Of(n.conns, c.userID), c.platformID);
    KickedConns(policy, n, KickInfo(same != [], same, c));
  }

  lemma RegisteredUsers(policy: int, n: Node, c: Client)
    requires NoEmptyEntry(n.conns)
    ensures var r := Registered(policy, n, c);
      && NoEmptyEntry(r.conns)
      && Surplus(r) == Surplus(n) - (if RepeatLogin(policy, n, c) then 1 else 0)
  {
    var existing := Of(n.conns, c.userID);
    if existing == [] {
      AddUsers(n.conns, c);
    } else {
      var same := OnPlatform(existing, c.platformID);
      var k := KickInfo(same != [], same, c);
      KickedUsers(policy, n, k);
      KickedEntry(policy, n, c);
      AddUsers(Kicked(policy, n, k).conns, c);
    }
  }

  lemma UnregisteredUsers(n: Node, c: Client)
    requires NoEmptyEntry(n.conns)
    ensures var r := Unregistered(n, c);
      NoEmptyEntry(r.conns) && Surplus(r) == Surplus(n)
  {
    DropUsers(n.conns, c.userID, {c.remoteAddr});
  }

  lemma {:induction false} WithoutTwice(clients: seq<Client>, a: set<string>, b: set<string>)
    ensures Without(Without(clients, a), b) == Without(clients, a + b)
  {
    if clients != [] {
      var init, c := clients[..|clients| - 1], clients[|clients| - 1];
      WithoutTwice(init, a, b);
      if c.remoteAddr !in a {
        WithoutAppend(Without(init, a), c, b);
      } else {
        assert Without(init, a) + [] == Without(init, a);
      }
    }
  }

  /** Removing more addresses empties a user's entry if and only if it is empty already or that does it. */
  lemma EmptiesLater(conns: Conns, m: Conns, u: string, a: set<string>, b: set<string>)
    requires Of(m, u) == Without(Of(conns, u), a)
    ensures Without(Of(m, u), b) == Without(Of(conns, u), a + b)
    ensures (if Empties(conns, u, a + b) then 1 else 0)
         == (if Empties(conns, u, a) then 1 else 0) + (if Empties(m, u, b) then 1 else 0)
  {
    WithoutTwice(Of(conns, u), a, b);
  }

  /** Forcing off connections of one user, one after the other, removes all their addresses and counts nobody. */
  lemma {:induction false} ForcedOffUsers(n: Node, cs: seq<Client>, u: string)
    requires NoEmptyEntry(n.conns) && forall i | 0 <= i < |cs| :: cs[i].userID == u
    ensures var r := ForcedOff(n, cs);
      && NoEmptyEntry(r.conns) && Of(r.conns, u) == Without(Of(n.conns, u), Addrs(cs))
      && Surplus(r) == Surplus(n) + (if Empties(n.conns, u, Addrs(cs)) then 1 else 0)
  {
    if cs == [] {
      WithoutNone(Of(n.conns, u));
    } else {
      var init, c := cs[..|cs| - 1], cs[|cs| - 1];
      ForcedOffUsers(n, init, u);
      var m := ForcedOff(n, init);
      DropUsers(m.conns, u, {c.remoteAddr});
      EmptiesLater(n.conns, m.conns, u, Addrs(init), {c.remoteAddr});
      AddrsSnoc(cs);
      assert Surplus(ForcedOff(n, cs)) == Surplus(m) + if Empties(m.conns, u, {c.remoteAddr}) then 1 else 0;
    }
  }

  lemma AddrsSnoc(cs: seq<Client>)
    requires cs != []
    ensures Addrs(cs) == Addrs(cs[..|cs| - 1]) + {cs[|cs| - 1].remoteAddr}
  {
    assert cs == cs[..|cs| - 1] + [cs[|cs| - 1]];
    forall a ensures a in Addrs(cs) <==> a in Addrs(cs[..|cs| - 1]) + {cs[|cs| - 1].remoteAddr} {
    }
  }

  lemma StepKeepsRegistry(policy: int, s: State, e: Event, t: State)
    requires Step(policy, s, e, t) && RegistryOk(s.node.conns)
    ensures forall u, d | d in Of(t.node.conns, u) :: d.userID == u
  {
    var n := s.node;
    forall u, d | d in Of(t.node.conns, u) ensures d.userID == u {
      match e
      case TakeRegister =>
        RegisteredMembers(policy, n.(register := n.register[1..]), n.register[0], u, d);
      case TakeUnregister =>
        DropMembers(n.conns, n.unregister[0].userID, {n.unregister[0].remoteAddr}, u, d);
      case TakeKick =>
        KickedConns(policy, n.(kicks := n.kicks[1..]), n.kicks[0]);
        DropMembers(n.conns, n.kicks[0].newClient.userID, Addrs(n.kicks[0].oldClients), u, d);
      case ForceOff(v, q) =>
        ForcedOffMembers(n, OnPlatform(Of(n.conns, v), q), u, d);
      case _ =>
    }
  }

  /** Every step changes the difference by its drift. */
  lemma UserCountStep(policy: int, s: State, e: Event, t: State)
    requires Step(policy, s, e, t) && RegistryOk(s.node.conns)
    ensures RegistryOk(t.node.conns)
    ensures Surplus(t.node) == Surplus(s.node) + Drift(policy, s.node, e)
  {
    var n := s.node;
    StepKeepsRegistry(policy, s, e, t);
    match e
    case TakeRegister => RegisteredUsers(policy, n.(register := n.register[1..]), n.register[0]);
    case TakeUnregister => UnregisteredUsers(n.(unregister := n.unregister[1..]), n.unregister[0]);
    case TakeKick => KickedUsers(policy, n.(kicks := n.kicks[1..]), n.kicks[0]);
    case ForceOff(u, p) =>
      var cs := OnPlatform(Of(n.conns, u), p);
      OnPlatformMembers(Of(n.conns, u), p);
      ForcedOffUsers(n, cs, u);
    case _ =>
  }

  /**
   * The user counter, exactly: in every state of every run it differs from the number of users in the
   * registry by the times a user's last connection was forced off, less the repeat logins. Neither is
   * ever made up for.
   */
  lemma {:induction false} UserCountExact(policy: int, run: seq<State>, events: seq<Event>, i: nat)
    requires IsRun(policy, run, events) && i < |run|
    ensures Surplus(run[i].node) == TotalDrift(policy, run, events, i)
  {
    if i == 0 {
      assert run[0].node == NEW_NODE;
      NobodyYet();
    } else {
      UserCountExact(policy, run, events, i - 1);
      UserCountAt(policy, run, events, i - 1);
    }
  }

  lemma NobodyYet()
    ensures Surplus(NEW_NODE) == 0
  {
  }

  lemma UserCountAt(policy: int, run: seq<State>, events: seq<Event>, i: nat)
    requires IsRun(policy, run, events) && i < |events|
    ensures Surplus(run[i + 1].node) == Surplus(run[i].node) + Drift(policy, run[i].node, events[i])
    ensures TotalDrift(policy, run, events, i + 1)
         == TotalDrift(policy, run, events, i) + Surplus(run[i + 1].node) - Surplus(run[i].node)
  {
    RunKeepsRegistry(policy, run, events, i);
    UserCountStep(policy, run[i], events[i], run[i + 1]);
  }

  lemma {:induction false} RunKeepsRegistry(policy: int, run: seq<State>, events: seq<Event>, i: nat)
    requires IsRun(policy, run, events) && i < |run|
    ensures RegistryOk(run[i].node.conns)
  {
    if i > 0 {
      RunKeepsRegistry(policy, run, events, i - 1);
      UserCountStep(policy, run[i - 1], events[i - 1], run[i]);
    }
  }

  /** Forcing off the only connection leaves the counter one too high, its unregistration included. */
  lemma ForcedOffStaysCounted(policy: int, c: Client)
    ensures
      var n := Registered(policy, NEW_NODE, c);
      var forced := ForcedOff(n, [c]);
      var gone := Unregistered(forced, c);
      forced.conns == map[] && gone.conns == map[] && gone.userNum == 1
  {
    assert [c][..0] == [];
    var n := Registered(policy, NEW_NODE, c);
    assert [] + [c] == [c] && n.conns == map[c.userID := [c]] && n.userNum == 1;
    assert ForcedOff(n, []) == n && Without([c], {c.remoteAddr}) == [];
    var forced := ForcedOff(n, [c]);
    assert forced.conns == n.conns - {c.userID} == map[];
    assert Without([], {c.remoteAddr}) == [] && Of(forced.conns, c.userID) == [];
  }
}
