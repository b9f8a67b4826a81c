/**
 * Whether the registry of a node holds open connections only. A closed client is queued to be
 * unregistered (close in internal/msggateway/client.go); the event loop takes from its channels in any
 * order (Run in n_ws_server.go), so a client can be unregistered before it was registered.
 */
module RegistryRuns {
  import opened UserMaps
  import opened Gateway
  import opened GatewayRuns

  // ----- What closing does -----

  /** From `n` to `m` exactly the clients `more`, all different, were closed and queued. */
  ghost predicate Closes(n: Node, m: Node, more: seq<Client>) {
    && m.unregister == n.unregister + more
    && (forall id :: id in m.closed <==> id in n.closed || exists c <- more :: c.id == id)
    && (forall c <- more :: c.id !in n.closed)
    && (forall i, j | 0 <= i < j < |more| :: more[i].id != more[j].id)
  }

  lemma ClosesNone(n: Node, m: Node)
    requires m.closed == n.closed && m.unregister == n.unregister
    ensures Closes(n, m, [])
  {
    assert n.unregister + [] == n.unregister;
  }

  lemma ClosesOne(n: Node, m: Node, more: seq<Client>, c: Client) returns (all: seq<Client>)
    requires Closes(n, m, more)
    ensures Closes(n, Close(m, c), all)
    ensures all == if c.id in m.closed then more else more + [c]
  {
    all := if c.id in m.closed then more else more + [c];
    if c.id !in m.closed {
      assert (n.unregister + more) + [c] == n.unregister + all;
      assert forall d :: d in all <==> d in more || d == c;
      forall i, j | 0 <= i < j < |all| ensures all[i].id != all[j].id {
        if j == |more| { assert more[i] in more; }
      }
    }
  }

  lemma {:induction false} ClosesAll(n: Node, m: Node, cs: seq<Client>) returns (more: seq<Client>)
    requires m.closed == n.closed && m.unregister == n.unregister
    ensures Closes(n, CloseAll(m, cs), more) && forall c <- more :: c in cs
  {
    if cs == [] {
      more := [];
      ClosesNone(n, m);
    } else {
      var init := cs[..|cs| - 1];
      assert cs == init + [cs[|cs| - 1]];
      more := ClosesAll(n, m, init);
      more := ClosesOne(n, CloseAll(m, init), more, cs[|cs| - 1]);
    }
  }

  lemma {:induction false} ForcesOff(n: Node, cs: seq<Client>) returns (more: seq<Client>)
    ensures Closes(n, ForcedOff(n, cs), more) && forall c <- more :: c in cs
  {
    if cs == [] {
      more := [];
      ClosesNone(n, n);
    } else {
      var init, c := cs[..|cs| - 1], cs[|cs| - 1];
      assert cs == init + [c];
      more := ForcesOff(n, init);
      var m := ForcedOff(n, init);
      var dropped := m.(conns := Drop(m.conns, c.userID, {c.remoteAddr}));
      assert Closes(n, dropped, more);
      more := ClosesOne(n, dropped, more, c);
    }
  }

  lemma KicksOff(policy: int, n: Node, k: KickInfo) returns (more: seq<Client>)
    ensures Closes(n, Kicked(policy, n, k), more) && forall c <- more :: c in k.oldClients
  {
    if Kicks(policy, k.newClient.platformID) && k.clientOK {
      more := ClosesAll(n, Dropped(n, k.newClient.userID, Addrs(k.oldClients)), k.oldClients);
    } else {
      more := [];
      ClosesNone(n, n);
    }
  }

  lemma Registers(policy: int, n: Node, c: Client) returns (more: seq<Client>)
    ensures Closes(n, Registered(policy, n, c), more) && forall d <- more :: d in Of(n.conns, c.userID)
  {
    var existing := Of(n.conns, c.userID);
    if existing == [] {
      more := [];
      ClosesNone(n, Registered(policy, n, c));
    } else {
      var same := OnPlatform(existing, c.platformID);
      OnPlatformMembers(existing, c.platformID);
      more := KicksOff(policy, n, KickInfo(same != [], same, c));
    }
  }

  // ----- Every registered connection is open, or about to leave -----

  ghost predicate IdsUnique(accepted: set<Client>) {
    forall c, d | c in accepted && d in accepted && c.id == d.id :: c == d
  }

  /** A closed client is on its way out. */
  predicate Leaving(n: Node, c: Client) {
    c.id in n.closed ==> c in n.unregister
  }

  ghost predicate QueueOk(n: Node) {
    && (forall c <- n.unregister :: c.id in n.closed)
    && (forall i, j | 0 <= i < j < |n.unregister| :: n.unregister[i].id != n.unregister[j].id)
  }

  ghost predicate OpenOrLeaving(s: State) {
    && IdsUnique(s.accepted) && Known(s) && s.node.closed <= Ids(s.accepted) && QueueOk(s.node)
    && (forall u, c | c in Of(s.node.conns, u) :: c.userID == u && Leaving(s.node, c))
    && (forall c <- s.node.register :: Leaving(s.node, c))
  }

  /** A client is unregistered while it still waits to be registered. */
  predicate Early(s: State, e: Event) {
    e.TakeUnregister? && s.node.unregister != [] && s.node.unregister[0] in s.node.register
  }

  /** Closing known clients keeps every known client open or on its way out. */
  lemma ClosesLeaving(accepted: set<Client>, n: Node, m: Node, more: seq<Client>, c: Client)
    requires Closes(n, m, more) && IdsUnique(accepted) && (forall d <- more :: d in accepted) && c in accepted
    requires Leaving(n, c)
    ensures Leaving(m, c)
  {
    if c.id in m.closed && c.id !in n.closed {
      var d :| d in more && d.id == c.id;
      assert d in m.unregister;
    }
  }

  lemma ClosesQueue(accepted: set<Client>, n: Node, m: Node, more: seq<Client>)
    requires Closes(n, m, more) && QueueOk(n) && n.closed <= Ids(accepted) && forall d <- more :: d in accepted
    ensures QueueOk(m) && m.closed <= Ids(accepted)
  {
    var q := m.unregister;
    forall i, j | 0 <= i < j < |q| ensures q[i].id != q[j].id {
      if i < |n.unregister| <= j {
        assert q[i] in n.unregister && q[j] == more[j - |n.unregister|] && q[j] in more;
      } else if i >= |n.unregister| {
        assert q[i] == more[i - |n.unregister|] && q[j] == more[j - |n.unregister|];
      }
    }
    forall c <- m.unregister ensures c.id in m.closed {
      assert c in n.unregister || c in more;
    }
    forall id <- m.closed ensures id in Ids(accepted) {
      if id !in n.closed { var d :| d in more && d.id == id; }
    }
  }

  /** A step that closes known clients, loses connections and takes no client off the register queue. */
  lemma ClosingStep(s: State, t: State, more: seq<Client>)
    requires OpenOrLeaving(s) && t.accepted == s.accepted && Known(t)
    requires Closes(s.node, t.node, more) && forall d <- more :: d in s.accepted
    requires forall u, c | c in Of(t.node.conns, u) :: c in Of(s.node.conns, u)
    requires forall c <- t.node.register :: c in s.node.register
    ensures OpenOrLeaving(t)
  {
    ClosesQueue(s.accepted, s.node, t.node, more);
    forall u, c | c in Of(t.node.conns, u) ensures c.userID == u && Leaving(t.node, c) {
      assert Leaving(s.node, c);
      ClosesLeaving(s.accepted, s.node, t.node, more, c);
    }
    forall c <- t.node.register ensures Leaving(t.node, c) {
      assert Leaving(s.node, c);
      ClosesLeaving(s.accepted, s.node, t.node, more, c);
    }
  }

  lemma AcceptIds(accepted: set<Client>, c: Client)
    requires IdsUnique(accepted) && c.id !in Ids(accepted)
    ensures IdsUnique(accepted + {c}) && Ids(accepted) <= Ids(accepted + {c})
  {
    assert forall d <- accepted :: d.id in Ids(accepted);
  }

  lemma AcceptOpen(policy: int, s: State, c: Client, t: State)
    requires OpenOrLeaving(s) && Step(policy, s, Accept(c), t) && Known(t)
    ensures OpenOrLeaving(t)
  {
    AcceptIds(s.accepted, c);
    forall u, d | d in Of(t.node.conns, u) ensures d.userID == u && Leaving(t.node, d) {
      assert Leaving(s.node, d);
    }
    forall d <- t.node.register ensures Leaving(t.node, d) {
      if d != c { assert Leaving(s.node, d); }
    }
  }

  lemma RegisterConns(policy: int, s: State, n: Node, c: Client, m: Node, more: seq<Client>, u: string, d: Client)
    requires OpenOrLeaving(s) && n.conns == s.node.conns && c in s.node.register && m == Registered(policy, n, c)
    requires Closes(s.node, m, more) && forall e <- more :: e in s.accepted
    requires d in Of(m.conns, u)
    ensures d.userID == u && Leaving(m, d)
  {
    RegisteredMembers(policy, n, c, u, d);
    ClosesLeaving(s.accepted, s.node, m, more, d);
  }

  lemma RegisterOpen(policy: int, s: State, t: State)
    requires OpenOrLeaving(s) && Step(policy, s, TakeRegister, t) && Known(t)
    ensures OpenOrLeaving(t)
  {
    var n, c := s.node, s.node.register[0];
    var popped := n.(register := n.register[1..]);
    assert c in n.register;
    var more := Registers(policy, popped, c);
    assert Closes(n, t.node, more);
    RegisteredFlags(policy, popped, c);
    ClosesQueue(s.accepted, n, t.node, more);
    forall u, d | d in Of(t.node.conns, u) ensures d.userID == u && Leaving(t.node, d) {
      RegisterConns(policy, s, popped, c, t.node, more, u, d);
    }
    forall d <- t.node.register ensures Leaving(t.node, d) {
      assert d in n.register;
      ClosesLeaving(s.accepted, n, t.node, more, d);
    }
  }

  lemma UnregisterOpen(policy: int, s: State, t: State)
    requires OpenOrLeaving(s) && Step(policy, s, TakeUnregister, t) && Known(t) && !Early(s, TakeUnregister)
    ensures OpenOrLeaving(t)
  {
    var n, h := s.node, s.node.unregister[0];
    assert n.unregister == [h] + t.node.unregister;
    forall u, d | d in Of(t.node.conns, u) ensures d.userID == u && Leaving(t.node, d) {
      DropMembers(n.conns, h.userID, {h.remoteAddr}, u, d);
      assert d.userID == u && Leaving(n, d);
    }
    forall d <- t.node.register ensures Leaving(t.node, d) {
      assert Leaving(n, d);
    }
    forall c <- t.node.unregister ensures c.id in t.node.closed {
      assert c in n.unregister;
    }
  }

  /** And taking a client off the unregister queue too early leaves it closed, waiting, and not queued. */
  lemma EarlyLeaks(policy: int, s: State, t: State)
    requires OpenOrLeaving(s) && Step(policy, s, TakeUnregister, t) && Early(s, TakeUnregister)
    ensures var h := s.node.unregister[0]; h in t.node.register && !Leaving(t.node, h)
    ensures !OpenOrLeaving(t)
  {
    var n, h := s.node, s.node.unregister[0];
    assert h in n.unregister;
    forall j | 0 <= j < |t.node.unregister| ensures t.node.unregister[j] != h {
      assert t.node.unregister[j] == n.unregister[j + 1];
    }
  }

  lemma KickOpen(policy: int, s: State, t: State)
    requires OpenOrLeaving(s) && Step(policy, s, TakeKick, t) && Known(t)
    ensures OpenOrLeaving(t)
  {
    var n, k := s.node, s.node.kicks[0];
    var popped := n.(kicks := n.kicks[1..]);
    assert k in n.kicks;
    var more := KicksOff(policy, popped, k);
    KickedFlags(policy, popped, k);
    KickedConns(policy, popped, k);
    forall u, c | c in Of(t.node.conns, u) ensures c in Of(n.conns, u) {
      DropMembers(n.conns, k.newClient.userID, Addrs(k.oldClients), u, c);
    }
    ClosingStep(s, t, more);
  }

  lemma ForceOpen(policy: int, s: State, u: string, p: int, t: State)
    requires OpenOrLeaving(s) && Step(policy, s, ForceOff(u, p), t) && Known(t)
    ensures OpenOrLeaving(t)
  {
    var n, cs := s.node, OnPlatform(Of(s.node.conns, u), p);
    OnPlatformMembers(Of(n.conns, u), p);
    var more := ForcesOff(n, cs);
    ForcedOffFlags(n, cs);
    forall v, c | c in Of(t.node.conns, v) ensures c in Of(n.conns, v) {
      ForcedOffMembers(n, cs, v, c);
    }
    ClosingStep(s, t, more);
  }

  lemma DisconnectOpen(policy: int, s: State, c: Client, t: State)
    requires OpenOrLeaving(s) && Step(policy, s, Disconnect(c), t) && Known(t)
    ensures OpenOrLeaving(t)
  {
    ClosesNone(s.node, s.node);
    var more := ClosesOne(s.node, s.node, [], c);
    ClosingStep(s, t, more);
  }

  lemma ReportOpen(policy: int, s: State, u: string, p: int, token: string, t: State)
    requires OpenOrLeaving(s) && Step(policy, s, Report(u, p, token), t) && Known(t)
    ensures OpenOrLeaving(t)
  {
    ClosesNone(s.node, t.node);
    ClosingStep(s, t, []);
  }

  lemma KnownAfter(policy: int, s: State, e: Event, t: State)
    requires OpenOrLeaving(s) && Step(policy, s, e, t)
    ensures Known(t)
  {
    UnregisterKnown(policy, s, e, t);
    StepKeepsKnown(policy, s, e, t);
  }

  lemma UnregisterKnown(policy: int, s: State, e: Event, t: State)
    requires Known(s) && Step(policy, s, e, t)
    ensures forall c <- t.node.unregister :: c in t.accepted
  {
    var n := s.node;
    match e
    case TakeRegister =>
      var _ := Registers(policy, n.(register := n.register[1..]), n.register[0]);
    case TakeKick =>
      assert n.kicks[0] in n.kicks;
      var _ := KicksOff(policy, n.(kicks := n.kicks[1..]), n.kicks[0]);
    case ForceOff(u, p) =>
      OnPlatformMembers(Of(n.conns, u), p);
      var _ := ForcesOff(n, OnPlatform(Of(n.conns, u), p));
    case _ =>
  }

  /**
   * Exactly when: a step keeps every client that is registered, or waits to be, open or on its way out,
   * if and only if it does not unregister a client that still waits to be registered.
   */
  lemma StaysOpenExactly(policy: int, s: State, e: Event, t: State)
    requires OpenOrLeaving(s) && Step(policy, s, e, t)
    ensures OpenOrLeaving(t) <==> !Early(s, e)
  {
    KnownAfter(policy, s, e, t);
    match e
    case Accept(c) => AcceptOpen(policy, s, c, t);
    case TakeRegister => RegisterOpen(policy, s, t);
    case TakeUnregister =>
      if Early(s, e) { EarlyLeaks(policy, s, t); } else { UnregisterOpen(policy, s, t); }
    case TakeKick => KickOpen(policy, s, t);
    case Report(u, p, token) => ReportOpen(policy, s, u, p, token, t);
    case Disconnect(c) => DisconnectOpen(policy, s, c, t);
    case ForceOff(u, p) => ForceOpen(policy, s, u, p, t);
  }

  lemma {:induction false} RunStaysOpen(policy: int, run: seq<State>, events: seq<Event>, i: nat)
    requires IsRun(policy, run, events) && i < |run|
    requires forall j | 0 <= j < i :: !Early(run[j], events[j])
    ensures OpenOrLeaving(run[i])
  {
    if i > 0 {
      RunStaysOpen(policy, run, events, i - 1);
      StaysOpenExactly(policy, run[i - 1], events[i - 1], run[i]);
    }
  }

  /**
   * The registry holds open connections: in every state of every run in which no client is unregistered
   * before it was registered, each registered connection is open or its unregistration is queued, so
   * once that queue is empty all are open.
   */
  lemma RegistryIsOpen(policy: int, run: seq<State>, events: seq<Event>, i: nat, u: string, c: Client)
    requires IsRun(policy, run, events) && i < |run| && c in Of(run[i].node.conns, u)
    requires forall j | 0 <= j < i :: !Early(run[j], events[j])
    ensures c.userID == u && c in run[i].accepted
    ensures c.id !in run[i].node.closed || c in run[i].node.unregister
    ensures run[i].node.unregister == [] ==> c.id !in run[i].node.closed
  {
    RunStaysOpen(policy, run, events, i);
  }

  /**
   * Otherwise a connection can stay for good: accepted, disconnected, unregistered and only then
   * registered, it is in the registry with all queues empty, closed, and no longer counted.
   */
  lemma ClosedStaysRegistered(policy: int, c: Client) returns (run: seq<State>, events: seq<Event>)
    ensures IsRun(policy, run, events) && |events| == 4 && Early(run[2], events[2])
    ensures var n := run[|events|].node;
      && Of(n.conns, c.userID) == [c] && c.id in n.closed && n.connNum == 0
      && n.register == [] && n.unregister == [] && n.kicks == []
  {
    var s0 := State(NEW_NODE, {});
    var s1 := State(NEW_NODE.(register := [c]), {c});
    var s2 := s1.(node := Close(s1.node, c));
    var s3 := s2.(node := Unregistered(s2.node.(unregister := []), c));
    var s4 := s3.(node := Registered(policy, s3.node.(register := []), c));
    assert [] + [c] == [c] && [c][1..] == [];
    assert s3.node.conns == map[];
    run, events := [s0, s1, s2, s3, s4], [Accept(c), Disconnect(c), TakeUnregister, TakeRegister];
    assert {} + {c} == {c};
    assert Step(policy, s0, Accept(c), s1) && Step(policy, s1, Disconnect(c), s2);
    assert Step(policy, s2, TakeUnregister, s3) && Step(policy, s3, TakeRegister, s4);
  }
}
