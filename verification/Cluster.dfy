/**
 * Several gateway nodes. A login is registered on its own node, which then reports it to every other
 * node; a node that gets a report queues a kick for the connections it finds (registerClient,
 * sendUserOnlineInfoToOtherNode in internal/msggateway/n_ws_server.go and MultiTerminalLoginCheck in
 * hub_server.go). Logins, reports under way, kicks and disconnects interleave freely.
 */
module Cluster {
  import opened UserMaps
  import opened Gateway
  import opened GatewayRuns

  /** A report on its way to a node. */
  datatype LoginReport = LoginReport(target: nat, client: Client)

  /** `used` is all clients that ever logged in, `latest` the newest login of each user and platform. */
  datatype Cluster = Cluster(
    nodes: seq<Node>,
    reports: set<LoginReport>,
    used: set<Client>,
    latest: map<(string, int), (nat, Client)>)

  datatype Action =
    | Login(i: nat, c: Client)
    | Deliver(r: LoginReport)
    | DoKick(j: nat)
    | DoUnregister(j: nat)
    | Drops(j: nat, c: Client)
    | Force(j: nat, userID: string, platformID: int)

  predicate Init(s: Cluster) {
    && (forall j | 0 <= j < |s.nodes| :: s.nodes[j] == NEW_NODE)
    && s.reports == {} && s.used == {} && s.latest == map[]
  }

  /** The reports of a login: one to every other node. */
  function Reports(s: Cluster, i: nat, c: Client): set<LoginReport> {
    set j: nat | j < |s.nodes| && j != i :: LoginReport(j, c)
  }

  function Received(n: Node, c: Client): Node {
    LoginReported(n, c.userID, c.platformID, c.token)
  }

  ghost predicate Move(policy: int, s: Cluster, a: Action, t: Cluster) {
    match a
    case Login(i, c) =>
      && i < |s.nodes| && c.id !in Ids(s.used)
      && t == Cluster(s.nodes[i := Registered(policy, s.nodes[i], c)],
                      s.reports + Reports(s, i, c), s.used + {c}, s.latest[(c.userID, c.platformID) := (i, c)])
    case Deliver(r) =>
      && r in s.reports && r.target < |s.nodes|
      && t == s.(nodes := s.nodes[r.target := Received(s.nodes[r.target], r.client)], reports := s.reports - {r})
    case DoKick(j) =>
      && j < |s.nodes| && s.nodes[j].kicks != []
      && var n := s.nodes[j];
      t == s.(nodes := s.nodes[j := Kicked(policy, n.(kicks := n.kicks[1..]), n.kicks[0])])
    case DoUnregister(j) =>
      && j < |s.nodes| && s.nodes[j].unregister != []
      && var n := s.nodes[j];
      t == s.(nodes := s.nodes[j := Unregistered(n.(unregister := n.unregister[1..]), n.unregister[0])])
    case Drops(j, c) =>
      && j < |s.nodes| && c in s.used
      && t == s.(nodes := s.nodes[j := Close(s.nodes[j], c)])
    case Force(j, u, p) =>
      && j < |s.nodes|
      && t == s.(nodes := s.nodes[j := ForcedOff(s.nodes[j], OnPlatform(Of(s.nodes[j].conns, u), p))])
  }

  ghost predicate IsClusterRun(policy: int, run: seq<Cluster>, actions: seq<Action>) {
    && |run| == |actions| + 1
    && Init(run[0])
    && forall i | 0 <= i < |actions| :: Move(policy, run[i], actions[i], run[i + 1])
  }

  // ----- Every connection is the newest login of its kind, about to be kicked, or about to be reported -----

  predicate Newest(s: Cluster, j: nat, d: Client) {
    var key := (d.userID, d.platformID);
    key in s.latest && s.latest[key] == (j, d)
  }

  /** Handling `k` removes `d`. */
  predicate Dooms(policy: int, k: KickInfo, d: Client) {
    && Kicks(policy, k.newClient.platformID) && k.clientOK
    && k.newClient.userID == d.userID && d.remoteAddr in Addrs(k.oldClients)
  }

  ghost predicate Condemned(policy: int, n: Node, d: Client) {
    exists q :: 0 <= q < |n.kicks| && Dooms(policy, n.kicks[q], d)
  }

  predicate Matches(c: Client, d: Client) {
    c.userID == d.userID && c.platformID == d.platformID
  }

  /** A report under way will find `d` on node `j`. */
  predicate Reported(s: Cluster, j: nat, d: Client) {
    exists r <- s.reports :: r.target == j && Matches(r.client, d)
  }

  ghost predicate ConnOk(policy: int, s: Cluster, j: nat, u: string, d: Client)
    requires j < |s.nodes|
  {
    && d.userID == u
    && (Kicks(policy, d.platformID) ==> Condemned(policy, s.nodes[j], d) || Reported(s, j, d) || Newest(s, j, d))
  }

  ghost predicate NodeOk(policy: int, s: Cluster, j: nat)
    requires j < |s.nodes|
  {
    && OnePerPlatform(policy, s.nodes[j])
    && forall u, d | d in Of(s.nodes[j].conns, u) :: ConnOk(policy, s, j, u, d)
  }

  ghost predicate Inv(policy: int, s: Cluster) {
    forall j | 0 <= j < |s.nodes| :: NodeOk(policy, s, j)
  }

  lemma LoginHereConn(policy: int, s: Cluster, i: nat, c: Client, t: Cluster, u: string, d: Client)
    requires i < |s.nodes| && |t.nodes| == |s.nodes| && t.nodes[i] == Registered(policy, s.nodes[i], c)
    requires t.latest == s.latest[(c.userID, c.platformID) := (i, c)] && s.reports <= t.reports
    requires d in Of(t.nodes[i].conns, u)
    requires d in Of(s.nodes[i].conns, u) ==> ConnOk(policy, s, i, u, d)
    ensures ConnOk(policy, t, i, u, d)
  {
    var n, m := s.nodes[i], t.nodes[i];
    RegisteredMembers(policy, n, c, u, d);
    if d != c && Kicks(policy, d.platformID) {
      RegisteredFlags(policy, n, c);
      SameKicks(policy, n, m);
      if u == c.userID && d.platformID == c.platformID {
        RegisteredAlone(policy, n, c);
        OnPlatformMembers(Of(m.conns, u), d.platformID);
      }
    }
  }

  lemma LoginHere(policy: int, s: Cluster, i: nat, c: Client, t: Cluster)
    requires i < |s.nodes| && NodeOk(policy, s, i) && Move(policy, s, Login(i, c), t)
    ensures NodeOk(policy, t, i)
  {
    var n, m := s.nodes[i], t.nodes[i];
    forall u, p | Kicks(policy, p) ensures |OnPlatform(Of(m.conns, u), p)| <= 1 {
      if u == c.userID && p == c.platformID {
        RegisteredAlone(policy, n, c);
      } else {
        RegisteredSizes(policy, n, c, u, p);
      }
    }
    forall u, d | d in Of(m.conns, u) ensures ConnOk(policy, t, i, u, d) {
      LoginHereConn(policy, s, i, c, t, u, d);
    }
  }

  /** A reported login dooms the connections of its user and platform, and undooms nothing. */
  lemma ReportDooms(policy: int, n: Node, c: Client, d: Client)
    requires d in Of(n.conns, d.userID) && Kicks(policy, d.platformID)
    requires Condemned(policy, n, d) || Matches(c, d)
    ensures Condemned(policy, Received(n, c), d)
  {
    var m := Received(n, c);
    if Condemned(policy, n, d) {
      var q :| 0 <= q < |n.kicks| && Dooms(policy, n.kicks[q], d);
      assert Dooms(policy, m.kicks[q], d);
    } else {
      OnPlatformMembers(Of(n.conns, d.userID), c.platformID);
      assert Dooms(policy, m.kicks[|m.kicks| - 1], d);
    }
  }

  /** A login on another node puts a report under way to whatever it makes no longer the newest. */
  lemma LoginElsewhere(policy: int, s: Cluster, i: nat, c: Client, t: Cluster, j: nat)
    requires j < |s.nodes| && NodeOk(policy, s, j) && Move(policy, s, Login(i, c), t) && j != i
    ensures NodeOk(policy, t, j)
  {
    assert t.nodes[j] == s.nodes[j];
    assert LoginReport(j, c) in Reports(s, i, c);
    forall u, d | d in Of(t.nodes[j].conns, u) ensures ConnOk(policy, t, j, u, d) {
      assert ConnOk(policy, s, j, u, d);
      if Reported(s, j, d) {
        var r :| r in s.reports && r.target == j && Matches(r.client, d);
        assert r in t.reports;
      } else if Matches(c, d) {
        assert LoginReport(j, c) in t.reports;
      }
    }
  }

  lemma DeliverConn(policy: int, s: Cluster, r: LoginReport, t: Cluster, u: string, d: Client)
    requires Move(policy, s, Deliver(r), t) && d in Of(s.nodes[r.target].conns, u) && ConnOk(policy, s, r.target, u, d)
    ensures ConnOk(policy, t, r.target, u, d)
  {
    var n := s.nodes[r.target];
    if Kicks(policy, d.platformID) {
      if Condemned(policy, n, d) || Matches(r.client, d) {
        ReportDooms(policy, n, r.client, d);
      } else if Reported(s, r.target, d) {
        var q :| q in s.reports && q.target == r.target && Matches(q.client, d);
        assert q in t.reports;
      }
    }
  }

  lemma DeliverKeeps(policy: int, s: Cluster, r: LoginReport, t: Cluster, j: nat)
    requires j < |s.nodes| && NodeOk(policy, s, j) && Move(policy, s, Deliver(r), t)
    ensures NodeOk(policy, t, j)
  {
    assert t.nodes[j].conns == s.nodes[j].conns;
    forall u, d | d in Of(t.nodes[j].conns, u) ensures ConnOk(policy, t, j, u, d) {
      assert ConnOk(policy, s, j, u, d);
      if j == r.target {
        DeliverConn(policy, s, r, t, u, d);
      } else if Reported(s, j, d) {
        var q :| q in s.reports && q.target == j && Matches(q.client, d);
        assert q in t.reports;
      }
    }
  }

  /** A node that only loses connections, and kicks that doomed no connection it still has, stays right. */
  lemma Shrinks(policy: int, s: Cluster, j: nat, t: Cluster)
    requires j < |s.nodes| && NodeOk(policy, s, j)
    requires t.latest == s.latest && t.reports == s.reports && |t.nodes| == |s.nodes|
    requires forall u, p :: |OnPlatform(Of(t.nodes[j].conns, u), p)| <= |OnPlatform(Of(s.nodes[j].conns, u), p)|
    requires forall u, d | d in Of(t.nodes[j].conns, u) :: d in Of(s.nodes[j].conns, u)
    requires forall u, d | d in Of(t.nodes[j].conns, u) && Condemned(policy, s.nodes[j], d) ::
      Condemned(policy, t.nodes[j], d)
    ensures NodeOk(policy, t, j)
  {
    forall u, d | d in Of(t.nodes[j].conns, u) ensures ConnOk(policy, t, j, u, d) {
      assert ConnOk(policy, s, j, u, d);
    }
  }

  /** A doomed connection that outlives the kick at the head of the queue is doomed by a later one. */
  lemma StillDoomed(policy: int, n: Node, m: Node, d: Client)
    requires n.kicks != [] && m.kicks == n.kicks[1..]
    requires Condemned(policy, n, d) && !Dooms(policy, n.kicks[0], d)
    ensures Condemned(policy, m, d)
  {
    var q :| 0 <= q < |n.kicks| && Dooms(policy, n.kicks[q], d);
    assert Dooms(policy, m.kicks[q - 1], d);
  }

  lemma KickedConn(policy: int, n: Node, m: Node, u: string, d: Client)
    requires n.kicks != [] && m == Kicked(policy, n.(kicks := n.kicks[1..]), n.kicks[0])
    requires d in Of(m.conns, u)
    ensures d in Of(n.conns, u)
    ensures d.userID == u && Condemned(policy, n, d) ==> Condemned(policy, m, d)
  {
    var k, popped := n.kicks[0], n.(kicks := n.kicks[1..]);
    KickedFlags(policy, popped, k);
    KickedConns(policy, popped, k);
    DropMembers(n.conns, k.newClient.userID, Addrs(k.oldClients), u, d);
    if d.userID == u && Condemned(policy, n, d) {
      StillDoomed(policy, n, m, d);
    }
  }

  lemma KickKeeps(policy: int, s: Cluster, j: nat, t: Cluster)
    requires j < |s.nodes| && NodeOk(policy, s, j) && Move(policy, s, DoKick(j), t)
    ensures NodeOk(policy, t, j)
  {
    var n, m, k := s.nodes[j], t.nodes[j], s.nodes[j].kicks[0];
    forall u, p ensures |OnPlatform(Of(m.conns, u), p)| <= |OnPlatform(Of(n.conns, u), p)| {
      KickedConns(policy, n.(kicks := n.kicks[1..]), k);
      DropSizes(n.conns, k.newClient.userID, Addrs(k.oldClients), u, p);
    }
    forall u, d | d in Of(m.conns, u) ensures d in Of(n.conns, u) {
      KickedConn(policy, n, m, u, d);
    }
    forall u, d | d in Of(m.conns, u) && Condemned(policy, n, d) ensures Condemned(policy, m, d) {
      KickedConn(policy, n, m, u, d);
      assert ConnOk(policy, s, j, u, d);
    }
    Shrinks(policy, s, j, t);
  }

  lemma SameKicks(policy: int, n: Node, m: Node)
    requires n.kicks == m.kicks
    ensures forall d :: Condemned(policy, n, d) <==> Condemned(policy, m, d)
  {
  }

  lemma OthersKeep(policy: int, s: Cluster, a: Action, t: Cluster)
    requires Inv(policy, s) && Move(policy, s, a, t) && (a.DoUnregister? || a.Drops? || a.Force?)
    ensures NodeOk(policy, t, a.j)
  {
    var n, m := s.nodes[a.j], t.nodes[a.j];
    assert NodeOk(policy, s, a.j);
    if a.Force? {
      ForcedOffFlags(n, OnPlatform(Of(n.conns, a.userID), a.platformID));
    }
    SameKicks(policy, n, m);
    forall u, p ensures |OnPlatform(Of(m.conns, u), p)| <= |OnPlatform(Of(n.conns, u), p)| {
      if a.DoUnregister? {
        DropSizes(n.conns, n.unregister[0].userID, {n.unregister[0].remoteAddr}, u, p);
      } else if a.Force? {
        ForcedOffSizes(n, OnPlatform(Of(n.conns, a.userID), a.platformID), u, p);
      }
    }
    forall u, d | d in Of(m.conns, u) ensures d in Of(n.conns, u) {
      if a.DoUnregister? {
        DropMembers(n.conns, n.unregister[0].userID, {n.unregister[0].remoteAddr}, u, d);
      } else if a.Force? {
        ForcedOffMembers(n, OnPlatform(Of(n.conns, a.userID), a.platformID), u, d);
      }
    }
    Shrinks(policy, s, a.j, t);
  }

  lemma MoveKeepsInv(policy: int, s: Cluster, a: Action, t: Cluster)
    requires Inv(policy, s) && Move(policy, s, a, t)
    ensures Inv(policy, t)
  {
    forall j | 0 <= j < |t.nodes| ensures NodeOk(policy, t, j) {
      assert NodeOk(policy, s, j);
      match a
      case Login(i, c) => if j == i { LoginHere(policy, s, i, c, t); } else { LoginElsewhere(policy, s, i, c, t, j); }
      case Deliver(r) => DeliverKeeps(policy, s, r, t, j);
      case DoKick(q) => if j == q { KickKeeps(policy, s, q, t); }
      case DoUnregister(q) => if j == q { OthersKeep(policy, s, a, t); }
      case Drops(q, _) => if j == q { OthersKeep(policy, s, a, t); }
      case Force(q, _, _) => if j == q { OthersKeep(policy, s, a, t); }
    }
  }

  lemma {:induction false} RunKeepsInv(policy: int, run: seq<Cluster>, actions: seq<Action>, n: nat)
    requires IsClusterRun(policy, run, actions) && n < |run|
    ensures Inv(policy, run[n])
  {
    if n > 0 {
      RunKeepsInv(policy, run, actions, n - 1);
      MoveKeepsInv(policy, run[n - 1], actions[n - 1], run[n]);
    }
  }

  /** No report is under way and no kick is queued. */
  predicate Drained(s: Cluster) {
    s.reports == {} && forall j | 0 <= j < |s.nodes| :: s.nodes[j].kicks == []
  }

  /**
   * Cluster-wide single terminal: in every run, however logins on different nodes overlap, whenever all
   * reports have arrived and all kick queues are empty, the whole cluster holds at most one connection
   * of a user on a platform the policy guards, and it is the user's newest login there.
   */
  lemma ClusterSingleTerminal(
    policy: int, run: seq<Cluster>, actions: seq<Action>, n: nat, u: string, p: int, j: nat)
    requires IsClusterRun(policy, run, actions) && n < |run|
    requires Drained(run[n]) && Kicks(policy, p) && j < |run[n].nodes|
    ensures
      var s := run[n];
      var here := OnPlatform(Of(s.nodes[j].conns, u), p);
      here == [] || ((u, p) in s.latest && s.latest[(u, p)].0 == j && here == [s.latest[(u, p)].1])
  {
    RunKeepsInv(policy, run, actions, n);
    var s := run[n];
    var here := OnPlatform(Of(s.nodes[j].conns, u), p);
    assert NodeOk(policy, s, j);
    OnPlatformMembers(Of(s.nodes[j].conns, u), p);
    if here != [] {
      assert here[0] in here;
      assert |here| <= 1;
    }
  }

  // ----- What a node knows -----

  /** Each login comes from an address of its own. */
  predicate OwnAddress(s: Cluster, a: Action) {
    a.Login? ==> forall d <- s.used :: d.remoteAddr != a.c.remoteAddr
  }

  /** No report of an earlier login of the same kind is still on its way to the node of a new one. */
  predicate InTurn(s: Cluster, a: Action) {
    a.Login? ==> forall r <- s.reports :: !(r.target == a.i && Matches(r.client, a.c))
  }

  /** Addresses and ids tell clients apart. */
  ghost predicate Distinct(used: set<Client>) {
    forall c, d | c in used && d in used && (c.remoteAddr == d.remoteAddr || c.id == d.id) :: c == d
  }

  /** Reports are under way only to nodes that do not hold the newest login of their kind. */
  ghost predicate ReportsBehind(s: Cluster) {
    forall r <- s.reports, c | Matches(r.client, c) :: !Newest(s, r.target, c)
  }

  ghost predicate LatestOk(s: Cluster) {
    forall key <- s.latest ::
      var (i, c) := s.latest[key]; key == (c.userID, c.platformID) && c in s.used && i < |s.nodes|
  }

  ghost predicate ConnsKnown(used: set<Client>, n: Node) {
    forall u, d | d in Of(n.conns, u) :: d in used && d.userID == u
  }

  ghost predicate ClosedKnown(used: set<Client>, n: Node) {
    && (forall d <- n.unregister :: d in used && d.id in n.closed)
    && n.closed <= Ids(used)
  }

  /** No queued kick names the newest login of its kind. */
  ghost predicate KicksBehind(s: Cluster, j: nat)
    requires j < |s.nodes|
  {
    forall k <- s.nodes[j].kicks, d <- k.oldClients :: d in s.used && !Newest(s, j, d)
  }

  ghost predicate NodeKnown(s: Cluster, j: nat)
    requires j < |s.nodes|
  {
    ConnsKnown(s.used, s.nodes[j]) && ClosedKnown(s.used, s.nodes[j]) && KicksBehind(s, j)
  }

  ghost predicate AllKnown(s: Cluster) {
    && Distinct(s.used) && LatestOk(s) && ReportsBehind(s)
    && forall j | 0 <= j < |s.nodes| :: NodeKnown(s, j)
  }

  /** Closing known clients keeps what is known about the closed ones. */
  lemma ClosedStaysKnown(used: set<Client>, n: Node, m: Node, cs: seq<Client>)
    requires ClosedKnown(used, n) && ClosedThese(n, m, cs) && forall d <- cs :: d in used
    ensures ClosedKnown(used, m)
  {
    forall id <- m.closed ensures id in Ids(used) {
      if id !in n.closed {
        var q :| 0 <= q < |cs| && cs[q].id == id;
        assert cs[q] in used;
      }
    }
  }

  lemma MoreUsed(used: set<Client>, c: Client, n: Node)
    requires ClosedKnown(used, n)
    ensures ClosedKnown(used + {c}, n)
  {
    assert Ids(used) <= Ids(used + {c});
  }

  lemma LoginConns(policy: int, used: set<Client>, n: Node, c: Client)
    requires ConnsKnown(used, n)
    ensures ConnsKnown(used + {c}, Registered(policy, n, c))
  {
    forall u, d | d in Of(Registered(policy, n, c).conns, u) ensures d in used + {c} && d.userID == u {
      RegisteredMembers(policy, n, c, u, d);
    }
  }

  /** The connections a login kicks are known and of its kind. */
  lemma KickedByKnown(policy: int, used: set<Client>, n: Node, c: Client)
    requires ConnsKnown(used, n)
    ensures forall d <- KickedBy(policy, n, c) :: d in used && Matches(c, d)
  {
    OnPlatformMembers(Of(n.conns, c.userID), c.platformID);
  }

  lemma LoginClosed(policy: int, used: set<Client>, n: Node, c: Client)
    requires ConnsKnown(used, n) && ClosedKnown(used, n)
    ensures ClosedKnown(used + {c}, Registered(policy, n, c)) && Registered(policy, n, c).kicks == n.kicks
  {
    RegisteredFlags(policy, n, c);
    KickedByKnown(policy, used, n, c);
    ClosedStaysKnown(used, n, Registered(policy, n, c), KickedBy(policy, n, c));
    MoreUsed(used, c, Registered(policy, n, c));
  }

  /** A login makes no earlier login newer. */
  lemma KicksStayBehind(s: Cluster, j: nat, t: Cluster)
    requires j < |s.nodes| && j < |t.nodes| && KicksBehind(s, j) && t.nodes[j].kicks == s.nodes[j].kicks
    requires s.used <= t.used && forall d <- s.used :: Newest(t, j, d) ==> Newest(s, j, d)
    ensures KicksBehind(t, j)
  {
    forall k <- t.nodes[j].kicks, d <- k.oldClients ensures d in t.used && !Newest(t, j, d) {
      assert k in s.nodes[j].kicks && d in s.used && !Newest(s, j, d);
    }
  }

  lemma LoginNode(policy: int, s: Cluster, i: nat, c: Client, t: Cluster, j: nat)
    requires j < |s.nodes| && NodeKnown(s, j) && Move(policy, s, Login(i, c), t)
    ensures NodeKnown(t, j)
  {
    assert c !in s.used;
    assert forall d <- s.used :: Newest(t, j, d) ==> Newest(s, j, d);
    if j == i {
      LoginConns(policy, s.used, s.nodes[j], c);
      LoginClosed(policy, s.used, s.nodes[j], c);
    } else {
      assert t.nodes[j] == s.nodes[j];
      MoreUsed(s.used, c, s.nodes[j]);
    }
    KicksStayBehind(s, j, t);
  }

  lemma LoginBehind(policy: int, s: Cluster, i: nat, c: Client, t: Cluster)
    requires ReportsBehind(s) && Move(policy, s, Login(i, c), t) && InTurn(s, Login(i, c))
    ensures ReportsBehind(t)
  {
    forall r <- t.reports, d | Matches(r.client, d) ensures !Newest(t, r.target, d) {
      if r in s.reports {
        assert !Newest(s, r.target, d);
      } else {
        assert r in Reports(s, i, c);
      }
    }
  }

  lemma LoginKnown(policy: int, s: Cluster, i: nat, c: Client, t: Cluster)
    requires AllKnown(s) && Move(policy, s, Login(i, c), t) && OwnAddress(s, Login(i, c)) && InTurn(s, Login(i, c))
    ensures AllKnown(t)
  {
    forall j | 0 <= j < |t.nodes| ensures NodeKnown(t, j) {
      LoginNode(policy, s, i, c, t, j);
    }
    LoginBehind(policy, s, i, c, t);
    assert forall d <- s.used :: d.id in Ids(s.used);
  }

  /** What a report queues is not the newest login. */
  lemma DeliverNode(policy: int, s: Cluster, r: LoginReport, t: Cluster)
    requires AllKnown(s) && Move(policy, s, Deliver(r), t)
    ensures NodeKnown(t, r.target)
  {
    var n, m := s.nodes[r.target], t.nodes[r.target];
    assert NodeKnown(s, r.target);
    var same := OnPlatform(Of(n.conns, r.client.userID), r.client.platformID);
    OnPlatformMembers(Of(n.conns, r.client.userID), r.client.platformID);
    forall k <- m.kicks, d <- k.oldClients ensures d in t.used && !Newest(t, r.target, d) {
      if k in n.kicks {
        assert !Newest(s, r.target, d);
      } else {
        assert k.oldClients == same && d in Of(n.conns, r.client.userID);
        assert Matches(r.client, d) && !Newest(s, r.target, d);
      }
    }
  }

  /** The nodes a step does not touch, and the reports, stay as they were known. */
  lemma OthersKnown(s: Cluster, q: nat, t: Cluster)
    requires AllKnown(s) && q < |s.nodes| == |t.nodes| && t.nodes == s.nodes[q := t.nodes[q]]
    requires t.used == s.used && t.latest == s.latest && t.reports <= s.reports && NodeKnown(t, q)
    ensures AllKnown(t)
  {
    forall j | 0 <= j < |t.nodes| ensures NodeKnown(t, j) {
      if j != q {
        assert NodeKnown(s, j) && t.nodes[j] == s.nodes[j];
        KicksStayBehind(s, j, t);
      }
    }
    forall r <- t.reports, d | Matches(r.client, d) ensures !Newest(t, r.target, d) {
      assert !Newest(s, r.target, d);
    }
  }

  /** A node that kept or lost kicks, kept or lost connections, and closed only known clients. */
  lemma ShrunkNode(s: Cluster, j: nat, t: Cluster, cs: seq<Client>)
    requires j < |s.nodes| && j < |t.nodes| && NodeKnown(s, j) && t.used == s.used && t.latest == s.latest
    requires forall k <- t.nodes[j].kicks :: k in s.nodes[j].kicks
    requires forall u, d | d in Of(t.nodes[j].conns, u) :: d in Of(s.nodes[j].conns, u)
    requires ClosedThese(s.nodes[j], t.nodes[j], cs) && forall d <- cs :: d in s.used
    ensures NodeKnown(t, j)
  {
    ClosedStaysKnown(s.used, s.nodes[j], t.nodes[j], cs);
    forall k <- t.nodes[j].kicks, d <- k.oldClients ensures d in t.used && !Newest(t, j, d) {
      assert k in s.nodes[j].kicks && !Newest(s, j, d);
    }
  }

  lemma KickFrame(policy: int, n: Node, m: Node)
    requires n.kicks != [] && m == Kicked(policy, n.(kicks := n.kicks[1..]), n.kicks[0])
    ensures m.kicks == n.kicks[1..] && ClosedThese(n, m, ClosedByKick(policy, n.kicks[0]))
    ensures forall u, d | d in Of(m.conns, u) :: d in Of(n.conns, u)
  {
    var k, popped := n.kicks[0], n.(kicks := n.kicks[1..]);
    KickedFlags(policy, popped, k);
    KickedConns(policy, popped, k);
    forall u, d | d in Of(m.conns, u) ensures d in Of(n.conns, u) {
      DropMembers(n.conns, k.newClient.userID, Addrs(k.oldClients), u, d);
    }
  }

  lemma KickNode(policy: int, s: Cluster, j: nat, t: Cluster)
    requires AllKnown(s) && Move(policy, s, DoKick(j), t)
    ensures NodeKnown(t, j)
  {
    var n := s.nodes[j];
    assert NodeKnown(s, j) && n.kicks[0] in n.kicks;
    KickFrame(policy, n, t.nodes[j]);
    ShrunkNode(s, j, t, ClosedByKick(policy, n.kicks[0]));
  }

  lemma UnregisterNode(policy: int, s: Cluster, j: nat, t: Cluster)
    requires AllKnown(s) && Move(policy, s, DoUnregister(j), t)
    ensures NodeKnown(t, j)
  {
    var n, m := s.nodes[j], t.nodes[j];
    assert NodeKnown(s, j);
    forall u, d | d in Of(m.conns, u) ensures d in s.used && d.userID == u {
      DropMembers(n.conns, n.unregister[0].userID, {n.unregister[0].remoteAddr}, u, d);
    }
    KicksStayBehind(s, j, t);
  }

  lemma DropsNode(policy: int, s: Cluster, j: nat, c: Client, t: Cluster)
    requires AllKnown(s) && Move(policy, s, Drops(j, c), t)
    ensures NodeKnown(t, j)
  {
    var n := s.nodes[j];
    assert NodeKnown(s, j);
    ClosedNone(n);
    ClosedOne(n, n, [], c);
    assert [] + [c] == [c];
    ShrunkNode(s, j, t, [c]);
  }

  lemma ForceNode(policy: int, s: Cluster, j: nat, u: string, p: int, t: Cluster)
    requires AllKnown(s) && Move(policy, s, Force(j, u, p), t)
    ensures NodeKnown(t, j)
  {
    var n := s.nodes[j];
    var cs := OnPlatform(Of(n.conns, u), p);
    assert NodeKnown(s, j);
    ForcedOffFlags(n, cs);
    OnPlatformMembers(Of(n.conns, u), p);
    forall v, d | d in Of(t.nodes[j].conns, v) ensures d in Of(n.conns, v) {
      ForcedOffMembers(n, cs, v, d);
    }
    ShrunkNode(s, j, t, cs);
  }

  lemma MoveKeepsKnown(policy: int, s: Cluster, a: Action, t: Cluster)
    requires AllKnown(s) && Move(policy, s, a, t) && OwnAddress(s, a) && InTurn(s, a)
    ensures AllKnown(t)
  {
    match a
    case Login(i, c) => LoginKnown(policy, s, i, c, t);
    case Deliver(r) =>
      DeliverNode(policy, s, r, t);
      OthersKnown(s, r.target, t);
    case DoKick(j) =>
      KickNode(policy, s, j, t);
      OthersKnown(s, j, t);
    case DoUnregister(j) =>
      UnregisterNode(policy, s, j, t);
      OthersKnown(s, j, t);
    case Drops(j, c) =>
      DropsNode(policy, s, j, c, t);
      OthersKnown(s, j, t);
    case Force(j, u, p) =>
      ForceNode(policy, s, j, u, p, t);
      OthersKnown(s, j, t);
  }

  /** Own addresses, and logins of a kind in turn, throughout. */
  ghost predicate Orderly(run: seq<Cluster>, actions: seq<Action>)
    requires |run| == |actions| + 1
  {
    forall k | 0 <= k < |actions| :: OwnAddress(run[k], actions[k]) && InTurn(run[k], actions[k])
  }

  lemma {:induction false} RunKeepsKnown(policy: int, run: seq<Cluster>, actions: seq<Action>, n: nat)
    requires IsClusterRun(policy, run, actions) && Orderly(run, actions) && n < |run|
    ensures AllKnown(run[n])
  {
    if n > 0 {
      RunKeepsKnown(policy, run, actions, n - 1);
      assert Move(policy, run[n - 1], actions[n - 1], run[n]);
      MoveKeepsKnown(policy, run[n - 1], actions[n - 1], run[n]);
    }
  }
}
