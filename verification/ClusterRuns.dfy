/**
 * Who wins when a user logs in on several nodes: with logins taken in turn the newest login, which no
 * kick then takes; out of turn possibly nobody.
 */
module ClusterRuns {
  import opened UserMaps
  import opened Gateway
  import opened GatewayRuns
  import opened Cluster

  // ----- The newest login is never kicked -----

  /** Registered and not closed. */
  predicate Alive(s: Cluster, i: nat, c: Client) {
    i < |s.nodes| && c.id !in s.nodes[i].closed && c in Of(s.nodes[i].conns, c.userID)
  }

  /** What ends a connection from outside: it drops, or the user is forced off the platform on its node. */
  predicate EndsOutside(a: Action, i: nat, c: Client) {
    || (a.Drops? && a.j == i && a.c.id == c.id)
    || (a.Force? && a.j == i && a.userID == c.userID && a.platformID == c.platformID)
  }

  lemma NotAmongClosed(used: set<Client>, n: Node, m: Node, cs: seq<Client>, c: Client)
    requires ClosedThese(n, m, cs) && c.id !in n.closed && Distinct(used) && c in used
    requires forall d <- cs :: d in used && d != c
    ensures c.id !in m.closed && c.remoteAddr !in Addrs(cs)
  {
    forall q | 0 <= q < |cs| ensures cs[q].id != c.id {
      assert cs[q] in cs;
    }
  }

  lemma AliveAtLogin(policy: int, s: Cluster, i: nat, c: Client, t: Cluster)
    requires AllKnown(s) && Move(policy, s, Login(i, c), t)
    ensures Alive(t, i, c) && Newest(t, i, c)
  {
    var n := s.nodes[i];
    assert NodeKnown(s, i);
    RegisteredFlags(policy, n, c);
    RegisteredMembers(policy, n, c, c.userID, c);
    KickedByKnown(policy, s.used, n, c);
    forall q | 0 <= q < |KickedBy(policy, n, c)| ensures KickedBy(policy, n, c)[q].id != c.id {
      assert KickedBy(policy, n, c)[q] in s.used;
    }
  }

  /** A login of another kind on the same node. */
  lemma AliveThroughLogin(policy: int, s: Cluster, i: nat, e: Client, t: Cluster, c: Client)
    requires AllKnown(s) && Move(policy, s, Login(i, e), t) && Alive(s, i, c) && c in s.used && !Matches(e, c)
    ensures Alive(t, i, c)
  {
    var n := s.nodes[i];
    assert NodeKnown(s, i);
    RegisteredFlags(policy, n, e);
    RegisteredMembers(policy, n, e, c.userID, c);
    KickedByKnown(policy, s.used, n, e);
    NotAmongClosed(s.used, n, t.nodes[i], KickedBy(policy, n, e), c);
  }

  /** A kick spares the newest login. */
  lemma AliveThroughKick(policy: int, s: Cluster, i: nat, t: Cluster, c: Client)
    requires AllKnown(s) && Move(policy, s, DoKick(i), t) && Alive(s, i, c) && Newest(s, i, c) && c in s.used
    ensures Alive(t, i, c)
  {
    var n, k := s.nodes[i], s.nodes[i].kicks[0];
    assert NodeKnown(s, i) && k in n.kicks;
    assert forall d <- k.oldClients :: d in s.used && d != c;
    KickFrame(policy, n, t.nodes[i]);
    NotAmongClosed(s.used, n, t.nodes[i], ClosedByKick(policy, k), c);
    KickedConns(policy, n.(kicks := n.kicks[1..]), k);
    DropMembers(n.conns, k.newClient.userID, Addrs(k.oldClients), c.userID, c);
  }

  lemma AliveThroughUnregister(policy: int, s: Cluster, i: nat, t: Cluster, c: Client)
    requires AllKnown(s) && Move(policy, s, DoUnregister(i), t) && Alive(s, i, c) && c in s.used
    ensures Alive(t, i, c)
  {
    var n, gone := s.nodes[i], s.nodes[i].unregister[0];
    assert NodeKnown(s, i) && gone in n.unregister;
    DropMembers(n.conns, gone.userID, {gone.remoteAddr}, c.userID, c);
  }

  lemma AliveThroughForce(policy: int, s: Cluster, i: nat, u: string, p: int, t: Cluster, c: Client)
    requires AllKnown(s) && Move(policy, s, Force(i, u, p), t) && Alive(s, i, c) && c in s.used
    requires !(u == c.userID && p == c.platformID)
    ensures Alive(t, i, c)
  {
    var n := s.nodes[i];
    var cs := OnPlatform(Of(n.conns, u), p);
    assert NodeKnown(s, i);
    OnPlatformMembers(Of(n.conns, u), p);
    ForcedOffFlags(n, cs);
    NotAmongClosed(s.used, n, t.nodes[i], cs, c);
    ForcedOffMembers(n, cs, c.userID, c);
  }

  /** Only what comes from outside ends the newest login; in particular no kick and no other login does. */
  lemma MoveKeepsAlive(policy: int, s: Cluster, a: Action, t: Cluster, i: nat, c: Client)
    requires AllKnown(s) && Move(policy, s, a, t) && Newest(s, i, c) && Newest(t, i, c)
    requires Alive(s, i, c) && !EndsOutside(a, i, c)
    ensures Alive(t, i, c)
  {
    assert c in s.used;
    match a
    case Login(j, e) =>
      assert c.id in Ids(s.used);
      if j == i { AliveThroughLogin(policy, s, i, e, t, c); }
    case DoKick(j) => if j == i { AliveThroughKick(policy, s, i, t, c); }
    case DoUnregister(j) => if j == i { AliveThroughUnregister(policy, s, i, t, c); }
    case Force(j, u, p) => if j == i { AliveThroughForce(policy, s, i, u, p, t, c); }
    case Deliver(_) =>
    case Drops(_, _) =>
  }

  lemma NewestBefore(policy: int, s: Cluster, a: Action, t: Cluster, i: nat, c: Client)
    requires Move(policy, s, a, t) && Newest(t, i, c) && a != Login(i, c)
    ensures Newest(s, i, c)
  {
  }

  /** Alive if the newest of its kind. */
  predicate Safe(s: Cluster, i: nat, c: Client) {
    Newest(s, i, c) ==> Alive(s, i, c)
  }

  lemma MoveKeepsSafe(policy: int, s: Cluster, a: Action, t: Cluster, i: nat, c: Client)
    requires AllKnown(s) && Move(policy, s, a, t) && !EndsOutside(a, i, c)
    requires a == Login(i, c) || Safe(s, i, c)
    ensures Safe(t, i, c)
  {
    if a == Login(i, c) {
      AliveAtLogin(policy, s, i, c, t);
    } else if Newest(t, i, c) {
      NewestBefore(policy, s, a, t, i, c);
      MoveKeepsAlive(policy, s, a, t, i, c);
    }
  }

  lemma RunKeepsSafe(policy: int, run: seq<Cluster>, actions: seq<Action>, n: nat, i: nat, c: Client)
    requires IsClusterRun(policy, run, actions) && Orderly(run, actions) && n < |actions|
    requires !EndsOutside(actions[n], i, c) && (actions[n] == Login(i, c) || Safe(run[n], i, c))
    ensures Safe(run[n + 1], i, c)
  {
    RunKeepsKnown(policy, run, actions, n);
    MoveKeepsSafe(policy, run[n], actions[n], run[n + 1], i, c);
  }

  /** Since its login, while it is the newest and nothing ended it from outside, a login is alive. */
  lemma {:induction false} SafeSince(
    policy: int, run: seq<Cluster>, actions: seq<Action>, m: nat, n: nat, i: nat, c: Client)
    requires IsClusterRun(policy, run, actions) && Orderly(run, actions)
    requires m < n < |run| && actions[m] == Login(i, c)
    requires forall k | m < k < n :: !EndsOutside(actions[k], i, c)
    ensures Safe(run[n], i, c)
  {
    if n > m + 1 {
      SafeSince(policy, run, actions, m, n - 1, i, c);
    }
    RunKeepsSafe(policy, run, actions, n - 1, i, c);
  }

  lemma {:induction false} LatestLogin(
    policy: int, run: seq<Cluster>, actions: seq<Action>, n: nat, key: (string, int)) returns (m: nat)
    requires IsClusterRun(policy, run, actions) && n < |run| && key in run[n].latest
    ensures m < n && actions[m] == Login(run[n].latest[key].0, run[n].latest[key].1)
    ensures key == (run[n].latest[key].1.userID, run[n].latest[key].1.platformID)
  {
    assert n > 0;
    var a := actions[n - 1];
    assert Move(policy, run[n - 1], a, run[n]);
    if a.Login? && key == (a.c.userID, a.c.platformID) {
      m := n - 1;
    } else {
      m := LatestLogin(policy, run, actions, n - 1, key);
    }
  }

  /**
   * The newest login is never kicked: with distinct addresses and logins of a kind in turn, in every
   * state of every run, if a user's newest login on a platform is closed or no longer registered, then
   * since that login its connection dropped or the user was forced off there. No kick and no other
   * login ever closes or removes it.
   */
  lemma NewestNeverKicked(policy: int, run: seq<Cluster>, actions: seq<Action>, n: nat, key: (string, int))
    returns (m: nat)
    requires IsClusterRun(policy, run, actions) && Orderly(run, actions) && n < |run| && key in run[n].latest
    ensures var (i, c) := run[n].latest[key];
      && m < n && actions[m] == Login(i, c) && i < |run[n].nodes|
      && (c.id in run[n].nodes[i].closed || c !in Of(run[n].nodes[i].conns, c.userID) ==>
            exists k :: m < k < n && EndsOutside(actions[k], i, c))
  {
    m := LatestLogin(policy, run, actions, n, key);
    RunKeepsKnown(policy, run, actions, n);
    var (i, c) := run[n].latest[key];
    if forall k | m < k < n :: !EndsOutside(actions[k], i, c) {
      SafeSince(policy, run, actions, m, n, i, c);
    }
  }

  /**
   * The newest login wins: there, unless it was ended from outside since, a user's newest login on a
   * guarded platform is registered on its node, alone; and once reports and kicks are drained no other
   * node holds a connection of that user on that platform.
   */
  lemma NewestLoginWins(
    policy: int, run: seq<Cluster>, actions: seq<Action>, m: nat, n: nat, i: nat, c: Client, j: nat)
    requires IsClusterRun(policy, run, actions) && Orderly(run, actions) && m < n < |run|
    requires actions[m] == Login(i, c) && Newest(run[n], i, c) && Kicks(policy, c.platformID)
    requires forall k | m < k < n :: !EndsOutside(actions[k], i, c)
    requires j < |run[n].nodes|
    ensures
      var here := OnPlatform(Of(run[n].nodes[j].conns, c.userID), c.platformID);
      (j == i ==> here == [c]) && (j != i && Drained(run[n]) ==> here == [])
  {
    SafeSince(policy, run, actions, m, n, i, c);
    if j == i {
      RunKeepsInv(policy, run, actions, n);
      assert NodeOk(policy, run[n], i);
      OnPlatformMembers(Of(run[n].nodes[i].conns, c.userID), c.platformID);
      var here := OnPlatform(Of(run[n].nodes[i].conns, c.userID), c.platformID);
      assert c in here && |here| <= 1;
    } else if Drained(run[n]) {
      ClusterSingleTerminal(policy, run, actions, n, c.userID, c.platformID, j);
    }
  }

  // ----- Exactly when a login can be kicked while it is the newest -----

  /** `run2` and `actions2` begin with `run`, `actions` and `a`. */
  predicate Continues(
    run: seq<Cluster>, actions: seq<Action>, a: Action, run2: seq<Cluster>, actions2: seq<Action>)
  {
    && |run| == |actions| + 1 <= |actions2| && |run2| == |actions2| + 1
    && run2[..|run|] == run && actions2[..|actions|] == actions && actions2[|actions|] == a
  }

  /** An action that keeps addresses and turns and does not end `c` from outside. */
  predicate Quiet(s: Cluster, a: Action, i: nat, c: Client) {
    OwnAddress(s, a) && InTurn(s, a) && !EndsOutside(a, i, c)
  }

  ghost predicate QuietAfter(m: nat, run: seq<Cluster>, actions: seq<Action>, i: nat, c: Client)
    requires |run| == |actions| + 1
  {
    forall k | m < k < |actions| :: Quiet(run[k], actions[k], i, c)
  }

  /** `run2` and `actions2` go on from `run` with the login of `c` on node `i`, which nothing ends from outside. */
  ghost predicate GoesOn(
    policy: int, run: seq<Cluster>, actions: seq<Action>, i: nat, c: Client, run2: seq<Cluster>, actions2: seq<Action>)
  {
    && IsClusterRun(policy, run2, actions2) && Continues(run, actions, Login(i, c), run2, actions2)
    && QuietAfter(|actions|, run2, actions2, i, c) && Newest(run2[|actions2|], i, c)
  }

  /** Some continuation, orderly after the login, closes and removes it while it is the newest of its kind. */
  ghost predicate Kickable(policy: int, run: seq<Cluster>, actions: seq<Action>, i: nat, c: Client) {
    exists run2, actions2 ::
      GoesOn(policy, run, actions, i, c, run2, actions2) && Removed(run2[|actions2|], i, c)
  }

  predicate Removed(s: Cluster, i: nat, c: Client) {
    i < |s.nodes| && c.id in s.nodes[i].closed && c !in Of(s.nodes[i].conns, c.userID)
  }

  /** Handling `k` closes and removes `c`. */
  predicate KicksOut(policy: int, k: KickInfo, c: Client) {
    Kicks(policy, k.newClient.platformID) && k.clientOK && c in k.oldClients && k.newClient.userID == c.userID
  }

  lemma KickedOut(policy: int, n: Node, m: Node, c: Client)
    requires n.kicks != [] && m == Kicked(policy, n.(kicks := n.kicks[1..]), n.kicks[0])
    requires KicksOut(policy, n.kicks[0], c)
    ensures c.id in m.closed && c !in Of(m.conns, c.userID)
  {
    var k := n.kicks[0];
    KickFrame(policy, n, m);
    var q :| 0 <= q < |k.oldClients| && k.oldClients[q] == c;
    assert ClosedByKick(policy, k)[q].id == c.id;
    KickedConns(policy, n.(kicks := n.kicks[1..]), k);
    assert c.remoteAddr in Addrs(k.oldClients);
    DropMembers(n.conns, k.newClient.userID, Addrs(k.oldClients), c.userID, c);
  }

  lemma Extend(policy: int, run: seq<Cluster>, actions: seq<Action>, a: Action, t: Cluster)
    returns (run2: seq<Cluster>, actions2: seq<Action>)
    requires IsClusterRun(policy, run, actions) && Move(policy, run[|actions|], a, t)
    ensures IsClusterRun(policy, run2, actions2) && run2 == run + [t] && actions2 == actions + [a]
  {
    run2, actions2 := run + [t], actions + [a];
    forall i | 0 <= i < |actions2| ensures Move(policy, run2[i], actions2[i], run2[i + 1]) {
      if i < |actions| { assert Move(policy, run[i], actions[i], run[i + 1]); }
    }
  }

  lemma QuietOn(m: nat, run: seq<Cluster>, actions: seq<Action>, i: nat, c: Client, a: Action, t: Cluster)
    requires |run| == |actions| + 1 && QuietAfter(m, run, actions, i, c) && (a.Deliver? || a.DoKick?)
    ensures QuietAfter(m, run + [t], actions + [a], i, c)
  {
    forall k | m < k < |actions + [a]| ensures Quiet((run + [t])[k], (actions + [a])[k], i, c) {
      if k < |actions| { assert Quiet(run[k], actions[k], i, c); }
    }
  }

  lemma ContinuesOn(
    run: seq<Cluster>, actions: seq<Action>, b: Action,
    run1: seq<Cluster>, actions1: seq<Action>, a: Action, t: Cluster)
    requires Continues(run, actions, b, run1, actions1)
    ensures Continues(run, actions, b, run1 + [t], actions1 + [a])
  {
    assert (run1 + [t])[..|run|] == run1[..|run|] && (actions1 + [a])[..|actions|] == actions1[..|actions|];
  }

  /** One more delivery or kick. */
  lemma GoOn(
    policy: int, run: seq<Cluster>, actions: seq<Action>, i: nat, c: Client,
    run1: seq<Cluster>, actions1: seq<Action>, a: Action, t: Cluster)
    returns (run2: seq<Cluster>, actions2: seq<Action>)
    requires GoesOn(policy, run, actions, i, c, run1, actions1) && (a.Deliver? || a.DoKick?)
    requires Move(policy, run1[|actions1|], a, t)
    ensures GoesOn(policy, run, actions, i, c, run2, actions2) && run2[|actions2|] == t
  {
    run2, actions2 := Extend(policy, run1, actions1, a, t);
    ContinuesOn(run, actions, Login(i, c), run1, actions1, a, t);
    QuietOn(|actions|, run1, actions1, i, c, a, t);
    assert t.latest == run1[|actions1|].latest;
  }

  /** A kick that names `c` waits on its node behind `q` others. */
  predicate KickWaits(policy: int, s: Cluster, i: nat, c: Client, q: nat) {
    i < |s.nodes| && q < |s.nodes[i].kicks| && KicksOut(policy, s.nodes[i].kicks[q], c)
  }

  /** The node handles the next of its kicks. */
  lemma NextKick(policy: int, s: Cluster, i: nat, c: Client, q: nat) returns (t: Cluster)
    requires KickWaits(policy, s, i, c, q)
    ensures Move(policy, s, DoKick(i), t)
    ensures if q == 0 then Removed(t, i, c) else KickWaits(policy, t, i, c, q - 1)
  {
    var n := s.nodes[i];
    var m := Kicked(policy, n.(kicks := n.kicks[1..]), n.kicks[0]);
    t := s.(nodes := s.nodes[i := m]);
    if q == 0 {
      KickedOut(policy, n, m, c);
    } else {
      KickFrame(policy, n, m);
      assert m.kicks[q - 1] == n.kicks[q];
    }
  }

  /** The kicks of a node are handled up to the one that names `c`. */
  lemma {:induction false} KicksReach(
    policy: int, run: seq<Cluster>, actions: seq<Action>, i: nat, c: Client,
    run1: seq<Cluster>, actions1: seq<Action>, q: nat)
    requires GoesOn(policy, run, actions, i, c, run1, actions1) && KickWaits(policy, run1[|actions1|], i, c, q)
    ensures Kickable(policy, run, actions, i, c)
    decreases q
  {
    var t := NextKick(policy, run1[|actions1|], i, c, q);
    var run2, actions2 := GoOn(policy, run, actions, i, c, run1, actions1, DoKick(i), t);
    if q > 0 {
      KicksReach(policy, run, actions, i, c, run2, actions2, q - 1);
    }
  }

  /** A report of the kind of `c` that arrives on its node queues a kick that names `c`. */
  lemma ReportNames(policy: int, n: Node, r: Client, c: Client)
    requires Kicks(policy, c.platformID) && Matches(r, c) && c in Of(n.conns, c.userID)
    ensures var m := Received(n, r); m.kicks != [] && KicksOut(policy, m.kicks[|m.kicks| - 1], c)
  {
    OnPlatformMembers(Of(n.conns, r.userID), r.platformID);
  }

  lemma LoginGoesOn(policy: int, run: seq<Cluster>, actions: seq<Action>, i: nat, c: Client)
    returns (run2: seq<Cluster>, actions2: seq<Action>)
    requires IsClusterRun(policy, run, actions) && MayLogin(run[|actions|], i, c)
    ensures GoesOn(policy, run, actions, i, c, run2, actions2) && |actions2| == |actions| + 1
    ensures Move(policy, run[|actions|], Login(i, c), run2[|actions2|])
  {
    var s := run[|actions|];
    var t := Cluster(s.nodes[i := Registered(policy, s.nodes[i], c)], s.reports + Reports(s, i, c), s.used + {c},
                     s.latest[(c.userID, c.platformID) := (i, c)]);
    assert Move(policy, s, Login(i, c), t);
    run2, actions2 := Extend(policy, run, actions, Login(i, c), t);
  }

  /** A new client with an address of its own comes to a node. */
  predicate MayLogin(s: Cluster, i: nat, c: Client) {
    i < |s.nodes| && c.id !in Ids(s.used) && OwnAddress(s, Login(i, c))
  }

  /** Out of turn it can be, however the run went before: deliver that report and handle the node's kicks. */
  lemma OutOfTurn(policy: int, run: seq<Cluster>, actions: seq<Action>, i: nat, c: Client)
    requires IsClusterRun(policy, run, actions)
    requires MayLogin(run[|actions|], i, c) && Kicks(policy, c.platformID)
    requires !InTurn(run[|actions|], Login(i, c))
    ensures Kickable(policy, run, actions, i, c)
  {
    var s := run[|actions|];
    var r :| r in s.reports && r.target == i && Matches(r.client, c);
    var run1, actions1 := LoginGoesOn(policy, run, actions, i, c);
    var t := run1[|actions1|];
    RegisteredMembers(policy, s.nodes[i], c, c.userID, c);
    ReportNames(policy, t.nodes[i], r.client, c);
    var m := Received(t.nodes[i], r.client);
    var e := t.(nodes := t.nodes[i := m], reports := t.reports - {r});
    assert Move(policy, t, Deliver(r), e);
    var run2, actions2 := GoOn(policy, run, actions, i, c, run1, actions1, Deliver(r), e);
    KicksReach(policy, run, actions, i, c, run2, actions2, |m.kicks| - 1);
  }

  lemma OrderlyThrough(
    policy: int, run: seq<Cluster>, actions: seq<Action>, i: nat, c: Client, run2: seq<Cluster>, actions2: seq<Action>)
    requires GoesOn(policy, run, actions, i, c, run2, actions2) && Orderly(run, actions)
    requires MayLogin(run[|actions|], i, c) && InTurn(run[|actions|], Login(i, c))
    ensures Orderly(run2, actions2)
  {
    forall k | 0 <= k < |actions2| ensures OwnAddress(run2[k], actions2[k]) && InTurn(run2[k], actions2[k]) {
      if k <= |actions| {
        assert run2[k] == run2[..|run|][k];
      }
      if k < |actions| {
        assert actions2[k] == actions2[..|actions|][k];
        assert OwnAddress(run[k], actions[k]) && InTurn(run[k], actions[k]);
      }
    }
  }

  /**
   * Exactly when: from any orderly run, a new login on a guarded platform can be kicked while it is the
   * newest of its kind if and only if it came out of turn, with a report of its kind on its way to its
   * node.
   */
  lemma KickableExactly(policy: int, run: seq<Cluster>, actions: seq<Action>, i: nat, c: Client)
    requires IsClusterRun(policy, run, actions) && Orderly(run, actions)
    requires MayLogin(run[|actions|], i, c) && Kicks(policy, c.platformID)
    ensures Kickable(policy, run, actions, i, c) <==> !InTurn(run[|actions|], Login(i, c))
  {
    if !InTurn(run[|actions|], Login(i, c)) {
      OutOfTurn(policy, run, actions, i, c);
    } else if Kickable(policy, run, actions, i, c) {
      var run2, actions2 :| GoesOn(policy, run, actions, i, c, run2, actions2) && Removed(run2[|actions2|], i, c);
      OrderlyThrough(policy, run, actions, i, c, run2, actions2);
      SafeSince(policy, run2, actions2, |actions|, |actions2|, i, c);
      assert false;
    }
  }

  // ----- Two overlapping logins -----

  /** A node right after the login of `c`, after the report of `d`, and after its kick. */
  function Fresh(c: Client): Node {
    Registered(ALL_LOGIN_BUT_SAME_TERM_KICK, NEW_NODE, c)
  }

  function Told(c: Client, d: Client): Node {
    Received(Fresh(c), d)
  }

  function Cleared(c: Client, d: Client): Node {
    var m := Told(c, d);
    if m.kicks == [] then m else Kicked(ALL_LOGIN_BUT_SAME_TERM_KICK, m.(kicks := m.kicks[1..]), m.kicks[0])
  }

  /** The node closed `c` and holds no connection at all. */
  predicate Gone(n: Node, c: Client) {
    n.conns == map[] && c.id in n.closed
  }

  /** A node with one connection that gets a report of another login of its kind loses it. */
  lemma ReportedAlone(c: Client, d: Client)
    requires Matches(d, c)
    ensures |Told(c, d).kicks| == 1
    ensures Gone(Cleared(c, d), c) && Cleared(c, d).kicks == []
  {
    var policy, n, m := ALL_LOGIN_BUT_SAME_TERM_KICK, Fresh(c), Told(c, d);
    assert [] + [c] == [c] && Of(n.conns, c.userID) == [c];
    assert [c][..0] == [] && OnPlatform([c], c.platformID) == [c];
    assert m.kicks == [KickInfo(true, [c], RequestClient(d.userID, d.platformID, d.token))];
    KickedConns(policy, m.(kicks := m.kicks[1..]), m.kicks[0]);
    KickFrame(policy, m, Cleared(c, d));
    KickedOut(policy, m, Cleared(c, d), c);
    assert c in [c] && c.remoteAddr in Addrs([c]);
    WithoutAll([c], Addrs([c]));
  }

  /** The states of the run: both logins in, both reports delivered, both kicks handled. */
  function Overlap(c: Client, d: Client, nodes: seq<Node>, reports: set<LoginReport>): Cluster {
    Cluster(nodes, reports, {c, d}, map[(c.userID, c.platformID) := (1, d)])
  }

  /** No connection drops and nobody is forced off. */
  predicate OnlyInside(actions: seq<Action>) {
    forall a <- actions :: !a.Drops? && !a.Force?
  }

  lemma OverlapDrained(c: Client, d: Client, n: Node, m: Node)
    requires Matches(c, d) && n.kicks == m.kicks == []
    ensures var s := Overlap(c, d, [n, m], {}); Drained(s) && Newest(s, 1, d)
  {
  }

  lemma OverlapLogins(c: Client, d: Client) returns (run: seq<Cluster>, actions: seq<Action>)
    requires Matches(c, d) && c.id != d.id
    ensures IsClusterRun(ALL_LOGIN_BUT_SAME_TERM_KICK, run, actions)
    ensures run[|actions|] == Overlap(c, d, [Fresh(c), Fresh(d)], {LoginReport(1, c), LoginReport(0, d)})
    ensures OnlyInside(actions)
  {
    var s0 := Cluster([NEW_NODE, NEW_NODE], {}, {}, map[]);
    var s1 := Cluster([Fresh(c), NEW_NODE], {LoginReport(1, c)}, {c}, map[(c.userID, c.platformID) := (0, c)]);
    assert Reports(s0, 0, c) == {LoginReport(1, c)};
    assert s0.nodes[0 := Fresh(c)] == s1.nodes;
    run, actions := Extend(ALL_LOGIN_BUT_SAME_TERM_KICK, [s0], [], Login(0, c), s1);
    var s2 := Overlap(c, d, [Fresh(c), Fresh(d)], {LoginReport(1, c), LoginReport(0, d)});
    assert Reports(s1, 1, d) == {LoginReport(0, d)};
    assert s1.nodes[1 := Fresh(d)] == s2.nodes;
    run, actions := Extend(ALL_LOGIN_BUT_SAME_TERM_KICK, run, actions, Login(1, d), s2);
  }

  lemma OverlapReports(c: Client, d: Client, run: seq<Cluster>, actions: seq<Action>)
    returns (run2: seq<Cluster>, actions2: seq<Action>)
    requires IsClusterRun(ALL_LOGIN_BUT_SAME_TERM_KICK, run, actions) && c != d
    requires run[|actions|] == Overlap(c, d, [Fresh(c), Fresh(d)], {LoginReport(1, c), LoginReport(0, d)})
    requires OnlyInside(actions)
    ensures IsClusterRun(ALL_LOGIN_BUT_SAME_TERM_KICK, run2, actions2)
    ensures run2[|actions2|] == Overlap(c, d, [Told(c, d), Told(d, c)], {})
    ensures OnlyInside(actions2)
  {
    var s3 := Overlap(c, d, [Told(c, d), Fresh(d)], {LoginReport(1, c)});
    assert [Fresh(c), Fresh(d)][0 := Told(c, d)] == s3.nodes;
    assert {LoginReport(1, c), LoginReport(0, d)} - {LoginReport(0, d)} == s3.reports;
    run2, actions2 := Extend(ALL_LOGIN_BUT_SAME_TERM_KICK, run, actions, Deliver(LoginReport(0, d)), s3);
    var s4 := Overlap(c, d, [Told(c, d), Told(d, c)], {});
    assert s3.nodes[1 := Told(d, c)] == s4.nodes;
    run2, actions2 := Extend(ALL_LOGIN_BUT_SAME_TERM_KICK, run2, actions2, Deliver(LoginReport(1, c)), s4);
  }

  predicate HeadKicked(n: Node, m: Node) {
    n.kicks != [] && m == Kicked(ALL_LOGIN_BUT_SAME_TERM_KICK, n.(kicks := n.kicks[1..]), n.kicks[0])
  }

  lemma TwoKicks(run: seq<Cluster>, actions: seq<Action>, s: Cluster, a: Node, b: Node)
    returns (run2: seq<Cluster>, actions2: seq<Action>)
    requires IsClusterRun(ALL_LOGIN_BUT_SAME_TERM_KICK, run, actions) && OnlyInside(actions)
    requires s == run[|actions|] && |s.nodes| == 2 && HeadKicked(s.nodes[0], a) && HeadKicked(s.nodes[1], b)
    ensures IsClusterRun(ALL_LOGIN_BUT_SAME_TERM_KICK, run2, actions2) && OnlyInside(actions2)
    ensures run2[|actions2|] == s.(nodes := [a, b])
  {
    var t := s.(nodes := s.nodes[0 := a]);
    run2, actions2 := Extend(ALL_LOGIN_BUT_SAME_TERM_KICK, run, actions, DoKick(0), t);
    assert t.nodes[1 := b] == [a, b];
    run2, actions2 := Extend(ALL_LOGIN_BUT_SAME_TERM_KICK, run2, actions2, DoKick(1), t.(nodes := [a, b]));
  }

  /**
   * Two logins of one user and platform that overlap on two nodes kick each other: each is reported
   * after the other was registered. In the end both connections, the newest one included, were closed
   * by kicks and the user has none.
   */
  lemma OverlapKicksBoth(c: Client, d: Client) returns (run: seq<Cluster>, actions: seq<Action>)
    requires Matches(c, d) && c.id != d.id
    ensures IsClusterRun(ALL_LOGIN_BUT_SAME_TERM_KICK, run, actions)
    ensures OnlyInside(actions) && Drained(run[|actions|]) && Newest(run[|actions|], 1, d)
    ensures |run[|actions|].nodes| == 2
    ensures Gone(run[|actions|].nodes[0], c) && Gone(run[|actions|].nodes[1], d)
  {
    ReportedAlone(c, d);
    ReportedAlone(d, c);
    OverlapDrained(c, d, Cleared(c, d), Cleared(d, c));
    run, actions := OverlapLogins(c, d);
    run, actions := OverlapReports(c, d, run, actions);
    run, actions := TwoKicks(run, actions, run[|actions|], Cleared(c, d), Cleared(d, c));
  }
}
