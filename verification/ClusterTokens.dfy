/**
 * The tokens of a cluster: all nodes share them (pkg/common/db/cache/msg.go), and every kick, whether
 * for a login on the node itself or for one that another node reported, marks all tokens of the user
 * and platform as kicked but the one of the login it is for.
 */
module ClusterTokens {
  import opened UserMaps
  import opened Gateway
  import opened GatewayRuns
  import opened Cluster
  import opened ClusterRuns

  datatype TState = TState(cluster: Cluster, tokens: Tokens)

  /** A step of the cluster, and the token server handing out a token. */
  datatype TAction =
    | Act(a: Action, redisUp: bool)
    | Issue(userID: string, platformID: int, token: string)

  /** The kick whose tokens a step marks, if it does. */
  ghost predicate TokensMove(
    policy: int, s: Cluster, a: Action, redisUp: bool, before: Tokens, after: Tokens)
  {
    match a
    case Login(i, c) => i < |s.nodes| && Marking(policy, before, after, LoginKick(s.nodes[i].conns, c), redisUp)
    case DoKick(j) =>
      && j < |s.nodes| && s.nodes[j].kicks != []
      && Marking(policy, before, after, s.nodes[j].kicks[0], redisUp)
    case _ => after == before
  }

  ghost predicate TMove(policy: int, s: TState, a: TAction, t: TState) {
    match a
    case Act(b, redisUp) =>
      Move(policy, s.cluster, b, t.cluster) && TokensMove(policy, s.cluster, b, redisUp, s.tokens, t.tokens)
    case Issue(u, p, token) =>
      && t.cluster == s.cluster
      && forall v, q, x ::
           CheckToken(t.tokens, v, q, x) ==
           if v == u && PlatformIDToName(q) == PlatformIDToName(p) && x == token then Admitted
           else CheckToken(s.tokens, v, q, x)
  }

  /** Steps from any state whatever. */
  ghost predicate IsPath(policy: int, run: seq<TState>, actions: seq<TAction>) {
    && |run| == |actions| + 1
    && forall i | 0 <= i < |actions| :: TMove(policy, run[i], actions[i], run[i + 1])
  }

  function TokenOf(s: TState, c: Client): Verdict {
    CheckToken(s.tokens, c.userID, c.platformID, c.token)
  }

  predicate KnownPlatform(p: int) {
    PlatformIDToName(p) != ""
  }

  lemma NamesTellPlatforms(p: int, q: int)
    requires KnownPlatform(p) && PlatformIDToName(p) == PlatformIDToName(q)
    ensures p == q
  {
    assert "IOS"[0] == 'I' && "Android"[1] == 'n' && "APad"[1] == 'P' && "Admin"[1] == 'd' && "Windows"[1] == 'i';
    assert "IPad"[1] == 'P' && "IOS"[1] == 'O' && "OSX"[0] == 'O' && "Web"[1] == 'e' && "MiniWeb"[0] == 'M';
    assert "Linux"[0] == 'L';
  }

  // ----- A reported login spares its own token -----

  /**
   * A login that another node reports, and the kick it queues: once that kick is handled, every known
   * token of the user on the platform reads as kicked except the reported login's, which reads as it
   * did, and no token of another user or platform is touched.
   */
  lemma ReportSparesItsToken(
    policy: int, n: Node, u: string, p: int, token: string, before: Tokens, after: Tokens, v: string, q: int, x: string)
    requires Guarded(policy, p) && OnPlatform(Of(n.conns, u), p) != []
    ensures var m := LoginReported(n, u, p, token);
      && |m.kicks| == |n.kicks| + 1 && m.kicks[..|n.kicks|] == n.kicks
      && (Marking(policy, before, after, m.kicks[|n.kicks|], true) ==>
            && CheckToken(after, u, p, token) == CheckToken(before, u, p, token)
            && (x != token ==>
                  CheckToken(after, u, p, x)
                  == if CheckToken(before, u, p, x) != TokenNotExist then TokenKicked else TokenNotExist)
            && (v != u || PlatformIDToName(q) != PlatformIDToName(p) ==>
                  CheckToken(after, v, q, x) == CheckToken(before, v, q, x)))
  {
    assert Of(n.conns, u) != [];
    assert Kicks(policy, p);
  }

  // ----- What can mark the token of the newest login -----

  /** Handling `k` marks the token of `c`. */
  predicate Marks(policy: int, k: KickInfo, c: Client) {
    Kicks(policy, k.newClient.platformID) && k.clientOK && SameTokens(k.newClient, c) && k.newClient.token != c.token
  }

  /** A node holds a connection of the user and platform of `c`. */
  predicate HoldsKind(s: Cluster, j: nat, c: Client) {
    j < |s.nodes| && OnPlatform(Of(s.nodes[j].conns, c.userID), c.platformID) != []
  }

  /** Delivering `r` queues a kick that marks the token of `c`. */
  predicate ReportMarks(policy: int, s: Cluster, r: LoginReport, c: Client) {
    Kicks(policy, r.client.platformID) && SameTokens(r.client, c) && r.client.token != c.token
    && HoldsKind(s, r.target, r.client)
  }

  ghost predicate NoneMarks(policy: int, s: Cluster, c: Client) {
    && (forall j, k | 0 <= j < |s.nodes| && k in s.nodes[j].kicks :: !Marks(policy, k, c))
    && (forall r <- s.reports :: !ReportMarks(policy, s, r, c))
  }

  /**
   * No kick is queued, and no report under way, for a login of another token, that would mark the token
   * of `c` once `c` is on node `i`.
   */
  ghost predicate InTokenTurn(policy: int, s: Cluster, i: nat, c: Client) {
    && NoneMarks(policy, s, c)
    && forall r <- s.reports | r.target == i && Kicks(policy, r.client.platformID) && SameTokens(r.client, c) ::
         r.client.token == c.token
  }

  ghost predicate TokenSafe(policy: int, s: TState, i: nat, c: Client) {
    && c in s.cluster.used
    && (Newest(s.cluster, i, c) ==> NoneMarks(policy, s.cluster, c) && TokenOf(s, c) == Admitted)
  }

  /** A kick that does not mark a token leaves its verdict. */
  lemma MarkingSpares(policy: int, before: Tokens, after: Tokens, k: KickInfo, redisUp: bool, c: Client)
    requires Marking(policy, before, after, k, redisUp) && !Marks(policy, k, c)
    ensures CheckToken(after, c.userID, c.platformID, c.token) == CheckToken(before, c.userID, c.platformID, c.token)
  {
  }

  /** Nodes that hold no connection of the kind go on without one where connections only go. */
  lemma StillNone(s: Cluster, t: Cluster, j: nat, c: Client)
    requires |t.nodes| == |s.nodes| && HoldsKind(t, j, c)
    requires forall d | d in Of(t.nodes[j].conns, c.userID) && d.platformID == c.platformID ::
      d in Of(s.nodes[j].conns, c.userID)
    ensures HoldsKind(s, j, c)
  {
    OnPlatformMembers(Of(t.nodes[j].conns, c.userID), c.platformID);
    OnPlatformMembers(Of(s.nodes[j].conns, c.userID), c.platformID);
    var d := OnPlatform(Of(t.nodes[j].conns, c.userID), c.platformID)[0];
    assert d in OnPlatform(Of(t.nodes[j].conns, c.userID), c.platformID);
    assert d in OnPlatform(Of(s.nodes[j].conns, c.userID), c.platformID);
  }

  /** Where reports, kicks and connections only go, nothing comes to mark the token. */
  lemma FewerMark(policy: int, s: Cluster, t: Cluster, c: Client)
    requires NoneMarks(policy, s, c) && |t.nodes| == |s.nodes| && t.reports <= s.reports
    requires forall j, k | 0 <= j < |t.nodes| && k in t.nodes[j].kicks :: k in s.nodes[j].kicks
    requires forall j, u, d | 0 <= j < |t.nodes| && d in Of(t.nodes[j].conns, u) :: d in Of(s.nodes[j].conns, u)
    ensures NoneMarks(policy, t, c)
  {
    forall r <- t.reports ensures !ReportMarks(policy, t, r, c) {
      assert !ReportMarks(policy, s, r, c);
      if HoldsKind(t, r.target, r.client) { StillNone(s, t, r.target, r.client); }
    }
  }

  /** The login itself. */
  lemma LoginNoneMarks(policy: int, s: Cluster, i: nat, c: Client, t: Cluster)
    requires Move(policy, s, Login(i, c), t) && InTokenTurn(policy, s, i, c) && KnownPlatform(c.platformID)
    ensures NoneMarks(policy, t, c)
  {
    RegisteredFlags(policy, s.nodes[i], c);
    forall j, k | 0 <= j < |t.nodes| && k in t.nodes[j].kicks ensures !Marks(policy, k, c) {
      assert t.nodes[j].kicks == s.nodes[j].kicks;
    }
    forall r <- t.reports ensures !ReportMarks(policy, t, r, c) {
      if r in s.reports {
        assert !ReportMarks(policy, s, r, c);
        if r.target != i && r.target < |s.nodes| { assert t.nodes[r.target] == s.nodes[r.target]; }
      } else {
        assert r in Reports(s, i, c);
      }
    }
  }

  /** A login of another kind. */
  lemma OtherLoginNoneMarks(policy: int, s: Cluster, i: nat, e: Client, t: Cluster, c: Client)
    requires Move(policy, s, Login(i, e), t) && NoneMarks(policy, s, c) && !SameTokens(e, c)
    ensures NoneMarks(policy, t, c)
  {
    RegisteredFlags(policy, s.nodes[i], e);
    forall j, k | 0 <= j < |t.nodes| && k in t.nodes[j].kicks ensures !Marks(policy, k, c) {
      assert t.nodes[j].kicks == s.nodes[j].kicks;
    }
    forall r <- t.reports ensures !ReportMarks(policy, t, r, c) {
      if r in s.reports {
        assert !ReportMarks(policy, s, r, c);
        if SameTokens(r.client, c) && HoldsKind(t, r.target, r.client) {
          OtherLoginHolds(policy, s, i, e, t, r.target, r.client);
        }
      } else {
        assert r in Reports(s, i, e);
      }
    }
  }

  lemma OtherLoginHolds(policy: int, s: Cluster, i: nat, e: Client, t: Cluster, j: nat, c: Client)
    requires Move(policy, s, Login(i, e), t) && !SameTokens(e, c) && HoldsKind(t, j, c)
    ensures HoldsKind(s, j, c)
  {
    forall d | d in Of(t.nodes[j].conns, c.userID) && d.platformID == c.platformID
      ensures d in Of(s.nodes[j].conns, c.userID)
    {
      if j == i { RegisteredMembers(policy, s.nodes[i], e, c.userID, d); }
    }
    StillNone(s, t, j, c);
  }

  /** A delivered report queues no kick that marks the token. */
  lemma DeliverNoneMarks(policy: int, s: Cluster, r: LoginReport, t: Cluster, c: Client)
    requires Move(policy, s, Deliver(r), t) && NoneMarks(policy, s, c)
    ensures NoneMarks(policy, t, c)
  {
    assert !ReportMarks(policy, s, r, c);
    forall j, k | 0 <= j < |t.nodes| && k in t.nodes[j].kicks ensures !Marks(policy, k, c) {
      if k !in s.nodes[j].kicks {
        assert j == r.target;
        assert k.newClient == RequestClient(r.client.userID, r.client.platformID, r.client.token);
      }
    }
    forall q <- t.reports ensures !ReportMarks(policy, t, q, c) {
      assert !ReportMarks(policy, s, q, c);
      assert HoldsKind(t, q.target, q.client) ==> HoldsKind(s, q.target, q.client);
    }
  }

  lemma KickNoneMarks(policy: int, s: Cluster, j: nat, t: Cluster, c: Client)
    requires Move(policy, s, DoKick(j), t) && NoneMarks(policy, s, c)
    ensures NoneMarks(policy, t, c)
  {
    KickFrame(policy, s.nodes[j], t.nodes[j]);
    FewerMark(policy, s, t, c);
  }

  lemma OthersNoneMark(policy: int, s: Cluster, a: Action, t: Cluster, c: Client)
    requires Move(policy, s, a, t) && NoneMarks(policy, s, c) && (a.DoUnregister? || a.Drops? || a.Force?)
    ensures NoneMarks(policy, t, c)
  {
    var n, m := s.nodes[a.j], t.nodes[a.j];
    if a.Force? { ForcedOffFlags(n, OnPlatform(Of(n.conns, a.userID), a.platformID)); }
    assert m.kicks == n.kicks;
    forall u, d | d in Of(m.conns, u) ensures d in Of(n.conns, u) {
      if a.DoUnregister? {
        DropMembers(n.conns, n.unregister[0].userID, {n.unregister[0].remoteAddr}, u, d);
      } else if a.Force? {
        ForcedOffMembers(n, OnPlatform(Of(n.conns, a.userID), a.platformID), u, d);
      }
    }
    FewerMark(policy, s, t, c);
  }

  lemma MoveKeepsNoneMarks(policy: int, s: Cluster, a: Action, t: Cluster, c: Client)
    requires Move(policy, s, a, t) && NoneMarks(policy, s, c) && (a.Login? ==> !SameTokens(a.c, c))
    ensures NoneMarks(policy, t, c)
  {
    match a
    case Login(i, e) => OtherLoginNoneMarks(policy, s, i, e, t, c);
    case Deliver(r) => DeliverNoneMarks(policy, s, r, t, c);
    case DoKick(j) => KickNoneMarks(policy, s, j, t, c);
    case _ => OthersNoneMark(policy, s, a, t, c);
  }

  lemma MoveSparesToken(policy: int, s: TState, a: Action, redisUp: bool, t: TState, c: Client)
    requires TMove(policy, s, Act(a, redisUp), t) && NoneMarks(policy, s.cluster, c)
    requires a.Login? ==> !SameTokens(a.c, c)
    ensures TokenOf(t, c) == TokenOf(s, c)
  {
    match a
    case Login(i, e) =>
      MarkingSpares(policy, s.tokens, t.tokens, LoginKick(s.cluster.nodes[i].conns, e), redisUp, c);
    case DoKick(j) =>
      assert s.cluster.nodes[j].kicks[0] in s.cluster.nodes[j].kicks;
      MarkingSpares(policy, s.tokens, t.tokens, s.cluster.nodes[j].kicks[0], redisUp, c);
    case _ =>
  }

  lemma StepKeepsTokenSafe(policy: int, s: TState, a: TAction, t: TState, i: nat, c: Client)
    requires TMove(policy, s, a, t) && TokenSafe(policy, s, i, c) && KnownPlatform(c.platformID)
    ensures TokenSafe(policy, t, i, c)
  {
    if a.Act? && Newest(t.cluster, i, c) {
      var b := a.a;
      if b.Login? {
        assert c.id in Ids(s.cluster.used);
        if SameTokens(b.c, c) { NamesTellPlatforms(c.platformID, b.c.platformID); }
      }
      assert Newest(s.cluster, i, c);
      MoveKeepsNoneMarks(policy, s.cluster, b, t.cluster, c);
      MoveSparesToken(policy, s, b, a.redisUp, t, c);
    }
  }

  lemma LoginTokenSafe(policy: int, s: TState, i: nat, c: Client, redisUp: bool, t: TState)
    requires TMove(policy, s, Act(Login(i, c), redisUp), t) && KnownPlatform(c.platformID)
    requires InTokenTurn(policy, s.cluster, i, c) && TokenOf(s, c) == Admitted
    ensures TokenSafe(policy, t, i, c)
  {
    LoginNoneMarks(policy, s.cluster, i, c, t.cluster);
    MarkingSpares(policy, s.tokens, t.tokens, LoginKick(s.cluster.nodes[i].conns, c), redisUp, c);
  }

  /**
   * The newest login keeps its token: from any state, after a login whose token is admitted and comes in
   * turn, as long as it is the newest of its user and platform its token is still admitted, whatever
   * else happens in whatever order.
   */
  lemma {:induction false} NewestTokenKept(
    policy: int, run: seq<TState>, actions: seq<TAction>, n: nat, i: nat, c: Client)
    requires IsPath(policy, run, actions) && 0 < n < |run|
    requires actions[0].Act? && actions[0].a == Login(i, c) && KnownPlatform(c.platformID)
    requires InTokenTurn(policy, run[0].cluster, i, c) && TokenOf(run[0], c) == Admitted
    ensures TokenSafe(policy, run[n], i, c)
    ensures Newest(run[n].cluster, i, c) ==> TokenOf(run[n], c) == Admitted
  {
    assert TMove(policy, run[n - 1], actions[n - 1], run[n]);
    if n == 1 {
      LoginTokenSafe(policy, run[0], i, c, actions[0].redisUp, run[1]);
    } else {
      NewestTokenKept(policy, run, actions, n - 1, i, c);
      StepKeepsTokenSafe(policy, run[n - 1], actions[n - 1], run[n], i, c);
    }
  }

  // ----- Exactly when it can be marked -----

  /** Some steps from `s` that begin with the login of `c` mark its token while it is the newest. */
  ghost predicate Markable(policy: int, s: TState, i: nat, c: Client) {
    exists run: seq<TState>, actions: seq<TAction> ::
      && IsPath(policy, run, actions) && run[0] == s && IsLogin(actions, i, c)
      && Newest(run[|actions|].cluster, i, c) && TokenOf(run[|actions|], c) == TokenKicked
  }

  predicate IsLogin(actions: seq<TAction>, i: nat, c: Client) {
    actions != [] && actions[0].Act? && actions[0].a == Login(i, c)
  }

  function Marked(tokens: Tokens, c: Client): Tokens {
    var m := TokensOf(tokens, c.userID, c.platformID);
    tokens[(c.userID, PlatformIDToName(c.platformID)) := map t | t in m :: if t == c.token then m[t] else KICKED_TOKEN]
  }

  lemma MarkedMarksOthers(tokens: Tokens, c: Client)
    ensures MarksOthers(tokens, Marked(tokens, c), c)
  {
  }

  lemma SomeMarking(policy: int, before: Tokens, k: KickInfo, redisUp: bool) returns (after: Tokens)
    ensures Marking(policy, before, after, k, redisUp)
  {
    after := before;
    if Kicks(policy, k.newClient.platformID) && k.clientOK && redisUp {
      after := Marked(before, k.newClient);
    }
    MarkedMarksOthers(before, k.newClient);
  }

  lemma TExtend(policy: int, run: seq<TState>, actions: seq<TAction>, a: TAction, t: TState)
    returns (run2: seq<TState>, actions2: seq<TAction>)
    requires IsPath(policy, run, actions) && TMove(policy, run[|actions|], a, t)
    ensures IsPath(policy, run2, actions2) && run2 == run + [t] && actions2 == actions + [a]
  {
    run2, actions2 := run + [t], actions + [a];
    forall k | 0 <= k < |actions2| ensures TMove(policy, run2[k], actions2[k], run2[k + 1]) {
      if k < |actions| { assert TMove(policy, run[k], actions[k], run[k + 1]); }
    }
  }

  /** `q` kicks before one on node `j` that marks the token of `c`. */
  predicate MarkWaits(policy: int, s: Cluster, j: nat, c: Client, q: nat) {
    j < |s.nodes| && q < |s.nodes[j].kicks| && Marks(policy, s.nodes[j].kicks[q], c)
  }

  lemma NextMark(policy: int, s: TState, j: nat, c: Client, q: nat) returns (t: TState)
    requires MarkWaits(policy, s.cluster, j, c, q) && TokenOf(s, c) != TokenNotExist
    ensures TMove(policy, s, Act(DoKick(j), true), t)
    ensures t.cluster.latest == s.cluster.latest && TokenOf(t, c) != TokenNotExist
    ensures if q == 0 then TokenOf(t, c) == TokenKicked else MarkWaits(policy, t.cluster, j, c, q - 1)
  {
    var n := s.cluster.nodes[j];
    var k := n.kicks[0];
    var m := Kicked(policy, n.(kicks := n.kicks[1..]), k);
    var after := SomeMarking(policy, s.tokens, k, true);
    t := TState(s.cluster.(nodes := s.cluster.nodes[j := m]), after);
    KickFrame(policy, n, m);
    if q > 0 { assert m.kicks[q - 1] == n.kicks[q]; }
  }

  lemma {:induction false} MarksReach(
    policy: int, s: TState, run: seq<TState>, actions: seq<TAction>, i: nat, c: Client, j: nat, q: nat)
    requires IsPath(policy, run, actions) && run[0] == s && IsLogin(actions, i, c)
    requires Newest(run[|actions|].cluster, i, c) && TokenOf(run[|actions|], c) != TokenNotExist
    requires MarkWaits(policy, run[|actions|].cluster, j, c, q)
    ensures Markable(policy, s, i, c)
    decreases q
  {
    var t := NextMark(policy, run[|actions|], j, c, q);
    var run2, actions2 := TExtend(policy, run, actions, Act(DoKick(j), true), t);
    if q > 0 {
      MarksReach(policy, s, run2, actions2, i, c, j, q - 1);
    }
  }

  /** Delivering a report that marks queues a kick that does. */
  lemma ReportQueues(policy: int, s: TState, r: LoginReport, c: Client) returns (t: TState, q: nat)
    requires r in s.cluster.reports && ReportMarks(policy, s.cluster, r, c)
    ensures TMove(policy, s, Act(Deliver(r), true), t) && t.tokens == s.tokens
    ensures t.cluster.latest == s.cluster.latest && MarkWaits(policy, t.cluster, r.target, c, q)
  {
    var n := s.cluster.nodes[r.target];
    var m := Received(n, r.client);
    t := s.(cluster := s.cluster.(nodes := s.cluster.nodes[r.target := m], reports := s.cluster.reports - {r}));
    q := |n.kicks|;
  }

  /** A report of a login with another token that finds a connection, or will find `c` itself on node `i`. */
  predicate ReportWaits(policy: int, s: Cluster, i: nat, r: LoginReport, c: Client) {
    && Kicks(policy, r.client.platformID) && SameTokens(r.client, c) && r.client.token != c.token
    && (r.target == i || HoldsKind(s, r.target, r.client))
  }

  /** What takes a login out of turn. */
  lemma Culprit(policy: int, s: Cluster, i: nat, c: Client)
    requires !InTokenTurn(policy, s, i, c)
    ensures (exists j, q :: MarkWaits(policy, s, j, c, q)) || (exists r <- s.reports :: ReportWaits(policy, s, i, r, c))
  {
    if j, k :| 0 <= j < |s.nodes| && k in s.nodes[j].kicks && Marks(policy, k, c) {
      var q :| 0 <= q < |s.nodes[j].kicks| && s.nodes[j].kicks[q] == k;
      assert MarkWaits(policy, s, j, c, q);
    } else if r :| r in s.reports && ReportMarks(policy, s, r, c) {
      assert ReportWaits(policy, s, i, r, c);
    } else {
      var r :| r in s.reports && r.target == i && Kicks(policy, r.client.platformID) && SameTokens(r.client, c)
               && r.client.token != c.token;
      assert ReportWaits(policy, s, i, r, c);
    }
  }

  lemma MarkStays(policy: int, s: Cluster, i: nat, c: Client, t: Cluster, j: nat, q: nat)
    requires Move(policy, s, Login(i, c), t) && MarkWaits(policy, s, j, c, q)
    ensures MarkWaits(policy, t, j, c, q)
  {
    RegisteredFlags(policy, s.nodes[i], c);
    assert t.nodes[j].kicks == s.nodes[j].kicks;
  }

  lemma ReportStays(policy: int, s: Cluster, i: nat, c: Client, t: Cluster, r: LoginReport)
    requires Move(policy, s, Login(i, c), t) && r in s.reports && ReportWaits(policy, s, i, r, c)
    requires KnownPlatform(c.platformID)
    ensures r in t.reports && ReportMarks(policy, t, r, c)
  {
    if r.target == i {
      NamesTellPlatforms(c.platformID, r.client.platformID);
      HoldsItself(policy, s, i, c, t);
    } else {
      assert t.nodes[r.target] == s.nodes[r.target];
    }
  }

  lemma HoldsItself(policy: int, s: Cluster, i: nat, c: Client, t: Cluster)
    requires Move(policy, s, Login(i, c), t)
    ensures HoldsKind(t, i, c)
  {
    RegisteredMembers(policy, s.nodes[i], c, c.userID, c);
    OnPlatformMembers(Of(t.nodes[i].conns, c.userID), c.platformID);
    assert c in OnPlatform(Of(t.nodes[i].conns, c.userID), c.platformID);
  }

  lemma LoginStep(policy: int, s: TState, i: nat, c: Client) returns (t: TState)
    requires i < |s.cluster.nodes| && c.id !in Ids(s.cluster.used)
    ensures TMove(policy, s, Act(Login(i, c), true), t)
    ensures Newest(t.cluster, i, c) && TokenOf(t, c) == TokenOf(s, c)
  {
    var d := s.cluster;
    var k := LoginKick(d.nodes[i].conns, c);
    var after := SomeMarking(policy, s.tokens, k, true);
    t := TState(Cluster(d.nodes[i := Registered(policy, d.nodes[i], c)], d.reports + Reports(d, i, c), d.used + {c},
                        d.latest[(c.userID, c.platformID) := (i, c)]), after);
  }

  lemma OutOfTokenTurn(policy: int, s: TState, i: nat, c: Client)
    requires i < |s.cluster.nodes| && c.id !in Ids(s.cluster.used) && KnownPlatform(c.platformID)
    requires TokenOf(s, c) == Admitted && !InTokenTurn(policy, s.cluster, i, c)
    ensures Markable(policy, s, i, c)
  {
    var t := LoginStep(policy, s, i, c);
    assert IsPath(policy, [s], []);
    var run, actions := TExtend(policy, [s], [], Act(Login(i, c), true), t);
    Culprit(policy, s.cluster, i, c);
    if j, q :| MarkWaits(policy, s.cluster, j, c, q) {
      MarkStays(policy, s.cluster, i, c, t.cluster, j, q);
      MarksReach(policy, s, run, actions, i, c, j, q);
    } else {
      var r :| r in s.cluster.reports && ReportWaits(policy, s.cluster, i, r, c);
      ReportStays(policy, s.cluster, i, c, t.cluster, r);
      var u, q := ReportQueues(policy, t, r, c);
      run, actions := TExtend(policy, run, actions, Act(Deliver(r), true), u);
      MarksReach(policy, s, run, actions, i, c, r.target, q);
    }
  }

  /**
   * Exactly when: in any state whatever, the admitted token of a login that may enter can come to be
   * marked while the login is the newest of its user and platform if and only if a kick is queued, or a
   * report under way that will find a connection, for a login of the kind with another token.
   */
  lemma TokenMarkableExactly(policy: int, s: TState, i: nat, c: Client)
    requires i < |s.cluster.nodes| && c.id !in Ids(s.cluster.used) && KnownPlatform(c.platformID)
    requires TokenOf(s, c) == Admitted
    ensures Markable(policy, s, i, c) <==> !InTokenTurn(policy, s.cluster, i, c)
  {
    if !InTokenTurn(policy, s.cluster, i, c) {
      OutOfTokenTurn(policy, s, i, c);
    } else if Markable(policy, s, i, c) {
      var run: seq<TState>, actions: seq<TAction> :|
        && IsPath(policy, run, actions) && run[0] == s && IsLogin(actions, i, c)
        && Newest(run[|actions|].cluster, i, c) && TokenOf(run[|actions|], c) == TokenKicked;
      NewestTokenKept(policy, run, actions, |actions|, i, c);
      assert false;
    }
  }

  /**
   * That logins are in turn, so that no kick takes the connection, is not enough for the token: a state
   * of an orderly run in which a login is in turn and its token can be marked all the same, by the kick
   * of an older connection on another node.
   */
  lemma InTurnIsNotEnough(d: Client, e: Client, c: Client) returns (run: seq<Cluster>, actions: seq<Action>)
    requires Matches(d, e) && Matches(e, c) && d.id != e.id && d.remoteAddr != e.remoteAddr && e.token != c.token
    ensures IsClusterRun(ALL_LOGIN_BUT_SAME_TERM_KICK, run, actions) && Orderly(run, actions)
    ensures InTurn(run[|actions|], Login(0, c))
    ensures !InTokenTurn(ALL_LOGIN_BUT_SAME_TERM_KICK, run[|actions|], 0, c)
  {
    var policy := ALL_LOGIN_BUT_SAME_TERM_KICK;
    var s0 := Cluster([NEW_NODE, NEW_NODE], {}, {}, map[]);
    var s1 := Cluster([NEW_NODE, Fresh(d)], {LoginReport(0, d)}, {d}, map[(d.userID, d.platformID) := (1, d)]);
    var s2 := s1.(reports := {});
    var s3 := Cluster([Fresh(e), Fresh(d)], {LoginReport(1, e)}, {d, e}, map[(d.userID, d.platformID) := (0, e)]);
    FirstStep(d, s0, s1);
    SecondStep(d, s1, s2);
    ThirdStep(d, e, s2, s3);
    run, actions := Extend(policy, [s0], [], Login(1, d), s1);
    run, actions := Extend(policy, run, actions, Deliver(LoginReport(0, d)), s2);
    run, actions := Extend(policy, run, actions, Login(0, e), s3);
    assert run == [s0, s1, s2, s3] && actions == [Login(1, d), Deliver(LoginReport(0, d)), Login(0, e)];
    TurnsDiffer(d, e, c, s3);
  }

  lemma TurnsDiffer(d: Client, e: Client, c: Client, s: Cluster)
    requires Matches(d, e) && Matches(e, c) && e.token != c.token
    requires |s.nodes| == 2 && s.nodes[1] == Fresh(d) && s.reports == {LoginReport(1, e)}
    ensures InTurn(s, Login(0, c)) && !InTokenTurn(ALL_LOGIN_BUT_SAME_TERM_KICK, s, 0, c)
  {
    FreshHolds(d);
    assert HoldsKind(s, 1, e);
    assert ReportMarks(ALL_LOGIN_BUT_SAME_TERM_KICK, s, LoginReport(1, e), c);
  }

  lemma FirstStep(d: Client, s: Cluster, t: Cluster)
    requires s == Cluster([NEW_NODE, NEW_NODE], {}, {}, map[])
    requires t == Cluster([NEW_NODE, Fresh(d)], {LoginReport(0, d)}, {d}, map[(d.userID, d.platformID) := (1, d)])
    ensures Move(ALL_LOGIN_BUT_SAME_TERM_KICK, s, Login(1, d), t)
  {
    assert s.nodes[1 := Fresh(d)] == t.nodes;
    assert Reports(s, 1, d) == {LoginReport(0, d)};
  }

  lemma SecondStep(d: Client, s: Cluster, t: Cluster)
    requires s.reports == {LoginReport(0, d)} && |s.nodes| == 2 && s.nodes[0] == NEW_NODE && t == s.(reports := {})
    ensures Move(ALL_LOGIN_BUT_SAME_TERM_KICK, s, Deliver(LoginReport(0, d)), t)
  {
    assert Received(NEW_NODE, d) == NEW_NODE;
    assert s.nodes[0 := NEW_NODE] == s.nodes;
    assert s.reports - {LoginReport(0, d)} == {};
  }

  lemma ThirdStep(d: Client, e: Client, s: Cluster, t: Cluster)
    requires Matches(d, e) && d.id != e.id
    requires s == Cluster([NEW_NODE, Fresh(d)], {}, {d}, map[(d.userID, d.platformID) := (1, d)])
    requires t == Cluster([Fresh(e), Fresh(d)], {LoginReport(1, e)}, {d, e}, map[(d.userID, d.platformID) := (0, e)])
    ensures Move(ALL_LOGIN_BUT_SAME_TERM_KICK, s, Login(0, e), t)
  {
    assert s.nodes[0 := Fresh(e)] == t.nodes;
    assert Reports(s, 0, e) == {LoginReport(1, e)};
  }

  lemma FreshHolds(d: Client)
    ensures OnPlatform(Of(Fresh(d).conns, d.userID), d.platformID) == [d]
  {
    assert [] + [d] == [d] && [d][..0] == [];
    assert Of(Fresh(d).conns, d.userID) == [d];
  }
}
