/**
 * Pushing a group message (internal/push/push_to_client.go): to the connections of every gateway
 * first (internal/msggateway/hub_server.go), then by offline push to the members it did not reach.
 */
module OfflinePush {
  import opened Messages
  import opened UserMaps
  import opened ConversationIds
  import Gateway

  const SIGNALING_NOTIFICATION := 1601
  const MEMBER_QUIT_NOTIFICATION := 1504
  const MEMBER_KICKED_NOTIFICATION := 1508
  const GROUP_DISMISSED_NOTIFICATION := 1511

  const PUSH_FAILED := -2
  const BACKGROUND_IOS := -3

  /** A gateway as a push finds it: `background` and `broken` hold the ids of connections. */
  datatype GatewayNode = GatewayNode(answers: bool, conns: Conns, background: set<nat>, broken: set<nat>)

  /** SingleMsgToUserPlatform and SingleMsgToUserResults. */
  datatype PlatformResult = PlatformResult(recvID: string, platformID: int, resultCode: int)
  datatype UserResult = UserResult(userID: string, onlinePush: bool, resp: seq<PlatformResult>)

  // ----- One gateway -----

  /** A connection that is tried at all: iOS in the background is not. */
  predicate Tried(node: GatewayNode, c: Client) {
    !(c.id in node.background && c.platformID == Gateway.IOS)
  }

  /** A delivery that spares the user the offline push: it works, and to a phone (pushTerminal). */
  predicate Counts(node: GatewayNode, c: Client) {
    Tried(node, c) && c.id !in node.broken && c.platformID in {Gateway.IOS, Gateway.ANDROID}
  }

  /** What one connection adds to the report about its user. */
  function Report(node: GatewayNode, userID: string, c: Client): seq<PlatformResult> {
    if !Tried(node, c) then [PlatformResult(userID, c.platformID, BACKGROUND_IOS)]
    else if c.id in node.broken then [PlatformResult(userID, c.platformID, PUSH_FAILED)]
    else if Counts(node, c) then [PlatformResult(userID, c.platformID, 0)]
    else []
  }

  function Reports(node: GatewayNode, userID: string, clients: seq<Client>): seq<PlatformResult> {
    if clients == [] then []
    else Reports(node, userID, clients[..|clients| - 1]) + Report(node, userID, clients[|clients| - 1])
  }

  predicate Delivered(node: GatewayNode, userID: string) {
    exists c <- Of(node.conns, userID) :: Counts(node, c)
  }

  function ResultFor(node: GatewayNode, userID: string): UserResult {
    UserResult(userID, Delivered(node, userID), Reports(node, userID, Of(node.conns, userID)))
  }

  function ResultsOf(node: GatewayNode, targets: seq<string>): seq<UserResult> {
    if targets == [] then []
    else ResultsOf(node, targets[..|targets| - 1]) + [ResultFor(node, targets[|targets| - 1])]
  }

  lemma {:induction false} ResultsOfMembers(node: GatewayNode, targets: seq<string>)
    ensures forall v :: v in ResultsOf(node, targets) <==> v.userID in targets && v == ResultFor(node, v.userID)
  {
    if targets != [] {
      ResultsOfMembers(node, targets[..|targets| - 1]);
      assert targets == targets[..|targets| - 1] + [targets[|targets| - 1]];
    }
  }

  method SuperGroupOnlineBatchPushOneMsg(node: GatewayNode, targets: seq<string>) returns (r: seq<UserResult>)
    ensures r == ResultsOf(node, targets)
  {
    r := [];
    for i := 0 to |targets|
      invariant r == ResultsOf(node, targets[..i])
    {
      assert targets[..i + 1][..i] == targets[..i];
      var v := targets[i];
      if v !in node.conns {
        r := r + [UserResult(v, false, [])];
      } else {
        var onlinePush, resp := PushToUser(node, v, node.conns[v]);
        r := r + [UserResult(v, onlinePush, resp)];
      }
    }
    assert targets[..|targets|] == targets;
  }

  /** The inner loop: every connection of one user. */
  method PushToUser(node: GatewayNode, userID: string, clients: seq<Client>)
    returns (onlinePush: bool, resp: seq<PlatformResult>)
    ensures onlinePush <==> exists c <- clients :: Counts(node, c)
    ensures resp == Reports(node, userID, clients)
  {
    onlinePush, resp := false, [];
    for i := 0 to |clients|
      invariant onlinePush <==> exists c <- clients[..i] :: Counts(node, c)
      invariant resp == Reports(node, userID, clients[..i])
    {
      var c := clients[i];
      assert clients[..i + 1] == clients[..i] + [c];
      if c.id !in node.background || (c.id in node.background && c.platformID != Gateway.IOS) {
        if c.id in node.broken {
          resp := resp + [PlatformResult(userID, c.platformID, PUSH_FAILED)];
        } else if c.platformID == Gateway.IOS || c.platformID == Gateway.ANDROID {
          onlinePush := true;
          assert Counts(node, c);
          resp := resp + [PlatformResult(userID, c.platformID, 0)];
        }
      } else {
        resp := resp + [PlatformResult(userID, c.platformID, BACKGROUND_IOS)];
      }
    }
    assert clients[..|clients|] == clients;
  }

  // ----- All gateways -----

  function AllResults(nodes: seq<GatewayNode>, targets: seq<string>): seq<UserResult> {
    if nodes == [] then []
    else AllResults(nodes[..|nodes| - 1], targets) +
         if nodes[|nodes| - 1].answers then ResultsOf(nodes[|nodes| - 1], targets) else []
  }

  lemma {:induction false} AllResultsMembers(nodes: seq<GatewayNode>, targets: seq<string>, v: UserResult)
    ensures v in AllResults(nodes, targets) <==>
      v.userID in targets && exists node <- nodes :: node.answers && v == ResultFor(node, v.userID)
  {
    if nodes != [] {
      var init, last := nodes[..|nodes| - 1], nodes[|nodes| - 1];
      AllResultsMembers(init, targets, v);
      ResultsOfMembers(last, targets);
      assert nodes == init + [last];
    }
  }

  /** A gateway that does not answer is passed over. */
  method GetConnsAndOnlinePush(nodes: seq<GatewayNode>, targets: seq<string>) returns (wsResults: seq<UserResult>)
    ensures wsResults == AllResults(nodes, targets)
  {
    wsResults := [];
    for i := 0 to |nodes|
      invariant wsResults == AllResults(nodes[..i], targets)
    {
      assert nodes[..i + 1][..i] == nodes[..i];
      if nodes[i].answers {
        var reply := SuperGroupOnlineBatchPushOneMsg(nodes[i], targets);
        wsResults := wsResults + reply;
      }
    }
    assert nodes[..|nodes|] == nodes;
  }

  /** Some gateway reached one of the user's phones. */
  predicate ReachedOnline(nodes: seq<GatewayNode>, userID: string) {
    exists node <- nodes :: node.answers && Delivered(node, userID)
  }

  /** A gateway that reached no phone of the user failed on one of the user's web connections. */
  predicate MissedOnWeb(nodes: seq<GatewayNode>, userID: string) {
    exists node <- nodes :: node.answers && !Delivered(node, userID) && BrokenWeb(node, userID)
  }

  predicate BrokenWeb(node: GatewayNode, userID: string) {
    exists c <- Of(node.conns, userID) :: c.platformID == Gateway.WEB && c.id in node.broken
  }

  predicate FailedOnWeb(p: PlatformResult) {
    p.resultCode == PUSH_FAILED && p.platformID == Gateway.WEB
  }

  lemma {:induction false} ReportsFailedOnWeb(node: GatewayNode, userID: string, clients: seq<Client>)
    ensures (exists p <- Reports(node, userID, clients) :: FailedOnWeb(p)) <==>
            (exists c <- clients :: c.platformID == Gateway.WEB && c.id in node.broken)
  {
    if clients != [] {
      var init, c := clients[..|clients| - 1], clients[|clients| - 1];
      ReportsFailedOnWeb(node, userID, init);
      assert clients == init + [c];
      var before, report := Reports(node, userID, init), Report(node, userID, c);
      assert Reports(node, userID, clients) == before + report;
      assert (exists p <- report :: FailedOnWeb(p)) <==> c.platformID == Gateway.WEB && c.id in node.broken by {
        if c.platformID == Gateway.WEB && c.id in node.broken { assert FailedOnWeb(report[0]); }
      }
      assert forall p :: p in before + report <==> p in before || p in report;
    }
  }

  /** No platform is named "PC", so of the two tests on failed connections only the one for Web can hold. */
  lemma NeverPC(platformID: int)
    ensures Gateway.PlatformIDToName(platformID) != Gateway.TERMINAL_PC
  {
  }

  // ----- Whom to push offline -----

  predicate TryAgain(v: UserResult) {
    !v.onlinePush && exists p <- v.resp :: FailedOnWeb(p)
  }

  /** The users with an eligible delivery, after the sender, and those to try again on the web. */
  method Collect(sendID: string, wsResults: seq<UserResult>) returns (success: seq<string>, web: seq<string>)
    ensures forall u :: u in success <==> u == sendID || exists v <- wsResults :: v.userID == u && v.onlinePush
    ensures forall u :: u in web <==>
      exists v <- wsResults :: v.userID == u && TryAgain(v)
  {
    success, web := [sendID], [];
    for i := 0 to |wsResults|
      invariant forall u :: u in success <==> u == sendID || exists v <- wsResults[..i] :: v.userID == u && v.onlinePush
      invariant forall u :: u in web <==>
        exists v <- wsResults[..i] :: v.userID == u && TryAgain(v)
    {
      var v := wsResults[i];
      assert wsResults[..i + 1] == wsResults[..i] + [v];
      if v.onlinePush && v.userID != sendID {
        success := success + [v.userID];
      }
      if !v.onlinePush {
        var failed := CountFailedOnWeb(v.resp);
        var more := seq(failed, _ => v.userID);
        assert failed > 0 ==> more[0] == v.userID;
        assert forall u :: u in more <==> failed > 0 && u == v.userID;
        web := web + more;
      }
    }
    assert wsResults[..|wsResults|] == wsResults;
  }

  /** The loop over one user's connections, which adds the user once for each failed one. */
  method CountFailedOnWeb(resp: seq<PlatformResult>) returns (failed: nat)
    ensures failed > 0 <==> exists p <- resp :: FailedOnWeb(p)
  {
    failed := 0;
    for i := 0 to |resp|
      invariant failed > 0 <==> exists p <- resp[..i] :: FailedOnWeb(p)
    {
      var p := resp[i];
      assert resp[..i + 1] == resp[..i] + [p];
      if p.resultCode == PUSH_FAILED {
        NeverPC(p.platformID);
        var isPC := Gateway.PlatformIDToName(p.platformID) == Gateway.TERMINAL_PC;
        var isWebID := p.platformID == Gateway.WEB;
        if isPC || isWebID {
          assert FailedOnWeb(p);
          failed := failed + 1;
        }
      }
    }
    assert resp[..|resp|] == resp;
  }

  /** GetConversationOfflinePushUserIDs, given who does not receive this conversation's messages. */
  method GetConversationOfflinePushUserIDs(conversationID: string, userIDs: seq<string>, notReceiving: seq<string>)
    returns (ok: bool, r: seq<string>)
    ensures ok <==> conversationID != ""
    ensures forall u :: u in r <==> ok && u in userIDs && u !in notReceiving
  {
    if conversationID == "" {
      return false, [];
    }
    if |userIDs| == 0 {
      return true, [];
    }
    if |notReceiving| == 0 {
      return true, userIDs;
    }
    var userIDSet: set<string> := {};
    for i := 0 to |userIDs|
      invariant forall u :: u in userIDSet <==> u in userIDs[..i]
    {
      assert userIDs[..i + 1] == userIDs[..i] + [userIDs[i]];
      userIDSet := userIDSet + {userIDs[i]};
    }
    assert userIDs[..|userIDs|] == userIDs;
    for i := 0 to |notReceiving|
      invariant forall u :: u in userIDSet <==> u in userIDs && u !in notReceiving[..i]
    {
      assert notReceiving[..i + 1] == notReceiving[..i] + [notReceiving[i]];
      userIDSet := userIDSet - {notReceiving[i]};
    }
    assert notReceiving[..|notReceiving|] == notReceiving;
    ok := true;
    r := Keys(userIDSet);
  }

  /** utils.Keys, in any order. */
  method Keys(s: set<string>) returns (r: seq<string>)
    ensures forall u :: u in r <==> u in s
  {
    r := [];
    var left := s;
    while left != {}
      invariant left <= s && forall u :: u in r <==> u in s && u !in left
    {
      var u :| u in left;
      r := r + [u];
      left := left - {u};
    }
  }

  /** utils.SliceSub and utils.IntersectString, up to order. */
  function Kept(us: seq<string>, others: seq<string>, inOthers: bool): (r: seq<string>)
    ensures forall u :: u in r <==> u in us && (u in others <==> inOthers)
  {
    if us == [] then []
    else
      var u := us[|us| - 1];
      assert us == us[..|us| - 1] + [u];
      Kept(us[..|us| - 1], others, inOthers) + if u in others <==> inOthers then [u] else []
  }

  /**
   * What is asked of utils.DifferenceString(a, b): everything of b that is not in a, and nothing that
   * is in both. Whether it also returns what is only in a makes no difference to the results.
   */
  ghost predicate IsDifference(difference: (seq<string>, seq<string>) -> seq<string>) {
    forall a, b, u ::
      && (u in difference(a, b) ==> (u in a) != (u in b))
      && (u in b && u !in a ==> u in difference(a, b))
  }

  /** The answers a push gets from the other services; None is an error. */
  datatype Answers = Answers(
    members: Option<seq<string>>,
    /** The users a quit or kick notification names; None when its content cannot be decoded. */
    named: Option<seq<string>>,
    nodes: Option<seq<GatewayNode>>,
    doNotDisturb: Option<seq<string>>,
    notReceiving: Option<seq<string>>)

  /** The members, and who just left. */
  function Targets(msg: MsgData, a: Answers): Option<seq<string>> {
    if a.members.None? then None
    else if msg.contentType in {MEMBER_QUIT_NOTIFICATION, MEMBER_KICKED_NOTIFICATION} then
      if a.named.None? then None else Some(a.members.value + a.named.value)
    else if msg.contentType == GROUP_DISMISSED_NOTIFICATION && IsNotification(GetConversationIDByMsg(msg))
            && a.named.None? then None
    else a.members
  }

  predicate NeedsDoNotDisturb(msg: MsgData) {
    msg.contentType != SIGNALING_NOTIFICATION
  }

  /** Every answer the offline push needs is there. */
  predicate Answered(msg: MsgData, a: Answers) {
    && Targets(msg, a).Some? && a.nodes.Some? && a.notReceiving.Some?
    && (NeedsDoNotDisturb(msg) ==> a.doNotDisturb.Some?)
  }

  /** Who has to get the offline push. */
  predicate Due(msg: MsgData, a: Answers, u: string)
    requires Answered(msg, a)
  {
    && u in Targets(msg, a).value && u != msg.sendID
    && !ReachedOnline(a.nodes.value, u)
    && (NeedsDoNotDisturb(msg) ==> u !in a.doNotDisturb.value)
    && u !in a.notReceiving.value
  }

  lemma OnlineTold(nodes: seq<GatewayNode>, targets: seq<string>, u: string)
    ensures (exists v <- AllResults(nodes, targets) :: v.userID == u && v.onlinePush) <==>
            u in targets && ReachedOnline(nodes, u)
  {
    if v :| v in AllResults(nodes, targets) && v.userID == u && v.onlinePush {
      AllResultsMembers(nodes, targets, v);
    }
    if u in targets && ReachedOnline(nodes, u) {
      var node :| node in nodes && node.answers && Delivered(node, u);
      AllResultsMembers(nodes, targets, ResultFor(node, u));
    }
  }

  lemma MissedTold(nodes: seq<GatewayNode>, targets: seq<string>, u: string)
    ensures (exists v <- AllResults(nodes, targets) :: v.userID == u && TryAgain(v)) <==>
            u in targets && MissedOnWeb(nodes, u)
  {
    if v :| v in AllResults(nodes, targets) && v.userID == u && TryAgain(v) {
      AllResultsMembers(nodes, targets, v);
      var node :| node in nodes && node.answers && v == ResultFor(node, u);
      ReportsFailedOnWeb(node, u, Of(node.conns, u));
    }
    if u in targets && MissedOnWeb(nodes, u) {
      var node :| node in nodes && node.answers && !Delivered(node, u) && BrokenWeb(node, u);
      ReportsFailedOnWeb(node, u, Of(node.conns, u));
      AllResultsMembers(nodes, targets, ResultFor(node, u));
    }
  }

  /** The reports of all gateways say who was reached. */
  lemma ResultsTell(nodes: seq<GatewayNode>, targets: seq<string>, u: string)
    ensures (exists v <- AllResults(nodes, targets) :: v.userID == u && v.onlinePush) <==>
            u in targets && ReachedOnline(nodes, u)
    ensures (exists v <- AllResults(nodes, targets) :: v.userID == u && TryAgain(v)) <==>
            u in targets && MissedOnWeb(nodes, u)
  {
    OnlineTold(nodes, targets, u);
    MissedTold(nodes, targets, u);
  }

  /** A connection that spares its user the offline push: a working Android one, or a working iOS one in front. */
  predicate Spares(node: GatewayNode, c: Client) {
    && c.id !in node.broken
    && (c.platformID == 2 || (c.platformID == 1 && c.id !in node.background))
  }

  /** The user has such a connection on a gateway that answered. */
  predicate Spared(nodes: seq<GatewayNode>, u: string) {
    exists node <- nodes :: node.answers && exists c <- Of(node.conns, u) :: Spares(node, c)
  }

  /** Every user a group message is sent to: the members, and those who a quit or kick notification names. */
  predicate Addressed(msg: MsgData, a: Answers, u: string) {
    || (a.members.Some? && u in a.members.value)
    || (a.named.Some? && u in a.named.value && msg.contentType in {1504, 1508})
  }

  /**
   * Who has to get the offline push, in terms of the answers alone: whom the message is sent to, less
   * the sender, the users with a connection that spares them, those who do not receive the
   * conversation's messages, and, unless it is a signaling message, those who are not to be disturbed.
   */
  lemma DueExactly(msg: MsgData, a: Answers, u: string)
    requires Answered(msg, a)
    ensures Due(msg, a, u) <==>
      && Addressed(msg, a, u) && u != msg.sendID && !Spared(a.nodes.value, u)
      && (msg.contentType == 1601 || u !in a.doNotDisturb.value) && u !in a.notReceiving.value
  {
    assert forall node: GatewayNode, c: Client :: Counts(node, c) <==> Spares(node, c);
  }

  /** Which answers are missed: the members, the gateways, who does not receive, and what the type asks for. */
  lemma AnsweredExactly(msg: MsgData, a: Answers)
    ensures Answered(msg, a) <==>
      && a.members.Some? && a.nodes.Some? && a.notReceiving.Some?
      && (msg.contentType == 1601 || a.doNotDisturb.Some?)
      && (msg.contentType in {1504, 1508} ==> a.named.Some?)
      && (msg.contentType == 1511 && IsNotification(GetConversationIDByMsg(msg)) ==> a.named.Some?)
  {
  }

  /** What is reported of a user, connection by connection. */
  lemma {:induction false} ReportsExactly(node: GatewayNode, userID: string, clients: seq<Client>, p: PlatformResult)
    ensures p in Reports(node, userID, clients) <==>
      && p.recvID == userID
      && exists c <- clients :: c.platformID == p.platformID &&
           if c.platformID == 1 && c.id in node.background then p.resultCode == -3
           else if c.id in node.broken then p.resultCode == -2
           else c.platformID in {1, 2} && p.resultCode == 0
  {
    if clients != [] {
      ReportsExactly(node, userID, clients[..|clients| - 1], p);
      assert clients == clients[..|clients| - 1] + [clients[|clients| - 1]];
    }
  }

  /** And whom the web is tried for again: a gateway that spared the user nothing failed on the web. */
  lemma MissedExactly(nodes: seq<GatewayNode>, u: string)
    ensures MissedOnWeb(nodes, u) <==>
      exists node <- nodes :: node.answers
        && (forall c <- Of(node.conns, u) :: !Spares(node, c))
        && (exists c <- Of(node.conns, u) :: c.platformID == 5 && c.id in node.broken)
  {
    assert forall node: GatewayNode, c: Client :: Counts(node, c) <==> Spares(node, c);
  }

  /**
   * Push2SuperGroup: returns whom it pushed offline and whom it then tried online again. The offline
   * push reaches exactly the targets it is due to; a sender who is no target may be added.
   */
  method Push2SuperGroup(groupID: string, msg: MsgData, a: Answers,
                         difference: (seq<string>, seq<string>) -> seq<string>)
    returns (offline: seq<string>, again: seq<string>)
    requires IsDifference(difference)
    ensures !Is(msg.options, IS_OFFLINE_PUSH) || !Answered(msg, a) ==> offline == []
    ensures Is(msg.options, IS_OFFLINE_PUSH) && Answered(msg, a) ==>
      forall u | u != msg.sendID || u in Targets(msg, a).value :: (u in offline <==> Due(msg, a, u))
    ensures forall u :: u in again ==> u in offline
    ensures Answered(msg, a) ==>
      forall u | u in offline && u in Targets(msg, a).value :: (u in again <==> MissedOnWeb(a.nodes.value, u))
  {
    offline, again := [], [];
    if a.members.None? {
      return;
    }
    var targets := a.members.value;
    if msg.contentType == MEMBER_QUIT_NOTIFICATION || msg.contentType == MEMBER_KICKED_NOTIFICATION {
      if a.named.None? {
        return;
      }
      targets := targets + a.named.value;
    } else if msg.contentType == GROUP_DISMISSED_NOTIFICATION {
      if IsNotification(GetConversationIDByMsg(msg)) && a.named.None? {
        return;
      }
    }
    if a.nodes.None? {
      return;
    }
    var wsResults := GetConnsAndOnlinePush(a.nodes.value, targets);
    if !Is(msg.options, IS_OFFLINE_PUSH) {
      return;
    }
    var success, web := Collect(msg.sendID, wsResults);
    forall u
      ensures u in success <==> u == msg.sendID || (u in targets && ReachedOnline(a.nodes.value, u))
      ensures u in web <==> u in targets && MissedOnWeb(a.nodes.value, u)
    {
      ResultsTell(a.nodes.value, targets, u);
    }
    var needed := difference(success, targets);
    if msg.contentType != SIGNALING_NOTIFICATION {
      if a.doNotDisturb.None? {
        return;
      }
      needed := Kept(needed, a.doNotDisturb.value, false);
    }
    if |needed| > 0 {
      if a.notReceiving.None? {
        return;
      }
      var ok, r := GetConversationOfflinePushUserIDs("sg_" + groupID, needed, a.notReceiving.value);
      if |r| > 0 {
        offline := r;
        again := Kept(r, web, true);
      }
    }
  }
}
