/**
 * One gateway node: the event loop that registers, unregisters and kicks connections, with the
 * multi-terminal login policy and the token map (internal/msggateway/n_ws_server.go, client.go,
 * hub_server.go).
 */
module Gateway {
  import opened UserMaps

  const ALL_LOGIN_BUT_SAME_TERM_KICK := 1
  const PC_AND_OTHER := 5

  const IOS := 1
  const ANDROID := 2
  const WINDOWS := 3
  const OSX := 4
  const WEB := 5
  const MINI_WEB := 6
  const LINUX := 7
  const ANDROID_PAD := 8
  const IPAD := 9
  const ADMIN := 10

  const TERMINAL_PC := "PC"
  const TERMINAL_MOBILE := "Mobile"

  function PlatformIDToName(id: int): string {
    if id == IOS then "IOS" else if id == ANDROID then "Android" else if id == WINDOWS then "Windows"
    else if id == OSX then "OSX" else if id == WEB then "Web" else if id == MINI_WEB then "MiniWeb"
    else if id == LINUX then "Linux" else if id == ANDROID_PAD then "APad" else if id == IPAD then "IPad"
    else if id == ADMIN then "Admin" else ""
  }

  function PlatformIDToClass(id: int): string {
    if id in {IOS, ANDROID} then TERMINAL_MOBILE
    else if id in {WEB, MINI_WEB} then "Web"
    else if id in {WINDOWS, OSX, LINUX} then TERMINAL_PC
    else ""
  }

  /** Whether a login on the platform ends earlier logins of the user on the same platform. */
  predicate Kicks(policy: int, platformID: int) {
    || policy == ALL_LOGIN_BUT_SAME_TERM_KICK
    || (policy == PC_AND_OTHER && PlatformIDToClass(platformID) != TERMINAL_PC)
  }

  // ----- Tokens -----

  const NORMAL_TOKEN := 0
  const KICKED_TOKEN := 2

  /** The token hashes in redis, by user and platform name. */
  type Tokens = map<(string, string), map<string, int>>

  function TokensOf(tokens: Tokens, userID: string, platformID: int): map<string, int> {
    var key := (userID, PlatformIDToName(platformID));
    if key in tokens then tokens[key] else map[]
  }

  datatype Verdict = Admitted | TokenKicked | TokenUnknown | TokenNotExist

  /** The token check of wsHandler. */
  function CheckToken(tokens: Tokens, userID: string, platformID: int, token: string): Verdict {
    var m := TokensOf(tokens, userID, platformID);
    if token !in m then TokenNotExist
    else if m[token] == NORMAL_TOKEN then Admitted
    else if m[token] == KICKED_TOKEN then TokenKicked
    else TokenUnknown
  }

  // ----- The state of a node and what its event handlers make of it -----

  /** What a login hands to a node's event loop: the connections it found and the new login. */
  datatype KickInfo = KickInfo(clientOK: bool, oldClients: seq<Client>, newClient: Client)

  /**
   * `closed` holds the ids of the clients whose closed flag is set; the sequences are the channels
   * of the node.
   */
  datatype Node = Node(
    conns: Conns,
    closed: set<nat>,
    register: seq<Client>,
    unregister: seq<Client>,
    kicks: seq<KickInfo>,
    userNum: int,
    connNum: int)

  const NEW_NODE := Node(map[], {}, [], [], [], 0, 0)

  /** Client.close: only the first call queues the client for unregistration. */
  function Close(n: Node, c: Client): Node {
    if c.id in n.closed then n else n.(closed := n.closed + {c.id}, unregister := n.unregister + [c])
  }

  function CloseAll(n: Node, cs: seq<Client>): Node {
    if cs == [] then n else Close(CloseAll(n, cs[..|cs| - 1]), cs[|cs| - 1])
  }

  /** The registry without some of a user's connections, and 1 if that was the last of them. */
  function Drop(conns: Conns, userID: string, addrs: set<string>): Conns {
    Replaced(conns, userID, Without(Of(conns, userID), addrs))
  }

  function LastDropped(conns: Conns, userID: string, addrs: set<string>): int {
    if Of(conns, userID) != [] && Without(Of(conns, userID), addrs) == [] then 1 else 0
  }

  function Dropped(n: Node, userID: string, addrs: set<string>): Node {
    n.(conns := Drop(n.conns, userID, addrs), userNum := n.userNum - LastDropped(n.conns, userID, addrs))
  }

  /** multiTerminalLoginChecker, apart from the tokens. */
  function Kicked(policy: int, n: Node, k: KickInfo): Node {
    if Kicks(policy, k.newClient.platformID) && k.clientOK then
      CloseAll(Dropped(n, k.newClient.userID, Addrs(k.oldClients)), k.oldClients)
    else n
  }

  function Added(conns: Conns, c: Client): Conns {
    Replaced(conns, c.userID, Of(conns, c.userID) + [c])
  }

  /** registerClient, apart from telling other nodes. */
  function Registered(policy: int, n: Node, c: Client): Node {
    var existing := Of(n.conns, c.userID);
    if existing == [] then
      n.(conns := Added(n.conns, c), userNum := n.userNum + 1, connNum := n.connNum + 1)
    else
      var same := OnPlatform(existing, c.platformID);
      var kicked := Kicked(policy, n, KickInfo(same != [], same, c));
      kicked.(conns := Added(kicked.conns, c), connNum := kicked.connNum + 1)
  }

  /** unregisterClient. */
  function Unregistered(n: Node, c: Client): Node {
    Dropped(n, c.userID, {c.remoteAddr}).(connNum := n.connNum - 1)
  }

  function ConnKicked(n: Node, c: Client): Node {
    Close(n.(conns := Drop(n.conns, c.userID, {c.remoteAddr})), c)
  }

  /** KickUserConn on each of a list of clients. */
  function ForcedOff(n: Node, cs: seq<Client>): Node {
    if cs == [] then n
    else ConnKicked(ForcedOff(n, cs[..|cs| - 1]), cs[|cs| - 1])
  }

  /** The client MultiTerminalLoginCheck makes up from the request: it has no address of its own. */
  function RequestClient(userID: string, platformID: int, token: string): Client {
    Client(0, userID, platformID, "", token)
  }

  /** MultiTerminalLoginCheck: another node reports a login. */
  function LoginReported(n: Node, userID: string, platformID: int, token: string): Node {
    var same := OnPlatform(Of(n.conns, userID), platformID);
    if Of(n.conns, userID) == [] then n
    else n.(kicks := n.kicks + [KickInfo(same != [], same, RequestClient(userID, platformID, token))])
  }

  // ----- The tokens -----

  predicate SameTokens(c: Client, d: Client) {
    c.userID == d.userID && PlatformIDToName(c.platformID) == PlatformIDToName(d.platformID)
  }

  /**
   * Every known token of the client's user and platform but the client's own reads as kicked now, and
   * every other token as before.
   */
  ghost predicate MarksOthers(before: Tokens, after: Tokens, c: Client) {
    forall u, p, t ::
      CheckToken(after, u, p, t) ==
      if t != c.token && u == c.userID && PlatformIDToName(p) == PlatformIDToName(c.platformID)
         && CheckToken(before, u, p, t) != TokenNotExist
      then TokenKicked
      else CheckToken(before, u, p, t)
  }

  /** multiTerminalLoginChecker, as far as the tokens are concerned. */
  ghost predicate Marking(policy: int, before: Tokens, after: Tokens, k: KickInfo, redisUp: bool) {
    if Kicks(policy, k.newClient.platformID) && k.clientOK && redisUp then MarksOthers(before, after, k.newClient)
    else after == before
  }

  /** What a login finds on its own node. */
  function LoginKick(conns: Conns, c: Client): KickInfo {
    var same := OnPlatform(Of(conns, c.userID), c.platformID);
    KickInfo(same != [], same, c)
  }

  // ----- The node itself -----

  class WsServer {
    const policy: int
    const clients: UserMap
    var closed: set<nat>
    var registerChan: seq<Client>
    var unregisterChan: seq<Client>
    var kickHandlerChan: seq<KickInfo>
    var onlineUserNum: int
    var onlineUserConnNum: int
    var tokens: Tokens

    ghost predicate Valid()
      reads this, clients
    {
      clients.Valid()
    }

    ghost function View(): Node
      reads this, clients
    {
      Node(clients.m, closed, registerChan, unregisterChan, kickHandlerChan, onlineUserNum, onlineUserConnNum)
    }

    constructor (policy: int)
      ensures Valid() && fresh(clients) && View() == NEW_NODE && tokens == map[] && this.policy == policy
    {
      this.policy := policy;
      clients := new UserMap();
      closed, registerChan, unregisterChan, kickHandlerChan := {}, [], [], [];
      onlineUserNum, onlineUserConnNum, tokens := 0, 0, map[];
    }

    /** KickOnlineMessage: a message to the client, then close. */
    method KickOnlineMessage(c: Client)
      requires Valid()
      modifies this`closed, this`unregisterChan
      ensures Valid() && View() == Close(old(View()), c)
    {
      if c.id !in closed {
        closed := closed + {c.id};
        unregisterChan := unregisterChan + [c];
      }
    }

    /**
     * multiTerminalLoginChecker. When it kicks and redis answers, every known token of the user on
     * the platform except the new login's reads as kicked; no other user or platform is touched.
     */
    method MultiTerminalLoginChecker(clientOK: bool, oldClients: seq<Client>, newClient: Client, redisUp: bool)
      requires Valid()
      modifies this, clients
      ensures Valid() && View() == Kicked(policy, old(View()), KickInfo(clientOK, oldClients, newClient))
      ensures Marking(policy, old(tokens), tokens, KickInfo(clientOK, oldClients, newClient), redisUp)
    {
      if policy == PC_AND_OTHER && PlatformIDToClass(newClient.platformID) == TERMINAL_PC {
        return;
      }
      if policy == PC_AND_OTHER || policy == ALL_LOGIN_BUT_SAME_TERM_KICK {
        if clientOK {
          var isDeleteUser := clients.DeleteClients(newClient.userID, oldClients);
          if isDeleteUser {
            onlineUserNum := onlineUserNum - 1;
          }
          ghost var dropped := View();
          for i := 0 to |oldClients|
            invariant Valid() && View() == CloseAll(dropped, oldClients[..i])
            invariant tokens == old(tokens)
          {
            assert oldClients[..i + 1][..i] == oldClients[..i];
            KickOnlineMessage(oldClients[i]);
          }
          assert oldClients[..|oldClients|] == oldClients;
          if !redisUp {
            return;
          }
          KickTokens(newClient);
        }
      }
    }

    /** The loop that marks the other tokens of the user and platform as kicked. */
    method KickTokens(newClient: Client)
      modifies this`tokens
      ensures MarksOthers(old(tokens), tokens, newClient)
    {
      var before := TokensOf(tokens, newClient.userID, newClient.platformID);
      var m := before;
      var rest := m.Keys;
      while rest != {}
        invariant m.Keys == before.Keys && rest <= m.Keys
        invariant forall t <- m ::
          m[t] == if t in rest || t == newClient.token then before[t] else KICKED_TOKEN
        decreases rest
      {
        var k :| k in rest;
        rest := rest - {k};
        if k != newClient.token {
          m := m[k := KICKED_TOKEN];
        }
      }
      tokens := tokens[(newClient.userID, PlatformIDToName(newClient.platformID)) := m];
    }

    method RegisterClient(client: Client, redisUp: bool)
      requires Valid()
      modifies this, clients
      ensures Valid() && View() == Registered(policy, old(View()), client)
      ensures Marking(policy, old(tokens), tokens, LoginKick(old(clients.m), client), redisUp)
    {
      var oldClients, userOK, clientOK := clients.Get(client.userID, client.platformID);
      if !userOK {
        clients.Set(client.userID, client);
        onlineUserNum := onlineUserNum + 1;
        onlineUserConnNum := onlineUserConnNum + 1;
      } else {
        MultiTerminalLoginChecker(clientOK, oldClients, client, redisUp);
        clients.Set(client.userID, client);
        onlineUserConnNum := onlineUserConnNum + 1;
      }
    }

    method UnregisterClient(client: Client)
      requires Valid()
      modifies this, clients
      ensures Valid() && View() == Unregistered(old(View()), client) && tokens == old(tokens)
    {
      var isDeleteUser := clients.Delete(client.userID, client.remoteAddr);
      if isDeleteUser {
        onlineUserNum := onlineUserNum - 1;
      }
      onlineUserConnNum := onlineUserConnNum - 1;
    }

    /** One connection: it leaves the registry and is closed; the user counter is not looked at. */
    method KickUserConn(client: Client)
      requires Valid()
      modifies this`closed, this`unregisterChan, clients
      ensures Valid() && View() == ConnKicked(old(View()), client)
    {
      SingleAddr(client);
      var _ := clients.DeleteClients(client.userID, [client]);
      KickOnlineMessage(client);
    }

    method KickUserConns(found: seq<Client>)
      requires Valid()
      modifies this`closed, this`unregisterChan, clients
      ensures Valid() && View() == ForcedOff(old(View()), found)
    {
      ghost var was := View();
      for i := 0 to |found|
        invariant Valid() && View() == ForcedOff(was, found[..i])
      {
        ForcedOffNext(was, found, i);
        KickUserConn(found[i]);
      }
      assert found[..|found|] == found;
    }

    /** KickUserOffline for one user: KickUserConn on each connection found on the platform. */
    method KickUserOffline(userID: string, platformID: int)
      requires Valid()
      modifies this`closed, this`unregisterChan, clients
      ensures Valid() && tokens == old(tokens)
      ensures View() == ForcedOff(old(View()), OnPlatform(Of(old(clients.m), userID), platformID))
    {
      var found, _, ok := clients.Get(userID, platformID);
      if ok {
        KickUserConns(found);
      }
    }

    method MultiTerminalLoginCheck(userID: string, platformID: int, token: string)
      requires Valid()
      modifies this`kickHandlerChan
      ensures Valid() && View() == LoginReported(old(View()), userID, platformID, token) && tokens == old(tokens)
    {
      var oldClients, userOK, clientOK := clients.Get(userID, platformID);
      if userOK {
        kickHandlerChan := kickHandlerChan + [KickInfo(clientOK, oldClients, RequestClient(userID, platformID, token))];
      }
    }
  }

  lemma ForcedOffNext(n: Node, cs: seq<Client>, i: nat)
    requires i < |cs|
    ensures ForcedOff(n, cs[..i + 1]) == ConnKicked(ForcedOff(n, cs[..i]), cs[i])
  {
    assert cs[..i + 1][..i] == cs[..i];
  }

  lemma SingleAddr(c: Client)
    ensures Addrs([c]) == {c.remoteAddr}
  {
    assert c in [c];
  }
}
