/** The registry of long connections of one gateway node (internal/msggateway/user_map.go). */
module UserMaps {

  /**
   * A connection, as far as the registry looks at it. Each accepted connection has its own `id`;
   * clients are not recycled here.
   */
  datatype Client = Client(id: nat, userID: string, platformID: int, remoteAddr: string, token: string)

  /** The content of the registry: the connections of each user, oldest first. */
  type Conns = map<string, seq<Client>>

  /** A user who is not in the map has no connections. */
  function Of(m: Conns, userID: string): seq<Client> {
    if userID in m then m[userID] else []
  }

  predicate NoEmptyEntry(m: Conns) {
    forall u <- m :: m[u] != []
  }

  /** The connections of a list on one platform, in order. */
  function OnPlatform(clients: seq<Client>, platformID: int): seq<Client> {
    if clients == [] then []
    else OnPlatform(clients[..|clients| - 1], platformID)
         + (if clients[|clients| - 1].platformID == platformID then [clients[|clients| - 1]] else [])
  }

  /** The connections of a list at none of the given addresses, in order. */
  function Without(clients: seq<Client>, addrs: set<string>): seq<Client> {
    if clients == [] then []
    else Without(clients[..|clients| - 1], addrs)
         + (if clients[|clients| - 1].remoteAddr !in addrs then [clients[|clients| - 1]] else [])
  }

  function Addrs(clients: seq<Client>): set<string> {
    set c | c in clients :: c.remoteAddr
  }

  /** The registry with the connections of one user replaced; no key maps to an empty list. */
  function Replaced(m: Conns, userID: string, clients: seq<Client>): Conns {
    if clients == [] then m - {userID} else m[userID := clients]
  }

  lemma {:induction false} OnPlatformMembers(clients: seq<Client>, platformID: int)
    ensures forall c :: c in OnPlatform(clients, platformID) <==> c in clients && c.platformID == platformID
  {
    if clients != [] {
      OnPlatformMembers(clients[..|clients| - 1], platformID);
      assert clients == clients[..|clients| - 1] + [clients[|clients| - 1]];
    }
  }

  lemma {:induction false} WithoutMembers(clients: seq<Client>, addrs: set<string>)
    ensures forall c :: c in Without(clients, addrs) <==> c in clients && c.remoteAddr !in addrs
  {
    if clients != [] {
      WithoutMembers(clients[..|clients| - 1], addrs);
      assert clients == clients[..|clients| - 1] + [clients[|clients| - 1]];
    }
  }

  lemma OnPlatformAppend(clients: seq<Client>, c: Client, platformID: int)
    ensures OnPlatform(clients + [c], platformID)
         == OnPlatform(clients, platformID) + (if c.platformID == platformID then [c] else [])
  {
    assert (clients + [c])[..|clients|] == clients;
  }

  lemma WithoutAppend(clients: seq<Client>, c: Client, addrs: set<string>)
    ensures Without(clients + [c], addrs) == Without(clients, addrs) + (if c.remoteAddr !in addrs then [c] else [])
  {
    assert (clients + [c])[..|clients|] == clients;
  }

  lemma {:induction false} OnPlatformOfWithout(clients: seq<Client>, platformID: int, addrs: set<string>)
    ensures OnPlatform(Without(clients, addrs), platformID) == Without(OnPlatform(clients, platformID), addrs)
    ensures |OnPlatform(Without(clients, addrs), platformID)| <= |OnPlatform(clients, platformID)|
  {
    if clients != [] {
      var init, c := clients[..|clients| - 1], clients[|clients| - 1];
      OnPlatformOfWithout(init, platformID, addrs);
      assert clients == init + [c];
      WithoutAppend(init, c, addrs);
      OnPlatformAppend(init, c, platformID);
      OnPlatformAppend(Without(init, addrs), c, platformID);
      WithoutAppend(OnPlatform(init, platformID), c, addrs);
      assert Without(init, addrs) + [] == Without(init, addrs);
      assert OnPlatform(init, platformID) + [] == OnPlatform(init, platformID);
      assert OnPlatform(Without(init, addrs), platformID) + [] == OnPlatform(Without(init, addrs), platformID);
    }
  }

  /** Where addresses tell connections apart, removing some connections removes exactly those. */
  lemma WithoutIsExact(clients: seq<Client>, gone: seq<Client>)
    requires forall c, d | c in clients && d in gone && c.remoteAddr == d.remoteAddr :: c == d
    ensures forall c :: c in Without(clients, Addrs(gone)) <==> c in clients && c !in gone
  {
    WithoutMembers(clients, Addrs(gone));
  }

  /** The sync.Map of client slices; each method is one call of the registry. */
  class UserMap {
    var m: Conns

    ghost predicate Valid()
      reads this
    {
      NoEmptyEntry(m)
    }

    constructor ()
      ensures Valid() && m == map[]
    {
      m := map[];
    }

    method GetAll(key: string) returns (clients: seq<Client>, ok: bool)
      requires Valid()
      ensures clients == Of(m, key)
      ensures ok <==> clients != []
    {
      if key in m {
        return m[key], true;
      }
      return [], false;
    }

    method Get(key: string, platformID: int) returns (clients: seq<Client>, userExisted: bool, clientExisted: bool)
      requires Valid()
      ensures clients == OnPlatform(Of(m, key), platformID)
      ensures userExisted <==> Of(m, key) != []
      ensures clientExisted <==> clients != []
    {
      clients := [];
      if key in m {
        var allClients := m[key];
        for i := 0 to |allClients|
          invariant clients == OnPlatform(allClients[..i], platformID)
        {
          assert allClients[..i + 1][..i] == allClients[..i];
          if allClients[i].platformID == platformID {
            clients := clients + [allClients[i]];
          }
        }
        assert allClients[..|allClients|] == allClients;
        if |clients| > 0 {
          return clients, true, true;
        }
        return clients, true, false;
      }
      return [], false, false;
    }

    method Set(key: string, v: Client)
      requires Valid()
      modifies this
      ensures Valid()
      ensures m == Replaced(old(m), key, Of(old(m), key) + [v])
    {
      if key in m {
        var oldClients := m[key];
        oldClients := oldClients + [v];
        m := m[key := oldClients];
      } else {
        var clients := [];
        clients := clients + [v];
        m := m[key := clients];
      }
    }

    /** Removes the connections at one address; true exactly when the user had connections and lost the last. */
    method Delete(key: string, connRemoteAddr: string) returns (isDeleteUser: bool)
      requires Valid()
      modifies this
      ensures Valid()
      ensures m == Replaced(old(m), key, Without(Of(old(m), key), {connRemoteAddr}))
      ensures isDeleteUser <==> Of(old(m), key) != [] && Of(m, key) == []
    {
      if key in m {
        var oldClients := m[key];
        var a := [];
        for i := 0 to |oldClients|
          invariant a == Without(oldClients[..i], {connRemoteAddr})
        {
          assert oldClients[..i + 1][..i] == oldClients[..i];
          if oldClients[i].remoteAddr != connRemoteAddr {
            a := a + [oldClients[i]];
          }
        }
        assert oldClients[..|oldClients|] == oldClients;
        if |a| == 0 {
          m := m - {key};
          return true;
        } else {
          m := m[key := a];
          return false;
        }
      }
      assert m == m - {key};
      return false;
    }

    /** Removes the connections at the addresses of the given ones. */
    method DeleteClients(key: string, clients: seq<Client>) returns (isDeleteUser: bool)
      requires Valid()
      modifies this
      ensures Valid()
      ensures m == Replaced(old(m), key, Without(Of(old(m), key), Addrs(clients)))
      ensures isDeleteUser <==> Of(old(m), key) != [] && Of(m, key) == []
    {
      var addrs: set<string> := {};
      for i := 0 to |clients|
        invariant addrs == Addrs(clients[..i])
      {
        assert clients[..i + 1] == clients[..i] + [clients[i]];
        addrs := addrs + {clients[i].remoteAddr};
      }
      assert clients[..|clients|] == clients;
      if key in m {
        var oldClients := m[key];
        var a := [];
        for i := 0 to |oldClients|
          invariant a == Without(oldClients[..i], addrs)
        {
          assert oldClients[..i + 1][..i] == oldClients[..i];
          if oldClients[i].remoteAddr !in addrs {
            a := a + [oldClients[i]];
          }
        }
        assert oldClients[..|oldClients|] == oldClients;
        if |a| == 0 {
          m := m - {key};
          return true;
        } else {
          m := m[key := a];
          return false;
        }
      }
      assert m == m - {key};
      return false;
    }
  }
}
