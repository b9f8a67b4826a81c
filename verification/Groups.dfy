/**
 * Group membership and roles (internal/rpc/group/group.go): the group, member and join-request
 * tables, what each request needs and what it does to them. Callbacks are off, the other services
 * answer, and groups are working groups, the only type that can be created.
 */
module Groups {

  const GROUP_OWNER := 100
  const GROUP_ADMIN := 60
  const GROUP_ORDINARY_USERS := 20

  const GROUP_OK := 0
  const GROUP_STATUS_DISMISSED := 2
  const GROUP_STATUS_MUTED := 3
  const WORKING_GROUP := 2

  const ALL_NEED_VERIFICATION := 1
  const DIRECTLY := 2

  const GROUP_RESPONSE_AGREE := 1
  const GROUP_RESPONSE_REFUSE := -1

  datatype Group = Group(status: int, needVerification: int)
  datatype Member = Member(role: int, muteEnd: int)

  /** A row is found by group id, then user id. */
  type Key = (string, string)

  datatype Store = Store(groups: map<string, Group>, members: map<Key, Member>, requests: map<Key, int>)

  /** The app managers and the registered users. */
  datatype Env = Env(managers: set<string>, users: set<string>)

  /** One element of a SetGroupMemberInfo request, as far as roles are concerned. */
  datatype Change = Keep | SetRole(role: int)
  datatype Entry = Entry(groupID: string, userID: string, change: Change)

  const NEW_MEMBER := Member(GROUP_ORDINARY_USERS, 0)

  // ----- Reading the tables -----

  predicate InGroup(s: Store, g: string, u: string) {
    (g, u) in s.members
  }

  predicate HasRole(s: Store, g: string, u: string, role: int) {
    (g, u) in s.members && s.members[(g, u)].role == role
  }

  predicate OwnerOrAdmin(s: Store, g: string, u: string) {
    HasRole(s, g, u, GROUP_OWNER) || HasRole(s, g, u, GROUP_ADMIN)
  }

  predicate Dismissed(s: Store, g: string) {
    g in s.groups && s.groups[g].status == GROUP_STATUS_DISMISSED
  }

  predicate NoDuplicates<T(==)>(xs: seq<T>) {
    forall i, j | 0 <= i < j < |xs| :: xs[i] != xs[j]
  }

  /** A table after rows for the users `us` of one group were written. */
  function WithRows<T>(table: map<Key, T>, g: string, us: seq<string>, row: T): map<Key, T> {
    if us == [] then table
    else WithRows(table, g, us[..|us| - 1], row)[(g, us[|us| - 1]) := row]
  }

  lemma {:induction false} WithRowsLookup<T>(table: map<Key, T>, g: string, us: seq<string>, row: T, k: Key)
    ensures k in WithRows(table, g, us, row) <==> k in table || (k.0 == g && k.1 in us)
    ensures k in WithRows(table, g, us, row) ==>
      WithRows(table, g, us, row)[k] == if k.0 == g && k.1 in us then row else table[k]
  {
    if us != [] {
      var init, u := us[..|us| - 1], us[|us| - 1];
      WithRowsLookup(table, g, init, row, k);
      assert us == init + [u];
      assert k == (k.0, k.1);
    }
  }

  function Elements(us: seq<string>): set<string> {
    set u | u in us
  }

  // ----- What each request needs, and what it does -----

  function AllUsers(owner: string, memberIDs: seq<string>, adminIDs: seq<string>, op: string): seq<string> {
    var us := memberIDs + adminIDs + [owner];
    if op in us then us else us + [op]
  }

  predicate CanCreate(env: Env, s: Store, op: string, owner: string, memberIDs: seq<string>, adminIDs: seq<string>,
                      groupID: string, groupType: int) {
    var us := AllUsers(owner, memberIDs, adminIDs, op);
    && owner != "" && groupType == WORKING_GROUP
    && (op in env.managers || op == owner)
    && NoDuplicates(us) && Elements(us) <= env.users
    && groupID !in s.groups
    && (forall u <- memberIDs + adminIDs + [owner] :: !InGroup(s, groupID, u))
  }

  /** The member table with a new group's rows: its owner, its admins, its ordinary members. */
  function FirstRows(table: map<Key, Member>, id: string, owner: string, memberIDs: seq<string>,
                     adminIDs: seq<string>): map<Key, Member> {
    WithRows(WithRows(table[(id, owner) := Member(GROUP_OWNER, 0)], id, adminIDs, Member(GROUP_ADMIN, 0)),
             id, memberIDs, NEW_MEMBER)
  }

  function Created(s: Store, owner: string, memberIDs: seq<string>, adminIDs: seq<string>,
                   groupID: string, group: Group): Store {
    s.(groups := s.groups[groupID := group],
       members := FirstRows(s.members, groupID, owner, memberIDs, adminIDs))
  }

  /** What every invitation needs before it is decided whether it must be approved first. */
  predicate CanInvite(env: Env, s: Store, op: string, g: string, invited: seq<string>) {
    && invited != [] && NoDuplicates(invited)
    && g in s.groups && !Dismissed(s, g)
    && Elements(invited) <= env.users
    && (op in env.managers || InGroup(s, g, op))
  }

  predicate InviteNeedsApproval(env: Env, s: Store, op: string, g: string)
    requires g in s.groups
  {
    s.groups[g].needVerification == ALL_NEED_VERIFICATION && op !in env.managers && !OwnerOrAdmin(s, g, op)
  }

  function Requested(s: Store, g: string, us: seq<string>): Store {
    s.(requests := WithRows(s.requests, g, us, 0))
  }

  function Joined(s: Store, g: string, us: seq<string>): Store {
    s.(members := WithRows(s.members, g, us, NEW_MEMBER))
  }

  predicate CanJoin(env: Env, s: Store, g: string, u: string) {
    u in env.users && g in s.groups && !Dismissed(s, g) && !InGroup(s, g, u)
  }

  predicate CanRespond(env: Env, s: Store, op: string, g: string, from: string, result: int) {
    && result in {GROUP_RESPONSE_AGREE, GROUP_RESPONSE_REFUSE}
    && (op in env.managers || OwnerOrAdmin(s, g, op))
    && g in s.groups && (g, from) in s.requests && s.requests[(g, from)] == 0
    && from in env.users
  }

  function Responded(s: Store, g: string, from: string, result: int): Store {
    var handled := s.(requests := s.requests[(g, from) := result]);
    if result == GROUP_RESPONSE_AGREE && !InGroup(s, g, from) then Joined(handled, g, [from]) else handled
  }

  predicate CanKick(env: Env, s: Store, op: string, g: string, kicked: seq<string>) {
    && g in s.groups && kicked != [] && NoDuplicates(kicked) && op !in kicked
    && (forall u <- kicked :: InGroup(s, g, u))
    && (op in env.managers
        || HasRole(s, g, op, GROUP_OWNER)
        || (HasRole(s, g, op, GROUP_ADMIN)
            && forall u <- kicked :: !OwnerOrAdmin(s, g, u)))
  }

  function Removed(s: Store, g: string, us: set<string>): Store {
    s.(members := map k | k in s.members && !(k.0 == g && k.1 in us) :: s.members[k])
  }

  predicate CanQuit(env: Env, s: Store, op: string, g: string, u: string) {
    (op in env.managers || op == u) && g in s.groups && InGroup(s, g, u) && !HasRole(s, g, u, GROUP_OWNER)
  }

  /** The role of a member, or 0. */
  function RoleOf(s: Store, g: string, u: string): int {
    if InGroup(s, g, u) then s.members[(g, u)].role else 0
  }

  /**
   * The database counts changed rows, and a transfer fails unless both rows change: the two must have
   * different roles, and the new owner must not be one already.
   */
  predicate CanTransfer(env: Env, s: Store, op: string, g: string, oldOwner: string, newOwner: string) {
    && g in s.groups && !Dismissed(s, g) && oldOwner != newOwner
    && InGroup(s, g, oldOwner) && InGroup(s, g, newOwner)
    && (op in env.managers || (op == oldOwner && HasRole(s, g, oldOwner, GROUP_OWNER)))
    && RoleOf(s, g, oldOwner) != RoleOf(s, g, newOwner) && !HasRole(s, g, newOwner, GROUP_OWNER)
  }

  /** The old owner takes the role the new owner had. */
  function Transferred(s: Store, g: string, oldOwner: string, newOwner: string): Store
    requires InGroup(s, g, oldOwner) && InGroup(s, g, newOwner)
  {
    var a, b := s.members[(g, oldOwner)], s.members[(g, newOwner)];
    s.(members := s.members[(g, oldOwner) := a.(role := b.role)][(g, newOwner) := b.(role := GROUP_OWNER)])
  }

  /** What a non-manager may change about one member. */
  predicate MayChange(s: Store, op: string, e: Entry) {
    var g := e.groupID;
    && (e.change.SetRole? ==> e.change.role in {GROUP_ORDINARY_USERS, GROUP_ADMIN})
    && InGroup(s, g, op)
    && if e.userID == op then e.change.Keep?
       else
         && InGroup(s, g, e.userID)
         && !HasRole(s, g, op, GROUP_ORDINARY_USERS)
         && (HasRole(s, g, op, GROUP_ADMIN) ==> HasRole(s, g, e.userID, GROUP_ORDINARY_USERS) && e.change.Keep?)
  }

  predicate DistinctTargets(es: seq<Entry>) {
    forall i, j | 0 <= i < j < |es| :: (es[i].groupID, es[i].userID) != (es[j].groupID, es[j].userID)
  }

  predicate CanSetInfo(env: Env, s: Store, op: string, es: seq<Entry>) {
    && es != [] && DistinctTargets(es)
    && (forall e <- es :: InGroup(s, e.groupID, e.userID))
    && (op !in env.managers ==> forall e <- es :: MayChange(s, op, e))
    && (forall e <- es | e.change.SetRole? :: !HasRole(s, e.groupID, e.userID, GROUP_OWNER))
  }

  function RolesSet(s: Store, es: seq<Entry>): Store {
    if es == [] then s
    else
      var t, e := RolesSet(s, es[..|es| - 1]), es[|es| - 1];
      var k := (e.groupID, e.userID);
      if e.change.SetRole? && k in t.members
      then t.(members := t.members[k := t.members[k].(role := e.change.role)]) else t
  }

  /** The role test shared by MuteGroupMember and CancelMuteGroupMember. */
  predicate CanMute(env: Env, s: Store, op: string, g: string, u: string) {
    && InGroup(s, g, u)
    && (op in env.managers
        || (&& InGroup(s, g, op)
            && !HasRole(s, g, u, GROUP_OWNER)
            && (HasRole(s, g, u, GROUP_ADMIN) ==> HasRole(s, g, op, GROUP_OWNER))
            && (HasRole(s, g, u, GROUP_ORDINARY_USERS) ==> OwnerOrAdmin(s, g, op))))
  }

  function MutedUntil(s: Store, g: string, u: string, muteEnd: int): Store
    requires InGroup(s, g, u)
  {
    s.(members := s.members[(g, u) := s.members[(g, u)].(muteEnd := muteEnd)])
  }

  /** CheckGroupAdmin. */
  predicate CanMuteGroup(env: Env, s: Store, op: string, g: string) {
    op in env.managers || OwnerOrAdmin(s, g, op)
  }

  function StatusSet(s: Store, g: string, status: int): Store {
    if g in s.groups then s.(groups := s.groups[g := s.groups[g].(status := status)]) else s
  }

  /** `owner` is the owner row the database returned. */
  predicate CanDismiss(env: Env, s: Store, op: string, g: string, deleteMember: bool, owner: string) {
    && HasRole(s, g, owner, GROUP_OWNER)
    && (op in env.managers || op == owner)
    && g in s.groups
    && (deleteMember || !Dismissed(s, g))
  }

  function DismissedStore(s: Store, g: string, deleteMember: bool): Store {
    var t := StatusSet(s, g, GROUP_STATUS_DISMISSED);
    if deleteMember then t.(members := map k | k in s.members && k.0 != g :: s.members[k]) else t
  }

  // ----- The server -----

  lemma NoDuplicatesSnoc<T>(xs: seq<T>, i: nat)
    requires i < |xs| && NoDuplicates(xs[..i]) && xs[i] !in xs[..i]
    ensures NoDuplicates(xs[..i + 1])
  {
    var ys, init := xs[..i + 1], xs[..i];
    forall a, b | 0 <= a < b < |ys| ensures ys[a] != ys[b] {
      assert ys[a] == init[a] && init[a] in init;
      if b < i { assert ys[b] == init[b]; }
    }
  }

  /** utils.Duplicate: whether some element occurs twice. */
  method Duplicate(us: seq<string>) returns (r: bool)
    ensures r <==> !NoDuplicates(us)
  {
    var seen: set<string> := {};
    for i := 0 to |us|
      invariant seen == Elements(us[..i]) && NoDuplicates(us[..i])
    {
      if us[i] in seen {
        var j :| 0 <= j < i && us[..i][j] == us[i];
        assert us[j] == us[i];
        return true;
      }
      NoDuplicatesSnoc(us, i);
      assert us[..i + 1] == us[..i] + [us[i]];
      seen := seen + {us[i]};
    }
    assert us[..|us|] == us;
    return false;
  }

  lemma DistinctTargetsSnoc(es: seq<Entry>, i: nat)
    requires i < |es| && DistinctTargets(es[..i])
    requires forall j | 0 <= j < i :: (es[j].groupID, es[j].userID) != (es[i].groupID, es[i].userID)
    ensures DistinctTargets(es[..i + 1])
  {
    var ys, init := es[..i + 1], es[..i];
    forall a, b | 0 <= a < b < |ys| ensures (ys[a].groupID, ys[a].userID) != (ys[b].groupID, ys[b].userID) {
      assert ys[a] == init[a] == es[a];
      if b < i { assert ys[b] == init[b]; }
    }
  }

  class GroupServer {
    const env: Env
    var groups: map<string, Group>
    var members: map<Key, Member>
    var requests: map<Key, int>

    ghost function View(): Store
      reads this
    {
      Store(groups, members, requests)
    }

    constructor (env: Env)
      ensures this.env == env && View() == Store(map[], map[], map[])
    {
      this.env := env;
      groups, members, requests := map[], map[], map[];
    }

    /** `generated` is the id GenGroupID comes up with when the request names none. */
    method CreateGroup(op: string, owner: string, memberIDs: seq<string>, adminIDs: seq<string>,
                       groupID: string, generated: string, groupType: int, group: Group) returns (ok: bool)
      modifies this
      ensures var id := if groupID != "" then groupID else generated;
        && ok == CanCreate(env, old(View()), op, owner, memberIDs, adminIDs, id, groupType)
        && View() == if ok then Created(old(View()), owner, memberIDs, adminIDs, id, group) else old(View())
    {
      if owner == "" || groupType != WORKING_GROUP || !(op in env.managers || op == owner) {
        return false;
      }
      var userIDs := memberIDs + adminIDs + [owner];
      if op !in userIDs {
        userIDs := userIDs + [op];
      }
      var duplicate := Duplicate(userIDs);
      if duplicate {
        return false;
      }
      if !(Elements(userIDs) <= env.users) {
        return false;
      }
      var id := if groupID != "" then groupID else generated;
      if id in groups {
        return false;
      }
      for i := 0 to |userIDs|
        invariant forall j | 0 <= j < i && userIDs[j] in memberIDs + adminIDs + [owner] :: (id, userIDs[j]) !in members
      {
        if userIDs[i] in memberIDs + adminIDs + [owner] && (id, userIDs[i]) in members {
          assert InGroup(View(), id, userIDs[i]);
          return false;
        }
      }
      forall u <- memberIDs + adminIDs + [owner] ensures !InGroup(View(), id, u) {
        assert u in userIDs;
      }
      groups := groups[id := group];
      members := members[(id, owner) := Member(GROUP_OWNER, 0)];
      WriteRows(id, adminIDs, Member(GROUP_ADMIN, 0));
      WriteRows(id, memberIDs, Member(GROUP_ORDINARY_USERS, 0));
      ok := true;
    }

    method WriteRows(g: string, us: seq<string>, row: Member)
      modifies this`members
      ensures members == WithRows(old(members), g, us, row)
    {
      for i := 0 to |us|
        invariant members == WithRows(old(members), g, us[..i], row)
      {
        assert us[..i + 1][..i] == us[..i];
        members := members[(g, us[i]) := row];
      }
      assert us[..|us|] == us;
    }

    /** Inserting members; the insert fails when one of them is in the group already. */
    method InsertMembers(g: string, us: seq<string>) returns (ok: bool)
      modifies this`members
      ensures ok == forall u <- us :: !InGroup(old(View()), g, u)
      ensures View() == if ok then Joined(old(View()), g, us) else old(View())
    {
      for i := 0 to |us|
        invariant forall j | 0 <= j < i :: (g, us[j]) !in members
      {
        if (g, us[i]) in members {
          assert InGroup(View(), g, us[i]) && us[i] in us;
          return false;
        }
      }
      WriteRows(g, us, NEW_MEMBER);
      ok := true;
    }

    method InviteUserToGroup(op: string, g: string, invited: seq<string>) returns (ok: bool)
      modifies this
      ensures ok == (&& CanInvite(env, old(View()), op, g, invited)
                     && (InviteNeedsApproval(env, old(View()), op, g)
                         || forall u <- invited :: !InGroup(old(View()), g, u)))
      ensures View() == if !ok then old(View())
                        else if InviteNeedsApproval(env, old(View()), op, g)
                        then Requested(old(View()), g, invited)
                        else Joined(old(View()), g, invited)
    {
      var duplicate := Duplicate(invited);
      if invited == [] || duplicate || g !in groups || groups[g].status == GROUP_STATUS_DISMISSED {
        return false;
      }
      if !(Elements(invited) <= env.users) {
        return false;
      }
      if op !in env.managers && (g, op) !in members {
        return false;
      }
      if groups[g].needVerification == ALL_NEED_VERIFICATION {
        if op !in env.managers {
          if !(members[(g, op)].role == GROUP_OWNER || members[(g, op)].role == GROUP_ADMIN) {
            CreateRequests(g, invited);
            return true;
          }
        }
      }
      ok := InsertMembers(g, invited);
    }

    /** `u` is the user who joins (the request calls it the inviter). */
    method JoinGroup(g: string, u: string) returns (ok: bool)
      modifies this
      ensures ok == CanJoin(env, old(View()), g, u)
      ensures View() == if !ok then old(View())
                        else if old(View()).groups[g].needVerification == DIRECTLY
                        then Joined(old(View()), g, [u]) else Requested(old(View()), g, [u])
    {
      if u !in env.users || g !in groups || groups[g].status == GROUP_STATUS_DISMISSED || (g, u) in members {
        return false;
      }
      if groups[g].needVerification == DIRECTLY {
        ok := InsertMembers(g, [u]);
        return;
      }
      CreateRequests(g, [u]);
      ok := true;
    }

    /** CreateGroupRequest: a new request takes the place of an earlier one. */
    method CreateRequests(g: string, us: seq<string>)
      modifies this`requests
      ensures requests == WithRows(old(requests), g, us, 0)
    {
      for i := 0 to |us|
        invariant requests == WithRows(old(requests), g, us[..i], 0)
      {
        assert us[..i + 1][..i] == us[..i];
        requests := requests[(g, us[i]) := 0];
      }
      assert us[..|us|] == us;
    }

    method GroupApplicationResponse(op: string, g: string, from: string, result: int) returns (ok: bool)
      modifies this
      ensures ok == CanRespond(env, old(View()), op, g, from, result)
      ensures View() == if ok then Responded(old(View()), g, from, result) else old(View())
    {
      if result != GROUP_RESPONSE_AGREE && result != GROUP_RESPONSE_REFUSE {
        return false;
      }
      if op !in env.managers {
        if (g, op) !in members || !(members[(g, op)].role == GROUP_OWNER || members[(g, op)].role == GROUP_ADMIN) {
          return false;
        }
      }
      if g !in groups || (g, from) !in requests || requests[(g, from)] != 0 {
        return false;
      }
      var inGroup := (g, from) in members;
      if from !in env.users {
        return false;
      }
      requests := requests[(g, from) := result];
      if !inGroup && result == GROUP_RESPONSE_AGREE {
        WriteRows(g, [from], Member(GROUP_ORDINARY_USERS, 0));
      }
      ok := true;
    }

    method KickGroupMember(op: string, g: string, kicked: seq<string>) returns (ok: bool)
      modifies this
      ensures ok == CanKick(env, old(View()), op, g, kicked)
      ensures View() == if ok then Removed(old(View()), g, Elements(kicked)) else old(View())
    {
      var duplicate := Duplicate(kicked);
      if g !in groups || kicked == [] || duplicate || op in kicked {
        return false;
      }
      for i := 0 to |kicked|
        invariant View() == old(View())
        invariant forall j | 0 <= j < i :: InGroup(View(), g, kicked[j])
        invariant i > 0 && op !in env.managers ==> OwnerOrAdmin(View(), g, op)
        invariant op !in env.managers && !HasRole(View(), g, op, GROUP_OWNER) ==>
          forall j | 0 <= j < i :: !OwnerOrAdmin(View(), g, kicked[j])
      {
        assert kicked[i] in kicked;
        if (g, kicked[i]) !in members {
          return false;
        }
        var member := members[(g, kicked[i])];
        if op !in env.managers {
          if (g, op) !in members {
            return false;
          }
          var opMember := members[(g, op)];
          if opMember.role == GROUP_OWNER {
          } else if opMember.role == GROUP_ADMIN {
            if member.role == GROUP_OWNER || member.role == GROUP_ADMIN {
              return false;
            }
          } else {
            assert kicked[0] in kicked;
            return false;
          }
        }
      }
      assert kicked[0] in kicked;
      members := map k | k in members && !(k.0 == g && k.1 in kicked) :: members[k];
      ok := true;
    }

    method QuitGroup(op: string, g: string, userID: string) returns (ok: bool)
      modifies this
      ensures var u := if userID == "" then op else userID;
        && ok == CanQuit(env, old(View()), op, g, u)
        && View() == if ok then Removed(old(View()), g, {u}) else old(View())
    {
      var u := if userID == "" then op else userID;
      if !(op in env.managers || op == u) {
        return false;
      }
      if g !in groups || (g, u) !in members || members[(g, u)].role == GROUP_OWNER {
        return false;
      }
      members := map k | k in members && k != (g, u) :: members[k];
      ok := true;
    }

    method TransferGroupOwner(op: string, g: string, oldOwner: string, newOwner: string) returns (ok: bool)
      modifies this
      ensures ok == CanTransfer(env, old(View()), op, g, oldOwner, newOwner)
      ensures View() == if ok then Transferred(old(View()), g, oldOwner, newOwner) else old(View())
    {
      if g !in groups || groups[g].status == GROUP_STATUS_DISMISSED || oldOwner == newOwner {
        return false;
      }
      if (g, oldOwner) !in members || (g, newOwner) !in members {
        return false;
      }
      if op !in env.managers {
        if !(op == oldOwner && members[(g, oldOwner)].role == GROUP_OWNER) {
          return false;
        }
      }
      ok := SwapRoles(g, oldOwner, newOwner, members[(g, newOwner)].role);
    }

    /** The transaction of two updates; a row that does not change undoes it. */
    method SwapRoles(g: string, oldOwner: string, newOwner: string, role: int) returns (ok: bool)
      requires InGroup(View(), g, oldOwner) && InGroup(View(), g, newOwner) && oldOwner != newOwner
      requires role == members[(g, newOwner)].role
      modifies this`members
      ensures ok == (!HasRole(old(View()), g, oldOwner, role) && !HasRole(old(View()), g, newOwner, GROUP_OWNER))
      ensures View() == if ok then Transferred(old(View()), g, oldOwner, newOwner) else old(View())
    {
      var before := members;
      var rowsAffected := UpdateRoleLevel(g, oldOwner, role);
      if rowsAffected != 1 {
        return false;
      }
      rowsAffected := UpdateRoleLevel(g, newOwner, GROUP_OWNER);
      if rowsAffected != 1 {
        members := before;
        return false;
      }
      ok := true;
    }

    /** Returns how many rows the update changed. */
    method UpdateRoleLevel(g: string, u: string, role: int) returns (rowsAffected: nat)
      modifies this`members
      ensures rowsAffected == if InGroup(old(View()), g, u) && !HasRole(old(View()), g, u, role) then 1 else 0
      ensures members == if rowsAffected == 0 then old(members)
                         else old(members)[(g, u) := old(members)[(g, u)].(role := role)]
    {
      if (g, u) !in members || members[(g, u)].role == role {
        return 0;
      }
      members := members[(g, u) := members[(g, u)].(role := role)];
      rowsAffected := 1;
    }

    method SetGroupMemberInfo(op: string, es: seq<Entry>) returns (ok: bool)
      modifies this
      ensures ok == CanSetInfo(env, old(View()), op, es)
      ensures View() == if ok then RolesSet(old(View()), es) else old(View())
    {
      if es == [] {
        return false;
      }
      var found := TargetsFound(es);
      if !found {
        return false;
      }
      if op !in env.managers {
        var allowed := CheckEntries(op, es);
        if !allowed {
          return false;
        }
      }
      var touched := TouchesOwner(es);
      if touched {
        return false;
      }
      UpdateGroupMembers(es);
      ok := true;
    }

    /** The duplicate map: a repeated target, or one left over after the rows found were taken out. */
    method TargetsFound(es: seq<Entry>) returns (found: bool)
      ensures found == (DistinctTargets(es) && forall e <- es :: InGroup(View(), e.groupID, e.userID))
    {
      var duplicates: set<Key> := {};
      for i := 0 to |es|
        invariant duplicates == set j | 0 <= j < i :: (es[j].groupID, es[j].userID)
        invariant DistinctTargets(es[..i])
      {
        if (es[i].groupID, es[i].userID) in duplicates {
          return false;
        }
        DistinctTargetsSnoc(es, i);
        duplicates := duplicates + {(es[i].groupID, es[i].userID)};
      }
      assert es[..|es|] == es;
      duplicates := duplicates - members.Keys;
      if duplicates != {} {
        var k :| k in duplicates;
        var j :| 0 <= j < |es| && k == (es[j].groupID, es[j].userID);
        assert es[j] in es;
        return false;
      }
      forall e <- es ensures InGroup(View(), e.groupID, e.userID) {
        var j :| 0 <= j < |es| && es[j] == e;
        assert (es[j].groupID, es[j].userID) !in duplicates;
      }
      return true;
    }

    /** The permission loop for an operator who is no app manager. */
    method CheckEntries(op: string, es: seq<Entry>) returns (allowed: bool)
      requires forall e <- es :: (e.groupID, e.userID) in members
      ensures allowed == forall e <- es :: MayChange(View(), op, e)
    {
      for i := 0 to |es|
        invariant forall j | 0 <= j < i :: MayChange(View(), op, es[j])
      {
        assert es[i] in es;
        allowed := CheckEntry(op, es[i]);
        if !allowed {
          return;
        }
      }
      allowed := true;
    }

    /** The loop that refuses to set the role of an owner. */
    method TouchesOwner(es: seq<Entry>) returns (touched: bool)
      requires forall e <- es :: (e.groupID, e.userID) in members
      ensures touched == exists e <- es :: e.change.SetRole? && HasRole(View(), e.groupID, e.userID, GROUP_OWNER)
    {
      for i := 0 to |es|
        invariant forall j | 0 <= j < i && es[j].change.SetRole? ::
          !HasRole(View(), es[j].groupID, es[j].userID, GROUP_OWNER)
      {
        assert es[i] in es;
        if es[i].change.SetRole? && members[(es[i].groupID, es[i].userID)].role == GROUP_OWNER {
          return true;
        }
      }
      touched := false;
    }

    method UpdateGroupMembers(es: seq<Entry>)
      requires forall e <- es :: (e.groupID, e.userID) in members
      modifies this`members
      ensures View() == RolesSet(old(View()), es)
    {
      for i := 0 to |es|
        invariant View() == RolesSet(old(View()), es[..i])
        invariant members.Keys == old(members).Keys
      {
        assert es[..i + 1][..i] == es[..i];
        assert es[i] in es;
        var k := (es[i].groupID, es[i].userID);
        if es[i].change.SetRole? {
          members := members[k := members[k].(role := es[i].change.role)];
        }
      }
      assert es[..|es|] == es;
    }

    /** The body of the permission loop of SetGroupMemberInfo. */
    method CheckEntry(op: string, e: Entry) returns (allowed: bool)
      requires (e.groupID, e.userID) in members
      ensures allowed == MayChange(View(), op, e)
    {
      if e.change.SetRole? && e.change.role != GROUP_ORDINARY_USERS && e.change.role != GROUP_ADMIN {
        return false;
      }
      if (e.groupID, op) !in members {
        return false;
      }
      if e.userID == op {
        return e.change.Keep?;
      }
      var opRole := members[(e.groupID, op)].role;
      if opRole == GROUP_ORDINARY_USERS {
        return false;
      }
      if opRole == GROUP_ADMIN {
        return members[(e.groupID, e.userID)].role == GROUP_ORDINARY_USERS && e.change.Keep?;
      }
      return true;
    }

    /** MuteGroupMember; with an end in the past it is CancelMuteGroupMember. */
    method MuteGroupMember(op: string, g: string, u: string, muteEnd: int) returns (ok: bool)
      modifies this
      ensures ok == CanMute(env, old(View()), op, g, u)
      ensures View() == if ok then MutedUntil(old(View()), g, u, muteEnd) else old(View())
    {
      if (g, u) !in members {
        return false;
      }
      if op !in env.managers {
        if (g, op) !in members {
          return false;
        }
        var role, opRole := members[(g, u)].role, members[(g, op)].role;
        if role == GROUP_OWNER {
          return false;
        } else if role == GROUP_ADMIN {
          if opRole != GROUP_OWNER {
            return false;
          }
        } else if role == GROUP_ORDINARY_USERS {
          if !(opRole == GROUP_ADMIN || opRole == GROUP_OWNER) {
            return false;
          }
        }
      }
      members := members[(g, u) := members[(g, u)].(muteEnd := muteEnd)];
      ok := true;
    }

    /** MuteGroup and CancelMuteGroup write a status without looking at the one that is there. */
    method SetGroupStatus(op: string, g: string, mute: bool) returns (ok: bool)
      modifies this
      ensures ok == CanMuteGroup(env, old(View()), op, g)
      ensures View() == if ok then StatusSet(old(View()), g, if mute then GROUP_STATUS_MUTED else GROUP_OK)
                        else old(View())
    {
      if op !in env.managers {
        if (g, op) !in members || !(members[(g, op)].role == GROUP_OWNER || members[(g, op)].role == GROUP_ADMIN) {
          return false;
        }
      }
      if g in groups {
        groups := groups[g := groups[g].(status := if mute then GROUP_STATUS_MUTED else GROUP_OK)];
      }
      ok := true;
    }

    method DismissGroup(op: string, g: string, deleteMember: bool) returns (ok: bool, owner: string)
      modifies this
      ensures (exists u :: HasRole(old(View()), g, u, GROUP_OWNER)) ==> HasRole(old(View()), g, owner, GROUP_OWNER)
      ensures ok == CanDismiss(env, old(View()), op, g, deleteMember, owner)
      ensures View() == if ok then DismissedStore(old(View()), g, deleteMember) else old(View())
    {
      var owners := set k | k in members && k.0 == g && members[k].role == GROUP_OWNER :: k.1;
      if owners == {} {
        forall u ensures !HasRole(View(), g, u, GROUP_OWNER) {
          assert u !in owners;
        }
        return false, "";
      }
      owner :| owner in owners;
      assert HasRole(View(), g, owner, GROUP_OWNER);
      if op !in env.managers {
        if owner != op {
          return false, owner;
        }
      }
      if g !in groups || (!deleteMember && groups[g].status == GROUP_STATUS_DISMISSED) {
        return false, owner;
      }
      groups := groups[g := groups[g].(status := GROUP_STATUS_DISMISSED)];
      if deleteMember {
        members := map k | k in members && k.0 != g :: members[k];
      }
      ok := true;
    }
  }
}
