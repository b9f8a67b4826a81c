/** What runs of group operations keep: one owner per group, and authority that follows the roles. */
module GroupRuns {
  import opened Groups
  import opened Messages

  datatype Op =
    | Create(owner: string, memberIDs: seq<string>, adminIDs: seq<string>, groupID: string, groupType: int,
             group: Group)
    | Invite(g: string, invited: seq<string>)
    | Join(g: string, u: string)
    | Respond(g: string, from: string, result: int)
    | Kick(g: string, kicked: seq<string>)
    | Quit(g: string, u: string)
    | Transfer(g: string, oldOwner: string, newOwner: string)
    | SetInfo(es: seq<Entry>)
    | Mute(g: string, u: string, muteEnd: int)
    | SetStatus(g: string, mute: bool)
    | Dismiss(g: string, deleteMember: bool, owner: string)

  /** A request that succeeds and its effect; a refused one changes nothing. */
  ghost predicate Accepted(env: Env, s: Store, op: string, o: Op, t: Store) {
    match o
    case Create(owner, memberIDs, adminIDs, groupID, groupType, group) =>
      && CanCreate(env, s, op, owner, memberIDs, adminIDs, groupID, groupType)
      && t == Created(s, owner, memberIDs, adminIDs, groupID, group)
    case Invite(g, invited) =>
      && CanInvite(env, s, op, g, invited)
      && if InviteNeedsApproval(env, s, op, g) then t == Requested(s, g, invited)
         else (forall u <- invited :: !InGroup(s, g, u)) && t == Joined(s, g, invited)
    case Join(g, u) =>
      && CanJoin(env, s, g, u)
      && t == if s.groups[g].needVerification == DIRECTLY then Joined(s, g, [u]) else Requested(s, g, [u])
    case Respond(g, from, result) =>
      CanRespond(env, s, op, g, from, result) && t == Responded(s, g, from, result)
    case Kick(g, kicked) =>
      CanKick(env, s, op, g, kicked) && t == Removed(s, g, Elements(kicked))
    case Quit(g, u) =>
      CanQuit(env, s, op, g, u) && t == Removed(s, g, {u})
    case Transfer(g, oldOwner, newOwner) =>
      CanTransfer(env, s, op, g, oldOwner, newOwner) && t == Transferred(s, g, oldOwner, newOwner)
    case SetInfo(es) =>
      CanSetInfo(env, s, op, es) && t == RolesSet(s, es)
    case Mute(g, u, muteEnd) =>
      CanMute(env, s, op, g, u) && t == MutedUntil(s, g, u, muteEnd)
    case SetStatus(g, mute) =>
      CanMuteGroup(env, s, op, g) && t == StatusSet(s, g, if mute then GROUP_STATUS_MUTED else GROUP_OK)
    case Dismiss(g, deleteMember, owner) =>
      CanDismiss(env, s, op, g, deleteMember, owner) && t == DismissedStore(s, g, deleteMember)
  }

  // ----- The invariant -----

  predicate ValidRole(role: int) {
    role in {GROUP_ORDINARY_USERS, GROUP_ADMIN, GROUP_OWNER}
  }

  ghost predicate IsSoleOwner(s: Store, g: string, o: string) {
    HasRole(s, g, o, GROUP_OWNER) && forall u :: HasRole(s, g, u, GROUP_OWNER) ==> u == o
  }

  ghost predicate SoleOwner(s: Store, g: string) {
    exists o :: IsSoleOwner(s, g, o)
  }

  ghost predicate Empty(s: Store, g: string) {
    forall u :: !InGroup(s, g, u)
  }

  ghost predicate Emptied(s: Store, g: string) {
    Empty(s, g) && Dismissed(s, g)
  }

  ghost predicate Inv(s: Store) {
    && (forall k <- s.members :: k.0 in s.groups && ValidRole(s.members[k].role))
    && (forall g <- s.groups :: SoleOwner(s, g) || Emptied(s, g))
  }

  ghost predicate KicksAllOfDismissed(s: Store, g: string, kicked: seq<string>) {
    Dismissed(s, g) && forall u :: InGroup(s, g, u) ==> u in kicked
  }

  /**
   * What an accepted request must not do. Ordinary operators cannot (Ordinary below); an app manager
   * may kick the owner (which does no harm only when it empties a dismissed group), transfer from a
   * member who is not the owner, hand out any role, and approve into or set the status of a group that
   * was dismissed and emptied.
   */
  ghost predicate Harmless(s: Store, o: Op) {
    match o
    case Kick(g, kicked) =>
      (forall u <- kicked :: !HasRole(s, g, u, GROUP_OWNER)) || KicksAllOfDismissed(s, g, kicked)
    case Transfer(g, oldOwner, _) => HasRole(s, g, oldOwner, GROUP_OWNER)
    case SetInfo(es) => forall e <- es | e.change.SetRole? :: e.change.role in {GROUP_ORDINARY_USERS, GROUP_ADMIN}
    case SetStatus(g, _) => !Emptied(s, g)
    case Respond(g, _, result) => result == GROUP_RESPONSE_AGREE ==> !Emptied(s, g)
    case _ => true
  }

  ghost predicate IsRun(env: Env, run: seq<Store>, ops: seq<(string, Op)>) {
    && |run| == |ops| + 1
    && run[0] == Store(map[], map[], map[])
    && forall i | 0 <= i < |ops| ::
         && Accepted(env, run[i], ops[i].0, ops[i].1, run[i + 1])
         && (ops[i].0 in env.managers ==> Harmless(run[i], ops[i].1))
  }

  /** The same owners; other members may have come or gone. */
  ghost predicate SameOwners(s: Store, t: Store, g: string) {
    forall u :: HasRole(s, g, u, GROUP_OWNER) <==> HasRole(t, g, u, GROUP_OWNER)
  }

  lemma OwnersKept(s: Store, t: Store, g: string)
    requires SoleOwner(s, g) && SameOwners(s, t, g)
    ensures SoleOwner(t, g)
  {
    var o :| IsSoleOwner(s, g, o);
    assert IsSoleOwner(t, g, o);
  }

  /** A step that leaves a group's owners alone, and an emptied group empty. */
  lemma GroupKept(s: Store, t: Store, g: string)
    requires SoleOwner(s, g) || Emptied(s, g)
    requires SameOwners(s, t, g)
    requires Emptied(s, g) ==> Dismissed(t, g) && forall u :: InGroup(t, g, u) ==> InGroup(s, g, u)
    ensures SoleOwner(t, g) || Emptied(t, g)
  {
    if SoleOwner(s, g) { OwnersKept(s, t, g); }
  }

  lemma EmptyHasNoOwner(s: Store, g: string)
    requires Empty(s, g)
    ensures !SoleOwner(s, g)
  {
    if SoleOwner(s, g) {
      var o :| IsSoleOwner(s, g, o);
      assert InGroup(s, g, o);
      assert false;
    }
  }

  // ----- One operation -----

  lemma CreatedRows(s: Store, owner: string, memberIDs: seq<string>, adminIDs: seq<string>, id: string, k: Key)
    requires NoDuplicates(memberIDs + adminIDs + [owner])
    ensures var rows := FirstRows(s.members, id, owner, memberIDs, adminIDs);
      && (k in rows <==> k in s.members || (k.0 == id && k.1 in memberIDs + adminIDs + [owner]))
      && (k in rows ==> (rows[k].role ==
            (if k.0 != id || k.1 !in memberIDs + adminIDs + [owner] then s.members[k].role
             else if k.1 in memberIDs then GROUP_ORDINARY_USERS
             else if k.1 in adminIDs then GROUP_ADMIN else GROUP_OWNER)))
    ensures owner !in memberIDs && owner !in adminIDs
  {
    var all := memberIDs + adminIDs + [owner];
    assert all[|all| - 1] == owner;
    assert forall i | 0 <= i < |memberIDs| :: all[i] == memberIDs[i];
    assert forall i | 0 <= i < |adminIDs| :: all[|memberIDs| + i] == adminIDs[i];
    var first := s.members[(id, owner) := Member(GROUP_OWNER, 0)];
    assert k == (k.0, k.1);
    WithRowsLookup(first, id, adminIDs, Member(GROUP_ADMIN, 0), k);
    WithRowsLookup(WithRows(first, id, adminIDs, Member(GROUP_ADMIN, 0)), id, memberIDs, NEW_MEMBER, k);
  }

  lemma CreateKeeps(env: Env, s: Store, op: string, o: Op, t: Store)
    requires Inv(s) && o.Create? && Accepted(env, s, op, o, t)
    ensures Inv(t)
    ensures IsSoleOwner(t, o.groupID, o.owner)
  {
    var us := o.memberIDs + o.adminIDs + [o.owner];
    var all := AllUsers(o.owner, o.memberIDs, o.adminIDs, op);
    assert forall i | 0 <= i < |us| :: all[i] == us[i];
    assert NoDuplicates(us);
    forall k: Key ensures var rows := t.members;
      && (k in rows <==> k in s.members || (k.0 == o.groupID && k.1 in us))
      && (k in rows ==> ValidRole(rows[k].role))
      && (k in rows && k.0 == o.groupID ==> (rows[k].role == GROUP_OWNER <==> k.1 == o.owner))
      && (k in s.members ==> k in rows && rows[k].role == s.members[k].role)
    {
      CreatedRows(s, o.owner, o.memberIDs, o.adminIDs, o.groupID, k);
    }
    assert o.owner in us;
    assert IsSoleOwner(t, o.groupID, o.owner);
    forall g <- t.groups | g != o.groupID ensures SoleOwner(t, g) || Emptied(t, g) {
      GroupKept(s, t, g);
    }
  }

  /** Adding ordinary members to a group that is not empty of owners keeps its owner. */
  lemma JoinKeeps(s: Store, g: string, us: seq<string>, t: Store)
    requires Inv(s) && g in s.groups && SoleOwner(s, g)
    requires forall u <- us :: !InGroup(s, g, u)
    requires t.groups == s.groups && t.members == Joined(s, g, us).members
    ensures Inv(t)
    ensures SoleOwner(t, g)
  {
    forall k: Key
      ensures k in t.members <==> k in s.members || (k.0 == g && k.1 in us)
      ensures k in t.members ==>
        t.members[k] == if k.0 == g && k.1 in us then NEW_MEMBER else s.members[k]
    {
      WithRowsLookup(s.members, g, us, NEW_MEMBER, k);
    }
    OwnersKept(s, t, g);
    forall h <- t.groups | h != g ensures SoleOwner(t, h) || Emptied(t, h) {
      GroupKept(s, t, h);
    }
  }

  lemma RemoveKeeps(s: Store, g: string, us: set<string>, t: Store)
    requires Inv(s) && t == Removed(s, g, us)
    requires forall u <- us :: !HasRole(s, g, u, GROUP_OWNER)
    ensures Inv(t)
  {
    forall h <- t.groups ensures SoleOwner(t, h) || Emptied(t, h) {
      GroupKept(s, t, h);
    }
  }

  lemma KickAllKeeps(s: Store, g: string, kicked: seq<string>, t: Store)
    requires Inv(s) && t == Removed(s, g, Elements(kicked)) && KicksAllOfDismissed(s, g, kicked)
    ensures Inv(t)
  {
    forall u ensures !InGroup(t, g, u) {
      assert InGroup(s, g, u) ==> u in kicked;
    }
    assert Emptied(t, g);
    forall h <- t.groups | h != g ensures SoleOwner(t, h) || Emptied(t, h) {
      GroupKept(s, t, h);
    }
  }

  lemma TransferKeeps(s: Store, g: string, oldOwner: string, newOwner: string, t: Store)
    requires Inv(s) && g in s.groups && InGroup(s, g, oldOwner) && InGroup(s, g, newOwner) && oldOwner != newOwner
    requires HasRole(s, g, oldOwner, GROUP_OWNER) && t == Transferred(s, g, oldOwner, newOwner)
    ensures Inv(t) && IsSoleOwner(t, g, newOwner)
  {
    OwnerKnown(s, g, oldOwner);
    assert !HasRole(s, g, newOwner, GROUP_OWNER);
    forall u | HasRole(t, g, u, GROUP_OWNER) ensures u == newOwner {
      assert HasRole(s, g, u, GROUP_OWNER) ==> u == oldOwner;
    }
    assert IsSoleOwner(t, g, newOwner);
    forall h <- t.groups | h != g ensures SoleOwner(t, h) || Emptied(t, h) {
      GroupKept(s, t, h);
    }
  }

  lemma {:induction false} RolesSetFrame(s: Store, es: seq<Entry>)
    ensures var t := RolesSet(s, es);
      t.groups == s.groups && t.requests == s.requests && t.members.Keys == s.members.Keys
  {
    if es != [] {
      RolesSetFrame(s, es[..|es| - 1]);
    }
  }

  predicate Sets(e: Entry, k: Key) {
    (e.groupID, e.userID) == k && e.change.SetRole?
  }

  lemma {:induction false} RolesSetKeeps(s: Store, es: seq<Entry>, k: Key)
    requires k in s.members && forall i | 0 <= i < |es| :: !Sets(es[i], k)
    ensures k in RolesSet(s, es).members && RolesSet(s, es).members[k] == s.members[k]
  {
    if es != [] {
      RolesSetKeeps(s, es[..|es| - 1], k);
      assert !Sets(es[|es| - 1], k);
    }
  }

  lemma {:induction false} RolesSetSets(s: Store, es: seq<Entry>, k: Key, j: nat)
    requires k in s.members && j < |es| && Sets(es[j], k)
    requires forall i | 0 <= i < |es| && i != j :: !Sets(es[i], k)
    ensures k in RolesSet(s, es).members
    ensures RolesSet(s, es).members[k] == s.members[k].(role := es[j].change.role)
  {
    var init := es[..|es| - 1];
    if j == |es| - 1 {
      RolesSetKeeps(s, init, k);
    } else {
      RolesSetSets(s, init, k, j);
      assert !Sets(es[|es| - 1], k);
    }
  }

  /** What a batch of role changes does to one member. */
  lemma RolesSetAt(s: Store, es: seq<Entry>, k: Key)
    requires DistinctTargets(es)
    ensures var t := RolesSet(s, es);
      && t.groups == s.groups && t.requests == s.requests
      && (k in t.members <==> k in s.members)
      && ((forall e <- es :: !Sets(e, k)) && k in s.members ==> t.members[k] == s.members[k])
      && (forall e <- es | Sets(e, k) && k in s.members :: t.members[k] == s.members[k].(role := e.change.role))
  {
    RolesSetFrame(s, es);
    if k in s.members {
      if forall e <- es :: !Sets(e, k) {
        RolesSetKeeps(s, es, k);
      } else {
        forall e <- es | Sets(e, k) ensures RolesSet(s, es).members[k] == s.members[k].(role := e.change.role) {
          var j :| 0 <= j < |es| && es[j] == e;
          RolesSetSets(s, es, k, j);
        }
      }
    }
  }

  /** A batch of role changes that appoints no owner and touches none keeps all owners. */
  lemma SetInfoKeeps(s: Store, es: seq<Entry>, t: Store)
    requires Inv(s) && DistinctTargets(es) && t == RolesSet(s, es)
    requires forall e <- es | e.change.SetRole? ::
      && e.change.role in {GROUP_ORDINARY_USERS, GROUP_ADMIN}
      && !HasRole(s, e.groupID, e.userID, GROUP_OWNER)
    ensures Inv(t)
  {
    forall k: Key
      ensures t.groups == s.groups
      ensures k in t.members <==> k in s.members
      ensures k in s.members ==> ValidRole(t.members[k].role)
      ensures k in s.members ==> (t.members[k].role == GROUP_OWNER <==> s.members[k].role == GROUP_OWNER)
    {
      RolesSetAt(s, es, k);
      if e :| e in es && (e.groupID, e.userID) == k && e.change.SetRole? {
        assert k in s.members ==> t.members[k] == s.members[k].(role := e.change.role);
        assert k in s.members ==> !HasRole(s, e.groupID, e.userID, GROUP_OWNER);
      }
    }
    forall g <- t.groups ensures SoleOwner(t, g) || Emptied(t, g) {
      GroupKept(s, t, g);
    }
  }

  lemma StatusKeeps(s: Store, g: string, status: int, t: Store)
    requires Inv(s) && t == StatusSet(s, g, status)
    requires status == GROUP_STATUS_DISMISSED || !Emptied(s, g)
    ensures Inv(t)
  {
    forall h <- t.groups ensures SoleOwner(t, h) || Emptied(t, h) {
      GroupKept(s, t, h);
    }
  }

  lemma DismissKeeps(s: Store, g: string, deleteMember: bool, t: Store)
    requires Inv(s) && g in s.groups && t == DismissedStore(s, g, deleteMember)
    ensures Inv(t)
  {
    var m := StatusSet(s, g, GROUP_STATUS_DISMISSED);
    StatusKeeps(s, g, GROUP_STATUS_DISMISSED, m);
    if deleteMember {
      forall h <- t.groups ensures SoleOwner(t, h) || Emptied(t, h) {
        if h == g {
          assert Emptied(t, g);
        } else {
          GroupKept(m, t, h);
        }
      }
    }
  }

  lemma MuteKeeps(s: Store, g: string, u: string, muteEnd: int, t: Store)
    requires Inv(s) && InGroup(s, g, u) && t == MutedUntil(s, g, u, muteEnd)
    ensures Inv(t)
  {
    forall h <- t.groups ensures SoleOwner(t, h) || Emptied(t, h) {
      GroupKept(s, t, h);
    }
  }

  lemma OwnedUnlessEmptied(s: Store, g: string)
    requires Inv(s) && g in s.groups && (!Dismissed(s, g) || exists u :: InGroup(s, g, u))
    ensures SoleOwner(s, g)
  {
  }

  lemma OwnerKnown(s: Store, g: string, o: string)
    requires Inv(s) && g in s.groups && HasRole(s, g, o, GROUP_OWNER)
    ensures IsSoleOwner(s, g, o)
  {
    assert InGroup(s, g, o);
    OwnedUnlessEmptied(s, g);
    var p :| IsSoleOwner(s, g, p);
  }

  lemma Below(s: Store, g: string, o: string, u: string)
    requires Inv(s) && g in s.groups && HasRole(s, g, o, GROUP_OWNER) && InGroup(s, g, u) && u != o
    ensures !HasRole(s, g, u, GROUP_OWNER)
  {
    OwnerKnown(s, g, o);
  }

  lemma RequestsOnly(s: Store, t: Store)
    requires Inv(s) && t.groups == s.groups && t.members == s.members
    ensures Inv(t)
  {
    forall g <- t.groups ensures SoleOwner(t, g) || Emptied(t, g) {
      GroupKept(s, t, g);
    }
  }

  /** The requests of operators who are no app managers are harmless. */
  lemma Ordinary(env: Env, s: Store, op: string, o: Op, t: Store)
    requires Inv(s) && op !in env.managers && Accepted(env, s, op, o, t)
    ensures Harmless(s, o)
  {
    match o
    case Kick(g, kicked) =>
      KickedBelow(env, s, op, g, kicked);
      forall u <- kicked ensures !HasRole(s, g, u, GROUP_OWNER) {
        assert ValidRole(s.members[(g, op)].role);
      }
    case SetInfo(es) =>
      forall e <- es | e.change.SetRole? ensures e.change.role in {GROUP_ORDINARY_USERS, GROUP_ADMIN} {
        assert MayChange(s, op, e);
      }
    case SetStatus(g, _) => assert InGroup(s, g, op);
    case Respond(g, _, _) => assert InGroup(s, g, op);
    case _ =>
  }

  lemma StepKeepsInv(env: Env, s: Store, op: string, o: Op, t: Store)
    requires Inv(s) && Harmless(s, o) && Accepted(env, s, op, o, t)
    ensures Inv(t)
  {
    match o
    case Create(_, _, _, _, _, _) => CreateKeeps(env, s, op, o, t);
    case Invite(g, invited) =>
      if InviteNeedsApproval(env, s, op, g) {
        RequestsOnly(s, t);
      } else {
        OwnedUnlessEmptied(s, g);
        JoinKeeps(s, g, invited, t);
      }
    case Join(g, u) =>
      if s.groups[g].needVerification == DIRECTLY {
        OwnedUnlessEmptied(s, g);
        JoinKeeps(s, g, [u], t);
      } else {
        RequestsOnly(s, t);
      }
    case Respond(g, from, result) =>
      if result == GROUP_RESPONSE_AGREE && !InGroup(s, g, from) {
        JoinKeeps(s, g, [from], t);
      } else {
        RequestsOnly(s, t);
      }
    case Kick(g, kicked) =>
      if KicksAllOfDismissed(s, g, kicked) {
        KickAllKeeps(s, g, kicked, t);
      } else {
        RemoveKeeps(s, g, Elements(kicked), t);
      }
    case Quit(g, u) => RemoveKeeps(s, g, {u}, t);
    case Transfer(g, a, b) => TransferKeeps(s, g, a, b, t);
    case SetInfo(es) => SetInfoKeeps(s, es, t);
    case Mute(g, u, muteEnd) => MuteKeeps(s, g, u, muteEnd, t);
    case SetStatus(g, mute) => StatusKeeps(s, g, if mute then GROUP_STATUS_MUTED else GROUP_OK, t);
    case Dismiss(g, deleteMember, _) => DismissKeeps(s, g, deleteMember, t);
  }

  /** Whoever the operator is, an accepted request keeps the invariant if and only if it is harmless. */
  lemma HarmlessExactly(env: Env, s: Store, op: string, o: Op, t: Store)
    requires Inv(s) && Accepted(env, s, op, o, t)
    ensures Inv(t) <==> Harmless(s, o)
  {
    if Harmless(s, o) {
      StepKeepsInv(env, s, op, o, t);
    } else {
      match o
      case Kick(g, kicked) =>
        var u :| u in kicked && HasRole(s, g, u, GROUP_OWNER);
        KickExact(s, g, Elements(kicked), u);
        if Emptied(t, g) {
          forall v | InGroup(s, g, v) ensures v in kicked {
            assert !InGroup(t, g, v);
          }
        }
      case Transfer(g, a, b) =>
        TransferExact(s, g, a, b);
        assert InGroup(t, g, a);
      case SetInfo(es) =>
        var e :| e in es && e.change.SetRole? && e.change.role !in {GROUP_ORDINARY_USERS, GROUP_ADMIN};
        RolesSetAt(s, es, (e.groupID, e.userID));
        assert ValidRole(t.members[(e.groupID, e.userID)].role) ==> e.change == SetRole(GROUP_OWNER);
        OwnedUnlessEmptied(s, e.groupID);
        SetInfoExact(env, s, op, es, e.groupID);
        assert InGroup(t, e.groupID, e.userID);
      case SetStatus(g, _) =>
        assert forall u :: InGroup(t, g, u) ==> InGroup(s, g, u);
        EmptyHasNoOwner(t, g);
      case Respond(g, from, _) =>
        assert !InGroup(s, g, from);
        WithRowsLookup(s.members, g, [from], NEW_MEMBER, (g, from));
        assert InGroup(t, g, from);
        forall o ensures !IsSoleOwner(t, g, o) {
          WithRowsLookup(s.members, g, [from], NEW_MEMBER, (g, o));
          assert !InGroup(s, g, o);
        }
    }
  }

  lemma StepIsHarmless(env: Env, run: seq<Store>, ops: seq<(string, Op)>, n: nat)
    requires IsRun(env, run, ops) && n < |ops| && Inv(run[n])
    ensures Accepted(env, run[n], ops[n].0, ops[n].1, run[n + 1]) && Harmless(run[n], ops[n].1)
  {
    assert Accepted(env, run[n], ops[n].0, ops[n].1, run[n + 1]);
    if ops[n].0 !in env.managers {
      Ordinary(env, run[n], ops[n].0, ops[n].1, run[n + 1]);
    }
  }

  lemma {:induction false} RunKeepsInv(env: Env, run: seq<Store>, ops: seq<(string, Op)>, n: nat)
    requires IsRun(env, run, ops) && n < |run|
    ensures Inv(run[n])
  {
    if n > 0 {
      RunKeepsInv(env, run, ops, n - 1);
      StepIsHarmless(env, run, ops, n - 1);
      StepKeepsInv(env, run[n - 1], ops[n - 1].0, ops[n - 1].1, run[n]);
    }
  }

  // ----- Authority -----

  /** A non-manager kicks only members strictly below. */
  lemma KickedBelow(env: Env, s: Store, op: string, g: string, kicked: seq<string>)
    requires Inv(s) && op !in env.managers && CanKick(env, s, op, g, kicked)
    ensures forall u <- kicked :: RoleOf(s, g, op) > RoleOf(s, g, u)
  {
    forall u <- kicked ensures RoleOf(s, g, op) > RoleOf(s, g, u) {
      assert (g, u) in s.members && (g, op) in s.members;
      assert ValidRole(s.members[(g, u)].role);
      if HasRole(s, g, op, GROUP_OWNER) { Below(s, g, op, u); }
    }
  }

  /** The members a request acts upon, besides the operator. */
  ghost predicate ActsOn(o: Op, op: string, g: string, u: string) {
    || (o.Kick? && o.g == g && u in o.kicked)
    || (o.Mute? && o.g == g && u == o.u)
    || (o.SetInfo? && u != op && exists e <- o.es :: e.groupID == g && e.userID == u)
  }

  /**
   * Authority follows the roles: in every run, whenever a request of an operator who is no app manager
   * kicks, mutes, unmutes or edits another member, the operator's role is strictly above the member's.
   */
  lemma AuthorityIsStrict(env: Env, run: seq<Store>, ops: seq<(string, Op)>, n: nat, g: string, u: string)
    requires IsRun(env, run, ops) && n < |ops|
    requires ops[n].0 !in env.managers && ActsOn(ops[n].1, ops[n].0, g, u)
    ensures RoleOf(run[n], g, ops[n].0) > RoleOf(run[n], g, u) > 0
  {
    RunKeepsInv(env, run, ops, n);
    var s, op, o := run[n], ops[n].0, ops[n].1;
    assert Accepted(env, s, op, o, run[n + 1]);
    match o
    case Kick(_, kicked) =>
      KickedBelow(env, s, op, g, kicked);
      assert InGroup(s, g, u) && ValidRole(s.members[(g, u)].role);
    case Mute(_, _, _) =>
      assert ValidRole(s.members[(g, u)].role);
    case SetInfo(es) =>
      var e :| e in es && e.groupID == g && e.userID == u;
      assert MayChange(s, op, e);
      assert ValidRole(s.members[(g, op)].role) && ValidRole(s.members[(g, u)].role);
      if HasRole(s, g, op, GROUP_OWNER) { Below(s, g, op, u); }
    case _ =>
  }

  /** RevokeMsg on a group message: what its role switch lets a non-manager do. */
  predicate CanRevoke(s: Store, g: string, user: string, sender: string) {
    && InGroup(s, g, user) && InGroup(s, g, sender)
    && (user != sender ==>
          || HasRole(s, g, user, GROUP_OWNER)
          || (HasRole(s, g, user, GROUP_ADMIN) && HasRole(s, g, sender, GROUP_ORDINARY_USERS)))
  }

  /** The role switch of RevokeMsg, on a message of session type `kind` in group `g`. */
  method CheckRevoke(s: Store, managers: set<string>, op: string, kind: int, g: string, user: string, sender: string)
    returns (ok: bool)
    ensures ok <==>
      || op in managers
      || (op == user && ((kind == SINGLE_CHAT && user == sender)
                         || (kind == SUPER_GROUP_CHAT && CanRevoke(s, g, user, sender))))
  {
    if op !in managers && op != user {
      return false;
    }
    if op !in managers {
      if kind == SINGLE_CHAT {
        if op != sender {
          return false;
        }
      } else if kind == SUPER_GROUP_CHAT {
        if (g, user) !in s.members || (g, sender) !in s.members {
          return false;
        }
        if user != sender {
          var role := s.members[(g, user)].role;
          if role == GROUP_OWNER {
          } else if role == GROUP_ADMIN {
            if s.members[(g, sender)].role != GROUP_ORDINARY_USERS {
              return false;
            }
          } else {
            return false;
          }
        }
      } else {
        return false;
      }
    }
    ok := true;
  }

  /** Another member's message is revoked only from strictly above, and from above it always can be. */
  lemma RevokeIsStrict(
    env: Env, run: seq<Store>, ops: seq<(string, Op)>, n: nat, g: string, user: string, sender: string)
    requires IsRun(env, run, ops) && n < |run|
    requires InGroup(run[n], g, user) && InGroup(run[n], g, sender) && user != sender
    ensures CanRevoke(run[n], g, user, sender) <==> RoleOf(run[n], g, user) > RoleOf(run[n], g, sender)
  {
    RunKeepsInv(env, run, ops, n);
    assert ValidRole(run[n].members[(g, user)].role) && ValidRole(run[n].members[(g, sender)].role);
    if HasRole(run[n], g, user, GROUP_OWNER) { Below(run[n], g, user, sender); }
  }

  // ----- Ownership over whole runs -----

  /**
   * One owner: in every state of every run each group has exactly one owner and only members with a
   * known role, or it was dismissed and has no members at all.
   */
  lemma OneOwner(env: Env, run: seq<Store>, ops: seq<(string, Op)>, n: nat, g: string)
    requires IsRun(env, run, ops) && n < |run| && g in run[n].groups
    ensures SoleOwner(run[n], g) || Emptied(run[n], g)
    ensures forall u | InGroup(run[n], g, u) :: ValidRole(RoleOf(run[n], g, u))
  {
    RunKeepsInv(env, run, ops, n);
    forall u | InGroup(run[n], g, u) ensures ValidRole(RoleOf(run[n], g, u)) {
      assert (g, u) in run[n].members;
    }
  }

  /**
   * A group keeps existing, and only a dismissal that deletes its members takes its owner away, or an
   * app manager who kicks all members of a dismissed group.
   */
  lemma OnlyDismissalEmpties(env: Env, run: seq<Store>, ops: seq<(string, Op)>, n: nat, g: string)
    requires IsRun(env, run, ops) && n < |ops|
    requires g in run[n].groups && SoleOwner(run[n], g)
    ensures g in run[n + 1].groups
    ensures !SoleOwner(run[n + 1], g) ==>
      || (ops[n].1.Dismiss? && ops[n].1.g == g && ops[n].1.deleteMember)
      || (ops[n].1.Kick? && ops[n].1.g == g && ops[n].0 in env.managers
          && KicksAllOfDismissed(run[n], g, ops[n].1.kicked))
  {
    RunKeepsInv(env, run, ops, n);
    RunKeepsInv(env, run, ops, n + 1);
    var s, t, op, o := run[n], run[n + 1], ops[n].0, ops[n].1;
    SetInfoGroups(s, o);
    var owner :| IsSoleOwner(s, g, owner);
    if op !in env.managers { Ordinary(env, s, op, o, t); }
    if o.Kick? && o.g == g && KicksAllOfDismissed(s, g, o.kicked) {
      assert owner in o.kicked;
      if op !in env.managers { KickedBelow(env, s, op, g, o.kicked); }
    } else if !(o.Dismiss? && o.g == g && o.deleteMember) {
      StillMember(env, s, op, o, t, g, owner);
      OwnedUnlessEmptied(t, g);
    }
  }

  lemma SetInfoGroups(s: Store, o: Op)
    requires o.SetInfo? ==> DistinctTargets(o.es)
    ensures o.SetInfo? ==> RolesSet(s, o.es).groups == s.groups
  {
    if o.SetInfo? { RolesSetAt(s, o.es, ("", "")); }
  }

  /** An owner stays a member, if perhaps not as owner. */
  lemma StillMember(env: Env, s: Store, op: string, o: Op, t: Store, g: string, owner: string)
    requires Inv(s) && Harmless(s, o) && Accepted(env, s, op, o, t)
    requires HasRole(s, g, owner, GROUP_OWNER)
    requires !(o.Dismiss? && o.g == g && o.deleteMember)
    requires !(o.Kick? && o.g == g && KicksAllOfDismissed(s, g, o.kicked))
    ensures InGroup(t, g, owner)
  {
    match o
    case Create(a, ms, admins, id, _, _) =>
      WithRowsLookup(s.members[(id, a) := Member(GROUP_OWNER, 0)], id, admins, Member(GROUP_ADMIN, 0), (g, owner));
      WithRowsLookup(WithRows(s.members[(id, a) := Member(GROUP_OWNER, 0)], id, admins, Member(GROUP_ADMIN, 0)),
                     id, ms, NEW_MEMBER, (g, owner));
    case Invite(h, invited) => WithRowsLookup(s.members, h, invited, NEW_MEMBER, (g, owner));
    case Join(h, u) => WithRowsLookup(s.members, h, [u], NEW_MEMBER, (g, owner));
    case Respond(h, from, _) => WithRowsLookup(s.members, h, [from], NEW_MEMBER, (g, owner));
    case SetInfo(es) => RolesSetAt(s, es, (g, owner));
    case _ =>
  }

  lemma EmptiedStays(env: Env, run: seq<Store>, ops: seq<(string, Op)>, n: nat, g: string)
    requires IsRun(env, run, ops) && n < |ops| && Emptied(run[n], g)
    ensures Emptied(run[n + 1], g)
  {
    RunKeepsInv(env, run, ops, n);
    StepIsHarmless(env, run, ops, n);
    StaysEmpty(env, run[n], ops[n].0, ops[n].1, run[n + 1], g);
  }

  /** Emptied is for good: no later request puts a member into the group again. */
  lemma {:induction false} EmptiedForever(
    env: Env, run: seq<Store>, ops: seq<(string, Op)>, m: nat, n: nat, g: string)
    requires IsRun(env, run, ops) && m <= n < |run|
    requires Emptied(run[m], g)
    ensures Emptied(run[n], g)
  {
    if m < n {
      EmptiedForever(env, run, ops, m, n - 1, g);
      EmptiedStays(env, run, ops, n - 1, g);
    }
  }

  lemma StaysEmpty(env: Env, s: Store, op: string, o: Op, t: Store, g: string)
    requires Inv(s) && Harmless(s, o) && Accepted(env, s, op, o, t) && Emptied(s, g)
    ensures Emptied(t, g)
  {
    forall u ensures !InGroup(t, g, u) {
      assert !InGroup(s, g, u);
      match o
      case Create(a, ms, admins, id, _, _) =>
        WithRowsLookup(s.members[(id, a) := Member(GROUP_OWNER, 0)], id, admins, Member(GROUP_ADMIN, 0), (g, u));
        WithRowsLookup(WithRows(s.members[(id, a) := Member(GROUP_OWNER, 0)], id, admins, Member(GROUP_ADMIN, 0)),
                       id, ms, NEW_MEMBER, (g, u));
      case Invite(h, invited) => WithRowsLookup(s.members, h, invited, NEW_MEMBER, (g, u));
      case Join(h, v) => WithRowsLookup(s.members, h, [v], NEW_MEMBER, (g, u));
      case Respond(h, from, _) =>
        assert !InGroup(s, g, op);
        WithRowsLookup(s.members, h, [from], NEW_MEMBER, (g, u));
      case SetInfo(es) => RolesSetAt(s, es, (g, u));
      case _ =>
    }
    assert !InGroup(s, g, op);
    SetInfoGroups(s, o);
  }

  // ----- What app managers can do, exactly -----

  /** Transferring keeps exactly one owner if and only if it starts from the owner. */
  lemma TransferExact(s: Store, g: string, oldOwner: string, newOwner: string)
    requires Inv(s) && g in s.groups && oldOwner != newOwner && InGroup(s, g, oldOwner) && InGroup(s, g, newOwner)
    ensures SoleOwner(Transferred(s, g, oldOwner, newOwner), g) <==> HasRole(s, g, oldOwner, GROUP_OWNER)
  {
    var t := Transferred(s, g, oldOwner, newOwner);
    OwnedUnlessEmptied(s, g);
    var o :| IsSoleOwner(s, g, o);
    assert HasRole(t, g, newOwner, GROUP_OWNER);
    if o == oldOwner {
      TransferKeeps(s, g, oldOwner, newOwner, t);
    } else if o == newOwner {
      assert HasRole(t, g, oldOwner, GROUP_OWNER);
    } else {
      assert HasRole(t, g, o, GROUP_OWNER);
    }
  }

  /** Kicking keeps exactly one owner if and only if the owner is not among the kicked. */
  lemma KickExact(s: Store, g: string, us: set<string>, owner: string)
    requires Inv(s) && g in s.groups && HasRole(s, g, owner, GROUP_OWNER)
    ensures SoleOwner(Removed(s, g, us), g) <==> owner !in us
  {
    var t := Removed(s, g, us);
    OwnerKnown(s, g, owner);
    if owner !in us {
      assert SameOwners(s, t, g);
      OwnersKept(s, t, g);
    } else if SoleOwner(t, g) {
      var p :| IsSoleOwner(t, g, p);
      assert HasRole(s, g, p, GROUP_OWNER);
      assert false;
    }
  }

  /** An accepted batch of role changes keeps one owner in each group if and only if it appoints none there. */
  lemma SetInfoExact(env: Env, s: Store, op: string, es: seq<Entry>, g: string)
    requires Inv(s) && g in s.groups && CanSetInfo(env, s, op, es) && SoleOwner(s, g)
    ensures SoleOwner(RolesSet(s, es), g) <==>
      forall e <- es :: !(e.groupID == g && e.change == SetRole(GROUP_OWNER))
  {
    var t := RolesSet(s, es);
    var o :| IsSoleOwner(s, g, o);
    RolesSetAt(s, es, (g, o));
    assert HasRole(t, g, o, GROUP_OWNER) by {
      forall e <- es | (e.groupID, e.userID) == (g, o) ensures e.change.Keep? {
        assert e.change.SetRole? ==> !HasRole(s, e.groupID, e.userID, GROUP_OWNER);
      }
    }
    if e :| e in es && e.groupID == g && e.change == SetRole(GROUP_OWNER) {
      RolesSetAt(s, es, (g, e.userID));
      assert HasRole(t, g, e.userID, GROUP_OWNER) && !HasRole(s, g, e.userID, GROUP_OWNER);
    } else {
      forall u | HasRole(t, g, u, GROUP_OWNER) ensures u == o {
        RolesSetAt(s, es, (g, u));
        assert HasRole(s, g, u, GROUP_OWNER);
      }
      assert IsSoleOwner(t, g, o);
    }
  }
}
