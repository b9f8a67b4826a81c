/**
 * The group tables as the history of the requests: who is a member, which requests are open, and which
 * requests are accepted, without looking at how the tables are written.
 */
module GroupHistory {
  import opened Groups
  import opened GroupRuns

  // ----- What a request means for one user -----

  predicate NeedsApproval(env: Env, s: Store, op: string, g: string)
    requires g in s.groups
  {
    s.groups[g].needVerification == 1 && op !in env.managers && RoleOf(s, g, op) <= 20
  }

  /** An accepted request that makes `u` a member of `g`. */
  predicate Enters(env: Env, s: Store, op: string, o: Op, g: string, u: string) {
    match o
    case Create(owner, ms, admins, id, _, _) => id == g && (u == owner || u in admins || u in ms)
    case Invite(h, invited) => h == g && u in invited && g in s.groups && !NeedsApproval(env, s, op, g)
    case Join(h, v) => h == g && v == u && g in s.groups && s.groups[g].needVerification == 2
    case Respond(h, from, result) => h == g && from == u && result == 1
    case _ => false
  }

  /** One that ends the membership. */
  predicate Leaves(o: Op, g: string, u: string) {
    match o
    case Kick(h, kicked) => h == g && u in kicked
    case Quit(h, v) => h == g && v == u
    case Dismiss(h, deleteMember, _) => h == g && deleteMember
    case _ => false
  }

  /** One that files a request of `u` to join `g`. */
  predicate Files(env: Env, s: Store, op: string, o: Op, g: string, u: string) {
    match o
    case Invite(h, invited) => h == g && u in invited && g in s.groups && NeedsApproval(env, s, op, g)
    case Join(h, v) => h == g && v == u && g in s.groups && s.groups[g].needVerification != 2
    case _ => false
  }

  predicate Answers(o: Op, g: string, u: string) {
    o.Respond? && o.g == g && o.from == u
  }

  predicate Open(s: Store, g: string, u: string) {
    (g, u) in s.requests && s.requests[(g, u)] == 0
  }

  // ----- One request -----

  lemma JoinedRows(s: Store, g: string, us: seq<string>, h: string, u: string)
    ensures InGroup(Joined(s, g, us), h, u) <==> InGroup(s, h, u) || (h == g && u in us)
    ensures InGroup(Joined(s, g, us), h, u) ==>
      Joined(s, g, us).members[(h, u)] == if h == g && u in us then Member(20, 0) else s.members[(h, u)]
  {
    WithRowsLookup(s.members, g, us, NEW_MEMBER, (h, u));
  }

  lemma RequestedRows(s: Store, g: string, us: seq<string>, h: string, u: string)
    ensures (h, u) in Requested(s, g, us).requests <==> (h, u) in s.requests || (h == g && u in us)
    ensures (h, u) in Requested(s, g, us).requests ==>
      Requested(s, g, us).requests[(h, u)] == if h == g && u in us then 0 else s.requests[(h, u)]
  {
    WithRowsLookup(s.requests, g, us, 0, (h, u));
  }

  lemma ApprovalIs(env: Env, s: Store, op: string, g: string)
    requires Inv(s) && g in s.groups
    ensures InviteNeedsApproval(env, s, op, g) <==> NeedsApproval(env, s, op, g)
  {
    if InGroup(s, g, op) { assert ValidRole(s.members[(g, op)].role); }
  }

  /** Membership after a request: those who were in and did not leave, and those who entered. */
  lemma MemberStep(env: Env, s: Store, op: string, o: Op, t: Store, g: string, u: string)
    requires Inv(s) && Accepted(env, s, op, o, t)
    ensures InGroup(t, g, u) <==> (InGroup(s, g, u) && !Leaves(o, g, u)) || Enters(env, s, op, o, g, u)
  {
    match o
    case Create(owner, ms, admins, id, _, _) =>
      CreatedDistinct(env, s, op, o, t);
      CreatedRows(s, owner, ms, admins, id, (g, u));
    case Invite(h, invited) =>
      ApprovalIs(env, s, op, h);
      JoinedRows(s, h, invited, g, u);
    case Join(h, v) => JoinedRows(s, h, [v], g, u);
    case Respond(h, from, _) => JoinedRows(s, h, [from], g, u);
    case SetInfo(es) => RolesSetAt(s, es, (g, u));
    case _ =>
  }

  lemma CreatedDistinct(env: Env, s: Store, op: string, o: Op, t: Store)
    requires o.Create? && Accepted(env, s, op, o, t)
    ensures NoDuplicates(o.memberIDs + o.adminIDs + [o.owner])
  {
    var us := o.memberIDs + o.adminIDs + [o.owner];
    assert forall i | 0 <= i < |us| :: AllUsers(o.owner, o.memberIDs, o.adminIDs, op)[i] == us[i];
  }

  /** The role a member has after a request. */
  function RoleAfter(s: Store, o: Op, g: string, u: string): int {
    match o
    case Create(owner, ms, admins, id, _, _) =>
      if id != g then RoleOf(s, g, u)
      else if u == owner then 100 else if u in admins then 60 else if u in ms then 20 else RoleOf(s, g, u)
    case Transfer(h, oldOwner, newOwner) =>
      if h == g && u == newOwner then 100
      else if h == g && u == oldOwner then RoleOf(s, g, newOwner) else RoleOf(s, g, u)
    case _ => if InGroup(s, g, u) then RoleOf(s, g, u) else 20
  }

  /** Some entry of the batch gives `u` the role. */
  predicate SetsRole(o: Op, g: string, u: string, role: int) {
    o.SetInfo? && exists e <- o.es :: e.groupID == g && e.userID == u && e.change == SetRole(role)
  }

  lemma CreateRoles(env: Env, s: Store, op: string, o: Op, t: Store, g: string, u: string)
    requires o.Create? && Accepted(env, s, op, o, t) && InGroup(t, g, u)
    ensures RoleOf(t, g, u) == RoleAfter(s, o, g, u)
  {
    CreatedDistinct(env, s, op, o, t);
    CreatedRows(s, o.owner, o.memberIDs, o.adminIDs, o.groupID, (g, u));
    NewAreApart(o.memberIDs, o.adminIDs, o.owner, u);
  }

  lemma SetInfoRoles(s: Store, o: Op, t: Store, g: string, u: string)
    requires o.SetInfo? && DistinctTargets(o.es) && t == RolesSet(s, o.es) && InGroup(t, g, u)
    ensures (forall role :: !SetsRole(o, g, u, role)) ==> RoleOf(t, g, u) == RoleOf(s, g, u)
    ensures forall role | SetsRole(o, g, u, role) :: RoleOf(t, g, u) == role
    ensures InGroup(s, g, u)
  {
    RolesSetAt(s, o.es, (g, u));
    if forall role :: !SetsRole(o, g, u, role) {
      forall e <- o.es ensures !Sets(e, (g, u)) {
        if Sets(e, (g, u)) { assert SetsRole(o, g, u, e.change.role); }
      }
    }
  }

  lemma RoleStep(env: Env, s: Store, op: string, o: Op, t: Store, g: string, u: string)
    requires Inv(s) && Accepted(env, s, op, o, t) && InGroup(t, g, u)
    ensures (forall role :: !SetsRole(o, g, u, role)) ==> RoleOf(t, g, u) == RoleAfter(s, o, g, u)
    ensures forall role | SetsRole(o, g, u, role) :: RoleOf(t, g, u) == role
  {
    match o
    case Create(_, _, _, _, _, _) => CreateRoles(env, s, op, o, t, g, u);
    case Invite(h, invited) => JoinedRows(s, h, invited, g, u);
    case Join(h, v) => JoinedRows(s, h, [v], g, u);
    case Respond(h, from, _) => JoinedRows(s, h, [from], g, u);
    case SetInfo(_) => SetInfoRoles(s, o, t, g, u);
    case _ =>
  }

  lemma NewAreApart(ms: seq<string>, admins: seq<string>, owner: string, u: string)
    requires NoDuplicates(ms + admins + [owner])
    ensures !(u in ms && u in admins) && !(owner in ms) && !(owner in admins)
  {
    var all := ms + admins + [owner];
    assert all[|all| - 1] == owner;
    assert forall i | 0 <= i < |ms| :: all[i] == ms[i];
    assert forall i | 0 <= i < |admins| :: all[|ms| + i] == admins[i];
  }

  /** The request row of a user after a request: filed, answered, or as before. */
  lemma RequestStep(env: Env, s: Store, op: string, o: Op, t: Store, g: string, u: string)
    requires Inv(s) && Accepted(env, s, op, o, t)
    ensures (g, u) in t.requests <==> (g, u) in s.requests || Files(env, s, op, o, g, u)
    ensures (g, u) in t.requests ==>
      t.requests[(g, u)] == if Files(env, s, op, o, g, u) then 0
                            else if Answers(o, g, u) then o.result else s.requests[(g, u)]
  {
    match o
    case Invite(h, invited) =>
      ApprovalIs(env, s, op, h);
      RequestedRows(s, h, invited, g, u);
    case Join(h, v) => RequestedRows(s, h, [v], g, u);
    case SetInfo(es) => RolesSetAt(s, es, (g, u));
    case _ =>
  }

  /** The group row after a request. */
  lemma GroupStep(env: Env, s: Store, op: string, o: Op, t: Store, g: string)
    requires Accepted(env, s, op, o, t)
    ensures g in t.groups <==> g in s.groups || (o.Create? && o.groupID == g)
    ensures g in t.groups ==>
      t.groups[g] == if o.Create? && o.groupID == g then o.group
                     else if o.SetStatus? && o.g == g then s.groups[g].(status := if o.mute then 3 else 0)
                     else if o.Dismiss? && o.g == g then s.groups[g].(status := 2)
                     else s.groups[g]
  {
    if o.SetInfo? { RolesSetAt(s, o.es, ("", "")); }
  }

  /** How long a member is muted after a request. */
  lemma MuteStep(env: Env, s: Store, op: string, o: Op, t: Store, g: string, u: string)
    requires Inv(s) && Accepted(env, s, op, o, t) && InGroup(t, g, u)
    ensures !InGroup(s, g, u) ==> t.members[(g, u)].muteEnd == 0
    ensures o.Mute? && o.g == g && o.u == u ==> t.members[(g, u)].muteEnd == o.muteEnd
    ensures !(o.Mute? && o.g == g && o.u == u) && InGroup(s, g, u) && !Enters(env, s, op, o, g, u) ==>
      t.members[(g, u)].muteEnd == s.members[(g, u)].muteEnd
  {
    match o
    case Create(owner, ms, admins, id, _, _) =>
      var first := s.members[(id, owner) := Member(GROUP_OWNER, 0)];
      WithRowsLookup(first, id, admins, Member(GROUP_ADMIN, 0), (g, u));
      WithRowsLookup(WithRows(first, id, admins, Member(GROUP_ADMIN, 0)), id, ms, NEW_MEMBER, (g, u));
    case Invite(h, invited) =>
      ApprovalIs(env, s, op, h);
      JoinedRows(s, h, invited, g, u);
    case Join(h, v) => JoinedRows(s, h, [v], g, u);
    case Respond(h, from, _) => JoinedRows(s, h, [from], g, u);
    case SetInfo(es) =>
      RolesSetAt(s, es, (g, u));
      if e :| e in es && Sets(e, (g, u)) {}
    case _ =>
  }

  // ----- Over whole runs -----

  ghost predicate EntersAt(env: Env, run: seq<Store>, ops: seq<(string, Op)>, i: nat, g: string, u: string)
    requires |run| == |ops| + 1
  {
    i < |ops| && Enters(env, run[i], ops[i].0, ops[i].1, g, u)
  }

  ghost predicate FilesAt(env: Env, run: seq<Store>, ops: seq<(string, Op)>, i: nat, g: string, u: string)
    requires |run| == |ops| + 1
  {
    i < |ops| && Files(env, run[i], ops[i].0, ops[i].1, g, u)
  }

  ghost predicate LeftBetween(ops: seq<(string, Op)>, i: nat, n: nat, g: string, u: string)
    requires n <= |ops|
  {
    exists k :: i < k < n && Leaves(ops[k].1, g, u)
  }

  ghost predicate AnsweredBetween(ops: seq<(string, Op)>, i: nat, n: nat, g: string, u: string)
    requires n <= |ops|
  {
    exists k :: i < k < n && Answers(ops[k].1, g, u)
  }

  /** Some request made `u` a member before step `n`, and none since has ended that. */
  ghost predicate EnteredBefore(env: Env, run: seq<Store>, ops: seq<(string, Op)>, n: nat, g: string, u: string)
    requires |run| == |ops| + 1 && n < |run|
  {
    exists i :: 0 <= i < n && EntersAt(env, run, ops, i, g, u) && !LeftBetween(ops, i, n, g, u)
  }

  /** Some request to join was filed before step `n`, and none since has answered it. */
  ghost predicate FiledBefore(env: Env, run: seq<Store>, ops: seq<(string, Op)>, n: nat, g: string, u: string)
    requires |run| == |ops| + 1 && n < |run|
  {
    exists i :: 0 <= i < n && FilesAt(env, run, ops, i, g, u) && !AnsweredBetween(ops, i, n, g, u)
  }

  /**
   * Who is a member, by history: in every state of every run a user is in a group if and only if some
   * accepted request made the user a member and none since has ended that.
   */
  lemma {:induction false} MembersExactly(
    env: Env, run: seq<Store>, ops: seq<(string, Op)>, n: nat, g: string, u: string)
    requires IsRun(env, run, ops) && n < |run|
    ensures InGroup(run[n], g, u) <==> EnteredBefore(env, run, ops, n, g, u)
  {
    if n > 0 {
      MembersExactly(env, run, ops, n - 1, g, u);
      MemberNext(env, run, ops, n, g, u);
    }
  }

  lemma MemberNext(env: Env, run: seq<Store>, ops: seq<(string, Op)>, n: nat, g: string, u: string)
    requires IsRun(env, run, ops) && 0 < n < |run|
    requires InGroup(run[n - 1], g, u) <==> EnteredBefore(env, run, ops, n - 1, g, u)
    ensures InGroup(run[n], g, u) <==> EnteredBefore(env, run, ops, n, g, u)
  {
    MemberOfRun(env, run, ops, n, g, u);
    EnteredNow(env, run, ops, n, g, u);
  }

  lemma MemberOfRun(env: Env, run: seq<Store>, ops: seq<(string, Op)>, n: nat, g: string, u: string)
    requires IsRun(env, run, ops) && 0 < n < |run|
    ensures InGroup(run[n], g, u) <==>
      (InGroup(run[n - 1], g, u) && !Leaves(ops[n - 1].1, g, u)) || EntersAt(env, run, ops, n - 1, g, u)
  {
    RunKeepsInv(env, run, ops, n - 1);
    MemberStep(env, run[n - 1], ops[n - 1].0, ops[n - 1].1, run[n], g, u);
  }

  /** The last request of a run, in the terms of the history. */
  lemma EnteredNow(env: Env, run: seq<Store>, ops: seq<(string, Op)>, n: nat, g: string, u: string)
    requires |run| == |ops| + 1 && 0 < n < |run|
    ensures EnteredBefore(env, run, ops, n, g, u) <==>
      || EntersAt(env, run, ops, n - 1, g, u)
      || (!Leaves(ops[n - 1].1, g, u) && EnteredBefore(env, run, ops, n - 1, g, u))
  {
    forall i | 0 <= i < n - 1
      ensures LeftBetween(ops, i, n, g, u) <==> LeftBetween(ops, i, n - 1, g, u) || Leaves(ops[n - 1].1, g, u)
    {
    }
    if EntersAt(env, run, ops, n - 1, g, u) {
      assert !LeftBetween(ops, n - 1, n, g, u);
    }
    if i :| 0 <= i < n && EntersAt(env, run, ops, i, g, u) && !LeftBetween(ops, i, n, g, u) {
      if i < n - 1 { assert !LeftBetween(ops, i, n - 1, g, u); }
    }
    if i :| 0 <= i < n - 1 && EntersAt(env, run, ops, i, g, u) && !LeftBetween(ops, i, n - 1, g, u) {
      if !Leaves(ops[n - 1].1, g, u) { assert !LeftBetween(ops, i, n, g, u); }
    }
  }

  /**
   * Which requests are open, by history: in every state of every run a user's request to join a group is
   * open if and only if a join or an invitation that needs approval filed one and no response since has
   * answered it.
   */
  lemma {:induction false} OpenExactly(
    env: Env, run: seq<Store>, ops: seq<(string, Op)>, n: nat, g: string, u: string)
    requires IsRun(env, run, ops) && n < |run|
    ensures Open(run[n], g, u) <==> FiledBefore(env, run, ops, n, g, u)
  {
    if n > 0 {
      OpenExactly(env, run, ops, n - 1, g, u);
      OpenNext(env, run, ops, n, g, u);
    }
  }

  lemma OpenNext(env: Env, run: seq<Store>, ops: seq<(string, Op)>, n: nat, g: string, u: string)
    requires IsRun(env, run, ops) && 0 < n < |run|
    requires Open(run[n - 1], g, u) <==> FiledBefore(env, run, ops, n - 1, g, u)
    ensures Open(run[n], g, u) <==> FiledBefore(env, run, ops, n, g, u)
  {
    OpenStep(env, run, ops, n - 1, g, u);
    FiledNow(env, run, ops, n, g, u);
  }

  lemma OpenStep(env: Env, run: seq<Store>, ops: seq<(string, Op)>, n: nat, g: string, u: string)
    requires IsRun(env, run, ops) && n < |ops|
    ensures Open(run[n + 1], g, u) <==>
      FilesAt(env, run, ops, n, g, u) || (Open(run[n], g, u) && !Answers(ops[n].1, g, u))
  {
    RunKeepsInv(env, run, ops, n);
    assert Accepted(env, run[n], ops[n].0, ops[n].1, run[n + 1]);
    RequestStep(env, run[n], ops[n].0, ops[n].1, run[n + 1], g, u);
  }

  lemma FiledNow(env: Env, run: seq<Store>, ops: seq<(string, Op)>, n: nat, g: string, u: string)
    requires |run| == |ops| + 1 && 0 < n < |run|
    ensures FiledBefore(env, run, ops, n, g, u) <==>
      || FilesAt(env, run, ops, n - 1, g, u)
      || (!Answers(ops[n - 1].1, g, u) && FiledBefore(env, run, ops, n - 1, g, u))
  {
    forall i | 0 <= i < n - 1
      ensures AnsweredBetween(ops, i, n, g, u) <==> AnsweredBetween(ops, i, n - 1, g, u) || Answers(ops[n - 1].1, g, u)
    {
    }
    if FilesAt(env, run, ops, n - 1, g, u) {
      assert !AnsweredBetween(ops, n - 1, n, g, u);
    }
    if i :| 0 <= i < n && FilesAt(env, run, ops, i, g, u) && !AnsweredBetween(ops, i, n, g, u) {
      if i < n - 1 { assert !AnsweredBetween(ops, i, n - 1, g, u); }
    }
    if i :| 0 <= i < n - 1 && FilesAt(env, run, ops, i, g, u) && !AnsweredBetween(ops, i, n - 1, g, u) {
      if !Answers(ops[n - 1].1, g, u) { assert !AnsweredBetween(ops, i, n, g, u); }
    }
  }

  /**
   * One answer for one request: whenever a response is accepted, be it to agree or to refuse, a request
   * of that user for that group was filed since the last response there, if there was one. So nobody is
   * let in without having asked, and no second response is accepted until there is a new request.
   */
  lemma AnswersOneRequest(env: Env, run: seq<Store>, ops: seq<(string, Op)>, n: nat, g: string, u: string)
    returns (i: nat)
    requires IsRun(env, run, ops) && n < |ops| && Answers(ops[n].1, g, u)
    ensures i < n && FilesAt(env, run, ops, i, g, u) && !AnsweredBetween(ops, i, n, g, u)
    ensures forall k | 0 <= k < n && Answers(ops[k].1, g, u) :: k <= i
  {
    assert Accepted(env, run[n], ops[n].0, ops[n].1, run[n + 1]);
    OpenExactly(env, run, ops, n, g, u);
    i :| 0 <= i < n && FilesAt(env, run, ops, i, g, u) && !AnsweredBetween(ops, i, n, g, u);
  }

  /** A group keeps the approval setting it was created with. */
  lemma {:induction false} ApprovalStays(env: Env, run: seq<Store>, ops: seq<(string, Op)>, n: nat, g: string)
    returns (i: nat)
    requires IsRun(env, run, ops) && n < |run| && g in run[n].groups
    ensures i < n && ops[i].1.Create? && ops[i].1.groupID == g
    ensures run[n].groups[g].needVerification == ops[i].1.group.needVerification
  {
    var s, op, o := run[n - 1], ops[n - 1].0, ops[n - 1].1;
    assert Accepted(env, s, op, o, run[n]);
    GroupStep(env, s, op, o, run[n], g);
    if o.Create? && o.groupID == g {
      i := n - 1;
    } else {
      i := ApprovalStays(env, run, ops, n - 1, g);
    }
  }

  // ----- Which requests are accepted -----

  /** In terms of the roles: ordinary members 20, admins 60, the owner 100, others 0. */
  ghost predicate Permitted(env: Env, s: Store, op: string, o: Op) {
    match o
    case Create(owner, ms, admins, id, groupType, _) =>
      && owner != "" && groupType == 2 && (op in env.managers || op == owner) && id !in s.groups
      && NoDuplicates(ms + admins + [owner])
      && op in env.users && forall u | u == owner || u in ms || u in admins :: u in env.users
    case Invite(g, invited) =>
      && invited != [] && NoDuplicates(invited) && (forall u <- invited :: u in env.users)
      && g in s.groups && s.groups[g].status != 2 && (op in env.managers || RoleOf(s, g, op) > 0)
      && (NeedsApproval(env, s, op, g) || forall u <- invited :: RoleOf(s, g, u) == 0)
    case Join(g, u) => u in env.users && g in s.groups && s.groups[g].status != 2 && RoleOf(s, g, u) == 0
    case Respond(g, from, result) =>
      && result in {1, -1} && (op in env.managers || RoleOf(s, g, op) > 20)
      && g in s.groups && Open(s, g, from) && from in env.users
    case Kick(g, kicked) =>
      && g in s.groups && kicked != [] && NoDuplicates(kicked) && op !in kicked
      && (forall u <- kicked :: RoleOf(s, g, u) > 0)
      && (op !in env.managers ==> forall u <- kicked :: RoleOf(s, g, op) > RoleOf(s, g, u))
    case Quit(g, u) => (op in env.managers || op == u) && 0 < RoleOf(s, g, u) < 100
    case Transfer(g, oldOwner, newOwner) =>
      && g in s.groups && s.groups[g].status != 2 && oldOwner != newOwner
      && 0 < RoleOf(s, g, newOwner) < 100 && 0 < RoleOf(s, g, oldOwner)
      && if op in env.managers then RoleOf(s, g, oldOwner) != RoleOf(s, g, newOwner)
         else op == oldOwner && RoleOf(s, g, op) == 100
    case SetInfo(es) =>
      && es != [] && DistinctTargets(es)
      && (forall e <- es :: RoleOf(s, e.groupID, e.userID) > 0)
      && (forall e <- es | e.change.SetRole? :: RoleOf(s, e.groupID, e.userID) < 100)
      && (op !in env.managers ==> forall e <- es :: MayEdit(s, op, e))
    case Mute(g, u, _) => RoleOf(s, g, u) > 0 && (op in env.managers || RoleOf(s, g, op) > RoleOf(s, g, u))
    case SetStatus(g, _) => op in env.managers || RoleOf(s, g, op) > 20
    case Dismiss(g, deleteMember, owner) =>
      && g in s.groups && RoleOf(s, g, owner) == 100 && (op in env.managers || op == owner)
      && (deleteMember || s.groups[g].status != 2)
  }

  /** One's own entry without the role, or a member below; the role only by the owner, and not to owner. */
  predicate MayEdit(s: Store, op: string, e: Entry) {
    if e.userID == op then e.change.Keep?
    else
      && RoleOf(s, e.groupID, op) > RoleOf(s, e.groupID, e.userID)
      && (e.change.SetRole? ==> RoleOf(s, e.groupID, op) == 100 && e.change.role in {20, 60})
  }

  lemma RoleRange(s: Store, g: string, u: string)
    requires Inv(s)
    ensures RoleOf(s, g, u) in {0, 20, 60, 100}
    ensures InGroup(s, g, u) <==> RoleOf(s, g, u) > 0
    ensures forall role | role in {20, 60, 100} :: HasRole(s, g, u, role) <==> RoleOf(s, g, u) == role
    ensures InGroup(s, g, u) ==> g in s.groups
  {
    if InGroup(s, g, u) { assert ValidRole(s.members[(g, u)].role); }
  }

  /** There is no other owner beside an owner. */
  lemma OwnerAbove(s: Store, g: string, o: string, u: string)
    requires Inv(s) && RoleOf(s, g, o) == 100 && u != o
    ensures RoleOf(s, g, u) < 100
  {
    RoleRange(s, g, o);
    RoleRange(s, g, u);
    if InGroup(s, g, u) { Below(s, g, o, u); }
  }

  lemma KickPermitted(env: Env, s: Store, op: string, g: string, kicked: seq<string>)
    requires Inv(s)
    ensures CanKick(env, s, op, g, kicked) <==> Permitted(env, s, op, Kick(g, kicked))
  {
    RoleRange(s, g, op);
    forall u <- kicked
      ensures InGroup(s, g, u) <==> RoleOf(s, g, u) > 0
      ensures OwnerOrAdmin(s, g, u) <==> RoleOf(s, g, u) > 20
      ensures RoleOf(s, g, u) in {0, 20, 60, 100}
      ensures op !in kicked && RoleOf(s, g, op) == 100 ==> RoleOf(s, g, u) < 100
    {
      RoleRange(s, g, u);
      if op !in kicked && RoleOf(s, g, op) == 100 { OwnerAbove(s, g, op, u); }
    }
    if kicked != [] { assert kicked[0] in kicked; }
  }

  lemma MutePermitted(env: Env, s: Store, op: string, g: string, u: string, muteEnd: int)
    requires Inv(s)
    ensures CanMute(env, s, op, g, u) <==> Permitted(env, s, op, Mute(g, u, muteEnd))
  {
    RoleRange(s, g, op);
    RoleRange(s, g, u);
    if RoleOf(s, g, op) == 100 && u != op { OwnerAbove(s, g, op, u); }
  }

  lemma EditPermitted(s: Store, op: string, e: Entry)
    requires Inv(s) && RoleOf(s, e.groupID, e.userID) > 0
    ensures MayChange(s, op, e) <==> MayEdit(s, op, e)
  {
    RoleRange(s, e.groupID, op);
    RoleRange(s, e.groupID, e.userID);
    if RoleOf(s, e.groupID, op) == 100 && e.userID != op { OwnerAbove(s, e.groupID, op, e.userID); }
  }

  lemma SetInfoPermitted(env: Env, s: Store, op: string, es: seq<Entry>)
    requires Inv(s)
    ensures CanSetInfo(env, s, op, es) <==> Permitted(env, s, op, SetInfo(es))
  {
    forall e <- es
      ensures InGroup(s, e.groupID, e.userID) <==> RoleOf(s, e.groupID, e.userID) > 0
      ensures HasRole(s, e.groupID, e.userID, GROUP_OWNER) <==> RoleOf(s, e.groupID, e.userID) == 100
      ensures RoleOf(s, e.groupID, e.userID) <= 100
      ensures RoleOf(s, e.groupID, e.userID) > 0 ==> (MayChange(s, op, e) <==> MayEdit(s, op, e))
    {
      RoleRange(s, e.groupID, e.userID);
      if RoleOf(s, e.groupID, e.userID) > 0 { EditPermitted(s, op, e); }
    }
  }

  lemma TransferPermitted(env: Env, s: Store, op: string, g: string, a: string, b: string)
    requires Inv(s)
    ensures CanTransfer(env, s, op, g, a, b) <==> Permitted(env, s, op, Transfer(g, a, b))
  {
    RoleRange(s, g, a);
    RoleRange(s, g, b);
    if RoleOf(s, g, a) == 100 && a != b { OwnerAbove(s, g, a, b); }
  }

  lemma CreatePermitted(env: Env, s: Store, op: string, owner: string, ms: seq<string>, admins: seq<string>,
                        id: string, groupType: int, group: Group)
    requires Inv(s)
    ensures CanCreate(env, s, op, owner, ms, admins, id, groupType)
       <==> Permitted(env, s, op, Create(owner, ms, admins, id, groupType, group))
  {
    var us, all := ms + admins + [owner], AllUsers(owner, ms, admins, op);
    assert forall i | 0 <= i < |us| :: all[i] == us[i];
    assert forall u :: u in us <==> u == owner || u in ms || u in admins;
    assert forall u :: u in all <==> u in us || u == op;
    if op !in us {
      assert all == us + [op];
      if NoDuplicates(us) { NoDuplicatesMore(us, op); }
    }
  }

  lemma NoDuplicatesMore(xs: seq<string>, x: string)
    requires NoDuplicates(xs) && x !in xs
    ensures NoDuplicates(xs + [x])
  {
    forall i, j | 0 <= i < j < |xs + [x]| ensures (xs + [x])[i] != (xs + [x])[j] {
      if j == |xs| { assert xs[i] in xs; }
    }
  }

  lemma InvitePermitted(env: Env, s: Store, op: string, g: string, invited: seq<string>)
    requires Inv(s)
    ensures CanInvite(env, s, op, g, invited)
            && (InviteNeedsApproval(env, s, op, g) || forall u <- invited :: !InGroup(s, g, u))
       <==> Permitted(env, s, op, Invite(g, invited))
  {
    RoleRange(s, g, op);
    if g in s.groups { ApprovalIs(env, s, op, g); }
    forall u <- invited ensures InGroup(s, g, u) <==> RoleOf(s, g, u) > 0 && RoleOf(s, g, u) != 0 {
      RoleRange(s, g, u);
    }
    assert forall u :: u in invited <==> u in Elements(invited);
  }

  /**
   * Permission, exactly: in every state a run can reach, a request is accepted if and only if the roles
   * of the operator and of those it concerns permit it; in particular a member who is no app manager
   * may kick, mute or edit exactly the members strictly below.
   */
  lemma AcceptedExactly(env: Env, run: seq<Store>, ops: seq<(string, Op)>, n: nat, op: string, o: Op)
    requires IsRun(env, run, ops) && n < |run|
    ensures (exists t :: Accepted(env, run[n], op, o, t)) <==> Permitted(env, run[n], op, o)
  {
    RunKeepsInv(env, run, ops, n);
    AcceptedInState(env, run[n], op, o);
  }

  /** What an accepted request makes of the tables. */
  function Result(env: Env, s: Store, op: string, o: Op): Store {
    match o
    case Create(owner, ms, admins, id, _, group) => Created(s, owner, ms, admins, id, group)
    case Invite(g, invited) =>
      if g in s.groups && InviteNeedsApproval(env, s, op, g) then Requested(s, g, invited) else Joined(s, g, invited)
    case Join(g, u) =>
      if g in s.groups && s.groups[g].needVerification == DIRECTLY then Joined(s, g, [u]) else Requested(s, g, [u])
    case Respond(g, from, result) => Responded(s, g, from, result)
    case Kick(g, kicked) => Removed(s, g, Elements(kicked))
    case Quit(g, u) => Removed(s, g, {u})
    case Transfer(g, a, b) => if InGroup(s, g, a) && InGroup(s, g, b) then Transferred(s, g, a, b) else s
    case SetInfo(es) => RolesSet(s, es)
    case Mute(g, u, muteEnd) => if InGroup(s, g, u) then MutedUntil(s, g, u, muteEnd) else s
    case SetStatus(g, mute) => StatusSet(s, g, if mute then GROUP_STATUS_MUTED else GROUP_OK)
    case Dismiss(g, deleteMember, _) => DismissedStore(s, g, deleteMember)
  }

  lemma AcceptedInState(env: Env, s: Store, op: string, o: Op)
    requires Inv(s)
    ensures (exists t :: Accepted(env, s, op, o, t)) <==> Permitted(env, s, op, o)
  {
    GuardPermitted(env, s, op, o);
    if t :| Accepted(env, s, op, o, t) { OnlyResult(env, s, op, o, t); }
  }

  lemma OnlyResult(env: Env, s: Store, op: string, o: Op, t: Store)
    requires Accepted(env, s, op, o, t)
    ensures t == Result(env, s, op, o)
  {
  }

  lemma JoinPermitted(env: Env, s: Store, op: string, g: string, u: string)
    requires Inv(s)
    ensures CanJoin(env, s, g, u) <==> Permitted(env, s, op, Join(g, u))
  {
    RoleRange(s, g, u);
  }

  lemma RespondPermitted(env: Env, s: Store, op: string, g: string, from: string, result: int)
    requires Inv(s)
    ensures CanRespond(env, s, op, g, from, result) <==> Permitted(env, s, op, Respond(g, from, result))
  {
    RoleRange(s, g, op);
  }

  lemma QuitPermitted(env: Env, s: Store, op: string, g: string, u: string)
    requires Inv(s)
    ensures CanQuit(env, s, op, g, u) <==> Permitted(env, s, op, Quit(g, u))
  {
    RoleRange(s, g, u);
  }

  lemma StatusPermitted(env: Env, s: Store, op: string, g: string, mute: bool)
    requires Inv(s)
    ensures CanMuteGroup(env, s, op, g) <==> Permitted(env, s, op, SetStatus(g, mute))
  {
    RoleRange(s, g, op);
  }

  lemma DismissPermitted(env: Env, s: Store, op: string, g: string, deleteMember: bool, owner: string)
    requires Inv(s)
    ensures CanDismiss(env, s, op, g, deleteMember, owner) <==> Permitted(env, s, op, Dismiss(g, deleteMember, owner))
  {
    RoleRange(s, g, owner);
  }

  lemma GuardPermitted(env: Env, s: Store, op: string, o: Op)
    requires Inv(s)
    ensures Permitted(env, s, op, o) <==> Accepted(env, s, op, o, Result(env, s, op, o))
  {
    match o
    case Create(owner, ms, admins, id, groupType, group) =>
      CreatePermitted(env, s, op, owner, ms, admins, id, groupType, group);
    case Invite(g, invited) => InvitePermitted(env, s, op, g, invited);
    case Join(g, u) => JoinPermitted(env, s, op, g, u);
    case Respond(g, from, result) => RespondPermitted(env, s, op, g, from, result);
    case Kick(g, kicked) => KickPermitted(env, s, op, g, kicked);
    case Quit(g, u) => QuitPermitted(env, s, op, g, u);
    case Transfer(g, a, b) => TransferPermitted(env, s, op, g, a, b);
    case SetInfo(es) => SetInfoPermitted(env, s, op, es);
    case Mute(g, u, muteEnd) => MutePermitted(env, s, op, g, u, muteEnd);
    case SetStatus(g, mute) => StatusPermitted(env, s, op, g, mute);
    case Dismiss(g, deleteMember, owner) => DismissPermitted(env, s, op, g, deleteMember, owner);
  }
}
