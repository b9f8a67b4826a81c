/**
 * The transfer process in order: when every worker serves its commands in the order they were
 * delivered, the numbers and the pushes of a conversation follow the order its messages came in.
 */
module TransferOrder {
  import opened Messages
  import opened ConversationIds
  import opened BatchSplit
  import opened Storage
  import opened StorageOrder
  import opened Transfer
  import S = SeqCaches
  import P = Pipeline
  import T = PipelineTheorems
  import R = StorageRuns

  /** The chat or the notification conversation of a message, and what is stored there. */
  function IdOf(m: MsgData, chat: bool): string {
    if chat then GetChatConversationIDByMsg(m) else GetNotificationConversationIDByMsg(m)
  }

  function Pick(chat: bool): MsgData -> Option<MsgData> {
    if chat then ToStorageMsg else ToStorageNotification
  }

  function Bodies(ms: seq<P.ContextMsg>): (r: seq<MsgData>)
    ensures |r| == |ms|
    ensures forall i | 0 <= i < |ms| :: r[i] == ms[i].message
  {
    seq(|ms|, i requires 0 <= i < |ms| => ms[i].message)
  }

  // ----- The jobs of a command -----

  function JobsOf(cmd: P.Command): seq<R.Job> {
    var ms := T.MessagesOf(cmd);
    if ms == [] then [] else [ChatJob(ms), NotificationJob(ms)]
  }

  function AllJobs(cmds: seq<P.Command>): seq<R.Job> {
    if cmds == [] then [] else AllJobs(cmds[..|cmds| - 1]) + JobsOf(cmds[|cmds| - 1])
  }

  /** Every worker does, so far, what was delivered to it, in that order. */
  ghost predicate ServesInOrder(p: P.State, actions: seq<R.Action>) {
    forall w: nat | Begun(actions, |actions|, w) != [] ::
      w < |p.delivered| && Begun(actions, |actions|, w) <= AllJobs(p.delivered[w])
  }

  lemma {:induction false} BegunHas(actions: seq<R.Action>, n: nat, i: nat)
    requires i < n <= |actions| && actions[i].Worker? && actions[i].work.Begin?
    ensures actions[i].work.job in Begun(actions, n, actions[i].w)
  {
    if i < n - 1 {
      BegunHas(actions, n - 1, i);
    }
  }

  lemma {:induction false} AllJobsFrom(cmds: seq<P.Command>, job: R.Job) returns (j: nat)
    requires job in AllJobs(cmds)
    ensures j < |cmds| && job in JobsOf(cmds[j])
  {
    if job in JobsOf(cmds[|cmds| - 1]) {
      j := |cmds| - 1;
    } else {
      j := AllJobsFrom(cmds[..|cmds| - 1], job);
    }
  }

  lemma InOrderServes(p: P.State, actions: seq<R.Action>)
    requires ServesInOrder(p, actions)
    ensures Serves(p, actions)
  {
    forall i | 0 <= i < |actions| && actions[i].Worker? && actions[i].work.Begin?
      ensures exists j: nat :: IsJobOf(p, actions[i].w, j, actions[i].work.job)
    {
      var w, job := actions[i].w, actions[i].work.job;
      BegunHas(actions, |actions|, i);
      var j := AllJobsFrom(p.delivered[w], job);
      assert IsJobOf(p, w, j, job);
    }
  }

  lemma {:induction false} BegunGrows(actions: seq<R.Action>, m: nat, n: nat, w: nat)
    requires m <= n <= |actions|
    ensures Begun(actions, m, w) <= Begun(actions, n, w)
  {
    if m < n {
      BegunGrows(actions, m, n - 1, w);
    }
  }

  lemma Associates<X>(a: seq<X>, b: seq<X>, c: seq<X>)
    ensures a + (b + c) == (a + b) + c
  {
  }

  lemma {:induction false} OfJobsConcat(a: seq<R.Job>, b: seq<R.Job>, c: string)
    ensures OfJobs(a + b, c) == OfJobs(a, c) + OfJobs(b, c)
  {
    if b == [] {
      assert a + b == a;
    } else {
      var init, job := b[..|b| - 1], b[|b| - 1];
      OfJobsConcat(a, init, c);
      OfJobsSnoc(a + init, job, c);
      Associates(a, init, [job]);
      Associates(OfJobs(a, c), OfJobs(init, c), OfJob(job, c));
      assert b == init + [job];
    }
  }

  lemma OfJobsPrefix(a: seq<R.Job>, b: seq<R.Job>, c: string)
    requires a <= b
    ensures OfJobs(a, c) <= OfJobs(b, c)
  {
    assert b == a + b[|a|..];
    OfJobsConcat(a, b[|a|..], c);
  }

  lemma PicksSnoc(pick: MsgData -> Option<MsgData>, ms: seq<MsgData>, m: MsgData)
    ensures Picks(pick, ms + [m]) == Picks(pick, ms) + Kept(pick(m))
  {
    assert (ms + [m])[..|ms|] == ms;
  }

  lemma PicksOneMore(pick: MsgData -> Option<MsgData>, a: seq<MsgData>, b: seq<MsgData>, m: MsgData)
    requires Picks(pick, a + b) == Picks(pick, a) + Picks(pick, b)
    ensures Picks(pick, a + (b + [m])) == Picks(pick, a) + Picks(pick, b + [m])
  {
    PicksSnoc(pick, a + b, m);
    PicksSnoc(pick, b, m);
    Associates(a, b, [m]);
    Associates(Picks(pick, a), Picks(pick, b), Kept(pick(m)));
  }

  lemma {:induction false} PicksConcat(pick: MsgData -> Option<MsgData>, a: seq<MsgData>, b: seq<MsgData>)
    ensures Picks(pick, a + b) == Picks(pick, a) + Picks(pick, b)
  {
    if b == [] {
      assert a + b == a;
    } else {
      var init, m := b[..|b| - 1], b[|b| - 1];
      PicksConcat(pick, a, init);
      PicksOneMore(pick, a, init, m);
      assert b == init + [m];
    }
  }

  // ----- What the commands of a worker store in one conversation -----

  /** The messages of a key that are stored, in the order its worker was given them. */
  function StoredInOrder(cmds: seq<P.Command>, k: string, chat: bool): seq<MsgData> {
    Picks(Pick(chat), Bodies(P.Carried(cmds, k)))
  }

  /** A command stores in conversation `c` exactly if it has key `k`, and then as what `chat` says. */
  predicate Files(cmd: P.Command, k: string, chat: bool, c: string) {
    && T.MessagesOf(cmd) != []
    && var first := T.MessagesOf(cmd)[0];
    && (IdOf(first, chat) == c <==> cmd.uniqueKey == k)
    && IdOf(first, !chat) != c
  }

  lemma OfTwoJobs(a: R.Job, b: R.Job, c: string)
    ensures OfJobs([a, b], c) == OfJob(a, c) + OfJob(b, c)
  {
    assert [a, b] == [] + [a] + [b];
    OfJobsSnoc([], a, c);
    OfJobsSnoc([] + [a], b, c);
  }

  lemma OneCommand(cmd: P.Command, k: string, chat: bool, c: string)
    requires Files(cmd, k, chat, c)
    ensures OfJobs(JobsOf(cmd), c) == if cmd.uniqueKey == k then Picks(Pick(chat), T.MessagesOf(cmd)) else []
  {
    var ms := T.MessagesOf(cmd);
    OfTwoJobs(ChatJob(ms), NotificationJob(ms), c);
  }

  lemma CarriedBodies(cmds: seq<P.Command>, cmd: P.Command, k: string)
    ensures Bodies(P.Carried(cmds + [cmd], k))
         == Bodies(P.Carried(cmds, k)) + if cmd.uniqueKey == k then T.MessagesOf(cmd) else []
  {
    P.CarriedSnoc(cmds, cmd, k);
  }

  lemma StoredSnoc(cmds: seq<P.Command>, cmd: P.Command, k: string, chat: bool)
    ensures StoredInOrder(cmds + [cmd], k, chat)
         == StoredInOrder(cmds, k, chat) + if cmd.uniqueKey == k then Picks(Pick(chat), T.MessagesOf(cmd)) else []
  {
    CarriedBodies(cmds, cmd, k);
    PicksConcat(Pick(chat), Bodies(P.Carried(cmds, k)), if cmd.uniqueKey == k then T.MessagesOf(cmd) else []);
  }

  lemma JobsSnoc(cmds: seq<P.Command>, cmd: P.Command, c: string)
    ensures OfJobs(AllJobs(cmds + [cmd]), c) == OfJobs(AllJobs(cmds), c) + OfJobs(JobsOf(cmd), c)
  {
    assert (cmds + [cmd])[..|cmds|] == cmds;
    OfJobsConcat(AllJobs(cmds), JobsOf(cmd), c);
  }

  lemma {:induction false} AllCommands(cmds: seq<P.Command>, k: string, chat: bool, c: string)
    requires forall j | 0 <= j < |cmds| :: Files(cmds[j], k, chat, c)
    ensures OfJobs(AllJobs(cmds), c) == StoredInOrder(cmds, k, chat)
  {
    if cmds != [] {
      var init, cmd := cmds[..|cmds| - 1], cmds[|cmds| - 1];
      assert cmds == init + [cmd];
      AllCommands(init, k, chat, c);
      JobsSnoc(init, cmd, c);
      OneCommand(cmd, k, chat, c);
      StoredSnoc(init, cmd, k, chat);
    }
  }

  // ----- End to end -----

  /** All messages of a key have one chat, or one notification, conversation. */
  ghost predicate OneConversation(taken: seq<P.Action>, k: string, chat: bool, c: string) {
    forall m | Taken(taken, m, k) :: IdOf(m, chat) == c
  }

  /**
   * They have while records are single chats and super group chats with underscore-free group ids; and
   * one notification conversation whenever conversations are named by their keys.
   */
  lemma OneConversationWhen(taken: seq<P.Action>, k: string, chat: bool, m: MsgData)
    requires Taken(taken, m, k)
    ensures AllKeyed(ChatKeyed, taken) ==> OneConversation(taken, k, chat, IdOf(m, chat))
    ensures AllKeyed(NamedKeyed, taken) ==> OneConversation(taken, k, false, IdOf(m, false))
  {
    if AllKeyed(ChatKeyed, taken) {
      forall n | Taken(taken, n, k) ensures IdOf(n, chat) == IdOf(m, chat) {
        TakenMeets(ChatKeyed, taken, m, k);
        TakenMeets(ChatKeyed, taken, n, k);
        assert ChatKeyed([m, n][0], k) && ChatKeyed([m, n][1], k);
        OneKeyOneType([m, n], k);
        assert [m, n][1].sessionType == [m, n][0].sessionType;
        SameKeySameChat(n, m);
      }
    }
    if AllKeyed(NamedKeyed, taken) {
      forall n | Taken(taken, n, k) ensures IdOf(n, false) == IdOf(m, false) {
        TakenMeets(NamedKeyed, taken, m, k);
        TakenMeets(NamedKeyed, taken, n, k);
        NamedKeysAgree(n, m);
      }
    }
  }

  lemma DeliveredFiles(
    hash: string -> nat, run: seq<P.State>, taken: seq<P.Action>, n: nat, w: nat, j: nat,
    m: MsgData, k: string, chat: bool)
    requires P.IsRun(hash, run, taken) && n < |run| && AllKeyed(Keyed, taken) && KeysApart(taken)
    requires Taken(taken, m, k) && OneConversation(taken, k, chat, IdOf(m, chat))
    requires w < |run[n].delivered| && j < |run[n].delivered[w]|
    ensures Files(run[n].delivered[w][j], k, chat, IdOf(m, chat))
  {
    var p := (m: MsgData, k: string) => Taken(taken, m, k);
    var cmd := run[n].delivered[w][j];
    AllTaken(taken);
    DeliveredMeets(hash, p, run, taken, n, w, j);
    var first := T.MessagesOf(cmd)[0];
    assert first in T.MessagesOf(cmd) && p(first, cmd.uniqueKey);
    FilesUnderItsKey(taken, first, cmd.uniqueKey, m, k, chat);
  }

  lemma FilesUnderItsKey(taken: seq<P.Action>, first: MsgData, l: string, m: MsgData, k: string, chat: bool)
    requires AllKeyed(Keyed, taken) && KeysApart(taken) && Taken(taken, m, k) && Taken(taken, first, l)
    requires OneConversation(taken, k, chat, IdOf(m, chat))
    ensures IdOf(first, chat) == IdOf(m, chat) <==> l == k
    ensures IdOf(first, !chat) != IdOf(m, chat)
  {
    TakenMeets(Keyed, taken, m, k);
    TakenMeets(Keyed, taken, first, l);
    ChatIsNotNotification(first, m);
    ChatIsNotNotification(m, first);
    if IdOf(first, chat) == IdOf(m, chat) {
      assert FiledUnder(first, IdOf(m, chat)) && FiledUnder(m, IdOf(m, chat));
    }
  }

  lemma OwnerIs(hash: string -> nat, taken: seq<P.Action>, m: MsgData, k: string, chat: bool)
    requires KeysApart(taken) && Taken(taken, m, k)
    ensures OwnerOf(hash, taken, IdOf(m, chat)) == P.ChannelOf(hash, k)
  {
    assert FiledUnder(m, IdOf(m, chat));
  }

  /** What an ordered worker has begun for a conversation is the beginning of what it was given. */
  lemma BegunIsDelivered(
    hash: string -> nat, run: seq<P.State>, taken: seq<P.Action>, n: nat, actions: seq<R.Action>, j: nat,
    m: MsgData, k: string, chat: bool)
    requires P.IsRun(hash, run, taken) && n < |run| && AllKeyed(Keyed, taken) && KeysApart(taken)
    requires Taken(taken, m, k) && OneConversation(taken, k, chat, IdOf(m, chat))
    requires ServesInOrder(run[n], actions) && j <= |actions|
    ensures P.ChannelOf(hash, k) < |run[n].delivered|
    ensures
      var w := P.ChannelOf(hash, k);
      var jobs, list := Begun(actions, j, w), StoredInOrder(run[n].delivered[w], k, chat);
      && OfJobs(jobs, IdOf(m, chat)) <= list
      && (jobs == AllJobs(run[n].delivered[w]) ==> OfJobs(jobs, IdOf(m, chat)) == list)
  {
    T.CommandsAreRouted(hash, run, taken, n);
    var w, c := P.ChannelOf(hash, k), IdOf(m, chat);
    var cmds := run[n].delivered[w];
    forall i | 0 <= i < |cmds| ensures Files(cmds[i], k, chat, c) {
      DeliveredFiles(hash, run, taken, n, w, i, m, k, chat);
    }
    AllCommands(cmds, k, chat, c);
    BegunGrows(actions, j, |actions|, w);
    OfJobsPrefix(Begun(actions, j, w), AllJobs(cmds), c);
  }

  /** What the numbers and pushes of `c` say about a list of messages. */
  ghost predicate NumberedFrom(d: R.Data, c: string, list: seq<MsgData>) {
    && S.Stored(d.maxSeq, c) <= |list|
    && (forall q | 1 <= q <= S.Stored(d.maxSeq, c) :: Has(d.given, Slot(c, q), list[q - 1].(seqNo := q)))
    && PushedFor(d.stored, c) <= Numbered(list, 0)
  }

  lemma OrderToList(
    owner: string -> nat, s: R.State, c: string, jobs: seq<R.Job>, log: seq<MsgData>, list: seq<MsgData>)
    requires InOrder(owner, s, c, jobs, log) && OfJobs(jobs, c) <= list
    ensures NumberedFrom(s.data, c, list)
    ensures OfJobs(jobs, c) == list && s.workers[owner(c)].Free? ==>
      S.Stored(s.data.maxSeq, c) == |list| && PushedFor(s.data.stored, c) == Numbered(list, 0)
  {
    assert log <= OfJobs(jobs, c) <= list;
    forall q | 1 <= q <= |log| ensures Has(s.data.given, Slot(c, q), list[q - 1].(seqNo := q)) {
      assert Has(s.data.given, Slot(c, q - 1 + 1), log[q - 1].(seqNo := q - 1 + 1));
    }
    assert Numbered(log, 0) <= Numbered(list, 0);
    if OfJobs(jobs, c) == list && s.workers[owner(c)].Free? {
      assert log + [] == log == list;
      assert PushedFor(s.data.stored, c) + [] == PushedFor(s.data.stored, c);
    }
  }

  /**
   * Transfer in order, end to end: let the workers serve what is delivered to them in that order, while
   * the sequence store answers, no command is too large and no push of a stored message fails. Then in
   * every state of every interleaving, number q of a conversation is with the q-th stored message that
   * was delivered for its key, and the stored messages are pushed in that order; once the worker has
   * served all and is free, all of them are numbered and pushed. For every claim the delivered messages
   * are in the order in which it accepted them, and all of them once the pipeline is drained.
   */
  lemma TransferInOrder(
    hash: string -> nat, run: seq<P.State>, taken: seq<P.Action>, n: nat,
    stores: seq<R.State>, actions: seq<R.Action>, j: nat, m: MsgData, k: string, chat: bool)
    requires P.IsRun(hash, run, taken) && n < |run| && AllKeyed(Keyed, taken) && KeysApart(taken)
    requires Taken(taken, m, k) && OneConversation(taken, k, chat, IdOf(m, chat))
    requires R.IsRun(stores, actions) && |stores[0].workers| == P.CHANNEL_NUM && j < |stores|
    requires ServesInOrder(run[n], actions)
    requires forall i | 0 <= i < j :: Numbering(stores[i], actions[i]) && Pushes(actions[i])
    ensures P.ChannelOf(hash, k) < |run[n].delivered| && P.ChannelOf(hash, k) < |stores[j].workers|
    ensures
      var w, c, d := P.ChannelOf(hash, k), IdOf(m, chat), stores[j].data;
      var list := StoredInOrder(run[n].delivered[w], k, chat);
      && NumberedFrom(d, c, list)
      && (Begun(actions, j, w) == AllJobs(run[n].delivered[w]) && stores[j].workers[w].Free? ==>
            S.Stored(d.maxSeq, c) == |list| && PushedFor(d.stored, c) == Numbered(list, 0))
    ensures forall cl ::
      P.OfClaim(P.Carried(run[n].delivered[P.ChannelOf(hash, k)], k), cl) <= P.Accepted(run[n], cl, k)
    ensures n == |run| - 1 && T.Stuck(hash, run[n]) ==> forall cl ::
      P.OfClaim(P.Carried(run[n].delivered[P.ChannelOf(hash, k)], k), cl) == P.Accepted(run[n], cl, k)
  {
    var owner, c := Owner(hash, taken), IdOf(m, chat);
    InOrderServes(run[n], actions);
    WorkersOwnConversations(hash, run, taken, n, actions);
    OwnerIs(hash, taken, m, k, chat);
    FirstInFirstOut(owner, stores, actions, j, c);
    BegunIsDelivered(hash, run, taken, n, actions, j, m, k, chat);
    OrderToList(owner, stores[j], c, Begun(actions, j, owner(c)), Log(stores, actions, j, c),
                StoredInOrder(run[n].delivered[owner(c)], k, chat));
    ClaimsInOrder(hash, run, taken, n, k);
  }

  lemma ClaimsInOrder(hash: string -> nat, run: seq<P.State>, taken: seq<P.Action>, n: nat, k: string)
    requires P.IsRun(hash, run, taken) && n < |run| && P.ChannelOf(hash, k) < |run[n].delivered|
    ensures forall cl ::
      P.OfClaim(P.Carried(run[n].delivered[P.ChannelOf(hash, k)], k), cl) <= P.Accepted(run[n], cl, k)
    ensures n == |run| - 1 && T.Stuck(hash, run[n]) ==> forall cl ::
      P.OfClaim(P.Carried(run[n].delivered[P.ChannelOf(hash, k)], k), cl) == P.Accepted(run[n], cl, k)
  {
    forall cl: nat
      ensures P.OfClaim(P.Carried(run[n].delivered[P.ChannelOf(hash, k)], k), cl) <= P.Accepted(run[n], cl, k)
      ensures n == |run| - 1 && T.Stuck(hash, run[n]) ==>
        P.OfClaim(P.Carried(run[n].delivered[P.ChannelOf(hash, k)], k), cl) == P.Accepted(run[n], cl, k)
    {
      T.PerKeyFifo(hash, run, taken, n, cl, k);
      if n == |run| - 1 && T.Stuck(hash, run[n]) {
        T.DrainedMeansDelivered(hash, run, taken, cl, k);
      }
    }
  }
}
