/**
 * The transfer process end to end: what the pipeline delivers to a channel worker, what the worker
 * makes of it (Run in internal/msgtransfer/online_history_msg_handler.go), and what storage then
 * guarantees.
 */
module Transfer {
  import opened Messages
  import opened ConversationIds
  import opened BatchSplit
  import opened Storage
  import S = SeqCaches
  import P = Pipeline
  import T = PipelineTheorems
  import R = StorageRuns
  import Steps = StorageSteps

  /** Records are keyed as the send handlers key them, whichever of their three session types they carry. */
  predicate Keyed(m: MsgData, k: string) {
    GenConversationUniqueKey(m) == k && HasKey(m)
  }

  /** The same, with underscore-free ids. */
  predicate PlainKeyed(m: MsgData, k: string) {
    Keyed(m, k) && PlainIds(m)
  }

  /** The same, where a server notification chat goes along its key or reads the same either way round. */
  predicate NamedKeyed(m: MsgData, k: string) {
    Keyed(m, k) && NamedByKey(m)
  }

  /** The same, without server notification chats and with underscore-free group ids. */
  predicate ChatKeyed(m: MsgData, k: string) {
    Keyed(m, k) && m.sessionType != NOTIFICATION_CHAT && (m.sessionType == SUPER_GROUP_CHAT ==> Plain(m.groupID))
  }

  ghost predicate AllKeyed(p: (MsgData, string) -> bool, actions: seq<P.Action>) {
    forall i | 0 <= i < |actions| && actions[i].Consume? :: T.RecordsMeet(p, [actions[i].r])
  }

  // ----- What a worker is given -----

  /** A delivered command carries messages that all belong to its key, and its key to its worker. */
  lemma DeliveredMeets(
    hash: string -> nat, p: (MsgData, string) -> bool, run: seq<P.State>, actions: seq<P.Action>,
    n: nat, i: nat, j: nat)
    requires P.IsRun(hash, run, actions) && n < |run| && AllKeyed(p, actions)
    requires i < |run[n].delivered| && j < |run[n].delivered[i]|
    ensures
      var cmd := run[n].delivered[i][j];
      && P.ChannelOf(hash, cmd.uniqueKey) == i && T.MessagesOf(cmd) != []
      && forall m <- T.MessagesOf(cmd) :: p(m, cmd.uniqueKey)
  {
    T.CommandsAreRouted(hash, run, actions, n);
    T.RunKeepsLabels(hash, p, run, actions, n);
    var cmd := run[n].delivered[i][j];
    assert T.AllMeet(p, cmd.ctxMsgList, cmd.uniqueKey);
    forall m <- T.MessagesOf(cmd) ensures p(m, cmd.uniqueKey) {
      var q :| 0 <= q < |T.MessagesOf(cmd)| && T.MessagesOf(cmd)[q] == m;
      assert m == cmd.ctxMsgList[q].message;
    }
  }

  lemma OneKeyOneType(ms: seq<MsgData>, k: string)
    requires ms != [] && forall m <- ms :: ChatKeyed(m, k)
    ensures Uniform(ms)
  {
    assert ms[0] in ms && ChatKeyed(ms[0], k);
    forall q | 0 <= q < |ms|
      ensures ms[q].sessionType == ms[0].sessionType
      ensures GenConversationUniqueKey(ms[q]) == GenConversationUniqueKey(ms[0])
    {
      assert ChatKeyed(ms[q], k) && ChatKeyed(ms[0], k);
      if ms[q].sessionType == SINGLE_CHAT && ms[0].sessionType == SUPER_GROUP_CHAT {
        PlainGroupKeyIsNotSingle(ms[q], ms[0]);
      }
      if ms[0].sessionType == SINGLE_CHAT && ms[q].sessionType == SUPER_GROUP_CHAT {
        PlainGroupKeyIsNotSingle(ms[0], ms[q]);
      }
    }
  }

  /**
   * End to end: while the records are single chats and super group chats with underscore-free group
   * ids, then in every run everything a worker files of any command, clones included, goes to its own
   * conversation.
   */
  lemma DeliveredBatchesAreRouted(
    hash: string -> nat, run: seq<P.State>, actions: seq<P.Action>, n: nat, i: nat, j: nat)
    requires P.IsRun(hash, run, actions) && n < |run| && AllKeyed(ChatKeyed, actions)
    requires i < |run[n].delivered| && j < |run[n].delivered[i]|
    ensures
      var ms := T.MessagesOf(run[n].delivered[i][j]);
      Uniform(ms) && Routed(ms)
  {
    var cmd := run[n].delivered[i][j];
    DeliveredMeets(hash, ChatKeyed, run, actions, n, i, j);
    OneKeyOneType(T.MessagesOf(cmd), cmd.uniqueKey);
    RoutingAgrees(T.MessagesOf(cmd));
  }

  /**
   * With server notification chats too, whatever the ids contain, each message is filed right exactly
   * when RoutingExact says so: when its peer, and for a chat message its type, is that of the first.
   */
  lemma DeliveredRoutedExactly(
    hash: string -> nat, run: seq<P.State>, actions: seq<P.Action>, n: nat, i: nat, j: nat, input: MsgData, m: MsgData)
    requires P.IsRun(hash, run, actions) && n < |run| && AllKeyed(Keyed, actions)
    requires i < |run[n].delivered| && j < |run[n].delivered[i]|
    requires input in T.MessagesOf(run[n].delivered[i][j])
    ensures
      var first := T.MessagesOf(run[n].delivered[i][j])[0];
      && (ToStorageMsg(input) == Some(m) || ToNotStorageMsg(input) == Some(m) ==>
            (GetConversationIDByMsg(m) == GetChatConversationIDByMsg(first)
             <==> first.sessionType == input.sessionType && Peer(input) == Peer(first)))
      && (ToStorageNotification(input) == Some(m) || ToNotStorageNotification(input) == Some(m) ==>
            (GetConversationIDByMsg(m) == GetNotificationConversationIDByMsg(first) <==> Peer(input) == Peer(first)))
      && (PlainIds(input) && PlainIds(first) ==> (Peer(input) == Peer(first) <==> (Along(input) <==> Along(first))))
      && (NamedByKey(input) && NamedByKey(first) ==> Peer(input) == Peer(first))
  {
    var cmd := run[n].delivered[i][j];
    DeliveredMeets(hash, Keyed, run, actions, n, i, j);
    var first := T.MessagesOf(cmd)[0];
    assert first in T.MessagesOf(cmd);
    RoutingExact(first, input, m);
    SameKeySamePeer(input, first);
    NamedByKeyExactly(input);
    NamedByKeyExactly(first);
  }

  // ----- What a worker does with it -----

  /** Run, for one command: split it, then store and push its chat messages, then its notifications. */
  method RunCommand(db: MsgDatabase, ms: seq<MsgData>, f: Faults, g: Faults)
    returns (modifyMsgList: seq<MsgData>)
    requires ms != []
    modifies db, db.seqs
    ensures db.View() == CommandStores(old(db.View()), ms, f, g)
    ensures db.singleMsgSuccessCount + db.singleMsgFailedCount
         == old(db.singleMsgSuccessCount) + old(db.singleMsgFailedCount) + |Picks(ToStorageMsg, ms)|
    ensures modifyMsgList == Picks(ToModify, ms)
  {
    var storageMsgList, notStorageMsgList, storageNotificationList, notStorageNotificationList;
    storageMsgList, notStorageMsgList, storageNotificationList, notStorageNotificationList, modifyMsgList
      := GetPushStorageMsgList(ms);
    var conversationIDMsg := GetChatConversationIDByMsg(ms[0]);
    var conversationIDNotification := GetNotificationConversationIDByMsg(ms[0]);
    db.HandleMsg(conversationIDMsg, storageMsgList, notStorageMsgList, f);
    db.HandleNotification(conversationIDNotification, storageNotificationList, notStorageNotificationList, g);
  }

  function ChatStores(s: Stores, ms: seq<MsgData>, f: Faults): Stores
    requires ms != []
  {
    HandledStores(s, GetChatConversationIDByMsg(ms[0]), Picks(ToStorageMsg, ms), Picks(ToNotStorageMsg, ms), f)
  }

  function CommandStores(s: Stores, ms: seq<MsgData>, f: Faults, g: Faults): Stores
    requires ms != []
  {
    HandledStores(ChatStores(s, ms, f), GetNotificationConversationIDByMsg(ms[0]),
                  Picks(ToStorageNotification, ms), Picks(ToNotStorageNotification, ms), g)
  }

  lemma HandledMax(
    s: Stores, conversationID: string, storageList: seq<MsgData>, notStorageList: seq<MsgData>, f: Faults, c: string)
    ensures S.Stored(HandledStores(s, conversationID, storageList, notStorageList, f).maxSeq, c)
         == S.Stored(s.maxSeq, c) + if c == conversationID && Numbers(storageList, f) then |storageList| else 0
  {
  }

  lemma ChatIsNotNotification(m: MsgData, n: MsgData)
    requires KnownSession(m) && KnownSession(n)
    ensures GetChatConversationIDByMsg(m) != GetNotificationConversationIDByMsg(n)
  {
    IdShape(m);
    IdShape(n);
    PrefixUnique(Prefix(m.sessionType), Peer(m), "n", Peer(n));
  }

  /**
   * Numbered if they fit: the stored chat messages of a command get numbers if and only if there are at
   * most a hundred of them and the sequence store answers, all of them or none; and so do its stored
   * notifications.
   */
  lemma NumberedIfTheyFit(s: Stores, ms: seq<MsgData>, f: Faults, g: Faults)
    requires ms != [] && KnownSession(ms[0])
    ensures
      var t, chats := CommandStores(s, ms, f, g), |Picks(ToStorageMsg, ms)|;
      var chat := GetChatConversationIDByMsg(ms[0]);
      S.Stored(t.maxSeq, chat)
      == S.Stored(s.maxSeq, chat) + if chats <= 100 && !f.getMaxSeq && !f.setMaxSeq then chats else 0
    ensures
      var t, notes := CommandStores(s, ms, f, g), |Picks(ToStorageNotification, ms)|;
      var notification := GetNotificationConversationIDByMsg(ms[0]);
      S.Stored(t.maxSeq, notification)
      == S.Stored(s.maxSeq, notification)
         + if notes <= 100 && !g.getMaxSeq && !g.setMaxSeq then notes else 0
  {
    ChatIsNotNotification(ms[0], ms[0]);
    var chat, notification := GetChatConversationIDByMsg(ms[0]), GetNotificationConversationIDByMsg(ms[0]);
    var u := ChatStores(s, ms, f);
    HandledMax(s, chat, Picks(ToStorageMsg, ms), Picks(ToNotStorageMsg, ms), f, chat);
    HandledMax(s, chat, Picks(ToStorageMsg, ms), Picks(ToNotStorageMsg, ms), f, notification);
    HandledMax(u, notification, Picks(ToStorageNotification, ms), Picks(ToNotStorageNotification, ms), g, chat);
    HandledMax(u, notification, Picks(ToStorageNotification, ms), Picks(ToNotStorageNotification, ms), g, notification);
  }

  lemma {:induction false} AllStored(ms: seq<MsgData>)
    requires forall m <- ms :: !IsNotificationMsg(m) && BatchSplit.Stored(m)
    ensures Picks(ToStorageMsg, ms) == ms
  {
    if ms != [] {
      assert ms == ms[..|ms| - 1] + [ms[|ms| - 1]];
      AllStored(ms[..|ms| - 1]);
      assert ms[|ms| - 1] in ms;
    }
  }

  /**
   * And a worker can be given more than fit: records of one stored chat message, more than a hundred in
   * one chunk, reach it as one command, none of whose messages ever gets a number, whatever works.
   */
  lemma OversizedCommand(hash: string -> nat, m: MsgData, size: nat)
    returns (run: seq<P.State>, actions: seq<P.Action>)
    requires Keyed(m, GenConversationUniqueKey(m)) && !IsNotificationMsg(m) && BatchSplit.Stored(m)
    requires 100 < size <= 1000
    ensures P.IsRun(hash, run, actions) && AllKeyed(Keyed, actions)
    ensures
      var i := P.ChannelOf(hash, GenConversationUniqueKey(m));
      && i < |run[|actions|].delivered| && |run[|actions|].delivered[i]| == 1
      && var ms := T.MessagesOf(run[|actions|].delivered[i][0]);
      && |Picks(ToStorageMsg, ms)| == size
      && forall s, f, g :: NoneNumbered(s, ms, f, g, m)
  {
    var k := GenConversationUniqueKey(m);
    var r := P.Record(0, k, 1, Some(m));
    var rs := seq(size, _ => r);
    assert T.OneKey(rs, k);
    run, actions := T.OneCommandRun(hash, rs, k);
    forall i | 0 <= i < |actions| && actions[i].Consume? ensures T.RecordsMeet(Keyed, [actions[i].r]) {
      assert actions[i].r == r;
    }
    DecodedCopies(rs, k, m, size);
  }

  lemma DecodedCopies(rs: seq<P.Record>, k: string, m: MsgData, size: nat)
    requires Keyed(m, k) && !IsNotificationMsg(m) && BatchSplit.Stored(m) && T.OneKey(rs, k)
    requires SINGLE_GOC_MSG_NUM < size == |rs| && forall i | 0 <= i < size :: rs[i].body == Some(m)
    ensures var ms := T.MessagesOf(P.Command(k, P.Decode(rs, k)));
      |Picks(ToStorageMsg, ms)| == size && forall s, f, g :: NoneNumbered(s, ms, f, g, m)
  {
    T.DecodeOneKey(rs, k);
    Copies(P.Command(k, P.Decode(rs, k)), m, size);
  }

  /** A command with copies of one stored chat message, more than fit. */
  lemma Copies(cmd: P.Command, m: MsgData, size: nat)
    requires Keyed(m, GenConversationUniqueKey(m)) && !IsNotificationMsg(m) && BatchSplit.Stored(m)
    requires SINGLE_GOC_MSG_NUM < size == |cmd.ctxMsgList|
    requires forall i | 0 <= i < size :: cmd.ctxMsgList[i].message == m
    ensures |Picks(ToStorageMsg, T.MessagesOf(cmd))| == size
    ensures forall s, f, g :: NoneNumbered(s, T.MessagesOf(cmd), f, g, m)
  {
    var ms := T.MessagesOf(cmd);
    assert ms[0] == m;
    AllStored(ms);
    forall s, f, g ensures NoneNumbered(s, ms, f, g, m) {
      NumberedIfTheyFit(s, ms, f, g);
    }
  }

  ghost predicate NoneNumbered(s: Stores, ms: seq<MsgData>, f: Faults, g: Faults, m: MsgData) {
    ms != [] && S.Stored(CommandStores(s, ms, f, g).maxSeq, GetChatConversationIDByMsg(m))
             == S.Stored(s.maxSeq, GetChatConversationIDByMsg(m))
  }

  // ----- Every conversation has an owner -----

  /** The pipeline took `m` from a record with key `k`. */
  ghost predicate Taken(taken: seq<P.Action>, m: MsgData, k: string) {
    exists i :: 0 <= i < |taken| && taken[i].Consume? && taken[i].r.body == Some(m) && taken[i].r.key == k
  }

  predicate FiledUnder(m: MsgData, id: string) {
    id == GetChatConversationIDByMsg(m) || id == GetNotificationConversationIDByMsg(m)
  }

  /** Records whose messages share a conversation have one key. */
  ghost predicate KeysApart(taken: seq<P.Action>) {
    forall m, k, n, l, id | Taken(taken, m, k) && Taken(taken, n, l) && FiledUnder(m, id) && FiledUnder(n, id) ::
      k == l
  }

  lemma ShareExactly(m: MsgData, n: MsgData)
    requires HasKey(m) && HasKey(n)
    ensures (exists id :: FiledUnder(m, id) && FiledUnder(n, id)) <==> Peer(m) == Peer(n)
  {
    ChatIdsSeparate(m, n);
    SamePeerSameNotification(m, n);
    ChatIsNotNotification(m, n);
    ChatIsNotNotification(n, m);
    if Peer(m) == Peer(n) {
      assert FiledUnder(m, GetNotificationConversationIDByMsg(m));
    }
  }

  lemma TakenMeets(p: (MsgData, string) -> bool, taken: seq<P.Action>, m: MsgData, k: string)
    requires AllKeyed(p, taken) && Taken(taken, m, k)
    ensures p(m, k)
  {
    var i :| 0 <= i < |taken| && taken[i].Consume? && taken[i].r.body == Some(m) && taken[i].r.key == k;
    assert taken[i].r == [taken[i].r][0];
  }

  /**
   * Keys are apart while all ids are underscore-free, and for any ids whatever while every server
   * notification chat goes along its key or reads the same either way round.
   */
  lemma KeysApartWhen(taken: seq<P.Action>)
    ensures AllKeyed(PlainKeyed, taken) || AllKeyed(NamedKeyed, taken) ==> KeysApart(taken)
  {
    if AllKeyed(PlainKeyed, taken) {
      forall m, k, n, l, id | Taken(taken, m, k) && Taken(taken, n, l) && FiledUnder(m, id) && FiledUnder(n, id)
        ensures k == l
      {
        TakenMeets(PlainKeyed, taken, m, k);
        TakenMeets(PlainKeyed, taken, n, l);
        IdTellsKey(m);
        IdTellsKey(n);
      }
    }
    if AllKeyed(NamedKeyed, taken) {
      forall m, k, n, l, id | Taken(taken, m, k) && Taken(taken, n, l) && FiledUnder(m, id) && FiledUnder(n, id)
        ensures k == l
      {
        TakenMeets(NamedKeyed, taken, m, k);
        TakenMeets(NamedKeyed, taken, n, l);
        ShareExactly(m, n);
        NamedByKeyExactly(m);
        NamedByKeyExactly(n);
      }
    }
  }

  /** The worker a conversation belongs to: that of the key of a record filed under it. */
  ghost function OwnerOf(hash: string -> nat, taken: seq<P.Action>, id: string): nat {
    if m, k :| Taken(taken, m, k) && FiledUnder(m, id) then P.ChannelOf(hash, k) else 0
  }

  ghost function Owner(hash: string -> nat, taken: seq<P.Action>): string -> nat {
    id => OwnerOf(hash, taken, id)
  }

  /** What a worker submits for one command. */
  function ChatJob(ms: seq<MsgData>): R.Job
    requires ms != []
  {
    R.Job(GetChatConversationIDByMsg(ms[0]), Picks(ToStorageMsg, ms), Picks(ToNotStorageMsg, ms), true)
  }

  function NotificationJob(ms: seq<MsgData>): R.Job
    requires ms != []
  {
    R.Job(GetNotificationConversationIDByMsg(ms[0]), Picks(ToStorageNotification, ms),
          Picks(ToNotStorageNotification, ms), false)
  }

  /**
   * The two jobs are the command: a worker left alone that takes the chat job and then the notification
   * job through their single steps reaches the very stores RunCommand promises, whatever fails.
   */
  lemma CommandBySteps(s: R.State, w: nat, ms: seq<MsgData>, f: Faults, g: Faults) returns (t: R.State)
    requires w < |s.workers| && s.workers[w].Free? && ms != []
    ensures Steps.Reaches(s, t) && t.workers == s.workers && t.consumers == s.consumers
    ensures Steps.StoresOf(t.data) == CommandStores(Steps.StoresOf(s.data), ms, f, g)
    ensures t.data.success + t.data.failed == s.data.success + s.data.failed + |Picks(ToStorageMsg, ms)|
  {
    var m := s.(data := Steps.AfterJob(s.data, ChatJob(ms), f));
    t := m.(data := Steps.AfterJob(m.data, NotificationJob(ms), g));
    Steps.HandledBySteps(s, w, ChatJob(ms), f);
    Steps.HandledBySteps(m, w, NotificationJob(ms), g);
    ReachesBoth(s, m, t);
  }

  lemma ReachesBoth(s: R.State, m: R.State, t: R.State)
    requires Steps.Reaches(s, m) && Steps.Reaches(m, t)
    ensures Steps.Reaches(s, t)
  {
    var run, actions :| Steps.IsPath(run, actions, m, t);
    ReachesAlong(s, run, actions, |actions|);
  }

  lemma {:induction false} ReachesAlong(s: R.State, run: seq<R.State>, actions: seq<R.Action>, n: nat)
    requires |run| == |actions| + 1 && Steps.Reaches(s, run[0]) && n < |run|
    requires forall i | 0 <= i < |actions| :: R.Step(run[i], actions[i], run[i + 1])
    ensures Steps.Reaches(s, run[n])
  {
    if n > 0 {
      ReachesAlong(s, run, actions, n - 1);
      Steps.ReachesStep(s, run[n - 1], actions[n - 1], run[n]);
    }
  }

  ghost predicate IsJobOf(p: P.State, w: nat, j: nat, job: R.Job) {
    && w < |p.delivered| && j < |p.delivered[w]|
    && var ms := T.MessagesOf(p.delivered[w][j]);
    && ms != [] && (job == ChatJob(ms) || job == NotificationJob(ms))
  }

  /** The workers of a storage run do what a pipeline delivered to them, in any order. */
  ghost predicate Serves(p: P.State, actions: seq<R.Action>) {
    forall i | 0 <= i < |actions| && actions[i].Worker? && actions[i].work.Begin? ::
      exists j: nat :: IsJobOf(p, actions[i].w, j, actions[i].work.job)
  }

  /** While keys are apart no two workers are ever given jobs for one conversation. */
  lemma WorkersOwnConversations(
    hash: string -> nat, run: seq<P.State>, taken: seq<P.Action>, n: nat, actions: seq<R.Action>)
    requires P.IsRun(hash, run, taken) && n < |run| && KeysApart(taken)
    requires Serves(run[n], actions)
    ensures R.Owned(Owner(hash, taken), actions)
  {
    forall i | 0 <= i < |actions| ensures R.ByOwner(Owner(hash, taken), actions[i]) {
      if actions[i].Worker? && actions[i].work.Begin? {
        var j: nat :| IsJobOf(run[n], actions[i].w, j, actions[i].work.job);
        JobIsOwned(hash, run, taken, n, actions[i].w, j, actions[i].work.job);
      }
    }
  }

  lemma JobIsOwned(
    hash: string -> nat, run: seq<P.State>, taken: seq<P.Action>, n: nat, w: nat, j: nat, job: R.Job)
    requires P.IsRun(hash, run, taken) && n < |run| && KeysApart(taken)
    requires IsJobOf(run[n], w, j, job)
    ensures OwnerOf(hash, taken, job.conversationID) == w
  {
    var p := (m: MsgData, k: string) => Taken(taken, m, k);
    AllTaken(taken);
    DeliveredMeets(hash, p, run, taken, n, w, j);
    var cmd := run[n].delivered[w][j];
    var first := T.MessagesOf(cmd)[0];
    assert first in T.MessagesOf(cmd) && p(first, cmd.uniqueKey);
    assert Taken(taken, first, cmd.uniqueKey) && FiledUnder(first, job.conversationID);
  }

  lemma AllTaken(taken: seq<P.Action>)
    ensures AllKeyed((m: MsgData, k: string) => Taken(taken, m, k), taken)
  {
  }

  /**
   * Transfer safety, end to end: let records whose keys are apart run through the pipeline in any
   * interleaving, and let its workers and the Mongo consumers do what they are given in any
   * interleaving of their single store operations, with any failures. Then no two messages are ever
   * pushed as stored under one number, every number up to the newest belongs to one message, and the
   * counters account for every chat message but those under way.
   */
  lemma TransferSafety(
    hash: string -> nat, run: seq<P.State>, taken: seq<P.Action>, n: nat,
    stores: seq<R.State>, actions: seq<R.Action>, k: nat)
    requires P.IsRun(hash, run, taken) && n < |run| && KeysApart(taken)
    requires R.IsRun(stores, actions) && Serves(run[n], actions) && k < |stores|
    ensures var d := stores[k].data;
      && (forall slot: Slot :: slot in d.given <==> 1 <= slot.seqNo <= S.Stored(d.maxSeq, slot.conversationID))
      && (forall p, q | p in d.stored && q in d.stored ::
            p.conversationID == q.conversationID && p.msg.seqNo == q.msg.seqNo ==> p == q)
      && d.success + d.failed == d.submitted - R.InProgress(stores[k].workers)
  {
    WorkersOwnConversations(hash, run, taken, n, actions);
    R.StorageSafety(Owner(hash, taken), stores, actions, k);
  }

  /** And while cache and Mongo take what they are given, every number can be read back at any moment. */
  lemma TransferLosesNothing(
    hash: string -> nat, run: seq<P.State>, taken: seq<P.Action>, n: nat,
    stores: seq<R.State>, actions: seq<R.Action>, k: nat)
    requires P.IsRun(hash, run, taken) && n < |run| && KeysApart(taken)
    requires R.IsRun(stores, actions) && Serves(run[n], actions) && k < |stores|
    requires forall i | 0 <= i < k :: R.Harmless(stores[i], actions[i])
    ensures forall slot: Slot | 1 <= slot.seqNo <= S.Stored(stores[k].data.maxSeq, slot.conversationID) ::
      slot in stores[k].data.given && R.Readable(stores[k], slot)
  {
    WorkersOwnConversations(hash, run, taken, n, actions);
    R.NothingStoredIsLost(Owner(hash, taken), stores, actions, k);
  }
}
