/**
 * What a channel worker does with one command: splitting it into stored and unstored chat messages
 * and notifications (getPushStorageMsgList), and the conversation ids it files them under (Run).
 */
module BatchSplit {
  import opened Messages
  import opened ConversationIds

  /** isStorage. */
  predicate Stored(m: MsgData) {
    Is(m.options, IS_HISTORY)
  }

  predicate Cloned(m: MsgData) {
    IsNotificationMsg(m) && Is(m.options, IS_SEND_MSG)
  }

  /** A notification after it was cloned: neither pushed offline nor counted as unread. */
  function Quieted(m: MsgData): MsgData {
    m.(options := m.options[IS_OFFLINE_PUSH := false][IS_UNREAD_COUNT := false])
  }

  /** What becomes of an input message itself. */
  function After(m: MsgData): MsgData {
    if Cloned(m) then Quieted(m) else m
  }

  /** The chat message made from a notification. */
  function Clone(m: MsgData): MsgData {
    var o := if Is(m.options, IS_OFFLINE_PUSH) then NewMsgOptions()[IS_OFFLINE_PUSH := true] else NewMsgOptions();
    m.(options := if Is(m.options, IS_UNREAD_COUNT) then o[IS_UNREAD_COUNT := true] else o)
  }

  /** What one input message contributes to each list: at most one message. */
  function ToStorageMsg(m: MsgData): Option<MsgData> {
    if Cloned(m) then Some(Clone(m))
    else if !IsNotificationMsg(m) && Stored(m) then Some(m) else None
  }

  function ToNotStorageMsg(m: MsgData): Option<MsgData> {
    if !IsNotificationMsg(m) && !Stored(m) then Some(m) else None
  }

  function ToStorageNotification(m: MsgData): Option<MsgData> {
    if IsNotificationMsg(m) && Stored(m) then Some(After(m)) else None
  }

  function ToNotStorageNotification(m: MsgData): Option<MsgData> {
    if IsNotificationMsg(m) && !Stored(m) then Some(After(m)) else None
  }

  function ToModify(m: MsgData): Option<MsgData> {
    if m.contentType in {REACTION_MESSAGE_MODIFIER, REACTION_MESSAGE_DELETER} then Some(After(m)) else None
  }

  function ToClone(m: MsgData): Option<MsgData> {
    if Cloned(m) then Some(Clone(m)) else None
  }

  function Kept(o: Option<MsgData>): seq<MsgData> {
    if o.Some? then [o.value] else []
  }

  /** The contributions of a whole batch, in input order. */
  function Picks(pick: MsgData -> Option<MsgData>, ms: seq<MsgData>): seq<MsgData> {
    if ms == [] then [] else Picks(pick, ms[..|ms| - 1]) + Kept(pick(ms[|ms| - 1]))
  }

  lemma PicksStep(pick: MsgData -> Option<MsgData>, ms: seq<MsgData>, i: nat)
    requires i < |ms|
    ensures Picks(pick, ms[..i + 1]) == Picks(pick, ms[..i]) + Kept(pick(ms[i]))
  {
    assert ms[..i + 1][..i] == ms[..i];
  }

  lemma FlagsDistinct()
    ensures IS_OFFLINE_PUSH != IS_UNREAD_COUNT
    ensures IS_HISTORY !in {IS_OFFLINE_PUSH, IS_UNREAD_COUNT}
    ensures IS_NOT_NOTIFICATION !in {IS_OFFLINE_PUSH, IS_UNREAD_COUNT}
  {
    assert IS_OFFLINE_PUSH[0] == 'o' && IS_UNREAD_COUNT[0] == 'u';
    assert IS_HISTORY[0] == 'h' && IS_NOT_NOTIFICATION[0] == 'i';
  }

  /** The cloning branch of the loop: what it makes of the notification, and the clone. */
  method CloneNotification(notification: MsgData) returns (message: MsgData, msg: MsgData)
    ensures message == Quieted(notification) && msg == Clone(notification)
    ensures Stored(message) == Stored(notification)
  {
    FlagsDistinct();
    message := notification;
    msg := message.(options := NewMsgOptions());
    if Is(message.options, IS_OFFLINE_PUSH) {
      message := message.(options := message.options[IS_OFFLINE_PUSH := false]);
      msg := msg.(options := msg.options[IS_OFFLINE_PUSH := true]);
    }
    assert message.options == notification.options[IS_OFFLINE_PUSH := false];
    if Is(message.options, IS_UNREAD_COUNT) {
      message := message.(options := message.options[IS_UNREAD_COUNT := false]);
      msg := msg.(options := msg.options[IS_UNREAD_COUNT := true]);
    }
    assert message.options == notification.options[IS_OFFLINE_PUSH := false][IS_UNREAD_COUNT := false];
  }

  /**
   * getPushStorageMsgList. The options map of a notification is changed in place in the source;
   * here the changed message takes its place in the output lists.
   */
  method GetPushStorageMsgList(totalMsgs: seq<MsgData>)
    returns (storageMsgList: seq<MsgData>, notStorageMsgList: seq<MsgData>,
             storageNotificationList: seq<MsgData>, notStorageNotificationList: seq<MsgData>,
             modifyMsgList: seq<MsgData>)
    ensures storageMsgList == Picks(ToStorageMsg, totalMsgs)
    ensures notStorageMsgList == Picks(ToNotStorageMsg, totalMsgs)
    ensures storageNotificationList == Picks(ToStorageNotification, totalMsgs)
    ensures notStorageNotificationList == Picks(ToNotStorageNotification, totalMsgs)
    ensures modifyMsgList == Picks(ToModify, totalMsgs)
  {
    storageMsgList, notStorageMsgList := [], [];
    storageNotificationList, notStorageNotificationList := [], [];
    modifyMsgList := [];
    for i := 0 to |totalMsgs|
      invariant storageMsgList == Picks(ToStorageMsg, totalMsgs[..i])
      invariant notStorageMsgList == Picks(ToNotStorageMsg, totalMsgs[..i])
      invariant storageNotificationList == Picks(ToStorageNotification, totalMsgs[..i])
      invariant notStorageNotificationList == Picks(ToNotStorageNotification, totalMsgs[..i])
      invariant modifyMsgList == Picks(ToModify, totalMsgs[..i])
    {
      PicksStep(ToStorageMsg, totalMsgs, i);
      PicksStep(ToNotStorageMsg, totalMsgs, i);
      PicksStep(ToStorageNotification, totalMsgs, i);
      PicksStep(ToNotStorageNotification, totalMsgs, i);
      PicksStep(ToModify, totalMsgs, i);
      var message := totalMsgs[i];
      if !Is(message.options, IS_NOT_NOTIFICATION) {
        if Is(message.options, IS_SEND_MSG) {
          var msg;
          message, msg := CloneNotification(message);
          storageMsgList := storageMsgList + [msg];
        }
        if Is(message.options, IS_HISTORY) {
          storageNotificationList := storageNotificationList + [message];
        } else {
          notStorageNotificationList := notStorageNotificationList + [message];
        }
      } else {
        if Is(message.options, IS_HISTORY) {
          storageMsgList := storageMsgList + [message];
        } else {
          notStorageMsgList := notStorageMsgList + [message];
        }
      }
      if message.contentType == REACTION_MESSAGE_MODIFIER || message.contentType == REACTION_MESSAGE_DELETER {
        modifyMsgList := modifyMsgList + [message];
      }
    }
    assert totalMsgs[..|totalMsgs|] == totalMsgs;
  }

  // ----- What the split conserves -----

  function ToAfter(m: MsgData): Option<MsgData> {
    Some(After(m))
  }

  function Bag(pick: MsgData -> Option<MsgData>, ms: seq<MsgData>): multiset<MsgData> {
    multiset(Picks(pick, ms))
  }

  /**
   * Conservation: together the four lists hold each input once (as it is after the split) and one
   * clone for each cloned notification, and nothing else.
   */
  lemma SplitConserves(ms: seq<MsgData>)
    ensures Bag(ToStorageMsg, ms) + Bag(ToNotStorageMsg, ms)
            + Bag(ToStorageNotification, ms) + Bag(ToNotStorageNotification, ms)
         == Bag(ToAfter, ms) + Bag(ToClone, ms)
    ensures |Picks(ToAfter, ms)| == |ms| && forall i | 0 <= i < |ms| :: Picks(ToAfter, ms)[i] == After(ms[i])
  {
    forall m: MsgData
      ensures multiset(Kept(ToStorageMsg(m))) + multiset(Kept(ToNotStorageMsg(m)))
              + multiset(Kept(ToStorageNotification(m))) + multiset(Kept(ToNotStorageNotification(m)))
           == multiset(Kept(ToAfter(m))) + multiset(Kept(ToClone(m)))
    {
      SplitOneConserves(m);
    }
    BagsAgree(ToStorageMsg, ToNotStorageMsg, ToStorageNotification, ToNotStorageNotification, ToAfter, ToClone, ms);
    PicksAll(ms);
  }

  lemma {:induction false} PicksAll(ms: seq<MsgData>)
    ensures |Picks(ToAfter, ms)| == |ms| && forall i | 0 <= i < |ms| :: Picks(ToAfter, ms)[i] == After(ms[i])
  {
    if ms != [] {
      PicksAll(ms[..|ms| - 1]);
    }
  }

  /** Selections that conserve every single message conserve every batch. */
  lemma {:induction false} BagsAgree(
    a: MsgData -> Option<MsgData>, b: MsgData -> Option<MsgData>, c: MsgData -> Option<MsgData>,
    d: MsgData -> Option<MsgData>, x: MsgData -> Option<MsgData>, y: MsgData -> Option<MsgData>, ms: seq<MsgData>)
    requires forall m :: multiset(Kept(a(m))) + multiset(Kept(b(m))) + multiset(Kept(c(m))) + multiset(Kept(d(m)))
                      == multiset(Kept(x(m))) + multiset(Kept(y(m)))
    ensures Bag(a, ms) + Bag(b, ms) + Bag(c, ms) + Bag(d, ms) == Bag(x, ms) + Bag(y, ms)
  {
    if ms != [] {
      var init, m := ms[..|ms| - 1], ms[|ms| - 1];
      BagsAgree(a, b, c, d, x, y, init);
      SumAdds(Bag(a, init), Bag(b, init), Bag(c, init), Bag(d, init), Bag(x, init), Bag(y, init),
              multiset(Kept(a(m))), multiset(Kept(b(m))), multiset(Kept(c(m))), multiset(Kept(d(m))),
              multiset(Kept(x(m))), multiset(Kept(y(m))));
    }
  }

  lemma SumAdds<T>(a: multiset<T>, b: multiset<T>, c: multiset<T>, d: multiset<T>, x: multiset<T>, y: multiset<T>,
                   a': multiset<T>, b': multiset<T>, c': multiset<T>, d': multiset<T>, x': multiset<T>, y': multiset<T>)
    requires a + b + c + d == x + y && a' + b' + c' + d' == x' + y'
    ensures (a + a') + (b + b') + (c + c') + (d + d') == (x + x') + (y + y')
  {
    assert (a + a') + (b + b') + (c + c') + (d + d') == (a + b + c + d) + (a' + b' + c' + d');
  }

  lemma SplitOneConserves(m: MsgData)
    ensures multiset(Kept(ToStorageMsg(m))) + multiset(Kept(ToNotStorageMsg(m)))
            + multiset(Kept(ToStorageNotification(m))) + multiset(Kept(ToNotStorageNotification(m)))
         == multiset(Kept(ToAfter(m))) + multiset(Kept(ToClone(m)))
  {
  }

  /** `source` names, for each picked message, the input it comes from: in order, and all that are picked. */
  ghost predicate IsSource(pick: MsgData -> Option<MsgData>, ms: seq<MsgData>, picks: seq<MsgData>, source: seq<nat>) {
    && |source| == |picks|
    && (forall j | 0 <= j < |source| :: source[j] < |ms| && pick(ms[source[j]]) == Some(picks[j]))
    && (forall i, j | 0 <= i < j < |source| :: source[i] < source[j])
    && (forall i | 0 <= i < |ms| :: pick(ms[i]).Some? ==> i in source)
  }

  lemma SourceSnoc(
    pick: MsgData -> Option<MsgData>, ms: seq<MsgData>, picks: seq<MsgData>, source: seq<nat>, m: MsgData)
    requires IsSource(pick, ms, picks, source)
    ensures pick(m).None? ==> IsSource(pick, ms + [m], picks, source)
    ensures pick(m).Some? ==> IsSource(pick, ms + [m], picks + [pick(m).value], source + [|ms|])
  {
    var ms' := ms + [m];
    assert forall i | 0 <= i < |ms| :: ms'[i] == ms[i];
    assert ms'[|ms|] == m;
    if pick(m).Some? {
      var longer := source + [|ms|];
      assert longer[|source|] == |ms|;
      assert forall j | 0 <= j < |source| :: longer[j] == source[j];
      forall i | 0 <= i < |ms'| ensures pick(ms'[i]).Some? ==> i in longer {
        assert i < |ms| && i in source ==> i in longer;
      }
    }
  }

  /**
   * Order: each list is read off the batch left to right, so the inputs its entries come from stand
   * at strictly increasing positions.
   */
  lemma {:induction false} SplitKeepsOrder(pick: MsgData -> Option<MsgData>, ms: seq<MsgData>)
    returns (source: seq<nat>)
    ensures IsSource(pick, ms, Picks(pick, ms), source)
  {
    if ms == [] {
      source := [];
    } else {
      var init, m := ms[..|ms| - 1], ms[|ms| - 1];
      source := SplitKeepsOrder(pick, init);
      SourceSnoc(pick, init, Picks(pick, init), source, m);
      assert ms == init + [m];
      if pick(m).Some? {
        source := source + [|init|];
      } else {
        assert Picks(pick, init) + [] == Picks(pick, init);
      }
    }
  }

  // ----- The split in terms of the flags -----

  /** The flag is there and says no; a missing flag says yes. */
  predicate Off(m: MsgData, flag: string) {
    flag in m.options && !m.options[flag]
  }

  predicate Notifies(m: MsgData) {
    Off(m, IS_NOT_NOTIFICATION)
  }

  /** Everything of `m`, but neither pushed offline nor counted as unread. */
  predicate OnlyQuieted(m: MsgData, v: MsgData) {
    && v == m.(options := v.options)
    && v.options.Keys == m.options.Keys + {IS_OFFLINE_PUSH, IS_UNREAD_COUNT}
    && Off(v, IS_OFFLINE_PUSH) && Off(v, IS_UNREAD_COUNT)
    && forall flag <- m.options | flag !in {IS_OFFLINE_PUSH, IS_UNREAD_COUNT} :: v.options[flag] == m.options[flag]
  }

  /** What a notification that was also sent as a message, and any other message, is afterwards. */
  predicate Afterwards(m: MsgData, v: MsgData) {
    if Notifies(m) && !Off(m, IS_SEND_MSG) then OnlyQuieted(m, v) else v == m
  }

  /** Everything of `m` but its flags, none of which is off. */
  ghost predicate IsCloneOf(m: MsgData, v: MsgData) {
    && v == m.(options := v.options)
    && (forall flag :: flag in v.options <==> flag in {IS_OFFLINE_PUSH, IS_UNREAD_COUNT} && !Off(m, flag))
    && (forall flag <- v.options :: v.options[flag])
  }

  /** What enters each list, and as what. */
  predicate EntersStored(m: MsgData) {
    if Notifies(m) then !Off(m, IS_SEND_MSG) else !Off(m, IS_HISTORY)
  }

  ghost predicate BecomesStored(m: MsgData, v: MsgData) {
    if Notifies(m) then IsCloneOf(m, v) else v == m
  }

  predicate EntersNotStored(m: MsgData) {
    !Notifies(m) && Off(m, IS_HISTORY)
  }

  predicate EntersStoredNotification(m: MsgData) {
    Notifies(m) && !Off(m, IS_HISTORY)
  }

  predicate EntersNotStoredNotification(m: MsgData) {
    Notifies(m) && Off(m, IS_HISTORY)
  }

  predicate EntersModify(m: MsgData) {
    m.contentType == 121 || m.contentType == 122
  }

  predicate Unchanged(m: MsgData, v: MsgData) {
    v == m
  }

  /** `pick` takes exactly what enters, and makes of it what it becomes. */
  ghost predicate PicksBy(
    pick: MsgData -> Option<MsgData>, enters: MsgData -> bool, becomes: (MsgData, MsgData) -> bool, m: MsgData)
  {
    && (pick(m).Some? <==> enters(m))
    && (pick(m).Some? ==> becomes(m, pick(m).value))
  }

  /**
   * Where one message goes, by its flags alone: a notification that is to be sent adds a clone to the
   * stored chat messages; history decides between stored and not stored; nothing else of a message
   * changes but the two flags of a cloned notification.
   */
  lemma FiledByFlags(m: MsgData)
    ensures PicksBy(ToStorageMsg, EntersStored, BecomesStored, m)
    ensures PicksBy(ToNotStorageMsg, EntersNotStored, Unchanged, m)
    ensures PicksBy(ToStorageNotification, EntersStoredNotification, Afterwards, m)
    ensures PicksBy(ToNotStorageNotification, EntersNotStoredNotification, Afterwards, m)
    ensures PicksBy(ToModify, EntersModify, Afterwards, m)
  {
    QuietedFrame(m);
    CloneFrame(m);
  }

  lemma QuietedFrame(m: MsgData)
    ensures OnlyQuieted(m, Quieted(m))
  {
    FlagsDistinct();
  }

  lemma CloneFrame(m: MsgData)
    ensures IsCloneOf(m, Clone(m))
  {
    FlagsDistinct();
  }

  /** `source` is the positions of the inputs that enter, and each entry of `list` is what its input becomes. */
  ghost predicate ReadOff(
    ms: seq<MsgData>, list: seq<MsgData>, source: seq<nat>,
    enters: MsgData -> bool, becomes: (MsgData, MsgData) -> bool)
  {
    && |source| == |list|
    && (forall i, j | 0 <= i < j < |source| :: source[i] < source[j])
    && (forall j | 0 <= j < |source| :: source[j] < |ms| && becomes(ms[source[j]], list[j]))
    && (forall i: nat :: i in source <==> i < |ms| && enters(ms[i]))
  }

  lemma PicksReadOff(
    pick: MsgData -> Option<MsgData>, ms: seq<MsgData>, enters: MsgData -> bool, becomes: (MsgData, MsgData) -> bool)
    returns (source: seq<nat>)
    requires forall m :: PicksBy(pick, enters, becomes, m)
    ensures ReadOff(ms, Picks(pick, ms), source, enters, becomes)
  {
    source := SplitKeepsOrder(pick, ms);
    forall j | 0 <= j < |source| ensures becomes(ms[source[j]], Picks(pick, ms)[j]) {
      assert PicksBy(pick, enters, becomes, ms[source[j]]);
    }
    forall i: nat | i in source ensures i < |ms| && enters(ms[i]) {
      var j :| 0 <= j < |source| && source[j] == i;
      assert PicksBy(pick, enters, becomes, ms[i]);
    }
    forall i: nat | i < |ms| && enters(ms[i]) ensures i in source {
      assert PicksBy(pick, enters, becomes, ms[i]);
    }
  }

  /**
   * The whole split, by flags: each of the five lists holds, in input order, exactly what the inputs
   * with the right flags (for the last list, content types) become, and nothing but the two flags of a
   * cloned notification is ever changed.
   */
  lemma SplitByFlags(ms: seq<MsgData>) returns (a: seq<nat>, b: seq<nat>, c: seq<nat>, d: seq<nat>, e: seq<nat>)
    ensures ReadOff(ms, Picks(ToStorageMsg, ms), a, EntersStored, BecomesStored)
    ensures ReadOff(ms, Picks(ToNotStorageMsg, ms), b, EntersNotStored, Unchanged)
    ensures ReadOff(ms, Picks(ToStorageNotification, ms), c, EntersStoredNotification, Afterwards)
    ensures ReadOff(ms, Picks(ToNotStorageNotification, ms), d, EntersNotStoredNotification, Afterwards)
    ensures ReadOff(ms, Picks(ToModify, ms), e, EntersModify, Afterwards)
  {
    forall m
      ensures PicksBy(ToStorageMsg, EntersStored, BecomesStored, m)
      ensures PicksBy(ToNotStorageMsg, EntersNotStored, Unchanged, m)
      ensures PicksBy(ToStorageNotification, EntersStoredNotification, Afterwards, m)
      ensures PicksBy(ToNotStorageNotification, EntersNotStoredNotification, Afterwards, m)
      ensures PicksBy(ToModify, EntersModify, Afterwards, m)
    {
      FiledByFlags(m);
    }
    a := PicksReadOff(ToStorageMsg, ms, EntersStored, BecomesStored);
    b := PicksReadOff(ToNotStorageMsg, ms, EntersNotStored, Unchanged);
    c := PicksReadOff(ToStorageNotification, ms, EntersStoredNotification, Afterwards);
    d := PicksReadOff(ToNotStorageNotification, ms, EntersNotStoredNotification, Afterwards);
    e := PicksReadOff(ToModify, ms, EntersModify, Afterwards);
  }

  /**
   * Of a cloned notification and its clone, exactly one is pushed offline and counted as unread, and
   * it is the clone: it is a stored chat message with every flag on, even when the notification had
   * offline push turned off.
   */
  lemma CloneFlags(m: MsgData)
    requires Cloned(m)
    ensures !Is(After(m).options, IS_OFFLINE_PUSH) && !Is(After(m).options, IS_UNREAD_COUNT)
    ensures IsNotificationMsg(After(m)) && Stored(After(m)) == Stored(m)
    ensures !IsNotificationMsg(Clone(m)) && Stored(Clone(m))
    ensures forall flag :: Is(Clone(m).options, flag)
  {
    FlagsDistinct();
  }

  /** What the configuration of a notification means for the split. */
  lemma ConfiguredNotification(m: MsgData, cfg: NotificationConf, opts: Options)
    requires m.options == opts && opts.Keys == NewOptions().Keys
    requires forall flag <- opts.Keys ::
      opts[flag] ==
      if flag == IS_UNREAD_COUNT then cfg.unreadCount
      else if flag == IS_OFFLINE_PUSH then cfg.offlinePushEnable
      else if flag == IS_SEND_MSG then cfg.isSendMsg
      else flag in {IS_HISTORY, IS_PERSISTENT} && cfg.reliabilityLevel == RELIABLE_NOTIFICATION_NO_MSG
    ensures IsNotificationMsg(m)
    ensures ToStorageMsg(m).Some? <==> cfg.isSendMsg
    ensures ToStorageNotification(m).Some? <==> cfg.reliabilityLevel == RELIABLE_NOTIFICATION_NO_MSG
    ensures ToNotStorageNotification(m).Some? <==> cfg.reliabilityLevel != RELIABLE_NOTIFICATION_NO_MSG
    ensures Is(After(m).options, IS_OFFLINE_PUSH) <==> cfg.offlinePushEnable && !cfg.isSendMsg
  {
    FlagsDistinct();
    assert IS_NOT_NOTIFICATION[2] == 'N' && IS_SEND_MSG[2] == 'S' && IS_PERSISTENT[0] == 'p' && IS_SEND_MSG[0] == 'i';
  }

  // ----- The conversation a worker files a message under -----

  lemma PickedFrom(pick: MsgData -> Option<MsgData>, ms: seq<MsgData>, m: MsgData) returns (i: nat)
    requires m in Picks(pick, ms)
    ensures i < |ms| && pick(ms[i]) == Some(m)
  {
    var source := SplitKeepsOrder(pick, ms);
    var j :| 0 <= j < |source| && Picks(pick, ms)[j] == m;
    i := source[j];
  }

  /** A batch whose messages agree with the first on type and key, as single or super group chats. */
  ghost predicate Uniform(ms: seq<MsgData>) {
    && ms != []
    && ms[0].sessionType in {SINGLE_CHAT, SUPER_GROUP_CHAT}
    && forall i | 0 <= i < |ms| ::
         && ms[i].sessionType == ms[0].sessionType
         && GenConversationUniqueKey(ms[i]) == GenConversationUniqueKey(ms[0])
  }

  /** A message filed from an input has the input's ids. */
  lemma FiledIds(input: MsgData, m: MsgData)
    requires ToStorageMsg(input) == Some(m) || ToNotStorageMsg(input) == Some(m)
          || ToStorageNotification(input) == Some(m) || ToNotStorageNotification(input) == Some(m)
    ensures m == input.(options := m.options)
    ensures GetChatConversationIDByMsg(m) == GetChatConversationIDByMsg(input)
    ensures GetNotificationConversationIDByMsg(m) == GetNotificationConversationIDByMsg(input)
    ensures GenConversationUniqueKey(m) == GenConversationUniqueKey(input) && Peer(m) == Peer(input)
  {
  }

  lemma FiledUnderChat(input: MsgData, m: MsgData)
    requires KnownSession(input) && (ToStorageMsg(input) == Some(m) || ToNotStorageMsg(input) == Some(m))
    ensures GetConversationIDByMsg(m) == GetChatConversationIDByMsg(input)
  {
    FiledIds(input, m);
    IdTellsNotification(m);
  }

  lemma FiledUnderNotification(input: MsgData, m: MsgData)
    requires KnownSession(input)
    requires ToStorageNotification(input) == Some(m) || ToNotStorageNotification(input) == Some(m)
    ensures GetConversationIDByMsg(m) == GetNotificationConversationIDByMsg(input)
  {
    FiledIds(input, m);
    FlagsDistinct();
    IdTellsNotification(m);
  }

  /** The inputs of a uniform batch agree with the first on both ids. */
  lemma UniformIds(ms: seq<MsgData>, i: nat)
    requires Uniform(ms) && i < |ms|
    ensures KnownSession(ms[i])
    ensures GetChatConversationIDByMsg(ms[i]) == GetChatConversationIDByMsg(ms[0])
    ensures GetNotificationConversationIDByMsg(ms[i]) == GetNotificationConversationIDByMsg(ms[0])
  {
    SameKeySameChat(ms[i], ms[0]);
  }

  lemma ChatRouted(pick: MsgData -> Option<MsgData>, ms: seq<MsgData>, m: MsgData)
    requires Uniform(ms) && m in Picks(pick, ms)
    requires forall x :: pick(x) == ToStorageMsg(x) || pick(x) == ToNotStorageMsg(x)
    ensures GetConversationIDByMsg(m) == GetChatConversationIDByMsg(ms[0])
  {
    var i := PickedFrom(pick, ms, m);
    UniformIds(ms, i);
    FiledUnderChat(ms[i], m);
  }

  lemma NotificationRouted(pick: MsgData -> Option<MsgData>, ms: seq<MsgData>, m: MsgData)
    requires Uniform(ms) && m in Picks(pick, ms)
    requires forall x :: pick(x) == ToStorageNotification(x) || pick(x) == ToNotStorageNotification(x)
    ensures GetConversationIDByMsg(m) == GetNotificationConversationIDByMsg(ms[0])
  {
    var i := PickedFrom(pick, ms, m);
    UniformIds(ms, i);
    FiledUnderNotification(ms[i], m);
  }

  /** The messages of a list all have the conversation id they are filed under. */
  ghost predicate AllOf(ms: seq<MsgData>, conversationID: string) {
    forall m <- ms :: GetConversationIDByMsg(m) == conversationID
  }

  /** Everything a worker files goes to its own conversation. */
  ghost predicate Routed(ms: seq<MsgData>)
    requires ms != []
  {
    && AllOf(Picks(ToStorageMsg, ms), GetChatConversationIDByMsg(ms[0]))
    && AllOf(Picks(ToNotStorageMsg, ms), GetChatConversationIDByMsg(ms[0]))
    && AllOf(Picks(ToStorageNotification, ms), GetNotificationConversationIDByMsg(ms[0]))
    && AllOf(Picks(ToNotStorageNotification, ms), GetNotificationConversationIDByMsg(ms[0]))
  }

  /**
   * Routing agrees with the ids: the two conversation ids a worker computes from the first message of
   * a uniform batch are the own conversation ids of all it files under them, clones included.
   */
  lemma RoutingAgrees(ms: seq<MsgData>)
    requires Uniform(ms)
    ensures Routed(ms)
  {
    forall m <- Picks(ToStorageMsg, ms) ensures GetConversationIDByMsg(m) == GetChatConversationIDByMsg(ms[0]) {
      ChatRouted(ToStorageMsg, ms, m);
    }
    forall m <- Picks(ToNotStorageMsg, ms) ensures GetConversationIDByMsg(m) == GetChatConversationIDByMsg(ms[0]) {
      ChatRouted(ToNotStorageMsg, ms, m);
    }
    forall m <- Picks(ToStorageNotification, ms)
      ensures GetConversationIDByMsg(m) == GetNotificationConversationIDByMsg(ms[0])
    {
      NotificationRouted(ToStorageNotification, ms, m);
    }
    forall m <- Picks(ToNotStorageNotification, ms)
      ensures GetConversationIDByMsg(m) == GetNotificationConversationIDByMsg(ms[0])
    {
      NotificationRouted(ToNotStorageNotification, ms, m);
    }
  }

  /**
   * For a batch of one key the condition cannot be dropped. What an input contributes to the chat
   * lists, a clone included, is filed under its own id exactly when the input has the first message's
   * type and, for a server notification chat, direction. What it contributes to the notification
   * lists is, exactly when it has the first one's peer; for underscore-free ids, when both or neither
   * go along the key.
   */
  lemma RoutingExact(first: MsgData, input: MsgData, m: MsgData)
    requires first.sessionType in {SINGLE_CHAT, SUPER_GROUP_CHAT, NOTIFICATION_CHAT}
    requires input.sessionType in {SINGLE_CHAT, SUPER_GROUP_CHAT, NOTIFICATION_CHAT}
    requires GenConversationUniqueKey(input) == GenConversationUniqueKey(first)
    ensures ToStorageMsg(input) == Some(m) || ToNotStorageMsg(input) == Some(m) ==>
      (GetConversationIDByMsg(m) == GetChatConversationIDByMsg(first)
       <==> first.sessionType == input.sessionType
            && (input.sessionType == NOTIFICATION_CHAT
                ==> first.sendID + "_" + first.recvID == input.sendID + "_" + input.recvID))
    ensures ToStorageNotification(input) == Some(m) || ToNotStorageNotification(input) == Some(m) ==>
      && (GetConversationIDByMsg(m) == GetNotificationConversationIDByMsg(first) <==> Peer(input) == Peer(first))
      && (PlainIds(input) && PlainIds(first) ==>
            (GetConversationIDByMsg(m) == GetNotificationConversationIDByMsg(first)
             <==> (Along(input) <==> Along(first))))
  {
    if ToStorageMsg(input) == Some(m) || ToNotStorageMsg(input) == Some(m) {
      FiledUnderChat(input, m);
      SameKeySameChat(first, input);
    }
    if ToStorageNotification(input) == Some(m) || ToNotStorageNotification(input) == Some(m) {
      FiledUnderNotification(input, m);
      SameKeySamePeer(input, first);
    }
  }
}
