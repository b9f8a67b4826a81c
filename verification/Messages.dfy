/** Message data and the option flags a message carries (pkg/msgprocessor/options.go). */
module Messages {

  datatype Option<+T> = None | Some(value: T)

  /** The option map of a message. A nil map and an empty one read alike, so both are `map[]` here. */
  type Options = map<string, bool>

  const IS_NOT_NOTIFICATION := "isNotNotification"
  const IS_SEND_MSG := "isSendMsg"
  const IS_HISTORY := "history"
  const IS_PERSISTENT := "persistent"
  const IS_OFFLINE_PUSH := "offlinePush"
  const IS_UNREAD_COUNT := "unreadCount"
  const IS_CONVERSATION_UPDATE := "conversationUpdate"
  const IS_SENDER_SYNC := "senderSync"
  const IS_NOT_PRIVATE := "notPrivate"
  const IS_SENDER_CONVERSATION_UPDATE := "senderConversationUpdate"
  const IS_SENDER_NOTIFICATION_PUSH := "senderNotificationPush"
  const IS_REACTION_FROM_CACHE := "reactionFromCache"

  const SINGLE_CHAT := 1
  const GROUP_CHAT := 2
  const SUPER_GROUP_CHAT := 3
  const NOTIFICATION_CHAT := 4

  /** The largest batch the cache accepts, and the size of a Mongo document. */
  const SINGLE_GOC_MSG_NUM := 100

  const REACTION_MESSAGE_MODIFIER := 121
  const REACTION_MESSAGE_DELETER := 122

  datatype MsgData = MsgData(
    sendID: string,
    recvID: string,
    groupID: string,
    clientMsgID: string,
    sessionType: int,
    contentType: int,
    seqNo: int,
    options: Options)

  /** Options.Is: a flag that is missing reads as true. */
  predicate Is(o: Options, flag: string) {
    flag in o ==> o[flag]
  }

  /** IsNotificationByMsg. */
  predicate IsNotificationMsg(m: MsgData) {
    !Is(m.options, IS_NOT_NOTIFICATION)
  }

  /** NewOptions without extra settings: every known flag is present and off. */
  function NewOptions(): Options {
    map[IS_NOT_NOTIFICATION := false, IS_SEND_MSG := false, IS_HISTORY := false, IS_PERSISTENT := false,
        IS_OFFLINE_PUSH := false, IS_UNREAD_COUNT := false, IS_CONVERSATION_UPDATE := false,
        IS_SENDER_SYNC := false, IS_NOT_PRIVATE := false, IS_SENDER_CONVERSATION_UPDATE := false,
        IS_SENDER_NOTIFICATION_PUSH := false, IS_REACTION_FROM_CACHE := false]
  }

  /** NewMsgOptions: builds a map, then returns another, empty one. */
  function NewMsgOptions(): Options {
    map[]
  }

  const RELIABLE_NOTIFICATION_NO_MSG := 2

  datatype NotificationConf = NotificationConf(
    isSendMsg: bool,
    reliabilityLevel: int,
    unreadCount: bool,
    offlinePushEnable: bool)

  /**
   * GetOptionsByNotification. The result is always a notification; the four configurable behaviours
   * read back exactly as configured, every other known flag reads as off, and history (that is,
   * storage) is granted to reliability level 2 alone, not to level 3.
   */
  method GetOptionsByNotification(cfg: NotificationConf) returns (opts: Options)
    ensures opts.Keys == NewOptions().Keys == {
      IS_NOT_NOTIFICATION, IS_SEND_MSG, IS_HISTORY, IS_PERSISTENT, IS_OFFLINE_PUSH, IS_UNREAD_COUNT,
      IS_CONVERSATION_UPDATE, IS_SENDER_SYNC, IS_NOT_PRIVATE, IS_SENDER_CONVERSATION_UPDATE,
      IS_SENDER_NOTIFICATION_PUSH, IS_REACTION_FROM_CACHE}
    ensures forall flag <- opts.Keys ::
      opts[flag] ==
      if flag == IS_UNREAD_COUNT then cfg.unreadCount
      else if flag == IS_OFFLINE_PUSH then cfg.offlinePushEnable
      else if flag == IS_SEND_MSG then cfg.isSendMsg
      else flag in {IS_HISTORY, IS_PERSISTENT} && cfg.reliabilityLevel == RELIABLE_NOTIFICATION_NO_MSG
  {
    opts := NewOptions();
    if cfg.unreadCount {
      opts := opts[IS_UNREAD_COUNT := true];
    }
    if cfg.offlinePushEnable {
      opts := opts[IS_OFFLINE_PUSH := true];
    }
    if cfg.reliabilityLevel == RELIABLE_NOTIFICATION_NO_MSG {
      opts := opts[IS_HISTORY := true];
      opts := opts[IS_PERSISTENT := true];
    }
    opts := opts[IS_SEND_MSG := cfg.isSendMsg];
  }
}
