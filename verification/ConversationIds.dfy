/** The conversation-id algebra (pkg/msgprocessor/conversation.go). */
module ConversationIds {
  import opened Messages

  // ----- String helpers of the Go library -----

  /** Byte-wise string order; UTF-8 keeps the order of code points. */
  predicate AtMost(a: string, b: string) {
    a == [] || (b != [] && (a[0] < b[0] || (a[0] == b[0] && AtMost(a[1..], b[1..]))))
  }

  lemma {:induction false} AtMostIsTotalOrder(a: string, b: string)
    ensures AtMost(a, b) || AtMost(b, a)
    ensures AtMost(a, b) && AtMost(b, a) ==> a == b
  {
    if a != [] && b != [] && a[0] == b[0] {
      AtMostIsTotalOrder(a[1..], b[1..]);
      if a[1..] == b[1..] {
        assert a == [a[0]] + a[1..] && b == [b[0]] + b[1..];
      }
    }
  }

  /** The first difference decides, and a shorter string comes before what it begins. */
  ghost predicate Precedes(a: string, b: string) {
    a <= b || exists i :: 0 <= i < |a| && i < |b| && a[..i] == b[..i] && a[i] < b[i]
  }

  lemma PrecedesTail(a: string, b: string)
    requires a != [] && b != [] && a[0] == b[0]
    ensures Precedes(a, b) <==> Precedes(a[1..], b[1..])
  {
    assert a == [a[0]] + a[1..] && b == [b[0]] + b[1..];
    if i :| 0 <= i < |a| && i < |b| && a[..i] == b[..i] && a[i] < b[i] {
      assert a[..i][1..] == a[1..][..i - 1] && b[..i][1..] == b[1..][..i - 1];
      assert a[1..][i - 1] < b[1..][i - 1];
    }
    if j :| 0 <= j < |a| - 1 && j < |b| - 1 && a[1..][..j] == b[1..][..j] && a[1..][j] < b[1..][j] {
      assert a[..j + 1] == [a[0]] + a[1..][..j] && b[..j + 1] == [b[0]] + b[1..][..j];
      assert a[j + 1] < b[j + 1];
    }
  }

  lemma SameStart(a: string, b: string, i: nat)
    requires i < |a| && i < |b| && a[..i] == b[..i]
    ensures i == 0 || a[0] == b[0]
  {
    if i > 0 { assert a[..i][0] == a[0] && b[..i][0] == b[0]; }
  }

  /** The order of the sort is the lexicographic one. */
  lemma {:induction false} AtMostExactly(a: string, b: string)
    ensures AtMost(a, b) <==> Precedes(a, b)
  {
    if a != [] && b != [] {
      if a[0] == b[0] {
        AtMostExactly(a[1..], b[1..]);
        PrecedesTail(a, b);
      } else {
        assert a[..0] == b[..0];
        forall i | 0 <= i < |a| && i < |b| && a[..i] == b[..i] ensures i == 0 {
          SameStart(a, b, i);
        }
      }
    }
  }

  /** sort.Strings on a list of two, joined with an underscore. */
  function SortedPair(a: string, b: string): string {
    if AtMost(a, b) then a + "_" + b else b + "_" + a
  }

  /** strings.Split(s, "_"). */
  function Split(s: string): (parts: seq<string>)
    ensures parts != []
  {
    if s == [] then [[]]
    else
      var rest := Split(s[1..]);
      if s[0] == '_' then [[]] + rest else [[s[0]] + rest[0]] + rest[1..]
  }

  /** strings.Join(parts, "_"). */
  function Join(parts: seq<string>): string {
    if parts == [] then ""
    else if |parts| == 1 then parts[0]
    else parts[0] + "_" + Join(parts[1..])
  }

  predicate Plain(s: string) {
    '_' !in s
  }

  lemma JoinNewPart(parts: seq<string>)
    requires parts != []
    ensures Join([[]] + parts) == ['_'] + Join(parts)
  {
    assert ([[]] + parts)[1..] == parts;
  }

  lemma JoinLongerPart(c: char, parts: seq<string>)
    requires parts != []
    ensures Join([[c] + parts[0]] + parts[1..]) == [c] + Join(parts)
  {
    var longer := [[c] + parts[0]] + parts[1..];
    assert longer[1..] == parts[1..];
    if |parts| > 1 {
      assert [c] + parts[0] + "_" + Join(parts[1..]) == [c] + (parts[0] + "_" + Join(parts[1..]));
    }
  }

  lemma {:induction false} JoinSplit(s: string)
    ensures Join(Split(s)) == s
  {
    if s != [] {
      JoinSplit(s[1..]);
      assert s == [s[0]] + s[1..];
      if s[0] == '_' {
        JoinNewPart(Split(s[1..]));
      } else {
        JoinLongerPart(s[0], Split(s[1..]));
      }
    }
  }

  /** Splitting at the first underscore. */
  lemma {:induction false} SplitPrefix(prefix: string, rest: string)
    requires Plain(prefix)
    ensures Split(prefix + "_" + rest) == [prefix] + Split(rest)
  {
    var s := prefix + "_" + rest;
    if prefix == [] {
      assert s[1..] == rest;
    } else {
      SplitPrefix(prefix[1..], rest);
      assert s[1..] == prefix[1..] + "_" + rest;
      assert prefix == [prefix[0]] + prefix[1..];
    }
  }

  // ----- The id builders -----

  function GetNotificationConversationIDByMsg(m: MsgData): string {
    if m.sessionType == SINGLE_CHAT then "n_" + SortedPair(m.sendID, m.recvID)
    else if m.sessionType == GROUP_CHAT then "n_" + m.groupID
    else if m.sessionType == SUPER_GROUP_CHAT then "n_" + m.groupID
    else if m.sessionType == NOTIFICATION_CHAT then "n_" + m.sendID + "_" + m.recvID
    else ""
  }

  function GetChatConversationIDByMsg(m: MsgData): string {
    if m.sessionType == SINGLE_CHAT then "si_" + SortedPair(m.sendID, m.recvID)
    else if m.sessionType == GROUP_CHAT then "g_" + m.groupID
    else if m.sessionType == SUPER_GROUP_CHAT then "sg_" + m.groupID
    else if m.sessionType == NOTIFICATION_CHAT then "sn_" + m.sendID + "_" + m.recvID
    else ""
  }

  function GenConversationUniqueKey(m: MsgData): string {
    if m.sessionType == SINGLE_CHAT || m.sessionType == NOTIFICATION_CHAT then SortedPair(m.sendID, m.recvID)
    else if m.sessionType == SUPER_GROUP_CHAT then m.groupID
    else ""
  }

  function GetConversationIDByMsg(m: MsgData): string {
    if m.sessionType == SINGLE_CHAT then
      if IsNotificationMsg(m) then "n_" + SortedPair(m.sendID, m.recvID) else "si_" + SortedPair(m.sendID, m.recvID)
    else if m.sessionType == GROUP_CHAT then
      if IsNotificationMsg(m) then "n_" + m.groupID else "g_" + m.groupID
    else if m.sessionType == SUPER_GROUP_CHAT then
      if IsNotificationMsg(m) then "n_" + m.groupID else "sg_" + m.groupID
    else if m.sessionType == NOTIFICATION_CHAT then
      if IsNotificationMsg(m) then "n_" + m.sendID + "_" + m.recvID else "sn_" + m.sendID + "_" + m.recvID
    else ""
  }

  function GetNotificationConversationIDByConversationID(conversationID: string): string {
    var l := Split(conversationID);
    if |l| > 1 then Join(l[0 := "n"]) else ""
  }

  predicate IsNotification(conversationID: string) {
    "n_" <= conversationID
  }

  function ParseConversationID(m: MsgData): (bool, string) {
    if m.sessionType == SINGLE_CHAT then
      if IsNotificationMsg(m) then (true, "n_" + SortedPair(m.sendID, m.recvID))
      else (false, "si_" + SortedPair(m.sendID, m.recvID))
    else if m.sessionType == SUPER_GROUP_CHAT then
      if IsNotificationMsg(m) then (true, "n_" + m.groupID) else (false, "sg_" + m.groupID)
    else if m.sessionType == NOTIFICATION_CHAT then
      if IsNotificationMsg(m) then (true, "n_" + m.sendID + "_" + m.recvID)
      else (false, "sn_" + m.sendID + "_" + m.recvID)
    else (false, "")
  }

  predicate KnownSession(m: MsgData) {
    m.sessionType in {SINGLE_CHAT, GROUP_CHAT, SUPER_GROUP_CHAT, NOTIFICATION_CHAT}
  }

  // ----- What the ids mean -----

  /** The prefix of a session type, and the part of the id after the first underscore. */
  function Prefix(sessionType: int): string {
    if sessionType == SINGLE_CHAT then "si"
    else if sessionType == GROUP_CHAT then "g"
    else if sessionType == SUPER_GROUP_CHAT then "sg"
    else "sn"
  }

  function Peer(m: MsgData): string {
    if m.sessionType == SINGLE_CHAT then SortedPair(m.sendID, m.recvID)
    else if m.sessionType == NOTIFICATION_CHAT then m.sendID + "_" + m.recvID
    else m.groupID
  }

  lemma IdShape(m: MsgData)
    requires KnownSession(m)
    ensures GetChatConversationIDByMsg(m) == Prefix(m.sessionType) + "_" + Peer(m)
    ensures GetNotificationConversationIDByMsg(m) == "n" + "_" + Peer(m)
    ensures Plain(Prefix(m.sessionType)) && Prefix(m.sessionType) != "n"
  {
    assert "si" + "_" == "si_" && "g" + "_" == "g_" && "sg" + "_" == "sg_" && "sn" + "_" == "sn_" && "n" + "_" == "n_";
    assert "sn_" + m.sendID + "_" + m.recvID == "sn_" + (m.sendID + "_" + m.recvID);
    assert "n_" + m.sendID + "_" + m.recvID == "n_" + (m.sendID + "_" + m.recvID);
  }

  /**
   * The ids of a single chat name the user who comes first in lexicographic order first, whoever sends;
   * so does its transfer key, and that of a server notification chat, whose ids keep the direction.
   */
  lemma IdsInOrder(m: MsgData, x: string, y: string)
    requires Precedes(x, y) && ((m.sendID == x && m.recvID == y) || (m.sendID == y && m.recvID == x))
    ensures m.sessionType == SINGLE_CHAT ==>
      && GetChatConversationIDByMsg(m) == "si_" + (x + "_" + y)
      && GetNotificationConversationIDByMsg(m) == "n_" + (x + "_" + y)
    ensures m.sessionType in {SINGLE_CHAT, NOTIFICATION_CHAT} ==> GenConversationUniqueKey(m) == x + "_" + y
    ensures m.sessionType == NOTIFICATION_CHAT ==>
      && GetChatConversationIDByMsg(m) == "sn_" + m.sendID + "_" + m.recvID
      && GetNotificationConversationIDByMsg(m) == "n_" + m.sendID + "_" + m.recvID
  {
    AtMostExactly(x, y);
    AtMostIsTotalOrder(x, y);
  }

  /** The ids and the key of a group message name its group. */
  lemma GroupIds(m: MsgData)
    ensures m.sessionType == SUPER_GROUP_CHAT ==>
      && GetChatConversationIDByMsg(m) == "sg_" + m.groupID && GenConversationUniqueKey(m) == m.groupID
    ensures m.sessionType == GROUP_CHAT ==>
      && GetChatConversationIDByMsg(m) == "g_" + m.groupID && GenConversationUniqueKey(m) == ""
    ensures m.sessionType in {SUPER_GROUP_CHAT, GROUP_CHAT} ==>
      GetNotificationConversationIDByMsg(m) == "n_" + m.groupID
  {
  }

  /** An id with an underscore-free prefix determines the prefix and the rest. */
  lemma PrefixUnique(p: string, a: string, q: string, b: string)
    requires Plain(p) && Plain(q)
    ensures p + "_" + a == q + "_" + b <==> p == q && a == b
  {
    if p + "_" + a == q + "_" + b {
      SplitPrefix(p, a);
      SplitPrefix(q, b);
      assert ([p] + Split(a))[0] == ([q] + Split(b))[0];
      assert Split(a) == ([p] + Split(a))[1..] == ([q] + Split(b))[1..] == Split(b);
      JoinSplit(a);
      JoinSplit(b);
    }
  }

  /**
   * The twin law: for every message of a known session type, whatever characters its ids contain,
   * splitting and rejoining its chat id gives its notification id.
   */
  lemma TwinLaw(m: MsgData)
    requires KnownSession(m)
    ensures GetNotificationConversationIDByConversationID(GetChatConversationIDByMsg(m))
         == GetNotificationConversationIDByMsg(m)
    ensures GetNotificationConversationIDByConversationID(GetNotificationConversationIDByMsg(m))
         == GetNotificationConversationIDByMsg(m)
  {
    IdShape(m);
    RetagPrefix(Prefix(m.sessionType), Peer(m));
    RetagPrefix("n", Peer(m));
  }

  lemma RetagPrefix(prefix: string, rest: string)
    requires Plain(prefix)
    ensures GetNotificationConversationIDByConversationID(prefix + "_" + rest) == "n" + "_" + rest
  {
    SplitPrefix(prefix, rest);
    var l := Split(prefix + "_" + rest);
    assert l[0 := "n"][1..] == Split(rest);
    JoinSplit(rest);
  }

  /** A string without an underscore is no conversation id and has no notification id. */
  lemma NoTwin(s: string)
    requires Plain(s)
    ensures GetNotificationConversationIDByConversationID(s) == ""
  {
    SplitPlain(s);
  }

  /** The id of a message is a notification id exactly when the message is a notification. */
  lemma IdTellsNotification(m: MsgData)
    requires KnownSession(m)
    ensures GetConversationIDByMsg(m)
         == if IsNotificationMsg(m) then GetNotificationConversationIDByMsg(m) else GetChatConversationIDByMsg(m)
    ensures IsNotification(GetConversationIDByMsg(m)) <==> IsNotificationMsg(m)
  {
    IdShape(m);
    assert GetNotificationConversationIDByMsg(m)[..2] == "n_";
    assert GetChatConversationIDByMsg(m)[0] == Prefix(m.sessionType)[0] != 'n';
  }

  /**
   * ParseConversationID agrees with GetConversationIDByMsg on every session type but one: a group
   * chat message parses to the empty id. Where it agrees on a known type, its flag is right too.
   */
  lemma ParseAgreement(m: MsgData)
    ensures ParseConversationID(m).1 == GetConversationIDByMsg(m) <==> m.sessionType != GROUP_CHAT
    ensures KnownSession(m) && m.sessionType != GROUP_CHAT ==> ParseConversationID(m).0 == IsNotificationMsg(m)
  {
    if m.sessionType == GROUP_CHAT {
      assert GetConversationIDByMsg(m)[0] in "ng";
    }
  }

  // ----- Symmetry, injectivity, separation -----

  lemma SortedPairSymmetric(a: string, b: string)
    ensures SortedPair(a, b) == SortedPair(b, a)
  {
    AtMostIsTotalOrder(a, b);
  }

  lemma SortedPairInjective(a: string, b: string, c: string, d: string)
    requires Plain(a) && Plain(b) && Plain(c) && Plain(d)
    ensures SortedPair(a, b) == SortedPair(c, d) <==> {a, b} == {c, d}
  {
    var (x, y) := if AtMost(a, b) then (a, b) else (b, a);
    var (z, w) := if AtMost(c, d) then (c, d) else (d, c);
    PrefixUnique(x, y, z, w);
    if {a, b} == {c, d} {
      assert a in {c, d} && b in {c, d} && c in {a, b} && d in {a, b};
      AtMostIsTotalOrder(a, b);
    }
  }

  // ----- When two pairs of ids join to one string -----

  function Joined(a: string, b: string): string {
    a + "_" + b
  }

  /** The pair `z`, `w` is `x`, `y` with the joining underscore moved to a later one: x_v_w. */
  ghost predicate Shifts(x: string, y: string, z: string, w: string) {
    exists v :: z == Joined(x, v) && y == Joined(v, w)
  }

  lemma JoinedAssociates(x: string, v: string, w: string)
    ensures Joined(Joined(x, v), w) == Joined(x, Joined(v, w))
  {
  }

  lemma JoinedFirst(x: string, y: string)
    ensures Joined(x, y)[..|x|] == x && Joined(x, y)[|x|] == '_' && Joined(x, y)[|x| + 1..] == y
  {
  }

  /** The longer first part of one string contains the shorter one, and an underscore after it. */
  lemma LongerFirst(x: string, y: string, z: string, w: string)
    requires Joined(x, y) == Joined(z, w) && |x| <= |z|
    ensures (x == z && y == w) || Shifts(x, y, z, w)
  {
    var s := Joined(x, y);
    JoinedFirst(x, y);
    JoinedFirst(z, w);
    assert x == s[..|z|][..|x|] == z[..|x|];
    if |x| < |z| {
      var v := z[|x| + 1..];
      assert z[|x|] == s[|x|];
      assert z == x + [z[|x|]] + v;
      JoinedAssociates(x, v, w);
      JoinedFirst(x, Joined(v, w));
      assert z == Joined(x, v) && y == Joined(v, w);
    }
  }

  /** Whatever they contain: two pairs join to one string iff they are equal or one shifts to the other. */
  lemma JoinedExactly(x: string, y: string, z: string, w: string)
    ensures Joined(x, y) == Joined(z, w) <==> (x == z && y == w) || Shifts(x, y, z, w) || Shifts(z, w, x, y)
  {
    if Joined(x, y) == Joined(z, w) {
      if |x| <= |z| { LongerFirst(x, y, z, w); } else { LongerFirst(z, w, x, y); }
    }
    if v :| z == Joined(x, v) && y == Joined(v, w) {
      JoinedAssociates(x, v, w);
    }
    if v :| x == Joined(z, v) && w == Joined(v, y) {
      JoinedAssociates(z, v, y);
    }
  }

  function Lesser(a: string, b: string): string {
    if AtMost(a, b) then a else b
  }

  function Greater(a: string, b: string): string {
    if AtMost(a, b) then b else a
  }

  /** Two pairs of users have one sorted pair exactly when they are the same or shift to each other. */
  lemma SortedPairExactly(a: string, b: string, c: string, d: string)
    ensures SortedPair(a, b) == SortedPair(c, d)
       <==> || {a, b} == {c, d}
            || Shifts(Lesser(a, b), Greater(a, b), Lesser(c, d), Greater(c, d))
            || Shifts(Lesser(c, d), Greater(c, d), Lesser(a, b), Greater(a, b))
  {
    JoinedExactly(Lesser(a, b), Greater(a, b), Lesser(c, d), Greater(c, d));
    if {a, b} == {c, d} {
      assert a in {c, d} && b in {c, d} && c in {a, b} && d in {a, b};
      AtMostIsTotalOrder(a, b);
    }
  }

  /**
   * Two messages of known session types have the same chat conversation exactly when they have the
   * same session type and the same peer; chat ids of different session types never collide, whatever
   * the ids contain. For underscore-free user ids a single chat is exactly an unordered pair of users.
   */
  lemma ChatIdsSeparate(m: MsgData, n: MsgData)
    requires KnownSession(m) && KnownSession(n)
    ensures GetChatConversationIDByMsg(m) == GetChatConversationIDByMsg(n)
       <==> m.sessionType == n.sessionType && Peer(m) == Peer(n)
    ensures m.sessionType == n.sessionType == SINGLE_CHAT
         && Plain(m.sendID) && Plain(m.recvID) && Plain(n.sendID) && Plain(n.recvID)
         ==> (GetChatConversationIDByMsg(m) == GetChatConversationIDByMsg(n)
              <==> {m.sendID, m.recvID} == {n.sendID, n.recvID})
  {
    IdShape(m);
    IdShape(n);
    PrefixUnique(Prefix(m.sessionType), Peer(m), Prefix(n.sessionType), Peer(n));
    assert Prefix(m.sessionType) == Prefix(n.sessionType) ==> m.sessionType == n.sessionType by {
      assert "si"[1] != "sg"[1] && "si"[1] != "sn"[1] && "sg"[1] != "sn"[1] && |"g"| == 1;
    }
    if m.sessionType == n.sessionType == SINGLE_CHAT
       && Plain(m.sendID) && Plain(m.recvID) && Plain(n.sendID) && Plain(n.recvID) {
      SortedPairInjective(m.sendID, m.recvID, n.sendID, n.recvID);
    }
  }

  /**
   * Exactly when two single chats share their conversation, whatever the ids contain: they are between
   * the same users, or one pair of users, sorted, shifts to the other. Both pairs then have an
   * underscore in an id.
   */
  lemma SingleChatsShareExactly(m: MsgData, n: MsgData)
    requires m.sessionType == n.sessionType == SINGLE_CHAT
    ensures GetChatConversationIDByMsg(m) == GetChatConversationIDByMsg(n)
       <==> || {m.sendID, m.recvID} == {n.sendID, n.recvID}
            || Shifts(Lesser(m.sendID, m.recvID), Greater(m.sendID, m.recvID),
                      Lesser(n.sendID, n.recvID), Greater(n.sendID, n.recvID))
            || Shifts(Lesser(n.sendID, n.recvID), Greater(n.sendID, n.recvID),
                      Lesser(m.sendID, m.recvID), Greater(m.sendID, m.recvID))
  {
    ChatIdsSeparate(m, n);
    SortedPairExactly(m.sendID, m.recvID, n.sendID, n.recvID);
  }

  /** Two different pairs of users that share one single chat. */
  lemma UnderscoresCollide(m: MsgData)
    ensures var x := m.(sessionType := SINGLE_CHAT, sendID := "a", recvID := "b_c");
            var y := m.(sessionType := SINGLE_CHAT, sendID := "a_b", recvID := "c");
            GetChatConversationIDByMsg(x) == GetChatConversationIDByMsg(y)
  {
    assert "a" + "_" + "b_c" == "a_b" + "_" + "c";
    assert AtMost("a", "b_c") && AtMost("a_b", "c");
  }

  /** Two messages of one transfer key, when their chat ids agree: the condition a batch must meet. */
  lemma SameKeySameChat(m: MsgData, n: MsgData)
    requires KnownSession(m) && KnownSession(n)
    requires m.sessionType != GROUP_CHAT && n.sessionType != GROUP_CHAT
    requires GenConversationUniqueKey(m) == GenConversationUniqueKey(n)
    ensures GetChatConversationIDByMsg(m) == GetChatConversationIDByMsg(n)
       <==> m.sessionType == n.sessionType
            && (m.sessionType == NOTIFICATION_CHAT ==> m.sendID + "_" + m.recvID == n.sendID + "_" + n.recvID)
    ensures m.sessionType != NOTIFICATION_CHAT && n.sessionType != NOTIFICATION_CHAT
        ==> GetNotificationConversationIDByMsg(m) == GetNotificationConversationIDByMsg(n)
  {
    ChatIdsSeparate(m, n);
  }

  /** The key of a single chat has an underscore, so it is never an underscore-free group id. */
  lemma PlainGroupKeyIsNotSingle(single: MsgData, group: MsgData)
    requires single.sessionType == SINGLE_CHAT && group.sessionType == SUPER_GROUP_CHAT && Plain(group.groupID)
    ensures GenConversationUniqueKey(single) != GenConversationUniqueKey(group)
  {
    var (a, b) := if AtMost(single.sendID, single.recvID) then (single.sendID, single.recvID)
                  else (single.recvID, single.sendID);
    assert (a + "_" + b)[|a|] == '_';
  }

  // ----- From a conversation id back to the transfer key -----

  /** The transfer key of the messages filed under a conversation id, read off the id. */
  function KeyOf(conversationID: string): string {
    var parts := Split(conversationID);
    if |parts| == 2 then parts[1]
    else if |parts| == 3 then SortedPair(parts[1], parts[2])
    else ""
  }

  predicate PlainIds(m: MsgData) {
    Plain(m.sendID) && Plain(m.recvID) && Plain(m.groupID)
  }

  lemma {:induction false} SplitPlain(s: string)
    requires Plain(s)
    ensures Split(s) == [s]
  {
    if s != [] {
      SplitPlain(s[1..]);
      assert s == [s[0]] + s[1..];
    }
  }

  lemma KeyOfGroup(prefix: string, group: string)
    requires Plain(prefix) && Plain(group)
    ensures KeyOf(prefix + "_" + group) == group
  {
    SplitPrefix(prefix, group);
    SplitPlain(group);
  }

  lemma KeyOfPair(prefix: string, a: string, b: string)
    requires Plain(prefix) && Plain(a) && Plain(b)
    ensures KeyOf(prefix + "_" + (a + "_" + b)) == SortedPair(a, b)
  {
    SplitPrefix(prefix, a + "_" + b);
    SplitPrefix(a, b);
    SplitPlain(b);
    assert Split(prefix + "_" + (a + "_" + b)) == [prefix, a, b];
  }

  /**
   * For underscore-free user and group ids both conversation ids of a message determine its transfer
   * key, so no two keys ever share a conversation.
   */
  lemma IdTellsKey(m: MsgData)
    requires HasKey(m) && PlainIds(m)
    ensures KeyOf(GetChatConversationIDByMsg(m)) == GenConversationUniqueKey(m)
    ensures KeyOf(GetNotificationConversationIDByMsg(m)) == GenConversationUniqueKey(m)
  {
    IdShape(m);
    var prefix := Prefix(m.sessionType);
    if m.sessionType == SUPER_GROUP_CHAT {
      KeyOfGroup(prefix, m.groupID);
      KeyOfGroup("n", m.groupID);
    } else if m.sessionType == NOTIFICATION_CHAT {
      KeyOfPair(prefix, m.sendID, m.recvID);
      KeyOfPair("n", m.sendID, m.recvID);
    } else {
      var (a, b) := if AtMost(m.sendID, m.recvID) then (m.sendID, m.recvID) else (m.recvID, m.sendID);
      AtMostIsTotalOrder(m.sendID, m.recvID);
      KeyOfPair(prefix, a, b);
      KeyOfPair("n", a, b);
    }
  }

  /** A notification chat message whose direction is that of the sorted key; all others are along. */
  predicate Along(m: MsgData) {
    m.sessionType == NOTIFICATION_CHAT ==> AtMost(m.sendID, m.recvID)
  }

  /** The session types that are sent with a transfer key of their own. */
  predicate HasKey(m: MsgData) {
    m.sessionType in {SINGLE_CHAT, SUPER_GROUP_CHAT, NOTIFICATION_CHAT}
  }

  lemma PeerAgainstKey(m: MsgData)
    requires HasKey(m)
    ensures Along(m) ==> Peer(m) == GenConversationUniqueKey(m)
    ensures !Along(m) ==> GenConversationUniqueKey(m) == Joined(m.recvID, m.sendID) && m.sendID != m.recvID
    ensures !Along(m) ==> Peer(m) == Joined(m.sendID, m.recvID)
  {
    AtMostIsTotalOrder(m.sendID, m.recvID);
  }

  /**
   * Two messages of one transfer key have the same notification id if and only if they have the same
   * peer; for underscore-free ids, if and only if both or neither go along the key.
   */
  lemma SameKeySamePeer(m: MsgData, n: MsgData)
    requires HasKey(m) && HasKey(n)
    requires GenConversationUniqueKey(m) == GenConversationUniqueKey(n)
    ensures GetNotificationConversationIDByMsg(m) == GetNotificationConversationIDByMsg(n) <==> Peer(m) == Peer(n)
    ensures PlainIds(m) && PlainIds(n) ==> (Peer(m) == Peer(n) <==> (Along(m) <==> Along(n)))
  {
    IdShape(m);
    IdShape(n);
    PrefixUnique("n", Peer(m), "n", Peer(n));
    PeerAgainstKey(m);
    PeerAgainstKey(n);
    if PlainIds(m) && PlainIds(n) {
      if !Along(m) && !Along(n) {
        PrefixUnique(m.recvID, m.sendID, n.recvID, n.sendID);
      } else if !Along(m) {
        PrefixUnique(m.sendID, m.recvID, m.recvID, m.sendID);
      } else if !Along(n) {
        PrefixUnique(n.sendID, n.recvID, n.recvID, n.sendID);
      }
    }
  }

  // ----- When messages of different keys share their notification conversation -----

  /** The conversations of a message are named by its transfer key. */
  predicate NamedByKey(m: MsgData) {
    Along(m) || Joined(m.recvID, m.sendID) == Joined(m.sendID, m.recvID)
  }

  lemma NamedByKeyExactly(m: MsgData)
    requires HasKey(m)
    ensures NamedByKey(m) <==> Peer(m) == GenConversationUniqueKey(m)
  {
    PeerAgainstKey(m);
  }

  lemma SamePeerSameNotification(m: MsgData, n: MsgData)
    requires HasKey(m) && HasKey(n)
    ensures GetNotificationConversationIDByMsg(m) == GetNotificationConversationIDByMsg(n) <==> Peer(m) == Peer(n)
  {
    IdShape(m);
    IdShape(n);
    PrefixUnique("n", Peer(m), "n", Peer(n));
  }

  /**
   * Whatever the ids contain, messages named by their keys have one notification id exactly when they
   * have one key. If just one of two messages with one id is named by its key, their keys differ.
   */
  lemma NamedKeysAgree(m: MsgData, n: MsgData)
    requires HasKey(m) && HasKey(n) && NamedByKey(m)
    ensures NamedByKey(n) ==>
      (GetNotificationConversationIDByMsg(m) == GetNotificationConversationIDByMsg(n)
       <==> GenConversationUniqueKey(m) == GenConversationUniqueKey(n))
    ensures !NamedByKey(n) && GetNotificationConversationIDByMsg(m) == GetNotificationConversationIDByMsg(n) ==>
      GenConversationUniqueKey(m) != GenConversationUniqueKey(n)
  {
    SamePeerSameNotification(m, n);
    NamedByKeyExactly(m);
    NamedByKeyExactly(n);
  }

  /**
   * The exact guard: among messages that go along their keys, a message shares its notification id only
   * with messages of its own key if and only if it goes along its key too, or its two ids join to the
   * same string either way round.
   */
  lemma SharesOnlyItsKeyExactly(m: MsgData)
    requires HasKey(m)
    ensures (forall n | HasKey(n) && Along(n) && SameNotification(m, n) ::
               GenConversationUniqueKey(n) == GenConversationUniqueKey(m))
       <==> Along(m) || Joined(m.recvID, m.sendID) == Joined(m.sendID, m.recvID)
  {
    NamedByKeyExactly(m);
    var n := m.(sessionType := SUPER_GROUP_CHAT, groupID := Peer(m));
    SamePeerSameNotification(m, n);
    forall n | HasKey(n) && Along(n) && SameNotification(m, n) ensures GenConversationUniqueKey(n) == Peer(m) {
      SamePeerSameNotification(m, n);
      NamedByKeyExactly(n);
    }
    assert HasKey(n) && Along(n) && SameNotification(m, n) && GenConversationUniqueKey(n) == Peer(m);
  }

  predicate SameNotification(m: MsgData, n: MsgData) {
    GetNotificationConversationIDByMsg(m) == GetNotificationConversationIDByMsg(n)
  }

  /**
   * Two server notification chats with one notification id that both go against their keys: either
   * between the same two users, or one pair shifts to the other over some `v`, and then the keys agree
   * exactly when `v` and the rest join to the same string either way round.
   */
  lemma AgainstKeysAgreeExactly(m: MsgData, n: MsgData)
    requires HasKey(m) && HasKey(n) && !Along(m) && !Along(n) && |m.sendID| <= |n.sendID|
    requires SameNotification(m, n)
    ensures GenConversationUniqueKey(m) == GenConversationUniqueKey(n)
       <==> || (m.sendID == n.sendID && m.recvID == n.recvID)
            || exists v :: && n.sendID == Joined(m.sendID, v) && m.recvID == Joined(v, n.recvID)
                           && Commutes(v, Joined(n.recvID, m.sendID))
  {
    SamePeerSameNotification(m, n);
    PeerAgainstKey(m);
    PeerAgainstKey(n);
    LongerFirst(m.sendID, m.recvID, n.sendID, n.recvID);
    if m.sendID != n.sendID || m.recvID != n.recvID {
      var v :| n.sendID == Joined(m.sendID, v) && m.recvID == Joined(v, n.recvID);
      ShiftedKeys(m, n, v);
      forall v | n.sendID == Joined(m.sendID, v) && m.recvID == Joined(v, n.recvID)
        ensures Commutes(v, Joined(n.recvID, m.sendID))
           <==> GenConversationUniqueKey(m) == GenConversationUniqueKey(n)
      {
        ShiftedKeys(m, n, v);
      }
    }
  }

  predicate Commutes(a: string, b: string) {
    Joined(a, b) == Joined(b, a)
  }

  lemma ShiftedKeys(m: MsgData, n: MsgData, v: string)
    requires HasKey(m) && HasKey(n) && !Along(m) && !Along(n)
    requires n.sendID == Joined(m.sendID, v) && m.recvID == Joined(v, n.recvID)
    ensures GenConversationUniqueKey(m) == GenConversationUniqueKey(n) <==> Commutes(v, Joined(n.recvID, m.sendID))
  {
    PeerAgainstKey(m);
    PeerAgainstKey(n);
    JoinedAssociates(v, n.recvID, m.sendID);
    JoinedAssociates(n.recvID, m.sendID, v);
  }

  /** A notification in a super group and one from a server account that share their conversation. */
  lemma KeysShareConversation(m: MsgData)
    ensures
      var group := m.(sessionType := SUPER_GROUP_CHAT, groupID := "b_a");
      var server := m.(sessionType := NOTIFICATION_CHAT, sendID := "b", recvID := "a");
      && GetNotificationConversationIDByMsg(group) == GetNotificationConversationIDByMsg(server)
      && GenConversationUniqueKey(group) == "b_a" && GenConversationUniqueKey(server) == "a_b"
  {
    assert "n_" + "b_a" == "n_" + "b" + "_" + "a";
    assert "a" + "_" + "b" == "a_b";
  }
}
