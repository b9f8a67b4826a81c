/**
 * The sequence numbers of a conversation as one user sees them: the newest message, the oldest one
 * still shown, and how far the user has read (internal/rpc/msg/as_read.go, delete.go). The numbers
 * live in redis, where a missing one reads as 0.
 */
module ReadCursor {
  import opened Messages
  import opened SeqCaches

  datatype Event =
    | MarkConversation(kind: int, upTo: int)
    | MarkMsgs(seqs: seq<int>)
    | SetRead(to: int)
    | Append(senders: seq<string>, saved: bool, noted: bool)
    | Clear(syncOther: bool, hidden: bool, noted: bool)

  /** The consecutive numbers lo+1, ..., hi. */
  function Interval(lo: int, hi: int): seq<int>
    decreases hi - lo
  {
    if hi <= lo then [] else Interval(lo, hi - 1) + [hi]
  }

  // ----- What each request does to one user's numbers -----

  predicate CanMark(s: Seqs, seqs: seq<int>) {
    |seqs| >= 1 && s.known && seqs[|seqs| - 1] <= s.max
  }

  predicate HasCursor(kind: int) {
    kind in {SINGLE_CHAT, SUPER_GROUP_CHAT, NOTIFICATION_CHAT}
  }

  function Raised(s: Seqs, to: int): Seqs {
    if to > s.hasRead then s.(hasRead := to) else s
  }

  /** The bound of a conversation as its users see it: for all of them, or for the one it is `own` to. */
  function Bounded(s: Seqs, syncOther: bool, own: bool, to: int): Seqs {
    if syncOther then s.(min := to) else if own then s.(userMin := to) else s
  }

  /**
   * A clear hides everything up to the newest message; where there is none it writes nothing. `own`
   * tells whether the user is the one who clears, `hidden` whether the bound was written. The cursors
   * are written after all bounds, and `noted` tells whether this one was.
   */
  function Cleared(s: Seqs, syncOther: bool, own: bool, hidden: bool, noted: bool): Seqs {
    if s.max == 0 || !hidden then s
    else
      var t := Bounded(s, syncOther, own, s.max + 1);
      if own && noted then t.(hasRead := s.max) else t
  }

  function Apply(s: Seqs, user: string, e: Event): Seqs {
    match e
    case MarkConversation(kind, upTo) => if HasCursor(kind) then Raised(s, upTo) else s
    case MarkMsgs(seqs) => if CanMark(s, seqs) then Raised(s, seqs[|seqs| - 1]) else s
    case SetRead(to) => if s.known && to <= s.max then s.(hasRead := to) else s
    case Append(senders, saved, noted) => Appended(s, user, senders, saved, noted)
    case Clear(syncOther, hidden, noted) => Cleared(s, syncOther, true, hidden, noted)
  }

  /** The numbers a call marks as read in the message store. */
  function MarkedBy(s: Seqs, e: Event): seq<int> {
    match e
    case MarkConversation(kind, upTo) => if kind == SINGLE_CHAT then Interval(s.hasRead, upTo) else []
    case MarkMsgs(nums) => if CanMark(s, nums) then nums else []
    case _ => []
  }

  // ----- The server -----

  /** getMinSeqs: show nothing up to the newest message. */
  method GetMinSeqs(maxSeqs: map<string, int>) returns (minSeqs: map<string, int>)
    ensures minSeqs == map c | c in maxSeqs :: maxSeqs[c] + 1
  {
    minSeqs := map[];
    var left := maxSeqs.Keys;
    while left != {}
      invariant left <= maxSeqs.Keys
      invariant minSeqs == map c | c in maxSeqs && c !in left :: maxSeqs[c] + 1
    {
      var c :| c in left;
      minSeqs := minSeqs[c := maxSeqs[c] + 1];
      left := left - {c};
    }
  }

  class SeqServer {
    const seqs: SeqCache

    constructor (seqs: SeqCache)
      ensures this.seqs == seqs
    {
      this.seqs := seqs;
    }

    /** Returns the numbers marked as read in the message store: all that the request names. */
    method MarkMsgsAsRead(user: string, conversationID: string, nums: seq<int>) returns (ok: bool, marked: seq<int>)
      modifies seqs`hasReadSeqs
      ensures ok == CanMark(old(seqs.At(conversationID, user)), nums)
      ensures marked == MarkedBy(old(seqs.At(conversationID, user)), MarkMsgs(nums))
      ensures seqs.At(conversationID, user) == Apply(old(seqs.At(conversationID, user)), user, MarkMsgs(nums))
      ensures seqs.OnlyFor(conversationID, user)
    {
      if |nums| < 1 || conversationID !in seqs.maxSeqs {
        return false, [];
      }
      var hasReadSeq := nums[|nums| - 1];
      if hasReadSeq > seqs.maxSeqs[conversationID] {
        return false, [];
      }
      marked := nums;
      if hasReadSeq > Stored(seqs.hasReadSeqs, (conversationID, user)) {
        seqs.hasReadSeqs := seqs.hasReadSeqs[(conversationID, user) := hasReadSeq];
      }
      ok := true;
    }

    /** Returns the numbers marked as read in the message store and the cursor the receipt reports. */
    method MarkConversationAsRead(user: string, conversationID: string, kind: int, upTo: int)
      returns (marked: seq<int>, reported: int)
      modifies seqs`hasReadSeqs
      ensures seqs.At(conversationID, user)
           == Apply(old(seqs.At(conversationID, user)), user, MarkConversation(kind, upTo))
      ensures seqs.OnlyFor(conversationID, user)
      ensures marked == MarkedBy(old(seqs.At(conversationID, user)), MarkConversation(kind, upTo))
      ensures reported == seqs.At(conversationID, user).hasRead
    {
      var hasReadSeq := Stored(seqs.hasReadSeqs, (conversationID, user));
      marked := [];
      if kind == SINGLE_CHAT {
        var i := hasReadSeq + 1;
        while i <= upTo
          invariant hasReadSeq < i && (i <= upTo + 1 || i == hasReadSeq + 1)
          invariant marked == Interval(hasReadSeq, i - 1)
        {
          marked := marked + [i];
          i := i + 1;
        }
        if upTo > hasReadSeq {
          seqs.hasReadSeqs := seqs.hasReadSeqs[(conversationID, user) := upTo];
          hasReadSeq := upTo;
        }
      } else if kind == SUPER_GROUP_CHAT || kind == NOTIFICATION_CHAT {
        if upTo > hasReadSeq {
          seqs.hasReadSeqs := seqs.hasReadSeqs[(conversationID, user) := upTo];
          hasReadSeq := upTo;
        }
      }
      reported := hasReadSeq;
    }

    method SetConversationHasReadSeq(user: string, conversationID: string, to: int) returns (ok: bool)
      modifies seqs`hasReadSeqs
      ensures ok == (old(seqs.At(conversationID, user)).known && to <= old(seqs.At(conversationID, user)).max)
      ensures seqs.At(conversationID, user) == Apply(old(seqs.At(conversationID, user)), user, SetRead(to))
      ensures seqs.OnlyFor(conversationID, user)
    {
      if conversationID !in seqs.maxSeqs || to > seqs.maxSeqs[conversationID] {
        return false;
      }
      seqs.hasReadSeqs := seqs.hasReadSeqs[(conversationID, user) := to];
      ok := true;
    }

    /** The bound of every existing conversation that has messages can be written. */
    ghost predicate AllBounded(existing: seq<string>, unwritten: set<string>)
      reads seqs
    {
      forall c <- existing | Stored(seqs.maxSeqs, c) != 0 :: c !in unwritten
    }

    /** The first of the two writes of a clear. */
    method WriteBounds(user: string, syncOther: bool, mins: map<string, int>, unwritten: set<string>)
      returns (ok: bool)
      modifies seqs`minSeqs, seqs`userMinSeqs
      ensures ok == (mins.Keys !! unwritten)
      ensures forall c, u ::
        seqs.At(c, u) == if c in mins && c !in unwritten then Bounded(old(seqs.At(c, u)), syncOther, u == user, mins[c])
                         else old(seqs.At(c, u))
    {
      if !syncOther {
        ok := seqs.SetUserConversationsMinSeqs(user, mins, unwritten);
      } else {
        ok := seqs.SetMinSeqs(mins, unwritten);
      }
    }

    /** The second. */
    method WriteCursors(user: string, maxs: map<string, int>, unwritten: set<string>) returns (ok: bool)
      modifies seqs`hasReadSeqs
      ensures ok == (maxs.Keys !! unwritten)
      ensures forall c, u ::
        seqs.At(c, u) == if u == user && c in maxs && c !in unwritten then old(seqs.At(c, u)).(hasRead := maxs[c])
                         else old(seqs.At(c, u))
    {
      ok := seqs.UserSetHasReadSeqs(user, maxs, unwritten);
    }

    /**
     * `existing`: those of the requested conversations that exist. Writing the bounds fails before it
     * comes to the conversations in `unwritten`, and then no cursor is written; writing the cursors
     * fails before it comes to those in `unnoted`.
     */
    method ClearConversation(
      existing: seq<string>, user: string, syncOther: bool, unwritten: set<string>, unnoted: set<string>)
      returns (ok: bool)
      modifies seqs`minSeqs, seqs`userMinSeqs, seqs`hasReadSeqs
      ensures ok == old(AllBounded(existing, unwritten) && AllBounded(existing, unnoted))
      ensures var bounded := old(AllBounded(existing, unwritten));
        forall c, u ::
          seqs.At(c, u) ==
          if c in existing
          then Cleared(old(seqs.At(c, u)), syncOther, u == user, c !in unwritten, bounded && c !in unnoted)
          else old(seqs.At(c, u))
    {
      var maxs := seqs.GetMaxSeqs(existing);
      var mins := GetMinSeqs(maxs);
      ok := WriteBounds(user, syncOther, mins, unwritten);
      if !ok {
        return;
      }
      ok := WriteCursors(user, maxs, unnoted);
    }
  }
}
