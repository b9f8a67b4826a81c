/** What runs of reading, clearing and receiving do to one user's view of one conversation. */
module ReadCursorRuns {
  import opened Messages
  import opened ReadCursor
  import opened SeqCaches

  ghost predicate IsRun(user: string, run: seq<Seqs>, es: seq<Event>) {
    && |run| == |es| + 1
    && forall i | 0 <= i < |es| :: run[i + 1] == Apply(run[i], user, es[i])
  }

  // ----- Intervals -----

  lemma {:induction false} IntervalCount(lo: int, hi: int, x: int)
    ensures multiset(Interval(lo, hi))[x] == if lo < x <= hi then 1 else 0
    decreases hi - lo
  {
    if lo < hi {
      IntervalCount(lo, hi - 1, x);
    }
  }

  lemma {:induction false} IntervalSplit(lo: int, mid: int, hi: int)
    requires lo <= mid <= hi
    ensures Interval(lo, mid) + Interval(mid, hi) == Interval(lo, hi)
    decreases hi - mid
  {
    if mid < hi {
      IntervalSplit(lo, mid, hi - 1);
      assert Interval(lo, mid) + (Interval(mid, hi - 1) + [hi]) == Interval(lo, mid) + Interval(mid, hi - 1) + [hi];
    } else {
      assert Interval(lo, mid) + [] == Interval(lo, mid);
    }
  }

  // ----- When the cursor falls -----

  /** The requests that move the cursor back. */
  predicate Lowers(s: Seqs, user: string, e: Event) {
    match e
    case MarkConversation(_, _) => false
    case MarkMsgs(_) => false
    case SetRead(to) => s.known && to <= s.max && to < s.hasRead
    case Append(senders, _, noted) =>
      CanAppend(senders) && noted && user in senders && s.max + LastIndex(senders, user) + 1 < s.hasRead
    case Clear(_, hidden, noted) => hidden && noted && 0 != s.max < s.hasRead
  }

  /** Neither way of marking messages as read ever moves the cursor back; the others do exactly when told. */
  lemma LowersExactly(s: Seqs, user: string, e: Event)
    ensures Apply(s, user, e).hasRead < s.hasRead <==> Lowers(s, user, e)
    ensures e.MarkConversation? || e.MarkMsgs? ==> s.hasRead <= Apply(s, user, e).hasRead
  {
  }

  /**
   * The cursor stays at or below the newest message while no conversation is marked beyond it and the
   * newest number is saved for every batch.
   */
  lemma {:induction false} CursorWithinMax(user: string, run: seq<Seqs>, es: seq<Event>, n: nat)
    requires IsRun(user, run, es) && n < |run|
    requires 0 <= run[0].max && run[0].hasRead <= run[0].max
    requires forall i | 0 <= i < n ::
      && (es[i].MarkConversation? ==> es[i].upTo <= run[i].max)
      && (es[i].Append? ==> es[i].saved)
    ensures 0 <= run[n].max && run[n].hasRead <= run[n].max
    ensures n < |es| && !es[n].SetRead? ==> !Lowers(run[n], user, es[n])
  {
    if n > 0 {
      CursorWithinMax(user, run, es, n - 1);
      assert run[n] == Apply(run[n - 1], user, es[n - 1]);
    }
  }

  /**
   * One step breaks that bound if and only if it marks a conversation beyond the newest message, or
   * the newest number could not be raised for a batch whose sender's cursor was moved all the same.
   */
  lemma BeyondMaxExactly(s: Seqs, user: string, e: Event)
    requires 0 <= s.max && s.hasRead <= s.max
    ensures var t := Apply(s, user, e);
      t.hasRead > t.max <==>
        || (e.MarkConversation? && HasCursor(e.kind) && e.upTo > s.max)
        || (e.Append? && CanAppend(e.senders) && user in e.senders && e.noted && !e.saved)
  {
  }

  // ----- Reading everything -----

  lemma {:induction false} KnownFromFirst(user: string, run: seq<Seqs>, es: seq<Event>, n: nat)
    requires IsRun(user, run, es) && n < |run| && run[0] == UNUSED
    ensures run[n].known <==> run[n].max > 0
    ensures 0 <= run[n].max
  {
    if n > 0 {
      KnownFromFirst(user, run, es, n - 1);
      assert run[n] == Apply(run[n - 1], user, es[n - 1]);
    }
  }

  function Max(a: int, b: int): int {
    if a < b then b else a
  }

  /**
   * What there is can be read, and nothing else: in every state of every run, marking messages is
   * accepted, marks all of them and raises the cursor to the last one, exactly if that one is not
   * beyond the newest; a conversation of any of the three types raises it as far as it is marked; and
   * the cursor can be set to anything up to the newest.
   */
  lemma ReadsExactly(user: string, run: seq<Seqs>, es: seq<Event>, n: nat, nums: seq<int>, to: int)
    requires IsRun(user, run, es) && n < |run| && run[0] == UNUSED && run[n].max > 0 && nums != []
    ensures
      var s, last := run[n], nums[|nums| - 1];
      var t := Apply(s, user, MarkMsgs(nums));
      if last <= s.max then MarkedBy(s, MarkMsgs(nums)) == nums && t == s.(hasRead := Max(s.hasRead, last))
      else MarkedBy(s, MarkMsgs(nums)) == [] && t == s
    ensures forall kind <- [SINGLE_CHAT, SUPER_GROUP_CHAT, NOTIFICATION_CHAT] ::
      Apply(run[n], user, MarkConversation(kind, to)) == run[n].(hasRead := Max(run[n].hasRead, to))
    ensures forall kind | kind !in {SINGLE_CHAT, SUPER_GROUP_CHAT, NOTIFICATION_CHAT} ::
      Apply(run[n], user, MarkConversation(kind, to)) == run[n]
    ensures forall kind, x ::
      x in MarkedBy(run[n], MarkConversation(kind, to)) <==> kind == SINGLE_CHAT && run[n].hasRead < x <= to
    ensures Apply(run[n], user, SetRead(to)) == if to <= run[n].max then run[n].(hasRead := to) else run[n]
  {
    KnownFromFirst(user, run, es, n);
    forall x ensures x in Interval(run[n].hasRead, to) <==> run[n].hasRead < x <= to {
      IntervalCount(run[n].hasRead, to, x);
    }
  }

  // ----- What is marked -----

  /** All numbers the MarkConversationAsRead calls among the first n events marked, in order. */
  function AllMarked(run: seq<Seqs>, es: seq<Event>, n: nat): seq<int>
    requires n <= |es| < |run|
  {
    if n == 0 then []
    else AllMarked(run, es, n - 1) + if es[n - 1].MarkConversation? then MarkedBy(run[n - 1], es[n - 1]) else []
  }

  /** All numbers the cursor moved over in the other events. */
  function AllSkipped(run: seq<Seqs>, es: seq<Event>, n: nat): seq<int>
    requires n <= |es| < |run|
  {
    if n == 0 then []
    else
      AllSkipped(run, es, n - 1) +
      if es[n - 1].MarkConversation? then [] else Interval(run[n - 1].hasRead, run[n].hasRead)
  }

  ghost predicate OnSingleChat(es: seq<Event>) {
    forall e <- es | e.MarkConversation? :: e.kind == SINGLE_CHAT
  }

  ghost predicate NoneLowers(user: string, run: seq<Seqs>, es: seq<Event>, n: nat)
    requires n <= |es| < |run|
  {
    forall i | 0 <= i < n :: !Lowers(run[i], user, es[i])
  }

  /**
   * Read once: on a single chat whose cursor is never moved back, every number the cursor has passed
   * was marked by exactly one MarkConversationAsRead or skipped by exactly one other event, and no
   * other number was.
   */
  lemma {:induction false} ReadOnce(user: string, run: seq<Seqs>, es: seq<Event>, n: nat)
    requires IsRun(user, run, es) && n <= |es| && OnSingleChat(es) && NoneLowers(user, run, es, n)
    ensures run[0].hasRead <= run[n].hasRead
    ensures multiset(AllMarked(run, es, n)) + multiset(AllSkipped(run, es, n))
         == multiset(Interval(run[0].hasRead, run[n].hasRead))
  {
    if n > 0 {
      ReadOnce(user, run, es, n - 1);
      var s, t, e := run[n - 1], run[n], es[n - 1];
      assert t == Apply(s, user, e) && e in es && !Lowers(s, user, e);
      LowersExactly(s, user, e);
      IntervalSplit(run[0].hasRead, s.hasRead, t.hasRead);
      if e.MarkConversation? {
        MarkedIsMoved(s, user, e);
        assert AllSkipped(run, es, n) == AllSkipped(run, es, n - 1) + [];
      } else {
        assert AllMarked(run, es, n) == AllMarked(run, es, n - 1) + [];
      }
    }
  }

  /** Exactly the numbers the cursor moves over are marked. */
  lemma MarkedIsMoved(s: Seqs, user: string, e: Event)
    requires e.MarkConversation? && e.kind == SINGLE_CHAT
    ensures MarkedBy(s, e) == Interval(s.hasRead, Apply(s, user, e).hasRead)
  {
    if e.upTo <= s.hasRead {
      assert Interval(s.hasRead, e.upTo) == [] == Interval(s.hasRead, s.hasRead);
    }
  }

  /**
   * Marked exactly: when only MarkConversationAsRead moves the cursor, the lists it marked are, one
   * after the other, the consecutive numbers from the first cursor to the last.
   */
  lemma {:induction false} MarkedExactly(user: string, run: seq<Seqs>, es: seq<Event>, n: nat)
    requires IsRun(user, run, es) && n <= |es| && OnSingleChat(es)
    requires forall e <- es :: e.MarkConversation? || (e.Append? && (user !in e.senders || !e.noted))
    ensures run[0].hasRead <= run[n].hasRead
    ensures AllMarked(run, es, n) == Interval(run[0].hasRead, run[n].hasRead)
  {
    if n > 0 {
      MarkedExactly(user, run, es, n - 1);
      var s, t, e := run[n - 1], run[n], es[n - 1];
      assert t == Apply(s, user, e) && e in es;
      if e.MarkConversation? {
        MarkedIsMoved(s, user, e);
        IntervalSplit(run[0].hasRead, s.hasRead, t.hasRead);
      } else {
        assert AllMarked(run, es, n) == AllMarked(run, es, n - 1) + [];
      }
    }
  }

  /** So no number is marked twice, in one call or in two, and none outside the cursor's way. */
  lemma MarkedAtMostOnce(user: string, run: seq<Seqs>, es: seq<Event>, n: nat, x: int)
    requires IsRun(user, run, es) && n <= |es| && OnSingleChat(es) && NoneLowers(user, run, es, n)
    ensures multiset(AllMarked(run, es, n))[x] <= if run[0].hasRead < x <= run[n].hasRead then 1 else 0
  {
    ReadOnce(user, run, es, n);
    IntervalCount(run[0].hasRead, run[n].hasRead, x);
    var sum := multiset(AllMarked(run, es, n)) + multiset(AllSkipped(run, es, n));
    assert sum[x] == multiset(AllMarked(run, es, n))[x] + multiset(AllSkipped(run, es, n))[x];
  }

  // ----- Clearing -----

  /** How many messages arrived in events k+1, ..., n-1. */
  function AppendedSince(es: seq<Event>, k: nat, n: nat): nat
    requires k < n <= |es|
  {
    if n == k + 1 then 0
    else AppendedSince(es, k, n - 1) +
         if es[n - 1].Append? && es[n - 1].saved && CanAppend(es[n - 1].senders) then |es[n - 1].senders| else 0
  }

  /** The lower bound that a clear writes. */
  function MinWritten(s: Seqs, e: Event): int
    requires e.Clear?
  {
    if e.syncOther then s.min else s.userMin
  }

  ghost predicate LastClear(es: seq<Event>, k: nat, n: nat)
    requires k < n <= |es|
  {
    es[k].Clear? && forall i | k < i < n :: !es[i].Clear?
  }

  lemma {:induction false} SinceClear(user: string, run: seq<Seqs>, es: seq<Event>, k: nat, n: nat)
    requires IsRun(user, run, es) && k < n <= |es| && LastClear(es, k, n)
    ensures run[n].max == run[k].max + AppendedSince(es, k, n)
    ensures run[n].min == run[k + 1].min && run[n].userMin == run[k + 1].userMin
  {
    if n > k + 1 {
      SinceClear(user, run, es, k, n - 1);
      assert run[n] == Apply(run[n - 1], user, es[n - 1]);
    }
  }

  /** Until the first message arrives, no clear has written anything. */
  lemma {:induction false} NothingBeforeFirst(user: string, run: seq<Seqs>, es: seq<Event>, n: nat)
    requires IsRun(user, run, es) && n < |run| && run[0] == UNUSED
    ensures 0 <= run[n].max
    ensures run[n].max == 0 ==> run[n].min == 0 && run[n].userMin == 0
  {
    if n > 0 {
      NothingBeforeFirst(user, run, es, n - 1);
      assert run[n] == Apply(run[n - 1], user, es[n - 1]);
    }
  }

  /**
   * Clear and append: after the last clear of a run, the messages from its bound to the newest one are
   * exactly those that arrived since, if and only if there was a message when it cleared and the bound
   * was written, or the bound was there already.
   */
  lemma ClearThenAppend(user: string, run: seq<Seqs>, es: seq<Event>, k: nat, n: nat)
    requires IsRun(user, run, es) && k < n <= |es| && LastClear(es, k, n) && run[0] == UNUSED
    ensures run[n].max - MinWritten(run[n], es[k]) + 1 == AppendedSince(es, k, n)
       <==> (run[k].max != 0 && es[k].hidden) || MinWritten(run[k], es[k]) == run[k].max + 1
  {
    SinceClear(user, run, es, k, n);
    NothingBeforeFirst(user, run, es, k);
    assert run[k + 1] == Apply(run[k], user, es[k]);
  }

  lemma {:induction false} UnreadSinceClear(user: string, run: seq<Seqs>, es: seq<Event>, k: nat, n: nat)
    requires IsRun(user, run, es) && k < n <= |es|
    requires forall i | k < i < n :: es[i].Append? && (user !in es[i].senders || !es[i].noted)
    ensures run[n].hasRead == run[k + 1].hasRead
  {
    if n > k + 1 {
      UnreadSinceClear(user, run, es, k, n - 1);
      assert run[n] == Apply(run[n - 1], user, es[n - 1]);
    }
  }

  /**
   * And when the user then reads and sends nothing, exactly those messages are unread, if and only if
   * the clear came to writing the cursor, or everything had been read.
   */
  lemma ClearThenUnread(user: string, run: seq<Seqs>, es: seq<Event>, k: nat, n: nat)
    requires IsRun(user, run, es) && k < n <= |es| && es[k].Clear?
    requires forall i | k < i < n :: es[i].Append? && (user !in es[i].senders || !es[i].noted)
    ensures run[n].max - run[n].hasRead == AppendedSince(es, k, n)
       <==> (run[k].max != 0 && es[k].hidden && es[k].noted) || run[k].hasRead == run[k].max
  {
    SinceClear(user, run, es, k, n);
    UnreadSinceClear(user, run, es, k, n);
    assert run[k + 1] == Apply(run[k], user, es[k]);
  }

  /** Clearing an empty conversation and then receiving one message counts two. */
  lemma ClearOfEmptyMiscounts(other: string, user: string)
    requires other != user
    ensures var s := Apply(Apply(UNUSED, user, Clear(false, true, true)), user, Append([other], true, true));
      s.max - s.userMin + 1 == 2
  {
  }
}
