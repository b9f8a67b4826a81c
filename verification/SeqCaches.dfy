/**
 * The sequence numbers redis keeps (pkg/common/db/cache/msg.go): for each conversation the newest
 * number and the oldest one shown, for each of its users the oldest one shown and the read cursor. A
 * missing number reads as 0. The transfer process and the message server share them.
 */
module SeqCaches {
  import opened Messages

  /** What redis holds for one user and one conversation; `known` tells if there is a newest number. */
  datatype Seqs = Seqs(known: bool, max: int, min: int, userMin: int, hasRead: int)

  const UNUSED := Seqs(false, 0, 0, 0, 0)

  /** A row is found by conversation id, then user id. */
  type Key = (string, string)

  function Stored<K>(m: map<K, int>, k: K): int {
    if k in m then m[k] else 0
  }

  function LastIndex(us: seq<string>, u: string): (i: nat)
    requires u in us
    ensures i < |us| && us[i] == u && u !in us[i + 1..]
  {
    if us[|us| - 1] == u then |us| - 1
    else
      assert us == us[..|us| - 1] + [us[|us| - 1]];
      LastIndex(us[..|us| - 1], u)
  }

  predicate CanAppend(senders: seq<string>) {
    1 <= |senders| <= SINGLE_GOC_MSG_NUM
  }

  /**
   * A batch of new messages, as one user sees it: `saved` tells whether the newest number was raised,
   * `noted` whether the user's cursor was moved to the last message of its own, if there is one.
   */
  function Appended(s: Seqs, user: string, senders: seq<string>, saved: bool, noted: bool): Seqs {
    if !CanAppend(senders) then s
    else
      var raised := if saved then s.(known := true, max := s.max + |senders|) else s;
      if noted && user in senders then raised.(hasRead := s.max + LastIndex(senders, user) + 1) else raised
  }

  class SeqCache {
    var maxSeqs: map<string, int>
    var minSeqs: map<string, int>
    var userMinSeqs: map<Key, int>
    var hasReadSeqs: map<Key, int>

    ghost function At(conversationID: string, user: string): Seqs
      reads this
    {
      Seqs(conversationID in maxSeqs, Stored(maxSeqs, conversationID), Stored(minSeqs, conversationID),
           Stored(userMinSeqs, (conversationID, user)), Stored(hasReadSeqs, (conversationID, user)))
    }

    /** Nothing changes but what one user sees of one conversation. */
    twostate predicate OnlyFor(conversationID: string, user: string)
      reads this
    {
      forall c, u | (c, u) != (conversationID, user) :: At(c, u) == old(At(c, u))
    }

    /** SetHasReadSeqs, in any order; redis fails before it comes to the users in `unwritten`. */
    method SetHasReadSeqs(conversationID: string, seqs: map<string, int>, unwritten: set<string>)
      modifies this`hasReadSeqs
      ensures forall c, u ::
        Stored(hasReadSeqs, (c, u)) ==
        if c == conversationID && u in seqs && u !in unwritten then seqs[u] else Stored(old(hasReadSeqs), (c, u))
    {
      var left := seqs.Keys - unwritten;
      while left != {}
        invariant left <= seqs.Keys - unwritten
        invariant forall c, u ::
          Stored(hasReadSeqs, (c, u)) ==
          if c == conversationID && u in seqs && u !in unwritten && u !in left then seqs[u]
          else Stored(old(hasReadSeqs), (c, u))
      {
        var u :| u in left;
        hasReadSeqs := hasReadSeqs[(conversationID, u) := seqs[u]];
        left := left - {u};
      }
    }

    /** UserSetHasReadSeqs, in any order; redis fails before it comes to the conversations in `unwritten`. */
    method UserSetHasReadSeqs(user: string, seqs: map<string, int>, unwritten: set<string>) returns (ok: bool)
      modifies this`hasReadSeqs
      ensures ok == (seqs.Keys !! unwritten)
      ensures forall c, u ::
        Stored(hasReadSeqs, (c, u)) ==
        if u == user && c in seqs && c !in unwritten then seqs[c] else Stored(old(hasReadSeqs), (c, u))
    {
      hasReadSeqs, ok := WithConversations(hasReadSeqs, user, seqs, unwritten);
    }

    /** SetUserConversationsMinSeqs, in any order, likewise. */
    method SetUserConversationsMinSeqs(user: string, seqs: map<string, int>, unwritten: set<string>)
      returns (ok: bool)
      modifies this`userMinSeqs
      ensures ok == (seqs.Keys !! unwritten)
      ensures forall c, u ::
        Stored(userMinSeqs, (c, u)) ==
        if u == user && c in seqs && c !in unwritten then seqs[c] else Stored(old(userMinSeqs), (c, u))
    {
      userMinSeqs, ok := WithConversations(userMinSeqs, user, seqs, unwritten);
    }

    /** SetMinSeqs, in any order, likewise. */
    method SetMinSeqs(seqs: map<string, int>, unwritten: set<string>) returns (ok: bool)
      modifies this`minSeqs
      ensures ok == (seqs.Keys !! unwritten)
      ensures forall c ::
        Stored(minSeqs, c) == if c in seqs && c !in unwritten then seqs[c] else Stored(old(minSeqs), c)
    {
      var left := seqs.Keys - unwritten;
      while left != {}
        invariant left <= seqs.Keys - unwritten
        invariant forall c ::
          Stored(minSeqs, c) ==
          if c in seqs && c !in unwritten && c !in left then seqs[c] else Stored(old(minSeqs), c)
      {
        var c :| c in left;
        minSeqs := minSeqs[c := seqs[c]];
        left := left - {c};
      }
      ok := seqs.Keys !! unwritten;
    }

    /** getSeqs: numbers that are missing or 0 are left out. */
    method GetMaxSeqs(ids: seq<string>) returns (m: map<string, int>)
      ensures m == map c | c in ids && Stored(maxSeqs, c) != 0 :: Stored(maxSeqs, c)
    {
      m := map[];
      for i := 0 to |ids|
        invariant m == map c | c in ids[..i] && Stored(maxSeqs, c) != 0 :: Stored(maxSeqs, c)
      {
        assert ids[..i + 1] == ids[..i] + [ids[i]];
        if Stored(maxSeqs, ids[i]) != 0 {
          m := m[ids[i] := Stored(maxSeqs, ids[i])];
        }
      }
      assert ids[..|ids|] == ids;
    }
  }

  /**
   * setSeqs over the conversations of one user, in any order. It stops at the first write that fails,
   * so that some conversations, those in `unwritten`, keep their number, and says that it failed.
   */
  method WithConversations(table: map<Key, int>, user: string, seqs: map<string, int>, unwritten: set<string>)
    returns (t: map<Key, int>, ok: bool)
    ensures ok == (seqs.Keys !! unwritten)
    ensures forall c, u ::
      Stored(t, (c, u)) == if u == user && c in seqs && c !in unwritten then seqs[c] else Stored(table, (c, u))
  {
    t := table;
    var left := seqs.Keys - unwritten;
    while left != {}
      invariant left <= seqs.Keys - unwritten
      invariant forall c, u ::
        Stored(t, (c, u)) ==
        if u == user && c in seqs && c !in unwritten && c !in left then seqs[c] else Stored(table, (c, u))
    {
      var c :| c in left;
      t := t[(c, user) := seqs[c]];
      left := left - {c};
    }
    ok := seqs.Keys !! unwritten;
  }
}
