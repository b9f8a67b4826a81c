/**
 * Storing and pushing a batch: handleMsg and handleNotification on the worker side
 * (internal/msgtransfer/online_history_msg_handler.go), handleChatWs2Mongo on the Mongo side
 * (internal/msgtransfer/online_msg_to_mongo_handler.go), over the cache, the Mongo collection and the
 * two queues between them (pkg/common/db/controller/msg.go).
 */
module Storage {
  import opened Messages
  import opened SeqCaches

  /** Where a message is stored: its conversation and its sequence number there. */
  datatype Slot = Slot(conversationID: string, seqNo: int)

  /** A batch on its way to Mongo; its messages carry their sequence numbers. */
  datatype Batch = Batch(conversationID: string, msgs: seq<MsgData>)

  type Table = map<Slot, MsgData>

  /** The messages of a batch with the numbers after `base`. */
  function Numbered(msgs: seq<MsgData>, base: int): (r: seq<MsgData>)
    ensures |r| == |msgs|
    ensures forall i | 0 <= i < |msgs| :: r[i] == msgs[i].(seqNo := base + 1 + i)
  {
    seq(|msgs|, i requires 0 <= i < |msgs| => msgs[i].(seqNo := base + 1 + i))
  }

  function Put(table: Table, conversationID: string, msgs: seq<MsgData>): Table {
    if msgs == [] then table
    else
      var m := msgs[|msgs| - 1];
      Put(table, conversationID, msgs[..|msgs| - 1])[Slot(conversationID, m.seqNo) := m]
  }

  predicate Contiguous(msgs: seq<MsgData>) {
    forall i | 0 <= i < |msgs| :: msgs[i].seqNo == msgs[0].seqNo + i
  }

  predicate Covers(b: Batch, slot: Slot) {
    b.conversationID == slot.conversationID && exists i | 0 <= i < |b.msgs| :: b.msgs[i].seqNo == slot.seqNo
  }

  predicate Has(table: Table, slot: Slot, m: MsgData) {
    slot in table && table[slot] == m
  }

  lemma {:induction false} PutLookup(table: Table, conversationID: string, msgs: seq<MsgData>)
    requires Contiguous(msgs)
    ensures forall i | 0 <= i < |msgs| ::
      Has(Put(table, conversationID, msgs), Slot(conversationID, msgs[i].seqNo), msgs[i])
    ensures forall slot | !Covers(Batch(conversationID, msgs), slot) ::
      (slot in Put(table, conversationID, msgs) <==> slot in table)
      && (slot in table ==> Put(table, conversationID, msgs)[slot] == table[slot])
  {
    if msgs != [] {
      var init := msgs[..|msgs| - 1];
      PutLookup(table, conversationID, init);
      CoversLast(Batch(conversationID, msgs));
    }
  }

  lemma CoversLast(b: Batch)
    requires b.msgs != []
    ensures forall slot :: Covers(b, slot) <==>
      Covers(Batch(b.conversationID, b.msgs[..|b.msgs| - 1]), slot)
      || slot == Slot(b.conversationID, b.msgs[|b.msgs| - 1].seqNo)
  {
    CoversStep(b, |b.msgs| - 1);
    assert b.msgs[..|b.msgs|] == b.msgs;
  }

  // ----- One batch, start to end -----

  datatype Pushed = Pushed(conversationID: string, msg: MsgData)

  /** Messages queued for push one by one; those at the positions in `lost` fail, which is only logged. */
  function PushSome(conversationID: string, msgs: seq<MsgData>, lost: set<nat>): seq<Pushed> {
    if msgs == [] then []
    else
      PushSome(conversationID, msgs[..|msgs| - 1], lost)
      + (if |msgs| - 1 in lost then [] else [Pushed(conversationID, msgs[|msgs| - 1])])
  }

  /**
   * Which calls to the stores fail while a batch is handled: reading or raising the newest number, the
   * cache writes after the first `written`, the cursors of the senders in `unnoted`, the Mongo queue,
   * and the push queue at some positions of the unstored and of the stored messages.
   */
  datatype Faults = Faults(
    getMaxSeq: bool,
    written: nat,
    setMaxSeq: bool,
    unnoted: set<string>,
    mongoMQ: bool,
    unpushed: set<nat>,
    unpushedStored: set<nat>)

  /** Whether a batch gets as far as being numbered, and whether its numbers then stand. */
  predicate Attempted(storageList: seq<MsgData>, f: Faults) {
    !f.getMaxSeq && 1 <= |storageList| <= SINGLE_GOC_MSG_NUM
  }

  predicate Numbers(storageList: seq<MsgData>, f: Faults) {
    Attempted(storageList, f) && !f.setMaxSeq
  }

  /** What the stores hold. */
  datatype Stores = Stores(
    maxSeq: map<string, int>,
    cache: Table,
    mongo: Table,
    toMongo: seq<Batch>,
    toPush: seq<Pushed>)

  /** The messages a loop gets to that stops before the one at position `n`. */
  function UpTo(msgs: seq<MsgData>, n: nat): seq<MsgData> {
    if n < |msgs| then msgs[..n] else msgs
  }

  function Senders(msgs: seq<MsgData>): (r: seq<string>)
    ensures |r| == |msgs|
    ensures forall i | 0 <= i < |msgs| :: r[i] == msgs[i].sendID
  {
    seq(|msgs|, i requires 0 <= i < |msgs| => msgs[i].sendID)
  }

  /** What one call of BatchInsertChat2Cache does to the numbers and the cache. */
  function InsertedStores(s: Stores, conversationID: string, storageList: seq<MsgData>, f: Faults): Stores {
    var base := Stored(s.maxSeq, conversationID);
    var numbered := Numbered(storageList, base);
    if !Attempted(storageList, f) then s
    else
      var cached := s.(cache := Put(s.cache, conversationID, UpTo(numbered, f.written)));
      if f.setMaxSeq then cached else cached.(maxSeq := s.maxSeq[conversationID := base + |storageList|])
  }

  /**
   * What handling a batch does to the stores: unstored messages are pushed in any case; the stored ones
   * are numbered, cached, queued for Mongo as one batch and pushed, in that order.
   */
  function HandledStores(s: Stores, conversationID: string, storageList: seq<MsgData>, notStorageList: seq<MsgData>,
                         f: Faults): Stores {
    var numbered := Numbered(storageList, Stored(s.maxSeq, conversationID));
    var pushed := s.(toPush := s.toPush + PushSome(conversationID, notStorageList, f.unpushed));
    var t := InsertedStores(pushed, conversationID, storageList, f);
    if !Numbers(storageList, f) then t
    else
      t.(toMongo := t.toMongo + (if f.mongoMQ then [] else [Batch(conversationID, numbered)]),
         toPush := t.toPush + PushSome(conversationID, numbered, f.unpushedStored))
  }

  /**
   * What handling the next queued batch does: Mongo refuses a batch whose numbers are not consecutive
   * and may fail after `inserted` messages; the messages leave the cache all the same, up to a failure
   * after the first `deleted`.
   */
  function MongoHandledStores(s: Stores, inserted: nat, deleted: nat): Stores
    requires s.toMongo != [] && inserted <= |s.toMongo[0].msgs|
  {
    var b := s.toMongo[0];
    s.(toMongo := s.toMongo[1..],
       mongo := if Contiguous(b.msgs) then Put(s.mongo, b.conversationID, b.msgs[..inserted]) else s.mongo,
       cache := s.cache - (set slot | slot in s.cache && Covers(b.(msgs := UpTo(b.msgs, deleted)), slot)))
  }

  /** The stores one transfer process writes to, and its two counters. */
  class MsgDatabase {
    const seqs: SeqCache
    var cache: Table
    var mongo: Table
    var toMongo: seq<Batch>
    var toPush: seq<Pushed>
    var singleMsgSuccessCount: nat
    var singleMsgFailedCount: nat

    ghost function View(): Stores
      reads this, seqs
    {
      Stores(seqs.maxSeqs, cache, mongo, toMongo, toPush)
    }

    constructor (seqs: SeqCache)
      ensures this.seqs == seqs && View() == Stores(seqs.maxSeqs, map[], map[], [], [])
      ensures singleMsgSuccessCount == singleMsgFailedCount == 0
    {
      this.seqs := seqs;
      cache, mongo, toMongo, toPush := map[], map[], [], [];
      singleMsgSuccessCount, singleMsgFailedCount := 0, 0;
    }

    /** How the numbers look to every user of every conversation after a batch was inserted. */
    twostate predicate SeqsMoved(conversationID: string, msgs: seq<MsgData>, f: Faults)
      reads this, seqs
    {
      forall c, u ::
        seqs.At(c, u) ==
        if c == conversationID && Attempted(msgs, f)
        then Appended(old(seqs.At(c, u)), u, Senders(msgs), !f.setMaxSeq, u !in f.unnoted)
        else old(seqs.At(c, u))
    }

    /** BatchInsertChat2Cache, with the loops that number the messages and write them to the cache. */
    method BatchInsertChat2Cache(conversationID: string, msgs: seq<MsgData>, f: Faults)
      returns (ok: bool, numbered: seq<MsgData>)
      modifies this`cache, seqs`maxSeqs, seqs`hasReadSeqs
      ensures ok == Numbers(msgs, f)
      ensures View() == InsertedStores(old(View()), conversationID, msgs, f)
      ensures ok ==> numbered == Numbered(msgs, Stored(old(seqs.maxSeqs), conversationID))
      ensures SeqsMoved(conversationID, msgs, f)
    {
      numbered := [];
      if f.getMaxSeq {
        return false, numbered;
      }
      var base := Stored(seqs.maxSeqs, conversationID);
      if |msgs| > SINGLE_GOC_MSG_NUM || |msgs| < 1 {
        return false, numbered;
      }
      var currentMaxSeq, userSeqMap;
      numbered, currentMaxSeq, userSeqMap := NumberMessages(msgs, base);
      SetMessageToCache(conversationID, numbered, f.written);
      RaiseSeqs(conversationID, msgs, currentMaxSeq, userSeqMap, f);
      ok := !f.setMaxSeq;
    }

    /** The two writes of sequence numbers, of which the second is tried in any case. */
    method RaiseSeqs(
      conversationID: string, msgs: seq<MsgData>, currentMaxSeq: int, userSeqMap: map<string, int>, f: Faults)
      requires Attempted(msgs, f) && currentMaxSeq == Stored(seqs.maxSeqs, conversationID) + |msgs|
      requires forall u :: u in userSeqMap <==> u in Senders(msgs)
      requires forall u <- userSeqMap ::
        userSeqMap[u] == Stored(seqs.maxSeqs, conversationID) + LastIndex(Senders(msgs), u) + 1
      modifies seqs`maxSeqs, seqs`hasReadSeqs
      ensures seqs.maxSeqs
           == if f.setMaxSeq then old(seqs.maxSeqs) else old(seqs.maxSeqs)[conversationID := currentMaxSeq]
      ensures SeqsMoved(conversationID, msgs, f)
    {
      if !f.setMaxSeq {
        seqs.maxSeqs := seqs.maxSeqs[conversationID := currentMaxSeq];
      }
      seqs.SetHasReadSeqs(conversationID, userSeqMap, f.unnoted);
      forall c, u
        ensures seqs.At(c, u) ==
          if c == conversationID
          then Appended(old(seqs.At(c, u)), u, Senders(msgs), !f.setMaxSeq, u !in f.unnoted)
          else old(seqs.At(c, u))
      {
        assert Stored(seqs.hasReadSeqs, (c, u)) ==
          if c == conversationID && u in userSeqMap && u !in f.unnoted then userSeqMap[u]
          else Stored(old(seqs.hasReadSeqs), (c, u));
        if c == conversationID {
          SeqsOfAppended(old(seqs.At(c, u)), seqs.At(c, u), u, Senders(msgs), !f.setMaxSeq, u !in f.unnoted);
        }
      }
    }

    /** SetMessageToCache, which stops at the first write that fails. */
    method SetMessageToCache(conversationID: string, msgs: seq<MsgData>, written: nat)
      modifies this`cache
      ensures cache == Put(old(cache), conversationID, UpTo(msgs, written))
    {
      for i := 0 to |msgs|
        invariant i <= written && cache == Put(old(cache), conversationID, msgs[..i])
      {
        if i == written {
          return;
        }
        assert msgs[..i + 1][..i] == msgs[..i];
        cache := cache[Slot(conversationID, msgs[i].seqNo) := msgs[i]];
      }
      assert msgs[..|msgs|] == msgs;
    }

    /** toPushTopic. */
    method ToPushTopic(conversationID: string, msgs: seq<MsgData>, lost: set<nat>)
      modifies this`toPush
      ensures toPush == old(toPush) + PushSome(conversationID, msgs, lost)
    {
      for i := 0 to |msgs|
        invariant toPush == old(toPush) + PushSome(conversationID, msgs[..i], lost)
      {
        assert msgs[..i + 1][..i] == msgs[..i];
        if i !in lost {
          toPush := toPush + [Pushed(conversationID, msgs[i])];
        }
      }
      assert msgs[..|msgs|] == msgs;
    }

    /** handleMsg: every chat message submitted for storage ends in exactly one of the two counters. */
    method HandleMsg(conversationID: string, storageList: seq<MsgData>, notStorageList: seq<MsgData>, f: Faults)
      modifies this, seqs
      ensures View() == HandledStores(old(View()), conversationID, storageList, notStorageList, f)
      ensures SeqsMoved(conversationID, storageList, f)
      ensures singleMsgSuccessCount
           == old(singleMsgSuccessCount) + (if Numbers(storageList, f) then |storageList| else 0)
      ensures singleMsgFailedCount
           == old(singleMsgFailedCount) + (if Numbers(storageList, f) then 0 else |storageList|)
    {
      ToPushTopic(conversationID, notStorageList, f.unpushed);
      if |storageList| > 0 {
        var ok, numbered := BatchInsertChat2Cache(conversationID, storageList, f);
        if !ok {
          singleMsgFailedCount := singleMsgFailedCount + |storageList|;
          return;
        }
        singleMsgSuccessCount := singleMsgSuccessCount + |storageList|;
        MsgToMongoMQ(conversationID, numbered, f.mongoMQ);
        ToPushTopic(conversationID, numbered, f.unpushedStored);
      }
    }

    method MsgToMongoMQ(conversationID: string, msgs: seq<MsgData>, fails: bool)
      modifies this`toMongo
      ensures toMongo == old(toMongo) + (if fails || msgs == [] then [] else [Batch(conversationID, msgs)])
    {
      if |msgs| > 0 && !fails {
        toMongo := toMongo + [Batch(conversationID, msgs)];
      }
    }

    /** handleNotification: the same flow, without the counters. */
    method HandleNotification(
      conversationID: string, storageList: seq<MsgData>, notStorageList: seq<MsgData>, f: Faults)
      modifies this, seqs
      ensures View() == HandledStores(old(View()), conversationID, storageList, notStorageList, f)
      ensures SeqsMoved(conversationID, storageList, f)
      ensures singleMsgSuccessCount == old(singleMsgSuccessCount) && singleMsgFailedCount == old(singleMsgFailedCount)
    {
      ToPushTopic(conversationID, notStorageList, f.unpushed);
      if |storageList| > 0 {
        var ok, numbered := BatchInsertChat2Cache(conversationID, storageList, f);
        if !ok {
          return;
        }
        MsgToMongoMQ(conversationID, numbered, f.mongoMQ);
        ToPushTopic(conversationID, numbered, f.unpushedStored);
      }
    }

    /** BatchInsertChat2DB, down to a failure after `inserted` messages. */
    method BatchInsertChat2DB(b: Batch, inserted: nat)
      requires inserted <= |b.msgs|
      modifies this`mongo
      ensures mongo == if Contiguous(b.msgs) then Put(old(mongo), b.conversationID, b.msgs[..inserted]) else old(mongo)
    {
      if Contiguous(b.msgs) {
        for i := 0 to inserted
          invariant mongo == Put(old(mongo), b.conversationID, b.msgs[..i])
        {
          assert b.msgs[..i + 1][..i] == b.msgs[..i];
          mongo := mongo[Slot(b.conversationID, b.msgs[i].seqNo) := b.msgs[i]];
        }
      }
    }

    /** The loop that collects the numbers, and DeleteMessagesFromCache, which stops at its first failure. */
    method DeleteFromCache(b: Batch, deleted: nat)
      modifies this`cache
      ensures cache
           == old(cache) - (set slot | slot in old(cache) && Covers(b.(msgs := UpTo(b.msgs, deleted)), slot))
    {
      var nums := [];
      for i := 0 to |b.msgs|
        invariant |nums| == i && forall j | 0 <= j < i :: nums[j] == b.msgs[j].seqNo
        invariant cache == old(cache)
      {
        nums := nums + [b.msgs[i].seqNo];
      }
      for i := 0 to |nums|
        invariant i <= deleted
        invariant cache
               == old(cache) - (set slot | slot in old(cache) && Covers(Batch(b.conversationID, b.msgs[..i]), slot))
      {
        if i == deleted {
          return;
        }
        CoversStep(b, i);
        cache := cache - {Slot(b.conversationID, nums[i])};
      }
      assert b.msgs[..|b.msgs|] == b.msgs;
    }

    /** handleChatWs2Mongo on the next queued batch. */
    method HandleChatWs2Mongo(inserted: nat, deleted: nat)
      requires toMongo != [] && inserted <= |toMongo[0].msgs|
      modifies this
      ensures View() == MongoHandledStores(old(View()), inserted, deleted)
      ensures singleMsgSuccessCount == old(singleMsgSuccessCount) && singleMsgFailedCount == old(singleMsgFailedCount)
    {
      var b := toMongo[0];
      toMongo := toMongo[1..];
      if |b.msgs| == 0 {
        assert b.msgs[..inserted] == [];
        assert forall slot :: !Covers(b.(msgs := UpTo(b.msgs, deleted)), slot);
        return;
      }
      BatchInsertChat2DB(b, inserted);
      DeleteFromCache(b, deleted);
    }
  }

  lemma SeqsOfAppended(before: Seqs, after: Seqs, u: string, senders: seq<string>, saved: bool, noted: bool)
    requires CanAppend(senders) && after.min == before.min && after.userMin == before.userMin
    requires after.known == (before.known || saved) && after.max == before.max + if saved then |senders| else 0
    requires after.hasRead == if noted && u in senders then before.max + LastIndex(senders, u) + 1 else before.hasRead
    ensures after == Appended(before, u, senders, saved, noted)
  {
  }

  /** The numbering loop of BatchInsertChat2Cache: the messages, and the number of each sender's last one. */
  method NumberMessages(msgs: seq<MsgData>, base: int)
    returns (numbered: seq<MsgData>, currentMaxSeq: int, userSeqMap: map<string, int>)
    ensures numbered == Numbered(msgs, base) && currentMaxSeq == base + |msgs|
    ensures forall u :: u in userSeqMap <==> u in Senders(msgs)
    ensures forall u <- userSeqMap :: userSeqMap[u] == base + LastIndex(Senders(msgs), u) + 1
  {
    numbered, currentMaxSeq, userSeqMap := [], base, map[];
    ghost var senders := Senders(msgs);
    for i := 0 to |msgs|
      invariant currentMaxSeq == base + i && numbered == Numbered(msgs, base)[..i]
      invariant forall u :: u in userSeqMap <==> u in senders[..i]
      invariant forall u <- userSeqMap :: u in senders[..i] && userSeqMap[u] == base + LastIndex(senders[..i], u) + 1
    {
      assert senders[..i + 1] == senders[..i] + [senders[i]];
      assert senders[..i + 1][..i] == senders[..i];
      currentMaxSeq := currentMaxSeq + 1;
      numbered := numbered + [msgs[i].(seqNo := currentMaxSeq)];
      userSeqMap := userSeqMap[msgs[i].sendID := currentMaxSeq];
    }
    assert senders[..|msgs|] == senders && numbered == Numbered(msgs, base);
  }

  lemma CoversStep(b: Batch, i: nat)
    requires i < |b.msgs|
    ensures forall slot ::
      Covers(Batch(b.conversationID, b.msgs[..i + 1]), slot)
      <==> Covers(Batch(b.conversationID, b.msgs[..i]), slot) || slot == Slot(b.conversationID, b.msgs[i].seqNo)
  {
    forall slot: Slot
      ensures Covers(Batch(b.conversationID, b.msgs[..i + 1]), slot)
         <==> Covers(Batch(b.conversationID, b.msgs[..i]), slot) || slot == Slot(b.conversationID, b.msgs[i].seqNo)
    {
      if Covers(Batch(b.conversationID, b.msgs[..i]), slot) {
        var j :| 0 <= j < i && b.msgs[..i][j].seqNo == slot.seqNo;
        assert b.msgs[..i + 1][j].seqNo == slot.seqNo;
      }
      if slot == Slot(b.conversationID, b.msgs[i].seqNo) {
        assert b.msgs[..i + 1][i].seqNo == slot.seqNo;
      }
    }
  }
}
