/** What failing stores, and a conversation without an owner, can do to a message. */
module StorageFailures {
  import opened Messages
  import opened SeqCaches
  import opened Storage
  import opened StorageRuns
  import opened StorageSteps

  /**
   * The exact condition for Mongo: once a batch that was not there before has been handled, a reader
   * finds under the number of one of its messages what the cache still has there, if the clean-up
   * failed before it came to that number; and otherwise the message, if and only if Mongo took it
   * before it failed. The clean-up of the cache runs after a failed insert too.
   */
  lemma MongoFailureLoses(s: Stores, inserted: nat, deleted: nat, i: nat)
    requires s.toMongo != [] && inserted <= |s.toMongo[0].msgs| && i < |s.toMongo[0].msgs|
    requires Slot(s.toMongo[0].conversationID, s.toMongo[0].msgs[i].seqNo) !in s.mongo
    ensures
      var b, t := s.toMongo[0], MongoHandledStores(s, inserted, deleted);
      var slot := Slot(b.conversationID, b.msgs[i].seqNo);
      ReadBack(t.cache, t.mongo, slot)
      == if slot in s.cache && !Covers(b.(msgs := UpTo(b.msgs, deleted)), slot) then Some(s.cache[slot])
         else if Contiguous(b.msgs) && i < inserted then Some(b.msgs[i]) else None
  {
    var b := s.toMongo[0];
    var slot := Slot(b.conversationID, b.msgs[i].seqNo);
    assert Covers(b, slot);
    if Contiguous(b.msgs) {
      var taken := b.(msgs := b.msgs[..inserted]);
      PutLookup(s.mongo, b.conversationID, taken.msgs);
      if i < inserted { assert taken.msgs[i] == b.msgs[i]; }
      if Covers(taken, slot) {
        var k :| 0 <= k < |taken.msgs| && taken.msgs[k].seqNo == slot.seqNo;
        assert k == i;
      }
    }
  }

  /**
   * The exact condition for the cache, whose failures are only logged: under the number of a message
   * that was just stored, a reader finds the message if and only if it was written or was there
   * before; otherwise nothing, or another message, if one was left under that number by a batch whose
   * newest number could not be saved.
   */
  lemma CacheFailureHides(
    s: Stores, conversationID: string, storageList: seq<MsgData>, notStorageList: seq<MsgData>, f: Faults, i: nat)
    requires Numbers(storageList, f) && i < |storageList|
    requires Slot(conversationID, Stored(s.maxSeq, conversationID) + 1 + i) !in s.mongo
    ensures
      var base := Stored(s.maxSeq, conversationID);
      var slot := Slot(conversationID, base + 1 + i);
      var t := HandledStores(s, conversationID, storageList, notStorageList, f);
      ReadBack(t.cache, t.mongo, slot)
      == if i < f.written then Some(Numbered(storageList, base)[i])
         else if slot in s.cache then Some(s.cache[slot]) else None
  {
    CachePart(s.cache, conversationID, Numbered(storageList, Stored(s.maxSeq, conversationID)), f.written, i);
  }

  lemma CachePart(cache: Table, conversationID: string, numbered: seq<MsgData>, written: nat, i: nat)
    requires Contiguous(numbered) && i < |numbered|
    ensures
      var t := Put(cache, conversationID, UpTo(numbered, written));
      var slot := Slot(conversationID, numbered[i].seqNo);
      if i < written then Has(t, slot, numbered[i])
      else (slot in t <==> slot in cache) && (slot in cache ==> t[slot] == cache[slot])
  {
    var part := UpTo(numbered, written);
    var slot := Slot(conversationID, numbered[i].seqNo);
    PutLookup(cache, conversationID, part);
    if i < written {
      assert part[i] == numbered[i];
    } else {
      assert !Covers(Batch(conversationID, part), slot);
    }
  }

  lemma PutOne(table: Table, c: string, m: MsgData)
    ensures Put(table, c, [m]) == table[Slot(c, m.seqNo) := m]
  {
    assert [m][..0] == [];
  }

  const NO_FAULTS := Faults(false, SINGLE_GOC_MSG_NUM, false, {}, false, {}, {})

  /**
   * A cache that answers with the wrong message: the newest number cannot be saved after x was cached,
   * then y is given the same number and its own write to the cache fails.
   */
  lemma StaleCacheAnswers(c: string, x: MsgData, y: MsgData)
    ensures
      var empty := Stores(map[], map[], map[], [], []);
      var s := HandledStores(empty, c, [x], [], NO_FAULTS.(setMaxSeq := true));
      var t := HandledStores(s, c, [y], [], NO_FAULTS.(written := 0));
      && Stored(t.maxSeq, c) == 1 && t.toPush == [Pushed(c, y.(seqNo := 1))]
      && ReadBack(t.cache, t.mongo, Slot(c, 1)) == Some(x.(seqNo := 1))
  {
    var empty := Stores(map[], map[], map[], [], []);
    var first, second := NO_FAULTS.(setMaxSeq := true), NO_FAULTS.(written := 0);
    assert Numbered([x], 0) == [x.(seqNo := 1)] && Numbered([y], 0) == [y.(seqNo := 1)];
    PutOne(map[], c, x.(seqNo := 1));
    assert UpTo(Numbered([y], 0), 0) == [];
    var s := HandledStores(empty, c, [x], [], first);
    assert s.cache == map[Slot(c, 1) := x.(seqNo := 1)] && s.maxSeq == map[] && s.toPush == [];
    assert InsertedStores(s, c, [y], second).cache == s.cache;
  }

  // ----- A conversation without an owner -----

  predicate Fits(job: Job) {
    1 <= |job.storageList| <= SINGLE_GOC_MSG_NUM
  }

  /** A worker takes a job to where it has read the newest number. */
  lemma ReadsNewest(o: State, s: State, d: Data, w: nat, job: Job)
    requires w < |s.workers| && Fits(job) && Reaches(o, At(s, d, w, Free))
    ensures
      Reaches(o, At(s, AfterUnstored(d, job, NO_FAULTS), w, Caching(job, Stored(d.maxSeq, job.conversationID), 0)))
  {
    BeginReaches(o, s, d, w, job, NO_FAULTS);
    WorkReaches(o, s, AfterUnstored(d, job, NO_FAULTS), w, Asking(job), Ask(true));
  }

  /** The data after a job was stored and pushed under the numbers after `base`, whatever the newest one is now. */
  function StoredFrom(d: Data, job: Job, base: int): Data {
    var b := BatchOf(job, base);
    var pushed := PushSome(b.conversationID, b.msgs, {});
    d.(cache := Put(d.cache, b.conversationID, b.msgs), given := Put(d.given, b.conversationID, b.msgs),
       maxSeq := d.maxSeq[b.conversationID := base + |b.msgs|], success := d.success + Count(job),
       toMongo := d.toMongo + [b], toPush := d.toPush + pushed, stored := d.stored + pushed)
  }

  lemma CommittedFrom(d: Data, job: Job, base: int)
    ensures
      var cached := d.(cache := Put(d.cache, job.conversationID, Numbered(job.storageList, base)));
      StoredFrom(d, job, base)
      == AfterPush(Effect(cached, Caching(job, base, |job.storageList|), Commit(true)), BatchOf(job, base), NO_FAULTS)
  {
  }

  /** From there it goes on, whatever the other workers did meanwhile. */
  lemma StoresFrom(o: State, s: State, d: Data, w: nat, job: Job, base: int)
    requires w < |s.workers| && Fits(job) && Reaches(o, At(s, d, w, Caching(job, base, 0)))
    ensures Reaches(o, At(s, StoredFrom(d, job, base), w, Free))
  {
    var numbered, n := Numbered(job.storageList, base), |job.storageList|;
    CachingReaches(o, s, d, w, job, base, n);
    assert numbered[..n] == numbered;
    var cached := d.(cache := Put(d.cache, job.conversationID, numbered));
    WorkReaches(o, s, cached, w, Caching(job, base, n), Commit(true));
    PushReaches(o, s, Effect(cached, Caching(job, base, n), Commit(true)), w, BatchOf(job, base), NO_FAULTS);
    CommittedFrom(d, job, base);
  }

  lemma AtTwice(s: State, d: Data, e: Data, w: nat, p: Phase, v: nat, q: Phase)
    requires w < |s.workers| && v < |s.workers| && w != v
    ensures At(At(s, d, w, p), e, v, q) == At(At(s, d, v, q), e, w, p)
  {
    assert s.workers[w := p][v := q] == s.workers[v := q][w := p];
  }

  lemma AtSame(s: State, d: Data, w: nat)
    requires w < |s.workers|
    ensures At(s, d, w, s.workers[w]) == s.(data := d)
  {
    assert s.workers[w := s.workers[w]] == s.workers;
  }

  /** What two workers make of the data that take the same newest number. */
  function BothStored(d: Data, x: Job, y: Job): Data {
    var base := Stored(d.maxSeq, x.conversationID);
    StoredFrom(StoredFrom(AfterUnstored(AfterUnstored(d, x, NO_FAULTS), y, NO_FAULTS), x, base), y, base)
  }

  /** Two free workers can both read the newest number before either raises it. */
  lemma BothStore(s: State, w: nat, v: nat, x: Job, y: Job)
    requires w < |s.workers| && v < |s.workers| && w != v && s.workers[w].Free? && s.workers[v].Free?
    requires x.conversationID == y.conversationID && Fits(x) && Fits(y)
    ensures Reaches(s, s.(data := BothStored(s.data, x, y)))
  {
    var d, base := s.data, Stored(s.data.maxSeq, x.conversationID);
    var px, py := Caching(x, base, 0), Caching(y, base, 0);
    ReachesSelf(s);
    AtSame(s, d, w);
    ReadsNewest(s, s, d, w, x);
    var d1 := AfterUnstored(d, x, NO_FAULTS);
    var s1 := At(s, d1, w, px);
    AtSame(s1, d1, v);
    ReadsNewest(s, s1, d1, v, y);
    var d2 := AfterUnstored(d1, y, NO_FAULTS);
    AtTwice(s, d1, d2, w, px, v, py);
    StoresFrom(s, At(s, d1, v, py), d2, w, x, base);
    var d3 := StoredFrom(d2, x, base);
    AtTwice(s, d1, d3, v, py, w, Free);
    StoresFrom(s, At(s, d1, w, Free), d3, v, y, base);
    var d4 := StoredFrom(d3, y, base);
    assert At(At(s, d1, w, Free), d4, v, Free).workers == s.workers;
  }

  lemma {:induction false} AllPushed(conversationID: string, msgs: seq<MsgData>, i: nat)
    requires i < |msgs|
    ensures Pushed(conversationID, msgs[i]) in PushSome(conversationID, msgs, {})
  {
    if i < |msgs| - 1 {
      AllPushed(conversationID, msgs[..|msgs| - 1], i);
    }
  }

  lemma NumberedLookup(table: Table, job: Job, base: int, i: nat)
    requires i < |job.storageList|
    ensures Has(Put(table, job.conversationID, Numbered(job.storageList, base)), SlotAt(job, base, i),
                NumberedAt(job, base, i))
  {
    var numbered := Numbered(job.storageList, base);
    PutLookup(table, job.conversationID, numbered);
    assert Has(Put(table, job.conversationID, numbered), Slot(job.conversationID, numbered[i].seqNo), numbered[i]);
  }

  lemma NumberedPushed(job: Job, base: int, i: nat)
    requires i < |job.storageList|
    ensures Pushed(job.conversationID, NumberedAt(job, base, i))
         in PushSome(job.conversationID, Numbered(job.storageList, base), {})
  {
    AllPushed(job.conversationID, Numbered(job.storageList, base), i);
  }

  /** Each message is pushed and can be read back under its number; what was pushed before stays pushed. */
  lemma StoredFromFacts(d: Data, job: Job, base: int, i: nat)
    requires i < |job.storageList|
    ensures
      var e, c := StoredFrom(d, job, base), job.conversationID;
      && Pushed(c, NumberedAt(job, base, i)) in e.stored
      && ReadBack(e.cache, e.mongo, SlotAt(job, base, i)) == Some(NumberedAt(job, base, i))
  {
    NumberedLookup(d.cache, job, base, i);
    NumberedPushed(job, base, i);
  }

  /**
   * Without an owner, numbers go out twice: from any state, whatever two free workers are to store in
   * one conversation, up to a hundred messages each, both can come to be numbered from the same newest
   * number. The i-th messages of both are then pushed under one number, all of them count as stored,
   * the later worker's messages are the ones that can be read back, and the newest number is what that
   * worker made it, which can be less than a number already pushed.
   */
  lemma NumberTwice(s: State, w: nat, v: nat, x: Job, y: Job) returns (t: State)
    requires w < |s.workers| && v < |s.workers| && w != v && s.workers[w].Free? && s.workers[v].Free?
    requires x.conversationID == y.conversationID && Fits(x) && Fits(y)
    ensures Reaches(s, t) && t.workers == s.workers && t.consumers == s.consumers
    ensures
      var c, base, d := x.conversationID, Stored(s.data.maxSeq, x.conversationID), t.data;
      && (forall i | 0 <= i < |x.storageList| :: Pushed(c, NumberedAt(x, base, i)) in d.stored)
      && (forall i | 0 <= i < |y.storageList| :: Pushed(c, NumberedAt(y, base, i)) in d.stored)
      && (forall i | 0 <= i < |y.storageList| ::
            ReadBack(d.cache, d.mongo, SlotAt(y, base, i)) == Some(NumberedAt(y, base, i)))
      && d.success == s.data.success + Count(x) + Count(y)
      && Stored(d.maxSeq, c) == base + |y.storageList|
  {
    BothStore(s, w, v, x, y);
    t := s.(data := BothStored(s.data, x, y));
    var base := Stored(s.data.maxSeq, x.conversationID);
    var d := AfterUnstored(AfterUnstored(s.data, x, NO_FAULTS), y, NO_FAULTS);
    forall i | 0 <= i < |x.storageList| ensures Pushed(x.conversationID, NumberedAt(x, base, i)) in t.data.stored {
      StoredFromFacts(d, x, base, i);
    }
    forall i | 0 <= i < |y.storageList|
      ensures Pushed(y.conversationID, NumberedAt(y, base, i)) in t.data.stored
      ensures ReadBack(t.data.cache, t.data.mongo, SlotAt(y, base, i)) == Some(NumberedAt(y, base, i))
    {
      StoredFromFacts(StoredFrom(d, x, base), y, base, i);
    }
  }
}
