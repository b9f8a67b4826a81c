/** The steps of StorageRuns add up to the handlers of Storage, with every fault a handler can meet. */
module StorageSteps {
  import opened Messages
  import opened SeqCaches
  import opened Storage
  import opened StorageRuns

  // ----- Reachability -----

  ghost predicate IsPath(run: seq<State>, actions: seq<Action>, s: State, t: State) {
    && |run| == |actions| + 1 && run[0] == s && run[|actions|] == t
    && forall i | 0 <= i < |actions| :: Step(run[i], actions[i], run[i + 1])
  }

  ghost predicate Reaches(s: State, t: State) {
    exists run, actions :: IsPath(run, actions, s, t)
  }

  lemma ReachesSelf(s: State)
    ensures Reaches(s, s)
  {
    assert IsPath([s], [], s, s);
  }

  lemma ReachesStep(s: State, m: State, a: Action, t: State)
    requires Reaches(s, m) && Step(m, a, t)
    ensures Reaches(s, t)
  {
    var run, actions :| IsPath(run, actions, s, m);
    var run', actions' := run + [t], actions + [a];
    forall i | 0 <= i < |actions'| ensures Step(run'[i], actions'[i], run'[i + 1]) {
      if i < |actions| { assert Step(run[i], actions[i], run[i + 1]); }
    }
    assert IsPath(run', actions', s, t);
  }

  // ----- A worker left alone -----

  /** The whole state, given the data and the phase of the one worker that acts. */
  function At(s: State, d: Data, w: nat, p: Phase): State
    requires w < |s.workers|
  {
    State(d, s.workers[w := p], s.consumers)
  }

  /** One operation of a worker whose phase is known. */
  lemma WorkReaches(o: State, s: State, d: Data, w: nat, p: Phase, work: Work)
    requires w < |s.workers| && Enabled(p, work) && Reaches(o, At(s, d, w, p))
    ensures Reaches(o, At(s, Effect(d, p, work), w, Next(d.maxSeq, p, work)))
  {
    var m, t := At(s, d, w, p), At(s, Effect(d, p, work), w, Next(d.maxSeq, p, work));
    assert m.workers[w := Next(d.maxSeq, p, work)] == t.workers;
    ReachesStep(o, m, Worker(w, work), t);
  }

  lemma {:induction false} UnstoredReaches(o: State, s: State, d: Data, w: nat, job: Job, lost: set<nat>, k: nat)
    requires w < |s.workers| && k <= |job.notStorageList| && Reaches(o, At(s, d, w, Unstored(job, 0)))
    ensures
      var pushed := PushSome(job.conversationID, job.notStorageList[..k], lost);
      Reaches(o, At(s, d.(toPush := d.toPush + pushed), w, Unstored(job, k)))
  {
    var ms := job.notStorageList;
    if k == 0 {
      assert d.toPush + [] == d.toPush && ms[..0] == [];
    } else {
      UnstoredReaches(o, s, d, w, job, lost, k - 1);
      var e := d.(toPush := d.toPush + PushSome(job.conversationID, ms[..k - 1], lost));
      WorkReaches(o, s, e, w, Unstored(job, k - 1), PushUnstored(k - 1 !in lost));
      PushSomeStep(d.toPush, job.conversationID, ms, lost, k);
    }
  }

  lemma PushSomeStep(queue: seq<Pushed>, conversationID: string, ms: seq<MsgData>, lost: set<nat>, k: nat)
    requires 0 < k <= |ms|
    ensures queue + PushSome(conversationID, ms[..k], lost)
         == if k - 1 in lost then queue + PushSome(conversationID, ms[..k - 1], lost)
            else queue + PushSome(conversationID, ms[..k - 1], lost) + [Pushed(conversationID, ms[k - 1])]
  {
    assert ms[..k][..k - 1] == ms[..k - 1];
  }

  lemma {:induction false} CachingReaches(o: State, s: State, d: Data, w: nat, job: Job, base: int, k: nat)
    requires w < |s.workers| && k <= |job.storageList| && Reaches(o, At(s, d, w, Caching(job, base, 0)))
    ensures
      var cache := Put(d.cache, job.conversationID, Numbered(job.storageList, base)[..k]);
      Reaches(o, At(s, d.(cache := cache), w, Caching(job, base, k)))
  {
    var numbered := Numbered(job.storageList, base);
    if k == 0 {
      assert numbered[..0] == [];
    } else {
      CachingReaches(o, s, d, w, job, base, k - 1);
      var e := d.(cache := Put(d.cache, job.conversationID, numbered[..k - 1]));
      WorkReaches(o, s, e, w, Caching(job, base, k - 1), CacheOne);
      assert numbered[..k][..k - 1] == numbered[..k - 1];
    }
  }

  lemma {:induction false} StoredReaches(o: State, s: State, d: Data, w: nat, b: Batch, lost: set<nat>, k: nat)
    requires w < |s.workers| && k <= |b.msgs| && Reaches(o, At(s, d, w, Pushing(b, 0)))
    ensures
      var pushed := PushSome(b.conversationID, b.msgs[..k], lost);
      Reaches(o, At(s, d.(toPush := d.toPush + pushed, stored := d.stored + pushed), w, Pushing(b, k)))
  {
    if k == 0 {
      assert d.toPush + [] == d.toPush && d.stored + [] == d.stored && b.msgs[..0] == [];
    } else {
      StoredReaches(o, s, d, w, b, lost, k - 1);
      var pushed := PushSome(b.conversationID, b.msgs[..k - 1], lost);
      var e := d.(toPush := d.toPush + pushed, stored := d.stored + pushed);
      WorkReaches(o, s, e, w, Pushing(b, k - 1), PushOne(k - 1 !in lost));
      PushSomeStep(d.toPush, b.conversationID, b.msgs, lost, k);
      PushSomeStep(d.stored, b.conversationID, b.msgs, lost, k);
    }
  }

  // ----- The handlers -----

  function StoresOf(d: Data): Stores {
    Stores(d.maxSeq, d.cache, d.mongo, d.toMongo, d.toPush)
  }

  function WithStores(d: Data, t: Stores): Data {
    d.(maxSeq := t.maxSeq, cache := t.cache, mongo := t.mongo, toMongo := t.toMongo, toPush := t.toPush)
  }

  /** The data after a job was handled, its counters and its bookkeeping included. */
  function AfterJob(d: Data, job: Job, f: Faults): Data {
    var t := WithStores(d, HandledStores(StoresOf(d), job.conversationID, job.storageList, job.notStorageList, f));
    if !Numbers(job.storageList, f) then t.(submitted := d.submitted + Count(job), failed := d.failed + Count(job))
    else
      var b := BatchOf(job, Stored(d.maxSeq, job.conversationID));
      t.(submitted := d.submitted + Count(job), success := d.success + Count(job),
         given := Put(d.given, b.conversationID, b.msgs),
         stored := d.stored + PushSome(b.conversationID, b.msgs, f.unpushedStored))
  }

  /** The same up to where the batch has its numbers, or was refused them. */
  function AfterInsert(d: Data, job: Job, f: Faults): Data {
    var t := WithStores(d, InsertedStores(StoresOf(d), job.conversationID, job.storageList, f));
    if !Numbers(job.storageList, f) then t.(failed := d.failed + Count(job))
    else
      var b := BatchOf(job, Stored(d.maxSeq, job.conversationID));
      t.(success := d.success + Count(job), given := Put(d.given, b.conversationID, b.msgs))
  }

  /** Once its batch is numbered, a worker goes on to queue and push it. */
  function AfterPush(d: Data, b: Batch, f: Faults): Data {
    var pushed := PushSome(b.conversationID, b.msgs, f.unpushedStored);
    d.(toMongo := d.toMongo + (if f.mongoMQ then [] else [b]), toPush := d.toPush + pushed, stored := d.stored + pushed)
  }

  lemma PushReaches(o: State, s: State, d: Data, w: nat, b: Batch, f: Faults)
    requires w < |s.workers| && Reaches(o, At(s, d, w, Queueing(b)))
    ensures Reaches(o, At(s, AfterPush(d, b, f), w, Free))
  {
    WorkReaches(o, s, d, w, Queueing(b), Enqueue(!f.mongoMQ));
    assert d.toMongo + [] == d.toMongo && b.msgs[..|b.msgs|] == b.msgs;
    var e := d.(toMongo := d.toMongo + (if f.mongoMQ then [] else [b]));
    StoredReaches(o, s, e, w, b, f.unpushedStored, |b.msgs|);
    WorkReaches(o, s, AfterPush(d, b, f), w, Pushing(b, |b.msgs|), EndPush);
  }

  lemma RefusedInsert(d: Data, job: Job, f: Faults)
    requires job.storageList != [] && !Attempted(job.storageList, f)
    ensures AfterInsert(d, job, f) == Effect(d, Asking(job), Ask(!f.getMaxSeq))
    ensures Next(d.maxSeq, Asking(job), Ask(!f.getMaxSeq)) == Free
  {
  }

  lemma CommittedInsert(d: Data, job: Job, f: Faults, base: int, done: nat)
    requires Attempted(job.storageList, f) && base == Stored(d.maxSeq, job.conversationID)
    ensures
      var cached := d.(cache := Put(d.cache, job.conversationID, UpTo(Numbered(job.storageList, base), f.written)));
      AfterInsert(d, job, f) == Effect(cached, Caching(job, base, done), Commit(!f.setMaxSeq))
  {
    var t := InsertedStores(StoresOf(d), job.conversationID, job.storageList, f);
    assert t.toMongo == d.toMongo && t.mongo == d.mongo && t.toPush == d.toPush;
  }

  /** What a worker with something to store reaches from where it reads the newest number. */
  lemma AskedReaches(o: State, s: State, d: Data, w: nat, job: Job, f: Faults)
    requires w < |s.workers| && job.storageList != [] && Reaches(o, At(s, d, w, Asking(job)))
    ensures
      var b := BatchOf(job, Stored(d.maxSeq, job.conversationID));
      var p := if Numbers(job.storageList, f) then Queueing(b) else Free;
      Reaches(o, At(s, AfterInsert(d, job, f), w, p))
  {
    WorkReaches(o, s, d, w, Asking(job), Ask(!f.getMaxSeq));
    if Attempted(job.storageList, f) {
      CachedReaches(o, s, d, w, job, f);
    } else {
      RefusedInsert(d, job, f);
    }
  }

  lemma CachedReaches(o: State, s: State, d: Data, w: nat, job: Job, f: Faults)
    requires w < |s.workers| && Attempted(job.storageList, f)
    requires Reaches(o, At(s, d, w, Caching(job, Stored(d.maxSeq, job.conversationID), 0)))
    ensures
      var p := if f.setMaxSeq then Free else Queueing(BatchOf(job, Stored(d.maxSeq, job.conversationID)));
      Reaches(o, At(s, AfterInsert(d, job, f), w, p))
  {
    var base := Stored(d.maxSeq, job.conversationID);
    var numbered := Numbered(job.storageList, base);
    var k := if f.written < |numbered| then f.written else |numbered|;
    CachingReaches(o, s, d, w, job, base, k);
    assert numbered[..|numbered|] == numbered;
    var e := d.(cache := Put(d.cache, job.conversationID, UpTo(numbered, f.written)));
    WorkReaches(o, s, e, w, Caching(job, base, k), Commit(!f.setMaxSeq));
    CommittedInsert(d, job, f, base, k);
  }

  /** A job up to where it asks for numbers. */
  function AfterUnstored(d: Data, job: Job, f: Faults): Data {
    d.(submitted := d.submitted + Count(job),
       toPush := d.toPush + PushSome(job.conversationID, job.notStorageList, f.unpushed))
  }

  lemma NothingToStore(d: Data, job: Job, f: Faults)
    requires job.storageList == []
    ensures AfterJob(d, job, f) == AfterUnstored(d, job, f)
  {
  }

  lemma UnnumberedJob(d: Data, job: Job, f: Faults)
    requires !Numbers(job.storageList, f)
    ensures AfterJob(d, job, f) == AfterInsert(AfterUnstored(d, job, f), job, f)
  {
  }

  lemma NumberedJob(d: Data, job: Job, f: Faults)
    requires Numbers(job.storageList, f)
    ensures
      var b := BatchOf(job, Stored(d.maxSeq, job.conversationID));
      AfterJob(d, job, f) == AfterPush(AfterInsert(AfterUnstored(d, job, f), job, f), b, f)
  {
    var e := AfterUnstored(d, job, f);
    var t := InsertedStores(StoresOf(e), job.conversationID, job.storageList, f);
    assert t.toMongo == d.toMongo && t.mongo == d.mongo && t.toPush == e.toPush;
  }

  /** A worker takes a job to where it has pushed what is not stored. */
  lemma BeginReaches(o: State, s: State, d: Data, w: nat, job: Job, f: Faults)
    requires w < |s.workers| && Reaches(o, At(s, d, w, Free))
    ensures
      var p := if job.storageList == [] then Free else Asking(job);
      Reaches(o, At(s, AfterUnstored(d, job, f), w, p))
  {
    var ms := job.notStorageList;
    assert ms[..|ms|] == ms;
    WorkReaches(o, s, d, w, Free, Begin(job));
    UnstoredReaches(o, s, d.(submitted := d.submitted + Count(job)), w, job, f.unpushed, |ms|);
    WorkReaches(o, s, AfterUnstored(d, job, f), w, Unstored(job, |ms|), EndUnstored);
  }

  /**
   * The steps add up to the handlers: whatever fails, a worker left alone takes a job through its steps
   * to the very stores that Storage.MsgDatabase.HandleMsg and HandleNotification promise.
   */
  lemma HandledBySteps(s: State, w: nat, job: Job, f: Faults)
    requires w < |s.workers| && s.workers[w].Free?
    ensures Reaches(s, s.(data := AfterJob(s.data, job, f)))
  {
    var d := s.data;
    assert s.workers[w := Free] == s.workers;
    assert At(s, d, w, Free) == s && At(s, AfterJob(d, job, f), w, Free) == s.(data := AfterJob(d, job, f));
    ReachesSelf(s);
    BeginReaches(s, s, d, w, job, f);
    var e := AfterUnstored(d, job, f);
    if job.storageList == [] {
      NothingToStore(d, job, f);
    } else {
      AskedReaches(s, s, e, w, job, f);
      if Numbers(job.storageList, f) {
        PushReaches(s, s, AfterInsert(e, job, f), w, BatchOf(job, Stored(e.maxSeq, job.conversationID)), f);
        NumberedJob(d, job, f);
      } else {
        UnnumberedJob(d, job, f);
      }
    }
  }

  // ----- A consumer left alone -----

  /** The data after the first `k` messages of a batch left the cache. */
  function Cleaned(d: Data, b: Batch, k: nat): Data
    requires k <= |b.msgs|
  {
    d.(cache := d.cache - (set slot | slot in d.cache && Covers(b.(msgs := b.msgs[..k]), slot)))
  }

  lemma CleanedStep(d: Data, b: Batch, k: nat)
    requires 0 < k <= |b.msgs|
    ensures Cleaned(d, b, k).cache == Cleaned(d, b, k - 1).cache - {Slot(b.conversationID, b.msgs[k - 1].seqNo)}
  {
    CoversStep(b, k - 1);
  }

  lemma {:induction false} DeletesReach(o: State, s: State, j: nat, k: nat)
    requires j < |s.consumers| && s.consumers[j].Deleting? && s.consumers[j].removed == 0
    requires k <= |s.consumers[j].batch.msgs| && Reaches(o, s)
    ensures
      var b := s.consumers[j].batch;
      Reaches(o, State(Cleaned(s.data, b, k), s.workers, s.consumers[j := Deleting(b, k)]))
  {
    var b := s.consumers[j].batch;
    if k == 0 {
      assert b.msgs[..0] == [];
      assert Cleaned(s.data, b, 0).cache == s.data.cache;
      assert s.consumers[j := Deleting(b, 0)] == s.consumers;
    } else {
      DeletesReach(o, s, j, k - 1);
      CleanedStep(s.data, b, k);
      var m := State(Cleaned(s.data, b, k - 1), s.workers, s.consumers[j := Deleting(b, k - 1)]);
      var t := State(Cleaned(s.data, b, k), s.workers, s.consumers[j := Deleting(b, k)]);
      assert Step(m, Consumer(j, DeleteOne), t);
      ReachesStep(o, m, Consumer(j, DeleteOne), t);
    }
  }

  /** A consumer left alone takes the next batch to the very stores HandleChatWs2Mongo promises, whatever fails. */
  lemma MongoHandledBySteps(s: State, j: nat, inserted: nat, deleted: nat)
    requires j < |s.consumers| && s.consumers[j].Idle? && s.data.toMongo != [] && inserted <= |s.data.toMongo[0].msgs|
    ensures Reaches(s, s.(data := WithStores(s.data, MongoHandledStores(StoresOf(s.data), inserted, deleted))))
  {
    var b := s.data.toMongo[0];
    var taken := s.data.(
      toMongo := s.data.toMongo[1..],
      mongo := if Contiguous(b.msgs) then Put(s.data.mongo, b.conversationID, b.msgs[..inserted]) else s.data.mongo);
    var m := State(taken, s.workers, s.consumers[j := Deleting(b, 0)]);
    assert s.data.toMongo[..0] + s.data.toMongo[1..] == s.data.toMongo[1..];
    ReachesSelf(s);
    assert Step(s, Consumer(j, Take(0, inserted)), m);
    ReachesStep(s, s, Consumer(j, Take(0, inserted)), m);
    var k := if deleted < |b.msgs| then deleted else |b.msgs|;
    DeletesReach(s, m, j, k);
    assert b.msgs[..k] == UpTo(b.msgs, deleted);
    var n := State(Cleaned(taken, b, k), s.workers, m.consumers[j := Deleting(b, k)]);
    var t := s.(data := WithStores(s.data, MongoHandledStores(StoresOf(s.data), inserted, deleted)));
    assert n.consumers[j := Idle] == s.consumers;
    assert Step(n, Consumer(j, EndDelete), t);
    ReachesStep(s, n, Consumer(j, EndDelete), t);
  }
}
