/**
 * Storage as a transition system: any number of channel workers and Mongo consumers interleave their
 * single store operations, and each operation of a store may fail. A worker reads the newest number of
 * a conversation, writes its messages to the cache one by one and only then raises the newest number;
 * nothing locks the conversation in between.
 */
module StorageRuns {
  import opened Messages
  import opened SeqCaches
  import opened Storage

  /** What handleMsg (`chat`) or handleNotification is called with. */
  datatype Job = Job(conversationID: string, storageList: seq<MsgData>, notStorageList: seq<MsgData>, chat: bool)

  /** Where a channel worker is, between two of its store operations. */
  datatype Phase =
    | Free
    | Unstored(job: Job, done: nat)            // pushing the messages that are not stored
    | Asking(job: Job)                         // about to read the newest number
    | Caching(job: Job, base: int, done: nat)  // writing to the cache
    | Queueing(batch: Batch)                   // about to queue the batch for Mongo
    | Pushing(batch: Batch, done: nat)         // pushing the stored messages

  /** A Mongo consumer: waiting, or removing a handled batch from the cache. */
  datatype Clean = Idle | Deleting(batch: Batch, removed: nat)

  /**
   * The stores and the counters. `stored`, `given` and `submitted` are bookkeeping: the messages pushed
   * after they were stored, which message each committed number was last given to, and how many chat
   * messages were submitted.
   */
  datatype Data = Data(
    maxSeq: map<string, int>,
    cache: Table,
    mongo: Table,
    toMongo: seq<Batch>,
    toPush: seq<Pushed>,
    stored: seq<Pushed>,
    success: nat,
    failed: nat,
    given: Table,
    submitted: nat)

  const NO_DATA := Data(map[], map[], map[], [], [], [], 0, 0, map[], 0)

  datatype State = State(data: Data, workers: seq<Phase>, consumers: seq<Clean>)

  /** One store operation of a worker, and of a consumer. */
  datatype Work =
    | Begin(job: Job)
    | PushUnstored(sent: bool)
    | EndUnstored
    | Ask(answered: bool)
    | CacheOne
    | Commit(saved: bool)  // the cache writes end here, by success or by a failure
    | Enqueue(sent: bool)
    | PushOne(sent: bool)
    | EndPush

  datatype Cleaning =
    | Take(q: nat, inserted: nat)  // Mongo takes the first `inserted` messages, then it fails
    | DeleteOne
    | EndDelete

  datatype Action = Worker(w: nat, work: Work) | Consumer(j: nat, cleaning: Cleaning)

  function Count(job: Job): nat {
    if job.chat then |job.storageList| else 0
  }

  ghost predicate Init(s: State) {
    && s.data == NO_DATA
    && (forall w | 0 <= w < |s.workers| :: s.workers[w].Free?)
    && (forall j | 0 <= j < |s.consumers| :: s.consumers[j].Idle?)
  }

  /** The i-th message of a job with its number. */
  function NumberedAt(job: Job, base: int, i: nat): MsgData
    requires i < |job.storageList|
  {
    job.storageList[i].(seqNo := base + 1 + i)
  }

  function SlotAt(job: Job, base: int, i: nat): Slot {
    Slot(job.conversationID, base + 1 + i)
  }

  predicate Enabled(p: Phase, work: Work) {
    match work
    case Begin(_) => p.Free?
    case PushUnstored(_) => p.Unstored? && p.done < |p.job.notStorageList|
    case EndUnstored => p.Unstored? && p.done == |p.job.notStorageList|
    case Ask(_) => p.Asking?
    case CacheOne => p.Caching? && p.done < |p.job.storageList|
    case Commit(_) => p.Caching?
    case Enqueue(_) => p.Queueing?
    case PushOne(_) => p.Pushing? && p.done < |p.batch.msgs|
    case EndPush => p.Pushing? && p.done == |p.batch.msgs|
  }

  predicate Accepted(job: Job, answered: bool) {
    answered && |job.storageList| <= SINGLE_GOC_MSG_NUM
  }

  function BatchOf(job: Job, base: int): Batch {
    Batch(job.conversationID, Numbered(job.storageList, base))
  }

  /** The phase a worker goes on to. */
  function Next(maxSeq: map<string, int>, p: Phase, work: Work): Phase
    requires Enabled(p, work)
  {
    match work
    case Begin(job) => Unstored(job, 0)
    case PushUnstored(_) => Unstored(p.job, p.done + 1)
    case EndUnstored => if p.job.storageList == [] then Free else Asking(p.job)
    case Ask(answered) =>
      if Accepted(p.job, answered) then Caching(p.job, Stored(maxSeq, p.job.conversationID), 0) else Free
    case CacheOne => Caching(p.job, p.base, p.done + 1)
    case Commit(saved) => if saved then Queueing(BatchOf(p.job, p.base)) else Free
    case Enqueue(_) => Pushing(p.batch, 0)
    case PushOne(_) => Pushing(p.batch, p.done + 1)
    case EndPush => Free
  }

  /** What its operation does to the data. */
  function Effect(d: Data, p: Phase, work: Work): Data
    requires Enabled(p, work)
  {
    match work
    case Begin(job) => d.(submitted := d.submitted + Count(job))
    case PushUnstored(sent) =>
      if sent then d.(toPush := d.toPush + [Pushed(p.job.conversationID, p.job.notStorageList[p.done])]) else d
    case Ask(answered) => if Accepted(p.job, answered) then d else d.(failed := d.failed + Count(p.job))
    case CacheOne => d.(cache := d.cache[SlotAt(p.job, p.base, p.done) := NumberedAt(p.job, p.base, p.done)])
    case Commit(saved) =>
      if saved then
        d.(maxSeq := d.maxSeq[p.job.conversationID := p.base + |p.job.storageList|],
           given := Put(d.given, p.job.conversationID, Numbered(p.job.storageList, p.base)),
           success := d.success + Count(p.job))
      else d.(failed := d.failed + Count(p.job))
    case Enqueue(sent) => if sent then d.(toMongo := d.toMongo + [p.batch]) else d
    case PushOne(sent) =>
      var pushed := Pushed(p.batch.conversationID, p.batch.msgs[p.done]);
      if sent then d.(toPush := d.toPush + [pushed], stored := d.stored + [pushed]) else d
    case _ => d
  }

  /** What a consumer does to the data, and how it goes on. */
  ghost predicate CleaningStep(d: Data, c: Clean, cleaning: Cleaning, e: Data, next: Clean) {
    match cleaning
    case Take(q, inserted) =>
      && c.Idle? && q < |d.toMongo|
      && var b := d.toMongo[q];
      && inserted <= |b.msgs|
      // a batch whose numbers are not consecutive is refused by Mongo
      && e == d.(toMongo := d.toMongo[..q] + d.toMongo[q + 1..],
                 mongo := if Contiguous(b.msgs) then Put(d.mongo, b.conversationID, b.msgs[..inserted]) else d.mongo)
      && next == Deleting(b, 0)
    case DeleteOne =>
      && c.Deleting? && c.removed < |c.batch.msgs|
      && e == d.(cache := d.cache - {Slot(c.batch.conversationID, c.batch.msgs[c.removed].seqNo)})
      && next == Deleting(c.batch, c.removed + 1)
    case EndDelete =>
      c.Deleting? && e == d && next == Idle
  }

  ghost predicate Step(s: State, a: Action, t: State) {
    match a
    case Worker(w, work) =>
      && w < |s.workers| && Enabled(s.workers[w], work)
      && t == State(Effect(s.data, s.workers[w], work),
                    s.workers[w := Next(s.data.maxSeq, s.workers[w], work)], s.consumers)
    case Consumer(j, cleaning) =>
      && j < |s.consumers| && j < |t.consumers|
      && CleaningStep(s.data, s.consumers[j], cleaning, t.data, t.consumers[j])
      && t.workers == s.workers && t.consumers == s.consumers[j := t.consumers[j]]
  }

  ghost predicate IsRun(run: seq<State>, actions: seq<Action>) {
    && |run| == |actions| + 1
    && Init(run[0])
    && forall i | 0 <= i < |actions| :: Step(run[i], actions[i], run[i + 1])
  }

  predicate ByOwner(owner: string -> nat, a: Action) {
    a.Worker? && a.work.Begin? ==> owner(a.work.job.conversationID) == a.w
  }

  /** Every conversation belongs to one worker: only its owner is given jobs for it. */
  ghost predicate Owned(owner: string -> nat, actions: seq<Action>) {
    forall i | 0 <= i < |actions| :: ByOwner(owner, actions[i])
  }

  // ----- The counters -----

  /** Chat messages a worker holds that are counted neither as stored nor as failed yet. */
  function Held(p: Phase): nat {
    match p
    case Unstored(job, _) => Count(job)
    case Asking(job) => Count(job)
    case Caching(job, _, _) => Count(job)
    case _ => 0
  }

  function InProgress(workers: seq<Phase>): nat {
    if workers == [] then 0 else InProgress(workers[..|workers| - 1]) + Held(workers[|workers| - 1])
  }

  lemma {:induction false} InProgressUpdate(workers: seq<Phase>, w: nat, p: Phase)
    requires w < |workers|
    ensures InProgress(workers[w := p]) == InProgress(workers) - Held(workers[w]) + Held(p)
  {
    var init := workers[..|workers| - 1];
    if w < |init| {
      InProgressUpdate(init, w, p);
      assert workers[w := p][..|workers| - 1] == init[w := p];
    } else {
      assert workers[w := p][..|workers| - 1] == init;
    }
  }

  lemma {:induction false} NoneInProgress(workers: seq<Phase>)
    requires forall w | 0 <= w < |workers| :: workers[w].Free?
    ensures InProgress(workers) == 0
  {
    if workers != [] {
      NoneInProgress(workers[..|workers| - 1]);
    }
  }

  // ----- The invariant -----

  /** The batch consists of the messages its slots were given to, consecutively numbered. */
  ghost predicate BatchOk(given: Table, b: Batch) {
    && Contiguous(b.msgs)
    && forall i | 0 <= i < |b.msgs| :: Has(given, Slot(b.conversationID, b.msgs[i].seqNo), b.msgs[i])
  }

  /** Numbers are handed out without gaps, and whatever was pushed as stored or is in Mongo had been given one. */
  ghost predicate NumbersOk(d: Data) {
    && (forall id <- d.maxSeq :: d.maxSeq[id] >= 0)
    && (forall slot :: slot in d.given <==> 1 <= slot.seqNo <= Stored(d.maxSeq, slot.conversationID))
    && (forall p <- d.stored :: Has(d.given, Slot(p.conversationID, p.msg.seqNo), p.msg))
    && (forall slot <- d.mongo :: Has(d.given, slot, d.mongo[slot]))
  }

  /** A job is with the owner of its conversation, and the newest number it read is still the newest. */
  ghost predicate PhaseOk(owner: string -> nat, maxSeq: map<string, int>, given: Table, w: nat, p: Phase) {
    match p
    case Free => true
    case Unstored(job, done) => owner(job.conversationID) == w && done <= |job.notStorageList|
    case Asking(job) => owner(job.conversationID) == w && job.storageList != []
    case Caching(job, base, done) =>
      && owner(job.conversationID) == w && base == Stored(maxSeq, job.conversationID)
      && 0 < |job.storageList| <= SINGLE_GOC_MSG_NUM && done <= |job.storageList|
    case Queueing(b) => BatchOk(given, b)
    case Pushing(b, done) => BatchOk(given, b) && done <= |b.msgs|
  }

  ghost predicate WorkersOk(owner: string -> nat, s: State) {
    forall w | 0 <= w < |s.workers| :: PhaseOk(owner, s.data.maxSeq, s.data.given, w, s.workers[w])
  }

  ghost predicate QueuesOk(s: State) {
    && (forall q | 0 <= q < |s.data.toMongo| :: BatchOk(s.data.given, s.data.toMongo[q]))
    && (forall j | 0 <= j < |s.consumers| && s.consumers[j].Deleting? :: BatchOk(s.data.given, s.consumers[j].batch))
  }

  ghost predicate Counted(s: State) {
    s.data.success + s.data.failed + InProgress(s.workers) == s.data.submitted
  }

  /** Facts that hold whatever fails. */
  ghost predicate Bookkeeping(owner: string -> nat, s: State) {
    NumbersOk(s.data) && WorkersOk(owner, s) && QueuesOk(s) && Counted(s)
  }

  // ----- One step keeps it -----

  lemma CountEffect(d: Data, p: Phase, work: Work)
    requires Enabled(p, work)
    ensures var e := Effect(d, p, work);
      e.success + e.failed + Held(Next(d.maxSeq, p, work)) + d.submitted
      == d.success + d.failed + Held(p) + e.submitted
  {
  }

  lemma CountStep(s: State, a: Action, t: State)
    requires Counted(s) && Step(s, a, t)
    ensures Counted(t)
  {
    if a.Worker? {
      CountEffect(s.data, s.workers[a.w], a.work);
      InProgressUpdate(s.workers, a.w, Next(s.data.maxSeq, s.workers[a.w], a.work));
    }
  }

  /** A new batch takes exactly the slots right after those in use. */
  lemma InsertFresh(d: Data, conversationID: string, msgs: seq<MsgData>)
    requires NumbersOk(d) && msgs != []
    ensures var numbered := Numbered(msgs, Stored(d.maxSeq, conversationID));
      && Contiguous(numbered)
      && (forall slot <- d.given :: !Covers(Batch(conversationID, numbered), slot))
      && (forall slot :: Covers(Batch(conversationID, numbered), slot) <==>
            && slot.conversationID == conversationID
            && Stored(d.maxSeq, conversationID) < slot.seqNo <= Stored(d.maxSeq, conversationID) + |msgs|)
  {
    var base := Stored(d.maxSeq, conversationID);
    var numbered := Numbered(msgs, base);
    forall slot: Slot | slot.conversationID == conversationID && base < slot.seqNo <= base + |msgs|
      ensures Covers(Batch(conversationID, numbered), slot)
    {
      assert numbered[slot.seqNo - base - 1].seqNo == slot.seqNo;
    }
  }

  /** Committing a batch whose base is still the newest number gives each of its numbers for the first time. */
  lemma CommitGives(d: Data, b: Batch, msgs: seq<MsgData>, given: Table, maxSeq: map<string, int>)
    requires NumbersOk(d) && msgs != [] && b.msgs == Numbered(msgs, Stored(d.maxSeq, b.conversationID))
    requires given == Put(d.given, b.conversationID, b.msgs)
    requires maxSeq == d.maxSeq[b.conversationID := Stored(d.maxSeq, b.conversationID) + |b.msgs|]
    ensures GivenStays(d.given, given)
    ensures forall slot: Slot :: slot in given <==> 1 <= slot.seqNo <= Stored(maxSeq, slot.conversationID)
    ensures BatchOk(given, b)
  {
    InsertFresh(d, b.conversationID, msgs);
    PutLookup(d.given, b.conversationID, b.msgs);
    forall slot: Slot
      ensures slot in given <==> 1 <= slot.seqNo <= Stored(maxSeq, slot.conversationID)
    {
      assert slot in d.given <==> 1 <= slot.seqNo <= Stored(d.maxSeq, slot.conversationID);
      if Covers(b, slot) {
        var i :| 0 <= i < |b.msgs| && b.msgs[i].seqNo == slot.seqNo;
        assert slot == Slot(b.conversationID, b.msgs[i].seqNo);
      }
    }
  }

  /** Every number is still with its message. */
  ghost predicate GivenStays(given: Table, later: Table) {
    forall slot <- given :: Has(later, slot, given[slot])
  }

  lemma GivenTrans(a: Table, b: Table, c: Table)
    requires GivenStays(a, b) && GivenStays(b, c)
    ensures GivenStays(a, c)
  {
  }

  lemma BatchStays(given: Table, later: Table, b: Batch)
    requires BatchOk(given, b) && GivenStays(given, later)
    ensures BatchOk(later, b)
  {
    forall i | 0 <= i < |b.msgs| ensures Has(later, Slot(b.conversationID, b.msgs[i].seqNo), b.msgs[i]) {
      assert Has(given, Slot(b.conversationID, b.msgs[i].seqNo), b.msgs[i]);
    }
  }

  /** While one worker commits, another's job is for another conversation, whose newest number stays. */
  lemma OtherPhaseStays(owner: string -> nat, s: State, b: Batch, t: State, w: nat, v: nat)
    requires v < |s.workers| && PhaseOk(owner, s.data.maxSeq, s.data.given, v, s.workers[v])
    requires owner(b.conversationID) == w != v
    requires t.data.maxSeq == s.data.maxSeq[b.conversationID := Stored(s.data.maxSeq, b.conversationID) + |b.msgs|]
    requires GivenStays(s.data.given, t.data.given)
    ensures PhaseOk(owner, t.data.maxSeq, t.data.given, v, s.workers[v])
  {
    match s.workers[v]
    case Queueing(c) => BatchStays(s.data.given, t.data.given, c);
    case Pushing(c, _) => BatchStays(s.data.given, t.data.given, c);
    case _ =>
  }

  lemma CommitKeepsNumbers(d: Data, b: Batch, msgs: seq<MsgData>, e: Data)
    requires NumbersOk(d) && msgs != [] && b.msgs == Numbered(msgs, Stored(d.maxSeq, b.conversationID))
    requires e.given == Put(d.given, b.conversationID, b.msgs) && e.stored == d.stored && e.mongo == d.mongo
    requires e.maxSeq == d.maxSeq[b.conversationID := Stored(d.maxSeq, b.conversationID) + |b.msgs|]
    ensures NumbersOk(e) && BatchOk(e.given, b) && GivenStays(d.given, e.given)
  {
    CommitGives(d, b, msgs, e.given, e.maxSeq);
    forall p <- e.stored ensures Has(e.given, Slot(p.conversationID, p.msg.seqNo), p.msg) {
      assert Has(d.given, Slot(p.conversationID, p.msg.seqNo), p.msg);
    }
    forall slot <- e.mongo ensures Has(e.given, slot, e.mongo[slot]) {
      assert Has(d.given, slot, d.mongo[slot]);
    }
  }

  lemma CommitKeepsWorkers(owner: string -> nat, s: State, w: nat, b: Batch, t: State)
    requires WorkersOk(owner, s) && w < |s.workers| && owner(b.conversationID) == w
    requires t.workers == s.workers[w := Queueing(b)] && BatchOk(t.data.given, b)
    requires t.data.maxSeq == s.data.maxSeq[b.conversationID := Stored(s.data.maxSeq, b.conversationID) + |b.msgs|]
    requires GivenStays(s.data.given, t.data.given)
    ensures WorkersOk(owner, t)
  {
    forall v | 0 <= v < |t.workers| ensures PhaseOk(owner, t.data.maxSeq, t.data.given, v, t.workers[v]) {
      if v != w { OtherPhaseStays(owner, s, b, t, w, v); }
    }
  }

  ghost predicate CommittedTo(s: State, w: nat, b: Batch, t: State)
    requires w < |s.workers|
  {
    && t.workers == s.workers[w := Queueing(b)] && t.consumers == s.consumers
    && t.data.maxSeq == s.data.maxSeq[b.conversationID := Stored(s.data.maxSeq, b.conversationID) + |b.msgs|]
    && t.data.given == Put(s.data.given, b.conversationID, b.msgs)
    && t.data.stored == s.data.stored && t.data.mongo == s.data.mongo && t.data.toMongo == s.data.toMongo
  }

  lemma Committed(s: State, w: nat, t: State)
    requires Step(s, Worker(w, Commit(true)), t)
    requires s.workers[w].base == Stored(s.data.maxSeq, s.workers[w].job.conversationID)
    ensures CommittedTo(s, w, BatchOf(s.workers[w].job, s.workers[w].base), t)
  {
  }

  lemma CommittedKeeps(owner: string -> nat, s: State, w: nat, b: Batch, msgs: seq<MsgData>, t: State)
    requires NumbersOk(s.data) && WorkersOk(owner, s) && QueuesOk(s)
    requires w < |s.workers| && CommittedTo(s, w, b, t) && owner(b.conversationID) == w
    requires msgs != [] && b.msgs == Numbered(msgs, Stored(s.data.maxSeq, b.conversationID))
    ensures NumbersOk(t.data) && WorkersOk(owner, t) && QueuesOk(t)
  {
    CommitKeepsNumbers(s.data, b, msgs, t.data);
    CommitKeepsWorkers(owner, s, w, b, t);
    QueuesStay(s, t);
  }

  lemma CommitKeeps(owner: string -> nat, s: State, w: nat, t: State)
    requires NumbersOk(s.data) && WorkersOk(owner, s) && QueuesOk(s) && Step(s, Worker(w, Commit(true)), t)
    ensures NumbersOk(t.data) && WorkersOk(owner, t) && QueuesOk(t)
  {
    var p := s.workers[w];
    assert PhaseOk(owner, s.data.maxSeq, s.data.given, w, p);
    Committed(s, w, t);
    CommittedKeeps(owner, s, w, BatchOf(p.job, p.base), p.job.storageList, t);
  }

  lemma QueuesStay(s: State, t: State)
    requires QueuesOk(s) && t.data.toMongo == s.data.toMongo && t.consumers == s.consumers
    requires GivenStays(s.data.given, t.data.given)
    ensures QueuesOk(t)
  {
    forall q | 0 <= q < |t.data.toMongo| ensures BatchOk(t.data.given, t.data.toMongo[q]) {
      BatchStays(s.data.given, t.data.given, s.data.toMongo[q]);
    }
    forall j | 0 <= j < |t.consumers| && t.consumers[j].Deleting? ensures BatchOk(t.data.given, t.consumers[j].batch) {
      BatchStays(s.data.given, t.data.given, s.consumers[j].batch);
    }
  }

  /** What an operation leaves alone. */
  lemma EffectFrame(d: Data, p: Phase, work: Work)
    requires Enabled(p, work)
    ensures var e := Effect(d, p, work);
      && e.mongo == d.mongo
      && (work != Commit(true) ==> e.given == d.given && e.maxSeq == d.maxSeq)
      && (!work.CacheOne? ==> e.cache == d.cache)
      && e.toMongo == (if work.Enqueue? && work.sent then d.toMongo + [p.batch] else d.toMongo)
  {
  }

  lemma NextPhaseOk(owner: string -> nat, maxSeq: map<string, int>, given: Table, w: nat, p: Phase, work: Work)
    requires PhaseOk(owner, maxSeq, given, w, p) && Enabled(p, work) && work != Commit(true)
    requires work.Begin? ==> owner(work.job.conversationID) == w
    ensures PhaseOk(owner, maxSeq, given, w, Next(maxSeq, p, work))
  {
  }

  /** What a worker pushes as stored is from its batch. */
  lemma EffectKeepsNumbers(owner: string -> nat, d: Data, w: nat, p: Phase, work: Work)
    requires NumbersOk(d) && PhaseOk(owner, d.maxSeq, d.given, w, p) && Enabled(p, work) && work != Commit(true)
    ensures NumbersOk(Effect(d, p, work))
    ensures work.Enqueue? ==> BatchOk(d.given, p.batch)
  {
    if work.PushOne? {
      assert Has(d.given, Slot(p.batch.conversationID, p.batch.msgs[p.done].seqNo), p.batch.msgs[p.done]);
    }
  }

  /** The steps of a worker that give no number. */
  lemma WorkerKeeps(owner: string -> nat, s: State, w: nat, work: Work, t: State)
    requires NumbersOk(s.data) && WorkersOk(owner, s) && QueuesOk(s) && Step(s, Worker(w, work), t)
    requires work != Commit(true) && ByOwner(owner, Worker(w, work))
    ensures NumbersOk(t.data) && WorkersOk(owner, t) && QueuesOk(t)
  {
    var p := s.workers[w];
    assert PhaseOk(owner, s.data.maxSeq, s.data.given, w, p);
    NextPhaseOk(owner, s.data.maxSeq, s.data.given, w, p, work);
    EffectKeepsNumbers(owner, s.data, w, p, work);
    EffectFrame(s.data, p, work);
    WorkersStay(owner, s, w, t);
    forall q | 0 <= q < |t.data.toMongo| ensures BatchOk(t.data.given, t.data.toMongo[q]) {
      assert q < |s.data.toMongo| ==> t.data.toMongo[q] == s.data.toMongo[q];
    }
  }

  lemma WorkersStay(owner: string -> nat, s: State, w: nat, t: State)
    requires WorkersOk(owner, s) && t.data.given == s.data.given && t.data.maxSeq == s.data.maxSeq
    requires w < |s.workers| == |t.workers|
    requires t.workers == s.workers[w := t.workers[w]]
    requires PhaseOk(owner, s.data.maxSeq, s.data.given, w, t.workers[w])
    ensures WorkersOk(owner, t)
  {
    forall v | 0 <= v < |t.workers| ensures PhaseOk(owner, t.data.maxSeq, t.data.given, v, t.workers[v]) {
      assert PhaseOk(owner, s.data.maxSeq, s.data.given, v, s.workers[v]);
    }
  }

  /** What Mongo holds after it took the first `inserted` messages of a numbered batch. */
  lemma MongoTakes(d: Data, b: Batch, inserted: nat, mongo: Table)
    requires BatchOk(d.given, b) && inserted <= |b.msgs| && mongo == Put(d.mongo, b.conversationID, b.msgs[..inserted])
    requires forall slot <- d.mongo :: Has(d.given, slot, d.mongo[slot])
    ensures forall i | 0 <= i < inserted :: Has(mongo, Slot(b.conversationID, b.msgs[i].seqNo), b.msgs[i])
    ensures forall slot <- mongo :: slot in d.mongo || Covers(b.(msgs := b.msgs[..inserted]), slot)
    ensures forall slot <- mongo :: Has(d.given, slot, mongo[slot])
    ensures forall slot <- d.mongo :: Has(mongo, slot, d.mongo[slot])
  {
    var done := b.(msgs := b.msgs[..inserted]);
    PutLookup(d.mongo, done.conversationID, done.msgs);
    forall i | 0 <= i < inserted ensures Has(mongo, Slot(b.conversationID, b.msgs[i].seqNo), b.msgs[i]) {
      assert done.msgs[i] == b.msgs[i];
    }
    forall slot | Covers(done, slot) ensures slot in mongo && Has(d.given, slot, mongo[slot]) {
      var i :| 0 <= i < |done.msgs| && done.msgs[i].seqNo == slot.seqNo;
      assert slot == Slot(b.conversationID, b.msgs[i].seqNo);
      assert Has(d.given, slot, b.msgs[i]) && Has(mongo, slot, b.msgs[i]);
    }
    forall slot <- d.mongo ensures Has(mongo, slot, d.mongo[slot]) {
      assert Has(d.given, slot, d.mongo[slot]);
      assert Covers(done, slot) || Has(mongo, slot, d.mongo[slot]);
    }
  }

  lemma ConsumerKeeps(owner: string -> nat, s: State, j: nat, cleaning: Cleaning, t: State)
    requires NumbersOk(s.data) && WorkersOk(owner, s) && QueuesOk(s) && Step(s, Consumer(j, cleaning), t)
    ensures NumbersOk(t.data) && WorkersOk(owner, t) && QueuesOk(t)
  {
    match cleaning
    case Take(q, inserted) =>
      MongoTakes(s.data, s.data.toMongo[q], inserted, t.data.mongo);
      assert forall i | 0 <= i < |t.data.toMongo| :: t.data.toMongo[i] == s.data.toMongo[if i < q then i else i + 1];
    case _ =>
  }

  lemma StepKeepsBookkeeping(owner: string -> nat, s: State, a: Action, t: State)
    requires Bookkeeping(owner, s) && Step(s, a, t) && ByOwner(owner, a)
    ensures Bookkeeping(owner, t)
  {
    CountStep(s, a, t);
    match a
    case Worker(w, work) =>
      if work == Commit(true) { CommitKeeps(owner, s, w, t); } else { WorkerKeeps(owner, s, w, work, t); }
    case Consumer(j, cleaning) => ConsumerKeeps(owner, s, j, cleaning, t);
  }

  lemma InitOk(owner: string -> nat, s: State)
    requires Init(s)
    ensures Bookkeeping(owner, s)
  {
    NoneInProgress(s.workers);
  }

  lemma {:induction false} RunKeepsBookkeeping(owner: string -> nat, run: seq<State>, actions: seq<Action>, n: nat)
    requires IsRun(run, actions) && Owned(owner, actions) && n < |run|
    ensures Bookkeeping(owner, run[n])
  {
    if n == 0 {
      InitOk(owner, run[0]);
    } else {
      RunKeepsBookkeeping(owner, run, actions, n - 1);
      StepKeepsBookkeeping(owner, run[n - 1], actions[n - 1], run[n]);
    }
  }

  /**
   * Storage safety: where every conversation belongs to one worker, then in every state of every
   * interleaving, whatever fails, numbers are handed out without gaps; no two messages are ever pushed
   * under one number, and none before it has its number; Mongo never holds a message under a number
   * that is not its own; and the counters account for every chat message submitted for storage but
   * those the workers still hold.
   */
  lemma StorageSafety(owner: string -> nat, run: seq<State>, actions: seq<Action>, n: nat)
    requires IsRun(run, actions) && Owned(owner, actions) && n < |run|
    ensures var s := run[n];
      && (forall slot: Slot :: slot in s.data.given <==> 1 <= slot.seqNo <= Stored(s.data.maxSeq, slot.conversationID))
      && (forall p <- s.data.stored :: Has(s.data.given, Slot(p.conversationID, p.msg.seqNo), p.msg))
      && (forall p, q | p in s.data.stored && q in s.data.stored ::
            p.conversationID == q.conversationID && p.msg.seqNo == q.msg.seqNo ==> p == q)
      && (forall slot <- s.data.mongo :: Has(s.data.given, slot, s.data.mongo[slot]))
      && s.data.success + s.data.failed == s.data.submitted - InProgress(s.workers)
  {
    RunKeepsBookkeeping(owner, run, actions, n);
    var s := run[n];
    forall p, q | p in s.data.stored && q in s.data.stored
                  && p.conversationID == q.conversationID && p.msg.seqNo == q.msg.seqNo
      ensures p == q
    {
      assert Has(s.data.given, Slot(p.conversationID, p.msg.seqNo), p.msg);
      assert Has(s.data.given, Slot(q.conversationID, q.msg.seqNo), q.msg);
    }
  }

  lemma StepKeepsGiven(owner: string -> nat, s: State, a: Action, t: State)
    requires NumbersOk(s.data) && WorkersOk(owner, s) && Step(s, a, t)
    ensures GivenStays(s.data.given, t.data.given)
  {
    if a.Worker? {
      EffectFrame(s.data, s.workers[a.w], a.work);
    }
    if a.Worker? && a.work == Commit(true) {
      var p := s.workers[a.w];
      assert PhaseOk(owner, s.data.maxSeq, s.data.given, a.w, p);
      CommitGives(s.data, BatchOf(p.job, p.base), p.job.storageList, t.data.given, t.data.maxSeq);
    }
  }

  /** A number never changes hands, and never stops counting. */
  lemma {:induction false} NumbersStay(owner: string -> nat, run: seq<State>, actions: seq<Action>, m: nat, n: nat)
    requires IsRun(run, actions) && Owned(owner, actions) && m <= n < |run|
    ensures GivenStays(run[m].data.given, run[n].data.given)
  {
    if m < n {
      NumbersStay(owner, run, actions, m, n - 1);
      RunKeepsBookkeeping(owner, run, actions, n - 1);
      StepKeepsGiven(owner, run[n - 1], actions[n - 1], run[n]);
      GivenTrans(run[m].data.given, run[n - 1].data.given, run[n].data.given);
    }
  }

  // ----- Nothing is lost -----

  ghost predicate InMongo(s: State, b: Batch) {
    forall i | 0 <= i < |b.msgs| :: Has(s.data.mongo, Slot(b.conversationID, b.msgs[i].seqNo), b.msgs[i])
  }

  /** What a reader finds under a number: the cache is asked first, then Mongo. */
  function ReadBack(cache: Table, mongo: Table, slot: Slot): Option<MsgData> {
    if slot in cache then Some(cache[slot]) else if slot in mongo then Some(mongo[slot]) else None
  }

  ghost predicate Readable(s: State, slot: Slot)
    requires slot in s.data.given
  {
    ReadBack(s.data.cache, s.data.mongo, slot) == Some(s.data.given[slot])
  }

  /** The messages a worker has cached so far are in the cache, beyond the numbers in use. */
  ghost predicate PartOk(cache: Table, p: Phase) {
    p.Caching? ==> forall i | 0 <= i < p.done <= |p.job.storageList| ::
      Has(cache, SlotAt(p.job, p.base, i), NumberedAt(p.job, p.base, i))
  }

  ghost predicate PartsOk(s: State) {
    forall w | 0 <= w < |s.workers| :: PartOk(s.data.cache, s.workers[w])
  }

  ghost predicate TakenOk(s: State) {
    forall j | 0 <= j < |s.consumers| && s.consumers[j].Deleting? :: InMongo(s, s.consumers[j].batch)
  }

  ghost predicate AllReadable(s: State) {
    forall slot <- s.data.given :: Readable(s, slot)
  }

  /** Facts that hold while cache writes and Mongo inserts succeed. */
  ghost predicate Durable(s: State) {
    AllReadable(s) && TakenOk(s) && PartsOk(s)
  }

  /** The two failures that can lose a message are failed writes to the cache and to Mongo. */
  predicate Harmless(s: State, a: Action) {
    match a
    case Worker(w, work) =>
      work == Commit(true) ==>
        w < |s.workers| && s.workers[w].Caching? && s.workers[w].done == |s.workers[w].job.storageList|
    case Consumer(j, cleaning) =>
      cleaning.Take? ==> cleaning.q < |s.data.toMongo| && cleaning.inserted == |s.data.toMongo[cleaning.q].msgs|
  }

  lemma CacheOneDurable(owner: string -> nat, s: State, w: nat, t: State)
    requires NumbersOk(s.data) && WorkersOk(owner, s) && Durable(s) && Step(s, Worker(w, CacheOne), t)
    ensures Durable(t)
  {
    var p := s.workers[w];
    var slot := SlotAt(p.job, p.base, p.done);
    assert PhaseOk(owner, s.data.maxSeq, s.data.given, w, p) && PartOk(s.data.cache, p);
    assert slot !in s.data.given;
    forall other <- t.data.given ensures Readable(t, other) {
      assert Readable(s, other);
    }
    forall v | 0 <= v < |t.workers| ensures PartOk(t.data.cache, t.workers[v]) {
      if v != w {
        assert PhaseOk(owner, s.data.maxSeq, s.data.given, v, s.workers[v]) && PartOk(s.data.cache, s.workers[v]);
      }
    }
    SameTaken(s, t);
  }

  lemma SameTaken(s: State, t: State)
    requires TakenOk(s) && t.consumers == s.consumers && t.data.mongo == s.data.mongo
    ensures TakenOk(t)
  {
    forall j | 0 <= j < |t.consumers| && t.consumers[j].Deleting? ensures InMongo(t, t.consumers[j].batch) {
      assert InMongo(s, s.consumers[j].batch);
    }
  }

  lemma CommitDurable(owner: string -> nat, s: State, w: nat, t: State)
    requires NumbersOk(s.data) && WorkersOk(owner, s) && Durable(s)
    requires Step(s, Worker(w, Commit(true)), t) && Harmless(s, Worker(w, Commit(true)))
    ensures Durable(t)
  {
    var p := s.workers[w];
    assert PhaseOk(owner, s.data.maxSeq, s.data.given, w, p) && PartOk(s.data.cache, p);
    var b := BatchOf(p.job, p.base);
    InsertFresh(s.data, b.conversationID, p.job.storageList);
    PutLookup(s.data.given, b.conversationID, b.msgs);
    forall slot <- t.data.given ensures Readable(t, slot) {
      if Covers(b, slot) {
        var i :| 0 <= i < |b.msgs| && b.msgs[i].seqNo == slot.seqNo;
        assert slot == SlotAt(p.job, p.base, i) && b.msgs[i] == NumberedAt(p.job, p.base, i);
        assert Has(t.data.given, Slot(b.conversationID, b.msgs[i].seqNo), b.msgs[i]);
      } else {
        assert slot in s.data.given && Readable(s, slot);
      }
    }
    forall v | 0 <= v < |t.workers| ensures PartOk(t.data.cache, t.workers[v]) {
      assert PartOk(s.data.cache, s.workers[v]);
    }
    SameTaken(s, t);
  }

  lemma OtherWorkDurable(owner: string -> nat, s: State, w: nat, work: Work, t: State)
    requires WorkersOk(owner, s) && Durable(s) && Step(s, Worker(w, work), t) && !work.CacheOne? && work != Commit(true)
    ensures Durable(t)
  {
    EffectFrame(s.data, s.workers[w], work);
    assert PartOk(s.data.cache, s.workers[w]);
    assert PartOk(t.data.cache, t.workers[w]);
    forall v | 0 <= v < |t.workers| ensures PartOk(t.data.cache, t.workers[v]) {
      assert PartOk(s.data.cache, s.workers[v]);
    }
    forall slot <- t.data.given ensures Readable(t, slot) {
      assert Readable(s, slot);
    }
    SameTaken(s, t);
  }

  lemma TakeDurable(s: State, j: nat, q: nat, t: State)
    requires NumbersOk(s.data) && QueuesOk(s) && Durable(s) && q < |s.data.toMongo|
    requires Step(s, Consumer(j, Take(q, |s.data.toMongo[q].msgs|)), t)
    ensures Durable(t)
  {
    var b := s.data.toMongo[q];
    MongoTakes(s.data, b, |b.msgs|, t.data.mongo);
    forall i | 0 <= i < |t.consumers| && t.consumers[i].Deleting? ensures InMongo(t, t.consumers[i].batch) {
      if i != j {
        var c := s.consumers[i].batch;
        assert InMongo(s, c);
        forall k | 0 <= k < |c.msgs| ensures Has(t.data.mongo, Slot(c.conversationID, c.msgs[k].seqNo), c.msgs[k]) {
          assert Has(s.data.mongo, Slot(c.conversationID, c.msgs[k].seqNo), c.msgs[k]);
        }
      }
    }
    forall slot <- t.data.given ensures Readable(t, slot) {
      assert Readable(s, slot);
    }
    assert PartsOk(t);
  }

  lemma DeleteDurable(owner: string -> nat, s: State, j: nat, t: State)
    requires NumbersOk(s.data) && WorkersOk(owner, s) && QueuesOk(s) && Durable(s) && Step(s, Consumer(j, DeleteOne), t)
    ensures Durable(t)
  {
    var d := s.consumers[j];
    var gone := Slot(d.batch.conversationID, d.batch.msgs[d.removed].seqNo);
    assert InMongo(s, d.batch) && BatchOk(s.data.given, d.batch);
    assert Has(s.data.mongo, gone, d.batch.msgs[d.removed]) && Has(s.data.given, gone, d.batch.msgs[d.removed]);
    forall slot <- t.data.given ensures Readable(t, slot) {
      assert Readable(s, slot);
    }
    forall v | 0 <= v < |t.workers| ensures PartOk(t.data.cache, t.workers[v]) {
      assert PhaseOk(owner, s.data.maxSeq, s.data.given, v, s.workers[v]) && PartOk(s.data.cache, s.workers[v]);
    }
    forall i | 0 <= i < |t.consumers| && t.consumers[i].Deleting? ensures InMongo(t, t.consumers[i].batch) {
      assert InMongo(s, s.consumers[i].batch);
    }
  }

  lemma EndDeleteDurable(s: State, j: nat, t: State)
    requires Durable(s) && Step(s, Consumer(j, EndDelete), t)
    ensures Durable(t)
  {
    forall slot <- t.data.given ensures Readable(t, slot) {
      assert Readable(s, slot);
    }
    forall i | 0 <= i < |t.consumers| && t.consumers[i].Deleting? ensures InMongo(t, t.consumers[i].batch) {
      assert InMongo(s, s.consumers[i].batch);
    }
  }

  lemma StepKeepsDurable(owner: string -> nat, s: State, a: Action, t: State)
    requires NumbersOk(s.data) && WorkersOk(owner, s) && QueuesOk(s) && Durable(s) && Step(s, a, t) && Harmless(s, a)
    ensures Durable(t)
  {
    match a
    case Worker(w, work) =>
      if work.CacheOne? {
        CacheOneDurable(owner, s, w, t);
      } else if work == Commit(true) {
        CommitDurable(owner, s, w, t);
      } else {
        OtherWorkDurable(owner, s, w, work, t);
      }
    case Consumer(j, cleaning) =>
      match cleaning
      case Take(q, _) => TakeDurable(s, j, q, t);
      case DeleteOne => DeleteDurable(owner, s, j, t);
      case EndDelete => EndDeleteDurable(s, j, t);
  }

  /**
   * No message with a number is ever out of reach: where every conversation belongs to one worker, then
   * while cache writes and Mongo inserts succeed, in every intermediate state of every interleaving a
   * reader who asks the cache and then Mongo gets exactly the message the number was given to, even
   * when the queues, the sequence store or the cache clean-up fail.
   */
  lemma {:induction false} NothingStoredIsLost(owner: string -> nat, run: seq<State>, actions: seq<Action>, n: nat)
    requires IsRun(run, actions) && Owned(owner, actions) && n < |run|
    requires forall i | 0 <= i < n :: Harmless(run[i], actions[i])
    ensures forall slot: Slot | 1 <= slot.seqNo <= Stored(run[n].data.maxSeq, slot.conversationID) ::
      slot in run[n].data.given && Readable(run[n], slot)
    ensures Durable(run[n])
  {
    RunKeepsBookkeeping(owner, run, actions, n);
    if n > 0 {
      NothingStoredIsLost(owner, run, actions, n - 1);
      RunKeepsBookkeeping(owner, run, actions, n - 1);
      StepKeepsDurable(owner, run[n - 1], actions[n - 1], run[n]);
    }
  }
}
