/**
 * What the two queues carry: the push queue everything a worker was given, in order, and the Mongo
 * queue every message that got a number.
 */
module StorageQueues {
  import opened Messages
  import opened SeqCaches
  import opened Storage
  import opened StorageRuns
  import opened StorageOrder

  // ----- The push queue -----

  /** What a job pushes to conversation `c`: first its unstored messages, then the stored ones with their numbers. */
  function OutOfJob(job: Job, c: string, base: int): seq<MsgData> {
    if job.conversationID == c then job.notStorageList + Numbered(job.storageList, base) else []
  }

  /** What some jobs push, one after the other, when numbering starts at 1. */
  function Outgoing(jobs: seq<Job>, c: string): seq<MsgData> {
    if jobs == [] then []
    else
      var init := jobs[..|jobs| - 1];
      Outgoing(init, c) + OutOfJob(jobs[|jobs| - 1], c, |OfJobs(init, c)|)
  }

  lemma OutgoingSnoc(jobs: seq<Job>, job: Job, c: string)
    ensures Outgoing(jobs + [job], c) == Outgoing(jobs, c) + OutOfJob(job, c, |OfJobs(jobs, c)|)
  {
    assert (jobs + [job])[..|jobs|] == jobs;
  }

  /** What a worker still has to push to `c`. */
  function ToPushFor(p: Phase, c: string, base: int): seq<MsgData> {
    match p
    case Unstored(job, done) =>
      if job.conversationID == c && done <= |job.notStorageList|
      then job.notStorageList[done..] + Numbered(job.storageList, base) else []
    case Asking(job) => if job.conversationID == c then Numbered(job.storageList, base) else []
    case Caching(job, _, _) => if job.conversationID == c then Numbered(job.storageList, base) else []
    case Queueing(_) => UnpushedFor(p, c)
    case Pushing(_, _) => UnpushedFor(p, c)
    case Free => []
  }

  /** No push fails. */
  predicate AllSent(a: Action) {
    a.Worker? ==> (a.work.PushUnstored? ==> a.work.sent) && (a.work.PushOne? ==> a.work.sent)
  }

  lemma UnstoredPush(queue: seq<Pushed>, job: Job, done: nat, c: string, base: int)
    requires done < |job.notStorageList|
    ensures PushedFor(queue + [Pushed(job.conversationID, job.notStorageList[done])], c)
            + ToPushFor(Unstored(job, done + 1), c, base)
         == PushedFor(queue, c) + ToPushFor(Unstored(job, done), c, base)
  {
    PushedForSnoc(queue, Pushed(job.conversationID, job.notStorageList[done]), c);
    if job.conversationID == c {
      var ms := job.notStorageList;
      assert ms[done..] == [ms[done]] + ms[done + 1..];
      Associates(PushedFor(queue, c), [ms[done]], ms[done + 1..] + Numbered(job.storageList, base));
      Associates([ms[done]], ms[done + 1..], Numbered(job.storageList, base));
    }
  }

  lemma Associates<X>(a: seq<X>, b: seq<X>, c: seq<X>)
    ensures a + (b + c) == (a + b) + c
  {
  }

  lemma NoPush(maxSeq: map<string, int>, p: Phase, work: Work, c: string, base: int)
    requires Enabled(p, work) && WorkNumbers(p, work) && !work.PushOne? && !work.PushUnstored? && !work.Begin?
    requires p.Caching? && p.job.conversationID == c ==> p.base == base
    ensures ToPushFor(Next(maxSeq, p, work), c, base) == ToPushFor(p, c, base)
  {
    match work
    case EndUnstored => assert p.job.notStorageList[p.done..] == [];
    case Enqueue(_) => assert p.batch.msgs[0..] == p.batch.msgs;
    case _ =>
  }

  lemma PushFrame(d: Data, p: Phase, work: Work)
    requires Enabled(p, work) && !work.PushOne? && !work.PushUnstored?
    ensures Effect(d, p, work).toPush == d.toPush
  {
  }

  /** A new job. */
  lemma BeginPushes(job: Job, c: string, base: int)
    ensures ToPushFor(Unstored(job, 0), c, base) == OutOfJob(job, c, base)
  {
    assert job.notStorageList[0..] == job.notStorageList;
  }

  /** Any other operation of the owner of `c`. */
  lemma OutgoingStep(d: Data, p: Phase, work: Work, c: string, base: int)
    requires Enabled(p, work) && WorkNumbers(p, work) && !work.Begin?
    requires (work.PushUnstored? ==> work.sent) && (work.PushOne? ==> work.sent)
    requires p.Caching? && p.job.conversationID == c ==> p.base == base
    ensures PushedFor(Effect(d, p, work).toPush, c) + ToPushFor(Next(d.maxSeq, p, work), c, base)
         == PushedFor(d.toPush, c) + ToPushFor(p, c, base)
  {
    if work.PushUnstored? {
      UnstoredPush(d.toPush, p.job, p.done, c, base);
    } else if work.PushOne? {
      PushedOne(d.toPush, p.batch, p.done, c);
    } else {
      PushFrame(d, p, work);
      NoPush(d.maxSeq, p, work, c, base);
    }
  }

  /** The base does not matter once a batch is numbered. */
  lemma BaseMoves(maxSeq: map<string, int>, p: Phase, work: Work, c: string, base: int)
    requires Enabled(p, work) && WorkNumbers(p, work)
    ensures ToPushFor(Next(maxSeq, p, work), c, base + |CommittedWork(p, work, c)|)
         == ToPushFor(Next(maxSeq, p, work), c, base)
  {
  }

  /** An operation of another worker pushes nothing to `c`. */
  lemma OthersPushNothing(owner: string -> nat, s: State, a: Action, t: State, w: nat, c: string)
    requires WorkersOk(owner, s) && BatchesOwned(owner, s) && Step(s, a, t) && owner(c) == w
    requires a.Worker? ==> a.w != w
    ensures PushedFor(t.data.toPush, c) == PushedFor(s.data.toPush, c)
  {
    if a.Worker? {
      var p := s.workers[a.w];
      assert PhaseOk(owner, s.data.maxSeq, s.data.given, a.w, p) && BatchOwned(owner, a.w, p);
      if a.work == PushUnstored(true) {
        PushedForSnoc(s.data.toPush, Pushed(p.job.conversationID, p.job.notStorageList[p.done]), c);
      } else if a.work == PushOne(true) {
        PushedForSnoc(s.data.toPush, Pushed(p.batch.conversationID, p.batch.msgs[p.done]), c);
      }
    }
  }

  /** What was given is what was pushed followed by what is to be. */
  ghost predicate PushQueueOk(owner: string -> nat, s: State, c: string, jobs: seq<Job>, base: int) {
    && owner(c) < |s.workers|
    && Outgoing(jobs, c) == PushedFor(s.data.toPush, c) + ToPushFor(s.workers[owner(c)], c, base)
  }

  lemma OwnerBegins(d: Data, job: Job, c: string, jobs: seq<Job>, base: int)
    requires Outgoing(jobs, c) == PushedFor(d.toPush, c) && |OfJobs(jobs, c)| == base
    ensures Outgoing(jobs + [job], c) == PushedFor(d.toPush, c) + ToPushFor(Unstored(job, 0), c, base)
  {
    OutgoingSnoc(jobs, job, c);
    BeginPushes(job, c, base);
  }

  lemma OwnerPushes(d: Data, w: nat, p: Phase, work: Work, c: string, jobs: seq<Job>, base: int)
    requires Enabled(p, work) && WorkNumbers(p, work)
    requires (work.PushUnstored? ==> work.sent) && (work.PushOne? ==> work.sent)
    requires p.Caching? && p.job.conversationID == c ==> p.base == base
    requires Outgoing(jobs, c) == PushedFor(d.toPush, c) + ToPushFor(p, c, base)
    requires p.Free? ==> |OfJobs(jobs, c)| == base
    ensures Outgoing(jobs + BegunBy(Worker(w, work), w), c)
         == PushedFor(Effect(d, p, work).toPush, c) + ToPushFor(Next(d.maxSeq, p, work), c, base)
  {
    if work.Begin? {
      assert PushedFor(d.toPush, c) + [] == PushedFor(d.toPush, c);
      OwnerBegins(d, work.job, c, jobs, base);
    } else {
      assert jobs + [] == jobs;
      OutgoingStep(d, p, work, c, base);
    }
  }

  lemma OwnerKeepsPushQueue(
    owner: string -> nat, s: State, work: Work, t: State, c: string, jobs: seq<Job>, log: seq<MsgData>)
    requires PushQueueOk(owner, s, c, jobs, |log|) && Step(s, Worker(owner(c), work), t)
    requires WorkNumbers(s.workers[owner(c)], work) && AllSent(Worker(owner(c), work))
    requires var p := s.workers[owner(c)];
      && (p.Caching? && p.job.conversationID == c ==> p.base == |log|)
      && (p.Free? ==> |OfJobs(jobs, c)| == |log|)
    ensures PushQueueOk(owner, t, c, jobs + BegunBy(Worker(owner(c), work), owner(c)),
                        |log + CommittedWork(s.workers[owner(c)], work, c)|)
  {
    var w, p := owner(c), s.workers[owner(c)];
    assert t.data == Effect(s.data, p, work) && t.workers[w] == Next(s.data.maxSeq, p, work);
    OwnerPushes(s.data, w, p, work, c, jobs, |log|);
    BaseMoves(s.data.maxSeq, p, work, c, |log|);
  }

  lemma OthersKeepPushQueue(
    owner: string -> nat, s: State, a: Action, t: State, c: string, jobs: seq<Job>, log: seq<MsgData>)
    requires WorkersOk(owner, s) && BatchesOwned(owner, s) && PushQueueOk(owner, s, c, jobs, |log|) && Step(s, a, t)
    requires a.Worker? ==> a.w != owner(c)
    ensures PushQueueOk(owner, t, c, jobs + BegunBy(a, owner(c)), |log + CommittedBy(s, a, c)|)
  {
    OthersStep(owner, s, a, t, owner(c), c);
    OthersPushNothing(owner, s, a, t, owner(c), c);
    assert jobs + [] == jobs;
  }

  lemma StepKeepsPushQueue(
    owner: string -> nat, s: State, a: Action, t: State, c: string, jobs: seq<Job>, log: seq<MsgData>)
    requires InOrder(owner, s, c, jobs, log) && PushQueueOk(owner, s, c, jobs, |log|) && Step(s, a, t)
    requires Numbering(s, a) && AllSent(a)
    ensures PushQueueOk(owner, t, c, jobs + BegunBy(a, owner(c)), |log + CommittedBy(s, a, c)|)
  {
    if a.Worker? && a.w == owner(c) {
      OwnerFits(owner, s, c, jobs, log);
      OwnerKeepsPushQueue(owner, s, a.work, t, c, jobs, log);
    } else {
      OthersKeepPushQueue(owner, s, a, t, c, jobs, log);
    }
  }

  /** Where the owner caches, its base is the newest number; where it is free, all it was given has one. */
  lemma OwnerFits(owner: string -> nat, s: State, c: string, jobs: seq<Job>, log: seq<MsgData>)
    requires InOrder(owner, s, c, jobs, log)
    ensures var p := s.workers[owner(c)];
      && (p.Caching? && p.job.conversationID == c ==> p.base == |log|)
      && (p.Free? ==> |OfJobs(jobs, c)| == |log|)
  {
    assert PhaseOk(owner, s.data.maxSeq, s.data.given, owner(c), s.workers[owner(c)]);
  }

  lemma InitPushQueue(owner: string -> nat, s: State, c: string)
    requires Init(s) && owner(c) < |s.workers|
    ensures PushQueueOk(owner, s, c, [], 0)
  {
    assert s.workers[owner(c)].Free?;
  }

  /**
   * The push queue, exactly: where every conversation belongs to one worker, then while numbering works
   * and no push fails, in every state of every interleaving the messages of a conversation in the push
   * queue, followed by those its owner is still to push, are job by job the unstored messages and then
   * the stored ones under their numbers, in the order they were given to it.
   */
  lemma {:induction false} PushQueueExactly(
    owner: string -> nat, run: seq<State>, actions: seq<Action>, n: nat, c: string)
    requires IsRun(run, actions) && Owned(owner, actions) && n < |run| && owner(c) < |run[0].workers|
    requires forall i | 0 <= i < n :: Numbering(run[i], actions[i]) && AllSent(actions[i])
    ensures PushQueueOk(owner, run[n], c, Begun(actions, n, owner(c)), |Log(run, actions, n, c)|)
  {
    if n == 0 {
      InitPushQueue(owner, run[0], c);
    } else {
      PushQueueExactly(owner, run, actions, n - 1, c);
      FirstInFirstOut(owner, run, actions, n - 1, c);
      RunPushQueue(owner, run, actions, n, c);
    }
  }

  lemma RunPushQueue(owner: string -> nat, run: seq<State>, actions: seq<Action>, n: nat, c: string)
    requires IsRun(run, actions) && 0 < n < |run|
    requires Numbering(run[n - 1], actions[n - 1]) && AllSent(actions[n - 1])
    requires InOrder(owner, run[n - 1], c, Begun(actions, n - 1, owner(c)), Log(run, actions, n - 1, c))
    requires PushQueueOk(owner, run[n - 1], c, Begun(actions, n - 1, owner(c)), |Log(run, actions, n - 1, c)|)
    ensures PushQueueOk(owner, run[n], c, Begun(actions, n, owner(c)), |Log(run, actions, n, c)|)
  {
    StepKeepsPushQueue(owner, run[n - 1], actions[n - 1], run[n], c, Begun(actions, n - 1, owner(c)),
                       Log(run, actions, n - 1, c));
  }

  // ----- The Mongo queue -----

  /** Nothing fails on the way to Mongo. */
  predicate Forwards(s: State, a: Action) {
    match a
    case Worker(_, work) => work.Enqueue? ==> work.sent
    case Consumer(_, cleaning) =>
      cleaning.Take? ==> cleaning.q < |s.data.toMongo| && cleaning.inserted == |s.data.toMongo[cleaning.q].msgs|
  }

  ghost predicate InQueue(s: State, slot: Slot) {
    exists q :: 0 <= q < |s.data.toMongo| && Covers(s.data.toMongo[q], slot)
  }

  ghost predicate InHand(s: State, slot: Slot) {
    exists w :: 0 <= w < |s.workers| && s.workers[w].Queueing? && Covers(s.workers[w].batch, slot)
  }

  /** A number is in Mongo, in the queue to it, or with a worker that is about to queue it. */
  ghost predicate OnItsWay(s: State, slot: Slot) {
    slot in s.data.mongo || InQueue(s, slot) || InHand(s, slot)
  }

  ghost predicate AllOnTheirWay(s: State) {
    forall slot <- s.data.given :: OnItsWay(s, slot)
  }

  /** An operation that neither commits nor queues a batch. */
  lemma OtherWorkForwards(s: State, w: nat, work: Work, t: State, slot: Slot)
    requires Step(s, Worker(w, work), t) && work != Commit(true) && !work.Enqueue? && OnItsWay(s, slot)
    ensures OnItsWay(t, slot)
  {
    EffectFrame(s.data, s.workers[w], work);
    if InHand(s, slot) {
      var v :| 0 <= v < |s.workers| && s.workers[v].Queueing? && Covers(s.workers[v].batch, slot);
      assert v != w && t.workers[v] == s.workers[v];
    }
  }

  lemma EnqueueForwards(s: State, w: nat, t: State, slot: Slot)
    requires Step(s, Worker(w, Enqueue(true)), t) && OnItsWay(s, slot)
    ensures OnItsWay(t, slot)
  {
    if InQueue(s, slot) {
      var q :| 0 <= q < |s.data.toMongo| && Covers(s.data.toMongo[q], slot);
      assert t.data.toMongo[q] == s.data.toMongo[q];
    } else if InHand(s, slot) {
      var v :| 0 <= v < |s.workers| && s.workers[v].Queueing? && Covers(s.workers[v].batch, slot);
      if v == w {
        assert t.data.toMongo[|s.data.toMongo|] == s.workers[w].batch;
      } else {
        assert t.workers[v] == s.workers[v];
      }
    }
  }

  lemma CommitForwards(s: State, w: nat, t: State, slot: Slot)
    requires Step(s, Worker(w, Commit(true)), t) && slot in t.data.given
    requires slot in s.data.given ==> OnItsWay(s, slot)
    ensures OnItsWay(t, slot)
  {
    var b := BatchOf(s.workers[w].job, s.workers[w].base);
    PutLookup(s.data.given, b.conversationID, b.msgs);
    if Covers(b, slot) {
      assert t.workers[w] == Queueing(b);
    } else if InHand(s, slot) {
      var v :| 0 <= v < |s.workers| && s.workers[v].Queueing? && Covers(s.workers[v].batch, slot);
      assert t.workers[v] == s.workers[v];
    }
  }

  lemma TakeForwards(s: State, j: nat, q: nat, t: State, slot: Slot)
    requires NumbersOk(s.data) && QueuesOk(s) && q < |s.data.toMongo|
    requires Step(s, Consumer(j, Take(q, |s.data.toMongo[q].msgs|)), t) && OnItsWay(s, slot)
    ensures OnItsWay(t, slot)
  {
    var b := s.data.toMongo[q];
    TakenCovers(s.data, b, t.data.mongo, slot);
    if InQueue(s, slot) {
      var i :| 0 <= i < |s.data.toMongo| && Covers(s.data.toMongo[i], slot);
      if i != q {
        assert t.data.toMongo[if i < q then i else i - 1] == s.data.toMongo[i];
      }
    }
  }

  /** What Mongo has after it took a whole batch. */
  lemma TakenCovers(d: Data, b: Batch, mongo: Table, slot: Slot)
    requires NumbersOk(d) && BatchOk(d.given, b) && mongo == Put(d.mongo, b.conversationID, b.msgs[..|b.msgs|])
    ensures slot in d.mongo || Covers(b, slot) ==> slot in mongo
  {
    MongoTakes(d, b, |b.msgs|, mongo);
    if Covers(b, slot) {
      var k :| 0 <= k < |b.msgs| && b.msgs[k].seqNo == slot.seqNo;
      assert slot == Slot(b.conversationID, b.msgs[k].seqNo);
    } else if slot in d.mongo {
      assert Has(mongo, slot, d.mongo[slot]);
    }
  }

  lemma StepForwards(owner: string -> nat, s: State, a: Action, t: State, slot: Slot)
    requires Bookkeeping(owner, s) && Step(s, a, t) && Forwards(s, a)
    requires slot in t.data.given && (slot in s.data.given ==> OnItsWay(s, slot))
    ensures OnItsWay(t, slot)
  {
    match a
    case Worker(w, work) =>
      if work == Commit(true) {
        CommitForwards(s, w, t, slot);
      } else {
        EffectFrame(s.data, s.workers[w], work);
        if work.Enqueue? { EnqueueForwards(s, w, t, slot); } else { OtherWorkForwards(s, w, work, t, slot); }
      }
    case Consumer(j, cleaning) =>
      match cleaning
      case Take(q, _) => TakeForwards(s, j, q, t, slot);
      case _ =>
  }

  lemma {:induction false} RunForwards(owner: string -> nat, run: seq<State>, actions: seq<Action>, n: nat)
    requires IsRun(run, actions) && Owned(owner, actions) && n < |run|
    requires forall i | 0 <= i < n :: Forwards(run[i], actions[i])
    ensures Bookkeeping(owner, run[n]) && AllOnTheirWay(run[n])
  {
    if n == 0 {
      InitOk(owner, run[0]);
    } else {
      RunForwards(owner, run, actions, n - 1);
      StepKeepsBookkeeping(owner, run[n - 1], actions[n - 1], run[n]);
      forall slot <- run[n].data.given ensures OnItsWay(run[n], slot) {
        StepForwards(owner, run[n - 1], actions[n - 1], run[n], slot);
      }
    }
  }

  /**
   * Everything reaches Mongo: where every conversation belongs to one worker and nothing fails on the
   * way, then in every state of every interleaving each number given out is in Mongo, queued for it or
   * about to be; and once the queue is empty and no worker is about to queue, Mongo holds under every
   * number up to the newest exactly the message the number was given to, whatever the cache did.
   */
  lemma MongoGetsAll(owner: string -> nat, run: seq<State>, actions: seq<Action>, n: nat, slot: Slot)
    requires IsRun(run, actions) && Owned(owner, actions) && n < |run|
    requires forall i | 0 <= i < n :: Forwards(run[i], actions[i])
    requires 1 <= slot.seqNo <= Stored(run[n].data.maxSeq, slot.conversationID)
    ensures slot in run[n].data.given && OnItsWay(run[n], slot)
    ensures run[n].data.toMongo == [] && (forall w | 0 <= w < |run[n].workers| :: !run[n].workers[w].Queueing?) ==>
      Has(run[n].data.mongo, slot, run[n].data.given[slot])
  {
    RunForwards(owner, run, actions, n);
  }
}
