/**
 * In which order the messages of a conversation are numbered and pushed: the order in which its owner
 * was given them.
 */
module StorageOrder {
  import opened Messages
  import opened SeqCaches
  import opened Storage
  import opened StorageRuns

  // ----- What is numbered, in order -----

  /** The messages of conversation `c` that a worker's operation gives numbers. */
  function CommittedWork(p: Phase, work: Work, c: string): seq<MsgData> {
    if work == Commit(true) && p.Caching? && p.job.conversationID == c then p.job.storageList else []
  }

  function CommittedBy(s: State, a: Action, c: string): seq<MsgData> {
    if a.Worker? && a.w < |s.workers| then CommittedWork(s.workers[a.w], a.work, c) else []
  }

  /** The messages of conversation `c` that the first `n` actions of a run gave numbers, one after the other. */
  function Log(run: seq<State>, actions: seq<Action>, n: nat, c: string): seq<MsgData>
    requires n <= |actions| < |run|
  {
    if n == 0 then [] else Log(run, actions, n - 1, c) + CommittedBy(run[n - 1], actions[n - 1], c)
  }

  /** Each number of `c` is with the message at its place in `log`. */
  ghost predicate LogOk(d: Data, c: string, log: seq<MsgData>) {
    && |log| == Stored(d.maxSeq, c)
    && forall i | 0 <= i < |log| :: Has(d.given, Slot(c, i + 1), log[i].(seqNo := i + 1))
  }

  lemma SameLog(d: Data, c: string, log: seq<MsgData>, e: Data)
    requires LogOk(d, c, log) && GivenStays(d.given, e.given) && Stored(e.maxSeq, c) == Stored(d.maxSeq, c)
    ensures LogOk(e, c, log)
  {
    forall i | 0 <= i < |log| ensures Has(e.given, Slot(c, i + 1), log[i].(seqNo := i + 1)) {
      assert Has(d.given, Slot(c, i + 1), log[i].(seqNo := i + 1));
    }
  }

  lemma LongerLog(d: Data, c: string, log: seq<MsgData>, more: seq<MsgData>, e: Data)
    requires LogOk(d, c, log) && GivenStays(d.given, e.given) && Stored(e.maxSeq, c) == |log| + |more|
    requires BatchOk(e.given, Batch(c, Numbered(more, |log|)))
    ensures LogOk(e, c, log + more)
  {
    forall i | 0 <= i < |log + more| ensures Has(e.given, Slot(c, i + 1), (log + more)[i].(seqNo := i + 1)) {
      if i < |log| {
        assert Has(d.given, Slot(c, i + 1), log[i].(seqNo := i + 1));
      } else {
        var m := Numbered(more, |log|)[i - |log|];
        assert Has(e.given, Slot(c, m.seqNo), m);
      }
    }
  }

  lemma CommitLog(owner: string -> nat, s: State, w: nat, t: State, c: string, log: seq<MsgData>)
    requires NumbersOk(s.data) && WorkersOk(owner, s) && Step(s, Worker(w, Commit(true)), t) && LogOk(s.data, c, log)
    ensures LogOk(t.data, c, log + CommittedWork(s.workers[w], Commit(true), c))
  {
    var p := s.workers[w];
    assert PhaseOk(owner, s.data.maxSeq, s.data.given, w, p);
    CommitGives(s.data, BatchOf(p.job, p.base), p.job.storageList, t.data.given, t.data.maxSeq);
    if p.job.conversationID == c {
      LongerLog(s.data, c, log, p.job.storageList, t.data);
    } else {
      SameLog(s.data, c, log, t.data);
      assert log + [] == log;
    }
  }

  lemma StepLog(owner: string -> nat, s: State, a: Action, t: State, c: string, log: seq<MsgData>)
    requires NumbersOk(s.data) && WorkersOk(owner, s) && Step(s, a, t) && LogOk(s.data, c, log)
    ensures LogOk(t.data, c, log + CommittedBy(s, a, c))
  {
    if a.Worker? && a.work == Commit(true) {
      CommitLog(owner, s, a.w, t, c, log);
    } else {
      if a.Worker? { EffectFrame(s.data, s.workers[a.w], a.work); }
      assert t.data.given == s.data.given && t.data.maxSeq == s.data.maxSeq;
      SameLog(s.data, c, log, t.data);
      assert log + [] == log;
    }
  }

  ghost predicate Logged(owner: string -> nat, s: State, c: string, log: seq<MsgData>) {
    Bookkeeping(owner, s) && LogOk(s.data, c, log)
  }

  lemma InitLogged(owner: string -> nat, s: State, c: string)
    requires Init(s)
    ensures Logged(owner, s, c, [])
  {
    InitOk(owner, s);
  }

  lemma StepKeepsLogged(owner: string -> nat, s: State, a: Action, t: State, c: string, log: seq<MsgData>)
    requires Logged(owner, s, c, log) && Step(s, a, t) && ByOwner(owner, a)
    ensures Logged(owner, t, c, log + CommittedBy(s, a, c))
  {
    StepKeepsBookkeeping(owner, s, a, t);
    StepLog(owner, s, a, t, c, log);
  }

  lemma RunKeepsLogged(owner: string -> nat, run: seq<State>, actions: seq<Action>, n: nat, c: string)
    requires IsRun(run, actions) && Owned(owner, actions) && 0 < n < |run|
    requires Logged(owner, run[n - 1], c, Log(run, actions, n - 1, c))
    ensures Logged(owner, run[n], c, Log(run, actions, n, c))
  {
    StepKeepsLogged(owner, run[n - 1], actions[n - 1], run[n], c, Log(run, actions, n - 1, c));
  }

  /**
   * Numbers follow the commits: where every conversation belongs to one worker, then in every state of
   * every interleaving, whatever fails, the numbers 1, 2, ... of a conversation are with the messages
   * of the jobs that were numbered, in the order they were.
   */
  lemma {:induction false} NumbersFollowLog(
    owner: string -> nat, run: seq<State>, actions: seq<Action>, n: nat, c: string)
    requires IsRun(run, actions) && Owned(owner, actions) && n < |run|
    ensures Logged(owner, run[n], c, Log(run, actions, n, c))
  {
    if n == 0 {
      InitLogged(owner, run[0], c);
    } else {
      NumbersFollowLog(owner, run, actions, n - 1, c);
      RunKeepsLogged(owner, run, actions, n, c);
    }
  }

  // ----- What a worker was given, in order -----

  function BegunBy(a: Action, w: nat): seq<Job> {
    if a.Worker? && a.w == w && a.work.Begin? then [a.work.job] else []
  }

  /** The jobs worker `w` began in the first `n` actions. */
  function Begun(actions: seq<Action>, n: nat, w: nat): seq<Job>
    requires n <= |actions|
  {
    if n == 0 then [] else Begun(actions, n - 1, w) + BegunBy(actions[n - 1], w)
  }

  function OfJob(job: Job, c: string): seq<MsgData> {
    if job.conversationID == c then job.storageList else []
  }

  /** The messages some jobs store in conversation `c`, in order. */
  function OfJobs(jobs: seq<Job>, c: string): seq<MsgData> {
    if jobs == [] then [] else OfJobs(jobs[..|jobs| - 1], c) + OfJob(jobs[|jobs| - 1], c)
  }

  lemma OfJobsSnoc(jobs: seq<Job>, job: Job, c: string)
    ensures OfJobs(jobs + [job], c) == OfJobs(jobs, c) + OfJob(job, c)
  {
    assert (jobs + [job])[..|jobs|] == jobs;
  }

  /** Those of a worker's current job that are not numbered yet. */
  function HeldFor(p: Phase, c: string): seq<MsgData> {
    match p
    case Unstored(job, _) => OfJob(job, c)
    case Asking(job) => OfJob(job, c)
    case Caching(job, _, _) => OfJob(job, c)
    case _ => []
  }

  /** The sequence store answers, and no job is too large for it. */
  predicate WorkNumbers(p: Phase, work: Work) {
    && (work.Ask? && p.Asking? ==> Accepted(p.job, work.answered))
    && (work.Commit? ==> work.saved)
  }

  predicate Numbering(s: State, a: Action) {
    a.Worker? && a.w < |s.workers| ==> WorkNumbers(s.workers[a.w], a.work)
  }

  lemma HeldStep(maxSeq: map<string, int>, p: Phase, work: Work, c: string)
    requires Enabled(p, work) && WorkNumbers(p, work)
    ensures HeldFor(p, c) + (if work.Begin? then OfJob(work.job, c) else [])
         == CommittedWork(p, work, c) + HeldFor(Next(maxSeq, p, work), c)
  {
  }

  lemma BegunOne(jobs: seq<Job>, w: nat, work: Work, c: string)
    ensures OfJobs(jobs + BegunBy(Worker(w, work), w), c)
         == OfJobs(jobs, c) + if work.Begin? then OfJob(work.job, c) else []
  {
    if work.Begin? {
      OfJobsSnoc(jobs, work.job, c);
    } else {
      assert jobs + [] == jobs;
    }
  }

  lemma Regroup<X>(a: seq<X>, b: seq<X>, c: seq<X>, d: seq<X>, e: seq<X>)
    requires b + c == d + e
    ensures a + b + c == a + d + e
  {
    assert a + b + c == a + (b + c) && a + d + e == a + (d + e);
  }

  lemma BegunStep(s: State, w: nat, work: Work, t: State, c: string, jobs: seq<Job>, log: seq<MsgData>)
    requires Step(s, Worker(w, work), t) && WorkNumbers(s.workers[w], work)
    requires OfJobs(jobs, c) == log + HeldFor(s.workers[w], c)
    ensures OfJobs(jobs + BegunBy(Worker(w, work), w), c)
         == log + CommittedWork(s.workers[w], work, c) + HeldFor(t.workers[w], c)
  {
    var p := s.workers[w];
    BegunOne(jobs, w, work, c);
    HeldStep(s.data.maxSeq, p, work, c);
    Regroup(log, HeldFor(p, c), if work.Begin? then OfJob(work.job, c) else [], CommittedWork(p, work, c),
            HeldFor(t.workers[w], c));
  }

  /** What the others do does not concern a conversation of worker `w`. */
  lemma OthersStep(owner: string -> nat, s: State, a: Action, t: State, w: nat, c: string)
    requires WorkersOk(owner, s) && Step(s, a, t) && w < |s.workers| && owner(c) == w
    requires a.Worker? ==> a.w != w
    ensures CommittedBy(s, a, c) == [] && BegunBy(a, w) == [] && t.workers[w] == s.workers[w]
  {
    if a.Worker? {
      assert PhaseOk(owner, s.data.maxSeq, s.data.given, a.w, s.workers[a.w]);
    }
  }

  lemma StepKeepsBegun(owner: string -> nat, s: State, a: Action, t: State, w: nat, c: string,
                       jobs: seq<Job>, log: seq<MsgData>)
    requires WorkersOk(owner, s) && Step(s, a, t) && w < |s.workers| && owner(c) == w && Numbering(s, a)
    requires OfJobs(jobs, c) == log + HeldFor(s.workers[w], c)
    ensures OfJobs(jobs + BegunBy(a, w), c) == log + CommittedBy(s, a, c) + HeldFor(t.workers[w], c)
  {
    if a.Worker? && a.w == w {
      BegunStep(s, w, a.work, t, c, jobs, log);
    } else {
      OthersStep(owner, s, a, t, w, c);
      assert jobs + [] == jobs && log + [] == log;
    }
  }

  // ----- What is pushed, in order -----

  /** The messages of conversation `c` in a push queue. */
  function PushedFor(queue: seq<Pushed>, c: string): seq<MsgData> {
    if queue == [] then []
    else
      var p := queue[|queue| - 1];
      PushedFor(queue[..|queue| - 1], c) + (if p.conversationID == c then [p.msg] else [])
  }

  lemma PushedForSnoc(queue: seq<Pushed>, p: Pushed, c: string)
    ensures PushedFor(queue + [p], c) == PushedFor(queue, c) + (if p.conversationID == c then [p.msg] else [])
  {
    assert (queue + [p])[..|queue|] == queue;
  }

  /** What a worker has numbered and not pushed yet. */
  function UnpushedFor(p: Phase, c: string): seq<MsgData> {
    match p
    case Queueing(b) => if b.conversationID == c then b.msgs else []
    case Pushing(b, done) => if b.conversationID == c && done <= |b.msgs| then b.msgs[done..] else []
    case _ => []
  }

  predicate BatchOwned(owner: string -> nat, w: nat, p: Phase) {
    p.Queueing? || p.Pushing? ==> owner(p.batch.conversationID) == w
  }

  ghost predicate BatchesOwned(owner: string -> nat, s: State) {
    forall w | 0 <= w < |s.workers| :: BatchOwned(owner, w, s.workers[w])
  }

  lemma StepKeepsOwned(owner: string -> nat, s: State, a: Action, t: State)
    requires WorkersOk(owner, s) && BatchesOwned(owner, s) && Step(s, a, t)
    ensures BatchesOwned(owner, t)
  {
    if a.Worker? {
      assert PhaseOk(owner, s.data.maxSeq, s.data.given, a.w, s.workers[a.w]);
      assert BatchOwned(owner, a.w, s.workers[a.w]);
      assert BatchOwned(owner, a.w, t.workers[a.w]);
    }
  }

  predicate Pushes(a: Action) {
    a.Worker? && a.work.PushOne? ==> a.work.sent
  }

  lemma NumberedConcat(a: seq<MsgData>, b: seq<MsgData>)
    ensures Numbered(a + b, 0) == Numbered(a, 0) + Numbered(b, |a|)
  {
  }

  lemma PushedOne(queue: seq<Pushed>, b: Batch, done: nat, c: string)
    requires done < |b.msgs|
    ensures PushedFor(queue + [Pushed(b.conversationID, b.msgs[done])], c) + UnpushedFor(Pushing(b, done + 1), c)
         == PushedFor(queue, c) + UnpushedFor(Pushing(b, done), c)
  {
    PushedForSnoc(queue, Pushed(b.conversationID, b.msgs[done]), c);
    if b.conversationID == c {
      assert b.msgs[done..] == [b.msgs[done]] + b.msgs[done + 1..];
    }
  }

  /** The numbered messages an operation adds to those a worker is to push. */
  function NumberedBy(p: Phase, work: Work, c: string): seq<MsgData> {
    if p.Caching? then Numbered(CommittedWork(p, work, c), p.base) else []
  }

  lemma NothingPushed(maxSeq: map<string, int>, p: Phase, work: Work, c: string)
    requires Enabled(p, work) && !work.PushOne?
    ensures UnpushedFor(Next(maxSeq, p, work), c) == UnpushedFor(p, c) + NumberedBy(p, work, c)
  {
    if work.Enqueue? {
      assert p.batch.msgs[0..] == p.batch.msgs;
    }
  }

  lemma StoredFrame(d: Data, p: Phase, work: Work)
    requires Enabled(p, work) && !work.PushOne?
    ensures Effect(d, p, work).stored == d.stored
  {
  }

  /** One operation of the owner of `c`. */
  lemma UnpushedStep(d: Data, p: Phase, work: Work, c: string)
    requires Enabled(p, work) && (work.PushOne? ==> work.sent)
    ensures PushedFor(Effect(d, p, work).stored, c) + UnpushedFor(Next(d.maxSeq, p, work), c)
         == PushedFor(d.stored, c) + UnpushedFor(p, c) + NumberedBy(p, work, c)
  {
    if work.PushOne? {
      PushedOne(d.stored, p.batch, p.done, c);
    } else {
      NothingPushed(d.maxSeq, p, work, c);
      StoredFrame(d, p, work);
    }
  }

  /** An operation of another worker. */
  lemma OthersPush(owner: string -> nat, s: State, a: Action, t: State, w: nat, c: string)
    requires WorkersOk(owner, s) && BatchesOwned(owner, s) && Step(s, a, t) && w < |s.workers| && owner(c) == w
    requires a.Worker? ==> a.w != w
    ensures PushedFor(t.data.stored, c) == PushedFor(s.data.stored, c)
  {
    if a.Worker? && a.work.PushOne? && a.work.sent {
      var p := s.workers[a.w];
      assert BatchOwned(owner, a.w, p);
      PushedForSnoc(s.data.stored, Pushed(p.batch.conversationID, p.batch.msgs[p.done]), c);
    }
  }

  lemma PushStep(owner: string -> nat, s: State, a: Action, t: State, w: nat, c: string, log: seq<MsgData>)
    requires WorkersOk(owner, s) && BatchesOwned(owner, s) && Step(s, a, t) && w < |s.workers| && owner(c) == w
    requires Pushes(a) && |log| == Stored(s.data.maxSeq, c)
    requires PushedFor(s.data.stored, c) + UnpushedFor(s.workers[w], c) == Numbered(log, 0)
    ensures PushedFor(t.data.stored, c) + UnpushedFor(t.workers[w], c) == Numbered(log + CommittedBy(s, a, c), 0)
  {
    if a.Worker? && a.w == w {
      assert PhaseOk(owner, s.data.maxSeq, s.data.given, w, s.workers[w]);
      UnpushedStep(s.data, s.workers[w], a.work, c);
      NumberedConcat(log, CommittedBy(s, a, c));
    } else {
      OthersStep(owner, s, a, t, w, c);
      OthersPush(owner, s, a, t, w, c);
      assert log + [] == log;
    }
  }

  /**
   * The messages its owner was given for `c` are, in order, those that are numbered followed by those of
   * the job it is at; the numbered ones are those that were pushed followed by those it is to push.
   */
  ghost predicate Queued(owner: string -> nat, s: State, c: string, jobs: seq<Job>, log: seq<MsgData>) {
    && BatchesOwned(owner, s) && owner(c) < |s.workers|
    && OfJobs(jobs, c) == log + HeldFor(s.workers[owner(c)], c)
    && PushedFor(s.data.stored, c) + UnpushedFor(s.workers[owner(c)], c) == Numbered(log, 0)
  }

  lemma NothingQueued(owner: string -> nat, s: State, c: string)
    requires Init(s) && owner(c) < |s.workers|
    ensures Queued(owner, s, c, [], [])
  {
    assert s.workers[owner(c)].Free?;
  }

  lemma StepKeepsQueued(
    owner: string -> nat, s: State, a: Action, t: State, c: string, jobs: seq<Job>, log: seq<MsgData>)
    requires WorkersOk(owner, s) && Step(s, a, t) && Numbering(s, a) && Pushes(a)
    requires Queued(owner, s, c, jobs, log) && |log| == Stored(s.data.maxSeq, c)
    ensures Queued(owner, t, c, jobs + BegunBy(a, owner(c)), log + CommittedBy(s, a, c))
  {
    StepKeepsOwned(owner, s, a, t);
    StepKeepsBegun(owner, s, a, t, owner(c), c, jobs, log);
    PushStep(owner, s, a, t, owner(c), c, log);
  }

  ghost predicate InOrder(owner: string -> nat, s: State, c: string, jobs: seq<Job>, log: seq<MsgData>) {
    Logged(owner, s, c, log) && Queued(owner, s, c, jobs, log)
  }

  lemma StepKeepsOrder(
    owner: string -> nat, s: State, a: Action, t: State, c: string, jobs: seq<Job>, log: seq<MsgData>)
    requires InOrder(owner, s, c, jobs, log) && Step(s, a, t)
    requires ByOwner(owner, a) && Numbering(s, a) && Pushes(a)
    ensures InOrder(owner, t, c, jobs + BegunBy(a, owner(c)), log + CommittedBy(s, a, c))
  {
    StepKeepsLogged(owner, s, a, t, c, log);
    StepKeepsQueued(owner, s, a, t, c, jobs, log);
  }

  lemma InitInOrder(owner: string -> nat, s: State, c: string)
    requires Init(s) && owner(c) < |s.workers|
    ensures InOrder(owner, s, c, [], [])
  {
    InitLogged(owner, s, c);
    NothingQueued(owner, s, c);
  }

  /**
   * First in, first numbered, first pushed: where every conversation belongs to one worker, then while
   * the sequence store answers, no job is too large and no push of a stored message fails, in every
   * state of every interleaving the messages the owner of a conversation was given are numbered, and
   * pushed, in that order.
   */
  lemma {:induction false} FirstInFirstOut(
    owner: string -> nat, run: seq<State>, actions: seq<Action>, n: nat, c: string)
    requires IsRun(run, actions) && Owned(owner, actions) && n < |run| && owner(c) < |run[0].workers|
    requires forall i | 0 <= i < n :: Numbering(run[i], actions[i]) && Pushes(actions[i])
    ensures InOrder(owner, run[n], c, Begun(actions, n, owner(c)), Log(run, actions, n, c))
  {
    if n == 0 {
      InitInOrder(owner, run[0], c);
    } else {
      FirstInFirstOut(owner, run, actions, n - 1, c);
      StepKeepsOrder(owner, run[n - 1], actions[n - 1], run[n], c, Begun(actions, n - 1, owner(c)),
                     Log(run, actions, n - 1, c));
    }
  }

  // ----- The push queue holds what was pushed as stored in that order -----

  /** `part` is `whole` with some elements left out. */
  predicate IsSelection(part: seq<Pushed>, whole: seq<Pushed>) {
    if part == [] then true
    else
      whole != []
      && var p, q := part[..|part| - 1], whole[..|whole| - 1];
      (part[|part| - 1] == whole[|whole| - 1] && IsSelection(p, q)) || IsSelection(part, q)
  }

  lemma SelectionGrows(part: seq<Pushed>, whole: seq<Pushed>, p: Pushed)
    requires IsSelection(part, whole)
    ensures IsSelection(part + [p], whole + [p]) && IsSelection(part, whole + [p])
  {
    assert (part + [p])[..|part|] == part && (whole + [p])[..|whole|] == whole;
  }

  /** In every state of every run, whatever fails, the push queue holds the stored messages in that order. */
  lemma {:induction false} QueueHoldsStored(run: seq<State>, actions: seq<Action>, n: nat)
    requires IsRun(run, actions) && n < |run|
    ensures IsSelection(run[n].data.stored, run[n].data.toPush)
  {
    if n > 0 {
      QueueHoldsStored(run, actions, n - 1);
      QueueStep(run[n - 1], actions[n - 1], run[n]);
    }
  }

  lemma EffectQueues(d: Data, p: Phase, work: Work)
    requires Enabled(p, work) && IsSelection(d.stored, d.toPush)
    ensures IsSelection(Effect(d, p, work).stored, Effect(d, p, work).toPush)
  {
    if work == PushUnstored(true) {
      SelectionGrows(d.stored, d.toPush, Pushed(p.job.conversationID, p.job.notStorageList[p.done]));
    } else if work == PushOne(true) {
      SelectionGrows(d.stored, d.toPush, Pushed(p.batch.conversationID, p.batch.msgs[p.done]));
    } else {
      assert Effect(d, p, work).toPush == d.toPush;
    }
  }

  lemma QueueStep(s: State, a: Action, t: State)
    requires Step(s, a, t) && IsSelection(s.data.stored, s.data.toPush)
    ensures IsSelection(t.data.stored, t.data.toPush)
  {
    if a.Worker? {
      EffectQueues(s.data, s.workers[a.w], a.work);
    }
  }
}
