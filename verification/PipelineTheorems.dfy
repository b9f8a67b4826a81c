/** What holds of every run of the message transfer pipeline: order, conservation, routing and draining. */
module PipelineTheorems {
  import opened Messages
  import opened Pipeline

  /**
   * Per-key FIFO over every interleaving. In every state of every run, for every claim and key, the
   * accepted messages are, in order, those the worker has taken followed by those still waiting:
   * nothing is lost, duplicated or reordered.
   */
  lemma PerKeyFifo(hash: string -> nat, run: seq<State>, actions: seq<Action>, n: nat, c: nat, k: string)
    requires IsRun(hash, run, actions) && n < |run|
    ensures Shaped(run[n])
    ensures Accepted(run[n], c, k) == DeliveredOf(hash, run[n], c, k) + Waiting(hash, run[n], c, k)
  {
    RunKeepsInv(hash, run, actions, n);
    assert Fifo(hash, run[n], c, k);
  }

  /**
   * Equal keys share one channel for good: every command, queued or delivered, sits in the channel of
   * its key, one of a hundred, and carries at least one message, so the worker may read the first one.
   */
  lemma CommandsAreRouted(hash: string -> nat, run: seq<State>, actions: seq<Action>, n: nat)
    requires IsRun(hash, run, actions) && n < |run|
    ensures |run[n].channels| == |run[n].delivered| == CHANNEL_NUM == 100
    ensures forall i, j | 0 <= i < CHANNEL_NUM && 0 <= j < |run[n].channels[i]| ::
      var cmd := run[n].channels[i][j]; ChannelOf(hash, cmd.uniqueKey) == i && cmd.ctxMsgList != []
    ensures forall i, j | 0 <= i < CHANNEL_NUM && 0 <= j < |run[n].delivered[i]| ::
      var cmd := run[n].delivered[i][j]; ChannelOf(hash, cmd.uniqueKey) == i && cmd.ctxMsgList != []
  {
    RunKeepsInv(hash, run, actions, n);
    forall i, j | 0 <= i < CHANNEL_NUM && 0 <= j < |run[n].channels[i]|
      ensures ChannelOf(hash, run[n].channels[i][j].uniqueKey) == i && run[n].channels[i][j].ctxMsgList != []
    {
      assert RoutedOk(hash, run[n].channels[i], i);
    }
    forall i, j | 0 <= i < CHANNEL_NUM && 0 <= j < |run[n].delivered[i]|
      ensures ChannelOf(hash, run[n].delivered[i][j].uniqueKey) == i && run[n].delivered[i][j].ctxMsgList != []
    {
      assert RoutedOk(hash, run[n].delivered[i], i);
    }
  }

  // ----- Commands hold only messages that belong to their key -----

  predicate AllMeet(p: (MsgData, string) -> bool, ms: seq<ContextMsg>, k: string) {
    forall i | 0 <= i < |ms| :: p(ms[i].message, k)
  }

  ghost predicate RecordsMeet(p: (MsgData, string) -> bool, rs: seq<Record>) {
    forall i | 0 <= i < |rs| && rs[i].body.Some? :: p(rs[i].body.value, rs[i].key)
  }

  /** Whatever relates a message to its record key at the source still relates it to the key it travels under. */
  ghost predicate Labelled(p: (MsgData, string) -> bool, s: State) {
    && (forall c | 0 <= c < |s.claims| :: RecordsMeet(p, s.claims[c].buffer))
    && (forall c, j | 0 <= c < |s.claims| && 0 <= j < |s.claims[c].chunks| ::
          RecordsMeet(p, s.claims[c].chunks[j]))
    && (forall k <- s.pending :: AllMeet(p, s.pending[k], k))
    && (forall i, j | 0 <= i < |s.channels| && 0 <= j < |s.channels[i]| ::
          AllMeet(p, s.channels[i][j].ctxMsgList, s.channels[i][j].uniqueKey))
    && (forall i, j | 0 <= i < |s.delivered| && 0 <= j < |s.delivered[i]| ::
          AllMeet(p, s.delivered[i][j].ctxMsgList, s.delivered[i][j].uniqueKey))
  }

  lemma {:induction false} DecodeMeets(p: (MsgData, string) -> bool, rs: seq<Record>, k: string)
    requires RecordsMeet(p, rs)
    ensures AllMeet(p, Decode(rs, k), k)
  {
    if rs != [] {
      DecodeMeets(p, rs[..|rs| - 1], k);
    }
  }

  lemma {:induction false} FlattenMeets(p: (MsgData, string) -> bool, chunks: seq<seq<Record>>)
    requires RecordsMeet(p, Flatten(chunks))
    ensures forall j | 0 <= j < |chunks| :: RecordsMeet(p, chunks[j])
  {
    if chunks != [] {
      var all, rest := Flatten(chunks), Flatten(chunks[1..]);
      assert forall i | 0 <= i < |chunks[0]| :: all[i] == chunks[0][i];
      assert forall i | 0 <= i < |rest| :: all[|chunks[0]| + i] == rest[i];
      FlattenMeets(p, chunks[1..]);
      forall j | 0 <= j < |chunks| ensures RecordsMeet(p, chunks[j]) {
        if j > 0 { assert chunks[j] == chunks[1..][j - 1]; }
      }
    }
  }

  lemma FlushKeepsLabels(hash: string -> nat, p: (MsgData, string) -> bool, s: State, c: nat, t: State)
    requires Labelled(p, s) && Step(hash, s, Flush(c), t)
    ensures Labelled(p, t)
  {
    assert RecordsMeet(p, s.claims[c].buffer);
    FlattenMeets(p, t.claims[c].chunks);
    forall d, j | 0 <= d < |t.claims| && 0 <= j < |t.claims[d].chunks| ensures RecordsMeet(p, t.claims[d].chunks[j]) {
      if d != c { assert t.claims[d] == s.claims[d]; }
    }
  }

  lemma HandOffKeepsLabels(hash: string -> nat, p: (MsgData, string) -> bool, s: State, c: nat, t: State)
    requires Labelled(p, s) && Step(hash, s, HandOff(c), t)
    ensures Labelled(p, t)
  {
    assert RecordsMeet(p, s.claims[c].chunks[0]);
    forall k <- t.pending ensures AllMeet(p, t.pending[k], k) {
      DecodeMeets(p, s.claims[c].chunks[0], k);
    }
    forall d, j | 0 <= d < |t.claims| && 0 <= j < |t.claims[d].chunks| ensures RecordsMeet(p, t.claims[d].chunks[j]) {
      if d != c {
        assert t.claims[d] == s.claims[d];
      } else {
        assert t.claims[c].chunks[j] == s.claims[c].chunks[j + 1];
      }
    }
  }

  lemma StepKeepsLabels(hash: string -> nat, p: (MsgData, string) -> bool, s: State, a: Action, t: State)
    requires Labelled(p, s) && Step(hash, s, a, t)
    requires a.Consume? ==> RecordsMeet(p, [a.r])
    ensures Labelled(p, t)
  {
    match a
    case Consume(c, r) => assert r == [r][0];
    case Flush(c) => FlushKeepsLabels(hash, p, s, c, t);
    case HandOff(c) => HandOffKeepsLabels(hash, p, s, c, t);
    case _ =>
  }

  lemma {:induction false} RunKeepsLabels(
    hash: string -> nat, p: (MsgData, string) -> bool, run: seq<State>, actions: seq<Action>, n: nat)
    requires IsRun(hash, run, actions) && n < |run|
    requires forall i | 0 <= i < |actions| && actions[i].Consume? :: RecordsMeet(p, [actions[i].r])
    ensures Labelled(p, run[n])
  {
    if n > 0 {
      RunKeepsLabels(hash, p, run, actions, n - 1);
      StepKeepsLabels(hash, p, run[n - 1], actions[n - 1], run[n]);
    }
  }

  function MessagesOf(cmd: Command): (ms: seq<MsgData>)
    ensures |ms| == |cmd.ctxMsgList|
    ensures forall i | 0 <= i < |ms| :: ms[i] == cmd.ctxMsgList[i].message
  {
    seq(|cmd.ctxMsgList|, i requires 0 <= i < |cmd.ctxMsgList| => cmd.ctxMsgList[i].message)
  }

  // ----- Draining: without new records, every schedule empties the pipeline -----

  predicate Internal(a: Action) {
    a.Flush? || a.HandOff? || a.Send? || a.Receive?
  }

  predicate Quiescent(s: State) {
    && (forall c | 0 <= c < |s.claims| :: s.claims[c].buffer == [] && s.claims[c].chunks == [])
    && s.pending == map[]
    && (forall i | 0 <= i < |s.channels| :: s.channels[i] == [])
  }

  function Weight(q: Claim): nat {
    4 * |q.buffer| + 3 * |Flatten(q.chunks)|
  }

  function ClaimsWeight(claims: seq<Claim>): nat {
    if claims == [] then 0 else Weight(claims[0]) + ClaimsWeight(claims[1..])
  }

  function Queued(channels: seq<seq<Command>>): nat {
    if channels == [] then 0 else |channels[0]| + Queued(channels[1..])
  }

  /** How much work is left: each record still has to be flushed, handed over, sent and received. */
  function Work(s: State): nat {
    ClaimsWeight(s.claims) + 2 * |s.pending| + Queued(s.channels)
  }

  lemma {:induction false} ClaimsWeightUpdate(claims: seq<Claim>, c: nat, q: Claim)
    requires c < |claims|
    ensures ClaimsWeight(claims[c := q]) == ClaimsWeight(claims) - Weight(claims[c]) + Weight(q)
  {
    if c > 0 {
      ClaimsWeightUpdate(claims[1..], c - 1, q);
      assert claims[c := q][1..] == claims[1..][c - 1 := q];
    } else {
      assert claims[c := q][1..] == claims[1..];
    }
  }

  lemma {:induction false} QueuedUpdate(channels: seq<seq<Command>>, i: nat, q: seq<Command>)
    requires i < |channels|
    ensures Queued(channels[i := q]) == Queued(channels) - |channels[i]| + |q|
  {
    if i > 0 {
      QueuedUpdate(channels[1..], i - 1, q);
      assert channels[i := q][1..] == channels[1..][i - 1 := q];
    } else {
      assert channels[i := q][1..] == channels[1..];
    }
  }

  function KeysOf(rs: seq<Record>): set<string> {
    if rs == [] then {} else KeysOf(rs[..|rs| - 1]) + {rs[|rs| - 1].key}
  }

  lemma {:induction false} KeysOfBound(rs: seq<Record>)
    ensures |KeysOf(rs)| <= |rs|
    ensures forall k :: Decode(rs, k) != [] ==> k in KeysOf(rs)
  {
    if rs != [] {
      KeysOfBound(rs[..|rs| - 1]);
    }
  }

  lemma {:induction false} SubsetSize<T>(a: set<T>, b: set<T>)
    requires a <= b
    ensures |a| <= |b|
  {
    if a != {} {
      var x :| x in a;
      SubsetSize(a - {x}, b - {x});
    }
  }

  /** Grouping a chunk makes no more groups than it has records. */
  lemma GroupingSize(groups: map<string, seq<ContextMsg>>, chunk: seq<Record>)
    requires IsGrouping(groups, chunk)
    ensures |groups| <= |chunk|
  {
    KeysOfBound(chunk);
    assert groups.Keys <= KeysOf(chunk);
    SubsetSize(groups.Keys, KeysOf(chunk));
  }

  lemma InternalStepWorks(hash: string -> nat, s: State, a: Action, t: State)
    requires Structure(hash, s) && Step(hash, s, a, t) && Internal(a)
    ensures Work(t) < Work(s)
  {
    match a
    case Flush(c) =>
      ClaimsWeightUpdate(s.claims, c, t.claims[c]);
    case HandOff(c) =>
      ClaimsWeightUpdate(s.claims, c, t.claims[c]);
      GroupingSize(t.pending, s.claims[c].chunks[0]);
    case Send(k) =>
      var i := ChannelOf(hash, k);
      QueuedUpdate(s.channels, i, t.channels[i]);
      assert t.pending.Keys == s.pending.Keys - {k};
    case Receive(i) =>
      QueuedUpdate(s.channels, i, t.channels[i]);
  }

  /** No schedule can postpone forever: a run without new records takes at most Work steps. */
  lemma {:induction false} DrainIsBounded(hash: string -> nat, run: seq<State>, actions: seq<Action>, n: nat)
    requires |run| == |actions| + 1 && n < |run|
    requires forall i | 0 <= i < |actions| :: Step(hash, run[i], actions[i], run[i + 1]) && Internal(actions[i])
    requires Structure(hash, run[0])
    ensures Structure(hash, run[n])
    ensures n + Work(run[n]) <= Work(run[0])
  {
    if n > 0 {
      DrainIsBounded(hash, run, actions, n - 1);
      StructurePreserved(hash, run[n - 1], actions[n - 1], run[n]);
      InternalStepWorks(hash, run[n - 1], actions[n - 1], run[n]);
    }
  }

  lemma {:induction false} SplitExists(buffer: seq<Record>) returns (chunks: seq<seq<Record>>)
    ensures IsSplit(chunks, buffer)
  {
    if buffer == [] {
      chunks := [];
    } else if |buffer| <= SPLIT {
      chunks := [buffer];
      assert chunks[1..] == [];
    } else {
      var rest := SplitExists(buffer[SPLIT..]);
      chunks := [buffer[..SPLIT]] + rest;
      assert chunks[1..] == rest;
      assert rest != [];
    }
  }

  /** Nothing can get stuck: while anything is inside the pipeline, some goroutine can move it on. */
  lemma ProgressPossible(hash: string -> nat, s: State) returns (a: Action, t: State)
    requires Structure(hash, s) && !Quiescent(s)
    ensures Internal(a) && Step(hash, s, a, t)
  {
    if i :| 0 <= i < |s.channels| && s.channels[i] != [] {
      a := Receive(i);
      t := s.(channels := s.channels[i := s.channels[i][1..]],
              delivered := s.delivered[i := s.delivered[i] + [s.channels[i][0]]]);
    } else if s.pending != map[] {
      var k :| k in s.pending;
      var i := ChannelOf(hash, k);
      a := Send(k);
      t := s.(pending := s.pending - {k},
              channels := s.channels[i := s.channels[i] + [Command(k, s.pending[k])]]);
    } else if c :| 0 <= c < |s.claims| && s.claims[c].chunks != [] {
      a := HandOff(c);
      var chunk := s.claims[c].chunks[0];
      var groups := map k | k in KeysOf(chunk) && Decode(chunk, k) != [] :: Decode(chunk, k);
      KeysOfBound(chunk);
      t := s.(pending := groups, claims := s.claims[c := s.claims[c].(chunks := s.claims[c].chunks[1..])]);
    } else {
      var c :| 0 <= c < |s.claims| && s.claims[c].buffer != [];
      a := Flush(c);
      var chunks := SplitExists(s.claims[c].buffer);
      t := s.(claims := s.claims[c := s.claims[c].(buffer := [], chunks := chunks)]);
    }
  }

  /** No goroutine can move anything on: only new records or claims could. */
  ghost predicate Stuck(hash: string -> nat, s: State) {
    forall a, t | Internal(a) :: !Step(hash, s, a, t)
  }

  /** Where a run can only consume, the workers have taken exactly what the claims accepted, key by key. */
  lemma DrainedMeansDelivered(hash: string -> nat, run: seq<State>, actions: seq<Action>, c: nat, k: string)
    requires IsRun(hash, run, actions)
    requires Stuck(hash, run[|run| - 1])
    ensures Shaped(run[|run| - 1])
    ensures DeliveredOf(hash, run[|run| - 1], c, k) == Accepted(run[|run| - 1], c, k)
  {
    var s := run[|run| - 1];
    RunKeepsInv(hash, run, actions, |run| - 1);
    if !Quiescent(s) {
      var a, t := ProgressPossible(hash, s);
      assert false;
    }
    PerKeyFifo(hash, run, actions, |run| - 1, c, k);
    assert Waiting(hash, s, c, k) == [];
  }

  // ----- One chunk of one key -----

  /** Records a claim accepts and decodes, all under one key. */
  predicate OneKey(rs: seq<Record>, k: string) {
    forall i | 0 <= i < |rs| :: rs[i].claim == 0 && rs[i].key == k && rs[i].size != 0 && rs[i].body.Some?
  }

  lemma DecodeLast(rs: seq<Record>, k: string)
    requires OneKey(rs, k) && rs != []
    ensures OneKey(rs[..|rs| - 1], k)
    ensures Decode(rs, k) == Decode(rs[..|rs| - 1], k) + [ContextMsg(0, rs[|rs| - 1].body.value)]
  {
  }

  lemma {:induction false} DecodeOneKey(rs: seq<Record>, k: string)
    requires OneKey(rs, k)
    ensures |Decode(rs, k)| == |rs|
    ensures forall i | 0 <= i < |rs| :: Decode(rs, k)[i] == ContextMsg(0, rs[i].body.value)
  {
    if rs != [] {
      var init := rs[..|rs| - 1];
      DecodeLast(rs, k);
      DecodeOneKey(init, k);
      forall i | 0 <= i < |rs| ensures Decode(rs, k)[i] == ContextMsg(0, rs[i].body.value) {
        if i < |init| { assert Decode(init, k)[i] == ContextMsg(0, init[i].body.value); }
      }
    }
  }

  lemma {:induction false} DecodeOtherKey(rs: seq<Record>, k: string, h: string)
    requires OneKey(rs, k) && h != k
    ensures Decode(rs, h) == []
  {
    if rs != [] {
      DecodeOtherKey(rs[..|rs| - 1], k, h);
    }
  }

  function Consuming(rs: seq<Record>): State {
    State([Claim(rs, rs, [])], map[], seq(CHANNEL_NUM, _ => []), seq(CHANNEL_NUM, _ => []))
  }

  lemma {:induction false} ConsumeRun(hash: string -> nat, rs: seq<Record>, k: string)
    returns (run: seq<State>, actions: seq<Action>)
    requires OneKey(rs, k)
    ensures IsRun(hash, run, actions) && run[|actions|] == Consuming(rs)
    ensures forall i | 0 <= i < |actions| && actions[i].Consume? :: actions[i].r in rs
  {
    if rs == [] {
      var s := State([], map[], seq(CHANNEL_NUM, _ => []), seq(CHANNEL_NUM, _ => []));
      run, actions := [s, Consuming([])], [OpenClaim];
    } else {
      var init, r := rs[..|rs| - 1], rs[|rs| - 1];
      run, actions := ConsumeRun(hash, init, k);
      assert rs == init + [r];
      run, actions := Extend(hash, run, actions, Consume(0, r), Consuming(rs));
    }
  }

  lemma Extend(hash: string -> nat, run: seq<State>, actions: seq<Action>, a: Action, t: State)
    returns (run': seq<State>, actions': seq<Action>)
    requires IsRun(hash, run, actions) && Step(hash, run[|actions|], a, t)
    ensures IsRun(hash, run', actions') && run'[|actions'|] == t && actions' == actions + [a]
  {
    run', actions' := run + [t], actions + [a];
    forall i | 0 <= i < |actions'| ensures Step(hash, run'[i], actions'[i], run'[i + 1]) {
      if i < |actions| { assert Step(hash, run[i], actions[i], run[i + 1]); }
    }
  }

  /** The states from the flush to the delivery of one chunk of one key. */
  function Flushed(rs: seq<Record>): State {
    Consuming(rs).(claims := [Claim(rs, [], [rs])])
  }

  function Handed(rs: seq<Record>, k: string): State {
    Consuming(rs).(claims := [Claim(rs, [], [])], pending := map[k := Decode(rs, k)])
  }

  function Sent(rs: seq<Record>, cmd: Command, i: nat): State
    requires i < CHANNEL_NUM
  {
    var s := Consuming(rs);
    s.(claims := [Claim(rs, [], [])], channels := s.channels[i := [cmd]])
  }

  function Taken(rs: seq<Record>, cmd: Command, i: nat): State
    requires i < CHANNEL_NUM
  {
    var s := Consuming(rs);
    s.(claims := [Claim(rs, [], [])], channels := s.channels[i := []], delivered := s.delivered[i := [cmd]])
  }

  lemma FlushStep(hash: string -> nat, rs: seq<Record>)
    requires 0 < |rs| <= SPLIT
    ensures Step(hash, Consuming(rs), Flush(0), Flushed(rs))
  {
    var s, t := Consuming(rs), Flushed(rs);
    assert Flatten([rs][1..]) == [] && rs + [] == rs;
    assert s.claims[0 := t.claims[0]] == t.claims;
  }

  lemma OneGroup(rs: seq<Record>, k: string)
    requires OneKey(rs, k) && rs != []
    ensures IsGrouping(map[k := Decode(rs, k)], rs)
  {
    DecodeOneKey(rs, k);
    var groups := map[k := Decode(rs, k)];
    forall h ensures h in groups <==> Decode(rs, h) != [] {
      if h != k { DecodeOtherKey(rs, k, h); }
    }
  }

  lemma HandOffStep(hash: string -> nat, rs: seq<Record>, k: string)
    requires OneKey(rs, k) && rs != []
    ensures Step(hash, Flushed(rs), HandOff(0), Handed(rs, k))
  {
    var s, t := Flushed(rs), Handed(rs, k);
    OneGroup(rs, k);
    assert s.claims[0].chunks[0] == rs;
    assert [rs][1..] == [] && s.claims[0 := t.claims[0]] == t.claims;
  }

  lemma SendStep(hash: string -> nat, rs: seq<Record>, k: string)
    ensures Step(hash, Handed(rs, k), Send(k), Sent(rs, Command(k, Decode(rs, k)), ChannelOf(hash, k)))
  {
    var s, cmd := Handed(rs, k), Command(k, Decode(rs, k));
    assert s.pending - {k} == map[] && [] + [cmd] == [cmd];
  }

  lemma ReceiveStep(hash: string -> nat, rs: seq<Record>, cmd: Command, i: nat)
    requires i < CHANNEL_NUM
    ensures Step(hash, Sent(rs, cmd, i), Receive(i), Taken(rs, cmd, i))
  {
    var s := Sent(rs, cmd, i);
    assert [cmd][1..] == [] && [] + [cmd] == [cmd];
    assert s.channels[i := []] == Taken(rs, cmd, i).channels;
  }

  lemma HandedRun(hash: string -> nat, rs: seq<Record>, k: string) returns (run: seq<State>, actions: seq<Action>)
    requires OneKey(rs, k) && 0 < |rs| <= SPLIT
    ensures IsRun(hash, run, actions) && run[|actions|] == Handed(rs, k)
    ensures forall i | 0 <= i < |actions| && actions[i].Consume? :: actions[i].r in rs
  {
    run, actions := ConsumeRun(hash, rs, k);
    FlushStep(hash, rs);
    run, actions := Extend(hash, run, actions, Flush(0), Flushed(rs));
    HandOffStep(hash, rs, k);
    run, actions := Extend(hash, run, actions, HandOff(0), Handed(rs, k));
  }

  /** Up to a thousand records of one key can reach their worker as one command. */
  lemma OneCommandRun(hash: string -> nat, rs: seq<Record>, k: string) returns (run: seq<State>, actions: seq<Action>)
    requires OneKey(rs, k) && 0 < |rs| <= SPLIT
    ensures IsRun(hash, run, actions)
    ensures run[|actions|] == Taken(rs, Command(k, Decode(rs, k)), ChannelOf(hash, k))
    ensures forall i | 0 <= i < |actions| && actions[i].Consume? :: actions[i].r in rs
  {
    var i, cmd := ChannelOf(hash, k), Command(k, Decode(rs, k));
    run, actions := HandedRun(hash, rs, k);
    SendStep(hash, rs, k);
    run, actions := Extend(hash, run, actions, Send(k), Sent(rs, cmd, i));
    ReceiveStep(hash, rs, cmd, i);
    run, actions := Extend(hash, run, actions, Receive(i), Taken(rs, cmd, i));
  }
}
