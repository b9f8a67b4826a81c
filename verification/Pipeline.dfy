/**
 * The message transfer pipeline (internal/msgtransfer/online_history_msg_handler.go) from the Kafka
 * claims to the channel workers, as a transition system over every interleaving of its goroutines:
 * one consumer loop and one ticker per claim, one distributor, and one worker per channel.
 */
module Pipeline {
  import opened Messages

  const CHANNEL_NUM: nat := 100
  const CHANNEL_CAPACITY: nat := 50
  const SPLIT: nat := 1000

  /**
   * A Kafka record: `size` is the length of its value and `body` the result of unmarshalling it
   * (None when that fails). `claim` names the claim that delivers it.
   */
  datatype Record = Record(claim: nat, key: string, size: nat, body: Option<MsgData>)

  /** A decoded message on its way to a worker; the claim stands for the context taken from the record. */
  datatype ContextMsg = ContextMsg(claim: nat, message: MsgData)

  /** The command the distributor sends to a worker. */
  datatype Command = Command(uniqueKey: string, ctxMsgList: seq<ContextMsg>)

  // ----- The simple reading of each stage: order-preserving selections -----

  /** The records a claim keeps: those with a non-empty value. */
  function NonEmpty(rs: seq<Record>): seq<Record> {
    if rs == [] then []
    else NonEmpty(rs[..|rs| - 1]) + (if rs[|rs| - 1].size != 0 then [rs[|rs| - 1]] else [])
  }

  /** The messages under key `k` among the records that decode, in record order. */
  function Decode(rs: seq<Record>, k: string): seq<ContextMsg> {
    if rs == [] then []
    else
      var r := rs[|rs| - 1];
      Decode(rs[..|rs| - 1], k)
      + (if r.key == k && r.body.Some? then [ContextMsg(r.claim, r.body.value)] else [])
  }

  /** The messages that came from claim `c`. */
  function OfClaim(ms: seq<ContextMsg>, c: nat): seq<ContextMsg> {
    if ms == [] then []
    else OfClaim(ms[..|ms| - 1], c) + (if ms[|ms| - 1].claim == c then [ms[|ms| - 1]] else [])
  }

  /** The messages carried by the commands for key `k`, in command order. */
  function Carried(cmds: seq<Command>, k: string): seq<ContextMsg> {
    if cmds == [] then []
    else
      var cmd := cmds[|cmds| - 1];
      Carried(cmds[..|cmds| - 1], k) + (if cmd.uniqueKey == k then cmd.ctxMsgList else [])
  }

  function Flatten(chunks: seq<seq<Record>>): seq<Record> {
    if chunks == [] then [] else chunks[0] + Flatten(chunks[1..])
  }

  lemma {:induction false} NonEmptySnoc(rs: seq<Record>, r: Record)
    ensures NonEmpty(rs + [r]) == NonEmpty(rs) + (if r.size != 0 then [r] else [])
  {
    assert (rs + [r])[..|rs|] == rs;
  }

  lemma {:induction false} DecodeConcat(a: seq<Record>, b: seq<Record>, k: string)
    ensures Decode(a + b, k) == Decode(a, k) + Decode(b, k)
  {
    if b == [] {
      assert a + b == a;
    } else {
      DecodeConcat(a, b[..|b| - 1], k);
      assert (a + b)[..|a + b| - 1] == a + b[..|b| - 1];
    }
  }

  lemma {:induction false} OfClaimConcat(a: seq<ContextMsg>, b: seq<ContextMsg>, c: nat)
    ensures OfClaim(a + b, c) == OfClaim(a, c) + OfClaim(b, c)
  {
    if b == [] {
      assert a + b == a;
    } else {
      OfClaimConcat(a, b[..|b| - 1], c);
      assert (a + b)[..|a + b| - 1] == a + b[..|b| - 1];
    }
  }

  lemma {:induction false} CarriedSnoc(cmds: seq<Command>, cmd: Command, k: string)
    ensures Carried(cmds + [cmd], k) == Carried(cmds, k) + (if cmd.uniqueKey == k then cmd.ctxMsgList else [])
  {
    assert (cmds + [cmd])[..|cmds|] == cmds;
  }

  /** The messages a command carries for key `k`. */
  function CarriedBy(cmd: Command, k: string): seq<ContextMsg> {
    if cmd.uniqueKey == k then cmd.ctxMsgList else []
  }

  lemma {:induction false} CarriedUncons(cmds: seq<Command>, k: string)
    requires cmds != []
    ensures Carried(cmds, k) == CarriedBy(cmds[0], k) + Carried(cmds[1..], k)
  {
    var init, cmd := cmds[..|cmds| - 1], cmds[|cmds| - 1];
    if init == [] {
      assert Carried(init, k) == [] && cmds[1..] == [] && cmds[0] == cmd;
      assert [] + CarriedBy(cmd, k) == CarriedBy(cmd, k) + [];
    } else {
      CarriedUncons(init, k);
      CarriedSnoc(init[1..], cmd, k);
      assert cmds[1..] == init[1..] + [cmd] && cmds[0] == init[0];
      Shift(CarriedBy(cmds[0], k), Carried(init[1..], k), CarriedBy(cmd, k));
    }
  }

  lemma {:induction false} FlattenSnoc(chunks: seq<seq<Record>>, chunk: seq<Record>)
    ensures Flatten(chunks + [chunk]) == Flatten(chunks) + chunk
  {
    if chunks == [] {
      assert [chunk][1..] == [];
    } else {
      FlattenSnoc(chunks[1..], chunk);
      assert (chunks + [chunk])[1..] == chunks[1..] + [chunk];
    }
  }

  // ----- Chunking the flushed buffer -----

  /** What the ticker must hand over: non-empty pieces of at most SPLIT, all but the last full, in order. */
  ghost predicate IsSplit(chunks: seq<seq<Record>>, buffer: seq<Record>) {
    && Flatten(chunks) == buffer
    && (forall i | 0 <= i < |chunks| :: 0 < |chunks[i]| <= SPLIT)
    && (forall i | 0 <= i < |chunks| - 1 :: |chunks[i]| == SPLIT)
  }

  /** The chunk loop of the ticker goroutine; a chunk is what one send on msgDistributionCh carries. */
  method SplitBuffer(ccMsg: seq<Record>) returns (chunks: seq<seq<Record>>)
    ensures IsSplit(chunks, ccMsg)
  {
    chunks := [];
    for i := 0 to |ccMsg| / SPLIT
      invariant |chunks| == i
      invariant forall j | 0 <= j < i :: |chunks[j]| == SPLIT
      invariant i * SPLIT <= |ccMsg|
      invariant Flatten(chunks) == ccMsg[..i * SPLIT]
    {
      FlattenSnoc(chunks, ccMsg[i * SPLIT..(i + 1) * SPLIT]);
      assert ccMsg[..(i + 1) * SPLIT] == ccMsg[..i * SPLIT] + ccMsg[i * SPLIT..(i + 1) * SPLIT];
      chunks := chunks + [ccMsg[i * SPLIT..(i + 1) * SPLIT]];
    }
    if |ccMsg| % SPLIT > 0 {
      FlattenSnoc(chunks, ccMsg[SPLIT * (|ccMsg| / SPLIT)..]);
      assert ccMsg == ccMsg[..SPLIT * (|ccMsg| / SPLIT)] + ccMsg[SPLIT * (|ccMsg| / SPLIT)..];
      chunks := chunks + [ccMsg[SPLIT * (|ccMsg| / SPLIT)..]];
    } else {
      assert ccMsg == ccMsg[..|ccMsg|];
    }
  }

  /**
   * One claim's consumer: the loop over its messages appends to cMsg, the ticker copies and clears it.
   * `consumed` records everything the claim was given; `unsent` is what the ticker has yet to send.
   */
  class ClaimConsumer {
    ghost var consumed: seq<Record>
    var cMsg: seq<Record>
    var unsent: seq<seq<Record>>

    ghost function View(): Claim
      reads this
    {
      Claim(consumed, cMsg, unsent)
    }

    constructor ()
      ensures View() == NEW_CLAIM
    {
      consumed, cMsg, unsent := [], [], [];
    }

    method OnMessage(msg: Record)
      modifies this
      ensures View() == Consumed(old(View()), msg)
    {
      if msg.size != 0 {
        cMsg := cMsg + [msg];
      }
      consumed := consumed + [msg];
    }

    /** One tick; the ticker goroutine comes back here only after it sent all its chunks. */
    method OnTick()
      requires unsent == []
      modifies this
      ensures if old(cMsg) == [] then View() == old(View()) else IsFlush(old(View()), View())
    {
      if |cMsg| > 0 {
        var ccMsg := [];
        for i := 0 to |cMsg|
          invariant ccMsg == cMsg[..i]
          invariant unchanged(this)
        {
          ccMsg := ccMsg + [cMsg[i]];
        }
        cMsg := [];
        unsent := SplitBuffer(ccMsg);
      }
    }
  }

  // ----- Grouping a chunk by key -----

  /** The aggregation map of a chunk: each key with at least one decodable record, and its messages in order. */
  ghost predicate IsGrouping(groups: map<string, seq<ContextMsg>>, chunk: seq<Record>) {
    && (forall k :: k in groups <==> Decode(chunk, k) != [])
    && (forall k <- groups :: groups[k] == Decode(chunk, k))
  }

  /** The aggregation loop of MessagesDistributionHandle. */
  method Aggregate(consumerMessages: seq<Record>) returns (aggregationMsgs: map<string, seq<ContextMsg>>)
    ensures IsGrouping(aggregationMsgs, consumerMessages)
  {
    aggregationMsgs := map[];
    for i := 0 to |consumerMessages|
      invariant IsGrouping(aggregationMsgs, consumerMessages[..i])
    {
      ghost var before := consumerMessages[..i];
      assert consumerMessages[..i + 1] == before + [consumerMessages[i]];
      forall k: string
        ensures Decode(consumerMessages[..i + 1], k) == Decode(before, k) + Decode([consumerMessages[i]], k)
      {
        DecodeConcat(before, [consumerMessages[i]], k);
      }
      var r := consumerMessages[i];
      if r.body.None? {
        continue;
      }
      var ctxMsg := ContextMsg(r.claim, r.body.value);
      if r.key in aggregationMsgs {
        var oldM := aggregationMsgs[r.key];
        oldM := oldM + [ctxMsg];
        aggregationMsgs := aggregationMsgs[r.key := oldM];
      } else {
        aggregationMsgs := aggregationMsgs[r.key := [ctxMsg]];
      }
    }
    assert consumerMessages[..|consumerMessages|] == consumerMessages;
  }

  // ----- The transition system -----

  /** One claim: what it has consumed so far, its buffer cMsg, and the chunks its ticker still has to send. */
  datatype Claim = Claim(consumed: seq<Record>, buffer: seq<Record>, chunks: seq<seq<Record>>)

  const NEW_CLAIM := Claim([], [], [])

  /**
   * The whole pipeline. `pending` is what the distributor still has to send of the chunk it took
   * (empty when it waits for the next); `delivered[i]` is what worker i has taken so far.
   */
  datatype State = State(
    claims: seq<Claim>,
    pending: map<string, seq<ContextMsg>>,
    channels: seq<seq<Command>>,
    delivered: seq<seq<Command>>)

  datatype Action =
    | OpenClaim
    | Consume(c: nat, r: Record)
    | Flush(c: nat)
    | HandOff(c: nat)
    | Send(k: string)
    | Receive(i: nat)

  /** The channel of a key; `hash` is GetHashCode, a library function. */
  function ChannelOf(hash: string -> nat, k: string): (i: nat)
    ensures i < CHANNEL_NUM
  {
    hash(k) % CHANNEL_NUM
  }

  ghost predicate Init(s: State) {
    && s.claims == []
    && s.pending == map[]
    && s.channels == seq(CHANNEL_NUM, _ => [])
    && s.delivered == seq(CHANNEL_NUM, _ => [])
  }

  function Consumed(q: Claim, r: Record): Claim {
    q.(consumed := q.consumed + [r], buffer := if r.size != 0 then q.buffer + [r] else q.buffer)
  }

  ghost predicate IsFlush(q: Claim, q': Claim) {
    q' == q.(buffer := [], chunks := q'.chunks) && IsSplit(q'.chunks, q.buffer)
  }

  /** One atomic step of one goroutine. */
  ghost predicate Step(hash: string -> nat, s: State, a: Action, t: State) {
    match a
    case OpenClaim =>
      t == s.(claims := s.claims + [NEW_CLAIM])
    case Consume(c, r) =>
      && c < |s.claims| && r.claim == c
      && t == s.(claims := s.claims[c := Consumed(s.claims[c], r)])
    case Flush(c) =>
      && c < |s.claims|
      && s.claims[c].chunks == [] && s.claims[c].buffer != []
      && c < |t.claims| && IsFlush(s.claims[c], t.claims[c])
      && t == s.(claims := s.claims[c := t.claims[c]])
    case HandOff(c) =>
      && c < |s.claims|
      && s.pending == map[] && s.claims[c].chunks != []
      && IsGrouping(t.pending, s.claims[c].chunks[0])
      && t == s.(pending := t.pending,
                 claims := s.claims[c := s.claims[c].(chunks := s.claims[c].chunks[1..])])
    case Send(k) =>
      && k in s.pending
      && var i := ChannelOf(hash, k);
      && i < |s.channels| && |s.channels[i]| < CHANNEL_CAPACITY
      && t == s.(pending := s.pending - {k},
                 channels := s.channels[i := s.channels[i] + [Command(k, s.pending[k])]])
    case Receive(i) =>
      && i < |s.channels| && i < |s.delivered| && s.channels[i] != []
      && t == s.(channels := s.channels[i := s.channels[i][1..]],
                 delivered := s.delivered[i := s.delivered[i] + [s.channels[i][0]]])
  }

  /** A finite run: states linked by steps, from the initial one. */
  ghost predicate IsRun(hash: string -> nat, run: seq<State>, actions: seq<Action>) {
    && |run| == |actions| + 1
    && Init(run[0])
    && forall i | 0 <= i < |actions| :: Step(hash, run[i], actions[i], run[i + 1])
  }

  // ----- The invariant -----

  function ClaimAt(s: State, c: nat): Claim {
    if c < |s.claims| then s.claims[c] else NEW_CLAIM
  }

  function InFlight(pending: map<string, seq<ContextMsg>>, k: string): seq<ContextMsg> {
    if k in pending then pending[k] else []
  }

  /** The messages of claim `c` under key `k` that the claim has accepted so far. */
  function Accepted(s: State, c: nat, k: string): seq<ContextMsg> {
    Decode(NonEmpty(ClaimAt(s, c).consumed), k)
  }

  /** Those of them that the worker of the key has taken. */
  function DeliveredOf(hash: string -> nat, s: State, c: nat, k: string): seq<ContextMsg>
    requires Shaped(s)
  {
    OfClaim(Carried(s.delivered[ChannelOf(hash, k)], k), c)
  }

  /** Those still inside the pipeline, oldest first: channel, distributor, unsent chunks, buffer. */
  function Waiting(hash: string -> nat, s: State, c: nat, k: string): seq<ContextMsg>
    requires Shaped(s)
  {
    OfClaim(Carried(s.channels[ChannelOf(hash, k)], k), c)
    + OfClaim(InFlight(s.pending, k), c)
    + Decode(Flatten(ClaimAt(s, c).chunks), k)
    + Decode(ClaimAt(s, c).buffer, k)
  }

  predicate Shaped(s: State) {
    |s.channels| == CHANNEL_NUM && |s.delivered| == CHANNEL_NUM
  }

  ghost predicate Fifo(hash: string -> nat, s: State, c: nat, k: string)
    requires Shaped(s)
  {
    Accepted(s, c, k) == DeliveredOf(hash, s, c, k) + Waiting(hash, s, c, k)
  }

  predicate FromClaim(rs: seq<Record>, c: nat) {
    forall i | 0 <= i < |rs| :: rs[i].claim == c
  }

  /** Every claim holds its own records only, and its chunks have the size of a chunk. */
  ghost predicate ClaimOk(q: Claim, c: nat) {
    && FromClaim(q.buffer, c)
    && (forall j | 0 <= j < |q.chunks| :: FromClaim(q.chunks[j], c) && 0 < |q.chunks[j]| <= SPLIT)
  }

  /** A command sits in the channel of its key and carries at least one message. */
  predicate RoutedOk(hash: string -> nat, cmds: seq<Command>, i: nat) {
    forall j | 0 <= j < |cmds| :: ChannelOf(hash, cmds[j].uniqueKey) == i && cmds[j].ctxMsgList != []
  }

  ghost predicate Structure(hash: string -> nat, s: State) {
    && Shaped(s)
    && (forall c: nat | c < |s.claims| :: ClaimOk(s.claims[c], c))
    && (forall k <- s.pending :: s.pending[k] != [])
    && (forall i | 0 <= i < CHANNEL_NUM :: RoutedOk(hash, s.channels[i], i) && RoutedOk(hash, s.delivered[i], i))
    && (forall i | 0 <= i < CHANNEL_NUM :: |s.channels[i]| <= CHANNEL_CAPACITY)
  }

  ghost predicate Inv(hash: string -> nat, s: State) {
    Structure(hash, s) && forall c: nat, k: string :: Fifo(hash, s, c, k)
  }

  lemma {:induction false} FlattenFromClaim(chunks: seq<seq<Record>>, rs: seq<Record>, c: nat)
    requires Flatten(chunks) == rs && FromClaim(rs, c)
    ensures forall j | 0 <= j < |chunks| :: FromClaim(chunks[j], c)
  {
    if chunks != [] {
      assert rs == chunks[0] + Flatten(chunks[1..]);
      forall i | 0 <= i < |chunks[0]| ensures chunks[0][i].claim == c {
        assert rs[i] == chunks[0][i];
      }
      forall i | 0 <= i < |Flatten(chunks[1..])| ensures Flatten(chunks[1..])[i].claim == c {
        assert rs[|chunks[0]| + i] == Flatten(chunks[1..])[i];
      }
      FlattenFromClaim(chunks[1..], Flatten(chunks[1..]), c);
      forall j | 0 <= j < |chunks| ensures FromClaim(chunks[j], c) {
        if j > 0 { assert chunks[j] == chunks[1..][j - 1]; }
      }
    }
  }

  /** Decoding records of one claim gives messages of that claim. */
  lemma {:induction false} DecodeOfClaim(rs: seq<Record>, k: string, c: nat, d: nat)
    requires FromClaim(rs, c)
    ensures OfClaim(Decode(rs, k), d) == if d == c then Decode(rs, k) else []
  {
    if rs != [] {
      var init := rs[..|rs| - 1];
      DecodeOfClaim(init, k, c, d);
      var r := rs[|rs| - 1];
      var last := if r.key == k && r.body.Some? then [ContextMsg(r.claim, r.body.value)] else [];
      OfClaimConcat(Decode(init, k), last, d);
      if last != [] { assert last[..0] == []; }
    }
  }

  lemma StructurePreserved(hash: string -> nat, s: State, a: Action, t: State)
    requires Structure(hash, s) && Step(hash, s, a, t)
    ensures Structure(hash, t)
  {
    match a
    case OpenClaim =>
    case Consume(c, r) =>
    case Flush(c) =>
      FlattenFromClaim(t.claims[c].chunks, s.claims[c].buffer, c);
    case HandOff(c) =>
    case Send(k) =>
    case Receive(i) =>
  }

  /** Moving `x` from the head of what waits to the end of what is done keeps their concatenation. */
  lemma Shift<T>(done: seq<T>, x: seq<T>, rest: seq<T>)
    ensures (done + x) + rest == done + (x + rest)
  {
  }

  lemma ShiftHead<T>(done: seq<T>, x: seq<T>, y: seq<T>, p: seq<T>, u: seq<T>, v: seq<T>)
    ensures (done + x) + (y + p + u + v) == done + (x + y + p + u + v)
  {
    assert x + y + p + u + v == x + (y + p + u + v);
    Shift(done, x, y + p + u + v);
  }

  lemma FifoConsume(hash: string -> nat, s: State, q: nat, r: Record, t: State, c: nat, k: string)
    requires Shaped(s) && Shaped(t) && Step(hash, s, Consume(q, r), t) && Fifo(hash, s, c, k)
    ensures Fifo(hash, t, c, k)
  {
    if c == q {
      var before, after := s.claims[c], t.claims[c];
      var x := if r.size != 0 then Decode([r], k) else [];
      assert Decode(NonEmpty(after.consumed), k) == Decode(NonEmpty(before.consumed), k) + x by {
        NonEmptySnoc(before.consumed, r);
        if r.size != 0 {
          DecodeConcat(NonEmpty(before.consumed), [r], k);
        } else {
          assert NonEmpty(before.consumed) + [] == NonEmpty(before.consumed);
        }
      }
      assert Decode(after.buffer, k) == Decode(before.buffer, k) + x by {
        DecodeConcat(before.buffer, [r], k);
      }
      var front := OfClaim(Carried(s.channels[ChannelOf(hash, k)], k), c)
                   + OfClaim(InFlight(s.pending, k), c)
                   + Decode(Flatten(before.chunks), k);
      Shift(front, Decode(before.buffer, k), x);
      Shift(DeliveredOf(hash, s, c, k), Waiting(hash, s, c, k), x);
    }
  }

  lemma FifoFlush(hash: string -> nat, s: State, q: nat, t: State, c: nat, k: string)
    requires Shaped(s) && Shaped(t) && Step(hash, s, Flush(q), t) && Fifo(hash, s, c, k)
    ensures Fifo(hash, t, c, k)
  {
    if c == q {
      var front := OfClaim(Carried(s.channels[ChannelOf(hash, k)], k), c) + OfClaim(InFlight(s.pending, k), c);
      var flushed := Decode(s.claims[c].buffer, k);
      assert Flatten(s.claims[c].chunks) == [] && Flatten(t.claims[c].chunks) == s.claims[c].buffer;
      assert front + [] + flushed == front + flushed + [];
      assert Waiting(hash, t, c, k) == Waiting(hash, s, c, k);
    } else {
      assert ClaimAt(t, c) == ClaimAt(s, c);
    }
  }

  lemma HandedOver<T>(front: seq<T>, x: seq<T>, y: seq<T>, rest: seq<T>)
    ensures front + [] + (x + y) + rest == front + x + y + rest
  {
    assert front + [] + (x + y) == front + x + y;
  }

  lemma FifoHandOff(hash: string -> nat, s: State, q: nat, t: State, c: nat, k: string)
    requires Shaped(s) && Shaped(t) && Step(hash, s, HandOff(q), t) && Fifo(hash, s, c, k)
    requires FromClaim(s.claims[q].chunks[0], q)
    ensures Fifo(hash, t, c, k)
  {
    var chunk := s.claims[q].chunks[0];
    assert InFlight(s.pending, k) == [];
    assert InFlight(t.pending, k) == Decode(chunk, k) by {
      assert k in t.pending <==> Decode(chunk, k) != [];
    }
    DecodeOfClaim(chunk, k, q, c);
    var front := OfClaim(Carried(s.channels[ChannelOf(hash, k)], k), c);
    var buffered := Decode(ClaimAt(s, c).buffer, k);
    if c == q {
      var rest := Flatten(t.claims[c].chunks);
      assert Flatten(s.claims[c].chunks) == chunk + rest;
      DecodeConcat(chunk, rest, k);
      HandedOver(front, Decode(chunk, k), Decode(rest, k), buffered);
      assert Waiting(hash, s, c, k) == front + [] + (Decode(chunk, k) + Decode(rest, k)) + buffered;
      assert Waiting(hash, t, c, k) == front + Decode(chunk, k) + Decode(rest, k) + buffered;
    } else {
      assert ClaimAt(t, c) == ClaimAt(s, c);
      assert OfClaim(InFlight(t.pending, k), c) == [] == OfClaim(InFlight(s.pending, k), c);
    }
  }

  lemma FifoSend(hash: string -> nat, s: State, key: string, t: State, c: nat, k: string)
    requires Shaped(s) && Shaped(t) && Step(hash, s, Send(key), t) && Fifo(hash, s, c, k)
    ensures Fifo(hash, t, c, k)
  {
    var i, j := ChannelOf(hash, key), ChannelOf(hash, k);
    var front := Carried(s.channels[j], k);
    if k == key {
      CarriedSnoc(s.channels[i], Command(key, s.pending[key]), k);
      OfClaimConcat(front, s.pending[k], c);
      assert OfClaim(Carried(t.channels[j], k), c) == OfClaim(front, c) + OfClaim(s.pending[k], c);
      assert InFlight(t.pending, k) == [];
      assert OfClaim(Carried(t.channels[j], k), c) + [] == OfClaim(Carried(t.channels[j], k), c);
    } else {
      if i == j {
        CarriedSnoc(s.channels[i], Command(key, s.pending[key]), k);
        assert front + [] == front;
      }
      assert Carried(t.channels[j], k) == front;
      assert InFlight(t.pending, k) == InFlight(s.pending, k);
    }
  }

  lemma FifoReceive(hash: string -> nat, s: State, i: nat, t: State, c: nat, k: string)
    requires Shaped(s) && Shaped(t) && Step(hash, s, Receive(i), t) && Fifo(hash, s, c, k)
    ensures Fifo(hash, t, c, k)
  {
    if ChannelOf(hash, k) == i {
      var cmd, tail := s.channels[i][0], s.channels[i][1..];
      var list := if cmd.uniqueKey == k then cmd.ctxMsgList else [];
      var x, y := OfClaim(list, c), OfClaim(Carried(tail, k), c);
      assert DeliveredOf(hash, t, c, k) == DeliveredOf(hash, s, c, k) + x by {
        CarriedSnoc(s.delivered[i], cmd, k);
        OfClaimConcat(Carried(s.delivered[i], k), list, c);
      }
      assert OfClaim(Carried(s.channels[i], k), c) == x + y by {
        CarriedUncons(s.channels[i], k);
        OfClaimConcat(list, Carried(tail, k), c);
      }
      var p := OfClaim(InFlight(s.pending, k), c);
      var u := Decode(Flatten(ClaimAt(s, c).chunks), k);
      var v := Decode(ClaimAt(s, c).buffer, k);
      assert Waiting(hash, s, c, k) == x + y + p + u + v;
      assert Waiting(hash, t, c, k) == y + p + u + v;
      ShiftHead(DeliveredOf(hash, s, c, k), x, y, p, u, v);
    }
  }

  /** Every step of every goroutine keeps the per-key order equation. */
  lemma StepKeepsInv(hash: string -> nat, s: State, a: Action, t: State)
    requires Inv(hash, s) && Step(hash, s, a, t)
    ensures Inv(hash, t)
  {
    StructurePreserved(hash, s, a, t);
    forall c: nat, k: string ensures Fifo(hash, t, c, k) {
      assert Fifo(hash, s, c, k);
      match a
      case OpenClaim => assert ClaimAt(t, c) == ClaimAt(s, c);
      case Consume(q, r) => FifoConsume(hash, s, q, r, t, c, k);
      case Flush(q) => FifoFlush(hash, s, q, t, c, k);
      case HandOff(q) => FifoHandOff(hash, s, q, t, c, k);
      case Send(key) => FifoSend(hash, s, key, t, c, k);
      case Receive(i) => FifoReceive(hash, s, i, t, c, k);
    }
  }

  lemma {:induction false} RunKeepsInv(hash: string -> nat, run: seq<State>, actions: seq<Action>, n: nat)
    requires IsRun(hash, run, actions) && n < |run|
    ensures Inv(hash, run[n])
  {
    if n == 0 {
      forall c: nat, k: string ensures Fifo(hash, run[0], c, k) {
        assert Carried(run[0].delivered[ChannelOf(hash, k)], k) == [];
      }
    } else {
      RunKeepsInv(hash, run, actions, n - 1);
      StepKeepsInv(hash, run[n - 1], actions[n - 1], run[n]);
    }
  }
}
