/**
 * The order theorems of the pipeline in terms of single records and single places in the workers'
 * commands: which accepted record a worker finds where.
 */
module PipelineSources {
  import opened Messages
  import opened Pipeline
  import opened PipelineTheorems

  predicate Increasing(source: seq<nat>) {
    forall i, j | 0 <= i < j < |source| :: source[i] < source[j]
  }

  // ----- Records -----

  /** `source` is the positions of the records that pass `keep`, and `ms` what they carry. */
  ghost predicate FromRecords(keep: Record -> bool, rs: seq<Record>, ms: seq<ContextMsg>, source: seq<nat>) {
    && |source| == |ms| && Increasing(source)
    && (forall j | 0 <= j < |source| ::
          && source[j] < |rs| && keep(rs[source[j]])
          && rs[source[j]].claim == ms[j].claim && rs[source[j]].body == Some(ms[j].message))
    && (forall i | 0 <= i < |rs| && keep(rs[i]) :: i in source)
  }

  /** A record under key `k` that decodes, and one that is not empty besides. */
  function Decodable(k: string): Record -> bool {
    (r: Record) => r.key == k && r.body.Some?
  }

  function Acceptable(k: string): Record -> bool {
    (r: Record) => r.key == k && r.body.Some? && r.size != 0
  }

  lemma FromRecordsSkips(keep: Record -> bool, rs: seq<Record>, ms: seq<ContextMsg>, source: seq<nat>, r: Record)
    requires FromRecords(keep, rs, ms, source) && !keep(r)
    ensures FromRecords(keep, rs + [r], ms, source)
  {
  }

  lemma FromRecordsTakes(
    keep: Record -> bool, rs: seq<Record>, ms: seq<ContextMsg>, source: seq<nat>, r: Record, m: ContextMsg)
    requires FromRecords(keep, rs, ms, source) && keep(r) && r.claim == m.claim && r.body == Some(m.message)
    ensures FromRecords(keep, rs + [r], ms + [m], source + [|rs|])
  {
    var all, longer := rs + [r], source + [|rs|];
    assert longer[|source|] == |rs|;
    forall i | 0 <= i < |all| && keep(all[i]) ensures i in longer {
      if i < |rs| { assert keep(rs[i]) && i in source; }
    }
  }

  /**
   * Decoding keeps, in record order, exactly the records under the key whose body decodes, whatever
   * claims they come from.
   */
  lemma {:induction false} DecodeExactly(rs: seq<Record>, k: string) returns (source: seq<nat>)
    ensures FromRecords(Decodable(k), rs, Decode(rs, k), source)
  {
    source := [];
    if rs != [] {
      var init, r := rs[..|rs| - 1], rs[|rs| - 1];
      source := DecodeExactly(init, k);
      assert rs == init + [r];
      if Decodable(k)(r) {
        FromRecordsTakes(Decodable(k), init, Decode(init, k), source, r, ContextMsg(r.claim, r.body.value));
        source := source + [|init|];
      } else {
        FromRecordsSkips(Decodable(k), init, Decode(init, k), source, r);
        assert Decode(rs, k) == Decode(init, k) + [];
      }
    }
  }

  lemma DecodeSnoc(rs: seq<Record>, r: Record, k: string)
    ensures Decode(rs + [r], k)
         == Decode(rs, k) + if r.key == k && r.body.Some? then [ContextMsg(r.claim, r.body.value)] else []
  {
    assert (rs + [r])[..|rs|] == rs;
  }

  /** What a claim accepts of its records under one key: those that are not empty and decode. */
  lemma {:induction false} AcceptedExactly(rs: seq<Record>, k: string) returns (source: seq<nat>)
    ensures FromRecords(Acceptable(k), rs, Decode(NonEmpty(rs), k), source)
  {
    source := [];
    if rs != [] {
      var init, r := rs[..|rs| - 1], rs[|rs| - 1];
      source := AcceptedExactly(init, k);
      assert rs == init + [r];
      var before := Decode(NonEmpty(init), k);
      NonEmptySnoc(init, r);
      DecodeSnoc(NonEmpty(init), r, k);
      assert NonEmpty(init) + [] == NonEmpty(init) && before + [] == before;
      if Acceptable(k)(r) {
        FromRecordsTakes(Acceptable(k), init, before, source, r, ContextMsg(r.claim, r.body.value));
        source := source + [|init|];
      } else {
        FromRecordsSkips(Acceptable(k), init, before, source, r);
      }
    }
  }

  // ----- Places in a worker's commands -----

  /** The command, and the position in it. */
  type Place = (nat, nat)

  predicate Before(p: Place, q: Place) {
    p.0 < q.0 || (p.0 == q.0 && p.1 < q.1)
  }

  predicate IsPlace(cmds: seq<Command>, p: Place) {
    p.0 < |cmds| && p.1 < |cmds[p.0].ctxMsgList|
  }

  function At(cmds: seq<Command>, p: Place): ContextMsg
    requires IsPlace(cmds, p)
  {
    cmds[p.0].ctxMsgList[p.1]
  }

  /** A place that holds a message of claim `c` in a command for key `k`. */
  predicate Holds(cmds: seq<Command>, k: string, c: nat, p: Place) {
    IsPlace(cmds, p) && cmds[p.0].uniqueKey == k && At(cmds, p).claim == c
  }

  /** `at` is all those places, in order, and `ms` what they hold. */
  ghost predicate FromPlaces(cmds: seq<Command>, k: string, c: nat, ms: seq<ContextMsg>, at: seq<Place>) {
    && |at| == |ms|
    && (forall x, y | 0 <= x < y < |at| :: Before(at[x], at[y]))
    && (forall x | 0 <= x < |at| :: Holds(cmds, k, c, at[x]) && At(cmds, at[x]) == ms[x])
    && (forall p: Place | Holds(cmds, k, c, p) :: p in at)
  }

  /** The positions of the messages of claim `c` in one command. */
  ghost predicate FromClaimAt(list: seq<ContextMsg>, c: nat, ms: seq<ContextMsg>, source: seq<nat>) {
    && |source| == |ms| && Increasing(source)
    && (forall j | 0 <= j < |source| :: source[j] < |list| && list[source[j]] == ms[j] && ms[j].claim == c)
    && (forall i | 0 <= i < |list| && list[i].claim == c :: i in source)
  }

  lemma {:induction false} OfClaimExactly(list: seq<ContextMsg>, c: nat) returns (source: seq<nat>)
    ensures FromClaimAt(list, c, OfClaim(list, c), source)
  {
    source := [];
    if list != [] {
      var init, m := list[..|list| - 1], list[|list| - 1];
      source := OfClaimExactly(init, c);
      if m.claim == c {
        ClaimTakes(init, c, OfClaim(init, c), source, m);
        source := source + [|init|];
        assert list == init + [m];
      } else {
        assert OfClaim(list, c) == OfClaim(init, c) + [];
        forall i | 0 <= i < |list| && list[i].claim == c ensures i in source {
          assert init[i].claim == c;
        }
      }
    }
  }

  lemma ClaimTakes(list: seq<ContextMsg>, c: nat, ms: seq<ContextMsg>, source: seq<nat>, m: ContextMsg)
    requires FromClaimAt(list, c, ms, source) && m.claim == c
    ensures FromClaimAt(list + [m], c, ms + [m], source + [|list|])
  {
    var all, longer := list + [m], source + [|list|];
    assert longer[|source|] == |list|;
    forall i | 0 <= i < |all| && all[i].claim == c ensures i in longer {
      if i < |list| { assert list[i].claim == c && i in source; }
    }
  }

  function PlacesIn(j: nat, source: seq<nat>): (at: seq<Place>)
    ensures |at| == |source| && forall x | 0 <= x < |at| :: at[x] == (j, source[x])
  {
    seq(|source|, x requires 0 <= x < |source| => (j, source[x]))
  }

  lemma PlacesSkip(cmds: seq<Command>, k: string, c: nat, ms: seq<ContextMsg>, at: seq<Place>, cmd: Command)
    requires FromPlaces(cmds, k, c, ms, at) && cmd.uniqueKey != k
    ensures FromPlaces(cmds + [cmd], k, c, ms, at)
  {
    var all := cmds + [cmd];
    forall p: Place | Holds(all, k, c, p) ensures p in at {
      assert Holds(cmds, k, c, p);
    }
    forall x | 0 <= x < |at| ensures Holds(all, k, c, at[x]) && At(all, at[x]) == ms[x] {
      assert Holds(cmds, k, c, at[x]) && At(cmds, at[x]) == ms[x];
    }
  }

  lemma PlacesTake(
    cmds: seq<Command>, k: string, c: nat, ms: seq<ContextMsg>, at: seq<Place>,
    cmd: Command, more: seq<ContextMsg>, source: seq<nat>)
    requires FromPlaces(cmds, k, c, ms, at) && cmd.uniqueKey == k && FromClaimAt(cmd.ctxMsgList, c, more, source)
    ensures FromPlaces(cmds + [cmd], k, c, ms + more, at + PlacesIn(|cmds|, source))
  {
    var all, here := cmds + [cmd], PlacesIn(|cmds|, source);
    var longer := at + here;
    forall x | 0 <= x < |longer| ensures Holds(all, k, c, longer[x]) && At(all, longer[x]) == (ms + more)[x] {
      if x < |at| {
        assert Holds(cmds, k, c, at[x]) && At(cmds, at[x]) == ms[x];
      } else {
        assert longer[x] == here[x - |at|] == (|cmds|, source[x - |at|]);
      }
    }
    forall x, y | 0 <= x < y < |longer| ensures Before(longer[x], longer[y]) {
      if y < |at| {
        assert Before(at[x], at[y]);
      } else if x < |at| {
        assert Holds(cmds, k, c, at[x]);
      }
    }
    forall p: Place | Holds(all, k, c, p) ensures p in longer {
      if p.0 < |cmds| {
        assert Holds(cmds, k, c, p) && p in at;
      } else {
        assert p.1 in source;
        var x :| 0 <= x < |source| && source[x] == p.1;
        assert p == (p.0, p.1) == here[x];
      }
    }
  }

  /** What a worker was given of one claim and key, place by place. */
  lemma {:induction false} CarriedExactly(cmds: seq<Command>, k: string, c: nat) returns (at: seq<Place>)
    ensures FromPlaces(cmds, k, c, OfClaim(Carried(cmds, k), c), at)
  {
    at := [];
    if cmds != [] {
      var init, cmd := cmds[..|cmds| - 1], cmds[|cmds| - 1];
      at := CarriedExactly(init, k, c);
      assert cmds == init + [cmd];
      CarriedSnoc(init, cmd, k);
      if cmd.uniqueKey == k {
        OfClaimConcat(Carried(init, k), cmd.ctxMsgList, c);
        var source := OfClaimExactly(cmd.ctxMsgList, c);
        PlacesTake(init, k, c, OfClaim(Carried(init, k), c), at, cmd, OfClaim(cmd.ctxMsgList, c), source);
        at := at + PlacesIn(|init|, source);
      } else {
        assert Carried(init, k) + [] == Carried(init, k);
        PlacesSkip(init, k, c, OfClaim(Carried(init, k), c), at, cmd);
      }
    }
  }

  // ----- Accepted records and delivered places -----

  /** All records of a claim under one key that are not empty and decode, by their positions. */
  ghost predicate AcceptedAt(records: seq<Record>, k: string, source: seq<nat>) {
    && Increasing(source)
    && (forall i: nat :: i in source <==> i < |records| && records[i].key == k && records[i].size != 0
                                          && records[i].body.Some?)
  }

  /** All places of a worker's commands that hold a message of the claim under the key. */
  ghost predicate DeliveredAt(cmds: seq<Command>, k: string, c: nat, at: seq<Place>) {
    && (forall x, y | 0 <= x < y < |at| :: Before(at[x], at[y]))
    && (forall p: Place :: p in at <==> Holds(cmds, k, c, p))
  }

  /**
   * Every record, in its place: in every state of every interleaving, for every claim and key, the
   * x-th place of the worker's commands that holds a message of theirs holds the message of the x-th
   * record that the claim took under that key, counting exactly the records that are not empty and
   * decode. So no record of any claim is lost on the way, none is delivered twice and none overtakes
   * another; and once no internal step is left, every one of them has its place.
   */
  lemma RecordsInPlace(hash: string -> nat, run: seq<State>, actions: seq<Action>, n: nat, c: nat, k: string)
    returns (source: seq<nat>, at: seq<Place>)
    requires IsRun(hash, run, actions) && n < |run|
    ensures ChannelOf(hash, k) < |run[n].delivered|
    ensures
      var records, cmds := ClaimAt(run[n], c).consumed, run[n].delivered[ChannelOf(hash, k)];
      && AcceptedAt(records, k, source) && DeliveredAt(cmds, k, c, at) && |at| <= |source|
      && (forall x | 0 <= x < |at| ::
            && source[x] < |records| && IsPlace(cmds, at[x])
            && records[source[x]].body == Some(At(cmds, at[x]).message))
    ensures n == |run| - 1 && Stuck(hash, run[n]) ==> |at| == |source|
  {
    PerKeyFifo(hash, run, actions, n, c, k);
    var s := run[n];
    var records, cmds := ClaimAt(s, c).consumed, s.delivered[ChannelOf(hash, k)];
    source := AcceptedExactly(records, k);
    at := CarriedExactly(cmds, k, c);
    var given := OfClaim(Carried(cmds, k), c);
    assert Accepted(s, c, k) == given + Waiting(hash, s, c, k);
    SourcesFound(records, k, Accepted(s, c, k), source);
    PlacesFound(cmds, k, c, given, at);
    forall x | 0 <= x < |at|
      ensures source[x] < |records| && IsPlace(cmds, at[x])
      ensures records[source[x]].body == Some(At(cmds, at[x]).message)
    {
      assert Accepted(s, c, k)[x] == given[x];
      assert Holds(cmds, k, c, at[x]);
    }
    if n == |run| - 1 && Stuck(hash, s) {
      DrainedMeansDelivered(hash, run, actions, c, k);
    }
  }

  lemma SourcesFound(records: seq<Record>, k: string, ms: seq<ContextMsg>, source: seq<nat>)
    requires FromRecords(Acceptable(k), records, ms, source)
    ensures AcceptedAt(records, k, source)
  {
    forall i: nat | i in source ensures i < |records| && Acceptable(k)(records[i]) {
      var j :| 0 <= j < |source| && source[j] == i;
    }
    forall i: nat | i < |records| && Acceptable(k)(records[i]) ensures i in source {
    }
  }

  lemma PlacesFound(cmds: seq<Command>, k: string, c: nat, ms: seq<ContextMsg>, at: seq<Place>)
    requires FromPlaces(cmds, k, c, ms, at)
    ensures DeliveredAt(cmds, k, c, at)
  {
    forall p: Place | p in at ensures Holds(cmds, k, c, p) {
      var x :| 0 <= x < |at| && at[x] == p;
    }
  }
}
