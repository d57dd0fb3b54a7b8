/** Round-robin fairness over whole runs: completions, halts and failed picks may lie between the picks. */
module StageFairness {
  import opened Types
  import opened PickNext
  import opened StageModel
  import opened StageRuns

  /** Operation i is a next() that hands a target out. */
  predicate Serves(states: seq<Stage>, ops: seq<Op>, lim: Limits, i: nat)
    requires i < |ops| < |states|
  {
    ops[i].Take? && Next(states[i], lim.jobs, lim.perShard).1.Some?
  }

  function ServedShard(st: Stage, lim: Limits): Option<Shard> {
    var e := Next(st, lim.jobs, lim.perShard).1;
    if e.Some? then Some(e.value.0) else None
  }

  lemma LastStep(all: Targets, lim: Limits, st: Stage, op: Op)
    requires Enabled(all, st, op)
    ensures Apply(all, st, op, lim).last == if op.Take? && ServedShard(st, lim).Some? then ServedShard(st, lim)
              else st.last
  {
    NextStarts(st, lim.jobs, lim.perShard);
  }

  predicate QuietBetween(states: seq<Stage>, ops: seq<Op>, lim: Limits, i: nat, k: nat)
    requires k <= |ops| < |states|
  {
    forall j :: i < j < k ==> !Serves(states, ops, lim, j)
  }

  /** `last` is the shard served last, whatever happened since. */
  lemma {:induction false} LastAt(all: Targets, lim: Limits, states: seq<Stage>, ops: seq<Op>, i: nat, k: nat)
    requires Behaviour(all, lim, states, ops) && i < k <= |ops|
    requires Serves(states, ops, lim, i) && QuietBetween(states, ops, lim, i, k)
    ensures states[k].last == ServedShard(states[i], lim)
    decreases k
  {
    assert states[k] == Apply(all, states[k-1], ops[k-1], lim);
    LastStep(all, lim, states[k-1], ops[k-1]);
    if k - 1 > i {
      LastAt(all, lim, states, ops, i, k - 1);
      assert !Serves(states, ops, lim, k - 1);
    }
  }

  /** Consecutive successful picks of a run. */
  ghost predicate Consecutive(states: seq<Stage>, ops: seq<Op>, lim: Limits, picks: seq<nat>)
    requires |ops| < |states|
  {
    && (forall j :: 0 <= j < |picks| ==> picks[j] < |ops| && Serves(states, ops, lim, picks[j]))
    && (forall j: nat :: j + 1 < |picks| ==> Follows(states, ops, lim, picks, j))
  }

  predicate Follows(states: seq<Stage>, ops: seq<Op>, lim: Limits, picks: seq<nat>, j: nat)
    requires j + 1 < |picks| && |ops| < |states|
  {
    picks[j] < picks[j+1] < |ops| && QuietBetween(states, ops, lim, picks[j], picks[j+1])
  }

  /** A shard with a waiting target and a free slot. */
  predicate Ready(st: Stage, lim: Limits, sh: Shard) {
    sh in st.lanes && st.lanes[sh].queue != [] && st.lanes[sh].inflight < lim.perShard
  }

  function ChoiceAt(st: Stage, lim: Limits): Choice<Id> {
    var s := ServedShard(st, lim);
    Choice(Queues(st.lanes), Inflight(st.lanes), if s.Some? then s.value else "")
  }

  function Choices(states: seq<Stage>, lim: Limits, picks: seq<nat>): seq<Choice<Id>>
    requires forall j :: 0 <= j < |picks| ==> picks[j] < |states|
  {
    seq(|picks|, j requires 0 <= j < |picks| => ChoiceAt(states[picks[j]], lim))
  }

  lemma PickedAt(st: Stage, lim: Limits)
    requires ServedShard(st, lim).Some?
    ensures Pick(Queues(st.lanes), Inflight(st.lanes), lim.jobs, lim.perShard, st.last) ==
              Some(ChoiceAt(st, lim).chosen)
  {
  }

  lemma LastAtPick(all: Targets, lim: Limits, states: seq<Stage>, ops: seq<Op>, picks: seq<nat>, j: nat)
    requires Behaviour(all, lim, states, ops) && Consecutive(states, ops, lim, picks) && 0 < j < |picks|
    ensures ServedShard(states[picks[j-1]], lim).Some? && states[picks[j]].last == ServedShard(states[picks[j-1]], lim)
  {
    assert Follows(states, ops, lim, picks, j - 1);
    assert Serves(states, ops, lim, picks[j-1]);
    LastAt(all, lim, states, ops, picks[j-1], picks[j]);
  }

  lemma ChoiceBefore(states: seq<Stage>, lim: Limits, picks: seq<nat>, j: nat, first: Option<Shard>)
    requires 0 < j < |picks| && (forall i :: 0 <= i < |picks| ==> picks[i] < |states|)
    requires ServedShard(states[picks[j-1]], lim).Some?
    ensures LastServed(first, Choices(states, lim, picks), j) == ServedShard(states[picks[j-1]], lim)
  {
    assert Choices(states, lim, picks)[j-1] == ChoiceAt(states[picks[j-1]], lim);
  }

  lemma ServedBefore(all: Targets, lim: Limits, states: seq<Stage>, ops: seq<Op>, picks: seq<nat>, j: nat)
    requires Behaviour(all, lim, states, ops) && Consecutive(states, ops, lim, picks) && j < |picks|
    ensures LastServed(states[picks[0]].last, Choices(states, lim, picks), j) == states[picks[j]].last
  {
    if j > 0 {
      LastAtPick(all, lim, states, ops, picks, j);
      ChoiceBefore(states, lim, picks, j, states[picks[0]].last);
    }
  }

  /**
   * Among any |shards| consecutive successful picks of a run at which a shard has a waiting target and
   * a free slot, one serves that shard.
   */
  lemma RunFairness(all: Targets, lim: Limits, states: seq<Stage>, ops: seq<Op>, picks: seq<nat>, sh: Shard)
    requires Behaviour(all, lim, states, ops) && Consecutive(states, ops, lim, picks) && sh in all
    requires |picks| >= |all.Keys|
    requires forall j :: 0 <= j < |picks| ==> Ready(states[picks[j]], lim, sh)
    ensures exists j :: 0 <= j < |picks| && ServedShard(states[picks[j]], lim) == Some(sh)
  {
    var choices, first := Choices(states, lim, picks), if |picks| > 0 then states[picks[0]].last else None;
    forall j | 0 <= j < |choices|
      ensures choices[j].queues.Keys == all.Keys && Eligible(choices[j].queues, choices[j].inflight, lim.perShard, sh)
      ensures Pick(choices[j].queues, choices[j].inflight, lim.jobs, lim.perShard, LastServed(first, choices, j)) ==
                Some(choices[j].chosen)
    {
      PickFacts(all, lim, states, ops, picks, sh, j);
    }
    Fairness(all.Keys, lim.jobs, lim.perShard, first, choices, sh);
    var j :| 0 <= j < |choices| && choices[j].chosen == sh;
    assert Serves(states, ops, lim, picks[j]);
    assert ServedShard(states[picks[j]], lim) == Some(sh);
  }

  lemma PickFacts(all: Targets, lim: Limits, states: seq<Stage>, ops: seq<Op>, picks: seq<nat>, sh: Shard, j: nat)
    requires Behaviour(all, lim, states, ops) && Consecutive(states, ops, lim, picks) && sh in all && j < |picks|
    requires Ready(states[picks[j]], lim, sh)
    ensures var c := Choices(states, lim, picks)[j];
            && c.queues.Keys == all.Keys && Eligible(c.queues, c.inflight, lim.perShard, sh)
            && Pick(c.queues, c.inflight, lim.jobs, lim.perShard,
                    LastServed(states[picks[0]].last, Choices(states, lim, picks), j)) == Some(c.chosen)
  {
    InvAlways(all, lim, states, ops, picks[j]);
    ServedBefore(all, lim, states, ops, picks, j);
    assert Serves(states, ops, lim, picks[j]);
    PickedAt(states[picks[j]], lim);
  }
}
