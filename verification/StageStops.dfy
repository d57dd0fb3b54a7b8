/** What results and halts do to a run of the stage: what stops it, with which reason, and what is given up. */
module StageStops {
  import opened Types
  import opened PickNext
  import opened StageModel
  import opened StageRuns

  // ---------------------------------------------------------------------------------------
  // The trailing run of failures.
  // ---------------------------------------------------------------------------------------

  /** A failure that counts: not a lost connection. */
  predicate CountedFailure(r: Result) {
    r.conn.NoConn? && r.kind.Failed?
  }

  /** A success that resets: not a lost connection. */
  predicate CountedSuccess(r: Result) {
    r.conn.NoConn? && (r.kind.Ok? || r.kind.Noop?)
  }

  predicate NoSuccessAfter(history: seq<Result>, i: nat) {
    forall j :: i < j < |history| ==> !CountedSuccess(history[j])
  }

  /** The counted failures after the last counted success. */
  ghost function FailuresSince(history: seq<Result>): set<nat> {
    set i: nat | i < |history| && CountedFailure(history[i]) && NoSuccessAfter(history, i)
  }

  lemma {:induction false} TrailingMeaning(history: seq<Result>)
    ensures Trailing(history) == |FailuresSince(history)|
  {
    if history == [] {
      assert FailuresSince(history) == {};
    } else {
      var n := |history| - 1;
      var rest, res := history[..n], history[n];
      TrailingMeaning(rest);
      assert forall i :: 0 <= i < n ==> rest[i] == history[i];
      if CountedSuccess(res) {
        SuccessResets(history);
      } else {
        NotReset(history);
      }
    }
  }

  lemma SuccessResets(history: seq<Result>)
    requires history != [] && CountedSuccess(history[|history|-1])
    ensures FailuresSince(history) == {}
  {
    var n := |history| - 1;
    assert !CountedFailure(history[n]);
    assert forall i: nat :: i < n ==> !NoSuccessAfter(history, i);
  }

  lemma NotReset(history: seq<Result>)
    requires history != [] && !CountedSuccess(history[|history|-1])
    ensures var n := |history| - 1;
            |FailuresSince(history)| == |FailuresSince(history[..n])| + (if CountedFailure(history[n]) then 1 else 0)
  {
    var n := |history| - 1;
    var rest := history[..n];
    assert forall i :: 0 <= i < n ==> rest[i] == history[i];
    assert forall i: nat :: i < n ==> (NoSuccessAfter(rest, i) <==> NoSuccessAfter(history, i));
    if CountedFailure(history[n]) {
      assert FailuresSince(history) == FailuresSince(rest) + {n};
    } else {
      assert FailuresSince(history) == FailuresSince(rest);
    }
  }

  // ---------------------------------------------------------------------------------------
  // A completed target.
  // ---------------------------------------------------------------------------------------

  /** Some target is still queued once the result is in; an unreachable shard gives its own up first. */
  predicate TargetsLeft(st: Stage, sh: Shard, res: Result) {
    exists s :: s in st.lanes && st.lanes[s].queue != [] && !(s == sh && res.conn.ShardConn?)
  }

  /** Why the result of a target of sh stops a run that goes on, if it does. */
  ghost function StopFor(st: Stage, sh: Shard, res: Result, failures: nat): Option<Stop> {
    if res.conn.DefaultConn? then Some(DefaultUnreachable)
    else if res.kind.Failed? && !st.keepGoing && TargetsLeft(st, sh, res) then Some(FailFast)
    else if res.kind.Failed? && st.keepGoing && failures >= st.maxFailures then Some(MaxFailures(sh))
    else None
  }

  lemma LeftIsRemaining(st: Stage, sh: Shard, id: Id, res: Result)
    requires sh in st.lanes && st.lanes[sh].inflight > 0 && !res.conn.DefaultConn?
    ensures var next := st.(lanes := st.lanes[sh := Counted(Landed(st.lanes[sh], id, res), res)]);
            Remaining(next) <==> TargetsLeft(st, sh, res)
  {
    var next := st.(lanes := st.lanes[sh := Counted(Landed(st.lanes[sh], id, res), res)]);
    if Remaining(next) {
      var s :| s in next.lanes && next.lanes[s].queue != [];
      assert s in st.lanes && st.lanes[s].queue != [];
    }
    if TargetsLeft(st, sh, res) {
      var s :| s in st.lanes && st.lanes[s].queue != [] && !(s == sh && res.conn.ShardConn?);
      assert next.lanes[s].queue != [];
    }
  }

  /** The lane of a shard after done(), before any stop is applied to it. */
  function AfterResult(st: Stage, sh: Shard, id: Id, res: Result, s: Shard): Lane
    requires sh in st.lanes && st.lanes[sh].inflight > 0 && s in st.lanes
  {
    if s == sh then Counted(Landed(st.lanes[sh], id, res), res) else st.lanes[s]
  }

  lemma DoneStops(st: Stage, sh: Shard, id: Id, res: Result)
    requires sh in st.lanes && st.lanes[sh].inflight > 0 && st.stop.None?
    ensures var t := Done(st, sh, id, res);
            t.stop == StopFor(st, sh, res, Counted(Landed(st.lanes[sh], id, res), res).consecutive)
  {
    if !res.conn.DefaultConn? {
      LeftIsRemaining(st, sh, id, res);
    }
  }

  lemma DoneLanes(st: Stage, sh: Shard, id: Id, res: Result, s: Shard)
    requires sh in st.lanes && st.lanes[sh].inflight > 0 && s in st.lanes && st.stop.None?
    ensures var t, l := Done(st, sh, id, res), AfterResult(st, sh, id, res, s);
            s in t.lanes && t.lanes[s] == if t.stop.Some? then GivenUp(l, Stopped) else l
  {
  }

  /**
   * A result at a state without a stop: the target is finished with it, and the run stops exactly for the
   * reasons listed, counted by the failures in the shard's completions so far.
   */
  lemma CompletionOutcome(all: Targets, lim: Limits, states: seq<Stage>, ops: seq<Op>, n: nat)
    requires Behaviour(all, lim, states, ops) && n < |ops| && ops[n].Complete? && states[n].stop.None?
    ensures ops[n].shard in all && ops[n].k < |all[ops[n].shard]|
    ensures Marked(all, states[n+1], ops[n].shard, ops[n].k)
    ensures MarkOf(all, states[n+1], ops[n].shard, ops[n].k) == Finished(ops[n].res)
    ensures states[n+1].stop ==
              StopFor(states[n], ops[n].shard, ops[n].res, |FailuresSince(Results(ops, n + 1, ops[n].shard))|)
  {
    var s, sh, k, res := states[n], ops[n].shard, ops[n].k, ops[n].res;
    StepsAt(all, lim, states, ops, n);
    DoneStops(s, sh, all[sh][k], res);
    CompletionCounter(all, lim, states, ops, n);
    CompletionMark(all, lim, states, ops, n);
  }

  lemma StepsAt(all: Targets, lim: Limits, states: seq<Stage>, ops: seq<Op>, i: nat)
    requires Behaviour(all, lim, states, ops) && i < |ops|
    ensures Enabled(all, states[i], ops[i]) && states[i+1] == Apply(all, states[i], ops[i], lim)
  {
    assert ops[i] == ops[i];
  }

  lemma CompletionCounter(all: Targets, lim: Limits, states: seq<Stage>, ops: seq<Op>, n: nat)
    requires Behaviour(all, lim, states, ops) && n < |ops| && ops[n].Complete? && states[n].stop.None?
    ensures Enabled(all, states[n], ops[n])
    ensures var sh := ops[n].shard;
            Counted(Landed(states[n].lanes[sh], all[sh][ops[n].k], ops[n].res), ops[n].res).consecutive ==
              |FailuresSince(Results(ops, n + 1, sh))|
  {
    var sh := ops[n].shard;
    StepsAt(all, lim, states, ops, n);
    DoneLanes(states[n], sh, all[sh][ops[n].k], ops[n].res, sh);
    FailureCounter(all, lim, states, ops, n + 1, sh);
    TrailingMeaning(Results(ops, n + 1, sh));
  }

  /** A completed target keeps its result, also while the run drains. */
  lemma CompletionMark(all: Targets, lim: Limits, states: seq<Stage>, ops: seq<Op>, n: nat)
    requires Behaviour(all, lim, states, ops) && n < |ops| && ops[n].Complete?
    ensures ops[n].shard in all && ops[n].k < |all[ops[n].shard]| && Marked(all, states[n+1], ops[n].shard, ops[n].k)
    ensures MarkOf(all, states[n+1], ops[n].shard, ops[n].k) == Finished(ops[n].res)
  {
    var s, sh, k, res := states[n], ops[n].shard, ops[n].k, ops[n].res;
    StepsAt(all, lim, states, ops, n);
    InvAlways(all, lim, states, ops, n);
    DoneFrame(s, sh, all[sh][k], res, sh);
    assert LaneOk(all[sh], s.lanes[sh], lim.perShard);
    LandedMark(all[sh], s.lanes[sh], k, res);
  }

  lemma LandedMark(targets: seq<Id>, l: Lane, k: nat, res: Result)
    requires DistinctIds(targets) && Placed(targets, l) && k < |targets|
    requires l.marks[targets[k]].Running? && l.inflight > 0
    ensures var r := Counted(Landed(l, targets[k], res), res);
            && targets[k] in r.marks && r.marks[targets[k]] == Finished(res)
            && targets[k] in GivenUp(r, Stopped).marks && GivenUp(r, Stopped).marks[targets[k]] == Finished(res)
  {
    QueuedIff(targets, l, k);
  }

  /**
   * What happens to a target that was still queued. Unless the run stops it stays queued, except in a shard
   * that turned out to be unreachable; a stop gives up every target that is still queued.
   */
  lemma QueuedAfterCompletion(all: Targets, lim: Limits, states: seq<Stage>, ops: seq<Op>, n: nat, s: Shard, i: nat)
    requires Behaviour(all, lim, states, ops) && n < |ops| && ops[n].Complete? && states[n].stop.None?
    requires Marked(all, states[n], s, i) && MarkOf(all, states[n], s, i).Queued?
    ensures Marked(all, states[n+1], s, i)
    ensures MarkOf(all, states[n+1], s, i) ==
              if s == ops[n].shard && ops[n].res.conn.ShardConn? then NotRun(ShardUnreachable)
              else if states[n+1].stop.Some? then NotRun(Stopped)
              else Queued
  {
    var st, sh, k, res := states[n], ops[n].shard, ops[n].k, ops[n].res;
    StepsAt(all, lim, states, ops, n);
    InvAlways(all, lim, states, ops, n);
    DoneLanes(st, sh, all[sh][k], res, s);
    assert LaneOk(all[s], st.lanes[s], lim.perShard);
    QueuedIff(all[s], st.lanes[s], i);
    if s == sh {
      QueuedLands(all[s], st.lanes[s], k, i, res);
    }
  }

  lemma QueuedLands(targets: seq<Id>, l: Lane, k: nat, i: nat, res: Result)
    requires DistinctIds(targets) && Placed(targets, l) && k < |targets|
    requires l.marks[targets[k]].Running? && l.inflight > 0
    requires i < |targets| && l.marks[targets[i]].Queued? && targets[i] in l.queue
    ensures var r, id := Counted(Landed(l, targets[k], res), res), targets[i];
            && id in r.marks && id in GivenUp(r, Stopped).marks
            && r.marks[id] == (if res.conn.ShardConn? then NotRun(ShardUnreachable) else Queued)
            && GivenUp(r, Stopped).marks[id] ==
                (if res.conn.ShardConn? then NotRun(ShardUnreachable) else NotRun(Stopped))
  {
  }

  // ---------------------------------------------------------------------------------------
  // A halt.
  // ---------------------------------------------------------------------------------------

  /** halt(): the reason counts if it is the first or overrides, and every queued target is given up. */
  lemma HaltOutcome(all: Targets, lim: Limits, states: seq<Stage>, ops: seq<Op>, n: nat, s: Shard, i: nat)
    requires Behaviour(all, lim, states, ops) && n < |ops| && ops[n].Stopping?
    requires Marked(all, states[n], s, i)
    ensures states[n+1].stop == if states[n].stop.None? || ops[n].override then Some(ops[n].stop) else states[n].stop
    ensures Marked(all, states[n+1], s, i)
    ensures MarkOf(all, states[n+1], s, i) ==
              if MarkOf(all, states[n], s, i).Queued? then NotRun(Stopped) else MarkOf(all, states[n], s, i)
  {
    StepsAt(all, lim, states, ops, n);
    InvAlways(all, lim, states, ops, n);
    HaltFrame(states[n], ops[n].stop, ops[n].override, s);
    assert LaneOk(all[s], states[n].lanes[s], lim.perShard);
    QueuedIff(all[s], states[n].lanes[s], i);
  }
}
