/** Whole runs of a tenant stage: any sequence of next, done and halt, over any results. */
module StageRuns {
  import opened Ordering
  import opened PickNext
  import opened StageModel

  /** `Complete` is done() for a running target, by its position in its shard. */
  datatype Op = Take | Complete(shard: Shard, k: nat, res: Result) | Stopping(stop: Stop, override: bool)

  datatype Limits = Limits(jobs: nat, perShard: nat)

  predicate Enabled(all: Targets, st: Stage, op: Op) {
    op.Complete? ==> InFlight(all, st, op.shard, op.k) && st.lanes[op.shard].inflight > 0
  }

  function Apply(all: Targets, st: Stage, op: Op, lim: Limits): Stage
    requires Enabled(all, st, op)
  {
    match op
    case Take => Next(st, lim.jobs, lim.perShard).0
    case Complete(sh, k, res) => Done(st, sh, all[sh][k], res)
    case Stopping(stop, override) => Halt(st, stop, override)
  }

  /** TenantStage.of: one queue per shard, in selection order. */
  function FreshLane(targets: seq<Id>): Lane {
    Lane(targets, 0, 0, map id | id in targets :: Queued, [], [])
  }

  predicate Init(all: Targets, st: Stage) {
    && (forall sh :: sh in all ==> DistinctIds(all[sh]) && all[sh] != [])
    && st.stop.None? && st.last.None? && st.maxFailures >= 1
    && st.lanes == map sh | sh in all :: FreshLane(all[sh])
  }

  ghost predicate Behaviour(all: Targets, lim: Limits, states: seq<Stage>, ops: seq<Op>) {
    && |states| == |ops| + 1 && Init(all, states[0])
    && forall i {:trigger ops[i]} :: 0 <= i < |ops| ==>
         Enabled(all, states[i], ops[i]) && states[i+1] == Apply(all, states[i], ops[i], lim)
  }

  lemma {:induction false} NothingRunning(marks: map<Id, Mark>, ids: seq<Id>)
    requires forall i :: 0 <= i < |ids| ==> !(ids[i] in marks && marks[ids[i]].Running?)
    ensures CountRunning(marks, ids) == 0
  {
    if ids != [] {
      forall i | 0 <= i < |ids[1..]|
        ensures !(ids[1..][i] in marks && marks[ids[1..][i]].Running?)
      {
        assert ids[1..][i] == ids[i+1];
      }
      NothingRunning(marks, ids[1..]);
    }
  }

  lemma FreshLaneOk(targets: seq<Id>, perShard: nat)
    requires DistinctIds(targets) && targets != []
    ensures LaneOk(targets, FreshLane(targets), perShard)
  {
    NothingRunning(FreshLane(targets).marks, targets);
    assert targets[0..] == targets;
  }

  lemma {:induction false} NothingFlying(order: seq<Shard>, inflight: map<Shard, nat>)
    requires forall sh :: sh in inflight ==> inflight[sh] == 0
    ensures Total(order, inflight) == 0
  {
    if order != [] {
      NothingFlying(order[1..], inflight);
    }
  }

  lemma InitLanes(all: Targets, lim: Limits, st: Stage)
    requires Init(all, st)
    ensures LanesOk(all, st.lanes, lim.perShard)
  {
    forall sh | sh in all
      ensures LaneOk(all[sh], st.lanes[sh], lim.perShard)
    {
      FreshLaneOk(all[sh], lim.perShard);
    }
  }

  lemma InitInv(all: Targets, lim: Limits, st: Stage)
    requires Init(all, st)
    ensures Inv(all, st, lim.jobs, lim.perShard)
  {
    InitLanes(all, lim, st);
    NothingFlying(Sorted(st.lanes.Keys), Inflight(st.lanes));
  }

  lemma StepKeeps(all: Targets, lim: Limits, st: Stage, op: Op)
    requires Inv(all, st, lim.jobs, lim.perShard) && Enabled(all, st, op)
    ensures Inv(all, Apply(all, st, op, lim), lim.jobs, lim.perShard)
  {
    match op
    case Take => NextKeeps(all, st, lim.jobs, lim.perShard);
    case Complete(sh, k, res) => DoneKeeps(all, st, lim.jobs, lim.perShard, sh, k, res);
    case Stopping(stop, override) => HaltKeeps(all, st, lim.jobs, lim.perShard, stop, override);
  }

  lemma {:induction false} InvAlways(all: Targets, lim: Limits, states: seq<Stage>, ops: seq<Op>, n: nat)
    requires Behaviour(all, lim, states, ops) && n < |states|
    ensures Inv(all, states[n], lim.jobs, lim.perShard)
  {
    if n == 0 {
      InitInv(all, lim, states[0]);
    } else {
      InvAlways(all, lim, states, ops, n - 1);
      assert states[n] == Apply(all, states[n-1], ops[n-1], lim);
      StepKeeps(all, lim, states[n-1], ops[n-1]);
    }
  }

  // ---------------------------------------------------------------------------------------
  // The history of a shard, read off the operations.
  // ---------------------------------------------------------------------------------------

  /** The entry of shard sh that an operation hands out, if any. */
  function Handed(st: Stage, op: Op, lim: Limits, sh: Shard): seq<Id> {
    if !op.Take? then []
    else
      var e := Next(st, lim.jobs, lim.perShard).1;
      if e.Some? && e.value.0 == sh then [e.value.1] else []
  }

  /** The entries of a shard that next() handed out in the first n operations, in order. */
  function Starts(states: seq<Stage>, ops: seq<Op>, lim: Limits, n: nat, sh: Shard): seq<Id>
    requires n <= |ops| < |states|
  {
    if n == 0 then [] else Starts(states, ops, lim, n - 1, sh) + Handed(states[n-1], ops[n-1], lim, sh)
  }

  function Reported(op: Op, sh: Shard): seq<Result> {
    if op.Complete? && op.shard == sh then [op.res] else []
  }

  /** The results of a shard's targets in completion order. */
  function Results(ops: seq<Op>, n: nat, sh: Shard): seq<Result>
    requires n <= |ops|
  {
    if n == 0 then [] else Results(ops, n - 1, sh) + Reported(ops[n-1], sh)
  }

  /** halt() touches neither the counts nor the counters nor the history of a shard. */
  lemma HaltFrame(st: Stage, stop: Stop, override: bool, sh: Shard)
    requires sh in st.lanes
    ensures var l := Halt(st, stop, override).lanes;
            sh in l && l[sh] == GivenUp(st.lanes[sh], Stopped)
  {
  }

  /** done() changes its own shard, and every other one only by a stop. */
  lemma DoneFrame(st: Stage, sh: Shard, id: Id, res: Result, s: Shard)
    requires sh in st.lanes && st.lanes[sh].inflight > 0 && s in st.lanes
    ensures var l := Done(st, sh, id, res).lanes;
            var r := if s == sh then Counted(Landed(st.lanes[sh], id, res), res) else st.lanes[s];
            s in l && (l[s] == r || l[s] == GivenUp(r, Stopped))
  {
    var next := st.(lanes := st.lanes[sh := Counted(Landed(st.lanes[sh], id, res), res)]);
    HaltFrame(next, DefaultUnreachable, false, s);
    HaltFrame(next, FailFast, false, s);
    HaltFrame(next, MaxFailures(sh), false, s);
  }

  predicate Extends(l: Lane, t: Lane, ids: seq<Id>, results: seq<Result>) {
    t.started == l.started + ids && t.completed == l.completed + results
  }

  lemma TakeHistory(all: Targets, lim: Limits, st: Stage, sh: Shard)
    requires sh in st.lanes
    ensures sh in Apply(all, st, Take, lim).lanes
    ensures Extends(st.lanes[sh], Apply(all, st, Take, lim).lanes[sh], Handed(st, Take, lim, sh), [])
  {
    NextStarts(st, lim.jobs, lim.perShard);
  }

  lemma HistoryStep(all: Targets, lim: Limits, st: Stage, op: Op, sh: Shard)
    requires Enabled(all, st, op) && sh in st.lanes
    ensures sh in Apply(all, st, op, lim).lanes
    ensures Extends(st.lanes[sh], Apply(all, st, op, lim).lanes[sh], Handed(st, op, lim, sh), Reported(op, sh))
  {
    match op
    case Take => TakeHistory(all, lim, st, sh);
    case Complete(s, k, res) => DoneFrame(st, s, all[s][k], res, sh);
    case Stopping(stop, override) => HaltFrame(st, stop, override, sh);
  }

  lemma HistoryAt(all: Targets, lim: Limits, states: seq<Stage>, ops: seq<Op>, n: nat, sh: Shard)
    requires Behaviour(all, lim, states, ops) && 0 < n < |states| && sh in states[n-1].lanes
    ensures sh in states[n].lanes
    ensures Extends(states[n-1].lanes[sh], states[n].lanes[sh], Handed(states[n-1], ops[n-1], lim, sh),
                    Reported(ops[n-1], sh))
  {
    assert states[n] == Apply(all, states[n-1], ops[n-1], lim);
    HistoryStep(all, lim, states[n-1], ops[n-1], sh);
  }

  lemma {:induction false} HistoryAlways(all: Targets, lim: Limits, states: seq<Stage>, ops: seq<Op>, n: nat, sh: Shard)
    requires Behaviour(all, lim, states, ops) && n < |states| && sh in all
    ensures sh in states[n].lanes
    ensures states[n].lanes[sh].started == Starts(states, ops, lim, n, sh)
    ensures states[n].lanes[sh].completed == Results(ops, n, sh)
  {
    if n > 0 {
      HistoryAlways(all, lim, states, ops, n - 1, sh);
      HistoryAt(all, lim, states, ops, n, sh);
    }
  }

  // ---------------------------------------------------------------------------------------
  // Main results.
  // ---------------------------------------------------------------------------------------

  /**
   * Both limits hold at every moment. A shard's entries are handed out in selection order, none twice.
   * Each entry is in exactly one place, and the in-flight counter counts the running ones.
   */
  lemma ConservationAndLimits(all: Targets, lim: Limits, states: seq<Stage>, ops: seq<Op>, n: nat, sh: Shard)
    requires Behaviour(all, lim, states, ops) && n < |states| && sh in all
    ensures Flying(states[n].lanes) <= lim.jobs
    ensures sh in states[n].lanes && states[n].lanes[sh].inflight <= lim.perShard
    ensures states[n].lanes[sh].inflight == CountRunning(states[n].lanes[sh].marks, all[sh])
    ensures Starts(states, ops, lim, n, sh) <= all[sh] && DistinctIds(Starts(states, ops, lim, n, sh))
    ensures forall i :: 0 <= i < |all[sh]| ==>
              && all[sh][i] in states[n].lanes[sh].marks
              && var m := states[n].lanes[sh].marks[all[sh][i]];
                 && (m.Queued? <==> all[sh][i] in states[n].lanes[sh].queue)
                 && (m.Running? || m.Finished? <==> i < |Starts(states, ops, lim, n, sh)|)
  {
    InvAlways(all, lim, states, ops, n);
    HistoryAlways(all, lim, states, ops, n, sh);
    var l := states[n].lanes[sh];
    assert LaneOk(all[sh], l, lim.perShard);
    forall i | 0 <= i < |all[sh]|
      ensures all[sh][i] in l.marks && (l.marks[all[sh][i]].Queued? <==> all[sh][i] in l.queue)
      ensures l.marks[all[sh][i]].Running? || l.marks[all[sh][i]].Finished? <==> i < |l.started|
    {
      assert MarkFits(i < |l.started|, l.queue == [], l.marks[all[sh][i]]);
      QueuedIff(all[sh], l, i);
    }
  }

  lemma CounterOf(all: Targets, lim: Limits, st: Stage, sh: Shard)
    requires Inv(all, st, lim.jobs, lim.perShard) && sh in all
    ensures sh in st.lanes && st.lanes[sh].consecutive == Trailing(st.lanes[sh].completed)
    ensures st.keepGoing && st.stop.None? ==> st.lanes[sh].consecutive < st.maxFailures
  {
    assert LaneOk(all[sh], st.lanes[sh], lim.perShard);
  }

  /**
   * A shard's counter is the trailing run of counted failures in its completion order, and with
   * --keep-going it stays below --max-failures until the run stops.
   */
  lemma FailureCounter(all: Targets, lim: Limits, states: seq<Stage>, ops: seq<Op>, n: nat, sh: Shard)
    requires Behaviour(all, lim, states, ops) && n < |states| && sh in all
    ensures sh in states[n].lanes && states[n].lanes[sh].consecutive == Trailing(Results(ops, n, sh))
    ensures states[n].keepGoing && states[n].stop.None? ==> Trailing(Results(ops, n, sh)) < states[n].maxFailures
  {
    InvAlways(all, lim, states, ops, n);
    HistoryAlways(all, lim, states, ops, n, sh);
    CounterOf(all, lim, states[n], sh);
  }

  predicate Overrides(op: Op) {
    op.Stopping? && op.override
  }

  lemma StopStep(all: Targets, lim: Limits, st: Stage, op: Op)
    requires Enabled(all, st, op) && st.stop.Some?
    ensures Apply(all, st, op, lim).stop.Some?
    ensures !Overrides(op) ==> Apply(all, st, op, lim).stop == st.stop
    ensures forall sh :: Handed(st, op, lim, sh) == []
  {
  }

  /** After a stop nothing is handed out; the reason stays the first one until a halt overrides it. */
  lemma {:induction false} StopIsFinal(all: Targets, lim: Limits, states: seq<Stage>, ops: seq<Op>, m: nat, n: nat,
                                       sh: Shard)
    requires Behaviour(all, lim, states, ops) && m <= n < |states| && states[m].stop.Some? && sh in all
    ensures states[n].stop.Some?
    ensures (forall i :: m <= i < n ==> !Overrides(ops[i])) ==> states[n].stop == states[m].stop
    ensures Starts(states, ops, lim, n, sh) == Starts(states, ops, lim, m, sh)
    decreases n
  {
    if m < n {
      StopIsFinal(all, lim, states, ops, m, n - 1, sh);
      assert states[n] == Apply(all, states[n-1], ops[n-1], lim);
      StopStep(all, lim, states[n-1], ops[n-1]);
    }
  }

  /** A run is over when next() gives nothing and nothing is in flight. */
  predicate Over(st: Stage, lim: Limits) {
    Next(st, lim.jobs, lim.perShard).1.None? && Flying(st.lanes) == 0
  }

  lemma NothingQueued(st: Stage, lim: Limits, sh: Shard)
    requires Over(st, lim) && lim.jobs > 0 && lim.perShard > 0 && sh in st.lanes && st.stop.None?
    requires st.lanes[sh].inflight == 0
    ensures st.lanes[sh].queue == []
  {
    var q, f := Queues(st.lanes), Inflight(st.lanes);
    PickNoneIff(q, f, lim.jobs, lim.perShard, st.last);
    assert q.Keys == st.lanes.Keys;
    assert Pick(q, f, lim.jobs, lim.perShard, st.last).None?;
    assert sh in q && Get(f, sh) == 0;
  }

  lemma {:induction false} TotalCovers(order: seq<Shard>, inflight: map<Shard, nat>, sh: Shard)
    requires sh in order
    ensures Get(inflight, sh) <= Total(order, inflight)
  {
    if order[0] != sh {
      TotalCovers(order[1..], inflight, sh);
    }
  }

  lemma FlyingCovers(lanes: map<Shard, Lane>, sh: Shard)
    requires sh in lanes
    ensures lanes[sh].inflight <= Flying(lanes)
  {
    SortedSpec(lanes.Keys);
    TotalCovers(Sorted(lanes.Keys), Inflight(lanes), sh);
  }

  lemma SettledLane(targets: seq<Id>, l: Lane, perShard: nat, i: nat)
    requires LaneOk(targets, l, perShard) && l.inflight == 0 && l.queue == [] && i < |targets|
    ensures targets[i] in l.marks && (l.marks[targets[i]].Finished? || l.marks[targets[i]].NotRun?)
  {
    assert MarkFits(i < |l.started|, l.queue == [], l.marks[targets[i]]);
    if l.marks[targets[i]].Running? {
      PositiveCount(l.marks, targets, i);
    }
  }

  /** When a run is over, every selected target has finished or was given up: none is lost. */
  lemma AllSettled(all: Targets, lim: Limits, st: Stage, sh: Shard, i: nat)
    requires Inv(all, st, lim.jobs, lim.perShard) && Over(st, lim) && lim.jobs > 0 && lim.perShard > 0
    requires sh in all && i < |all[sh]|
    ensures sh in st.lanes && all[sh][i] in st.lanes[sh].marks
    ensures st.lanes[sh].marks[all[sh][i]].Finished? || st.lanes[sh].marks[all[sh][i]].NotRun?
  {
    FlyingCovers(st.lanes, sh);
    if st.stop.None? {
      NothingQueued(st, lim, sh);
    }
    assert LaneOk(all[sh], st.lanes[sh], lim.perShard);
    SettledLane(all[sh], st.lanes[sh], lim.perShard, i);
  }

  predicate Settled(m: Mark) {
    m.Finished? || m.NotRun?
  }

  lemma GiveUpSpares(targets: seq<Id>, l: Lane, why: Why, i: nat)
    requires DistinctIds(targets) && Placed(targets, l) && i < |targets| && Settled(l.marks[targets[i]])
    ensures GivenUp(l, why).marks[targets[i]] == l.marks[targets[i]]
  {
    QueuedIff(targets, l, i);
  }

  lemma LaunchSpares(targets: seq<Id>, l: Lane, i: nat)
    requires DistinctIds(targets) && Placed(targets, l) && l.queue != [] && i < |targets|
    requires Settled(l.marks[targets[i]])
    ensures Launched(l).marks[targets[i]] == l.marks[targets[i]]
  {
    QueuedIff(targets, l, i);
  }

  lemma LandSpares(targets: seq<Id>, l: Lane, perShard: nat, k: nat, res: Result, i: nat)
    requires LaneOk(targets, l, perShard) && k < |targets| && l.marks[targets[k]].Running?
    requires i < |targets| && Settled(l.marks[targets[i]])
    ensures l.inflight > 0
    ensures var r := Counted(Landed(l, targets[k], res), res);
            && LaneOk(targets, r, perShard)
            && r.marks[targets[i]] == l.marks[targets[i]]
            && GivenUp(r, Stopped).marks[targets[i]] == l.marks[targets[i]]
  {
    DoneLaneOk(targets, l, perShard, k, res);
    var t := Landed(l, targets[k], res);
    var r := Counted(t, res);
    QueuedIff(targets, l, i);
    assert t.marks[targets[i]] == l.marks[targets[i]] && t.queue == l.queue;
    GiveUpSpares(targets, r, Stopped, i);
  }

  /** The mark of a selected target. */
  function MarkOf(all: Targets, st: Stage, sh: Shard, i: nat): Mark
    requires sh in all && i < |all[sh]| && sh in st.lanes && all[sh][i] in st.lanes[sh].marks
  {
    st.lanes[sh].marks[all[sh][i]]
  }

  predicate Marked(all: Targets, st: Stage, sh: Shard, i: nat) {
    sh in all && i < |all[sh]| && sh in st.lanes && all[sh][i] in st.lanes[sh].marks
  }

  lemma DoneSpares(all: Targets, lim: Limits, st: Stage, s: Shard, k: nat, res: Result, sh: Shard, i: nat)
    requires Inv(all, st, lim.jobs, lim.perShard) && InFlight(all, st, s, k) && st.lanes[s].inflight > 0
    requires Marked(all, st, sh, i) && Settled(MarkOf(all, st, sh, i))
    ensures var t := Done(st, s, all[s][k], res);
            Marked(all, t, sh, i) && MarkOf(all, t, sh, i) == MarkOf(all, st, sh, i)
  {
    DoneFrame(st, s, all[s][k], res, sh);
    assert LaneOk(all[sh], st.lanes[sh], lim.perShard);
    if s == sh {
      LandSpares(all[sh], st.lanes[sh], lim.perShard, k, res, i);
    } else {
      GiveUpSpares(all[sh], st.lanes[sh], Stopped, i);
    }
  }

  lemma TakeSpares(all: Targets, lim: Limits, st: Stage, sh: Shard, i: nat)
    requires Inv(all, st, lim.jobs, lim.perShard) && Marked(all, st, sh, i) && Settled(MarkOf(all, st, sh, i))
    ensures var t := Next(st, lim.jobs, lim.perShard).0;
            Marked(all, t, sh, i) && MarkOf(all, t, sh, i) == MarkOf(all, st, sh, i)
  {
    NextStarts(st, lim.jobs, lim.perShard);
    var e := Next(st, lim.jobs, lim.perShard).1;
    if e.Some? && e.value.0 == sh {
      assert LaneOk(all[sh], st.lanes[sh], lim.perShard);
      LaunchSpares(all[sh], st.lanes[sh], i);
    }
  }

  lemma HaltSpares(all: Targets, lim: Limits, st: Stage, stop: Stop, override: bool, sh: Shard, i: nat)
    requires Inv(all, st, lim.jobs, lim.perShard) && Marked(all, st, sh, i) && Settled(MarkOf(all, st, sh, i))
    ensures var t := Halt(st, stop, override); Marked(all, t, sh, i) && MarkOf(all, t, sh, i) == MarkOf(all, st, sh, i)
  {
    assert LaneOk(all[sh], st.lanes[sh], lim.perShard);
    GiveUpSpares(all[sh], st.lanes[sh], Stopped, i);
  }

  lemma SettledStep(all: Targets, lim: Limits, st: Stage, op: Op, sh: Shard, i: nat)
    requires Inv(all, st, lim.jobs, lim.perShard) && Enabled(all, st, op)
    requires Marked(all, st, sh, i) && Settled(MarkOf(all, st, sh, i))
    ensures var t := Apply(all, st, op, lim); Marked(all, t, sh, i) && MarkOf(all, t, sh, i) == MarkOf(all, st, sh, i)
  {
    match op
    case Take => TakeSpares(all, lim, st, sh, i);
    case Complete(s, k, res) => DoneSpares(all, lim, st, s, k, res, sh, i);
    case Stopping(stop, override) => HaltSpares(all, lim, st, stop, override, sh, i);
  }

  /** From st to t the mark of a settled target stays. */
  predicate Spared(all: Targets, st: Stage, t: Stage, sh: Shard, i: nat) {
    Marked(all, st, sh, i) && Settled(MarkOf(all, st, sh, i)) ==>
        Marked(all, t, sh, i) && MarkOf(all, t, sh, i) == MarkOf(all, st, sh, i)
  }

  lemma SparedStep(all: Targets, lim: Limits, st: Stage, op: Op, t: Stage, sh: Shard, i: nat)
    requires Inv(all, st, lim.jobs, lim.perShard) && Enabled(all, st, op) && t == Apply(all, st, op, lim)
    ensures Spared(all, st, t, sh, i)
  {
    if Marked(all, st, sh, i) && Settled(MarkOf(all, st, sh, i)) {
      SettledStep(all, lim, st, op, sh, i);
    }
  }

  lemma SettledAt(all: Targets, lim: Limits, states: seq<Stage>, ops: seq<Op>, n: nat, sh: Shard, i: nat)
    requires Behaviour(all, lim, states, ops) && 0 < n < |states|
    ensures Spared(all, states[n-1], states[n], sh, i)
  {
    InvAlways(all, lim, states, ops, n - 1);
    assert states[n] == Apply(all, states[n-1], ops[n-1], lim);
    SparedStep(all, lim, states[n-1], ops[n-1], states[n], sh, i);
  }

  /** What a target finished with, or why it was given up, is never rewritten by the stage. */
  lemma {:induction false} SettledStays(all: Targets, lim: Limits, states: seq<Stage>, ops: seq<Op>, m: nat, n: nat,
                                        sh: Shard, i: nat)
    requires Behaviour(all, lim, states, ops) && m <= n < |states|
    requires Marked(all, states[m], sh, i) && Settled(MarkOf(all, states[m], sh, i))
    ensures Marked(all, states[n], sh, i) && MarkOf(all, states[n], sh, i) == MarkOf(all, states[m], sh, i)
    decreases n
  {
    if m < n {
      SettledStays(all, lim, states, ops, m, n - 1, sh, i);
      SettledAt(all, lim, states, ops, n, sh, i);
    }
  }
}
