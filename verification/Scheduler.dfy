/** The tenant stage as the command drives it: the mutable stage object and the sequential loop. */
module Scheduler {
  import opened Types
  import opened Ordering
  import opened PickNext
  import opened StageModel
  import opened StageRuns

  /** The entries of one shard, in selection order. */
  function Selected(entries: seq<(Shard, Id)>, sh: Shard): seq<Id> {
    if entries == [] then []
    else
      var e := entries[|entries|-1];
      Selected(entries[..|entries|-1], sh) + (if e.0 == sh then [e.1] else [])
  }

  function ByShard(entries: seq<(Shard, Id)>): Targets {
    map sh | sh in Shards(entries) :: Selected(entries, sh)
  }

  function Shards(entries: seq<(Shard, Id)>): set<Shard> {
    set i | 0 <= i < |entries| :: entries[i].0
  }

  function FreshLanes(all: Targets): map<Shard, Lane> {
    map sh | sh in all :: FreshLane(all[sh])
  }

  /** queues.setdefault(shard, deque()).append(e) */
  function Enqueued(lanes: map<Shard, Lane>, sh: Shard, id: Id): map<Shard, Lane> {
    var l := if sh in lanes then lanes[sh] else FreshLane([]);
    lanes[sh := l.(queue := l.queue + [id], marks := l.marks[id := Queued])]
  }

  lemma {:induction false} NothingSelected(entries: seq<(Shard, Id)>, sh: Shard)
    requires sh !in Shards(entries)
    ensures Selected(entries, sh) == []
  {
    if entries != [] {
      assert entries[|entries|-1].0 in Shards(entries);
      NothingSelected(entries[..|entries|-1], sh);
    }
  }

  lemma FreshAppend(targets: seq<Id>, id: Id)
    ensures var l := FreshLane(targets);
            FreshLane(targets + [id]) == l.(queue := l.queue + [id], marks := l.marks[id := Queued])
  {
  }

  lemma ShardsAppend(entries: seq<(Shard, Id)>, e: (Shard, Id))
    ensures Shards(entries + [e]) == Shards(entries) + {e.0}
  {
    var t := entries + [e];
    assert t[|entries|] == e;
    forall sh | sh in Shards(entries)
      ensures sh in Shards(t)
    {
      var i :| 0 <= i < |entries| && entries[i].0 == sh;
      assert t[i] == entries[i];
    }
  }

  /** The targets with one more entry at the end of its shard. */
  function Appended(all: Targets, sh: Shard, id: Id): Targets {
    all[sh := (if sh in all then all[sh] else []) + [id]]
  }

  lemma SelectOne(entries: seq<(Shard, Id)>, e: (Shard, Id))
    ensures ByShard(entries + [e]) == Appended(ByShard(entries), e.0, e.1)
  {
    var t := entries + [e];
    assert t[..|t|-1] == entries;
    ShardsAppend(entries, e);
    if e.0 !in Shards(entries) {
      NothingSelected(entries, e.0);
    }
    var l, r := ByShard(t), Appended(ByShard(entries), e.0, e.1);
    assert l.Keys == r.Keys;
    forall sh | sh in l
      ensures l[sh] == r[sh]
    {
      assert Selected(t, sh) == Selected(entries, sh) + (if e.0 == sh then [e.1] else []);
    }
  }

  lemma LaneOne(all: Targets, sh: Shard, id: Id)
    ensures FreshLanes(Appended(all, sh, id)) == Enqueued(FreshLanes(all), sh, id)
  {
    FreshAppend(if sh in all then all[sh] else [], id);
  }

  lemma EnqueueOne(entries: seq<(Shard, Id)>, e: (Shard, Id))
    ensures FreshLanes(ByShard(entries + [e])) == Enqueued(FreshLanes(ByShard(entries)), e.0, e.1)
  {
    SelectOne(entries, e);
    LaneOne(ByShard(entries), e.0, e.1);
  }

  /** The selection of a shard keeps order and multiplicity: it is built entry by entry. */
  lemma {:induction false} SelectedConcat(a: seq<(Shard, Id)>, b: seq<(Shard, Id)>, sh: Shard)
    ensures Selected(a + b, sh) == Selected(a, sh) + Selected(b, sh)
    decreases |b|
  {
    if b == [] {
      assert a + b == a;
    } else {
      assert (a + b)[..|a + b|-1] == a + b[..|b|-1];
      SelectedConcat(a, b[..|b|-1], sh);
    }
  }

  lemma SelectedOne(s: Shard, id: Id, sh: Shard)
    ensures Selected([(s, id)], sh) == if s == sh then [id] else []
  {
    assert [(s, id)][..0] == [];
    assert Selected([], sh) == [];
  }

  predicate DistinctEntries(entries: seq<(Shard, Id)>) {
    forall i, j :: 0 <= i < j < |entries| ==> entries[i] != entries[j]
  }

  lemma {:induction false} SelectedFrom(entries: seq<(Shard, Id)>, sh: Shard, id: Id)
    requires id in Selected(entries, sh)
    ensures (sh, id) in entries
  {
    var n := |entries| - 1;
    if entries[n] != (sh, id) {
      SelectedFrom(entries[..n], sh, id);
    }
  }

  lemma {:induction false} SelectedDistinct(entries: seq<(Shard, Id)>, sh: Shard)
    requires DistinctEntries(entries)
    ensures DistinctIds(Selected(entries, sh))
  {
    if entries != [] {
      var n := |entries| - 1;
      SelectedDistinct(entries[..n], sh);
      if entries[n].0 == sh && entries[n].1 in Selected(entries[..n], sh) {
        SelectedFrom(entries[..n], sh, entries[n].1);
        assert false;
      }
    }
  }

  lemma {:induction false} SelectedSome(entries: seq<(Shard, Id)>, i: nat)
    requires i < |entries|
    ensures entries[i].1 in Selected(entries, entries[i].0)
  {
    var n := |entries| - 1;
    if i < n {
      assert entries[..n][i] == entries[i];
      SelectedSome(entries[..n], i);
    }
  }

  /** The stage built from a selection without repetitions is an initial one: every run theorem applies to it. */
  lemma FreshIsInit(entries: seq<(Shard, Id)>, keepGoing: bool, maxFailures: nat)
    requires DistinctEntries(entries) && maxFailures >= 1
    ensures Init(ByShard(entries), Stage(keepGoing, maxFailures, None, None, FreshLanes(ByShard(entries))))
  {
    var all := ByShard(entries);
    forall sh | sh in all
      ensures DistinctIds(all[sh]) && all[sh] != []
    {
      SelectedDistinct(entries, sh);
      var i :| 0 <= i < |entries| && entries[i].0 == sh;
      SelectedSome(entries, i);
    }
  }

  // ---------------------------------------------------------------------------------------
  // Progress: how many targets are still queued.
  // ---------------------------------------------------------------------------------------

  function Lengths(lanes: map<Shard, Lane>): map<Shard, nat> {
    map sh | sh in lanes :: |lanes[sh].queue|
  }

  function Waiting(lanes: map<Shard, Lane>): nat {
    Total(Sorted(lanes.Keys), Lengths(lanes))
  }

  lemma WaitingUpdate(lanes: map<Shard, Lane>, sh: Shard, l: Lane)
    requires sh in lanes
    ensures Waiting(lanes[sh := l]) == Waiting(lanes) + |l.queue| - |lanes[sh].queue|
  {
    assert lanes[sh := l].Keys == lanes.Keys;
    assert Lengths(lanes[sh := l]) == Lengths(lanes)[sh := |l.queue|];
    SortedSpec(lanes.Keys);
    TotalUpdate(Sorted(lanes.Keys), Lengths(lanes), sh, |l.queue|);
  }

  lemma WaitingGivenUp(lanes: map<Shard, Lane>)
    ensures Waiting(AllGivenUp(lanes)) == 0
  {
    NothingFlying(Sorted(AllGivenUp(lanes).Keys), Lengths(AllGivenUp(lanes)));
  }

  lemma JudgedShape(st: Stage, sh: Shard, res: Result)
    requires sh in st.lanes
    ensures Judged(st, sh, res).lanes == st.lanes || Judged(st, sh, res).lanes == AllGivenUp(st.lanes)
  {
  }

  lemma JudgedWaiting(st: Stage, sh: Shard, res: Result)
    requires sh in st.lanes
    ensures Waiting(Judged(st, sh, res).lanes) <= Waiting(st.lanes)
  {
    JudgedShape(st, sh, res);
    WaitingGivenUp(st.lanes);
  }

  lemma DoneWaiting(st: Stage, sh: Shard, id: Id, res: Result)
    requires sh in st.lanes && st.lanes[sh].inflight > 0
    ensures Waiting(Done(st, sh, id, res).lanes) <= Waiting(st.lanes)
  {
    var l := Counted(Landed(st.lanes[sh], id, res), res);
    WaitingUpdate(st.lanes, sh, l);
    JudgedWaiting(st.(lanes := st.lanes[sh := l]), sh, res);
  }

  // ---------------------------------------------------------------------------------------
  // Results are the ones the migrations returned.
  // ---------------------------------------------------------------------------------------

  /** What migrate_tenant returns for each target. */
  type Outcome = (Shard, Id) -> Result

  predicate HonestLane(sh: Shard, l: Lane, outcome: Outcome) {
    forall id :: id in l.marks && l.marks[id].Finished? ==> l.marks[id].res == outcome(sh, id)
  }

  predicate Honest(lanes: map<Shard, Lane>, outcome: Outcome) {
    forall sh :: sh in lanes ==> HonestLane(sh, lanes[sh], outcome)
  }

  lemma HonestGivenUp(lanes: map<Shard, Lane>, outcome: Outcome)
    requires Honest(lanes, outcome)
    ensures Honest(AllGivenUp(lanes), outcome)
  {
    var t := AllGivenUp(lanes);
    forall sh | sh in t
      ensures HonestLane(sh, t[sh], outcome)
    {
      assert HonestLane(sh, lanes[sh], outcome);
    }
  }

  lemma HonestNext(st: Stage, jobs: nat, perShard: nat, outcome: Outcome)
    requires Honest(st.lanes, outcome)
    ensures Honest(Next(st, jobs, perShard).0.lanes, outcome)
  {
    NextStarts(st, jobs, perShard);
    var (t, e) := Next(st, jobs, perShard);
    if e.Some? {
      assert HonestLane(e.value.0, st.lanes[e.value.0], outcome);
      assert HonestLane(e.value.0, Launched(st.lanes[e.value.0]), outcome);
    }
  }

  lemma HonestDone(st: Stage, sh: Shard, id: Id, outcome: Outcome)
    requires Honest(st.lanes, outcome) && sh in st.lanes && st.lanes[sh].inflight > 0
    ensures Honest(Done(st, sh, id, outcome(sh, id)).lanes, outcome)
  {
    var res := outcome(sh, id);
    var l := Counted(Landed(st.lanes[sh], id, res), res);
    assert HonestLane(sh, st.lanes[sh], outcome);
    assert HonestLane(sh, l, outcome);
    HonestGivenUp(st.lanes[sh := l], outcome);
  }

  // ---------------------------------------------------------------------------------------
  // The stage object.
  // ---------------------------------------------------------------------------------------

  /** Handed-out target k of a shard is the head of its queue, now running. */
  lemma HeadRuns(all: Targets, st: Stage, jobs: nat, perShard: nat) returns (k: nat)
    requires Inv(all, st, jobs, perShard) && Next(st, jobs, perShard).1.Some?
    ensures var (t, e) := Next(st, jobs, perShard);
            && e.Some? && InFlight(all, t, e.value.0, k) && all[e.value.0][k] == e.value.1
            && Waiting(t.lanes) < Waiting(st.lanes)
  {
    NextStarts(st, jobs, perShard);
    var sh := Next(st, jobs, perShard).1.value.0;
    var l := st.lanes[sh];
    assert LaneOk(all[sh], l, perShard);
    LaunchOk(all[sh], l, perShard);
    WaitingUpdate(st.lanes, sh, Launched(l));
    k := |l.started|;
  }

  lemma Extended(all: Targets, lim: Limits, states: seq<Stage>, ops: seq<Op>, op: Op, t: Stage)
    requires Behaviour(all, lim, states, ops) && Enabled(all, states[|ops|], op)
    requires t == Apply(all, states[|ops|], op, lim)
    ensures Behaviour(all, lim, states + [t], ops + [op])
  {
    var s, o := states + [t], ops + [op];
    forall i | 0 <= i < |o|
      ensures Enabled(all, s[i], o[i]) && s[i+1] == Apply(all, s[i], o[i], lim)
    {
      if i < |ops| {
        assert o[i] == ops[i] && s[i] == states[i] && s[i+1] == states[i+1];
      }
    }
  }

  const ONE := Limits(1, 1)

  datatype Trace = Trace(states: seq<Stage>, ops: seq<Op>)

  function Then(tr: Trace, op: Op, t: Stage): Trace {
    Trace(tr.states + [t], tr.ops + [op])
  }

  /** The trace is a run with both limits 1 that leads from one state to the other. */
  ghost predicate Reached(all: Targets, first: Stage, tr: Trace, st: Stage) {
    Behaviour(all, ONE, tr.states, tr.ops) && tr.states[0] == first && tr.states[|tr.ops|] == st
  }

  lemma Push(all: Targets, first: Stage, tr: Trace, st: Stage, op: Op, t: Stage)
    requires Reached(all, first, tr, st) && Enabled(all, st, op) && t == Apply(all, st, op, ONE)
    ensures Reached(all, first, Then(tr, op, t), t)
  {
    Extended(all, ONE, tr.states, tr.ops, op, t);
  }

  lemma PushTarget(all: Targets, first: Stage, tr: Trace, st: Stage, sh: Shard, k: nat, res: Result)
    requires Reached(all, first, tr, st)
    requires var t := Next(st, 1, 1).0; InFlight(all, t, sh, k) && t.lanes[sh].inflight > 0
    ensures var t := Next(st, 1, 1).0;
            var u := Done(t, sh, all[sh][k], res);
            Reached(all, first, Then(Then(tr, Take, t), Complete(sh, k, res), u), u)
  {
    var t := Next(st, 1, 1).0;
    Push(all, first, tr, st, Take, t);
    Push(all, first, Then(tr, Take, t), t, Complete(sh, k, res), Done(t, sh, all[sh][k], res));
  }

  /** A sequential run so far: nothing is in flight between two turns. */
  ghost predicate Sequential(all: Targets, outcome: Outcome, first: Stage, tr: Trace, st: Stage) {
    Reached(all, first, tr, st) && Inv(all, st, 0, 1) && Honest(st.lanes, outcome)
  }

  lemma FreshHonest(all: Targets, outcome: Outcome)
    ensures Honest(FreshLanes(all), outcome)
  {
  }

  lemma FirstReached(all: Targets, st: Stage)
    requires Init(all, st)
    ensures Reached(all, st, Trace([st], []), st)
  {
  }

  lemma FirstTurn(all: Targets, outcome: Outcome, st: Stage)
    requires Init(all, st)
    ensures Sequential(all, outcome, st, Trace([st], []), st)
  {
    InitInv(all, Limits(0, 1), st);
    FirstReached(all, st);
    FreshHonest(all, outcome);
    assert st.lanes == FreshLanes(all);
  }

  lemma SignalTurn(all: Targets, outcome: Outcome, first: Stage, tr: Trace, st: Stage)
    requires Sequential(all, outcome, first, tr, st)
    ensures var t := Halt(st, Signal, false); Sequential(all, outcome, first, Then(tr, Stopping(Signal, false), t), t)
    ensures Waiting(Halt(st, Signal, false).lanes) == 0
  {
    HaltKeeps(all, st, 0, 1, Signal, false);
    HonestGivenUp(st.lanes, outcome);
    WaitingGivenUp(st.lanes);
    Push(all, first, tr, st, Stopping(Signal, false), Halt(st, Signal, false));
  }

  lemma TakeTurn(all: Targets, outcome: Outcome, st: Stage) returns (k: nat)
    requires Inv(all, st, 0, 1) && Honest(st.lanes, outcome) && Next(st, 1, 1).1.Some?
    ensures var (t, e) := Next(st, 1, 1);
            && e.Some? && InFlight(all, t, e.value.0, k) && all[e.value.0][k] == e.value.1
            && Inv(all, t, 1, 1) && Honest(t.lanes, outcome) && Waiting(t.lanes) < Waiting(st.lanes)
  {
    k := HeadRuns(all, st, 1, 1);
    NextKeeps(all, st, 1, 1);
    HonestNext(st, 1, 1, outcome);
  }

  lemma DoneTurn(all: Targets, outcome: Outcome, t: Stage, sh: Shard, k: nat)
    requires Inv(all, t, 1, 1) && Honest(t.lanes, outcome) && InFlight(all, t, sh, k)
    ensures t.lanes[sh].inflight > 0
    ensures var u := Done(t, sh, all[sh][k], outcome(sh, all[sh][k]));
            Inv(all, u, 0, 1) && Honest(u.lanes, outcome) && Waiting(u.lanes) <= Waiting(t.lanes)
  {
    DoneKeeps(all, t, 1, 1, sh, k, outcome(sh, all[sh][k]));
    HonestDone(t, sh, all[sh][k], outcome);
    DoneWaiting(t, sh, all[sh][k], outcome(sh, all[sh][k]));
  }

  lemma TargetTurn(all: Targets, outcome: Outcome, first: Stage, tr: Trace, st: Stage) returns (next: Trace)
    requires Sequential(all, outcome, first, tr, st) && Next(st, 1, 1).1.Some?
    ensures var (t, e) := Next(st, 1, 1);
            && e.Some? && e.value.0 in t.lanes && t.lanes[e.value.0].inflight > 0
            && var u := Done(t, e.value.0, e.value.1, outcome(e.value.0, e.value.1));
               Sequential(all, outcome, first, next, u) && Waiting(u.lanes) < Waiting(st.lanes)
  {
    var t, e := Next(st, 1, 1).0, Next(st, 1, 1).1;
    var k := TakeTurn(all, outcome, st);
    var (sh, id) := e.value;
    DoneTurn(all, outcome, t, sh, k);
    PushTarget(all, first, tr, st, sh, k, outcome(sh, id));
    next := Then(Then(tr, Take, t), Complete(sh, k, outcome(sh, id)), Done(t, sh, id, outcome(sh, id)));
  }

  class TenantStage {
    const keepGoing: bool
    const maxFailures: nat
    var stop: Option<Stop>
    var last: Option<Shard>
    var lanes: map<Shard, Lane>

    function View(): Stage
      reads this
    {
      Stage(keepGoing, maxFailures, stop, last, lanes)
    }

    /** of(): the entries are appended one by one to their shard's queue. */
    constructor (entries: seq<(Shard, Id)>, keepGoing: bool, maxFailures: nat)
      ensures this.keepGoing == keepGoing && this.maxFailures == maxFailures
      ensures stop.None? && last.None?
      ensures lanes == FreshLanes(ByShard(entries))
    {
      this.keepGoing, this.maxFailures := keepGoing, maxFailures;
      stop, last, lanes := None, None, map[];
      new;
      for n := 0 to |entries|
        invariant stop.None? && last.None?
        invariant lanes == FreshLanes(ByShard(entries[..n]))
      {
        EnqueueOne(entries[..n], entries[n]);
        assert entries[..n+1] == entries[..n] + [entries[n]];
        lanes := Enqueued(lanes, entries[n].0, entries[n].1);
      }
      assert entries[..|entries|] == entries;
    }

    /** next() */
    method Next(jobs: nat, perShard: nat) returns (e: Option<(Shard, Id)>)
      modifies this
      ensures (View(), e) == StageModel.Next(old(View()), jobs, perShard)
    {
      e := None;
      if stop.Some? {
        return;
      }
      var p := Pick(Queues(lanes), Inflight(lanes), jobs, perShard, last);
      if p.None? {
        return;
      }
      PickedLane(lanes, jobs, perShard, last);
      last := p;
      e := Some((p.value, lanes[p.value].queue[0]));
      lanes := lanes[p.value := Launched(lanes[p.value])];
    }

    /** halt(): shard after shard, the queued entries become not_run. */
    method Halt(stop: Stop, override: bool)
      modifies this
      ensures View() == StageModel.Halt(old(View()), stop, override)
    {
      if this.stop.None? || override {
        this.stop := Some(stop);
      }
      lanes := GiveUpAll(lanes);
    }

    /** done(e) */
    method Done(sh: Shard, id: Id, res: Result)
      requires sh in lanes && lanes[sh].inflight > 0
      modifies this
      ensures View() == StageModel.Done(old(View()), sh, id, res)
    {
      var l := Landed(lanes[sh], id, res);
      lanes := lanes[sh := l];
      if res.conn.DefaultConn? {
        Halt(DefaultUnreachable, false);
        return;
      }
      if res.conn.ShardConn? {
        l := GiveUp(l, ShardUnreachable);
      } else if res.kind.Failed? {
        l := l.(consecutive := l.consecutive + 1);
      } else if res.kind.Ok? || res.kind.Noop? {
        l := l.(consecutive := 0);
      }
      lanes := lanes[sh := l];
      assert lanes == old(lanes)[sh := Counted(Landed(old(lanes)[sh], id, res), res)];
      if !res.kind.Failed? || stop.Some? {
        return;
      }
      if !keepGoing {
        if Remaining(View()) {
          Halt(FailFast, false);
        }
      } else if l.consecutive >= maxFailures {
        Halt(MaxFailures(sh), false);
      }
    }

    /** One pass of the sequential loop; `more` is false when next() gave nothing. */
    method Turn(ghost all: Targets, outcome: Outcome, drain: bool, ghost first: Stage, ghost tr: Trace)
      returns (more: bool, ghost next: Trace)
      requires Sequential(all, outcome, first, tr, View())
      modifies this
      ensures Sequential(all, outcome, first, next, View())
      ensures if more then Waiting(lanes) < old(Waiting(lanes)) else Over(View(), ONE)
      ensures drain ==>
                && !more && next == Then(tr, Stopping(Signal, false), View())
                && stop == if old(stop).None? then Some(Signal) else old(stop)
    {
      next := tr;
      if drain {
        SignalTurn(all, outcome, first, tr, View());
        Halt(Signal, false);
        next := Then(tr, Stopping(Signal, false), View());
      }
      ghost var st := View();
      var e := Next(1, 1);
      more := e.Some?;
      if more {
        next := TargetTurn(all, outcome, first, next, st);
        Done(e.value.0, e.value.1, outcome(e.value.0, e.value.1));
      } else {
        NextStarts(st, 1, 1);
      }
    }

    /**
     * _run_sequential, with `drain` telling in which turns a stop was requested. It ends, it is
     * one of the runs of StageRuns with both limits 1, and its last state leaves nothing open.
     */
    method RunSequential(ghost all: Targets, outcome: Outcome, drain: nat -> bool) returns (ghost tr: Trace)
      requires Init(all, View())
      modifies this
      ensures Sequential(all, outcome, old(View()), tr, View())
      ensures Over(View(), ONE)
      ensures drain(0) ==> stop == Some(Signal) && tr.ops == [Stopping(Signal, false)]
    {
      tr := Trace([View()], []);
      FirstTurn(all, outcome, View());
      var turn, more := 0, true;
      while more
        invariant Sequential(all, outcome, old(View()), tr, View())
        invariant more || Over(View(), ONE)
        invariant turn == 0 ==> more && tr == Trace([old(View())], []) && View() == old(View())
        invariant turn > 0 && drain(0) ==> !more && stop == Some(Signal) && tr.ops == [Stopping(Signal, false)]
        decreases more, Waiting(lanes)
      {
        more, tr := Turn(all, outcome, drain(turn), old(View()), tr);
        turn := turn + 1;
      }
    }
  }

  lemma VoidOne(marks: map<Id, Mark>, ids: seq<Id>, id: Id, why: Why)
    ensures Voided(marks, ids + [id], why) == Voided(marks, ids, why)[id := NotRun(why)]
  {
  }

  /** The loop over one queue in halt() and done(). */
  method GiveUp(l: Lane, why: Why) returns (t: Lane)
    ensures t == GivenUp(l, why)
  {
    var marks := l.marks;
    for i := 0 to |l.queue|
      invariant marks == Voided(l.marks, l.queue[..i], why)
    {
      VoidOne(l.marks, l.queue[..i], l.queue[i], why);
      assert l.queue[..i+1] == l.queue[..i] + [l.queue[i]];
      marks := marks[l.queue[i] := NotRun(why)];
    }
    assert l.queue[..|l.queue|] == l.queue;
    t := l.(queue := [], marks := marks);
  }

  /** The loop over the queues in halt(). */
  method GiveUpAll(lanes: map<Shard, Lane>) returns (t: map<Shard, Lane>)
    ensures t == AllGivenUp(lanes)
  {
    t := lanes;
    var todo := lanes.Keys;
    while todo != {}
      invariant todo <= lanes.Keys == t.Keys
      invariant forall sh :: sh in t ==> t[sh] == if sh in todo then lanes[sh] else GivenUp(lanes[sh], Stopped)
      decreases |todo|
    {
      var sh :| sh in todo;
      var l := GiveUp(lanes[sh], Stopped);
      t := t[sh := l];
      todo := todo - {sh};
    }
  }
}
