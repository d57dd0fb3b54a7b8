/**
 * TenantStage of migrate_schemas: per-shard FIFO queues, the two concurrency limits, the
 * consecutive-failure counters and the stop flag. The dictionaries keyed by shard are kept as
 * one record per shard.
 */
module StageModel {
  import opened Types
  import opened Ordering
  import opened PickNext

  /** An entry of the summary, within its shard. */
  type Id = nat

  datatype Kind = Ok | Noop | Failed | Skipped
  datatype Conn = NoConn | ShardConn | DefaultConn

  /** What migrate_tenant returned for an entry. */
  datatype Result = Result(kind: Kind, conn: Conn, locked: bool)

  datatype Stop = FailFast | MaxFailures(shard: Shard) | DefaultUnreachable | Signal | HardStop | BrokenPool

  datatype Why = Stopped | ShardUnreachable

  /** An entry's place: queued, in flight, finished, or given up. */
  datatype Mark = Queued | Running | Finished(res: Result) | NotRun(why: Why)

  /** One shard. `started` and `completed` are its history; no transition reads them. */
  datatype Lane = Lane(
    queue: seq<Id>,
    inflight: nat,
    consecutive: nat,
    marks: map<Id, Mark>,
    started: seq<Id>,
    completed: seq<Result>
  )

  datatype Stage = Stage(keepGoing: bool, maxFailures: nat, stop: Option<Stop>, last: Option<Shard>,
                         lanes: map<Shard, Lane>)

  function Queues(lanes: map<Shard, Lane>): map<Shard, seq<Id>> {
    map sh | sh in lanes :: lanes[sh].queue
  }

  function Inflight(lanes: map<Shard, Lane>): map<Shard, nat> {
    map sh | sh in lanes :: lanes[sh].inflight
  }

  // ---------------------------------------------------------------------------------------
  // Transitions.
  // ---------------------------------------------------------------------------------------

  /** popleft() and the in-flight count; the caller marks the entry running. */
  function Launched(l: Lane): Lane
    requires l.queue != []
  {
    l.(queue := l.queue[1..], inflight := l.inflight + 1, marks := l.marks[l.queue[0] := Running],
       started := l.started + [l.queue[0]])
  }

  function Landed(l: Lane, id: Id, res: Result): Lane
    requires l.inflight > 0
  {
    l.(inflight := l.inflight - 1, marks := l.marks[id := Finished(res)], completed := l.completed + [res])
  }

  function Voided(marks: map<Id, Mark>, ids: seq<Id>, why: Why): map<Id, Mark> {
    marks + map id | id in ids :: NotRun(why)
  }

  /** The queued entries become not_run and the queue is emptied. */
  function GivenUp(l: Lane, why: Why): Lane {
    l.(queue := [], marks := Voided(l.marks, l.queue, why))
  }

  /** The shard's queue or counter after a result. */
  function Counted(l: Lane, res: Result): Lane {
    if res.conn.DefaultConn? then l
    else if res.conn.ShardConn? then GivenUp(l, ShardUnreachable)
    else if res.kind.Failed? then l.(consecutive := l.consecutive + 1)
    else if res.kind.Ok? || res.kind.Noop? then l.(consecutive := 0)
    else l
  }

  /** How many targets are in flight. */
  function Flying(lanes: map<Shard, Lane>): nat {
    Total(Sorted(lanes.Keys), Inflight(lanes))
  }

  lemma PickedLane(lanes: map<Shard, Lane>, jobs: nat, perShard: nat, last: Option<Shard>)
    ensures var p := Pick(Queues(lanes), Inflight(lanes), jobs, perShard, last);
            p.Some? ==>
              && p.value in lanes && lanes[p.value].queue != []
              && lanes[p.value].inflight < perShard && Flying(lanes) < jobs
  {
    assert Queues(lanes).Keys == lanes.Keys == Inflight(lanes).Keys;
    PickNoneIff(Queues(lanes), Inflight(lanes), jobs, perShard, last);
  }

  /** next() */
  function Next(st: Stage, jobs: nat, perShard: nat): (Stage, Option<(Shard, Id)>) {
    if st.stop.Some? then (st, None)
    else
      var p := Pick(Queues(st.lanes), Inflight(st.lanes), jobs, perShard, st.last);
      if p.None? then (st, None)
      else
        PickedLane(st.lanes, jobs, perShard, st.last);
        var l := st.lanes[p.value];
        (st.(last := p, lanes := st.lanes[p.value := Launched(l)]), Some((p.value, l.queue[0])))
  }

  /** halt(): the first reason stays unless overridden. */
  function Halt(st: Stage, stop: Stop, override: bool): Stage {
    st.(stop := if st.stop.None? || override then Some(stop) else st.stop,
        lanes := AllGivenUp(st.lanes))
  }

  predicate Remaining(st: Stage) {
    exists sh :: sh in st.lanes && st.lanes[sh].queue != []
  }

  /** done(e) for an entry of shard sh, with the result its target returned. */
  function Done(st: Stage, sh: Shard, id: Id, res: Result): Stage
    requires sh in st.lanes && st.lanes[sh].inflight > 0
  {
    Judged(st.(lanes := st.lanes[sh := Counted(Landed(st.lanes[sh], id, res), res)]), sh, res)
  }

  /** The second half of done(): whether the result stops the run. */
  function Judged(st: Stage, sh: Shard, res: Result): Stage
    requires sh in st.lanes
  {
    if res.conn.DefaultConn? then Halt(st, DefaultUnreachable, false)
    else if !res.kind.Failed? || st.stop.Some? then st
    else if !st.keepGoing then (if Remaining(st) then Halt(st, FailFast, false) else st)
    else if st.lanes[sh].consecutive >= st.maxFailures then Halt(st, MaxFailures(sh), false)
    else st
  }

  // ---------------------------------------------------------------------------------------
  // One shard.
  // ---------------------------------------------------------------------------------------

  /** Counted failures since the last success; skips and lost connections are transparent. */
  function Trailing(history: seq<Result>): nat {
    if history == [] then 0
    else
      var res, rest := history[|history|-1], history[..|history|-1];
      if !res.conn.NoConn? || res.kind.Skipped? then Trailing(rest)
      else if res.kind.Failed? then Trailing(rest) + 1
      else 0
  }

  function CountRunning(marks: map<Id, Mark>, ids: seq<Id>): nat {
    if ids == [] then 0
    else (if ids[0] in marks && marks[ids[0]].Running? then 1 else 0) + CountRunning(marks, ids[1..])
  }

  predicate DistinctIds(ids: seq<Id>) {
    forall i, j :: 0 <= i < j < |ids| ==> ids[i] != ids[j]
  }

  /** The mark of a target by its position: started, or still queued, or given up with the whole queue. */
  predicate MarkFits(started: bool, queueEmpty: bool, m: Mark) {
    if started then m.Running? || m.Finished? else if queueEmpty then m.NotRun? else m.Queued?
  }

  /** The started entries are a prefix of the shard's targets; the rest are all queued or all given up. */
  predicate Placed(targets: seq<Id>, l: Lane) {
    && l.started <= targets && (l.queue == targets[|l.started|..] || l.queue == [])
    && forall i :: 0 <= i < |targets| ==>
         targets[i] in l.marks && MarkFits(i < |l.started|, l.queue == [], l.marks[targets[i]])
  }

  predicate LaneOk(targets: seq<Id>, l: Lane, perShard: nat) {
    && DistinctIds(targets) && Placed(targets, l)
    && l.inflight == CountRunning(l.marks, targets) && l.inflight <= perShard
    && l.consecutive == Trailing(l.completed)
  }

  lemma {:induction false} CountFrame(m: map<Id, Mark>, n: map<Id, Mark>, ids: seq<Id>)
    requires forall i :: 0 <= i < |ids| ==>
              ((ids[i] in m && m[ids[i]].Running?) <==> (ids[i] in n && n[ids[i]].Running?))
    ensures CountRunning(m, ids) == CountRunning(n, ids)
  {
    if ids != [] {
      forall i | 0 <= i < |ids[1..]|
        ensures (ids[1..][i] in m && m[ids[1..][i]].Running?) <==> (ids[1..][i] in n && n[ids[1..][i]].Running?)
      {
        assert ids[1..][i] == ids[i+1];
      }
      CountFrame(m, n, ids[1..]);
    }
  }

  lemma {:induction false} CountFlip(marks: map<Id, Mark>, ids: seq<Id>, k: nat, mark: Mark)
    requires k < |ids| && DistinctIds(ids)
    ensures CountRunning(marks[ids[k] := mark], ids) ==
              CountRunning(marks, ids) - (if ids[k] in marks && marks[ids[k]].Running? then 1 else 0)
                  + (if mark.Running? then 1 else 0)
  {
    var rest := ids[1..];
    if k == 0 {
      CountFrame(marks, marks[ids[0] := mark], rest);
    } else {
      assert rest[k-1] == ids[k];
      CountFlip(marks, rest, k - 1, mark);
    }
  }

  lemma LaunchOk(targets: seq<Id>, l: Lane, perShard: nat)
    requires LaneOk(targets, l, perShard) && l.queue != [] && l.inflight < perShard
    ensures LaneOk(targets, Launched(l), perShard)
    ensures |l.started| < |targets| && l.queue[0] == targets[|l.started|]
  {
    var a := |l.started|;
    assert l.queue[0] == targets[a] && l.queue[1..] == targets[a+1..];
    assert MarkFits(a < |l.started|, l.queue == [], l.marks[targets[a]]);
    CountFlip(l.marks, targets, a, Running);
  }

  lemma LandOk(targets: seq<Id>, l: Lane, perShard: nat, k: nat, res: Result)
    requires LaneOk(targets, l, perShard) && k < |targets| && l.marks[targets[k]].Running?
    ensures l.inflight > 0
    ensures var t := Landed(l, targets[k], res); LaneOk(targets, t.(consecutive := Trailing(t.completed)), perShard)
  {
    assert MarkFits(k < |l.started|, l.queue == [], l.marks[targets[k]]);
    CountFlip(l.marks, targets, k, Finished(res));
    PositiveCount(l.marks, targets, k);
  }

  lemma {:induction false} PositiveCount(marks: map<Id, Mark>, ids: seq<Id>, k: nat)
    requires k < |ids| && ids[k] in marks && marks[ids[k]].Running?
    ensures CountRunning(marks, ids) > 0
  {
    if k > 0 {
      assert ids[1..][k-1] == ids[k];
      PositiveCount(marks, ids[1..], k - 1);
    }
  }

  /** A target is in the queue exactly when it is marked queued. */
  lemma QueuedIff(targets: seq<Id>, l: Lane, i: nat)
    requires Placed(targets, l) && i < |targets| && DistinctIds(targets)
    ensures targets[i] in l.queue <==> l.marks[targets[i]].Queued?
  {
    var a := |l.started|;
    assert MarkFits(i < a, l.queue == [], l.marks[targets[i]]);
    if i >= a && l.queue != [] {
      assert l.queue[i-a] == targets[i];
    }
    if targets[i] in l.queue {
      var j :| 0 <= j < |l.queue| && l.queue[j] == targets[i];
      assert l.queue[j] == targets[a+j];
    }
  }

  lemma GiveUpOk(targets: seq<Id>, l: Lane, perShard: nat, why: Why)
    requires LaneOk(targets, l, perShard)
    ensures LaneOk(targets, GivenUp(l, why), perShard)
  {
    var t := GivenUp(l, why);
    forall i | 0 <= i < |targets|
      ensures targets[i] in t.marks && MarkFits(i < |t.started|, true, t.marks[targets[i]])
      ensures t.marks[targets[i]].Running? <==> l.marks[targets[i]].Running?
    {
      QueuedIff(targets, l, i);
      assert MarkFits(i < |l.started|, l.queue == [], l.marks[targets[i]]);
    }
    CountFrame(l.marks, t.marks, targets);
  }

  /** Landing and counting keep a shard in order, and a counted failure raises the counter by one at most. */
  lemma DoneLaneOk(targets: seq<Id>, l: Lane, perShard: nat, k: nat, res: Result)
    requires LaneOk(targets, l, perShard) && k < |targets| && l.marks[targets[k]].Running?
    ensures l.inflight > 0
    ensures var t := Counted(Landed(l, targets[k], res), res);
            && LaneOk(targets, t, perShard) && t.inflight == l.inflight - 1
            && (!(res.kind.Failed? && res.conn.NoConn?) ==> t.consecutive <= l.consecutive)
  {
    LandOk(targets, l, perShard, k, res);
    var t := Landed(l, targets[k], res);
    assert t.completed[..|t.completed|-1] == l.completed;
    if res.conn.ShardConn? {
      GiveUpOk(targets, t, perShard, ShardUnreachable);
    }
  }

  // ---------------------------------------------------------------------------------------
  // The whole stage.
  // ---------------------------------------------------------------------------------------

  /** The selected targets, by shard, in order. */
  type Targets = map<Shard, seq<Id>>

  predicate LanesOk(all: Targets, lanes: map<Shard, Lane>, perShard: nat) {
    lanes.Keys == all.Keys && forall sh :: sh in all ==> LaneOk(all[sh], lanes[sh], perShard)
  }

  predicate Drained(lanes: map<Shard, Lane>) {
    forall sh :: sh in lanes ==> lanes[sh].queue == []
  }

  /** No shard's counter has reached the limit. */
  predicate Below(lanes: map<Shard, Lane>, maxFailures: nat) {
    forall sh :: sh in lanes ==> lanes[sh].consecutive < maxFailures
  }

  /** What a stop means: the queues are empty; until one, with --keep-going, the counters are below the limit. */
  predicate StopOk(st: Stage) {
    if st.stop.Some? then Drained(st.lanes) else st.keepGoing ==> Below(st.lanes, st.maxFailures)
  }

  predicate Inv(all: Targets, st: Stage, jobs: nat, perShard: nat) {
    LanesOk(all, st.lanes, perShard) && StopOk(st) && Flying(st.lanes) <= jobs
  }

  lemma {:induction false} TotalUpdate(order: seq<Shard>, inflight: map<Shard, nat>, sh: Shard, v: nat)
    requires Distinct(order)
    ensures Total(order, inflight[sh := v]) ==
              Total(order, inflight) + (if sh in order then v - Get(inflight, sh) else 0)
  {
    if order != [] {
      TotalUpdate(order[1..], inflight, sh, v);
    }
  }

  lemma FlyingUpdate(lanes: map<Shard, Lane>, sh: Shard, l: Lane)
    requires sh in lanes
    ensures Flying(lanes[sh := l]) == Flying(lanes) + l.inflight - lanes[sh].inflight
  {
    assert lanes[sh := l].Keys == lanes.Keys;
    assert Inflight(lanes[sh := l]) == Inflight(lanes)[sh := l.inflight];
    SortedSpec(lanes.Keys);
    TotalUpdate(Sorted(lanes.Keys), Inflight(lanes), sh, l.inflight);
  }

  lemma LanesUpdate(all: Targets, lanes: map<Shard, Lane>, perShard: nat, sh: Shard, l: Lane)
    requires LanesOk(all, lanes, perShard) && sh in all && LaneOk(all[sh], l, perShard)
    ensures LanesOk(all, lanes[sh := l], perShard)
  {
    var t := lanes[sh := l];
    forall s | s in all
      ensures LaneOk(all[s], t[s], perShard)
    {
      if s == sh {
      } else {
        assert LaneOk(all[s], lanes[s], perShard);
      }
    }
  }

  function AllGivenUp(lanes: map<Shard, Lane>): map<Shard, Lane> {
    map sh | sh in lanes :: GivenUp(lanes[sh], Stopped)
  }

  lemma GiveUpLanes(all: Targets, lanes: map<Shard, Lane>, perShard: nat)
    requires LanesOk(all, lanes, perShard)
    ensures LanesOk(all, AllGivenUp(lanes), perShard)
  {
    var t := AllGivenUp(lanes);
    forall sh | sh in all
      ensures LaneOk(all[sh], t[sh], perShard)
    {
      GiveUpOk(all[sh], lanes[sh], perShard, Stopped);
    }
  }

  lemma GiveUpFlying(lanes: map<Shard, Lane>)
    ensures Flying(AllGivenUp(lanes)) == Flying(lanes) && Drained(AllGivenUp(lanes))
  {
    assert AllGivenUp(lanes).Keys == lanes.Keys;
    assert Inflight(AllGivenUp(lanes)) == Inflight(lanes);
  }

  lemma HaltKeeps(all: Targets, st: Stage, jobs: nat, perShard: nat, stop: Stop, override: bool)
    requires LanesOk(all, st.lanes, perShard) && Flying(st.lanes) <= jobs
    ensures Inv(all, Halt(st, stop, override), jobs, perShard)
  {
    GiveUpLanes(all, st.lanes, perShard);
    GiveUpFlying(st.lanes);
  }

  /** next() starts the head of an eligible shard's queue, or nothing. */
  lemma NextStarts(st: Stage, jobs: nat, perShard: nat)
    ensures var (t, e) := Next(st, jobs, perShard);
            if e.None? then t == st
            else
              var sh := e.value.0;
              && st.stop.None? && sh in st.lanes && st.lanes[sh].queue != [] && st.lanes[sh].inflight < perShard
              && Flying(st.lanes) < jobs && e.value.1 == st.lanes[sh].queue[0]
              && t == st.(last := Some(sh), lanes := st.lanes[sh := Launched(st.lanes[sh])])
  {
    PickedLane(st.lanes, jobs, perShard, st.last);
  }

  lemma LaunchKeeps(all: Targets, st: Stage, jobs: nat, perShard: nat, sh: Shard)
    requires Inv(all, st, jobs, perShard) && st.stop.None? && sh in st.lanes
    requires st.lanes[sh].queue != [] && st.lanes[sh].inflight < perShard && Flying(st.lanes) < jobs
    ensures Inv(all, st.(last := Some(sh), lanes := st.lanes[sh := Launched(st.lanes[sh])]), jobs, perShard)
  {
    var l := st.lanes[sh];
    assert LaneOk(all[sh], l, perShard);
    LaunchOk(all[sh], l, perShard);
    LanesUpdate(all, st.lanes, perShard, sh, Launched(l));
    FlyingUpdate(st.lanes, sh, Launched(l));
  }

  lemma NextKeeps(all: Targets, st: Stage, jobs: nat, perShard: nat)
    requires Inv(all, st, jobs, perShard)
    ensures Inv(all, Next(st, jobs, perShard).0, jobs, perShard)
  {
    NextStarts(st, jobs, perShard);
    var e := Next(st, jobs, perShard).1;
    if e.Some? {
      LaunchKeeps(all, st, jobs, perShard, e.value.0);
    }
  }

  /** A running target, by its position in its shard. */
  predicate InFlight(all: Targets, st: Stage, sh: Shard, k: nat) {
    && sh in all && k < |all[sh]| && sh in st.lanes
    && all[sh][k] in st.lanes[sh].marks && st.lanes[sh].marks[all[sh][k]].Running?
  }

  /** The first half of done(): the count, the counter and, for an unreachable shard, its queue. */
  lemma LandKeeps(all: Targets, st: Stage, jobs: nat, perShard: nat, sh: Shard, k: nat, res: Result)
    requires Inv(all, st, jobs, perShard) && InFlight(all, st, sh, k)
    ensures st.lanes[sh].inflight > 0
    ensures var l := Counted(Landed(st.lanes[sh], all[sh][k], res), res);
            && LanesOk(all, st.lanes[sh := l], perShard) && Flying(st.lanes[sh := l]) < jobs
            && (!(res.kind.Failed? && res.conn.NoConn?) ==> l.consecutive <= st.lanes[sh].consecutive)
            && (st.stop.Some? ==> l.queue == [])
  {
    assert LaneOk(all[sh], st.lanes[sh], perShard);
    DoneLaneOk(all[sh], st.lanes[sh], perShard, k, res);
    var l := Counted(Landed(st.lanes[sh], all[sh][k], res), res);
    LanesUpdate(all, st.lanes, perShard, sh, l);
    FlyingUpdate(st.lanes, sh, l);
  }

  lemma JudgedKeeps(all: Targets, st: Stage, jobs: nat, perShard: nat, sh: Shard, res: Result)
    requires LanesOk(all, st.lanes, perShard) && Flying(st.lanes) <= jobs && sh in st.lanes
    requires Judged(st, sh, res) == st ==> StopOk(st)
    ensures Inv(all, Judged(st, sh, res), jobs, perShard)
  {
    HaltKeeps(all, st, jobs, perShard, DefaultUnreachable, false);
    HaltKeeps(all, st, jobs, perShard, FailFast, false);
    HaltKeeps(all, st, jobs, perShard, MaxFailures(sh), false);
  }

  lemma DoneKeeps(all: Targets, st: Stage, jobs: nat, perShard: nat, sh: Shard, k: nat, res: Result)
    requires Inv(all, st, jobs, perShard) && InFlight(all, st, sh, k)
    ensures st.lanes[sh].inflight > 0 && jobs > 0
    ensures Inv(all, Done(st, sh, all[sh][k], res), jobs - 1, perShard)
  {
    LandKeeps(all, st, jobs, perShard, sh, k, res);
    var next := st.(lanes := st.lanes[sh := Counted(Landed(st.lanes[sh], all[sh][k], res), res)]);
    StopKept(st, next, sh, res);
    JudgedKeeps(all, next, jobs - 1, perShard, sh, res);
  }

  lemma StopKept(st: Stage, next: Stage, sh: Shard, res: Result)
    requires StopOk(st) && sh in st.lanes && sh in next.lanes && next == st.(lanes := st.lanes[sh := next.lanes[sh]])
    requires !(res.kind.Failed? && res.conn.NoConn?) ==> next.lanes[sh].consecutive <= st.lanes[sh].consecutive
    requires st.stop.Some? ==> next.lanes[sh].queue == []
    ensures Judged(next, sh, res) == next ==> StopOk(next)
  {
    if Judged(next, sh, res) == next && next.stop.None? && st.keepGoing {
      assert next.lanes[sh].consecutive < st.maxFailures;
    }
  }
}
