/**
 * TaskRun.mark_ran: two statements without a transaction, an insert that leaves existing rows
 * alone and an update that only advances. Any number of calls interleave statement by
 * statement, and a call may be repeated.
 */
module Watermark {
  /** A schedule entry (task, args signature) for one tenant schema. */
  datatype RowId = RowId(task: string, sig: string, schema: string)

  type Rows = map<RowId, int>

  /** INSERT ... ON CONFLICT DO NOTHING */
  function Inserted(rows: Rows, ids: set<RowId>, ts: int): Rows {
    map r | r in rows.Keys + ids :: if r in rows then rows[r] else ts
  }

  /** UPDATE ... SET last_run_at = ts WHERE id IN ids AND last_run_at < ts */
  function Advanced(rows: Rows, ids: set<RowId>, ts: int): Rows {
    map r | r in rows :: if r in ids && rows[r] < ts then ts else rows[r]
  }

  datatype MarkCall = MarkCall(ids: set<RowId>, ts: int)

  /** One statement of call number i. */
  datatype Statement = Insert(i: nat) | Advance(i: nat)

  predicate Schedule(calls: seq<MarkCall>, run: seq<Statement>) {
    forall k :: 0 <= k < |run| ==> run[k].i < |calls|
  }

  function Executed(rows: Rows, calls: seq<MarkCall>, st: Statement): Rows
    requires st.i < |calls|
  {
    var c := calls[st.i];
    if st.Insert? then Inserted(rows, c.ids, c.ts) else Advanced(rows, c.ids, c.ts)
  }

  /** The table after the first n statements. */
  function After(rows: Rows, calls: seq<MarkCall>, run: seq<Statement>, n: nat): Rows
    requires Schedule(calls, run) && n <= |run|
  {
    if n == 0 then rows else Executed(After(rows, calls, run, n - 1), calls, run[n-1])
  }

  /** No row disappears or moves back, whatever statements lie between. */
  lemma {:induction false} NeverBackward(rows: Rows, calls: seq<MarkCall>, run: seq<Statement>, m: nat, n: nat,
                                         r: RowId)
    requires Schedule(calls, run) && m <= n <= |run| && r in After(rows, calls, run, m)
    ensures r in After(rows, calls, run, n)
    ensures After(rows, calls, run, m)[r] <= After(rows, calls, run, n)[r]
    decreases n
  {
    if m < n {
      NeverBackward(rows, calls, run, m, n - 1, r);
    }
  }

  /** A row's value is the one it started with, or the run_ts of a call that named it and has begun. */
  lemma {:induction false} AlwaysSomeCall(rows: Rows, calls: seq<MarkCall>, run: seq<Statement>, n: nat, r: RowId)
    requires Schedule(calls, run) && n <= |run| && r in After(rows, calls, run, n)
    ensures (r in rows && After(rows, calls, run, n)[r] == rows[r])
            || (exists k :: 0 <= k < n && r in calls[run[k].i].ids
                            && After(rows, calls, run, n)[r] == calls[run[k].i].ts)
  {
    if n > 0 {
      var before := After(rows, calls, run, n - 1);
      var c := calls[run[n-1].i];
      if r in before && After(rows, calls, run, n)[r] == before[r] {
        AlwaysSomeCall(rows, calls, run, n - 1, r);
      } else {
        assert r in c.ids && After(rows, calls, run, n)[r] == c.ts;
      }
    }
  }

  /** Both statements of call i occur, in program order. */
  ghost predicate Completed(run: seq<Statement>, i: nat) {
    exists p, q :: 0 <= p < q < |run| && run[p] == Insert(i) && run[q] == Advance(i)
  }

  lemma {:induction false} CompletedDominates(rows: Rows, calls: seq<MarkCall>, run: seq<Statement>, i: nat, r: RowId)
    requires Schedule(calls, run) && i < |calls| && Completed(run, i) && r in calls[i].ids
    ensures r in After(rows, calls, run, |run|) && calls[i].ts <= After(rows, calls, run, |run|)[r]
  {
    var p, q :| 0 <= p < q < |run| && run[p] == Insert(i) && run[q] == Advance(i);
    assert r in After(rows, calls, run, p + 1);
    NeverBackward(rows, calls, run, p + 1, q, r);
    assert calls[i].ts <= After(rows, calls, run, q + 1)[r];
    NeverBackward(rows, calls, run, q + 1, |run|, r);
  }

  /**
   * Convergence: once every call that began has completed, each named row is the maximum of
   * its old value and of the run_ts of the calls that named it, under every interleaving.
   */
  lemma {:induction false} Convergence(rows: Rows, calls: seq<MarkCall>, run: seq<Statement>, r: RowId)
    requires Schedule(calls, run) && forall k :: 0 <= k < |run| ==> Completed(run, run[k].i)
    ensures forall k :: 0 <= k < |run| && r in calls[run[k].i].ids ==>
              r in After(rows, calls, run, |run|) && calls[run[k].i].ts <= After(rows, calls, run, |run|)[r]
    ensures r in rows ==> r in After(rows, calls, run, |run|) && rows[r] <= After(rows, calls, run, |run|)[r]
    ensures r in After(rows, calls, run, |run|) ==>
              (r in rows && After(rows, calls, run, |run|)[r] == rows[r])
              || (exists k :: 0 <= k < |run| && r in calls[run[k].i].ids
                              && After(rows, calls, run, |run|)[r] == calls[run[k].i].ts)
  {
    forall k | 0 <= k < |run| && r in calls[run[k].i].ids
      ensures r in After(rows, calls, run, |run|) && calls[run[k].i].ts <= After(rows, calls, run, |run|)[r]
    {
      CompletedDominates(rows, calls, run, run[k].i, r);
    }
    if r in rows {
      NeverBackward(rows, calls, run, 0, |run|, r);
    }
    if r in After(rows, calls, run, |run|) {
      AlwaysSomeCall(rows, calls, run, |run|, r);
    }
  }

  class TaskRuns {
    var rows: Rows

    constructor ()
      ensures rows == map[]
    {
      rows := map[];
    }

    /** load_map: the watermarks of one schedule entry. */
    method LoadMap(task: string, sig: string) returns (last: map<string, int>)
      ensures forall s :: s in last <==> RowId(task, sig, s) in rows
      ensures forall s :: s in last ==> last[s] == rows[RowId(task, sig, s)]
    {
      last := map r | r in rows && r.task == task && r.sig == sig :: r.schema := rows[r];
    }

    /** mark_ran; nothing happens for an empty batch. */
    method MarkRan(task: string, sig: string, schemas: seq<string>, ts: int)
      modifies this
      ensures forall s :: s in schemas ==> RowId(task, sig, s) in rows
      ensures forall r :: r in old(rows) ==> r in rows && old(rows)[r] <= rows[r]
      ensures forall r :: r in rows ==>
                rows[r] == if !(r.task == task && r.sig == sig && r.schema in schemas)
                    then (if r in old(rows) then old(rows)[r] else rows[r])
                           else if r in old(rows) && ts <= old(rows)[r] then old(rows)[r] else ts
      ensures forall r :: r in rows && r !in old(rows) ==> r.task == task && r.sig == sig && r.schema in schemas
    {
      if schemas == [] {
        return;
      }
      var ids := set s | s in schemas :: RowId(task, sig, s);
      rows := Inserted(rows, ids, ts);
      rows := Advanced(rows, ids, ts);
    }
  }
}
