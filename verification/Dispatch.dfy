/**
 * The calendar fan-out. Cron and time zones are reduced to the set of instants at which an
 * entry occurs for a tenant; a tick looks at the latest occurrence before it and dispatches it
 * when the tenant's watermark is older and the occurrence is at most `grace` old.
 */
module Dispatch {
  import opened Types
  import opened Watermark

  type Occurrences = int -> bool

  /** croniter.get_prev: the latest occurrence strictly before `now`. */
  ghost predicate IsPrev(occ: Occurrences, now: int, o: int) {
    occ(o) && o < now && forall p :: occ(p) && p < now ==> p <= o
  }

  /** The due check of one tenant. */
  predicate Due(prev: int, last: Option<int>, now: int, grace: int) {
    (last.None? || last.value < prev) && now - prev <= grace
  }

  // ---------------------------------------------------------------------------------------
  // The wave.
  // ---------------------------------------------------------------------------------------

  /** A tenant with its latest occurrence; None when its time zone is invalid. */
  datatype TenantTick = TenantTick(schema: string, prev: Option<int>)

  function LastOf(last: map<string, int>, schema: string): Option<int> {
    if schema in last then Some(last[schema]) else None
  }

  /** Positions in increasing order, each once. */
  predicate Rising(ks: seq<nat>) {
    forall a, b :: 0 <= a < b < |ks| ==> ks[a] < ks[b]
  }

  lemma RisingAppend(ks: seq<nat>, n: nat)
    requires Rising(ks) && forall k :: k in ks ==> k < n
    ensures Rising(ks + [n])
  {
    forall a, b | 0 <= a < b < |ks + [n]|
      ensures (ks + [n])[a] < (ks + [n])[b]
    {
      if b == |ks| {
        assert ks[a] in ks;
      }
    }
  }

  /** Tenant i has an occurrence newer than its watermark; its time zone is valid. */
  predicate Fresh(last: map<string, int>, t: TenantTick) {
    t.prev.Some? && (t.schema in last ==> last[t.schema] < t.prev.value)
  }

  /** `due` lists, once and in order, the tenants with a newer occurrence within grace; `at` are their positions. */
  predicate ListsDue(last: map<string, int>, tenants: seq<TenantTick>, now: int, grace: int, due: seq<string>,
                     at: seq<nat>) {
    && Rising(at) && |due| == |at|
    && (forall k :: 0 <= k < |due| ==> at[k] < |tenants| && due[k] == tenants[at[k]].schema)
    && (forall k :: 0 <= k < |at| ==> Fresh(last, tenants[at[k]]) && now - tenants[at[k]].prev.value <= grace)
    && (forall i: nat :: i < |tenants| && Fresh(last, tenants[i]) && now - tenants[i].prev.value <= grace ==> i in at)
  }

  /** `dropped` lists those between grace and twice grace that have run before. */
  predicate ListsDropped(last: map<string, int>, tenants: seq<TenantTick>, now: int, grace: int,
                         dropped: seq<string>, at: seq<nat>) {
    && Rising(at) && |dropped| == |at|
    && (forall k :: 0 <= k < |dropped| ==> at[k] < |tenants| && dropped[k] == tenants[at[k]].schema)
    && (forall k :: 0 <= k < |at| ==> Late(last, tenants[at[k]], now, grace))
    && (forall i: nat :: i < |tenants| && Late(last, tenants[i], now, grace) ==> i in at)
  }

  predicate Late(last: map<string, int>, t: TenantTick, now: int, grace: int) {
    Fresh(last, t) && t.schema in last && grace < now - t.prev.value <= 2 * grace
  }

  /** _due_by_tenant_tz */
  method DueByTenantTz(last: map<string, int>, tenants: seq<TenantTick>, now: int, grace: int)
    returns (due: seq<string>, dropped: seq<string>)
    ensures exists at :: ListsDue(last, tenants, now, grace, due, at)
    ensures exists at :: ListsDropped(last, tenants, now, grace, dropped, at)
  {
    due, dropped := [], [];
    ghost var dueAt: seq<nat>, droppedAt: seq<nat> := [], [];
    for n := 0 to |tenants|
      invariant ListsDue(last, tenants[..n], now, grace, due, dueAt)
      invariant ListsDropped(last, tenants[..n], now, grace, dropped, droppedAt)
    {
      var t := tenants[n];
      ghost var seen := tenants[..n];
      assert tenants[..n+1] == seen + [t];
      if t.prev.None? {
        NobodyListed(last, seen, t, now, grace, due, dueAt, dropped, droppedAt);
        continue;
      }
      var fire, elapsed := t.prev.value, now - t.prev.value;
      if t.schema in last && fire <= last[t.schema] {
        NobodyListed(last, seen, t, now, grace, due, dueAt, dropped, droppedAt);
        continue;
      }
      if elapsed <= grace {
        DueListed(last, seen, t, now, grace, due, dueAt);
        NotDropped(last, seen, t, now, grace, dropped, droppedAt);
        due, dueAt := due + [t.schema], dueAt + [n];
      } else if t.schema in last && elapsed <= 2 * grace {
        NotDue(last, seen, t, now, grace, due, dueAt);
        DroppedListed(last, seen, t, now, grace, dropped, droppedAt);
        dropped, droppedAt := dropped + [t.schema], droppedAt + [n];
      } else {
        NobodyListed(last, seen, t, now, grace, due, dueAt, dropped, droppedAt);
      }
    }
    assert tenants[..|tenants|] == tenants;
  }

  lemma NobodyListed(last: map<string, int>, seen: seq<TenantTick>, t: TenantTick, now: int, grace: int,
                     due: seq<string>, dueAt: seq<nat>, dropped: seq<string>, droppedAt: seq<nat>)
    requires ListsDue(last, seen, now, grace, due, dueAt) && ListsDropped(last, seen, now, grace, dropped, droppedAt)
    requires !(Fresh(last, t) && now - t.prev.value <= grace) && !Late(last, t, now, grace)
    ensures ListsDue(last, seen + [t], now, grace, due, dueAt)
    ensures ListsDropped(last, seen + [t], now, grace, dropped, droppedAt)
  {
    NotDue(last, seen, t, now, grace, due, dueAt);
    NotDropped(last, seen, t, now, grace, dropped, droppedAt);
  }

  lemma NotDue(last: map<string, int>, seen: seq<TenantTick>, t: TenantTick, now: int, grace: int, due: seq<string>,
               at: seq<nat>)
    requires ListsDue(last, seen, now, grace, due, at) && !(Fresh(last, t) && now - t.prev.value <= grace)
    ensures ListsDue(last, seen + [t], now, grace, due, at)
  {
    assert forall i :: 0 <= i < |seen| ==> (seen + [t])[i] == seen[i];
  }

  lemma DueListed(last: map<string, int>, seen: seq<TenantTick>, t: TenantTick, now: int, grace: int,
                  due: seq<string>, at: seq<nat>)
    requires ListsDue(last, seen, now, grace, due, at) && Fresh(last, t) && now - t.prev.value <= grace
    ensures ListsDue(last, seen + [t], now, grace, due + [t.schema], at + [|seen|])
  {
    assert forall i :: 0 <= i < |seen| ==> (seen + [t])[i] == seen[i];
    RisingAppend(at, |seen|);
    assert forall i :: i in at ==> i in at + [|seen|];
  }

  lemma NotDropped(last: map<string, int>, seen: seq<TenantTick>, t: TenantTick, now: int, grace: int,
                   dropped: seq<string>, at: seq<nat>)
    requires ListsDropped(last, seen, now, grace, dropped, at) && !Late(last, t, now, grace)
    ensures ListsDropped(last, seen + [t], now, grace, dropped, at)
  {
    assert forall i :: 0 <= i < |seen| ==> (seen + [t])[i] == seen[i];
  }

  lemma DroppedListed(last: map<string, int>, seen: seq<TenantTick>, t: TenantTick, now: int, grace: int,
                      dropped: seq<string>, at: seq<nat>)
    requires ListsDropped(last, seen, now, grace, dropped, at) && Late(last, t, now, grace)
    ensures ListsDropped(last, seen + [t], now, grace, dropped + [t.schema], at + [|seen|])
  {
    assert forall i :: 0 <= i < |seen| ==> (seen + [t])[i] == seen[i];
    RisingAppend(at, |seen|);
    assert forall i :: i in at ==> i in at + [|seen|];
  }

  /** The due check of the list is the one the count theorems are about. */
  lemma DueIsDue(last: map<string, int>, t: TenantTick, now: int, grace: int)
    ensures Fresh(last, t) && now - t.prev.value <= grace <==>
              t.prev.Some? && Due(t.prev.value, LastOf(last, t.schema), now, grace)
  {
  }

  function Flatten(batches: seq<seq<string>>): seq<string> {
    if batches == [] then [] else Flatten(batches[..|batches|-1]) + batches[|batches|-1]
  }

  lemma FlattenAppend(batches: seq<seq<string>>, b: seq<string>)
    ensures Flatten(batches + [b]) == Flatten(batches) + b
  {
    assert (batches + [b])[..|batches|] == batches;
  }

  lemma OneMore(n: nat, k: nat)
    ensures (n + 1) * k == n * k + k
  {
  }

  /** _fan_out: every due schema in exactly one batch, in order, none empty or oversized. */
  method FanOut(due: seq<string>, batchSize: nat) returns (batches: seq<seq<string>>)
    requires batchSize > 0
    ensures Flatten(batches) == due
    ensures forall b :: 0 <= b < |batches| ==> 0 < |batches[b]| <= batchSize
    ensures |batches| == (|due| + batchSize - 1) / batchSize
  {
    batches := [];
    var i := 0;
    while i < |due|
      invariant 0 <= i && i == |batches| * batchSize
      invariant Flatten(batches) == due[..if i < |due| then i else |due|]
      invariant forall b :: 0 <= b < |batches| ==> 0 < |batches[b]| <= batchSize
      invariant i < |due| + batchSize
    {
      var end := if i + batchSize < |due| then i + batchSize else |due|;
      assert due[..end] == due[..i] + due[i..end];
      FlattenAppend(batches, due[i..end]);
      OneMore(|batches|, batchSize);
      batches := batches + [due[i..end]];
      i := i + batchSize;
    }
    CeilingIs(|due|, batchSize, |batches|);
  }

  lemma MulMono(a: int, b: int, size: int)
    requires a <= b && size > 0
    ensures a * size <= b * size
  {
  }

  lemma CeilingIs(n: nat, size: nat, k: nat)
    requires size > 0 && n <= k * size < n + size
    ensures k == (n + size - 1) / size
  {
    var q := (n + size - 1) / size;
    assert q * size <= n + size - 1 < q * size + size;
    if k < q {
      MulMono(k, q - 1, size);
    } else if k > q {
      MulMono(q + 1, k, size);
    }
  }

  /** What send_task does for one schema: delivered, broker lost, or not sendable at all. */
  datatype Send = Sent | BrokerLost | NotSendable

  /** The later of a row's value and ts. */
  function Latest(rows: Rows, r: RowId, ts: int): int {
    if r in rows && ts <= rows[r] then rows[r] else ts
  }

  /**
   * sub_dispatch: marks exactly the schemas that a send delivered, after sending; `sentAt` are the positions of
   * the delivered sends. A lost broker leaves its schema to the next tick; an error that is not the broker's
   * re-raises and marks nothing.
   */
  method SubDispatch(db: TaskRuns, task: string, sig: string, schemas: seq<string>, sends: seq<Send>,
                     runTs: Option<int>)
    returns (sent: seq<string>, raised: bool, ghost sentAt: seq<nat>)
    requires |schemas| == |sends|
    modifies db
    ensures raised <==> exists i :: 0 <= i < |sends| && sends[i].NotSendable?
    ensures raised || runTs.None? ==> db.rows == old(db.rows)
    ensures !raised ==> Rising(sentAt) && |sent| == |sentAt|
    ensures !raised ==> forall i: nat :: i in sentAt <==> i < |sends| && sends[i].Sent?
    ensures !raised ==> forall k :: 0 <= k < |sent| ==> sentAt[k] < |schemas| && sent[k] == schemas[sentAt[k]]
    ensures !raised && runTs.Some? ==> forall i :: 0 <= i < |schemas| && sends[i].Sent? ==>
              && RowId(task, sig, schemas[i]) in db.rows
              && db.rows[RowId(task, sig, schemas[i])] ==
                  Latest(old(db.rows), RowId(task, sig, schemas[i]), runTs.value)
    ensures forall r :: r in old(db.rows) ==> r in db.rows
    ensures forall r :: r in db.rows && !(r.task == task && r.sig == sig && Delivered(schemas, sends, r.schema)) ==>
              r in old(db.rows) && db.rows[r] == old(db.rows)[r]
  {
    sent, raised, sentAt := [], false, [];
    for n := 0 to |schemas|
      invariant Rising(sentAt) && |sent| == |sentAt|
      invariant forall i: nat :: i in sentAt <==> i < n && sends[i].Sent?
      invariant forall k :: 0 <= k < |sent| ==> sentAt[k] < n && sent[k] == schemas[sentAt[k]]
      invariant forall j :: 0 <= j < n ==> !sends[j].NotSendable?
      invariant db.rows == old(db.rows)
    {
      if sends[n].Sent? {
        RisingAppend(sentAt, n);
        sent, sentAt := sent + [schemas[n]], sentAt + [n];
      } else if sends[n].NotSendable? {
        raised := true;
        return;
      }
    }
    SentIsDelivered(schemas, sends, sent, sentAt);
    if runTs.Some? && sent != [] {
      db.MarkRan(task, sig, sent, runTs.value);
    }
  }

  /** Some send delivered the schema. */
  predicate Delivered(schemas: seq<string>, sends: seq<Send>, s: string)
    requires |schemas| == |sends|
  {
    exists i :: 0 <= i < |schemas| && schemas[i] == s && sends[i].Sent?
  }

  lemma SentIsDelivered(schemas: seq<string>, sends: seq<Send>, sent: seq<string>, sentAt: seq<nat>)
    requires |schemas| == |sends| && |sent| == |sentAt|
    requires forall i: nat :: i in sentAt <==> i < |sends| && sends[i].Sent?
    requires forall k :: 0 <= k < |sent| ==> sentAt[k] < |schemas| && sent[k] == schemas[sentAt[k]]
    ensures forall s :: s in sent <==> Delivered(schemas, sends, s)
    ensures forall i :: 0 <= i < |schemas| && sends[i].Sent? ==> schemas[i] in sent
  {
    forall i | 0 <= i < |schemas| && sends[i].Sent?
      ensures schemas[i] in sent
    {
      assert i in sentAt;
      var k :| 0 <= k < |sentAt| && sentAt[k] == i;
      assert sent[k] == schemas[i];
    }
    forall s | s in sent
      ensures Delivered(schemas, sends, s)
    {
      var k :| 0 <= k < |sent| && sent[k] == s;
      assert sentAt[k] in sentAt;
    }
  }

  // ---------------------------------------------------------------------------------------
  // How often an occurrence is dispatched to one tenant.
  // ---------------------------------------------------------------------------------------

  /** The ticks of one entry for one tenant, the occurrence each sees, the watermark each reads. */
  datatype Log = Log(ticks: seq<int>, prevs: seq<int>, lasts: seq<Option<int>>, grace: int) {
    predicate Shaped() {
      |ticks| == |prevs| == |lasts|
    }
  }

  ghost predicate Ticks(occ: Occurrences, g: Log) {
    && g.Shaped()
    && (forall i, j :: 0 <= i < j < |g.ticks| ==> g.ticks[i] < g.ticks[j])
    && (forall i :: 0 <= i < |g.ticks| ==> IsPrev(occ, g.ticks[i], g.prevs[i]))
  }

  predicate DueAt(g: Log, i: nat)
    requires g.Shaped() && i < |g.ticks|
  {
    Due(g.prevs[i], g.lasts[i], g.ticks[i], g.grace)
  }

  predicate Dispatches(g: Log, o: int, i: nat)
    requires g.Shaped() && i < |g.ticks|
  {
    g.prevs[i] == o && DueAt(g, i)
  }

  /** Dispatches of occurrence o among the first n ticks. */
  function Count(g: Log, o: int, n: nat): nat
    requires g.Shaped() && n <= |g.ticks|
  {
    if n == 0 then 0 else Count(g, o, n - 1) + (if Dispatches(g, o, n - 1) then 1 else 0)
  }

  /** Tick i + 1 reads what the wave of tick i marked. */
  predicate MarkedBy(g: Log, i: nat)
    requires g.Shaped() && i + 1 < |g.ticks|
  {
    g.lasts[i+1] == if DueAt(g, i) then Some(g.ticks[i]) else g.lasts[i]
  }

  /** Each wave marks before the next tick reads the watermark. */
  ghost predicate Prompt(g: Log)
    requires g.Shaped()
  {
    forall i: nat :: i + 1 < |g.ticks| ==> MarkedBy(g, i)
  }

  /** Tick i is the first one after o. */
  predicate FirstAfter(g: Log, o: int, i: nat) {
    i < |g.ticks| && o < g.ticks[i] && (i > 0 ==> g.ticks[i-1] <= o)
  }

  /** Tick i sees o in time, and no wave was stamped exactly o. */
  predicate CaughtAt(g: Log, o: int, i: nat)
    requires g.Shaped() && i < |g.ticks|
  {
    && g.prevs[i] == o && g.ticks[i] - o <= g.grace
    && !(i > 0 && g.ticks[i-1] == o && DueAt(g, i - 1))
  }

  /** Up to the first tick after o, every watermark is below o, unless a wave was stamped exactly o. */
  lemma {:induction false} WatermarkBelow(occ: Occurrences, g: Log, o: int, i: nat)
    requires Ticks(occ, g) && Prompt(g) && i < |g.ticks|
    requires g.lasts[0].Some? ==> g.lasts[0].value < o
    requires i > 0 ==> g.ticks[i-1] <= o
    ensures g.lasts[i].Some? ==> g.lasts[i].value <= o
    ensures g.lasts[i] == Some(o) ==> i > 0 && g.ticks[i-1] == o && DueAt(g, i - 1)
  {
    if i > 0 {
      assert i > 1 ==> g.ticks[i-2] < g.ticks[i-1];
      WatermarkBelow(occ, g, o, i - 1);
      assert MarkedBy(g, i - 1);
    }
  }

  /** A watermark at or above o stays there. */
  lemma {:induction false} WatermarkStays(occ: Occurrences, g: Log, o: int, i: nat, j: nat)
    requires Ticks(occ, g) && Prompt(g) && i <= j < |g.ticks|
    requires g.lasts[i].Some? && g.lasts[i].value >= o
    ensures g.lasts[j].Some? && g.lasts[j].value >= o
    decreases j
  {
    if i < j {
      WatermarkStays(occ, g, o, i, j - 1);
      assert MarkedBy(g, j - 1);
      assert IsPrev(occ, g.ticks[j-1], g.prevs[j-1]);
    }
  }

  /** Only the first tick after o can dispatch it, and it does exactly when it catches it. */
  lemma {:induction false} OnlyFirstTick(occ: Occurrences, g: Log, o: int, first: nat, i: nat)
    requires Ticks(occ, g) && Prompt(g) && FirstAfter(g, o, first) && i < |g.ticks|
    requires occ(o) && (g.lasts[0].Some? ==> g.lasts[0].value < o)
    ensures Dispatches(g, o, i) <==> i == first && CaughtAt(g, o, first)
  {
    assert IsPrev(occ, g.ticks[i], g.prevs[i]) && IsPrev(occ, g.ticks[first], g.prevs[first]);
    WatermarkBelow(occ, g, o, first);
    assert first > 0 ==> MarkedBy(g, first - 1);
    if i < first {
      assert g.ticks[i] <= g.ticks[first-1];
    } else if i > first && Dispatches(g, o, i) {
      assert g.ticks[first] < g.ticks[i];
      if g.lasts[first] == Some(o) {
        WatermarkStays(occ, g, o, first, i);
      } else {
        assert MarkedBy(g, first);
        WatermarkStays(occ, g, o, first + 1, i);
      }
    }
  }

  lemma {:induction false} CountOfOne(occ: Occurrences, g: Log, o: int, first: nat, n: nat)
    requires Ticks(occ, g) && Prompt(g) && FirstAfter(g, o, first) && n <= |g.ticks|
    requires occ(o) && (g.lasts[0].Some? ==> g.lasts[0].value < o)
    ensures Count(g, o, n) == if first < n && CaughtAt(g, o, first) then 1 else 0
    decreases n
  {
    if n > 0 {
      CountOfOne(occ, g, o, first, n - 1);
      OnlyFirstTick(occ, g, o, first, n - 1);
    }
  }

  /**
   * With waves that mark before the next tick, an occurrence is dispatched exactly once if and
   * only if the first tick after it still sees it, within grace, and no wave was stamped at
   * the very instant of the occurrence; otherwise it is never dispatched.
   */
  lemma {:induction false} ExactlyOnceIff(occ: Occurrences, g: Log, o: int, first: nat)
    requires Ticks(occ, g) && Prompt(g) && FirstAfter(g, o, first)
    requires occ(o) && (g.lasts[0].Some? ==> g.lasts[0].value < o)
    ensures Count(g, o, |g.ticks|) <= 1
    ensures Count(g, o, |g.ticks|) == 1 <==> CaughtAt(g, o, first)
  {
    CountOfOne(occ, g, o, first, |g.ticks|);
  }

  function Gap(g: Log, i: nat): int
    requires i + 1 < |g.ticks|
  {
    g.ticks[i+1] - g.ticks[i]
  }

  lemma {:induction false} FindFirstAfter(g: Log, o: int, n: nat) returns (first: nat)
    requires 0 < n < |g.ticks| && g.ticks[0] <= o < g.ticks[n]
    ensures 0 < first <= n && FirstAfter(g, o, first)
  {
    if g.ticks[n-1] <= o {
      first := n;
    } else {
      first := FindFirstAfter(g, o, n - 1);
    }
  }

  /**
   * The schedule the fan-out is meant to run under: ticks at most `grace` apart and at most
   * the gap between occurrences apart, none exactly on an occurrence. Then every occurrence
   * between the first and the last tick is dispatched exactly once.
   */
  lemma {:induction false} ExactlyOnce(occ: Occurrences, g: Log, o: int)
    requires Ticks(occ, g) && Prompt(g) && |g.ticks| > 1
    requires forall i :: 0 <= i < |g.ticks| ==> !occ(g.ticks[i])
    requires forall i: nat :: i + 1 < |g.ticks| ==> Gap(g, i) <= g.grace
    requires forall i: nat, p, q :: i + 1 < |g.ticks| && occ(p) && occ(q) && p < q ==> Gap(g, i) <= q - p
    requires occ(o) && g.ticks[0] < o < g.ticks[|g.ticks|-1] && (g.lasts[0].Some? ==> g.lasts[0].value < o)
    ensures Count(g, o, |g.ticks|) == 1
  {
    var first := FindFirstAfter(g, o, |g.ticks| - 1);
    assert IsPrev(occ, g.ticks[first], g.prevs[first]);
    assert Gap(g, first - 1) <= g.grace;
    ExactlyOnceIff(occ, g, o, first);
  }

  /** A tick exactly on an occurrence can hide it: its wave, late for the previous one, is stamped with it. */
  lemma BoundaryTickHides() returns (occ: Occurrences, g: Log)
    ensures Ticks(occ, g) && Prompt(g) && |g.ticks| == 2 && g.lasts[0] == None
    ensures Gap(g, 0) <= g.grace && occ(g.ticks[0]) && FirstAfter(g, g.ticks[0], 1)
    ensures Count(g, g.ticks[0], 2) == 0
  {
    occ := x => x == 0 || x == 100;
    g := Log([100, 160], [0, 100], [None, Some(100)], 100);
    assert DueAt(g, 0);
    CountOfOne(occ, g, 100, 1, 2);
  }

  // ---------------------------------------------------------------------------------------
  // Arbitrarily slow waves.
  // ---------------------------------------------------------------------------------------

  /** A tick after tick a comes at least a period later. */
  lemma LaterTick(g: Log, period: int, a: nat, b: nat, occ: Occurrences)
    requires Ticks(occ, g) && a < b < |g.ticks|
    requires forall i: nat :: i + 1 < |g.ticks| ==> Gap(g, i) >= period
    ensures g.ticks[b] >= g.ticks[a] + period
  {
    assert g.ticks[a] <= g.ticks[b-1];
    assert Gap(g, b - 1) >= period;
  }

  /** c periods. */
  function Periods(c: nat, period: int): int {
    if c == 0 then 0 else Periods(c - 1, period) + period
  }

  lemma {:induction false} PeriodsIs(c: nat, period: int)
    ensures Periods(c, period) == c * period
  {
    if c > 0 {
      PeriodsIs(c - 1, period);
      assert c * period == (c - 1) * period + period;
    }
  }

  lemma DispatchIsLater(occ: Occurrences, g: Log, o: int, b: nat)
    requires Ticks(occ, g) && b < |g.ticks| && Dispatches(g, o, b)
    ensures o < g.ticks[b] <= o + g.grace
  {
    assert IsPrev(occ, g.ticks[b], g.prevs[b]);
  }

  /** The c-th dispatch of o is more than (c - 1) periods after o. */
  lemma {:induction false} DispatchesSpread(occ: Occurrences, g: Log, o: int, period: int, n: nat) returns (b: nat)
    requires Ticks(occ, g) && n <= |g.ticks| && period > 0 && Count(g, o, n) > 0
    requires forall i: nat :: i + 1 < |g.ticks| ==> Gap(g, i) >= period
    ensures b < n && Dispatches(g, o, b)
    ensures g.ticks[b] > o + Periods(Count(g, o, n) - 1, period)
  {
    if !Dispatches(g, o, n - 1) {
      b := DispatchesSpread(occ, g, o, period, n - 1);
    } else {
      b := n - 1;
      DispatchIsLater(occ, g, o, b);
      if Count(g, o, n - 1) > 0 {
        var a := DispatchesSpread(occ, g, o, period, n - 1);
        LaterTick(g, period, a, b, occ);
      }
    }
  }

  /**
   * Whatever watermarks the ticks read, an occurrence is dispatched at most ceil(grace/period)
   * times when ticks are at least a period apart, and never more than grace late.
   */
  lemma {:induction false} DuplicatesBounded(occ: Occurrences, g: Log, o: int, period: int)
    requires Ticks(occ, g) && period > 0 && g.grace >= 0
    requires forall i: nat :: i + 1 < |g.ticks| ==> Gap(g, i) >= period
    ensures Count(g, o, |g.ticks|) <= (g.grace + period - 1) / period
    ensures forall i :: 0 <= i < |g.ticks| && Dispatches(g, o, i) ==> o < g.ticks[i] <= o + g.grace
  {
    forall i | 0 <= i < |g.ticks| && Dispatches(g, o, i)
      ensures o < g.ticks[i] <= o + g.grace
    {
      DispatchIsLater(occ, g, o, i);
    }
    var c := Count(g, o, |g.ticks|);
    if c > 0 {
      var b := DispatchesSpread(occ, g, o, period, |g.ticks|);
      PeriodsIs(c - 1, period);
      CeilingBound(g.grace, period, c);
    } else {
      CeilingBound(g.grace, period, 0);
    }
  }

  // ---------------------------------------------------------------------------------------
  // The bound is reached.
  // ---------------------------------------------------------------------------------------

  /** n ticks, a period apart, the first one just after instant 0; no wave has marked yet. */
  function SlowLog(n: nat, period: int, grace: int): Log {
    Log(seq(n, i requires 0 <= i < n => 1 + Periods(i, period)),
        seq(n, i requires 0 <= i < n => 0),
        seq(n, i requires 0 <= i < n => None),
        grace)
  }

  lemma {:induction false} PeriodsRise(i: nat, j: nat, period: int)
    requires i < j && period > 0
    ensures 0 <= Periods(i, period) && Periods(i, period) + period <= Periods(j, period)
  {
    if i + 1 < j {
      PeriodsRise(i, j - 1, period);
    } else {
      PeriodsIs(i, period);
    }
  }

  lemma SlowTicks(n: nat, period: int, grace: int)
    requires period > 0
    ensures var g := SlowLog(n, period, grace);
            Ticks(x => x == 0, g) && forall i: nat :: i + 1 < n ==> Gap(g, i) == period
  {
    var g := SlowLog(n, period, grace);
    forall i, j | 0 <= i < j < n
      ensures g.ticks[i] < g.ticks[j]
    {
      PeriodsRise(i, j, period);
    }
    forall i | 0 <= i < n
      ensures IsPrev(x => x == 0, g.ticks[i], g.prevs[i])
    {
      PeriodsRise(i, i + 1, period);
    }
  }

  lemma {:induction false} SlowCount(n: nat, period: int, grace: int, k: nat)
    requires period > 0 && k <= n && (k > 0 ==> 1 + Periods(k - 1, period) <= grace)
    ensures Count(SlowLog(n, period, grace), 0, k) == k
  {
    if k > 0 {
      if k > 1 {
        PeriodsRise(k - 2, k - 1, period);
      }
      SlowCount(n, period, grace, k - 1);
    }
  }

  /** For every grace and period there is a schedule that dispatches one occurrence ceil(grace / period) times. */
  lemma DuplicatesReached(grace: int, period: int) returns (occ: Occurrences, g: Log)
    requires grace > 0 && period > 0
    ensures Ticks(occ, g) && g.grace == grace && forall i: nat :: i + 1 < |g.ticks| ==> Gap(g, i) >= period
    ensures occ(0) && Count(g, 0, |g.ticks|) == (grace + period - 1) / period
  {
    var n := (grace + period - 1) / period;
    CeilingIsTight(grace, period, n);
    PeriodsIs(n - 1, period);
    occ, g := x => x == 0, SlowLog(n, period, grace);
    SlowTicks(n, period, grace);
    SlowCount(n, period, grace, n);
  }

  lemma CeilingIsTight(grace: int, period: int, n: int)
    requires grace > 0 && period > 0 && n == (grace + period - 1) / period
    ensures n >= 1 && (n - 1) * period < grace
  {
    assert n * period <= grace + period - 1 < n * period + period;
    if n < 1 {
      MulMono(n, 0, period);
    }
  }

  lemma CeilingBound(grace: nat, period: int, c: nat)
    requires period > 0 && (c > 0 ==> (c - 1) * period < grace)
    ensures c <= (grace + period - 1) / period
  {
    var q := (grace + period - 1) / period;
    assert q * period <= grace + period - 1 < q * period + period;
    if c > q {
      MulMono(q, c - 1, period);
    }
  }
}
