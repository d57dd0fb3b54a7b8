/** pick_next: round robin over the shards under a global and a per-shard limit, and its fairness. */
module PickNext {
  import opened Types
  import opened Ordering

  type Shard = string

  function Get(m: map<Shard, nat>, shard: Shard): nat {
    if shard in m then m[shard] else 0
  }

  /** sum(inflight.values()), shard by shard. */
  function Total(order: seq<Shard>, inflight: map<Shard, nat>): nat {
    if order == [] then 0 else Get(inflight, order[0]) + Total(order[1..], inflight)
  }

  predicate Eligible<E>(queues: map<Shard, seq<E>>, inflight: map<Shard, nat>, perShard: nat, shard: Shard) {
    shard in queues && queues[shard] != [] && Get(inflight, shard) < perShard
  }

  /** Position of a shard in the order, -1 for None. */
  function IndexOf(order: seq<Shard>, shard: Shard): (i: int)
    ensures -1 <= i < |order|
    ensures i >= 0 ==> order[i] == shard
    ensures i == -1 <==> shard !in order
  {
    if order == [] then -1
    else if order[0] == shard then 0
    else
      var i := IndexOf(order[1..], shard);
      if i == -1 then -1 else i + 1
  }

  /** order[i:] + order[:i] for i just past `after`. */
  function Rotated(order: seq<Shard>, after: Option<Shard>): seq<Shard> {
    if after.None? || after.value !in order then order
    else
      var i := IndexOf(order, after.value) + 1;
      order[i..] + order[..i]
  }

  function FirstEligible<E>(order: seq<Shard>, queues: map<Shard, seq<E>>, inflight: map<Shard, nat>,
                            perShard: nat): Option<Shard> {
    if order == [] then None
    else if Eligible(queues, inflight, perShard, order[0]) then Some(order[0])
    else FirstEligible(order[1..], queues, inflight, perShard)
  }

  function Pick<E>(queues: map<Shard, seq<E>>, inflight: map<Shard, nat>, jobs: nat, perShard: nat,
                   after: Option<Shard>): Option<Shard> {
    var order := Sorted(queues.Keys);
    if Total(Sorted(inflight.Keys), inflight) >= jobs then None
    else FirstEligible(Rotated(order, after), queues, inflight, perShard)
  }

  lemma {:induction false} FirstEligibleSpec<E>(order: seq<Shard>, queues: map<Shard, seq<E>>,
                                                inflight: map<Shard, nat>, perShard: nat)
    ensures match FirstEligible(order, queues, inflight, perShard)
            case None => forall s :: s in order ==> !Eligible(queues, inflight, perShard, s)
            case Some(p) =>
              && Eligible(queues, inflight, perShard, p)
              && exists k :: 0 <= k < |order| && order[k] == p
                             && forall j :: 0 <= j < k ==> !Eligible(queues, inflight, perShard, order[j])
  {
    if order != [] && !Eligible(queues, inflight, perShard, order[0]) {
      FirstEligibleSpec(order[1..], queues, inflight, perShard);
      var r := FirstEligible(order[1..], queues, inflight, perShard);
      if r.Some? {
        var k :| 0 <= k < |order[1..]| && order[1..][k] == r.value
                 && forall j :: 0 <= j < k ==> !Eligible(queues, inflight, perShard, order[1..][j]);
        assert order[k+1] == r.value;
        forall j | 0 <= j < k + 1
          ensures !Eligible(queues, inflight, perShard, order[j])
        {
          assert j > 0 ==> order[j] == order[1..][j-1];
        }
      }
    }
  }

  /** None exactly when the global limit is reached or no shard can give a target. */
  lemma {:induction false} PickNoneIff<E>(queues: map<Shard, seq<E>>, inflight: map<Shard, nat>, jobs: nat,
                                          perShard: nat, after: Option<Shard>)
    ensures Pick(queues, inflight, jobs, perShard, after).None? <==>
              || Total(Sorted(inflight.Keys), inflight) >= jobs
              || forall s :: s in queues && queues[s] != [] ==> Get(inflight, s) >= perShard
    ensures var r := Pick(queues, inflight, jobs, perShard, after);
            r.Some? ==> Eligible(queues, inflight, perShard, r.value) && Total(Sorted(inflight.Keys), inflight) < jobs
  {
    var order := Sorted(queues.Keys);
    SortedSpec(queues.Keys);
    FirstEligibleSpec(Rotated(order, after), queues, inflight, perShard);
    forall s | s in queues
      ensures s in Rotated(order, after)
    {
      RotatedAt(order, after, s);
    }
  }

  // ---------------------------------------------------------------------------------------
  // Fairness.
  // ---------------------------------------------------------------------------------------

  function AfterIndex(order: seq<Shard>, after: Option<Shard>): int {
    if after.None? then -1 else IndexOf(order, after.value)
  }

  /** How many shards the rotation visits before x when it starts after position a. */
  function Distance(n: int, a: int, x: int): int {
    if x > a then x - a - 1 else x - a - 1 + n
  }

  predicate Distinct(order: seq<Shard>) {
    forall i, j :: 0 <= i < j < |order| ==> order[i] != order[j]
  }

  lemma RotatedAt(order: seq<Shard>, after: Option<Shard>, x: Shard)
    requires x in order
    ensures |Rotated(order, after)| == |order|
    ensures var d := Distance(|order|, AfterIndex(order, after), IndexOf(order, x));
            0 <= d < |order| && Rotated(order, after)[d] == x
  {
  }

  /** Every element of the rotation sits at its distance. */
  lemma RotatedIndex(order: seq<Shard>, after: Option<Shard>, k: nat)
    requires Distinct(order) && k < |order|
    ensures |Rotated(order, after)| == |order| && Rotated(order, after)[k] in order
    ensures Distance(|order|, AfterIndex(order, after), IndexOf(order, Rotated(order, after)[k])) == k
  {
    var a := AfterIndex(order, after);
    if a != -1 {
      var i := if a + 1 + k < |order| then a + 1 + k else a + 1 + k - |order|;
      assert Rotated(order, after)[k] == order[i];
    }
    var x := Rotated(order, after)[k];
    assert order[IndexOf(order, x)] == x;
  }

  lemma PickedEarlier<E>(order: seq<Shard>, queues: map<Shard, seq<E>>, inflight: map<Shard, nat>, perShard: nat,
                         after: Option<Shard>, p: Shard, d: nat)
    requires Distinct(order) && d < |order| && |Rotated(order, after)| == |order|
    requires Eligible(queues, inflight, perShard, Rotated(order, after)[d]) && Rotated(order, after)[d] != p
    requires FirstEligible(Rotated(order, after), queues, inflight, perShard) == Some(p)
    ensures p in order && Distance(|order|, AfterIndex(order, after), IndexOf(order, p)) < d
  {
    var r := Rotated(order, after);
    FirstEligibleSpec(r, queues, inflight, perShard);
    var k :| 0 <= k < |r| && r[k] == p && forall j :: 0 <= j < k ==> !Eligible(queues, inflight, perShard, r[j]);
    RotatedIndex(order, after, k);
  }

  lemma DistanceShrinks(n: int, a: int, p: int, x: int)
    requires -1 <= a < n && 0 <= p < n && 0 <= x < n && Distance(n, a, p) < Distance(n, a, x)
    ensures Distance(n, p, x) < Distance(n, a, x)
  {
  }

  /** A pick that passes over an eligible shard brings the rotation strictly closer to it. */
  lemma PickApproaches<E>(order: seq<Shard>, queues: map<Shard, seq<E>>, inflight: map<Shard, nat>, perShard: nat,
                          after: Option<Shard>, p: Shard, x: Shard)
    requires Distinct(order) && x in order && p != x && Eligible(queues, inflight, perShard, x)
    requires FirstEligible(Rotated(order, after), queues, inflight, perShard) == Some(p)
    ensures Distance(|order|, AfterIndex(order, Some(p)), IndexOf(order, x)) <
              Distance(|order|, AfterIndex(order, after), IndexOf(order, x))
  {
    RotatedAt(order, after, x);
    var a, ix := AfterIndex(order, after), IndexOf(order, x);
    PickedEarlier(order, queues, inflight, perShard, after, p, Distance(|order|, a, ix));
    DistanceShrinks(|order|, a, IndexOf(order, p), ix);
  }

  /** The pick is the eligible shard that comes first after the one served last, in cyclic sorted order. */
  lemma PickIsNearest<E>(queues: map<Shard, seq<E>>, inflight: map<Shard, nat>, jobs: nat, perShard: nat,
                         after: Option<Shard>, x: Shard)
    requires Pick(queues, inflight, jobs, perShard, after).Some? && Eligible(queues, inflight, perShard, x)
    ensures var order, p := Sorted(queues.Keys), Pick(queues, inflight, jobs, perShard, after).value;
            && x in order && p in order
            && Distance(|order|, AfterIndex(order, after), IndexOf(order, p)) <=
                 Distance(|order|, AfterIndex(order, after), IndexOf(order, x))
  {
    var order, p := Sorted(queues.Keys), Pick(queues, inflight, jobs, perShard, after).value;
    SortedSpec(queues.Keys);
    PickNoneIff(queues, inflight, jobs, perShard, after);
    if p != x {
      RotatedAt(order, after, x);
      PickedEarlier(order, queues, inflight, perShard, after, p,
                    Distance(|order|, AfterIndex(order, after), IndexOf(order, x)));
    }
  }

  /** One successful pick: what it saw and what it chose. */
  datatype Choice<E> = Choice(queues: map<Shard, seq<E>>, inflight: map<Shard, nat>, chosen: Shard)

  /** The shard the i-th pick starts after. */
  function LastServed<E>(after: Option<Shard>, picks: seq<Choice<E>>, i: nat): Option<Shard>
    requires i <= |picks|
  {
    if i == 0 then after else Some(picks[i-1].chosen)
  }

  predicate ChosenInOrder<E>(order: seq<Shard>, perShard: nat, after: Option<Shard>, picks: seq<Choice<E>>, i: nat)
    requires i < |picks|
  {
    FirstEligible(Rotated(order, LastServed(after, picks, i)), picks[i].queues, picks[i].inflight, perShard) ==
        Some(picks[i].chosen)
  }

  predicate EligibleAt<E>(picks: seq<Choice<E>>, perShard: nat, x: Shard, i: nat)
    requires i < |picks|
  {
    Eligible(picks[i].queues, picks[i].inflight, perShard, x)
  }

  lemma {:induction false} ChosenWithin<E>(order: seq<Shard>, perShard: nat, after: Option<Shard>,
                                           picks: seq<Choice<E>>, x: Shard, i: nat)
    requires Distinct(order) && x in order && i <= |picks|
    requires forall j: nat :: j < |picks| ==>
              ChosenInOrder(order, perShard, after, picks, j) && EligibleAt(picks, perShard, x, j)
    requires |picks| - i > Distance(|order|, AfterIndex(order, LastServed(after, picks, i)), IndexOf(order, x))
    ensures exists j :: i <= j < |picks| && picks[j].chosen == x
    decreases |picks| - i
  {
    RotatedAt(order, LastServed(after, picks, i), x);
    assert ChosenInOrder(order, perShard, after, picks, i) && EligibleAt(picks, perShard, x, i);
    if picks[i].chosen != x {
      PickApproaches(order, picks[i].queues, picks[i].inflight, perShard, LastServed(after, picks, i),
                     picks[i].chosen, x);
      ChosenWithin(order, perShard, after, picks, x, i + 1);
    }
  }

  /**
   * Round-robin fairness. Between the picks queues and counters may change in any way; the
   * shards stay the same. A shard eligible at |shards| consecutive successful picks, each
   * starting after the shard served before, is chosen at one of them.
   */
  lemma {:induction false} Fairness<E>(keys: set<Shard>, jobs: nat, perShard: nat, after: Option<Shard>,
                                       picks: seq<Choice<E>>, x: Shard)
    requires x in keys && |picks| >= |keys|
    requires forall j :: 0 <= j < |picks| ==> picks[j].queues.Keys == keys
    requires forall j :: 0 <= j < |picks| ==>
               Pick(picks[j].queues, picks[j].inflight, jobs, perShard, LastServed(after, picks, j)) ==
                   Some(picks[j].chosen)
    requires forall j :: 0 <= j < |picks| ==> Eligible(picks[j].queues, picks[j].inflight, perShard, x)
    ensures exists j :: 0 <= j < |picks| && picks[j].chosen == x
  {
    var order := Sorted(keys);
    SortedSpec(keys);
    forall j: nat | j < |picks|
      ensures ChosenInOrder(order, perShard, after, picks, j) && EligibleAt(picks, perShard, x, j)
    {
      assert picks[j].queues.Keys == keys;
    }
    RotatedAt(order, after, x);
    ChosenWithin(order, perShard, after, picks, x, 0);
  }
}
