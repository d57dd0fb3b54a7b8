/**
 * The tenant-resolution cache: host and schema keys, positive and negative entries, and the
 * hold marker (tombstone) that an invalidation leaves. A fill writes with NX, so it never
 * overwrites a live entry; an invalidation and the reconcile overwrite unconditionally.
 */
module SnapshotCache {
  import opened Types

  type Host = string

  /** host-snap:<host> and schema-snap:<schema>, two disjoint namespaces. */
  datatype Key = HostSnap(host: Host) | SchemaSnap(schema: string)

  /** What a key holds: some content, or the hold marker. */
  datatype Value<+V> = Filled(content: V) | Hold

  /** expires == None: no TTL. */
  datatype Entry<+V> = Entry(value: Value<V>, expires: Option<int>)

  predicate Live<V>(e: Entry<V>, now: int) {
    e.expires.Some? ==> now < e.expires.value
  }

  predicate LiveAt<V>(store: map<Key, Entry<V>>, now: int, key: Key) {
    key in store && Live(store[key], now)
  }

  function Expiry(now: int, ttl: Option<nat>): Option<int> {
    if ttl.None? then None else Some(now + ttl.value)
  }

  /** SET key value EX ttl NX */
  function SetNx<V>(store: map<Key, Entry<V>>, now: int, key: Key, content: V, ttl: Option<nat>): map<Key, Entry<V>> {
    if LiveAt(store, now, key) then store else store[key := Entry(Filled(content), Expiry(now, ttl))]
  }

  /** set_many of hold markers, or delete_many when the hold is switched off. */
  function Invalidated<V>(store: map<Key, Entry<V>>, now: int, keys: set<Key>, hold: nat): map<Key, Entry<V>> {
    if hold == 0 then store - keys
    else map k | k in store.Keys + keys :: if k in keys then Entry(Hold, Some(now + hold)) else store[k]
  }

  function KeySet(keys: seq<Key>): set<Key> {
    set k | k in keys
  }

  // ---------------------------------------------------------------------------------------
  // The cache object.
  // ---------------------------------------------------------------------------------------

  /** The fields of TenantSnapshot that are cached. */
  datatype Snapshot = Snapshot(id: int, schema: string, status: Status, shardId: int, alias: string)

  /** A cached answer: a snapshot, or NEGATIVE. */
  datatype Answer = Found(snapshot: Snapshot) | NoTenant

  /** get_snapshot(): an absent entry, a hold and a Redis error are all MISS. */
  datatype Lookup = Hit(snapshot: Snapshot) | Neg | Miss

  datatype Config = Config(positiveTtl: nat, missTtl: nat, hold: nat, warm: bool, ttlByStatus: map<Status, Option<nat>>)

  function TtlFor(cfg: Config, snapshot: Snapshot): Option<nat> {
    if cfg.warm && snapshot.status in cfg.ttlByStatus then cfg.ttlByStatus[snapshot.status]
    else Some(cfg.positiveTtl)
  }

  predicate PositivesOff(cfg: Config) {
    !cfg.warm && cfg.positiveTtl == 0
  }

  function LookupIn(store: map<Key, Entry<Answer>>, now: int, host: Host): Lookup {
    if !LiveAt(store, now, HostSnap(host)) then Miss
    else
      match store[HostSnap(host)].value
      case Filled(Found(s)) => Hit(s)
      case Filled(NoTenant) => Neg
      case Hold => Miss
  }

  /** put(): the host snapshot, then the schema snapshot, both NX with the tenant's TTL. */
  function PutBoth(store: map<Key, Entry<Answer>>, now: int, host: Host, s: Snapshot,
                   ttl: Option<nat>): map<Key, Entry<Answer>> {
    SetNx(SetNx(store, now, HostSnap(host), Found(s), ttl), now, SchemaSnap(s.schema), Found(s), ttl)
  }

  /** The keys of a list of (key, tenant) pairs differ pairwise. */
  predicate DistinctKeys(items: seq<(Key, Snapshot)>) {
    forall i, j :: 0 <= i < j < |items| ==> items[i].0 != items[j].0
  }

  /** The pairs as a map. */
  function AsMap(items: seq<(Key, Snapshot)>): map<Key, Snapshot> {
    if items == [] then map[] else AsMap(items[..|items|-1])[items[|items|-1].0 := items[|items|-1].1]
  }

  lemma {:induction false} AsMapKeys(items: seq<(Key, Snapshot)>, key: Key)
    requires key in AsMap(items)
    ensures exists i :: 0 <= i < |items| && items[i].0 == key
  {
    if items[|items|-1].0 != key {
      AsMapKeys(items[..|items|-1], key);
      var i :| 0 <= i < |items| - 1 && items[..|items|-1][i].0 == key;
      assert items[i].0 == key;
    }
  }

  lemma {:induction false} AsMapSize(items: seq<(Key, Snapshot)>)
    requires DistinctKeys(items)
    ensures |AsMap(items)| == |items|
  {
    if items != [] {
      var init, last := items[..|items|-1], items[|items|-1];
      AsMapSize(init);
      KeyIsNew(items, |init|);
      assert AsMap(items).Keys == AsMap(init).Keys + {last.0};
      assert |AsMap(items)| == |AsMap(items).Keys|;
    }
  }

  lemma KeyIsNew(items: seq<(Key, Snapshot)>, n: nat)
    requires DistinctKeys(items) && n < |items|
    ensures items[n].0 !in AsMap(items[..n])
  {
    if items[n].0 in AsMap(items[..n]) {
      AsMapKeys(items[..n], items[n].0);
      assert false;
    }
  }

  type Groups = map<Option<nat>, map<Key, Snapshot>>

  /** The pairs, each in the group of its own TTL. */
  ghost predicate Grouped(cfg: Config, pairs: map<Key, Snapshot>, byTtl: Groups) {
    && (forall t, k :: t in byTtl && k in byTtl[t] ==>
         k in pairs && byTtl[t][k] == pairs[k] && TtlFor(cfg, pairs[k]) == t)
    && (forall k :: k in pairs ==> TtlFor(cfg, pairs[k]) in byTtl && k in byTtl[TtlFor(cfg, pairs[k])])
  }

  /** The entries of snapshots written at `now`, each under its own TTL. */
  function Stamped(cfg: Config, now: int, pairs: map<Key, Snapshot>): map<Key, Entry<Answer>> {
    map k | k in pairs :: Entry(Filled(Found(pairs[k])), Expiry(now, TtlFor(cfg, pairs[k])))
  }

  /** One set_many: a batch under one TTL. */
  function StampedBatch(now: int, batch: map<Key, Snapshot>, ttl: Option<nat>): map<Key, Entry<Answer>> {
    map k | k in batch :: Entry(Filled(Found(batch[k])), Expiry(now, ttl))
  }

  /** Pairs whose group is not in `left`. */
  ghost predicate WrittenExcept(cfg: Config, pairs: map<Key, Snapshot>, done: map<Key, Snapshot>,
                                left: set<Option<nat>>) {
    && (forall k :: k in done <==> k in pairs && TtlFor(cfg, pairs[k]) !in left)
    && (forall k :: k in done ==> done[k] == pairs[k])
  }

  lemma GroupDisjoint(cfg: Config, pairs: map<Key, Snapshot>, byTtl: Groups,
                      done: map<Key, Snapshot>, left: set<Option<nat>>, ttl: Option<nat>)
    requires Grouped(cfg, pairs, byTtl) && WrittenExcept(cfg, pairs, done, left) && ttl in left && ttl in byTtl
    ensures |done + byTtl[ttl]| == |done| + |byTtl[ttl]|
  {
    var batch := byTtl[ttl];
    assert done.Keys !! batch.Keys;
    assert (done + batch).Keys == done.Keys + batch.Keys;
  }

  lemma GroupAdvances(cfg: Config, pairs: map<Key, Snapshot>, byTtl: Groups,
                      done: map<Key, Snapshot>, left: set<Option<nat>>, ttl: Option<nat>)
    requires Grouped(cfg, pairs, byTtl) && WrittenExcept(cfg, pairs, done, left) && ttl in left && ttl in byTtl
    ensures WrittenExcept(cfg, pairs, done + byTtl[ttl], left - {ttl})
  {
  }

  lemma GroupStamped(cfg: Config, now: int, pairs: map<Key, Snapshot>, byTtl: Groups, done: map<Key, Snapshot>,
                     ttl: Option<nat>)
    requires Grouped(cfg, pairs, byTtl) && ttl in byTtl
    ensures Stamped(cfg, now, done) + StampedBatch(now, byTtl[ttl], ttl) == Stamped(cfg, now, done + byTtl[ttl])
  {
    var batch := byTtl[ttl];
    var one, two := Stamped(cfg, now, done) + StampedBatch(now, batch, ttl), Stamped(cfg, now, done + batch);
    assert one.Keys == two.Keys;
    forall k | k in two
      ensures one[k] == two[k]
    {
      if k in batch {
        assert k in byTtl[ttl] && byTtl[ttl][k] == pairs[k];
      }
    }
  }

  lemma AllWritten(cfg: Config, pairs: map<Key, Snapshot>, done: map<Key, Snapshot>)
    requires WrittenExcept(cfg, pairs, done, {})
    ensures done == pairs
  {
  }

  /** The groups written so far: `done` holds their snapshots, `left` the TTLs to come. */
  ghost predicate Progress(cfg: Config, now: int, pairs: map<Key, Snapshot>, done: map<Key, Snapshot>,
                           left: set<Option<nat>>,
                           before: map<Key, Entry<Answer>>, store: map<Key, Entry<Answer>>, n: nat) {
    n == |done| && WrittenExcept(cfg, pairs, done, left) && store == before + Stamped(cfg, now, done)
  }

  lemma WriteTwice(store: map<Key, Entry<Answer>>, a: map<Key, Entry<Answer>>, b: map<Key, Entry<Answer>>)
    ensures (store + a) + b == store + (a + b)
  {
  }

  lemma GroupStep(cfg: Config, now: int, pairs: map<Key, Snapshot>, byTtl: Groups, done: map<Key, Snapshot>,
                  left: set<Option<nat>>,
                  before: map<Key, Entry<Answer>>, store: map<Key, Entry<Answer>>, n: nat, ttl: Option<nat>)
    requires Grouped(cfg, pairs, byTtl) && ttl in left && ttl in byTtl
    requires Progress(cfg, now, pairs, done, left, before, store, n)
    ensures Progress(cfg, now, pairs, done + byTtl[ttl], left - {ttl}, before,
                     store + StampedBatch(now, byTtl[ttl], ttl), n + |byTtl[ttl]|)
  {
    GroupDisjoint(cfg, pairs, byTtl, done, left, ttl);
    GroupAdvances(cfg, pairs, byTtl, done, left, ttl);
    GroupStamped(cfg, now, pairs, byTtl, done, ttl);
    WriteTwice(before, Stamped(cfg, now, done), StampedBatch(now, byTtl[ttl], ttl));
  }

  lemma NothingWritten(cfg: Config, now: int, pairs: map<Key, Snapshot>, byTtl: Groups, store: map<Key, Entry<Answer>>)
    requires Grouped(cfg, pairs, byTtl)
    ensures Progress(cfg, now, pairs, map[], byTtl.Keys, store, store, 0)
  {
  }

  lemma EverythingWritten(cfg: Config, now: int, pairs: map<Key, Snapshot>, done: map<Key, Snapshot>,
                          before: map<Key, Entry<Answer>>, store: map<Key, Entry<Answer>>, n: nat)
    requires Progress(cfg, now, pairs, done, {}, before, store, n)
    ensures n == |pairs| && store == before + Stamped(cfg, now, pairs)
  {
    AllWritten(cfg, pairs, done);
  }

  // ---------------------------------------------------------------------------------------
  // The groups in the order in which the dictionary holds them.
  // ---------------------------------------------------------------------------------------

  /** The TTLs of the pairs, by first appearance. */
  function TtlOrder(cfg: Config, items: seq<(Key, Snapshot)>): seq<Option<nat>> {
    if items == [] then []
    else
      var r, ttl := TtlOrder(cfg, items[..|items|-1]), TtlFor(cfg, items[|items|-1].1);
      if ttl in r then r else r + [ttl]
  }

  /** The pairs of one TTL. */
  function OfTtl(cfg: Config, items: seq<(Key, Snapshot)>, ttl: Option<nat>): seq<(Key, Snapshot)> {
    if items == [] then []
    else
      var r, last := OfTtl(cfg, items[..|items|-1], ttl), items[|items|-1];
      if TtlFor(cfg, last.1) == ttl then r + [last] else r
  }

  /** One dictionary of the groups: within it a later pair replaces an earlier one of the same key. */
  function GroupOf(cfg: Config, items: seq<(Key, Snapshot)>, ttl: Option<nat>): map<Key, Snapshot> {
    AsMap(OfTtl(cfg, items, ttl))
  }

  /** The store after force-writing the groups of the TTLs in this order. */
  function GroupsWritten(cfg: Config, now: int, items: seq<(Key, Snapshot)>, order: seq<Option<nat>>,
                         store: map<Key, Entry<Answer>>)
    : map<Key, Entry<Answer>>
  {
    if order == [] then store
    else
      var m := |order| - 1;
      GroupsWritten(cfg, now, items, order[..m], store) + StampedBatch(now, GroupOf(cfg, items, order[m]), order[m])
  }

  function GroupSizes(cfg: Config, items: seq<(Key, Snapshot)>, order: seq<Option<nat>>): nat {
    if order == [] then 0
    else
      var m := |order| - 1;
      GroupSizes(cfg, items, order[..m]) + |GroupOf(cfg, items, order[m])|
  }

  predicate Names(items: seq<(Key, Snapshot)>, key: Key) {
    exists i :: 0 <= i < |items| && items[i].0 == key
  }

  /** The entry is one of the key's own pairs under that pair's TTL. */
  ghost predicate OwnEntry(cfg: Config, now: int, items: seq<(Key, Snapshot)>, key: Key, e: Entry<Answer>) {
    exists i :: 0 <= i < |items| && items[i].0 == key
        && e == Entry(Filled(Found(items[i].1)), Expiry(now, TtlFor(cfg, items[i].1)))
  }

  lemma {:induction false} GroupMember(cfg: Config, items: seq<(Key, Snapshot)>, ttl: Option<nat>, key: Key)
    returns (i: nat)
    requires key in GroupOf(cfg, items, ttl)
    ensures i < |items| && items[i].0 == key && items[i].1 == GroupOf(cfg, items, ttl)[key]
    ensures TtlFor(cfg, items[i].1) == ttl
  {
    var n := |items| - 1;
    var init, last := items[..n], items[n];
    if TtlFor(cfg, last.1) == ttl && last.0 == key {
      i := n;
      assert OfTtl(cfg, items, ttl)[..|OfTtl(cfg, items, ttl)|-1] == OfTtl(cfg, init, ttl);
    } else {
      if TtlFor(cfg, last.1) == ttl {
        assert OfTtl(cfg, items, ttl)[..|OfTtl(cfg, items, ttl)|-1] == OfTtl(cfg, init, ttl);
      }
      i := GroupMember(cfg, init, ttl, key);
      assert init[i] == items[i];
    }
  }

  lemma {:induction false} GroupHas(cfg: Config, items: seq<(Key, Snapshot)>, i: nat)
    requires i < |items|
    ensures items[i].0 in GroupOf(cfg, items, TtlFor(cfg, items[i].1))
    ensures TtlFor(cfg, items[i].1) in TtlOrder(cfg, items)
  {
    var n, ttl := |items| - 1, TtlFor(cfg, items[i].1);
    var init := items[..n];
    var g := OfTtl(cfg, items, ttl);
    if TtlFor(cfg, items[n].1) == ttl {
      assert g[..|g|-1] == OfTtl(cfg, init, ttl);
    }
    if i < n {
      assert init[i] == items[i];
      GroupHas(cfg, init, i);
    }
  }

  /** Every named key ends with one of its own pairs; nothing else changes. Keys may repeat. */
  lemma {:induction false} GroupsMeaning(cfg: Config, now: int, items: seq<(Key, Snapshot)>, order: seq<Option<nat>>,
                                         store: map<Key, Entry<Answer>>, key: Key)
    ensures var t := GroupsWritten(cfg, now, items, order, store);
            || (key in t && OwnEntry(cfg, now, items, key, t[key]))
            || ((forall ttl :: ttl in order ==> key !in GroupOf(cfg, items, ttl)) && (key in t <==> key in store)
                && (key in t ==> t[key] == store[key]))
  {
    if order != [] {
      var m := |order| - 1;
      GroupsMeaning(cfg, now, items, order[..m], store, key);
      if key in GroupOf(cfg, items, order[m]) {
        var i := GroupMember(cfg, items, order[m], key);
      }
    }
  }

  lemma PutManyMeaning(cfg: Config, now: int, items: seq<(Key, Snapshot)>, store: map<Key, Entry<Answer>>, key: Key)
    ensures var t := GroupsWritten(cfg, now, items, TtlOrder(cfg, items), store);
            && (Names(items, key) ==> key in t && OwnEntry(cfg, now, items, key, t[key]))
            && (!Names(items, key) ==> (key in t <==> key in store) && (key in t ==> t[key] == store[key]))
  {
    GroupsMeaning(cfg, now, items, TtlOrder(cfg, items), store, key);
    if Names(items, key) {
      var i :| 0 <= i < |items| && items[i].0 == key;
      GroupHas(cfg, items, i);
    }
  }

  /** The first pair of TTL t comes before every pair of TTL u. */
  ghost predicate StartsBefore(cfg: Config, items: seq<(Key, Snapshot)>, t: Option<nat>, u: Option<nat>) {
    exists a :: 0 <= a < |items| && TtlFor(cfg, items[a].1) == t
                && forall b :: 0 <= b < |items| && TtlFor(cfg, items[b].1) == u ==> a < b
  }

  /** Pair i outdoes every other pair of its key: later in the same group, or in a group that starts later. */
  ghost predicate Wins(cfg: Config, items: seq<(Key, Snapshot)>, i: nat)
    requires i < |items|
  {
    forall j :: 0 <= j < |items| && items[j].0 == items[i].0 && j != i ==>
      if TtlFor(cfg, items[j].1) == TtlFor(cfg, items[i].1) then j < i
      else StartsBefore(cfg, items, TtlFor(cfg, items[j].1), TtlFor(cfg, items[i].1))
  }

  lemma {:induction false} GroupLast(cfg: Config, items: seq<(Key, Snapshot)>, i: nat)
    requires i < |items|
    requires forall j :: i < j < |items| && TtlFor(cfg, items[j].1) == TtlFor(cfg, items[i].1) ==>
              items[j].0 != items[i].0
    ensures var g := GroupOf(cfg, items, TtlFor(cfg, items[i].1)); items[i].0 in g && g[items[i].0] == items[i].1
  {
    var n, ttl := |items| - 1, TtlFor(cfg, items[i].1);
    var g := OfTtl(cfg, items, ttl);
    if TtlFor(cfg, items[n].1) == ttl {
      assert g[..|g|-1] == OfTtl(cfg, items[..n], ttl);
    }
    if i < n {
      assert items[..n][i] == items[i];
      GroupLast(cfg, items[..n], i);
    }
  }

  lemma {:induction false} OrderByStart(cfg: Config, items: seq<(Key, Snapshot)>, p: nat, q: nat)
    requires p < |TtlOrder(cfg, items)| && q < |TtlOrder(cfg, items)|
    requires StartsBefore(cfg, items, TtlOrder(cfg, items)[p], TtlOrder(cfg, items)[q])
    ensures p < q
  {
    var n := |items| - 1;
    var init, order := items[..n], TtlOrder(cfg, items);
    var t, u := order[p], order[q];
    var a :| 0 <= a < |items| && TtlFor(cfg, items[a].1) == t
             && forall b :: 0 <= b < |items| && TtlFor(cfg, items[b].1) == u ==> a < b;
    var r := TtlOrder(cfg, init);
    if q < |r| {
      var b := InOrder(cfg, init, u);
      assert items[b] == init[b];
      assert init[a] == items[a];
      assert forall b :: 0 <= b < n ==> init[b] == items[b];
      GroupHas(cfg, init, a);
      OrderDistinct(cfg, items);
      assert t in r;
      assert p < |r|;
      OrderByStart(cfg, init, p, q);
    }
  }

  /** A listed TTL is the TTL of a pair. */
  lemma {:induction false} InOrder(cfg: Config, items: seq<(Key, Snapshot)>, ttl: Option<nat>) returns (i: nat)
    requires ttl in TtlOrder(cfg, items)
    ensures i < |items| && TtlFor(cfg, items[i].1) == ttl
  {
    var n := |items| - 1;
    if TtlFor(cfg, items[n].1) == ttl {
      i := n;
    } else {
      i := InOrder(cfg, items[..n], ttl);
    }
  }

  /** Groups after the last one that names a key leave its entry alone. */
  lemma {:induction false} LastGroupStays(cfg: Config, now: int, items: seq<(Key, Snapshot)>, order: seq<Option<nat>>,
                                          store: map<Key, Entry<Answer>>, q: nat, key: Key)
    requires q < |order| && key in GroupOf(cfg, items, order[q])
    requires forall p :: q < p < |order| ==> key !in GroupOf(cfg, items, order[p])
    ensures var t := GroupsWritten(cfg, now, items, order, store);
            key in t && t[key] == Entry(Filled(Found(GroupOf(cfg, items, order[q])[key])), Expiry(now, order[q]))
  {
    var m := |order| - 1;
    if q < m {
      assert forall p :: 0 <= p < m ==> order[..m][p] == order[p];
      LastGroupStays(cfg, now, items, order[..m], store, q, key);
      assert key !in GroupOf(cfg, items, order[m]);
    }
  }

  /** The pair that wins its key is the one that is stored, under its own TTL. */
  lemma PutManyWinner(cfg: Config, now: int, items: seq<(Key, Snapshot)>, store: map<Key, Entry<Answer>>, i: nat)
    requires i < |items| && Wins(cfg, items, i)
    ensures var t := GroupsWritten(cfg, now, items, TtlOrder(cfg, items), store);
            items[i].0 in t && t[items[i].0] == SnapshotEntry(cfg, now, items[i].1)
  {
    var key, ttl, order := items[i].0, TtlFor(cfg, items[i].1), TtlOrder(cfg, items);
    GroupHas(cfg, items, i);
    GroupLast(cfg, items, i);
    var q :| 0 <= q < |order| && order[q] == ttl;
    LaterGroupsLose(cfg, items, i, q);
    LastGroupStays(cfg, now, items, order, store, q, key);
  }

  /** The number of writes: one per key and TTL. */
  lemma PutManyCount(cfg: Config, items: seq<(Key, Snapshot)>)
    ensures GroupSizes(cfg, items, TtlOrder(cfg, items)) ==
              |set i | 0 <= i < |items| :: (items[i].0, TtlFor(cfg, items[i].1))|
  {
    var order := TtlOrder(cfg, items);
    var pairs := set i | 0 <= i < |items| :: (items[i].0, TtlFor(cfg, items[i].1));
    OrderDistinct(cfg, items);
    SizesCount(cfg, items, order);
    forall x: (Key, Option<nat>)
      ensures x in Cells(cfg, items, order) <==> x in pairs
    {
      if x in Cells(cfg, items, order) {
        CellsOf(cfg, items, order, x);
        var i := GroupMember(cfg, items, x.1, x.0);
        assert (items[i].0, TtlFor(cfg, items[i].1)) in pairs;
      }
      if x in pairs {
        var i :| 0 <= i < |items| && (items[i].0, TtlFor(cfg, items[i].1)) == x;
        GroupHas(cfg, items, i);
        InCells(cfg, items, order, x);
      }
    }
    assert Cells(cfg, items, order) == pairs;
  }

  /** The (key, TTL) cells of the groups. */
  ghost function Cells(cfg: Config, items: seq<(Key, Snapshot)>, order: seq<Option<nat>>): set<(Key, Option<nat>)> {
    if order == [] then {} else Cells(cfg, items, order[..|order|-1]) + Cell(cfg, items, order[|order|-1])
  }

  ghost function Cell(cfg: Config, items: seq<(Key, Snapshot)>, ttl: Option<nat>): set<(Key, Option<nat>)> {
    set k | k in GroupOf(cfg, items, ttl) :: (k, ttl)
  }

  lemma {:induction false} InCells(cfg: Config, items: seq<(Key, Snapshot)>, order: seq<Option<nat>>,
                                   x: (Key, Option<nat>))
    requires x.1 in order && x.0 in GroupOf(cfg, items, x.1)
    ensures x in Cells(cfg, items, order)
  {
    var m := |order| - 1;
    if order[m] != x.1 {
      InCells(cfg, items, order[..m], x);
    }
  }

  lemma {:induction false} CellsOf(cfg: Config, items: seq<(Key, Snapshot)>, order: seq<Option<nat>>,
                                   x: (Key, Option<nat>))
    requires x in Cells(cfg, items, order)
    ensures x.1 in order && x.0 in GroupOf(cfg, items, x.1)
  {
    var m := |order| - 1;
    if x !in Cell(cfg, items, order[m]) {
      CellsOf(cfg, items, order[..m], x);
    }
  }

  lemma {:induction false} CellSize(g: map<Key, Snapshot>, ttl: Option<nat>)
    ensures |set k | k in g :: (k, ttl)| == |g|
  {
    if g != map[] {
      var k :| k in g;
      var rest := g - {k};
      CellSize(rest, ttl);
      assert (set x | x in g :: (x, ttl)) == (set x | x in rest :: (x, ttl)) + {(k, ttl)};
      assert g.Keys == rest.Keys + {k};
    }
  }

  lemma {:induction false} SizesCount(cfg: Config, items: seq<(Key, Snapshot)>, order: seq<Option<nat>>)
    requires DistinctTtls(order)
    ensures GroupSizes(cfg, items, order) == |Cells(cfg, items, order)|
  {
    if order != [] {
      var m := |order| - 1;
      SizesCount(cfg, items, order[..m]);
      CellSize(GroupOf(cfg, items, order[m]), order[m]);
      forall x | x in Cells(cfg, items, order[..m])
        ensures x !in Cell(cfg, items, order[m])
      {
        CellsOf(cfg, items, order[..m], x);
      }
    }
  }

  lemma LaterGroupsLose(cfg: Config, items: seq<(Key, Snapshot)>, i: nat, q: nat)
    requires i < |items| && Wins(cfg, items, i) && q < |TtlOrder(cfg, items)|
    requires TtlOrder(cfg, items)[q] == TtlFor(cfg, items[i].1)
    ensures forall p :: q < p < |TtlOrder(cfg, items)| ==> items[i].0 !in GroupOf(cfg, items, TtlOrder(cfg, items)[p])
  {
    forall p | q < p < |TtlOrder(cfg, items)|
      ensures items[i].0 !in GroupOf(cfg, items, TtlOrder(cfg, items)[p])
    {
      if items[i].0 in GroupOf(cfg, items, TtlOrder(cfg, items)[p]) {
        LaterGroupLoses(cfg, items, i, q, p);
      }
    }
  }

  lemma LaterGroupLoses(cfg: Config, items: seq<(Key, Snapshot)>, i: nat, q: nat, p: nat)
    requires i < |items| && Wins(cfg, items, i) && q < |TtlOrder(cfg, items)| && p < |TtlOrder(cfg, items)|
    requires TtlOrder(cfg, items)[q] == TtlFor(cfg, items[i].1)
    requires items[i].0 in GroupOf(cfg, items, TtlOrder(cfg, items)[p])
    ensures p <= q
  {
    var j := GroupMember(cfg, items, TtlOrder(cfg, items)[p], items[i].0);
    if TtlFor(cfg, items[j].1) == TtlFor(cfg, items[i].1) {
      OrderDistinct(cfg, items);
    } else {
      OrderByStart(cfg, items, p, q);
    }
  }

  // ---------------------------------------------------------------------------------------
  // With pairwise different keys the grouping does not show.
  // ---------------------------------------------------------------------------------------

  function GroupMap(cfg: Config, items: seq<(Key, Snapshot)>): Groups {
    map ttl | ttl in TtlOrder(cfg, items) :: GroupOf(cfg, items, ttl)
  }

  lemma {:induction false} AsMapAt(items: seq<(Key, Snapshot)>, i: nat)
    requires DistinctKeys(items) && i < |items|
    ensures items[i].0 in AsMap(items) && AsMap(items)[items[i].0] == items[i].1
  {
    var n := |items| - 1;
    if i < n {
      assert items[..n][i] == items[i];
      AsMapAt(items[..n], i);
    }
  }

  lemma GroupMapGrouped(cfg: Config, items: seq<(Key, Snapshot)>)
    requires DistinctKeys(items)
    ensures Grouped(cfg, AsMap(items), GroupMap(cfg, items))
  {
    var pairs, byTtl := AsMap(items), GroupMap(cfg, items);
    forall t, k | t in byTtl && k in byTtl[t]
      ensures k in pairs && byTtl[t][k] == pairs[k] && TtlFor(cfg, pairs[k]) == t
    {
      var i := GroupMember(cfg, items, t, k);
      AsMapAt(items, i);
    }
    forall k | k in pairs
      ensures TtlFor(cfg, pairs[k]) in byTtl && k in byTtl[TtlFor(cfg, pairs[k])]
    {
      AsMapKeys(items, k);
      var i :| 0 <= i < |items| && items[i].0 == k;
      AsMapAt(items, i);
      GroupHas(cfg, items, i);
    }
  }

  predicate DistinctTtls(order: seq<Option<nat>>) {
    forall i, j :: 0 <= i < j < |order| ==> order[i] != order[j]
  }

  lemma {:induction false} OrderDistinct(cfg: Config, items: seq<(Key, Snapshot)>)
    ensures DistinctTtls(TtlOrder(cfg, items))
  {
    if items != [] {
      OrderDistinct(cfg, items[..|items|-1]);
    }
  }

  /** The TTLs from position m on. */
  function Later(order: seq<Option<nat>>, m: nat): set<Option<nat>>
    requires m <= |order|
  {
    set i | m <= i < |order| :: order[i]
  }

  lemma LaterStep(order: seq<Option<nat>>, m: nat)
    requires 0 < m <= |order| && DistinctTtls(order)
    ensures order[m-1] in Later(order, m - 1) && Later(order, m) == Later(order, m - 1) - {order[m-1]}
  {
  }

  lemma OneGroup(cfg: Config, now: int, items: seq<(Key, Snapshot)>, order: seq<Option<nat>>,
                 store: map<Key, Entry<Answer>>, m: nat)
    requires 0 < m <= |order|
    ensures GroupsWritten(cfg, now, items, order[..m], store) ==
              GroupsWritten(cfg, now, items, order[..m-1], store)
                  + StampedBatch(now, GroupOf(cfg, items, order[m-1]), order[m-1])
    ensures GroupSizes(cfg, items, order[..m]) ==
              GroupSizes(cfg, items, order[..m-1]) + |GroupOf(cfg, items, order[m-1])|
  {
    assert order[..m][..m-1] == order[..m-1];
  }

  lemma {:induction false} GroupsProgress(cfg: Config, now: int, items: seq<(Key, Snapshot)>,
                                          store: map<Key, Entry<Answer>>, m: nat)
    returns (done: map<Key, Snapshot>)
    requires DistinctKeys(items) && m <= |TtlOrder(cfg, items)|
    ensures var order := TtlOrder(cfg, items);
            Progress(cfg, now, AsMap(items), done, Later(order, m), store,
                     GroupsWritten(cfg, now, items, order[..m], store), GroupSizes(cfg, items, order[..m]))
  {
    var order := TtlOrder(cfg, items);
    GroupMapGrouped(cfg, items);
    if m == 0 {
      done := map[];
      NothingWritten(cfg, now, AsMap(items), GroupMap(cfg, items), store);
      assert Later(order, 0) == GroupMap(cfg, items).Keys;
    } else {
      var d := GroupsProgress(cfg, now, items, store, m - 1);
      OrderDistinct(cfg, items);
      LaterStep(order, m);
      GroupStep(cfg, now, AsMap(items), GroupMap(cfg, items), d, Later(order, m - 1), store,
                GroupsWritten(cfg, now, items, order[..m-1], store), GroupSizes(cfg, items, order[..m-1]), order[m-1]);
      OneGroup(cfg, now, items, order, store, m);
      done := d + GroupOf(cfg, items, order[m-1]);
    }
  }

  /** Grouping the writes by TTL is the same as force-writing every snapshot under its own TTL. */
  lemma PutManyDistinct(cfg: Config, now: int, items: seq<(Key, Snapshot)>, store: map<Key, Entry<Answer>>)
    requires DistinctKeys(items)
    ensures GroupsWritten(cfg, now, items, TtlOrder(cfg, items), store) == store + Stamped(cfg, now, AsMap(items))
    ensures GroupSizes(cfg, items, TtlOrder(cfg, items)) == |items|
  {
    var order := TtlOrder(cfg, items);
    var done := GroupsProgress(cfg, now, items, store, |order|);
    assert order[..|order|] == order;
    assert Later(order, |order|) == {};
    EverythingWritten(cfg, now, AsMap(items), done, store, GroupsWritten(cfg, now, items, order, store),
                      GroupSizes(cfg, items, order));
    AsMapSize(items);
  }

  // ---------------------------------------------------------------------------------------
  // Stores before and after, in plain terms.
  // ---------------------------------------------------------------------------------------

  predicate Unexpired(store: map<Key, Entry<Answer>>, now: int, key: Key) {
    key in store && (store[key].expires.Some? ==> now < store[key].expires.value)
  }

  predicate Holds(store: map<Key, Entry<Answer>>, now: int, key: Key, v: Value<Answer>) {
    Unexpired(store, now, key) && store[key].value == v
  }

  /** An unexpired entry stays, whatever it is; otherwise e is there now. */
  predicate FilledIn(before: map<Key, Entry<Answer>>, after: map<Key, Entry<Answer>>, now: int, key: Key,
                     e: Entry<Answer>) {
    key in after && after[key] == if Unexpired(before, now, key) then before[key] else e
  }

  ghost predicate SameExcept(before: map<Key, Entry<Answer>>, after: map<Key, Entry<Answer>>, keys: set<Key>) {
    forall k :: k !in keys ==> (k in after <==> k in before) && (k in after ==> after[k] == before[k])
  }

  /** Under WARM by the status table, where a status may have no expiry; else the flat TTL. */
  ghost function SnapshotExpiry(cfg: Config, now: int, s: Snapshot): Option<int> {
    if cfg.warm && s.status in cfg.ttlByStatus && cfg.ttlByStatus[s.status].None? then None
    else if cfg.warm && s.status in cfg.ttlByStatus then Some(now + cfg.ttlByStatus[s.status].value)
    else Some(now + cfg.positiveTtl)
  }

  ghost function SnapshotEntry(cfg: Config, now: int, s: Snapshot): Entry<Answer> {
    Entry(Filled(Found(s)), SnapshotExpiry(cfg, now, s))
  }

  ghost predicate WinnersStored(cfg: Config, now: int, items: seq<(Key, Snapshot)>, store: map<Key, Entry<Answer>>) {
    forall i: nat :: i < |items| && Wins(cfg, items, i) ==>
      items[i].0 in store && store[items[i].0] == SnapshotEntry(cfg, now, items[i].1)
  }

  lemma PutManyWinners(cfg: Config, now: int, items: seq<(Key, Snapshot)>, store: map<Key, Entry<Answer>>)
    ensures WinnersStored(cfg, now, items, GroupsWritten(cfg, now, items, TtlOrder(cfg, items), store))
  {
    forall i: nat | i < |items| && Wins(cfg, items, i)
      ensures var t := GroupsWritten(cfg, now, items, TtlOrder(cfg, items), store);
              items[i].0 in t && t[items[i].0] == SnapshotEntry(cfg, now, items[i].1)
    {
      PutManyWinner(cfg, now, items, store, i);
    }
  }

  lemma PutManyFrame(cfg: Config, now: int, items: seq<(Key, Snapshot)>, store: map<Key, Entry<Answer>>)
    ensures SameExcept(store, GroupsWritten(cfg, now, items, TtlOrder(cfg, items), store), KeysOf(items))
  {
    forall k | k !in KeysOf(items)
      ensures var t := GroupsWritten(cfg, now, items, TtlOrder(cfg, items), store);
              (k in t <==> k in store) && (k in t ==> t[k] == store[k])
    {
      assert !Names(items, k);
      PutManyMeaning(cfg, now, items, store, k);
    }
  }

  ghost function KeysOf(items: seq<(Key, Snapshot)>): set<Key> {
    set i | 0 <= i < |items| :: items[i].0
  }

  class ResolveCache {
    const cfg: Config
    var store: map<Key, Entry<Answer>>
    var clock: int

    constructor (cfg: Config)
      ensures this.cfg == cfg && store == map[] && clock == 0
    {
      this.cfg := cfg;
      store, clock := map[], 0;
    }

    method GetSnapshot(host: Host, redisUp: bool) returns (r: Lookup)
      ensures r == if redisUp then LookupIn(store, clock, host) else Miss
      ensures r == Neg <==> redisUp && Holds(store, clock, HostSnap(host), Filled(NoTenant))
      ensures forall s :: r == Hit(s) <==> redisUp && Holds(store, clock, HostSnap(host), Filled(Found(s)))
    {
      if !redisUp || HostSnap(host) !in store || !Live(store[HostSnap(host)], clock) {
        return Miss;
      }
      var v := store[HostSnap(host)].value;
      r := if v.Hold? then Miss else if v.content.NoTenant? then Neg else Hit(v.content.snapshot);
    }

    /** Returns whether the host snapshot was written. */
    method Put(host: Host, s: Snapshot, redisUp: bool) returns (filled: bool)
      modifies this`store
      ensures (!cfg.warm && cfg.positiveTtl == 0) || !redisUp ==> store == old(store) && !filled
      ensures !PositivesOff(cfg) && redisUp ==> store == PutBoth(old(store), clock, host, s, TtlFor(cfg, s))
      ensures (cfg.warm || cfg.positiveTtl != 0) && redisUp ==>
                && (filled <==> !old(Unexpired(store, clock, HostSnap(host))))
                && FilledIn(old(store), store, clock, HostSnap(host), SnapshotEntry(cfg, clock, s))
                && FilledIn(old(store), store, clock, SchemaSnap(s.schema), SnapshotEntry(cfg, clock, s))
      ensures SameExcept(old(store), store, {HostSnap(host), SchemaSnap(s.schema)})
    {
      filled := false;
      if PositivesOff(cfg) || !redisUp {
        return;
      }
      var ttl := TtlFor(cfg, s);
      if !LiveAt(store, clock, HostSnap(host)) {
        store := store[HostSnap(host) := Entry(Filled(Found(s)), Expiry(clock, ttl))];
        filled := true;
      }
      if !LiveAt(store, clock, SchemaSnap(s.schema)) {
        store := store[SchemaSnap(s.schema) := Entry(Filled(Found(s)), Expiry(clock, ttl))];
      }
    }

    method StoreMiss(host: Host, redisUp: bool)
      modifies this`store
      ensures store == if cfg.missTtl == 0 || !redisUp then old(store)
                       else SetNx(old(store), clock, HostSnap(host), NoTenant, Some(cfg.missTtl))
      ensures cfg.missTtl != 0 && redisUp ==>
                FilledIn(old(store), store, clock, HostSnap(host), Entry(Filled(NoTenant), Some(clock + cfg.missTtl)))
      ensures SameExcept(old(store), store, {HostSnap(host)})
    {
      if cfg.missTtl != 0 && redisUp && !LiveAt(store, clock, HostSnap(host)) {
        store := store[HostSnap(host) := Entry(Filled(NoTenant), Some(clock + cfg.missTtl))];
      }
    }

    /** _tombstone_keys, once its transaction has committed. */
    method TombstoneKeys(keys: seq<Key>) returns (n: nat)
      modifies this`store
      ensures n == |keys|
      ensures store == Invalidated(old(store), clock, KeySet(keys), cfg.hold)
      ensures cfg.hold > 0 ==> forall k :: k in keys ==> k in store && store[k] == Entry(Hold, Some(clock + cfg.hold))
      ensures cfg.hold == 0 ==> forall k :: k in keys ==> k !in store
      ensures SameExcept(old(store), store, set k | k in keys)
    {
      n := |keys|;
      for i := 0 to |keys|
        invariant store == Invalidated(old(store), clock, KeySet(keys[..i]), cfg.hold)
      {
        store := if cfg.hold > 0 then store[keys[i] := Entry(Hold, Some(clock + cfg.hold))] else store - {keys[i]};
        assert KeySet(keys[..i+1]) == KeySet(keys[..i]) + {keys[i]};
      }
      assert keys[..|keys|] == keys;
    }

    /** _put_many_by_ttl: the groups are written one after the other, in the order of their first pairs. */
    method PutManyByTtl(items: seq<(Key, Snapshot)>) returns (n: nat)
      modifies this`store
      ensures !cfg.warm && cfg.positiveTtl == 0 ==> n == 0 && store == old(store)
      ensures (cfg.warm || cfg.positiveTtl != 0) ==>
                && store == GroupsWritten(cfg, clock, items, TtlOrder(cfg, items), old(store))
                && n == |set i | 0 <= i < |items| :: (items[i].0, TtlFor(cfg, items[i].1))|
      ensures (cfg.warm || cfg.positiveTtl != 0) ==>
                WinnersStored(cfg, clock, items, store) && SameExcept(old(store), store, KeysOf(items))
      ensures (cfg.warm || cfg.positiveTtl != 0) && DistinctKeys(items) ==>
                n == |items| && store == old(store) + Stamped(cfg, clock, AsMap(items))
    {
      n := 0;
      if PositivesOff(cfg) {
        return;
      }
      var order, byTtl := GroupByTtl(cfg, items);
      for m := 0 to |order|
        invariant store == GroupsWritten(cfg, clock, items, order[..m], old(store))
        invariant n == GroupSizes(cfg, items, order[..m])
      {
        OneGroup(cfg, clock, items, order, old(store), m + 1);
        store := store + StampedBatch(clock, byTtl[order[m]], order[m]);
        n := n + |byTtl[order[m]]|;
      }
      assert order[..|order|] == order;
      PutManyWinners(cfg, clock, items, old(store));
      PutManyFrame(cfg, clock, items, old(store));
      PutManyCount(cfg, items);
      if DistinctKeys(items) {
        PutManyDistinct(cfg, clock, items, old(store));
      }
    }
  }

  lemma GroupOne(cfg: Config, items: seq<(Key, Snapshot)>, n: nat, ttl: Option<nat>)
    requires n < |items|
    ensures GroupOf(cfg, items[..n+1], ttl) ==
              if TtlFor(cfg, items[n].1) == ttl then GroupOf(cfg, items[..n], ttl)[items[n].0 := items[n].1]
                  else GroupOf(cfg, items[..n], ttl)
  {
    assert items[..n+1][..n] == items[..n];
    var g := OfTtl(cfg, items[..n+1], ttl);
    if TtlFor(cfg, items[n].1) == ttl {
      assert g[..|g|-1] == OfTtl(cfg, items[..n], ttl);
    }
  }

  lemma {:induction false} NoGroup(cfg: Config, items: seq<(Key, Snapshot)>, ttl: Option<nat>)
    requires ttl !in TtlOrder(cfg, items)
    ensures GroupOf(cfg, items, ttl) == map[]
  {
    if items != [] {
      NoGroup(cfg, items[..|items|-1], ttl);
    }
  }

  /** by_ttl: each TTL with its pairs, in the order in which the TTLs appear. */
  method GroupByTtl(cfg: Config, items: seq<(Key, Snapshot)>) returns (order: seq<Option<nat>>, byTtl: Groups)
    ensures order == TtlOrder(cfg, items)
    ensures forall ttl :: ttl in byTtl <==> ttl in order
    ensures forall ttl :: ttl in byTtl ==> byTtl[ttl] == GroupOf(cfg, items, ttl)
  {
    order, byTtl := [], map[];
    for n := 0 to |items|
      invariant order == TtlOrder(cfg, items[..n])
      invariant forall ttl :: ttl in byTtl <==> ttl in order
      invariant forall ttl :: ttl in byTtl ==> byTtl[ttl] == GroupOf(cfg, items[..n], ttl)
    {
      var (key, s) := items[n];
      var ttl := TtlFor(cfg, s);
      assert items[..n+1][..n] == items[..n];
      forall u
        ensures GroupOf(cfg, items[..n+1], u) ==
                  if TtlFor(cfg, items[n].1) == u then GroupOf(cfg, items[..n], u)[items[n].0 := items[n].1]
                      else GroupOf(cfg, items[..n], u)
      {
        GroupOne(cfg, items, n, u);
      }
      if ttl !in byTtl {
        NoGroup(cfg, items[..n], ttl);
        order := order + [ttl];
        byTtl := byTtl[ttl := map[]];
      }
      byTtl := byTtl[ttl := byTtl[ttl][key := s]];
    }
    assert items[..|items|] == items;
  }
}
