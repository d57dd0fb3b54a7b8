/**
 * The nx + tombstone rule in time. A fill reads the database, then writes each of its keys
 * with NX some time later; a change commits, then its invalidation overwrites the keys it
 * covers with a hold of fixed length. The content of an entry is tagged with the number of
 * changes its key had seen when it was read, so "read before that change" is a smaller tag.
 */
module CacheCoherence {
  import opened Types
  import opened SnapshotCache

  /** A resolve between its database read and its cache writes. */
  datatype Fill = Fill(tags: map<Key, nat>, readAt: int)

  datatype State = State(
    now: int,
    hold: nat,
    store: map<Key, Entry<nat>>,
    version: map<Key, nat>,              // committed changes of each key
    fills: map<nat, Fill>,
    owed: map<nat, map<Key, nat>>,       // committed changes whose invalidation has not run
    floor: map<Key, nat>                 // newest version of each key whose invalidation has run
  )

  function Num(m: map<Key, nat>, k: Key): nat {
    if k in m then m[k] else 0
  }

  predicate Init(s: State) {
    s.store == map[] && s.version == map[] && s.fills == map[] && s.owed == map[] && s.floor == map[]
  }

  datatype Action =
    | Tick(seconds: nat)
    | Commit(id: nat, keys: set<Key>)             // a row changes
    | Invalidate(id: nat)                         // its on_commit _invalidate
    | Read(id: nat, keys: set<Key>)               // db_resolver()
    | Write(id: nat, key: Key, ttl: Option<nat>)  // one cache.set(..., nx=True)
    | Done(id: nat)
    | Evict(key: Key)

  predicate Enabled(s: State, a: Action) {
    match a
    case Tick(_) => true
    case Commit(id, _) => id !in s.owed
    case Invalidate(id) => id in s.owed
    case Read(id, _) => id !in s.fills
    case Write(id, key, _) => id in s.fills && key in s.fills[id].tags
    case Done(id) => id in s.fills
    case Evict(key) => key in s.store
  }

  /** One more change for each of the keys. */
  function Bumped(version: map<Key, nat>, keys: set<Key>): map<Key, nat> {
    map k | k in version.Keys + keys :: if k in keys then Num(version, k) + 1 else version[k]
  }

  function Raised(floor: map<Key, nat>, change: map<Key, nat>): map<Key, nat> {
    map k | k in floor.Keys + change.Keys ::
      if k in change && Num(floor, k) < change[k] then change[k] else Num(floor, k)
  }

  function Tagged(version: map<Key, nat>, keys: set<Key>): map<Key, nat> {
    map k | k in keys :: Num(version, k)
  }

  function Apply(s: State, a: Action): State
    requires Enabled(s, a)
  {
    match a
    case Tick(seconds) => s.(now := s.now + seconds)
    case Commit(id, keys) =>
      var version := Bumped(s.version, keys);
      s.(version := version, owed := s.owed[id := Tagged(version, keys)])
    case Invalidate(id) =>
      s.(store := Invalidated(s.store, s.now, s.owed[id].Keys, s.hold), floor := Raised(s.floor, s.owed[id]),
         owed := s.owed - {id})
    case Read(id, keys) => s.(fills := s.fills[id := Fill(Tagged(s.version, keys), s.now)])
    case Write(id, key, ttl) => s.(store := SetNx(s.store, s.now, key, s.fills[id].tags[key], ttl))
    case Done(id) => s.(fills := s.fills - {id})
    case Evict(key) => s.(store := s.store - {key})
  }

  ghost predicate Behaviour(states: seq<State>, acts: seq<Action>) {
    && |states| == |acts| + 1
    && forall i {:trigger acts[i]} :: 0 <= i < |acts| ==>
         Enabled(states[i], acts[i]) && states[i+1] == Apply(states[i], acts[i])
  }

  // ---------------------------------------------------------------------------------------
  // Coherence.
  // ---------------------------------------------------------------------------------------

  /** A fill is written less than HOLD_SECONDS after its database read. */
  predicate Prompt(s: State, a: Action) {
    a.Write? && a.id in s.fills ==> s.now < s.fills[a.id].readAt + s.hold
  }

  predicate Held(s: State, k: Key) {
    LiveAt(s.store, s.now, k) && s.store[k].value.Hold?
  }

  /** Neither eviction nor a deletion removes a hold that still runs. */
  predicate HoldKept(s: State, a: Action) {
    a.Evict? ==> !Held(s, a.key)
  }

  ghost predicate Supported(states: seq<State>, acts: seq<Action>) {
    && Behaviour(states, acts) && Init(states[0])
    && forall i {:trigger acts[i]} :: 0 <= i < |acts| ==> Prompt(states[i], acts[i]) && HoldKept(states[i], acts[i])
  }

  /** Whatever key k serves was read at or after every change of k whose invalidation has run. */
  predicate Coherent(s: State, k: Key) {
    LiveAt(s.store, s.now, k) && s.store[k].value.Filled? ==> Num(s.floor, k) <= s.store[k].value.content
  }

  /** A fill that is too old for key k is past its deadline, or meets a hold that outlasts it. */
  predicate Blocked(s: State, id: nat, k: Key)
    requires id in s.fills
  {
    var f := s.fills[id];
    k in f.tags && f.tags[k] < Num(s.floor, k) ==>
      || f.readAt + s.hold <= s.now
      || (k in s.store && s.store[k].value.Hold? && s.store[k].expires.Some?
          && f.readAt + s.hold <= s.store[k].expires.value)
  }

  ghost predicate Inv(s: State) {
    && (forall k :: Coherent(s, k))
    && (forall id, k :: id in s.fills ==> Blocked(s, id, k))
    && (forall id :: id in s.fills ==> s.fills[id].readAt <= s.now)
    && (forall id, k :: id in s.owed && k in s.owed[id] ==> s.owed[id][k] <= Num(s.version, k))
    && (forall k :: Num(s.floor, k) <= Num(s.version, k))
  }

  lemma CoherentStep(s: State, a: Action, k: Key)
    requires Enabled(s, a) && Inv(s) && Prompt(s, a) && HoldKept(s, a)
    ensures Coherent(Apply(s, a), k)
  {
    assert Coherent(s, k);
    if a.Write? {
      assert Blocked(s, a.id, k);
    }
  }

  lemma BlockedStep(s: State, a: Action, id: nat, k: Key)
    requires Enabled(s, a) && Inv(s) && HoldKept(s, a) && id in Apply(s, a).fills
    ensures Blocked(Apply(s, a), id, k)
  {
    if id in s.fills && Apply(s, a).fills[id] == s.fills[id] {
      assert Blocked(s, id, k);
    }
  }

  /** Counting changes: what is owed or invalidated was committed, and what was read was read before now. */
  lemma CountsStep(s: State, a: Action)
    requires Enabled(s, a) && Inv(s)
    ensures var t := Apply(s, a);
            && (forall id :: id in t.fills ==> t.fills[id].readAt <= t.now)
            && (forall id, k :: id in t.owed && k in t.owed[id] ==> t.owed[id][k] <= Num(t.version, k))
            && (forall k :: Num(t.floor, k) <= Num(t.version, k))
  {
    var t := Apply(s, a);
    forall id, k | id in t.owed && k in t.owed[id]
      ensures t.owed[id][k] <= Num(t.version, k)
    {
      assert Num(s.version, k) <= Num(t.version, k);
    }
    forall k
      ensures Num(t.floor, k) <= Num(t.version, k)
    {
      assert Num(s.version, k) <= Num(t.version, k);
    }
  }

  lemma InvStep(s: State, a: Action)
    requires Enabled(s, a) && Inv(s) && Prompt(s, a) && HoldKept(s, a)
    ensures Inv(Apply(s, a))
  {
    CountsStep(s, a);
    forall k
      ensures Coherent(Apply(s, a), k)
    {
      CoherentStep(s, a, k);
    }
    forall id, k | id in Apply(s, a).fills
      ensures Blocked(Apply(s, a), id, k)
    {
      BlockedStep(s, a, id, k);
    }
  }

  lemma {:induction false} InvAlways(states: seq<State>, acts: seq<Action>, k: nat)
    requires Supported(states, acts) && k < |states|
    ensures Inv(states[k])
  {
    if k > 0 {
      InvAlways(states, acts, k - 1);
      assert states[k] == Apply(states[k-1], acts[k-1]);
      InvStep(states[k-1], acts[k-1]);
    }
  }

  lemma {:induction false} FloorRises(states: seq<State>, acts: seq<Action>, i: nat, m: nat, key: Key)
    requires Behaviour(states, acts) && i <= m < |states|
    ensures Num(states[i].floor, key) <= Num(states[m].floor, key)
    decreases m
  {
    if i < m {
      FloorRises(states, acts, i, m - 1, key);
      assert states[m] == Apply(states[m-1], acts[m-1]);
    }
  }

  /**
   * Tombstone coherence: once the invalidation of a committed change has run, no key it
   * covered ever again serves a snapshot or a miss marker that was read before that change.
   */
  lemma {:induction false} TombstoneCoherence(states: seq<State>, acts: seq<Action>, i: nat, m: nat, key: Key)
    requires Supported(states, acts) && i < |acts| && i < m < |states|
    requires acts[i].Invalidate? && key in states[i].owed[acts[i].id]
    requires LiveAt(states[m].store, states[m].now, key) && states[m].store[key].value.Filled?
    ensures states[i].owed[acts[i].id][key] <= states[m].store[key].value.content
  {
    InvAlways(states, acts, m);
    assert states[i+1] == Apply(states[i], acts[i]);
    FloorRises(states, acts, i + 1, m, key);
    assert Coherent(states[m], key);
  }

  /** The tag means what it says: a fill read before the commit carries a smaller one. */
  lemma {:induction false} EarlierReadSmallerTag(states: seq<State>, acts: seq<Action>, r: nat, c: nat, key: Key)
    requires Behaviour(states, acts) && r < c < |acts|
    requires acts[r].Read? && key in acts[r].keys && acts[c].Commit? && key in acts[c].keys
    ensures states[r+1].fills[acts[r].id].tags[key] < states[c+1].owed[acts[c].id][key]
  {
    assert states[r+1] == Apply(states[r], acts[r]);
    assert states[c+1] == Apply(states[c], acts[c]);
    VersionRises(states, acts, r, c, key);
  }

  lemma {:induction false} VersionRises(states: seq<State>, acts: seq<Action>, i: nat, m: nat, key: Key)
    requires Behaviour(states, acts) && i <= m < |states|
    ensures Num(states[i].version, key) <= Num(states[m].version, key)
    decreases m
  {
    if i < m {
      VersionRises(states, acts, i, m - 1, key);
      assert states[m] == Apply(states[m-1], acts[m-1]);
    }
  }

  // ---------------------------------------------------------------------------------------
  // Both assumptions are needed.
  // ---------------------------------------------------------------------------------------

  /** Read, commit, invalidate: a stale fill is waiting behind a fresh hold. */
  lemma StaleFillWaiting(hold: nat, key: Key) returns (states: seq<State>, acts: seq<Action>)
    requires hold > 0
    ensures |acts| == 3 && Behaviour(states, acts) && Init(states[0])
    ensures var s := states[3];
            && s.now == 0 && s.hold == hold && s.store == map[key := Entry(Hold, Some(hold))]
            && 0 in s.fills && s.fills[0] == Fill(map[key := 0], 0) && Num(s.floor, key) == 1
  {
    var s0 := State(0, hold, map[], map[], map[], map[], map[]);
    acts := [Read(0, {key}), Commit(0, {key}), Invalidate(0)];
    var s1 := Apply(s0, acts[0]);
    var s2 := Apply(s1, acts[1]);
    var s3 := Apply(s2, acts[2]);
    states := [s0, s1, s2, s3];
    assert s3.store == map[key := Entry(Hold, Some(hold))];
  }

  lemma Longer(states: seq<State>, acts: seq<Action>, a: Action)
    requires Behaviour(states, acts) && Enabled(states[|acts|], a)
    ensures Behaviour(states + [Apply(states[|acts|], a)], acts + [a])
  {
    var states', acts' := states + [Apply(states[|acts|], a)], acts + [a];
    forall i | 0 <= i < |acts'|
      ensures Enabled(states'[i], acts'[i]) && states'[i+1] == Apply(states'[i], acts'[i])
    {
      if i < |acts| {
        assert acts'[i] == acts[i] && states'[i] == states[i] && states'[i+1] == states[i+1];
      }
    }
  }

  /** A fill written exactly HOLD_SECONDS after its read can already be stale: the bound is sharp. */
  lemma LateFillIsStale(hold: nat, key: Key) returns (s: State, t: State)
    requires hold > 0
    ensures Enabled(s, Write(0, key, None)) && s.now == s.fills[0].readAt + s.hold && t == Apply(s, Write(0, key, None))
    ensures exists states, acts :: Behaviour(states, acts) && Init(states[0]) && states[|acts|] == s
    ensures !Coherent(t, key)
  {
    var states, acts := StaleFillWaiting(hold, key);
    s := Apply(states[3], Tick(hold));
    Longer(states, acts, Tick(hold));
    assert (states + [s])[|acts + [Tick(hold)]|] == s;
    t := Apply(s, Write(0, key, None));
  }

  /** A hold removed early (evicted, or deleted by a pattern or a sweep) lets a prompt stale fill in. */
  lemma LostHoldIsStale(hold: nat, key: Key) returns (s: State, t: State)
    requires hold > 0
    ensures exists states, acts :: Behaviour(states, acts) && Init(states[0]) && states[|acts|] == s
    ensures Held(s, key) && Enabled(s, Evict(key))
    ensures Enabled(t, Write(0, key, None)) && Prompt(t, Write(0, key, None)) && t == Apply(s, Evict(key))
    ensures !Coherent(Apply(t, Write(0, key, None)), key)
  {
    var states, acts := StaleFillWaiting(hold, key);
    s := states[3];
    t := Apply(s, Evict(key));
  }
}
