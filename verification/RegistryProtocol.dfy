/**
 * Domain mutations, the reconcile, the dead-man expiry and the counter's expiry, one Redis or
 * database command at a time. One reconcile runs at a time (the treg:warming lock).
 */
module RegistryProtocol {
  import opened Registry

  /** Where a committed Domain change stands in its on_commit receiver. */
  datatype Stage = Committed | SawSet(exists_: bool) | Applied | Bumped

  datatype Mutation = Mutation(host: Host, add: bool, stage: Stage)

  /** The reconcile between two of its commands; pass counts 1, 2, 3. */
  datatype Reconcile =
    | Idle
    | Starting(pass: nat)
    | Watching(pass: nat, before: nat)                   // counter read
    | Queried(pass: nat, before: nat, snap: set<Host>)   // database read, SET being built
    | Renamed(pass: nat, before: nat)                    // SET in place, counter not re-read

  const MAX_PASSES := 3

  datatype State = State(db: set<Host>, hosts: HostSet, dirty: nat, muts: map<nat, Mutation>, rec: Reconcile)

  predicate Init(s: State) {
    s.hosts == Absent && s.dirty == 0 && s.muts == map[] && s.rec == Idle
  }

  datatype Action =
    | Commit(id: nat, host: Host, add: bool)   // the Domain row changes
    | Exists(id: nat)                          // EXISTS treg:hosts, for an addition
    | Write(id: nat)                           // SADD if it existed, or SREM
    | Bump(id: nat)                            // INCR treg:hosts:dirty
    | Arm(id: nat)                             // EXPIRE treg:hosts
    | HostsExpire
    | DirtyExpire
    | Start
    | ReadCounter
    | Query
    | Rename
    | Recheck
    | Abort                                    // the reconcile's process dies

  predicate Enabled(s: State, a: Action) {
    match a
    case Commit(id, _, _) => id !in s.muts
    case Exists(id) => id in s.muts && s.muts[id].stage.Committed? && s.muts[id].add
    case Write(id) => id in s.muts && (s.muts[id].stage.SawSet? || (s.muts[id].stage.Committed? && !s.muts[id].add))
    case Bump(id) => id in s.muts && s.muts[id].stage.Applied?
    case Arm(id) => id in s.muts && s.muts[id].stage.Bumped?
    case HostsExpire => s.hosts.Present? && s.hosts.armed
    case DirtyExpire => true
    case Start => s.rec.Idle?
    case ReadCounter => s.rec.Starting?
    case Query => s.rec.Watching?
    case Rename => s.rec.Queried?
    case Recheck => s.rec.Renamed?
    case Abort => !s.rec.Idle?
  }

  function Written(hosts: HostSet, m: Mutation): HostSet {
    if !m.add then Removed(hosts, m.host)
    else if m.stage.SawSet? && m.stage.exists_ then Added(hosts, m.host)
    else hosts
  }

  function Moved(s: State, id: nat, stage: Stage): map<nat, Mutation>
    requires id in s.muts
  {
    s.muts[id := s.muts[id].(stage := stage)]
  }

  function Apply(s: State, a: Action): State
    requires Enabled(s, a)
  {
    match a
    case Commit(id, host, add) =>
      s.(db := if add then s.db + {host} else s.db - {host}, muts := s.muts[id := Mutation(host, add, Committed)])
    case Exists(id) => s.(muts := Moved(s, id, SawSet(s.hosts.Present?)))
    case Write(id) => s.(hosts := Written(s.hosts, s.muts[id]), muts := Moved(s, id, Applied))
    case Bump(id) => s.(dirty := s.dirty + 1, muts := Moved(s, id, Bumped))
    case Arm(id) => s.(hosts := Armed(s.hosts), muts := s.muts - {id})
    case HostsExpire => s.(hosts := Absent)
    case DirtyExpire => s.(dirty := 0)
    case Start => s.(rec := Starting(1))
    case ReadCounter => s.(rec := Watching(s.rec.pass, s.dirty))
    case Query => s.(rec := Queried(s.rec.pass, s.rec.before, s.db))
    case Rename => s.(hosts := Swapped(s.rec.snap), rec := Renamed(s.rec.pass, s.rec.before))
    case Recheck =>
      s.(rec := if s.dirty == s.rec.before || s.rec.pass >= MAX_PASSES then Idle else Starting(s.rec.pass + 1))
    case Abort => s.(rec := Idle)
  }

  ghost predicate Behaviour(states: seq<State>, acts: seq<Action>) {
    && |states| == |acts| + 1
    && forall i {:trigger acts[i]} :: 0 <= i < |acts| ==>
         Enabled(states[i], acts[i]) && states[i+1] == Apply(states[i], acts[i])
  }

  // ---------------------------------------------------------------------------------------
  // Flag soundness.
  // ---------------------------------------------------------------------------------------

  /** The counter outlives every pass that reads it. */
  predicate CounterKept(s: State, a: Action) {
    a.DirtyExpire? ==> s.rec.Idle? || s.rec.Starting?
  }

  /** The reconcile ends by an equal re-read, not by running out of passes. */
  predicate Converges(s: State, a: Action) {
    a.Recheck? && s.rec.Renamed? && s.dirty != s.rec.before ==> s.rec.pass < MAX_PASSES
  }

  /** A reconcile dies only while the SET is still the one it found. */
  predicate DiesEarly(s: State, a: Action) {
    a.Abort? ==> OldSet(s.rec)
  }

  /** No rename of this reconcile has happened yet. */
  predicate OldSet(rec: Reconcile) {
    rec.Idle? || (!rec.Renamed? && rec.pass == 1)
  }

  predicate Disciplined(s: State, a: Action) {
    CounterKept(s, a) && Converges(s, a) && DiesEarly(s, a)
  }

  ghost predicate Supported(states: seq<State>, acts: seq<Action>) {
    && Behaviour(states, acts) && Init(states[0])
    && forall i {:trigger acts[i]} :: 0 <= i < |acts| ==> Disciplined(states[i], acts[i])
  }

  /** The gate may trust the SET: it has no TTL and names every host. */
  predicate Flagged(s: State) {
    s.hosts.Present? && !s.hosts.armed
  }

  ghost predicate Unbumped(s: State) {
    exists id :: id in s.muts && !s.muts[id].stage.Bumped?
  }

  ghost predicate InFlight(s: State) {
    exists id :: id in s.muts
  }

  /** Every host missing from the flag, or from the SET being built, has somebody who will notice. */
  ghost predicate Inv(s: State) {
    (OldSet(s.rec) && Flagged(s) ==> s.db <= s.hosts.hosts || InFlight(s)) && PassInv(s)
  }

  /** The part that each pass of a reconcile builds anew. */
  ghost predicate PassInv(s: State) {
    && (!s.rec.Idle? ==> s.rec.pass >= 1)
    && (s.rec.Watching? || s.rec.Queried? || s.rec.Renamed? ==> s.rec.before <= s.dirty)
    && (s.rec.Queried? ==> s.db <= s.rec.snap || s.rec.before < s.dirty || Unbumped(s))
    && (s.rec.Renamed? && Flagged(s) ==> s.db <= s.hosts.hosts || s.rec.before < s.dirty || Unbumped(s))
  }

  predicate OfMutation(a: Action) {
    a.Commit? || a.Exists? || a.Write? || a.Bump? || a.Arm?
  }

  lemma OthersStay(s: State, a: Action)
    requires Enabled(s, a) && OfMutation(a)
    ensures forall id :: id in s.muts && id != a.id ==> id in Apply(s, a).muts && Apply(s, a).muts[id] == s.muts[id]
    ensures !a.Arm? ==> a.id in Apply(s, a).muts
  {
  }

  lemma MutationPassStep(s: State, a: Action)
    requires Enabled(s, a) && PassInv(s) && OfMutation(a)
    ensures PassInv(Apply(s, a))
  {
    OthersStay(s, a);
  }

  lemma MutationStep(s: State, a: Action)
    requires Enabled(s, a) && Inv(s) && OfMutation(a)
    ensures Inv(Apply(s, a))
  {
    OthersStay(s, a);
    MutationPassStep(s, a);
  }

  lemma OtherPassStep(s: State, a: Action)
    requires Enabled(s, a) && PassInv(s) && Disciplined(s, a) && !OfMutation(a)
    ensures PassInv(Apply(s, a))
  {
    assert Apply(s, a).muts == s.muts;
    assert Unbumped(s) ==> Unbumped(Apply(s, a));
  }

  lemma OtherStep(s: State, a: Action)
    requires Enabled(s, a) && Inv(s) && Disciplined(s, a) && !OfMutation(a)
    ensures Inv(Apply(s, a))
  {
    OtherPassStep(s, a);
    assert Apply(s, a).muts == s.muts;
    assert Unbumped(s) ==> InFlight(Apply(s, a));
    assert InFlight(s) ==> InFlight(Apply(s, a));
  }

  lemma PassStep(s: State, a: Action)
    requires Enabled(s, a) && PassInv(s) && Disciplined(s, a)
    ensures PassInv(Apply(s, a))
  {
    if OfMutation(a) {
      MutationPassStep(s, a);
    } else {
      OtherPassStep(s, a);
    }
  }

  lemma InvStep(s: State, a: Action)
    requires Enabled(s, a) && Inv(s) && Disciplined(s, a)
    ensures Inv(Apply(s, a))
  {
    if OfMutation(a) {
      MutationStep(s, a);
    } else {
      OtherStep(s, a);
    }
  }

  lemma {:induction false} InvAlways(states: seq<State>, acts: seq<Action>, k: nat)
    requires Supported(states, acts) && k < |states|
    ensures Inv(states[k])
  {
    if k > 0 {
      InvAlways(states, acts, k - 1);
      assert states[k] == Apply(states[k-1], acts[k-1]);
      InvStep(states[k-1], acts[k-1]);
    }
  }

  /**
   * Registry flag soundness: with no reconcile running and no mutation between its commit and
   * its arm, a SET without a TTL contains every host of the database, so no host of the
   * database is ever turned away by it.
   */
  lemma {:induction false} FlagSoundness(states: seq<State>, acts: seq<Action>, k: nat)
    requires Supported(states, acts) && k < |states|
    requires states[k].rec == Idle && states[k].muts == map[] && Flagged(states[k])
    ensures states[k].db <= states[k].hosts.hosts
    ensures forall h, up :: h in states[k].db ==> Check(states[k].hosts, h, up) != Nonmember
  {
    InvAlways(states, acts, k);
  }

  // ---------------------------------------------------------------------------------------
  // Recovery.
  // ---------------------------------------------------------------------------------------

  /** Steps i to k keep the assumptions; nothing is said about how state i came about. */
  ghost predicate DisciplinedFrom(states: seq<State>, acts: seq<Action>, i: nat) {
    Behaviour(states, acts) && forall m {:trigger acts[m]} :: i <= m < |acts| ==> Disciplined(states[m], acts[m])
  }

  lemma {:induction false} PassInvDuring(states: seq<State>, acts: seq<Action>, i: nat, m: nat)
    requires DisciplinedFrom(states, acts, i) && i < m < |states| && acts[i].Start?
    ensures PassInv(states[m])
    decreases m
  {
    assert states[m] == Apply(states[m-1], acts[m-1]);
    if m - 1 > i {
      PassInvDuring(states, acts, i, m - 1);
      PassStep(states[m-1], acts[m-1]);
    }
  }

  lemma {:induction false} InvAfter(states: seq<State>, acts: seq<Action>, i: nat, j: nat, k: nat)
    requires DisciplinedFrom(states, acts, i) && i < j < k < |states| && acts[i].Start?
    requires acts[j].Recheck? && states[j+1].rec.Idle?
    ensures Inv(states[k])
    decreases k
  {
    assert states[k] == Apply(states[k-1], acts[k-1]);
    if k - 1 > j {
      InvAfter(states, acts, i, j, k - 1);
      InvStep(states[k-1], acts[k-1]);
    } else {
      PassInvDuring(states, acts, i, j);
      PassInvDuring(states, acts, i, k);
      assert Disciplined(states[j], acts[j]);
      if Flagged(states[j]) {
        EndsSound(states[j]);
      }
    }
  }

  /** An equal re-read ends the reconcile with a flag that is complete or whose missing hosts are in flight. */
  lemma EndsSound(s: State)
    requires PassInv(s) && s.rec.Renamed? && Flagged(s) && s.dirty == s.rec.before
    ensures s.db <= s.hosts.hosts || InFlight(s)
  {
  }

  /**
   * Recovery: whatever state a reconcile starts in, even with a flag that misses hosts, once it ends by
   * its re-read the flag is sound again, for as long as the assumptions are kept.
   */
  lemma {:induction false} Recovery(states: seq<State>, acts: seq<Action>, i: nat, j: nat, k: nat)
    requires DisciplinedFrom(states, acts, i) && i < j < k < |states| && acts[i].Start?
    requires acts[j].Recheck? && states[j+1].rec.Idle?
    requires states[k].rec == Idle && states[k].muts == map[] && Flagged(states[k])
    ensures states[k].db <= states[k].hosts.hosts
  {
    InvAfter(states, acts, i, j, k);
  }
}
