/** Runs of the protocol from a fresh tenant that show where the assumptions of its theorems are needed. */
module MigratorRuns {
  import opened Types
  import opened Lease
  import opened Migrator
  import opened MigratorSafety

  /** What a run may contain besides the steps of migrators, admin and console. */
  datatype Extra = Nothing | OperatorActs | ClockMoves

  predicate Allowed(x: Extra, a: Action) {
    (a.Tick? ==> x.ClockMoves?) && (a.OperatorRelease? ==> x.OperatorActs?)
  }

  /** t is reached from s by enabled and allowed steps. */
  ghost predicate Reaches(x: Extra, s: State, t: State) {
    exists states, acts :: Leads(x, states, acts, s, t)
  }

  ghost predicate Leads(x: Extra, states: seq<State>, acts: seq<Action>, s: State, t: State) {
    && Behaviour(states, acts) && states[0] == s && states[|acts|] == t
    && forall a :: a in acts ==> Allowed(x, a)
  }

  lemma Then(x: Extra, s: State, t: State, a: Action, u: State)
    requires Reaches(x, s, t)
    requires Enabled(t, a) && u == Apply(t, a) && Allowed(x, a)
    ensures Reaches(x, s, u)
  {
    var states, acts :| Leads(x, states, acts, s, t);
    var states', acts' := states + [u], acts + [a];
    forall i | 0 <= i < |acts'|
      ensures Enabled(states'[i], acts'[i]) && states'[i+1] == Apply(states'[i], acts'[i])
    {
      if i < |acts| {
        assert acts'[i] == acts[i] && states'[i] == states[i] && states'[i+1] == states[i+1];
      } else {
        assert acts'[i] == a && states'[i] == t && states'[i+1] == u;
      }
    }
    assert Leads(x, states', acts', s, u);
  }

  lemma Here(x: Extra, s: State)
    ensures Reaches(x, s, s)
  {
    assert Leads(x, [s], [], s, s);
  }

  /** A tenant just created, before anybody ran anything. */
  const FRESH := State(0, Free, None, Some(Tenant(New, New)), Missing, [], map[])

  // ---------------------------------------------------------------------------------------
  // Stretches of runs.
  // ---------------------------------------------------------------------------------------

  /** Load, session check and winning upsert of a run that meets nobody. */
  lemma Acquires(x: Extra, s0: State, s: State, o: Owner, opts: Options) returns (t: State)
    requires Reaches(x, s0, s) && s.runs.Keys == {} && !Live(s.lease, s.now) && s.rowLock == None && s.orphans == []
    requires s.tenant.Some? && s.tenant.value.status in PROVISIONABLE + UPGRADABLE
    ensures Reaches(x, s0, t)
    ensures t == s.(lease := Held(o, s.now + LEASE_TTL), runs := t.runs)
    ensures t.runs.Keys == {o} && t.runs[o] == Run(opts, Acquired, s.now + LEASE_TTL)
  {
    var s1 := s.(runs := s.runs[o := Run(opts, Loaded, 0)]);
    Then(x, s0, s, Begin(o, opts), s1);
    var s2 := Goto(s1, o, Clear);
    Then(x, s0, s1, SessionCheck(o), s2);
    t := s2.(lease := Held(o, s.now + LEASE_TTL), runs := s2.runs[o := Run(opts, Acquired, s.now + LEASE_TTL)]);
    Then(x, s0, s2, Upsert(o), t);
  }

  /** CREATE SCHEMA IF NOT EXISTS */
  function Existing(schema: Schema): Schema {
    if schema.Missing? then Present({}, false) else schema
  }

  /** A run that has acquired the lease of a NEW tenant goes on to its open shard session. */
  lemma Provisions(x: Extra, s0: State, s: State, o: Owner) returns (t: State)
    requires Reaches(x, s0, s) && o in s.runs && s.runs[o].pc == Acquired
    requires !s.runs[o].opts.targeted && Holds(s.lease, o)
    requires s.tenant.Some? && s.tenant.value.status == New && !Foreign(s, s.tenant.value)
    ensures Reaches(x, s0, t)
    ensures t == Goto(s.(tenant := Some(Tenant(Pending, New)), schema := Existing(s.schema)), o, Migrating(true, false))
  {
    var s4 := Goto(s, o, Provisioning(s.tenant.value));
    Then(x, s0, s, Reload(o), s4);
    var s5 := Goto(s4, o, Vetted);
    Then(x, s0, s4, Vet(o), s5);
    var s6 := Goto(s5.(tenant := Some(Tenant(Pending, New))), o, Claimed);
    Then(x, s0, s5, Claim(o), s6);
    t := CreatesSchema(x, s0, s6, o);
  }

  lemma CreatesSchema(x: Extra, s0: State, s: State, o: Owner) returns (t: State)
    requires Reaches(x, s0, s) && o in s.runs && s.runs[o].pc == Claimed
    ensures Reaches(x, s0, t)
    ensures t == Goto(s.(schema := Existing(s.schema)), o, Migrating(true, false))
  {
    var s7 := Goto(s.(schema := Existing(s.schema)), o, Created);
    Then(x, s0, s, CreateSchema(o), s7);
    t := Goto(s7, o, Migrating(true, false));
    Then(x, s0, s7, OpenShard(o), t);
  }

  /** The statements of a provisioning run are done, its plan is empty, and it is about to write ACTIVE. */
  lemma ChecksPlan(x: Extra, s0: State, s: State, o: Owner) returns (t: State)
    requires Reaches(x, s0, s) && o in s.runs && s.runs[o].pc == Migrating(true, false)
    requires Complete(s.schema, s.runs[o].opts.known)
    ensures t == Goto(s, o, Planned) && Reaches(x, s0, t)
  {
    t := Goto(s, o, Planned);
    Then(x, s0, s, PlanCheck(o), t);
  }

  lemma Activates(x: Extra, s0: State, s: State, o: Owner) returns (t: State)
    requires Reaches(x, s0, s) && o in s.runs && s.runs[o].pc == Planned
    requires Holds(s.lease, o) && s.tenant == Some(Tenant(Pending, New))
    ensures t == Goto(s.(tenant := Some(Tenant(Active, Pending))), o, Closing(true)) && Reaches(x, s0, t)
  {
    t := Goto(s.(tenant := Some(Tenant(Active, Pending))), o, Closing(true));
    Then(x, s0, s, Activate(o), t);
  }

  lemma Releases(x: Extra, s0: State, s: State, o: Owner) returns (t: State)
    requires Reaches(x, s0, s) && o in s.runs && s.runs[o].pc == Closing(true) && Holds(s.lease, o) && s.rowLock == None
    ensures t == EndRun(s.(lease := Free), o) && Reaches(x, s0, t)
  {
    t := EndRun(s.(lease := Free), o);
    Then(x, s0, s, Release(o, true), t);
  }

  /** One uneventful provisioning by code that knows no migration. */
  lemma Provisioned(x: Extra, o: Owner) returns (s: State)
    ensures Reaches(x, FRESH, s)
    ensures s == FRESH.(tenant := Some(Tenant(Active, Pending)), schema := Present({}, false))
  {
    Here(x, FRESH);
    s := Acquires(x, FRESH, FRESH, o, Options(false, false, {}));
    s := Provisions(x, FRESH, s, o);
    s := ChecksPlan(x, FRESH, s, o);
    s := Activates(x, FRESH, s, o);
    s := Releases(x, FRESH, s, o);
    assert s.runs == map[];
  }

  const TARGETED := Options(false, true, {})

  /** A targeted upgrade of a served tenant between two statements. */
  lemma Upgrades(x: Extra, o: Owner) returns (s: State)
    ensures Reaches(x, FRESH, s) && s.runs.Keys == {o} && s.runs[o] == Run(TARGETED, Migrating(false, false), LEASE_TTL)
    ensures s == FRESH.(tenant := Some(Tenant(Active, Pending)), schema := Present({}, false),
                        lease := Held(o, LEASE_TTL), runs := s.runs)
  {
    var s0 := Provisioned(x, o);
    var s1 := Acquires(x, FRESH, s0, o, TARGETED);
    var s2 := Goto(s1, o, Upgrading(Active));
    Then(x, FRESH, s1, Reload(o), s2);
    s := Goto(s2, o, Migrating(false, false));
    Then(x, FRESH, s2, Inspect(o), s);
  }

  /** The same with p past its session check. */
  lemma ClearBeside(x: Extra, o: Owner, p: Owner, opts: Options) returns (s: State)
    requires o != p
    ensures Reaches(x, FRESH, s) && s.runs.Keys == {o, p}
    ensures s.runs[o] == Run(TARGETED, Migrating(false, false), LEASE_TTL) && s.runs[p] == Run(opts, Clear, 0)
    ensures s == FRESH.(tenant := Some(Tenant(Active, Pending)), schema := Present({}, false),
                        lease := Held(o, LEASE_TTL), runs := s.runs)
  {
    var s3 := Upgrades(x, o);
    var s4 := s3.(runs := s3.runs[p := Run(opts, Loaded, 0)]);
    Then(x, FRESH, s3, Begin(p, opts), s4);
    s := Goto(s4, p, Clear);
    Then(x, FRESH, s4, SessionCheck(p), s);
  }

  /** And with a statement of o under way. */
  lemma UpgradeUnderWay(x: Extra, o: Owner, p: Owner, opts: Options) returns (s: State)
    requires o != p
    ensures Reaches(x, FRESH, s) && s.runs.Keys == {o, p}
    ensures s.runs[o] == Run(TARGETED, Migrating(false, true), LEASE_TTL) && s.runs[p] == Run(opts, Clear, 0)
    ensures s == FRESH.(tenant := Some(Tenant(Active, Pending)), schema := Present({}, false),
                        lease := Held(o, LEASE_TTL), runs := s.runs)
  {
    var s5 := ClearBeside(x, o, p, opts);
    s := Goto(s5, o, Migrating(false, true));
    Then(x, FRESH, s5, BeginStatement(o), s);
  }

  /** Run o, migrating under its lease, lost its connection inside a statement and released. */
  function GaveUp(s: State, o: Owner): State
    requires o in s.runs
  {
    s.(orphans := s.orphans + [s.runs[o].opts], lease := Free, runs := s.runs - {o})
  }

  lemma LosesConnection(x: Extra, s0: State, s: State, o: Owner)
    requires Reaches(x, s0, s)
    requires o in s.runs && s.runs[o].pc == Migrating(false, true) && Holds(s.lease, o) && s.rowLock.None?
    ensures Reaches(x, s0, GaveUp(s, o))
  {
    var closing := Goto(s.(orphans := s.orphans + [s.runs[o].opts]), o, Closing(true));
    Then(x, s0, s, ConnLost(o, true), closing);
    Then(x, s0, closing, Release(o, true), GaveUp(s, o));
  }

  /** The admin form's own check before the lock: nobody holds the lease, or it has expired over an idle shard. */
  predicate FormPasses(s: State) {
    s.lease.Held? ==> Expired(s.lease, s.now) && !Busy(s)
  }

  /** The admin takes a served tenant into MAINTENANCE, past the form's check and past the lock. */
  lemma EntersMaintenance(x: Extra, s: State, t: State) returns (u: State)
    requires Reaches(x, s, t) && t.rowLock == None && FormPasses(t)
    requires t.tenant.Some? && t.tenant.value.status == Active
    ensures u == t.(tenant := Some(Tenant(Maintenance, Active))) && Reaches(x, s, u)
  {
    var locked := t.(rowLock := Some(Active));
    Then(x, s, t, AdminLock(Active), locked);
    u := t.(tenant := Some(Tenant(Maintenance, Active)));
    Then(x, s, locked, AdminCommit, u);
  }

  lemma WinsUpsert(x: Extra, s0: State, s: State, p: Owner) returns (t: State)
    requires Reaches(x, s0, s) && p in s.runs && s.runs[p].pc == Clear && !Live(s.lease, s.now) && s.rowLock == None
    ensures Reaches(x, s0, t)
    ensures t == s.(lease := Held(p, s.now + LEASE_TTL),
                    runs := s.runs[p := Run(s.runs[p].opts, Acquired, s.now + LEASE_TTL)])
  {
    t := s.(lease := Held(p, s.now + LEASE_TTL), runs := s.runs[p := Run(s.runs[p].opts, Acquired, s.now + LEASE_TTL)]);
    Then(x, s0, s, Upsert(p), t);
  }

  // ---------------------------------------------------------------------------------------
  // Exclusion: the session check may be outdated at the upsert.
  // ---------------------------------------------------------------------------------------

  /**
   * The session check and the upsert are two statements, and exclusion needs the check to be
   * still true at the upsert. Two processes suffice: p sees an idle shard while o is between
   * two statements; o sends one, loses its connection and gives its lease up; p takes it and
   * migrates next to o's surviving statement. The clock does not move and no operator acts.
   */
  lemma CheckAndUpsertRace(o: Owner, p: Owner) returns (t: State)
    requires o != p
    ensures Init(FRESH) && Reaches(Nothing, FRESH, t) && !Exclusive(t)
  {
    var s := UpgradeUnderWay(Nothing, o, p, TARGETED);
    LosesConnection(Nothing, FRESH, s, o);
    var won := WinsUpsert(Nothing, FRESH, GaveUp(s, o), p);
    var read := Goto(won, p, Upgrading(Active));
    Then(Nothing, FRESH, won, Reload(p), read);
    t := Goto(read, p, Migrating(false, false));
    Then(Nothing, FRESH, read, Inspect(p), t);
    assert t.orphans != [] && t.runs[p].pc.Migrating?;
  }

  // ---------------------------------------------------------------------------------------
  // The interlock: orphans, an operator who releases a live run, a run that outlives its TTL.
  // ---------------------------------------------------------------------------------------

  /**
   * The admin's lock sees the lease, not the shard. A statement whose client lost its
   * connection has no lease any more, so it can still be running, and change the schema, after
   * the transition to MAINTENANCE: the orphan of the interlock theorem is real.
   */
  lemma OrphanInMaintenance(effect: Schema) returns (t: State)
    requires effect.Present?
    ensures Init(FRESH) && Reaches(Nothing, FRESH, t)
    ensures t.tenant == Some(Tenant(Maintenance, Active)) && t.schema == effect
    ensures forall o :: o in t.runs ==> !UnderLease(t.runs[o].pc)
  {
    var s := UpgradeUnderWay(Nothing, "a", "b", TARGETED);
    LosesConnection(Nothing, FRESH, s, "a");
    var repaired := EntersMaintenance(Nothing, FRESH, GaveUp(s, "a"));
    t := repaired.(orphans := [], schema := effect);
    Then(Nothing, FRESH, repaired, OrphanEnds(0, effect), t);
  }

  /** A live run without --maintenance is inside a statement on a tenant in MAINTENANCE. */
  predicate InterlockBroken(t: State, o: Owner) {
    && t.tenant.Some? && t.tenant.value.status == Maintenance
    && o in t.runs && !t.runs[o].opts.maintenance && t.runs[o].pc == Migrating(false, true)
  }

  /** An operator who releases a live run's lease opens the interlock, without any passing of time. */
  lemma ReleaseBreaksInterlock(o: Owner, p: Owner) returns (t: State)
    requires o != p
    ensures Init(FRESH) && Reaches(OperatorActs, FRESH, t) && InterlockBroken(t, o)
  {
    var s := UpgradeUnderWay(OperatorActs, o, p, TARGETED);
    var freed := s.(lease := Free);
    Then(OperatorActs, FRESH, s, OperatorRelease(o), freed);
    t := EntersMaintenance(OperatorActs, FRESH, freed);
  }

  /**
   * So does a live run that outlives its TTL, without any operator. The form's check passes in the
   * expired state, while o is between two statements; o sends the next one after the transition.
   */
  lemma OverstayBreaksInterlock(o: Owner) returns (idle: State, t: State)
    ensures Init(FRESH) && Reaches(ClockMoves, FRESH, idle) && Expired(idle.lease, idle.now) && !Busy(idle)
    ensures Reaches(ClockMoves, FRESH, t) && InterlockBroken(t, o)
  {
    var s := Upgrades(ClockMoves, o);
    idle := s.(now := LEASE_TTL + 1);
    Then(ClockMoves, FRESH, s, Tick(LEASE_TTL + 1), idle);
    var repaired := EntersMaintenance(ClockMoves, FRESH, idle);
    t := Goto(repaired, o, Migrating(false, true));
    Then(ClockMoves, FRESH, repaired, BeginStatement(o), t);
  }

  // ---------------------------------------------------------------------------------------
  // ACTIVE means complete: a statement of a targeted run, orphaned or live.
  // ---------------------------------------------------------------------------------------

  const KNOWS_M := Options(false, false, {"m"})

  /** The admin resets a served tenant to NEW by way of MAINTENANCE and FAILED, and p takes the lease. */
  lemma ResetAndTaken(x: Extra, s: State, p: Owner) returns (t: State)
    requires Reaches(x, FRESH, s) && s.rowLock == None && FormPasses(s) && s.tenant == Some(Tenant(Active, Pending))
    requires p in s.runs && s.runs[p].pc == Clear
    ensures Reaches(x, FRESH, t)
    ensures t == s.(tenant := Some(Tenant(New, Failed)), lease := Held(p, s.now + LEASE_TTL),
                    runs := s.runs[p := Run(s.runs[p].opts, Acquired, s.now + LEASE_TTL)])
  {
    var repaired := EntersMaintenance(x, FRESH, s);
    var failed := repaired.(tenant := Some(Tenant(Failed, Maintenance)));
    Then(x, FRESH, repaired, AdminSet(Maintenance, Failed, false), failed);
    var reset := failed.(tenant := Some(Tenant(New, Failed)));
    Then(x, FRESH, failed, AdminSet(Failed, New, true), reset);
    t := WinsUpsert(x, FRESH, reset, p);
  }

  /** p adopts the schema, applies "m" and finds its plan empty. */
  lemma AppliesM(x: Extra, s: State, p: Owner) returns (t: State)
    requires Reaches(x, FRESH, s) && p in s.runs && s.runs[p].opts == KNOWS_M && s.runs[p].pc == Acquired
    requires Holds(s.lease, p) && s.tenant == Some(Tenant(New, Failed)) && s.schema == Present({}, false)
    ensures Reaches(x, FRESH, t)
    ensures t == Goto(s.(tenant := Some(Tenant(Pending, New)), schema := Present({"m"}, true)), p, Planned)
  {
    var open := Provisions(x, FRESH, s, p);
    var busy := Goto(open, p, Migrating(true, true));
    Then(x, FRESH, open, BeginStatement(p), busy);
    var applied := Goto(busy.(schema := Present({"m"}, true)), p, Migrating(true, false));
    Then(x, FRESH, busy, EndStatement(p, Present({"m"}, true)), applied);
    t := ChecksPlan(x, FRESH, applied, p);
  }

  /** In s run p is about to write ACTIVE over a schema that lacks a migration it knows. */
  predicate WritesIncomplete(s: State, p: Owner) {
    && Enabled(s, Activate(p)) && Apply(s, Activate(p)).tenant == Some(Tenant(Active, Pending))
    && !Complete(Apply(s, Activate(p)).schema, s.runs[p].opts.known)
  }

  /**
   * An orphan of a targeted run that ends between a plan check and its ACTIVE write can undo what
   * the check saw: the tenant is ACTIVE without a migration the writing code knows.
   */
  lemma TargetedOrphanUndoes(o: Owner, p: Owner) returns (s: State)
    requires o != p
    ensures Init(FRESH) && Reaches(Nothing, FRESH, s) && WritesIncomplete(s, p)
  {
    var busy := UpgradeUnderWay(Nothing, o, p, KNOWS_M);
    LosesConnection(Nothing, FRESH, busy, o);
    var taken := ResetAndTaken(Nothing, GaveUp(busy, o), p);
    var planned := AppliesM(Nothing, taken, p);
    s := planned.(schema := Present({}, true), orphans := []);
    Then(Nothing, FRESH, planned, OrphanEnds(0, Present({}, true)), s);
    LacksM(s, p);
  }

  lemma LacksM(s: State, p: Owner)
    requires p in s.runs && s.runs[p].opts == KNOWS_M && s.runs[p].pc == Planned && Holds(s.lease, p)
    requires s.tenant == Some(Tenant(Pending, New)) && s.schema == Present({}, true)
    ensures WritesIncomplete(s, p)
  {
  }

  /** o's lease is gone under a live run: the operator released it, or it has expired. */
  function LeaseGone(x: Extra, s: State): State {
    if x.OperatorActs? then s.(lease := Free) else s.(now := LEASE_TTL + 1)
  }

  /**
   * So can a live targeted run that an operator released or that outlived its TTL: it sends its
   * statement after the other run's plan check.
   */
  lemma LiveTargetedUndoes(x: Extra, o: Owner, p: Owner) returns (s: State)
    requires o != p && !x.Nothing?
    ensures Init(FRESH) && Reaches(x, FRESH, s) && WritesIncomplete(s, p) && HoldsRun(s, o)
  {
    var gone := LosesLease(x, o, p);
    var taken := ResetAndTaken(x, gone, p);
    var planned := AppliesM(x, taken, p);
    s := LateStatement(x, planned, o, Present({}, true));
    LacksM(s, p);
  }

  /** o, between two statements, no longer has a live lease; p is past its session check. */
  lemma LosesLease(x: Extra, o: Owner, p: Owner) returns (s: State)
    requires o != p && !x.Nothing?
    ensures Reaches(x, FRESH, s) && FormPasses(s) && s.rowLock == None && s.runs.Keys == {o, p}
    ensures s.runs[o] == Run(TARGETED, Migrating(false, false), LEASE_TTL) && s.runs[p] == Run(KNOWS_M, Clear, 0)
    ensures s.tenant == Some(Tenant(Active, Pending)) && s.schema == Present({}, false)
  {
    var idle := ClearBeside(x, o, p, KNOWS_M);
    s := LeaseGone(x, idle);
    Then(x, FRESH, idle, if x.OperatorActs? then OperatorRelease(o) else Tick(LEASE_TTL + 1), s);
  }

  /** A targeted run between two statements sends one more. */
  lemma LateStatement(x: Extra, s: State, o: Owner, effect: Schema) returns (t: State)
    requires Reaches(x, FRESH, s) && o in s.runs && s.runs[o].pc == Migrating(false, false) && s.runs[o].opts.targeted
    requires s.schema.Present? && effect.Present?
    ensures t == s.(schema := effect) && Reaches(x, FRESH, t)
  {
    var busy := Goto(s, o, Migrating(false, true));
    Then(x, FRESH, s, BeginStatement(o), busy);
    t := s.(schema := effect);
    assert Goto(busy.(schema := effect), o, Migrating(false, false)).runs == s.runs;
    Then(x, FRESH, busy, EndStatement(o, effect), t);
  }

  // ---------------------------------------------------------------------------------------
  // The operator release.
  // ---------------------------------------------------------------------------------------

  /** o's run failed, its release did not get through, and the lease has expired. */
  lemma LeavesExpiredLease(o: Owner) returns (s: State)
    ensures Reaches(ClockMoves, FRESH, s) && Holds(s.lease, o) && Expired(s.lease, s.now)
    ensures s == FRESH.(now := LEASE_TTL + 1, lease := Held(o, LEASE_TTL))
  {
    Here(ClockMoves, FRESH);
    var s1 := Acquires(ClockMoves, FRESH, FRESH, o, Options(false, false, {}));
    var s2 := Goto(s1, o, Closing(true));
    Then(ClockMoves, FRESH, s1, Error(o), s2);
    var s3 := EndRun(s2, o);
    Then(ClockMoves, FRESH, s2, Release(o, false), s3);
    s := FRESH.(now := LEASE_TTL + 1, lease := Held(o, LEASE_TTL));
    assert s3.runs == map[];
    Then(ClockMoves, FRESH, s3, Tick(LEASE_TTL + 1), s);
  }

  /**
   * The owner name identifies a process, not a run. An operator is shown an expired lease of o in
   * `seen`; the same process takes the key again, and the release then frees the lease of that
   * live run. A run of any other process is not touched.
   */
  lemma OperatorReleaseHitsRetake(o: Owner) returns (seen: State, t: State)
    ensures Init(FRESH) && Reaches(ClockMoves, FRESH, seen) && Holds(seen.lease, o) && Expired(seen.lease, seen.now)
    ensures Reaches(ClockMoves, seen, t) && HoldsRun(t, o) && Live(t.lease, t.now)
    ensures Enabled(t, OperatorRelease(o)) && Apply(t, OperatorRelease(o)).lease == Free
    ensures forall p :: p != o ==> Apply(t, OperatorRelease(p)).lease == t.lease
  {
    seen := LeavesExpiredLease(o);
    Here(ClockMoves, seen);
    t := Acquires(ClockMoves, seen, seen, o, Options(false, false, {}));
  }
}
