/**
 * What a run does to its tenant, read off the rows and the schema it met: which tenants it takes on, which
 * schemas it adopts, which failures it records and when it keeps its lease.
 */
module MigratorOutcomes {
  import opened Types
  import opened Lease
  import opened Migrator
  import opened MigratorSafety

  /** A step of process o's own run. */
  predicate StepOf(a: Action, o: Owner) {
    (Acquiring(a) || Executing(a) || Ending(a)) && a.o == o
  }

  /** Nobody else moves a run. */
  lemma OthersKeep(s: State, a: Action, o: Owner)
    requires Enabled(s, a) && o in s.runs && !StepOf(a, o)
    ensures o in Apply(s, a).runs && Apply(s, a).runs[o] == s.runs[o]
  {
    if Acquiring(a) {
      OthersKeepAcquiring(s, a, o);
    } else if Executing(a) {
      OthersKeepExecuting(s, a, o);
    } else if !Ending(a) {
      RunsUntouched(s, a);
    }
  }

  lemma OthersKeepAcquiring(s: State, a: Action, o: Owner)
    requires Enabled(s, a) && o in s.runs && Acquiring(a) && a.o != o
    ensures o in Apply(s, a).runs && Apply(s, a).runs[o] == s.runs[o]
  {
  }

  lemma OthersKeepExecuting(s: State, a: Action, o: Owner)
    requires Enabled(s, a) && o in s.runs && Executing(a) && a.o != o
    ensures o in Apply(s, a).runs && Apply(s, a).runs[o] == s.runs[o]
  {
  }

  /** Process o takes no step of its own from state i up to state m. */
  ghost predicate Pauses(acts: seq<Action>, o: Owner, i: nat, m: nat)
    requires m <= |acts|
  {
    forall n {:trigger acts[n]} :: i <= n < m ==> !StepOf(acts[n], o)
  }

  lemma {:induction false} StaysPut(states: seq<State>, acts: seq<Action>, o: Owner, i: nat, m: nat)
    requires Behaviour(states, acts) && i <= m <= |acts| && o in states[i].runs && Pauses(acts, o, i, m)
    ensures o in states[m].runs && states[m].runs[o] == states[i].runs[o]
    decreases m
  {
    if i < m {
      StaysPut(states, acts, o, i, m - 1);
      StepAt(states, acts, m - 1);
      OthersKeep(states[m-1], acts[m-1], o);
    }
  }

  // ---------------------------------------------------------------------------------------
  // Which tenants a run takes on.
  // ---------------------------------------------------------------------------------------

  /** A status a run may work on: never FAILED, MAINTENANCE only with the option. */
  predicate Admitted(t: Tenant, opts: Options) {
    t.status != Failed && (t.status == Maintenance ==> opts.maintenance)
  }

  lemma BeginAdmitted(s: State, o: Owner, opts: Options)
    ensures Enabled(s, Begin(o, opts)) <==> o !in s.runs && s.tenant.Some? && Admitted(s.tenant.value, opts)
  {
  }

  /** The re-read under the lease decides between provisioning, upgrade and nothing, by the row as it is then. */
  lemma ReloadDecides(s: State, o: Owner)
    requires Enabled(s, Reload(o))
    ensures var t, opts := Apply(s, Reload(o)), s.runs[o].opts;
            && t == s.(runs := t.runs)
            && (Enabled(t, Vet(o)) <==> !opts.targeted && s.tenant.Some? && s.tenant.value.status in {New, Pending})
            && (Enabled(t, Inspect(o)) <==>
                  && s.tenant.Some? && Admitted(s.tenant.value, opts)
                  && s.tenant.value.status in {Active, Deactivated, Maintenance})
            && (Enabled(t, Release(o, true)) <==>
                  s.rowLock.None? && (s.tenant.None? || !Admitted(s.tenant.value, opts)))
  {
  }

  // ---------------------------------------------------------------------------------------
  // The session check.
  // ---------------------------------------------------------------------------------------

  /** No statement executes on the shard, live or orphaned. */
  ghost predicate ShardIdle(s: State) {
    s.orphans == [] && forall p :: p in s.runs && s.runs[p].pc.Migrating? ==> !s.runs[p].pc.busy
  }

  lemma ClearStep(s: State, a: Action, o: Owner)
    requires Enabled(s, a) && o in Apply(s, a).runs && Apply(s, a).runs[o].pc.Clear?
    ensures o in s.runs && (s.runs[o].pc.Clear? || (a == SessionCheck(o) && ShardIdle(s)))
  {
    if o in s.runs && !StepOf(a, o) {
      OthersKeep(s, a, o);
    }
  }

  lemma {:induction false} ClearOrigin(states: seq<State>, acts: seq<Action>, m: nat, o: Owner) returns (c: nat)
    requires Behaviour(states, acts) && Init(states[0]) && m < |states|
    requires o in states[m].runs && states[m].runs[o].pc.Clear?
    ensures c < m && acts[c] == SessionCheck(o) && ShardIdle(states[c]) && SameRun(states, o, c, m)
  {
    StepAt(states, acts, m - 1);
    ClearStep(states[m-1], acts[m-1], o);
    if states[m-1].runs[o].pc.Clear? {
      c := ClearOrigin(states, acts, m - 1, o);
    } else {
      c := m - 1;
    }
  }

  /** The upsert takes a free or expired lease for an hour; a run that meets a live one ends. */
  lemma UpsertDecides(s: State, o: Owner)
    requires Enabled(s, Upsert(o))
    ensures var t := Apply(s, Upsert(o));
            if s.lease.Held? && s.now <= s.lease.until then t == s.(runs := s.runs - {o})
            else && t.lease == Held(o, s.now + 3600) && HoldsRun(t, o) && t.runs[o].until == s.now + 3600
                 && t == s.(lease := t.lease, runs := t.runs) && t.runs[o].opts == s.runs[o].opts
  {
  }

  /** Whoever is under the lease found the shard idle first, then won a free or expired lease, in one run. */
  lemma {:induction false} LeaseNeedsIdleShard(states: seq<State>, acts: seq<Action>, j: nat, o: Owner)
    returns (c: nat, i: nat)
    requires Behaviour(states, acts) && Init(states[0]) && j < |states| && HoldsRun(states[j], o)
    ensures c < i < j && acts[c] == SessionCheck(o) && acts[i] == Upsert(o)
    ensures ShardIdle(states[c]) && !Live(states[i].lease, states[i].now)
    ensures SameRun(states, o, c, i) && SameRun(states, o, i, j)
  {
    i := LeaseOrigin(states, acts, j, o);
    StepAt(states, acts, i);
    c := ClearOrigin(states, acts, i, o);
  }

  /** Check and upsert are one step when no other step comes between them. */
  ghost predicate CheckedAtOnce(acts: seq<Action>) {
    forall i {:trigger acts[i]} :: 0 <= i < |acts| && acts[i].Upsert? ==> i > 0 && acts[i-1] == SessionCheck(acts[i].o)
  }

  lemma IdleAfterCheck(s: State, o: Owner)
    requires Enabled(s, SessionCheck(o)) && Enabled(Apply(s, SessionCheck(o)), Upsert(o))
    ensures !Busy(Apply(s, SessionCheck(o)))
  {
    var t := Apply(s, SessionCheck(o));
    assert forall p :: p in t.runs && p != o ==> p in s.runs && t.runs[p] == s.runs[p];
  }

  /** Exclusion on the shard, for check and upsert as one step, a punctual run and a careful operator. */
  lemma {:induction false} ExclusionAtOnce(states: seq<State>, acts: seq<Action>, k: nat)
    requires Guarded(states, acts) && CheckedAtOnce(acts) && k < |states|
    ensures Exclusive(states[k])
  {
    forall i {:trigger acts[i]} | 0 <= i < |acts|
      ensures CheckStillTrue(states[i], acts[i])
    {
      if acts[i].Upsert? {
        StepAt(states, acts, i);
        StepAt(states, acts, i - 1);
        IdleAfterCheck(states[i-1], acts[i].o);
      }
    }
    ServerSideExclusion(states, acts, k);
  }

  // ---------------------------------------------------------------------------------------
  // Adoption of an existing schema.
  // ---------------------------------------------------------------------------------------

  /** Somebody's relations are in the schema. */
  predicate InUse(schema: Schema) {
    schema.Present? && schema.relations
  }

  /** The row a run re-read allows it to take over a schema that is in use. */
  predicate MayAdopt(t: Tenant) {
    t.status == Pending || (t.status == New && t.previous == Failed)
  }

  /** The row that a run's re-read showed, while it has not decided yet. */
  lemma ProvisioningStep(s: State, a: Action, o: Owner)
    requires Enabled(s, a) && o in Apply(s, a).runs && Apply(s, a).runs[o].pc.Provisioning?
    ensures o in s.runs
    ensures var was := Apply(s, a).runs[o].pc.was;
            || s.runs[o].pc == Provisioning(was)
            || (a == Reload(o) && s.tenant == Some(was) && was.status in {New, Pending})
  {
    if o in s.runs && !StepOf(a, o) {
      OthersKeep(s, a, o);
    }
  }

  lemma {:induction false} ProvisioningOrigin(states: seq<State>, acts: seq<Action>, m: nat, o: Owner) returns (r: nat)
    requires Behaviour(states, acts) && Init(states[0]) && m < |states|
    requires o in states[m].runs && states[m].runs[o].pc.Provisioning?
    ensures r < m && acts[r] == Reload(o) && SameRun(states, o, r, m)
    ensures states[r].tenant == Some(states[m].runs[o].pc.was) && states[m].runs[o].pc.was.status in {New, Pending}
  {
    StepAt(states, acts, m - 1);
    ProvisioningStep(states[m-1], acts[m-1], o);
    if states[m-1].runs[o].pc.Provisioning? {
      r := ProvisioningOrigin(states, acts, m - 1, o);
    } else {
      r := m - 1;
    }
  }

  lemma VettedStep(s: State, a: Action, o: Owner)
    requires Enabled(s, a) && o in Apply(s, a).runs && Apply(s, a).runs[o].pc.Vetted?
    ensures o in s.runs
    ensures || s.runs[o].pc.Vetted?
            || (a == Vet(o) && s.runs[o].pc.Provisioning?
                && (InUse(s.schema) && s.runs[o].pc.was.status == New ==> MayAdopt(s.runs[o].pc.was)))
  {
    if o in s.runs && !StepOf(a, o) {
      OthersKeep(s, a, o);
    }
  }

  lemma {:induction false} VettedOrigin(states: seq<State>, acts: seq<Action>, m: nat, o: Owner) returns (j: nat)
    requires Behaviour(states, acts) && Init(states[0]) && m < |states|
    requires o in states[m].runs && states[m].runs[o].pc.Vetted?
    ensures j < m && acts[j] == Vet(o) && o in states[j].runs && SameRun(states, o, j, m)
    ensures states[j].runs[o].pc.Provisioning?
    ensures InUse(states[j].schema) && states[j].runs[o].pc.was.status == New ==> MayAdopt(states[j].runs[o].pc.was)
    ensures forall n :: j < n < m ==> acts[n] != Vet(o)
  {
    StepAt(states, acts, m - 1);
    VettedStep(states[m-1], acts[m-1], o);
    if states[m-1].runs[o].pc.Vetted? {
      j := VettedOrigin(states, acts, m - 1, o);
    } else {
      j := m - 1;
    }
  }

  /**
   * No silent adoption: before every claim that hits, the same run re-read the row at r and looked at the
   * shard at j. If the schema was in use at j, the row at r was PENDING, or NEW by one confirmed reset
   * FAILED -> NEW at step c that nothing had touched since.
   */
  lemma {:induction false} NoSilentAdoption(states: seq<State>, acts: seq<Action>, k: nat)
    returns (r: nat, j: nat, c: nat)
    requires Behaviour(states, acts) && Init(states[0]) && k < |acts|
    requires acts[k].Claim? && CasHits(states[k].tenant, states[k].lease, acts[k].o, PROVISIONABLE)
    ensures r < j < k && acts[r] == Reload(acts[k].o) && acts[j] == Vet(acts[k].o) && SameRun(states, acts[k].o, r, k)
    ensures forall n :: j < n < k ==> acts[n] != Vet(acts[k].o)
    ensures states[r].tenant.Some? && states[r].tenant.value.status in {New, Pending}
    ensures states[j].schema.Present? && states[j].schema.relations && states[r].tenant.value.status == New ==>
              && c < r && acts[c] == AdminSet(Failed, New, true)
              && forall n :: c < n <= r ==> states[n].tenant == Some(Tenant(New, Failed))
  {
    var o := acts[k].o;
    StepAt(states, acts, k);
    j := VettedOrigin(states, acts, k, o);
    r := ProvisioningOrigin(states, acts, j, o);
    c := 0;
    if InUse(states[j].schema) && states[r].tenant.value.status == New {
      assert states[r].tenant == Some(Tenant(New, Failed));
      c := AdoptionNeedsConfirmation(states, acts, r);
    }
  }

  /**
   * Conversely, a run that finds its NEW tenant's schema in use, without that confirmation, cannot claim it any
   * more; its next step of its own can be the rejection, which makes the row FAILED if it is still NEW and the
   * lease still its own.
   */
  lemma ForeignRejected(states: seq<State>, acts: seq<Action>, j: nat, m: nat)
    requires Behaviour(states, acts) && j < m <= |acts| && acts[j].Vet? && acts[j].o in states[j].runs
    requires states[j].runs[acts[j].o].pc.Provisioning? && Pauses(acts, acts[j].o, j + 1, m)
    requires InUse(states[j].schema) && states[j].runs[acts[j].o].pc.was.status == New
    requires states[j].runs[acts[j].o].pc.was.previous != Failed
    ensures var s, o := states[m], acts[j].o;
            && !Enabled(s, Claim(o)) && Enabled(s, RejectForeign(o))
            && (s.tenant.Some? && s.tenant.value.status == New && Holds(s.lease, o) ==>
                  Apply(s, RejectForeign(o)).tenant == Some(Tenant(Failed, New)))
  {
    StepAt(states, acts, j);
    StaysPut(states, acts, acts[j].o, j + 1, m);
  }

  /** The look at the shard lets a run claim exactly unless the schema of a NEW, unconfirmed tenant is in use. */
  lemma VetDecides(s: State, o: Owner)
    requires Enabled(s, Vet(o))
    ensures var t, was := Apply(s, Vet(o)), s.runs[o].pc.was;
            && t == s.(runs := t.runs) && (Enabled(t, Claim(o)) <==> !Enabled(t, RejectForeign(o)))
            && (Enabled(t, Claim(o)) <==> !(InUse(s.schema) && was.status == New && was.previous != Failed))
  {
  }

  /** The row after a fenced write of run o. */
  predicate Writes(s: State, t: State, o: Owner, expected: set<Status>, to: Tenant) {
    t.tenant == if s.tenant.Some? && s.tenant.value.status in expected && s.lease.Held? && s.lease.owner == o
                then Some(to) else s.tenant
  }

  /** A claim takes NEW and PENDING rows, a resumed one included, and only a claim that hits goes on to the shard. */
  lemma ClaimDecides(s: State, o: Owner)
    requires Enabled(s, Claim(o))
    ensures var t := Apply(s, Claim(o));
            && Writes(s, t, o, {New, Pending}, Tenant(Pending, New))
            && (Enabled(t, CreateSchema(o)) <==>
                  && s.tenant.Some? && s.tenant.value.status in {New, Pending}
                  && s.lease.Held? && s.lease.owner == o)
            && t == s.(tenant := t.tenant, runs := t.runs)
  {
  }

  /** The plan check lets a run go on to ACTIVE exactly when the schema has every migration it knows. */
  lemma PlanDecides(s: State, o: Owner)
    requires Enabled(s, PlanCheck(o))
    ensures var t := Apply(s, PlanCheck(o));
            && t == s.(runs := t.runs)
            && (Enabled(t, Activate(o)) <==> s.schema.Present? && s.runs[o].opts.known <= s.schema.applied)
  {
  }

  /** The three other status writes of provisioning. */
  lemma ProvisionWrites(s: State, o: Owner)
    ensures Enabled(s, Activate(o)) ==> Writes(s, Apply(s, Activate(o)), o, {Pending}, Tenant(Active, Pending))
    ensures Enabled(s, MarkFailed(o)) ==> Writes(s, Apply(s, MarkFailed(o)), o, {Pending}, Tenant(Failed, Pending))
    ensures Enabled(s, RejectForeign(o)) ==> Writes(s, Apply(s, RejectForeign(o)), o, {New}, Tenant(Failed, New))
  {
  }

  // ---------------------------------------------------------------------------------------
  // Failures.
  // ---------------------------------------------------------------------------------------

  /** A failure of a run that has claimed its tenant: an exception, or a plan that is not empty after the run. */
  predicate FailsClaimed(s: State, a: Action, o: Owner) {
    && o in s.runs && OwesFailure(s.runs[o].pc)
    && (a == Error(o)
        || (a == PlanCheck(o) && (s.schema.Missing? || !(s.runs[o].opts.known <= s.schema.applied))))
  }

  /** After such a failure the run's next own step can record it: FAILED, if row and lease are still as claimed. */
  lemma FailureRecorded(states: seq<State>, acts: seq<Action>, i: nat, m: nat, o: Owner)
    requires Behaviour(states, acts) && i < m <= |acts| && FailsClaimed(states[i], acts[i], o)
    requires Pauses(acts, o, i + 1, m)
    ensures var s := states[m];
            && !Enabled(s, Activate(o)) && Enabled(s, MarkFailed(o))
            && (s.tenant.Some? && s.tenant.value.status == Pending && Holds(s.lease, o) ==>
                  Apply(s, MarkFailed(o)).tenant == Some(Tenant(Failed, Pending)))
  {
    StepAt(states, acts, i);
    StaysPut(states, acts, o, i + 1, m);
  }

  lemma FailingStep(s: State, a: Action, o: Owner)
    requires Enabled(s, a) && o in Apply(s, a).runs && Apply(s, a).runs[o].pc.Failing?
    ensures o in s.runs && (s.runs[o].pc.Failing? || FailsClaimed(s, a, o))
  {
    if o in s.runs && !StepOf(a, o) {
      OthersKeep(s, a, o);
    }
  }

  /** And FAILED is recorded for such a failure only. */
  lemma {:induction false} FailureOrigin(states: seq<State>, acts: seq<Action>, m: nat, o: Owner) returns (i: nat)
    requires Behaviour(states, acts) && Init(states[0]) && m < |acts| && acts[m] == MarkFailed(o)
    ensures i < m && FailsClaimed(states[i], acts[i], o) && SameRun(states, o, i, m)
  {
    StepAt(states, acts, m);
    i := FailingSince(states, acts, m, o);
  }

  lemma {:induction false} FailingSince(states: seq<State>, acts: seq<Action>, m: nat, o: Owner) returns (i: nat)
    requires Behaviour(states, acts) && Init(states[0]) && m < |states|
    requires o in states[m].runs && states[m].runs[o].pc.Failing?
    ensures i < m && FailsClaimed(states[i], acts[i], o) && SameRun(states, o, i, m)
  {
    StepAt(states, acts, m - 1);
    FailingStep(states[m-1], acts[m-1], o);
    if states[m-1].runs[o].pc.Failing? {
      i := FailingSince(states, acts, m - 1, o);
    } else {
      i := m - 1;
    }
  }

  /** An exception of a run that has claimed nothing, and a lost connection of any run, write no status. */
  lemma SilentFailures(s: State, o: Owner, survives: bool)
    ensures Enabled(s, Error(o)) && !OwesFailure(s.runs[o].pc) ==>
              Apply(s, Error(o)) == Goto(s, o, Closing(true))
    ensures Enabled(s, ConnLost(o, survives)) ==>
              && Apply(s, ConnLost(o, survives)).tenant == s.tenant
              && Apply(s, ConnLost(o, survives)).runs == s.runs[o := s.runs[o].(pc := Closing(true))]
  {
  }

  // ---------------------------------------------------------------------------------------
  // The upgrade.
  // ---------------------------------------------------------------------------------------

  /**
   * An upgrade migrates exactly when the schema exists and lacks a known migration, or the run is targeted;
   * records a vanished schema as FAILED unless the operator owns the tenant; and otherwise only lets go.
   */
  lemma UpgradeDecides(s: State, o: Owner)
    requires Enabled(s, Inspect(o))
    ensures var t, run := Apply(s, Inspect(o)), s.runs[o];
            && t == s.(runs := t.runs)
            && (Enabled(t, BeginStatement(o)) <==>
                  s.schema.Present? && (run.opts.targeted || !(run.opts.known <= s.schema.applied)))
            && (Enabled(t, MarkMissing(o)) <==> s.schema.Missing? && run.pc.seen != Maintenance)
            && (Enabled(t, Release(o, true)) <==>
                  s.rowLock.None? && !Enabled(t, BeginStatement(o)) && !Enabled(t, MarkMissing(o)))
  {
  }

  lemma VanishedOriginStep(s: State, a: Action, o: Owner)
    requires Enabled(s, a) && o in Apply(s, a).runs && Apply(s, a).runs[o].pc.Vanished?
    ensures o in s.runs
    ensures var seen := Apply(s, a).runs[o].pc.seen;
            || s.runs[o].pc == Vanished(seen)
            || (a == Inspect(o) && s.schema.Missing? && s.runs[o].pc == Upgrading(seen))
  {
    if o in s.runs && !StepOf(a, o) {
      OthersKeep(s, a, o);
    }
  }

  /** A tenant is marked FAILED for a missing schema only by a run that found none, from the status it had read. */
  lemma {:induction false} MissingOrigin(states: seq<State>, acts: seq<Action>, m: nat, o: Owner) returns (i: nat)
    requires Behaviour(states, acts) && Init(states[0]) && m < |states|
    requires o in states[m].runs && states[m].runs[o].pc.Vanished?
    ensures i < m && acts[i] == Inspect(o) && states[i].schema.Missing? && SameRun(states, o, i, m)
    ensures o in states[i].runs && states[i].runs[o].pc == Upgrading(states[m].runs[o].pc.seen)
  {
    StepAt(states, acts, m - 1);
    VanishedOriginStep(states[m-1], acts[m-1], o);
    if states[m-1].runs[o].pc.Vanished? {
      i := MissingOrigin(states, acts, m - 1, o);
    } else {
      i := m - 1;
    }
  }

  /** The write itself. */
  lemma MissingRecorded(s: State, o: Owner)
    requires Enabled(s, MarkMissing(o))
    ensures var seen, t := s.runs[o].pc.seen, Apply(s, MarkMissing(o));
            t.tenant == if s.tenant.Some? && s.tenant.value.status == seen && Holds(s.lease, o)
                        then Some(Tenant(Failed, seen)) else s.tenant
  {
  }

  // ---------------------------------------------------------------------------------------
  // The end of a run and its lease.
  // ---------------------------------------------------------------------------------------

  /** An interrupted run whose statement goes on without it keeps its lease to the end. */
  lemma InterruptKeepsLease(states: seq<State>, acts: seq<Action>, i: nat, m: nat, o: Owner, ok: bool)
    requires Behaviour(states, acts) && i < m <= |acts| && acts[i] == Interrupt(o, true) && Pauses(acts, o, i + 1, m)
    requires o in states[i].runs && states[i].runs[o].pc.Migrating? && states[i].runs[o].pc.busy
    requires Enabled(states[m], Release(o, ok))
    ensures states[i+1].orphans == states[i].orphans + [states[i].runs[o].opts]
    ensures Apply(states[m], Release(o, ok)).lease == states[m].lease
  {
    StepAt(states, acts, i);
    StaysPut(states, acts, o, i + 1, m);
  }

  /** Every other end gives the lease up, if it is still the run's own and the release gets through. */
  lemma EndReleases(s: State, a: Action, o: Owner)
    requires Enabled(s, a) && o in s.runs && UnderLease(s.runs[o].pc) && s.rowLock.None?
    requires a == ConnLost(o, true) || a == ConnLost(o, false) || a == Interrupt(o, false) || a == FinishUpgrade(o)
              || a == SkipProvision(o)
    ensures var t := Apply(s, a);
            && Enabled(t, Release(o, true))
            && Apply(t, Release(o, true)).lease == (if Holds(s.lease, o) then Free else s.lease)
            && Apply(t, Release(o, false)).lease == s.lease && o !in Apply(t, Release(o, true)).runs
  {
  }

  /** A killed process writes nothing; its statement may go on. */
  lemma KillLeaves(s: State, o: Owner, survives: bool)
    requires Enabled(s, Kill(o, survives))
    ensures var t, pc := Apply(s, Kill(o, survives)), s.runs[o].pc;
            && t == s.(runs := s.runs - {o}, orphans := t.orphans)
            && t.orphans == if pc.Migrating? && pc.busy && survives then s.orphans + [s.runs[o].opts] else s.orphans
  {
  }

  // ---------------------------------------------------------------------------------------
  // Admin and console.
  // ---------------------------------------------------------------------------------------

  /** The row after a write that expects one status: previous_status remembers it. */
  predicate MovedFrom(s: State, t: State, from: Status, to: Status) {
    t.tenant == if s.tenant.Some? && s.tenant.value.status == from then Some(Tenant(to, from)) else s.tenant
  }

  /** The admin's transitions; MAINTENANCE is entered under the lease row's lock instead. */
  lemma AdminTransitions(s: State, from: Status, to: Status, confirmed: bool)
    ensures Enabled(s, AdminSet(from, to, confirmed)) <==>
              || (from, to) in {(Active, Deactivated), (Deactivated, Active)}
              || (from == Maintenance && to in {Active, Deactivated, Failed})
              || (from == Failed && to == New && confirmed)
    ensures Enabled(s, AdminSet(from, to, confirmed)) ==>
              MovedFrom(s, Apply(s, AdminSet(from, to, confirmed)), from, to)
  {
  }

  /** The lock is refused while the lease is live; under it no run can take the lease. */
  lemma AdminLocks(s: State, from: Status)
    ensures Enabled(s, AdminLock(from)) <==>
              && s.rowLock.None? && from in {Active, Deactivated, Failed}
              && (s.lease.Held? ==> s.lease.until < s.now)
    ensures Enabled(s, AdminLock(from)) ==>
              && Apply(s, AdminLock(from)) == s.(rowLock := Some(from))
              && forall o :: !Enabled(Apply(s, AdminLock(from)), Upsert(o))
  {
  }

  lemma AdminCommits(s: State)
    ensures Enabled(s, AdminCommit) ==>
              MovedFrom(s, Apply(s, AdminCommit), s.rowLock.value, Maintenance) && Apply(s, AdminCommit).rowLock.None?
    ensures Enabled(s, AdminRollback) ==> Apply(s, AdminRollback) == s.(rowLock := None)
  {
  }

  lemma ConsoleToggles(s: State)
    ensures Enabled(s, ConsoleSet(Active)) && MovedFrom(s, Apply(s, ConsoleSet(Active)), Active, Deactivated)
    ensures Enabled(s, ConsoleSet(Deactivated)) && MovedFrom(s, Apply(s, ConsoleSet(Deactivated)), Deactivated, Active)
  {
  }
}
