/** What every interleaving of the protocol keeps, and what it keeps while the lease's assumptions hold. */
module MigratorSafety {
  import opened Types
  import opened Lease
  import opened Migrator

  // ---------------------------------------------------------------------------------------
  // Fence continuity: no assumption on time, crashes, operators or admins.
  // ---------------------------------------------------------------------------------------

  /** The fenced status writes of the migrator: who writes, and from which statuses. */
  predicate FencedStep(s: State, a: Action, o: Owner, expected: set<Status>) {
    match a
    case RejectForeign(p) => p == o && expected == {New}
    case Claim(p) => p == o && expected == PROVISIONABLE
    case Activate(p) => p == o && expected == {Pending}
    case MarkFailed(p) => p == o && expected == {Pending}
    case MarkMissing(p) => p == o && p in s.runs && s.runs[p].pc.Vanished? && expected == {s.runs[p].pc.seen}
    case _ => false
  }

  // Steps of a run, by their place in it, for proofs that go through them group by group.

  predicate Acquiring(a: Action) {
    || a.Begin? || a.SessionCheck? || a.Upsert? || a.Reload? || a.SkipProvision? || a.Vet? || a.RejectForeign?
    || a.Claim?
  }

  predicate Executing(a: Action) {
    || a.CreateSchema? || a.OpenShard? || a.BeginStatement? || a.EndStatement? || a.PlanCheck? || a.Activate?
    || a.MarkFailed? || a.Inspect? || a.MarkMissing? || a.FinishUpgrade?
  }

  predicate Ending(a: Action) {
    a.Error? || a.ConnLost? || a.Interrupt? || a.Release? || a.Kill?
  }

  /** Clock, orphans, operator, admin and console change no run. */
  lemma RunsUntouched(s: State, a: Action)
    requires Enabled(s, a) && !Acquiring(a) && !Executing(a) && !Ending(a)
    ensures Apply(s, a).runs == s.runs
  {
  }

  /** Process o's run is the same one at every state after i, up to and including j. */
  ghost predicate SameRun(states: seq<State>, o: Owner, i: nat, j: nat)
    requires j < |states|
  {
    forall m {:trigger states[m]} :: i < m <= j ==> o in states[m].runs
  }

  /** A run stays under the lease until it ends. */
  lemma UnderLeaseStep(s: State, a: Action, o: Owner)
    requires Enabled(s, a) && HoldsRun(s, o) && o in Apply(s, a).runs
    ensures HoldsRun(Apply(s, a), o)
  {
    if Acquiring(a) {
      UnderLeaseAcquiring(s, a, o);
    } else if Executing(a) {
      UnderLeaseExecuting(s, a, o);
    } else if !Ending(a) {
      RunsUntouched(s, a);
    }
  }

  lemma UnderLeaseAcquiring(s: State, a: Action, o: Owner)
    requires Enabled(s, a) && Acquiring(a) && HoldsRun(s, o) && o in Apply(s, a).runs
    ensures HoldsRun(Apply(s, a), o)
  {
  }

  lemma UnderLeaseExecuting(s: State, a: Action, o: Owner)
    requires Enabled(s, a) && Executing(a) && HoldsRun(s, o) && o in Apply(s, a).runs
    ensures HoldsRun(Apply(s, a), o)
  {
  }

  /** A run that has lost the lease never gets it back. */
  lemma LostStaysLost(s: State, a: Action, o: Owner)
    requires Enabled(s, a) && HoldsRun(s, o) && !Holds(s.lease, o)
    ensures !Holds(Apply(s, a).lease, o)
  {
    if !a.Upsert? && !a.Release? && !a.OperatorRelease? {
      LeaseUntouched(s, a);
    }
  }

  lemma UnderLeaseUntilEnd(states: seq<State>, acts: seq<Action>, o: Owner, i: nat, m: nat)
    requires Behaviour(states, acts) && i < m < |states|
    requires HoldsRun(states[i+1], o) && SameRun(states, o, i, m)
    ensures HoldsRun(states[m], o)
  {
    if i + 1 < m {
      UnderLeaseUntilEnd(states, acts, o, i, m - 1);
      assert states[m] == Apply(states[m-1], acts[m-1]);
      UnderLeaseStep(states[m-1], acts[m-1], o);
    }
  }

  lemma LostUntil(states: seq<State>, acts: seq<Action>, o: Owner, i: nat, m: nat, j: nat)
    requires Behaviour(states, acts) && i < m <= j < |states|
    requires HoldsRun(states[i+1], o) && SameRun(states, o, i, j)
    requires !Holds(states[m].lease, o)
    ensures !Holds(states[j].lease, o)
  {
    if m < j {
      LostUntil(states, acts, o, i, m, j - 1);
      UnderLeaseUntilEnd(states, acts, o, i, j - 1);
      assert states[j] == Apply(states[j-1], acts[j-1]);
      LostStaysLost(states[j-1], acts[j-1], o);
    }
  }

  lemma WonStep(s: State, a: Action, o: Owner)
    requires Enabled(s, a) && HoldsRun(Apply(s, a), o) && !HoldsRun(s, o)
    ensures a == Upsert(o) && !Live(s.lease, s.now)
  {
  }

  /** A run under the lease has won an upsert of its own, and is still the same run. */
  lemma {:induction false} LeaseOrigin(states: seq<State>, acts: seq<Action>, j: nat, o: Owner) returns (i: nat)
    requires Behaviour(states, acts) && Init(states[0]) && j < |states| && HoldsRun(states[j], o)
    ensures i < j && acts[i] == Upsert(o) && !Live(states[i].lease, states[i].now) && SameRun(states, o, i, j)
  {
    assert states[j] == Apply(states[j-1], acts[j-1]);
    if HoldsRun(states[j-1], o) {
      i := LeaseOrigin(states, acts, j - 1, o);
    } else {
      WonStep(states[j-1], acts[j-1], o);
      i := j - 1;
    }
  }

  /**
   * A fenced status write that updates its row proves that its run has held the lease at
   * every state since that run's own winning upsert, across any expiry, takeover, release,
   * operator release or clock.
   */
  lemma {:induction false} FenceContinuity(states: seq<State>, acts: seq<Action>, o: Owner, j: nat,
                                           expected: set<Status>) returns (i: nat)
    requires Behaviour(states, acts) && Init(states[0]) && j < |acts|
    requires FencedStep(states[j], acts[j], o, expected) && CasHits(states[j].tenant, states[j].lease, o, expected)
    ensures i < j && acts[i] == Upsert(o) && !Live(states[i].lease, states[i].now) && SameRun(states, o, i, j)
    ensures forall m :: i < m <= j ==> Holds(states[m].lease, o)
  {
    assert Enabled(states[j], acts[j]);
    i := LeaseOrigin(states, acts, j, o);
    assert states[i+1] == Apply(states[i], acts[i]);
    forall m | i < m <= j
      ensures Holds(states[m].lease, o)
    {
      if !Holds(states[m].lease, o) {
        LostUntil(states, acts, o, i, m, j);
      }
    }
  }

  /** The three ways a lease leaves its holder; another run's release is not among them. */
  lemma LeaseLossCauses(s: State, a: Action, p: Owner)
    requires Enabled(s, a) && Holds(s.lease, p) && !Holds(Apply(s, a).lease, p)
    ensures a == Release(p, true) || a == OperatorRelease(p) || (a.Upsert? && a.o != p && Expired(s.lease, s.now))
  {
    if !a.Upsert? && !a.Release? && !a.OperatorRelease? {
      LeaseUntouched(s, a);
      assert false;
    }
  }

  /** Only the upsert and the two releases write the lease row. */
  lemma LeaseUntouched(s: State, a: Action)
    requires Enabled(s, a) && !a.Upsert? && !a.Release? && !a.OperatorRelease?
    ensures Apply(s, a).lease == s.lease
  {
  }

  // ---------------------------------------------------------------------------------------
  // From claim to ACTIVE nobody else writes the status: again for every interleaving.
  // ---------------------------------------------------------------------------------------

  predicate ClaimIntact(s: State, o: Owner) {
    o in s.runs && OwesFailure(s.runs[o].pc) && Holds(s.lease, o) && s.tenant == Some(Tenant(Pending, New))
  }

  /** The claim can no longer lead to ACTIVE in this run. */
  predicate ClaimSpent(s: State, o: Owner) {
    HoldsRun(s, o) && (s.runs[o].pc.Failing? || s.runs[o].pc.Closing? || !Holds(s.lease, o) || s.tenant.None?)
  }

  lemma ClaimStep(s: State, a: Action, o: Owner)
    requires Enabled(s, a) && o in Apply(s, a).runs && ClaimIntact(s, o)
    ensures ClaimIntact(Apply(s, a), o) || ClaimSpent(Apply(s, a), o)
  {
  }

  lemma SpentStep(s: State, a: Action, o: Owner)
    requires Enabled(s, a) && o in Apply(s, a).runs && ClaimSpent(s, o)
    ensures ClaimSpent(Apply(s, a), o)
  {
    UnderLeaseStep(s, a, o);
    if !Holds(s.lease, o) {
      LostStaysLost(s, a, o);
    }
  }

  lemma ClaimSpentUntil(states: seq<State>, acts: seq<Action>, o: Owner, m: nat, j: nat)
    requires Behaviour(states, acts) && m <= j < |states| && SameRun(states, o, m, j)
    requires ClaimSpent(states[m], o)
    ensures ClaimSpent(states[j], o)
  {
    if m < j {
      ClaimSpentUntil(states, acts, o, m, j - 1);
      assert states[j] == Apply(states[j-1], acts[j-1]);
      SpentStep(states[j-1], acts[j-1], o);
    }
  }

  lemma ClaimedStep(s: State, a: Action, o: Owner)
    requires Enabled(s, a) && o in Apply(s, a).runs && OwesFailure(Apply(s, a).runs[o].pc)
    requires !(o in s.runs && OwesFailure(s.runs[o].pc))
    ensures o in s.runs && a == Claim(o) && CasHits(s.tenant, s.lease, o, PROVISIONABLE)
  {
    if Executing(a) {
      OwesExecuting(s, a, o);
      assert false;
    } else if Ending(a) {
      OwesEnding(s, a, o);
      assert false;
    } else if !Acquiring(a) {
      RunsUntouched(s, a);
      assert false;
    }
  }

  lemma OwesExecuting(s: State, a: Action, o: Owner)
    requires Enabled(s, a) && Executing(a) && o in Apply(s, a).runs && OwesFailure(Apply(s, a).runs[o].pc)
    ensures o in s.runs && OwesFailure(s.runs[o].pc)
  {
  }

  lemma OwesEnding(s: State, a: Action, o: Owner)
    requires Enabled(s, a) && Ending(a) && o in Apply(s, a).runs && OwesFailure(Apply(s, a).runs[o].pc)
    ensures o in s.runs && OwesFailure(s.runs[o].pc)
  {
  }

  /** A run that may write ACTIVE or owes FAILED has claimed the tenant, and is still the same run. */
  lemma {:induction false} ClaimOrigin(states: seq<State>, acts: seq<Action>, j: nat, o: Owner) returns (i: nat)
    requires Behaviour(states, acts) && Init(states[0]) && j < |states|
    requires o in states[j].runs && OwesFailure(states[j].runs[o].pc)
    ensures i < j && acts[i] == Claim(o)
    ensures CasHits(states[i].tenant, states[i].lease, o, PROVISIONABLE) && SameRun(states, o, i, j)
  {
    assert states[j] == Apply(states[j-1], acts[j-1]);
    if o in states[j-1].runs && OwesFailure(states[j-1].runs[o].pc) {
      i := ClaimOrigin(states, acts, j - 1, o);
    } else {
      ClaimedStep(states[j-1], acts[j-1], o);
      i := j - 1;
    }
  }

  /**
   * When a run writes PENDING -> ACTIVE, it has claimed the tenant, and from that claim on the
   * tenant row was exactly the claimed one and the lease was held at every state: neither another
   * run nor the admin nor the console touched it. No assumption on the TTL is needed.
   */
  lemma {:induction false} ClaimToActive(states: seq<State>, acts: seq<Action>, j: nat) returns (i: nat)
    requires Behaviour(states, acts) && Init(states[0]) && j < |acts|
    requires acts[j].Activate? && CasHits(states[j].tenant, states[j].lease, acts[j].o, {Pending})
    ensures i < j && acts[i] == Claim(acts[j].o) && SameRun(states, acts[j].o, i, j)
    ensures forall m :: i < m <= j ==> ClaimIntact(states[m], acts[j].o)
  {
    var o := acts[j].o;
    assert Enabled(states[j], acts[j]);
    i := ClaimOrigin(states, acts, j, o);
    ClaimHolds(states, acts, o, i, j);
  }

  lemma {:induction false} ClaimHolds(states: seq<State>, acts: seq<Action>, o: Owner, i: nat, j: nat)
    requires Behaviour(states, acts) && i < j < |acts|
    requires acts[i] == Claim(o) && CasHits(states[i].tenant, states[i].lease, o, PROVISIONABLE)
    requires SameRun(states, o, i, j)
    requires acts[j] == Activate(o) && CasHits(states[j].tenant, states[j].lease, o, {Pending})
    ensures forall m :: i < m <= j ==> ClaimIntact(states[m], o)
  {
    var m := i + 1;
    assert states[i+1] == Apply(states[i], acts[i]);
    while m < j
      invariant i < m <= j
      invariant forall n :: i < n <= m ==> ClaimIntact(states[n], o)
    {
      assert states[m+1] == Apply(states[m], acts[m]);
      ClaimStep(states[m], acts[m], o);
      if ClaimSpent(states[m+1], o) && !ClaimIntact(states[m+1], o) {
        ClaimSpentUntil(states, acts, o, m + 1, j);
        assert false;
      }
      m := m + 1;
    }
  }

  // ---------------------------------------------------------------------------------------
  // The status machine of migrator, admin and console together.
  // ---------------------------------------------------------------------------------------

  /** The edges of the README's diagram, and NEW -> FAILED for a schema that is already in use. */
  predicate DocumentedEdge(from: Status, to: Status) {
    match from
    case New => to in {Pending, Failed}
    case Pending => to in {Active, Failed}
    case Active => to in {Deactivated, Failed, Maintenance}
    case Deactivated => to in {Active, Failed, Maintenance}
    case Failed => to in {New, Maintenance}
    case Maintenance => to in {Active, Deactivated, Failed}
  }

  /** Only a run that re-read ACTIVE or DEACTIVATED can find its schema gone. */
  ghost predicate OnlyServedVanish(s: State) {
    && (forall o :: o in s.runs && s.runs[o].pc.Vanished? ==> s.runs[o].pc.seen in UPGRADABLE)
    && (forall o :: o in s.runs && s.runs[o].pc.Upgrading? ==> s.runs[o].pc.seen in UPGRADABLE + {Maintenance})
  }

  lemma VanishedStep(s: State, a: Action, o: Owner)
    requires Enabled(s, a) && OnlyServedVanish(s) && o in Apply(s, a).runs && Apply(s, a).runs[o].pc.Vanished?
    ensures Apply(s, a).runs[o].pc.seen in UPGRADABLE
  {
  }

  lemma UpgradingStep(s: State, a: Action, o: Owner)
    requires Enabled(s, a) && OnlyServedVanish(s) && o in Apply(s, a).runs && Apply(s, a).runs[o].pc.Upgrading?
    ensures Apply(s, a).runs[o].pc.seen in UPGRADABLE + {Maintenance}
  {
  }

  lemma OnlyServedVanishStep(s: State, a: Action)
    requires Enabled(s, a) && OnlyServedVanish(s)
    ensures OnlyServedVanish(Apply(s, a))
  {
    forall o | o in Apply(s, a).runs
      ensures Apply(s, a).runs[o].pc.Vanished? ==> Apply(s, a).runs[o].pc.seen in UPGRADABLE
      ensures Apply(s, a).runs[o].pc.Upgrading? ==> Apply(s, a).runs[o].pc.seen in UPGRADABLE + {Maintenance}
    {
      if Apply(s, a).runs[o].pc.Vanished? {
        VanishedStep(s, a, o);
      } else if Apply(s, a).runs[o].pc.Upgrading? {
        UpgradingStep(s, a, o);
      }
    }
  }

  lemma {:induction false} OnlyServedVanishAlways(states: seq<State>, acts: seq<Action>, k: nat)
    requires Behaviour(states, acts) && Init(states[0]) && k < |states|
    ensures OnlyServedVanish(states[k])
  {
    if k > 0 {
      OnlyServedVanishAlways(states, acts, k - 1);
      assert states[k] == Apply(states[k-1], acts[k-1]);
      OnlyServedVanishStep(states[k-1], acts[k-1]);
    }
  }

  /**
   * Every status change of every behaviour is a documented edge; MAINTENANCE is entered and
   * left only by the admin, NEW is re-entered only by the admin's confirmed reset, and PENDING
   * is entered only by the migrator.
   */
  lemma {:induction false} StatusMachine(states: seq<State>, acts: seq<Action>, k: nat)
    requires Behaviour(states, acts) && Init(states[0]) && k < |acts|
    requires states[k].tenant.Some? && states[k+1].tenant.Some?
    requires states[k].tenant.value.status != states[k+1].tenant.value.status
    ensures DocumentedEdge(states[k].tenant.value.status, states[k+1].tenant.value.status)
    ensures states[k+1].tenant.value.status == Maintenance <==> acts[k].AdminCommit?
    ensures states[k].tenant.value.status == Maintenance ==> acts[k].AdminSet?
    ensures states[k+1].tenant.value.status == New <==> acts[k] == AdminSet(Failed, New, true)
    ensures states[k+1].tenant.value.status == Pending <==> acts[k].Claim?
  {
    OnlyServedVanishAlways(states, acts, k);
    assert states[k+1] == Apply(states[k], acts[k]);
  }

  /** A tenant whose row was deleted never comes back under the same key. */
  lemma DeletedStaysDeleted(s: State, a: Action)
    requires Enabled(s, a) && s.tenant.None?
    ensures Apply(s, a).tenant.None?
  {
    if Acquiring(a) || Executing(a) || Ending(a) {
      RunCreatesNoRow(s, a);
    }
  }

  lemma RunCreatesNoRow(s: State, a: Action)
    requires Enabled(s, a) && s.tenant.None? && (Acquiring(a) || Executing(a) || Ending(a))
    ensures Apply(s, a).tenant.None?
  {
  }

  /**
   * NEW with previous status FAILED, the state in which provisioning adopts an existing
   * schema, is always the product of one confirmed FAILED -> NEW reset, untouched since.
   */
  lemma {:induction false} AdoptionNeedsConfirmation(states: seq<State>, acts: seq<Action>, k: nat) returns (i: nat)
    requires Behaviour(states, acts) && Init(states[0]) && k < |states|
    requires states[k].tenant == Some(Tenant(New, Failed))
    ensures i < k && acts[i] == AdminSet(Failed, New, true)
    ensures states[i].tenant.Some? && states[i].tenant.value.status == Failed
    ensures forall m :: i < m <= k ==> states[m].tenant == Some(Tenant(New, Failed))
  {
    assert states[k] == Apply(states[k-1], acts[k-1]);
    if states[k-1].tenant == states[k].tenant {
      i := AdoptionNeedsConfirmation(states, acts, k - 1);
    } else {
      OnlyServedVanishAlways(states, acts, k - 1);
      i := k - 1;
    }
  }

  // ---------------------------------------------------------------------------------------
  // What needs the lease's assumptions: no live run outlives its TTL and an operator releases no
  // live run's lease. Exclusion on the shard also needs the session check to be still true when
  // the upsert wins.
  // ---------------------------------------------------------------------------------------

  /** No live run under the lease is past the expiry it wrote. */
  ghost predicate Punctual(s: State) {
    forall o :: HoldsRun(s, o) ==> s.now <= s.runs[o].until
  }

  predicate OperatorCareful(s: State, a: Action) {
    a.OperatorRelease? ==> !HoldsRun(s, a.o)
  }

  predicate CheckStillTrue(s: State, a: Action) {
    a.Upsert? && !Live(s.lease, s.now) ==> !Busy(s)
  }

  ghost predicate Guarded(states: seq<State>, acts: seq<Action>) {
    && Behaviour(states, acts) && Init(states[0])
    && (forall i :: 0 <= i < |states| ==> Punctual(states[i]))
    && (forall i {:trigger acts[i]} :: 0 <= i < |acts| ==> OperatorCareful(states[i], acts[i]))
  }

  ghost predicate Supported(states: seq<State>, acts: seq<Action>) {
    Guarded(states, acts) && forall i {:trigger acts[i]} :: 0 <= i < |acts| ==> CheckStillTrue(states[i], acts[i])
  }

  predicate InMaintenance(s: State) {
    s.tenant.Some? && s.tenant.value.status == Maintenance
  }

  predicate Working(pc: Pc) {
    !pc.Acquired? && !pc.Closing?
  }

  /** Whoever is under the lease holds it, so there is at most one. */
  ghost predicate LeaseInv(s: State) {
    forall o :: HoldsRun(s, o) ==> s.lease == Held(o, s.runs[o].until)
  }

  ghost predicate MaintenanceInv(s: State) {
    && (s.rowLock.Some? ==> forall o :: !HoldsRun(s, o))
    && (s.tenant.Some? && s.tenant.value.status == Maintenance ==>
          forall o :: HoldsRun(s, o) && Working(s.runs[o].pc) ==> s.runs[o].opts.maintenance)
  }

  /** A claimed tenant stays PENDING. */
  ghost predicate ClaimInv(s: State) {
    forall o :: HoldsRun(s, o) && OwesFailure(s.runs[o].pc) && s.tenant.Some? ==> s.tenant == Some(Tenant(Pending, New))
  }

  lemma HolderStep(s: State, a: Action, o: Owner)
    requires Enabled(s, a) && LeaseInv(s) && Punctual(s) && OperatorCareful(s, a) && HoldsRun(Apply(s, a), o)
    ensures Apply(s, a).lease == Held(o, Apply(s, a).runs[o].until)
  {
    if !HoldsRun(s, o) {
      WonStep(s, a, o);
    } else {
      UntilStays(s, a, o);
      if !a.Upsert? && !a.Release? && !a.OperatorRelease? {
        LeaseUntouched(s, a);
      }
    }
  }

  /** The expiry a run wrote stays with it. */
  lemma UntilStays(s: State, a: Action, o: Owner)
    requires Enabled(s, a) && HoldsRun(s, o) && HoldsRun(Apply(s, a), o)
    ensures Apply(s, a).runs[o].until == s.runs[o].until
  {
  }

  lemma LeaseStep(s: State, a: Action)
    requires Enabled(s, a) && LeaseInv(s) && Punctual(s) && OperatorCareful(s, a)
    ensures LeaseInv(Apply(s, a))
  {
    forall o | HoldsRun(Apply(s, a), o)
      ensures Apply(s, a).lease == Held(o, Apply(s, a).runs[o].until)
    {
      HolderStep(s, a, o);
    }
  }

  /** While the admin holds the lease row nobody is under the lease: the upsert waits for it. */
  lemma RowLockStep(s: State, a: Action, o: Owner)
    requires Enabled(s, a) && LeaseInv(s) && Punctual(s) && MaintenanceInv(s) && HoldsRun(Apply(s, a), o)
    ensures Apply(s, a).rowLock.None?
  {
    if HoldsRun(s, o) {
      assert Live(s.lease, s.now);
    } else {
      WonStep(s, a, o);
    }
  }

  /** A run that goes to work under the lease re-read the status after its upsert. */
  lemma WorkerStep(s: State, a: Action, o: Owner)
    requires Enabled(s, a) && MaintenanceInv(s) && HoldsRun(s, o) && HoldsRun(Apply(s, a), o)
    requires Working(Apply(s, a).runs[o].pc)
    requires Apply(s, a).tenant.Some? && Apply(s, a).tenant.value.status == Maintenance
    ensures Apply(s, a).runs[o].opts.maintenance
  {
    assert s.rowLock.None?;
    EntersMaintenanceOnlyByCommit(s, a);
  }

  lemma EntersMaintenanceOnlyByCommit(s: State, a: Action)
    requires Enabled(s, a) && Apply(s, a).tenant.Some? && Apply(s, a).tenant.value.status == Maintenance
    ensures a.AdminCommit? || s.tenant == Apply(s, a).tenant
  {
    if Acquiring(a) || Ending(a) {
      WritesNoMaintenance(s, a);
    } else if Executing(a) {
      WorkWritesNoMaintenance(s, a);
    }
  }

  lemma WritesNoMaintenance(s: State, a: Action)
    requires Enabled(s, a) && (Acquiring(a) || Ending(a)) && InMaintenance(Apply(s, a))
    ensures s.tenant == Apply(s, a).tenant
  {
  }

  lemma WorkWritesNoMaintenance(s: State, a: Action)
    requires Enabled(s, a) && Executing(a) && InMaintenance(Apply(s, a))
    ensures s.tenant == Apply(s, a).tenant
  {
  }

  lemma MaintenanceStep(s: State, a: Action)
    requires Enabled(s, a) && LeaseInv(s) && Punctual(s) && MaintenanceInv(s)
    ensures MaintenanceInv(Apply(s, a))
  {
    var t := Apply(s, a);
    forall o | HoldsRun(t, o)
      ensures t.rowLock.None?
      ensures t.tenant.Some? && t.tenant.value.status == Maintenance && Working(t.runs[o].pc) ==>
                t.runs[o].opts.maintenance
    {
      RowLockStep(s, a, o);
      if !HoldsRun(s, o) {
        WonStep(s, a, o);
      } else if t.tenant.Some? && t.tenant.value.status == Maintenance && Working(t.runs[o].pc) {
        WorkerStep(s, a, o);
      }
    }
  }

  lemma ClaimInvStep(s: State, a: Action)
    requires Enabled(s, a) && LeaseInv(s) && ClaimInv(s)
    ensures ClaimInv(Apply(s, a))
  {
    var t := Apply(s, a);
    forall o | HoldsRun(t, o)
      ensures OwesFailure(t.runs[o].pc) && t.tenant.Some? ==> t.tenant == Some(Tenant(Pending, New))
    {
      if !HoldsRun(s, o) {
        WonStep(s, a, o);
      }
    }
  }

  ghost predicate Inv(s: State) {
    LeaseInv(s) && MaintenanceInv(s) && ClaimInv(s)
  }

  lemma InvStep(s: State, a: Action, t: State)
    requires Enabled(s, a) && t == Apply(s, a) && Punctual(s) && OperatorCareful(s, a) && Inv(s)
    ensures Inv(t)
  {
    LeaseStep(s, a);
    MaintenanceStep(s, a);
    ClaimInvStep(s, a);
  }

  lemma InitInv(s: State)
    requires Init(s)
    ensures Inv(s)
  {
  }

  lemma GuardedAt(states: seq<State>, acts: seq<Action>, i: nat)
    requires Guarded(states, acts) && i < |acts|
    ensures Enabled(states[i], acts[i]) && states[i+1] == Apply(states[i], acts[i])
    ensures Punctual(states[i]) && OperatorCareful(states[i], acts[i])
  {
    assert acts[i] == acts[i];
  }

  lemma {:induction false} Invariants(states: seq<State>, acts: seq<Action>, k: nat)
    requires Guarded(states, acts) && k < |states|
    ensures Inv(states[k])
  {
    if k == 0 {
      InitInv(states[0]);
    } else {
      Invariants(states, acts, k - 1);
      GuardedAt(states, acts, k - 1);
      InvStep(states[k-1], acts[k-1], states[k]);
    }
  }

  lemma WithoutOne<T>(xs: seq<T>, i: nat, x: T)
    requires i < |xs|
    ensures multiset(xs[..i] + xs[i+1..])[x] <= multiset(xs)[x]
  {
    assert xs == xs[..i] + [xs[i]] + xs[i+1..];
  }

  /** No statement of a run without --maintenance is orphaned in MAINTENANCE. */
  lemma NoNewOrphan(s: State, a: Action, x: Options)
    requires Enabled(s, a) && Inv(s) && InMaintenance(s) && !x.maintenance
    ensures multiset(Apply(s, a).orphans)[x] <= multiset(s.orphans)[x]
  {
    if a.OrphanEnds? {
      WithoutOne(s.orphans, a.i, x);
    } else if !Ending(a) {
      OrphansUntouched(s, a);
    } else if Apply(s, a).orphans != s.orphans {
      assert HoldsRun(s, a.o) && Working(s.runs[a.o].pc);
      assert Apply(s, a).orphans == s.orphans + [s.runs[a.o].opts];
    }
  }

  lemma NoNewOrphanAt(states: seq<State>, acts: seq<Action>, i: nat, x: Options)
    requires Guarded(states, acts) && i < |acts| && InMaintenance(states[i]) && !x.maintenance
    ensures multiset(states[i+1].orphans)[x] <= multiset(states[i].orphans)[x]
  {
    Invariants(states, acts, i);
    GuardedAt(states, acts, i);
    NoNewOrphan(states[i], acts[i], x);
  }

  /** What is orphaned at k without --maintenance was orphaned at c, if the tenant was in MAINTENANCE since. */
  lemma {:induction false} OrphanedBefore(states: seq<State>, acts: seq<Action>, c: nat, k: nat, x: Options)
    requires Guarded(states, acts) && c <= k < |states| && !x.maintenance
    requires forall m :: c <= m <= k ==> InMaintenance(states[m])
    ensures multiset(states[k].orphans)[x] <= multiset(states[c].orphans)[x]
    decreases k
  {
    if c < k {
      OrphanedBefore(states, acts, c, k - 1, x);
      NoNewOrphanAt(states, acts, k - 1, x);
    }
  }

  /**
   * The admin/migrator interlock. While the tenant is in MAINTENANCE, a run without --maintenance is
   * at most between its upsert and its re-read or in its finally block. Since any state c from which
   * on the tenant was in MAINTENANCE, the shard is changed only by a statement of a --maintenance
   * run, live or orphaned, or by one that had lost its client at c already. The session check plays
   * no part in it.
   */
  lemma {:induction false} MaintenanceInterlock(states: seq<State>, acts: seq<Action>, c: nat, k: nat)
    requires Guarded(states, acts) && c <= k < |acts|
    requires forall m :: c <= m <= k ==> InMaintenance(states[m])
    ensures forall o :: HoldsRun(states[k], o) && !states[k].runs[o].opts.maintenance ==>
              states[k].runs[o].pc.Acquired? || states[k].runs[o].pc.Closing?
    ensures states[k+1].schema != states[k].schema ==>
              || (acts[k].EndStatement? && acts[k].o in states[k].runs && states[k].runs[acts[k].o].opts.maintenance)
              || (acts[k].OrphanEnds? && acts[k].i < |states[k].orphans|
                  && (states[k].orphans[acts[k].i].maintenance || states[k].orphans[acts[k].i] in states[c].orphans))
    ensures forall x: Options :: !x.maintenance ==> multiset(states[k].orphans)[x] <= multiset(states[c].orphans)[x]
    ensures states[k+1].tenant != states[k].tenant ==> acts[k].AdminSet? || acts[k].DeleteTenant?
  {
    Invariants(states, acts, k);
    OnlyServedVanishAlways(states, acts, k);
    GuardedAt(states, acts, k);
    RepairedSchema(states[k], acts[k]);
    RepairedRow(states[k], acts[k]);
    forall x: Options | !x.maintenance
      ensures multiset(states[k].orphans)[x] <= multiset(states[c].orphans)[x]
      ensures x in states[k].orphans ==> x in states[c].orphans
    {
      OrphanedBefore(states, acts, c, k, x);
      assert x in states[k].orphans ==> multiset(states[k].orphans)[x] > 0;
    }
  }

  /** The schema of a tenant in MAINTENANCE. */
  lemma RepairedSchema(s: State, a: Action)
    requires Enabled(s, a) && Inv(s) && InMaintenance(s)
    ensures Apply(s, a).schema != s.schema ==>
              || (a.OrphanEnds? && a.i < |s.orphans|)
              || (a.EndStatement? && a.o in s.runs && s.runs[a.o].opts.maintenance)
  {
    if a.CreateSchema? || a.EndStatement? {
      assert HoldsRun(s, a.o) && Working(s.runs[a.o].pc);
    } else if !a.OrphanEnds? && !a.DropSchema? {
      SchemaUntouched(s, a);
    }
  }

  /** The steps that change what is on the shard. */
  lemma SchemaUntouched(s: State, a: Action)
    requires Enabled(s, a) && !a.CreateSchema? && !a.EndStatement? && !a.OrphanEnds? && !a.DropSchema?
    ensures Apply(s, a).schema == s.schema
  {
  }

  /** The row of a tenant in MAINTENANCE. */
  lemma RepairedRow(s: State, a: Action)
    requires Enabled(s, a) && OnlyServedVanish(s) && InMaintenance(s)
    ensures Apply(s, a).tenant != s.tenant ==> a.AdminSet? || a.DeleteTenant?
  {
    if Acquiring(a) || Ending(a) {
      RowBeforeWork(s, a);
    } else if Executing(a) {
      RowDuringWork(s, a);
    }
  }

  lemma RowBeforeWork(s: State, a: Action)
    requires Enabled(s, a) && (Acquiring(a) || Ending(a)) && InMaintenance(s)
    ensures Apply(s, a).tenant == s.tenant
  {
  }

  lemma RowDuringWork(s: State, a: Action)
    requires Enabled(s, a) && Executing(a) && OnlyServedVanish(s) && InMaintenance(s)
    ensures Apply(s, a).tenant == s.tenant
  {
  }

  // ---------------------------------------------------------------------------------------
  // Exclusion on the shard.
  // ---------------------------------------------------------------------------------------

  /** At most one migration of the key is executing: a live session or an orphaned statement. */
  ghost predicate Exclusive(s: State) {
    && |s.orphans| <= 1
    && (forall o :: o in s.runs && s.runs[o].pc.Migrating? ==> s.orphans == [])
    && (forall o, p :: o in s.runs && p in s.runs && s.runs[o].pc.Migrating? && s.runs[p].pc.Migrating? ==> o == p)
  }

  ghost predicate OrphanInv(s: State) {
    |s.orphans| <= 1 && (s.orphans != [] ==> forall o :: HoldsRun(s, o) ==> s.runs[o].pc.Closing?)
  }

  lemma OneOrphan(s: State, a: Action)
    requires Enabled(s, a) && OrphanInv(s)
    ensures |Apply(s, a).orphans| <= 1
  {
    if !Ending(a) && !a.OrphanEnds? {
      OrphansUntouched(s, a);
    }
  }

  /** A statement is orphaned when its run ends. */
  lemma OrphansUntouched(s: State, a: Action)
    requires Enabled(s, a) && !Ending(a) && !a.OrphanEnds?
    ensures Apply(s, a).orphans == s.orphans
  {
  }

  lemma OrphanStep(s: State, a: Action, o: Owner)
    requires Enabled(s, a) && LeaseInv(s) && OrphanInv(s) && CheckStillTrue(s, a)
    requires HoldsRun(Apply(s, a), o) && Apply(s, a).orphans != []
    ensures Apply(s, a).runs[o].pc.Closing?
  {
    if !HoldsRun(s, o) {
      WonStep(s, a, o);
      OrphansUntouched(s, a);
      assert false;
    } else if Ending(a) {
      OrphanedNow(s, a, o);
    } else {
      if !a.OrphanEnds? {
        OrphansUntouched(s, a);
      }
      assert s.runs[o].pc.Closing?;
      ClosingStays(s, a, o);
    }
  }

  lemma OrphanedNow(s: State, a: Action, o: Owner)
    requires Enabled(s, a) && Ending(a) && LeaseInv(s) && OrphanInv(s) && HoldsRun(s, o)
    requires HoldsRun(Apply(s, a), o) && Apply(s, a).orphans != []
    ensures Apply(s, a).runs[o].pc.Closing?
  {
  }

  lemma ClosingStays(s: State, a: Action, o: Owner)
    requires Enabled(s, a) && o in s.runs && s.runs[o].pc.Closing? && o in Apply(s, a).runs
    ensures Apply(s, a).runs[o].pc.Closing?
  {
  }

  lemma OrphanInvStep(s: State, a: Action, t: State)
    requires Enabled(s, a) && t == Apply(s, a) && LeaseInv(s) && OrphanInv(s) && CheckStillTrue(s, a)
    ensures OrphanInv(t)
  {
    OneOrphan(s, a);
    forall o | HoldsRun(t, o) && t.orphans != []
      ensures t.runs[o].pc.Closing?
    {
      OrphanStep(s, a, o);
    }
  }

  lemma {:induction false} OrphansAlways(states: seq<State>, acts: seq<Action>, k: nat)
    requires Supported(states, acts) && k < |states|
    ensures OrphanInv(states[k])
  {
    if k > 0 {
      OrphansAlways(states, acts, k - 1);
      Invariants(states, acts, k - 1);
      GuardedAt(states, acts, k - 1);
      OrphanInvStep(states[k-1], acts[k-1], states[k]);
    }
  }

  /** Server-side exclusion over whole runs, with crashes, lost connections and orphans. */
  lemma {:induction false} ServerSideExclusion(states: seq<State>, acts: seq<Action>, k: nat)
    requires Supported(states, acts) && k < |states|
    ensures Exclusive(states[k])
  {
    Invariants(states, acts, k);
    OrphansAlways(states, acts, k);
    var s := states[k];
    forall o | o in s.runs && s.runs[o].pc.Migrating?
      ensures s.orphans == [] && s.lease == Held(o, s.runs[o].until)
    {
      assert HoldsRun(s, o);
    }
  }

  // ---------------------------------------------------------------------------------------
  // ACTIVE means complete.
  // ---------------------------------------------------------------------------------------

  predicate PlanChecked(s: State, o: Owner) {
    o in s.runs && s.runs[o].pc.Planned?
  }

  predicate TargetedOrphanEnds(s: State, a: Action) {
    a.OrphanEnds? && a.i < |s.orphans| && s.orphans[a.i].targeted
  }

  /** A statement of a targeted run ends, live or orphaned: the only kind that may un-apply migrations. */
  predicate TargetedEnds(s: State, a: Action) {
    TargetedOrphanEnds(s, a) || (a.EndStatement? && a.o in s.runs && s.runs[a.o].opts.targeted)
  }

  /** No such statement ends between a plan check of process o and its ACTIVE write, up to step j. */
  ghost predicate PlanStands(states: seq<State>, acts: seq<Action>, o: Owner, j: nat) {
    && j <= |acts| <= |states|
    && forall i {:trigger acts[i]} :: 0 <= i < j ==> !(TargetedEnds(states[i], acts[i]) && PlanChecked(states[i], o))
  }

  /** What run o's plan check saw is still there. */
  predicate PlanTrue(s: State, o: Owner) {
    PlanChecked(s, o) && s.tenant.Some? ==> Complete(s.schema, s.runs[o].opts.known)
  }

  /** A plan is checked by the run itself, against the schema as it is. */
  lemma PlannedStep(s: State, a: Action, o: Owner)
    requires Enabled(s, a) && PlanChecked(Apply(s, a), o)
    ensures o in s.runs && Apply(s, a).runs[o].opts == s.runs[o].opts
    ensures s.runs[o].pc.Planned? || (a == PlanCheck(o) && Complete(s.schema, s.runs[o].opts.known))
  {
    if Acquiring(a) {
      PlannedAcquiring(s, a, o);
    } else if Ending(a) {
      PlannedEnding(s, a, o);
    } else if !Executing(a) {
      RunsUntouched(s, a);
    }
  }

  lemma PlannedAcquiring(s: State, a: Action, o: Owner)
    requires Enabled(s, a) && Acquiring(a) && PlanChecked(Apply(s, a), o)
    ensures PlanChecked(s, o) && Apply(s, a).runs[o].opts == s.runs[o].opts
  {
  }

  lemma PlannedEnding(s: State, a: Action, o: Owner)
    requires Enabled(s, a) && Ending(a) && PlanChecked(Apply(s, a), o)
    ensures PlanChecked(s, o) && Apply(s, a).runs[o].opts == s.runs[o].opts
  {
  }

  /** No step but the end of a targeted statement takes a migration from an existing schema of a tenant. */
  lemma CompleteStays(s: State, a: Action, known: set<Migration>)
    requires Enabled(s, a) && Complete(s.schema, known) && !TargetedEnds(s, a) && s.tenant.Some?
    ensures Complete(Apply(s, a).schema, known)
  {
    if !a.CreateSchema? && !a.EndStatement? && !a.OrphanEnds? && !a.DropSchema? {
      SchemaUntouched(s, a);
    }
  }

  lemma PlanTrueStep(s: State, a: Action, t: State, o: Owner)
    requires Enabled(s, a) && t == Apply(s, a) && PlanTrue(s, o) && !(TargetedEnds(s, a) && PlanChecked(s, o))
    ensures PlanTrue(t, o)
  {
    if PlanChecked(t, o) && t.tenant.Some? {
      PlannedStep(s, a, o);
      if s.tenant.None? {
        DeletedStaysDeleted(s, a);
      } else if s.runs[o].pc.Planned? {
        CompleteStays(s, a, s.runs[o].opts.known);
      } else {
        SchemaUntouched(s, a);
      }
    }
  }

  lemma StepAt(states: seq<State>, acts: seq<Action>, i: nat)
    requires Behaviour(states, acts) && i < |acts|
    ensures Enabled(states[i], acts[i]) && states[i+1] == Apply(states[i], acts[i])
  {
    assert acts[i] == acts[i];
  }

  lemma {:induction false} PlanTrueAlways(states: seq<State>, acts: seq<Action>, o: Owner, k: nat)
    requires Behaviour(states, acts) && Init(states[0]) && k < |states| && PlanStands(states, acts, o, k)
    ensures PlanTrue(states[k], o)
  {
    if k > 0 {
      PlanTrueAlways(states, acts, o, k - 1);
      StepAt(states, acts, k - 1);
      PlanTrueStep(states[k-1], acts[k-1], states[k], o);
    }
  }

  /**
   * ACTIVE means complete: the schema has every migration the writing code knows. Neither the TTL nor
   * the operator nor the session check plays a part: a statement of a plain run, live or orphaned,
   * only adds migrations. The one condition is that no statement of a targeted run ends between the
   * writer's plan check and its write.
   */
  lemma {:induction false} ActiveMeansComplete(states: seq<State>, acts: seq<Action>, j: nat)
    requires Behaviour(states, acts) && Init(states[0]) && j < |acts|
    requires acts[j].Activate? && CasHits(states[j].tenant, states[j].lease, acts[j].o, {Pending})
    requires PlanStands(states, acts, acts[j].o, j)
    ensures acts[j].o in states[j].runs
    ensures states[j+1].tenant == Some(Tenant(Active, Pending))
    ensures Complete(states[j+1].schema, states[j].runs[acts[j].o].opts.known)
  {
    PlanTrueAlways(states, acts, acts[j].o, j);
    StepAt(states, acts, j);
  }

  lemma OneHolder(s: State, o: Owner, p: Owner)
    requires LeaseInv(s)
    ensures HoldsRun(s, o) && HoldsRun(s, p) ==> o == p
  {
  }

  /** While no live run outlives its TTL or is released, only an orphan can meet a checked plan. */
  lemma GuardedPlanStands(states: seq<State>, acts: seq<Action>, o: Owner, j: nat)
    requires Guarded(states, acts) && j <= |acts|
    requires forall i {:trigger acts[i]} :: 0 <= i < j ==>
              !(TargetedOrphanEnds(states[i], acts[i]) && PlanChecked(states[i], o))
    ensures PlanStands(states, acts, o, j)
  {
    forall i | 0 <= i < j
      ensures !(TargetedEnds(states[i], acts[i]) && PlanChecked(states[i], o))
    {
      Invariants(states, acts, i);
      GuardedAt(states, acts, i);
      if acts[i].EndStatement? {
        PlanMeetsNoStatement(states[i], acts[i], o);
      }
    }
  }

  lemma PlanMeetsNoStatement(s: State, a: Action, o: Owner)
    requires Enabled(s, a) && LeaseInv(s) && a.EndStatement?
    ensures !PlanChecked(s, o)
  {
    OneHolder(s, o, a.o);
  }

  /** Where the session check is also still true at every upsert, nothing executes beside a checked plan. */
  lemma SupportedPlanAlone(states: seq<State>, acts: seq<Action>, i: nat, o: Owner)
    requires Supported(states, acts) && i < |states| && PlanChecked(states[i], o)
    ensures states[i].orphans == []
    ensures forall p :: p in states[i].runs ==> !states[i].runs[p].pc.Migrating?
  {
    Invariants(states, acts, i);
    OrphansAlways(states, acts, i);
    assert HoldsRun(states[i], o);
    forall p | p in states[i].runs
      ensures !states[i].runs[p].pc.Migrating?
    {
      OneHolder(states[i], o, p);
    }
  }
}
