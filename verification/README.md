# Verified model of the multi-tenant backend's protocols

A Dafny model of the parts of the backend whose correctness depends on order, time or
interleaving, with proofs over every run, every interleaving or every input:

- **The migrator's lease and fence protocol** (`Types`, `Lease`, `Migrator`, `MigratorSafety`,
  `MigratorOutcomes`, `MigratorRuns`).
  `Lease` holds the SQL statements as methods on the default database. `Migrator` is the
  protocol for one lease key as a transition system: any number of processes, each at a program
  counter of `migrate_tenant`, next to the admin, the console, the operator, the clock, and
  statements that survive their client. `MigratorSafety` proves what every behaviour keeps, and
  what it keeps while no live run outlives its TTL and no operator releases a live run (the
  interlock with the admin); only the exclusion of two migrations on the shard also needs the
  session check to be still true when the upsert wins. `MigratorOutcomes` says what a run does to its
  tenant, read off the rows and the schema it met. `MigratorRuns` holds the runs from a fresh tenant that show what happens without.
- **The host gate** (`Registry`, `RegistryProtocol`, `RegistryCoverage`, `RegistryRuns`): the Redis
  SET whose existence is a consistency flag, the mutation steps of the Domain receivers, and the
  reconcile with its dirty counter, rename, dead-man TTL and bounded re-runs. One theorem is about
  the SET without a TTL, a second one, under more conditions, about every SET that is present,
  which is what the gate reads.
- **The resolve cache** (`SnapshotCache`, `CacheCoherence`, `Resolve`, `SingleFlight`,
  `Throttle`): entries with expiry times, NX fills against tombstones in time, the resolve policy
  as a refinement of a database lookup, the sharing of in-flight resolves, and the two rate limits.
- **The calendar fan-out** (`Watermark`, `Dispatch`): the two-statement monotone upsert under any
  interleaving, the due check, and how often an occurrence is dispatched.
- **The migration scheduler** (`Ordering`, `PickNext`, `StageModel`, `StageRuns`, `StageStops`,
  `StageFairness`, `Scheduler`, `ExitCode`): the stage as a value with its transitions, all runs of
  next/done/halt, the stage object and the sequential loop as one of those runs, and the exit code.
- **Names** (`Text`, `Hostnames`, `ReservedHosts`, `SchemaNames`): the canonicaliser and validator
  (host names of section 2.1 of RFC 1123, labels of section 2.3.4 of RFC 1035), the reserved-host
  matcher and its SQL prefilter, and schema names with their quoting.

`dafny verify dfyconfig.toml` checks the whole project. Clocks, failures, results of migrations,
broker answers and what other processes do are parameters or nondeterministic steps.

## Where the code does less than its text says

Each of these is a lemma with a concrete run or input, next to the theorem that says when the
property does hold.

- `lease_force_release` is documented to leave a run that re-took the lease alone; the owner name
  is per process, so a run of the same process is released (`OperatorReleaseHitsRetake`).
- The session check and the lease upsert are two statements; between them a statement can lose its
  client and survive, and two migrations of one key overlap (`CheckAndUpsertRace`).
- A surviving statement is invisible to the admin's lease lock and can change the schema after the
  transition to MAINTENANCE (`OrphanInMaintenance`).
- The dirty counter's TTL is set once and can run out during a reconcile, re-runs end after three
  passes, and a reconcile can die after its rename; each can leave a flag that misses a host
  (`CounterExpiryBreaksFlag`, `ThirdPassBreaksFlag`, `DeathAfterRename`). The next reconcile that
  ends by its re-read repairs it (`Recovery`).
- The comment on EXISTS and SADD leaves the residual races to the dirty-recheck. It overlooks the
  dead-man expiry between the two (`PartialSetUnderTtl`), the late SREM of a host that was created
  again (`LateRemoval`) and a rename between SADD and INCR (`RenameBeforeCount`): each leaves a
  present SET, under its TTL and with nothing in flight, that turns a stored host away.
- A statement of a targeted run that ends between another run's plan check and its ACTIVE write can
  undo what the check saw, be it orphaned (`TargetedOrphanUndoes`) or of a live run that outlived
  its TTL or was released (`LiveTargetedUndoes`).
- A tick exactly on an occurrence is said to be caught by the next tick; if that tick's wave is
  due for the previous occurrence, it is stamped with the new one and hides it (`BoundaryTickHides`).
- Exit code 0 does not mean that every target was migrated: the re-check of locked skips also
  turns a tenant that another run is still provisioning into ok (`ExitZeroUnserved`).
- The CHECK constraint on the domain column is described as the fixed points of `normalize_host`;
  SQL's TRIM removes spaces only, so a trailing tab passes it, `Domain.save` can produce such a
  row, and the reserved-rule prefilter drops a match on it (`ConstraintLetsTabThrough`).
- NEW to FAILED, written when a new tenant's schema already has relations, is not in the README's
  status diagram; `StatusMachine` counts it as an edge.

## Model

| member | source | states |
|---|---|---|
| Lease.DefaultDb.LeaseAcquire | tenants/migrator.py:311-353 | the lease is won exactly when the shard is idle and the row is free or expired; the winner then holds a live lease; other keys are untouched |
| Lease.DefaultDb.LeaseRelease | tenants/migrator.py:356-365 | frees the row exactly when the named owner holds it, and no other row |
| Lease.DefaultDb.LockForTransition | tenants/migrator.py:258-284 | returns a holder exactly when the lease is live, and changes no lease |
| Lease.DefaultDb.FencedCas | tenants/migrator.py:368-381 | updates one row exactly when the status is expected and the caller holds the lease |
| Lease.DefaultDb.CasLost | tenants/migrator.py:918-929 | names the one cause of a missed compare-and-set, and a status it reports was not an expected one |
| Lease.LeaseRows | tenants/migrator.py:340-352 | the row functions that the transition system uses are these statements: expired strictly past the end, one hour for a winner, release and fence by owner |
| MigratorSafety.FenceContinuity | tenants/migrator.py:368-381 | every fenced write that hits is preceded by a winning upsert of the same run, and that run held the lease at every state since, with no assumption on time, crashes or operators |
| MigratorSafety.LeaseLossCauses | tenants/migrator.py:356-365 | a lease leaves its holder only by its own release, an operator release of that owner, or a takeover after expiry; never by another run's release |
| MigratorSafety.LostStaysLost | tenants/migrator.py:368-381 | a run that lost its lease never gets it back within that run |
| MigratorSafety.ClaimToActive | tenants/migrator.py:1072-1107 | every PENDING to ACTIVE write is preceded by a claim of the same run, and from it on the row stayed the claimed one and the lease stayed held, at every state |
| MigratorSafety.ActiveMeansComplete | tenants/migrator.py:1086-1104 | in every run, whatever the TTL, the operator or surviving statements of plain runs do, a PENDING to ACTIVE write finds a schema with every migration the writing code knows, if no statement of a targeted run ended between the writer's plan check and its write |
| MigratorSafety.GuardedPlanStands | tenants/migrator.py:1086-1104 | while no live run outlives its TTL or is released, only an orphan of a targeted run can meet a checked plan |
| MigratorSafety.SupportedPlanAlone | tenants/migrator.py:1086-1104 | where the session check is also still true at every upsert, no statement, live or surviving, executes beside a checked plan |
| MigratorSafety.ServerSideExclusion | tenants/migrator.py:209-230 | over every supported run at most one migration of the key executes, live or orphaned |
| MigratorOutcomes.ExclusionAtOnce | tenants/migrator.py:311-353 | with check and upsert as one step, no live run past its TTL and no release of a live run, at most one migration of the key executes |
| MigratorOutcomes.LeaseNeedsIdleShard | tenants/migrator.py:327-352 | whoever is under the lease found no statement on the shard first and then won a free or expired lease, in the same run |
| MigratorOutcomes.UpsertDecides | tenants/migrator.py:340-353 | the upsert takes a free or expired lease for one hour and ends the run of whoever meets a live one |
| MigratorSafety.MaintenanceInterlock | tenants/migrator.py:904-911 | in MAINTENANCE a run without the option does no provisioning or upgrade step; since any state from which on the tenant was in MAINTENANCE, the schema changes only by a statement of a maintenance run or by one orphaned at that state already, and the row only by the admin or a deletion; the session check is not needed |
| MigratorSafety.StatusMachine | tenants/console/admin.py:136-143 | every status change of migrator, admin and console together is a documented edge; MAINTENANCE is entered and left only by the admin, NEW re-entered only by the confirmed reset, PENDING entered only by a claim |
| MigratorSafety.AdoptionNeedsConfirmation | tenants/console/admin.py:217-247 | NEW with previous FAILED is always the untouched result of one confirmed FAILED to NEW reset |
| MigratorOutcomes.NoSilentAdoption | tenants/migrator.py:1060-1077 | before every claim that hits, the same run re-read the row and looked at the shard; if the schema had relations then, the row was PENDING, or NEW by one confirmed FAILED to NEW reset untouched since |
| MigratorOutcomes.ForeignRejected | tenants/migrator.py:1060-1071 | a run that finds its NEW tenant's schema in use without that reset cannot claim it, and its rejection makes the row FAILED if it is still NEW and the lease its own |
| MigratorOutcomes.VetDecides | tenants/migrator.py:1060-1071 | a run may claim iff the schema is not in use or its tenant is PENDING or confirmed; otherwise it rejects |
| MigratorOutcomes.ClaimDecides | tenants/migrator.py:1072-1077 | a claim takes NEW and PENDING rows under its own lease and only a claim that hits goes on |
| MigratorOutcomes.PlanDecides | tenants/migrator.py:1086-1091 | ACTIVE is possible iff the schema exists and has every known migration |
| MigratorOutcomes.ProvisionWrites | tenants/migrator.py:1060-1121 | the other status writes of provisioning, each from its one expected status under the run's own lease, and nothing otherwise |
| MigratorOutcomes.BeginAdmitted | tenants/migrator.py:904-911 | a run begins exactly on an existing tenant that is not FAILED, and in MAINTENANCE only with the option |
| MigratorOutcomes.ReloadDecides | tenants/migrator.py:1010-1032 | the re-read under the lease provisions NEW and PENDING, upgrades ACTIVE, DEACTIVATED and admitted MAINTENANCE, and otherwise only releases |
| MigratorOutcomes.FailureRecorded | tenants/migrator.py:1108-1121 | after an exception or a non-empty plan of a run that has claimed its tenant, it can no longer write ACTIVE and its next step can write FAILED, if row and lease are still as claimed |
| MigratorOutcomes.FailureOrigin | tenants/migrator.py:1108-1121 | FAILED after a claim is written for such a failure of the same run only |
| MigratorOutcomes.SilentFailures | tenants/migrator.py:1108-1115 | an exception before the claim and a lost connection write no status |
| MigratorOutcomes.UpgradeDecides | tenants/migrator.py:1129-1155 | an upgrade migrates iff the schema exists and lacks a known migration or the run is targeted, records a missing schema unless the tenant is in MAINTENANCE, and otherwise only releases |
| MigratorOutcomes.MissingOrigin | tenants/migrator.py:1135-1146 | a missing schema is recorded only by a run that found none, from the status it had read |
| MigratorOutcomes.MissingRecorded | tenants/migrator.py:1141-1146 | that write makes the row FAILED with the status read as previous, iff the row still has it and the lease is the run's own |
| MigratorOutcomes.InterruptKeepsLease | tenants/migrator.py:1033-1044 | an interrupted run whose statement goes on does not release its lease |
| MigratorOutcomes.EndReleases | tenants/migrator.py:1033-1044 | every other end frees the lease if it is still the run's own and the release gets through |
| MigratorOutcomes.AdminTransitions | tenants/console/admin.py:136-143 | exactly the listed transitions are possible, NEW from FAILED only confirmed, and each moves a row that still has the expected status and remembers it |
| MigratorOutcomes.AdminLocks | tenants/console/admin.py:288-299 | the lock for MAINTENANCE is refused while the lease is live, and under it no upsert can run |
| MigratorOutcomes.ConsoleToggles | tenants/console/views.py:428-453 | the console moves ACTIVE to DEACTIVATED and back, and nothing else |
| MigratorSafety.DeletedStaysDeleted | tenants/migrator.py:368-381 | no step of migrator, admin or console brings a deleted tenant row back |
| MigratorRuns.CheckAndUpsertRace | tenants/migrator.py:329-343 | a run from a fresh tenant, without any passing of time, in which two migrations of one key overlap because check and upsert are two statements |
| MigratorRuns.OrphanInMaintenance | tenants/console/admin.py:276-311 | a run in which an orphaned statement changes the schema after the transition to MAINTENANCE |
| MigratorRuns.ReleaseBreaksInterlock | tenants/migrator.py:287-302 | a run, without any passing of time, in which an operator releases a live run and the admin then enters MAINTENANCE over its statement |
| MigratorRuns.OverstayBreaksInterlock | tenants/console/admin.py:235-242 | a run without an operator in which a live run outlives its TTL, the form check and the lock pass over its idle session, and it sends a statement in MAINTENANCE |
| MigratorRuns.TargetedOrphanUndoes | tenants/migrator.py:1086-1104 | a run in which an orphan of a targeted run undoes a migration between plan check and ACTIVE |
| MigratorRuns.LiveTargetedUndoes | tenants/migrator.py:1086-1104 | two runs in which a live targeted run, released by an operator or past its TTL, does the same |
| MigratorRuns.OperatorReleaseHitsRetake | tenants/migrator.py:287-302 | a run from a fresh tenant in which the operator is shown an expired lease and then frees the new live run of the same process; no other process is touched |
| Registry.RegistryKeys.ApplyMembership | tenants/resolver/registry.py:78-96 | an absent SET is never created, an add or remove touches that member only, a TTL is kept, the counter moves by one |
| Registry.RegistryKeys.RebuildOnce | tenants/resolver/registry.py:203-232 | whatever the chunk size, a host is in the new SET iff a row names it, the SET is absent iff there is no row and carries no TTL, every row's domain and every row's schema has that row's tenant, and no other snapshot changed |
| Registry.RegistryKeys.Flush | tenants/resolver/registry.py:209-217 | adds exactly the batch's domains to the SET, its tenants under their domains to one cache and under their schemas to the other |
| Registry.CheckAnswers | tenants/resolver/registry.py:63-75 | nonmember and member exactly when Redis answers, the SET exists, and the host is not or is in it |
| Registry.BuiltConcat | tenants/resolver/registry.py:209-217 | flushing chunk after chunk builds what one flush of all rows would |
| Registry.RecordedMeaning | tenants/resolver/registry.py:209-217 | after the writes every domain, or schema, has its own row's tenant and no other entry changed |
| RegistryProtocol.FlagSoundness | tenants/resolver/registry.py:176-201 | over every supported run, with no reconcile running and no mutation owing its arm, a SET without TTL contains every host of the database, so none is rejected |
| RegistryProtocol.Recovery | tenants/resolver/registry.py:176-201 | whatever state a reconcile starts in, once it ends by its re-read the flag is sound again |
| RegistryCoverage.GateSoundness | tenants/resolver/registry.py:63-75 | outside a reconcile, armed or not, the gate turns a stored host away only while that host's own addition has not reached its SADD, if the SET does not vanish under an addition that saw it, mutations of one host in flight are all additions or all removals, and no rename drops an unread addition that is past its SADD, or past an EXISTS that saw no SET, and owes its INCR |
| RegistryCoverage.PresentSetCovers | tenants/resolver/registry.py:63-124 | under the same conditions, with nothing in flight, every present SET contains every host of the database |
| RegistryProtocol.MutationStep | tenants/signals.py:19-48 | every step of a mutation, from commit to arm, keeps the flag invariant under any concurrent reconcile |
| RegistryRuns.CounterExpiryBreaksFlag | tenants/resolver/registry.py:93-96 | a run in which the counter expires during a pass and leaves a flag that rejects a stored host |
| RegistryRuns.ThirdPassBreaksFlag | tenants/resolver/registry.py:189-193 | a run in which three overtaken passes leave a flag that rejects a stored host |
| RegistryRuns.PartialSetUnderTtl | tenants/resolver/registry.py:82-90 | a run in which the SET expires between EXISTS and SADD and a one-member SET under a TTL rejects stored hosts |
| RegistryRuns.LateRemoval | tenants/signals.py:36-48 | a run without expiry or reconcile in which the SREM of a deletion lands after the SADD of a re-creation |
| RegistryRuns.RenameBeforeCount | tenants/resolver/registry.py:88-96 | a run without expiry in which a rename between SADD and INCR loses a host and the re-read does not notice |
| RegistryRuns.DeathAfterRename | tenants/resolver/registry.py:189-193 | a run in which a reconcile dies before its re-read and leaves a flag that rejects a stored host |
| SnapshotCache.ResolveCache.GetSnapshot | tenants/resolver/cache.py:208-216 | hit, negative or miss by the live entry; a hold, an expired entry and a Redis error are misses |
| SnapshotCache.ResolveCache.Put | tenants/resolver/cache.py:236-259 | unexpired entries of both keys stay, otherwise the snapshot is there until the TTL of its status under WARM, or the flat TTL; reports whether the host key was free; nothing else changes |
| SnapshotCache.ResolveCache.StoreMiss | tenants/resolver/cache.py:303-305 | a miss marker never overwrites a live entry or hold |
| SnapshotCache.ResolveCache.TombstoneKeys | tenants/resolver/cache.py:308-324 | every listed key becomes a hold of the configured length, or is deleted when holds are off; nothing else changes |
| SnapshotCache.ResolveCache.PutManyByTtl | tenants/resolver/cache.py:261-282 | for any pairs, the winning pair of every key is stored, nothing else changes, and the count is one per key and TTL; off exactly without WARM and flat TTL |
| SnapshotCache.PutManyMeaning | tenants/resolver/cache.py:261-282 | whatever keys repeat, every named key ends with one of its own pairs under that pair's TTL, and nothing else changes |
| SnapshotCache.PutManyWinner | tenants/resolver/cache.py:261-282 | of several pairs of one key the one stored is the last of the group whose TTL appeared last, under its own TTL |
| SnapshotCache.PutManyCount | tenants/resolver/cache.py:278-282 | the count is the number of different pairs of key and TTL |
| SnapshotCache.PutManyDistinct | tenants/resolver/cache.py:284-300 | for pairwise different keys the result is that of force-writing every snapshot under its own TTL, and the count is the number of pairs |
| SnapshotCache.GroupByTtl | tenants/resolver/cache.py:275-277 | each TTL gets exactly its own pairs, a later one replacing an earlier one of the same key, in order of first appearance |
| CacheCoherence.TombstoneCoherence | tenants/resolver/cache.py:308-324 | with NX writers, holds kept and fills written within the hold of their read, no key covered by an invalidation ever again serves what was read before that change |
| CacheCoherence.EarlierReadSmallerTag | tenants/resolver/cache.py:236-259 | a fill read before a commit carries a smaller version tag, so coherence is about reads before the change |
| CacheCoherence.LateFillIsStale | tenants/resolver/cache.py:525-540 | a run in which a fill written exactly a hold after its read is stale: the time bound is sharp |
| CacheCoherence.LostHoldIsStale | tenants/resolver/cache.py:308-324 | a run in which a hold removed early lets a prompt stale fill in |
| Resolve.Resolver.FillFrom | tenants/resolver/service.py:157-165 | returns the database's answer, keeps the cache faithful, and leaves that answer cached, positive or negative, when the write can succeed and no unexpired entry is in the way |
| Resolve.Resolver.ViaCache | tenants/resolver/service.py:133-154 | a cached answer is the answer without a query; a miss is turned away, shed, looked up and kept, or answered by the fill it shares, each exactly when the source says |
| Resolve.Resolver.ResolveHost | tenants/resolver/service.py:97-130 | under every pattern of failures the result is the database's answer, a deferral, or a failure of the database; a cached answer is returned without a query even with the database down; a miss is deferred iff the gate cannot read the SET and there is no budget, turned away iff a readable SET lacks the host, and otherwise looked up once and kept; the cache stays faithful |
| SingleFlight.OneLeaderPerKey | tenants/resolver/throttle.py:84-121 | in every interleaving one leader per key, and nothing in flight when nobody leads |
| SingleFlight.PopRemovesOwnSlot | tenants/resolver/throttle.py:84-121 | a leader's pop removes its own slot and no other |
| SingleFlight.SharedFromLeader | tenants/resolver/throttle.py:84-121 | what a caller takes from a slot is the final end of one resolver call for its own key by the slot's leader |
| SingleFlight.FollowerGets | tenants/resolver/throttle.py:98-121 | a woken follower returns the end of its slot's leader, and resolves for itself only if that leader was aborted |
| SingleFlight.LeaderGets | tenants/resolver/throttle.py:98-121 | the leader returns or raises what its own resolver ended with |
| SingleFlight.OwnResolve | tenants/resolver/throttle.py:114-121 | a follower resolves for itself only after a timeout or an aborted leader |
| SingleFlight.JoinDecides | tenants/resolver/throttle.py:101-105 | a caller joins the flight of its key if there is one and leads a new one otherwise |
| SingleFlight.NoLostWakeup | tenants/resolver/throttle.py:84-121 | a waiting follower's event is set or its leader is still going to set it |
| Throttle.LocalBucket.Allow | tenants/resolver/throttle.py:34-43 | one call refills by the elapsed time, is capped, and grants exactly when a whole token is there |
| Throttle.WindowBound | tenants/resolver/throttle.py:26-43 | in any window at most cap + rate * length calls are granted, whatever the bucket did before |
| Throttle.CreationBound | tenants/resolver/throttle.py:26-43 | since creation at most rate * elapsed calls are granted |
| Throttle.IdleGrants | tenants/resolver/throttle.py:34-43 | a bucket idle for 1/rate grants the next call |
| Throttle.IdleFills | tenants/resolver/throttle.py:34-43 | an idle bucket fills up to max(1, rate) and no further |
| Throttle.BurstSpends | tenants/resolver/throttle.py:34-43 | n whole tokens grant n calls at one instant |
| Throttle.FillCap.Allow | tenants/resolver/throttle.py:67-78 | one call takes from the shared counter of its second, or from the local bucket when Redis fails |
| Throttle.SecondBound | tenants/resolver/throttle.py:67-78 | at most the limit is granted per calendar second, for calls in any order |
| Throttle.SlidingBound | tenants/resolver/throttle.py:67-78 | at most twice the limit is granted in any one-second interval |
| Throttle.SlidingBoundReached | tenants/resolver/throttle.py:67-78 | for every limit, a burst that gets twice the limit in one second |
| Watermark.NeverBackward | tenants/models.py:552-583 | under any interleaving of statements no row disappears or decreases |
| Watermark.AlwaysSomeCall | tenants/models.py:552-583 | a row's value is its first one or the run_ts of a call that named it |
| Watermark.Convergence | tenants/models.py:552-583 | once the begun calls are complete, every row is the maximum of its first value and the run_ts of the calls that named it |
| Watermark.TaskRuns.LoadMap | tenants/models.py:543-550 | exactly the watermarks of the given task and argument signature |
| Watermark.TaskRuns.MarkRan | tenants/models.py:552-583 | named rows advance to run_ts or stay above it; all others are unchanged |
| Dispatch.DueByTenantTz | tenants/celery/dispatch.py:93-153 | lists, once and in order, exactly the tenants with a valid zone whose latest occurrence is newer than their watermark and within grace, and as dropped those that ran before and are past grace but within twice grace |
| Dispatch.DueIsDue | tenants/celery/dispatch.py:126-131 | that check is the one the count theorems are about |
| Dispatch.FanOut | tenants/celery/dispatch.py:198-218 | the batches concatenate to the due list, none is empty or oversized, and their number is the ceiling |
| Dispatch.SubDispatch | tenants/celery/dispatch.py:223-266 | the sent list is the schemas of the delivered sends, in order and multiplicity; exactly those rows advance to the later of their old value and run_ts; a lost broker marks nothing for its schema, an error that re-raises marks nothing at all |
| Dispatch.ExactlyOnceIff | tenants/celery/dispatch.py:93-153 | with waves marked before the next tick, an occurrence is dispatched exactly once iff the first tick after it sees it within grace and no wave was stamped on it; otherwise never |
| Dispatch.ExactlyOnce | tenants/celery/dispatch.py:93-153 | with ticks off the occurrences and at most grace and one gap apart, every occurrence is dispatched exactly once |
| Dispatch.BoundaryTickHides | tenants/celery/dispatch.py:123-125 | a schedule in which a tick on an occurrence keeps it from ever being dispatched |
| Dispatch.DuplicatesBounded | tenants/models.py:499-507 | with arbitrarily slow waves an occurrence is dispatched at most ceil(grace / period) times and never more than grace late |
| Dispatch.DuplicatesReached | tenants/models.py:499-507 | for every grace and period a schedule with exactly ceil(grace / period) dispatches of one occurrence |
| PickNext.PickNoneIff | tenants/management/commands/migrate_schemas.py:79-93 | no shard is picked iff the sum of all in-flight values reaches the global limit or every non-empty shard is at its limit; a picked one is eligible |
| PickNext.PickIsNearest | tenants/management/commands/migrate_schemas.py:79-93 | the pick is the eligible shard first in cyclic sorted order after the one served last |
| PickNext.Fairness | tenants/management/commands/migrate_schemas.py:79-93 | a shard eligible at as many consecutive picks as there are shards is chosen at one of them |
| StageFairness.RunFairness | tenants/management/commands/migrate_schemas.py:156-164 | the same over any run of the stage, with completions and failed picks between |
| StageRuns.ConservationAndLimits | tenants/management/commands/migrate_schemas.py:134-197 | at every state of every run both limits hold, each shard's targets start in order and once, each target is in exactly one place, and the counter counts the running ones |
| StageRuns.FailureCounter | tenants/management/commands/migrate_schemas.py:166-186 | a shard's counter is the trailing run of counted failures of its completions, and with keep_going stays below max_failures until a stop |
| StageRuns.StopIsFinal | tenants/management/commands/migrate_schemas.py:188-196 | after a stop nothing is handed out, and the first reason stays until a halt overrides it |
| StageStops.CompletionOutcome | tenants/management/commands/migrate_schemas.py:166-186 | a result at a state without a stop finishes its target with it and stops the run exactly for a lost default database, for a failure without keep_going while targets are left, or for max_failures counted failures since the shard's last success, with that reason |
| StageStops.QueuedAfterCompletion | tenants/management/commands/migrate_schemas.py:166-196 | a queued target stays queued unless its own shard turned out unreachable or the run stopped, and is marked with that reason |
| StageStops.CompletionMark | tenants/management/commands/migrate_schemas.py:119-121 | a completed target keeps its result, also while the run drains |
| StageStops.HaltOutcome | tenants/management/commands/migrate_schemas.py:188-196 | a halt sets its reason iff it is the first or overrides, and gives up exactly the queued targets |
| StageStops.TrailingMeaning | tenants/management/commands/migrate_schemas.py:172-179 | the counter is the number of counted failures after the last counted success |
| StageRuns.AllSettled | tenants/management/commands/migrate_schemas.py:552-560 | when next gives nothing and nothing is in flight, every target has finished or was given up |
| StageRuns.SettledStays | tenants/management/commands/migrate_schemas.py:166-196 | no later step rewrites what a target finished with or why it was given up |
| StageModel.DoneKeeps | tenants/management/commands/migrate_schemas.py:166-186 | recording a result frees one slot and keeps limits, places, counters and the meaning of a stop |
| StageModel.NextStarts | tenants/management/commands/migrate_schemas.py:156-164 | next hands out the head of an eligible shard's queue below both limits, or changes nothing |
| Scheduler.TenantStage.constructor | tenants/management/commands/migrate_schemas.py:146-151 | every shard's queue is the selection's entries of that shard, in order |
| Scheduler.FreshIsInit | tenants/management/commands/migrate_schemas.py:146-151 | the stage of a selection without repetitions is an initial state, so every theorem about runs applies to it |
| Scheduler.SelectedConcat | tenants/management/commands/migrate_schemas.py:146-151 | the queues keep the order and multiplicity of the selection |
| Scheduler.TenantStage.Next | tenants/management/commands/migrate_schemas.py:156-164 | the object's step is the modelled next |
| Scheduler.TenantStage.Done | tenants/management/commands/migrate_schemas.py:166-186 | the object's step is the modelled done |
| Scheduler.TenantStage.Halt | tenants/management/commands/migrate_schemas.py:188-196 | the object's step is the modelled halt, over all queues |
| Scheduler.TenantStage.Turn | tenants/management/commands/migrate_schemas.py:552-560 | a requested drain ends the loop with `signal` unless a reason was there before; otherwise one target runs or nothing is left |
| Scheduler.TenantStage.RunSequential | tenants/management/commands/migrate_schemas.py:552-560 | the loop ends, is a run of the stage with both limits 1, leaves nothing open, every finished target carries what its migration returned, and a drain requested at the start hands nothing out |
| ExitCode.RecheckLocked | tenants/management/commands/migrate_schemas.py:645-668 | in place, exactly the locked skips seen up to date or provisioning elsewhere become ok |
| ExitCode.ExitZeroIff | tenants/management/commands/migrate_schemas.py:200-201 | exit code 0 iff nothing stopped the run and every entry is ok or noop, or a locked skip that the re-check accounts for |
| ExitCode.ExitCodeOfStage | tenants/management/commands/migrate_schemas.py:200-201 | the exit code of a stage is 0 iff it has no stop and every listed target finished ok or noop or was a locked skip that the re-check accounts for |
| ExitCode.ExitZeroOrOne | tenants/management/commands/migrate_schemas.py:200-201 | otherwise it is 1 |
| ExitCode.ExitZeroServes | tenants/management/commands/migrate_schemas.py:645-668 | given exit code 0, every target was served iff no locked skip was seen provisioning elsewhere |
| ExitCode.ExitZeroUnserved | tenants/management/commands/migrate_schemas.py:658-662 | a PENDING target under another run's live lease gives exit code 0 without being served |
| ExitCode.ExitZeroRun | tenants/management/commands/migrate_schemas.py:200-201 | exit code 0 after any run: never stopped, and every selected target was handed out and finished ok or noop or was an accounted locked skip |
| Hostnames.AcceptsExactly | tenants/validators.py:66-93 | the validator returns h iff h is a host name in the sense of RFC 1123 with a top label that is no number and the trimmed lower-cased input is h or h with one dot; over all characters, with all of Unicode's whitespace and every letter whose lower case is ASCII |
| Hostnames.TrailingSpaceAccepted | tenants/validators.py:78-82 | whitespace of any kind after a host name is dropped and the name accepted |
| Hostnames.ValidatedIsNormalized | tenants/validators.py:50-93 | an accepted input yields exactly its normalisation, a fixed point of both functions |
| Hostnames.CaseInsensitive | tenants/validators.py:50-93 | inputs that differ in case only get the same verdict and the same normal form |
| Text.StripKeeps | tenants/validators.py:63-78 | strip loses nothing but surrounding whitespace and leaves none at the ends |
| Hostnames.NormalizeTwice | tenants/validators.py:50-63 | normalisation is idempotent on an input iff the trimmed input without its trailing dots does not end in whitespace |
| Hostnames.NormalizeTwiceDiffers | tenants/models.py:281-284 | an input on which a second normalisation changes the result |
| Hostnames.ConstraintVersusCanonical | tenants/models.py:270-290 | a row that passes the CHECK constraint is canonical iff it has no whitespace at its ends |
| ReservedHosts.MatchesByLabels | tenants/models.py:434-449 | a rule matches iff the host's labels equal, end with or start with the rule's labels |
| ReservedHosts.PrefilterSound | tenants/models.py:451-472 | on a canonical domain the prefilter keeps every match, and for exact, suffix and global one-label rules nothing else |
| ReservedHosts.PrefilterSoundIff | tenants/models.py:451-472 | the prefilter keeps a domain for all rules that match it iff the domain is canonical |
| ReservedHosts.ConstraintLetsTabThrough | tenants/models.py:270-290 | a row that Domain.save produces, that passes the constraint, and that the prefilter drops although a rule matches it |
| ReservedHosts.Conflicts | tenants/console/views.py:505-518 | over canonical rows the count is exact and the sample is the first 200 matches; over any rows it never over-reports |
| ReservedHosts.StoredRuleCanonical | tenants/models.py:410-432 | a normalised rule is canonical and normalising it again changes nothing |
| ReservedHosts.StoredRuleIff | tenants/models.py:408-427 | a label rule stores one label and an optional host name as base, exact and suffix rules a host name without base, and everything else is refused |
| SchemaNames.SchemaNameAccepted | tenants/validators.py:186-223 | an accepted name is the input's normal form, is accepted again unchanged, and may be quoted |
| SchemaNames.SchemaNameIff | tenants/validators.py:176-223 | accepted are exactly the normal forms of 1 to 63 letters, digits and underscores that start with a letter or digit and not with pg_ |
| SchemaNames.QuoteIff | tenants/validators.py:226-261 | quoting adds the quotes and nothing else, and refuses exactly empty, overlong and unsafe names |
| SchemaNames.QuoteRoundTrip | tenants/validators.py:243-261 | read back as a quoted identifier, the quoted text gives the name and stops before the rest of the statement |

## Left out

- Several lease keys at once: the transition system follows one key, since no statement of the protocol touches another key's row.
- LockForTransition: the row lock that its SELECT keeps until the caller commits is not in its contract; it is the `rowLock` of the transition system, which the upsert waits for.
- DeletedStaysDeleted: says nothing about a new tenant row under a new primary key.
- MaintenanceInterlock: assumes that no live run outlives its TTL and that an operator releases no live run's lease (`OverstayBreaksInterlock`, `ReleaseBreaksInterlock`), and allows an orphaned statement to end after the transition, because the code does not exclude it (`OrphanInMaintenance`).
- ServerSideExclusion: assumes that no live run outlives its TTL, that an operator releases no live run's lease, and that the session check still holds at the upsert.
- ActiveMeansComplete: assumes only that no statement of a targeted run ends between the plan check and the ACTIVE write (`TargetedOrphanUndoes`, `LiveTargetedUndoes`).
- FlagSoundness: speaks about a SET without a TTL, and assumes that the dirty counter does not expire during a reconcile, that a reconcile ends by an unchanged counter and does not die from its first rename on, its later passes included, and that one reconcile runs at a time; expiry of the treg:warming lock is not modelled.
- PresentSetCovers: assumes the three conditions of GateSoundness on top of those of FlagSoundness; `PartialSetUnderTtl`, `LateRemoval` and `RenameBeforeCount` are the runs without them.
- ResolveHost: starts from a state in which live entries agree with the database and a present SET covers it, the state it preserves. TombstoneCoherence says when mutations restore the entries, PresentSetCovers when they restore the SET. A shared end is taken as a possible end of a fill against the same database; SharedFromLeader says whose fill it was.
- TombstoneCoherence: speaks about NX writers; the reconcile's force writes ignore tombstones by design.
- The admin form's own lease check before the lock: no step of the transition system, whose theorems hold without it; every run of `MigratorRuns` that enters MAINTENANCE passes it (`FormPasses`).
- The admin form's other checks, the console's reactivation check and its stopper, and `code_older_than_db`: single-branch decisions beside the protocol.
- SQLSTATE classification of exceptions: outcomes are failures, lost connections or survivals.
- The legacy migration command, which takes no lease.
- Cache warming, sweeps, `forget_*` variants, `dump`/`load`: the same NX and tombstone writes over other key lists.
- croniter, time zones and the wave lock: occurrences are a set of instants, ticks an increasing sequence.
- RunSequential: the parallel loop's pool, signals and polling are not modelled as code; its steps are the operations over which the theorems of StageRuns quantify, and an entry cut off by a broken pool stays in flight in the model where the code relabels it interrupted.
- TenantStage: the dictionaries keyed by shard are kept as one record per shard, with two histories that no step reads.
- NormalizeTwice: letters outside ASCII, except the Kelvin sign, keep their case in the model; their lower case is never ASCII, so no accepted name contains one, and whitespace and dots are unaffected.
- Shared-schema migration, logs, summaries, settings, middleware, routers and the business apps.
