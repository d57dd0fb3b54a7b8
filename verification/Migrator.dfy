/**
 * The lease and fence protocol for one lease key, at the granularity of its database
 * statements. Any number of processes run migrate_tenant; each process has one owner name
 * and at most one run on the key. A run may fail, lose its connection, be interrupted or be
 * killed at any statement, and a statement it had sent may go on running on the shard
 * without its client (an orphan). The admin, the console, the operator and the clock are the
 * other writers. Rows of other keys are touched by no step here and need no place in the state.
 */
module Migrator {
  import opened Types
  import opened Lease

  type Migration = string

  /** What the tenant's shard holds: its recorded migrations, and whether it has any relation. */
  datatype Schema = Missing | Present(applied: set<Migration>, relations: bool)

  /** RunOptions, and the migrations the running code knows. */
  datatype Options = Options(maintenance: bool, targeted: bool, known: set<Migration>)

  /** Where a run stands; from Acquired on it is under the lease. */
  datatype Pc =
    | Loaded                                   // first load passed the gate
    | Clear                                    // the shard showed no busy tm:<key> backend
    | Acquired                                 // the upsert won
    | Provisioning(was: Tenant)                // re-read NEW or PENDING
    | Rejecting                                // NEW, but the schema already has relations
    | Vetted                                   // nothing foreign on the shard
    | Claimed                                  // PENDING written by this run
    | Created                                  // CREATE SCHEMA IF NOT EXISTS done
    | Upgrading(seen: Status)                  // re-read ACTIVE, DEACTIVATED or MAINTENANCE
    | Migrating(provision: bool, busy: bool)   // tm:<key> session open; busy inside a statement
    | Planned                                  // pending plan was empty, session closed
    | Failing                                  // claimed, then failed: FAILED not written yet
    | Vanished(seen: Status)                   // upgrade found no schema: FAILED not written yet
    | Closing(release: bool)                   // the finally block

  datatype Run = Run(opts: Options, pc: Pc, until: int)

  datatype State = State(
    now: int,
    lease: Lease,
    rowLock: Option<Status>,     // an admin transaction holds the lease row; the status it saw
    tenant: Option<Tenant>,
    schema: Schema,
    orphans: seq<Options>,       // statements running on the shard without a client, by their run's options
    runs: map<Owner, Run>
  )

  predicate Init(s: State) {
    && s.lease == Free && s.rowLock == None && s.tenant == Some(Tenant(New, New))
    && s.orphans == [] && s.runs == map[]
  }

  predicate UnderLease(pc: Pc) {
    !pc.Loaded? && !pc.Clear?
  }

  predicate HoldsRun(s: State, o: Owner) {
    o in s.runs && UnderLease(s.runs[o].pc)
  }

  /** shard_session_active: some tm:<key> backend is inside a statement. */
  predicate Busy(s: State) {
    s.orphans != [] || exists o :: o in s.runs && s.runs[o].pc.Migrating? && s.runs[o].pc.busy
  }

  /** pending_plan(t) == [] for code that knows `known`. */
  predicate Complete(schema: Schema, known: set<Migration>) {
    schema.Present? && known <= schema.applied
  }

  const PROVISIONABLE: set<Status> := {New, Pending}
  const UPGRADABLE: set<Status> := {Active, Deactivated}

  /** STATUS_TRANSITIONS of the admin, without the identity entries. */
  function AdminTargets(from: Status): set<Status> {
    match from
    case New => {}
    case Pending => {}
    case Active => {Deactivated, Maintenance}
    case Deactivated => {Active, Maintenance}
    case Failed => {New, Maintenance}
    case Maintenance => {Active, Deactivated, Failed}
  }

  datatype Action =
    | Tick(seconds: nat)
    // the run of process o
    | Begin(o: Owner, opts: Options)
    | SessionCheck(o: Owner)
    | Upsert(o: Owner)
    | Reload(o: Owner)
    | SkipProvision(o: Owner)
    | Vet(o: Owner)
    | RejectForeign(o: Owner)
    | Claim(o: Owner)
    | CreateSchema(o: Owner)
    | OpenShard(o: Owner)
    | BeginStatement(o: Owner)
    | EndStatement(o: Owner, effect: Schema)
    | PlanCheck(o: Owner)
    | Activate(o: Owner)
    | MarkFailed(o: Owner)
    | Inspect(o: Owner)
    | MarkMissing(o: Owner)
    | FinishUpgrade(o: Owner)
    | Error(o: Owner)
    | ConnLost(o: Owner, survives: bool)
    | Interrupt(o: Owner, survives: bool)
    | Release(o: Owner, ok: bool)
    | Kill(o: Owner, survives: bool)
    // everybody else
    | OrphanEnds(i: nat, effect: Schema)
    | OperatorRelease(o: Owner)
    | AdminLock(from: Status)
    | AdminCommit
    | AdminRollback
    | AdminSet(from: Status, to: Status, confirmed: bool)
    | ConsoleSet(from: Status)
    | DeleteTenant
    | DropSchema

  /** schema_has_relations guards a NEW tenant unless the operator confirmed the schema. */
  predicate Foreign(s: State, was: Tenant) {
    was.status == New && was.previous != Failed && s.schema.Present? && s.schema.relations
  }

  /** A statement of a plain run only adds migrations it knows; a targeted one may do anything. */
  predicate StatementEffect(before: Schema, after: Schema, opts: Options) {
    if before.Missing? then after == before
    else after.Present? && (opts.targeted || before.applied <= after.applied <= before.applied + opts.known)
  }

  predicate Enabled(s: State, a: Action) {
    match a
    case Tick(_) => true
    case Begin(o, opts) =>
      o !in s.runs && s.tenant.Some? && s.tenant.value.status != Failed
      && (s.tenant.value.status == Maintenance ==> opts.maintenance)
    case SessionCheck(o) => o in s.runs && s.runs[o].pc.Loaded?
    case Upsert(o) => o in s.runs && s.runs[o].pc.Clear? && s.rowLock.None?
    case Reload(o) => o in s.runs && s.runs[o].pc.Acquired?
    case SkipProvision(o) => o in s.runs && (s.runs[o].pc.Provisioning? || s.runs[o].pc.Planned?)
    case Vet(o) => o in s.runs && s.runs[o].pc.Provisioning? && !s.runs[o].opts.targeted
    case RejectForeign(o) => o in s.runs && s.runs[o].pc.Rejecting?
    case Claim(o) => o in s.runs && s.runs[o].pc.Vetted?
    case CreateSchema(o) => o in s.runs && s.runs[o].pc.Claimed?
    case OpenShard(o) => o in s.runs && s.runs[o].pc.Created?
    case BeginStatement(o) => o in s.runs && s.runs[o].pc.Migrating? && !s.runs[o].pc.busy
    case EndStatement(o, effect) =>
      o in s.runs && s.runs[o].pc.Migrating? && s.runs[o].pc.busy && StatementEffect(s.schema, effect, s.runs[o].opts)
    case PlanCheck(o) => o in s.runs && s.runs[o].pc.Migrating? && s.runs[o].pc.provision && !s.runs[o].pc.busy
    case Activate(o) => o in s.runs && s.runs[o].pc.Planned?
    case MarkFailed(o) => o in s.runs && s.runs[o].pc.Failing?
    case Inspect(o) => o in s.runs && s.runs[o].pc.Upgrading?
    case MarkMissing(o) => o in s.runs && s.runs[o].pc.Vanished?
    case FinishUpgrade(o) => o in s.runs && s.runs[o].pc.Migrating? && !s.runs[o].pc.provision && !s.runs[o].pc.busy
    case Error(o) => o in s.runs && UnderLease(s.runs[o].pc) && !s.runs[o].pc.Closing? && !s.runs[o].pc.Failing?
        && !(s.runs[o].pc.Migrating? && s.runs[o].pc.busy)
    case ConnLost(o, _) => o in s.runs && UnderLease(s.runs[o].pc) && !s.runs[o].pc.Closing?
    case Interrupt(o, _) => o in s.runs && UnderLease(s.runs[o].pc) && !s.runs[o].pc.Closing?
    case Release(o, ok) => o in s.runs && s.runs[o].pc.Closing? && (s.rowLock.Some? ==> !ok)
    case Kill(o, _) => o in s.runs
    case OrphanEnds(i, effect) => i < |s.orphans| && StatementEffect(s.schema, effect, s.orphans[i])
    case OperatorRelease(o) => s.rowLock.None?
    case AdminLock(from) => s.rowLock.None? && !Live(s.lease, s.now) && Maintenance in AdminTargets(from)
    case AdminCommit => s.rowLock.Some? && Maintenance in AdminTargets(s.rowLock.value)
    case AdminRollback => s.rowLock.Some?
    case AdminSet(from, to, confirmed) =>
      to in AdminTargets(from) && to != Maintenance && (from == Failed && to == New ==> confirmed)
    case ConsoleSet(from) => from in UPGRADABLE
    case DeleteTenant => true
    case DropSchema => s.tenant.None?
  }

  function Goto(s: State, o: Owner, pc: Pc): State
    requires o in s.runs
  {
    s.(runs := s.runs[o := s.runs[o].(pc := pc)])
  }

  function EndRun(s: State, o: Owner): State {
    s.(runs := s.runs - {o})
  }

  /** A fenced status write of run o, which then finishes. */
  function FencedWrite(s: State, o: Owner, expected: set<Status>, to: Tenant, hit: Pc, miss: Pc): State
    requires o in s.runs
  {
    if CasHits(s.tenant, s.lease, o, expected)
    then Goto(s.(tenant := Some(to)), o, hit)
    else Goto(s, o, miss)
  }

  /** The client of run o is gone; its statement, if any, may survive it. */
  function Detached(s: State, o: Owner, survives: bool): State
    requires o in s.runs
  {
    if s.runs[o].pc.Migrating? && s.runs[o].pc.busy && survives then s.(orphans := s.orphans + [s.runs[o].opts]) else s
  }

  /** An update of the tenant row conditional on its status alone (admin, console). */
  function PlainCas(row: Option<Tenant>, from: Status, to: Status): Option<Tenant> {
    if row.Some? && row.value.status == from then Some(Tenant(to, from)) else row
  }

  /** The re-read under the lease: gate, then provision, upgrade or nothing. */
  function AfterReload(s: State, opts: Options): Pc {
    if s.tenant.None? then Closing(true)
    else
      var t := s.tenant.value;
      if t.status == Failed || (t.status == Maintenance && !opts.maintenance) then Closing(true)
      else if t.status in PROVISIONABLE then Provisioning(t)
      else Upgrading(t.status)
  }

  /** Whether an escaping failure must still be recorded as FAILED. */
  predicate OwesFailure(pc: Pc) {
    pc.Claimed? || pc.Created? || pc.Planned? || (pc.Migrating? && pc.provision)
  }

  function Apply(s: State, a: Action): State
    requires Enabled(s, a)
  {
    match a
    case Tick(seconds) => s.(now := s.now + seconds)
    case Begin(o, opts) => s.(runs := s.runs[o := Run(opts, Loaded, 0)])
    case SessionCheck(o) => if Busy(s) then EndRun(s, o) else Goto(s, o, Clear)
    case Upsert(o) =>
      if Live(s.lease, s.now) then EndRun(s, o)
      else s.(lease := Upserted(s.lease, o, s.now),
              runs := s.runs[o := Run(s.runs[o].opts, Acquired, s.now + LEASE_TTL)])
    case Reload(o) => Goto(s, o, AfterReload(s, s.runs[o].opts))
    case SkipProvision(o) => Goto(s, o, Closing(true))
    case Vet(o) => Goto(s, o, if Foreign(s, s.runs[o].pc.was) then Rejecting else Vetted)
    case RejectForeign(o) => FencedWrite(s, o, {New}, Tenant(Failed, New), Closing(true), Closing(true))
    case Claim(o) => FencedWrite(s, o, PROVISIONABLE, Tenant(Pending, New), Claimed, Closing(true))
    case CreateSchema(o) =>
      Goto(if s.schema.Missing? then s.(schema := Present({}, false)) else s, o, Created)
    case OpenShard(o) => Goto(s, o, Migrating(true, false))
    case BeginStatement(o) => Goto(s, o, Migrating(s.runs[o].pc.provision, true))
    case EndStatement(o, effect) => Goto(s.(schema := effect), o, Migrating(s.runs[o].pc.provision, false))
    case PlanCheck(o) => Goto(s, o, if Complete(s.schema, s.runs[o].opts.known) then Planned else Failing)
    case Activate(o) => FencedWrite(s, o, {Pending}, Tenant(Active, Pending), Closing(true), Closing(true))
    case MarkFailed(o) => FencedWrite(s, o, {Pending}, Tenant(Failed, Pending), Closing(true), Closing(true))
    case Inspect(o) =>
      var seen := s.runs[o].pc.seen;
      if s.schema.Missing? then Goto(s, o, if seen == Maintenance then Closing(true) else Vanished(seen))
      else if Complete(s.schema, s.runs[o].opts.known) && !s.runs[o].opts.targeted then Goto(s, o, Closing(true))
      else Goto(s, o, Migrating(false, false))
    case MarkMissing(o) =>
      var seen := s.runs[o].pc.seen;
      FencedWrite(s, o, {seen}, Tenant(Failed, seen), Closing(true), Closing(true))
    case FinishUpgrade(o) => Goto(s, o, Closing(true))
    case Error(o) => Goto(s, o, if OwesFailure(s.runs[o].pc) then Failing else Closing(true))
    case ConnLost(o, survives) => Goto(Detached(s, o, survives), o, Closing(true))
    case Interrupt(o, survives) =>
      var pc := s.runs[o].pc;
      Goto(Detached(s, o, survives), o, Closing(!(pc.Migrating? && pc.busy && survives)))
    case Release(o, ok) =>
      EndRun(if s.runs[o].pc.release && ok then s.(lease := ReleasedBy(s.lease, o)) else s, o)
    case Kill(o, survives) => EndRun(Detached(s, o, survives), o)
    case OrphanEnds(i, effect) => s.(orphans := s.orphans[..i] + s.orphans[i+1..], schema := effect)
    case OperatorRelease(o) => s.(lease := ReleasedBy(s.lease, o))
    case AdminLock(from) => s.(rowLock := Some(from))
    case AdminCommit => s.(rowLock := None, tenant := PlainCas(s.tenant, s.rowLock.value, Maintenance))
    case AdminRollback => s.(rowLock := None)
    case AdminSet(from, to, _) => s.(tenant := PlainCas(s.tenant, from, to))
    case ConsoleSet(from) => s.(tenant := PlainCas(s.tenant, from, if from == Active then Deactivated else Active))
    case DeleteTenant => s.(tenant := None)
    case DropSchema => s.(schema := Missing)
  }

  /** A finite behaviour: every interleaving of enabled steps. */
  ghost predicate Behaviour(states: seq<State>, acts: seq<Action>) {
    && |states| == |acts| + 1
    && forall i {:trigger acts[i]} :: 0 <= i < |acts| ==>
         Enabled(states[i], acts[i]) && states[i+1] == Apply(states[i], acts[i])
  }
}
