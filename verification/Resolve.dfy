/**
 * The resolve policy: cache, then host gate, then the database under a fill budget. It must
 * be indistinguishable from a database lookup except that it may decline to look.
 */
module Resolve {
  import opened Types
  import opened SnapshotCache
  import Registry

  /** The database: domains point to tenants, tenants are unique by schema. */
  datatype Db = Db(domains: map<Host, string>, tenants: map<string, Snapshot>)

  predicate WellFormed(db: Db) {
    && (forall h :: h in db.domains ==> db.domains[h] in db.tenants)
    && (forall n :: n in db.tenants ==> db.tenants[n].schema == n)
  }

  datatype Outcome = Resolved(snapshot: Snapshot) | NotFound | Deferred | DbDown

  /** The authoritative lookup. */
  function DbAnswer(db: Db, host: Host): Outcome
    requires WellFormed(db)
  {
    if host in db.domains then Resolved(db.tenants[db.domains[host]]) else NotFound
  }

  /** An unexpected exception of the cache or gate code, by the place that raises it. */
  datatype Bug = NoBug | InGet | InCheck | InFill

  /** What fails during one call: each Redis access, the database, and the answer of fill_cap. */
  datatype Faults = Faults(getUp: bool, checkUp: bool, setUp: bool, dbUp: bool, budget: bool, bug: Bug)

  /** How single_flight serves a caller: it fills for itself, or shares the end of another caller's fill. */
  datatype Flight = Own | Shares(end: FillEnd)

  /** The end of a fill: an outcome, or an exception that is neither not_found nor the database's. */
  datatype FillEnd = Ended(r: Outcome) | Blew

  /** What a fill of this host can end with; SingleFlight proves that a shared end comes from such a fill. */
  predicate PossibleEnd(db: Db, host: Host, end: FillEnd)
    requires WellFormed(db)
  {
    end.Ended? ==> end.r == DbAnswer(db, host) || end.r == DbDown
  }

  /** The database failed for this caller, or for the one whose fill it shares. */
  predicate DbFailed(f: Faults, flight: Flight) {
    !f.dbUp || flight == Shares(Ended(DbDown))
  }

  predicate TrueAnswer(db: Db, key: Key, a: Answer)
    requires WellFormed(db)
  {
    match key
    case HostSnap(h) => DbAnswer(db, h) == (if a.Found? then Resolved(a.snapshot) else NotFound)
    case SchemaSnap(n) => a.Found? && n in db.tenants && db.tenants[n] == a.snapshot
  }

  /** Live entries agree with the database, and the host SET, if present, covers it. */
  ghost predicate Faithful(db: Db, store: map<Key, Entry<Answer>>, now: int, hosts: Registry.HostSet)
    requires WellFormed(db)
  {
    && (forall k :: LiveAt(store, now, k) && store[k].value.Filled? ==> TrueAnswer(db, k, store[k].value.content))
    && (hosts.Present? ==> db.domains.Keys <= hosts.hosts)
  }

  lemma FaithfulSetNx(db: Db, store: map<Key, Entry<Answer>>, now: int, hosts: Registry.HostSet, key: Key, a: Answer,
                      ttl: Option<nat>)
    requires WellFormed(db) && Faithful(db, store, now, hosts) && TrueAnswer(db, key, a)
    ensures Faithful(db, SetNx(store, now, key, a, ttl), now, hosts)
  {
  }

  // ---------------------------------------------------------------------------------------
  // What a call meets, in plain terms.
  // ---------------------------------------------------------------------------------------

  predicate CacheOn(cfg: Config) {
    cfg.warm || cfg.positiveTtl != 0 || cfg.missTtl != 0
  }

  /** The cache holds an answer for the host. */
  predicate Cached(store: map<Key, Entry<Answer>>, now: int, host: Host) {
    Unexpired(store, now, HostSnap(host)) && store[HostSnap(host)].value.Filled?
  }

  /** r is the answer that the cache holds. */
  predicate IsCachedAnswer(store: map<Key, Entry<Answer>>, host: Host, r: Outcome)
    requires HostSnap(host) in store && store[HostSnap(host)].value.Filled?
  {
    match store[HostSnap(host)].value.content
    case Found(s) => r == Resolved(s)
    case NoTenant => r == NotFound
  }

  /** The SET can be read: Redis answers and the key is there. */
  predicate Readable(hosts: Registry.HostSet, f: Faults) {
    f.checkUp && hosts.Present?
  }

  /** The gate turns the host away. */
  predicate TurnedAway(gate: bool, hosts: Registry.HostSet, host: Host, f: Faults) {
    gate && Readable(hosts, f) && host !in hosts.hosts
  }

  /** The gate cannot tell, and there is no budget to look. */
  predicate Shed(gate: bool, hosts: Registry.HostSet, f: Faults) {
    gate && !Readable(hosts, f) && !f.budget
  }

  /** r is what the database says. */
  predicate IsDbAnswer(db: Db, host: Host, r: Outcome)
    requires WellFormed(db)
  {
    if host in db.domains then r == Resolved(db.tenants[db.domains[host]]) else r == NotFound
  }

  /** The answer of the database is in the cache now, as far as it is configured to keep such answers. */
  ghost predicate AnswerKept(cfg: Config, db: Db, store: map<Key, Entry<Answer>>, now: int, host: Host)
    requires WellFormed(db)
  {
    && (host in db.domains && (cfg.warm || cfg.positiveTtl != 0) ==>
          HostSnap(host) in store && store[HostSnap(host)] == SnapshotEntry(cfg, now, db.tenants[db.domains[host]]))
    && (host !in db.domains && cfg.missTtl != 0 ==>
          HostSnap(host) in store && store[HostSnap(host)] == Entry(Filled(NoTenant), Some(now + cfg.missTtl)))
  }

  class Resolver {
    const cache: ResolveCache
    const gateFlag: bool
    var hosts: Registry.HostSet

    constructor (cache: ResolveCache, gateFlag: bool)
      ensures this.cache == cache && this.gateFlag == gateFlag && hosts == Registry.Absent
    {
      this.cache, this.gateFlag := cache, gateFlag;
      hosts := Registry.Absent;
    }

    /** flags.gate_enabled(): the gate counts only when WARM is on. */
    predicate GateEnabled() {
      gateFlag && cache.cfg.warm
    }

    predicate CacheEnabled() {
      cache.cfg.warm || cache.cfg.positiveTtl != 0 || cache.cfg.missTtl != 0
    }

    /** db_resolver() */
    method QueryDb(host: Host, db: Db, f: Faults) returns (r: Outcome)
      requires WellFormed(db)
      ensures f.dbUp ==> IsDbAnswer(db, host, r)
      ensures !f.dbUp ==> r == DbDown
    {
      r := if !f.dbUp then DbDown else if host in db.domains then Resolved(db.tenants[db.domains[host]]) else NotFound;
    }

    /** _fill: the database answer, cached on the way out; `raised` when the cache write blows up. */
    method FillFrom(host: Host, db: Db, f: Faults) returns (r: Outcome, raised: bool)
      requires WellFormed(db) && Faithful(db, cache.store, cache.clock, hosts)
      modifies cache`store
      ensures Faithful(db, cache.store, cache.clock, hosts)
      ensures PossibleEnd(db, host, if raised then Blew else Ended(r))
      ensures raised ==> f.bug == InFill
      ensures !raised && f.dbUp ==> IsDbAnswer(db, host, r)
      ensures !raised && !f.dbUp ==> r == DbDown
      ensures !raised && f.dbUp && f.setUp && !old(Unexpired(cache.store, cache.clock, HostSnap(host))) ==>
                AnswerKept(cache.cfg, db, cache.store, cache.clock, host)
    {
      r := QueryDb(host, db, f);
      raised := f.bug == InFill && !r.DbDown?;
      if raised || r.DbDown? {
        return;
      }
      if r.NotFound? {
        FaithfulSetNx(db, cache.store, cache.clock, hosts, HostSnap(host), NoTenant, Some(cache.cfg.missTtl));
        cache.StoreMiss(host, f.setUp);
      } else {
        var ttl := TtlFor(cache.cfg, r.snapshot);
        ghost var one := SetNx(cache.store, cache.clock, HostSnap(host), Found(r.snapshot), ttl);
        FaithfulSetNx(db, cache.store, cache.clock, hosts, HostSnap(host), Found(r.snapshot), ttl);
        FaithfulSetNx(db, one, cache.clock, hosts, SchemaSnap(r.snapshot.schema), Found(r.snapshot), ttl);
        var _ := cache.Put(host, r.snapshot, f.setUp);
      }
    }

    /** _via_cache; `raised` when an unexpected exception leaves it. `queries` are this caller's own. */
    method ViaCache(host: Host, db: Db, f: Faults, flight: Flight) returns (r: Outcome, queries: nat, raised: bool)
      requires WellFormed(db) && Faithful(db, cache.store, cache.clock, hosts)
      requires flight.Shares? ==> PossibleEnd(db, host, flight.end)
      modifies cache`store
      ensures Faithful(db, cache.store, cache.clock, hosts) && queries <= (if flight.Own? then 1 else 0)
      ensures raised ==> !f.bug.NoBug? || flight == Shares(Blew)
      ensures !raised ==> IsDbAnswer(db, host, r) || r.Deferred? || (r.DbDown? && DbFailed(f, flight))
      ensures f.getUp && !f.bug.InGet? && old(Cached(cache.store, cache.clock, host)) ==>
                && queries == 0 && !raised && IsCachedAnswer(old(cache.store), host, r)
                && cache.store == old(cache.store)
      ensures !(f.getUp && old(Cached(cache.store, cache.clock, host))) && f.bug.NoBug? ==>
                var gate := gateFlag && cache.cfg.warm;
                && (TurnedAway(gate, hosts, host, f) ==>
                    queries == 0 && r == NotFound && !raised && cache.store == old(cache.store))
                && (r.Deferred? && !raised <==> Shed(gate, hosts, f))
                && (!TurnedAway(gate, hosts, host, f) && !Shed(gate, hosts, f) && flight.Own? ==>
                      && queries == 1 && !raised && (if f.dbUp then IsDbAnswer(db, host, r) else r == DbDown)
                      && (f.dbUp && f.setUp && !old(Unexpired(cache.store, cache.clock, HostSnap(host))) ==>
                            AnswerKept(cache.cfg, db, cache.store, cache.clock, host)))
                && (!TurnedAway(gate, hosts, host, f) && !Shed(gate, hosts, f) && flight.Shares? ==>
                      queries == 0 && (if flight.end.Ended? then !raised && r == flight.end.r else raised))
      ensures !raised && r.Deferred? ==> Shed(gateFlag && cache.cfg.warm, hosts, f) && queries == 0
    {
      queries, raised, r := 0, false, NotFound;
      if f.bug.InGet? {
        raised := true;
        return;
      }
      var found := cache.GetSnapshot(host, f.getUp);
      if found.Neg? {
        assert TrueAnswer(db, HostSnap(host), NoTenant);
        return;
      }
      if found.Hit? {
        assert TrueAnswer(db, HostSnap(host), Found(found.snapshot));
        r := Resolved(found.snapshot);
        return;
      }
      if GateEnabled() {
        if f.bug.InCheck? {
          raised := true;
          return;
        }
        var verdict := Registry.Check(hosts, host, f.checkUp);
        if verdict.Nonmember? {
          return;
        }
        if verdict.Unknown? && !f.budget {
          r := Deferred;
          return;
        }
      }
      if flight.Shares? {
        raised := flight.end.Blew?;
        if !raised {
          r := flight.end.r;
        }
        return;
      }
      queries := 1;
      r, raised := FillFrom(host, db, f);
    }

    /**
     * resolve(): exactly the database's answer, or a declared refusal to look, or the
     * database's own failure, whatever Redis does; the cache stays faithful, and a host the
     * gate can reject costs no query.
     */
    method ResolveHost(host: Host, db: Db, f: Faults, flight: Flight) returns (r: Outcome, queries: nat)
      requires WellFormed(db) && Faithful(db, cache.store, cache.clock, hosts)
      requires flight.Shares? ==> PossibleEnd(db, host, flight.end)
      modifies cache`store
      ensures Faithful(db, cache.store, cache.clock, hosts)
      ensures IsDbAnswer(db, host, r) || r.Deferred? || (r.DbDown? && DbFailed(f, flight))
      ensures r.Deferred? ==> Shed(gateFlag && cache.cfg.warm, hosts, f) && queries == 0
      ensures queries <= (if f.bug.NoBug? then 1 else 2)
      // a cached answer is the answer, without a query, even with the database down
      ensures CacheOn(cache.cfg) && f.getUp && !f.bug.InGet? && old(Cached(cache.store, cache.clock, host)) ==>
                queries == 0 && IsCachedAnswer(old(cache.store), host, r) && cache.store == old(cache.store)
      // a miss is turned away, shed, or looked up and then kept
      ensures !(f.getUp && old(Cached(cache.store, cache.clock, host))) && f.bug.NoBug? ==>
                var gate := gateFlag && cache.cfg.warm;
                && (TurnedAway(gate, hosts, host, f) ==>
                    queries == 0 && r == NotFound && cache.store == old(cache.store))
                && (r.Deferred? <==> Shed(gate, hosts, f))
                && (!TurnedAway(gate, hosts, host, f) && !Shed(gate, hosts, f) && flight.Own? ==>
                      && queries == 1 && (if f.dbUp then IsDbAnswer(db, host, r) else r == DbDown)
                      && (f.dbUp && f.setUp && !old(Unexpired(cache.store, cache.clock, HostSnap(host))) ==>
                            AnswerKept(cache.cfg, db, cache.store, cache.clock, host)))
                && (!TurnedAway(gate, hosts, host, f) && !Shed(gate, hosts, f) && flight.Shares?
                    && CacheOn(cache.cfg) ==>
                      if flight.end.Ended? then queries == 0 && r == flight.end.r
                      else queries == 1 && (if f.dbUp then IsDbAnswer(db, host, r) else r == DbDown))
    {
      if !CacheEnabled() && !GateEnabled() {
        queries := 1;
        r := QueryDb(host, db, f);
        return;
      }
      var raised;
      r, queries, raised := ViaCache(host, db, f, flight);
      if raised {
        queries := queries + 1;
        r := QueryDb(host, db, f);
      }
    }
  }
}
