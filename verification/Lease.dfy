/**
 * The SQL statements of the migrator's mutex: the lease upsert, the two releases, the row
 * lock of the admin, and the status compare-and-set fenced on lease ownership.
 * The functions say what one statement does to one row; class DefaultDb is the database
 * the statements run against.
 */
module Lease {
  import opened Types

  type Owner = string
  type Key = int

  /** One hour, in seconds; fixed at acquisition and never extended. */
  const LEASE_TTL := 3600

  /** A lease row. A row that was never inserted reads as Free. */
  datatype Lease = Free | Held(owner: Owner, until: int)

  predicate Holds(l: Lease, me: Owner) {
    l.Held? && l.owner == me
  }

  predicate Expired(l: Lease, now: int) {
    l.Held? && l.until < now
  }

  /** The holder the admin must respect. */
  predicate Live(l: Lease, now: int) {
    l.Held? && !Expired(l, now)
  }

  /** INSERT ... ON CONFLICT DO UPDATE ... WHERE owner IS NULL OR until < now() */
  function Upserted(l: Lease, me: Owner, now: int): Lease {
    if Live(l, now) then l else Held(me, now + LEASE_TTL)
  }

  /** UPDATE ... SET owner = NULL WHERE owner = me */
  function ReleasedBy(l: Lease, me: Owner): Lease {
    if Holds(l, me) then Free else l
  }

  /** Whether the fenced compare-and-set updates its row. */
  predicate CasHits(row: Option<Tenant>, l: Lease, me: Owner, expected: set<Status>) {
    row.Some? && row.value.status in expected && Holds(l, me)
  }

  /** The row functions in plain terms: an expired lease is strictly past its end, a winner holds one hour. */
  lemma LeaseRows(l: Lease, me: Owner, now: int)
    ensures Expired(l, now) <==> l.Held? && l.until < now
    ensures Live(l, now) <==> l.Held? && now <= l.until
    ensures Upserted(l, me, now) == if l.Held? && now <= l.until then l else Held(me, now + 3600)
    ensures ReleasedBy(l, me) == if l.Held? && l.owner == me then Free else l
    ensures forall row: Option<Tenant>, expected: set<Status> ::
              CasHits(row, l, me, expected) <==> row.Some? && row.value.status in expected && l.Held? && l.owner == me
  {
  }

  /** Why a fenced compare-and-set updated no row. */
  datatype Loss = TenantDeleted | LeaseLost | StatusChanged(now: Status)

  class DefaultDb {
    var leases: map<Key, Lease>
    var tenants: map<Key, Tenant>
    var clock: int

    constructor ()
      ensures leases == map[] && tenants == map[] && clock == 0
    {
      leases, tenants, clock := map[], map[], 0;
    }

    function LeaseOf(key: Key): Lease
      reads this
    {
      if key in leases then leases[key] else Free
    }

    function TenantOf(key: Key): Option<Tenant>
      reads this
    {
      if key in tenants then Some(tenants[key]) else None
    }

    /** lease_acquire: refuses while the shard shows a busy tm:<key> backend, else one upsert. */
    method LeaseAcquire(key: Key, me: Owner, busy: bool) returns (won: bool)
      modifies this`leases
      ensures won <==> !busy && (old(LeaseOf(key)).Held? ==> old(LeaseOf(key)).until < clock)
      ensures LeaseOf(key) == if won then Held(me, clock + 3600) else old(LeaseOf(key))
      ensures forall k: Key :: k != key ==> LeaseOf(k) == old(LeaseOf(k))
    {
      if busy {
        return false;
      }
      if key !in leases || leases[key].Free? || leases[key].until < clock {
        leases := leases[key := Held(me, clock + LEASE_TTL)];
        won := true;
      } else {
        won := false;
      }
    }

    /** lease_release, and lease_force_release with the owner the operator was shown. */
    method LeaseRelease(key: Key, owner: Owner) returns (released: bool)
      modifies this`leases
      ensures released <==> old(LeaseOf(key)).Held? && old(LeaseOf(key)).owner == owner
      ensures LeaseOf(key) == if released then Free else old(LeaseOf(key))
      ensures forall k: Key :: k != key ==> LeaseOf(k) == old(LeaseOf(k))
    {
      released := key in leases && leases[key].Held? && leases[key].owner == owner;
      if released {
        leases := leases[key := Free];
      }
    }

    /** lease_lock_for_transition: creates the row free if absent, returns its live holder. */
    method LockForTransition(key: Key) returns (holder: Option<Owner>)
      modifies this`leases
      ensures key in leases
      ensures forall k: Key :: LeaseOf(k) == old(LeaseOf(k))
      ensures holder == match LeaseOf(key)
                        case Free => None
                        case Held(owner, until) => if until < clock then None else Some(owner)
    {
      if key !in leases {
        leases := leases[key := Free];
      }
      holder := if leases[key].Free? || leases[key].until < clock then None else Some(leases[key].owner);
    }

    /** _fenced_cas: rows updated, 0 or 1. */
    method FencedCas(key: Key, me: Owner, expected: set<Status>, to: Tenant) returns (updated: nat)
      modifies this`tenants
      ensures updated == 1 <==>
                && key in old(tenants) && old(tenants)[key].status in expected
                && LeaseOf(key).Held? && LeaseOf(key).owner == me
      ensures updated == 1 ==> key in tenants && tenants[key] == to
      ensures updated != 1 ==> updated == 0 && TenantOf(key) == old(TenantOf(key))
      ensures forall k: Key :: k != key ==> TenantOf(k) == old(TenantOf(k))
    {
      updated := 0;
      if key in tenants && tenants[key].status in expected
         && key in leases && leases[key].Held? && leases[key].owner == me {
        tenants := tenants[key := to];
        updated := 1;
      }
    }

    /** _cas_lost: the diagnosis is exact whenever the compare-and-set did miss. */
    method CasLost(key: Key, me: Owner) returns (why: Loss)
      ensures why.TenantDeleted? <==> key !in tenants
      ensures why.LeaseLost? <==> key in tenants && !(LeaseOf(key).Held? && LeaseOf(key).owner == me)
      ensures why.StatusChanged? <==> key in tenants && LeaseOf(key).Held? && LeaseOf(key).owner == me
      ensures why.StatusChanged? ==> why.now == tenants[key].status
      ensures forall expected: set<Status> ::
                why.StatusChanged? && !CasHits(TenantOf(key), LeaseOf(key), me, expected) ==> why.now !in expected
    {
      if key !in tenants {
        why := TenantDeleted;
      } else if !(key in leases && leases[key].Held? && leases[key].owner == me) {
        why := LeaseLost;
      } else {
        why := StatusChanged(tenants[key].status);
      }
    }
  }
}
