/**
 * The host gate's Redis SET. Its existence without a TTL is the consistency flag: a host that
 * is not a member is rejected without a database query. Domain mutations maintain it step by
 * step after their commit, and a reconcile rebuilds it from the database and renames the
 * rebuilt SET into place, re-running when the mutation counter moved meanwhile.
 */
module Registry {
  type Host = string

  /** treg:hosts; `armed` when it carries the dead-man TTL. */
  datatype HostSet = Absent | Present(hosts: set<Host>, armed: bool)

  datatype Verdict = Member | Nonmember | Unknown

  /** check(): UNKNOWN when the SET is absent or Redis fails. */
  function Check(s: HostSet, host: Host, redisUp: bool): Verdict {
    if !redisUp || s.Absent? then Unknown else if host in s.hosts then Member else Nonmember
  }

  /** The three answers, by what EXISTS and SISMEMBER say. */
  lemma CheckAnswers(s: HostSet, host: Host, redisUp: bool)
    ensures Check(s, host, redisUp) == Nonmember <==> redisUp && s.Present? && host !in s.hosts
    ensures Check(s, host, redisUp) == Member <==> redisUp && s.Present? && host in s.hosts
  {
  }

  /** SADD. Redis creates the key when it is absent, and keeps a TTL it already has. */
  function Added(s: HostSet, host: Host): HostSet {
    if s.Absent? then Present({host}, false) else s.(hosts := s.hosts + {host})
  }

  /** SREM. Redis deletes a key whose last member goes. */
  function Removed(s: HostSet, host: Host): HostSet {
    if s.Absent? || s.hosts <= {host} then Absent else s.(hosts := s.hosts - {host})
  }

  /** EXPIRE */
  function Armed(s: HostSet): HostSet {
    if s.Absent? then s else s.(armed := true)
  }

  /** RENAME of the rebuilt SET, or DELETE when the rebuild found no domain. */
  function Swapped(built: set<Host>): HostSet {
    if built == {} then Absent else Present(built, false)
  }

  // ---------------------------------------------------------------------------------------
  // The code that runs against one Redis.
  // ---------------------------------------------------------------------------------------

  /** A Domain row with the tenant it points to, and that tenant's schema name. */
  datatype Row<T> = Row(domain: Host, schema: string, tenant: T)

  function DomainsOf<T>(rows: seq<Row<T>>): set<Host> {
    if rows == [] then {} else DomainsOf(rows[..|rows|-1]) + {rows[|rows|-1].domain}
  }

  lemma {:induction false} DomainsOfIff<T>(rows: seq<Row<T>>, h: Host)
    ensures h in DomainsOf(rows) <==> OfDomain(rows, h)
  {
    if rows != [] {
      var n := |rows| - 1;
      DomainsOfIff(rows[..n], h);
      if i :| 0 <= i < n && rows[i].domain == h {
        assert rows[..n][i].domain == h;
      }
    }
  }

  lemma {:induction false} DomainsOfMember<T>(rows: seq<Row<T>>, i: nat)
    requires i < |rows|
    ensures rows[i].domain in DomainsOf(rows)
  {
    if i < |rows| - 1 {
      assert rows[i] == rows[..|rows|-1][i];
      DomainsOfMember(rows[..|rows|-1], i);
    }
  }

  /** Rows of one domain agree on the tenant; Domain.domain is even unique. */
  ghost predicate Consistent<T>(rows: seq<Row<T>>) {
    forall i, j :: 0 <= i < j < |rows| && rows[i].domain == rows[j].domain ==> rows[i].tenant == rows[j].tenant
  }

  /** put_many: the snapshots after force-writing the rows in order. */
  function Recorded<T>(snaps: map<Host, T>, rows: seq<Row<T>>): map<Host, T> {
    if rows == [] then snaps
    else Recorded(snaps, rows[..|rows|-1])[rows[|rows|-1].domain := rows[|rows|-1].tenant]
  }

  /** Every domain ends with its own row's tenant; other entries are left to the orphan sweep. */
  lemma {:induction false} RecordedMeaning<T>(snaps: map<Host, T>, rows: seq<Row<T>>)
    requires Consistent(rows)
    ensures Recorded(snaps, rows).Keys == snaps.Keys + DomainsOf(rows)
    ensures forall i :: 0 <= i < |rows| ==>
              rows[i].domain in Recorded(snaps, rows) && Recorded(snaps, rows)[rows[i].domain] == rows[i].tenant
    ensures forall h :: h in snaps && h !in DomainsOf(rows) ==> Recorded(snaps, rows)[h] == snaps[h]
  {
    if rows != [] {
      var init, last := rows[..|rows|-1], rows[|rows|-1];
      assert Consistent(init);
      RecordedMeaning(snaps, init);
      forall i | 0 <= i < |rows|
        ensures rows[i].domain in Recorded(snaps, rows) && Recorded(snaps, rows)[rows[i].domain] == rows[i].tenant
      {
        if i < |init| {
          assert init[i] == rows[i];
          DomainsOfMember(init, i);
          assert Recorded(snaps, init)[init[i].domain] == init[i].tenant;
        }
      }
    }
  }

  /** The rows as the schema-keyed snapshots see them. */
  function BySchema<T>(rows: seq<Row<T>>): seq<Row<T>> {
    seq(|rows|, i requires 0 <= i < |rows| => Row(rows[i].schema, rows[i].schema, rows[i].tenant))
  }

  /** What a rebuild accumulates: the SET under construction and the two kinds of snapshots. */
  datatype Build<T> = Build(hosts: set<Host>, snaps: map<Host, T>, schemas: map<string, T>)

  function WithRow<T>(b: Build<T>, row: Row<T>): Build<T> {
    Build(b.hosts + {row.domain}, b.snaps[row.domain := row.tenant], b.schemas[row.schema := row.tenant])
  }

  /** One row at a time. */
  function BuiltFrom<T>(b: Build<T>, rows: seq<Row<T>>): Build<T> {
    if rows == [] then b else WithRow(BuiltFrom(b, rows[..|rows|-1]), rows[|rows|-1])
  }

  /** Building chunk after chunk is building all at once. */
  lemma {:induction false} BuiltConcat<T>(b: Build<T>, x: seq<Row<T>>, y: seq<Row<T>>)
    ensures BuiltFrom(b, x + y) == BuiltFrom(BuiltFrom(b, x), y)
    decreases |y|
  {
    if y == [] {
      assert x + y == x;
    } else {
      assert (x + y)[..|x + y|-1] == x + y[..|y|-1];
      BuiltConcat(b, x, y[..|y|-1]);
    }
  }

  lemma BuiltPrefix<T>(b: Build<T>, rows: seq<Row<T>>, n: nat, i: nat)
    requires n <= i <= |rows|
    ensures BuiltFrom(b, rows[..i]) == BuiltFrom(BuiltFrom(b, rows[..n]), rows[n..i])
  {
    assert rows[..i] == rows[..n] + rows[n..i];
    BuiltConcat(b, rows[..n], rows[n..i]);
  }

  /** What the build holds in the end. */
  lemma {:induction false} BuiltParts<T>(b: Build<T>, rows: seq<Row<T>>)
    ensures BuiltFrom(b, rows) ==
              Build(b.hosts + DomainsOf(rows), Recorded(b.snaps, rows), Recorded(b.schemas, BySchema(rows)))
  {
    if rows != [] {
      BuiltParts(b, rows[..|rows|-1]);
      var s := BySchema(rows);
      assert s[..|s|-1] == BySchema(rows[..|rows|-1]);
    }
  }

  /** Rows of one schema agree on the tenant, as rows of one database do. */
  ghost predicate SchemasAgree<T>(rows: seq<Row<T>>) {
    forall i, j :: 0 <= i < j < |rows| && rows[i].schema == rows[j].schema ==> rows[i].tenant == rows[j].tenant
  }

  predicate OfDomain<T>(rows: seq<Row<T>>, h: Host) {
    exists i :: 0 <= i < |rows| && rows[i].domain == h
  }

  predicate OfSchema<T>(rows: seq<Row<T>>, n: string) {
    exists i :: 0 <= i < |rows| && rows[i].schema == n
  }

  /** The host-keyed snapshots after writing the rows, row by row. */
  ghost predicate HostsWritten<T>(before: map<Host, T>, now: map<Host, T>, rows: seq<Row<T>>) {
    && (forall h :: h in now <==> h in before || OfDomain(rows, h))
    && (forall h :: h in before && !OfDomain(rows, h) ==> h in now && now[h] == before[h])
    && (Consistent(rows) ==>
          forall i :: 0 <= i < |rows| ==> rows[i].domain in now && now[rows[i].domain] == rows[i].tenant)
  }

  /** The schema-keyed ones. */
  ghost predicate SchemasWritten<T>(before: map<string, T>, now: map<string, T>, rows: seq<Row<T>>) {
    && (forall n :: n in now <==> n in before || OfSchema(rows, n))
    && (forall n :: n in before && !OfSchema(rows, n) ==> n in now && now[n] == before[n])
    && (SchemasAgree(rows) ==>
          forall i :: 0 <= i < |rows| ==> rows[i].schema in now && now[rows[i].schema] == rows[i].tenant)
  }

  lemma {:induction false} RecordedKeys<T>(snaps: map<Host, T>, rows: seq<Row<T>>)
    ensures Recorded(snaps, rows).Keys == snaps.Keys + DomainsOf(rows)
    ensures forall h :: h in snaps && h !in DomainsOf(rows) ==> Recorded(snaps, rows)[h] == snaps[h]
  {
    if rows != [] {
      RecordedKeys(snaps, rows[..|rows|-1]);
    }
  }

  lemma RecordedHosts<T>(snaps: map<Host, T>, rows: seq<Row<T>>)
    ensures HostsWritten(snaps, Recorded(snaps, rows), rows)
  {
    RecordedKeys(snaps, rows);
    forall h
      ensures h in DomainsOf(rows) <==> OfDomain(rows, h)
    {
      DomainsOfIff(rows, h);
    }
    if Consistent(rows) {
      RecordedMeaning(snaps, rows);
    }
  }

  lemma RecordedSchemas<T>(snaps: map<string, T>, rows: seq<Row<T>>)
    ensures SchemasWritten(snaps, Recorded(snaps, BySchema(rows)), rows)
  {
    var r := BySchema(rows);
    RecordedHosts(snaps, r);
    forall n
      ensures OfDomain(r, n) <==> OfSchema(rows, n)
    {
      SameNames(rows, n);
    }
    var now := Recorded(snaps, r);
    if SchemasAgree(rows) {
      assert Consistent(r);
      forall i | 0 <= i < |rows|
        ensures rows[i].schema in now && now[rows[i].schema] == rows[i].tenant
      {
        assert r[i].domain in now && now[r[i].domain] == r[i].tenant;
      }
    }
  }

  lemma SameNames<T>(rows: seq<Row<T>>, n: string)
    ensures OfDomain(BySchema(rows), n) <==> OfSchema(rows, n)
  {
    if i :| 0 <= i < |rows| && rows[i].schema == n {
      assert BySchema(rows)[i].domain == n;
    }
  }

  /** What a build adds, row by row. */
  lemma BuiltMeaning<T>(b: Build<T>, rows: seq<Row<T>>)
    ensures var t := BuiltFrom(b, rows);
            && (forall h :: h in t.hosts <==> h in b.hosts || OfDomain(rows, h))
            && HostsWritten(b.snaps, t.snaps, rows) && SchemasWritten(b.schemas, t.schemas, rows)
  {
    BuiltParts(b, rows);
    RecordedHosts(b.snaps, rows);
    RecordedSchemas(b.schemas, rows);
    forall h
      ensures h in DomainsOf(rows) <==> OfDomain(rows, h)
    {
      DomainsOfIff(rows, h);
    }
  }

  lemma SliceStep<T>(rows: seq<Row<T>>, n: nat, i: nat)
    requires n <= i < |rows|
    ensures rows[n..i] + [rows[i]] == rows[n..i+1] && rows[i+1..i+1] == []
  {
  }

  lemma DomainsStep<T>(rows: seq<Row<T>>, i: nat)
    requires i < |rows|
    ensures DomainsOf(rows[..i+1]) == DomainsOf(rows[..i]) + {rows[i].domain}
  {
    assert rows[..i+1][..i] == rows[..i];
  }

  class RegistryKeys<T> {
    var hosts: HostSet            // treg:hosts
    var building: set<Host>       // treg:hosts:new, {} when absent
    var dirty: nat                // treg:hosts:dirty, 0 when absent
    var snapshots: map<Host, T>   // positive entries of the cache, keyed by host
    var schemas: map<string, T>   // and keyed by schema

    constructor ()
      ensures hosts == Absent && building == {} && dirty == 0 && snapshots == map[] && schemas == map[]
    {
      hosts, building, dirty, snapshots, schemas := Absent, {}, 0, map[], map[];
    }

    function Built(): Build<T>
      reads this
    {
      Build(building, snapshots, schemas)
    }

    /** _apply_membership, when nothing interferes between its commands. */
    method ApplyMembership(add: bool, host: Host)
      modifies this`hosts, this`dirty
      ensures dirty == old(dirty) + 1
      ensures add && old(hosts).Absent? ==> hosts.Absent?
      ensures add && old(hosts).Present? ==> hosts == Present(old(hosts).hosts + {host}, old(hosts).armed)
      ensures !add && hosts.Present? ==>
                old(hosts).Present? && hosts == Present(old(hosts).hosts - {host}, old(hosts).armed)
      ensures !add ==> (hosts.Absent? <==> old(hosts).Absent? || old(hosts).hosts <= {host})
    {
      if add {
        if hosts.Present? {
          hosts := Added(hosts, host);
        }
      } else {
        hosts := Removed(hosts, host);
      }
      dirty := dirty + 1;
    }

    /** _rebuild_once: chunked build, then the swap. */
    method RebuildOnce(rows: seq<Row<T>>, chunk: nat) returns (n: nat, dbHosts: set<Host>)
      requires chunk > 0
      modifies this`hosts, this`building, this`snapshots, this`schemas
      ensures building == {} && n == |rows|
      ensures hosts.Present? <==> rows != []
      ensures hosts.Present? ==> !hosts.armed && hosts.hosts == dbHosts
      ensures forall h :: h in dbHosts <==> OfDomain(rows, h)
      ensures HostsWritten(old(snapshots), snapshots, rows)
      ensures SchemasWritten(old(schemas), schemas, rows)
    {
      n, dbHosts := BuildAll(rows, chunk);
      BuiltMeaning(Build({}, old(snapshots), old(schemas)), rows);
      assert rows != [] ==> rows[0].domain in building;
      if building != {} {
        hosts, building := Present(building, false), {};
      } else {
        hosts := Absent;
      }
    }

    /** The loop over the Domain rows. */
    method BuildAll(rows: seq<Row<T>>, chunk: nat) returns (n: nat, dbHosts: set<Host>)
      requires chunk > 0
      modifies this`building, this`snapshots, this`schemas
      ensures Built() == BuiltFrom(Build({}, old(snapshots), old(schemas)), rows)
      ensures dbHosts == DomainsOf(rows) == building && n == |rows|
    {
      building := {};
      ghost var start := Built();
      dbHosts, n := {}, 0;
      var batch: seq<Row<T>> := [];
      for i := 0 to |rows|
        invariant 0 <= n <= i
        invariant batch == rows[n..i]
        invariant dbHosts == DomainsOf(rows[..i])
        invariant Built() == BuiltFrom(start, rows[..n])
      {
        DomainsStep(rows, i);
        dbHosts := dbHosts + {rows[i].domain};
        SliceStep(rows, n, i);
        batch := batch + [rows[i]];
        if |batch| >= chunk {
          Flush(batch);
          BuiltPrefix(start, rows, n, i + 1);
          n := i + 1;
          batch := [];
        }
      }
      Flush(batch);
      BuiltPrefix(start, rows, n, |rows|);
      assert rows[..|rows|] == rows;
      n := n + |batch|;
      BuiltParts(start, rows);
    }

    /** flush(): one batch into the SET under construction and into the snapshots of both kinds. */
    method Flush(batch: seq<Row<T>>)
      modifies this`building, this`snapshots, this`schemas
      ensures Built() == BuiltFrom(old(Built()), batch)
      ensures forall h :: h in building <==> h in old(building) || OfDomain(batch, h)
      ensures HostsWritten(old(snapshots), snapshots, batch)
      ensures SchemasWritten(old(schemas), schemas, batch)
    {
      ghost var start := Built();
      for k := 0 to |batch|
        invariant Built() == BuiltFrom(start, batch[..k])
      {
        assert batch[..k+1][..k] == batch[..k];
        building := building + {batch[k].domain};
        snapshots := snapshots[batch[k].domain := batch[k].tenant];
        schemas := schemas[batch[k].schema := batch[k].tenant];
      }
      assert batch[..|batch|] == batch;
      BuiltMeaning(start, batch);
    }
  }
}
