/** Runs of the host gate from an empty database that show where each assumption of its theorems is needed. */
module RegistryRuns {
  import opened Registry
  import opened RegistryProtocol

  ghost predicate Reaches(s: State, t: State) {
    exists states, acts :: Behaviour(states, acts) && states[0] == s && states[|acts|] == t
  }

  lemma Here(s: State)
    ensures Reaches(s, s)
  {
    assert Behaviour([s], []) && [s][0] == s;
  }

  lemma Then(s: State, t: State, a: Action) returns (u: State)
    requires Reaches(s, t) && Enabled(t, a)
    ensures u == Apply(t, a) && Reaches(s, u)
  {
    u := Apply(t, a);
    var states, acts :| Behaviour(states, acts) && states[0] == s && states[|acts|] == t;
    var states', acts' := states + [u], acts + [a];
    forall i | 0 <= i < |acts'|
      ensures Enabled(states'[i], acts'[i]) && states'[i+1] == Apply(states'[i], acts'[i])
    {
      if i < |acts| {
        assert acts'[i] == acts[i];
      }
    }
    assert Behaviour(states', acts');
  }

  /** Mutation id of `host` runs from its commit to its arm. */
  lemma Mutates(s0: State, s: State, id: nat, host: Host) returns (t: State)
    requires Reaches(s0, s) && id !in s.muts
    ensures Reaches(s0, t)
    ensures t == s.(db := s.db + {host}, dirty := s.dirty + 1, muts := t.muts,
                    hosts := if s.hosts.Absent? then Absent else Present(s.hosts.hosts + {host}, true))
    ensures t.muts == s.muts
  {
    t := Then(s0, s, Commit(id, host, true));
    t := Then(s0, t, Exists(id));
    t := Then(s0, t, Write(id));
    t := Then(s0, t, Bump(id));
    t := Then(s0, t, Arm(id));
  }

  /** An empty database and no SET yet. */
  const EMPTY := State({}, Absent, 0, map[], Idle)

  /** One host, flagged, counter at 1. */
  lemma OneHost() returns (t: State)
    ensures Init(EMPTY) && Reaches(EMPTY, t)
    ensures t.db == {"a"} && t.hosts == Present({"a"}, false) && t.dirty == 1 && t.muts == map[] && t.rec == Idle
  {
    Here(EMPTY);
    t := Mutates(EMPTY, EMPTY, 0, "a");
    t := Then(EMPTY, t, Start);
    t := Then(EMPTY, t, ReadCounter);
    t := Then(EMPTY, t, Query);
    t := Then(EMPTY, t, Rename);
    t := Then(EMPTY, t, Recheck);
  }

  /** A reconcile has read the counter and the database of one flagged host. */
  lemma QueriedOnce() returns (t: State)
    ensures Reaches(EMPTY, t) && t == State({"a"}, Present({"a"}, false), 1, map[], Queried(1, 1, {"a"}))
  {
    t := OneHost();
    t := Then(EMPTY, t, Start);
    t := Then(EMPTY, t, ReadCounter);
    t := Then(EMPTY, t, Query);
  }

  /**
   * The counter carries a TTL that is set once. If it expires during a pass, a mutation brings
   * it back to the value read before, the re-read is equal, and the rename that came last
   * leaves a flag without the new host and without a TTL.
   */
  lemma CounterExpiryBreaksFlag() returns (t: State)
    ensures Reaches(EMPTY, t) && t.rec == Idle && t.muts == map[] && Flagged(t)
    ensures "b" in t.db && Check(t.hosts, "b", true) == Nonmember
  {
    t := QueriedOnce();
    t := Then(EMPTY, t, DirtyExpire);
    t := Mutates(EMPTY, t, 0, "b");
    t := Then(EMPTY, t, Rename);
    t := Then(EMPTY, t, Recheck);
  }

  /** One pass of a reconcile that a whole mutation of `host` overtakes after its query. */
  lemma OvertakenPass(s: State, host: Host) returns (t: State)
    requires Reaches(EMPTY, s) && s.rec.Starting? && s.muts == map[] && s.db != {} && host !in s.db
    ensures Reaches(EMPTY, t) && t.muts == map[] && t.db == s.db + {host} && t.hosts == Present(s.db, false)
    ensures t.rec == if s.rec.pass >= MAX_PASSES then Idle else Starting(s.rec.pass + 1)
  {
    t := Then(EMPTY, s, ReadCounter);
    t := Then(EMPTY, t, Query);
    t := Mutates(EMPTY, t, 0, host);
    t := Then(EMPTY, t, Rename);
    t := Then(EMPTY, t, Recheck);
  }

  /** Re-runs are bounded: three overtaken passes leave the same hole. */
  lemma ThirdPassBreaksFlag() returns (t: State)
    ensures Reaches(EMPTY, t) && t.rec == Idle && t.muts == map[] && Flagged(t)
    ensures "d" in t.db && Check(t.hosts, "d", true) == Nonmember
  {
    t := OneHost();
    t := Then(EMPTY, t, Start);
    t := OvertakenPass(t, "b");
    t := OvertakenPass(t, "c");
    t := OvertakenPass(t, "d");
  }

  /**
   * EXISTS and SADD are two commands. When an armed SET expires between them, SADD re-creates
   * it with one member: until the arm's TTL runs out, a SET without any reconcile or mutation
   * under way turns away hosts of the database. Only the absence of a TTL makes it a flag.
   */
  lemma PartialSetUnderTtl() returns (t: State)
    ensures Reaches(EMPTY, t) && t.rec == Idle && t.muts == map[] && t.hosts.Present? && t.hosts.armed
    ensures "a" in t.db && Check(t.hosts, "a", true) == Nonmember
  {
    t := OneHost();
    t := Mutates(EMPTY, t, 0, "b");
    t := Then(EMPTY, t, Commit(0, "c", true));
    t := Then(EMPTY, t, Exists(0));
    t := Then(EMPTY, t, HostsExpire);
    t := Then(EMPTY, t, Write(0));
    t := Then(EMPTY, t, Bump(0));
    t := Then(EMPTY, t, Arm(0));
  }

  /** A reconcile that dies between its rename and its re-read leaves a flag that misses what it was overtaken by. */
  lemma DeathAfterRename() returns (t: State)
    ensures Reaches(EMPTY, t) && t.rec == Idle && t.muts == map[] && Flagged(t)
    ensures "b" in t.db && Check(t.hosts, "b", true) == Nonmember
  {
    t := QueriedOnce();
    t := Mutates(EMPTY, t, 0, "b");
    t := Then(EMPTY, t, Rename);
    t := Then(EMPTY, t, Abort);
  }

  /**
   * Two mutations of one host: "b" is deleted and created again, the SADD of the creation lands first and
   * the SREM of the deletion last. Nothing expires and no reconcile runs.
   */
  lemma LateRemoval() returns (t: State)
    ensures Reaches(EMPTY, t) && t.rec == Idle && t.muts == map[] && t.hosts.Present?
    ensures "b" in t.db && Check(t.hosts, "b", true) == Nonmember
  {
    t := OneHost();
    t := Mutates(EMPTY, t, 0, "b");
    t := Then(EMPTY, t, Commit(0, "b", false));
    t := Mutates(EMPTY, t, 1, "b");
    t := Then(EMPTY, t, Write(0));
    t := Then(EMPTY, t, Bump(0));
    t := Then(EMPTY, t, Arm(0));
  }

  /**
   * A rename between a mutation's SADD and its INCR throws the member away, and the re-read is equal because
   * the counter has not moved yet: the arm then puts the incomplete SET under a TTL. Nothing expires.
   */
  lemma RenameBeforeCount() returns (t: State)
    ensures Reaches(EMPTY, t) && t.rec == Idle && t.muts == map[] && t.hosts.Present?
    ensures "b" in t.db && Check(t.hosts, "b", true) == Nonmember
  {
    t := QueriedOnce();
    t := Then(EMPTY, t, Commit(0, "b", true));
    t := Then(EMPTY, t, Exists(0));
    t := Then(EMPTY, t, Write(0));
    t := OvertakenByRename(t);
    t := Then(EMPTY, t, Bump(0));
    t := Then(EMPTY, t, Arm(0));
  }

  lemma OvertakenByRename(s: State) returns (t: State)
    requires Reaches(EMPTY, s) && s.rec == Queried(1, s.dirty, {"a"})
    ensures Reaches(EMPTY, t) && t == s.(hosts := Present({"a"}, false), rec := Idle)
  {
    t := Then(EMPTY, s, Rename);
    t := Then(EMPTY, t, Recheck);
  }
}
