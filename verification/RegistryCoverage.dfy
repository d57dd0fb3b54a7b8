/**
 * The gate trusts every SET that is present, also under the dead-man TTL. When it then covers the
 * database: three conditions on the interleaving, each of which RegistryRuns shows to be needed.
 */
module RegistryCoverage {
  import opened Registry
  import opened RegistryProtocol

  /** An addition stands between an EXISTS that saw the SET and its SADD. */
  ghost predicate AboutToAdd(s: State) {
    exists id :: id in s.muts && s.muts[id].stage == SawSet(true)
  }

  /** The SET does not vanish under an addition that saw it. */
  ghost predicate KeptForAdd(s: State, a: Action)
    requires Enabled(s, a)
  {
    s.hosts.Present? && Apply(s, a).hosts.Absent? ==> !AboutToAdd(s)
  }

  /** Mutations in flight that name one host agree: all additions or all removals. */
  predicate Agreeing(s: State, a: Action) {
    a.Commit? ==> forall id :: id in s.muts && s.muts[id].host == a.host ==> s.muts[id].add == a.add
  }

  /** An addition whose SADD is past, or will not come, and whose INCR is still owed. */
  predicate Silent(m: Mutation) {
    m.add && (m.stage == SawSet(false) || m.stage.Applied?)
  }

  /** A rename does not drop the host of such an addition: it was read before the rename. */
  predicate RenameReads(s: State, a: Action) {
    a.Rename? && s.rec.Queried? ==> forall id :: id in s.muts && Silent(s.muts[id]) ==> s.muts[id].host in s.rec.snap
  }

  ghost predicate Orderly(s: State, a: Action)
    requires Enabled(s, a)
  {
    KeptForAdd(s, a) && Agreeing(s, a) && RenameReads(s, a)
  }

  ghost predicate Covered(states: seq<State>, acts: seq<Action>) {
    && Supported(states, acts)
    && forall i {:trigger acts[i]} :: 0 <= i < |acts| ==> Enabled(states[i], acts[i]) && Orderly(states[i], acts[i])
  }

  // ---------------------------------------------------------------------------------------

  predicate InSet(s: State, h: Host) {
    s.hosts.Present? ==> h in s.hosts.hosts
  }

  /** The row of a mutation in flight is as it left it; an addition that saw a SET will find one, else needs none. */
  predicate MutOk(s: State, m: Mutation) {
    && (m.add <==> m.host in s.db)
    && (m.stage.SawSet? ==> m.add)
    && (m.stage == SawSet(true) ==> s.hosts.Present?)
    && (m.stage == SawSet(false) ==> InSet(s, m.host))
  }

  predicate MutsOk(s: State) {
    forall id :: id in s.muts ==> MutOk(s, s.muts[id])
  }

  /** The host's own addition has not reached its SADD. */
  ghost predicate Coming(s: State, h: Host) {
    exists id :: id in s.muts && s.muts[id].add && s.muts[id].host == h && BeforeWrite(s.muts[id].stage)
  }

  predicate BeforeWrite(stage: Stage) {
    stage.Committed? || stage.SawSet?
  }

  /** Every stored host is in a present SET, or its own addition is on the way to it. */
  ghost predicate Covers(s: State) {
    forall h :: h in s.db ==> InSet(s, h) || Coming(s, h)
  }

  /** An addition of the host still owes its INCR. */
  ghost predicate Uncounted(s: State, h: Host) {
    exists id :: id in s.muts && s.muts[id].add && s.muts[id].host == h && !s.muts[id].stage.Bumped?
  }

  /** Every stored host was read by the reconcile, or its addition will move the counter. */
  ghost predicate SnapCovers(s: State)
    requires s.rec.Queried?
  {
    forall h :: h in s.db ==> h in s.rec.snap || Uncounted(s, h)
  }

  ghost predicate CoverInv(s: State) {
    && Inv(s) && MutsOk(s)
    && (OldSet(s.rec) ==> Covers(s))
    && (s.rec.Queried? ==> SnapCovers(s) || s.rec.before < s.dirty)
    && (s.rec.Renamed? ==> Covers(s) || s.rec.before < s.dirty)
  }

  lemma MutsStep(s: State, a: Action)
    requires Enabled(s, a) && MutsOk(s) && Orderly(s, a)
    ensures MutsOk(Apply(s, a))
  {
    var t := Apply(s, a);
    forall id | id in t.muts
      ensures MutOk(t, t.muts[id])
    {
      MutStep(s, a, id);
    }
  }

  lemma MutStep(s: State, a: Action, id: nat)
    requires Enabled(s, a) && MutsOk(s) && Orderly(s, a) && id in Apply(s, a).muts
    ensures MutOk(Apply(s, a), Apply(s, a).muts[id])
  {
    if id in s.muts {
      assert MutOk(s, s.muts[id]);
    }
    if a.Write? {
      assert MutOk(s, s.muts[a.id]);
    }
  }

  lemma SnapStep(s: State, a: Action)
    requires Enabled(s, a) && s.rec.Queried? && Apply(s, a).rec.Queried? && SnapCovers(s)
    requires PassInv(s) && CounterKept(s, a)
    ensures SnapCovers(Apply(s, a)) || Apply(s, a).rec.before < Apply(s, a).dirty
  {
    var t := Apply(s, a);
    if !a.Bump? {
      forall h | h in t.db
        ensures h in t.rec.snap || Uncounted(t, h)
      {
        SnapHost(s, a, h);
      }
    }
  }

  lemma SnapHost(s: State, a: Action, h: Host)
    requires Enabled(s, a) && s.rec.Queried? && Apply(s, a).rec.Queried? && SnapCovers(s)
    requires !a.Bump? && h in Apply(s, a).db
    ensures h in Apply(s, a).rec.snap || Uncounted(Apply(s, a), h)
  {
    var t := Apply(s, a);
    if h !in s.db {
      assert a.Commit? && a.id in t.muts;
    } else if Uncounted(s, h) {
      var id :| id in s.muts && s.muts[id].add && s.muts[id].host == h && !s.muts[id].stage.Bumped?;
      assert id in t.muts && t.muts[id].host == h;
    }
  }

  /** A step other than the rename keeps a host covered. */
  lemma HostStep(s: State, a: Action, h: Host)
    requires Enabled(s, a) && MutsOk(s) && !a.Rename? && h in s.db && h in Apply(s, a).db
    requires InSet(s, h) || Coming(s, h)
    ensures InSet(Apply(s, a), h) || Coming(Apply(s, a), h)
  {
    var t := Apply(s, a);
    if a.Write? {
      assert MutOk(s, s.muts[a.id]);
    }
    if Coming(s, h) {
      var id :| id in s.muts && s.muts[id].add && s.muts[id].host == h && BeforeWrite(s.muts[id].stage);
      assert MutOk(s, s.muts[id]);
      if !InSet(t, h) {
        assert id in t.muts && t.muts[id].host == h;
      }
    }
  }

  lemma CoversStep(s: State, a: Action)
    requires Enabled(s, a) && MutsOk(s) && !a.Rename? && Covers(s)
    ensures Covers(Apply(s, a))
  {
    var t := Apply(s, a);
    forall h | h in t.db
      ensures InSet(t, h) || Coming(t, h)
    {
      if h in s.db {
        HostStep(s, a, h);
      } else {
        assert a.Commit? && a.id in t.muts;
      }
    }
  }

  lemma RenameCovers(s: State)
    requires s.rec.Queried? && SnapCovers(s) && RenameReads(s, Rename)
    ensures Covers(Apply(s, Rename))
  {
    var t := Apply(s, Rename);
    forall h | h in t.db
      ensures InSet(t, h) || Coming(t, h)
    {
      if h !in s.rec.snap {
        var id :| id in s.muts && s.muts[id].add && s.muts[id].host == h && !s.muts[id].stage.Bumped?;
        assert !Silent(s.muts[id]);
        assert t.muts[id] == s.muts[id];
      }
    }
  }

  lemma CoverInvStep(s: State, a: Action)
    requires Enabled(s, a) && CoverInv(s) && Disciplined(s, a) && Orderly(s, a)
    ensures CoverInv(Apply(s, a))
  {
    InvStep(s, a);
    MutsStep(s, a);
    if a.Rename? {
      if SnapCovers(s) {
        RenameCovers(s);
      }
    } else {
      if Covers(s) {
        CoversStep(s, a);
      }
      if s.rec.Queried? && Apply(s, a).rec.Queried? && SnapCovers(s) {
        SnapStep(s, a);
      }
    }
  }

  lemma {:induction false} CoverAlways(states: seq<State>, acts: seq<Action>, k: nat)
    requires Covered(states, acts) && k < |states|
    ensures CoverInv(states[k])
  {
    if k > 0 {
      CoverAlways(states, acts, k - 1);
      assert states[k] == Apply(states[k-1], acts[k-1]);
      CoverInvStep(states[k-1], acts[k-1]);
    }
  }

  /**
   * Outside a reconcile the gate turns a stored host away, armed or not, only while the host's own addition
   * has not reached its SADD.
   */
  lemma {:induction false} GateSoundness(states: seq<State>, acts: seq<Action>, k: nat, h: Host, up: bool)
    requires Covered(states, acts) && k < |states| && states[k].rec == Idle && h in states[k].db
    ensures Check(states[k].hosts, h, up) == Nonmember ==> Coming(states[k], h)
  {
    CoverAlways(states, acts, k);
    assert InSet(states[k], h) || Coming(states[k], h);
  }

  /** With nothing in flight every SET that is present covers the database: what the resolve policy starts from. */
  lemma {:induction false} PresentSetCovers(states: seq<State>, acts: seq<Action>, k: nat)
    requires Covered(states, acts) && k < |states| && states[k].rec == Idle && states[k].muts == map[]
    ensures states[k].hosts.Present? ==> states[k].db <= states[k].hosts.hosts
  {
    CoverAlways(states, acts, k);
    forall h | h in states[k].db && states[k].hosts.Present?
      ensures h in states[k].hosts.hosts
    {
      assert InSet(states[k], h) || Coming(states[k], h);
    }
  }
}
