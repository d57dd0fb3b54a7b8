/** The re-check of locked skips and the exit code of migrate_schemas. */
module ExitCode {
  import opened Types
  import opened PickNext
  import opened StageModel
  import opened StageRuns

  datatype EntryKind = Done(kind: Kind) | NeverRun | Interrupted

  /** A row of the summary. `locked` is the reason of a skip under another run's lease. */
  datatype Entry = Entry(kind: EntryKind, locked: bool, rechecked: bool)

  predicate Fine(e: Entry) {
    e.kind == Done(Ok) || e.kind == Done(Noop)
  }

  function ExitCode(entries: seq<Entry>, stop: Option<Stop>): int {
    if stop.None? && (forall i :: 0 <= i < |entries| ==> Fine(entries[i])) then 0 else 1
  }

  /** What the re-check reads for one entry; `Unreadable` stands for any exception. */
  datatype Sight = Unreadable | Seen(status: Status, planEmpty: bool, leaseLive: bool)

  predicate LockedSkip(e: Entry) {
    e.kind == Done(Skipped) && e.locked
  }

  /** Another run upgraded or provisioned the tenant: its plan is empty. */
  predicate UpToDate(s: Sight) {
    s.Seen? && (s.status.Active? || s.status.Deactivated?) && s.planEmpty
  }

  /** Another run still provisions the tenant. */
  predicate ProvisioningElsewhere(s: Sight) {
    s.Seen? && s.status.Pending? && s.leaseLive
  }

  function Rechecked(e: Entry, s: Sight): Entry {
    if LockedSkip(e) && (UpToDate(s) || ProvisioningElsewhere(s)) then Entry(Done(Ok), false, true) else e
  }

  function AllRechecked(entries: seq<Entry>, sights: seq<Sight>): (r: seq<Entry>)
    requires |entries| == |sights|
  {
    seq(|entries|, i requires 0 <= i < |entries| => Rechecked(entries[i], sights[i]))
  }

  /** _recheck_locked, entry by entry and in place. */
  method RecheckLocked(entries: array<Entry>, sights: seq<Sight>)
    requires entries.Length == |sights|
    modifies entries
    ensures entries[..] == AllRechecked(old(entries[..]), sights)
    ensures forall i :: 0 <= i < entries.Length ==>
              entries[i] ==
                if old(entries[i]).kind == Done(Skipped) && old(entries[i]).locked && sights[i].Seen?
                   && ((sights[i].status in {Active, Deactivated} && sights[i].planEmpty)
                       || (sights[i].status == Pending && sights[i].leaseLive))
                then Entry(Done(Ok), false, true) else old(entries[i])
  {
    for i := 0 to entries.Length
      invariant forall j :: 0 <= j < i ==> entries[j] == Rechecked(old(entries[j]), sights[j])
      invariant forall j :: i <= j < entries.Length ==> entries[j] == old(entries[j])
    {
      var e, s := entries[i], sights[i];
      if e.kind == Done(Skipped) && e.locked && s.Seen? {
        if s.status.Active? || s.status.Deactivated? {
          if s.planEmpty {
            entries[i] := Entry(Done(Ok), false, true);
          }
        } else if s.status.Pending? {
          if s.leaseLive {
            entries[i] := Entry(Done(Ok), false, true);
          }
        }
      }
    }
  }

  /** Exit code 0 after the re-check, in terms of what happened before it. */
  lemma ExitZeroIff(entries: seq<Entry>, sights: seq<Sight>, stop: Option<Stop>)
    requires |entries| == |sights|
    ensures ExitCode(AllRechecked(entries, sights), stop) == 0 <==>
              && stop == None
              && forall i :: 0 <= i < |entries| ==>
                   Fine(entries[i]) || (LockedSkip(entries[i])
                                        && (UpToDate(sights[i]) || ProvisioningElsewhere(sights[i])))
  {
    var t := AllRechecked(entries, sights);
    if ExitCode(t, stop) == 0 {
      forall i | 0 <= i < |entries|
        ensures Fine(entries[i]) || (LockedSkip(entries[i])
                                     && (UpToDate(sights[i]) || ProvisioningElsewhere(sights[i])))
      {
        assert Fine(t[i]);
      }
    }
  }

  /** There is no third code. */
  lemma ExitZeroOrOne(entries: seq<Entry>, stop: Option<Stop>)
    ensures ExitCode(entries, stop) == 1 <==>
              stop.Some? || exists i :: 0 <= i < |entries| && entries[i].kind !in {Done(Ok), Done(Noop)}
    ensures ExitCode(entries, stop) == 0 <==> ExitCode(entries, stop) != 1
  {
    if i :| 0 <= i < |entries| && entries[i].kind !in {Done(Ok), Done(Noop)} {
      assert !Fine(entries[i]);
    }
  }

  /** A target that finished, or whose locked skip was seen up to date. */
  predicate Served(e: Entry, s: Sight) {
    Fine(e) || (LockedSkip(e) && UpToDate(s))
  }

  /** Exit code 0 means that every target was served, unless a locked one was still being provisioned. */
  lemma ExitZeroServes(entries: seq<Entry>, sights: seq<Sight>, stop: Option<Stop>)
    requires |entries| == |sights| && ExitCode(AllRechecked(entries, sights), stop) == 0
    ensures (forall i :: 0 <= i < |entries| ==> Served(entries[i], sights[i])) <==>
            (forall i :: 0 <= i < |entries| ==> !(LockedSkip(entries[i]) && ProvisioningElsewhere(sights[i])))
  {
    ExitZeroIff(entries, sights, stop);
    if (forall i :: 0 <= i < |entries| ==> Served(entries[i], sights[i])) {
      forall i | 0 <= i < |entries|
        ensures !(LockedSkip(entries[i]) && ProvisioningElsewhere(sights[i]))
      {
        assert Served(entries[i], sights[i]);
      }
    }
  }

  /** A PENDING tenant that another run is provisioning is reported as ok, and the run exits 0. */
  lemma ExitZeroUnserved()
    ensures var entries, sights := [Entry(Done(Skipped), true, false)], [Seen(Pending, false, true)];
            ExitCode(AllRechecked(entries, sights), None) == 0 && !Served(entries[0], sights[0])
  {
    ExitZeroIff([Entry(Done(Skipped), true, false)], [Seen(Pending, false, true)], None);
  }

  // ---------------------------------------------------------------------------------------
  // From a whole run to its exit code.
  // ---------------------------------------------------------------------------------------

  function EntryOf(m: Mark): Entry {
    match m
    case Finished(res) => Entry(Done(res.kind), res.locked, false)
    case NotRun(_) => Entry(NeverRun, false, false)
    case Queued => Entry(NeverRun, false, false)
    case Running => Entry(Interrupted, false, false)
  }

  /** A selected target: its shard and its position in the shard. */
  datatype Target = Target(shard: Shard, i: nat)

  function EntryAt(all: Targets, st: Stage, t: Target): Entry {
    if Marked(all, st, t.shard, t.i) then EntryOf(MarkOf(all, st, t.shard, t.i)) else Entry(NeverRun, false, false)
  }

  /** The entries of the selected targets, in selection order. */
  function Summary(all: Targets, st: Stage, order: seq<Target>): seq<Entry> {
    seq(|order|, j requires 0 <= j < |order| => EntryAt(all, st, order[j]))
  }

  lemma AllMarked(all: Targets, lim: Limits, states: seq<Stage>, ops: seq<Op>, n: nat, sh: Shard, i: nat)
    requires Behaviour(all, lim, states, ops) && n < |states| && sh in all && i < |all[sh]|
    ensures Marked(all, states[n], sh, i)
    ensures var m := MarkOf(all, states[n], sh, i); m.Running? || m.Finished? <==> i < |Starts(states, ops, lim, n, sh)|
  {
    ConservationAndLimits(all, lim, states, ops, n, sh);
  }

  predicate Selection(all: Targets, order: seq<Target>) {
    forall j :: 0 <= j < |order| ==> order[j].shard in all && order[j].i < |all[order[j].shard]|
  }

  /** The target finished ok or noop, or was skipped under a lease that the re-check accounted for. */
  predicate Accounted(all: Targets, st: Stage, t: Target, sight: Sight) {
    && Marked(all, st, t.shard, t.i)
    && var m := MarkOf(all, st, t.shard, t.i);
       && m.Finished?
       && (|| m.res.kind == Ok || m.res.kind == Noop
           || (&& m.res.kind == Skipped && m.res.locked && sight.Seen?
               && (|| (sight.status in {Active, Deactivated} && sight.planEmpty)
                   || (sight.status == Pending && sight.leaseLive))))
  }

  /** The exit code of a stage: 0 iff it has no stop and every listed target is accounted for. */
  lemma ExitCodeOfStage(all: Targets, st: Stage, order: seq<Target>, sights: seq<Sight>)
    requires |order| == |sights|
    ensures ExitCode(AllRechecked(Summary(all, st, order), sights), st.stop) == 0 <==>
              st.stop.None? && forall j :: 0 <= j < |order| ==> Accounted(all, st, order[j], sights[j])
  {
    var entries := Summary(all, st, order);
    ExitZeroIff(entries, sights, st.stop);
    forall j | 0 <= j < |order|
      ensures (Fine(entries[j]) || (LockedSkip(entries[j])
                                    && (UpToDate(sights[j]) || ProvisioningElsewhere(sights[j])))) <==>
              Accounted(all, st, order[j], sights[j])
    {
    }
  }

  /**
   * Exit code 0 after any run: it was never stopped, and every selected target was handed out and
   * finished ok or noop, or was skipped under a lease that the re-check accounted for.
   */
  lemma ExitZeroRun(all: Targets, lim: Limits, states: seq<Stage>, ops: seq<Op>, order: seq<Target>,
                    sights: seq<Sight>, j: nat)
    requires Behaviour(all, lim, states, ops) && Selection(all, order) && |order| == |sights| && j < |order|
    requires ExitCode(AllRechecked(Summary(all, states[|ops|], order), sights), states[|ops|].stop) == 0
    ensures forall m :: 0 <= m <= |ops| ==> states[m].stop.None?
    ensures order[j].i < |Starts(states, ops, lim, |ops|, order[j].shard)|
    ensures Marked(all, states[|ops|], order[j].shard, order[j].i)
    ensures var m := MarkOf(all, states[|ops|], order[j].shard, order[j].i);
            && m.Finished?
            && (m.res.kind.Ok? || m.res.kind.Noop?
                || (m.res.kind.Skipped? && m.res.locked && (UpToDate(sights[j]) || ProvisioningElsewhere(sights[j]))))
  {
    var entries := Summary(all, states[|ops|], order);
    ExitZeroIff(entries, sights, states[|ops|].stop);
    AllMarked(all, lim, states, ops, |ops|, order[j].shard, order[j].i);
    assert entries[j] == EntryOf(MarkOf(all, states[|ops|], order[j].shard, order[j].i));
    forall m | 0 <= m <= |ops|
      ensures states[m].stop.None?
    {
      if states[m].stop.Some? {
        StopIsFinal(all, lim, states, ops, m, |ops|, order[j].shard);
      }
    }
  }
}
