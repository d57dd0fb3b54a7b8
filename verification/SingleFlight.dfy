/**
 * single_flight: concurrent resolves of one key inside a process share one resolver call.
 * Threads interleave between the lock sections, the resolver, the slot writes and the event.
 */
module SingleFlight {
  import opened Types

  type Key = string
  type Tid = nat
  type Slot = nat

  /** A resolver's end: a value or an exception, both shared with the followers. */
  datatype Outcome = Value(v: int) | Raised(e: int)

  /** One in-flight slot; `leader` is the thread that created it. */
  datatype SlotState = SlotState(key: Key, leader: Tid, outcome: Option<Outcome>, event: bool)

  datatype Pc =
    | Entering
    | Leading(slot: Slot)                 // runs the resolver
    | Finished(slot: Slot)                // outcome stored, or control-flow exception
    | Popped(slot: Slot)                  // removed from _inflight, event not set yet
    | Waiting(slot: Slot)                 // follower
    | Alone                               // resolves for itself
    | Shared(slot: Slot, out: Outcome)    // returned or raised what the slot says
    | Own(out: Outcome)                   // returned or raised its own resolver's end
    | Aborted                             // control-flow exception, in the leader only

  datatype Thread = Thread(key: Key, pc: Pc)

  datatype State = State(inflight: map<Key, Slot>, slots: map<Slot, SlotState>, threads: map<Tid, Thread>)

  predicate Init(s: State) {
    s.inflight == map[] && s.slots == map[] && s.threads == map[]
  }

  datatype Action =
    | Call(t: Tid, key: Key)
    | Join(t: Tid, fresh_: Slot)           // the first lock section
    | Finish(t: Tid, out: Outcome)         // the resolver returns or raises an Exception
    | Abort(t: Tid)                        // a control-flow exception leaves the resolver
    | Pop(t: Tid)                          // the second lock section
    | Signal(t: Tid)                       // event.set(), then the leader's own end
    | Wake(t: Tid)                         // event seen within the timeout
    | Timeout(t: Tid)
    | Resolve(t: Tid, out: Outcome)        // a follower's own resolver

  predicate PcOf(s: State, t: Tid, pc: Pc) {
    t in s.threads && s.threads[t].pc == pc
  }

  predicate Enabled(s: State, a: Action) {
    match a
    case Call(t, _) => t !in s.threads
    case Join(t, fresh_) => PcOf(s, t, Entering) && fresh_ !in s.slots
    case Finish(t, _) => t in s.threads && s.threads[t].pc.Leading? && s.threads[t].pc.slot in s.slots
    case Abort(t) => t in s.threads && s.threads[t].pc.Leading?
    case Pop(t) => t in s.threads && s.threads[t].pc.Finished?
    case Signal(t) => t in s.threads && s.threads[t].pc.Popped? && s.threads[t].pc.slot in s.slots
    case Wake(t) => t in s.threads && s.threads[t].pc.Waiting? && s.threads[t].pc.slot in s.slots
        && s.slots[s.threads[t].pc.slot].event
    case Timeout(t) => t in s.threads && s.threads[t].pc.Waiting?
    case Resolve(t, _) => PcOf(s, t, Alone)
  }

  function Goto(s: State, t: Tid, pc: Pc): State
    requires t in s.threads
  {
    s.(threads := s.threads[t := s.threads[t].(pc := pc)])
  }

  /** The tail of single_flight: exc, then result, then a resolve of one's own. */
  function Read(slot: Slot, st: SlotState): Pc {
    if st.outcome.Some? then Shared(slot, st.outcome.value) else Alone
  }

  function Apply(s: State, a: Action): State
    requires Enabled(s, a)
  {
    match a
    case Call(t, key) => s.(threads := s.threads[t := Thread(key, Entering)])
    case Join(t, fresh_) =>
      var key := s.threads[t].key;
      if key in s.inflight then Goto(s, t, Waiting(s.inflight[key]))
      else Goto(s.(inflight := s.inflight[key := fresh_],
                   slots := s.slots[fresh_ := SlotState(key, t, None, false)]), t, Leading(fresh_))
    case Finish(t, out) =>
      var slot := s.threads[t].pc.slot;
      Goto(s.(slots := s.slots[slot := s.slots[slot].(outcome := Some(out))]), t, Finished(slot))
    case Abort(t) => Goto(s, t, Finished(s.threads[t].pc.slot))
    case Pop(t) => Goto(s.(inflight := s.inflight - {s.threads[t].key}), t, Popped(s.threads[t].pc.slot))
    case Signal(t) =>
      var slot := s.threads[t].pc.slot;
      var st := s.slots[slot];
      Goto(s.(slots := s.slots[slot := st.(event := true)]), t,
           if st.outcome.Some? then Shared(slot, st.outcome.value) else Aborted)
    case Wake(t) => Goto(s, t, Read(s.threads[t].pc.slot, s.slots[s.threads[t].pc.slot]))
    case Timeout(t) => Goto(s, t, Alone)
    case Resolve(t, out) => Goto(s, t, Own(out))
  }

  ghost predicate Behaviour(states: seq<State>, acts: seq<Action>) {
    && |states| == |acts| + 1
    && forall i {:trigger acts[i]} :: 0 <= i < |acts| ==>
         Enabled(states[i], acts[i]) && states[i+1] == Apply(states[i], acts[i])
  }

  // ---------------------------------------------------------------------------------------

  /** Thread t leads slot x, up to the pop. */
  predicate LeadsIn(s: State, t: Tid, x: Slot) {
    t in s.threads && (s.threads[t].pc == Leading(x) || s.threads[t].pc == Finished(x))
  }

  /** Slot x was created by t for t's key, and t has not set its event. */
  predicate Owns(s: State, t: Tid, x: Slot)
    requires t in s.threads
  {
    x in s.slots && !s.slots[x].event && s.slots[x].leader == t && s.slots[x].key == s.threads[t].key
  }

  predicate ThreadOk(s: State, t: Tid)
    requires t in s.threads
  {
    var key := s.threads[t].key;
    match s.threads[t].pc
    case Leading(x) => Owns(s, t, x) && key in s.inflight && s.inflight[key] == x && s.slots[x].outcome.None?
    case Finished(x) => Owns(s, t, x) && key in s.inflight && s.inflight[key] == x
    case Popped(x) => Owns(s, t, x)
    case Waiting(x) => x in s.slots && s.slots[x].key == key
    case Shared(x, out) => x in s.slots && s.slots[x].key == key && s.slots[x].event && s.slots[x].outcome == Some(out)
    case _ => true
  }

  /** Somebody will set the event of a slot whose event is not set: no follower waits for nobody. */
  predicate SlotOk(s: State, x: Slot)
    requires x in s.slots
  {
    s.slots[x].event || LeadsIn(s, s.slots[x].leader, x) || PcOf(s, s.slots[x].leader, Popped(x))
  }

  predicate KeyOk(s: State, k: Key)
    requires k in s.inflight
  {
    var x := s.inflight[k];
    x in s.slots && s.slots[x].key == k && LeadsIn(s, s.slots[x].leader, x)
  }

  ghost predicate Inv(s: State) {
    && (forall t :: t in s.threads ==> ThreadOk(s, t))
    && (forall x :: x in s.slots ==> SlotOk(s, x))
    && (forall k :: k in s.inflight ==> KeyOk(s, k))
  }

  lemma ThreadStep(s: State, a: Action, t: Tid)
    requires Enabled(s, a) && Inv(s) && t in Apply(s, a).threads
    ensures ThreadOk(Apply(s, a), t)
  {
    if t in s.threads {
      assert ThreadOk(s, t);
    }
    if a.t in s.threads {
      assert ThreadOk(s, a.t);
    }
  }

  lemma SlotStep(s: State, a: Action, x: Slot)
    requires Enabled(s, a) && Inv(s) && x in Apply(s, a).slots
    ensures SlotOk(Apply(s, a), x)
  {
    if x in s.slots {
      assert SlotOk(s, x);
    }
    if a.t in s.threads {
      assert ThreadOk(s, a.t);
    }
  }

  lemma KeyStep(s: State, a: Action, k: Key)
    requires Enabled(s, a) && Inv(s) && k in Apply(s, a).inflight
    ensures KeyOk(Apply(s, a), k)
  {
    if k in s.inflight {
      assert KeyOk(s, k);
    }
    if a.t in s.threads {
      assert ThreadOk(s, a.t);
    }
  }

  lemma {:induction false} InvAlways(states: seq<State>, acts: seq<Action>, k: nat)
    requires Behaviour(states, acts) && Init(states[0]) && k < |states|
    ensures Inv(states[k])
  {
    if k > 0 {
      InvAlways(states, acts, k - 1);
      var s, a := states[k-1], acts[k-1];
      assert states[k] == Apply(s, a);
      forall t | t in states[k].threads ensures ThreadOk(states[k], t) { ThreadStep(s, a, t); }
      forall x | x in states[k].slots ensures SlotOk(states[k], x) { SlotStep(s, a, x); }
      forall key | key in states[k].inflight ensures KeyOk(states[k], key) { KeyStep(s, a, key); }
    }
  }

  /** At every state: one leader per key, its slot registered, and nothing registered without one. */
  lemma {:induction false} OneLeaderPerKey(states: seq<State>, acts: seq<Action>, k: nat)
    requires Behaviour(states, acts) && Init(states[0]) && k < |states|
    ensures forall t, u, x, y ::
              LeadsIn(states[k], t, x) && LeadsIn(states[k], u, y) ==>
                (states[k].threads[t].key == states[k].threads[u].key ==> t == u && x == y)
    ensures (forall t, x :: !LeadsIn(states[k], t, x)) ==> states[k].inflight == map[]
  {
    InvAlways(states, acts, k);
    var s := states[k];
    forall t, u, x, y | LeadsIn(s, t, x) && LeadsIn(s, u, y) && s.threads[t].key == s.threads[u].key
      ensures t == u && x == y
    {
      assert ThreadOk(s, t) && ThreadOk(s, u);
    }
    if s.inflight != map[] {
      var key :| key in s.inflight;
      assert KeyOk(s, key);
    }
  }

  /** The leader's pop removes its own slot and no other. */
  lemma {:induction false} PopRemovesOwnSlot(states: seq<State>, acts: seq<Action>, k: nat)
    requires Behaviour(states, acts) && Init(states[0]) && k < |acts| && acts[k].Pop?
    ensures var th := states[k].threads[acts[k].t];
            && th.key in states[k].inflight && states[k].inflight[th.key] == th.pc.slot
            && states[k+1].inflight == states[k].inflight - {th.key}
  {
    InvAlways(states, acts, k);
    assert states[k+1] == Apply(states[k], acts[k]);
    assert ThreadOk(states[k], acts[k].t);
  }

  /** A stored outcome was stored by its slot's leader, while it led the slot. */
  lemma {:induction false} OutcomeOrigin(states: seq<State>, acts: seq<Action>, k: nat, x: Slot) returns (i: nat)
    requires Behaviour(states, acts) && Init(states[0]) && k < |states|
    requires x in states[k].slots && states[k].slots[x].outcome.Some?
    ensures i < k && acts[i].Finish? && acts[i].out == states[k].slots[x].outcome.value
    ensures PcOf(states[i], acts[i].t, Leading(x)) && states[i].threads[acts[i].t].key == states[k].slots[x].key
  {
    var s, a := states[k-1], acts[k-1];
    assert states[k] == Apply(s, a);
    InvAlways(states, acts, k - 1);
    if x in s.slots && s.slots[x].outcome == states[k].slots[x].outcome {
      i := OutcomeOrigin(states, acts, k - 1, x);
    } else {
      i := k - 1;
      assert ThreadOk(s, a.t);
    }
  }

  /**
   * Whatever a caller takes from a slot is the end of one resolver call for its own key, made
   * by the slot's leader: never a partial result, never another key's, never a control-flow
   * exception.
   */
  lemma {:induction false} SharedFromLeader(states: seq<State>, acts: seq<Action>, k: nat, t: Tid) returns (i: nat)
    requires Behaviour(states, acts) && Init(states[0]) && k < |states|
    requires t in states[k].threads && states[k].threads[t].pc.Shared?
    ensures i < k && acts[i] == Finish(acts[i].t, states[k].threads[t].pc.out)
    ensures PcOf(states[i], acts[i].t, Leading(states[k].threads[t].pc.slot))
    ensures states[i].threads[acts[i].t].key == states[k].threads[t].key
  {
    InvAlways(states, acts, k);
    assert ThreadOk(states[k], t);
    i := OutcomeOrigin(states, acts, k, states[k].threads[t].pc.slot);
  }

  // ---------------------------------------------------------------------------------------
  // Who gets what.
  // ---------------------------------------------------------------------------------------

  /** A slot keeps its leader, and nobody but its leading thread writes its outcome. */
  lemma SlotKept(s: State, a: Action, x: Slot)
    requires Enabled(s, a) && Inv(s) && x in s.slots
    ensures x in Apply(s, a).slots && Apply(s, a).slots[x].leader == s.slots[x].leader
    ensures !PcOf(s, s.slots[x].leader, Leading(x)) ==>
              && Apply(s, a).slots[x].outcome == s.slots[x].outcome
              && !PcOf(Apply(s, a), s.slots[x].leader, Leading(x))
  {
    if a.t in s.threads {
      assert ThreadOk(s, a.t);
    }
    assert SlotOk(s, x);
  }

  /** The leader's turn: it stores its resolver's end, or leaves by a control-flow exception and stores nothing. */
  lemma LeaderEnds(s: State, a: Action, x: Slot)
    requires Enabled(s, a) && Inv(s) && x in s.slots && PcOf(s, s.slots[x].leader, Leading(x))
    requires x in Apply(s, a).slots && !PcOf(Apply(s, a), s.slots[x].leader, Leading(x))
    ensures var l, out := s.slots[x].leader, Apply(s, a).slots[x].outcome;
            (a == Abort(l) && out.None?) || (out.Some? && a == Finish(l, out.value))
  {
    assert ThreadOk(s, s.slots[x].leader);
    if a.t in s.threads {
      assert ThreadOk(s, a.t);
    }
  }

  lemma FreshSlotLed(s: State, a: Action, x: Slot)
    requires Enabled(s, a) && Inv(s) && x !in s.slots && x in Apply(s, a).slots
    ensures PcOf(Apply(s, a), Apply(s, a).slots[x].leader, Leading(x))
  {
  }

  /** A slot that is no longer led was ended by its leader, once, and holds just that end. */
  lemma {:induction false} EndOrigin(states: seq<State>, acts: seq<Action>, k: nat, x: Slot) returns (i: nat)
    requires Behaviour(states, acts) && Init(states[0]) && k < |states|
    requires x in states[k].slots && !PcOf(states[k], states[k].slots[x].leader, Leading(x))
    ensures i < k && PcOf(states[i], states[k].slots[x].leader, Leading(x))
    ensures var l, out := states[k].slots[x].leader, states[k].slots[x].outcome;
            (acts[i] == Abort(l) && out.None?) || (out.Some? && acts[i] == Finish(l, out.value))
  {
    var s, a := states[k-1], acts[k-1];
    assert states[k] == Apply(s, a);
    InvAlways(states, acts, k - 1);
    if x !in s.slots {
      FreshSlotLed(s, a, x);
      assert false;
    }
    SlotKept(s, a, x);
    if PcOf(s, s.slots[x].leader, Leading(x)) {
      LeaderEnds(s, a, x);
      i := k - 1;
    } else {
      i := EndOrigin(states, acts, k - 1, x);
    }
  }

  lemma EventMeansEnded(s: State, x: Slot)
    requires Inv(s) && x in s.slots && s.slots[x].event
    ensures !PcOf(s, s.slots[x].leader, Leading(x))
  {
    if s.slots[x].leader in s.threads {
      assert ThreadOk(s, s.slots[x].leader);
    }
  }

  /**
   * A woken follower shares the end of its slot's leader, and resolves for itself only if the leader was
   * thrown out by a control-flow exception.
   */
  lemma {:induction false} FollowerGets(states: seq<State>, acts: seq<Action>, k: nat) returns (i: nat)
    requires Behaviour(states, acts) && Init(states[0]) && k < |acts| && acts[k].Wake?
    ensures acts[k].t in states[k].threads && states[k].threads[acts[k].t].pc.Waiting?
    ensures var u, x := acts[k].t, states[k].threads[acts[k].t].pc.slot;
            && i < k && x in states[k].slots && PcOf(states[i], states[k].slots[x].leader, Leading(x))
            && (|| (acts[i] == Abort(states[k].slots[x].leader) && PcOf(states[k+1], u, Alone))
                || (acts[i].Finish? && acts[i].t == states[k].slots[x].leader
                    && PcOf(states[k+1], u, Shared(x, acts[i].out))))
  {
    InvAlways(states, acts, k);
    assert states[k+1] == Apply(states[k], acts[k]);
    var x := states[k].threads[acts[k].t].pc.slot;
    EventMeansEnded(states[k], x);
    i := EndOrigin(states, acts, k, x);
  }

  /** The leader itself returns or raises what its resolver ended with. */
  lemma {:induction false} LeaderGets(states: seq<State>, acts: seq<Action>, k: nat) returns (i: nat)
    requires Behaviour(states, acts) && Init(states[0]) && k < |acts| && acts[k].Signal?
    ensures acts[k].t in states[k].threads && states[k].threads[acts[k].t].pc.Popped?
    ensures var l, x := acts[k].t, states[k].threads[acts[k].t].pc.slot;
            && i < k && PcOf(states[i], l, Leading(x))
            && (|| (acts[i] == Abort(l) && PcOf(states[k+1], l, Aborted))
                || (acts[i].Finish? && acts[i].t == l && PcOf(states[k+1], l, Shared(x, acts[i].out))))
  {
    InvAlways(states, acts, k);
    assert ThreadOk(states[k], acts[k].t);
    assert states[k+1] == Apply(states[k], acts[k]);
    i := EndOrigin(states, acts, k, states[k].threads[acts[k].t].pc.slot);
  }

  /** A caller runs its own resolver only as a leader, after a timeout, or after an aborted leader. */
  lemma OwnResolve(s: State, a: Action, t: Tid)
    requires Enabled(s, a) && PcOf(Apply(s, a), t, Alone)
    ensures PcOf(s, t, Alone) || a == Timeout(t) || (a == Wake(t) && s.slots[s.threads[t].pc.slot].outcome.None?)
  {
  }

  /** And a caller that finds its key in flight joins that flight instead of leading another. */
  lemma JoinDecides(s: State, t: Tid, x: Slot)
    requires Enabled(s, Join(t, x))
    ensures var key, r := s.threads[t].key, Apply(s, Join(t, x));
            if key in s.inflight then PcOf(r, t, Waiting(s.inflight[key])) && r.slots == s.slots
                && r.inflight == s.inflight
            else PcOf(r, t, Leading(x)) && r.inflight == s.inflight[key := x]
  {
  }

  /** A waiting follower's event is set, or the thread that will set it is still at work. */
  lemma {:induction false} NoLostWakeup(states: seq<State>, acts: seq<Action>, k: nat, t: Tid)
    requires Behaviour(states, acts) && Init(states[0]) && k < |states|
    requires t in states[k].threads && states[k].threads[t].pc.Waiting?
    ensures var x := states[k].threads[t].pc.slot;
            x in states[k].slots && (states[k].slots[x].event || states[k].slots[x].leader in states[k].threads)
    ensures var x := states[k].threads[t].pc.slot;
            !states[k].slots[x].event ==>
              var l := states[k].slots[x].leader;
              LeadsIn(states[k], l, x) || PcOf(states[k], l, Popped(x))
  {
    InvAlways(states, acts, k);
    assert ThreadOk(states[k], t);
    assert SlotOk(states[k], states[k].threads[t].pc.slot);
  }
}
