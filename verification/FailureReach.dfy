/** Which calls the failure of a connection reaches (internal/manager/registry.go:
    FailPending, CallProgress): exactly those registered when its pass over the pending
    map is made. A call that registers later waits until its own context ends. */
module FailureReach {
  import opened Wire
  import opened Registry

  /** This step fails call `k`: it is registered on the connection being failed. */
  predicate Tells(s: State, step: Step, k: nat) {
    step.FailPending? && k in s.calls && InMap(s.calls[k]) && s.calls[k].conn == step.failure.conn
  }

  /** One of the first `i` steps failed call `k`. */
  ghost predicate Told(states: seq<State>, steps: seq<Step>, i: nat, k: nat)
    requires |states| == |steps| + 1
  {
    exists j :: 0 <= j < i && j < |steps| && Tells(states[j], steps[j], k)
  }

  function SlotOf(c: Call): Slot {
    Slot(c.conn, c.id)
  }

  /** Nothing but responses delivered under its own number is on its way to the call, in
      its channel, or taken by it. */
  ghost predicate OnlyDelivered(s: State, k: nat) {
    k in s.calls ==>
      && (forall send :: send in s.sends && send.call == k ==> (send.slot, send.resp) in s.delivered)
      && (s.calls[k].inbox.Some? ==> (SlotOf(s.calls[k]), s.calls[k].inbox.value) in s.delivered)
      && (s.calls[k].got.Some? ==> (SlotOf(s.calls[k]), s.calls[k].got.value) in s.delivered)
  }

  predicate Done(c: Call) {
    c.pc == Cleaning || c.pc == Releasing || c.pc == Returned
  }

  /** The call is over, has a response in its channel, or one is on its way. */
  ghost predicate Answered(s: State, k: nat) {
    && k in s.calls
    && (Done(s.calls[k]) || s.calls[k].inbox.Some? || exists send :: send in s.sends && send.call == k)
  }

  /** The call waits for a response and none is on its way. */
  ghost predicate Stranded(s: State, k: nat) {
    At(s, k, Written) && s.calls[k].inbox.None? && forall send :: send in s.sends ==> send.call != k
  }

  // --------------------------------------------------------------------- one step

  lemma UntoldDeliver(s: State, step: Step, k: nat)
    requires Inv(s) && step.Deliver? && Enabled(s, step) && OnlyDelivered(s, k)
    ensures OnlyDelivered(Apply(s, step), k)
  {
  }

  lemma UntoldFailure(s: State, step: Step, k: nat)
    requires PendOK(s) && step.FailPending? && Enabled(s, step) && OnlyDelivered(s, k) && !Tells(s, step, k)
    ensures OnlyDelivered(Apply(s, step), k)
  {
    forall send | send in Failing(s.pend, step.failure) ensures send.call != k {
      assert Owns(s, s.pend[send.slot], send.slot);
    }
  }

  lemma UntoldHand(s: State, step: Step, k: nat)
    requires SendsOK(s) && step.Hand? && Enabled(s, step) && OnlyDelivered(s, k)
    ensures OnlyDelivered(Apply(s, step), k)
  {
    assert SendOK(s, step.send);
  }

  /** Steps of the callers and of the device table. */
  predicate IsOther(step: Step) {
    !step.Deliver? && !step.FailPending? && !step.Hand?
  }

  /** The step is one of call `k`. */
  predicate Names(step: Step, k: nat) {
    match step
    case Begin(j, _, _) => j == k
    case LookUp(j) => j == k
    case Acquire(j) => j == k
    case GiveUp(j) => j == k
    case Allocate(j) => j == k
    case MarshalFails(j) => j == k
    case Register(j) => j == k
    case Write(j, _) => j == k
    case Receive(j) => j == k
    case Expire(j) => j == k
    case Cleanup(j) => j == k
    case Release(j) => j == k
    case Hand(send) => send.call == k
    case _ => false
  }

  predicate OfConnection(step: Step) {
    step.Put? || step.Remove? || step.Disconnect? || step.FailPending? || step.Deliver?
  }

  lemma ConnectionStepKeepsCalls(s: State, step: Step)
    requires Enabled(s, step) && OfConnection(step)
    ensures Apply(s, step).calls == s.calls
  {
  }

  lemma CallStepKeepsOthers(s: State, step: Step, k: nat)
    requires Enabled(s, step) && !OfConnection(step) && !Names(step, k)
    ensures var s' := Apply(s, step);
      (k in s'.calls <==> k in s.calls) && (k in s.calls ==> s'.calls[k] == s.calls[k])
  {
  }

  lemma Unnamed(s: State, step: Step, k: nat)
    requires Enabled(s, step) && !Names(step, k)
    ensures var s' := Apply(s, step);
      (k in s'.calls <==> k in s.calls) && (k in s.calls ==> s'.calls[k] == s.calls[k])
  {
    if OfConnection(step) {
      ConnectionStepKeepsCalls(s, step);
    } else {
      CallStepKeepsOthers(s, step, k);
    }
  }

  /** What a step of the call itself does to its channel. */
  lemma Named(s: State, step: Step, k: nat)
    requires Enabled(s, step) && Names(step, k) && IsOther(step) && (k in s.calls ==> CallOK(s, s.calls[k]))
    ensures k in Apply(s, step).calls
    ensures var c' := Apply(s, step).calls[k];
      && (c'.inbox.Some? || c'.got.Some? ==> k in s.calls && SlotOf(c') == SlotOf(s.calls[k]))
      && (c'.inbox.Some? ==> c'.inbox == s.calls[k].inbox)
      && (c'.got.Some? ==> c'.got == s.calls[k].got || c'.got == s.calls[k].inbox)
  {
  }

  lemma SendsStay(s: State, step: Step)
    requires IsOther(step) && Enabled(s, step)
    ensures Apply(s, step).sends == s.sends && Apply(s, step).delivered == s.delivered
  {
  }

  lemma UntoldOther(s: State, step: Step, k: nat)
    requires CallsOK(s) && SendsOK(s) && IsOther(step) && Enabled(s, step) && OnlyDelivered(s, k)
    ensures OnlyDelivered(Apply(s, step), k)
  {
    SendsStay(s, step);
    assert k in s.calls ==> CallOK(s, s.calls[k]);
    if Names(step, k) {
      Named(s, step, k);
      forall send | send in s.sends && send.call == k ensures k in s.calls {
        assert SendOK(s, send);
      }
    } else {
      Unnamed(s, step, k);
    }
  }

  /** A step that does not fail the call brings it nothing but deliveries. */
  lemma UntoldStep(s: State, step: Step, k: nat)
    requires Inv(s) && Enabled(s, step) && OnlyDelivered(s, k) && !Tells(s, step, k)
    ensures OnlyDelivered(Apply(s, step), k)
  {
    if step.Deliver? {
      UntoldDeliver(s, step, k);
    } else if step.FailPending? {
      UntoldFailure(s, step, k);
    } else if step.Hand? {
      UntoldHand(s, step, k);
    } else {
      UntoldOther(s, step, k);
    }
  }

  /** The step that fails a call sends it the failure, unless it is over. */
  lemma TellingAnswers(s: State, step: Step, k: nat)
    requires PendOK(s) && Enabled(s, step) && Tells(s, step, k)
    ensures Answered(Apply(s, step), k)
  {
    var f, slot := step.failure, SlotOf(s.calls[k]);
    assert slot in Pending(s.pend, f.conn) && s.pend[slot] == k;
    assert Send(k, slot, FailureOf(f.message)) in Apply(s, step).sends;
  }

  /** A call that is over or has a response stays so. */
  lemma CallStays(s: State, step: Step, k: nat)
    requires Enabled(s, step) && k in s.calls
    ensures var s' := Apply(s, step);
      && k in s'.calls
      && (Done(s.calls[k]) ==> Done(s'.calls[k]))
      && (s.calls[k].inbox.Some? ==> s'.calls[k].inbox.Some? || Done(s'.calls[k]))
  {
    if Names(step, k) {
      NamedStays(s, step, k);
    } else {
      Unnamed(s, step, k);
    }
  }

  lemma NamedStays(s: State, step: Step, k: nat)
    requires Enabled(s, step) && k in s.calls && Names(step, k)
    ensures var s' := Apply(s, step);
      && k in s'.calls
      && (Done(s.calls[k]) ==> Done(s'.calls[k]))
      && (s.calls[k].inbox.Some? ==> s'.calls[k].inbox.Some? || Done(s'.calls[k]))
  {
  }

  lemma SendStays(s: State, step: Step, send: Send)
    requires Enabled(s, step) && send in s.sends && send.call in s.calls
    ensures var s' := Apply(s, step);
      send in s'.sends || (send.call in s'.calls && s'.calls[send.call].inbox.Some?)
  {
    if step.Hand? {
      assert step.send != send ==> send in Apply(s, step).sends;
    }
  }

  lemma AnsweredStays(s: State, step: Step, k: nat)
    requires Enabled(s, step) && Answered(s, k)
    ensures Answered(Apply(s, step), k)
  {
    CallStays(s, step, k);
    if !Done(s.calls[k]) && s.calls[k].inbox.None? {
      var send :| send in s.sends && send.call == k;
      SendStays(s, step, send);
    }
  }

  // -------------------------------------------------------------------- all steps

  lemma {:induction false} UntoldOnlyDelivered(option: int, states: seq<State>, steps: seq<Step>, i: nat, k: nat)
    requires Execution(option, states, steps) && i < |states| && !Told(states, steps, i, k)
    ensures OnlyDelivered(states[i], k)
  {
    if i > 0 {
      UntoldOnlyDelivered(option, states, steps, i - 1, k);
      AlwaysInv(option, states, steps, i - 1);
      UntoldStep(states[i - 1], steps[i - 1], k);
    }
  }

  lemma {:induction false} ToldIsAnswered(option: int, states: seq<State>, steps: seq<Step>, i: nat, k: nat)
    requires Execution(option, states, steps) && i < |states| && Told(states, steps, i, k)
    ensures Answered(states[i], k)
  {
    if Told(states, steps, i - 1, k) {
      ToldIsAnswered(option, states, steps, i - 1, k);
      AnsweredStays(states[i - 1], steps[i - 1], k);
    } else {
      AlwaysPend(option, states, steps, i - 1);
      TellingAnswers(states[i - 1], steps[i - 1], k);
    }
  }

  lemma AlwaysPend(option: int, states: seq<State>, steps: seq<Step>, i: nat)
    requires Execution(option, states, steps) && i < |states|
    ensures PendOK(states[i])
  {
    AlwaysInv(option, states, steps, i);
  }

  /** In every execution, a written call whose device has not responded is left without
      an answer on its way if and only if no failure of its connection was sent out while
      it was registered. */
  lemma StrandedIff(option: int, states: seq<State>, steps: seq<Step>, i: nat, k: nat)
    requires Execution(option, states, steps) && i < |states| && At(states[i], k, Written)
    requires forall resp :: (SlotOf(states[i].calls[k]), resp) !in states[i].delivered
    ensures Stranded(states[i], k) <==> !Told(states, steps, i, k)
  {
    var s := states[i];
    AlwaysInv(option, states, steps, i);
    if Told(states, steps, i, k) {
      ToldIsAnswered(option, states, steps, i, k);
    } else {
      UntoldOnlyDelivered(option, states, steps, i, k);
      NothingComes(s, k);
    }
  }

  lemma NothingComes(s: State, k: nat)
    requires SendsOK(s) && OnlyDelivered(s, k) && At(s, k, Written)
    requires forall resp :: (SlotOf(s.calls[k]), resp) !in s.delivered
    ensures Stranded(s, k)
  {
    var slot := SlotOf(s.calls[k]);
    forall send | send in s.sends ensures send.call == k ==> (slot, send.resp) in s.delivered {
      assert SendOK(s, send);
    }
  }

  /** A call never gets a failure that was sent out before it registered. */
  lemma UntoldGetsNoFailure(option: int, states: seq<State>, steps: seq<Step>, i: nat, k: nat)
    requires Execution(option, states, steps) && i < |states| && k in states[i].calls
    requires states[i].calls[k].got.Some? && !Told(states, steps, i, k)
    ensures (SlotOf(states[i].calls[k]), states[i].calls[k].got.value) in states[i].delivered
  {
    UntoldOnlyDelivered(option, states, steps, i, k);
  }

  // ------------------------------------------------------------------ a stranded call

  /** `s` is reached from a fresh registry by `steps`. */
  ghost predicate Reached(s: State, steps: seq<Step>) {
    exists states: seq<State> :: Execution(0, states, steps) && states[|steps|] == s
  }

  lemma OneMore(s: State, steps: seq<Step>, step: Step)
    requires Reached(s, steps) && Enabled(s, step)
    ensures Reached(Apply(s, step), steps + [step])
  {
    var states: seq<State> :| Execution(0, states, steps) && states[|steps|] == s;
    var more := states + [Apply(s, step)];
    assert Execution(0, more, steps + [step]);
  }

  /** The one call of the history below. */
  function Caller(pc: Pc, id: nat): Call {
    Call("a", "d", pc, 0, id, None, None, None)
  }

  /** The registry with that one call, one connection and nothing else going on. */
  function OneCallState(pc: Pc, id: nat, permits: nat): State {
    State(DEFAULT_INFLIGHT, [Conn("d", "a")], map["d" := 0], id, map[0 := Caller(pc, id)], map[], [permits],
          multiset{}, multiset{}, {}, {}, {})
  }

  lemma PutAndBegin() returns (steps: seq<Step>)
    ensures Reached(OneCallState(Looking, 0, 0), steps)
  {
    var s0 := Initial(0);
    var states := [s0];
    assert Execution(0, states, []) && states[0] == s0;
    OneMore(s0, [], Put("d", "a"));
    var s1 := Apply(s0, Put("d", "a"));
    assert s1.conns == [Conn("d", "a")] && s1.sem == [0] && s1.devices == map["d" := 0];
    steps := [] + [Put("d", "a")];
    OneMore(s1, steps, Begin(0, "a", "d"));
    assert Apply(s1, Begin(0, "a", "d")) == OneCallState(Looking, 0, 0);
    steps := steps + [Begin(0, "a", "d")];
  }

  lemma CallMoves(step: Step, from: State, to: State, steps: seq<Step>)
    requires Reached(from, steps) && Enabled(from, step) && Apply(from, step) == to
    ensures Reached(to, steps + [step])
  {
    OneMore(from, steps, step);
  }

  lemma ReplaceCall(pc: Pc, id: nat, c: Call)
    ensures map[0 := Caller(pc, id)][0 := c] == map[0 := c]
  {
  }

  /** The call has its number when the device reconnects. */
  lemma NumberedCall() returns (steps: seq<Step>)
    ensures Reached(OneCallState(HasID, 1, 1), steps)
  {
    steps := PutAndBegin();
    ReplaceCall(Looking, 0, Caller(WantsPermit, 0));
    CallMoves(LookUp(0), OneCallState(Looking, 0, 0), OneCallState(WantsPermit, 0, 0), steps);
    steps := steps + [LookUp(0)];
    ReplaceCall(WantsPermit, 0, Caller(HasPermit, 0));
    assert [0][0 := 1] == [1];
    CallMoves(Acquire(0), OneCallState(WantsPermit, 0, 0), OneCallState(HasPermit, 0, 1), steps);
    steps := steps + [Acquire(0)];
    ReplaceCall(HasPermit, 0, Caller(HasID, 1));
    CallMoves(Allocate(0), OneCallState(HasPermit, 0, 1), OneCallState(HasID, 1, 1), steps);
    steps := steps + [Allocate(0)];
  }

  /** A device reconnects between a call's lookup and its registration: the failure of the
      replaced connection is over before the call is in the map, and the call is written
      to the old connection with nothing left to answer it. */
  lemma LateCallStranded() returns (s: State, steps: seq<Step>)
    ensures Reached(s, steps) && Stranded(s, 0)
    ensures s.todo == multiset{} && s.sends == multiset{} && s.devices == map["d" := 1] && s.calls[0].conn == 0
  {
    steps := NumberedCall();
    var owed := Failure(0, REPLACED);
    var s1 := ReplacedState(HasID, map[], multiset{owed}, {});
    assert [Conn("d", "a")] + [Conn("d", "a")] == [Conn("d", "a"), Conn("d", "a")] && [1] + [0] == [1, 0];
    assert map["d" := 0]["d" := 1] == map["d" := 1];
    CallMoves(Put("d", "a"), OneCallState(HasID, 1, 1), s1, steps);
    steps := steps + [Put("d", "a")];
    var s2 := ReplacedState(HasID, map[], multiset{}, {owed});
    assert Failing(map[], owed) == {} && multiset{owed} - multiset{owed} == multiset{};
    CallMoves(FailPending(owed), s1, s2, steps);
    steps := steps + [FailPending(owed)];
    s, steps := RegisterLate(s2, owed, steps);
  }

  /** The same registry once the device has come again. */
  function ReplacedState(pc: Pc, pend: map<Slot, nat>, todo: multiset<Failure>, failed: set<Failure>): State {
    State(DEFAULT_INFLIGHT, [Conn("d", "a"), Conn("d", "a")], map["d" := 1], 1, map[0 := Caller(pc, 1)], pend, [1, 0],
          multiset{}, todo, {}, failed, {})
  }

  lemma RegisterLate(s: State, owed: Failure, before: seq<Step>) returns (s': State, steps: seq<Step>)
    requires s == ReplacedState(HasID, map[], multiset{}, {owed}) && Reached(s, before)
    ensures Reached(s', steps) && s' == ReplacedState(Written, map[Slot(0, 1) := 0], multiset{}, {owed})
  {
    var pend: map<Slot, nat> := map[Slot(0, 1) := 0];
    var s1 := ReplacedState(Registered, pend, multiset{}, {owed});
    ReplaceCall(HasID, 1, Caller(Registered, 1));
    CallMoves(Register(0), s, s1, before);
    s' := ReplacedState(Written, pend, multiset{}, {owed});
    ReplaceCall(Registered, 1, Caller(Written, 1));
    CallMoves(Write(0, true), s1, s', before + [Register(0)]);
    steps := before + [Register(0)] + [Write(0, true)];
  }
}
