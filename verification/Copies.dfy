/** The two copies of an event: the one published live and the one a replay reads back
    from the client's store, whose time has been cut to milliseconds
    (internal/agentops/run_events.go: appendEvent, eventsAfter,
    appendRuntimeEventLocked). */
module Copies {
  import opened Wire
  import opened Replication
  import B = Broker
  import R = Replay

  /** The time of an event comes back from a store as it was. */
  predicate Survives(e: RunEvent) {
    e.at == ZERO_TIME || (e.at % MILLI == 0 && e.at != 0)
  }

  /** Both routes give the manager the same event if and only if its time survives. */
  lemma RoutesAgreeIff(jsonLen: RunEvent -> nat, e: RunEvent)
    ensures R.WireForm(jsonLen, e) == R.WireForm(jsonLen, Rounded(e)) <==> Survives(e)
    ensures Rounded(e) == e <==> Survives(e)
  {
    TimeRoundTripIff(e.at);
    assert R.WireForm(jsonLen, e).at == e.at && R.WireForm(jsonLen, Rounded(e)).at == Rounded(e).at;
  }

  /** `ev` brings the entry that carries its number, with its full time. */
  ghost predicate IsWireOf(jsonLen: RunEvent -> nat, journal: seq<RunEvent>, ev: RunEvent) {
    1 <= ev.seqNo <= |journal| && R.Carries(jsonLen, journal[ev.seqNo - 1], ev)
  }

  /** Everything the manager holds of a run is the wire form of the client's entry. */
  ghost predicate HeldExactly(jsonLen: RunEvent -> nat, journal: seq<RunEvent>, st: B.RunEventState) {
    && (st.head > 0 ==> IsWireOf(jsonLen, journal, st.last))
    && forall k :: k in st.pending ==> IsWireOf(jsonLen, journal, st.pending[k])
  }

  ghost predicate AllSurvive(journal: seq<RunEvent>) {
    forall i :: 0 <= i < |journal| ==> Survives(journal[i])
  }

  lemma CopyIsExact(jsonLen: RunEvent -> nat, keeps: bool, journal: seq<RunEvent>, ev: RunEvent)
    requires IsCopyOf(jsonLen, keeps, journal, ev) && (!keeps || AllSurvive(journal))
    ensures IsWireOf(jsonLen, journal, ev)
  {
    RoutesAgreeIff(jsonLen, journal[ev.seqNo - 1]);
  }

  /** In every execution a client without a store, or one all of whose times survive, is
      mirrored exactly. */
  lemma AlwaysHeldExactly(jsonLen: RunEvent -> nat, states: seq<State>, steps: seq<Step>, i: nat, key: B.Key)
    requires Execution(jsonLen, states, steps) && IsInitial(states[0]) && i < |states|
    requires !Keeps(states[i], key) || AllSurvive(JournalOf(states[i], key))
    ensures HeldExactly(jsonLen, JournalOf(states[i], key), B.StateOf(states[i].broker, key))
  {
    var s := states[i];
    var st, journal := B.StateOf(s.broker, key), JournalOf(s, key);
    AlwaysInv(jsonLen, states, steps, i);
    assert RunOK(jsonLen, Keeps(s, key), journal, st, AcceptedOf(s, key));
    if st.head > 0 {
      CopyIsExact(jsonLen, Keeps(s, key), journal, st.last);
    }
    forall k | k in st.pending ensures IsWireOf(jsonLen, journal, st.pending[k]) {
      CopyIsExact(jsonLen, Keeps(s, key), journal, st.pending[k]);
    }
  }

  // ------------------------------------------------------- building an execution

  /** An execution with these clients keeping stores takes `steps` and ends in `s`. */
  ghost predicate Reached(jsonLen: RunEvent -> nat, s: State, steps: seq<Step>) {
    exists states: seq<State> ::
      Execution(jsonLen, states, steps) && states[0] == Initial(s.durable) && states[|steps|] == s
  }

  lemma OneMore(jsonLen: RunEvent -> nat, s: State, steps: seq<Step>, step: Step)
    requires Reached(jsonLen, s, steps) && Enabled(s, step)
    ensures Reached(jsonLen, Apply(jsonLen, s, step), steps + [step])
  {
    var states: seq<State> :|
      Execution(jsonLen, states, steps) && states[0] == Initial(s.durable) && states[|steps|] == s;
    var more := states + [Apply(jsonLen, s, step)];
    assert Execution(jsonLen, more, steps + [step]);
  }

  /** A journal some client may have. */
  ghost predicate Plausible(key: B.Key, journal: seq<RunEvent>) {
    && key.account != "" && key.deviceID != "" && key.runID != ""
    && JournalOK(key, journal)
  }

  function Journalled(key: B.Key, journal: seq<RunEvent>): State {
    State(if journal == [] then map[] else map[key := journal], {}, map[], map[], {Client(key.account, key.deviceID)})
  }

  /** Every such journal can come about without a single message. */
  lemma {:induction false} JournalReached(jsonLen: RunEvent -> nat, key: B.Key, journal: seq<RunEvent>)
    returns (steps: seq<Step>)
    requires Plausible(key, journal)
    ensures Reached(jsonLen, Journalled(key, journal), steps)
    decreases |journal|
  {
    if journal == [] {
      steps := [];
      var states := [Journalled(key, journal)];
      assert Execution(jsonLen, states, steps) && states[|steps|] == Journalled(key, journal);
    } else {
      var before, e := journal[..|journal| - 1], journal[|journal| - 1];
      assert journal == before + [e];
      steps := JournalReached(jsonLen, key, before);
      var step := Append(key, e.at, e.source, e.kind, e.payload, false);
      OneMore(jsonLen, Journalled(key, before), steps, step);
      AppendEffect(jsonLen, key, before, e);
      steps := steps + [step];
    }
  }

  lemma AppendEffect(jsonLen: RunEvent -> nat, key: B.Key, before: seq<RunEvent>, e: RunEvent)
    requires Plausible(key, before + [e]) && e.kind != ""
    ensures Apply(jsonLen, Journalled(key, before), Append(key, e.at, e.source, e.kind, e.payload, false))
         == Journalled(key, before + [e])
  {
    assert (before + [e])[|before|] == e;
    assert JournalOf(Journalled(key, before), key) == before;
    assert e == NewEvent(before, key, e.at, e.source, e.kind, e.payload);
    assert map[key := before][key := before + [e]] == map[key := before + [e]];
  }

  /** The messages of a handshake that asks for the whole journal. */
  function Asked(key: B.Key, n: nat): Msg {
    HeadsMsg(key.account, key.deviceID, [RunHead(key.runID, n, "")])
  }

  function Answered(key: B.Key, n: nat): Msg {
    ReplayMsg(key.account, key.deviceID, [ReplayCursor(key.runID, 0, n)])
  }

  /** The copy of entry `n` that a replay from the store sends. */
  function StoredCopy(jsonLen: RunEvent -> nat, key: B.Key, journal: seq<RunEvent>, n: nat): Msg
    requires 1 <= n <= |journal|
  {
    EventMsg(key.account, key.deviceID, R.WireForm(jsonLen, Rounded(journal[n - 1])))
  }

  lemma Handshake(jsonLen: RunEvent -> nat, key: B.Key, journal: seq<RunEvent>)
    returns (s: State, steps: seq<Step>)
    requires Plausible(key, journal) && journal != []
    ensures s == Journalled(key, journal).(net := {Asked(key, |journal|), Answered(key, |journal|)})
    ensures Reached(jsonLen, s, steps)
  {
    steps := JournalReached(jsonLen, key, journal);
    var s0 := Journalled(key, journal);
    var heads := [RunHead(key.runID, |journal|, "")];
    var ask := Advertise(key.account, key.deviceID, heads);
    OneMore(jsonLen, s0, steps, ask);
    var s1 := Apply(jsonLen, s0, ask);
    assert heads[..0] == [];
    assert B.NeededCursors(map[], key.account, key.deviceID, heads[..0]) == [];
    OneMore(jsonLen, s1, steps + [ask], Answer(Asked(key, |journal|)));
    s, steps := Apply(jsonLen, s1, Answer(Asked(key, |journal|))), steps + [ask] + [Answer(Asked(key, |journal|))];
    assert B.NeededCursors(map[], key.account, key.deviceID, heads) == [ReplayCursor(key.runID, 0, |journal|)];
  }

  /** A replay from the store brings entry `n` to a manager that has nothing. */
  lemma StoredCopyArrives(jsonLen: RunEvent -> nat, key: B.Key, journal: seq<RunEvent>, n: nat)
    returns (s: State, steps: seq<Step>)
    requires Plausible(key, journal) && 1 <= n <= |journal|
    ensures Reached(jsonLen, s, steps) && JournalOf(s, key) == journal && Keeps(s, key)
    ensures B.StateOf(s.broker, key) == B.Receive(B.FRESH, R.WireForm(jsonLen, Rounded(journal[n - 1]))).st
  {
    var s1;
    s1, steps := StoredCopySent(jsonLen, key, journal, n);
    var msg := StoredCopy(jsonLen, key, journal, n);
    assert B.Refusal(key.account, key.deviceID, msg.ev) == None;
    OneMore(jsonLen, s1, steps, Deliver(msg));
    s, steps := Apply(jsonLen, s1, Deliver(msg)), steps + [Deliver(msg)];
  }

  lemma StoredCopySent(jsonLen: RunEvent -> nat, key: B.Key, journal: seq<RunEvent>, n: nat)
    returns (s: State, steps: seq<Step>)
    requires Plausible(key, journal) && 1 <= n <= |journal|
    ensures Reached(jsonLen, s, steps) && JournalOf(s, key) == journal && Keeps(s, key) && s.broker == map[]
    ensures StoredCopy(jsonLen, key, journal, n) in s.net
  {
    var s0;
    s0, steps := Handshake(jsonLen, key, journal);
    var cursor := ReplayCursor(key.runID, 0, |journal|);
    var send := ReplaySend(Answered(key, |journal|), cursor, n, true);
    assert cursor in Answered(key, |journal|).cursors;
    OneMore(jsonLen, s0, steps, send);
    s, steps := Apply(jsonLen, s0, send), steps + [send];
  }

  /** What a fresh manager holds after one event. */
  lemma FirstHeld(ev: RunEvent)
    requires 1 <= ev.seqNo
    ensures var st := B.Receive(B.FRESH, ev).st;
      if ev.seqNo == 1 then st.head > 0 && st.last == ev else ev.seqNo in st.pending && st.pending[ev.seqNo] == ev
  {
    B.ReceiveStep(B.FRESH, ev);
    B.AbsorbFacts(B.FRESH, ev);
    var st := B.Receive(B.FRESH, ev).st;
    if ev.seqNo == 1 {
      assert st.head >= 1 && (B.Seen(st, st.head) <==> st.head == ev.seqNo);
    }
  }

  /** An execution of this client that ends with this journal mirrors it exactly. */
  ghost predicate Mirrors(jsonLen: RunEvent -> nat, key: B.Key, journal: seq<RunEvent>, s: State, steps: seq<Step>) {
    Reached(jsonLen, s, steps) && JournalOf(s, key) == journal && Keeps(s, key) ==>
      HeldExactly(jsonLen, journal, B.StateOf(s.broker, key))
  }

  /** A client with a store is mirrored exactly in every execution that ends with its
      journal if and only if the time of every entry survives storage. */
  lemma MirroredIff(jsonLen: RunEvent -> nat, key: B.Key, journal: seq<RunEvent>)
    requires Plausible(key, journal)
    ensures (forall s, steps :: Mirrors(jsonLen, key, journal, s, steps)) <==> AllSurvive(journal)
  {
    if AllSurvive(journal) {
      forall s, steps ensures Mirrors(jsonLen, key, journal, s, steps) {
        ReachedIsExact(jsonLen, key, journal, s, steps);
      }
    } else {
      var i :| 0 <= i < |journal| && !Survives(journal[i]);
      var s, steps := StoredCopyArrives(jsonLen, key, journal, i + 1);
      StoredIsOther(jsonLen, journal, i);
      assert !Mirrors(jsonLen, key, journal, s, steps);
    }
  }

  lemma ReachedIsExact(jsonLen: RunEvent -> nat, key: B.Key, journal: seq<RunEvent>, s: State, steps: seq<Step>)
    requires AllSurvive(journal)
    ensures Mirrors(jsonLen, key, journal, s, steps)
  {
    if Reached(jsonLen, s, steps) && JournalOf(s, key) == journal {
      var states: seq<State> :|
        Execution(jsonLen, states, steps) && states[0] == Initial(s.durable) && states[|steps|] == s;
      AlwaysHeldExactly(jsonLen, states, steps, |steps|, key);
    }
  }

  lemma StoredIsOther(jsonLen: RunEvent -> nat, journal: seq<RunEvent>, i: nat)
    requires i < |journal| && journal[i].seqNo == i + 1 && !Survives(journal[i])
    ensures !HeldExactly(jsonLen, journal, B.Receive(B.FRESH, R.WireForm(jsonLen, Rounded(journal[i]))).st)
  {
    var ev := R.WireForm(jsonLen, Rounded(journal[i]));
    RoutesAgreeIff(jsonLen, journal[i]);
    FirstHeld(ev);
    assert !IsWireOf(jsonLen, journal, ev);
  }

  // ------------------------------------------------------------- dependence on the route

  /** What order and duplication cannot change while both copies are about: the head and
      the numbers pending. What they hold may differ, as the next lemma shows. */
  lemma RouteOnlyChangesCopies(st: B.RunEventState, live: seq<RunEvent>, replayed: seq<RunEvent>)
    requires B.ValidState(st) && |live| == |replayed|
    requires forall i :: 0 <= i < |live| ==> 1 <= live[i].seqNo && replayed[i].seqNo == live[i].seqNo
    requires |B.MayPend(st, B.Numbers(live))| <= B.MAX_PENDING
    ensures B.DeliverAll(st, live).head == B.DeliverAll(st, replayed).head
    ensures B.DeliverAll(st, live).pending.Keys == B.DeliverAll(st, replayed).pending.Keys
  {
    forall k ensures k in B.Numbers(live) <==> k in B.Numbers(replayed) {
      if k in B.Numbers(live) {
        var i :| 0 <= i < |live| && live[i].seqNo == k;
        assert replayed[i] in replayed;
      }
      if k in B.Numbers(replayed) {
        var i :| 0 <= i < |replayed| && replayed[i].seqNo == k;
        assert live[i] in live;
      }
    }
    B.NumbersDecide(st, live, replayed);
  }

  /** An event stamped one nanosecond after the epoch: delivered live first and replayed
      afterwards, or the other way round, it leaves different last events. */
  lemma LastDependsOnRoute(jsonLen: RunEvent -> nat, e: RunEvent)
    requires e.seqNo == 1 && !Survives(e)
    ensures var live, stored := R.WireForm(jsonLen, e), R.WireForm(jsonLen, Rounded(e));
      && B.DeliverAll(B.FRESH, [live, stored]).last == live
      && B.DeliverAll(B.FRESH, [stored, live]).last == stored
      && live != stored
  {
    var live, stored := R.WireForm(jsonLen, e), R.WireForm(jsonLen, Rounded(e));
    RoutesAgreeIff(jsonLen, e);
    SecondCopyIgnored(live, stored);
    SecondCopyIgnored(stored, live);
  }

  lemma SecondCopyIgnored(first: RunEvent, second: RunEvent)
    requires first.seqNo == 1 && second.seqNo == 1
    ensures B.DeliverAll(B.FRESH, [first, second]).last == first
  {
    FirstHeld(first);
    var st := B.Receive(B.FRESH, first).st;
    assert [first, second][1..] == [second] && [second][1..] == [];
    assert B.DeliverAll(B.FRESH, [first, second]) == B.DeliverAll(st, [second]);
    assert B.DeliverAll(st, [second]) == B.DeliverAll(B.Receive(st, second).st, []);
  }

  /** The live copy of a first event brings it to the manager. */
  lemma LiveCopyArrives(jsonLen: RunEvent -> nat, key: B.Key, e: RunEvent) returns (s: State, steps: seq<Step>)
    requires Plausible(key, [e]) && e.kind != ""
    ensures Reached(jsonLen, s, steps) && JournalOf(s, key) == [e] && Keeps(s, key)
    ensures B.StateOf(s.broker, key) == B.Receive(B.FRESH, R.WireForm(jsonLen, e)).st
  {
    var s0 := Journalled(key, []);
    steps := JournalReached(jsonLen, key, []);
    var publish := Append(key, e.at, e.source, e.kind, e.payload, true);
    OneMore(jsonLen, s0, steps, publish);
    var s1 := Apply(jsonLen, s0, publish);
    assert [e][0] == e && e == NewEvent([], key, e.at, e.source, e.kind, e.payload);
    assert JournalOf(s1, key) == [e];
    var msg := EventMsg(key.account, key.deviceID, R.WireForm(jsonLen, e));
    OneMore(jsonLen, s1, steps + [publish], Deliver(msg));
    s, steps := Apply(jsonLen, s1, Deliver(msg)), steps + [publish] + [Deliver(msg)];
  }

  /** Two executions of one client that end with the same journal and head, and with last
      events that tell by which route the event came. */
  lemma RouteShows(jsonLen: RunEvent -> nat, key: B.Key, e: RunEvent)
    returns (live: State, replayed: State, steps: seq<Step>, steps': seq<Step>)
    requires Plausible(key, [e]) && e.kind != "" && !Survives(e)
    ensures Reached(jsonLen, live, steps) && Reached(jsonLen, replayed, steps')
    ensures JournalOf(live, key) == JournalOf(replayed, key) == [e]
    ensures HeadOf(live, key) == HeadOf(replayed, key) == 1
    ensures B.StateOf(live.broker, key).last != B.StateOf(replayed.broker, key).last
  {
    assert [e][0] == e;
    live, steps := LiveCopyArrives(jsonLen, key, e);
    replayed, steps' := StoredCopyArrives(jsonLen, key, [e], 1);
    RoutesAgreeIff(jsonLen, e);
    FirstHead(R.WireForm(jsonLen, e));
    FirstHead(R.WireForm(jsonLen, Rounded(e)));
  }

  lemma FirstHead(ev: RunEvent)
    requires ev.seqNo == 1
    ensures var st := B.Receive(B.FRESH, ev).st; st.head == 1 && st.last == ev
  {
    FirstHeld(ev);
    B.ReceiveStep(B.FRESH, ev);
    var st := B.Receive(B.FRESH, ev).st;
    assert B.Seen(st, st.head);
  }
}
