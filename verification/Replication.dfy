/** The run-event replication protocol as a distributed step relation: clients that
    append to journals and publish lossily, a network that loses, duplicates and
    reorders, reconnect handshakes, replays, and the manager's broker. */
module Replication {
  import opened Wire
  import B = Broker
  import R = Replay

  datatype Msg =
    | EventMsg(account: string, deviceID: string, ev: RunEvent)
    | HeadsMsg(account: string, deviceID: string, heads: seq<RunHead>)
    | ReplayMsg(account: string, deviceID: string, cursors: seq<ReplayCursor>)

  /** A device of an account: one client. */
  datatype Client = Client(account: string, deviceID: string)

  /** `net` holds every message sent and not yet lost. Delivering a message leaves
      it in place, so any message may arrive again, late, or never. `accepted`
      records the numbers the broker has reported as accepted since it started.
      `durable` are the clients that keep a store. */
  datatype State = State(
    journals: map<B.Key, seq<RunEvent>>,
    net: set<Msg>,
    broker: map<B.Key, B.RunEventState>,
    accepted: map<B.Key, set<int>>,
    durable: set<Client>)

  datatype Step =
    | Append(key: B.Key, at: int, source: string, kind: string, payload: string, published: bool)
    | Lose(lost: set<Msg>)
    | Advertise(account: string, deviceID: string, heads: seq<RunHead>)
    | Answer(msg: Msg)
    | ReplaySend(msg: Msg, cursor: ReplayCursor, seqNo: int, stored: bool)
    | Deliver(msg: Msg)
    | RestartManager

  function JournalOf(s: State, key: B.Key): seq<RunEvent> {
    if key in s.journals then s.journals[key] else []
  }

  function AcceptedOf(s: State, key: B.Key): set<int> {
    if key in s.accepted then s.accepted[key] else {}
  }

  function HeadOf(s: State, key: B.Key): int {
    B.StateOf(s.broker, key).head
  }

  predicate Keeps(s: State, key: B.Key) {
    Client(key.account, key.deviceID) in s.durable
  }

  // ------------------------------------------------------------------- the steps

  /** A client names each head by the length its journal has when it advertises. */
  ghost predicate HeadsOf(s: State, account: string, deviceID: string, heads: seq<RunHead>) {
    && B.WellFormedHeads(heads) && |heads| <= R.MAX_SYNC_HEADS
    && forall i :: 0 <= i < |heads| ==>
         heads[i].lastSeq == |JournalOf(s, B.Key(account, deviceID, heads[i].runID))|
  }

  ghost predicate Enabled(s: State, step: Step) {
    match step
    case Append(key, _, _, kind, _, _) =>
      key.account != "" && key.deviceID != "" && key.runID != "" && kind != ""
    case Lose(_) => true
    case Advertise(account, deviceID, heads) => HeadsOf(s, account, deviceID, heads)
    case Answer(msg) => msg in s.net && msg.HeadsMsg?
    case ReplaySend(msg, cursor, n, stored) =>
      && (stored ==> Client(msg.account, msg.deviceID) in s.durable)
      && msg in s.net && msg.ReplayMsg? && cursor in msg.cursors
      && cursor.afterSeq < n <= cursor.throughSeq
      && 1 <= n <= |JournalOf(s, B.Key(msg.account, msg.deviceID, cursor.runID))|
    case Deliver(msg) => msg in s.net && msg.EventMsg?
    case RestartManager => true
  }

  function NewEvent(journal: seq<RunEvent>, key: B.Key, at: int, source: string, kind: string, payload: string)
    : RunEvent
  {
    RunEvent(key.runID, |journal| + 1, at, source, kind, payload)
  }

  ghost function Apply(jsonLen: RunEvent -> nat, s: State, step: Step): State
    requires Enabled(s, step)
  {
    match step
    case Append(key, at, source, kind, payload, published) =>
      var ev := NewEvent(JournalOf(s, key), key, at, source, kind, payload);
      s.(journals := s.journals[key := JournalOf(s, key) + [ev]],
         net := if published then s.net + {EventMsg(key.account, key.deviceID, R.WireForm(jsonLen, ev))} else s.net)
    case Lose(lost) => s.(net := s.net - lost)
    case Advertise(account, deviceID, heads) => s.(net := s.net + {HeadsMsg(account, deviceID, heads)})
    case Answer(msg) =>
      s.(net := s.net + {ReplayMsg(msg.account, msg.deviceID,
                                   B.NeededCursors(s.broker, msg.account, msg.deviceID, msg.heads))})
    case ReplaySend(msg, cursor, n, stored) =>
      // A store gives the event back with its time rounded; without one, or when reading
      // it fails, the replay comes from memory.
      var ev := JournalOf(s, B.Key(msg.account, msg.deviceID, cursor.runID))[n - 1];
      s.(net := s.net + {EventMsg(msg.account, msg.deviceID, R.WireForm(jsonLen, if stored then Rounded(ev) else ev))})
    case Deliver(msg) =>
      var key := B.Key(msg.account, msg.deviceID, msg.ev.runID);
      var took := B.Refusal(msg.account, msg.deviceID, msg.ev).None?
               && B.Receive(B.StateOf(s.broker, key), msg.ev).accepted;
      s.(broker := B.AfterAccept(s.broker, msg.account, msg.deviceID, msg.ev),
         accepted := if took then s.accepted[key := AcceptedOf(s, key) + {msg.ev.seqNo}] else s.accepted)
    case RestartManager => s.(broker := map[], accepted := map[])
  }

  // --------------------------------------------------------------- the invariant

  ghost predicate JournalOK(key: B.Key, journal: seq<RunEvent>) {
    forall i :: 0 <= i < |journal| ==>
      journal[i].seqNo == i + 1 && journal[i].runID == key.runID && journal[i].kind != ""
  }

  /** `ev` is a copy of the entry of `journal` that carries its number: its wire form, or
      that of the entry as a store gives it back. */
  ghost predicate IsCopyOf(jsonLen: RunEvent -> nat, keeps: bool, journal: seq<RunEvent>, ev: RunEvent) {
    && 1 <= ev.seqNo <= |journal|
    && var e := journal[ev.seqNo - 1];
       R.Carries(jsonLen, e, ev) || (keeps && R.Carries(jsonLen, Rounded(e), ev))
  }

  /** What holds of one run at the manager: the accepted numbers are exactly 1..head
      and the pending keys, every pending key lies beyond a gap, at most 512 wait,
      the head does not pass the journal, and everything held is a copy of its entry. */
  ghost predicate RunOK(jsonLen: RunEvent -> nat, keeps: bool, journal: seq<RunEvent>, st: B.RunEventState,
                        accepted: set<int>)
  {
    && B.ValidState(st)
    && (forall k :: k in accepted <==> B.Seen(st, k))
    && st.head <= |journal|
    && (st.head > 0 ==> IsCopyOf(jsonLen, keeps, journal, st.last))
    && (forall k :: k in st.pending ==> IsCopyOf(jsonLen, keeps, journal, st.pending[k]))
  }

  ghost predicate MsgOK(jsonLen: RunEvent -> nat, s: State, msg: Msg) {
    match msg
    case EventMsg(account, deviceID, ev) =>
      var key := B.Key(account, deviceID, ev.runID);
      IsCopyOf(jsonLen, Keeps(s, key), JournalOf(s, key), ev)
    case HeadsMsg(account, deviceID, heads) =>
      && B.WellFormedHeads(heads) && |heads| <= R.MAX_SYNC_HEADS
      && forall i :: 0 <= i < |heads| ==>
           heads[i].lastSeq <= |JournalOf(s, B.Key(account, deviceID, heads[i].runID))|
    case ReplayMsg(account, deviceID, cursors) =>
      && |cursors| <= R.MAX_SYNC_HEADS
      && (forall i :: 0 <= i < |cursors| ==> B.ValidCursor(cursors[i]))
      && (forall i :: 0 <= i < |cursors| ==>
            cursors[i].throughSeq <= |JournalOf(s, B.Key(account, deviceID, cursors[i].runID))|)
  }

  ghost predicate Inv(jsonLen: RunEvent -> nat, s: State) {
    && (forall key :: JournalOK(key, JournalOf(s, key)))
    && (forall msg :: msg in s.net ==> MsgOK(jsonLen, s, msg))
    && (forall key :: RunOK(jsonLen, Keeps(s, key), JournalOf(s, key), B.StateOf(s.broker, key), AcceptedOf(s, key)))
  }

  function Initial(durable: set<Client>): State {
    State(map[], {}, map[], map[], durable)
  }

  predicate IsInitial(s: State) {
    s == Initial(s.durable)
  }

  lemma InitialInv(jsonLen: RunEvent -> nat, durable: set<Client>)
    ensures Inv(jsonLen, Initial(durable))
  {
  }

  lemma AppendKeepsInv(jsonLen: RunEvent -> nat, s: State, step: Step)
    requires Inv(jsonLen, s) && step.Append? && Enabled(s, step)
    ensures Inv(jsonLen, Apply(jsonLen, s, step))
  {
    var s' := Apply(jsonLen, s, step);
    forall key ensures JournalOf(s, key) <= JournalOf(s', key) && JournalOK(key, JournalOf(s', key)) {
      JournalGrows(jsonLen, s, step, key);
    }
    forall msg | msg in s'.net ensures MsgOK(jsonLen, s', msg) {
      if msg in s.net {
        MsgKept(jsonLen, s, s', msg);
      }
    }
    forall key ensures RunOK(jsonLen, Keeps(s', key), JournalOf(s', key), B.StateOf(s'.broker, key), AcceptedOf(s', key)) {
      RunKept(jsonLen, Keeps(s, key), JournalOf(s, key), JournalOf(s', key), B.StateOf(s.broker, key), AcceptedOf(s, key));
    }
  }

  lemma JournalGrows(jsonLen: RunEvent -> nat, s: State, step: Step, key: B.Key)
    requires step.Append? && Enabled(s, step) && JournalOK(key, JournalOf(s, key))
    ensures var s' := Apply(jsonLen, s, step);
      JournalOf(s, key) <= JournalOf(s', key) && JournalOK(key, JournalOf(s', key))
  {
  }

  lemma RunKept(jsonLen: RunEvent -> nat, keeps: bool, journal: seq<RunEvent>, longer: seq<RunEvent>, st: B.RunEventState,
                accepted: set<int>)
    requires RunOK(jsonLen, keeps, journal, st, accepted) && journal <= longer
    ensures RunOK(jsonLen, keeps, longer, st, accepted)
  {
  }

  lemma MsgKept(jsonLen: RunEvent -> nat, s: State, s': State, msg: Msg)
    requires s'.durable == s.durable && forall key :: JournalOf(s, key) <= JournalOf(s', key)
    requires MsgOK(jsonLen, s, msg)
    ensures MsgOK(jsonLen, s', msg)
  {
    match msg
    case EventMsg(account, deviceID, ev) =>
      assert JournalOf(s, B.Key(account, deviceID, ev.runID)) <= JournalOf(s', B.Key(account, deviceID, ev.runID));
    case HeadsMsg(account, deviceID, heads) =>
      forall i | 0 <= i < |heads|
        ensures heads[i].lastSeq <= |JournalOf(s', B.Key(account, deviceID, heads[i].runID))|
      {
        assert JournalOf(s, B.Key(account, deviceID, heads[i].runID))
            <= JournalOf(s', B.Key(account, deviceID, heads[i].runID));
      }
    case ReplayMsg(account, deviceID, cursors) =>
      forall i | 0 <= i < |cursors|
        ensures cursors[i].throughSeq <= |JournalOf(s', B.Key(account, deviceID, cursors[i].runID))|
      {
        assert JournalOf(s, B.Key(account, deviceID, cursors[i].runID))
            <= JournalOf(s', B.Key(account, deviceID, cursors[i].runID));
      }
  }

  /** A step that only adds well-formed messages or drops some keeps the invariant. */
  lemma NetworkKeepsInv(jsonLen: RunEvent -> nat, s: State, net: set<Msg>)
    requires Inv(jsonLen, s)
    requires forall msg :: msg in net && msg !in s.net ==> MsgOK(jsonLen, s, msg)
    ensures Inv(jsonLen, s.(net := net))
  {
    var s' := s.(net := net);
    forall key ensures JournalOf(s', key) == JournalOf(s, key) && AcceptedOf(s', key) == AcceptedOf(s, key) {}
    forall msg | msg in net ensures MsgOK(jsonLen, s', msg) {
      MsgKept(jsonLen, s, s', msg);
    }
    forall key ensures RunOK(jsonLen, Keeps(s', key), JournalOf(s', key), B.StateOf(s'.broker, key), AcceptedOf(s', key)) {
      assert RunOK(jsonLen, Keeps(s, key), JournalOf(s, key), B.StateOf(s.broker, key), AcceptedOf(s, key));
    }
  }

  lemma AnswerOK(jsonLen: RunEvent -> nat, s: State, msg: Msg)
    requires Inv(jsonLen, s) && msg in s.net && msg.HeadsMsg?
    ensures MsgOK(jsonLen, s, ReplayMsg(msg.account, msg.deviceID,
                                       B.NeededCursors(s.broker, msg.account, msg.deviceID, msg.heads)))
  {
    assert MsgOK(jsonLen, s, msg);
    forall k | k in s.broker ensures B.ValidState(s.broker[k]) {
      assert RunOK(jsonLen, Keeps(s, k), JournalOf(s, k), B.StateOf(s.broker, k), AcceptedOf(s, k));
    }
    B.NeededCursorsExact(s.broker, msg.account, msg.deviceID, msg.heads);
    var cursors := B.NeededCursors(s.broker, msg.account, msg.deviceID, msg.heads);
    forall i | 0 <= i < |cursors|
      ensures cursors[i].throughSeq <= |JournalOf(s, B.Key(msg.account, msg.deviceID, cursors[i].runID))|
    {
      var j :| 0 <= j < |msg.heads| && B.Answers(cursors[i], msg.heads[j],
        B.StateOf(s.broker, B.Key(msg.account, msg.deviceID, msg.heads[j].runID)).head);
    }
  }

  /** Delivering a journal event keeps what holds of its run. */
  lemma DeliverRun(jsonLen: RunEvent -> nat, keeps: bool, journal: seq<RunEvent>, st: B.RunEventState, accepted: set<int>, ev: RunEvent)
    requires RunOK(jsonLen, keeps, journal, st, accepted) && IsCopyOf(jsonLen, keeps, journal, ev)
    ensures var r := B.Receive(st, ev);
      RunOK(jsonLen, keeps, journal, r.st, if r.accepted then accepted + {ev.seqNo} else accepted)
  {
    B.ReceiveStep(st, ev);
    if B.Receive(st, ev).accepted {
      AbsorbRun(jsonLen, keeps, journal, st, ev);
    }
  }

  /** Everything held after an event is taken in is journal content. */
  lemma AbsorbRun(jsonLen: RunEvent -> nat, keeps: bool, journal: seq<RunEvent>, st: B.RunEventState, ev: RunEvent)
    requires B.ValidState(st) && st.head < ev.seqNo && ev.seqNo !in st.pending && IsCopyOf(jsonLen, keeps, journal, ev)
    requires st.head <= |journal| && (st.head > 0 ==> IsCopyOf(jsonLen, keeps, journal, st.last))
    requires forall k :: k in st.pending ==> IsCopyOf(jsonLen, keeps, journal, st.pending[k])
    requires B.ValidState(B.Absorb(st, ev))
    ensures var st' := B.Absorb(st, ev);
      && st'.head <= |journal| && (st'.head > 0 ==> IsCopyOf(jsonLen, keeps, journal, st'.last))
      && (forall k :: k in st'.pending ==> IsCopyOf(jsonLen, keeps, journal, st'.pending[k]))
  {
    B.AbsorbFacts(st, ev);
  }

  lemma DeliverKeepsInv(jsonLen: RunEvent -> nat, s: State, step: Step)
    requires Inv(jsonLen, s) && step.Deliver? && Enabled(s, step)
    ensures Inv(jsonLen, Apply(jsonLen, s, step))
  {
    var s' := Apply(jsonLen, s, step);
    var msg := step.msg;
    var target := B.Key(msg.account, msg.deviceID, msg.ev.runID);
    assert MsgOK(jsonLen, s, msg);
    forall key ensures JournalOf(s', key) == JournalOf(s, key) {}
    forall m | m in s'.net ensures MsgOK(jsonLen, s', m) {
      MsgKept(jsonLen, s, s', m);
    }
    forall key ensures RunOK(jsonLen, Keeps(s', key), JournalOf(s', key), B.StateOf(s'.broker, key), AcceptedOf(s', key)) {
      assert RunOK(jsonLen, Keeps(s, key), JournalOf(s, key), B.StateOf(s.broker, key), AcceptedOf(s, key));
      if key == target {
        DeliverRun(jsonLen, Keeps(s, key), JournalOf(s, key), B.StateOf(s.broker, key), AcceptedOf(s, key), msg.ev);
      }
    }
  }

  lemma RestartKeepsInv(jsonLen: RunEvent -> nat, s: State)
    requires Inv(jsonLen, s)
    ensures Inv(jsonLen, Apply(jsonLen, s, RestartManager))
  {
    var s' := Apply(jsonLen, s, RestartManager);
    forall key ensures JournalOf(s', key) == JournalOf(s, key) {}
    forall msg | msg in s'.net ensures MsgOK(jsonLen, s', msg) {
      MsgKept(jsonLen, s, s', msg);
    }
  }

  lemma AdvertiseOK(jsonLen: RunEvent -> nat, s: State, step: Step)
    requires step.Advertise? && Enabled(s, step)
    ensures MsgOK(jsonLen, s, HeadsMsg(step.account, step.deviceID, step.heads))
  {
  }

  /** The event a replay step sends. */
  function Replayed(jsonLen: RunEvent -> nat, s: State, step: Step): Msg
    requires step.ReplaySend? && step.msg.ReplayMsg?
    requires 1 <= step.seqNo <= |JournalOf(s, B.Key(step.msg.account, step.msg.deviceID, step.cursor.runID))|
  {
    var e := JournalOf(s, B.Key(step.msg.account, step.msg.deviceID, step.cursor.runID))[step.seqNo - 1];
    EventMsg(step.msg.account, step.msg.deviceID, R.WireForm(jsonLen, if step.stored then Rounded(e) else e))
  }

  lemma ReplayedOK(jsonLen: RunEvent -> nat, s: State, step: Step)
    requires step.ReplaySend? && Enabled(s, step)
    requires var key := B.Key(step.msg.account, step.msg.deviceID, step.cursor.runID); JournalOK(key, JournalOf(s, key))
    ensures MsgOK(jsonLen, s, Replayed(jsonLen, s, step))
  {
  }

  /** A step that sends one message. */
  lemma SentIs(jsonLen: RunEvent -> nat, s: State, step: Step)
    requires Enabled(s, step)
    ensures step.Advertise? ==>
      Apply(jsonLen, s, step) == s.(net := s.net + {HeadsMsg(step.account, step.deviceID, step.heads)})
    ensures step.Answer? ==>
      Apply(jsonLen, s, step) == s.(net := s.net + {ReplayMsg(step.msg.account, step.msg.deviceID,
        B.NeededCursors(s.broker, step.msg.account, step.msg.deviceID, step.msg.heads))})
    ensures step.ReplaySend? ==> Apply(jsonLen, s, step) == s.(net := s.net + {Replayed(jsonLen, s, step)})
  {
  }

  lemma OneMessageKeepsInv(jsonLen: RunEvent -> nat, s: State, sent: Msg)
    requires Inv(jsonLen, s) && MsgOK(jsonLen, s, sent)
    ensures Inv(jsonLen, s.(net := s.net + {sent}))
  {
    NetworkKeepsInv(jsonLen, s, s.net + {sent});
  }

  lemma AdvertiseKeepsInv(jsonLen: RunEvent -> nat, s: State, step: Step)
    requires Inv(jsonLen, s) && Enabled(s, step) && step.Advertise?
    ensures Inv(jsonLen, Apply(jsonLen, s, step))
  {
    SentIs(jsonLen, s, step);
    AdvertiseOK(jsonLen, s, step);
    OneMessageKeepsInv(jsonLen, s, HeadsMsg(step.account, step.deviceID, step.heads));
  }

  lemma AnswerKeepsInv(jsonLen: RunEvent -> nat, s: State, step: Step)
    requires Inv(jsonLen, s) && Enabled(s, step) && step.Answer?
    ensures Inv(jsonLen, Apply(jsonLen, s, step))
  {
    SentIs(jsonLen, s, step);
    AnswerOK(jsonLen, s, step.msg);
    OneMessageKeepsInv(jsonLen, s, ReplayMsg(step.msg.account, step.msg.deviceID,
      B.NeededCursors(s.broker, step.msg.account, step.msg.deviceID, step.msg.heads)));
  }

  lemma ReplayKeepsInv(jsonLen: RunEvent -> nat, s: State, step: Step)
    requires Inv(jsonLen, s) && Enabled(s, step) && step.ReplaySend?
    ensures Inv(jsonLen, Apply(jsonLen, s, step))
  {
    var key := B.Key(step.msg.account, step.msg.deviceID, step.cursor.runID);
    assert JournalOK(key, JournalOf(s, key));
    SentIs(jsonLen, s, step);
    ReplayedOK(jsonLen, s, step);
    OneMessageKeepsInv(jsonLen, s, Replayed(jsonLen, s, step));
  }

  /** Every step of every party keeps the invariant. */
  lemma StepKeepsInv(jsonLen: RunEvent -> nat, s: State, step: Step)
    requires Inv(jsonLen, s) && Enabled(s, step)
    ensures Inv(jsonLen, Apply(jsonLen, s, step))
  {
    match step
    case Append(_, _, _, _, _, _) => AppendKeepsInv(jsonLen, s, step);
    case Lose(lost) => NetworkKeepsInv(jsonLen, s, s.net - lost);
    case Advertise(_, _, _) => AdvertiseKeepsInv(jsonLen, s, step);
    case Answer(_) => AnswerKeepsInv(jsonLen, s, step);
    case ReplaySend(_, _, _, _) => ReplayKeepsInv(jsonLen, s, step);
    case Deliver(_) => DeliverKeepsInv(jsonLen, s, step);
    case RestartManager => RestartKeepsInv(jsonLen, s);
  }

  // --------------------------------------------------------------------- all runs

  /** `states` is the execution that takes `steps` from `states[0]`. */
  ghost predicate Execution(jsonLen: RunEvent -> nat, states: seq<State>, steps: seq<Step>) {
    && |states| == |steps| + 1
    && forall i :: 0 <= i < |steps| ==>
         Enabled(states[i], steps[i]) && states[i + 1] == Apply(jsonLen, states[i], steps[i])
  }

  /** Safety: every state of every execution satisfies the invariant. */
  lemma {:induction false} AlwaysInv(jsonLen: RunEvent -> nat, states: seq<State>, steps: seq<Step>, i: nat)
    requires Execution(jsonLen, states, steps) && IsInitial(states[0]) && i < |states|
    ensures Inv(jsonLen, states[i])
  {
    if i == 0 {
      InitialInv(jsonLen, states[0].durable);
    } else {
      AlwaysInv(jsonLen, states, steps, i - 1);
      StepKeepsInv(jsonLen, states[i - 1], steps[i - 1]);
    }
  }

  /** The events a client appended to a run, numbered from 1. */
  function AppendsOf(steps: seq<Step>, key: B.Key): seq<RunEvent> {
    if steps == [] then []
    else
      var before, last := AppendsOf(steps[..|steps| - 1], key), steps[|steps| - 1];
      if last.Append? && last.key == key then
        before + [RunEvent(key.runID, |before| + 1, last.at, last.source, last.kind, last.payload)]
      else before
  }

  /** A journal is what its client appended, in order. */
  lemma {:induction false} JournalIsAppends(jsonLen: RunEvent -> nat, states: seq<State>, steps: seq<Step>, i: nat, key: B.Key)
    requires Execution(jsonLen, states, steps) && IsInitial(states[0]) && i < |states|
    ensures JournalOf(states[i], key) == AppendsOf(steps[..i], key)
  {
    if i > 0 {
      JournalIsAppends(jsonLen, states, steps, i - 1, key);
      assert steps[..i][..i - 1] == steps[..i - 1];
      JournalStep(jsonLen, states[i - 1], steps[i - 1], key);
    }
  }

  /** Only an append to a run changes its journal. */
  lemma JournalStep(jsonLen: RunEvent -> nat, s: State, step: Step, key: B.Key)
    requires Enabled(s, step)
    ensures var was := JournalOf(s, key);
      JournalOf(Apply(jsonLen, s, step), key) ==
        if step.Append? && step.key == key then
          was + [RunEvent(key.runID, |was| + 1, step.at, step.source, step.kind, step.payload)]
        else was
  {
  }

  /** What the manager holds last is, in every execution, the client's entry of that
      number, provided it fits in a message; its time may be cut to milliseconds when the
      client keeps a store. */
  lemma LastIsEntry(jsonLen: RunEvent -> nat, states: seq<State>, steps: seq<Step>, i: nat, key: B.Key)
    requires Execution(jsonLen, states, steps) && IsInitial(states[0]) && i < |states|
    ensures var head := HeadOf(states[i], key); 0 <= head <= |JournalOf(states[i], key)|
    ensures var head := HeadOf(states[i], key);
      head > 0 ==>
        var entry, last := JournalOf(states[i], key)[head - 1], B.StateOf(states[i].broker, key).last;
        && last.runID == key.runID && last.seqNo == head
        && last.source == entry.source && last.kind == entry.kind
        && (last.at == entry.at || (Keeps(states[i], key) && last.at == Rounded(entry).at))
        && (jsonLen(entry) <= R.MAX_RESPONSE_BYTES && jsonLen(Rounded(entry)) <= R.MAX_RESPONSE_BYTES ==>
              last == entry || (Keeps(states[i], key) && last == Rounded(entry)))
  {
    var s := states[i];
    AlwaysInv(jsonLen, states, steps, i);
    assert JournalOK(key, JournalOf(s, key));
    assert RunOK(jsonLen, Keeps(s, key), JournalOf(s, key), B.StateOf(s.broker, key), AcceptedOf(s, key));
  }

  /** The manager's head for a run never moves back while the manager stays up. */
  lemma HeadStep(jsonLen: RunEvent -> nat, s: State, step: Step, key: B.Key)
    requires Inv(jsonLen, s) && Enabled(s, step) && !step.RestartManager?
    ensures HeadOf(s, key) <= HeadOf(Apply(jsonLen, s, step), key)
  {
    if step.Deliver? {
      assert MsgOK(jsonLen, s, step.msg);
      assert RunOK(jsonLen, Keeps(s, key), JournalOf(s, key), B.StateOf(s.broker, key), AcceptedOf(s, key));
      if key == B.Key(step.msg.account, step.msg.deviceID, step.msg.ev.runID) {
        B.ReceiveStep(B.StateOf(s.broker, key), step.msg.ev);
      }
    }
  }

  /** Delivering number n to a head of at least n-1 leaves a head of at least n. */
  lemma DeliverNext(jsonLen: RunEvent -> nat, s: State, msg: Msg, n: int)
    requires Inv(jsonLen, s) && Enabled(s, Deliver(msg)) && msg.ev.seqNo == n
    requires msg.account != "" && msg.deviceID != "" && msg.ev.runID != ""
    requires n - 1 <= HeadOf(s, B.Key(msg.account, msg.deviceID, msg.ev.runID))
    ensures n <= HeadOf(Apply(jsonLen, s, Deliver(msg)), B.Key(msg.account, msg.deviceID, msg.ev.runID))
  {
    var key := B.Key(msg.account, msg.deviceID, msg.ev.runID);
    assert MsgOK(jsonLen, s, msg);
    assert JournalOK(key, JournalOf(s, key));
    assert RunOK(jsonLen, Keeps(s, key), JournalOf(s, key), B.StateOf(s.broker, key), AcceptedOf(s, key));
    B.ReceiveStep(B.StateOf(s.broker, key), msg.ev);
  }

  /** Step number `at` delivers event `n` of run `key`. */
  ghost predicate DeliversAt(steps: seq<Step>, at: nat, key: B.Key, n: int) {
    && at < |steps| && steps[at].Deliver? && steps[at].msg.EventMsg?
    && B.Key(steps[at].msg.account, steps[at].msg.deviceID, steps[at].msg.ev.runID) == key
    && steps[at].msg.ev.seqNo == n
  }

  lemma HeadMoves(jsonLen: RunEvent -> nat, states: seq<State>, steps: seq<Step>, key: B.Key, i: nat, n: int)
    requires Execution(jsonLen, states, steps) && IsInitial(states[0]) && i < |steps| && !steps[i].RestartManager?
    requires key.account != "" && key.deviceID != "" && key.runID != ""
    ensures HeadOf(states[i], key) <= HeadOf(states[i + 1], key)
    ensures DeliversAt(steps, i, key, n) && n - 1 <= HeadOf(states[i], key) ==> n <= HeadOf(states[i + 1], key)
  {
    AlwaysInv(jsonLen, states, steps, i);
    HeadStep(jsonLen, states[i], steps[i], key);
    if DeliversAt(steps, i, key, n) && n - 1 <= HeadOf(states[i], key) {
      DeliverNext(jsonLen, states[i], steps[i].msg, n);
    }
  }

  /** Reconnect convergence: at step `start` the manager's head for the run is at
      least `after`; later the numbers after+1 .. after+|at| are delivered in order,
      at the steps `at`, with any other steps in between. Then the head has
      reached after+|at|, whatever was pending before, as long as the manager ran. */
  lemma {:induction false} ReconnectConverges(
      jsonLen: RunEvent -> nat, states: seq<State>, steps: seq<Step>,
      key: B.Key, start: nat, after: int, at: seq<nat>, end: nat)
    requires Execution(jsonLen, states, steps) && IsInitial(states[0])
    requires key.account != "" && key.deviceID != "" && key.runID != ""
    requires start <= end < |states| && after <= HeadOf(states[start], key)
    requires forall j :: 0 <= j < |at| ==> start <= at[j] < end && DeliversAt(steps, at[j], key, after + 1 + j)
    requires forall j, k :: 0 <= j < k < |at| ==> at[j] < at[k]
    requires forall i :: start <= i < end ==> !steps[i].RestartManager?
    ensures after + |at| <= HeadOf(states[end], key)
    decreases end - start
  {
    if start < end {
      HeadMoves(jsonLen, states, steps, key, start, after + 1);
      if at != [] && at[0] == start {
        ReconnectConverges(jsonLen, states, steps, key, start + 1, after + 1, at[1..], end);
      } else {
        ReconnectConverges(jsonLen, states, steps, key, start + 1, after, at, end);
      }
    }
  }

  /** The handshake form: a client advertised `last` for a run and the manager
      answered at step `start` with a cursor; once the cursor's range has been
      delivered in order, the manager's head is at least `last`. */
  lemma ReplayCompletesRun(
      jsonLen: RunEvent -> nat, states: seq<State>, steps: seq<Step>,
      key: B.Key, start: nat, cursor: ReplayCursor, at: seq<nat>, end: nat)
    requires Execution(jsonLen, states, steps) && IsInitial(states[0])
    requires key.account != "" && key.deviceID != "" && key.runID != ""
    requires start < |steps| && steps[start].Answer? && steps[start].msg.HeadsMsg?
    requires steps[start].msg.account == key.account && steps[start].msg.deviceID == key.deviceID
    requires cursor.runID == key.runID
    requires cursor in B.NeededCursors(states[start].broker, key.account, key.deviceID, steps[start].msg.heads)
    requires start <= end < |states| && |at| == cursor.throughSeq - cursor.afterSeq
    requires forall j :: 0 <= j < |at| ==>
      start <= at[j] < end && DeliversAt(steps, at[j], key, cursor.afterSeq + 1 + j)
    requires forall j, k :: 0 <= j < k < |at| ==> at[j] < at[k]
    requires forall i :: start <= i < end ==> !steps[i].RestartManager?
    ensures cursor.throughSeq <= HeadOf(states[end], key)
    ensures exists h :: h in steps[start].msg.heads && h.runID == key.runID && h.lastSeq == cursor.throughSeq
  {
    var s, msg := states[start], steps[start].msg;
    AlwaysInv(jsonLen, states, steps, start);
    assert MsgOK(jsonLen, s, msg);
    forall k | k in s.broker ensures B.ValidState(s.broker[k]) {
      assert RunOK(jsonLen, Keeps(s, k), JournalOf(s, k), B.StateOf(s.broker, k), AcceptedOf(s, k));
    }
    B.NeededCursorsExact(s.broker, msg.account, msg.deviceID, msg.heads);
    var cursors := B.NeededCursors(s.broker, msg.account, msg.deviceID, msg.heads);
    var i :| 0 <= i < |cursors| && cursors[i] == cursor;
    var j :| 0 <= j < |msg.heads| && B.Answers(cursors[i], msg.heads[j],
      B.StateOf(s.broker, B.Key(msg.account, msg.deviceID, msg.heads[j].runID)).head);
    assert msg.heads[j] in msg.heads;
    ReconnectConverges(jsonLen, states, steps, key, start, cursor.afterSeq, at, end);
  }
}
