/** The durable journal across process lifetimes (internal/agentops/run_manager.go,
    run_store.go, run_events.go): every status change appends its event and then
    rewrites the row, recovery journals its interruptions and then rewrites the rows,
    and the process may die between any two writes. */
module Lifetimes {
  import opened Wire
  import opened RunRecords
  import opened RunStore

  /** A run of the living process: its status and its event counter. */
  datatype Live = Live(status: Status, seqNo: nat)

  /** No process, one that is recovering and has journalled the interruptions of
      `done`, or one that serves. `owed` is the run whose row is to be written next,
      under the same lock as the event just appended. */
  datatype Phase =
    | Down
    | Recovering(done: set<string>)
    | Up(own: map<string, Live>, owed: Option<string>)

  datatype State = State(rows: map<string, Row>, events: map<string, Journal>, phase: Phase)

  const EMPTY := State(map[], map[], Down)

  datatype Step =
    | Boot
    | Interrupt(id: string, now: Time)
    | Serve
    | Start(id: string, now: Time)
    | Move(id: string, to: Status, now: Time)
    | Line(id: string, source: string, text: string, now: Time)
    | Persist(row: Row)
    | Die

  predicate TerminalKind(kind: string) {
    || kind == "run.completed" || kind == "run.failed" || kind == "run.cancelled"
    || kind == "run.timeout" || kind == "run.interrupted"
  }

  lemma KindsOfStatus(status: Status)
    ensures TerminalKind(StatusKind(status)) <==> Terminal(status)
    ensures Stale(Word(status)) <==> !Terminal(status)
    ensures !TerminalKind(RAW_KIND)
  {
    assert "run.queued"[4] == 'q' && "run.started"[4] == 's' && RAW_KIND[0] == 'h';
  }

  predicate StaleRow(s: State, id: string) {
    id in s.rows && Stale(s.rows[id].status)
  }

  /** The lock is free and the process serves. */
  predicate Free(s: State) {
    s.phase.Up? && s.phase.owed.None?
  }

  ghost predicate Enabled(s: State, step: Step) {
    match step
    case Boot => s.phase.Down?
    case Interrupt(id, _) => s.phase.Recovering? && StaleRow(s, id) && id !in s.phase.done
    case Serve => s.phase.Recovering? && forall id :: StaleRow(s, id) ==> id in s.phase.done
    // Run ids are random: a new one has never been used.
    case Start(id, _) => Free(s) && id !in s.phase.own && id !in s.rows && JournalOf(s.events, id) == map[]
    case Move(id, to, _) => Free(s) && id in s.phase.own && CanTransition(s.phase.own[id].status, to)
    case Line(id, _, _, _) => Free(s) && id in s.phase.own && !Terminal(s.phase.own[id].status)
    case Persist(row) =>
      s.phase.Up? && s.phase.owed.Some? && s.phase.owed.value in s.phase.own
      && row.status == Word(s.phase.own[s.phase.owed.value].status)
    case Die => !s.phase.Down?
  }

  /** A living run appends its next event. */
  function Logged(s: State, id: string, live: Live, e: Stored, owed: Option<string>): State
    requires s.phase.Up?
  {
    State(s.rows, WithEntry(s.events, id, live.seqNo, e), Up(s.phase.own[id := live], owed))
  }

  ghost function Apply(s: State, step: Step): State
    requires Enabled(s, step)
  {
    match step
    case Boot => s.(phase := Recovering({}))
    case Interrupt(id, now) =>
      s.(events := WithEntry(s.events, id, Head(JournalOf(s.events, id)) + 1, Stored(Ms(now), OWN_SOURCE, INTERRUPTED_KIND, "")),
         phase := Recovering(s.phase.done + {id}))
    case Serve =>
      State(map id | id in s.rows :: RecoveredRow(s.rows[id]), s.events, Up(map[], None))
    case Start(id, now) =>
      Logged(s, id, Live(Queued, 1), Stored(Ms(now), OWN_SOURCE, StatusKind(Queued), ""), Some(id))
    case Move(id, to, now) =>
      Logged(s, id, Live(to, s.phase.own[id].seqNo + 1), Stored(Ms(now), OWN_SOURCE, StatusKind(to), ""), Some(id))
    case Line(id, source, text, now) =>
      Logged(s, id, s.phase.own[id].(seqNo := s.phase.own[id].seqNo + 1), Stored(Ms(now), source, RAW_KIND, text), None)
    case Persist(row) =>
      s.(rows := s.rows[s.phase.owed.value := row], phase := Up(s.phase.own, None))
    case Die => s.(phase := Down)
  }

  /** The record a living run has in memory is where its row and counter say. */
  predicate Mirrors(live: Live, r: Record, id: string) {
    r.id == id && r.status == live.status && r.base + |r.journal| == live.seqNo
  }

  /** What a step of a run stores is the event its record journals in that step, so the
      stored journal is the record's. */
  lemma StoresOwnEvent(s: State, step: Step, r: Record, r': Record)
    requires Enabled(s, step) && (step.Start? || step.Move? || step.Line?)
    requires step.Start? ==> exists client :: r' == NewRun(step.id, client, step.now)
    requires step.Move? ==> Mirrors(s.phase.own[step.id], r, step.id) && r' == Moved(r, step.to, step.now)
    requires step.Line? ==>
      && Mirrors(s.phase.own[step.id], r, step.id) && r' == Recorded(r, step.text, step.now)
      && step.source == if r.client == "" then "codebridge" else r.client
    ensures r'.journal != [] && Apply(s, step).phase.Up? && step.id in Apply(s, step).phase.own
    ensures Mirrors(Apply(s, step).phase.own[step.id], r', step.id)
    ensures var e := r'.journal[|r'.journal| - 1];
      && e.seqNo == r'.base + |r'.journal|
      && JournalOf(Apply(s, step).events, step.id) == JournalOf(s.events, step.id)[e.seqNo as nat := RowOf(e)]
  {
  }

  // ------------------------------------------------------------- the terminal event

  /** The journal's last event is terminal. */
  ghost predicate Ended(j: Journal) {
    Head(j) in j && TerminalKind(j[Head(j)].kind)
  }

  /** Nothing follows a terminal event. */
  ghost predicate Sealed(j: Journal) {
    forall n :: n in j && TerminalKind(j[n].kind) ==> n == Head(j)
  }

  /** Dying now leaves a stale row under a finished journal: the run's terminal event is
      in and its row is still owed, or recovery has journalled its interruption and not
      yet rewritten the rows. */
  ghost predicate Window(s: State, id: string) {
    match s.phase
    case Down => false
    case Recovering(done) => id in done
    case Up(own, owed) => owed == Some(id) && id in own && Terminal(own[id].status)
  }

  ghost predicate Execution(states: seq<State>, steps: seq<Step>) {
    && |states| == |steps| + 1 && states[0] == EMPTY
    && forall i :: 0 <= i < |steps| ==> Enabled(states[i], steps[i]) && states[i + 1] == Apply(states[i], steps[i])
  }

  /** Before step `n` the process died inside the window of `id`. */
  ghost predicate DiedInWindow(states: seq<State>, steps: seq<Step>, n: nat, id: string)
    requires |states| == |steps| + 1
  {
    exists i :: 0 <= i < n && i < |steps| && steps[i].Die? && Window(states[i], id)
  }

  /** Some later process got as far as journalling an interruption for it. */
  ghost predicate InterruptedAfterwards(states: seq<State>, steps: seq<Step>, n: nat, id: string)
    requires |states| == |steps| + 1
  {
    exists j :: 0 <= j < n && j < |steps| && Recovers(steps[j], id) && DiedInWindow(states, steps, j, id)
  }

  // ---------------------------------------------------------------------- invariant

  /** What holds of one run. `died` says that some process died inside its window. */
  ghost predicate RunInv(s: State, id: string, died: bool) {
    var j := JournalOf(s.events, id);
    && Contiguous(j, Head(j))
    && (died ==> Ended(j))
    && (id in s.rows ==> j != map[])
    && match s.phase
       case Down => StaleRow(s, id) && Ended(j) ==> died
       case Recovering(done) => (id in done ==> StaleRow(s, id) && Ended(j)) && (StaleRow(s, id) && Ended(j) ==> died || id in done)
       case Up(own, owed) =>
         && (id in own ==> !died && own[id].seqNo == Head(j) && Head(j) > 0 && (Ended(j) <==> Terminal(own[id].status)))
         && (id in own && owed != Some(id) ==> id in s.rows && s.rows[id].status == Word(own[id].status))
         && (id !in own ==> !StaleRow(s, id) && owed != Some(id))
  }

  lemma EndedAfter(j: Journal, n: nat, e: Stored)
    requires Contiguous(j, n)
    ensures Contiguous(j[n + 1 := e], n + 1) && Head(j) == n && Head(j[n + 1 := e]) == n + 1
    ensures Ended(j[n + 1 := e]) <==> TerminalKind(e.kind)
    ensures Sealed(j[n + 1 := e]) <==> Sealed(j) && !Ended(j)
  {
    AppendKeepsContiguous(j, n, e);
    ContiguousHead(j, n);
    ContiguousHead(j[n + 1 := e], n + 1);
    var j' := j[n + 1 := e];
    assert forall k :: k in j ==> k in j' && j'[k] == j[k] && k <= n;
    if Ended(j) {
      assert n in j' && TerminalKind(j'[n].kind);
    }
  }

  /** The step appends to the journal of `id`. */
  predicate Writes(step: Step, id: string) {
    match step
    case Interrupt(x, _) => x == id
    case Start(x, _) => x == id
    case Move(x, _, _) => x == id
    case Line(x, _, _, _) => x == id
    case _ => false
  }

  lemma OtherJournal(s: State, step: Step, id: string)
    requires Enabled(s, step) && !Writes(step, id)
    ensures JournalOf(Apply(s, step).events, id) == JournalOf(s.events, id)
  {
  }

  /** Steps of the run's own process. */
  lemma OwnStep(s: State, step: Step, died: bool)
    requires Enabled(s, step) && (step.Start? || step.Move? || step.Line?) && RunInv(s, step.id, died)
    ensures RunInv(Apply(s, step), step.id, died)
    ensures Sealed(JournalOf(Apply(s, step).events, step.id)) <==> Sealed(JournalOf(s.events, step.id))
  {
    var id, j := step.id, JournalOf(s.events, step.id);
    if step.Start? {
      HeadUnique(j, 0);
    }
    var e := match step
      case Start(_, now) => Stored(Ms(now), OWN_SOURCE, StatusKind(Queued), "")
      case Move(_, to, now) => Stored(Ms(now), OWN_SOURCE, StatusKind(to), "")
      case Line(_, source, text, now) => Stored(Ms(now), source, RAW_KIND, text);
    EndedAfter(j, Head(j), e);
    KindsOfStatus(if step.Move? then step.to else Queued);
    assert JournalOf(Apply(s, step).events, id) == j[Head(j) + 1 := e];
  }

  /** The recovery of a run breaks the seal exactly when an earlier death made it so. */
  lemma InterruptStep(s: State, step: Step, died: bool)
    requires Enabled(s, step) && step.Interrupt? && RunInv(s, step.id, died)
    ensures RunInv(Apply(s, step), step.id, died)
    ensures Sealed(JournalOf(Apply(s, step).events, step.id)) <==> Sealed(JournalOf(s.events, step.id)) && !died
  {
    var j := JournalOf(s.events, step.id);
    EndedAfter(j, Head(j), Stored(Ms(step.now), OWN_SOURCE, INTERRUPTED_KIND, ""));
  }

  /** Steps that leave the run's journal alone. */
  lemma QuietStep(s: State, step: Step, id: string, died: bool)
    requires Enabled(s, step) && RunInv(s, id, died) && !Writes(step, id)
    ensures RunInv(Apply(s, step), id, died || (step.Die? && Window(s, id)))
    ensures JournalOf(Apply(s, step).events, id) == JournalOf(s.events, id)
  {
    OtherJournal(s, step, id);
    if s.phase.Up? && id in s.phase.own {
      KindsOfStatus(s.phase.own[id].status);
    }
    if step.Serve? && id in s.rows {
      KindsOfStatus(Interrupted);
    }
  }

  /** Every step keeps the invariant and tells what becomes of the seal. */
  lemma RunStep(s: State, step: Step, id: string, died: bool)
    requires Enabled(s, step) && RunInv(s, id, died)
    ensures RunInv(Apply(s, step), id, died || (step.Die? && Window(s, id)))
    ensures Sealed(JournalOf(Apply(s, step).events, id)) <==>
      Sealed(JournalOf(s.events, id)) && !(Recovers(step, id) && died)
  {
    if (step.Start? || step.Move? || step.Line?) && step.id == id {
      OwnStep(s, step, died);
    } else if step.Interrupt? && step.id == id {
      InterruptStep(s, step, died);
    } else {
      QuietStep(s, step, id, died);
    }
  }

  predicate Recovers(step: Step, id: string) {
    step.Interrupt? && step.id == id
  }

  lemma DiedStep(states: seq<State>, steps: seq<Step>, n: nat, id: string)
    requires |states| == |steps| + 1 && n < |steps|
    ensures DiedInWindow(states, steps, n + 1, id) <==>
      DiedInWindow(states, steps, n, id) || (steps[n].Die? && Window(states[n], id))
    ensures InterruptedAfterwards(states, steps, n + 1, id) <==>
      InterruptedAfterwards(states, steps, n, id) || (Recovers(steps[n], id) && DiedInWindow(states, steps, n, id))
  {
  }

  lemma {:induction false} AlwaysRunInv(states: seq<State>, steps: seq<Step>, n: nat, id: string)
    requires Execution(states, steps) && n < |states|
    ensures RunInv(states[n], id, DiedInWindow(states, steps, n, id))
    ensures Sealed(JournalOf(states[n].events, id)) <==> !InterruptedAfterwards(states, steps, n, id)
  {
    if n == 0 {
      HeadUnique(map[], 0);
    } else {
      AlwaysRunInv(states, steps, n - 1, id);
      RunStep(states[n - 1], steps[n - 1], id, DiedInWindow(states, steps, n - 1, id));
      DiedStep(states, steps, n - 1, id);
    }
  }

  /** Across any number of process lifetimes, with deaths between any two writes, nothing
      follows a run's terminal event if and only if no process died between that event
      and the rewrite of the row and was followed by one that recovered the run. The
      journal is contiguous either way. */
  lemma TerminalIsLastIff(states: seq<State>, steps: seq<Step>, n: nat, id: string)
    requires Execution(states, steps) && n < |states|
    ensures Sealed(JournalOf(states[n].events, id)) <==> !InterruptedAfterwards(states, steps, n, id)
    ensures Contiguous(JournalOf(states[n].events, id), Head(JournalOf(states[n].events, id)))
  {
    AlwaysRunInv(states, steps, n, id);
  }

  /** While a process serves, a run's row names a status that is not stale unless the
      process itself owns the run, so a client never sees a run nobody works on. */
  lemma ServingRowsHonest(states: seq<State>, steps: seq<Step>, n: nat, id: string)
    requires Execution(states, steps) && n < |states| && states[n].phase.Up? && StaleRow(states[n], id)
    ensures id in states[n].phase.own
  {
    AlwaysRunInv(states, steps, n, id);
  }
}
