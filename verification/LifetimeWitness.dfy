/** The shortest history in which an interruption follows a completion, step by step
    (internal/agentops/run_manager.go, transitionLocked). */
module LifetimeWitness {
  import opened Wire
  import opened RunRecords
  import opened RunStore
  import opened Lifetimes

  function RowOf(status: Status): Row {
    Row(Word(status), "", 0, 0, "", "", "")
  }

  function Event(kind: string): Stored {
    Stored(0, OWN_SOURCE, kind, "")
  }

  function Kinds3(last: Status): Journal {
    map[1 := Event(StatusKind(Queued)), 2 := Event(StatusKind(Running)), 3 := Event(StatusKind(last))]
  }

  /** `s` is reached by an execution that takes `steps`. */
  ghost predicate Reached(s: State, steps: seq<Step>) {
    exists states: seq<State> :: Execution(states, steps) && states[|steps|] == s
  }

  lemma OneMore(s: State, steps: seq<Step>, step: Step)
    requires Reached(s, steps) && Enabled(s, step)
    ensures Reached(Apply(s, step), steps + [step])
  {
    var states: seq<State> :| Execution(states, steps) && states[|steps|] == s;
    var more := states + [Apply(s, step)];
    assert Execution(more, steps + [step]);
  }

  /** A run starts and its row says queued. */
  lemma StartedRun() returns (steps: seq<Step>)
    ensures Reached(State(map["r" := RowOf(Queued)], map["r" := map[1 := Event(StatusKind(Queued))]],
                          Up(map["r" := Live(Queued, 1)], None)), steps)
  {
    var s0 := EMPTY;
    assert Execution([s0], []);
    OneMore(s0, [], Boot);
    var s1 := Apply(s0, Boot);
    OneMore(s1, [] + [Boot], Serve);
    var s2 := Apply(s1, Serve);
    assert s2 == State(map[], map[], Up(map[], None));
    OneMore(s2, [] + [Boot] + [Serve], Start("r", 0));
    var s3 := Apply(s2, Start("r", 0));
    OneMore(s3, [] + [Boot] + [Serve] + [Start("r", 0)], Persist(RowOf(Queued)));
    steps := [] + [Boot] + [Serve] + [Start("r", 0)] + [Persist(RowOf(Queued))];
  }

  lemma MoveEffect(row: Row, j: Journal, live: Live, to: Status)
    requires CanTransition(live.status, to)
    ensures Apply(State(map["r" := row], map["r" := j], Up(map["r" := live], None)), Move("r", to, 0))
         == State(map["r" := row], map["r" := j[live.seqNo + 1 := Event(StatusKind(to))]],
                  Up(map["r" := Live(to, live.seqNo + 1)], Some("r")))
  {
    var j' := j[live.seqNo + 1 := Event(StatusKind(to))];
    var events: map<string, Journal> := map["r" := j];
    assert events["r" := j'] == map["r" := j'];
    assert map["r" := live]["r" := Live(to, live.seqNo + 1)] == map["r" := Live(to, live.seqNo + 1)];
  }

  /** It runs, completes, and the process dies owing the row. */
  lemma DiedOwingRow() returns (steps: seq<Step>)
    ensures Reached(State(map["r" := RowOf(Running)], map["r" := Kinds3(Completed)], Down), steps)
  {
    var before := StartedRun();
    var j1: Journal := map[1 := Event(StatusKind(Queued))];
    var j2: Journal := map[1 := Event(StatusKind(Queued)), 2 := Event(StatusKind(Running))];
    var s1 := State(map["r" := RowOf(Queued)], map["r" := j1], Up(map["r" := Live(Queued, 1)], None));
    OneMore(s1, before, Move("r", Running, 0));
    var s2 := State(map["r" := RowOf(Queued)], map["r" := j2], Up(map["r" := Live(Running, 2)], Some("r")));
    MoveEffect(RowOf(Queued), j1, Live(Queued, 1), Running);
    assert j1[2 := Event(StatusKind(Running))] == j2;
    OneMore(s2, before + [Move("r", Running, 0)], Persist(RowOf(Running)));
    var s3 := State(map["r" := RowOf(Running)], map["r" := j2], Up(map["r" := Live(Running, 2)], None));
    assert Apply(s2, Persist(RowOf(Running))) == s3;
    steps := before + [Move("r", Running, 0)] + [Persist(RowOf(Running))];
    OneMore(s3, steps, Move("r", Completed, 0));
    var s4 := State(map["r" := RowOf(Running)], map["r" := Kinds3(Completed)], Up(map["r" := Live(Completed, 3)], Some("r")));
    MoveEffect(RowOf(Running), j2, Live(Running, 2), Completed);
    assert j2[3 := Event(StatusKind(Completed))] == Kinds3(Completed);
    OneMore(s4, steps + [Move("r", Completed, 0)], Die);
    steps := steps + [Move("r", Completed, 0)] + [Die];
  }

  /** The shortest such history: a run completes, the process dies before its row is
      rewritten, and the next one journals an interruption behind the completion. */
  lemma InterruptedAfterCompletion() returns (s: State, steps: seq<Step>)
    ensures Reached(s, steps)
    ensures JournalOf(s.events, "r") == Kinds3(Completed)[4 := Event("run.interrupted")]
    ensures !Sealed(JournalOf(s.events, "r"))
  {
    var before := DiedOwingRow();
    var j := Kinds3(Completed);
    var s1 := State(map["r" := RowOf(Running)], map["r" := j], Down);
    OneMore(s1, before, Boot);
    var s2 := s1.(phase := Recovering({}));
    assert Contiguous(j, 3);
    ContiguousHead(j, 3);
    OneMore(s2, before + [Boot], Interrupt("r", 0));
    s, steps := Apply(s2, Interrupt("r", 0)), before + [Boot] + [Interrupt("r", 0)];
    EndedAfter(j, 3, Event("run.interrupted"));
  }
}
