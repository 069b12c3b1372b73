/** The run scheduler (internal/agentops/run_manager.go): a semaphore of permits and
    one goroutine per run, taken as a program counter, stepping in any interleaving
    with callers that start and cancel runs, harness callbacks, and shutdown. */
module Scheduler {
  import opened Wire
  import opened RunRecords

  /** Where a run's goroutine stands. */
  datatype Pc =
    | Waiting                  // selecting between a permit and cancellation
    | Acquired                 // holds a permit, about to look at its context
    | Passed                   // found its context alive
    | Executing                // inside the executor
    | Deciding(to: Status, output: string, errText: string)
    | Releasing                // terminal, permit still held
    | Gone

  datatype Task = Task(rec: Record, pc: Pc)

  datatype State = State(tasks: map<string, Task>, permits: nat, max: nat, closed: bool, rootStopped: bool)

  /** What the executor hands back: an error or panic, or a harness status word. */
  datatype ExecResult = ExecError(text: string, output: string) | Reported(word: string, output: string)

  datatype Step =
    | Start(id: string, client: string, now: int)
    | Cancel(id: string)
    | Acquire(id: string)
    | GiveUp(id: string, now: int)
    | Refuse(id: string, now: int)
    | Pass(id: string)
    | Begin(id: string, now: int)
    | Line(id: string, line: string, now: int)
    | Return(id: string, expired: bool, result: ExecResult)
    | Decide(id: string, now: int)
    | Release(id: string)
    | CloseManager
    | StopRoot

  /** Unicode white space. */
  predicate IsSpace(c: char) {
    var n := c as int;
    || 9 <= n <= 13 || n == 0x20 || n == 0x85 || n == 0xA0 || n == 0x1680 || 0x2000 <= n <= 0x200A
    || n == 0x2028 || n == 0x2029 || n == 0x202F || n == 0x205F || n == 0x3000
  }

  function TrimLeft(word: string): string {
    if word != "" && IsSpace(word[0]) then TrimLeft(word[1..]) else word
  }

  function TrimRight(word: string): string {
    if word != "" && IsSpace(word[|word| - 1]) then TrimRight(word[..|word| - 1]) else word
  }

  /** The lower case of a character as far as it is an ASCII letter; dotted capital I and
      the Kelvin sign have one too. */
  function LowerChar(c: char): char {
    if 'A' <= c <= 'Z' then (c as int + 32) as char
    else if c as int == 0x130 then 'i'
    else if c as int == 0x212A then 'k'
    else c
  }

  function Lower(word: string): string {
    seq(|word|, i requires 0 <= i < |word| => LowerChar(word[i]))
  }

  /** A harness status word, whatever its case and the space around it. */
  function StatusFromWord(word: string): (Status, string) {
    var w := Lower(TrimRight(TrimLeft(word)));
    if w == "" || w == "completed" then (Completed, "")
    else if w == "failed" then (Failed, "")
    else if w == "timeout" then (Timeout, "")
    else if w == "cancelled" || w == "canceled" then (Cancelled, "")
    else (Failed, "subagent reported unknown status " + word)
  }

  ghost predicate Blank(s: string) {
    forall i :: 0 <= i < |s| ==> IsSpace(s[i])
  }

  ghost predicate Bare(w: string) {
    w == "" || (!IsSpace(w[0]) && !IsSpace(w[|w| - 1]))
  }

  lemma {:induction false} TrimLeftPadded(pre: string, w: string)
    requires Blank(pre) && (w == "" || !IsSpace(w[0]))
    ensures TrimLeft(pre + w) == w
  {
    if pre == "" {
      assert pre + w == w;
    } else {
      assert (pre + w)[1..] == pre[1..] + w;
      TrimLeftPadded(pre[1..], w);
    }
  }

  lemma {:induction false} TrimRightPadded(w: string, post: string)
    requires Blank(post) && (w == "" || !IsSpace(w[|w| - 1]))
    ensures TrimRight(w + post) == w
    decreases |post|
  {
    if post == "" {
      assert w + post == w;
    } else {
      assert (w + post)[..|w + post| - 1] == w + post[..|post| - 1];
      TrimRightPadded(w, post[..|post| - 1]);
    }
  }

  /** What a status word means: space around it and the case of its letters do not
      matter, a word that is not known is a failure that quotes it. */
  lemma StatusWordMeaning(pre: string, w: string, post: string)
    requires Blank(pre) && Bare(w) && Blank(post)
    ensures var (status, err) := StatusFromWord(pre + w + post);
      && (w == "" || Lower(w) == "completed" <==> status == Completed)
      && (Lower(w) == "timeout" <==> status == Timeout)
      && (Lower(w) == "cancelled" || Lower(w) == "canceled" <==> status == Cancelled)
      && (Lower(w) == "failed" ==> status == Failed && err == "")
      && (status != Failed ==> err == "")
      && (status == Completed || status == Timeout || status == Cancelled || Lower(w) == "failed"
          || (status == Failed && err == "subagent reported unknown status " + (pre + w + post)))
  {
    if w == "" {
      assert pre + w + post == pre + post + "";
      TrimLeftPadded(pre + post, "");
    } else {
      assert pre + w + post == pre + (w + post);
      TrimLeftPadded(pre, w + post);
      TrimRightPadded(w, post);
    }
  }

  lemma StatusWordAnyCase()
    ensures StatusFromWord(" Canceled\n") == (Cancelled, "")
  {
    var word := "Canceled";
    assert Lower(word) == "canceled";
    assert " " + word + "\n" == " Canceled\n";
    StatusWordMeaning(" ", word, "\n");
  }

  /** The terminal status of a run that left the executor: an expired or cancelled
      context wins over what the executor reported. */
  function Outcome(expired: bool, cancelled: bool, result: ExecResult): Pc {
    if expired then Deciding(Timeout, result.output, "")
    else if cancelled then Deciding(Cancelled, result.output, "")
    else match result
      case ExecError(text, output) => Deciding(Failed, output, text)
      case Reported(word, output) =>
        var (status, err) := StatusFromWord(word);
        Deciding(status, output, err)
  }

  predicate CtxDone(s: State, id: string)
    requires id in s.tasks
  {
    s.tasks[id].rec.stopped || s.rootStopped
  }

  predicate Holds(pc: Pc) {
    pc != Waiting && pc != Gone
  }

  predicate Enabled(s: State, step: Step) {
    match step
    case Start(id, _, _) => id !in s.tasks && !s.closed
    case Cancel(id) => id in s.tasks && s.tasks[id].rec.stoppable
    case Acquire(id) => id in s.tasks && s.tasks[id].pc == Waiting && s.permits < s.max
    case GiveUp(id, _) => id in s.tasks && s.tasks[id].pc == Waiting && CtxDone(s, id)
    case Refuse(id, _) => id in s.tasks && s.tasks[id].pc == Acquired && CtxDone(s, id)
    case Pass(id) => id in s.tasks && s.tasks[id].pc == Acquired && !CtxDone(s, id)
    case Begin(id, _) => id in s.tasks && s.tasks[id].pc == Passed
    case Line(id, _, _) => id in s.tasks && Running in s.tasks[id].rec.path
    case Return(id, _, _) => id in s.tasks && s.tasks[id].pc == Executing
    case Decide(id, _) => id in s.tasks && s.tasks[id].pc.Deciding?
    case Release(id) => id in s.tasks && s.tasks[id].pc == Releasing && 0 < s.permits
    case CloseManager => true
    case StopRoot => true
  }

  function Put(s: State, id: string, t: Task): State {
    s.(tasks := s.tasks[id := t])
  }

  function Apply(s: State, step: Step): State
    requires Enabled(s, step)
  {
    match step
    case Start(id, client, now) => Put(s, id, Task(NewRun(id, client, now), Waiting))
    case Cancel(id) => Put(s, id, s.tasks[id].(rec := CancelRun(s.tasks[id].rec).value))
    case Acquire(id) => Put(s, id, s.tasks[id].(pc := Acquired)).(permits := s.permits + 1)
    case GiveUp(id, now) => Put(s, id, Task(Finished(s.tasks[id].rec, Cancelled, "", "", now), Gone))
    case Refuse(id, now) => Put(s, id, Task(Finished(s.tasks[id].rec, Cancelled, "", "", now), Releasing))
    case Pass(id) => Put(s, id, s.tasks[id].(pc := Passed))
    case Begin(id, now) =>
      var rec := s.tasks[id].rec;
      Put(s, id, Task(Moved(rec, Running, now), if CanTransition(rec.status, Running) then Executing else Releasing))
    case Line(id, line, now) => Put(s, id, s.tasks[id].(rec := Recorded(s.tasks[id].rec, line, now)))
    case Return(id, expired, result) => Put(s, id, s.tasks[id].(pc := Outcome(expired, CtxDone(s, id), result)))
    case Decide(id, now) =>
      var t := s.tasks[id];
      Put(s, id, Task(Finished(t.rec, t.pc.to, t.pc.output, t.pc.errText, now), Releasing))
    case Release(id) => Put(s, id, s.tasks[id].(pc := Gone)).(permits := s.permits - 1)
    case CloseManager => s.(closed := true)
    case StopRoot => s.(rootStopped := true)
  }

  // ------------------------------------------------------------------- invariant

  ghost predicate TaskOK(t: Task) {
    && RecordOK(t.rec)
    && match t.pc
       case Waiting => StartedOK(t.rec) && t.rec.status == Queued
       case Acquired => StartedOK(t.rec) && t.rec.status == Queued
       case Passed => StartedOK(t.rec) && t.rec.status == Queued
       case Executing => StartedOK(t.rec) && t.rec.status == Running
       case Deciding(to, _, _) => StartedOK(t.rec) && t.rec.status == Running && CanTransition(Running, to)
       case Releasing => StartedOK(t.rec) && Terminal(t.rec.status)
       case Gone => Terminal(t.rec.status)
  }

  ghost function Holders(s: State): set<string> {
    set id | id in s.tasks && Holds(s.tasks[id].pc)
  }

  ghost function RunningIds(s: State): set<string> {
    set id | id in s.tasks && s.tasks[id].rec.status == Running
  }

  ghost predicate Inv(s: State) {
    && (forall id :: id in s.tasks ==> TaskOK(s.tasks[id]))
    && s.permits == |Holders(s)|
    && s.permits <= s.max
  }

  /** A fresh manager: only runs loaded from the store, no permit taken. */
  ghost predicate Initial(s: State) {
    && s.permits == 0 && 1 <= s.max && !s.closed && !s.rootStopped
    && forall id :: id in s.tasks ==> s.tasks[id].pc == Gone && LoadedOK(s.tasks[id].rec)
  }

  lemma InitialInv(s: State)
    requires Initial(s)
    ensures Inv(s)
  {
    assert Holders(s) == {};
  }

  lemma HoldersAfterPut(s: State, id: string, t: Task)
    ensures Holders(Put(s, id, t)) == if Holds(t.pc) then Holders(s) + {id} else Holders(s) - {id}
  {
  }

  /** An expired context times the run out, a cancelled one cancels it, an error fails it
      with the error's text, and otherwise the harness's word counts. */
  ghost predicate OutcomeIs(expired: bool, cancelled: bool, result: ExecResult, pc: Pc) {
    && pc.Deciding? && pc.output == result.output
    && (expired ==> pc.to == Timeout && pc.errText == "")
    && (!expired && cancelled ==> pc.to == Cancelled && pc.errText == "")
    && (!expired && !cancelled && result.ExecError? ==> pc.to == Failed && pc.errText == result.text)
    && (!expired && !cancelled && result.Reported? ==> (pc.to, pc.errText) == StatusFromWord(result.word))
  }

  lemma OutcomeLegal(expired: bool, cancelled: bool, result: ExecResult)
    ensures Outcome(expired, cancelled, result).Deciding?
    ensures CanTransition(Running, Outcome(expired, cancelled, result).to)
    ensures OutcomeIs(expired, cancelled, result, Outcome(expired, cancelled, result))
  {
  }

  /** A step changes the task of the run it names and no other. */
  lemma OthersUntouched(s: State, step: Step, id: string)
    requires Enabled(s, step) && id in s.tasks
    requires step.CloseManager? || step.StopRoot? || id != step.id
    ensures id in Apply(s, step).tasks && Apply(s, step).tasks[id] == s.tasks[id]
  {
  }

  lemma FinishTask(rec: Record, to: Status, output: string, errText: string, now: int, pc: Pc)
    requires StartedOK(rec) && Terminal(to) && (pc == Gone || pc == Releasing)
    ensures TaskOK(Task(Finished(rec, to, output, errText, now), pc))
  {
    FinishedOK(rec, to, output, errText, now);
  }

  lemma LineTask(t: Task, line: string, now: int)
    requires TaskOK(t)
    ensures TaskOK(t.(rec := Recorded(t.rec, line, now)))
  {
    RecordedOK(t.rec, line, now);
  }

  lemma BeginTask(rec: Record, now: int)
    requires StartedOK(rec) && rec.status == Queued
    ensures TaskOK(Task(Moved(rec, Running, now), Executing))
  {
    MovedOK(rec, Running, now);
  }

  lemma CancelTask(t: Task)
    requires TaskOK(t) && t.rec.stoppable
    ensures TaskOK(t.(rec := CancelRun(t.rec).value))
  {
    assert StartedOK(t.rec.(stopped := true));
  }

  lemma OwnTaskStepOK(s: State, step: Step)
    requires Enabled(s, step) && !step.CloseManager? && !step.StopRoot? && !step.Start?
    requires TaskOK(s.tasks[step.id])
    ensures TaskOK(Apply(s, step).tasks[step.id])
  {
    var t := s.tasks[step.id];
    match step
    case Cancel(_) => CancelTask(t);
    case GiveUp(_, now) => FinishTask(t.rec, Cancelled, "", "", now, Gone);
    case Refuse(_, now) => FinishTask(t.rec, Cancelled, "", "", now, Releasing);
    case Begin(_, now) => BeginTask(t.rec, now);
    case Line(_, line, now) => LineTask(t, line, now);
    case Return(id, expired, result) => OutcomeLegal(expired, CtxDone(s, id), result);
    case Decide(_, now) => FinishTask(t.rec, t.pc.to, t.pc.output, t.pc.errText, now, Releasing);
    case _ =>
  }

  lemma TaskStepOK(s: State, step: Step, id: string)
    requires Inv(s) && Enabled(s, step) && id in Apply(s, step).tasks
    ensures TaskOK(Apply(s, step).tasks[id])
  {
    if step.CloseManager? || step.StopRoot? || step.id != id {
      OthersUntouched(s, step, id);
    } else if step.Start? {
      NewRunOK(step.id, step.client, step.now);
    } else {
      OwnTaskStepOK(s, step);
    }
  }

  /** The permit counter goes on counting the goroutines that hold one. */
  lemma PermitsCounted(s: State, step: Step)
    requires Inv(s) && Enabled(s, step)
    ensures Apply(s, step).permits == |Holders(Apply(s, step))| <= Apply(s, step).max
  {
    var s' := Apply(s, step);
    if step.CloseManager? || step.StopRoot? {
      assert Holders(s') == Holders(s);
    } else {
      HoldersAfterStep(s, step);
      if !step.Start? {
        PermitMove(s, step);
      }
      HolderCount(Holders(s), step.id);
    }
  }

  lemma HoldersAfterStep(s: State, step: Step)
    requires Enabled(s, step) && !step.CloseManager? && !step.StopRoot?
    ensures var t' := Apply(s, step).tasks[step.id];
      Holders(Apply(s, step)) == if Holds(t'.pc) then Holders(s) + {step.id} else Holders(s) - {step.id}
    ensures step.id in Holders(s) <==> step.id in s.tasks && Holds(s.tasks[step.id].pc)
  {
    var t' := Apply(s, step).tasks[step.id];
    HoldersAfterPut(s, step.id, t');
    assert Holders(Apply(s, step)) == Holders(Put(s, step.id, t'));
  }

  lemma HolderCount(holders: set<string>, id: string)
    ensures |holders + {id}| == |holders| + if id in holders then 0 else 1
    ensures |holders - {id}| == |holders| - if id in holders then 1 else 0
  {
    assert id in holders ==> holders + {id} == holders;
  }

  /** A goroutine comes to hold a permit exactly by Acquire, and to hold none by Release. */
  lemma PermitMove(s: State, step: Step)
    requires Enabled(s, step) && !step.CloseManager? && !step.StopRoot? && !step.Start?
    requires TaskOK(s.tasks[step.id])
    ensures var was, now := Holds(s.tasks[step.id].pc), Holds(Apply(s, step).tasks[step.id].pc);
      && (step.Acquire? ==> !was && now && Apply(s, step).permits == s.permits + 1)
      && (step.Release? ==> was && !now && Apply(s, step).permits == s.permits - 1)
      && (!step.Acquire? && !step.Release? ==> was == now && Apply(s, step).permits == s.permits)
  {
    if step.Return? {
      OutcomeLegal(step.expired, CtxDone(s, step.id), step.result);
    }
  }

  /** Every step keeps the invariant. */
  lemma StepKeepsInv(s: State, step: Step)
    requires Inv(s) && Enabled(s, step)
    ensures Inv(Apply(s, step))
  {
    forall id | id in Apply(s, step).tasks ensures TaskOK(Apply(s, step).tasks[id]) {
      TaskStepOK(s, step, id);
    }
    PermitsCounted(s, step);
  }

  // --------------------------------------------------------------------- all runs

  ghost predicate Execution(states: seq<State>, steps: seq<Step>) {
    && |states| == |steps| + 1
    && forall i :: 0 <= i < |steps| ==> Enabled(states[i], steps[i]) && states[i + 1] == Apply(states[i], steps[i])
  }

  /** In every state of every execution: running runs hold permits, permits are
      bounded, and each task is as its program counter says. */
  lemma {:induction false} AlwaysSafe(states: seq<State>, steps: seq<Step>, i: nat)
    requires Execution(states, steps) && Initial(states[0]) && i < |states|
    ensures Inv(states[i])
    ensures |RunningIds(states[i])| <= states[i].permits <= states[i].max == states[0].max
  {
    if i == 0 {
      InitialInv(states[0]);
    } else {
      AlwaysSafe(states, steps, i - 1);
      StepKeepsInv(states[i - 1], steps[i - 1]);
    }
    RunningBounded(states[i]);
  }

  lemma RunningBounded(s: State)
    requires Inv(s)
    ensures |RunningIds(s)| <= s.permits
  {
    forall id | id in RunningIds(s) ensures id in Holders(s) {
      assert TaskOK(s.tasks[id]);
    }
    assert Holders(s) == RunningIds(s) + (Holders(s) - RunningIds(s));
  }

  /** The done channel is closed exactly once, and exactly when the run is terminal. */
  lemma DoneExactlyWhenTerminal(s: State, id: string)
    requires Inv(s) && id in s.tasks
    ensures s.tasks[id].rec.doneCloses == if Terminal(s.tasks[id].rec.status) then 1 else 0
  {
    assert TaskOK(s.tasks[id]);
  }

  lemma TerminalStep(s: State, step: Step, id: string)
    requires Inv(s) && Enabled(s, step) && id in s.tasks && Terminal(s.tasks[id].rec.status)
    ensures id in Apply(s, step).tasks && Apply(s, step).tasks[id].rec == s.tasks[id].rec
  {
    assert TaskOK(s.tasks[id]);
    if step.CloseManager? || step.StopRoot? || step.id != id {
      OthersUntouched(s, step, id);
    } else if step.Cancel? {
      CancelFinishedIff(s.tasks[id].rec);
    }
  }

  /** A step never changes whether a known run has a stop function. */
  lemma StoppableStep(s: State, step: Step, id: string)
    requires Enabled(s, step)
    ensures id in s.tasks ==>
      id in Apply(s, step).tasks && Apply(s, step).tasks[id].rec.stoppable == s.tasks[id].rec.stoppable
    ensures id !in s.tasks && id in Apply(s, step).tasks ==> Apply(s, step).tasks[id].rec.stoppable
  {
  }

  lemma {:induction false} LoadedAreUnstoppable(states: seq<State>, steps: seq<Step>, i: nat, id: string)
    requires Execution(states, steps) && Initial(states[0]) && i < |states|
    ensures id in states[0].tasks ==> id in states[i].tasks
    ensures id in states[i].tasks ==> (states[i].tasks[id].rec.stoppable <==> id !in states[0].tasks)
  {
    if i > 0 {
      LoadedAreUnstoppable(states, steps, i - 1, id);
      StoppableStep(states[i - 1], steps[i - 1], id);
    }
  }

  /** In every execution, cancelling a finished run leaves it as it is if and only if
      this process started it; otherwise the run came from the store and the call
      panics. */
  lemma CancelNoOpIff(states: seq<State>, steps: seq<Step>, i: nat, id: string)
    requires Execution(states, steps) && Initial(states[0]) && i < |states|
    requires id in states[i].tasks && Terminal(states[i].tasks[id].rec.status)
    ensures CancelRun(states[i].tasks[id].rec) == Some(states[i].tasks[id].rec) <==> id !in states[0].tasks
    ensures CancelRun(states[i].tasks[id].rec).None? <==> id in states[0].tasks
  {
    AlwaysSafe(states, steps, i);
    assert TaskOK(states[i].tasks[id]);
    LoadedAreUnstoppable(states, steps, i, id);
    CancelFinishedIff(states[i].tasks[id].rec);
  }

  /** A terminal run keeps its status, journal, lines and outcome for ever. */
  lemma {:induction false} TerminalIsAbsorbing(states: seq<State>, steps: seq<Step>, i: nat, j: nat, id: string)
    requires Execution(states, steps) && Initial(states[0]) && i <= j < |states|
    requires id in states[i].tasks && Terminal(states[i].tasks[id].rec.status)
    ensures id in states[j].tasks && states[j].tasks[id].rec == states[i].tasks[id].rec
    decreases j - i
  {
    if i < j {
      AlwaysSafe(states, steps, i);
      TerminalStep(states[i], steps[i], id);
      TerminalIsAbsorbing(states, steps, i + 1, j, id);
    }
  }

  /** Whatever ends a run decides for good how it ended. */
  lemma EndIsKept(states: seq<State>, steps: seq<Step>, i: nat, j: nat, id: string)
    requires Execution(states, steps) && Initial(states[0]) && i < j < |states| && EndsRun(steps[i], id)
    ensures id in states[i].tasks && id in states[j].tasks
    ensures var t, end := states[i].tasks[id], states[j].tasks[id].rec;
      if steps[i].Decide? then
        t.pc.Deciding? && EndedAs(t.rec, end, t.pc.to, t.pc.output, t.pc.errText, steps[i].now)
      else EndedAs(t.rec, end, Cancelled, "", "", steps[i].now)
  {
    var t := states[i].tasks[id];
    AlwaysSafe(states, steps, i);
    assert TaskOK(t);
    EndOfStep(states[i], steps[i], id);
    TerminalIsAbsorbing(states, steps, i + 1, j, id);
  }

  predicate EndsRun(step: Step, id: string) {
    (step.Decide? || step.GiveUp? || step.Refuse?) && step.id == id
  }

  lemma EndOfStep(s: State, step: Step, id: string)
    requires Enabled(s, step) && EndsRun(step, id) && TaskOK(s.tasks[id])
    ensures id in Apply(s, step).tasks
    ensures var t, end := s.tasks[id], Apply(s, step).tasks[id].rec;
      if step.Decide? then EndedAs(t.rec, end, t.pc.to, t.pc.output, t.pc.errText, step.now)
      else EndedAs(t.rec, end, Cancelled, "", "", step.now)
  {
    var t := s.tasks[id];
    if step.Decide? {
      FinishedMeaning(t.rec, t.pc.to, t.pc.output, t.pc.errText, step.now);
    } else {
      FinishedMeaning(t.rec, Cancelled, "", "", step.now);
    }
  }

  /** A goroutine that is deciding goes on to release its permit, and that is all. */
  lemma PcStep(s: State, step: Step, id: string)
    requires Enabled(s, step) && id in s.tasks
    ensures id in Apply(s, step).tasks
    ensures var was, now := s.tasks[id].pc, Apply(s, step).tasks[id].pc;
      && (was.Deciding? ==> now == was || now == Releasing)
      && (was == Releasing || was == Gone ==> now == was || now == Gone)
  {
  }

  /** What every step keeps is kept over any stretch of an execution. */
  lemma {:induction false} Persists(kept: State -> bool, states: seq<State>, i: nat, j: nat)
    requires i <= j < |states| && kept(states[i])
    requires forall m :: i <= m < j && kept(states[m]) ==> kept(states[m + 1])
    ensures kept(states[j])
    decreases j - i
  {
    if i < j {
      Persists(kept, states, i + 1, j);
    }
  }

  /** The run has decided as `pc` says, or has gone on from there. */
  predicate Decided(s: State, id: string, pc: Pc) {
    id in s.tasks && (s.tasks[id].pc == pc || s.tasks[id].pc == Releasing || s.tasks[id].pc == Gone)
  }

  lemma DecisionIsKept(states: seq<State>, steps: seq<Step>, i: nat, k: nat, id: string)
    requires Execution(states, steps) && i <= k < |states| && id in states[i].tasks && states[i].tasks[id].pc.Deciding?
    ensures Decided(states[k], id, states[i].tasks[id].pc)
  {
    var pc := states[i].tasks[id].pc;
    forall m | i <= m < k && Decided(states[m], id, pc) ensures Decided(states[m + 1], id, pc) {
      PcStep(states[m], steps[m], id);
    }
    Persists((s: State) => Decided(s, id, pc), states, i, k);
  }

  /** A run that came back from its executor ends as that return decides, whatever
      happens in between: with its output, and timed out, cancelled, failed or as the
      harness reported. */
  lemma ReturnDecides(states: seq<State>, steps: seq<Step>, i: nat, k: nat, j: nat, id: string)
    requires Execution(states, steps) && Initial(states[0]) && i < k < j < |states|
    requires steps[i].Return? && steps[i].id == id && steps[k].Decide? && steps[k].id == id
    ensures id in states[i].tasks && id in states[j].tasks
    ensures var rec := states[j].tasks[id].rec;
      && OutcomeIs(steps[i].expired, CtxDone(states[i], id), steps[i].result,
                   Deciding(rec.status, rec.output, rec.errText))
      && rec.finishedAt == Some(steps[k].now)
  {
    OutcomeLegal(steps[i].expired, CtxDone(states[i], id), steps[i].result);
    DecisionIsKept(states, steps, i + 1, k, id);
    EndIsKept(states, steps, k, j, id);
  }

  /** A cancelled run that has not passed its last look at its context. */
  ghost predicate HeldBack(s: State, id: string) {
    id in s.tasks
    && var t := s.tasks[id];
      && CtxDone(s, id) && Running !in t.rec.path
      && (t.pc == Waiting || t.pc == Acquired || ((t.pc == Releasing || t.pc == Gone) && t.rec.status == Cancelled))
  }

  predicate Stopped(s: State, id: string) {
    id in s.tasks && CtxDone(s, id)
  }

  lemma StopIsKept(s: State, step: Step, id: string)
    requires Enabled(s, step) && id in s.tasks && CtxDone(s, id)
    ensures id in Apply(s, step).tasks && CtxDone(Apply(s, step), id)
  {
  }

  lemma RunningBegins(s: State, step: Step, id: string)
    requires Enabled(s, step) && id in s.tasks && TaskOK(s.tasks[id])
    requires step.Begin? ==> step.id != id
    requires Running !in s.tasks[id].rec.path
    ensures id in Apply(s, step).tasks && Running !in Apply(s, step).tasks[id].rec.path
  {
    var t := s.tasks[id];
    assert StartedOK(t.rec) ==> t.rec.status == t.rec.path[|t.rec.path| - 1];
  }

  lemma HeldBackStep(s: State, step: Step, id: string)
    requires Inv(s) && Enabled(s, step) && HeldBack(s, id)
    ensures HeldBack(Apply(s, step), id)
  {
    var t := s.tasks[id];
    assert TaskOK(t);
    StopIsKept(s, step, id);
    RunningBegins(s, step, id);
    if Terminal(t.rec.status) {
      TerminalStep(s, step, id);
      PcStep(s, step, id);
    } else {
      HeldBackEnds(s, step, id);
    }
  }

  lemma HeldBackEnds(s: State, step: Step, id: string)
    requires Enabled(s, step) && HeldBack(s, id) && TaskOK(s.tasks[id]) && !Terminal(s.tasks[id].rec.status)
    ensures id in Apply(s, step).tasks
    ensures var t := Apply(s, step).tasks[id];
      t.pc == Waiting || t.pc == Acquired || ((t.pc == Releasing || t.pc == Gone) && t.rec.status == Cancelled)
  {
    if EndsRun(step, id) {
      EndOfStep(s, step, id);
    }
  }

  lemma CancelStops(s: State, step: Step)
    requires Enabled(s, step) && step.Cancel?
    ensures CtxDone(Apply(s, step), step.id)
    ensures Apply(s, step).tasks[step.id] == s.tasks[step.id].(rec := s.tasks[step.id].rec.(stopped := true))
  {
  }

  lemma StaysHeldBack(states: seq<State>, steps: seq<Step>, i: nat, j: nat, id: string)
    requires Execution(states, steps) && Initial(states[0]) && i <= j < |states| && HeldBack(states[i], id)
    ensures HeldBack(states[j], id)
  {
    forall m | i <= m < j && HeldBack(states[m], id) ensures HeldBack(states[m + 1], id) {
      AlwaysSafe(states, steps, m);
      HeldBackStep(states[m], steps[m], id);
    }
    Persists((s: State) => HeldBack(s, id), states, i, j);
  }

  lemma StaysStopped(states: seq<State>, steps: seq<Step>, i: nat, j: nat, id: string)
    requires Execution(states, steps) && i <= j < |states| && Stopped(states[i], id)
    ensures Stopped(states[j], id)
  {
    forall m | i <= m < j && Stopped(states[m], id) ensures Stopped(states[m + 1], id) {
      StopIsKept(states[m], steps[m], id);
    }
    Persists((s: State) => Stopped(s, id), states, i, j);
  }

  /** A run cancelled while it waits for its turn never reaches the executor, and once
      it is over it is cancelled. */
  lemma CancelledNeverRuns(states: seq<State>, steps: seq<Step>, i: nat, j: nat, id: string)
    requires Execution(states, steps) && Initial(states[0]) && i < j < |states| && steps[i] == Cancel(id)
    requires states[i].tasks[id].pc == Waiting || states[i].tasks[id].pc == Acquired
    ensures id in states[j].tasks && Running !in states[j].tasks[id].rec.path
    ensures Terminal(states[j].tasks[id].rec.status) ==> states[j].tasks[id].rec.status == Cancelled
  {
    AlwaysSafe(states, steps, i);
    QueuedPath(states[i].tasks[id]);
    CancelStops(states[i], steps[i]);
    StaysHeldBack(states, steps, i + 1, j, id);
    AlwaysSafe(states, steps, j);
    assert TaskOK(states[j].tasks[id]);
  }

  lemma QueuedPath(t: Task)
    requires TaskOK(t) && StartedOK(t.rec) && t.rec.status == Queued
    ensures Running !in t.rec.path
  {
    PathShape(t.rec.path);
  }

  /** A run cancelled before it returns from its executor ends cancelled, unless its
      time had run out. */
  lemma CancelWins(states: seq<State>, steps: seq<Step>, i: nat, k: nat, m: nat, j: nat, id: string)
    requires Execution(states, steps) && Initial(states[0]) && i < k < m < j < |states|
    requires steps[i] == Cancel(id) && steps[k].Return? && steps[k].id == id && steps[m].Decide? && steps[m].id == id
    ensures id in states[j].tasks
    ensures states[j].tasks[id].rec.status == if steps[k].expired then Timeout else Cancelled
  {
    CancelStops(states[i], steps[i]);
    StaysStopped(states, steps, i + 1, k, id);
    ReturnDecides(states, steps, k, m, j, id);
  }

  /** What starting a run, beginning it and a line from its harness do to its record. */
  lemma StepAdds(s: State, step: Step)
    requires Enabled(s, step)
    ensures step.Start? ==>
      step.id !in s.tasks && !s.closed && step.id in Apply(s, step).tasks
      && var rec := Apply(s, step).tasks[step.id].rec;
        && rec.id == step.id && rec.client == step.client && rec.status == Queued && rec.lines == []
        && rec.journal == [RunEvent(step.id, 1, step.now, "codebridge", "run.queued", "")]
    ensures step.Begin? && s.tasks[step.id].rec.status == Queued ==>
      Began(s.tasks[step.id].rec, Apply(s, step).tasks[step.id].rec, step.now)
    ensures step.Line? ==>
      var was, now := s.tasks[step.id].rec, Apply(s, step).tasks[step.id].rec;
      if Terminal(was.status) then now == was
      else now.lines == was.lines + [step.line] && |now.journal| == |was.journal| + 1
  {
    if step.Start? {
      NewRunOK(step.id, step.client, step.now);
    } else if step.Begin? {
      BeginAdds(s, step);
    }
  }

  lemma BeginAdds(s: State, step: Step)
    requires Enabled(s, step) && step.Begin?
    ensures s.tasks[step.id].rec.status == Queued ==>
      Began(s.tasks[step.id].rec, Apply(s, step).tasks[step.id].rec, step.now)
  {
    if s.tasks[step.id].rec.status == Queued {
      MovedFields(s.tasks[step.id].rec, Running, step.now);
    }
  }

  /** The past of a run: who it is, its lines, its journal and when it started. */
  ghost predicate Continues(was: Record, now: Record) {
    && now.id == was.id && now.client == was.client
    && was.lines <= now.lines && was.journal <= now.journal
    && (was.startedAt.Some? ==> now.startedAt == was.startedAt)
  }

  lemma FinishedContinues(r: Record, to: Status, output: string, errText: string, now: int)
    requires Terminal(to)
    ensures Continues(r, Finished(r, to, output, errText, now))
  {
    FinishedMeaning(r, to, output, errText, now);
  }

  lemma BeginContinues(r: Record, now: int)
    requires StartedOK(r) && r.status == Queued
    ensures Continues(r, Moved(r, Running, now))
  {
    MovedFields(r, Running, now);
    PathShape(r.path);
  }

  lemma LineContinues(r: Record, line: string, now: int)
    ensures Continues(r, Recorded(r, line, now))
  {
  }

  lemma OwnStepContinues(s: State, step: Step)
    requires Enabled(s, step) && !step.CloseManager? && !step.StopRoot? && !step.Start?
    requires TaskOK(s.tasks[step.id])
    ensures step.id in Apply(s, step).tasks && Continues(s.tasks[step.id].rec, Apply(s, step).tasks[step.id].rec)
  {
    var t := s.tasks[step.id];
    match step
    case GiveUp(_, now) => FinishedContinues(t.rec, Cancelled, "", "", now);
    case Refuse(_, now) => FinishedContinues(t.rec, Cancelled, "", "", now);
    case Begin(_, now) => BeginContinues(t.rec, now);
    case Line(_, line, now) => LineContinues(t.rec, line, now);
    case Decide(_, now) => FinishedContinues(t.rec, t.pc.to, t.pc.output, t.pc.errText, now);
    case _ =>
  }

  lemma StepContinues(s: State, step: Step, id: string)
    requires Inv(s) && Enabled(s, step) && id in s.tasks
    ensures id in Apply(s, step).tasks && Continues(s.tasks[id].rec, Apply(s, step).tasks[id].rec)
  {
    assert TaskOK(s.tasks[id]);
    if step.CloseManager? || step.StopRoot? || step.id != id {
      OthersUntouched(s, step, id);
    } else {
      OwnStepContinues(s, step);
    }
  }

  ghost predicate ContinuesIn(rec: Record, s: State, id: string) {
    id in s.tasks && Continues(rec, s.tasks[id].rec)
  }

  /** Whatever happens, no run ever loses a line or an event, or changes them. */
  lemma HistoryIsKept(states: seq<State>, steps: seq<Step>, i: nat, j: nat, id: string)
    requires Execution(states, steps) && Initial(states[0]) && i <= j < |states| && id in states[i].tasks
    ensures id in states[j].tasks && Continues(states[i].tasks[id].rec, states[j].tasks[id].rec)
  {
    var rec := states[i].tasks[id].rec;
    forall m | i <= m < j && ContinuesIn(rec, states[m], id) ensures ContinuesIn(rec, states[m + 1], id) {
      AlwaysSafe(states, steps, m);
      StepContinues(states[m], steps[m], id);
    }
    Persists((s: State) => ContinuesIn(rec, s, id), states, i, j);
  }

  lemma FlagsStay(s: State, step: Step)
    requires Enabled(s, step)
    ensures s.closed ==> Apply(s, step).closed && Apply(s, step).tasks.Keys == s.tasks.Keys
    ensures s.rootStopped ==> Apply(s, step).rootStopped
    ensures step.CloseManager? ==> Apply(s, step).closed && Apply(s, step).tasks == s.tasks
    ensures step.StopRoot? ==> Apply(s, step).rootStopped && Apply(s, step).tasks == s.tasks
  {
  }

  ghost predicate ClosedWith(s: State, ids: set<string>) {
    s.closed && s.tasks.Keys == ids
  }

  /** Once the manager is closed no run is accepted. */
  lemma CloseIsFinal(states: seq<State>, steps: seq<Step>, i: nat, j: nat)
    requires Execution(states, steps) && i < j < |states| && steps[i] == CloseManager
    ensures states[j].tasks.Keys == states[i].tasks.Keys
    ensures forall id, client, now :: !Enabled(states[j], Start(id, client, now))
  {
    var ids := states[i].tasks.Keys;
    FlagsStay(states[i], steps[i]);
    forall m | i + 1 <= m < j && ClosedWith(states[m], ids) ensures ClosedWith(states[m + 1], ids) {
      FlagsStay(states[m], steps[m]);
    }
    Persists((s: State) => ClosedWith(s, ids), states, i + 1, j);
  }

  /** Once its root context is cancelled, every run sees its own as cancelled and none
      goes on to its executor. */
  lemma ShutdownReachesAll(states: seq<State>, steps: seq<Step>, i: nat, j: nat, id: string)
    requires Execution(states, steps) && i < j < |states| && steps[i] == StopRoot && id in states[j].tasks
    ensures CtxDone(states[j], id) && !Enabled(states[j], Pass(id))
  {
    FlagsStay(states[i], steps[i]);
    forall m | i + 1 <= m < j && states[m].rootStopped ensures states[m + 1].rootStopped {
      FlagsStay(states[m], steps[m]);
    }
    Persists((s: State) => s.rootStopped, states, i + 1, j);
  }

  /** The run goroutine never takes the "illegal transition" branch: whenever it
      finishes a run the transition asked for is legal, and starting one succeeds. */
  lemma NoIllegalTransition(s: State, step: Step)
    requires Inv(s) && Enabled(s, step)
    ensures step.GiveUp? || step.Refuse? ==> CanTransition(s.tasks[step.id].rec.status, Cancelled)
    ensures step.Begin? ==> CanTransition(s.tasks[step.id].rec.status, Running)
    ensures step.Decide? ==> CanTransition(s.tasks[step.id].rec.status, s.tasks[step.id].pc.to)
  {
    if step.GiveUp? || step.Refuse? || step.Begin? || step.Decide? {
      assert TaskOK(s.tasks[step.id]);
    }
  }

  /** Status changes follow the transition table along every step. */
  lemma StatusFollowsTable(s: State, step: Step, id: string)
    requires Inv(s) && Enabled(s, step) && id in s.tasks
    ensures var was, now := s.tasks[id].rec.status, Apply(s, step).tasks[id].rec.status;
      now == was || CanTransition(was, now)
  {
    assert TaskOK(s.tasks[id]);
    if step.CloseManager? || step.StopRoot? || step.id != id {
      OthersUntouched(s, step, id);
    } else {
      NoIllegalTransition(s, step);
    }
  }

  // --------------------------------------------------------------- nothing is stuck

  function Rank(pc: Pc): nat {
    match pc
    case Waiting => 6
    case Acquired => 5
    case Passed => 4
    case Executing => 3
    case Deciding(_, _, _) => 2
    case Releasing => 1
    case Gone => 0
  }

  /** A step the goroutine of `id` can take next, once a permit is free for it. */
  function NextStep(s: State, id: string): Step
    requires id in s.tasks
  {
    match s.tasks[id].pc
    case Waiting => if CtxDone(s, id) then GiveUp(id, 0) else Acquire(id)
    case Acquired => if CtxDone(s, id) then Refuse(id, 0) else Pass(id)
    case Passed => Begin(id, 0)
    case Executing => Return(id, false, Reported("", ""))
    case Deciding(_, _, _) => Decide(id, 0)
    case Releasing => Release(id)
    case Gone => StopRoot
  }

  ghost function Unfinished(s: State): set<string> {
    set id | id in s.tasks && s.tasks[id].pc != Gone
  }

  /** Some unfinished run can always take a step, so the scheduler never deadlocks. */
  lemma SomeoneCanStep(s: State) returns (id: string)
    requires Inv(s) && 1 <= s.max && Unfinished(s) != {}
    ensures id in Unfinished(s) && Enabled(s, NextStep(s, id))
  {
    if Holders(s) != {} {
      id :| id in Holders(s);
    } else {
      assert s.permits == 0;
      id :| id in Unfinished(s);
    }
    assert TaskOK(s.tasks[id]);
    assert Holds(s.tasks[id].pc) ==> id in Holders(s);
  }

  /** Each such step brings its goroutine nearer to the end and touches no other. */
  lemma NextStepProgress(s: State, id: string)
    requires Inv(s) && id in Unfinished(s) && Enabled(s, NextStep(s, id))
    ensures var s' := Apply(s, NextStep(s, id));
      && s'.max == s.max
      && s'.tasks.Keys == s.tasks.Keys
      && Rank(s'.tasks[id].pc) < Rank(s.tasks[id].pc)
      && forall other :: other in s.tasks && other != id ==> s'.tasks[other] == s.tasks[other]
  {
    var step := NextStep(s, id);
    RankDrops(s, id);
    KeysKept(s, step);
    forall other | other in s.tasks && other != id
      ensures Apply(s, step).tasks[other] == s.tasks[other]
    {
      OthersUntouched(s, step, other);
    }
  }

  lemma KeysKept(s: State, step: Step)
    requires Enabled(s, step) && !step.Start?
    ensures Apply(s, step).tasks.Keys == s.tasks.Keys && Apply(s, step).max == s.max
  {
  }

  lemma RankDrops(s: State, id: string)
    requires id in s.tasks && TaskOK(s.tasks[id]) && s.tasks[id].pc != Gone && Enabled(s, NextStep(s, id))
    ensures Rank(Apply(s, NextStep(s, id)).tasks[id].pc) < Rank(s.tasks[id].pc)
  {
    match s.tasks[id].pc
    case Executing => OutcomeLegal(false, CtxDone(s, id), NextStep(s, id).result);
    case _ =>
  }

  ghost predicate Reaches(s: State, s': State, steps: seq<Step>)
    decreases |steps|
  {
    if steps == [] then s' == s
    else Enabled(s, steps[0]) && Reaches(Apply(s, steps[0]), s', steps[1..])
  }

  ghost function TotalRank(s: State, ids: set<string>): nat
    requires ids <= s.tasks.Keys
  {
    if ids == {} then 0 else
      var id :| id in ids;
      Rank(s.tasks[id].pc) + TotalRank(s, ids - {id})
  }

  lemma {:induction false} TotalRankPick(s: State, ids: set<string>, id: string)
    requires ids <= s.tasks.Keys && id in ids
    ensures TotalRank(s, ids) == Rank(s.tasks[id].pc) + TotalRank(s, ids - {id})
    decreases ids
  {
    var first :| first in ids && TotalRank(s, ids) == Rank(s.tasks[first].pc) + TotalRank(s, ids - {first});
    if first != id {
      TotalRankPick(s, ids - {first}, id);
      TotalRankPick(s, ids - {id}, first);
      assert ids - {first} - {id} == ids - {id} - {first};
    }
  }

  lemma {:induction false} TotalRankSame(s: State, s': State, ids: set<string>)
    requires ids <= s.tasks.Keys && ids <= s'.tasks.Keys
    requires forall id :: id in ids ==> s'.tasks[id].pc == s.tasks[id].pc
    ensures TotalRank(s', ids) == TotalRank(s, ids)
    decreases ids
  {
    if ids != {} {
      var id :| id in ids;
      TotalRankPick(s, ids, id);
      TotalRankPick(s', ids, id);
      TotalRankSame(s, s', ids - {id});
    }
  }

  lemma TotalRankDrops(s: State, id: string)
    requires Inv(s) && id in Unfinished(s) && Enabled(s, NextStep(s, id))
    ensures var s' := Apply(s, NextStep(s, id));
      && s'.max == s.max && s'.tasks.Keys == s.tasks.Keys
      && TotalRank(s', s'.tasks.Keys) < TotalRank(s, s.tasks.Keys)
  {
    var s' := Apply(s, NextStep(s, id));
    NextStepProgress(s, id);
    TotalRankPick(s, s.tasks.Keys, id);
    TotalRankPick(s', s.tasks.Keys, id);
    TotalRankSame(s, s', s.tasks.Keys - {id});
  }

  /** From every reachable state the goroutines can run to the end: every run ends
      terminal and every permit taken has been returned. */
  lemma {:induction false} Quiesces(s: State) returns (steps: seq<Step>, s': State)
    requires Inv(s) && 1 <= s.max
    ensures Reaches(s, s', steps) && Inv(s')
    ensures s'.tasks.Keys == s.tasks.Keys && s'.permits == 0
    ensures forall id :: id in s'.tasks ==> s'.tasks[id].pc == Gone && Terminal(s'.tasks[id].rec.status)
    decreases TotalRank(s, s.tasks.Keys)
  {
    if Unfinished(s) == {} {
      steps, s' := [], s;
      assert Holders(s) == {};
      forall id | id in s.tasks ensures s.tasks[id].pc == Gone && Terminal(s.tasks[id].rec.status) {
        assert id !in Unfinished(s);
        assert TaskOK(s.tasks[id]);
      }
    } else {
      var id := SomeoneCanStep(s);
      var step := NextStep(s, id);
      var s1 := Apply(s, step);
      StepKeepsInv(s, step);
      TotalRankDrops(s, id);
      steps, s' := Quiesces(s1);
      assert ([step] + steps)[1..] == steps;
      steps := [step] + steps;
    }
  }
}
