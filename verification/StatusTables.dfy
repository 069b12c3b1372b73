/** The run statuses of the V1 run manager (internal/agentops/run_manager.go) and of the V2
    runtime store (internal/runtime/transitions.go): V2 says it keeps V1's state machine
    unchanged. */
module StatusTables {
  import V1 = RunRecords
  import V2 = RuntimeStore
  import RunStore

  /** V2 knows exactly the words V1 stores, and the same of them are terminal. */
  lemma SameStatuses(word: string)
    ensures V2.Valid(word) <==> exists s :: RunStore.Word(s) == word
    ensures forall s :: RunStore.Word(s) == word ==> (V2.Terminal(word) <==> V1.Terminal(s))
  {
    assert RunStore.Word(V1.Queued) == "queued" && RunStore.Word(V1.Running) == "running";
    assert RunStore.Word(V1.Completed) == "completed" && RunStore.Word(V1.Failed) == "failed";
    assert RunStore.Word(V1.Cancelled) == "cancelled" && RunStore.Word(V1.Timeout) == "timeout";
    assert RunStore.Word(V1.Interrupted) == "interrupted";
  }

  /** Every legal V2 move is a legal V1 move between the statuses of those words, and the
      other way round. */
  lemma SameTable(from: V1.Status, to: V1.Status)
    ensures V2.CanTransition(RunStore.Word(from), RunStore.Word(to)) <==> V1.CanTransition(from, to)
  {
    var a, b := RunStore.Word(from), RunStore.Word(to);
    V2.TerminalHasNoSuccessor(a, b);
    SameStatuses(a);
    SameStatuses(b);
  }

  /** Both machines: a queued run starts or is cancelled, a running one ends, and nothing
      else happens. */
  lemma LegalMoves(from: V1.Status, to: V1.Status)
    ensures V1.CanTransition(from, to) <==>
      (from == V1.Queued && (to == V1.Running || to == V1.Cancelled)) || (from == V1.Running && V1.Terminal(to))
  {
  }
}
