/** One managed run (internal/agentops/run_manager.go, run_events.go): its status
    machine, its journal, and the two ring buffers that keep the recent past. */
module RunRecords {
  import opened Wire
  import P = Paging

  datatype Status = Queued | Running | Completed | Failed | Cancelled | Timeout | Interrupted

  predicate Terminal(s: Status) {
    s != Queued && s != Running
  }

  predicate CanTransition(from: Status, to: Status) {
    match from
    case Queued => to == Running || to == Cancelled
    case Running => to == Completed || to == Failed || to == Cancelled || to == Timeout || to == Interrupted
    case _ => false
  }

  function StatusKind(s: Status): string {
    match s
    case Queued => "run.queued"
    case Running => "run.started"
    case Completed => "run.completed"
    case Failed => "run.failed"
    case Cancelled => "run.cancelled"
    case Timeout => "run.timeout"
    case Interrupted => "run.interrupted"
  }

  const RAW_KIND := "harness.raw"
  const OWN_SOURCE := "codebridge"

  /** Everything that ever happened to a run. `path` is its status history, `lines`
      every harness line recorded, `journal` every event appended since the record
      was made, above the `base` events a stored run brings along. `doneCloses`
      counts closings of the done channel, `stopped` says its context was cancelled,
      and `stoppable` is false for a run loaded from the store, which has no context. */
  datatype Record = Record(
    id: string, client: string, status: Status, path: seq<Status>,
    lines: seq<string>, base: nat, journal: seq<RunEvent>,
    startedAt: Option<int>, finishedAt: Option<int>, output: string, errText: string,
    doneCloses: nat, stopped: bool, stoppable: bool)

  // ------------------------------------------------------------------ operations

  function Entry(r: Record, now: int, source: string, kind: string, payload: string): RunEvent {
    RunEvent(r.id, r.base + |r.journal| + 1, now, if source == "" then OWN_SOURCE else source, kind, payload)
  }

  function AppendEntry(r: Record, now: int, source: string, kind: string, payload: string): Record {
    r.(journal := r.journal + [Entry(r, now, source, kind, payload)])
  }

  function NewRun(id: string, client: string, now: int): Record {
    AppendEntry(
      Record(id, client, Queued, [Queued], [], 0, [], None, None, "", "", 0, false, true),
      now, OWN_SOURCE, StatusKind(Queued), "")
  }

  /** A row as the store reads it back. */
  datatype Snapshot = Snapshot(
    id: string, client: string, status: Status, startedAt: Option<int>, finishedAt: Option<int>,
    output: string, errText: string)

  /** A run rebuilt from a row; its done channel is closed on creation. */
  function LoadedRun(snap: Snapshot, lastSeq: nat): Record {
    var status := if Terminal(snap.status) then snap.status else Interrupted;
    Record(snap.id, snap.client, status, [status], [], lastSeq, [],
           snap.startedAt, snap.finishedAt, snap.output, snap.errText, 1, false, false)
  }

  /** The fields a status change sets, before it is journaled. */
  function Stamped(r: Record, to: Status, now: int): Record {
    if to == Running then
      r.(status := to, path := r.path + [to], startedAt := Some(now))
    else
      r.(status := to, path := r.path + [to], finishedAt := Some(now), doneCloses := r.doneCloses + 1)
  }

  function Moved(r: Record, to: Status, now: int): Record {
    if !CanTransition(r.status, to) then r
    else AppendEntry(Stamped(r, to, now), now, OWN_SOURCE, StatusKind(to), "")
  }

  function Finished(r: Record, status: Status, output: string, errText: string, now: int): Record {
    if Terminal(r.status) then r
    else
      var to := if CanTransition(r.status, status) then status else Cancelled;
      if !CanTransition(r.status, to) then r
      else Moved(r.(output := output, errText := errText), to, now).(stopped := true)
  }

  function Recorded(r: Record, line: string, now: int): Record {
    if Terminal(r.status) then r
    else AppendEntry(r.(lines := r.lines + [line]), now, r.client, RAW_KIND, line)
  }

  /** Cancelling calls the run's stop function; a loaded run has none, so the call
      panics, shown as None. */
  function CancelRun(r: Record): Option<Record> {
    if r.stoppable then Some(r.(stopped := true)) else None
  }

  // ------------------------------------------------------------------- invariant

  ghost predicate IsPath(path: seq<Status>) {
    && path != [] && path[0] == Queued
    && forall i :: 0 <= i < |path| - 1 ==> CanTransition(path[i], path[i + 1])
  }

  /** The lifecycle events of a journal, and the payloads of the others. */
  function Lifecycle(journal: seq<RunEvent>): seq<string> {
    if journal == [] then []
    else
      var last := journal[|journal| - 1];
      Lifecycle(journal[..|journal| - 1]) + if last.kind == RAW_KIND then [] else [last.kind]
  }

  function RawLines(journal: seq<RunEvent>): seq<string> {
    if journal == [] then []
    else
      var last := journal[|journal| - 1];
      RawLines(journal[..|journal| - 1]) + if last.kind == RAW_KIND then [last.payload] else []
  }

  function Kinds(path: seq<Status>): seq<string> {
    seq(|path|, i requires 0 <= i < |path| => StatusKind(path[i]))
  }

  /** What holds of a run started in this process after any operations: contiguous
      numbering from 1, a journal whose lifecycle events spell the status history
      and whose other events are the recorded lines, one closing of the done channel
      exactly when terminal, and a terminal event that nothing follows. */
  ghost predicate StartedOK(r: Record) {
    && r.stoppable && r.base == 0
    && IsPath(r.path) && r.path[|r.path| - 1] == r.status
    && (forall i :: 0 <= i < |r.journal| ==> r.journal[i].seqNo == i + 1 && r.journal[i].runID == r.id)
    && Lifecycle(r.journal) == Kinds(r.path)
    && RawLines(r.journal) == r.lines
    && |r.journal| == |r.lines| + |r.path|
    && r.doneCloses == (if Terminal(r.status) then 1 else 0)
    && (r.finishedAt.Some? <==> Terminal(r.status))
    && (r.startedAt.Some? <==> Running in r.path)
    && (Terminal(r.status) ==> r.stopped && r.journal[|r.journal| - 1].kind == StatusKind(r.status))
  }

  ghost predicate LoadedOK(r: Record) {
    && !r.stoppable && Terminal(r.status) && r.journal == [] && r.lines == [] && r.doneCloses == 1
  }

  ghost predicate RecordOK(r: Record) {
    StartedOK(r) || LoadedOK(r)
  }

  lemma AppendShape(r: Record, now: int, source: string, kind: string, payload: string)
    ensures var j := AppendEntry(r, now, source, kind, payload).journal;
      && Lifecycle(j) == Lifecycle(r.journal) + (if kind == RAW_KIND then [] else [kind])
      && RawLines(j) == RawLines(r.journal) + (if kind == RAW_KIND then [payload] else [])
  {
    var j := AppendEntry(r, now, source, kind, payload).journal;
    assert j[..|j| - 1] == r.journal;
  }

  lemma NewRunOK(id: string, client: string, now: int)
    ensures StartedOK(NewRun(id, client, now))
    ensures var r := NewRun(id, client, now);
      && r.id == id && r.client == client && r.status == Queued && r.lines == [] && !r.stopped
      && r.journal == [RunEvent(id, 1, now, "codebridge", "run.queued", "")]
      && r.startedAt == None && r.finishedAt == None && r.output == "" && r.errText == ""
  {
    var r0 := Record(id, client, Queued, [Queued], [], 0, [], None, None, "", "", 0, false, true);
    AppendShape(r0, now, OWN_SOURCE, StatusKind(Queued), "");
    assert Lifecycle(NewRun(id, client, now).journal) == Kinds([Queued]);
  }

  lemma KindsAppend(path: seq<Status>, to: Status)
    ensures Kinds(path + [to]) == Kinds(path) + [StatusKind(to)]
  {
  }

  /** The run went from the queue to work: it notes the time and journals the start. */
  ghost predicate Began(r: Record, r': Record, now: int) {
    && r'.status == Running && r'.startedAt == Some(now)
    && r'.journal == r.journal + [RunEvent(r.id, r.base + |r.journal| + 1, now, "codebridge", "run.started", "")]
    && r' == r.(status := Running, path := r'.path, startedAt := Some(now), journal := r'.journal)
  }

  /** The run ended with this status and outcome: it notes the time, journals its end
      and closes its done channel; the rest stays as it was. */
  ghost predicate EndedAs(r: Record, r': Record, to: Status, output: string, errText: string, now: int) {
    && r'.status == to && r'.output == output && r'.errText == errText && r'.finishedAt == Some(now)
    && r'.journal == r.journal + [RunEvent(r.id, r.base + |r.journal| + 1, now, "codebridge", StatusKind(to), "")]
    && r'.doneCloses == r.doneCloses + 1 && r'.stopped
    && r'.id == r.id && r'.client == r.client && r'.lines == r.lines && r'.startedAt == r.startedAt
  }

  lemma PathGrows(path: seq<Status>, to: Status)
    requires IsPath(path) && CanTransition(path[|path| - 1], to)
    ensures IsPath(path + [to]) && (path + [to])[|path|] == to
    ensures to == Running ==> Running !in path
    ensures forall s :: s in path + [to] <==> s in path || s == to
  {
    PathShape(path);
  }

  lemma MovedOK(r: Record, to: Status, now: int)
    requires StartedOK(r) && CanTransition(r.status, to)
    ensures StartedOK(Moved(r, to, now).(stopped := r.stopped || Terminal(to)))
    ensures to == Running ==> StartedOK(Moved(r, to, now))
  {
    var r' := Moved(r, to, now);
    AppendShape(Stamped(r, to, now), now, OWN_SOURCE, StatusKind(to), "");
    KindsAppend(r.path, to);
    PathGrows(r.path, to);
  }

  lemma MovedFields(r: Record, to: Status, now: int)
    requires CanTransition(r.status, to)
    ensures to == Running ==> Began(r, Moved(r, to, now), now)
    ensures to != Running ==> EndedAs(r, Moved(r, to, now).(stopped := true), to, r.output, r.errText, now)
  {
  }

  /** A run is queued, or has left the queue once, or has also finished running. */
  lemma PathShape(path: seq<Status>)
    requires IsPath(path)
    ensures |path| <= 3
    ensures |path| == 1 ==> path == [Queued]
    ensures |path| == 2 ==> path[1] == Running || path[1] == Cancelled
    ensures |path| == 3 ==> path[1] == Running && Terminal(path[2])
  {
    assert |path| >= 2 ==> CanTransition(path[0], path[1]);
    assert |path| >= 3 ==> CanTransition(path[1], path[2]);
    assert |path| >= 4 ==> CanTransition(path[2], path[3]);
  }

  lemma FinishedOK(r: Record, status: Status, output: string, errText: string, now: int)
    requires RecordOK(r)
    ensures RecordOK(Finished(r, status, output, errText, now))
    ensures StartedOK(r) ==> StartedOK(Finished(r, status, output, errText, now))
    ensures StartedOK(r) && Terminal(status) ==> Terminal(Finished(r, status, output, errText, now).status)
  {
    if StartedOK(r) && !Terminal(r.status) {
      LandedOK(r, if CanTransition(r.status, status) then status else Cancelled, output, errText, now);
    }
  }

  /** A running run ends with the status asked for, a queued one cancelled, both with the
      outcome given, and a run that is over stays as it is. */
  lemma FinishedMeaning(r: Record, status: Status, output: string, errText: string, now: int)
    ensures Terminal(r.status) ==> Finished(r, status, output, errText, now) == r
    ensures r.status == Running && Terminal(status) ==>
      EndedAs(r, Finished(r, status, output, errText, now), status, output, errText, now)
    ensures r.status == Queued && Terminal(status) ==>
      EndedAs(r, Finished(r, status, output, errText, now), Cancelled, output, errText, now)
  {
    if !Terminal(r.status) && Terminal(status) {
      MovedFields(r.(output := output, errText := errText), if r.status == Queued then Cancelled else status, now);
    }
  }

  /** The one transition a finishing run makes. */
  lemma LandedOK(r: Record, to: Status, output: string, errText: string, now: int)
    requires StartedOK(r) && CanTransition(r.status, to)
    ensures StartedOK(Moved(r.(output := output, errText := errText), to, now).(stopped := true))
  {
    OutcomeKeepsOK(r, output, errText);
    var r' := r.(output := output, errText := errText);
    MovedOK(r', to, now);
    StopKeepsOK(Moved(r', to, now).(stopped := r.stopped || Terminal(to)));
  }

  lemma OutcomeKeepsOK(r: Record, output: string, errText: string)
    requires StartedOK(r)
    ensures StartedOK(r.(output := output, errText := errText))
  {
  }

  lemma StopKeepsOK(r: Record)
    requires StartedOK(r)
    ensures StartedOK(r.(stopped := true))
  {
  }

  lemma RecordedOK(r: Record, line: string, now: int)
    requires RecordOK(r)
    ensures RecordOK(Recorded(r, line, now))
    ensures StartedOK(r) ==> StartedOK(Recorded(r, line, now))
    ensures Terminal(r.status) ==> Recorded(r, line, now) == r
    ensures !Terminal(r.status) ==>
      var source := if r.client == "" then "codebridge" else r.client;
      var event := RunEvent(r.id, r.base + |r.journal| + 1, now, source, "harness.raw", line);
      Recorded(r, line, now) == r.(lines := r.lines + [line], journal := r.journal + [event])
  {
    if !Terminal(r.status) {
      AppendShape(r.(lines := r.lines + [line]), now, r.client, RAW_KIND, line);
    }
  }

  /** Exact accounting of the event counter against the line counter. */
  lemma JournalAccounting(r: Record)
    requires StartedOK(r)
    ensures r.status == Queued ==> |r.journal| == |r.lines| + 1
    ensures r.status == Running ==> |r.journal| == |r.lines| + 2
    ensures Terminal(r.status) && Running !in r.path ==>
      r.status == Cancelled && |r.journal| == |r.lines| + 2
    ensures Terminal(r.status) && Running in r.path ==> |r.journal| == |r.lines| + 3
  {
    PathShape(r.path);
  }

  /** Cancelling a finished run leaves it as it is if and only if this process
      started it; a finished run that was loaded makes the call panic. */
  lemma CancelFinishedIff(r: Record)
    requires RecordOK(r) && Terminal(r.status)
    ensures CancelRun(r) == Some(r) <==> r.stoppable
    ensures CancelRun(r).None? <==> LoadedOK(r)
  {
  }

  /** A concrete run whose cancellation panics: any row loaded from the store. */
  lemma CancelLoadedPanics(snap: Snapshot, lastSeq: nat)
    ensures LoadedOK(LoadedRun(snap, lastSeq))
    ensures CancelRun(LoadedRun(snap, lastSeq)) == None
  {
  }

  // ----------------------------------------------------------------- ring buffers

  /** The newest `n` elements of a history, or all of it. */
  function LastN<T>(hist: seq<T>, n: nat): seq<T> {
    if |hist| <= n then hist else hist[|hist| - n..]
  }

  /** `data` is a ring that has had `hist` written to it and keeps the last `kept`. */
  ghost predicate RingHolds<T>(data: seq<T>, kept: nat, hist: seq<T>) {
    && 0 < |data|
    && kept == (if |hist| <= |data| then |hist| else |data|)
    && forall i :: |hist| - kept <= i < |hist| ==> data[i % |data|] == hist[i]
  }

  lemma DistinctSlots(i: nat, j: nat, m: nat)
    requires 0 < m && i < j < i + m
    ensures i % m != j % m
  {
    var q := j / m - i / m;
    assert j - i == m * q + (j % m - i % m);
    assert q <= 0 ==> m * q <= 0;
    assert q >= 1 ==> m * q >= m;
  }

  lemma RingWrite<T>(data: seq<T>, kept: nat, hist: seq<T>, x: T)
    requires RingHolds(data, kept, hist)
    ensures RingHolds(data[|hist| % |data| := x], if kept < |data| then kept + 1 else kept, hist + [x])
  {
    var data' := data[|hist| % |data| := x];
    var hist' := hist + [x];
    var kept' := if kept < |data| then kept + 1 else kept;
    forall i | |hist'| - kept' <= i < |hist'| ensures data'[i % |data'|] == hist'[i] {
      if i < |hist| {
        DistinctSlots(i, |hist|, |data|);
      }
    }
  }

  function SeqNo(e: RunEvent): int { e.seqNo }

  lemma JournalSorted(r: Record, n: nat)
    requires StartedOK(r)
    ensures P.Sorted(LastN(r.journal, n), SeqNo)
  {
  }

  /** A fixed buffer written round and round: `next` counts all writes ever made. */
  class Ring<T> {
    const data: array<T>
    var next: nat
    var kept: nat

    ghost var hist: seq<T>

    ghost predicate Valid()
      reads this, data
    {
      next == |hist| && RingHolds(data[..], kept, hist)
    }

    constructor (capacity: nat, filler: T)
      requires 0 < capacity
      ensures Valid() && hist == [] && fresh(data) && data.Length == capacity
    {
      data := new T[capacity](_ => filler);
      next, kept := 0, 0;
      hist := [];
    }

    method Put(x: T)
      requires Valid()
      modifies this, data
      ensures Valid() && hist == old(hist) + [x]
    {
      RingWrite(data[..], kept, hist, x);
      data[next % data.Length] := x;
      next := next + 1;
      if kept < data.Length {
        kept := kept + 1;
      }
      hist := hist + [x];
    }

    /** The `n` newest entries, oldest first, read from the slots they were left in. */
    method Newest(n: nat) returns (out: seq<T>)
      requires Valid() && n <= kept
      ensures out == LastN(hist, n)
    {
      out := [];
      for i := next - n to next
        invariant out == hist[next - n..i]
      {
        out := out + [data[i % data.Length]];
      }
    }
  }

  class RunState {
    const id: string
    const client: string
    const events: Ring<string>
    const journal: Ring<RunEvent>
    var status: Status
    var startedAt: Option<int>
    var finishedAt: Option<int>
    var output: string
    var errText: string
    var eventTotal: nat
    var lastEvent: string
    var eventSeq: nat
    var doneCloses: nat
    var stopped: bool

    ghost var rec: Record

    ghost predicate Valid()
      reads this, events, events.data, journal, journal.data
    {
      StartedOK(rec) && Mirrors() && Rings()
    }

    /** The plain fields agree with the history. */
    ghost predicate Mirrors()
      reads this
    {
      && rec.id == id && rec.client == client && rec.status == status
      && rec.startedAt == startedAt && rec.finishedAt == finishedAt
      && rec.output == output && rec.errText == errText
      && rec.doneCloses == doneCloses && rec.stopped == stopped
      && rec.base == 0 && eventSeq == |rec.journal| && eventTotal == |rec.lines|
      && (rec.lines != [] ==> lastEvent == rec.lines[|rec.lines| - 1])
    }

    /** The rings are separate and have had the whole history written to them. */
    ghost predicate Rings()
      reads this, events, events.data, journal, journal.data
    {
      && events as object != journal && events.data as object != journal.data
      && events.Valid() && events.hist == rec.lines
      && journal.Valid() && journal.hist == rec.journal
    }

    constructor Start(id: string, client: string, capacity: nat, now: int)
      requires 0 < capacity
      ensures Valid() && fresh(events) && fresh(events.data) && fresh(journal) && fresh(journal.data)
      ensures rec == NewRun(id, client, now)
      ensures events.data.Length == capacity && journal.data.Length == capacity
    {
      this.id, this.client, status := id, client, Queued;
      startedAt, finishedAt, output, errText := None, None, "", "";
      eventTotal, lastEvent, eventSeq, doneCloses, stopped := 0, "", 0, 0, false;
      events := new Ring(capacity, "");
      journal := new Ring(capacity, NO_EVENT);
      rec := Record(id, client, Queued, [Queued], [], 0, [], None, None, "", "", 0, false, true);
      new;
      NewRunOK(id, client, now);
      AppendRuntimeEvent(now, OWN_SOURCE, StatusKind(Queued), "");
    }

    /** Numbers and journals one event; the oldest ring entry gives way. */
    method AppendRuntimeEvent(now: int, source: string, kind: string, payload: string)
      requires Mirrors() && Rings()
      modifies this`rec, this`eventSeq, journal, journal.data
      ensures Mirrors() && Rings()
      ensures rec == AppendEntry(old(rec), now, source, kind, payload)
    {
      eventSeq := eventSeq + 1;
      var src := if source == "" then OWN_SOURCE else source;
      journal.Put(RunEvent(id, eventSeq, now, src, kind, payload));
      rec := AppendEntry(rec, now, source, kind, payload);
    }

    /** Moves to `to` if the status machine allows it, and journals the move. */
    method TransitionLocked(to: Status, now: int) returns (moved: bool)
      requires Mirrors() && Rings()
      modifies this, journal, journal.data
      ensures Mirrors() && Rings()
      ensures moved <==> CanTransition(old(rec).status, to)
      ensures rec == Moved(old(rec), to, now)
    {
      if !CanTransition(status, to) {
        return false;
      }
      status := to;
      if to == Running {
        startedAt := Some(now);
      } else {
        finishedAt := Some(now);
        doneCloses := doneCloses + 1;
      }
      rec := Stamped(rec, to, now);
      var kind := StatusKind(to);
      AppendRuntimeEvent(now, OWN_SOURCE, kind, "");
      return true;
    }

    /** Applies the single terminal transition; a no-op once the run is terminal. */
    method Finish(to: Status, out: string, err: string, now: int)
      requires Valid()
      modifies this, journal, journal.data
      ensures Valid()
      ensures rec == Finished(old(rec), to, out, err, now)
      ensures Terminal(old(status)) ==> rec == old(rec)
      ensures old(status) == Running && Terminal(to) ==> EndedAs(old(rec), rec, to, out, err, now)
      ensures old(status) == Queued && Terminal(to) ==> EndedAs(old(rec), rec, Cancelled, out, err, now)
    {
      FinishedOK(rec, to, out, err, now);
      FinishedMeaning(rec, to, out, err, now);
      Land(to, out, err, now);
    }

    method Land(to: Status, out: string, err: string, now: int)
      requires Mirrors() && Rings() && rec.stoppable
      modifies this, journal, journal.data
      ensures Mirrors() && Rings()
      ensures rec == Finished(old(rec), to, out, err, now)
    {
      if Terminal(status) {
        return;
      }
      var target := to;
      if !CanTransition(status, target) {
        target := Cancelled;
        if !CanTransition(status, target) {
          return;
        }
      }
      KeepOutcome(out, err);
      var moved := TransitionLocked(target, now);
      Stop();
    }

    method KeepOutcome(out: string, err: string)
      requires Mirrors()
      modifies this`output, this`errText, this`rec
      ensures Mirrors() && rec == old(rec).(output := out, errText := err)
    {
      output, errText := out, err;
      rec := rec.(output := out, errText := err);
    }

    /** Cancels the run's context. */
    method Stop()
      requires Mirrors() && rec.stoppable
      modifies this`stopped, this`rec
      ensures Mirrors() && CancelRun(old(rec)) == Some(rec)
    {
      stopped := true;
      rec := rec.(stopped := true);
    }

    /** Keeps one harness line; lines after the end are dropped. */
    method RecordEvent(line: string, now: int)
      requires Valid()
      modifies this, events, events.data, journal, journal.data
      ensures Valid()
      ensures rec == Recorded(old(rec), line, now)
      ensures Terminal(old(status)) ==> rec == old(rec) && eventTotal == old(eventTotal)
      ensures !Terminal(old(status)) ==>
        rec.lines == old(rec).lines + [line] && eventTotal == old(eventTotal) + 1 && lastEvent == line
    {
      RecordedOK(rec, line, now);
      if Terminal(status) {
        return;
      }
      events.Put(line);
      eventTotal := eventTotal + 1;
      lastEvent := line;
      rec := rec.(lines := rec.lines + [line]);
      AppendRuntimeEvent(now, client, RAW_KIND, line);
    }

    /** The last lines ever recorded, oldest first: as many as asked for and kept. */
    method Events(limit: int) returns (out: seq<string>)
      requires Valid()
      ensures var capacity := events.data.Length;
        out == LastN(rec.lines, if 0 < limit < capacity then limit else capacity)
    {
      var n := events.kept;
      if limit > 0 && limit < n {
        n := limit;
      }
      out := events.Newest(n);
    }

    /** The first `limit` retained events after `afterSeq`: the same answer as
        selecting from the last `capacity` entries of the whole journal. */
    method EventsAfter(afterSeq: int, limit: int) returns (out: seq<RunEvent>)
      requires Valid()
      ensures out == P.Page(LastN(rec.journal, journal.data.Length), SeqNo, afterSeq,
                            if limit <= 0 then journal.data.Length else limit)
    {
      var max := if limit <= 0 then journal.data.Length else limit;
      JournalSorted(rec, journal.data.Length);
      var kept := journal.Newest(journal.kept);
      out := FirstAfter(kept, afterSeq, max);
    }
  }

  /** Walks the retained events and stops once `max` have been taken. */
  method FirstAfter(kept: seq<RunEvent>, afterSeq: int, max: nat) returns (out: seq<RunEvent>)
    requires P.Sorted(kept, SeqNo) && 0 < max
    ensures out == P.Page(kept, SeqNo, afterSeq, max)
  {
    P.PageIsSelection(kept, SeqNo, afterSeq, max);
    out := [];
    for i := 0 to |kept|
      invariant out == P.SelectAfter(kept[..i], SeqNo, afterSeq) && |out| < max
    {
      SelectNext(kept, i, afterSeq);
      if kept[i].seqNo <= afterSeq {
        continue;
      }
      out := out + [kept[i]];
      if |out| >= max {
        return;
      }
    }
    assert kept[..|kept|] == kept;
  }

  lemma SelectNext(log: seq<RunEvent>, i: nat, after: int)
    requires i < |log|
    ensures P.SelectAfter(log[..i + 1], SeqNo, after)
         == P.SelectAfter(log[..i], SeqNo, after) + (if log[i].seqNo > after then [log[i]] else [])
    ensures P.SelectAfter(log[..i + 1], SeqNo, after) <= P.SelectAfter(log, SeqNo, after)
  {
    assert log[..i + 1] == log[..i] + [log[i]];
    P.SelectConcat(log[..i], [log[i]], SeqNo, after);
    assert P.SelectAfter([log[i]], SeqNo, after) == if log[i].seqNo > after then [log[i]] else [];
    assert log == log[..i + 1] + log[i + 1..];
    P.SelectConcat(log[..i + 1], log[i + 1..], SeqNo, after);
  }
}
