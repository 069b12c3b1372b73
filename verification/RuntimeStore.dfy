/** The V2 runtime store (internal/runtime): rows and their journal written in one
    transaction, per-stream sequence numbers and one global position. */
module RuntimeStore {
  import opened Wire
  import P = Paging

  const DEFAULT_PAGE := 200
  const MAX_PAGE := 500

  // ------------------------------------------------------------------------ times

  /** A time that reads back as set: not in the first millisecond after the epoch, and
      not in the first millisecond of the year 1. */
  predicate StaysSet(t: Time) {
    !(0 <= t < MILLI) && !(ZERO_TIME <= t < ZERO_TIME + MILLI)
  }

  lemma StaysSetIff(t: Time)
    ensures FromMs(Ms(t)) != ZERO_TIME <==> StaysSet(t)
  {
    assert t == t / MILLI * MILLI + t % MILLI;
  }

  // ------------------------------------------------------------------- run statuses

  predicate Valid(status: string) {
    status == "queued" || status == "running" || Terminal(status)
  }

  predicate Terminal(status: string) {
    || status == "completed" || status == "failed" || status == "cancelled"
    || status == "timeout" || status == "interrupted"
  }

  /** The legal successors of a status. */
  function Successors(status: string): seq<string> {
    if status == "queued" then ["running", "cancelled"]
    else if status == "running" then ["completed", "failed", "cancelled", "timeout", "interrupted"]
    else []
  }

  predicate CanTransition(from: string, to: string) {
    to in Successors(from)
  }

  lemma TerminalHasNoSuccessor(from: string, to: string)
    ensures CanTransition(from, to) ==> !Terminal(from) && Valid(from) && Valid(to) && to != "queued"
    ensures Terminal(from) ==> !CanTransition(from, to)
    ensures CanTransition(from, to) <==>
      (from == "queued" && (to == "running" || to == "cancelled")) || (from == "running" && Terminal(to))
  {
  }

  // ------------------------------------------------------------------------ streams

  function StreamRun(id: string): string { "run:" + id }

  function StreamComputer(id: string): string { "computer:" + id }

  function RunIDFromStream(stream: string): Option<string> {
    if |stream| > 4 && stream[..4] == "run:" then Some(stream[4..]) else None
  }

  lemma StreamOfRun(id: string, stream: string)
    requires id != ""
    ensures RunIDFromStream(StreamRun(id)) == Some(id)
    ensures RunIDFromStream(stream) == Some(id) <==> stream == StreamRun(id)
  {
    assert StreamRun(id)[..4] == "run:" && StreamRun(id)[4..] == id;
    if RunIDFromStream(stream) == Some(id) {
      assert stream == stream[..4] + stream[4..];
    }
  }

  lemma StreamsApart(id: string, other: string)
    ensures StreamRun(id) != StreamComputer(other)
    ensures StreamRun(id) == StreamRun(other) ==> id == other
    ensures StreamComputer(id) == StreamComputer(other) ==> id == other
  {
    assert StreamRun(id)[0] == 'r' && StreamComputer(other)[0] == 'c';
    assert StreamRun(id)[4..] == id && StreamRun(other)[4..] == other;
    assert StreamComputer(id)[9..] == id && StreamComputer(other)[9..] == other;
  }

  // ------------------------------------------------------------------------- tables

  datatype Event = Event(pos: int, stream: string, seqNo: int, atMs: int, source: string, kind: string, payload: string)

  function Pos(e: Event): int { e.pos }

  function SeqNo(e: Event): int { e.seqNo }

  /** A row of the runs table; `detail` stands for the columns no operation here reads. */
  datatype Run = Run(
    id: string, status: string, detail: string, outputRef: string, errorCategory: string,
    lastSeq: int, createdMs: int, startedMs: int, finishedMs: int)

  datatype Controller = Controller(kind: string, holder: string, channel: string)

  datatype Computer = Computer(id: string, controller: Controller, epoch: int, detail: string, createdMs: int, updatedMs: int)

  /** The tables; events are listed by position. */
  datatype DB = DB(runs: map<string, Run>, computers: map<string, Computer>, events: seq<Event>)

  const EMPTY_DB := DB(map[], map[], [])

  /** The events of one stream, in order. */
  function OfStream(events: seq<Event>, stream: string): (r: seq<Event>)
    ensures forall i :: 0 <= i < |r| ==> r[i].stream == stream && r[i] in events
  {
    if events == [] then []
    else
      var last := events[|events| - 1];
      OfStream(events[..|events| - 1], stream) + if last.stream == stream then [last] else []
  }

  lemma OfStreamAppend(events: seq<Event>, e: Event, stream: string)
    ensures OfStream(events + [e], stream) == OfStream(events, stream) + if e.stream == stream then [e] else []
  {
    assert (events + [e])[..|events|] == events;
  }

  function StreamHead(events: seq<Event>, stream: string): nat {
    |OfStream(events, stream)|
  }

  /** The greatest sequence number of a stream, 0 when it is empty. */
  function MaxSeq(events: seq<Event>, stream: string): int {
    if events == [] then 0
    else
      var last, rest := events[|events| - 1], MaxSeq(events[..|events| - 1], stream);
      if last.stream == stream && last.seqNo > rest then last.seqNo else rest
  }

  function LastPos(events: seq<Event>): int {
    if events == [] then 0 else events[|events| - 1].pos
  }

  /** Positions strictly increase from 1 on, and the numbers of each stream are
      exactly 1 to its head. */
  ghost predicate JournalOK(events: seq<Event>) {
    P.Sorted(events, Pos) && (forall i :: 0 <= i < |events| ==> events[i].pos > 0) && forall stream :: StreamOK(events, stream)
  }

  ghost predicate StreamOK(events: seq<Event>, stream: string) {
    forall i :: 0 <= i < |OfStream(events, stream)| ==> OfStream(events, stream)[i].seqNo == i + 1
  }

  lemma {:induction false} MaxSeqIsHead(events: seq<Event>, stream: string)
    requires StreamOK(events, stream)
    ensures MaxSeq(events, stream) == StreamHead(events, stream)
  {
    if events != [] {
      var last, before := events[|events| - 1], events[..|events| - 1];
      assert OfStream(events, stream) == OfStream(before, stream) + if last.stream == stream then [last] else [];
      forall i | 0 <= i < |OfStream(before, stream)| ensures OfStream(before, stream)[i].seqNo == i + 1 {
        assert OfStream(events, stream)[i] == OfStream(before, stream)[i];
      }
      MaxSeqIsHead(before, stream);
      if last.stream == stream {
        assert OfStream(events, stream)[|OfStream(before, stream)|] == last;
      }
    }
  }

  // --------------------------------------------------------------- transaction steps

  datatype Draft = Draft(stream: string, at: Time, source: string, kind: string, payload: string)

  /** One write inside a transaction. `gap` is how far the database skips positions. */
  datatype Op =
    | PutRun(run: Run)
    | PutComputer(computer: Computer)
    | Append(draft: Draft, gap: nat)

  predicate CheckID(id: string, prefix: string) {
    id != "" && prefix <= id
  }

  /** An existing row keeps its stream head and creation time. */
  function Upserted(db: DB, r: Run): Run {
    if r.id in db.runs then r.(lastSeq := db.runs[r.id].lastSeq, createdMs := db.runs[r.id].createdMs) else r
  }

  function UpsertedComputer(db: DB, c: Computer): Computer {
    if c.id in db.computers then c.(createdMs := db.computers[c.id].createdMs) else c
  }

  /** Writing a row that exists keeps its creation time, and a run's stream head; all else
      is as given. */
  lemma PutMeaning(db: DB, r: Run, c: Computer, now: Time)
    ensures Apply(db, PutRun(r), now).Some? <==> r.id != "" && "run_" <= r.id
    ensures var after := Apply(db, PutRun(r), now);
      after.Some? ==>
        && r.id in after.value.runs
        && var row := after.value.runs[r.id];
          && row == r.(lastSeq := row.lastSeq, createdMs := row.createdMs)
          && (if r.id in db.runs then
                row.lastSeq == db.runs[r.id].lastSeq && row.createdMs == db.runs[r.id].createdMs
              else row == r)
          && after.value == db.(runs := db.runs[r.id := row])
    ensures Apply(db, PutComputer(c), now).Some? <==> c.id != "" && "cmp_" <= c.id
    ensures var after := Apply(db, PutComputer(c), now);
      after.Some? ==>
        && c.id in after.value.computers
        && var row := after.value.computers[c.id];
          && row == c.(createdMs := row.createdMs)
          && row.createdMs == (if c.id in db.computers then db.computers[c.id].createdMs else c.createdMs)
          && after.value == db.(computers := db.computers[c.id := row])
  {
  }

  /** The journal entry an append adds. */
  function Entry(events: seq<Event>, d: Draft, gap: nat, now: Time): Event {
    Event(LastPos(events) + 1 + gap, d.stream, MaxSeq(events, d.stream) + 1,
          Ms(if d.at == ZERO_TIME then now else d.at), if d.source == "" then "runtime" else d.source, d.kind, d.payload)
  }

  /** The mirror of the stream head in the run's row. */
  function Mirrored(runs: map<string, Run>, e: Event): map<string, Run> {
    match RunIDFromStream(e.stream)
    case Some(id) => if id in runs then runs[id := runs[id].(lastSeq := e.seqNo)] else runs
    case None => runs
  }

  /** A step's effect, or None when the store refuses it. */
  function Apply(db: DB, op: Op, now: Time): Option<DB> {
    match op
    case PutRun(r) =>
      if !CheckID(r.id, "run_") then None else Some(db.(runs := db.runs[r.id := Upserted(db, r)]))
    case PutComputer(c) =>
      if !CheckID(c.id, "cmp_") then None else Some(db.(computers := db.computers[c.id := UpsertedComputer(db, c)]))
    case Append(d, gap) =>
      if d.stream == "" || d.kind == "" then None
      else
        var e := Entry(db.events, d, gap, now);
        Some(db.(events := db.events + [e], runs := Mirrored(db.runs, e)))
  }

  function ApplyAll(db: DB, ops: seq<Op>, now: Time): Option<DB>
    decreases |ops|
  {
    if ops == [] then Some(db)
    else
      match Apply(db, ops[0], now)
      case None => None
      case Some(next) => ApplyAll(next, ops[1..], now)
  }

  /** Rows sit under their own id. */
  ghost predicate DBOK(db: DB) {
    && JournalOK(db.events)
    && (forall id :: id in db.runs ==> db.runs[id].id == id && id != "")
    && (forall id :: id in db.computers ==> db.computers[id].id == id && id != "")
  }

  lemma AppendKeepsJournal(events: seq<Event>, d: Draft, gap: nat, now: Time)
    requires JournalOK(events)
    ensures var e := Entry(events, d, gap, now);
      && JournalOK(events + [e]) && e.seqNo == StreamHead(events, d.stream) + 1
      && e.pos > LastPos(events) && e.stream == d.stream && e.kind == d.kind && e.payload == d.payload
      && e.atMs == Ms(if d.at == ZERO_TIME then now else d.at)
      && e.source == (if d.source == "" then "runtime" else d.source)
  {
    var e := Entry(events, d, gap, now);
    assert StreamOK(events, d.stream);
    MaxSeqIsHead(events, d.stream);
    forall stream ensures StreamOK(events + [e], stream) {
      assert StreamOK(events, stream);
      StreamAppend(events, e, stream);
    }
  }

  lemma StreamAppend(events: seq<Event>, e: Event, stream: string)
    requires StreamOK(events, stream) && (e.stream == stream ==> e.seqNo == StreamHead(events, stream) + 1)
    ensures StreamOK(events + [e], stream)
  {
    OfStreamAppend(events, e, stream);
  }

  lemma ApplyKeepsDB(db: DB, op: Op, now: Time)
    requires DBOK(db) && Apply(db, op, now).Some?
    ensures DBOK(Apply(db, op, now).value) && db.events <= Apply(db, op, now).value.events
  {
    if op.Append? {
      AppendKeepsJournal(db.events, op.draft, op.gap, now);
    }
  }

  lemma {:induction false} ApplyAllKeepsDB(db: DB, ops: seq<Op>, now: Time)
    requires DBOK(db) && ApplyAll(db, ops, now).Some?
    ensures DBOK(ApplyAll(db, ops, now).value) && db.events <= ApplyAll(db, ops, now).value.events
    decreases |ops|
  {
    if ops != [] {
      ApplyKeepsDB(db, ops[0], now);
      ApplyAllKeepsDB(Apply(db, ops[0], now).value, ops[1..], now);
    }
  }

  // -------------------------------------------------------------- the mirrored head

  /** The row of a run shows the head of its stream. */
  ghost predicate MirrorExact(db: DB, id: string) {
    id in db.runs && db.runs[id].lastSeq == StreamHead(db.events, StreamRun(id))
  }

  lemma StreamHeadAppend(db: DB, d: Draft, gap: nat, now: Time, id: string)
    requires DBOK(db) && id != ""
    ensures var e := Entry(db.events, d, gap, now);
      && StreamHead(db.events + [e], StreamRun(id))
           == StreamHead(db.events, StreamRun(id)) + (if d.stream == StreamRun(id) then 1 else 0)
      && (d.stream == StreamRun(id) ==> e.seqNo == StreamHead(db.events + [e], StreamRun(id)))
      && (RunIDFromStream(e.stream) == Some(id) <==> d.stream == StreamRun(id))
  {
    var e := Entry(db.events, d, gap, now);
    AppendKeepsJournal(db.events, d, gap, now);
    OfStreamAppend(db.events, e, StreamRun(id));
    StreamOfRun(id, d.stream);
  }

  /** Exactly when a step leaves the mirror right: an append to the run's own stream
      always does, an insert does if it brings the current head, and nothing else
      changes whether it is right. */
  lemma MirrorAfterStep(db: DB, op: Op, now: Time, id: string)
    requires DBOK(db) && id != "" && Apply(db, op, now).Some?
    ensures MirrorExact(Apply(db, op, now).value, id) <==>
      match op {
        case PutRun(r) =>
          if r.id == id && id !in db.runs then r.lastSeq == StreamHead(db.events, StreamRun(id))
          else MirrorExact(db, id)
        case PutComputer(_) => MirrorExact(db, id)
        case Append(d, _) => if d.stream == StreamRun(id) then id in db.runs else MirrorExact(db, id)
      }
  {
    if op.Append? {
      StreamHeadAppend(db, op.draft, op.gap, now, id);
    }
  }

  /** The run is inserted before its first event, or with the head its stream has. */
  predicate InsertsExact(db: DB, op: Op) {
    op.PutRun? && op.run.id !in db.runs ==> op.run.lastSeq == StreamHead(db.events, StreamRun(op.run.id))
  }

  predicate AllInsertsExact(db: DB, ops: seq<Op>, now: Time)
    requires ApplyAll(db, ops, now).Some?
    decreases |ops|
  {
    ops == [] || (InsertsExact(db, ops[0]) && AllInsertsExact(Apply(db, ops[0], now).value, ops[1..], now))
  }

  ghost predicate MirrorsExact(db: DB) {
    forall id :: id in db.runs ==> MirrorExact(db, id)
  }

  lemma {:induction false} MirrorsStayExact(db: DB, ops: seq<Op>, now: Time)
    requires DBOK(db) && ApplyAll(db, ops, now).Some? && MirrorsExact(db) && AllInsertsExact(db, ops, now)
    ensures MirrorsExact(ApplyAll(db, ops, now).value)
    decreases |ops|
  {
    if ops != [] {
      var next := Apply(db, ops[0], now).value;
      ApplyKeepsDB(db, ops[0], now);
      forall id | id in next.runs ensures MirrorExact(next, id) {
        MirrorAfterStep(db, ops[0], now, id);
        if id in db.runs {
          assert MirrorExact(db, id);
        }
      }
      MirrorsStayExact(next, ops[1..], now);
    }
  }

  // ---------------------------------------------------------------- run lifecycles

  function StatusKind(status: string): string { "run." + status }

  predicate LifecycleKind(kind: string) {
    |kind| > 4 && kind[..4] == "run." && Valid(kind[4..])
  }

  lemma KindOfStatus(status: string)
    ensures LifecycleKind(StatusKind(status)) <==> Valid(status)
    ensures StatusKind(status)[4..] == status
  {
    assert StatusKind(status)[..4] == "run." && StatusKind(status)[4..] == status;
  }

  /** The lifecycle events of a run, in order. */
  function Life(events: seq<Event>, id: string): (r: seq<Event>)
    ensures forall i :: 0 <= i < |r| ==> LifecycleKind(r[i].kind)
  {
    if events == [] then []
    else
      var last := events[|events| - 1];
      Life(events[..|events| - 1], id)
        + if last.stream == StreamRun(id) && LifecycleKind(last.kind) then [last] else []
  }

  lemma LifeAppend(events: seq<Event>, e: Event, id: string)
    ensures Life(events + [e], id)
         == Life(events, id) + if e.stream == StreamRun(id) && LifecycleKind(e.kind) then [e] else []
  {
    assert (events + [e])[..|events|] == events;
  }

  function Named(e: Event): string
    requires LifecycleKind(e.kind)
  {
    e.kind[4..]
  }

  /** The lifecycle events walk the status table from queued. */
  ghost predicate Walks(life: seq<Event>) {
    && life != [] && (forall i :: 0 <= i < |life| ==> LifecycleKind(life[i].kind))
    && Named(life[0]) == "queued"
    && forall i :: 0 < i < |life| ==> CanTransition(Named(life[i - 1]), Named(life[i]))
  }

  /** Row and journal of a run agree: the status is the one its latest lifecycle event
      names, the start time is that of its "running" event, the finish time is that of the
      latest event once the run is over, and the mirrored head is right. */
  ghost predicate Managed(db: DB, id: string) {
    MirrorExact(db, id) && RowTells(db.runs[id], Life(db.events, id))
  }

  /** The row says what the lifecycle events of its run say. */
  ghost predicate RowTells(r: Run, life: seq<Event>) {
    Walks(life) && RowAgrees(r, life[|life| - 1]) && StartAgrees(r.startedMs, life)
  }

  /** The row reads back the time of the event that says the run is running, and no time
      before there is one. */
  ghost predicate StartAgrees(startedMs: int, life: seq<Event>)
    requires forall i :: 0 <= i < |life| ==> LifecycleKind(life[i].kind)
  {
    && (forall i :: 0 <= i < |life| && Named(life[i]) == "running" ==> FromMs(startedMs) == FromMs(life[i].atMs))
    && ((forall i :: 0 <= i < |life| ==> Named(life[i]) != "running") ==> FromMs(startedMs) == ZERO_TIME)
  }

  ghost predicate RowAgrees(r: Run, latest: Event)
    requires LifecycleKind(latest.kind)
  {
    && r.status == Named(latest)
    && r.finishedMs == if Terminal(r.status) then latest.atMs else 0
  }

  /** A managed run shows a finish time if and only if it is over and the time of its last
      lifecycle event reads back as set. */
  lemma FinishTimeIff(db: DB, id: string)
    requires Managed(db, id)
    ensures var latest := Life(db.events, id)[|Life(db.events, id)| - 1];
      FromMs(db.runs[id].finishedMs) != ZERO_TIME <==>
        Terminal(db.runs[id].status) && FromMs(latest.atMs) != ZERO_TIME
  {
  }

  /** It shows a start time if and only if it has been running since a time that reads back
      as set. */
  lemma StartTimeIff(db: DB, id: string)
    requires Managed(db, id)
    ensures FromMs(db.runs[id].startedMs) != ZERO_TIME <==>
      exists e :: e in Life(db.events, id) && StartedBy(e)
  {
    var life, started := Life(db.events, id), db.runs[id].startedMs;
    forall e | e in life && StartedBy(e) ensures FromMs(started) != ZERO_TIME {
      var i :| 0 <= i < |life| && life[i] == e;
      assert Named(life[i]) == "running";
    }
    if FromMs(started) != ZERO_TIME {
      var i :| 0 <= i < |life| && Named(life[i]) == "running";
      assert life[i] in life && StartedBy(life[i]);
    }
  }

  predicate StartedBy(e: Event) {
    LifecycleKind(e.kind) && Named(e) == "running" && FromMs(e.atMs) != ZERO_TIME
  }

  // A run is created queued together with its first lifecycle event.

  function CreateOps(r: Run, d: Draft, gap: nat): seq<Op> {
    [PutRun(r), Append(d, gap)]
  }

  lemma ApplyTwo(db: DB, a: Op, b: Op, now: Time)
    ensures ApplyAll(db, [a, b], now) ==
      match Apply(db, a, now) { case None => None case Some(next) => Apply(next, b, now) }
  {
    assert [a, b][1..] == [b];
    match Apply(db, a, now)
    case None =>
    case Some(next) => ApplyOne(next, b, now);
  }

  lemma ApplyOne(db: DB, op: Op, now: Time)
    ensures ApplyAll(db, [op], now) == Apply(db, op, now)
  {
    assert [op][1..] == [];
  }

  lemma CreatedIsManaged(db: DB, r: Run, d: Draft, gap: nat, now: Time)
    requires DBOK(db) && r.id !in db.runs && Life(db.events, r.id) == []
    requires CheckID(r.id, "run_") && r.status == "queued" && r.startedMs == 0 && r.finishedMs == 0
    requires d.stream == StreamRun(r.id) && d.kind == StatusKind("queued")
    ensures ApplyAll(db, CreateOps(r, d, gap), now).Some?
    ensures Managed(ApplyAll(db, CreateOps(r, d, gap), now).value, r.id)
  {
    var e := Entry(db.events, d, gap, now);
    CreateEffect(db, r, d, gap, now);
    StreamHeadAppend(db, d, gap, now, r.id);
    LifeAppend(db.events, e, r.id);
    FirstEvent(ApplyAll(db, CreateOps(r, d, gap), now).value, r, e);
  }

  lemma FirstEvent(db: DB, r: Run, e: Event)
    requires r.id in db.runs && db.runs[r.id] == r.(lastSeq := e.seqNo) && r.status == "queued"
    requires r.startedMs == 0 && r.finishedMs == 0
    requires e.kind == StatusKind("queued") && e.seqNo == StreamHead(db.events, StreamRun(r.id))
    requires Life(db.events, r.id) == [] + [e]
    ensures Managed(db, r.id)
  {
    KindOfStatus("queued");
    assert [] + [e] == [e];
  }

  lemma CreateEffect(db: DB, r: Run, d: Draft, gap: nat, now: Time)
    requires r.id !in db.runs && CheckID(r.id, "run_") && d.stream == StreamRun(r.id) && d.kind != ""
    ensures var e := Entry(db.events, d, gap, now);
      ApplyAll(db, CreateOps(r, d, gap), now)
        == Some(db.(events := db.events + [e], runs := db.runs[r.id := r.(lastSeq := e.seqNo)]))
  {
    ApplyTwo(db, PutRun(r), Append(d, gap), now);
    StreamOfRun(r.id, d.stream);
    assert d.stream != "";
    var e := Entry(db.events, d, gap, now);
    assert Mirrored(db.runs[r.id := r], e) == db.runs[r.id := r.(lastSeq := e.seqNo)];
  }

  // ------------------------------------------------------------------- transitions

  datatype Transition = Transition(
    runID: string, status: string, at: Time, source: string, errorCategory: string, outputRef: string, payload: string)

  datatype StoreError = BadInput | NotFound | IllegalTransition | SQLError

  /** The row a legal transition writes. */
  function Moved(r: Run, tr: Transition): Run {
    r.(status := tr.status,
       errorCategory := if tr.errorCategory != "" then tr.errorCategory else r.errorCategory,
       outputRef := if tr.outputRef != "" then tr.outputRef else r.outputRef,
       startedMs := Ms(if tr.status == "running" && FromMs(r.startedMs) == ZERO_TIME then tr.at else FromMs(r.startedMs)),
       finishedMs := Ms(if tr.status != "running" && Terminal(tr.status) then tr.at else FromMs(r.finishedMs)))
  }

  /** Why a transition is refused before it writes anything. */
  function TransitionRefusal(db: DB, tr: Transition): Option<StoreError> {
    if !CheckID(tr.runID, "run_") || !Valid(tr.status) || tr.at == ZERO_TIME then Some(BadInput)
    else if tr.runID !in db.runs then Some(NotFound)
    else if !CanTransition(db.runs[tr.runID].status, tr.status) then Some(IllegalTransition)
    else None
  }

  function TransitionOps(db: DB, tr: Transition, gap: nat): seq<Op>
    requires tr.runID in db.runs
  {
    [PutRun(Moved(db.runs[tr.runID], tr)),
     Append(Draft(StreamRun(tr.runID), tr.at, tr.source, StatusKind(tr.status), tr.payload), gap)]
  }

  /** The store after a transition that is not refused. */
  lemma TransitionEffect(db: DB, tr: Transition, gap: nat, now: Time)
    requires DBOK(db) && TransitionRefusal(db, tr).None?
    ensures var d := Draft(StreamRun(tr.runID), tr.at, tr.source, StatusKind(tr.status), tr.payload);
            var e := Entry(db.events, d, gap, now);
      ApplyAll(db, TransitionOps(db, tr, gap), now)
        == Some(db.(events := db.events + [e], runs := db.runs[tr.runID := Moved(db.runs[tr.runID], tr).(lastSeq := e.seqNo)]))
  {
    var ops := TransitionOps(db, tr, gap);
    ApplyTwo(db, ops[0], ops[1], now);
    StreamOfRun(tr.runID, StreamRun(tr.runID));
    assert StreamRun(tr.runID) != "" && StatusKind(tr.status) != "";
    var d := ops[1].draft;
    var e := Entry(db.events, d, gap, now);
    var mid := Apply(db, ops[0], now).value;
    assert Mirrored(mid.runs, e) == db.runs[tr.runID := Moved(db.runs[tr.runID], tr).(lastSeq := e.seqNo)];
  }

  /** What a transition makes of a row, column by column. */
  ghost predicate RowMoved(r: Run, r': Run, tr: Transition) {
    && r'.id == r.id && r'.detail == r.detail && r'.createdMs == r.createdMs && r'.status == tr.status
    && r'.errorCategory == (if tr.errorCategory == "" then r.errorCategory else tr.errorCategory)
    && r'.outputRef == (if tr.outputRef == "" then r.outputRef else tr.outputRef)
    && (if tr.status == "running" && FromMs(r.startedMs) == ZERO_TIME then r'.startedMs == Ms(tr.at)
        else FromMs(r'.startedMs) == FromMs(r.startedMs))
    && (if Terminal(tr.status) then r'.finishedMs == Ms(tr.at) else FromMs(r'.finishedMs) == FromMs(r.finishedMs))
  }

  /** One entry was journalled: next in its stream, at a higher position, from "runtime"
      unless a source is named. */
  ghost predicate Journalled(events: seq<Event>, events': seq<Event>, stream: string, at: Time, source: string,
                             kind: string, payload: string)
  {
    && |events'| == |events| + 1 && events <= events'
    && var e := events'[|events|];
      && e.pos > LastPos(events) && e.seqNo == StreamHead(events, stream) + 1
      && e.stream == stream && e.kind == kind && e.payload == payload && e.atMs == Ms(at)
      && e.source == if source == "" then "runtime" else source
  }

  /** A transition that is not refused moves its row, mirrors the number of the entry it
      journals there, and leaves everything else alone. */
  lemma TransitionMeaning(db: DB, tr: Transition, gap: nat, now: Time)
    requires DBOK(db) && TransitionRefusal(db, tr).None?
    ensures ApplyAll(db, TransitionOps(db, tr, gap), now).Some?
    ensures var db' := ApplyAll(db, TransitionOps(db, tr, gap), now).value;
      && tr.runID in db'.runs && RowMoved(db.runs[tr.runID], db'.runs[tr.runID], tr)
      && Journalled(db.events, db'.events, "run:" + tr.runID, tr.at, tr.source, "run." + tr.status, tr.payload)
      && db'.runs[tr.runID].lastSeq == StreamHead(db.events, "run:" + tr.runID) + 1
      && db'.computers == db.computers && db'.runs - {tr.runID} == db.runs - {tr.runID}
  {
    var r := db.runs[tr.runID];
    var d := Draft(StreamRun(tr.runID), tr.at, tr.source, StatusKind(tr.status), tr.payload);
    TransitionEffect(db, tr, gap, now);
    AppendKeepsJournal(db.events, d, gap, now);
    RereadMs(r.startedMs);
    RereadMs(r.finishedMs);
  }

  /** A run that finishes shows when if and only if the time given reads back as set. */
  lemma FinishShownIff(db: DB, tr: Transition, gap: nat, now: Time)
    requires DBOK(db) && TransitionRefusal(db, tr).None? && Terminal(tr.status)
    ensures var r := ApplyAll(db, TransitionOps(db, tr, gap), now);
      && r.Some? && tr.runID in r.value.runs
      && (FromMs(r.value.runs[tr.runID].finishedMs) != ZERO_TIME <==> StaysSet(tr.at))
  {
    TransitionEffect(db, tr, gap, now);
    StaysSetIff(tr.at);
  }

  /** A transition keeps row and journal of its run in step. */
  lemma TransitionKeepsManaged(db: DB, tr: Transition, gap: nat, now: Time, id: string)
    requires DBOK(db) && Managed(db, id) && TransitionRefusal(db, tr).None?
    ensures ApplyAll(db, TransitionOps(db, tr, gap), now).Some?
    ensures Managed(ApplyAll(db, TransitionOps(db, tr, gap), now).value, id)
  {
    var d := Draft(StreamRun(tr.runID), tr.at, tr.source, StatusKind(tr.status), tr.payload);
    var e := Entry(db.events, d, gap, now);
    TransitionEffect(db, tr, gap, now);
    StreamHeadAppend(db, d, gap, now, id);
    LifeAppend(db.events, e, id);
    StreamsApart(id, tr.runID);
    var next := ApplyAll(db, TransitionOps(db, tr, gap), now).value;
    if id == tr.runID {
      KindOfStatus(tr.status);
      RowGoesOn(db.runs[id], next.runs[id], Life(db.events, id), e, tr);
    } else {
      assert Life(next.events, id) == Life(db.events, id);
      SameRow(db.runs[id], next.runs[id], Life(db.events, id));
    }
  }

  lemma RowGoesOn(r: Run, r': Run, life: seq<Event>, e: Event, tr: Transition)
    requires RowTells(r, life) && CanTransition(r.status, tr.status) && tr.at != ZERO_TIME
    requires LifecycleKind(e.kind) && Named(e) == tr.status && e.atMs == Ms(tr.at)
    requires r' == Moved(r, tr).(lastSeq := r'.lastSeq)
    ensures RowTells(r', life + [e])
  {
    WalkOn(life, e, r.status);
    StartGoesOn(life, e, r, tr);
  }

  lemma RereadMs(v: int)
    ensures FromMs(Ms(FromMs(v))) == FromMs(v)
  {
  }

  lemma WalkOn(life: seq<Event>, e: Event, status: string)
    requires Walks(life) && LifecycleKind(e.kind) && Named(life[|life| - 1]) == status
    requires CanTransition(status, Named(e))
    ensures Walks(life + [e])
  {
  }

  lemma QueuedOnlyFirst(life: seq<Event>)
    requires Walks(life) && Named(life[|life| - 1]) == "queued"
    ensures |life| == 1 && Named(life[0]) != "running"
  {
    assert |life| > 1 ==> CanTransition(Named(life[|life| - 2]), Named(life[|life| - 1]));
  }

  lemma StartGoesOn(life: seq<Event>, e: Event, r: Run, tr: Transition)
    requires Walks(life) && Named(life[|life| - 1]) == r.status && CanTransition(r.status, tr.status)
    requires StartAgrees(r.startedMs, life) && LifecycleKind(e.kind) && Named(e) == tr.status && e.atMs == Ms(tr.at)
    ensures forall i :: 0 <= i < |life| + 1 ==> LifecycleKind((life + [e])[i].kind)
    ensures StartAgrees(Moved(r, tr).startedMs, life + [e])
  {
    var more := life + [e];
    assert more[|life|] == e && forall i :: 0 <= i < |life| ==> more[i] == life[i];
    RereadMs(r.startedMs);
    if tr.status == "running" {
      QueuedOnlyFirst(life);
    }
  }

  // ------------------------------------------------------------------ whole histories

  /** A step that leaves the lifecycle of `id` alone: it may rewrite other columns of
      the row and append events of other kinds. */
  ghost predicate Respects(db: DB, op: Op, id: string) {
    match op
    case PutRun(r) =>
      r.id == id ==>
        && id in db.runs && r.status == db.runs[id].status
        && r.startedMs == db.runs[id].startedMs && r.finishedMs == db.runs[id].finishedMs
    case PutComputer(_) => true
    case Append(d, _) => d.stream == StreamRun(id) ==> !LifecycleKind(d.kind)
  }

  ghost predicate AllRespect(db: DB, ops: seq<Op>, now: Time, id: string)
    requires ApplyAll(db, ops, now).Some?
    decreases |ops|
  {
    ops == [] || (Respects(db, ops[0], id) && AllRespect(Apply(db, ops[0], now).value, ops[1..], now, id))
  }

  lemma RespectKeepsManaged(db: DB, op: Op, now: Time, id: string)
    requires DBOK(db) && Managed(db, id) && Apply(db, op, now).Some? && Respects(db, op, id)
    ensures Managed(Apply(db, op, now).value, id)
  {
    MirrorAfterStep(db, op, now, id);
    if op.Append? {
      AppendKeepsLife(db, op, now, id);
    }
    SameRow(db.runs[id], Apply(db, op, now).value.runs[id], Life(db.events, id));
  }

  lemma SameRow(r: Run, r': Run, life: seq<Event>)
    requires RowTells(r, life)
    requires r'.status == r.status && r'.startedMs == r.startedMs && r'.finishedMs == r.finishedMs
    ensures RowTells(r', life)
  {
  }

  lemma AppendKeepsLife(db: DB, op: Op, now: Time, id: string)
    requires op.Append? && Apply(db, op, now).Some? && Respects(db, op, id)
    ensures Life(Apply(db, op, now).value.events, id) == Life(db.events, id)
  {
    LifeAppend(db.events, Entry(db.events, op.draft, op.gap, now), id);
  }

  lemma {:induction false} RespectingKeepsManaged(db: DB, ops: seq<Op>, now: Time, id: string)
    requires DBOK(db) && Managed(db, id) && ApplyAll(db, ops, now).Some? && AllRespect(db, ops, now, id)
    ensures Managed(ApplyAll(db, ops, now).value, id)
    decreases |ops|
  {
    if ops != [] {
      RespectKeepsManaged(db, ops[0], now, id);
      ApplyKeepsDB(db, ops[0], now);
      RespectingKeepsManaged(Apply(db, ops[0], now).value, ops[1..], now, id);
    }
  }

  /** One call of Update: the writes of its function, the clock, and whether everything
      including the commit went through. */
  datatype Tx = Tx(ops: seq<Op>, now: Time, commits: bool)

  function Outcome(db: DB, tx: Tx): DB {
    var r := ApplyAll(db, tx.ops, tx.now);
    if tx.commits && r.Some? then r.value else db
  }

  ghost predicate History(states: seq<DB>, txs: seq<Tx>) {
    && |states| == |txs| + 1
    && forall i :: 0 <= i < |txs| ==> states[i + 1] == Outcome(states[i], txs[i])
  }

  /** In every history of committed and aborted transactions the journal stays
      contiguous per stream and increasing in position, and only grows. */
  lemma {:induction false} AlwaysDB(states: seq<DB>, txs: seq<Tx>, i: nat, j: nat)
    requires History(states, txs) && DBOK(states[0]) && i <= j < |states|
    ensures DBOK(states[j]) && states[i].events <= states[j].events
    decreases j
  {
    if j > 0 {
      AlwaysDB(states, txs, if i < j then i else j - 1, j - 1);
      if ApplyAll(states[j - 1], txs[j - 1].ops, txs[j - 1].now).Some? {
        ApplyAllKeepsDB(states[j - 1], txs[j - 1].ops, txs[j - 1].now);
      }
    }
  }

  /** The transaction leaves the run to its transitions. */
  ghost predicate LeavesRun(db: DB, tx: Tx, id: string) {
    ApplyAll(db, tx.ops, tx.now).Some? ==>
      AllRespect(db, tx.ops, tx.now, id) || IsTransition(db, tx.ops)
  }

  ghost predicate IsTransition(db: DB, ops: seq<Op>) {
    exists tr: Transition, gap: nat :: TransitionRefusal(db, tr).None? && ops == TransitionOps(db, tr, gap)
  }

  /** A run created queued with its event and changed only by transitions stays in
      step with its journal through every later transaction, committed or not. */
  lemma {:induction false} AlwaysManaged(states: seq<DB>, txs: seq<Tx>, id: string, i: nat)
    requires History(states, txs) && DBOK(states[0]) && Managed(states[0], id) && i < |states|
    requires forall k :: 0 <= k < |txs| ==> LeavesRun(states[k], txs[k], id)
    ensures Managed(states[i], id)
  {
    if i > 0 {
      var db, tx := states[i - 1], txs[i - 1];
      AlwaysManaged(states, txs, id, i - 1);
      AlwaysDB(states, txs, 0, i - 1);
      assert LeavesRun(db, tx, id);
      if ApplyAll(db, tx.ops, tx.now).Some? {
        TxKeepsManaged(db, tx.ops, tx.now, id);
      }
    }
  }

  lemma TxKeepsManaged(db: DB, ops: seq<Op>, now: Time, id: string)
    requires DBOK(db) && Managed(db, id) && ApplyAll(db, ops, now).Some?
    requires AllRespect(db, ops, now, id) || IsTransition(db, ops)
    ensures Managed(ApplyAll(db, ops, now).value, id)
  {
    if IsTransition(db, ops) {
      var tr: Transition, gap: nat :| TransitionRefusal(db, tr).None? && ops == TransitionOps(db, tr, gap);
      TransitionKeepsManaged(db, tr, gap, now, id);
    } else {
      RespectingKeepsManaged(db, ops, now, id);
    }
  }

  lemma {:induction false} AlwaysMirrored(states: seq<DB>, txs: seq<Tx>, i: nat)
    requires History(states, txs) && DBOK(states[0]) && MirrorsExact(states[0]) && i < |states|
    requires forall k :: 0 <= k < |txs| && ApplyAll(states[k], txs[k].ops, txs[k].now).Some? ==>
      AllInsertsExact(states[k], txs[k].ops, txs[k].now)
    ensures MirrorsExact(states[i])
  {
    if i > 0 {
      AlwaysMirrored(states, txs, i - 1);
      AlwaysDB(states, txs, 0, i - 1);
      TxKeepsMirrors(states[i - 1], txs[i - 1]);
    }
  }

  lemma TxKeepsMirrors(db: DB, tx: Tx)
    requires DBOK(db) && MirrorsExact(db)
    requires ApplyAll(db, tx.ops, tx.now).Some? ==> AllInsertsExact(db, tx.ops, tx.now)
    ensures MirrorsExact(Outcome(db, tx))
  {
    if ApplyAll(db, tx.ops, tx.now).Some? {
      MirrorsStayExact(db, tx.ops, tx.now);
    }
  }

  // ---------------------------------------------------------------- exceptional cases

  function RunRow(status: string): Run {
    Run("run_1", status, "", "", "", 0, 0, 0, 0)
  }

  function Move(status: string, at: Time): Transition {
    Transition("run_1", status, at, "", "", "", "")
  }

  /** A run that completes half a millisecond after the epoch is over and has no finish
      time. */
  lemma FinishTimeLost() returns (db: DB)
    ensures DBOK(db) && Managed(db, "run_1") && db.runs["run_1"].status == "completed"
    ensures FromMs(db.runs["run_1"].finishedMs) == ZERO_TIME
  {
    db := QueuedRun();
    db := AfterMove(db, "running", MILLI);
    FinishShownIff(db, Move("completed", MILLI / 2), 0, MILLI);
    db := AfterMove(db, "completed", MILLI / 2);
  }

  lemma QueuedRun() returns (db: DB)
    ensures DBOK(db) && Managed(db, "run_1") && db.runs["run_1"].status == "queued"
  {
    var d := Draft(StreamRun("run_1"), MILLI, "", StatusKind("queued"), "");
    CreatedIsManaged(EMPTY_DB, RunRow("queued"), d, 0, MILLI);
    ApplyAllKeepsDB(EMPTY_DB, CreateOps(RunRow("queued"), d, 0), MILLI);
    CreateEffect(EMPTY_DB, RunRow("queued"), d, 0, MILLI);
    db := ApplyAll(EMPTY_DB, CreateOps(RunRow("queued"), d, 0), MILLI).value;
  }

  lemma AfterMove(db: DB, status: string, at: Time) returns (db': DB)
    requires DBOK(db) && Managed(db, "run_1") && TransitionRefusal(db, Move(status, at)).None?
    ensures Some(db') == ApplyAll(db, TransitionOps(db, Move(status, at), 0), MILLI)
    ensures DBOK(db') && Managed(db', "run_1") && db'.runs["run_1"].status == status
  {
    TransitionEffect(db, Move(status, at), 0, MILLI);
    TransitionKeepsManaged(db, Move(status, at), 0, MILLI, "run_1");
    ApplyAllKeepsDB(db, TransitionOps(db, Move(status, at), 0), MILLI);
    db' := ApplyAll(db, TransitionOps(db, Move(status, at), 0), MILLI).value;
  }

  /** A row inserted with `last_seq` 0 behind the first event of its stream is wrong. */
  lemma MirrorWrongAfterLateInsert() returns (db: DB)
    ensures DBOK(db) && "run_1" in db.runs && db.runs["run_1"].lastSeq == 0
    ensures StreamHead(db.events, StreamRun("run_1")) == 1 && !MirrorExact(db, "run_1")
  {
    var op := Append(Draft(StreamRun("run_1"), MILLI, "", "note", ""), 0);
    var first := Apply(EMPTY_DB, op, MILLI).value;
    ApplyKeepsDB(EMPTY_DB, op, MILLI);
    StreamHeadAppend(EMPTY_DB, op.draft, 0, MILLI, "run_1");
    ApplyKeepsDB(first, PutRun(RunRow("queued")), MILLI);
    db := Apply(first, PutRun(RunRow("queued")), MILLI).value;
  }

  /** One event, asked for from before the beginning, fails the contiguity check. */
  lemma NegativeCursorFails() returns (db: DB)
    ensures DBOK(db) && !Contiguous(EventsForStream(db, "system", -1, 1), -1)
  {
    var op := Append(Draft("system", MILLI, "", "note", ""), 0);
    ApplyKeepsDB(EMPTY_DB, op, MILLI);
    db := Apply(EMPTY_DB, op, MILLI).value;
    OfStreamAppend([], db.events[0], "system");
    StreamPageContiguousIff(db, "system", -1, 1);
  }

  // -------------------------------------------------------------- computer control

  predicate ControllerOK(c: Controller) {
    if c.kind == "human" then c.channel == "local" || c.channel == "remote"
    else (c.kind == "agent" || c.kind == "none") && c.channel == ""
  }

  /** Who controls a computer: a person over a local or a remote channel, an agent, or
      nobody, the last two without a channel. */
  ghost predicate Wellformed(c: Controller) {
    (c.kind, c.channel) in {("human", "local"), ("human", "remote"), ("agent", ""), ("none", "")}
  }

  const CHANGED := "computer.controller.changed"

  datatype ControllerChange = ControllerChange(computerID: string, controller: Controller, at: Time, source: string, payload: string)

  function ChangeRefusal(db: DB, cc: ControllerChange): Option<StoreError> {
    if !CheckID(cc.computerID, "cmp_") || !ControllerOK(cc.controller) || cc.at == ZERO_TIME then Some(BadInput)
    else if cc.computerID !in db.computers then Some(NotFound)
    else None
  }

  function ChangeOps(db: DB, cc: ControllerChange, gap: nat): seq<Op>
    requires cc.computerID in db.computers
  {
    var c := db.computers[cc.computerID];
    [PutComputer(c.(controller := cc.controller, epoch := c.epoch + 1, updatedMs := Ms(cc.at))),
     Append(Draft(StreamComputer(cc.computerID), cc.at, cc.source, CHANGED, cc.payload), gap)]
  }

  /** How often the controller of a session changed, by its journal. */
  function Changes(events: seq<Event>, id: string): nat {
    if events == [] then 0
    else
      var last := events[|events| - 1];
      Changes(events[..|events| - 1], id) + if last.stream == StreamComputer(id) && last.kind == CHANGED then 1 else 0
  }

  lemma ChangesAppend(events: seq<Event>, e: Event, id: string)
    ensures Changes(events + [e], id)
         == Changes(events, id) + if e.stream == StreamComputer(id) && e.kind == CHANGED then 1 else 0
  {
    assert (events + [e])[..|events|] == events;
  }

  /** The epoch counts the journalled changes above `base`. */
  ghost predicate EpochCounts(db: DB, id: string, base: int) {
    id in db.computers && db.computers[id].epoch == base + Changes(db.events, id)
  }

  /** Every controller change raises the epoch by one and journals it together. */
  lemma ChangeKeepsEpoch(db: DB, cc: ControllerChange, gap: nat, now: Time, id: string, base: int)
    requires DBOK(db) && EpochCounts(db, id, base) && ChangeRefusal(db, cc).None?
    ensures var r := ApplyAll(db, ChangeOps(db, cc, gap), now);
      && r.Some? && EpochCounts(r.value, id, base)
      && cc.computerID in r.value.computers
      && r.value.computers[cc.computerID].controller == cc.controller
      && r.value.computers[cc.computerID].epoch == db.computers[cc.computerID].epoch + 1
  {
    var e := Entry(db.events, ChangeDraft(cc), gap, now);
    ChangeEffect(db, cc, gap, now);
    ChangesAppend(db.events, e, id);
    StreamsApart(id, cc.computerID);
    StreamsApart(cc.computerID, id);
  }

  function ChangeDraft(cc: ControllerChange): Draft {
    Draft(StreamComputer(cc.computerID), cc.at, cc.source, CHANGED, cc.payload)
  }

  /** The store after a change that is not refused. */
  lemma ChangeEffect(db: DB, cc: ControllerChange, gap: nat, now: Time)
    requires DBOK(db) && ChangeRefusal(db, cc).None?
    ensures var e, c := Entry(db.events, ChangeDraft(cc), gap, now), db.computers[cc.computerID];
      ApplyAll(db, ChangeOps(db, cc, gap), now)
        == Some(db.(events := db.events + [e], runs := Mirrored(db.runs, e),
                    computers := db.computers[cc.computerID :=
                      c.(controller := cc.controller, epoch := c.epoch + 1, updatedMs := Ms(cc.at))]))
  {
    var ops := ChangeOps(db, cc, gap);
    ApplyTwo(db, ops[0], ops[1], now);
    assert StreamComputer(cc.computerID) != "";
  }

  /** A controller change that is not refused sets the controller and the time of the
      change, raises the epoch, journals, and leaves everything else alone. */
  lemma ChangeMeaning(db: DB, cc: ControllerChange, gap: nat, now: Time)
    requires DBOK(db) && ChangeRefusal(db, cc).None?
    ensures ApplyAll(db, ChangeOps(db, cc, gap), now).Some?
    ensures var db', id := ApplyAll(db, ChangeOps(db, cc, gap), now).value, cc.computerID;
      && id in db'.computers && ControlMoved(db.computers[id], db'.computers[id], cc)
      && Journalled(db.events, db'.events, "computer:" + id, cc.at, cc.source, "computer.controller.changed", cc.payload)
      && db'.runs == db.runs && db'.computers - {id} == db.computers - {id}
  {
    ChangeEffect(db, cc, gap, now);
    AppendKeepsJournal(db.events, ChangeDraft(cc), gap, now);
    var e := Entry(db.events, ChangeDraft(cc), gap, now);
    assert e.stream[0] == 'c' && "run:"[0] == 'r';
    assert RunIDFromStream(e.stream).None?;
  }

  ghost predicate ControlMoved(c: Computer, c': Computer, cc: ControllerChange) {
    && c'.id == c.id && c'.detail == c.detail && c'.createdMs == c.createdMs
    && c'.controller == cc.controller && c'.epoch == c.epoch + 1 && c'.updatedMs == Ms(cc.at)
  }

  /** A step that neither moves the epoch of `id` nor journals a change of it. */
  ghost predicate KeepsEpoch(db: DB, op: Op, id: string) {
    match op
    case PutRun(_) => true
    case PutComputer(c) => c.id == id ==> id in db.computers && c.epoch == db.computers[id].epoch
    case Append(d, _) => !(d.stream == StreamComputer(id) && d.kind == CHANGED)
  }

  ghost predicate AllKeepEpoch(db: DB, ops: seq<Op>, now: Time, id: string)
    requires ApplyAll(db, ops, now).Some?
    decreases |ops|
  {
    ops == [] || (KeepsEpoch(db, ops[0], id) && AllKeepEpoch(Apply(db, ops[0], now).value, ops[1..], now, id))
  }

  lemma {:induction false} KeepingEpoch(db: DB, ops: seq<Op>, now: Time, id: string, base: int)
    requires EpochCounts(db, id, base) && ApplyAll(db, ops, now).Some? && AllKeepEpoch(db, ops, now, id)
    ensures EpochCounts(ApplyAll(db, ops, now).value, id, base)
    decreases |ops|
  {
    if ops != [] {
      if ops[0].Append? {
        ChangesAppend(db.events, Entry(db.events, ops[0].draft, ops[0].gap, now), id);
      }
      KeepingEpoch(Apply(db, ops[0], now).value, ops[1..], now, id, base);
    }
  }

  ghost predicate IsChange(db: DB, ops: seq<Op>) {
    exists cc: ControllerChange, gap: nat :: ChangeRefusal(db, cc).None? && ops == ChangeOps(db, cc, gap)
  }

  /** Over any history in which only controller changes move the epoch, it is the
      starting value plus the number of changes journalled since. */
  lemma {:induction false} AlwaysEpoch(states: seq<DB>, txs: seq<Tx>, id: string, base: int, i: nat)
    requires History(states, txs) && DBOK(states[0]) && EpochCounts(states[0], id, base) && i < |states|
    requires forall k :: 0 <= k < |txs| && ApplyAll(states[k], txs[k].ops, txs[k].now).Some? ==>
      AllKeepEpoch(states[k], txs[k].ops, txs[k].now, id) || IsChange(states[k], txs[k].ops)
    ensures EpochCounts(states[i], id, base)
  {
    if i > 0 {
      var db, tx := states[i - 1], txs[i - 1];
      AlwaysEpoch(states, txs, id, base, i - 1);
      AlwaysDB(states, txs, 0, i - 1);
      if ApplyAll(db, tx.ops, tx.now).Some? {
        if IsChange(db, tx.ops) {
          var cc: ControllerChange, gap: nat :| ChangeRefusal(db, cc).None? && tx.ops == ChangeOps(db, cc, gap);
          ChangeKeepsEpoch(db, cc, gap, tx.now, id, base);
        } else {
          KeepingEpoch(db, tx.ops, tx.now, id, base);
        }
      }
    }
  }

  // ------------------------------------------------------------------------ reading

  function PageLimit(limit: int): nat {
    if limit <= 0 then DEFAULT_PAGE else if limit > MAX_PAGE then MAX_PAGE else limit
  }

  /** The page has as many events as asked for, at most 500, and 200 when no limit is
      given. */
  ghost predicate IsPage(log: seq<Event>, key: Event -> int, after: int, limit: int, page: seq<Event>) {
    && (limit <= 0 ==> page == P.Page(log, key, after, 200))
    && (1 <= limit <= 500 ==> page == P.Page(log, key, after, limit))
    && (limit > 500 ==> page == P.Page(log, key, after, 500))
  }

  /** Events after a position, in order of position. */
  function EventsAfter(db: DB, pos: int, limit: int): seq<Event> {
    P.Page(db.events, Pos, pos, PageLimit(limit))
  }

  /** Events of one stream after a sequence number. */
  function EventsForStream(db: DB, stream: string, afterSeq: int, limit: int): seq<Event> {
    P.Page(OfStream(db.events, stream), SeqNo, afterSeq, PageLimit(limit))
  }

  ghost predicate Contiguous(events: seq<Event>, afterSeq: int) {
    forall i :: 0 <= i < |events| ==> events[i].seqNo == afterSeq + 1 + i
  }

  /** Reports whether the events continue right after `afterSeq`, and the first gap. */
  method ValidateContiguous(events: seq<Event>, afterSeq: int) returns (gap: Option<nat>)
    ensures gap.None? <==> Contiguous(events, afterSeq)
    ensures gap.Some? ==> gap.value < |events| && Contiguous(events[..gap.value], afterSeq)
    ensures gap.Some? ==> events[gap.value].seqNo != afterSeq + 1 + gap.value
  {
    var want := afterSeq + 1;
    for i := 0 to |events|
      invariant want == afterSeq + 1 + i && Contiguous(events[..i], afterSeq)
    {
      if events[i].seqNo != want {
        return Some(i);
      }
      assert events[..i + 1] == events[..i] + [events[i]];
      want := want + 1;
    }
    assert events[..|events|] == events;
    return None;
  }

  /** Every page of a stream continues right after its cursor, unless the cursor is
      negative and the stream not empty. */
  lemma StreamPageContiguousIff(db: DB, stream: string, afterSeq: int, limit: int)
    requires DBOK(db)
    ensures Contiguous(EventsForStream(db, stream, afterSeq, limit), afterSeq)
      <==> afterSeq >= 0 || OfStream(db.events, stream) == []
  {
    assert StreamOK(db.events, stream);
    NumberedPage(OfStream(db.events, stream), afterSeq, PageLimit(limit));
  }

  lemma NumberedPage(log: seq<Event>, afterSeq: int, limit: nat)
    requires 1 <= limit && forall i :: 0 <= i < |log| ==> log[i].seqNo == i + 1
    ensures Contiguous(P.Page(log, SeqNo, afterSeq, limit), afterSeq) <==> afterSeq >= 0 || log == []
  {
    var n := if afterSeq < 0 then 0 else if afterSeq <= |log| then afterSeq else |log|;
    P.CutUnique(log, SeqNo, afterSeq, n);
    NumberedSlice(log, n, if n + limit <= |log| then n + limit else |log|, afterSeq);
  }

  lemma NumberedSlice(log: seq<Event>, n: nat, m: nat, afterSeq: int)
    requires forall i :: 0 <= i < |log| ==> log[i].seqNo == i + 1
    requires n <= m <= |log| && (n == m ==> n == |log|)
    requires n == if afterSeq < 0 then 0 else if afterSeq <= |log| then afterSeq else |log|
    ensures Contiguous(log[n..m], afterSeq) <==> afterSeq >= 0 || log == []
  {
    assert forall i :: 0 <= i < m - n ==> log[n..m][i] == log[n + i];
    assert afterSeq < 0 && log != [] ==> log[n..m][0].seqNo == 1;
  }

  /** Following the position cursor, with any number of transactions between two
      requests, returns in order and exactly once the journal between the first and the
      last cursor. Request `i` sees the state after `at[i]` transactions. */
  lemma JournalFollow(states: seq<DB>, txs: seq<Tx>, at: seq<nat>, limits: seq<int>, pos: int)
    requires History(states, txs) && DBOK(states[0]) && |limits| == |at| > 0
    requires forall i :: 0 <= i < |at| ==> at[i] < |states|
    requires forall i, j :: 0 <= i <= j < |at| ==> at[i] <= at[j]
    ensures var rounds := Rounds(seq(|at|, i requires 0 <= i < |at| => states[at[i]]), limits);
            var log := states[at[|at| - 1]].events;
            var last := P.Reached(rounds, Pos, pos);
      && P.Cut(log, Pos, pos) <= P.Cut(log, Pos, last)
      && P.Collected(rounds, Pos, pos) == log[P.Cut(log, Pos, pos)..P.Cut(log, Pos, last)]
  {
    var seen := seq(|at|, i requires 0 <= i < |at| => states[at[i]]);
    var log := states[at[|at| - 1]].events;
    forall i, j | 0 <= i <= j < |at| ensures DBOK(seen[j]) && seen[i].events <= seen[j].events {
      AlwaysDB(states, txs, at[i], at[j]);
    }
    GrowingFollow(seen, limits, pos);
  }

  lemma GrowingFollow(seen: seq<DB>, limits: seq<int>, pos: int)
    requires |limits| == |seen| > 0
    requires forall i :: 0 <= i < |seen| ==> DBOK(seen[i])
    requires forall i, j :: 0 <= i <= j < |seen| ==> seen[i].events <= seen[j].events
    ensures var rounds, log := Rounds(seen, limits), seen[|seen| - 1].events;
            var last := P.Reached(rounds, Pos, pos);
      && P.Cut(log, Pos, pos) <= P.Cut(log, Pos, last)
      && P.Collected(rounds, Pos, pos) == log[P.Cut(log, Pos, pos)..P.Cut(log, Pos, last)]
  {
    P.FollowEnumerates(Rounds(seen, limits), seen[|seen| - 1].events, Pos, pos);
  }

  /** Once writes stop, asking more often than events remain returns all of them and
      then an empty page. */
  lemma JournalFollowEnds(db: DB, limits: seq<int>, pos: int)
    requires DBOK(db) && |limits| > |db.events| - P.Cut(db.events, Pos, pos)
    ensures var rounds := Rounds(seq(|limits|, i => db), limits);
      && P.Collected(rounds, Pos, pos) == db.events[P.Cut(db.events, Pos, pos)..]
      && forall limit :: EventsAfter(db, P.Reached(rounds, Pos, pos), limit) == []
  {
    P.FollowEnds(Rounds(seq(|limits|, i => db), limits), db.events, Pos, pos);
  }

  /** A follower's requests, one per state. */
  function Rounds(states: seq<DB>, limits: seq<int>): (r: seq<P.Round<Event>>)
    requires |limits| == |states|
    ensures |r| == |states|
    ensures forall i :: 0 <= i < |r| ==> r[i] == P.Round(states[i].events, PageLimit(limits[i]))
  {
    seq(|states|, i requires 0 <= i < |states| => P.Round(states[i].events, PageLimit(limits[i])))
  }

  // ----------------------------------------------------------------------- the store

  class Store {
    var db: DB

    constructor ()
      ensures db == EMPTY_DB
    {
      db := EMPTY_DB;
    }

    /** Runs the writes of a transaction on a working copy and publishes it only if all
        of them and the commit go through. */
    method Update(ops: seq<Op>, now: Time, sqlFails: nat -> bool, commitFails: bool) returns (ok: bool)
      requires DBOK(db)
      modifies this
      ensures DBOK(db) && db == Outcome(old(db), Tx(ops, now, ok))
      ensures ok <==> !commitFails && (forall i :: 0 <= i < |ops| ==> !sqlFails(i)) && ApplyAll(old(db), ops, now).Some?
    {
      var tx := db;
      for i := 0 to |ops|
        invariant db == old(db) && ApplyAll(tx, ops[i..], now) == ApplyAll(db, ops, now)
        invariant forall k :: 0 <= k < i ==> !sqlFails(k)
      {
        NextOp(tx, ops, i, now);
        if sqlFails(i) {
          return false;
        }
        var r := Apply(tx, ops[i], now);
        if r.None? {
          return false;
        }
        tx := r.value;
      }
      if commitFails {
        return false;
      }
      ApplyAllKeepsDB(db, ops, now);
      db := tx;
      return true;
    }

    /** Moves a run and journals it. A refused or failed change leaves no trace. */
    method TransitionRun(tr: Transition, gap: nat, now: Time, sqlFails: nat -> bool, commitFails: bool)
      returns (res: Result<Run, StoreError>)
      requires DBOK(db)
      modifies this
      ensures DBOK(db)
      ensures res.Err? ==> db == old(db)
      ensures TransitionRefusal(old(db), tr).Some? ==> res == Err(TransitionRefusal(old(db), tr).value)
      ensures TransitionRefusal(old(db), tr).None? ==>
        res == Err(SQLError) || (res.Ok? && !commitFails && !sqlFails(0) && !sqlFails(1))
      ensures TransitionRefusal(old(db), tr).None? && !commitFails && !sqlFails(0) && !sqlFails(1) ==> res.Ok?
      ensures res.Ok? ==>
        && TransitionRefusal(old(db), tr).None?
        && Some(db) == ApplyAll(old(db), TransitionOps(old(db), tr, gap), now)
        && tr.runID in old(db).runs && tr.runID in db.runs && res.value == db.runs[tr.runID]
        && RowMoved(old(db).runs[tr.runID], res.value, tr)
        && Journalled(old(db).events, db.events, "run:" + tr.runID, tr.at, tr.source, "run." + tr.status, tr.payload)
        && db.computers == old(db).computers && db.runs - {tr.runID} == old(db).runs - {tr.runID}
      ensures res == Err(BadInput) ==> !CheckID(tr.runID, "run_") || !Valid(tr.status) || tr.at == ZERO_TIME
      ensures res == Err(NotFound) ==> tr.runID !in old(db).runs
      ensures res == Err(IllegalTransition) ==>
        tr.runID in old(db).runs && !CanTransition(old(db).runs[tr.runID].status, tr.status)
      ensures res.Ok? ==> Valid(tr.status) && tr.at != ZERO_TIME && CanTransition(old(db).runs[tr.runID].status, tr.status)
    {
      var refusal := TransitionRefusal(db, tr);
      if refusal.Some? {
        return Err(refusal.value);
      }
      TransitionMeaning(db, tr, gap, now);
      var ok := Update(TransitionOps(db, tr, gap), now, sqlFails, commitFails);
      return if ok then Ok(db.runs[tr.runID]) else Err(SQLError);
    }

    /** Changes the controller of a computer session, raises its epoch and journals it. */
    method SetComputerController(cc: ControllerChange, gap: nat, now: Time, sqlFails: nat -> bool, commitFails: bool)
      returns (res: Result<Computer, StoreError>)
      requires DBOK(db)
      modifies this
      ensures DBOK(db)
      ensures res.Err? ==> db == old(db)
      ensures ChangeRefusal(old(db), cc).Some? ==> res == Err(ChangeRefusal(old(db), cc).value)
      ensures ChangeRefusal(old(db), cc).None? ==>
        res == Err(SQLError) || (res.Ok? && !commitFails && !sqlFails(0) && !sqlFails(1))
      ensures ChangeRefusal(old(db), cc).None? && !commitFails && !sqlFails(0) && !sqlFails(1) ==> res.Ok?
      ensures res.Ok? ==>
        && ChangeRefusal(old(db), cc).None?
        && Some(db) == ApplyAll(old(db), ChangeOps(old(db), cc, gap), now)
        && cc.computerID in old(db).computers
        && cc.computerID in db.computers && res.value == db.computers[cc.computerID]
        && ControlMoved(old(db).computers[cc.computerID], res.value, cc)
        && Journalled(old(db).events, db.events, "computer:" + cc.computerID, cc.at, cc.source,
                      "computer.controller.changed", cc.payload)
        && db.runs == old(db).runs && db.computers - {cc.computerID} == old(db).computers - {cc.computerID}
      ensures res == Err(NotFound) ==> cc.computerID !in old(db).computers
      ensures res == Err(BadInput) ==>
        !CheckID(cc.computerID, "cmp_") || cc.at == ZERO_TIME || !Wellformed(cc.controller)
      ensures res.Ok? ==> cc.at != ZERO_TIME && Wellformed(cc.controller)
    {
      var refusal := ChangeRefusal(db, cc);
      if refusal.Some? {
        return Err(refusal.value);
      }
      ChangeMeaning(db, cc, gap, now);
      var ok := Update(ChangeOps(db, cc, gap), now, sqlFails, commitFails);
      return if ok then Ok(db.computers[cc.computerID]) else Err(SQLError);
    }

    /** The daemon's events call: a page and the position to ask with next. */
    method RuntimeEvents(stream: string, afterPos: int, afterSeq: int, limit: int)
      returns (events: seq<Event>, next: int)
      requires DBOK(db)
      ensures stream == "" ==> IsPage(db.events, Pos, afterPos, limit, events) && next == P.NextCursor(events, Pos, afterPos)
      ensures stream != "" ==> IsPage(OfStream(db.events, stream), SeqNo, afterSeq, limit, events)
      ensures next >= afterPos && forall e :: e in events ==> e.pos <= next
      ensures next == afterPos || exists e :: e in events && e.pos == next
    {
      var n := limit;
      if n <= 0 {
        n := 200;
      }
      if n > 500 {
        n := 500;
      }
      events := if stream == "" then EventsAfter(db, afterPos, n) else EventsForStream(db, stream, afterSeq, n);
      next := GreatestPos(events, afterPos);
      if stream == "" {
        NextIsLast(db, afterPos, limit, next);
      }
    }
  }

  /** The greatest position of the events, or `pos` if that is greater. */
  method GreatestPos(events: seq<Event>, pos: int) returns (next: int)
    ensures next >= pos && forall k :: 0 <= k < |events| ==> events[k].pos <= next
    ensures next == pos || exists k :: 0 <= k < |events| && events[k].pos == next
  {
    next := pos;
    for i := 0 to |events|
      invariant next >= pos && forall k :: 0 <= k < i ==> events[k].pos <= next
      invariant next == pos || exists k :: 0 <= k < i && events[k].pos == next
    {
      if events[i].pos > next {
        next := events[i].pos;
      }
    }
  }

  lemma NextOp(db: DB, ops: seq<Op>, i: nat, now: Time)
    requires i < |ops|
    ensures ApplyAll(db, ops[i..], now) ==
      match Apply(db, ops[i], now) { case None => None case Some(next) => ApplyAll(next, ops[i + 1..], now) }
  {
    assert ops[i..][1..] == ops[i + 1..];
  }

  lemma NextIsLast(db: DB, pos: int, limit: int, next: int)
    requires DBOK(db)
    requires var page := EventsAfter(db, pos, limit);
      && next >= pos && (forall k :: 0 <= k < |page| ==> page[k].pos <= next)
      && (next == pos || exists k :: 0 <= k < |page| && page[k].pos == next)
    ensures next == P.NextCursor(EventsAfter(db, pos, limit), Pos, pos)
  {
    var page := EventsAfter(db, pos, limit);
    if page != [] {
      assert forall k :: 0 <= k < |page| ==> page[k] == db.events[P.Cut(db.events, Pos, pos) + k];
    }
  }
}
