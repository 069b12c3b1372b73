/** The durable run store (internal/agentops/run_store.go, run_events.go): the rows
    and journals a client process leaves behind, and their recovery on reopening. */
module RunStore {
  import opened Wire
  import opened RunRecords
  import R = Replay
  import S = Scheduler

  const DEFAULT_CAPACITY := 200

  /** One agent_runs row, with times in milliseconds; `rest` stands for the columns
      that are only copied. */
  datatype Row = Row(status: string, client: string, startedMs: int, finishedMs: int,
                     output: string, errText: string, rest: string)

  /** A journal row, its time in milliseconds. */
  datatype Stored = Stored(at: int, source: string, kind: string, payload: string)

  /** The journal of one run: entries of agent_run_events keyed by sequence number. */
  type Journal = map<nat, Stored>

  predicate Stale(status: string) {
    status == "queued" || status == "running"
  }

  /** The status a stored word stands for in memory: anything that is not terminal
      is reported as interrupted. */
  function LoadStatus(word: string): Status {
    if word == "completed" then Completed
    else if word == "failed" then Failed
    else if word == "cancelled" then Cancelled
    else if word == "timeout" then Timeout
    else Interrupted
  }

  /** The word a status is stored as. */
  function Word(status: Status): string {
    match status
    case Queued => "queued"
    case Running => "running"
    case Completed => "completed"
    case Failed => "failed"
    case Cancelled => "cancelled"
    case Timeout => "timeout"
    case Interrupted => "interrupted"
  }

  /** Stored words tell terminal statuses apart, a live one comes back as interrupted,
      and the journal spells statuses with the same words. */
  lemma WordsTellStatuses(status: Status)
    ensures LoadStatus(Word(status)) == if Terminal(status) then status else Interrupted
    ensures StatusKind(status) == "run." + (if status == Running then "started" else Word(status))
    ensures Stale(Word(status)) <==> !Terminal(status)
  {
    assert "run." + "started" == "run.started" && "run." + "queued" == "run.queued";
    assert "run." + "completed" == "run.completed" && "run." + "failed" == "run.failed";
    assert "run." + "cancelled" == "run.cancelled" && "run." + "timeout" == "run.timeout";
    assert "run." + "interrupted" == "run.interrupted";
  }

  function TimeFromMilli(ms: int): Option<Time> {
    if FromMs(ms) == ZERO_TIME then None else Some(FromMs(ms))
  }

  /** A row as it is read back. */
  function SnapshotOf(id: string, row: Row): Snapshot {
    Snapshot(id, row.client, LoadStatus(row.status), TimeFromMilli(row.startedMs), TimeFromMilli(row.finishedMs),
             row.output, row.errText)
  }

  // --------------------------------------------------------------- journal heads

  /** COALESCE(MAX(seq), 0). */
  ghost predicate IsHead(j: Journal, h: nat) {
    if j == map[] then h == 0 else h in j && forall k :: k in j ==> k <= h
  }

  lemma {:induction false} HeadExists(keys: set<nat>) returns (h: nat)
    requires keys != {}
    ensures h in keys && forall k :: k in keys ==> k <= h
    decreases keys
  {
    var x :| x in keys;
    h := x;
    var rest := keys - {x};
    assert forall k :: k in keys ==> k == x || k in rest;
    if rest != {} {
      var m := HeadExists(rest);
      h := if m > x then m else x;
    }
  }

  ghost function Head(j: Journal): (h: nat)
    ensures IsHead(j, h)
  {
    if j == map[] then 0
    else
      assert j.Keys != {};
      assert exists h :: h in j && forall k :: k in j ==> k <= h by {
        var m := HeadExists(j.Keys);
      }
      var h :| h in j && forall k :: k in j ==> k <= h;
      h
  }

  lemma HeadUnique(j: Journal, h: nat)
    requires IsHead(j, h)
    ensures Head(j) == h
  {
    assert j != map[] ==> h in j && Head(j) in j;
  }

  /** The journal holds exactly the numbers 1..n. */
  ghost predicate Contiguous(j: Journal, n: nat) {
    forall k :: k in j <==> 1 <= k <= n
  }

  lemma ContiguousHead(j: Journal, n: nat)
    requires Contiguous(j, n)
    ensures Head(j) == n
  {
    assert n in j <==> 1 <= n;
    assert n == 0 ==> j == map[] by {
      assert n == 0 ==> j.Keys == {};
    }
    HeadUnique(j, n);
  }

  function JournalOf(events: map<string, Journal>, id: string): Journal {
    if id in events then events[id] else map[]
  }

  /** The journals with one entry put in. */
  function WithEntry(events: map<string, Journal>, id: string, n: nat, e: Stored): (r: map<string, Journal>)
    ensures JournalOf(r, id) == JournalOf(events, id)[n := e]
    ensures forall other :: other != id ==> JournalOf(r, other) == JournalOf(events, other)
  {
    events[id := JournalOf(events, id)[n := e]]
  }

  /** The row an event is stored as. */
  function RowOf(ev: RunEvent): Stored {
    Stored(Ms(ev.at), ev.source, ev.kind, ev.payload)
  }

  // ------------------------------------------------------------------- recovery

  const INTERRUPTED_KIND := "run.interrupted"

  function RecoveredRow(row: Row): Row {
    if Stale(row.status) then row.(status := "interrupted") else row
  }

  ghost function RecoveredJournal(rows: map<string, Row>, events: map<string, Journal>, now: Time, id: string): Journal {
    var j := JournalOf(events, id);
    if id in rows && Stale(rows[id].status) then
      j[Head(j) + 1 := Stored(Ms(now), OWN_SOURCE, INTERRUPTED_KIND, "")]
    else j
  }

  /** `rows'` and `events'` are what opening makes of `rows` and `events`. */
  ghost predicate Opened(rows: map<string, Row>, events: map<string, Journal>, now: Time,
                         rows': map<string, Row>, events': map<string, Journal>)
  {
    && rows'.Keys == rows.Keys
    && (forall id :: id in rows ==> rows'[id] == RecoveredRow(rows[id]))
    && (forall id :: JournalOf(events', id) == RecoveredJournal(rows, events, now, id))
  }

  /** A stale run gets exactly one interrupted event, at the next number; every
      other entry of every journal stays, and so do all other rows. */
  lemma RecoveryEffect(rows: map<string, Row>, events: map<string, Journal>, now: Time,
                       rows': map<string, Row>, events': map<string, Journal>, id: string)
    requires Opened(rows, events, now, rows', events')
    ensures id in rows' <==> id in rows
    ensures id in rows ==>
      if rows[id].status == "queued" || rows[id].status == "running" then
        rows'[id] == rows[id].(status := "interrupted") && LoadStatus(rows'[id].status) == Interrupted
      else rows'[id] == rows[id]
    ensures var j, j' := JournalOf(events, id), JournalOf(events', id);
      && (forall k :: k in j ==> k in j' && j'[k] == j[k])
      && (if id in rows && Stale(rows[id].status) then
            && j'.Keys - j.Keys == {Head(j) + 1}
            && j'[Head(j) + 1] == Stored(Ms(now), "codebridge", "run.interrupted", "")
          else j' == j)
      && (forall n: nat :: Contiguous(j, n) ==>
            Contiguous(j', if id in rows && Stale(rows[id].status) then n + 1 else n))
  {
    var j := JournalOf(events, id);
    assert JournalOf(events', id) == RecoveredJournal(rows, events, now, id);
    assert Head(j) + 1 !in j;
    forall n: nat | Contiguous(j, n)
      ensures Contiguous(JournalOf(events', id), if id in rows && Stale(rows[id].status) then n + 1 else n)
    {
      ContiguousHead(j, n);
    }
  }

  /** Opening a second time changes nothing. */
  lemma ReopenIsIdentity(rows: map<string, Row>, events: map<string, Journal>, now: Time,
                         rows': map<string, Row>, events': map<string, Journal>, later: Time,
                         rows'': map<string, Row>, events'': map<string, Journal>)
    requires Opened(rows, events, now, rows', events') && Opened(rows', events', later, rows'', events'')
    ensures rows'' == rows'
    ensures forall id :: JournalOf(events'', id) == JournalOf(events', id)
  {
    forall id | id in rows' ensures !Stale(rows'[id].status) && rows''[id] == rows'[id] {
      assert rows'[id] == RecoveredRow(rows[id]);
    }
    forall id ensures JournalOf(events'', id) == JournalOf(events', id) {
      assert JournalOf(events'', id) == RecoveredJournal(rows', events', later, id);
    }
  }

  /** Recovery is two statements. If the process dies after journaling the
      interruptions and before rewriting the rows, the next opening journals a
      second interruption for exactly the runs that were stale. */
  lemma CrashBetweenRepeatsEvent(rows: map<string, Row>, events: map<string, Journal>, now: Time,
                                 events': map<string, Journal>, later: Time,
                                 rows'': map<string, Row>, events'': map<string, Journal>, id: string)
    requires forall x :: JournalOf(events', x) == RecoveredJournal(rows, events, now, x)
    requires Opened(rows, events', later, rows'', events'')
    ensures var j, j'' := JournalOf(events, id), JournalOf(events'', id);
      if id in rows && Stale(rows[id].status) then
        j''.Keys == j.Keys + {Head(j) + 1, Head(j) + 2} && j''[Head(j) + 2].kind == INTERRUPTED_KIND
      else j'' == j
  {
    var j, j' := JournalOf(events, id), JournalOf(events', id);
    assert j' == RecoveredJournal(rows, events, now, id);
    assert JournalOf(events'', id) == RecoveredJournal(rows, events', later, id);
    if id in rows && Stale(rows[id].status) {
      assert Head(j) + 1 in j';
      HeadUnique(j', Head(j) + 1);
    }
  }

  /** The smallest case: one running row with an empty journal ends with two
      interruptions. */
  lemma CrashRepeatsForOneRow(row: Row, now: Time, later: Time, rows: map<string, Row>, events: map<string, Journal>)
    requires row.status == "running"
    requires Opened(map["r" := row],
      map["r" := map[1 := Stored(Ms(now), OWN_SOURCE, INTERRUPTED_KIND, "")]], later, rows, events)
    ensures JournalOf(events, "r").Keys == {1, 2} && JournalOf(events, "r")[1].kind == JournalOf(events, "r")[2].kind
  {
    var before: map<string, Row> := map["r" := row];
    var none: map<string, Journal> := map[];
    var j: Journal := map[];
    var once: map<string, Journal> := map["r" := map[1 := Stored(Ms(now), OWN_SOURCE, INTERRUPTED_KIND, "")]];
    HeadUnique(j, 0);
    forall x ensures JournalOf(once, x) == RecoveredJournal(before, none, now, x) {}
    CrashBetweenRepeatsEvent(before, none, now, once, later, rows, events, "r");
    RecoveryEffect(before, once, later, rows, events, "r");
  }

  // ------------------------------------------------------------------ page reads

  /** The stored entries numbered from `k` up to `top`, ascending, at most `limit`. */
  function Scan(runID: string, j: Journal, k: nat, top: nat, limit: nat): seq<RunEvent>
    decreases if k <= top then top + 1 - k else 0
  {
    if top < k || limit == 0 then []
    else if k in j then
      [RunEvent(runID, k, FromMs(j[k].at), j[k].source, j[k].kind, j[k].payload)] + Scan(runID, j, k + 1, top, limit - 1)
    else Scan(runID, j, k + 1, top, limit)
  }

  /** The answer to a page request against the durable journal. */
  ghost function StoredPage(runID: string, j: Journal, after: int, limit: int): seq<RunEvent> {
    Scan(runID, j, if after < 0 then 0 else after + 1, Head(j), if limit <= 0 then DEFAULT_CAPACITY else limit)
  }

  lemma {:induction false} ScanContiguous(runID: string, j: Journal, n: nat, k: nat, limit: nat)
    requires Contiguous(j, n) && 1 <= k
    ensures var page := Scan(runID, j, k, n, limit);
      && |page| == (if k > n then 0 else if limit <= n + 1 - k then limit else n + 1 - k)
      && (forall i :: 0 <= i < |page| ==> page[i].seqNo == k + i && page[i].runID == runID)
    decreases if k <= n then n + 1 - k else 0
  {
    if k <= n && limit > 0 {
      ScanContiguous(runID, j, n, k + 1, limit - 1);
    }
  }

  lemma {:induction false} ScanEntries(runID: string, j: Journal, n: nat, k: nat, limit: nat, i: nat)
    requires Contiguous(j, n) && 1 <= k && i < limit && k + i <= n
    ensures i < |Scan(runID, j, k, n, limit)|
    ensures var e := j[k + i];
      Scan(runID, j, k, n, limit)[i] == RunEvent(runID, k + i, FromMs(e.at), e.source, e.kind, e.payload)
    decreases i
  {
    if i > 0 {
      ScanEntries(runID, j, n, k + 1, limit - 1, i - 1);
    }
  }

  /** A page of the durable journal holds the entries that follow the cursor, 200 of them
      unless a limit is given. */
  lemma StoredPageExact(runID: string, j: Journal, n: nat, after: int, limit: int)
    requires Contiguous(j, n)
    ensures var page, from := StoredPage(runID, j, after, limit), if after < 0 then 0 else after;
      && (var left, most := if from < n then n - from else 0, if limit <= 0 then 200 else limit;
          |page| == if left < most then left else most)
      && (forall i :: 0 <= i < |page| ==> var k := from + 1 + i;
            k in j && page[i] == RunEvent(runID, k, FromMs(j[k].at), j[k].source, j[k].kind, j[k].payload))
  {
    ContiguousHead(j, n);
    var from: nat := if after < 0 then 0 else after;
    var most: nat := if limit <= 0 then 200 else limit;
    assert StoredPage(runID, j, after, limit) == Scan(runID, j, from + 1, n, most) by {
      assert 0 !in j;
    }
    ScanContiguous(runID, j, n, from + 1, most);
    var page := Scan(runID, j, from + 1, n, most);
    forall i | 0 <= i < |page|
      ensures var k := from + 1 + i;
        k in j && page[i] == RunEvent(runID, k, FromMs(j[k].at), j[k].source, j[k].kind, j[k].payload)
    {
      ScanEntries(runID, j, n, from + 1, most, i);
    }
  }

  /** One page of the durable journal continues the cursor it was asked with. */
  lemma DurableJournalServes(runID: string, j: Journal, n: nat, after: nat, through: nat, limit: nat)
    requires Contiguous(j, n) && after < through <= n && 1 <= limit
    ensures R.Continues(StoredPage(runID, j, after, limit), after)
  {
    ContiguousHead(j, n);
    ScanContiguous(runID, j, n, after + 1, limit);
  }

  lemma {:induction false} ScanTrue(runID: string, j: Journal, k: nat, top: nat, limit: nat)
    ensures forall i :: 0 <= i < |Scan(runID, j, k, top, limit)| ==>
      Scan(runID, j, k, top, limit)[i].runID == runID
      && EntryAt(runID, j, Scan(runID, j, k, top, limit)[i].seqNo) == Scan(runID, j, k, top, limit)[i]
    decreases if k <= top then top + 1 - k else 0
  {
    if k <= top && limit > 0 {
      ScanTrue(runID, j, k + 1, top, if k in j then limit - 1 else limit);
    }
  }

  /** Entry `n` of a run's journal as an event. */
  function EntryAt(runID: string, j: Journal, n: int): RunEvent {
    if n >= 0 && n in j then RunEvent(runID, n, FromMs(j[n].at), j[n].source, j[n].kind, j[n].payload) else NO_EVENT
  }

  function TruthOf(events: map<string, Journal>): R.Label -> RunEvent {
    (at: R.Label) => EntryAt(at.runID, JournalOf(events, at.runID), at.seqNo)
  }

  /** What a replay runs against when the client has a store: each page request reads
      the durable journal in batches. */
  ghost function StoreEnv(events: map<string, Journal>, delivers: nat -> bool, jsonLen: RunEvent -> nat,
                          marshals: RunEvent -> bool): R.Env
  {
    R.Env((t: nat, runID: string, after: int) =>
            StoredPage(runID, JournalOf(events, runID), after, R.REPLAY_BATCH_SIZE),
          delivers, jsonLen, marshals)
  }

  /** A client with a store meets what a replay needs: its pages are true and of one
      run, and every cursor up to the head of a contiguous journal is served. */
  lemma StoreServes(events: map<string, Journal>, delivers: nat -> bool, jsonLen: RunEvent -> nat,
                    marshals: RunEvent -> bool, c: ReplayCursor, n: nat)
    requires Contiguous(JournalOf(events, c.runID), n) && 0 <= c.afterSeq && c.throughSeq <= n
    ensures var env := StoreEnv(events, delivers, jsonLen, marshals);
      R.OneRunPerPage(env) && R.Truthful(env, TruthOf(events)) && R.Serves(env, c)
  {
    var env := StoreEnv(events, delivers, jsonLen, marshals);
    forall t, runID, after, i | 0 <= i < |env.source(t, runID, after)|
      ensures env.source(t, runID, after)[i].runID == runID
      ensures env.source(t, runID, after)[i]
           == TruthOf(events)(R.Label(runID, env.source(t, runID, after)[i].seqNo))
    {
      var j := JournalOf(events, runID);
      ScanTrue(runID, j, if after < 0 then 0 else after + 1, Head(j), R.REPLAY_BATCH_SIZE);
    }
    forall t, m | c.afterSeq <= m < c.throughSeq ensures R.Continues(env.source(t, c.runID, m), m) {
      DurableJournalServes(c.runID, JournalOf(events, c.runID), n, m, c.throughSeq, R.REPLAY_BATCH_SIZE);
    }
  }

  // ------------------------------------------------------------------ the object

  class RunStore {
    var rows: map<string, Row>
    var events: map<string, Journal>

    /** MAX(seq) of one run's journal, 0 when it has none. */
    method LastSeq(id: string) returns (h: nat)
      ensures h == Head(JournalOf(events, id))
    {
      var j := JournalOf(events, id);
      h := 0;
      var rest := j.Keys;
      while rest != {}
        invariant rest <= j.Keys
        invariant h == 0 || h in j
        invariant forall k :: k in j && k !in rest ==> k <= h
        invariant j.Keys != rest && h == 0 ==> 0 in j
        decreases |rest|
      {
        var k :| k in rest;
        if k > h {
          h := k;
        }
        rest := rest - {k};
      }
      assert j != map[] ==> h in j by {
        assert j != map[] ==> j.Keys != {};
      }
      HeadUnique(j, h);
    }

    /** Opens the store left by an earlier process: journals an interruption for
        every row still queued or running, then marks those rows interrupted. */
    method Open(now: Time)
      modifies this
      ensures Opened(old(rows), old(events), now, rows, events)
    {
      var ids := set id | id in rows && Stale(rows[id].status);
      var todo := ids;
      while todo != {}
        invariant todo <= ids && rows == old(rows)
        invariant forall id :: id in todo ==> JournalOf(events, id) == JournalOf(old(events), id)
        invariant forall id :: id !in todo ==>
          JournalOf(events, id) == RecoveredJournal(old(rows), old(events), now, id)
        decreases |todo|
      {
        var id :| id in todo;
        var head := LastSeq(id);
        var j := JournalOf(events, id);
        if head + 1 !in j {
          events := events[id := j[head + 1 := Stored(Ms(now), OWN_SOURCE, INTERRUPTED_KIND, "")]];
        }
        todo := todo - {id};
      }
      rows := map id | id in rows :: RecoveredRow(rows[id]);
    }

    /** The run table a new manager starts from. */
    method LoadHistory() returns (runs: map<string, Record>)
      ensures runs.Keys == rows.Keys
      ensures forall id :: id in rows ==>
        runs[id] == LoadedRun(SnapshotOf(id, rows[id]), Head(JournalOf(events, id)))
    {
      runs := map[];
      var todo := rows.Keys;
      while todo != {}
        invariant todo <= rows.Keys && runs.Keys == rows.Keys - todo
        invariant forall id :: id in runs ==>
          runs[id] == LoadedRun(SnapshotOf(id, rows[id]), Head(JournalOf(events, id)))
        decreases |todo|
      {
        var id :| id in todo;
        var seqNo := LastSeq(id);
        runs := runs[id := LoadedRun(SnapshotOf(id, rows[id]), seqNo)];
        todo := todo - {id};
      }
    }

    /** INSERT OR REPLACE of one journal entry. What is read back is the event with its
        time rounded. */
    method AppendEvent(ev: RunEvent)
      requires 0 <= ev.seqNo
      modifies this`events
      ensures events == WithEntry(old(events), ev.runID, ev.seqNo, RowOf(ev))
      ensures TruthOf(events)(R.Label(ev.runID, ev.seqNo)) == Rounded(ev)
    {
      events := WithEntry(events, ev.runID, ev.seqNo, Stored(Ms(ev.at), ev.source, ev.kind, ev.payload));
    }
  }

  /** The row written for a run on every status change. */
  function RowFor(r: Record, rest: string): Row {
    Row(Word(r.status), r.client, MsOf(r.startedAt), MsOf(r.finishedAt), r.output, r.errText, rest)
  }

  function MsOf(t: Option<Time>): int {
    match t
    case None => 0
    case Some(t) => Ms(t)
  }

  /** `loaded` is `t` cut to whole milliseconds; a time in the first millisecond after the
      epoch or of the year 1 reads back as not set. */
  ghost predicate CutToMs(t: Option<Time>, loaded: Option<Time>) {
    match t
    case None => loaded == None
    case Some(t) =>
      if 0 <= t < MILLI || ZERO_TIME <= t < ZERO_TIME + MILLI then loaded == None else loaded == Some(t - t % MILLI)
  }

  lemma TimeReadBack(t: Option<Time>)
    ensures CutToMs(t, TimeFromMilli(MsOf(t)))
  {
    if t.Some? {
      assert t.value == t.value / MILLI * MILLI + t.value % MILLI;
    }
  }

  /** A restart keeps a finished run: its row is written, the store is reopened, and the
      new manager lists the run with the status, output, error and journal head it had. A
      run that was not finished is listed as interrupted. */
  lemma RestartKeepsRun(r: Record, rest: string, rows: map<string, Row>, events: map<string, Journal>, now: Time,
                        rows': map<string, Row>, events': map<string, Journal>)
    requires r.id in rows && rows[r.id] == RowFor(r, rest) && Opened(rows, events, now, rows', events')
    ensures r.id in rows'
    ensures var loaded := LoadedRun(SnapshotOf(r.id, rows'[r.id]), Head(JournalOf(events', r.id)));
      && loaded.id == r.id && loaded.client == r.client
      && loaded.status == (if Terminal(r.status) then r.status else Interrupted)
      && loaded.output == r.output && loaded.errText == r.errText
      && CutToMs(r.startedAt, loaded.startedAt) && CutToMs(r.finishedAt, loaded.finishedAt)
      && loaded.journal == [] && loaded.lines == []
      && (Terminal(r.status) ==> loaded.base == Head(JournalOf(events, r.id)))
      && (!Terminal(r.status) ==> loaded.base == Head(JournalOf(events, r.id)) + 1)
  {
    WordsTellStatuses(r.status);
    RecoveryEffect(rows, events, now, rows', events', r.id);
    TimeReadBack(r.startedAt);
    TimeReadBack(r.finishedAt);
    var j, j' := JournalOf(events, r.id), JournalOf(events', r.id);
    if !Terminal(r.status) {
      assert forall k :: k in j' ==> k in j || k == Head(j) + 1;
      HeadUnique(j', Head(j) + 1);
    }
  }

  /** Whatever an earlier process left behind, a manager started on it begins in a
      legal scheduler state: every loaded run is terminal and its done channel closed. */
  lemma LoadedHistoryIsInitial(tasks: map<string, S.Task>, max: nat, rows: map<string, Row>, heads: map<string, nat>)
    requires 1 <= max && tasks.Keys <= rows.Keys && tasks.Keys <= heads.Keys
    requires forall id :: id in tasks ==>
      tasks[id] == S.Task(LoadedRun(SnapshotOf(id, rows[id]), heads[id]), S.Gone)
    ensures S.Initial(S.State(tasks, 0, max, false, false))
    ensures S.Inv(S.State(tasks, 0, max, false, false))
  {
    forall id | id in tasks ensures LoadedOK(tasks[id].rec) {
      CancelLoadedPanics(SnapshotOf(id, rows[id]), heads[id]);
    }
    S.InitialInv(S.State(tasks, 0, max, false, false));
  }

  /** A journal fed by a run's own appends keeps the numbers 1..eventSeq. */
  lemma AppendKeepsContiguous(j: Journal, n: nat, e: Stored)
    requires Contiguous(j, n)
    ensures Contiguous(j[n + 1 := e], n + 1)
  {
  }
}
