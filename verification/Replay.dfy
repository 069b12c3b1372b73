/** The client side of reconciliation (cmd/client/runtime_events.go): advertising
    journal heads after a reconnect and replaying the suffixes the manager asks for. */
module Replay {
  import opened Wire
  import Broker

  const MAX_SYNC_HEADS := 256
  const REPLAY_BATCH_SIZE := 200
  const MAX_RESPONSE_BYTES := 768 * 1024

  /** What a replay runs against. `source` answers the t-th page request for the
      events of a run after a sequence number, `delivers` says whether the n-th
      send succeeds, `jsonLen` and `marshals` stand for the JSON encoder. */
  datatype Env = Env(
    source: (nat, string, int) -> seq<RunEvent>,
    delivers: nat -> bool,
    jsonLen: RunEvent -> nat,
    marshals: RunEvent -> bool)

  // ------------------------------------------------------------------ envelopes

  function Decimal(n: nat): string {
    if n < 10 then [('0' as int + n) as char] else Decimal(n / 10) + [('0' as int + n % 10) as char]
  }

  function Value(digits: string): int {
    if digits == "" then 0
    else Value(digits[..|digits| - 1]) * 10 + (digits[|digits| - 1] as int - '0' as int)
  }

  /** The decimal form reads back as the number and has no leading zero. */
  lemma {:induction false} DecimalReads(n: nat)
    ensures Value(Decimal(n)) == n
    ensures Decimal(n) != "" && (Decimal(n)[0] == '0' ==> n == 0)
    ensures forall c :: c in Decimal(n) ==> '0' <= c <= '9'
  {
    if n >= 10 {
      DecimalReads(n / 10);
      assert Decimal(n)[..|Decimal(n)| - 1] == Decimal(n / 10);
    } else {
      assert Decimal(n)[..0] == "";
    }
  }

  /** `ev` brings `entry` across the wire: an entry that fits in a message as it is, one
      that does not with a note in place of its payload. */
  ghost predicate Carries(jsonLen: RunEvent -> nat, entry: RunEvent, ev: RunEvent) {
    && (jsonLen(entry) <= MAX_RESPONSE_BYTES ==> ev == entry)
    && (jsonLen(entry) > MAX_RESPONSE_BYTES ==>
          && ev.runID == entry.runID && ev.seqNo == entry.seqNo && ev.at == entry.at
          && ev.source == entry.source && ev.kind == entry.kind
          && ev.payload == "[runtime event payload omitted: " + Decimal(|entry.payload|) + " bytes]")
  }

  /** The wire form of an event: an oversized payload is replaced by a note. */
  function WireForm(jsonLen: RunEvent -> nat, ev: RunEvent): (wire: RunEvent)
    ensures Carries(jsonLen, ev, wire)
  {
    if jsonLen(ev) > MAX_RESPONSE_BYTES then
      ev.(payload := "[runtime event payload omitted: " + Decimal(|ev.payload|) + " bytes]")
    else ev
  }

  function Envelope(env: Env, ev: RunEvent): Option<RunEvent> {
    if env.marshals(ev) && env.marshals(WireForm(env.jsonLen, ev)) then Some(WireForm(env.jsonLen, ev)) else None
  }

  /** An event that fits is sent exactly when it encodes; one that does not must encode
      twice. */
  lemma EnvelopeMeaning(env: Env, ev: RunEvent)
    ensures env.jsonLen(ev) <= MAX_RESPONSE_BYTES ==> Envelope(env, ev) == if env.marshals(ev) then Some(ev) else None
    ensures Envelope(env, ev).Some? ==> Carries(env.jsonLen, ev, Envelope(env, ev).value)
    ensures env.jsonLen(ev) > MAX_RESPONSE_BYTES ==> forall note ::
      Carries(env.jsonLen, ev, note) ==>
        (Envelope(env, ev) == if env.marshals(ev) && env.marshals(note) then Some(note) else None)
  {
  }

  // ---------------------------------------------------------------- what is asked

  datatype Label = Label(runID: string, seqNo: int)

  /** The numbers after+1 .. through of one run, ascending. */
  function Span(runID: string, after: int, through: int): (labels: seq<Label>)
    ensures |labels| == if after < through then through - after else 0
    ensures forall i :: 0 <= i < |labels| ==> labels[i] == Label(runID, after + 1 + i)
  {
    if after < through then seq(through - after, i => Label(runID, after + 1 + i)) else []
  }

  function Wanted(request: seq<ReplayCursor>): seq<Label> {
    if request == [] then []
    else
      var c := request[|request| - 1];
      Wanted(request[..|request| - 1]) + Span(c.runID, c.afterSeq, c.throughSeq)
  }

  function Labels(sent: seq<RunEvent>): seq<Label> {
    seq(|sent|, i requires 0 <= i < |sent| => Label(sent[i].runID, sent[i].seqNo))
  }

  lemma {:induction false} WantedPrefix(request: seq<ReplayCursor>, i: nat)
    requires i <= |request|
    ensures Wanted(request[..i]) <= Wanted(request)
    decreases |request|
  {
    if i == |request| {
      assert request[..i] == request;
    } else {
      WantedPrefix(request[..|request| - 1], i);
      assert request[..|request| - 1][..i] == request[..i];
    }
  }

  lemma SpanSplit(runID: string, a: int, b: int, c: int)
    requires a <= b <= c
    ensures Span(runID, a, b) + Span(runID, b, c) == Span(runID, a, c)
  {
  }

  lemma PartWayThrough(request: seq<ReplayCursor>, i: nat, reached: int)
    requires i < |request| && request[i].afterSeq <= reached <= request[i].throughSeq
    ensures Wanted(request[..i]) + Span(request[i].runID, request[i].afterSeq, reached) <= Wanted(request)
    ensures Wanted(request[..i]) + Span(request[i].runID, request[i].afterSeq, request[i].throughSeq)
         == Wanted(request[..i + 1])
  {
    var c := request[i];
    var done, part, rest :=
      Wanted(request[..i]), Span(c.runID, c.afterSeq, reached), Span(c.runID, reached, c.throughSeq);
    SpanSplit(c.runID, c.afterSeq, reached, c.throughSeq);
    WantedStep(request, i);
    WantedPrefix(request, i + 1);
    PartOf(done, part, rest, Wanted(request[..i + 1]), Wanted(request));
  }

  lemma PartOf<T>(done: seq<T>, part: seq<T>, rest: seq<T>, step: seq<T>, whole: seq<T>)
    requires done + (part + rest) == step && step <= whole
    ensures done + part <= whole
  {
    assert done + (part + rest) == (done + part) + rest;
    PrefixChain(done + part, rest, whole);
  }

  lemma DoneSoFar(request: seq<ReplayCursor>, i: nat, done: seq<Label>)
    requires i < |request| && done == Wanted(request[..i])
    ensures done <= Wanted(request)
  {
    WantedPrefix(request, i);
  }

  lemma AllDone(request: seq<ReplayCursor>, done: seq<Label>)
    requires done == Wanted(request[..|request|])
    ensures done == Wanted(request)
  {
    assert request[..|request|] == request;
  }

  lemma DonePart(request: seq<ReplayCursor>, i: nat, done: seq<Label>, reached: int, labels: seq<Label>)
    requires i < |request| && request[i].afterSeq <= reached <= request[i].throughSeq
    requires done == Wanted(request[..i]) && labels == done + Span(request[i].runID, request[i].afterSeq, reached)
    ensures labels <= Wanted(request)
    ensures reached == request[i].throughSeq ==> labels == Wanted(request[..i + 1])
  {
    PartWayThrough(request, i, reached);
  }

  lemma WantedStep(request: seq<ReplayCursor>, i: nat)
    requires i < |request|
    ensures Wanted(request[..i + 1])
         == Wanted(request[..i]) + Span(request[i].runID, request[i].afterSeq, request[i].throughSeq)
  {
    assert request[..i + 1][..i] == request[..i];
  }

  lemma PrefixChain<T>(a: seq<T>, b: seq<T>, whole: seq<T>)
    requires a + b <= whole
    ensures a <= whole
  {
    assert a == (a + b)[..|a|];
  }

  // ------------------------------------------------------------------- the source

  /** Pages hold events of the run that was asked about. */
  ghost predicate OneRunPerPage(env: Env) {
    forall t, runID, n, j ::
      0 <= j < |env.source(t, runID, n)| ==> env.source(t, runID, n)[j].runID == runID
  }

  /** Pages hold journal entries unchanged. */
  ghost predicate Truthful(env: Env, truth: Label -> RunEvent) {
    forall t, runID, n, j :: 0 <= j < |env.source(t, runID, n)| ==>
      env.source(t, runID, n)[j] == truth(Label(runID, env.source(t, runID, n)[j].seqNo))
  }

  ghost predicate Continues(page: seq<RunEvent>, n: int) {
    page != [] && forall j :: 0 <= j < |page| ==> page[j].seqNo == n + 1 + j
  }

  /** Every page asked for below `through` is non-empty and goes on without a gap. */
  ghost predicate Serves(env: Env, c: ReplayCursor) {
    forall t, n :: c.afterSeq <= n < c.throughSeq ==> Continues(env.source(t, c.runID, n), n)
  }

  ghost predicate SendsFail(env: Env) {
    (exists n :: !env.delivers(n)) || (exists ev :: Envelope(env, ev).None?)
  }

  ghost predicate MatchesTruth(env: Env, sent: seq<RunEvent>, truth: Label -> RunEvent) {
    forall i :: 0 <= i < |sent| ==> Carries(env.jsonLen, truth(Labels(sent)[i]), sent[i])
  }

  lemma SendStep(env: Env, sent: seq<RunEvent>, ev: RunEvent, truth: Label -> RunEvent,
                 t: nat, runID: string, n: int, k: nat)
    requires OneRunPerPage(env)
    requires k < |env.source(t, runID, n)| && env.source(t, runID, n)[k] == ev
    ensures var sent' := sent + [WireForm(env.jsonLen, ev)];
      && Labels(sent') == Labels(sent) + [Label(runID, ev.seqNo)]
      && (Truthful(env, truth) && MatchesTruth(env, sent, truth) ==> MatchesTruth(env, sent', truth))
  {
    var sent' := sent + [WireForm(env.jsonLen, ev)];
    assert Labels(sent') == Labels(sent) + [Label(runID, ev.seqNo)];
    if Truthful(env, truth) && MatchesTruth(env, sent, truth) {
      forall i | 0 <= i < |sent'|
        ensures Carries(env.jsonLen, truth(Labels(sent')[i]), sent'[i])
      {
        assert i < |sent| ==> Labels(sent')[i] == Labels(sent)[i];
      }
    }
  }

  lemma SendNext(env: Env, before: seq<RunEvent>, sent: seq<RunEvent>, ev: RunEvent, truth: Label -> RunEvent,
                 t: nat, runID: string, from: int, next: int, k: nat)
    requires OneRunPerPage(env) && from <= next && ev.seqNo == next + 1
    requires k < |env.source(t, runID, from)| && env.source(t, runID, from)[k] == ev
    requires Labels(sent) == Labels(before) + Span(runID, from, next)
    ensures var sent' := sent + [WireForm(env.jsonLen, ev)];
      && Labels(sent') == Labels(before) + Span(runID, from, ev.seqNo)
      && (Truthful(env, truth) && MatchesTruth(env, sent, truth) ==> MatchesTruth(env, sent', truth))
  {
    SendStep(env, sent, ev, truth, t, runID, from, k);
    SpanSplit(runID, from, next, ev.seqNo);
    assert Span(runID, next, ev.seqNo) == [Label(runID, ev.seqNo)];
  }

  /** `sent'` is `sent` and then the numbers after `from` up to `to`, in order. */
  ghost predicate Counts(sent: seq<RunEvent>, sent': seq<RunEvent>, from: int, to: int) {
    && |sent'| == |sent| + (to - from) && sent <= sent'
    && forall i :: |sent| <= i < |sent'| ==> sent'[i].seqNo == from + 1 + (i - |sent|)
  }

  lemma CountsOn(sent: seq<RunEvent>, sent': seq<RunEvent>, from: int, ev: RunEvent)
    requires Counts(sent, sent', from, ev.seqNo - 1)
    ensures Counts(sent, sent' + [ev], from, ev.seqNo)
  {
  }

  /** Sends one page: the events that continue `next`, up to `through`. Whatever the page
      holds, what is sent goes on from `next` without a gap. */
  method SendPage(env: Env, c: ReplayCursor, t: nat, next: int, sent: seq<RunEvent>,
                  ghost truth: Label -> RunEvent)
    returns (sent': seq<RunEvent>, next': int, ok: bool)
    requires next < c.throughSeq
    ensures next <= next' <= c.throughSeq && Counts(sent, sent', next, next')
    ensures OneRunPerPage(env) ==> Labels(sent') == Labels(sent) + Span(c.runID, next, next')
    ensures Continues(env.source(t, c.runID, next), next) && !SendsFail(env) ==> ok && next < next'
    ensures Truthful(env, truth) && OneRunPerPage(env) && MatchesTruth(env, sent, truth) ==> MatchesTruth(env, sent', truth)
  {
    var events := env.source(t, c.runID, next);
    sent', next', ok := sent, next, true;
    for k := 0 to |events|
      invariant next <= next' <= c.throughSeq && ok && Counts(sent, sent', next, next')
      invariant OneRunPerPage(env) ==> Labels(sent') == Labels(sent) + Span(c.runID, next, next')
      invariant Continues(events, next) ==> next' == next + k
      invariant Truthful(env, truth) && OneRunPerPage(env) && MatchesTruth(env, sent, truth) ==> MatchesTruth(env, sent', truth)
    {
      var ev := events[k];
      if ev.seqNo <= next' {
        continue;
      }
      if ev.seqNo > c.throughSeq {
        break;
      }
      if ev.seqNo != next' + 1 {
        return sent', next', false;
      }
      var envelope := Envelope(env, ev);
      if envelope.None? || !env.delivers(|sent'|) {
        return sent', next', false;
      }
      CountsOn(sent, sent', next, envelope.value);
      if OneRunPerPage(env) {
        SendNext(env, sent, sent', ev, truth, t, c.runID, next, next', k);
      }
      sent' := sent' + [envelope.value];
      next' := ev.seqNo;
    }
  }

  /** Replays one cursor page by page; every page either moves on or ends the call. */
  method ReplayOneRun(env: Env, c: ReplayCursor, calls: nat, sent: seq<RunEvent>,
                      ghost truth: Label -> RunEvent)
    returns (sent': seq<RunEvent>, reached: int, calls': nat, ok: bool)
    requires OneRunPerPage(env) && Broker.ValidCursor(c)
    ensures c.afterSeq <= reached <= c.throughSeq && (ok ==> reached == c.throughSeq)
    ensures Labels(sent') == Labels(sent) + Span(c.runID, c.afterSeq, reached)
    ensures Serves(env, c) && !SendsFail(env) ==> ok
    ensures Truthful(env, truth) && MatchesTruth(env, sent, truth) ==> MatchesTruth(env, sent', truth)
  {
    sent', reached, calls', ok := sent, c.afterSeq, calls, true;
    while reached < c.throughSeq
      invariant c.afterSeq <= reached <= c.throughSeq && ok
      invariant Labels(sent') == Labels(sent) + Span(c.runID, c.afterSeq, reached)
      invariant Truthful(env, truth) && MatchesTruth(env, sent, truth) ==> MatchesTruth(env, sent', truth)
      decreases c.throughSeq - reached
    {
      var events := env.source(calls', c.runID, reached);
      assert Serves(env, c) ==> Continues(events, reached);
      if events == [] {
        return sent', reached, calls' + 1, false;
      }
      var next;
      sent', next, ok := SendPage(env, c, calls', reached, sent', truth);
      SpanSplit(c.runID, c.afterSeq, reached, next);
      calls' := calls' + 1;
      if !ok || next == reached {
        return sent', next, calls', false;
      }
      reached := next;
    }
  }

  /** Every cursor is well formed and the source can serve it. */
  ghost predicate AllServed(env: Env, request: seq<ReplayCursor>) {
    forall i :: 0 <= i < |request| ==> Broker.ValidCursor(request[i]) && Serves(env, request[i])
  }

  ghost predicate ValidUpTo(request: seq<ReplayCursor>, n: nat) {
    n <= |request| && forall i :: 0 <= i < n ==> Broker.ValidCursor(request[i])
  }

  /** Replays cursor `i` of a request after the ones before it. */
  method ReplayAt(env: Env, request: seq<ReplayCursor>, i: nat, calls: nat, sent: seq<RunEvent>,
                  ghost truth: Label -> RunEvent)
    returns (sent': seq<RunEvent>, calls': nat, ok: bool)
    requires OneRunPerPage(env) && i < |request| && Broker.ValidCursor(request[i])
    requires Labels(sent) == Wanted(request[..i])
    ensures Labels(sent') <= Wanted(request)
    ensures ok ==> Labels(sent') == Wanted(request[..i + 1])
    ensures Serves(env, request[i]) && !SendsFail(env) ==> ok
    ensures Truthful(env, truth) && MatchesTruth(env, sent, truth) ==> MatchesTruth(env, sent', truth)
  {
    var reached;
    sent', reached, calls', ok := ReplayOneRun(env, request[i], calls, sent, truth);
    DonePart(request, i, Labels(sent), reached, Labels(sent'));
  }

  /** Replays a request against any source. What was sent is, in order, a gap-free
      prefix of what the cursors ask for, and all of it when the result is `ok`.
      The call fails only on an unusable request, a source with a gap, or a send
      error, and every event sent is the wire form of the journal entry it names. */
  method ReplayRunEvents(env: Env, request: seq<ReplayCursor>, ghost truth: Label -> RunEvent)
    returns (sent: seq<RunEvent>, ok: bool)
    requires OneRunPerPage(env)
    ensures Labels(sent) <= Wanted(request)
    ensures ok ==> Labels(sent) == Wanted(request)
    ensures ok ==> |request| <= MAX_SYNC_HEADS && ValidUpTo(request, |request|)
    ensures |request| <= MAX_SYNC_HEADS && !SendsFail(env) && AllServed(env, request) ==> ok
    ensures Truthful(env, truth) ==> forall i :: 0 <= i < |sent| ==>
      var entry := truth(Label(sent[i].runID, sent[i].seqNo));
      if env.jsonLen(entry) <= MAX_RESPONSE_BYTES then sent[i] == entry else Carries(env.jsonLen, entry, sent[i])
  {
    sent, ok := [], false;
    if |request| > MAX_SYNC_HEADS {
      return;
    }
    var calls := 0;
    for i := 0 to |request|
      invariant Labels(sent) == Wanted(request[..i])
      invariant ValidUpTo(request, i)
      invariant Truthful(env, truth) ==> MatchesTruth(env, sent, truth)
    {
      var cursor := request[i];
      DoneSoFar(request, i, Labels(sent));
      if cursor.runID == "" || cursor.afterSeq < 0 || cursor.throughSeq < cursor.afterSeq {
        return sent, false;
      }
      sent, calls, ok := ReplayAt(env, request, i, calls, sent, truth);
      if !ok {
        return;
      }
    }
    AllDone(request, Labels(sent));
    ok := true;
  }

  // ------------------------------------------------------------- advertised heads

  datatype RunSnapshot = RunSnapshot(id: string, lastSeq: int, status: string)

  /** What RunManager.List may return: snapshots of distinct runs of the table, all
      of them or as many as the limit allows. The order is left open. */
  ghost predicate IsListing(runs: map<string, RunSnapshot>, limit: nat, out: seq<RunSnapshot>) {
    && (forall i :: 0 <= i < |out| ==> out[i].id in runs && runs[out[i].id] == out[i])
    && (forall i, j :: 0 <= i < j < |out| ==> out[i].id != out[j].id)
    && |out| == if limit > 0 && |runs| > limit then limit else |runs|
  }

  /** The heads sent for a listing: runs with an id and at least one event. Any such
      list is one the manager accepts. */
  method BuildRunHeads(snaps: seq<RunSnapshot>, ghost runs: map<string, RunSnapshot>)
    returns (heads: seq<RunHead>)
    requires IsListing(runs, MAX_SYNC_HEADS, snaps)
    ensures Broker.WellFormedHeads(heads) && |heads| <= Broker.MAX_HEADS
    ensures forall h :: h in heads ==> 0 < h.lastSeq && h.runID in runs && runs[h.runID].lastSeq == h.lastSeq
    ensures forall s :: s in snaps && s.id != "" && 0 < s.lastSeq ==> RunHead(s.id, s.lastSeq, s.status) in heads
  {
    heads := [];
    for i := 0 to |snaps|
      invariant |heads| <= i
      invariant Broker.WellFormedHeads(heads)
      invariant forall j :: 0 <= j < |heads| ==>
        0 < heads[j].lastSeq && heads[j].runID in runs && runs[heads[j].runID].lastSeq == heads[j].lastSeq
      invariant forall j, k :: 0 <= j < |heads| && i <= k < |snaps| ==> heads[j].runID != snaps[k].id
      invariant forall k :: 0 <= k < i && snaps[k].id != "" && 0 < snaps[k].lastSeq ==>
        RunHead(snaps[k].id, snaps[k].lastSeq, snaps[k].status) in heads
    {
      var snap := snaps[i];
      if snap.id == "" || snap.lastSeq <= 0 {
        continue;
      }
      heads := heads + [RunHead(snap.id, snap.lastSeq, snap.status)];
    }
  }

  /** The whole handshake fits: the manager answers a listing's heads, and its
      answer is a request the replay accepts. */
  method Handshake(broker: Broker.RunEventBroker, account: string, deviceID: string,
                   snaps: seq<RunSnapshot>, ghost runs: map<string, RunSnapshot>)
    returns (request: seq<ReplayCursor>)
    requires broker.Valid() && account != "" && deviceID != "" && IsListing(runs, MAX_SYNC_HEADS, snaps)
    ensures |request| <= MAX_SYNC_HEADS && forall c :: c in request ==> Broker.ValidCursor(c)
    ensures forall s :: s in snaps && s.id != "" && 0 < s.lastSeq ==>
      var known := Broker.StateOf(broker.runs, Broker.Key(account, deviceID, s.id)).head;
      known < s.lastSeq ==> ReplayCursor(s.id, known, s.lastSeq) in request
  {
    var heads := BuildRunHeads(snaps, runs);
    var res := broker.Missing(account, deviceID, heads);
    Broker.NeededCursorsExact(broker.runs, account, deviceID, heads);
    request := res.value;
    forall s | s in snaps && s.id != "" && 0 < s.lastSeq
      ensures var known := Broker.StateOf(broker.runs, Broker.Key(account, deviceID, s.id)).head;
        known < s.lastSeq ==> ReplayCursor(s.id, known, s.lastSeq) in request
    {
      var i :| 0 <= i < |heads| && heads[i] == RunHead(s.id, s.lastSeq, s.status);
    }
  }
}
