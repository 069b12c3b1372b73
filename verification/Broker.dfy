/** The manager's RunEventBroker (internal/manager/run_events.go): per run, the
    highest contiguous sequence received and a bounded set of events above a gap. */
module Broker {
  import opened Wire

  const MAX_PENDING := 512
  const MAX_HEADS := 256

  datatype Key = Key(account: string, deviceID: string, runID: string)

  datatype RunEventState = RunEventState(head: int, pending: map<int, RunEvent>, last: RunEvent)

  const FRESH := RunEventState(0, map[], NO_EVENT)

  datatype AcceptError =
    | AccountOrDeviceMissing
    | RunIDMissing
    | SeqNotPositive
    | KindMissing
    | GapTooLarge(head: int, seqNo: int)

  datatype MissingError =
    | NoAccountOrDevice
    | TooManyHeads
    | InvalidHead
    | DuplicateHead

  /** What one delivery does to a run's state. */
  datatype Reception = Reception(st: RunEventState, accepted: bool, gap: bool)

  ghost predicate ValidState(st: RunEventState) {
    && 0 <= st.head
    && (forall k :: k in st.pending ==> st.head + 1 < k && st.pending[k].seqNo == k)
    && |st.pending| <= MAX_PENDING
    && (if st.head == 0 then st.last == NO_EVENT else st.last.seqNo == st.head)
  }

  /** `h` ends the longest unbroken run of `keys` that starts just above `from`. */
  ghost predicate EndsRun(keys: set<int>, from: int, h: int) {
    && from <= h
    && (forall k :: from < k <= h ==> k in keys)
    && h + 1 !in keys
  }

  function Reach(keys: set<int>, from: int): (h: int)
    ensures EndsRun(keys, from, h)
    decreases |keys|
  {
    if from + 1 in keys then
      var rest := keys - {from + 1};
      var h := Reach(rest, from + 1);
      assert forall k :: from < k <= h ==> k in keys by {
        forall k | from < k <= h ensures k in keys {
          assert k == from + 1 || k in rest;
        }
      }
      assert h + 1 in keys ==> h + 1 in rest;
      h
    else from
  }

  /** The state after `ev` joins the events already held. */
  function Absorb(st: RunEventState, ev: RunEvent): RunEventState {
    var held := st.pending[ev.seqNo := ev];
    var h := Reach(held.Keys, st.head);
    RunEventState(h, map k | k in held && h < k :: held[k], if h == st.head then st.last else held[h])
  }

  function Receive(st: RunEventState, ev: RunEvent): Reception {
    if ev.seqNo <= st.head || ev.seqNo in st.pending then
      Reception(st, false, false)
    else if ev.seqNo == st.head + 1 || |st.pending| < MAX_PENDING then
      Reception(Absorb(st, ev), true, false)
    else
      Reception(st, false, true)
  }

  function StateOf(runs: map<Key, RunEventState>, key: Key): RunEventState {
    if key in runs then runs[key] else FRESH
  }

  /** Whether the state has taken in number `k`, contiguous or pending. */
  ghost predicate Seen(st: RunEventState, k: int) {
    1 <= k <= st.head || k in st.pending
  }

  // ------------------------------------------------------------- one delivery

  lemma EndsRunUnique(keys: set<int>, from: int, h: int, h': int)
    requires EndsRun(keys, from, h) && EndsRun(keys, from, h')
    ensures h == h'
  {
    assert h < h' ==> h + 1 in keys;
    assert h' < h ==> h' + 1 in keys;
  }

  lemma SubsetSize<T>(a: set<T>, b: set<T>)
    requires a <= b
    ensures |a| <= |b|
  {
    assert b == a + (b - a);
  }

  /** An event right above the head moves the head; any other is only held. */
  lemma AbsorbFacts(st: RunEventState, ev: RunEvent)
    requires ValidState(st) && st.head < ev.seqNo && ev.seqNo !in st.pending
    ensures var st' := Absorb(st, ev);
      && st'.pending.Keys == (set k | k in st.pending.Keys + {ev.seqNo} && st'.head < k)
      && (forall k :: k in st'.pending ==> st'.pending[k] == st.pending[ev.seqNo := ev][k])
      && (ev.seqNo != st.head + 1 ==> st' == st.(pending := st.pending[ev.seqNo := ev]))
      && (ev.seqNo == st.head + 1 ==> ev.seqNo <= st'.head)
      && (ev.seqNo == st.head + 1 ==>
            st'.last == (if st'.head == ev.seqNo then ev else st.pending[st'.head]))
  {
    var held := st.pending[ev.seqNo := ev];
    assert held.Keys == st.pending.Keys + {ev.seqNo};
    if ev.seqNo != st.head + 1 {
      EndsRunUnique(held.Keys, st.head, st.head, Reach(held.Keys, st.head));
      assert Absorb(st, ev).pending == held;
    }
  }

  lemma AbsorbValid(st: RunEventState, ev: RunEvent)
    requires ValidState(st) && st.head < ev.seqNo && ev.seqNo !in st.pending
    requires ev.seqNo == st.head + 1 || |st.pending| < MAX_PENDING
    ensures ValidState(Absorb(st, ev)) && st.head <= Absorb(st, ev).head
  {
    var st' := Absorb(st, ev);
    AbsorbFacts(st, ev);
    if ev.seqNo == st.head + 1 {
      assert st'.pending.Keys <= st.pending.Keys;
      SubsetSize(st'.pending.Keys, st.pending.Keys);
    } else {
      assert st'.pending.Keys == st.pending.Keys + {ev.seqNo};
    }
  }

  lemma AbsorbSeen(st: RunEventState, ev: RunEvent, k: int)
    requires ValidState(st) && st.head < ev.seqNo && ev.seqNo !in st.pending
    ensures Seen(Absorb(st, ev), k) <==> Seen(st, k) || k == ev.seqNo
  {
    AbsorbFacts(st, ev);
    var held := st.pending[ev.seqNo := ev];
    assert st.head < k <= Absorb(st, ev).head ==> k in held.Keys;
  }

  /** A delivery keeps the state well formed, and takes in the event unless it
      was already seen or the pending set is full above a gap. */
  lemma ReceiveStep(st: RunEventState, ev: RunEvent)
    requires ValidState(st) && 1 <= ev.seqNo
    ensures var r := Receive(st, ev);
      && ValidState(r.st)
      && st.head <= r.st.head
      && (forall k :: Seen(r.st, k) <==> Seen(st, k) || (r.accepted && k == ev.seqNo))
      && (r.accepted ==> !Seen(st, ev.seqNo))
      && (!r.accepted ==> r.st == st)
      && (r.gap <==> !Seen(st, ev.seqNo) && ev.seqNo != st.head + 1 && |st.pending| == MAX_PENDING)
      && (!r.accepted && !r.gap <==> Seen(st, ev.seqNo))
  {
    var r := Receive(st, ev);
    if r.accepted {
      AbsorbValid(st, ev);
      forall k ensures Seen(r.st, k) <==> Seen(st, k) || k == ev.seqNo {
        AbsorbSeen(st, ev, k);
      }
    }
  }

  lemma ReceiveValid(st: RunEventState, ev: RunEvent)
    requires ValidState(st) && 1 <= ev.seqNo
    ensures ValidState(Receive(st, ev).st)
    ensures Receive(st, ev).gap ==> Receive(st, ev).st == st
    ensures st.head < ev.seqNo && ev.seqNo != st.head + 1 && ev.seqNo !in st.pending && |st.pending| < MAX_PENDING
      ==> Receive(st, ev).st == st.(pending := st.pending[ev.seqNo := ev])
  {
    ReceiveStep(st, ev);
    if Receive(st, ev).accepted {
      AbsorbFacts(st, ev);
    }
  }

  // ------------------------------------------------- order and duplication

  function DeliverAll(st: RunEventState, evs: seq<RunEvent>): RunEventState
    decreases |evs|
  {
    if evs == [] then st else DeliverAll(Receive(st, evs[0]).st, evs[1..])
  }

  /** The deliveries of one run: content is a function of the sequence number. */
  function Deliveries(order: seq<nat>, content: nat -> RunEvent): (evs: seq<RunEvent>)
    ensures |evs| == |order|
    ensures forall i :: 0 <= i < |order| ==> evs[i] == content(order[i])
  {
    seq(|order|, i requires 0 <= i < |order| => content(order[i]))
  }

  ghost predicate Faithful(content: nat -> RunEvent) {
    forall k :: content(k).seqNo == k
  }

  ghost predicate Agrees(st: RunEventState, content: nat -> RunEvent) {
    && (forall k: nat :: k in st.pending ==> st.pending[k] == content(k))
    && (st.head > 0 ==> st.last == content(st.head))
  }

  ghost predicate Positive(order: seq<nat>) {
    0 !in order
  }

  /** What was seen determines the whole state. */
  lemma SeenDetermines(a: RunEventState, b: RunEventState, content: nat -> RunEvent)
    requires ValidState(a) && ValidState(b) && Agrees(a, content) && Agrees(b, content)
    requires forall k :: Seen(a, k) <==> Seen(b, k)
    ensures a == b
  {
    SeenFixesNumbers(a, b);
    forall k | k in a.pending ensures a.pending[k] == b.pending[k] {
      var n: nat := k;
      assert a.pending[n] == content(n) && b.pending[n] == content(n);
    }
    assert a.pending == b.pending;
  }

  lemma ReceiveAgrees(st: RunEventState, k: nat, content: nat -> RunEvent)
    requires ValidState(st) && 1 <= k && Agrees(st, content) && Faithful(content)
    ensures Agrees(Receive(st, content(k)).st, content)
  {
    var ev := content(k);
    var r := Receive(st, ev);
    if r.accepted {
      AbsorbFacts(st, ev);
      AbsorbValid(st, ev);
      if ev.seqNo == st.head + 1 && r.st.head != ev.seqNo {
        assert Seen(r.st, r.st.head);
        AbsorbSeen(st, ev, r.st.head);
      }
    }
  }

  lemma DeliveriesTail(order: seq<nat>, content: nat -> RunEvent)
    requires order != []
    ensures Deliveries(order, content)[1..] == Deliveries(order[1..], content)
  {
  }

  /** Every order of deliveries leads to a valid state that has seen nothing but
      what it had seen before and what was delivered. */
  lemma {:induction false} DeliverAllValid(st: RunEventState, order: seq<nat>, content: nat -> RunEvent)
    requires ValidState(st) && Agrees(st, content) && Faithful(content) && Positive(order)
    ensures var st' := DeliverAll(st, Deliveries(order, content));
      && ValidState(st') && Agrees(st', content) && st.head <= st'.head
      && (forall k :: Seen(st, k) ==> Seen(st', k))
      && (forall k :: Seen(st', k) ==> Seen(st, k) || k in order)
    decreases |order|
  {
    if order != [] {
      ReceiveStep(st, content(order[0]));
      ReceiveAgrees(st, order[0], content);
      DeliveriesTail(order, content);
      DeliverAllValid(Receive(st, content(order[0])).st, order[1..], content);
    }
  }

  /** The sequence numbers that may end up pending when `s` is delivered to `st`. */
  ghost function MayPend(st: RunEventState, s: set<int>): set<int> {
    st.pending.Keys + (set k | k in s && st.head + 1 < k)
  }

  /** With room for every number that may have to wait, none is refused. */
  lemma RoomForAll(st0: RunEventState, s: set<int>, st: RunEventState, ev: RunEvent)
    requires ValidState(st0) && |MayPend(st0, s)| <= MAX_PENDING
    requires ValidState(st) && st0.head <= st.head
    requires forall k :: Seen(st, k) ==> Seen(st0, k) || k in s
    requires 1 <= ev.seqNo && ev.seqNo in s
    ensures !Receive(st, ev).gap
  {
    if Receive(st, ev).gap {
      var crowd := st.pending.Keys + {ev.seqNo};
      forall k | k in crowd ensures k in MayPend(st0, s) {
        assert k in st.pending ==> Seen(st, k);
      }
      SubsetSize(crowd, MayPend(st0, s));
    }
  }

  lemma {:induction false} NothingRefused(
      st0: RunEventState, s: set<nat>, st: RunEventState, order: seq<nat>, content: nat -> RunEvent)
    requires ValidState(st0) && |MayPend(st0, s)| <= MAX_PENDING
    requires ValidState(st) && Agrees(st, content) && Faithful(content) && Positive(order)
    requires st0.head <= st.head && forall k :: Seen(st, k) ==> Seen(st0, k) || (0 <= k && k in s)
    requires forall k :: k in order ==> k in s
    ensures forall k :: Seen(DeliverAll(st, Deliveries(order, content)), k) <==> Seen(st, k) || k in order
    decreases |order|
  {
    if order != [] {
      var ev := content(order[0]);
      ReceiveStep(st, ev);
      ReceiveAgrees(st, order[0], content);
      RoomForAll(st0, s, st, ev);
      DeliveriesTail(order, content);
      NothingRefused(st0, s, Receive(st, ev).st, order[1..], content);
    }
  }

  ghost function Numbers(evs: seq<RunEvent>): set<int> {
    set ev | ev in evs :: ev.seqNo
  }

  /** With room for all of them, deliveries of any content are seen, and nothing else. */
  lemma {:induction false} AllTaken(st0: RunEventState, s: set<int>, st: RunEventState, evs: seq<RunEvent>)
    requires ValidState(st0) && |MayPend(st0, s)| <= MAX_PENDING
    requires ValidState(st) && st0.head <= st.head && forall k :: Seen(st, k) ==> Seen(st0, k) || k in s
    requires forall ev :: ev in evs ==> 1 <= ev.seqNo && ev.seqNo in s
    ensures ValidState(DeliverAll(st, evs))
    ensures forall k :: Seen(DeliverAll(st, evs), k) <==> Seen(st, k) || k in Numbers(evs)
    decreases |evs|
  {
    if evs != [] {
      ReceiveStep(st, evs[0]);
      RoomForAll(st0, s, st, evs[0]);
      assert forall ev :: ev in evs <==> ev == evs[0] || ev in evs[1..];
      AllTaken(st0, s, Receive(st, evs[0]).st, evs[1..]);
    }
  }

  /** Whatever the copies say: two delivery lists with the same numbers leave the same
      head and the same numbers pending. */
  lemma NumbersDecide(st: RunEventState, evs: seq<RunEvent>, evs': seq<RunEvent>)
    requires ValidState(st) && Numbers(evs) == Numbers(evs')
    requires forall k :: k in Numbers(evs) ==> 1 <= k
    requires |MayPend(st, Numbers(evs))| <= MAX_PENDING
    ensures DeliverAll(st, evs).head == DeliverAll(st, evs').head
    ensures DeliverAll(st, evs).pending.Keys == DeliverAll(st, evs').pending.Keys
  {
    assert forall ev :: ev in evs ==> ev.seqNo in Numbers(evs);
    assert forall ev :: ev in evs' ==> ev.seqNo in Numbers(evs');
    AllTaken(st, Numbers(evs), st, evs);
    AllTaken(st, Numbers(evs), st, evs');
    SeenFixesNumbers(DeliverAll(st, evs), DeliverAll(st, evs'));
  }

  lemma SeenFixesNumbers(a: RunEventState, b: RunEventState)
    requires ValidState(a) && ValidState(b) && forall k :: Seen(a, k) <==> Seen(b, k)
    ensures a.head == b.head && a.pending.Keys == b.pending.Keys
  {
    assert !Seen(a, a.head + 1) && !Seen(b, b.head + 1);
    assert a.head < b.head ==> Seen(b, a.head + 1);
    assert b.head < a.head ==> Seen(a, b.head + 1);
    forall k: int ensures k in a.pending <==> k in b.pending {
      assert Seen(a, k) <==> Seen(b, k);
    }
  }

  ghost function Elements(order: seq<nat>): set<nat> {
    set k | k in order
  }

  /** From any state, two delivery lists with the same numbers lead to the same
      head, pending map and last event, whatever their order and repetitions. */
  lemma OrderAndDuplicationInsensitive(
      st: RunEventState, order: seq<nat>, order': seq<nat>, content: nat -> RunEvent)
    requires ValidState(st) && Agrees(st, content) && Faithful(content) && Positive(order)
    requires Elements(order) == Elements(order')
    requires |MayPend(st, Elements(order))| <= MAX_PENDING
    ensures DeliverAll(st, Deliveries(order, content)) == DeliverAll(st, Deliveries(order', content))
  {
    assert forall k :: k in order' <==> k in Elements(order');
    assert forall k :: k in order <==> k in Elements(order);
    DeliverAllValid(st, order, content);
    DeliverAllValid(st, order', content);
    NothingRefused(st, Elements(order), st, order, content);
    NothingRefused(st, Elements(order), st, order', content);
    SeenDetermines(
      DeliverAll(st, Deliveries(order, content)), DeliverAll(st, Deliveries(order', content)), content);
  }

  ghost predicate SameOutcome(order: seq<nat>, order': seq<nat>, content: nat -> RunEvent) {
    DeliverAll(FRESH, Deliveries(order, content)) == DeliverAll(FRESH, Deliveries(order', content))
  }

  /** Every list that delivers exactly the numbers in `s` to a fresh run agrees. */
  ghost predicate OrderInsensitive(s: set<nat>, content: nat -> RunEvent) {
    forall order: seq<nat>, order': seq<nat> {:trigger SameOutcome(order, order', content)} ::
      Elements(order) == s && Elements(order') == s ==> SameOutcome(order, order', content)
  }

  /** The bound is exact: order never matters if and only if at most 512 numbers
      other than 1 are delivered. */
  lemma OrderInsensitiveIff(s: set<nat>, content: nat -> RunEvent)
    requires Faithful(content) && 0 !in s
    ensures OrderInsensitive(s, content) <==> |s - {1}| <= MAX_PENDING
  {
    if |s - {1}| <= MAX_PENDING {
      forall order: seq<nat>, order': seq<nat> | Elements(order) == s && Elements(order') == s
        ensures SameOutcome(order, order', content)
      {
        assert 0 in order ==> 0 in Elements(order);
        forall k | k in MayPend(FRESH, s) ensures k in s - {1} {}
        SubsetSize(MayPend(FRESH, s), s - {1});
        OrderAndDuplicationInsensitive(FRESH, order, order', content);
      }
    } else {
      OrderMattersBeyondBound(s, content);
    }
  }

  lemma OrderMattersBeyondBound(s: set<nat>, content: nat -> RunEvent)
    requires Faithful(content) && 0 !in s
    requires |s - {1}| > MAX_PENDING
    ensures !OrderInsensitive(s, content)
  {
    var crowd, late := ChooseCrowd(s - {1}, MAX_PENDING);
    var others := Leftover(s, crowd, late);
    OrdersDiffer(Enumerate(crowd), late, Enumerate(others), s, content);
  }

  lemma Leftover(s: set<nat>, crowd: set<nat>, late: nat) returns (others: set<nat>)
    requires crowd <= s && late in s && late !in crowd
    ensures s == crowd + {late} + others && late !in others
  {
    others := s - crowd - {late};
  }

  lemma ElementsConcat(a: seq<nat>, b: seq<nat>)
    ensures Elements(a + b) == Elements(a) + Elements(b)
  {
  }

  lemma TwoOutcomes(order: seq<nat>, order': seq<nat>, s: set<nat>, content: nat -> RunEvent)
    requires Elements(order) == s && Elements(order') == s && !SameOutcome(order, order', content)
    ensures !OrderInsensitive(s, content)
  {
  }

  lemma OrdersDiffer(first: seq<nat>, late: nat, rest: seq<nat>, s: set<nat>, content: nat -> RunEvent)
    requires Faithful(content) && 0 !in s && 2 <= late
    requires 1 !in Elements(first) && late !in Elements(first) + Elements(rest)
    requires |Elements(first)| == MAX_PENDING
    requires s == Elements(first) + {late} + Elements(rest)
    ensures !OrderInsensitive(s, content)
  {
    var order: seq<nat> := first + ([late] + rest);
    var order': seq<nat> := [late] + (first + rest);
    assert Elements([late]) == {late};
    ElementsConcat(first, [late] + rest);
    ElementsConcat([late], rest);
    ElementsConcat(first, rest);
    ElementsConcat([late], first + rest);
    assert Elements(order) == s && Elements(order') == s;
    assert !SameOutcome(order, order', content) by {
      assert forall k :: k in first ==> k in Elements(first);
      assert forall k :: k in rest ==> k in Elements(rest);
      RefusedWhenLate(first, late, rest, content);
      KeptWhenFirst(late, first + rest, content);
    }
    TwoOutcomes(order, order', s, content);
  }

  /** 512 numbers above 1 fill the pending set of a fresh run. */
  lemma FillPending(first: seq<nat>, content: nat -> RunEvent)
    requires Faithful(content) && Positive(first) && 1 !in first
    requires |Elements(first)| == MAX_PENDING
    ensures var full := DeliverAll(FRESH, Deliveries(first, content));
      && ValidState(full) && Agrees(full, content) && full.head == 0 && |full.pending| == MAX_PENDING
      && (forall k :: Seen(full, k) <==> k in first)
  {
    var s := Elements(first);
    MayPendBound(s);
    DeliverAllValid(FRESH, first, content);
    NothingRefused(FRESH, s, FRESH, first, content);
    var full := DeliverAll(FRESH, Deliveries(first, content));
    assert full.head > 0 ==> Seen(full, 1);
    forall k ensures k in full.pending <==> k in s {
      assert Seen(full, k) <==> k in first;
    }
    assert full.pending.Keys == s;
  }

  lemma MayPendBound(s: set<nat>)
    ensures |MayPend(FRESH, s)| <= |s|
  {
    assert MayPend(FRESH, s) <= (set k: int | k in s);
    assert (set k: int | k in s) == s;
    SubsetSize(MayPend(FRESH, s), s);
  }

  lemma RefusedWhenLate(first: seq<nat>, late: nat, rest: seq<nat>, content: nat -> RunEvent)
    requires Faithful(content) && Positive(first) && Positive(rest)
    requires 1 !in first && late !in first && late !in rest
    requires 2 <= late && |Elements(first)| == MAX_PENDING
    ensures !Seen(DeliverAll(FRESH, Deliveries(first + ([late] + rest), content)), late)
  {
    FillPending(first, content);
    var full := DeliverAll(FRESH, Deliveries(first, content));
    ReceiveStep(full, content(late));
    DeliverAllConcat(FRESH, first, [late] + rest, content);
    DeliveriesTail([late] + rest, content);
    assert ([late] + rest)[1..] == rest;
    DeliverAllValid(full, rest, content);
  }

  lemma KeptWhenFirst(late: nat, rest: seq<nat>, content: nat -> RunEvent)
    requires Faithful(content) && 2 <= late && Positive(rest)
    ensures Seen(DeliverAll(FRESH, Deliveries([late] + rest, content)), late)
  {
    var ev := content(late);
    ReceiveStep(FRESH, ev);
    ReceiveAgrees(FRESH, late, content);
    DeliveriesTail([late] + rest, content);
    assert ([late] + rest)[1..] == rest;
    DeliverAllValid(Receive(FRESH, ev).st, rest, content);
  }

  lemma {:induction false} DeliverAllConcat(
      st: RunEventState, a: seq<nat>, b: seq<nat>, content: nat -> RunEvent)
    ensures DeliverAll(st, Deliveries(a + b, content))
         == DeliverAll(DeliverAll(st, Deliveries(a, content)), Deliveries(b, content))
    decreases |a|
  {
    if a == [] {
      assert a + b == b;
    } else {
      assert (a + b)[1..] == a[1..] + b;
      DeliveriesTail(a + b, content);
      DeliveriesTail(a, content);
      DeliverAllConcat(Receive(st, content(a[0])).st, a[1..], b, content);
    }
  }

  /** A set of more than `n` numbers splits off `n` of them and still has one left. */
  lemma ChooseCrowd(s: set<nat>, n: nat) returns (crowd: set<nat>, late: nat)
    requires n < |s|
    ensures crowd <= s && |crowd| == n && late in s && late !in crowd
  {
    assert s != {};
    if n == 0 {
      crowd := {};
      late :| late in s;
    } else {
      var x :| x in s;
      crowd, late := ChooseCrowd(s - {x}, n - 1);
      crowd := crowd + {x};
    }
  }

  ghost function Enumerate(s: set<nat>): (order: seq<nat>)
    ensures Elements(order) == s && forall k :: k in order <==> k in s
  {
    if s == {} then [] else
      assert |s| > 0;
      var x :| x in s;
      [x] + Enumerate(s - {x})
  }

  // ------------------------------------------------------------------ catch-up

  /** `short` can be read off `long` in order, skipping anything in between. */
  ghost predicate Interleaved(short: seq<RunEvent>, long: seq<RunEvent>)
    decreases |long|
  {
    short == [] || (long != [] &&
      ((short[0] == long[0] && Interleaved(short[1..], long[1..])) || Interleaved(short, long[1..])))
  }

  /** Once events a+1..a+n arrive in order, mixed with any other deliveries, the
      head has reached a+n, even if the pending set was full throughout. */
  lemma {:induction false} ReplayCatchesUp(
      st: RunEventState, replay: seq<RunEvent>, stream: seq<RunEvent>, a: int)
    requires ValidState(st) && a <= st.head
    requires forall i :: 0 <= i < |replay| ==> replay[i].seqNo == a + 1 + i
    requires forall i :: 0 <= i < |stream| ==> 1 <= stream[i].seqNo
    requires Interleaved(replay, stream)
    ensures a + |replay| <= DeliverAll(st, stream).head
    decreases |stream|
  {
    if stream != [] {
      ReceiveStep(st, stream[0]);
      var st' := Receive(st, stream[0]).st;
      if replay != [] && replay[0] == stream[0] && Interleaved(replay[1..], stream[1..]) {
        assert a + 1 <= st'.head;
        ReplayCatchesUp(st', replay[1..], stream[1..], a + 1);
      } else if replay != [] {
        ReplayCatchesUp(st', replay, stream[1..], a);
      } else {
        ReplayCatchesUp(st', [], stream[1..], a);
      }
    }
  }

  // ------------------------------------------------------------ missing suffixes

  function NeededCursors(runs: map<Key, RunEventState>, account: string, deviceID: string,
                         heads: seq<RunHead>): seq<ReplayCursor>
  {
    if heads == [] then []
    else
      var h := heads[|heads| - 1];
      var before := NeededCursors(runs, account, deviceID, heads[..|heads| - 1]);
      var known := StateOf(runs, Key(account, deviceID, h.runID)).head;
      if h.lastSeq > known then before + [ReplayCursor(h.runID, known, h.lastSeq)] else before
  }

  ghost predicate WellFormedHeads(heads: seq<RunHead>) {
    && (forall i :: 0 <= i < |heads| ==> heads[i].runID != "" && 0 <= heads[i].lastSeq)
    && (forall i, j :: 0 <= i < j < |heads| ==> heads[i].runID != heads[j].runID)
  }

  /** A cursor the client's replay accepts: a named run and a forward range. */
  predicate ValidCursor(c: ReplayCursor) {
    c.runID != "" && 0 <= c.afterSeq && c.afterSeq <= c.throughSeq
  }

  /** Whether cursor `c` asks for exactly what head `h` advertises beyond the manager's head. */
  ghost predicate Answers(c: ReplayCursor, h: RunHead, known: int) {
    c == ReplayCursor(h.runID, known, h.lastSeq) && known < h.lastSeq
  }

  /** One cursor for each head that is ahead of the manager, no cursor for any
      other, every cursor accepted by the client, and no run named twice. */
  lemma {:induction false} NeededCursorsExact(
      runs: map<Key, RunEventState>, account: string, deviceID: string, heads: seq<RunHead>)
    requires WellFormedHeads(heads) && forall k :: k in runs ==> ValidState(runs[k])
    ensures var out := NeededCursors(runs, account, deviceID, heads);
      && |out| <= |heads|
      && (forall j :: 0 <= j < |out| ==> ValidCursor(out[j]))
      && (forall j :: 0 <= j < |out| ==>
            exists i :: 0 <= i < |heads| &&
              Answers(out[j], heads[i], StateOf(runs, Key(account, deviceID, heads[i].runID)).head))
      && (forall i :: 0 <= i < |heads| ==>
            var known := StateOf(runs, Key(account, deviceID, heads[i].runID)).head;
            known < heads[i].lastSeq ==> ReplayCursor(heads[i].runID, known, heads[i].lastSeq) in out)
      && (forall i, j :: 0 <= i < j < |out| ==> out[i].runID != out[j].runID)
  {
    CursorsAnswer(runs, account, deviceID, heads);
    CursorsComplete(runs, account, deviceID, heads);
    CursorsDistinct(runs, account, deviceID, heads);
  }

  lemma {:induction false} CursorsAnswer(
      runs: map<Key, RunEventState>, account: string, deviceID: string, heads: seq<RunHead>)
    requires WellFormedHeads(heads) && forall k :: k in runs ==> ValidState(runs[k])
    ensures var out := NeededCursors(runs, account, deviceID, heads);
      && |out| <= |heads|
      && (forall j :: 0 <= j < |out| ==> ValidCursor(out[j]))
      && (forall j :: 0 <= j < |out| ==>
            exists i :: 0 <= i < |heads| &&
              Answers(out[j], heads[i], StateOf(runs, Key(account, deviceID, heads[i].runID)).head))
  {
    if heads != [] {
      var shorter, h := heads[..|heads| - 1], heads[|heads| - 1];
      CursorsAnswer(runs, account, deviceID, shorter);
      var before := NeededCursors(runs, account, deviceID, shorter);
      var out := NeededCursors(runs, account, deviceID, heads);
      forall j | 0 <= j < |out|
        ensures ValidCursor(out[j])
        ensures exists i :: 0 <= i < |heads| && Answers(
          out[j], heads[i], StateOf(runs, Key(account, deviceID, heads[i].runID)).head)
      {
        if j < |before| {
          assert out[j] == before[j];
          var i :| 0 <= i < |shorter|
            && Answers(before[j], shorter[i], StateOf(runs, Key(account, deviceID, shorter[i].runID)).head);
          assert heads[i] == shorter[i];
        } else {
          assert Answers(out[j], h, StateOf(runs, Key(account, deviceID, h.runID)).head);
        }
      }
    }
  }

  lemma {:induction false} CursorsComplete(
      runs: map<Key, RunEventState>, account: string, deviceID: string, heads: seq<RunHead>)
    ensures var out := NeededCursors(runs, account, deviceID, heads);
      forall i :: 0 <= i < |heads| ==>
        var known := StateOf(runs, Key(account, deviceID, heads[i].runID)).head;
        known < heads[i].lastSeq ==> ReplayCursor(heads[i].runID, known, heads[i].lastSeq) in out
  {
    if heads != [] {
      var shorter := heads[..|heads| - 1];
      CursorsComplete(runs, account, deviceID, shorter);
      var out := NeededCursors(runs, account, deviceID, heads);
      forall i | 0 <= i < |heads|
        ensures var known := StateOf(runs, Key(account, deviceID, heads[i].runID)).head;
          known < heads[i].lastSeq ==> ReplayCursor(heads[i].runID, known, heads[i].lastSeq) in out
      {
        assert i < |shorter| ==> heads[i] == shorter[i];
      }
    }
  }

  lemma {:induction false} CursorsDistinct(
      runs: map<Key, RunEventState>, account: string, deviceID: string, heads: seq<RunHead>)
    requires WellFormedHeads(heads) && forall k :: k in runs ==> ValidState(runs[k])
    ensures var out := NeededCursors(runs, account, deviceID, heads);
      forall i, j :: 0 <= i < j < |out| ==> out[i].runID != out[j].runID
  {
    if heads != [] {
      var shorter, h := heads[..|heads| - 1], heads[|heads| - 1];
      CursorsDistinct(runs, account, deviceID, shorter);
      CursorsAnswer(runs, account, deviceID, shorter);
      var before := NeededCursors(runs, account, deviceID, shorter);
      forall j | 0 <= j < |before| ensures before[j].runID != h.runID {
        var i :| 0 <= i < |shorter|
          && Answers(before[j], shorter[i], StateOf(runs, Key(account, deviceID, shorter[i].runID)).head);
        assert heads[i] == shorter[i];
      }
    }
  }

  lemma DrainedIsAbsorbed(before: RunEventState, ev: RunEvent, st: RunEventState)
    requires ValidState(before) && ev.seqNo == before.head + 1 && ev.seqNo !in before.pending
    requires ev.seqNo <= st.head && st.head + 1 !in st.pending
    requires forall k :: ev.seqNo < k <= st.head ==> k in before.pending
    requires forall k :: k in st.pending <==> k in before.pending && st.head < k
    requires forall k :: k in st.pending ==> st.pending[k] == before.pending[k]
    requires st.last == if st.head == ev.seqNo then ev else before.pending[st.head]
    ensures st == Absorb(before, ev)
  {
    AbsorbFacts(before, ev);
    var held := before.pending[ev.seqNo := ev];
    EndsRunUnique(held.Keys, before.head, st.head, Reach(held.Keys, before.head));
    assert st.pending.Keys == Absorb(before, ev).pending.Keys;
    assert st.pending == Absorb(before, ev).pending;
  }

  /** Moves the head to `ev` and drains every pending event that now follows. */
  method Advance(st: RunEventState, ev: RunEvent) returns (st': RunEventState)
    requires ValidState(st) && ev.seqNo == st.head + 1 && ev.seqNo !in st.pending
    ensures st' == Absorb(st, ev)
  {
    st' := st.(head := ev.seqNo, last := ev);
    while st'.head + 1 in st'.pending
      invariant ev.seqNo <= st'.head
      invariant forall k :: ev.seqNo < k <= st'.head ==> k in st.pending
      invariant forall k :: k in st'.pending <==> k in st.pending && st'.head < k
      invariant forall k :: k in st'.pending ==> st'.pending[k] == st.pending[k]
      invariant st'.last == if st'.head == ev.seqNo then ev else st.pending[st'.head]
      decreases |st'.pending|
    {
      var next := st'.pending[st'.head + 1];
      assert (st'.pending - {st'.head + 1}).Keys == st'.pending.Keys - {st'.head + 1};
      st' := st'.(pending := st'.pending - {st'.head + 1});
      st' := st'.(head := next.seqNo, last := next);
    }
    DrainedIsAbsorbed(st, ev, st');
  }

  /** What a valid event does to the state of its run. */
  method TakeIn(st: RunEventState, ev: RunEvent) returns (st': RunEventState, accepted: bool, err: Option<AcceptError>)
    requires ValidState(st) && 1 <= ev.seqNo
    ensures var r := Receive(st, ev);
      && st' == r.st && accepted == r.accepted
      && err == (if r.gap then Some(GapTooLarge(st.head, ev.seqNo)) else None)
  {
    ReceiveValid(st, ev);
    if ev.seqNo <= st.head || ev.seqNo in st.pending {
      return st, false, None;
    }
    if ev.seqNo == st.head + 1 {
      st' := Advance(st, ev);
      return st', true, None;
    }
    if |st.pending| >= MAX_PENDING {
      return st, false, Some(GapTooLarge(st.head, ev.seqNo));
    }
    return st.(pending := st.pending[ev.seqNo := ev]), true, None;
  }

  /** The reason an event is rejected before any run state is looked at. */
  function Refusal(account: string, deviceID: string, ev: RunEvent): Option<AcceptError> {
    if account == "" || deviceID == "" then Some(AccountOrDeviceMissing)
    else if ev.runID == "" then Some(RunIDMissing)
    else if ev.seqNo <= 0 then Some(SeqNotPositive)
    else if ev.kind == "" then Some(KindMissing)
    else None
  }

  /** The table of runs after one delivery: only the addressed run changes. */
  function AfterAccept(runs: map<Key, RunEventState>, account: string, deviceID: string, ev: RunEvent)
    : map<Key, RunEventState>
  {
    var key := Key(account, deviceID, ev.runID);
    if Refusal(account, deviceID, ev).Some? then runs
    else runs[key := Receive(StateOf(runs, key), ev).st]
  }

  // ------------------------------------------------------------------ the object

  class RunEventBroker {
    var runs: map<Key, RunEventState>

    ghost predicate Valid() reads this {
      forall k :: k in runs ==> ValidState(runs[k])
    }

    constructor ()
      ensures Valid() && runs == map[]
    {
      runs := map[];
    }

    /** Takes in one event. The state changes exactly as `Receive` says, for the
        addressed run only, and an invalid event changes nothing. */
    method Accept(account: string, deviceID: string, ev: RunEvent)
      returns (head: int, accepted: bool, err: Option<AcceptError>)
      requires Valid()
      modifies this
      ensures Valid()
      ensures runs == AfterAccept(old(runs), account, deviceID, ev)
      ensures forall key :: key != Key(account, deviceID, ev.runID) ==> StateOf(runs, key) == StateOf(old(runs), key)
      ensures Refusal(account, deviceID, ev).None? <==>
        account != "" && deviceID != "" && ev.runID != "" && 1 <= ev.seqNo && ev.kind != ""
      ensures Refusal(account, deviceID, ev).Some? ==>
        head == 0 && !accepted && err == Refusal(account, deviceID, ev)
      ensures Refusal(account, deviceID, ev).None? ==>
        var r := Receive(StateOf(old(runs), Key(account, deviceID, ev.runID)), ev);
        && StateOf(runs, Key(account, deviceID, ev.runID)) == r.st
        && head == r.st.head
        && accepted == r.accepted
        && err == (if r.gap then Some(GapTooLarge(r.st.head, ev.seqNo)) else None)
    {
      if account == "" || deviceID == "" {
        return 0, false, Some(AccountOrDeviceMissing);
      }
      if ev.runID == "" {
        return 0, false, Some(RunIDMissing);
      }
      if ev.seqNo <= 0 {
        return 0, false, Some(SeqNotPositive);
      }
      if ev.kind == "" {
        return 0, false, Some(KindMissing);
      }
      head, accepted, err := AcceptValid(Key(account, deviceID, ev.runID), ev);
    }

    /** The part under the lock. */
    method AcceptValid(key: Key, ev: RunEvent) returns (head: int, accepted: bool, err: Option<AcceptError>)
      requires Valid() && 1 <= ev.seqNo
      modifies this
      ensures Valid()
      ensures var r := Receive(StateOf(old(runs), key), ev);
        && runs == old(runs)[key := r.st] && head == r.st.head && accepted == r.accepted
        && err == (if r.gap then Some(GapTooLarge(r.st.head, ev.seqNo)) else None)
    {
      if key !in runs {
        runs := runs[key := FRESH];
      }
      var st := runs[key];
      ReceiveValid(st, ev);
      st, accepted, err := TakeIn(st, ev);
      runs := runs[key := st];
      head := st.head;
    }

    /** Succeeds exactly on a short, well-formed head list, and then asks for every
        suffix the manager lacks and nothing else. */
    method Missing(account: string, deviceID: string, heads: seq<RunHead>)
      returns (res: Result<seq<ReplayCursor>, MissingError>)
      requires Valid()
      ensures res.Ok? <==> account != "" && deviceID != "" && |heads| <= MAX_HEADS && WellFormedHeads(heads)
      ensures account == "" || deviceID == "" ==> res == Err(NoAccountOrDevice)
      ensures account != "" && deviceID != "" && |heads| > MAX_HEADS ==> res == Err(TooManyHeads)
      ensures res == Err(InvalidHead) ==> exists h :: h in heads && (h.runID == "" || h.lastSeq < 0)
      ensures res == Err(DuplicateHead) ==>
        exists i, j :: 0 <= i < j < |heads| && heads[i].runID == heads[j].runID
      ensures res.Ok? ==> res.value == NeededCursors(runs, account, deviceID, heads)
      ensures res.Ok? ==> forall c :: c in res.value ==> ValidCursor(c)
      ensures res.Ok? ==> |res.value| <= MAX_HEADS
    {
      if account == "" || deviceID == "" {
        return Err(NoAccountOrDevice);
      }
      if |heads| > MAX_HEADS {
        return Err(TooManyHeads);
      }
      var out: seq<ReplayCursor> := [];
      var seen: set<string> := {};
      for i := 0 to |heads|
        invariant WellFormedHeads(heads[..i])
        invariant seen == set j | 0 <= j < i :: heads[j].runID
        invariant out == NeededCursors(runs, account, deviceID, heads[..i])
      {
        var advertised := heads[i];
        assert heads[..i + 1][..i] == heads[..i];
        if advertised.runID == "" || advertised.lastSeq < 0 {
          assert !WellFormedHeads(heads);
          return Err(InvalidHead);
        }
        if advertised.runID in seen {
          assert !WellFormedHeads(heads);
          return Err(DuplicateHead);
        }
        seen := seen + {advertised.runID};
        var known := 0;
        var key := Key(account, deviceID, advertised.runID);
        if key in runs {
          known := runs[key].head;
        }
        if advertised.lastSeq > known {
          out := out + [ReplayCursor(advertised.runID, known, advertised.lastSeq)];
        }
      }
      assert heads[..|heads|] == heads;
      NeededCursorsExact(runs, account, deviceID, heads);
      return Ok(out);
    }

    method Head(account: string, deviceID: string, runID: string) returns (head: int)
      ensures head == StateOf(runs, Key(account, deviceID, runID)).head
    {
      var key := Key(account, deviceID, runID);
      head := if key in runs then runs[key].head else 0;
    }

    /** The event at the contiguous head; absent exactly while the head is 0. */
    method Last(account: string, deviceID: string, runID: string) returns (ev: RunEvent, found: bool)
      requires Valid()
      ensures var st := StateOf(runs, Key(account, deviceID, runID));
        && (found <==> 0 < st.head) && ev == st.last && (found ==> ev.seqNo == st.head)
    {
      var key := Key(account, deviceID, runID);
      if key !in runs || runs[key].head == 0 {
        return NO_EVENT, false;
      }
      return runs[key].last, true;
    }
  }
}
