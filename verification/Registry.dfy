/** The manager's call registry (internal/manager/registry.go): device connections,
    calls in flight and their responses, as one step relation over every interleaving
    of its callers and connections. */
module Registry {
  import opened Wire

  const DEFAULT_INFLIGHT := 8

  function MaxInflight(option: int): (n: nat)
    ensures n > 0 && (option > 0 ==> n == option) && (option <= 0 ==> n == 8)
  {
    if option > 0 then option else DEFAULT_INFLIGHT
  }

  datatype Response = Response(ok: bool, error: string, data: string)

  const REPLACED := "agent connection replaced"
  const DISCONNECTED := "agent disconnected"

  /** What FailPending sends to every waiter. */
  function FailureOf(message: string): Response {
    Response(false, message, "")
  }

  /** What a channel holds after a response was sent to it without blocking. */
  function Kept(held: Option<Response>, resp: Response): Option<Response> {
    if held.None? then Some(resp) else held
  }

  /** What a caller gets for a response. */
  function ResultOf(resp: Response): Result<string, string> {
    if resp.ok then Ok(resp.data) else Err(if resp.error == "" then "agent request failed" else resp.error)
  }

  /** One connection of a device; connections are numbered in the order of Put. */
  datatype Conn = Conn(device: string, account: string)

  /** Where a call stands between two steps. */
  datatype Pc =
    | Looking | WantsPermit | HasPermit | HasID | Registered | Written
    | Cleaning | Releasing | Returned

  /** One CallProgress invocation. `inbox` is its response channel, which holds one
      response; `got` is the response it took from there. */
  datatype Call = Call(account: string, device: string, pc: Pc, conn: nat, id: nat,
                       inbox: Option<Response>, got: Option<Response>, result: Option<Result<string, string>>)

  /** An entry of the pending map of connection `conn`. */
  datatype Slot = Slot(conn: nat, id: nat)

  /** A response on its way to the channel of the call that a lookup found. */
  datatype Send = Send(call: nat, slot: Slot, resp: Response)

  /** `pend` joins the pending maps of all connections; `sem` counts the permits taken
      on each. `sends` are responses looked up but not yet put in a channel and `todo`
      FailPending calls not yet begun. `delivered`, `failed` and `removed` only record
      what happened. */
  datatype State = State(
    max: nat, conns: seq<Conn>, devices: map<string, nat>, counter: nat, calls: map<nat, Call>,
    pend: map<Slot, nat>, sem: seq<nat>, sends: multiset<Send>, todo: multiset<Failure>,
    delivered: set<(Slot, Response)>, failed: set<Failure>, removed: set<(string, nat)>)

  datatype Failure = Failure(conn: nat, message: string)

  function Initial(option: int): State {
    State(MaxInflight(option), [], map[], 0, map[], map[], [], multiset{}, multiset{}, {}, {}, {})
  }

  datatype Step =
    | Put(device: string, account: string)
    | Remove(device: string, conn: nat)
    | Disconnect(device: string)
    | FailPending(failure: Failure)
    | Deliver(slot: Slot, resp: Response)
    | Hand(send: Send)
    | Begin(call: nat, account: string, device: string)
    | LookUp(call: nat)
    | Acquire(call: nat)
    | GiveUp(call: nat)
    | Allocate(call: nat)
    | MarshalFails(call: nat)
    | Register(call: nat)
    | Write(call: nat, ok: bool)
    | Receive(call: nat)
    | Expire(call: nat)
    | Cleanup(call: nat)
    | Release(call: nat)

  predicate At(s: State, k: nat, pc: Pc) {
    k in s.calls && s.calls[k].pc == pc
  }

  predicate Enabled(s: State, step: Step) {
    match step
    case Put(_, _) => true
    case Remove(_, conn) => conn < |s.conns|
    case Disconnect(_) => true
    case FailPending(failure) => failure in s.todo
    case Deliver(slot, _) => slot.conn < |s.conns|
    case Hand(send) => send in s.sends && send.call in s.calls
    case Begin(k, _, _) => k !in s.calls
    case LookUp(k) => At(s, k, Looking)
    case Acquire(k) =>
      At(s, k, WantsPermit) && s.calls[k].conn < |s.sem| && s.sem[s.calls[k].conn] < s.max
    case GiveUp(k) => At(s, k, WantsPermit)
    case Allocate(k) => At(s, k, HasPermit)
    case MarshalFails(k) => At(s, k, HasID)
    case Register(k) => At(s, k, HasID)
    case Write(k, _) => At(s, k, Registered)
    case Receive(k) => At(s, k, Written) && s.calls[k].inbox.Some?
    case Expire(k) => At(s, k, Written)
    case Cleanup(k) => At(s, k, Cleaning)
    case Release(k) => At(s, k, Releasing) && s.calls[k].conn < |s.sem| && s.sem[s.calls[k].conn] > 0
  }

  function Moved(s: State, k: nat, c: Call): State {
    s.(calls := s.calls[k := c])
  }

  /** The pending entries of one connection. */
  function Pending(pend: map<Slot, nat>, conn: nat): set<Slot> {
    set slot | slot in pend && slot.conn == conn
  }

  function Failing(pend: map<Slot, nat>, f: Failure): set<Send> {
    set slot | slot in Pending(pend, f.conn) :: Send(pend[slot], slot, FailureOf(f.message))
  }

  function Apply(s: State, step: Step): State
    requires Enabled(s, step)
  {
    match step
    case Put(device, account) =>
      // The replaced connection's waiters are failed after the lock is released.
      s.(conns := s.conns + [Conn(device, account)], sem := s.sem + [0],
         devices := s.devices[device := |s.conns|],
         todo := s.todo + if device in s.devices then multiset{Failure(s.devices[device], REPLACED)} else multiset{})
    case Remove(device, conn) =>
      s.(devices := if device in s.devices && s.devices[device] == conn then s.devices - {device} else s.devices,
         todo := s.todo + multiset{Failure(conn, DISCONNECTED)}, removed := s.removed + {(device, conn)})
    case Disconnect(device) =>
      if device in s.devices then s.(todo := s.todo + multiset{Failure(s.devices[device], DISCONNECTED)}) else s
    case FailPending(f) =>
      s.(todo := s.todo - multiset{f}, failed := s.failed + {f}, sends := s.sends + multiset(Failing(s.pend, f)))
    case Deliver(slot, resp) =>
      s.(delivered := s.delivered + {(slot, resp)},
         sends := s.sends + if slot in s.pend then multiset{Send(s.pend[slot], slot, resp)} else multiset{})
    case Hand(send) =>
      // A full channel drops the response.
      var c := s.calls[send.call];
      Moved(s, send.call, c.(inbox := Kept(c.inbox, send.resp))).(sends := s.sends - multiset{send})
    case Begin(k, account, device) =>
      Moved(s, k, Call(account, device, Looking, 0, 0, None, None, None))
    case LookUp(k) =>
      var c := s.calls[k];
      if c.device in s.devices && s.devices[c.device] < |s.conns| && s.conns[s.devices[c.device]].account == c.account
      then Moved(s, k, c.(pc := WantsPermit, conn := s.devices[c.device]))
      else Moved(s, k, c.(pc := Returned, result := Some(Err("device is offline or unknown"))))
    case Acquire(k) =>
      var c := s.calls[k];
      Moved(s, k, c.(pc := HasPermit)).(sem := s.sem[c.conn := s.sem[c.conn] + 1])
    case GiveUp(k) =>
      Moved(s, k, s.calls[k].(pc := Returned, result := Some(Err("context done"))))
    case Allocate(k) =>
      Moved(s, k, s.calls[k].(pc := HasID, id := s.counter + 1)).(counter := s.counter + 1)
    case MarshalFails(k) =>
      Moved(s, k, s.calls[k].(pc := Releasing, result := Some(Err("marshal"))))
    case Register(k) =>
      var c := s.calls[k];
      Moved(s, k, c.(pc := Registered)).(pend := s.pend[Slot(c.conn, c.id) := k])
    case Write(k, ok) =>
      var c := s.calls[k];
      Moved(s, k, if ok then c.(pc := Written) else c.(pc := Cleaning, result := Some(Err("write"))))
    case Receive(k) =>
      var c := s.calls[k];
      Moved(s, k, c.(pc := Cleaning, inbox := None, got := c.inbox, result := Some(ResultOf(c.inbox.value))))
    case Expire(k) =>
      Moved(s, k, s.calls[k].(pc := Cleaning, result := Some(Err("context done"))))
    case Cleanup(k) =>
      var c := s.calls[k];
      Moved(s, k, c.(pc := Releasing)).(pend := s.pend - {Slot(c.conn, c.id)})
    case Release(k) =>
      var c := s.calls[k];
      Moved(s, k, c.(pc := Returned)).(sem := s.sem[c.conn := s.sem[c.conn] - 1])
  }

  // ----------------------------------------------------------------------- invariant

  predicate Holding(c: Call) {
    c.pc != Looking && c.pc != WantsPermit && c.pc != Returned
  }

  predicate InMap(c: Call) {
    c.pc == Registered || c.pc == Written || c.pc == Cleaning
  }

  /** The call found its connection. */
  predicate Connected(c: Call) {
    c.pc == WantsPermit || Holding(c) || c.id > 0
  }

  /** A response that may reach the call registered under `slot`: one delivered under
      that number on that connection, or a failure of that connection. */
  ghost predicate Known(s: State, slot: Slot, resp: Response) {
    (slot, resp) in s.delivered || (resp == FailureOf(resp.error) && Failure(slot.conn, resp.error) in s.failed)
  }

  ghost predicate CallOK(s: State, c: Call) {
    && (Connected(c) ==> c.conn < |s.conns| && s.conns[c.conn] == Conn(c.device, c.account))
    && c.id <= s.counter
    && (c.pc == Looking || c.pc == WantsPermit || c.pc == HasPermit ==> c.id == 0)
    && (c.pc == HasID || InMap(c) ==> c.id > 0)
    && (c.inbox.Some? ==> c.id > 0 && Known(s, Slot(c.conn, c.id), c.inbox.value))
    && (c.got.Some? ==> c.id > 0 && Known(s, Slot(c.conn, c.id), c.got.value) && c.result == Some(ResultOf(c.got.value)))
    && (c.got.Some? ==> c.pc == Cleaning || c.pc == Releasing || c.pc == Returned)
    && (c.result.Some? && c.result.value.Ok? ==> c.got.Some?)
  }

  ghost predicate CallsOK(s: State) {
    forall k :: k in s.calls ==> CallOK(s, s.calls[k])
  }

  /** No request number is ever given to two calls. */
  ghost predicate IDsDistinct(s: State) {
    forall j, k :: j in s.calls && k in s.calls && j != k && s.calls[j].id > 0 ==> s.calls[j].id != s.calls[k].id
  }

  /** The pending maps hold exactly the calls between registration and cleanup. */
  ghost predicate PendOK(s: State) {
    && (forall slot :: slot in s.pend ==> Owns(s, s.pend[slot], slot))
    && (forall k :: k in s.calls && InMap(s.calls[k]) ==>
          var slot := Slot(s.calls[k].conn, s.calls[k].id); slot in s.pend && s.pend[slot] == k)
  }

  ghost predicate Owns(s: State, k: nat, slot: Slot) {
    k in s.calls && InMap(s.calls[k]) && s.calls[k].conn == slot.conn && s.calls[k].id == slot.id
  }

  ghost function Holders(calls: map<nat, Call>, conn: nat): set<nat> {
    set k | k in calls && Holding(calls[k]) && calls[k].conn == conn
  }

  /** Every permit taken on a connection is held by one call, and there are at most `max`. */
  ghost predicate SemOK(s: State) {
    && |s.sem| == |s.conns|
    && forall c :: 0 <= c < |s.conns| ==> s.sem[c] == |Holders(s.calls, c)| <= s.max
  }

  /** A response on its way goes to the call that was registered under its number. */
  ghost predicate SendOK(s: State, send: Send) {
    && send.call in s.calls && s.calls[send.call].id > 0
    && Slot(s.calls[send.call].conn, s.calls[send.call].id) == send.slot
    && Known(s, send.slot, send.resp)
  }

  ghost predicate SendsOK(s: State) {
    forall send :: send in s.sends ==> SendOK(s, send)
  }

  /** `c` is the newest connection of its device. */
  ghost predicate Newest(s: State, c: nat) {
    c < |s.conns| && forall d :: c < d < |s.conns| ==> s.conns[d].device != s.conns[c].device
  }

  /** A device maps to its newest connection unless that very connection was removed. */
  ghost predicate DevicesOK(s: State) {
    && (forall id :: id in s.devices ==>
          Newest(s, s.devices[id]) && s.conns[s.devices[id]].device == id && (id, s.devices[id]) !in s.removed)
    && (forall c :: 0 <= c < |s.conns| && Newest(s, c) && (s.conns[c].device, c) !in s.removed ==>
          s.conns[c].device in s.devices && s.devices[s.conns[c].device] == c)
    && (forall r :: r in s.removed ==> r.1 < |s.conns|)
  }

  /** A connection is failed as replaced only when a newer one of the device exists. */
  ghost predicate FailuresOK(s: State) {
    && (forall f :: f in s.todo ==> FailureOK(s, f))
    && (forall f :: f in s.failed ==> FailureOK(s, f))
  }

  ghost predicate FailureOK(s: State, f: Failure) {
    f.conn < |s.conns| && (f.message == DISCONNECTED || (f.message == REPLACED && !Newest(s, f.conn)))
  }

  ghost predicate Inv(s: State) {
    CallsOK(s) && IDsDistinct(s) && PendOK(s) && SemOK(s) && SendsOK(s) && DevicesOK(s) && FailuresOK(s)
  }

  // --------------------------------------------------- steps of the connections

  /** Nothing a call looks at changed; new connections and new history may be there. */
  ghost predicate CallsUntouched(s: State, s': State) {
    && s'.max == s.max && s'.calls == s.calls && s'.pend == s.pend && s'.counter == s.counter
    && s.conns <= s'.conns && |s'.sem| == |s'.conns| && s.sem <= s'.sem
    && (forall c :: |s.conns| <= c < |s'.conns| ==> s'.sem[c] == 0)
    && s.delivered <= s'.delivered && s.failed <= s'.failed
  }

  lemma UntouchedCalls(s: State, s': State)
    requires CallsOK(s) && CallsUntouched(s, s')
    ensures CallsOK(s')
  {
    forall k | k in s'.calls ensures CallOK(s', s'.calls[k]) {
      assert CallOK(s, s.calls[k]);
    }
  }

  lemma UntouchedSem(s: State, s': State)
    requires CallsOK(s) && SemOK(s) && CallsUntouched(s, s')
    ensures SemOK(s')
  {
    forall k | k in s.calls && Holding(s.calls[k]) ensures s.calls[k].conn < |s.conns| {
      assert CallOK(s, s.calls[k]);
    }
    forall c | 0 <= c < |s'.conns| ensures s'.sem[c] == |Holders(s'.calls, c)| <= s'.max {
      if c >= |s.conns| {
        assert Holders(s.calls, c) == {};
      }
    }
  }

  lemma UntouchedSends(s: State, s': State, send: Send)
    requires CallsUntouched(s, s') && SendOK(s, send)
    ensures SendOK(s', send)
  {
  }

  lemma EnvironmentKeeps(s: State, s': State)
    requires Inv(s) && CallsUntouched(s, s')
    ensures CallsOK(s') && IDsDistinct(s') && PendOK(s') && SemOK(s')
    ensures forall send :: send in s.sends ==> SendOK(s', send)
  {
    UntouchedCalls(s, s');
    UntouchedSem(s, s');
    forall slot | slot in s'.pend ensures Owns(s', s'.pend[slot], slot) {
      assert Owns(s, s.pend[slot], slot);
    }
    forall send | send in s.sends ensures SendOK(s', send) {
      UntouchedSends(s, s', send);
    }
  }

  lemma SameConnsKeepDevices(s: State, s': State)
    requires DevicesOK(s) && s'.conns == s.conns && s'.devices == s.devices && s'.removed == s.removed
    ensures DevicesOK(s')
  {
    forall c: nat ensures Newest(s', c) <==> Newest(s, c) {}
  }

  lemma SameConnsKeepFailure(s: State, s': State, f: Failure)
    requires FailureOK(s, f) && s.conns == s'.conns
    ensures FailureOK(s', f)
  {
    assert Newest(s', f.conn) <==> Newest(s, f.conn);
  }

  lemma PutKeepsInv(s: State, step: Step)
    requires Inv(s) && step.Put?
    ensures Inv(Apply(s, step))
  {
    var s', n := Apply(s, step), |s.conns|;
    EnvironmentKeeps(s, s');
    forall c: nat | c <= n ensures Newest(s', c) <==> c == n || (Newest(s, c) && s.conns[c].device != step.device) {
      NewestAfterPut(s, s', c, step.device);
    }
    PutKeepsDevices(s, s', step.device);
    forall f | f in s'.todo || f in s'.failed ensures FailureOK(s', f) {
      if f in s.todo || f in s.failed {
        assert FailureOK(s, f);
      }
    }
  }

  lemma NewestAfterPut(s: State, s': State, c: nat, device: string)
    requires c <= |s.conns| && |s'.conns| == |s.conns| + 1 && s.conns <= s'.conns && s'.conns[|s.conns|].device == device
    ensures Newest(s', c) <==> c == |s.conns| || (Newest(s, c) && s.conns[c].device != device)
  {
    if Newest(s', c) && c < |s.conns| {
      assert s'.conns[|s.conns|].device != s'.conns[c].device;
      assert forall d :: c < d < |s.conns| ==> s'.conns[d] == s.conns[d];
    }
  }

  lemma PutKeepsDevices(s: State, s': State, device: string)
    requires DevicesOK(s) && s.conns <= s'.conns && |s'.conns| == |s.conns| + 1
    requires s'.conns[|s.conns|].device == device
    requires s'.devices == s.devices[device := |s.conns|] && s'.removed == s.removed
    requires forall c: nat :: c <= |s.conns| ==>
      (Newest(s', c) <==> c == |s.conns| || (Newest(s, c) && s.conns[c].device != device))
    ensures DevicesOK(s')
  {
    forall c | 0 <= c < |s'.conns| && Newest(s', c) && (s'.conns[c].device, c) !in s'.removed
      ensures s'.conns[c].device in s'.devices && s'.devices[s'.conns[c].device] == c
    {
      if c < |s.conns| {
        assert Newest(s, c) && s'.conns[c] == s.conns[c];
      }
    }
  }

  lemma RemoveKeepsInv(s: State, step: Step)
    requires Inv(s) && step.Remove? && Enabled(s, step)
    ensures Inv(Apply(s, step))
  {
    var s' := Apply(s, step);
    EnvironmentKeeps(s, s');
    forall c: nat ensures Newest(s', c) <==> Newest(s, c) {}
    OneMoreFailure(s, s', Failure(step.conn, DISCONNECTED));
  }

  lemma DisconnectKeepsInv(s: State, step: Step)
    requires Inv(s) && step.Disconnect?
    ensures Inv(Apply(s, step))
  {
    if step.device in s.devices {
      var s', f := Apply(s, step), Failure(s.devices[step.device], DISCONNECTED);
      EnvironmentKeeps(s, s');
      SameConnsKeepDevices(s, s');
      assert Newest(s, f.conn);
      OneMoreFailure(s, s', f);
    }
  }

  lemma OneMoreFailure(s: State, s': State, f: Failure)
    requires FailuresOK(s) && s'.conns == s.conns && s'.failed == s.failed && s'.todo == s.todo + multiset{f}
    requires f.conn < |s.conns| && f.message == DISCONNECTED
    ensures FailuresOK(s')
  {
    forall g | g in s'.todo || g in s'.failed ensures FailureOK(s', g) {
      if g in s.todo || g in s.failed {
        SameConnsKeepFailure(s, s', g);
      }
    }
  }

  lemma DeliverKeepsInv(s: State, step: Step)
    requires Inv(s) && step.Deliver? && Enabled(s, step)
    ensures Inv(Apply(s, step))
  {
    var s' := Apply(s, step);
    EnvironmentKeeps(s, s');
    SameConnsKeepDevices(s, s');
    forall send | send in s'.sends ensures SendOK(s', send) {
      if send !in s.sends {
        assert Owns(s, s.pend[step.slot], step.slot);
        assert CallOK(s, s.calls[s.pend[step.slot]]);
      }
    }
    forall f | f in s'.todo || f in s'.failed ensures FailureOK(s', f) {
      SameConnsKeepFailure(s, s', f);
    }
  }

  lemma FailPendingKeepsInv(s: State, step: Step)
    requires Inv(s) && step.FailPending? && Enabled(s, step)
    ensures Inv(Apply(s, step))
  {
    var s' := Apply(s, step);
    EnvironmentKeeps(s, s');
    SameConnsKeepDevices(s, s');
    forall send | send in s'.sends ensures SendOK(s', send) {
      if send !in s.sends {
        assert send in Failing(s.pend, step.failure);
        assert Owns(s, s.pend[send.slot], send.slot);
        assert CallOK(s, s.calls[s.pend[send.slot]]);
      }
    }
    forall f | f in s'.todo || f in s'.failed ensures FailureOK(s', f) {
      SameConnsKeepFailure(s, s', f);
    }
  }

  // ------------------------------------------------------------- steps of one call

  /** Only call `k` changed, and its number, once given, did not. */
  ghost predicate OneCall(s: State, s': State, k: nat, c: Call) {
    && s'.max == s.max && s'.calls == s.calls[k := c] && s'.conns == s.conns && s'.devices == s.devices
    && s.counter <= s'.counter <= s.counter + 1 && s'.sends <= s.sends && s'.todo == s.todo
    && s'.delivered == s.delivered && s'.failed == s.failed && s'.removed == s.removed
    && CallOK(s', c)
    && (c.id > 0 ==> (k in s.calls && s.calls[k].id == c.id) || c.id == s.counter + 1)
    && (k in s.calls && s.calls[k].id > 0 ==> c.id == s.calls[k].id && c.conn == s.calls[k].conn)
  }

  lemma OneCallKeeps(s: State, s': State, k: nat, c: Call)
    requires Inv(s) && OneCall(s, s', k, c)
    ensures CallsOK(s') && IDsDistinct(s') && SendsOK(s') && DevicesOK(s') && FailuresOK(s')
  {
    forall j | j in s'.calls ensures CallOK(s', s'.calls[j]) {
      if j != k {
        assert CallOK(s, s.calls[j]);
      }
    }
    OneCallIDs(s, s', k, c);
    forall send | send in s'.sends ensures SendOK(s', send) {
      assert send in s.sends && SendOK(s, send);
    }
    SameConnsKeepDevices(s, s');
    forall f | f in s'.todo || f in s'.failed ensures FailureOK(s', f) {
      SameConnsKeepFailure(s, s', f);
    }
  }

  lemma OneCallIDs(s: State, s': State, k: nat, c: Call)
    requires CallsOK(s) && IDsDistinct(s) && OneCall(s, s', k, c)
    ensures IDsDistinct(s')
  {
    forall i, j | i in s'.calls && j in s'.calls && i != j && s'.calls[i].id > 0
      ensures s'.calls[i].id != s'.calls[j].id
    {
      assert i != k ==> CallOK(s, s.calls[i]);
      assert j != k ==> CallOK(s, s.calls[j]);
    }
  }

  /** A step that moves no call into or out of the pending maps. */
  lemma PendSame(s: State, s': State, k: nat, c: Call)
    requires CallsOK(s) && PendOK(s) && OneCall(s, s', k, c) && s'.pend == s.pend
    requires k in s.calls ==> (InMap(c) <==> InMap(s.calls[k]))
    requires k !in s.calls ==> !InMap(c)
    ensures PendOK(s')
  {
    assert k in s.calls ==> CallOK(s, s.calls[k]);
    forall slot | slot in s'.pend ensures Owns(s', s'.pend[slot], slot) {
      assert Owns(s, s.pend[slot], slot);
    }
  }

  lemma PendAdded(s: State, s': State, k: nat, c: Call)
    requires CallsOK(s) && IDsDistinct(s') && PendOK(s) && OneCall(s, s', k, c)
    requires k in s.calls && !InMap(s.calls[k]) && InMap(c) && c.id > 0
    requires s'.pend == s.pend[Slot(c.conn, c.id) := k]
    ensures PendOK(s')
  {
    forall slot | slot in s'.pend ensures Owns(s', s'.pend[slot], slot) {
      if slot != Slot(c.conn, c.id) {
        assert Owns(s, s.pend[slot], slot);
      }
    }
    forall j | j in s'.calls && InMap(s'.calls[j])
      ensures var slot := Slot(s'.calls[j].conn, s'.calls[j].id); slot in s'.pend && s'.pend[slot] == j
    {
      if j != k {
        assert s'.calls[j].id != s'.calls[k].id;
      }
    }
  }

  lemma PendRemoved(s: State, s': State, k: nat, c: Call)
    requires IDsDistinct(s') && PendOK(s) && OneCall(s, s', k, c)
    requires k in s.calls && InMap(s.calls[k]) && !InMap(c) && c.id > 0 && c.id == s.calls[k].id && c.conn == s.calls[k].conn
    requires s'.pend == s.pend - {Slot(c.conn, c.id)}
    ensures PendOK(s')
  {
    var gone := Slot(c.conn, c.id);
    assert s.pend[gone] == k;
    forall slot | slot in s'.pend ensures Owns(s', s'.pend[slot], slot) {
      assert Owns(s, s.pend[slot], slot);
    }
    forall j | j in s'.calls && InMap(s'.calls[j])
      ensures var slot := Slot(s'.calls[j].conn, s'.calls[j].id); slot in s'.pend && s'.pend[slot] == j
    {
      assert s'.calls[j].id != s'.calls[k].id;
    }
  }

  lemma SemSame(s: State, s': State, k: nat, c: Call)
    requires SemOK(s) && OneCall(s, s', k, c) && s'.sem == s.sem
    requires k in s.calls ==> (Holding(c) <==> Holding(s.calls[k])) && (Holding(c) ==> c.conn == s.calls[k].conn)
    requires k !in s.calls ==> !Holding(c)
    ensures SemOK(s')
  {
    forall n | 0 <= n < |s'.conns| ensures s'.sem[n] == |Holders(s'.calls, n)| <= s'.max {
      assert Holders(s'.calls, n) == Holders(s.calls, n);
    }
  }

  lemma SemTaken(s: State, s': State, k: nat, c: Call)
    requires SemOK(s) && OneCall(s, s', k, c) && k in s.calls && !Holding(s.calls[k]) && Holding(c)
    requires c.conn < |s.sem| && s.sem[c.conn] < s.max && s'.sem == s.sem[c.conn := s.sem[c.conn] + 1]
    ensures SemOK(s')
  {
    forall n | 0 <= n < |s'.conns| ensures s'.sem[n] == |Holders(s'.calls, n)| <= s'.max {
      if n == c.conn {
        assert Holders(s'.calls, n) == Holders(s.calls, n) + {k} && k !in Holders(s.calls, n);
      } else {
        assert Holders(s'.calls, n) == Holders(s.calls, n);
      }
    }
  }

  lemma SemReturned(s: State, s': State, k: nat, c: Call)
    requires SemOK(s) && OneCall(s, s', k, c) && k in s.calls && Holding(s.calls[k]) && !Holding(c)
    requires c.conn == s.calls[k].conn < |s.sem| && s.sem[c.conn] > 0 && s'.sem == s.sem[c.conn := s.sem[c.conn] - 1]
    ensures SemOK(s')
  {
    forall n | 0 <= n < |s'.conns| ensures s'.sem[n] == |Holders(s'.calls, n)| <= s'.max {
      if n == c.conn {
        assert Holders(s'.calls, n) == Holders(s.calls, n) - {k} && k in Holders(s.calls, n);
      } else {
        assert Holders(s'.calls, n) == Holders(s.calls, n);
      }
    }
  }

  /** A step that moves a call along without entering or leaving a pending map, or
      taking or returning a permit. */
  ghost predicate Quiet(s: State, s': State, k: nat, c: Call) {
    && OneCall(s, s', k, c) && s'.pend == s.pend && s'.sem == s.sem
    && (k in s.calls ==> (InMap(c) <==> InMap(s.calls[k])) && (Holding(c) <==> Holding(s.calls[k])))
    && (k in s.calls && Holding(c) ==> c.conn == s.calls[k].conn)
    && (k !in s.calls ==> !InMap(c) && !Holding(c))
  }

  lemma QuietKeepsInv(s: State, s': State, k: nat, c: Call)
    requires Inv(s) && Quiet(s, s', k, c)
    ensures Inv(s')
  {
    OneCallKeeps(s, s', k, c);
    PendSame(s, s', k, c);
    SemSame(s, s', k, c);
  }

  lemma HandIsQuiet(s: State, step: Step)
    requires step.Hand? && Enabled(s, step) && CallOK(s, s.calls[step.send.call]) && SendOK(s, step.send)
    ensures var s', k := Apply(s, step), step.send.call; Quiet(s, s', k, s'.calls[k])
  {
  }

  /** The first steps of a call. */
  lemma EnterIsQuiet(s: State, step: Step)
    requires (step.Begin? || step.LookUp? || step.GiveUp?) && Enabled(s, step)
    requires step.call in s.calls ==> CallOK(s, s.calls[step.call])
    requires step.LookUp? && s.calls[step.call].device in s.devices ==>
      var c := s.devices[s.calls[step.call].device]; c < |s.conns| && s.conns[c].device == s.calls[step.call].device
    ensures var s', k := Apply(s, step), step.call; Quiet(s, s', k, s'.calls[k])
  {
  }

  /** Numbering a call, and the steps around its response. */
  lemma MoveIsQuiet(s: State, step: Step)
    requires step.Allocate? || step.MarshalFails? || step.Write? || step.Receive? || step.Expire?
    requires Enabled(s, step) && CallOK(s, s.calls[step.call])
    ensures var s', k := Apply(s, step), step.call; Quiet(s, s', k, s'.calls[k])
  {
  }

  lemma QuietStepKeepsInv(s: State, step: Step)
    requires Inv(s) && Enabled(s, step)
    requires step.Hand? || step.Begin? || step.LookUp? || step.GiveUp? || step.Allocate? || step.MarshalFails?
      || step.Write? || step.Receive? || step.Expire?
    ensures Inv(Apply(s, step))
  {
    var s', k := Apply(s, step), if step.Hand? then step.send.call else step.call;
    if step.Hand? {
      HandIsQuiet(s, step);
    } else if step.Begin? || step.LookUp? || step.GiveUp? {
      EnterIsQuiet(s, step);
    } else {
      MoveIsQuiet(s, step);
    }
    QuietKeepsInv(s, s', k, s'.calls[k]);
  }

  /** Only call `k` changed, by taking a permit on its connection. */
  ghost predicate Takes(s: State, s': State, k: nat, c: Call) {
    && OneCall(s, s', k, c) && s'.pend == s.pend && k in s.calls
    && !InMap(c) && !InMap(s.calls[k]) && Holding(c) && !Holding(s.calls[k])
    && c.conn < |s.sem| && s.sem[c.conn] < s.max && s'.sem == s.sem[c.conn := s.sem[c.conn] + 1]
  }

  ghost predicate Returns(s: State, s': State, k: nat, c: Call) {
    && OneCall(s, s', k, c) && s'.pend == s.pend && k in s.calls
    && !InMap(c) && !InMap(s.calls[k]) && !Holding(c) && Holding(s.calls[k])
    && c.conn == s.calls[k].conn < |s.sem| && s.sem[c.conn] > 0 && s'.sem == s.sem[c.conn := s.sem[c.conn] - 1]
  }

  lemma AcquireTakes(s: State, step: Step)
    requires step.Acquire? && Enabled(s, step) && CallOK(s, s.calls[step.call])
    ensures var s', k := Apply(s, step), step.call; Takes(s, s', k, s'.calls[k])
  {
  }

  lemma ReleaseReturns(s: State, step: Step)
    requires step.Release? && Enabled(s, step) && CallOK(s, s.calls[step.call])
    ensures var s', k := Apply(s, step), step.call; Returns(s, s', k, s'.calls[k])
  {
  }

  lemma TakesKeepsInv(s: State, s': State, k: nat, c: Call)
    requires Inv(s) && Takes(s, s', k, c)
    ensures Inv(s')
  {
    OneCallKeeps(s, s', k, c);
    PendSame(s, s', k, c);
    SemTaken(s, s', k, c);
  }

  lemma ReturnsKeepsInv(s: State, s': State, k: nat, c: Call)
    requires Inv(s) && Returns(s, s', k, c)
    ensures Inv(s')
  {
    OneCallKeeps(s, s', k, c);
    PendSame(s, s', k, c);
    SemReturned(s, s', k, c);
  }

  lemma AcquireKeepsInv(s: State, step: Step)
    requires Inv(s) && step.Acquire? && Enabled(s, step)
    ensures Inv(Apply(s, step))
  {
    AcquireTakes(s, step);
    TakesKeepsInv(s, Apply(s, step), step.call, Apply(s, step).calls[step.call]);
  }

  lemma ReleaseKeepsInv(s: State, step: Step)
    requires Inv(s) && step.Release? && Enabled(s, step)
    ensures Inv(Apply(s, step))
  {
    ReleaseReturns(s, step);
    ReturnsKeepsInv(s, Apply(s, step), step.call, Apply(s, step).calls[step.call]);
  }

  /** Entering and leaving the pending map. */
  lemma EntryIsOneCall(s: State, step: Step)
    requires (step.Register? || step.Cleanup?) && Enabled(s, step) && CallOK(s, s.calls[step.call])
    ensures var s', k := Apply(s, step), step.call; var c := s'.calls[k];
      && OneCall(s, s', k, c) && s'.sem == s.sem && Holding(c) && Holding(s.calls[k])
      && c.id > 0 && c.id == s.calls[k].id && c.conn == s.calls[k].conn
      && InMap(c) == step.Register? && InMap(s.calls[k]) == step.Cleanup?
      && s'.pend == if step.Register? then s.pend[Slot(c.conn, c.id) := k] else s.pend - {Slot(c.conn, c.id)}
  {
  }

  lemma RegisterKeepsInv(s: State, s': State, k: nat, c: Call)
    requires Inv(s) && OneCall(s, s', k, c) && s'.sem == s.sem && k in s.calls && Holding(c) && Holding(s.calls[k])
    requires c.id > 0 && c.conn == s.calls[k].conn && InMap(c) && !InMap(s.calls[k])
    requires s'.pend == s.pend[Slot(c.conn, c.id) := k]
    ensures Inv(s')
  {
    OneCallKeeps(s, s', k, c);
    SemSame(s, s', k, c);
    PendAdded(s, s', k, c);
  }

  lemma CleanupKeepsInv(s: State, s': State, k: nat, c: Call)
    requires Inv(s) && OneCall(s, s', k, c) && s'.sem == s.sem && k in s.calls && Holding(c) && Holding(s.calls[k])
    requires c.id > 0 && c.id == s.calls[k].id && c.conn == s.calls[k].conn && !InMap(c) && InMap(s.calls[k])
    requires s'.pend == s.pend - {Slot(c.conn, c.id)}
    ensures Inv(s')
  {
    OneCallKeeps(s, s', k, c);
    SemSame(s, s', k, c);
    PendRemoved(s, s', k, c);
  }

  lemma EntryStepKeepsInv(s: State, step: Step)
    requires Inv(s) && (step.Register? || step.Cleanup?) && Enabled(s, step)
    ensures Inv(Apply(s, step))
  {
    var s', k := Apply(s, step), step.call;
    EntryIsOneCall(s, step);
    if step.Register? {
      RegisterKeepsInv(s, s', k, s'.calls[k]);
    } else {
      CleanupKeepsInv(s, s', k, s'.calls[k]);
    }
  }

  /** Every step of every caller and connection keeps the invariant. */
  lemma StepKeepsInv(s: State, step: Step)
    requires Inv(s) && Enabled(s, step)
    ensures Inv(Apply(s, step))
  {
    match step
    case Put(_, _) => PutKeepsInv(s, step);
    case Remove(_, _) => RemoveKeepsInv(s, step);
    case Disconnect(_) => DisconnectKeepsInv(s, step);
    case FailPending(_) => FailPendingKeepsInv(s, step);
    case Deliver(_, _) => DeliverKeepsInv(s, step);
    case Acquire(_) => AcquireKeepsInv(s, step);
    case Release(_) => ReleaseKeepsInv(s, step);
    case Register(_) => EntryStepKeepsInv(s, step);
    case Cleanup(_) => EntryStepKeepsInv(s, step);
    case _ => QuietStepKeepsInv(s, step);
  }

  // ------------------------------------------------------------------------ all runs

  ghost predicate Execution(option: int, states: seq<State>, steps: seq<Step>) {
    && |states| == |steps| + 1 && states[0] == Initial(option)
    && forall i :: 0 <= i < |steps| ==> Enabled(states[i], steps[i]) && states[i + 1] == Apply(states[i], steps[i])
  }

  lemma {:induction false} AlwaysInv(option: int, states: seq<State>, steps: seq<Step>, i: nat)
    requires Execution(option, states, steps) && i < |states|
    ensures Inv(states[i]) && states[i].max == MaxInflight(option)
  {
    if i == 0 {
      InitialInv(option);
    } else {
      AlwaysInv(option, states, steps, i - 1);
      NextInv(option, states, steps, i - 1);
    }
  }

  lemma InitialInv(option: int)
    ensures Inv(Initial(option))
  {
  }

  lemma NextInv(option: int, states: seq<State>, steps: seq<Step>, i: nat)
    requires Execution(option, states, steps) && i < |steps| && Inv(states[i])
    ensures Inv(states[i + 1]) && states[i + 1].max == states[i].max
  {
    StepKeepsInv(states[i], steps[i]);
    MaxKept(states[i], steps[i]);
  }

  lemma MaxKept(s: State, step: Step)
    requires Enabled(s, step)
    ensures Apply(s, step).max == s.max
  {
  }

  lemma {:induction false} OwnersBound(s: State, slots: set<Slot>, owners: set<nat>)
    requires PendOK(s) && forall slot :: slot in slots ==> slot in s.pend && s.pend[slot] in owners
    ensures |slots| <= |owners|
    decreases |slots|
  {
    if slots != {} {
      var slot :| slot in slots;
      var k := s.pend[slot];
      forall other | other in slots - {slot} ensures s.pend[other] in owners - {k} {
        assert Owns(s, s.pend[other], other) && Owns(s, k, slot);
      }
      OwnersBound(s, slots - {slot}, owners - {k});
    }
  }

  /** No connection ever has more pending calls than the in-flight bound. */
  lemma InflightBounded(option: int, states: seq<State>, steps: seq<Step>, i: nat, conn: nat)
    requires Execution(option, states, steps) && i < |states| && conn < |states[i].conns|
    ensures |Pending(states[i].pend, conn)| <= if option > 0 then option else 8
  {
    var s := states[i];
    AlwaysInv(option, states, steps, i);
    forall slot | slot in Pending(s.pend, conn) ensures slot in s.pend && s.pend[slot] in Holders(s.calls, conn) {
      assert Owns(s, s.pend[slot], slot);
    }
    OwnersBound(s, Pending(s.pend, conn), Holders(s.calls, conn));
  }

  /** Two calls of a run never have the same request number. */
  lemma RequestIDsNeverReused(option: int, states: seq<State>, steps: seq<Step>, i: nat, j: nat, k: nat)
    requires Execution(option, states, steps) && i < |states| && j in states[i].calls && k in states[i].calls && j != k
    requires states[i].calls[j].id > 0
    ensures states[i].calls[j].id != states[i].calls[k].id
  {
    AlwaysInv(option, states, steps, i);
  }

  /** Whatever a call returned with success came from a response delivered under the
      call's own number on its own connection, and that connection belongs to the
      device and account the caller named. */
  lemma AnswersAreOwn(option: int, states: seq<State>, steps: seq<Step>, i: nat, k: nat)
    requires Execution(option, states, steps) && i < |states| && At(states[i], k, Returned)
    requires states[i].calls[k].result.Some? && states[i].calls[k].result.value.Ok?
    ensures var s, c := states[i], states[i].calls[k];
      && c.conn < |s.conns| && s.conns[c.conn] == Conn(c.device, c.account)
      && exists resp :: (Slot(c.conn, c.id), resp) in s.delivered && resp.ok && c.result == Some(Ok(resp.data))
  {
    AlwaysInv(option, states, steps, i);
    var c := states[i].calls[k];
    assert CallOK(states[i], c);
    assert c.got.value.ok;
  }

  /** A response taken by a call is its own or a failure of its connection, and it is
      told it was replaced only if a newer connection of that device came. */
  lemma ResponsesAreOwn(option: int, states: seq<State>, steps: seq<Step>, i: nat, k: nat)
    requires Execution(option, states, steps) && i < |states| && k in states[i].calls && states[i].calls[k].got.Some?
    ensures var s, c := states[i], states[i].calls[k];
      || (Slot(c.conn, c.id), c.got.value) in s.delivered
      || (c.got.value == Response(false, "agent disconnected", "") && Failure(c.conn, DISCONNECTED) in s.failed)
      || (c.got.value == Response(false, "agent connection replaced", "") && !Newest(s, c.conn))
    ensures var c := states[i].calls[k];
      && (c.got.value.ok ==> c.result == Some(Ok(c.got.value.data)))
      && (!c.got.value.ok && c.got.value.error != "" ==> c.result == Some(Err(c.got.value.error)))
      && (!c.got.value.ok && c.got.value.error == "" ==> c.result == Some(Err("agent request failed")))
  {
    AlwaysInv(option, states, steps, i);
    var s, c := states[i], states[i].calls[k];
    assert CallOK(s, c);
    if (Slot(c.conn, c.id), c.got.value) !in s.delivered {
      assert FailureOK(s, Failure(c.conn, c.got.value.error));
    }
  }

  /** At any time a device is listed with its newest connection, unless that very
      connection was removed: removing a replaced one never evicts its successor. */
  lemma NewestIsListed(option: int, states: seq<State>, steps: seq<Step>, i: nat, c: nat)
    requires Execution(option, states, steps) && i < |states| && Newest(states[i], c)
    ensures var s := states[i]; var id := s.conns[c].device;
      (id in s.devices && s.devices[id] == c) <==> (id, c) !in s.removed
  {
    AlwaysInv(option, states, steps, i);
  }

  /** When every call has returned, every permit has been given back and nothing is
      pending. */
  lemma QuietIsEmpty(option: int, states: seq<State>, steps: seq<Step>, i: nat)
    requires Execution(option, states, steps) && i < |states|
    requires forall k :: k in states[i].calls ==> states[i].calls[k].pc == Returned
    ensures states[i].pend == map[] && forall c :: 0 <= c < |states[i].sem| ==> states[i].sem[c] == 0
  {
    var s := states[i];
    AlwaysInv(option, states, steps, i);
    assert s.pend.Keys == {};
    forall c | 0 <= c < |s.sem| ensures s.sem[c] == 0 {
      assert Holders(s.calls, c) == {};
    }
  }

  /** A device of another account looks to a caller like one that is not there. */
  lemma ForeignLooksUnknown(s: State, k: nat)
    requires At(s, k, Looking)
    requires var c := s.calls[k];
      c.device in s.devices && s.devices[c.device] < |s.conns| && s.conns[s.devices[c.device]].account != c.account
    ensures var gone := s.(devices := s.devices - {s.calls[k].device});
      Apply(s, LookUp(k)).calls[k] == Apply(gone, LookUp(k)).calls[k] && At(Apply(gone, LookUp(k)), k, Returned)
  {
  }

  // ------------------------------------------------------------- steps run together

  /** Taking `steps` from `s` leads to `s'`. */
  ghost predicate Path(s: State, steps: seq<Step>, s': State)
    decreases |steps|
  {
    if steps == [] then s == s' else Enabled(s, steps[0]) && Path(Apply(s, steps[0]), steps[1..], s')
  }

  lemma PathFirst(s: State, step: Step, rest: seq<Step>, s': State)
    requires Enabled(s, step) && Path(Apply(s, step), rest, s')
    ensures Path(s, [step] + rest, s')
  {
    assert ([step] + rest)[1..] == rest;
  }

  /** These sends go to different calls. */
  ghost predicate Apart(sends: set<Send>) {
    forall a, b :: a in sends && b in sends && a != b ==> a.call != b.call
  }

  /** Nothing but inboxes and sends differs. */
  ghost predicate SameOutline(s: State, s': State) {
    && s'.max == s.max && s'.conns == s.conns && s'.devices == s.devices && s'.counter == s.counter
    && s'.pend == s.pend && s'.sem == s.sem && s'.todo == s.todo && s'.calls.Keys == s.calls.Keys
  }

  /** What handing `sends` over leaves in the inboxes. */
  ghost predicate Handed(s: State, sends: set<Send>, s': State) {
    && SameOutline(s, s')
    && (forall send :: send in sends ==> send.call in s.calls)
    && (forall send :: send in sends ==> s'.calls[send.call].inbox == Kept(s.calls[send.call].inbox, send.resp))
    && (forall k :: k in s.calls && (forall send :: send in sends ==> send.call != k) ==> s'.calls[k] == s.calls[k])
  }

  lemma {:induction false} HandAll(s: State, sends: set<Send>) returns (steps: seq<Step>, s': State)
    requires Apart(sends) && forall send :: send in sends ==> send in s.sends && send.call in s.calls
    ensures Path(s, steps, s') && Handed(s, sends, s')
    decreases |sends|
  {
    if sends == {} {
      steps, s' := [], s;
    } else {
      var send :| send in sends;
      var s1 := Apply(s, Hand(send));
      var rest;
      rest, s' := HandAll(s1, sends - {send});
      PathFirst(s, Hand(send), rest, s');
      steps := [Hand(send)] + rest;
      HandedOneMore(s, send, s1, sends, s');
    }
  }

  lemma HandedOneMore(s: State, send: Send, s1: State, sends: set<Send>, s': State)
    requires send in s.sends && send.call in s.calls && s1 == Apply(s, Hand(send))
    requires send in sends && Apart(sends) && Handed(s1, sends - {send}, s')
    ensures Handed(s, sends, s')
  {
    assert s'.calls[send.call] == s1.calls[send.call];
    forall k | k in s.calls && (forall other :: other in sends ==> other.call != k) ensures s'.calls[k] == s.calls[k] {
      assert s1.calls[k] == s.calls[k];
    }
  }

  lemma FailingApart(s: State, f: Failure)
    requires PendOK(s)
    ensures Apart(Failing(s.pend, f))
    ensures forall send :: send in Failing(s.pend, f) ==> send.call in s.calls
  {
    forall slot | slot in s.pend ensures Owns(s, s.pend[slot], slot) {}
  }

  /** The inbox of the call waiting under `slot`. */
  function InboxOf(s: State, slot: Slot): Option<Response> {
    if slot in s.pend && s.pend[slot] in s.calls then s.calls[s.pend[slot]].inbox else None
  }

  /** A delivery and the send that follows it, run together. */
  lemma DeliverPath(s: State, slot: Slot, resp: Response) returns (steps: seq<Step>, s': State)
    requires Inv(s) && slot.conn < |s.conns|
    ensures Path(s, [Deliver(slot, resp)] + steps, s') && SameOutline(s, s')
    ensures forall other :: other in s.pend ==>
      InboxOf(s', other) == if other == slot then Kept(InboxOf(s, other), resp) else InboxOf(s, other)
  {
    var s1 := Apply(s, Deliver(slot, resp));
    DeliverySends(s, slot, resp);
    steps, s' := HandAll(s1, Delivery(s.pend, slot, resp));
    PathFirst(s, Deliver(slot, resp), steps, s');
  }

  /** The send a delivery leads to, if a call waits under its number. */
  function Delivery(pend: map<Slot, nat>, slot: Slot, resp: Response): set<Send> {
    if slot in pend then {Send(pend[slot], slot, resp)} else {}
  }

  lemma DeliverySends(s: State, slot: Slot, resp: Response)
    requires PendOK(s)
    ensures Apart(Delivery(s.pend, slot, resp))
    ensures forall other :: other in s.pend ==> s.pend[other] in s.calls
    ensures forall other, send :: other in s.pend && other != slot && send in Delivery(s.pend, slot, resp) ==>
      send.call != s.pend[other]
  {
    forall other | other in s.pend ensures Owns(s, s.pend[other], other) {}
  }

  /** A failure is sent to the call waiting under `slot` exactly if that is one of its
      connection's. */
  lemma FailReaches(s: State, f: Failure, slot: Slot)
    requires PendOK(s) && slot in s.pend
    ensures slot.conn == f.conn ==> Send(s.pend[slot], slot, FailureOf(f.message)) in Failing(s.pend, f)
    ensures slot.conn != f.conn ==> forall send :: send in Failing(s.pend, f) ==> send.call != s.pend[slot]
  {
    assert Owns(s, s.pend[slot], slot);
    forall send | send in Failing(s.pend, f) ensures slot.conn != f.conn ==> send.call != s.pend[slot] {
      assert Owns(s, s.pend[send.slot], send.slot);
    }
  }

  /** A failure and all its sends, run together: each waiter without a response gets it. */
  lemma FailPath(s: State, f: Failure) returns (steps: seq<Step>, s': State)
    requires Inv(s) && f in s.todo
    ensures Path(s, [FailPending(f)] + steps, s')
    ensures s'.conns == s.conns && s'.devices == s.devices && s'.pend == s.pend
    ensures forall slot :: slot in s.pend ==>
      InboxOf(s', slot) == if slot.conn == f.conn then Kept(InboxOf(s, slot), FailureOf(f.message)) else InboxOf(s, slot)
  {
    var s1 := Apply(s, FailPending(f));
    FailingApart(s, f);
    steps, s' := HandAll(s1, Failing(s.pend, f));
    PathFirst(s, FailPending(f), steps, s');
    forall slot | slot in s.pend
      ensures InboxOf(s', slot)
           == if slot.conn == f.conn then Kept(InboxOf(s, slot), FailureOf(f.message)) else InboxOf(s, slot)
    {
      FailReaches(s, f, slot);
    }
  }

  /** A step that owes connection `f.conn` a failure, and that failure, run together. */
  lemma OwedPath(s: State, step: Step, f: Failure) returns (steps: seq<Step>, s': State)
    requires Inv(s) && Enabled(s, step) && (step.Put? || step.Remove? || step.Disconnect?)
    requires f in Apply(s, step).todo
    ensures Path(s, [step] + steps, s')
    ensures s'.conns == Apply(s, step).conns && s'.devices == Apply(s, step).devices && s'.pend == s.pend
    ensures forall slot :: slot in s.pend ==>
      InboxOf(s', slot) == if slot.conn == f.conn then Kept(InboxOf(s, slot), FailureOf(f.message)) else InboxOf(s, slot)
  {
    StepKeepsInv(s, step);
    var rest;
    rest, s' := FailPath(Apply(s, step), f);
    steps := [FailPending(f)] + rest;
    PathFirst(s, step, steps, s');
  }

  /** A connection that has just come has no waiting call. */
  lemma NoSlotsYet(s: State)
    requires Inv(s)
    ensures forall slot :: slot in s.pend ==> slot.conn < |s.conns|
  {
    forall slot | slot in s.pend ensures slot.conn < |s.conns| {
      assert Owns(s, s.pend[slot], slot);
      assert CallOK(s, s.calls[s.pend[slot]]);
    }
  }

  ghost predicate Goes(s: State, step: Step, s': State) {
    Enabled(s, step) && Apply(s, step) == s'
  }

  type Relation = (State, Step, State) -> bool

  /** `steps` lead from `s` to `s'` along `go`. */
  ghost predicate Leads(go: Relation, s: State, steps: seq<Step>, s': State)
    decreases |steps|
  {
    if steps == [] then s' == s
    else exists mid :: go(s, steps[0], mid) && Leads(go, mid, steps[1..], s')
  }

  lemma LeadsFirst(go: Relation, s: State, step: Step, mid: State, rest: seq<Step>, s': State)
    requires go(s, step, mid) && Leads(go, mid, rest, s')
    ensures Leads(go, s, [step] + rest, s')
  {
    assert ([step] + rest)[1..] == rest;
  }

  lemma FiveSteps(go: Relation, s: State, a: Step, s1: State, b: Step, s2: State, c: Step, s3: State, d: Step, s4: State,
                  e: Step, s': State) returns (steps: seq<Step>)
    requires go(s, a, s1) && go(s1, b, s2) && go(s2, c, s3) && go(s3, d, s4) && go(s4, e, s')
    ensures Leads(go, s, steps, s')
  {
    LeadsFirst(go, s4, e, s', [], s');
    LeadsFirst(go, s3, d, s4, [e] + [], s');
    LeadsFirst(go, s2, c, s3, [d] + ([e] + []), s');
    LeadsFirst(go, s1, b, s2, [c] + ([d] + ([e] + [])), s');
    LeadsFirst(go, s, a, s1, [b] + ([c] + ([d] + ([e] + []))), s');
    steps := [a] + ([b] + ([c] + ([d] + ([e] + []))));
  }

  lemma {:induction false} LeadsPath(s: State, steps: seq<Step>, s': State)
    requires Leads(Goes, s, steps, s')
    ensures Path(s, steps, s')
    decreases |steps|
  {
    if steps != [] {
      var mid :| Goes(s, steps[0], mid) && Leads(Goes, mid, steps[1..], s');
      LeadsPath(mid, steps[1..], s');
    }
  }

  /** `go` has every step of the registry. */
  ghost predicate TakesSteps(go: Relation) {
    forall s, step {:trigger Apply(s, step)} :: Enabled(s, step) ==> go(s, step, Apply(s, step))
  }

  // The states a call goes through once a response has been delivered to it.

  function WithResponse(s: State, slot: Slot, resp: Response): State {
    s.(delivered := s.delivered + {(slot, resp)})
  }

  lemma ResponseComes(go: Relation, s: State, k: nat, slot: Slot, resp: Response, t: State, s1: State, s2: State)
    requires TakesSteps(go) && At(s, k, Written) && s.calls[k].inbox.None?
    requires slot in s.pend && s.pend[slot] == k && slot.conn < |s.conns|
    requires t == WithResponse(s, slot, resp) && s1 == t.(sends := s.sends + multiset{Send(k, slot, resp)})
    requires s2 == Moved(t, k, s.calls[k].(inbox := Some(resp)))
    ensures go(s, Deliver(slot, resp), s1) && go(s1, Hand(Send(k, slot, resp)), s2)
  {
    assert Apply(s, Deliver(slot, resp)) == s1;
    assert s.sends + multiset{Send(k, slot, resp)} - multiset{Send(k, slot, resp)} == s.sends;
    assert Apply(s1, Hand(Send(k, slot, resp))) == s2;
  }

  lemma ResponseTaken(go: Relation, t: State, k: nat, c: Call, resp: Response, s2: State, s3: State)
    requires TakesSteps(go) && c.pc == Written && s2 == Moved(t, k, c.(inbox := Some(resp)))
    requires s3 == Moved(t, k, c.(pc := Cleaning, inbox := None, got := Some(resp), result := Some(ResultOf(resp))))
    ensures go(s2, Receive(k), s3)
  {
    assert t.calls[k := c.(inbox := Some(resp))][k := s3.calls[k]] == s3.calls;
    assert Apply(s2, Receive(k)) == s3;
  }

  lemma CallLeaves(go: Relation, t: State, k: nat, c: Call, s3: State, s4: State, s': State)
    requires TakesSteps(go) && c.pc == Cleaning && c.conn < |t.sem| && t.sem[c.conn] > 0 && s3 == Moved(t, k, c)
    requires s4 == Moved(t, k, c.(pc := Releasing)).(pend := t.pend - {Slot(c.conn, c.id)})
    requires s' == Moved(t, k, c.(pc := Returned)).(pend := s4.pend, sem := t.sem[c.conn := t.sem[c.conn] - 1])
    ensures go(s3, Cleanup(k), s4) && go(s4, Release(k), s')
  {
    assert t.calls[k := c][k := c.(pc := Releasing)] == s4.calls;
    assert Apply(s3, Cleanup(k)) == s4;
    assert s4.calls[k := c.(pc := Returned)] == s'.calls;
    assert Apply(s4, Release(k)) == s';
  }

  /** A waiting call sits under its number and holds a permit. */
  predicate Waits(s: State, k: nat) {
    At(s, k, Written)
    && var c := s.calls[k];
      && c.conn < |s.conns| && c.conn < |s.sem| && s.sem[c.conn] > 0
      && Slot(c.conn, c.id) in s.pend && s.pend[Slot(c.conn, c.id)] == k
  }

  lemma WrittenWaits(s: State, k: nat)
    requires Inv(s) && At(s, k, Written)
    ensures Waits(s, k)
  {
    assert CallOK(s, s.calls[k]) && k in Holders(s.calls, s.calls[k].conn);
  }

  /** The registry once call `k` has returned with `resp`. */
  function Answered(s: State, k: nat, slot: Slot, resp: Response): State
    requires k in s.calls && slot.conn < |s.sem| && s.sem[slot.conn] > 0
  {
    var c := s.calls[k].(pc := Returned, inbox := None, got := Some(resp), result := Some(ResultOf(resp)));
    Moved(WithResponse(s, slot, resp), k, c).(
      pend := s.pend - {slot}, sem := s.sem[slot.conn := s.sem[slot.conn] - 1])
  }

  lemma AnsweredAlong(go: Relation, s: State, k: nat, slot: Slot, resp: Response) returns (steps: seq<Step>)
    requires TakesSteps(go) && At(s, k, Written) && s.calls[k].inbox.None? && slot == Slot(s.calls[k].conn, s.calls[k].id)
    requires slot in s.pend && s.pend[slot] == k && slot.conn < |s.conns| && slot.conn < |s.sem| && s.sem[slot.conn] > 0
    ensures Leads(go, s, steps, Answered(s, k, slot, resp))
  {
    var c, t := s.calls[k], WithResponse(s, slot, resp);
    var done := c.(pc := Cleaning, inbox := None, got := Some(resp), result := Some(ResultOf(resp)));
    var s1, s2 := t.(sends := s.sends + multiset{Send(k, slot, resp)}), Moved(t, k, c.(inbox := Some(resp)));
    var s3, s4 := Moved(t, k, done), Moved(t, k, done.(pc := Releasing)).(pend := t.pend - {slot});
    var s' := Answered(s, k, slot, resp);
    ResponseComes(go, s, k, slot, resp, t, s1, s2);
    ResponseTaken(go, t, k, c, resp, s2, s3);
    CallLeaves(go, t, k, done, s3, s4, s');
    steps := FiveSteps(go, s, Deliver(slot, resp), s1, Hand(Send(k, slot, resp)), s2, Receive(k), s3, Cleanup(k), s4,
                       Release(k), s');
  }

  /** A waiting call returns the response delivered under its number, and leaves neither
      its entry nor its permit behind. */
  lemma CallIsAnswered(s: State, k: nat, data: string) returns (steps: seq<Step>, s': State)
    requires Waits(s, k) && s.calls[k].inbox.None?
    ensures Path(s, steps, s') && At(s', k, Returned) && s'.calls[k].result == Some(Ok(data))
    ensures var conn := s.calls[k].conn;
      && s'.pend == s.pend - {Slot(conn, s.calls[k].id)} && s'.sem == s.sem[conn := s.sem[conn] - 1]
      && s'.counter == s.counter && s'.conns == s.conns && s'.devices == s.devices && s'.sends == s.sends
  {
    var slot, resp := Slot(s.calls[k].conn, s.calls[k].id), Response(true, "", data);
    s' := Answered(s, k, slot, resp);
    steps := AnsweredPath(s, k, slot, resp, s');
  }

  lemma AnsweredPath(s: State, k: nat, slot: Slot, resp: Response, s': State) returns (steps: seq<Step>)
    requires Waits(s, k) && s.calls[k].inbox.None? && slot == Slot(s.calls[k].conn, s.calls[k].id)
    requires s' == Answered(s, k, slot, resp)
    ensures Path(s, steps, s')
  {
    GoesTakes();
    steps := AnsweredAlong(Goes, s, k, slot, resp);
    LeadsPath(s, steps, s');
  }

  lemma GoesTakes()
    ensures TakesSteps(Goes)
  {
  }

  // The states a call goes through until its request is out.

  lemma CallEnters(go: Relation, s: State, k: nat, c: Call, n: nat, s1: State, s2: State)
    requires TakesSteps(go) && c.pc == Looking && k in s.calls && s.calls[k] == c
    requires c.device in s.devices && s.devices[c.device] == n < |s.conns| && n < |s.sem|
    requires s.conns[n].account == c.account && s.sem[n] < s.max
    requires s1 == Moved(s, k, c.(pc := WantsPermit, conn := n))
    requires s2 == Moved(s, k, c.(pc := HasPermit, conn := n)).(sem := s.sem[n := s.sem[n] + 1])
    ensures go(s, LookUp(k), s1) && go(s1, Acquire(k), s2)
  {
    assert Apply(s, LookUp(k)) == s1;
    assert s1.calls[k := s2.calls[k]] == s2.calls;
    assert Apply(s1, Acquire(k)) == s2;
  }

  lemma CallRegisters(go: Relation, t: State, k: nat, c: Call, s2: State, s3: State, s4: State)
    requires TakesSteps(go) && c.pc == HasPermit && s2 == Moved(t, k, c)
    requires s3 == Moved(t, k, c.(pc := HasID, id := t.counter + 1)).(counter := t.counter + 1)
    requires s4 == Moved(t, k, c.(pc := Registered, id := t.counter + 1)).(
               counter := t.counter + 1, pend := t.pend[Slot(c.conn, t.counter + 1) := k])
    ensures go(s2, Allocate(k), s3) && go(s3, Register(k), s4)
  {
    assert s2.calls[k := s3.calls[k]] == s3.calls;
    assert Apply(s2, Allocate(k)) == s3;
    assert s3.calls[k := s4.calls[k]] == s4.calls;
    assert Apply(s3, Register(k)) == s4;
  }

  lemma CallWrites(go: Relation, s4: State, k: nat, s': State)
    requires TakesSteps(go) && At(s4, k, Registered) && s' == Moved(s4, k, s4.calls[k].(pc := Written))
    ensures go(s4, Write(k, true), s')
  {
    assert Apply(s4, Write(k, true)) == s';
  }

  /** The registry once call `k` has its request out on connection `n`. */
  function Sent(s: State, k: nat, n: nat): State
    requires k in s.calls && n < |s.sem|
  {
    Moved(s, k, s.calls[k].(pc := Written, conn := n, id := s.counter + 1)).(
      counter := s.counter + 1, pend := s.pend[Slot(n, s.counter + 1) := k], sem := s.sem[n := s.sem[n] + 1])
  }

  lemma SentAlong(go: Relation, s: State, k: nat, n: nat) returns (steps: seq<Step>)
    requires TakesSteps(go) && At(s, k, Looking) && s.calls[k].device in s.devices && s.devices[s.calls[k].device] == n
    requires n < |s.conns| && n < |s.sem| && s.conns[n].account == s.calls[k].account && s.sem[n] < s.max
    ensures Leads(go, s, steps, Sent(s, k, n))
  {
    var c := s.calls[k];
    var t, has := s.(sem := s.sem[n := s.sem[n] + 1]), c.(pc := HasPermit, conn := n);
    var s1, s2 := Moved(s, k, c.(pc := WantsPermit, conn := n)), Moved(t, k, has);
    var s3 := Moved(t, k, has.(pc := HasID, id := s.counter + 1)).(counter := s.counter + 1);
    var s4 := Moved(t, k, has.(pc := Registered, id := s.counter + 1)).(
      counter := s.counter + 1, pend := s.pend[Slot(n, s.counter + 1) := k]);
    var s' := Sent(s, k, n);
    CallEnters(go, s, k, c, n, s1, s2);
    CallRegisters(go, t, k, has, s2, s3, s4);
    assert s4.calls[k := s'.calls[k]] == s'.calls;
    CallWrites(go, s4, k, s');
    steps := FiveSteps(go, s, LookUp(k), s1, Acquire(k), s2, Allocate(k), s3, Register(k), s4, Write(k, true), s');
  }

  /** A call may go out: its device is listed for the caller's account and a permit of
      the connection is free. */
  predicate MayGo(s: State, k: nat) {
    At(s, k, Looking) && s.calls[k].device in s.devices
    && var n := s.devices[s.calls[k].device];
      n < |s.conns| && n < |s.sem| && s.conns[n].account == s.calls[k].account && s.sem[n] < s.max
  }

  /** Such a call gets its request out: it holds one permit, has the next number, and
      waits under it. */
  lemma CallIsSent(s: State, k: nat) returns (steps: seq<Step>, s': State)
    requires MayGo(s, k)
    ensures Path(s, steps, s')
    ensures var conn, c := s.devices[s.calls[k].device], s.calls[k];
      && s'.calls == s.calls[k := c.(pc := Written, conn := conn, id := s.counter + 1)]
      && s'.pend == s.pend[Slot(conn, s.counter + 1) := k] && s'.counter == s.counter + 1
      && s'.sem == s.sem[conn := s.sem[conn] + 1]
      && s'.conns == s.conns && s'.devices == s.devices && s'.sends == s.sends
  {
    var n := s.devices[s.calls[k].device];
    s' := Sent(s, k, n);
    steps := SentPath(s, k, n, s');
  }

  lemma SentPath(s: State, k: nat, n: nat, s': State) returns (steps: seq<Step>)
    requires MayGo(s, k) && s.devices[s.calls[k].device] == n && s' == Sent(s, k, n)
    ensures Path(s, steps, s')
  {
    GoesTakes();
    steps := SentAlong(Goes, s, k, n);
    LeadsPath(s, steps, s');
  }
}
