/** The registry's objects (internal/manager/registry.go): connections with their
    waiting calls, and the table of devices. Each operation is tied to the steps of
    `Registry` it stands for, so what is proved there of every interleaving speaks
    about these objects. */
module Connections {
  import opened Wire
  import Registry

  /** A response channel with room for one response. */
  class Channel {
    var held: Option<Registry.Response>

    constructor ()
      ensures held == None
    {
      held := None;
    }

    /** A send that does not block: a full channel drops the response. */
    method TrySend(resp: Registry.Response)
      modifies this
      ensures held == Registry.Kept(old(held), resp)
      ensures held == if old(held).None? then Some(resp) else old(held)
    {
      if held.None? {
        held := Some(resp);
      }
    }
  }

  class AgentConn {
    const device: string
    const account: string
    var pend: map<nat, Channel>

    constructor (device: string, account: string)
      ensures this.device == device && this.account == account && pend == map[]
    {
      this.device := device;
      this.account := account;
      pend := map[];
    }

    /** What the channels of the waiting calls hold. */
    ghost function Held(): (h: Inboxes)
      reads this, pend.Values
    {
      map id | id in pend :: pend[id].held
    }

    /** Every waiting call has a channel of its own. */
    ghost predicate OwnChannels()
      reads this
    {
      forall i, j :: i in pend && j in pend && i != j ==> pend[i] != pend[j]
    }

    /** Gives the response to the call registered under `id`, and to no other. */
    method Deliver(id: nat, resp: Registry.Response)
      requires OwnChannels()
      modifies if id in pend then {pend[id]} else {}
      ensures Held() == Delivered(old(Held()), id, resp)
      ensures forall other :: other in pend && other != id ==> pend[other].held == old(pend[other].held)
      ensures id in pend ==> pend[id].held == if old(pend[id].held).None? then Some(resp) else old(pend[id].held)
    {
      if id in pend {
        pend[id].TrySend(resp);
      }
    }

    /** Every waiting call that has no response yet gets the failure; a response that
        was there first stays. */
    method FailPending(message: string)
      modifies pend.Values
      ensures Held() == Failed(old(Held()), Told(message))
      ensures forall id :: id in pend && old(pend[id].held).Some? ==> pend[id].held == old(pend[id].held)
      ensures var text := if message == "" then "agent disconnected" else message;
        forall id :: id in pend && old(pend[id].held).None? ==> pend[id].held == Some(Registry.Response(false, text, ""))
    {
      var resp := Registry.FailureOf(Told(message));
      var waiters := pend.Values;
      while waiters != {}
        invariant waiters <= pend.Values
        invariant forall ch :: ch in pend.Values - waiters ==> ch.held == Registry.Kept(old(ch.held), resp)
        invariant forall ch :: ch in waiters ==> ch.held == old(ch.held)
        decreases |waiters|
      {
        var ch :| ch in waiters;
        ch.TrySend(resp);
        waiters := waiters - {ch};
      }
      assert forall id :: id in pend ==> pend[id] in pend.Values;
    }
  }

  function Told(message: string): string {
    if message == "" then Registry.DISCONNECTED else message
  }

  type Inboxes = map<nat, Option<Registry.Response>>

  function Delivered(h: Inboxes, id: nat, resp: Registry.Response): Inboxes {
    if id in h then h[id := Registry.Kept(h[id], resp)] else h
  }

  function Failed(h: Inboxes, message: string): Inboxes {
    map id | id in h :: Registry.Kept(h[id], Registry.FailureOf(message))
  }

  // ------------------------------------------------------- the steps they stand for

  /** `h` are the inboxes of the calls waiting on connection `n` of `s`. */
  ghost predicate Shows(h: Inboxes, n: nat, s: Registry.State) {
    && (forall id: nat :: id in h <==> Registry.Slot(n, id) in s.pend)
    && (forall id: nat :: id in h ==> h[id] == Registry.InboxOf(s, Registry.Slot(n, id)))
  }

  /** The waiting calls of all connections but `n` hold what they held. */
  ghost predicate OthersKept(s: Registry.State, s': Registry.State, n: int) {
    forall m: nat, h: Inboxes {:trigger Shows(h, m, s)} :: m != n && Shows(h, m, s) && m < |s.conns| ==> Shows(h, m, s')
  }

  /** Deliver is a delivery step and the send it leads to. */
  lemma DeliverIsSteps(h: Inboxes, n: nat, s: Registry.State, id: nat, resp: Registry.Response)
    returns (steps: seq<Registry.Step>, s': Registry.State)
    requires Registry.Inv(s) && n < |s.conns| && Shows(h, n, s)
    ensures Registry.Path(s, [Registry.Deliver(Registry.Slot(n, id), resp)] + steps, s')
    ensures Shows(Delivered(h, id, resp), n, s') && OthersKept(s, s', n)
  {
    steps, s' := Registry.DeliverPath(s, Registry.Slot(n, id), resp);
    OthersShown(s, s', n);
  }

  /** FailPending is a failure step and a send for every call that waits then. */
  lemma FailIsSteps(h: Inboxes, n: nat, s: Registry.State, message: string)
    returns (steps: seq<Registry.Step>, s': Registry.State)
    requires Registry.Inv(s) && Shows(h, n, s) && Registry.Failure(n, message) in s.todo
    ensures Registry.Path(s, [Registry.FailPending(Registry.Failure(n, message))] + steps, s')
    ensures Shows(Failed(h, message), n, s') && OthersKept(s, s', n)
  {
    steps, s' := Registry.FailPath(s, Registry.Failure(n, message));
    OthersShown(s, s', n);
  }

  /** The device map lists the connections `s` lists, where `conns` are the objects of
      its connections in the order they came. */
  ghost predicate Lists(devices: map<string, AgentConn>, conns: seq<AgentConn>, s: Registry.State) {
    && |conns| == |s.conns|
    && (forall i, j :: 0 <= i < j < |conns| ==> conns[i] != conns[j])
    && (forall i :: 0 <= i < |conns| ==> s.conns[i] == Registry.Conn(conns[i].device, conns[i].account))
    && (forall id :: id in devices <==> id in s.devices)
    && (forall id :: id in devices ==> s.devices[id] < |conns| && devices[id] == conns[s.devices[id]])
  }

  lemma PutLists(devices: map<string, AgentConn>, conns: seq<AgentConn>, s: Registry.State, conn: AgentConn, s': Registry.State)
    requires Lists(devices, conns, s) && conn !in conns
    requires s'.conns == s.conns + [Registry.Conn(conn.device, conn.account)]
    requires s'.devices == s.devices[conn.device := |s.conns|]
    ensures Lists(devices[conn.device := conn], conns + [conn], s')
  {
  }

  /** Put is a registration step, and the failure of the connection it replaces. `h` are
      the inboxes of the replaced connection's calls. */
  lemma PutIsSteps(devices: map<string, AgentConn>, conns: seq<AgentConn>, s: Registry.State, conn: AgentConn, h: Inboxes)
    returns (steps: seq<Registry.Step>, s': Registry.State)
    requires Registry.Inv(s) && Lists(devices, conns, s) && conn !in conns
    requires conn.device in devices ==> Shows(h, s.devices[conn.device], s)
    ensures Registry.Path(s, [Registry.Put(conn.device, conn.account)] + steps, s')
    ensures Lists(devices[conn.device := conn], conns + [conn], s') && Shows(map[], |conns|, s')
    ensures conn.device in devices ==> Shows(Failed(h, Registry.REPLACED), s.devices[conn.device], s')
    ensures OthersKept(s, s', if conn.device in devices then s.devices[conn.device] else -1)
  {
    if conn.device in devices {
      steps, s' := PutReplaces(devices, conns, s, conn, h);
    } else {
      steps, s' := PutFirst(devices, conns, s, conn);
    }
    PutLists(devices, conns, s, conn, s');
    Registry.NoSlotsYet(s);
  }

  lemma OthersShown(s: Registry.State, s': Registry.State, n: int)
    requires s'.pend == s.pend
    requires forall slot :: slot in s.pend && slot.conn != n ==> Registry.InboxOf(s', slot) == Registry.InboxOf(s, slot)
    ensures OthersKept(s, s', n)
  {
  }

  lemma PutReplaces(devices: map<string, AgentConn>, conns: seq<AgentConn>, s: Registry.State, conn: AgentConn, h: Inboxes)
    returns (steps: seq<Registry.Step>, s': Registry.State)
    requires Registry.Inv(s) && Lists(devices, conns, s) && conn.device in devices
    requires Shows(h, s.devices[conn.device], s)
    ensures Registry.Path(s, [Registry.Put(conn.device, conn.account)] + steps, s')
    ensures s'.conns == s.conns + [Registry.Conn(conn.device, conn.account)] && s'.pend == s.pend
    ensures s'.devices == s.devices[conn.device := |s.conns|]
    ensures Shows(Failed(h, Registry.REPLACED), s.devices[conn.device], s')
    ensures OthersKept(s, s', s.devices[conn.device])
  {
    var n := s.devices[conn.device];
    steps, s' := Registry.OwedPath(s, Registry.Put(conn.device, conn.account), Registry.Failure(n, Registry.REPLACED));
    OthersShown(s, s', n);
  }

  lemma PutFirst(devices: map<string, AgentConn>, conns: seq<AgentConn>, s: Registry.State, conn: AgentConn)
    returns (steps: seq<Registry.Step>, s': Registry.State)
    requires Registry.Inv(s) && Lists(devices, conns, s) && conn.device !in devices
    ensures Registry.Path(s, [Registry.Put(conn.device, conn.account)] + steps, s')
    ensures s'.conns == s.conns + [Registry.Conn(conn.device, conn.account)] && s'.pend == s.pend
    ensures s'.devices == s.devices[conn.device := |s.conns|]
    ensures OthersKept(s, s', -1)
  {
    steps, s' := [], Registry.Apply(s, Registry.Put(conn.device, conn.account));
    Registry.PathFirst(s, Registry.Put(conn.device, conn.account), [], s');
    OthersShown(s, s', -1);
  }

  /** Remove is a removal step and the failure of the connection removed. */
  lemma RemoveIsSteps(devices: map<string, AgentConn>, conns: seq<AgentConn>, s: Registry.State, device: string, c: nat, h: Inboxes)
    returns (steps: seq<Registry.Step>, s': Registry.State)
    requires Registry.Inv(s) && Lists(devices, conns, s) && c < |conns| && Shows(h, c, s)
    ensures Registry.Path(s, [Registry.Remove(device, c)] + steps, s')
    ensures Lists(WithoutConn(devices, device, conns[c]), conns, s') && Shows(Failed(h, Registry.DISCONNECTED), c, s')
    ensures OthersKept(s, s', c)
  {
    steps, s' := Registry.OwedPath(s, Registry.Remove(device, c), Registry.Failure(c, Registry.DISCONNECTED));
    OthersShown(s, s', c);
  }

  /** Disconnect is the step of that name and the failure it owes. */
  lemma DisconnectIsSteps(devices: map<string, AgentConn>, conns: seq<AgentConn>, s: Registry.State, device: string, h: Inboxes)
    returns (steps: seq<Registry.Step>, s': Registry.State)
    requires Registry.Inv(s) && Lists(devices, conns, s) && device in devices && Shows(h, s.devices[device], s)
    ensures Registry.Path(s, [Registry.Disconnect(device)] + steps, s')
    ensures Lists(devices, conns, s') && Shows(Failed(h, Registry.DISCONNECTED), s.devices[device], s')
    ensures OthersKept(s, s', s.devices[device])
  {
    steps, s' := Registry.OwedPath(s, Registry.Disconnect(device),
      Registry.Failure(s.devices[device], Registry.DISCONNECTED));
    OthersShown(s, s', s.devices[device]);
  }

  function WithoutConn(devices: map<string, AgentConn>, device: string, conn: AgentConn): map<string, AgentConn> {
    if device in devices && devices[device] == conn then devices - {device} else devices
  }

  class DeviceTable {
    var devices: map<string, AgentConn>

    /** The channels of the calls waiting on a device's connection. */
    function Waiting(device: string): set<Channel>
      reads this, devices.Values
    {
      if device in devices then devices[device].pend.Values else {}
    }

    /** Registers a new connection for a device. The one it replaces, if any, is out of
        the table before its waiters are told. */
    method Put(device: string, account: string) returns (conn: AgentConn)
      modifies this, Waiting(device)
      ensures fresh(conn) && conn.device == device && conn.account == account && conn.pend == map[]
      ensures devices == old(devices)[device := conn]
      ensures device in old(devices) ==>
        old(devices[device]).Held() == Failed(old(devices[device].Held()), Registry.REPLACED)
    {
      conn := new AgentConn(device, account);
      if device in devices {
        var replaced := devices[device];
        devices := devices[device := conn];
        replaced.FailPending(Registry.REPLACED);
      } else {
        devices := devices[device := conn];
      }
    }

    /** Takes a connection out of the table only if it is the one listed, and fails its
        own waiters either way: a successor keeps its place and its calls. */
    method Remove(device: string, target: AgentConn)
      modifies this, target.pend.Values
      ensures devices == WithoutConn(old(devices), device, target)
      ensures forall id :: id in devices <==> id in old(devices) && !(id == device && old(devices)[id] == target)
      ensures forall id :: id in devices ==> devices[id] == old(devices)[id]
      ensures target.Held() == Failed(old(target.Held()), Registry.DISCONNECTED)
    {
      if device in devices && devices[device] == target {
        devices := devices - {device};
      }
      target.FailPending(Registry.DISCONNECTED);
    }

    /** Fails the waiters of the listed connection, which stays listed until removed. */
    method Disconnect(device: string) returns (found: bool)
      modifies Waiting(device)
      ensures found == (device in devices)
      ensures found ==> devices[device].Held() == Failed(old(devices[device].Held()), Registry.DISCONNECTED)
    {
      found := device in devices;
      if found {
        devices[device].FailPending(Registry.DISCONNECTED);
      }
    }
  }

  /** A device reconnects while its earlier connection is still listed, a call starts on
      the new one, and then the earlier connection's handler removes it: the successor
      stays listed, its call goes on waiting, and every call of the earlier connection
      has its answer, the replacement if it had none. */
  method LateRemove(table: DeviceTable, device: string, account: string, id: nat)
    returns (next: AgentConn, waiting: Channel)
    requires device in table.devices
    modifies table, table.devices[device].pend.Values
    ensures table.devices == old(table.devices)[device := next] && next != old(table.devices[device])
    ensures next.pend == map[id := waiting] && waiting.held == None
    ensures old(table.devices[device]).Held() == Failed(old(table.devices[device].Held()), Registry.REPLACED)
  {
    var earlier := table.devices[device];
    next := table.Put(device, account);
    ghost var told := earlier.Held();
    waiting := new Channel();
    next.pend := next.pend[id := waiting];
    table.Remove(device, earlier);
    assert earlier.Held() == told;
  }
}
