/**
 The host tunnel in place: registries that the accept loop and the forwarders share by reference,
 the count of active connections, and starting and stopping.
 */
module HostTunnels {
  import opened Common
  import opened HostRuns
  import opened SharedState

  /** Cloning a connected client copies the reference, not the map. */
  datatype ConnectedClient = ConnectedClient(local: LocalConnections)

  /** Removes the entry under the connection's virtual address; false if there is none. */
  method DisconnectLocalClientConnection(client: ConnectedClient, conn: LocalConnection) returns (found: bool)
    modifies client.local
    ensures found == (conn.virtualAddr in old(client.local.entries))
    ensures client.local.entries == old(client.local.entries) - {conn.virtualAddr}
  {
    found := conn.virtualAddr in client.local.entries;
    client.local.entries := client.local.entries - {conn.virtualAddr};
  }

  /** One run of the tunnel: the connected clients and the accept loop's task. */
  class HostRun {
    var clients: map<PeerId, ConnectedClient>
    var phase: LoopPhase
    var handle: Option<ConnectedClient>               // the clone given to the forwarders
    const stop: StopChannel
    ghost var owner: map<LocalConnections, PeerId>    // whose map each map is
    ghost var view: RunView

    /** No two peers share a map, and the view shows what the maps hold. */
    ghost predicate Shows()
      reads this, owner.Keys
    {
      && view.phase == phase && view.held.Keys == clients.Keys
      && forall p :: p in clients ==>
           clients[p].local in owner && owner[clients[p].local] == p && clients[p].local.entries == Entries(view.held[p])
    }

    /** One receiver stays with the accept loop for good; the others come and go. */
    ghost function Receivers(): nat
      reads this
    {
      match phase
      case Accepting => 1
      case Serving(_) => 2
      case Registered(_, _) => 2
      case Forwarding(_, _) => 4
    }

    ghost predicate Valid()
      reads this, owner.Keys, stop
    {
      && Shows() && Inv(view) && stop.receivers == Receivers()
      && (phase.Registered? || phase.Forwarding? ==> phase.peer in clients && handle == Some(clients[phase.peer]))
    }

    constructor ()
      ensures Valid() && fresh(stop) && view == EmptyRun && !stop.value && owner == map[]
    {
      clients, phase, handle := map[], Accepting, None;
      stop := new StopChannel();
      owner, view := map[], EmptyRun;
    }

    /** A known peer is ignored; a new one gets a map of its own and is served. */
    method Connect(peer: PeerId) returns (isNew: bool)
      requires Valid() && phase.Accepting?
      modifies this, stop
      ensures Valid() && view == Happens(old(view), Connects(peer)) && isNew == (peer !in old(clients))
      ensures clients.Keys == old(clients.Keys) + {peer} && forall p :: p in old(clients) ==> clients[p] == old(clients[p])
      ensures isNew ==> phase == Serving(peer) && fresh(clients[peer].local) && clients[peer].local.entries == map[]
      ensures !isNew ==> phase == old(phase) && clients == old(clients)
      ensures fresh(owner.Keys - old(owner.Keys))
    {
      isNew := peer !in clients;
      if isNew {
        ghost var before := view;
        HappensKeepsInv(before, Connects(peer));
        AddPeer(peer);
        phase := Serving(peer);
        stop.receivers := stop.receivers + 1;
        view := Happens(before, Connects(peer));
      }
    }

    /** Gives a new peer a map of its own; the maps of the others are as they were. */
    method AddPeer(peer: PeerId)
      requires peer !in clients && forall p :: p in clients ==> clients[p].local in owner && owner[clients[p].local] == p
      modifies this`clients, this`owner
      ensures clients.Keys == old(clients.Keys) + {peer} && forall p :: p in old(clients) ==> clients[p] == old(clients[p])
      ensures fresh(clients[peer].local) && clients[peer].local.entries == map[]
      ensures owner == old(owner)[clients[peer].local := peer]
    {
      var local := new LocalConnections();
      clients := clients[peer := ConnectedClient(local)];
      owner := owner[local := peer];
    }

    method Register(addr: Addr, id: nat)
      requires Valid() && phase.Serving?
      modifies this, owner.Keys
      ensures Valid() && view == Happens(old(view), Requests(addr, id)) && owner == old(owner)
      ensures handle.Some? && handle.value.local.entries ==
                              map[if addr.V4? then V4(0, 0) else V6(0, 0, 0, 0) := id]
    {
      HappensKeepsInv(view, Requests(addr, id));
      view := Happens(view, Requests(addr, id));
      var peer, key := phase.peer, Unspecified(addr);
      var client := clients[peer];
      client.local.entries := client.local.entries[key := id];
      handle := Some(client);
      phase := Registered(peer, LocalConnection(addr, key, id));
    }

    /** On failure the session loop returns an error and the entry stays. */
    method StartForwarding(ok: bool)
      requires Valid() && phase.Registered?
      modifies this, stop
      ensures Valid() && view == Happens(old(view), Starts(ok)) && owner == old(owner)
    {
      HappensKeepsInv(view, Starts(ok));
      view := Happens(view, Starts(ok));
      if ok {
        phase := Forwarding(phase.peer, phase.conn);
        stop.receivers := stop.receivers + 2;
      } else {
        phase := Accepting;
        stop.receivers := stop.receivers - 1;
      }
    }

    /** Through the clone, the entry goes from the one map that holds it. */
    method RemoveEntry() returns (found: bool)
      requires Shows() && phase.Forwarding? && phase.peer in clients
      requires handle == Some(clients[phase.peer]) && view.held[phase.peer] == Some(phase.conn)
      modifies owner.Keys
      ensures found && clients[phase.peer].local.entries == Entries(None)
      ensures forall p :: p in clients && p != phase.peer ==> clients[p].local.entries == old(clients[p].local.entries)
    {
      EntryRemoved(phase.conn);
      found := DisconnectLocalClientConnection(handle.value, phase.conn);
    }

    /** The forwarders deregister through their clone of the client, and find their own entry. */
    method Deregister() returns (found: bool)
      requires Valid() && phase.Forwarding?
      modifies this, owner.Keys, stop
      ensures Valid() && found && view == Happens(old(view), Ends) && owner == old(owner)
    {
      HappensKeepsInv(view, Ends);
      found := RemoveEntry();
      view := Happens(view, Ends);
      phase := Serving(phase.peer);
      stop.receivers := stop.receivers - 2;
    }

    method Break()
      requires Valid() && phase.Serving?
      modifies this, stop
      ensures Valid() && view == Happens(old(view), Breaks) && owner == old(owner)
    {
      HappensKeepsInv(view, Breaks);
      view := Happens(view, Breaks);
      phase := Accepting;
      stop.receivers := stop.receivers - 1;
    }

    /** The sum of the map sizes: one for each peer whose map holds an entry. */
    method NumActiveConnections() returns (n: nat)
      requires Shows()
      ensures n == |Occupied(view.held)|
    {
      n := 0;
      var todo := clients.Keys;
      ghost var counted := {};
      while todo != {}
        invariant todo <= clients.Keys && n == |counted|
        invariant forall p :: p in counted <==> p in view.held && view.held[p].Some? && p !in todo
        decreases |todo|
      {
        var p :| p in todo;
        EntriesSize(view.held[p]);
        n := n + |clients[p].local.entries|;
        todo := todo - {p};
        if view.held[p].Some? {
          counted := counted + {p};
        }
      }
      assert forall p :: p in counted <==> p in Occupied(view.held);
      assert counted == Occupied(view.held);
    }

    /** One turn of the accept loop's task. */
    method Step(e: LoopEvent)
      requires Valid() && Possible(view, e)
      modifies this, stop, owner.Keys
      ensures Valid() && view == Happens(old(view), e) && fresh(owner.Keys - old(owner.Keys))
    {
      match e
      case Connects(peer) => var isNew := Connect(peer);
      case Requests(addr, id) => Register(addr, id);
      case Starts(ok) => StartForwarding(ok);
      case Ends => var found := Deregister();
      case Breaks => Break();
    }
  }

  /** A whole run, observed at its end: the count is the sessions registered minus deregistered. */
  method ServeAndCount(es: seq<LoopEvent>) returns (n: nat)
    requires ValidLoop(EmptyRun, es)
    ensures n == CountRequests(es) - CountEnds(es)
  {
    var run := new HostRun();
    var i := 0;
    while i < |es|
      invariant 0 <= i <= |es| && run.Valid() && fresh(run) && fresh(run.stop) && fresh(run.owner.Keys)
      invariant ValidLoop(run.view, es[i..]) && LoopAfter(run.view, es[i..]) == LoopAfter(EmptyRun, es)
    {
      assert es[i..][0] == es[i] && es[i..][1..] == es[i + 1..];
      run.Step(es[i]);
      i := i + 1;
    }
    n := run.NumActiveConnections();
    ActiveCountIsConserved(es);
  }

  // ---- starting and stopping --------------------------------------------------------------

  datatype StartOutcome = Started | AlreadyOpen | BindFailed

  datatype StopOutcome = AlreadyStopped | Stopped | Panicked

  class HostTunnel {
    var isOpen: bool
    var props: HostRun?

    ghost function Parts(): set<object>
      reads this, props
    {
      if props == null then {} else {props, props.stop} + props.owner.Keys
    }

    /** The tunnel says it is running exactly if it has a run. */
    ghost predicate Valid()
      reads this, props, Parts()
    {
      isOpen == (props != null) && (props != null ==> props.Valid())
    }

    constructor ()
      ensures Valid() && !isOpen
    {
      isOpen, props := false, null;
    }

    method Start(bindOk: bool) returns (r: StartOutcome)
      requires Valid()
      modifies this
      ensures Valid()
      ensures r == if old(isOpen) then AlreadyOpen else if bindOk then Started else BindFailed
      ensures r == Started ==> isOpen && fresh(props) && fresh(props.stop) && props.owner == map[] && props.view == EmptyRun
      ensures r != Started ==> isOpen == old(isOpen) && props == old(props)
    {
      if isOpen {
        return AlreadyOpen;
      }
      if !bindOk {
        return BindFailed;
      }
      props := new HostRun();
      isOpen := true;
      return Started;
    }

    /** The accept loop never gives up its receiver, so sending the stop never fails. */
    method Stop() returns (r: StopOutcome)
      requires Valid()
      modifies this, Parts()
      ensures Valid() && !isOpen
      ensures r == if old(isOpen) then Stopped else AlreadyStopped
      ensures old(props) != null ==> old(props).Valid() && old(props).stop.value && old(props).view == old(props.view)
    {
      if !isOpen {
        return AlreadyStopped;
      }
      var sent := props.stop.Send();
      if !sent {
        return Panicked;
      }
      props := null;
      isOpen := false;
      return Stopped;
    }

    /** One call or one turn of the accept loop; what the tunnel then is follows from the events. */
    method Live(ghost before: seq<HostEvent>, e: HostEvent) returns (panicked: bool)
      requires Valid() && Follows(before) && ValidLife(before + [e])
      modifies this, Parts()
      ensures Valid() && Follows(before + [e]) && !panicked && fresh(Parts() - old(Parts()))
    {
      assert (before + [e])[..|before|] == before;
      panicked := false;
      match e
      case StartCalled(bindOk) => var r := Start(bindOk);
      case StopCalled =>
        var r := Stop();
        panicked := r == Panicked;
      case Task(x) =>
        LoopAppend(EmptyRun, CurrentRun(before).value, x);
        props.Step(x);
    }

    /** Running exactly if the last effective call was a start, and then with the run made since. */
    ghost predicate Follows(es: seq<HostEvent>)
      reads this, props
    {
      var run := CurrentRun(es);
      && isOpen == (props != null) == run.Some?
      && (props != null ==> ValidLoop(EmptyRun, run.value) && props.view == LoopAfter(EmptyRun, run.value))
    }

    method NumActiveConnections() returns (n: nat)
      requires Valid()
      ensures n == if isOpen then |Occupied(props.view.held)| else 0
    {
      n := 0;
      if props != null {
        n := props.NumActiveConnections();
      }
    }

    method NumClients() returns (n: nat)
      requires Valid()
      ensures n == if isOpen then |props.view.calls| else 0
    {
      n := 0;
      if props != null {
        n := |props.clients|;
        assert props.clients.Keys == props.view.calls.Keys;
      }
    }
  }

  /** A new tunnel after any calls of start and stop, mixed with the accept loop's turns. */
  method LiveThrough(es: seq<HostEvent>) returns (tunnel: HostTunnel, panicked: bool)
    requires ValidLife(es)
    ensures fresh(tunnel) && tunnel.Valid() && tunnel.Follows(es) && !panicked
  {
    tunnel := new HostTunnel();
    panicked := false;
    var i := 0;
    while i < |es|
      invariant 0 <= i <= |es| && !panicked
      invariant tunnel.Valid() && tunnel.Follows(es[..i]) && fresh(tunnel) && fresh(tunnel.Parts())
    {
      ValidPrefix(es, i + 1);
      assert es[..i] + [es[i]] == es[..i + 1];
      panicked := tunnel.Live(es[..i], es[i]);
      i := i + 1;
    }
    assert es[..|es|] == es;
  }

  /**
   Any calls of start and stop, also failed ones, mixed with the accept loop's turns: no stop finds the
   channel without receiver, the tunnel says it is running exactly if it is, and the counts are those
   of the current run, or zero.
   */
  method LiveAndObserve(es: seq<HostEvent>) returns (panicked: bool, running: bool, connections: nat, clients: nat)
    requires ValidLife(es)
    ensures !panicked && running == CurrentRun(es).Some?
    ensures connections == if running then CountRequests(CurrentRun(es).value) - CountEnds(CurrentRun(es).value) else 0
    ensures running ==> ValidLoop(EmptyRun, CurrentRun(es).value)
    ensures clients == if running then |Peers(CurrentRun(es).value)| else 0
  {
    var tunnel;
    tunnel, panicked := LiveThrough(es);
    running := tunnel.isOpen;
    connections := tunnel.NumActiveConnections();
    clients := tunnel.NumClients();
    if running {
      ActiveCountIsConserved(CurrentRun(es).value);
      PeersAreServedOnce(CurrentRun(es).value);
      CountKeys(LoopAfter(EmptyRun, CurrentRun(es).value).calls);
    }
  }
}
