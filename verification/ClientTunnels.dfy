/** The client tunnel in place: its map of local connections, connecting and disconnecting. */
module ClientTunnels {
  import opened Common
  import opened SharedState

  datatype ListenerPhase =
    | Listening
    | Forwarding(addr: Addr, id: nat)
    | Exited

  datatype ListenerEvent =
    | Begins(addr: Addr, id: nat)    // a session is registered and its forwarders start
    | Ends                           // both forwarding loops ended
    | Exits                          // the listener saw the stop, could not bind, or could not open a session

  predicate ListenerCan(phase: ListenerPhase, e: ListenerEvent) {
    match e
    case Begins(_, _) => phase.Listening?
    case Ends => phase.Forwarding?
    case Exits => phase.Listening?
  }

  function ListenerNext(phase: ListenerPhase, e: ListenerEvent): ListenerPhase
    requires ListenerCan(phase, e)
  {
    match e
    case Begins(addr, id) => Forwarding(addr, id)
    case Ends => Listening
    case Exits => Exited
  }

  /** The map of local connections, by where the listener is. */
  function Entries(phase: ListenerPhase): map<Addr, nat> {
    if phase.Forwarding? then map[phase.addr := phase.id] else map[]
  }

  datatype ClientEvent =
    | ConnectCalled(bindOk: bool, connectOk: bool)
    | DisconnectCalled
    | Task(event: ListenerEvent)

  datatype Life = Idle | Running(phase: ListenerPhase) | Aborted

  /** A panic ends the run; the listener acts only while there is one. */
  predicate LifeCan(life: Life, e: ClientEvent) {
    !life.Aborted? && (e.Task? ==> life.Running? && ListenerCan(life.phase, e.event))
  }

  function LifeNext(life: Life, e: ClientEvent): Life
    requires LifeCan(life, e)
  {
    match e
    case ConnectCalled(bindOk, connectOk) => if life == Idle && bindOk && connectOk then Running(Listening) else life
    case DisconnectCalled => if life == Running(Exited) then Aborted else Idle
    case Task(x) => Running(ListenerNext(life.phase, x))
  }

  predicate ValidLife(life: Life, es: seq<ClientEvent>)
    decreases |es|
  {
    es == [] || (LifeCan(life, es[0]) && ValidLife(LifeNext(life, es[0]), es[1..]))
  }

  function LifeAfter(life: Life, es: seq<ClientEvent>): Life
    requires ValidLife(life, es)
    decreases |es|
  {
    if es == [] then life else LifeAfter(LifeNext(life, es[0]), es[1..])
  }

  /** Removes the entry of a local connection; false if there is none. */
  method DisconnectLocalConnection(local: LocalConnections, addr: Addr) returns (found: bool)
    modifies local
    ensures found == (addr in old(local.entries)) && local.entries == old(local.entries) - {addr}
  {
    found := addr in local.entries;
    local.entries := local.entries - {addr};
  }

  /** One connection to the host: the listener's task and what it shares with the tunnel. */
  class ClientRun {
    const local: LocalConnections
    const stop: StopChannel
    var phase: ListenerPhase

    /** The map holds the session being served; the listener keeps a receiver until it exits. */
    ghost predicate Valid()
      reads this, local, stop
    {
      && local.entries == Entries(phase)
      && stop.receivers == match phase case Listening => 1 case Forwarding(_, _) => 3 case Exited => 0
    }

    constructor ()
      ensures Valid() && phase == Listening && fresh(local) && fresh(stop) && !stop.value
    {
      local := new LocalConnections();
      stop := new StopChannel();
      phase := Listening;
    }

    method BeginSession(addr: Addr, id: nat)
      requires Valid() && phase.Listening?
      modifies this, local, stop
      ensures Valid() && phase == Forwarding(addr, id) && stop.value == old(stop.value)
    {
      local.entries := local.entries[addr := id];
      stop.receivers := stop.receivers + 2;
      phase := Forwarding(addr, id);
    }

    method EndSession() returns (found: bool)
      requires Valid() && phase.Forwarding?
      modifies this, local, stop
      ensures Valid() && found && phase == Listening && stop.value == old(stop.value)
    {
      found := DisconnectLocalConnection(local, phase.addr);
      stop.receivers := stop.receivers - 2;
      phase := Listening;
    }

    /** The listener saw the stop, could not bind, or could not open a stream or send the request. */
    method Exit()
      requires Valid() && phase.Listening?
      modifies this, stop
      ensures Valid() && phase == Exited && stop.value == old(stop.value)
    {
      stop.receivers := 0;
      phase := Exited;
    }

    method Step(e: ListenerEvent)
      requires Valid() && ListenerCan(phase, e)
      modifies this, local, stop
      ensures Valid() && phase == ListenerNext(old(phase), e)
    {
      match e
      case Begins(addr, id) => BeginSession(addr, id);
      case Ends => var found := EndSession();
      case Exits => Exit();
    }
  }

  datatype ConnectOutcome = Connected | AlreadyConnected | BindFailed | ConnectFailed

  datatype DisconnectOutcome = NotConnected | Disconnected | Panicked

  class ClientTunnel {
    var isConnected: bool
    var props: ClientRun?

    ghost function Parts(): set<object>
      reads this, props
    {
      if props == null then {} else {props, props.local, props.stop}
    }

    /** The tunnel says it is connected exactly if it has a run. */
    ghost predicate Valid()
      reads this, props, Parts()
    {
      isConnected == (props != null) && (props != null ==> props.Valid())
    }

    constructor ()
      ensures Valid() && !isConnected
    {
      isConnected, props := false, null;
    }

    method Connect(bindOk: bool, connectOk: bool) returns (r: ConnectOutcome)
      requires Valid()
      modifies this
      ensures Valid()
      ensures r == if old(isConnected) then AlreadyConnected else if !bindOk then BindFailed
                   else if !connectOk then ConnectFailed else Connected
      ensures r == Connected ==> isConnected && fresh(props) && fresh(props.stop) && fresh(props.local) && props.phase == Listening
      ensures r != Connected ==> isConnected == old(isConnected) && props == old(props)
    {
      if isConnected {
        return AlreadyConnected;
      }
      if !bindOk {
        return BindFailed;
      }
      if !connectOk {
        return ConnectFailed;
      }
      props := new ClientRun();
      isConnected := true;
      return Connected;
    }

    /**
     Sending the stop panics exactly if the listener has already exited: nobody holds a receiver
     then, while the tunnel still says it is connected.
     */
    method Disconnect() returns (r: DisconnectOutcome)
      requires Valid()
      modifies this, Parts()
      ensures r == Panicked <==> old(isConnected && props.phase.Exited?)
      ensures r == NotConnected <==> !old(isConnected)
      ensures r != Panicked ==> Valid() && !isConnected
      ensures r == Disconnected ==> old(props).Valid() && old(props).stop.value
    {
      if !isConnected {
        return NotConnected;
      }
      var run := props;
      props := null;
      var sent := run.stop.Send();
      if !sent {
        return Panicked;
      }
      isConnected := false;
      return Disconnected;
    }

    /** One call or one turn of the listener, unless the program has aborted. */
    method Live(ghost life: Life, e: ClientEvent) returns (panicked: bool)
      requires Valid() && Follows(life) && LifeCan(life, e)
      modifies this, Parts()
      ensures panicked <==> LifeNext(life, e).Aborted?
      ensures !panicked ==> Valid() && Follows(LifeNext(life, e)) && fresh(Parts() - old(Parts()))
    {
      panicked := false;
      match e
      case ConnectCalled(bindOk, connectOk) => var r := Connect(bindOk, connectOk);
      case DisconnectCalled =>
        var r := Disconnect();
        panicked := r == Panicked;
      case Task(x) => props.Step(x);
    }

    ghost predicate Follows(life: Life)
      reads this, props
    {
      && !life.Aborted? && isConnected == (props != null) == life.Running?
      && (props != null ==> props.phase == life.phase)
    }

    method NumActiveConnections() returns (n: nat)
      requires Valid()
      ensures n == if isConnected && props.phase.Forwarding? then 1 else 0
    {
      n := 0;
      if props != null {
        n := |props.local.entries|;
      }
    }
  }

  /** A listener that cannot bind its address exits at once; disconnecting the tunnel then panics. */
  method DisconnectAfterListenerFailed() returns (r: DisconnectOutcome)
    ensures r == Panicked
  {
    var tunnel := new ClientTunnel();
    var connected := tunnel.Connect(true, true);
    tunnel.props.Exit();
    r := tunnel.Disconnect();
  }

  /**
   Any calls of connect and disconnect, also failed ones, mixed with the listener's turns: the tunnel
   says it is connected exactly if it is, counts the one session being served, and panics exactly if
   it is disconnected after its listener has exited.
   */
  method LiveAndObserve(es: seq<ClientEvent>) returns (panicked: bool, running: bool, connections: nat)
    requires ValidLife(Idle, es)
    ensures panicked <==> LifeAfter(Idle, es).Aborted?
    ensures !panicked ==> running == LifeAfter(Idle, es).Running?
    ensures !panicked ==> connections == if running && LifeAfter(Idle, es).phase.Forwarding? then 1 else 0
  {
    var tunnel := new ClientTunnel();
    ghost var life := Idle;
    panicked, running, connections := false, false, 0;
    var i := 0;
    while i < |es| && !panicked
      invariant 0 <= i <= |es| && ValidLife(life, es[i..]) && LifeAfter(life, es[i..]) == LifeAfter(Idle, es)
      invariant panicked <==> life.Aborted?
      invariant !panicked ==> tunnel.Valid() && tunnel.Follows(life) && fresh(tunnel) && fresh(tunnel.Parts())
    {
      assert es[i..][0] == es[i] && es[i..][1..] == es[i + 1..];
      panicked := tunnel.Live(life, es[i]);
      life := LifeNext(life, es[i]);
      i := i + 1;
    }
    if !panicked {
      running := tunnel.isConnected;
      connections := tunnel.NumActiveConnections();
    }
  }

  /** Exactly when the program panics: the last call was a disconnect, and the listener had exited. */
  lemma {:induction false} AbortsIff(life: Life, es: seq<ClientEvent>)
    requires !life.Aborted? && ValidLife(life, es)
    ensures LifeAfter(life, es).Aborted? <==>
            es != [] && es[|es| - 1] == DisconnectCalled && ValidLife(life, es[..|es| - 1])
            && LifeAfter(life, es[..|es| - 1]) == Running(Exited)
    decreases |es|
  {
    if |es| == 1 {
      assert es[1..] == [] && es[..0] == [];
    } else if |es| > 1 {
      AbortsIff(LifeNext(life, es[0]), es[1..]);
      assert es[1..][..|es| - 2] == es[..|es| - 1][1..];
    }
  }
}
