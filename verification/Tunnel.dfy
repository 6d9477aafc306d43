/**
 One client tunnel connected to one host tunnel.

 The client's listener opens, per local connection, a bidirectional stream and then sends the
 connection's address on a unidirectional one; the host's session loop accepts a bidirectional
 stream and then receives one packet. A packet does not name its stream: the two are paired by
 position only. The transport numbers the bidirectional streams, hands out streams of one kind in
 the order they were opened, and carries the bytes of each stream, in order, to whichever session
 of the other side holds the stream of that number.
 */
module Tunnel {
  import opened Common
  import opened Forwarder

  /** How a connection request travels: the packet codec, seen as a pair of functions. */
  datatype Codec = Codec(encode: Addr -> seq<Byte>, decode: seq<Byte> -> Option<Addr>)

  ghost predicate Lawful(codec: Codec) {
    forall a :: codec.decode(codec.encode(a)) == Some(a)
  }

  /**
   One session as one side sees it: the connection's address, the number of the bidirectional stream
   the side got for it, and its forwarders, which start after the session is registered.
   */
  datatype Session = Session(addr: Addr, stream: nat, pair: Option<Pair>)

  /** A unidirectional stream carrying one packet. */
  datatype Packet = Packet(bytes: seq<Byte>, finished: bool)

  datatype ClientPhase =
    | Listening                 // in the listener's select
    | Checked                   // this poll found the stop branch not ready
    | Picked(addr: Addr)        // a local connection to serve
    | Opened(addr: Addr)        // bidirectional stream opened
    | Sending(addr: Addr)       // packet stream opened
    | Written(addr: Addr)       // packet written
    | Sent(addr: Addr)          // packet stream finished
    | Registered(addr: Addr)    // entry inserted
    | Forwarding(addr: Addr)    // both loops running
    | Exited

  /**
   `streams` counts the bidirectional streams opened so far, which the transport numbers in that
   order; `queue` is the UDP socket's queue while no session reads it, `arrivals` all it ever received.
   */
  datatype Client = Client(
    protocol: Protocol, phase: ClientPhase, watch: Watch, seen: nat,
    registry: map<Addr, nat>, sessions: seq<Session>, streams: nat,
    queue: seq<Datagram>, arrivals: seq<Datagram>)

  datatype HostPhase =
    | Accepting
    | AwaitPacket(stream: nat)                    // holds the stream it accepted
    | Receiving(stream: nat, buf: seq<Byte>)
    | Requested(stream: nat, addr: Addr)
    | HRegistered(addr: Addr)
    | HForwarding(addr: Addr)
    | Failed(leaked: bool)      // returned an error; `leaked` if an entry was left behind

  /** `streams` and `packets` count the streams of each kind accepted so far. */
  datatype Host = Host(
    protocol: Protocol, phase: HostPhase, watch: Watch, seen: nat,
    registry: map<Addr, nat>, sessions: seq<Session>, streams: nat, packets: nat)

  datatype System = System(client: Client, packets: seq<Packet>, host: Host)

  datatype ClientAct =
    | CheckStop
    | Nothing                   // nothing to accept, or accepting failed
    | Pick(addr: Addr)
    | OpenStream
    | OpenPacket
    | WritePacket
    | FinishPacket
    | Register
    | StartPair(clock: nat)
    | PairStep(event: Event)
    | Join
    | Fail
    | Arrives(dgram: Datagram)
    | Disconnect

  datatype HostAct =
    | AcceptStream
    | AcceptPacket
    | ReadPacket(n: nat)
    | Decode
    | HRegister
    | HStartPair(clock: nat)
    | HPairStep(event: Event)
    | HJoin
    | HFail
    | HStop

  datatype Step =
    | ByClient(cact: ClientAct)
    | ByHost(hact: HostAct)
    | Deliver(toHost: bool, i: nat, j: nat, n: nat)    // n more bytes of session i arrive at session j
    | Finish(toHost: bool, i: nat, j: nat)             // the end of session i's stream arrives at session j

  function Last<T>(s: seq<T>): T
    requires s != []
  {
    s[|s| - 1]
  }

  /** The session whose forwarders run, if any. */
  predicate Runs(sessions: seq<Session>) {
    sessions != [] && Last(sessions).pair.Some?
  }

  function CurrentPair(sessions: seq<Session>): Pair
    requires Runs(sessions)
  {
    Last(sessions).pair.value
  }

  function SetPair(sessions: seq<Session>, k: nat, p: Pair): seq<Session>
    requires k < |sessions|
  {
    sessions[k := sessions[k].(pair := Some(p))]
  }

  /** What the two loops do by themselves and what the local application or service does to them. */
  predicate Local(e: Event) {
    match e
    case Own(_, _) => true
    case Tick(_) => true
    case Feed(w, _) => w == Up
    case Close(w) => w == Up
    case _ => false
  }

  function Source0(protocol: Protocol, queue: seq<Datagram>, own: Option<Addr>): Source {
    if protocol == Tcp then Stream([], false) else Socket(queue, own)
  }

  // ---- client -----------------------------------------------------------------------------

  predicate ClientCan(c: Client, a: ClientAct) {
    match a
    case CheckStop => c.phase.Listening?
    case Nothing => c.phase.Checked?
    case Pick(addr) => c.phase.Checked? && (c.protocol == Udp ==> c.queue != [] && c.queue[0].from == addr)
    case OpenStream => c.phase.Picked?
    case OpenPacket => c.phase.Opened?
    case WritePacket => c.phase.Sending?
    case FinishPacket => c.phase.Written?
    case Register => c.phase.Sent? && c.sessions != []
    case StartPair(_) => c.phase.Registered? && c.sessions != []
    case PairStep(e) => c.phase.Forwarding? && Runs(c.sessions) && Local(e) && Enabled(CurrentPair(c.sessions), e)
    case Join => c.phase.Forwarding? && Runs(c.sessions) && CurrentPair(c.sessions).Joined()
    case Fail => c.phase.Picked? || c.phase.Opened? || c.phase.Sending? || c.phase.Written?
    case Arrives(_) =>
      c.protocol == Udp &&
      (c.phase.Forwarding? ==> Runs(c.sessions) && CurrentPair(c.sessions).up.src.Socket?)
    case Disconnect =>
      c.watch.senderAlive &&
      (c.phase.Forwarding? ==> Runs(c.sessions) && CurrentPair(c.sessions).watch.senderAlive)
  }

  function UpdateCurrent(sessions: seq<Session>, e: Event): seq<Session>
    requires Runs(sessions) && Enabled(CurrentPair(sessions), e)
  {
    SetPair(sessions, |sessions| - 1, Apply(CurrentPair(sessions), e))
  }

  function ClientStep(c: Client, a: ClientAct): Client
    requires ClientCan(c, a)
  {
    match a
    case CheckStop =>
      if c.watch.Ready(c.seen) then
        c.(seen := c.watch.version, phase := if c.watch.value then Exited else Listening)
      else
        c.(phase := Checked)
    case Nothing => c.(phase := Listening)
    case Pick(addr) =>
      if c.protocol == Udp && addr in c.registry then c.(phase := Listening) else c.(phase := Picked(addr))
    case OpenStream => 
      c.(phase := Opened(c.phase.addr), streams := c.streams + 1,
         sessions := c.sessions + [Session(c.phase.addr, c.streams, None)])
    case OpenPacket => c.(phase := Sending(c.phase.addr))
    case WritePacket => c.(phase := Written(c.phase.addr))
    case FinishPacket => c.(phase := Sent(c.phase.addr))
    case Register => c.(phase := Registered(c.phase.addr), registry := c.registry[c.phase.addr := |c.sessions| - 1])
    case StartPair(clock) =>
      var p := Start(clock, c.watch, c.seen, Source0(c.protocol, c.queue, Some(c.phase.addr)));
      c.(phase := Forwarding(c.phase.addr), sessions := SetPair(c.sessions, |c.sessions| - 1, p), queue := [])
    case PairStep(e) => c.(sessions := UpdateCurrent(c.sessions, e))
    case Join =>
      c.(phase := Listening, registry := c.registry - {c.phase.addr}, queue := WaitingQueue(c))
    case Fail => c.(phase := Exited)
    case Arrives(x) =>
      var c' := c.(arrivals := c.arrivals + [x]);
      if c.phase.Forwarding? then c'.(sessions := UpdateCurrent(c.sessions, Arrive(Up, x)))
      else c'.(queue := c.queue + [x])
    case Disconnect =>
      var c' := c.(watch := c.watch.Stop());
      if c.phase.Forwarding? then c'.(sessions := UpdateCurrent(c.sessions, SendStop)) else c'
  }

  /** The datagrams waiting in the UDP socket, whoever is reading it. */
  function WaitingQueue(c: Client): seq<Datagram> {
    if c.phase.Forwarding? && Runs(c.sessions) && CurrentPair(c.sessions).up.src.Socket? then
      CurrentPair(c.sessions).up.src.queue
    else
      c.queue
  }

  /** The packet streams after a step of the client. */
  function PacketsAfter(packets: seq<Packet>, c: Client, a: ClientAct, codec: Codec): seq<Packet>
    requires ClientCan(c, a)
    requires a.WritePacket? || a.FinishPacket? ==> packets != []
  {
    match a
    case OpenPacket => packets + [Packet([], false)]
    case WritePacket => packets[|packets| - 1 := Packet(codec.encode(c.phase.addr), false)]
    case FinishPacket => packets[|packets| - 1 := Last(packets).(finished := true)]
    case _ => packets
  }

  // ---- host -------------------------------------------------------------------------------

  predicate HostCan(h: Host, a: HostAct, streamsOpened: nat, packets: seq<Packet>) {
    match a
    case AcceptStream => h.phase.Accepting? && h.streams < streamsOpened
    case AcceptPacket => h.phase.AwaitPacket? && h.packets < |packets|
    case ReadPacket(n) =>
      h.phase.Receiving? && 1 <= h.packets <= |packets| &&
      1 <= n <= BUFFER_SIZE && |h.phase.buf| + n <= |packets[h.packets - 1].bytes|
    case Decode =>
      h.phase.Receiving? && 1 <= h.packets <= |packets| &&
      packets[h.packets - 1].finished && |h.phase.buf| == |packets[h.packets - 1].bytes|
    case HRegister => h.phase.Requested?
    case HStartPair(_) => h.phase.HRegistered? && h.sessions != []
    case HPairStep(e) =>
      h.phase.HForwarding? && Runs(h.sessions) && (Local(e) || (e.Arrive? && e.way == Up)) &&
      Enabled(CurrentPair(h.sessions), e)
    case HJoin => h.phase.HForwarding? && Runs(h.sessions) && CurrentPair(h.sessions).Joined()
    case HFail => h.phase.Accepting? || h.phase.AwaitPacket? || h.phase.Receiving? || h.phase.HRegistered?
    case HStop =>
      h.watch.senderAlive &&
      (h.phase.HForwarding? ==> Runs(h.sessions) && CurrentPair(h.sessions).watch.senderAlive)
  }

  function HostStep(h: Host, a: HostAct, streamsOpened: nat, packets: seq<Packet>, codec: Codec): Host
    requires HostCan(h, a, streamsOpened, packets)
  {
    match a
    case AcceptStream => h.(phase := AwaitPacket(h.streams), streams := h.streams + 1)
    case AcceptPacket => h.(phase := Receiving(h.phase.stream, []), packets := h.packets + 1)
    case ReadPacket(n) =>
      var at := |h.phase.buf|;
      h.(phase := Receiving(h.phase.stream, h.phase.buf + packets[h.packets - 1].bytes[at..at + n]))
    case Decode =>
      var msg := codec.decode(h.phase.buf);
      h.(phase := if msg.Some? then Requested(h.phase.stream, msg.value) else Failed(false))
    case HRegister =>
      h.(phase := HRegistered(h.phase.addr), sessions := h.sessions + [Session(h.phase.addr, h.phase.stream, None)],
         registry := h.registry[Unspecified(h.phase.addr) := |h.sessions|])
    case HStartPair(clock) =>
      var p := Start(clock, h.watch, h.seen, Source0(h.protocol, [], None));
      h.(phase := HForwarding(h.phase.addr), sessions := SetPair(h.sessions, |h.sessions| - 1, p))
    case HPairStep(e) => h.(sessions := UpdateCurrent(h.sessions, e))
    case HJoin => h.(phase := Accepting, registry := h.registry - {Unspecified(h.phase.addr)})
    case HFail => h.(phase := Failed(h.phase.HRegistered?))
    case HStop =>
      var h' := h.(watch := h.watch.Stop());
      if h.phase.HForwarding? then h'.(sessions := UpdateCurrent(h.sessions, SendStop)) else h'
  }

  // ---- streams ----------------------------------------------------------------------------

  /** Sender's session i and receiver's session j hold the same stream, and both forward. */
  predicate Joint(from: seq<Session>, i: nat, to: seq<Session>, j: nat) {
    && i < |from| && j < |to| && from[i].stream == to[j].stream
    && from[i].pair.Some? && to[j].pair.Some? && to[j].pair.value.down.src.Stream?
  }

  predicate CanDeliver(from: seq<Session>, i: nat, to: seq<Session>, j: nat, n: nat) {
    Joint(from, i, to, j) &&
    !to[j].pair.value.down.src.closed &&
    |to[j].pair.value.down.fed| + n <= |from[i].pair.value.up.Delivered()|
  }

  /** The next n bytes of the stream, as the receiving pair sees them. */
  function Incoming(from: seq<Session>, i: nat, to: seq<Session>, j: nat, n: nat): (e: Event)
    requires CanDeliver(from, i, to, j, n)
    ensures Enabled(to[j].pair.value, e)
  {
    var at := |to[j].pair.value.down.fed|;
    Feed(Down, from[i].pair.value.up.Delivered()[at..at + n])
  }

  function Delivery(from: seq<Session>, i: nat, to: seq<Session>, j: nat, n: nat): seq<Session>
    requires CanDeliver(from, i, to, j, n)
  {
    SetPair(to, j, Apply(to[j].pair.value, Incoming(from, i, to, j, n)))
  }

  predicate CanFinish(from: seq<Session>, i: nat, to: seq<Session>, j: nat) {
    Joint(from, i, to, j) && from[i].pair.value.up.phase.Done? &&
    |to[j].pair.value.down.fed| == |from[i].pair.value.up.Delivered()|
  }

  function Finishing(from: seq<Session>, i: nat, to: seq<Session>, j: nat): seq<Session>
    requires CanFinish(from, i, to, j)
  {
    SetPair(to, j, Apply(to[j].pair.value, Close(Down)))
  }

  // ---- the whole --------------------------------------------------------------------------

  predicate Can(s: System, t: Step) {
    match t
    case ByClient(a) =>
      && ClientCan(s.client, a)
      && (a.WritePacket? || a.FinishPacket? ==> s.packets != [])
    case ByHost(a) => HostCan(s.host, a, s.client.streams, s.packets)
    case Deliver(toHost, i, j, n) =>
      if toHost then CanDeliver(s.client.sessions, i, s.host.sessions, j, n)
      else CanDeliver(s.host.sessions, i, s.client.sessions, j, n)
    case Finish(toHost, i, j) =>
      if toHost then CanFinish(s.client.sessions, i, s.host.sessions, j)
      else CanFinish(s.host.sessions, i, s.client.sessions, j)
  }

  function Next(s: System, t: Step, codec: Codec): System
    requires Can(s, t)
  {
    match t
    case ByClient(a) =>
      s.(client := ClientStep(s.client, a), packets := PacketsAfter(s.packets, s.client, a, codec))
    case ByHost(a) =>
      s.(host := HostStep(s.host, a, s.client.streams, s.packets, codec))
    case Deliver(toHost, i, j, n) =>
      if toHost then s.(host := s.host.(sessions := Delivery(s.client.sessions, i, s.host.sessions, j, n)))
      else s.(client := s.client.(sessions := Delivery(s.host.sessions, i, s.client.sessions, j, n)))
    case Finish(toHost, i, j) =>
      if toHost then s.(host := s.host.(sessions := Finishing(s.client.sessions, i, s.host.sessions, j)))
      else s.(client := s.client.(sessions := Finishing(s.host.sessions, i, s.client.sessions, j)))
  }

  ghost predicate Valid(s: System, ts: seq<Step>, codec: Codec)
    decreases |ts|
  {
    ts == [] || (Can(s, ts[0]) && Valid(Next(s, ts[0], codec), ts[1..], codec))
  }

  ghost function After(s: System, ts: seq<Step>, codec: Codec): System
    requires Valid(s, ts, codec)
    decreases |ts|
  {
    if ts == [] then s else After(Next(s, ts[0], codec), ts[1..], codec)
  }

  lemma {:induction false} AfterAppend(s: System, ts: seq<Step>, t: Step, codec: Codec)
    requires Valid(s, ts, codec) && Can(After(s, ts, codec), t)
    ensures Valid(s, ts + [t], codec) && After(s, ts + [t], codec) == Next(After(s, ts, codec), t, codec)
    decreases |ts|
  {
    if ts == [] {
      assert [t][1..] == [] && ts + [t] == [t];
    } else {
      assert (ts + [t])[1..] == ts[1..] + [t];
      AfterAppend(Next(s, ts[0], codec), ts[1..], t, codec);
    }
  }

  ghost predicate Leads(s: System, s': System, codec: Codec) {
    exists ts :: Valid(s, ts, codec) && After(s, ts, codec) == s'
  }

  lemma LeadsNext(s: System, s': System, t: Step, codec: Codec)
    requires Leads(s, s', codec) && Can(s', t)
    ensures Leads(s, Next(s', t, codec), codec)
  {
    var ts :| Valid(s, ts, codec) && After(s, ts, codec) == s';
    AfterAppend(s, ts, t, codec);
  }

  /** Right after connecting: the listener is up and the host serves the new connection. */
  function Initial(cp: Protocol, hp: Protocol): System {
    var w := Watch(false, 0, true);
    System(Client(cp, Listening, w, 0, map[], [], 0, [], []), [], Host(hp, Accepting, w, 0, map[], [], 0, 0))
  }
}
