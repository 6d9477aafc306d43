/** The two session loops: their registries, the shared UDP queue, and the client's shutdown. */
module Listener {
  import opened Common
  import opened Forwarder
  import opened Fidelity
  import opened Stopping
  import opened Stuck
  import opened Tunnel
  import opened Isolation

  // ---- registries -------------------------------------------------------------------------

  /** The client's map holds exactly the session being served. */
  predicate ClientRegistry(c: Client) {
    match c.phase
    case Registered(a) => c.sessions != [] && c.registry == map[a := |c.sessions| - 1]
    case Forwarding(a) => c.sessions != [] && c.registry == map[a := |c.sessions| - 1]
    case _ => c.registry == map[]
  }

  /** The host's map of this peer holds the session being served, or the one that failed to start. */
  predicate HostRegistry(h: Host) {
    match h.phase
    case HRegistered(a) => LastIs(h.sessions, a) && h.registry == map[Unspecified(a) := |h.sessions| - 1]
    case HForwarding(a) => LastIs(h.sessions, a) && h.registry == map[Unspecified(a) := |h.sessions| - 1]
    case Failed(true) =>
      h.sessions != [] && h.registry == map[Unspecified(Last(h.sessions).addr) := |h.sessions| - 1]
    case _ => h.registry == map[]
  }

  predicate Registries(s: System) {
    ClientRegistry(s.client) && HostRegistry(s.host)
  }

  lemma ClientStepRegistry(c: Client, a: ClientAct)
    requires ClientRegistry(c) && ClientCan(c, a)
    ensures ClientRegistry(ClientStep(c, a))
  {
    if a.Join? {
      assert map[c.phase.addr := |c.sessions| - 1] - {c.phase.addr} == map[];
    }
  }

  lemma HostStepRegistry(h: Host, a: HostAct, n: nat, packets: seq<Packet>, codec: Codec)
    requires HostRegistry(h) && HostCan(h, a, n, packets)
    ensures HostRegistry(HostStep(h, a, n, packets, codec))
  {
    if a.HJoin? {
      var key := Unspecified(h.phase.addr);
      assert map[key := |h.sessions| - 1] - {key} == map[];
    }
  }

  lemma StepRegistries(s: System, t: Step, codec: Codec)
    requires Registries(s) && Can(s, t)
    ensures Registries(Next(s, t, codec))
  {
    match t
    case ByClient(a) => ClientStepRegistry(s.client, a);
    case ByHost(a) => HostStepRegistry(s.host, a, s.client.streams, s.packets, codec);
    case _ =>
  }

  lemma {:induction false} RunRegistries(s: System, ts: seq<Step>, codec: Codec)
    requires Registries(s) && Valid(s, ts, codec)
    ensures Registries(After(s, ts, codec))
    decreases |ts|
  {
    if ts != [] {
      StepRegistries(s, ts[0], codec);
      RunRegistries(Next(s, ts[0], codec), ts[1..], codec);
    }
  }

  /**
   In every reachable state: neither insertion overwrites an entry, each deregistration removes the
   entry of its own session, and the client's map is empty whenever it listens or has exited.
   */
  lemma RegistriesBalance(cp: Protocol, hp: Protocol, ts: seq<Step>, t: Step, codec: Codec)
    requires Valid(Initial(cp, hp), ts, codec) && Can(After(Initial(cp, hp), ts, codec), t)
    ensures var s := After(Initial(cp, hp), ts, codec);
            var c, h := s.client, s.host;
            && (t == ByClient(Register) ==> c.phase.addr !in c.registry)
            && (t == ByClient(Join) ==> c.phase.addr in c.registry && c.registry[c.phase.addr] == |c.sessions| - 1)
            && (t.ByClient? && t.cact.Pick? ==> t.cact.addr !in c.registry)
            && (c.phase.Listening? || c.phase.Exited? ==> c.registry == map[])
            && (t == ByHost(HRegister) ==> Unspecified(h.phase.addr) !in h.registry)
            && (t == ByHost(HJoin) ==> Unspecified(h.phase.addr) in h.registry
                                       && h.registry[Unspecified(h.phase.addr)] == |h.sessions| - 1)
            && |c.registry| <= 1 && |h.registry| <= 1
  {
    RunRegistries(Initial(cp, hp), ts, codec);
  }

  // ---- sessions that are over -------------------------------------------------------------

  /** Both loops of every session have ended, but for the one being forwarded. */
  predicate Settled(ss: seq<Session>, forwarding: bool) {
    forall k :: 0 <= k < |ss| && ss[k].pair.Some? && !(forwarding && k == |ss| - 1) ==>
      ss[k].pair.value.down.phase.Done? && ss[k].pair.value.up.phase.Done?
  }

  lemma ClientSettled(c: Client, a: ClientAct)
    requires Settled(c.sessions, c.phase.Forwarding?) && ClientCan(c, a) && NotStarted(c)
    ensures Settled(ClientStep(c, a).sessions, ClientStep(c, a).phase.Forwarding?)
  {
  }

  lemma HostSettled(h: Host, a: HostAct, n: nat, packets: seq<Packet>, codec: Codec)
    requires Settled(h.sessions, h.phase.HForwarding?) && HostCan(h, a, n, packets) && HostOk(h)
    ensures var h' := HostStep(h, a, n, packets, codec); Settled(h'.sessions, h'.phase.HForwarding?)
  {
  }

  lemma InputSettled(ss: seq<Session>, f: bool, k: nat, e: Event)
    requires Settled(ss, f) && k < |ss| && ss[k].pair.Some? && Outer(e) && Enabled(ss[k].pair.value, e)
    ensures Settled(SetPair(ss, k, Apply(ss[k].pair.value, e)), f)
  {
    OuterStep(ss[k].pair.value, e, Down);
    OuterStep(ss[k].pair.value, e, Up);
  }

  predicate BothSettled(s: System) {
    Settled(s.client.sessions, s.client.phase.Forwarding?) && Settled(s.host.sessions, s.host.phase.HForwarding?)
  }

  lemma StepSettled(s: System, t: Step, codec: Codec)
    requires BothSettled(s) && Linked(s) && Can(s, t)
    ensures BothSettled(Next(s, t, codec))
  {
    match t
    case ByClient(a) => ClientSettled(s.client, a);
    case ByHost(a) => HostSettled(s.host, a, s.client.streams, s.packets, codec);
    case Deliver(toHost, i, j, n) =>
      if toHost {
        InputSettled(s.host.sessions, s.host.phase.HForwarding?, j, Incoming(s.client.sessions, i, s.host.sessions, j, n));
      } else {
        InputSettled(s.client.sessions, s.client.phase.Forwarding?, j, Incoming(s.host.sessions, i, s.client.sessions, j, n));
      }
    case Finish(toHost, i, j) =>
      if toHost {
        InputSettled(s.host.sessions, s.host.phase.HForwarding?, j, Close(Down));
      } else {
        InputSettled(s.client.sessions, s.client.phase.Forwarding?, j, Close(Down));
      }
  }

  lemma {:induction false} RunSettled(s: System, ts: seq<Step>, codec: Codec)
    requires Lawful(codec) && Paired(s, codec) && Linked(s) && BothSettled(s) && Valid(s, ts, codec)
    ensures BothSettled(After(s, ts, codec))
    decreases |ts|
  {
    if ts != [] {
      StepSettled(s, ts[0], codec);
      StepPaired(s, ts[0], codec);
      StepLinked(s, ts[0], codec);
      RunSettled(Next(s, ts[0], codec), ts[1..], codec);
    }
  }

  /** Over every run, on either side, a session is left, and deregistered, only after both its loops ended. */
  lemma LeftSessionsHaveEnded(cp: Protocol, hp: Protocol, ts: seq<Step>, codec: Codec)
    requires Lawful(codec) && Valid(Initial(cp, hp), ts, codec)
    ensures var c := After(Initial(cp, hp), ts, codec).client;
            forall k :: 0 <= k < |c.sessions| && c.sessions[k].pair.Some? && (c.phase.Forwarding? ==> k < |c.sessions| - 1) ==>
              c.sessions[k].pair.value.down.phase.Done? && c.sessions[k].pair.value.up.phase.Done?
    ensures var h := After(Initial(cp, hp), ts, codec).host;
            forall k :: 0 <= k < |h.sessions| && h.sessions[k].pair.Some? && (h.phase.HForwarding? ==> k < |h.sessions| - 1) ==>
              h.sessions[k].pair.value.down.phase.Done? && h.sessions[k].pair.value.up.phase.Done?
  {
    RunSettled(Initial(cp, hp), ts, codec);
  }

  // ---- the shared UDP queue ---------------------------------------------------------------

  function Got(x: Session): seq<Datagram> {
    if x.pair.Some? then x.pair.value.up.got else []
  }

  /** All datagrams the sessions consumed, session after session. */
  function Consumed(ss: seq<Session>): seq<Datagram> {
    if ss == [] then [] else Consumed(ss[..|ss| - 1]) + Got(ss[|ss| - 1])
  }

  /** Every session reads the shared queue for its own sender. */
  predicate OwnQueues(ss: seq<Session>) {
    forall k :: 0 <= k < |ss| && ss[k].pair.Some? ==>
      ss[k].pair.value.up.src.Socket? && ss[k].pair.value.up.src.own == Some(ss[k].addr)
  }

  predicate Conserves(c: Client) {
    && OwnQueues(c.sessions)
    && c.arrivals == Consumed(c.sessions) + WaitingQueue(c)
  }

  lemma ConsumedAppend(ss: seq<Session>, x: Session)
    ensures Consumed(ss + [x]) == Consumed(ss) + Got(x)
  {
    assert (ss + [x])[..|ss|] == ss;
  }

  lemma {:induction false} ConsumedSame(ss: seq<Session>, ss': seq<Session>)
    requires |ss| == |ss'| && forall k :: 0 <= k < |ss| ==> Got(ss[k]) == Got(ss'[k])
    ensures Consumed(ss) == Consumed(ss')
  {
    if ss != [] {
      ConsumedSame(ss[..|ss| - 1], ss'[..|ss| - 1]);
    }
  }

  lemma UpdateConserves(ss: seq<Session>, e: Event)
    requires OwnQueues(ss) && Runs(ss) && Enabled(CurrentPair(ss), e)
    ensures var ss' := UpdateCurrent(ss, e);
            && OwnQueues(ss')
            && Consumed(ss') + CurrentPair(ss').up.src.queue ==
               Consumed(ss) + CurrentPair(ss).up.src.queue + (if e.Arrive? && e.way == Up then [e.dgram] else [])
  {
    var p := CurrentPair(ss);
    PairConserves(p, e);
    var ss' := UpdateCurrent(ss, e);
    var before := ss[..|ss| - 1];
    assert ss'[..|ss| - 1] == before;
    var more := if e.Arrive? && e.way == Up then [e.dgram] else [];
    Regroup(Consumed(before), Got(Last(ss)), p.up.src.queue);
    Regroup(Consumed(before), Got(Last(ss')), CurrentPair(ss').up.src.queue);
    Regroup(Consumed(before), p.up.got + p.up.src.queue, more);
  }

  lemma StartConserves(ss: seq<Session>, clock: nat, watch: Watch, seen: nat, queue: seq<Datagram>)
    requires OwnQueues(ss) && ss != [] && Last(ss).pair.None?
    ensures var ss' := SetPair(ss, |ss| - 1, Start(clock, watch, seen, Socket(queue, Some(Last(ss).addr))));
            OwnQueues(ss') && Consumed(ss') == Consumed(ss)
  {
    var ss' := SetPair(ss, |ss| - 1, Start(clock, watch, seen, Socket(queue, Some(Last(ss).addr))));
    assert ss'[..|ss| - 1] == ss[..|ss| - 1];
  }

  /** A step of the running pair; `more` is what the step adds to the arrivals. */
  lemma ForwardingConserves(c: Client, e: Event, more: seq<Datagram>)
    requires c.phase.Forwarding? && Runs(c.sessions) && Conserves(c) && Enabled(CurrentPair(c.sessions), e)
    requires more == if e.Arrive? && e.way == Up then [e.dgram] else []
    ensures Conserves(c.(sessions := UpdateCurrent(c.sessions, e), arrivals := c.arrivals + more))
  {
    UpdateConserves(c.sessions, e);
    assert WaitingQueue(c) == CurrentPair(c.sessions).up.src.queue;
  }

  lemma ArrivalConserves(c: Client, x: Datagram)
    requires c.protocol == Udp && ClientOk(c) && Conserves(c) && ClientCan(c, Arrives(x))
    ensures Conserves(ClientStep(c, Arrives(x)))
  {
    if c.phase.Forwarding? {
      ForwardingConserves(c, Arrive(Up, x), [x]);
    } else {
      Regroup(Consumed(c.sessions), c.queue, [x]);
    }
  }

  /** A step of the running pair that is no arrival. */
  lemma PairStepConserves(c: Client, e: Event)
    requires c.phase.Forwarding? && Runs(c.sessions) && Conserves(c) && Enabled(CurrentPair(c.sessions), e)
    requires !(e.Arrive? && e.way == Up)
    ensures Conserves(c.(sessions := UpdateCurrent(c.sessions, e)))
  {
    ForwardingConserves(c, e, []);
    assert c.arrivals + [] == c.arrivals;
  }

  /** A step that leaves the sessions and the waiting datagrams alone. */
  lemma QuietConserves(c: Client, c': Client)
    requires Conserves(c)
    requires c'.sessions == c.sessions && c'.arrivals == c.arrivals && WaitingQueue(c') == WaitingQueue(c)
    ensures Conserves(c')
  {
  }

  lemma OpenConserves(c: Client)
    requires Conserves(c) && ClientCan(c, OpenStream)
    ensures Conserves(ClientStep(c, OpenStream))
  {
    ConsumedAppend(c.sessions, Session(c.phase.addr, c.streams, None));
  }

  lemma BeginConserves(c: Client, clock: nat)
    requires c.protocol == Udp && Conserves(c) && ClientCan(c, StartPair(clock))
    requires LastIs(c.sessions, c.phase.addr) && Last(c.sessions).pair.None?
    ensures Conserves(ClientStep(c, StartPair(clock)))
  {
    StartConserves(c.sessions, clock, c.watch, c.seen, c.queue);
    assert WaitingQueue(c) == c.queue && WaitingQueue(ClientStep(c, StartPair(clock))) == c.queue;
  }

  lemma DisconnectConserves(c: Client)
    requires Conserves(c) && ClientCan(c, Disconnect)
    ensures Conserves(ClientStep(c, Disconnect))
  {
    if c.phase.Forwarding? {
      PairStepConserves(c, SendStop);
    }
  }

  lemma ClientConserves(c: Client, a: ClientAct)
    requires c.protocol == Udp && ClientOk(c) && Conserves(c) && ClientCan(c, a)
    requires c.phase.Registered? ==> LastIs(c.sessions, c.phase.addr)
    ensures Conserves(ClientStep(c, a))
  {
    match a
    case OpenStream => OpenConserves(c);
    case StartPair(clock) => BeginConserves(c, clock);
    case PairStep(e) => PairStepConserves(c, e);
    case Arrives(x) => ArrivalConserves(c, x);
    case Disconnect => DisconnectConserves(c);
    case _ => QuietConserves(c, ClientStep(c, a));
  }

  lemma InputConserves(c: Client, k: nat, p': Pair)
    requires Conserves(c) && k < |c.sessions| && c.sessions[k].pair.Some? && p'.up == c.sessions[k].pair.value.up
    ensures Conserves(c.(sessions := SetPair(c.sessions, k, p')))
  {
    ConsumedSame(c.sessions, SetPair(c.sessions, k, p'));
  }

  lemma StepConserves(s: System, t: Step, codec: Codec)
    requires s.client.protocol == Udp && ClientOk(s.client) && Conserves(s.client) && Can(s, t)
    requires Addressed(s.client, s.packets, codec)
    ensures Conserves(Next(s, t, codec).client) && Next(s, t, codec).client.protocol == Udp
  {
    match t
    case ByClient(a) => ClientConserves(s.client, a);
    case ByHost(a) =>
    case Deliver(toHost, i, j, n) =>
      if !toHost {
        InputConserves(s.client, j, Next(s, t, codec).client.sessions[j].pair.value);
      }
    case Finish(toHost, i, j) =>
      if !toHost {
        InputConserves(s.client, j, Next(s, t, codec).client.sessions[j].pair.value);
      }
  }

  lemma {:induction false} RunConserves(s: System, ts: seq<Step>, codec: Codec)
    requires Lawful(codec) && Paired(s, codec) && Linked(s) && Valid(s, ts, codec)
    requires s.client.protocol == Udp && Conserves(s.client)
    ensures Conserves(After(s, ts, codec).client) && After(s, ts, codec).client.protocol == Udp
    decreases |ts|
  {
    if ts != [] {
      StepPaired(s, ts[0], codec);
      StepLinked(s, ts[0], codec);
      StepConserves(s, ts[0], codec);
      RunConserves(Next(s, ts[0], codec), ts[1..], codec);
    }
  }

  lemma SessionTakesItsOwn(ss: seq<Session>, k: nat)
    requires OwnQueues(ss) && PairsSound(ss) && k < |ss|
    ensures forall i :: 0 <= i < |Got(ss[k])| ==> Got(ss[k])[i].from == ss[k].addr
    ensures ss[k].pair.Some? ==> ss[k].pair.value.up.Delivered() <= First1024(Got(ss[k]))
  {
    if ss[k].pair.Some? {
      assert Sound(ss[k].pair.value) && OwnOnly(ss[k].pair.value.up);
      OwnPayload(ss[k].pair.value.up);
      PayloadIs1024(Got(ss[k]));
    }
  }

  /**
   For every arrival order from every sender, the datagrams consumed by the sessions, one session
   after the other, followed by those still waiting, are exactly the arrivals; each session consumed
   only its own sender's datagrams and hands on the first 1024 bytes of each, in order.
   */
  lemma DatagramsAreDemultiplexed(hp: Protocol, ts: seq<Step>, codec: Codec)
    requires Lawful(codec) && Valid(Initial(Udp, hp), ts, codec)
    ensures var c := After(Initial(Udp, hp), ts, codec).client;
            && c.arrivals == Consumed(c.sessions) + WaitingQueue(c)
            && (forall k, i :: 0 <= k < |c.sessions| && 0 <= i < |Got(c.sessions[k])| ==>
                  Got(c.sessions[k])[i].from == c.sessions[k].addr)
            && (forall k :: 0 <= k < |c.sessions| && c.sessions[k].pair.Some? ==>
                  c.sessions[k].pair.value.up.Delivered() <= First1024(Got(c.sessions[k])))
  {
    RunConserves(Initial(Udp, hp), ts, codec);
    EveryRun(Udp, hp, ts, codec);
    var c := After(Initial(Udp, hp), ts, codec).client;
    forall k | 0 <= k < |c.sessions|
      ensures forall i :: 0 <= i < |Got(c.sessions[k])| ==> Got(c.sessions[k])[i].from == c.sessions[k].addr
      ensures c.sessions[k].pair.Some? ==>
                c.sessions[k].pair.value.up.Delivered() <= First1024(Got(c.sessions[k]))
    {
      SessionTakesItsOwn(c.sessions, k);
    }
  }

  /** The listener picks the sender of the first datagram that no session has consumed. */
  lemma PickNamesNextSender(hp: Protocol, ts: seq<Step>, codec: Codec, a: Addr)
    requires Lawful(codec) && Valid(Initial(Udp, hp), ts, codec)
    requires Can(After(Initial(Udp, hp), ts, codec), ByClient(Pick(a)))
    ensures var c := After(Initial(Udp, hp), ts, codec).client;
            |Consumed(c.sessions)| < |c.arrivals| && c.arrivals[|Consumed(c.sessions)|].from == a
  {
    RunConserves(Initial(Udp, hp), ts, codec);
  }

  // ---- what is never refused --------------------------------------------------------------

  lemma {:induction false} RunKeepsSenders(s: System, ts: seq<Step>, codec: Codec)
    requires Valid(s, ts, codec) && s.client.watch.senderAlive && s.host.watch.senderAlive
    ensures After(s, ts, codec).client.watch.senderAlive && After(s, ts, codec).host.watch.senderAlive
    ensures After(s, ts, codec).client.protocol == s.client.protocol
    decreases |ts|
  {
    if ts != [] {
      RunKeepsSenders(Next(s, ts[0], codec), ts[1..], codec);
    }
  }

  /** Steps of the loops, time passing, and what an application or service does to its own socket. */
  predicate Everyday(e: Event) {
    e.Own? || e.Tick? || ((e.Feed? || e.Close?) && e.way == Up)
  }

  /** A client that can be disconnected, receive, fail while it opens a session, start one and go on with it. */
  predicate TakesAnything(c: Client, x: Datagram, clock: nat, e: Event) {
    && ClientCan(c, Disconnect) && (c.protocol == Udp ==> ClientCan(c, Arrives(x)))
    && (c.phase.Picked? || c.phase.Opened? || c.phase.Sending? || c.phase.Written? ==> ClientCan(c, Fail))
    && (c.phase.Registered? ==> ClientCan(c, StartPair(clock)))
    && (c.phase.Forwarding? ==>
          Runs(c.sessions) && (Everyday(e) && Enabled(CurrentPair(c.sessions), e) ==> ClientCan(c, PairStep(e))))
  }

  lemma ClientTakesAnything(c: Client, x: Datagram, clock: nat, e: Event)
    requires ClientOk(c) && c.watch.senderAlive && (c.protocol == Udp ==> OwnQueues(c.sessions))
    ensures TakesAnything(c, x, clock, e)
  {
    if c.phase.Forwarding? {
      assert CurrentPair(c.sessions).watch == c.watch;
    }
  }

  /**
   A host that can be stopped, fail while it accepts or starts a session, take a stream, a packet and the
   first bytes of one as soon as they are there, start a session and go on with it.
   */
  predicate BearsAnything(h: Host, n: nat, packets: seq<Packet>, clock: nat, e: Event) {
    && HostCan(h, HStop, n, packets)
    && (h.phase.Accepting? || h.phase.AwaitPacket? || h.phase.Receiving? || h.phase.HRegistered? ==> HostCan(h, HFail, n, packets))
    && (h.phase.Accepting? && h.streams < n ==> HostCan(h, AcceptStream, n, packets))
    && (h.phase.AwaitPacket? && h.packets < |packets| ==> HostCan(h, AcceptPacket, n, packets))
    && (h.phase.Receiving? && 1 <= h.packets <= |packets| && |h.phase.buf| < |packets[h.packets - 1].bytes| ==>
          HostCan(h, ReadPacket(1), n, packets))
    && (h.phase.HRegistered? ==> HostCan(h, HStartPair(clock), n, packets))
    && (h.phase.HForwarding? ==>
          Runs(h.sessions) && (Everyday(e) && Enabled(CurrentPair(h.sessions), e) ==> HostCan(h, HPairStep(e), n, packets)))
  }

  lemma HostBearsAnything(h: Host, n: nat, packets: seq<Packet>, clock: nat, e: Event)
    requires HostOk(h) && h.watch.senderAlive
    ensures BearsAnything(h, n, packets, clock, e)
  {
    if h.phase.HForwarding? {
      assert CurrentPair(h.sessions).watch == h.watch;
    }
  }

  /**
   In every reachable state the client can be disconnected, the host stopped, and a datagram of anyone
   can arrive at a UDP tunnel's socket; opening a session can fail at each of its steps; a registered
   session can start at any time, and a running one take every step its loops and its sockets allow.
   */
  lemma NothingIsRefused(cp: Protocol, hp: Protocol, ts: seq<Step>, codec: Codec, x: Datagram, clock: nat, e: Event)
    requires Lawful(codec) && Valid(Initial(cp, hp), ts, codec)
    ensures TakesAnything(After(Initial(cp, hp), ts, codec).client, x, clock, e)
    ensures var s := After(Initial(cp, hp), ts, codec); BearsAnything(s.host, s.client.streams, s.packets, clock, e)
  {
    RunKeepsSenders(Initial(cp, hp), ts, codec);
    EveryRun(cp, hp, ts, codec);
    if cp == Udp {
      RunConserves(Initial(cp, hp), ts, codec);
    }
    var s := After(Initial(cp, hp), ts, codec);
    ClientTakesAnything(s.client, x, clock, e);
    HostBearsAnything(s.host, s.client.streams, s.packets, clock, e);
  }

  // ---- a second application ---------------------------------------------------------------

  predicate StuckPair(p: Pair) {
    KeptOut(p) && FaithfulPair(p)
  }

  predicate StuckLast(ss: seq<Session>) {
    Runs(ss) && StuckPair(CurrentPair(ss))
  }

  /** The session being served cannot get past another application's datagram. */
  predicate Starved(c: Client) {
    c.phase.Forwarding? && StuckLast(c.sessions)
  }

  /** Nobody disconnects the tunnel, and no read of the shared socket fails. */
  predicate LeftAlone(t: Step) {
    t.ByClient? ==> t.cact != Disconnect && t.cact != PairStep(Own(Up, PollTimer(true)))
  }

  lemma StaysOut(p: Pair, e: Event)
    requires StuckPair(p) && Enabled(p, e) && Undisturbed(e)
    ensures StuckPair(Apply(p, e))
  {
    KeptOutStep(p, e);
    StepFaithful(p, e);
  }

  lemma CurrentAfterSet(ss: seq<Session>, k: nat, p': Pair)
    requires Runs(ss) && k < |ss|
    ensures Runs(SetPair(ss, k, p'))
    ensures CurrentPair(SetPair(ss, k, p')) == if k == |ss| - 1 then p' else CurrentPair(ss)
  {
  }

  lemma SetStuckLast(ss: seq<Session>, k: nat, p': Pair)
    requires StuckLast(ss) && k < |ss| && (k == |ss| - 1 ==> StuckPair(p'))
    ensures StuckLast(SetPair(ss, k, p'))
  {
    CurrentAfterSet(ss, k, p');
  }

  lemma PairStarved(c: Client, e: Event)
    requires Starved(c) && Enabled(CurrentPair(c.sessions), e) && Undisturbed(e)
    ensures Starved(c.(sessions := UpdateCurrent(c.sessions, e)))
  {
    StaysOut(CurrentPair(c.sessions), e);
    SetStuckLast(c.sessions, |c.sessions| - 1, Apply(CurrentPair(c.sessions), e));
  }

  lemma InputStarved(c: Client, k: nat, e: Event)
    requires Starved(c) && k < |c.sessions| && c.sessions[k].pair.Some? && Outer(e) && Enabled(c.sessions[k].pair.value, e)
    ensures Starved(c.(sessions := SetPair(c.sessions, k, Apply(c.sessions[k].pair.value, e))))
  {
    if k == |c.sessions| - 1 {
      StaysOut(c.sessions[k].pair.value, e);
    }
    SetStuckLast(c.sessions, k, Apply(c.sessions[k].pair.value, e));
  }

  lemma StepStarved(s: System, t: Step, codec: Codec)
    requires Starved(s.client) && Can(s, t) && LeftAlone(t)
    ensures Starved(Next(s, t, codec).client) && |Next(s, t, codec).client.sessions| == |s.client.sessions|
  {
    match t
    case ByClient(a) =>
      match a {
        case PairStep(e) => PairStarved(s.client, e);
        case Arrives(x) => PairStarved(s.client, Arrive(Up, x));
        case _ =>
      }
    case ByHost(a) =>
    case Deliver(toHost, i, j, n) =>
      if !toHost {
        InputStarved(s.client, j, Incoming(s.host.sessions, i, s.client.sessions, j, n));
      }
    case Finish(toHost, i, j) =>
      if !toHost {
        InputStarved(s.client, j, Close(Down));
      }
  }

  /**
   From then on, until the tunnel is disconnected, the session never ends and no other is opened:
   the application whose datagram waits at the head is never served.
   */
  lemma {:induction false} SecondApplicationStarves(s: System, ts: seq<Step>, codec: Codec)
    requires Starved(s.client) && Valid(s, ts, codec) && forall i :: 0 <= i < |ts| ==> LeftAlone(ts[i])
    ensures var c := After(s, ts, codec).client;
            Starved(c) && |c.sessions| == |s.client.sessions|
    decreases |ts|
  {
    if ts != [] {
      StepStarved(s, ts[0], codec);
      SecondApplicationStarves(Next(s, ts[0], codec), ts[1..], codec);
    }
  }

  /** A session that starts on a queue where another application's datagram bars it is starved at once. */
  lemma BarredFromStart(c: Client, clock: nat)
    requires ClientOk(c) && ClientCan(c, StartPair(clock)) && c.protocol == Udp && !c.watch.value
    requires Barred(c.queue, c.phase.addr)
    ensures Starved(ClientStep(c, StartPair(clock)))
  {
    var p := Start(clock, c.watch, c.seen, Socket(c.queue, Some(c.phase.addr)));
    StartFaithful(clock, c.watch, c.seen, Socket(c.queue, Some(c.phase.addr)));
    assert StuckPair(p);
    assert ClientStep(c, StartPair(clock)).sessions == SetPair(c.sessions, |c.sessions| - 1, p);
  }

  /** The listener peeks a datagram of `a`, and serves it up to the registration. */
  lemma ServesFirst(s0: System, s: System, a: Addr, codec: Codec) returns (s': System)
    requires Leads(s0, s, codec) && s.client.phase.Listening? && s.client.protocol == Udp && s.client.registry == map[]
    requires !s.client.watch.Ready(s.client.seen) && s.client.queue != [] && s.client.queue[0].from == a
    ensures Leads(s0, s', codec) && s'.client.phase == Registered(a) && s'.client.protocol == Udp
    ensures s'.client.watch == s.client.watch && s'.client.seen == s.client.seen && s'.client.queue == s.client.queue
  {
    LeadsNext(s0, s, ByClient(CheckStop), codec);
    var s1 := Next(s, ByClient(CheckStop), codec);
    LeadsNext(s0, s1, ByClient(Pick(a)), codec);
    var s2 := Next(s1, ByClient(Pick(a)), codec);
    LeadsNext(s0, s2, ByClient(OpenStream), codec);
    var s3 := Next(s2, ByClient(OpenStream), codec);
    LeadsNext(s0, s3, ByClient(OpenPacket), codec);
    var s4 := Next(s3, ByClient(OpenPacket), codec);
    LeadsNext(s0, s4, ByClient(WritePacket), codec);
    var s5 := Next(s4, ByClient(WritePacket), codec);
    LeadsNext(s0, s5, ByClient(FinishPacket), codec);
    var s6 := Next(s5, ByClient(FinishPacket), codec);
    LeadsNext(s0, s6, ByClient(Register), codec);
    s' := Next(s6, ByClient(Register), codec);
  }

  /** Two applications, one datagram each, are enough to get there from the connection on. */
  lemma TwoApplicationsStarve(hp: Protocol, a: Addr, b: Addr, x: Byte, codec: Codec) returns (s: System)
    requires Lawful(codec) && a != b
    ensures Leads(Initial(Udp, hp), s, codec) && Starved(s.client)
  {
    var s0 := Initial(Udp, hp);
    assert Valid(s0, [], codec);
    LeadsNext(s0, s0, ByClient(Arrives(Datagram(a, [x]))), codec);
    var s1 := Next(s0, ByClient(Arrives(Datagram(a, [x]))), codec);
    LeadsNext(s0, s1, ByClient(Arrives(Datagram(b, [x]))), codec);
    var s2 := Next(s1, ByClient(Arrives(Datagram(b, [x]))), codec);
    var s3 := ServesFirst(s0, s2, a, codec);
    assert Bars(s3.client.queue, a, 1);
    var ts :| Valid(s0, ts, codec) && After(s0, ts, codec) == s3;
    EveryRun(Udp, hp, ts, codec);
    LeadsNext(s0, s3, ByClient(StartPair(0)), codec);
    BarredFromStart(s3.client, 0);
    s := Next(s3, ByClient(StartPair(0)), codec);
  }

  // ---- shutdown of the client -------------------------------------------------------------

  function PairRank(p: Pair): nat {
    Rank(p.down) + Rank(p.up)
  }

  /** Steps the listener and its loops may still take once a stop was sent. */
  function ClientRank(c: Client): nat {
    match c.phase
    case Exited => 0
    case Listening => 1
    case Forwarding(_) => 2 + if Runs(c.sessions) then PairRank(CurrentPair(c.sessions)) else 0
    case Registered(_) => 11
    case Sent(_) => 12
    case Written(_) => 13
    case Sending(_) => 14
    case Opened(_) => 15
    case Picked(_) => 16
    case Checked => 17
  }

  /** Steps the client takes itself, as opposed to what happens to it. */
  predicate OwnStepOf(t: Step) {
    t.ByClient? && !t.cact.Arrives? && !t.cact.Disconnect? && (t.cact.PairStep? ==> t.cact.event.Own?)
  }

  lemma PairRankShrinks(p: Pair, e: Event)
    requires Sound(p) && p.watch.value && Enabled(p, e)
    ensures PairRank(Apply(p, e)) + (if e.Own? then 1 else 0) <= PairRank(p)
  {
    StepAfterStop(p, e, Down);
    StepAfterStop(p, e, Up);
  }

  lemma ClientRankShrinks(c: Client, a: ClientAct)
    requires ClientOk(c) && PairsSound(c.sessions) && c.watch.value && ClientCan(c, a)
    ensures ClientStep(c, a).watch.value
    ensures ClientRank(ClientStep(c, a)) + (if OwnStepOf(ByClient(a)) then 1 else 0) <= ClientRank(c)
  {
    if c.phase.Forwarding? {
      match a
      case PairStep(e) => PairRankShrinks(CurrentPair(c.sessions), e);
      case Arrives(x) => PairRankShrinks(CurrentPair(c.sessions), Arrive(Up, x));
      case Disconnect => PairRankShrinks(CurrentPair(c.sessions), SendStop);
      case _ =>
    }
  }

  /** Input from the tunnel does not give the client more to do. */
  lemma InputKeepsRank(c: Client, k: nat, e: Event)
    requires k < |c.sessions| && c.sessions[k].pair.Some? && Outer(e) && Enabled(c.sessions[k].pair.value, e)
    ensures ClientRank(c.(sessions := SetPair(c.sessions, k, Apply(c.sessions[k].pair.value, e)))) == ClientRank(c)
  {
    OuterStep(c.sessions[k].pair.value, e, Down);
    OuterStep(c.sessions[k].pair.value, e, Up);
  }

  lemma DeliveryKeepsRank(c: Client, from: seq<Session>, i: nat, j: nat, n: nat)
    requires CanDeliver(from, i, c.sessions, j, n)
    ensures ClientRank(c.(sessions := Delivery(from, i, c.sessions, j, n))) == ClientRank(c)
  {
    InputKeepsRank(c, j, Incoming(from, i, c.sessions, j, n));
  }

  lemma FinishingKeepsRank(c: Client, from: seq<Session>, i: nat, j: nat)
    requires CanFinish(from, i, c.sessions, j)
    ensures ClientRank(c.(sessions := Finishing(from, i, c.sessions, j))) == ClientRank(c)
  {
    InputKeepsRank(c, j, Close(Down));
  }

  /** From `s` to `s'` with `n` own steps of the client, after a stop. */
  predicate RankShrinks(c: Client, c': Client, n: nat) {
    c'.watch.value && ClientRank(c') + n <= ClientRank(c)
  }

  lemma StepRankShrinks(s: System, t: Step, codec: Codec)
    requires ClientOk(s.client) && PairsSound(s.client.sessions) && s.client.watch.value && Can(s, t)
    ensures RankShrinks(s.client, Next(s, t, codec).client, if OwnStepOf(t) then 1 else 0)
  {
    match t
    case ByClient(a) => ClientRankShrinks(s.client, a);
    case ByHost(a) =>
    case Deliver(toHost, i, j, n) =>
      if !toHost {
        DeliveryKeepsRank(s.client, s.host.sessions, i, j, n);
      }
    case Finish(toHost, i, j) =>
      if !toHost {
        FinishingKeepsRank(s.client, s.host.sessions, i, j);
      }
  }

  function OwnSteps(ts: seq<Step>): nat {
    if ts == [] then 0 else (if OwnStepOf(ts[0]) then 1 else 0) + OwnSteps(ts[1..])
  }

  lemma {:induction false} RunRankShrinks(s: System, ts: seq<Step>, codec: Codec)
    requires Lawful(codec) && Paired(s, codec) && Linked(s) && Healthy(s) && s.client.watch.value
    requires Valid(s, ts, codec)
    ensures ClientRank(After(s, ts, codec).client) + OwnSteps(ts) <= ClientRank(s.client)
    decreases |ts|
  {
    if ts != [] {
      StepRankShrinks(s, ts[0], codec);
      StepPaired(s, ts[0], codec);
      StepLinked(s, ts[0], codec);
      StepHealthy(s, ts[0], codec);
      RunRankShrinks(Next(s, ts[0], codec), ts[1..], codec);
    }
  }

  /** A step of the client's own in which nothing fails: no read, no opening of a stream, no request. */
  predicate Succeeds(t: Step) {
    OwnStepOf(t) && !t.cact.Fail? && (t.cact.PairStep? ==> NoFailure(t.cact.event.act))
  }

  lemma ClientsNext(c: Client) returns (a: ClientAct)
    requires ClientOk(c) && PairsSound(c.sessions) && !c.phase.Exited?
    ensures ClientCan(c, a) && Succeeds(ByClient(a))
    ensures a.WritePacket? ==> c.phase.Sending?
    ensures a.FinishPacket? ==> c.phase.Written?
  {
    match c.phase
    case Listening => a := CheckStop;
    case Checked => a := Nothing;
    case Picked(_) => a := OpenStream;
    case Opened(_) => a := OpenPacket;
    case Sending(_) => a := WritePacket;
    case Written(_) => a := FinishPacket;
    case Sent(_) => a := Register;
    case Registered(_) => a := StartPair(0);
    case Forwarding(_) =>
      var p := CurrentPair(c.sessions);
      if p.Joined() {
        a := Join;
      } else {
        var w := if p.down.phase.Done? then Up else Down;
        NeverBlocked(p.Get(w));
        a := PairStep(Own(w, NextAct(p.Get(w))));
      }
  }

  /** A client that has not exited always has a step of its own to take, in which nothing fails. */
  lemma ClientNeverBlocked(s: System, codec: Codec)
    requires ClientOk(s.client) && PairsSound(s.client.sessions) && Addressed(s.client, s.packets, codec)
    ensures s.client.phase.Exited? || exists t :: Succeeds(t) && Can(s, t)
  {
    if !s.client.phase.Exited? {
      var a := ClientsNext(s.client);
      assert Can(s, ByClient(a));
      assert Succeeds(ByClient(a));
    }
  }

  /**
   Once the tunnel was disconnected, in every continuation the client takes at most 2062 further steps of its
   own, has one to take until it has exited, in which nothing fails, and exits with an empty map.
   */
  lemma ClientShutsDown(cp: Protocol, hp: Protocol, ts: seq<Step>, us: seq<Step>, codec: Codec)
    requires Lawful(codec) && Valid(Initial(cp, hp), ts, codec)
    requires Valid(After(Initial(cp, hp), ts, codec), us, codec)
    requires ByClient(Disconnect) in ts
    ensures var s := After(After(Initial(cp, hp), ts, codec), us, codec);
            && OwnSteps(us) <= 2062
            && (s.client.phase.Exited? ==> s.client.registry == map[])
            && (s.client.phase.Exited? || exists t :: Succeeds(t) && Can(s, t))
  {
    var s := After(Initial(cp, hp), ts, codec);
    StopReachesForwarders(cp, hp, ts, codec);
    EveryRun(cp, hp, ts, codec);
    RunRegistries(Initial(cp, hp), ts, codec);
    RunLinked(s, us, codec);
    RunRegistries(s, us, codec);
    RunRankShrinks(s, us, codec);
    ClientNeverBlocked(After(s, us, codec), codec);
    if s.client.phase.Forwarding? {
      RanksAreSmall(CurrentPair(s.client.sessions));
    }
  }

  lemma RanksAreSmall(p: Pair)
    requires Sound(p)
    ensures PairRank(p) <= 2060
  {
  }
}
