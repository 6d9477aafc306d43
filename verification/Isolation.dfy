/** Sessions never mix: what the host serves as its k-th session is the client's k-th session. */
module Isolation {
  import opened Common
  import opened Forwarder
  import opened Fidelity
  import opened Stopping
  import opened Tunnel

  // ---- pairing by position ----------------------------------------------------------------

  predicate LastIs(sessions: seq<Session>, a: Addr) {
    sessions != [] && Last(sessions).addr == a
  }

  /** The k-th session of a side holds stream k. */
  predicate Numbered(sessions: seq<Session>) {
    forall k :: 0 <= k < |sessions| ==> sessions[k].stream == k
  }

  /** Streams and packets are opened in lockstep. */
  predicate Lockstep(c: Client, packets: seq<Packet>, codec: Codec) {
    match c.phase
    case Listening => |c.sessions| == |packets|
    case Checked => |c.sessions| == |packets|
    case Picked(_) => |c.sessions| == |packets|
    case Opened(a) => |c.sessions| == |packets| + 1 && LastIs(c.sessions, a)
    case Sending(a) => |c.sessions| == |packets| && LastIs(c.sessions, a) && Last(packets) == Packet([], false)
    case Written(a) =>
      |c.sessions| == |packets| && LastIs(c.sessions, a) && Last(packets) == Packet(codec.encode(a), false)
    case Sent(a) => |c.sessions| == |packets| && LastIs(c.sessions, a)
    case Registered(a) => |c.sessions| == |packets| && LastIs(c.sessions, a)
    case Forwarding(a) => |c.sessions| == |packets| && LastIs(c.sessions, a)
    case Exited => |packets| <= |c.sessions| <= |packets| + 1
  }

  /** A finished packet carries the address of the session with the same number. */
  predicate Addressed(c: Client, packets: seq<Packet>, codec: Codec) {
    && Lockstep(c, packets, codec)
    && |packets| <= |c.sessions| == c.streams
    && Numbered(c.sessions)
    && forall k :: 0 <= k < |packets| && packets[k].finished ==> packets[k].bytes == codec.encode(c.sessions[k].addr)
  }

  predicate SameIds(ss: seq<Session>, ss': seq<Session>) {
    |ss| <= |ss'| && forall k :: 0 <= k < |ss| ==> ss[k].addr == ss'[k].addr && ss[k].stream == ss'[k].stream
  }

  predicate PacketsGrow(ps: seq<Packet>, ps': seq<Packet>) {
    |ps| <= |ps'| && forall k :: 0 <= k < |ps| ==> ps[k].bytes <= ps'[k].bytes
  }

  predicate HostPhaseOk(h: Host, sessions: seq<Session>, packets: seq<Packet>) {
    var s := |h.sessions|;
    match h.phase
    case Accepting => h.streams == h.packets == s
    case AwaitPacket(n) => n == s && h.streams == s + 1 && h.packets == s
    case Receiving(n, buf) =>
      n == s && h.streams == h.packets == s + 1 && h.packets <= |packets| && buf <= packets[s].bytes
    case Requested(n, a) =>
      n == s && h.streams == h.packets == s + 1 && s < |sessions| && a == sessions[s].addr
    case HRegistered(a) => h.streams == h.packets == s && LastIs(h.sessions, a)
    case HForwarding(a) => h.streams == h.packets == s && LastIs(h.sessions, a)
    case Failed(_) => s <= h.packets <= h.streams <= s + 1
  }

  /** The host's sessions are the client's first ones, in order, each on the stream of the same number. */
  predicate Mirrors(h: Host, sessions: seq<Session>, packets: seq<Packet>) {
    && |h.sessions| <= h.packets <= h.streams <= |sessions|
    && h.packets <= |packets|
    && HostPhaseOk(h, sessions, packets)
    && Numbered(h.sessions)
    && SameIds(h.sessions, sessions)
  }

  lemma MirrorsGrow(h: Host, ss: seq<Session>, ps: seq<Packet>, ss': seq<Session>, ps': seq<Packet>)
    requires Mirrors(h, ss, ps) && SameIds(ss, ss') && PacketsGrow(ps, ps')
    ensures Mirrors(h, ss', ps')
  {
  }

  /** A step that touches neither the packets nor the list of sessions. */
  lemma AddressedKept(c: Client, c': Client, packets: seq<Packet>, codec: Codec)
    requires Addressed(c, packets, codec) && Lockstep(c', packets, codec)
    requires |c'.sessions| == c'.streams && SameIds(c.sessions, c'.sessions) && Numbered(c'.sessions)
    ensures Addressed(c', packets, codec)
  {
  }

  lemma WritePacketAddressed(c: Client, packets: seq<Packet>, a: ClientAct, codec: Codec)
    requires Addressed(c, packets, codec) && ClientCan(c, a)
    requires a.OpenPacket? || ((a.WritePacket? || a.FinishPacket?) && packets != [])
    ensures Addressed(ClientStep(c, a), PacketsAfter(packets, c, a, codec), codec)
    ensures PacketsGrow(packets, PacketsAfter(packets, c, a, codec))
  {
    var packets' := PacketsAfter(packets, c, a, codec);
    assert forall k :: 0 <= k < |packets'| - 1 ==> packets'[k] == packets[k];
  }

  lemma ClientStepAddressed(c: Client, packets: seq<Packet>, a: ClientAct, codec: Codec)
    requires Addressed(c, packets, codec) && ClientCan(c, a)
    requires a.WritePacket? || a.FinishPacket? ==> packets != []
    ensures Addressed(ClientStep(c, a), PacketsAfter(packets, c, a, codec), codec)
    ensures SameIds(c.sessions, ClientStep(c, a).sessions)
    ensures PacketsGrow(packets, PacketsAfter(packets, c, a, codec))
  {
    if a.OpenPacket? || a.WritePacket? || a.FinishPacket? {
      WritePacketAddressed(c, packets, a, codec);
    } else {
      AddressedKept(c, ClientStep(c, a), packets, codec);
    }
  }

  /** The packet read to its end is the one of the session to come, and decodes to its address. */
  lemma DecodesNext(h: Host, c: Client, packets: seq<Packet>, codec: Codec)
    requires Lawful(codec) && Addressed(c, packets, codec) && Mirrors(h, c.sessions, packets)
    requires HostCan(h, Decode, c.streams, packets)
    ensures |h.sessions| < |c.sessions| && codec.decode(h.phase.buf) == Some(c.sessions[|h.sessions|].addr)
  {
    var addr := c.sessions[|h.sessions|].addr;
    assert h.phase.buf == codec.encode(addr);
    assert codec.decode(codec.encode(addr)) == Some(addr);
  }

  /** A step that leaves the host's list of sessions alone. */
  lemma MirrorsKept(h: Host, h': Host, ss: seq<Session>, ps: seq<Packet>)
    requires Mirrors(h, ss, ps) && HostPhaseOk(h', ss, ps)
    requires |h'.sessions| == |h.sessions| && SameIds(h.sessions, h'.sessions)
    requires |h.sessions| <= h'.packets <= h'.streams <= |ss| && h'.packets <= |ps|
    ensures Mirrors(h', ss, ps)
  {
  }

  lemma RegisterMirrors(h: Host, c: Client, packets: seq<Packet>, codec: Codec)
    requires Mirrors(h, c.sessions, packets) && Numbered(c.sessions) && h.phase.Requested?
    ensures Mirrors(HostStep(h, HRegister, c.streams, packets, codec), c.sessions, packets)
    ensures SameIds(h.sessions, HostStep(h, HRegister, c.streams, packets, codec).sessions)
  {
  }

  lemma HostStepMirrors(h: Host, a: HostAct, c: Client, packets: seq<Packet>, codec: Codec)
    requires Lawful(codec) && Addressed(c, packets, codec)
    requires Mirrors(h, c.sessions, packets) && HostCan(h, a, c.streams, packets)
    ensures Mirrors(HostStep(h, a, c.streams, packets, codec), c.sessions, packets)
    ensures SameIds(h.sessions, HostStep(h, a, c.streams, packets, codec).sessions)
  {
    if a.HRegister? {
      RegisterMirrors(h, c, packets, codec);
    } else {
      if a.Decode? {
        DecodesNext(h, c, packets, codec);
      }
      MirrorsKept(h, HostStep(h, a, c.streams, packets, codec), c.sessions, packets);
    }
  }

  // ---- bytes through the tunnel -----------------------------------------------------------

  /** What `to` was given is a prefix of what `from` wrote, and all of it once the end was seen. */
  predicate Flows(from: Option<Pair>, to: Option<Pair>) {
    to.Some? ==>
      var d := to.value.down;
      && d.src.Stream?
      && (if from.None? then d.fed == [] && !d.src.closed
          else && d.fed <= from.value.up.Delivered()
               && (d.src.closed ==> from.value.up.phase.Done? && d.fed == from.value.up.Delivered()))
  }

  /** A pair moves on by itself: its output grows, its tunnel input is left alone. */
  predicate MovesOn(p: Pair, q: Pair) {
    && p.up.Delivered() <= q.up.Delivered()
    && (p.up.phase.Done? ==> q.up.phase.Done? && q.up.Delivered() == p.up.Delivered())
    && q.down.fed == p.down.fed
    && q.down.src.Stream? == p.down.src.Stream?
    && (p.down.src.Stream? ==> q.down.src.closed == p.down.src.closed)
  }

  predicate Evolves(o: Option<Pair>, o': Option<Pair>) {
    if o.None? then Flows(None, o') else o'.Some? && MovesOn(o.value, o'.value)
  }

  lemma FlowsEvolve(a: Option<Pair>, b: Option<Pair>, a': Option<Pair>, b': Option<Pair>)
    requires Flows(a, b) && Evolves(a, a') && Evolves(b, b')
    ensures Flows(a', b')
  {
  }

  predicate Outer(e: Event) {
    (e.Feed? || e.Close? || e.Arrive?) && e.way == Down
  }

  lemma ActMovesUp(d: Direction, a: Act, clock: nat, watch: Watch, stamp: nat, others: nat)
    requires CanAct(d, a)
    ensures d.Delivered() <= Act1(d, a, clock, watch, stamp, others).Delivered()
  {
    if a.Write? {
      FlatAppend(d.out, d.phase.rest[..a.k]);
    }
  }

  lemma StepMovesOn(p: Pair, e: Event)
    requires Enabled(p, e) && !Outer(e)
    ensures MovesOn(p, Apply(p, e))
  {
    if e.Own? {
      OwnStep(p, e.way, e.act);
      ActMovesUp(p.Get(e.way), e.act, p.clock, p.watch, p.stamp, |p.Get(Opposite(e.way)).stores|);
    } else {
      OuterStep(p, e, Up);
    }
  }

  function At(sessions: seq<Session>, k: nat): Option<Pair> {
    if k < |sessions| then sessions[k].pair else None
  }

  predicate AllEvolve(ss: seq<Session>, ss': seq<Session>) {
    |ss| <= |ss'| && forall k: nat :: k < |ss'| ==> Evolves(At(ss, k), At(ss', k))
  }

  predicate AllFlow(from: seq<Session>, to: seq<Session>) {
    forall k: nat :: k < |to| ==> Flows(At(from, k), At(to, k))
  }

  lemma SelfEvolves(o: Option<Pair>)
    ensures Evolves(o, o)
  {
  }

  lemma AllSelfEvolve(ss: seq<Session>)
    ensures AllEvolve(ss, ss)
  {
  }

  lemma AllFlowEvolve(from: seq<Session>, to: seq<Session>, from': seq<Session>, to': seq<Session>)
    requires AllFlow(from, to) && AllEvolve(from, from') && AllEvolve(to, to')
    ensures AllFlow(from', to')
  {
    forall k: nat | k < |to'|
      ensures Flows(At(from', k), At(to', k))
    {
      if k >= |from'| {
        assert At(from, k) == None && At(from', k) == None;
      }
      FlowsEvolve(At(from, k), At(to, k), At(from', k), At(to', k));
    }
  }

  // ---- both sides -------------------------------------------------------------------------

  /** One side's running pair listens to that side's stop channel. */
  predicate Wired(ss: seq<Session>, forwarding: bool, watch: Watch) {
    forwarding ==> Runs(ss) && CurrentPair(ss).watch == watch
  }

  lemma SetPairEvolves(ss: seq<Session>, k: nat, p: Pair)
    requires k < |ss| && Evolves(ss[k].pair, Some(p))
    ensures AllEvolve(ss, SetPair(ss, k, p)) && SameIds(ss, SetPair(ss, k, p))
  {
    forall i: nat | i < |ss|
      ensures Evolves(At(ss, i), At(SetPair(ss, k, p), i))
    {
      SelfEvolves(At(ss, i));
    }
  }

  /** A step of the running pair, with the channel following along. */
  lemma WiredStep(ss: seq<Session>, watch: Watch, e: Event)
    requires Wired(ss, true, watch) && Enabled(CurrentPair(ss), e) && !Outer(e) && !e.DropSender?
    ensures Wired(UpdateCurrent(ss, e), true, if e.SendStop? then watch.Stop() else watch)
    ensures AllEvolve(ss, UpdateCurrent(ss, e))
  {
    StepMovesOn(CurrentPair(ss), e);
    SetPairEvolves(ss, |ss| - 1, Apply(CurrentPair(ss), e));
  }

  lemma AppendEvolves(ss: seq<Session>, a: Addr, n: nat)
    ensures AllEvolve(ss, ss + [Session(a, n, None)])
  {
    var ss' := ss + [Session(a, n, None)];
    forall k: nat | k < |ss'|
      ensures Evolves(At(ss, k), At(ss', k))
    {
      SelfEvolves(At(ss, k));
    }
  }

  /** The forwarders of the newest session have not started before the session forwards. */
  predicate NotStarted(c: Client) {
    c.phase.Opened? || c.phase.Sending? || c.phase.Written? || c.phase.Sent? || c.phase.Registered? ==>
      c.sessions != [] && Last(c.sessions).pair.None?
  }

  predicate ClientOk(c: Client) {
    && Wired(c.sessions, c.phase.Forwarding?, c.watch)
    && NotStarted(c)
    && (c.phase.Exited? || FreshReceiver(c.watch, c.seen))
  }

  predicate HostOk(h: Host) {
    && Wired(h.sessions, h.phase.HForwarding?, h.watch)
    && (h.phase.HRegistered? ==> h.sessions != [] && Last(h.sessions).pair.None?)
    && FreshReceiver(h.watch, h.seen)
  }

  lemma ClientStepOk(c: Client, a: ClientAct)
    requires ClientOk(c) && ClientCan(c, a)
    ensures ClientOk(ClientStep(c, a)) && AllEvolve(c.sessions, ClientStep(c, a).sessions)
  {
    match a
    case OpenStream => AppendEvolves(c.sessions, c.phase.addr, c.streams);
    case StartPair(clock) =>
      SetPairEvolves(c.sessions, |c.sessions| - 1,
                     Start(clock, c.watch, c.seen, Source0(c.protocol, c.queue, Some(c.phase.addr))));
    case PairStep(e) => WiredStep(c.sessions, c.watch, e);
    case Arrives(x) =>
      AllSelfEvolve(c.sessions);
      if c.phase.Forwarding? {
        WiredStep(c.sessions, c.watch, Arrive(Up, x));
      }
    case Disconnect =>
      AllSelfEvolve(c.sessions);
      if c.phase.Forwarding? {
        WiredStep(c.sessions, c.watch, SendStop);
      }
    case _ => AllSelfEvolve(c.sessions);
  }

  lemma HostStepOk(h: Host, a: HostAct, n: nat, packets: seq<Packet>, codec: Codec)
    requires HostOk(h) && HostCan(h, a, n, packets)
    ensures HostOk(HostStep(h, a, n, packets, codec)) && AllEvolve(h.sessions, HostStep(h, a, n, packets, codec).sessions)
  {
    match a
    case HRegister => AppendEvolves(h.sessions, h.phase.addr, h.phase.stream);
    case HStartPair(clock) =>
      SetPairEvolves(h.sessions, |h.sessions| - 1, Start(clock, h.watch, h.seen, Source0(h.protocol, [], None)));
    case HPairStep(e) => WiredStep(h.sessions, h.watch, e);
    case HStop =>
      AllSelfEvolve(h.sessions);
      if h.phase.HForwarding? {
        WiredStep(h.sessions, h.watch, SendStop);
      }
    case _ => AllSelfEvolve(h.sessions);
  }

  // ---- every run --------------------------------------------------------------------------

  predicate Paired(s: System, codec: Codec) {
    && Addressed(s.client, s.packets, codec)
    && Mirrors(s.host, s.client.sessions, s.packets)
  }

  predicate Linked(s: System) {
    && ClientOk(s.client) && HostOk(s.host)
    && AllFlow(s.client.sessions, s.host.sessions)
    && AllFlow(s.host.sessions, s.client.sessions)
  }

  /** Input from the streams leaves which session is which as it was. */
  lemma InputPaired(s: System, cs: seq<Session>, hs: seq<Session>, codec: Codec)
    requires Paired(s, codec)
    requires |cs| == |s.client.sessions| && SameIds(s.client.sessions, cs)
    requires |hs| == |s.host.sessions| && SameIds(s.host.sessions, hs)
    ensures Paired(s.(client := s.client.(sessions := cs), host := s.host.(sessions := hs)), codec)
  {
    AddressedKept(s.client, s.client.(sessions := cs), s.packets, codec);
    MirrorsKept(s.host, s.host.(sessions := hs), s.client.sessions, s.packets);
    MirrorsGrow(s.host.(sessions := hs), s.client.sessions, s.packets, cs, s.packets);
  }

  lemma StepPaired(s: System, t: Step, codec: Codec)
    requires Lawful(codec) && Paired(s, codec) && Can(s, t)
    ensures Paired(Next(s, t, codec), codec)
  {
    var s' := Next(s, t, codec);
    match t
    case ByClient(a) =>
      ClientStepAddressed(s.client, s.packets, a, codec);
      MirrorsGrow(s.host, s.client.sessions, s.packets, s'.client.sessions, s'.packets);
    case ByHost(a) =>
      HostStepMirrors(s.host, a, s.client, s.packets, codec);
    case Deliver(toHost, i, j, n) =>
      if toHost {
        InputPaired(s, s.client.sessions, s'.host.sessions, codec);
      } else {
        InputPaired(s, s'.client.sessions, s.host.sessions, codec);
      }
    case Finish(toHost, i, j) =>
      if toHost {
        InputPaired(s, s.client.sessions, s'.host.sessions, codec);
      } else {
        InputPaired(s, s'.client.sessions, s.host.sessions, codec);
      }
  }

  /** Bytes or the end of a stream reach one pair: its own output is left alone. */
  lemma InputFlows(from: seq<Session>, to: seq<Session>, k: nat, p': Pair)
    requires AllFlow(from, to) && AllFlow(to, from)
    requires k < |to| && to[k].pair.Some? && p'.up == to[k].pair.value.up
    requires Flows(At(from, k), Some(p'))
    ensures AllFlow(from, SetPair(to, k, p')) && AllFlow(SetPair(to, k, p'), from)
  {
    var to' := SetPair(to, k, p');
    forall i: nat | i < |to'|
      ensures Flows(At(from, i), At(to', i))
    {
      assert i != k ==> At(to', i) == At(to, i);
    }
    forall i: nat | i < |from|
      ensures Flows(At(to', i), At(from, i))
    {
      assert i != k ==> At(to', i) == At(to, i);
      assert Flows(At(to, i), At(from, i));
    }
  }

  /** `p'` is `p` after input from the tunnel that still fits what `from` wrote. */
  predicate TakesInput(from: Option<Pair>, p: Pair, p': Pair) {
    p'.watch == p.watch && p'.up == p.up && Flows(from, Some(p'))
  }

  lemma HostInput(s: System, k: nat, p': Pair)
    requires Linked(s) && k < |s.host.sessions| && s.host.sessions[k].pair.Some?
    requires TakesInput(At(s.client.sessions, k), s.host.sessions[k].pair.value, p')
    ensures Linked(s.(host := s.host.(sessions := SetPair(s.host.sessions, k, p'))))
  {
    InputFlows(s.client.sessions, s.host.sessions, k, p');
  }

  lemma ClientInput(s: System, k: nat, p': Pair)
    requires Linked(s) && k < |s.client.sessions| && s.client.sessions[k].pair.Some?
    requires TakesInput(At(s.host.sessions, k), s.client.sessions[k].pair.value, p')
    ensures Linked(s.(client := s.client.(sessions := SetPair(s.client.sessions, k, p'))))
  {
    InputFlows(s.host.sessions, s.client.sessions, k, p');
  }

  lemma DeliveryTakesInput(from: seq<Session>, to: seq<Session>, k: nat, n: nat)
    requires CanDeliver(from, k, to, k, n) && Flows(At(from, k), At(to, k))
    ensures TakesInput(At(from, k), to[k].pair.value, Apply(to[k].pair.value, Incoming(from, k, to, k, n)))
  {
    var p, sent := to[k].pair.value, from[k].pair.value.up.Delivered();
    var at := |p.down.fed|;
    assert p.down.fed + sent[at..at + n] == sent[..at + n];
  }

  lemma FinishTakesInput(from: seq<Session>, to: seq<Session>, k: nat)
    requires CanFinish(from, k, to, k) && Flows(At(from, k), At(to, k))
    ensures TakesInput(At(from, k), to[k].pair.value, Apply(to[k].pair.value, Close(Down)))
  {
  }

  /** Both sides number their streams by session: a stream joins sessions of the same position. */
  predicate Numbers(s: System) {
    Numbered(s.client.sessions) && Numbered(s.host.sessions)
  }

  lemma DeliverLinked(s: System, toHost: bool, i: nat, j: nat, n: nat, codec: Codec)
    requires Linked(s) && Numbers(s) && Can(s, Deliver(toHost, i, j, n))
    ensures Linked(Next(s, Deliver(toHost, i, j, n), codec))
  {
    var c, h := s.client.sessions, s.host.sessions;
    assert i == j;
    if toHost {
      DeliveryTakesInput(c, h, j, n);
      HostInput(s, j, Apply(h[j].pair.value, Incoming(c, j, h, j, n)));
    } else {
      DeliveryTakesInput(h, c, j, n);
      ClientInput(s, j, Apply(c[j].pair.value, Incoming(h, j, c, j, n)));
    }
  }

  lemma FinishLinked(s: System, toHost: bool, i: nat, j: nat, codec: Codec)
    requires Linked(s) && Numbers(s) && Can(s, Finish(toHost, i, j))
    ensures Linked(Next(s, Finish(toHost, i, j), codec))
  {
    var c, h := s.client.sessions, s.host.sessions;
    assert i == j;
    if toHost {
      FinishTakesInput(c, h, j);
      HostInput(s, j, Apply(h[j].pair.value, Close(Down)));
    } else {
      FinishTakesInput(h, c, j);
      ClientInput(s, j, Apply(c[j].pair.value, Close(Down)));
    }
  }

  lemma ClientLinked(s: System, a: ClientAct, codec: Codec)
    requires Linked(s) && Can(s, ByClient(a))
    ensures Linked(Next(s, ByClient(a), codec))
  {
    ClientStepOk(s.client, a);
    AllSelfEvolve(s.host.sessions);
    var ss := ClientStep(s.client, a).sessions;
    AllFlowEvolve(s.client.sessions, s.host.sessions, ss, s.host.sessions);
    AllFlowEvolve(s.host.sessions, s.client.sessions, s.host.sessions, ss);
  }

  lemma HostLinked(s: System, a: HostAct, codec: Codec)
    requires Linked(s) && Can(s, ByHost(a))
    ensures Linked(Next(s, ByHost(a), codec))
  {
    HostStepOk(s.host, a, s.client.streams, s.packets, codec);
    AllSelfEvolve(s.client.sessions);
    var ss := HostStep(s.host, a, s.client.streams, s.packets, codec).sessions;
    AllFlowEvolve(s.client.sessions, s.host.sessions, s.client.sessions, ss);
    AllFlowEvolve(s.host.sessions, s.client.sessions, ss, s.client.sessions);
  }

  lemma StepLinked(s: System, t: Step, codec: Codec)
    requires Linked(s) && Numbers(s) && Can(s, t)
    ensures Linked(Next(s, t, codec))
  {
    match t
    case ByClient(a) => ClientLinked(s, a, codec);
    case ByHost(a) => HostLinked(s, a, codec);
    case Deliver(toHost, i, j, n) => DeliverLinked(s, toHost, i, j, n, codec);
    case Finish(toHost, i, j) => FinishLinked(s, toHost, i, j, codec);
  }

  // ---- every pair is sound ----------------------------------------------------------------

  predicate PairsSound(ss: seq<Session>) {
    forall k :: 0 <= k < |ss| && ss[k].pair.Some? ==> Sound(ss[k].pair.value)
  }

  predicate Healthy(s: System) {
    PairsSound(s.client.sessions) && PairsSound(s.host.sessions)
  }

  lemma SetPairSound(ss: seq<Session>, k: nat, p: Pair)
    requires PairsSound(ss) && k < |ss| && Sound(p)
    ensures PairsSound(SetPair(ss, k, p))
  {
  }

  lemma StepPairSound(ss: seq<Session>, k: nat, e: Event)
    requires PairsSound(ss) && k < |ss| && ss[k].pair.Some? && Enabled(ss[k].pair.value, e)
    ensures PairsSound(SetPair(ss, k, Apply(ss[k].pair.value, e)))
  {
    StepSound(ss[k].pair.value, e);
    SetPairSound(ss, k, Apply(ss[k].pair.value, e));
  }

  lemma ClientHealthy(c: Client, a: ClientAct)
    requires ClientOk(c) && PairsSound(c.sessions) && ClientCan(c, a)
    ensures PairsSound(ClientStep(c, a).sessions)
  {
    var last := |c.sessions| - 1;
    match a
    case StartPair(clock) =>
      var local := Source0(c.protocol, c.queue, Some(c.phase.addr));
      StartSound(clock, c.watch, c.seen, local);
      SetPairSound(c.sessions, last, Start(clock, c.watch, c.seen, local));
    case PairStep(e) => StepPairSound(c.sessions, last, e);
    case Arrives(x) =>
      if c.phase.Forwarding? {
        StepPairSound(c.sessions, last, Arrive(Up, x));
      }
    case Disconnect =>
      if c.phase.Forwarding? {
        StepPairSound(c.sessions, last, SendStop);
      }
    case _ =>
  }

  lemma HostHealthy(h: Host, a: HostAct, n: nat, packets: seq<Packet>, codec: Codec)
    requires HostOk(h) && PairsSound(h.sessions) && HostCan(h, a, n, packets)
    ensures PairsSound(HostStep(h, a, n, packets, codec).sessions)
  {
    var last := |h.sessions| - 1;
    match a
    case HStartPair(clock) =>
      var local := Source0(h.protocol, [], None);
      StartSound(clock, h.watch, h.seen, local);
      SetPairSound(h.sessions, last, Start(clock, h.watch, h.seen, local));
    case HPairStep(e) => StepPairSound(h.sessions, last, e);
    case HStop =>
      if h.phase.HForwarding? {
        StepPairSound(h.sessions, last, SendStop);
      }
    case _ =>
  }

  lemma DeliveryHealthy(from: seq<Session>, i: nat, to: seq<Session>, j: nat, n: nat)
    requires PairsSound(to) && CanDeliver(from, i, to, j, n)
    ensures PairsSound(Delivery(from, i, to, j, n))
  {
    StepPairSound(to, j, Incoming(from, i, to, j, n));
  }

  lemma StepHealthy(s: System, t: Step, codec: Codec)
    requires ClientOk(s.client) && HostOk(s.host) && Healthy(s) && Can(s, t)
    ensures Healthy(Next(s, t, codec))
  {
    match t
    case ByClient(a) => ClientHealthy(s.client, a);
    case ByHost(a) => HostHealthy(s.host, a, s.client.streams, s.packets, codec);
    case Deliver(toHost, i, j, n) =>
      if toHost {
        DeliveryHealthy(s.client.sessions, i, s.host.sessions, j, n);
      } else {
        DeliveryHealthy(s.host.sessions, i, s.client.sessions, j, n);
      }
    case Finish(toHost, i, j) =>
      StepPairSound(if toHost then s.host.sessions else s.client.sessions, j, Close(Down));
  }

  lemma {:induction false} RunLinked(s: System, ts: seq<Step>, codec: Codec)
    requires Lawful(codec) && Paired(s, codec) && Linked(s) && Healthy(s) && Valid(s, ts, codec)
    ensures Paired(After(s, ts, codec), codec) && Linked(After(s, ts, codec)) && Healthy(After(s, ts, codec))
    decreases |ts|
  {
    if ts != [] {
      StepPaired(s, ts[0], codec);
      StepLinked(s, ts[0], codec);
      StepHealthy(s, ts[0], codec);
      RunLinked(Next(s, ts[0], codec), ts[1..], codec);
    }
  }

  lemma EveryRun(cp: Protocol, hp: Protocol, ts: seq<Step>, codec: Codec)
    requires Lawful(codec) && Valid(Initial(cp, hp), ts, codec)
    ensures var s := After(Initial(cp, hp), ts, codec);
            Paired(s, codec) && Linked(s) && Healthy(s)
  {
    RunLinked(Initial(cp, hp), ts, codec);
  }

  /** What `to` wrote to its local side came from the application or service behind `from`. */
  lemma EndToEnd(from: Option<Pair>, to: Pair)
    requires Flows(from, Some(to)) && Sound(to) && (from.Some? ==> Sound(from.value))
    ensures to.down.Delivered() <= (if from.Some? then from.value.up.fed else [])
    ensures from.Some? && from.value.up.phase == Done(SourceEnded) && from.value.up.src.Stream?
            && to.down.phase == Done(SourceEnded)
            ==> to.down.Delivered() == from.value.up.fed
  {
    assert to.down.Delivered() <= to.down.taken <= to.down.fed;
    if from.Some? {
      var up := from.value.up;
      assert up.Delivered() <= up.taken <= up.fed;
      if to.down.phase == Done(SourceEnded) {
        assert to.down.Delivered() == to.down.taken == to.down.fed == up.Delivered();
      }
      if up.phase == Done(SourceEnded) && up.src.Stream? {
        assert up.Delivered() == up.taken == up.fed;
      }
    }
  }

  // ---- what applications and services sent, told from the steps alone ---------------------

  /** Bytes an event of the running pair brings to the local source of session k. */
  function SideInput(ss: seq<Session>, e: Event, k: nat): seq<Byte> {
    if Runs(ss) && |ss| - 1 == k then Brings(e, Up, OwnOf(CurrentPair(ss).up)) else []
  }

  /** Bytes a step brings to session k from the client's application. */
  function AppInput(s: System, t: Step, k: nat): seq<Byte> {
    var c := s.client;
    if !t.ByClient? then []
    else match t.cact
      case StartPair(_) =>
        if |c.sessions| - 1 == k && c.phase.Registered? then Content(Source0(c.protocol, c.queue, Some(c.phase.addr))) else []
      case PairStep(e) => SideInput(c.sessions, e, k)
      case Arrives(x) => if c.phase.Forwarding? then SideInput(c.sessions, Arrive(Up, x), k) else []
      case _ => []
  }

  /** Bytes a step brings to session k from the host's service. */
  function ServiceInput(s: System, t: Step, k: nat): seq<Byte> {
    if t.ByHost? && t.hact.HPairStep? then SideInput(s.host.sessions, t.hact.event, k) else []
  }

  ghost function AppSent(s: System, ts: seq<Step>, codec: Codec, k: nat): seq<Byte>
    requires Valid(s, ts, codec)
    decreases |ts|
  {
    if ts == [] then [] else AppInput(s, ts[0], k) + AppSent(Next(s, ts[0], codec), ts[1..], codec, k)
  }

  ghost function ServiceSent(s: System, ts: seq<Step>, codec: Codec, k: nat): seq<Byte>
    requires Valid(s, ts, codec)
    decreases |ts|
  {
    if ts == [] then [] else ServiceInput(s, ts[0], k) + ServiceSent(Next(s, ts[0], codec), ts[1..], codec, k)
  }

  function FedAt(ss: seq<Session>, k: nat): seq<Byte> {
    if At(ss, k).Some? then At(ss, k).value.up.fed else []
  }

  lemma UpdateFeeds(ss: seq<Session>, e: Event, k: nat)
    requires Runs(ss) && Enabled(CurrentPair(ss), e)
    ensures FedAt(UpdateCurrent(ss, e), k) == FedAt(ss, k) + SideInput(ss, e, k)
  {
    StepFeeds(CurrentPair(ss), e, Up);
  }

  lemma StepAppInput(s: System, t: Step, codec: Codec, k: nat)
    requires ClientOk(s.client) && Can(s, t)
    ensures FedAt(Next(s, t, codec).client.sessions, k) == FedAt(s.client.sessions, k) + AppInput(s, t, k)
  {
    if t.ByClient? {
      match t.cact
      case PairStep(e) => UpdateFeeds(s.client.sessions, e, k);
      case Arrives(x) =>
        if s.client.phase.Forwarding? {
          UpdateFeeds(s.client.sessions, Arrive(Up, x), k);
        }
      case Disconnect =>
        if s.client.phase.Forwarding? {
          UpdateFeeds(s.client.sessions, SendStop, k);
        }
      case _ =>
    }
  }

  lemma StepServiceInput(s: System, t: Step, codec: Codec, k: nat)
    requires HostOk(s.host) && Can(s, t)
    ensures FedAt(Next(s, t, codec).host.sessions, k) == FedAt(s.host.sessions, k) + ServiceInput(s, t, k)
  {
    if t.ByHost? {
      match t.hact
      case HPairStep(e) => UpdateFeeds(s.host.sessions, e, k);
      case HStop =>
        if s.host.phase.HForwarding? {
          UpdateFeeds(s.host.sessions, SendStop, k);
        }
      case _ =>
    }
  }

  lemma {:induction false} RunSent(s: System, ts: seq<Step>, codec: Codec, k: nat)
    requires Lawful(codec) && Paired(s, codec) && Linked(s) && Valid(s, ts, codec)
    ensures FedAt(After(s, ts, codec).client.sessions, k) == FedAt(s.client.sessions, k) + AppSent(s, ts, codec, k)
    ensures FedAt(After(s, ts, codec).host.sessions, k) == FedAt(s.host.sessions, k) + ServiceSent(s, ts, codec, k)
    decreases |ts|
  {
    if ts != [] {
      var s' := Next(s, ts[0], codec);
      StepAppInput(s, ts[0], codec, k);
      StepServiceInput(s, ts[0], codec, k);
      StepPaired(s, ts[0], codec);
      StepLinked(s, ts[0], codec);
      RunSent(s', ts[1..], codec, k);
      Regroup(FedAt(s.client.sessions, k), AppInput(s, ts[0], k), AppSent(s', ts[1..], codec, k));
      Regroup(FedAt(s.host.sessions, k), ServiceInput(s, ts[0], k), ServiceSent(s', ts[1..], codec, k));
    }
  }

  // ---- connections accepted and stops sent, told from the steps alone ----------------------

  /** The address that the listener had picked last at each opening of a stream. */
  function Opens(ts: seq<Step>, picked: Option<Addr>): seq<Option<Addr>> {
    if ts == [] then []
    else match ts[0]
      case ByClient(Pick(a)) => Opens(ts[1..], Some(a))
      case ByClient(OpenStream) => [picked] + Opens(ts[1..], picked)
      case _ => Opens(ts[1..], picked)
  }

  /** The sessions of a side were opened for these addresses, in order. */
  predicate OpenedFor(ss: seq<Session>, addrs: seq<Option<Addr>>) {
    |addrs| == |ss| && forall k :: 0 <= k < |ss| ==> addrs[k] == Some(ss[k].addr)
  }

  lemma ClientOpens(c: Client, a: ClientAct, picked: Option<Addr>, addrs: seq<Option<Addr>>)
    requires ClientCan(c, a) && OpenedFor(c.sessions, addrs) && (c.phase.Picked? ==> picked == Some(c.phase.addr))
    ensures var c' := ClientStep(c, a);
            && (c'.phase.Picked? ==> (if a.Pick? then Some(a.addr) else picked) == Some(c'.phase.addr))
            && OpenedFor(c'.sessions, if a.OpenStream? then addrs + [picked] else addrs)
  {
  }

  lemma {:induction false} RunOpens(s: System, ts: seq<Step>, codec: Codec, picked: Option<Addr>, addrs: seq<Option<Addr>>)
    requires Valid(s, ts, codec) && OpenedFor(s.client.sessions, addrs)
    requires s.client.phase.Picked? ==> picked == Some(s.client.phase.addr)
    ensures OpenedFor(After(s, ts, codec).client.sessions, addrs + Opens(ts, picked))
    decreases |ts|
  {
    if ts == [] {
      assert addrs + [] == addrs;
    } else {
      var s' := Next(s, ts[0], codec);
      match ts[0]
      case ByClient(a) =>
        ClientOpens(s.client, a, picked, addrs);
        if a.OpenStream? {
          Regroup(addrs, [picked], Opens(ts[1..], picked));
          RunOpens(s', ts[1..], codec, picked, addrs + [picked]);
        } else {
          RunOpens(s', ts[1..], codec, if a.Pick? then Some(a.addr) else picked, addrs);
        }
      case _ => RunOpens(s', ts[1..], codec, picked, addrs);
    }
  }

  /** Over every run the host reads packets in chunks of 1 to 1024 bytes, and so do the loops their streams. */
  lemma {:induction false} ReadsAreBounded(s: System, ts: seq<Step>, codec: Codec, i: nat)
    requires Valid(s, ts, codec) && i < |ts|
    ensures ts[i].ByHost? && ts[i].hact.ReadPacket? ==> 1 <= ts[i].hact.n <= 1024
    ensures ts[i].ByHost? && ts[i].hact.HPairStep? && ts[i].hact.event.Own? && ts[i].hact.event.act.ReadStream?
            ==> ts[i].hact.event.act.n <= 1024
    ensures ts[i].ByClient? && ts[i].cact.PairStep? && ts[i].cact.event.Own? && ts[i].cact.event.act.ReadStream?
            ==> ts[i].cact.event.act.n <= 1024
    decreases |ts|
  {
    if i > 0 {
      ReadsAreBounded(Next(s, ts[0], codec), ts[1..], codec, i - 1);
    }
  }

  /** Who was told to stop: the client by a disconnect, the host by a stop, and nobody by anything else. */
  predicate StopsSent(s: System, disconnected: bool, stopped: bool) {
    s.client.watch.value == disconnected && s.host.watch.value == stopped
  }

  lemma {:induction false} RunStops(s: System, ts: seq<Step>, codec: Codec, disconnected: bool, stopped: bool)
    requires Valid(s, ts, codec) && StopsSent(s, disconnected, stopped)
    ensures StopsSent(After(s, ts, codec), disconnected || ByClient(Disconnect) in ts, stopped || ByHost(HStop) in ts)
    decreases |ts|
  {
    if ts != [] {
      assert forall t :: t in ts <==> t == ts[0] || t in ts[1..];
      RunStops(Next(s, ts[0], codec), ts[1..], codec,
               disconnected || ts[0] == ByClient(Disconnect), stopped || ts[0] == ByHost(HStop));
    }
  }

  /**
   Over every run a side has been told to stop exactly if it was disconnected, or stopped, at some
   point; and the forwarders it runs then have been told too.
   */
  lemma StopReachesForwarders(cp: Protocol, hp: Protocol, ts: seq<Step>, codec: Codec)
    requires Lawful(codec) && Valid(Initial(cp, hp), ts, codec)
    ensures var s := After(Initial(cp, hp), ts, codec);
            && (s.client.watch.value <==> ByClient(Disconnect) in ts)
            && (s.host.watch.value <==> ByHost(HStop) in ts)
            && (s.client.phase.Forwarding? ==>
                  Runs(s.client.sessions) && (CurrentPair(s.client.sessions).watch.value <==> ByClient(Disconnect) in ts))
            && (s.host.phase.HForwarding? ==>
                  Runs(s.host.sessions) && (CurrentPair(s.host.sessions).watch.value <==> ByHost(HStop) in ts))
  {
    RunStops(Initial(cp, hp), ts, codec, false, false);
    EveryRun(cp, hp, ts, codec);
  }

  /** The other end of session k, as far as its bytes go. */
  lemma ServedBytes(from: seq<Session>, to: seq<Session>, k: nat)
    requires AllFlow(from, to) && PairsSound(from) && PairsSound(to)
    requires k < |to| && to[k].pair.Some?
    ensures to[k].pair.value.down.Delivered() <= FedAt(from, k)
    ensures k < |from| && from[k].pair.Some? && from[k].pair.value.up.phase == Done(SourceEnded)
            && from[k].pair.value.up.src.Stream? && to[k].pair.value.down.phase == Done(SourceEnded)
            ==> to[k].pair.value.down.Delivered() == FedAt(from, k)
  {
    assert Flows(At(from, k), At(to, k));
    EndToEnd(At(from, k), to[k].pair.value);
  }

  lemma SentFromStart(cp: Protocol, hp: Protocol, ts: seq<Step>, codec: Codec, k: nat)
    requires Lawful(codec) && Valid(Initial(cp, hp), ts, codec)
    ensures FedAt(After(Initial(cp, hp), ts, codec).client.sessions, k) == AppSent(Initial(cp, hp), ts, codec, k)
    ensures FedAt(After(Initial(cp, hp), ts, codec).host.sessions, k) == ServiceSent(Initial(cp, hp), ts, codec, k)
  {
    RunSent(Initial(cp, hp), ts, codec, k);
  }

  /**
   In every interleaving of client, host and transport, the host's k-th session was given the stream
   that the client opened for its k-th session, and no other session of the client holds that stream;
   it carries the address of the connection the listener had picked for it; its service has received a prefix of what that session's
   application sent, and the application a prefix of what that session's service sent.
   */
  lemma SessionsNeverMix(cp: Protocol, hp: Protocol, ts: seq<Step>, codec: Codec, k: nat)
    requires Lawful(codec) && Valid(Initial(cp, hp), ts, codec)
    requires k < |After(Initial(cp, hp), ts, codec).host.sessions|
    ensures var s := After(Initial(cp, hp), ts, codec);
            && k < |s.client.sessions|
            && (forall i :: 0 <= i < |s.client.sessions| ==>
                  (s.client.sessions[i].stream == s.host.sessions[k].stream <==> i == k))
            && |Opens(ts, None)| == |s.client.sessions|
            && (forall i :: 0 <= i < |s.client.sessions| ==> Opens(ts, None)[i] == Some(s.client.sessions[i].addr))
            && s.host.sessions[k].addr == s.client.sessions[k].addr
            && (s.host.sessions[k].pair.Some? ==>
                  s.host.sessions[k].pair.value.down.Delivered() <= AppSent(Initial(cp, hp), ts, codec, k))
            && (s.client.sessions[k].pair.Some? ==>
                  s.client.sessions[k].pair.value.down.Delivered() <= ServiceSent(Initial(cp, hp), ts, codec, k))
  {
    RunOpens(Initial(cp, hp), ts, codec, None, []);
    assert [] + Opens(ts, None) == Opens(ts, None);
    EveryRun(cp, hp, ts, codec);
    SentFromStart(cp, hp, ts, codec, k);
    var s := After(Initial(cp, hp), ts, codec);
    if s.host.sessions[k].pair.Some? {
      ServedBytes(s.client.sessions, s.host.sessions, k);
    }
    if s.client.sessions[k].pair.Some? {
      ServedBytes(s.host.sessions, s.client.sessions, k);
    }
  }

  /**
   Two sessions on one stream: if the client's loop ended because the application closed its
   connection, and the host's because the stream ended, the service received exactly everything that
   application sent; likewise back.
   */
  lemma EofIsComplete(cp: Protocol, hp: Protocol, ts: seq<Step>, codec: Codec, i: nat, j: nat, c: Pair, h: Pair)
    requires Lawful(codec) && Valid(Initial(cp, hp), ts, codec)
    requires var s := After(Initial(cp, hp), ts, codec);
             && i < |s.client.sessions| && j < |s.host.sessions| && s.client.sessions[i].stream == s.host.sessions[j].stream
             && s.client.sessions[i].pair == Some(c) && s.host.sessions[j].pair == Some(h)
    ensures c.up.src.Stream? && c.up.phase == Done(SourceEnded) && h.down.phase == Done(SourceEnded)
            ==> h.down.Delivered() == AppSent(Initial(cp, hp), ts, codec, i)
    ensures h.up.src.Stream? && h.up.phase == Done(SourceEnded) && c.down.phase == Done(SourceEnded)
            ==> c.down.Delivered() == ServiceSent(Initial(cp, hp), ts, codec, j)
  {
    EveryRun(cp, hp, ts, codec);
    SentFromStart(cp, hp, ts, codec, j);
    var s := After(Initial(cp, hp), ts, codec);
    assert Numbers(s) && i == j;
    ServedBytes(s.client.sessions, s.host.sessions, j);
    ServedBytes(s.host.sessions, s.client.sessions, j);
  }

  /**
   Datagrams travel as a byte stream: what a host with a UDP service emits for session k is cut
   anew, into datagrams of 1 to 1024 bytes whose concatenation is a prefix of what was read.
   */
  lemma DatagramsCarryTheBytes(cp: Protocol, ts: seq<Step>, codec: Codec, k: nat, h: Pair)
    requires Lawful(codec) && Valid(Initial(cp, Udp), ts, codec)
    requires k < |After(Initial(cp, Udp), ts, codec).host.sessions|
    requires After(Initial(cp, Udp), ts, codec).host.sessions[k].pair == Some(h)
    ensures forall i :: 0 <= i < |h.down.out| ==> 1 <= |h.down.out[i]| <= 1024
    ensures Flat(h.down.out) <= AppSent(Initial(cp, Udp), ts, codec, k)
  {
    EveryRun(cp, Udp, ts, codec);
    SessionsNeverMix(cp, Udp, ts, codec, k);
    assert Sound(h);
  }
}
