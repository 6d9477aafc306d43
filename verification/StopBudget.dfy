/** A stopped side, over all its sessions: what it may still write in each direction. */
module StopBudget {
  import opened Common
  import opened Forwarder
  import opened Stopping
  import opened Tunnel
  import opened Isolation

  function Wrote(x: Session, w: Way): nat {
    if x.pair.Some? then |x.pair.value.Get(w).Delivered()| else 0
  }

  /** Bytes written in direction `w` by all sessions of a side. */
  function Total(ss: seq<Session>, w: Way): nat {
    if ss == [] then 0 else Total(ss[..|ss| - 1], w) + Wrote(ss[|ss| - 1], w)
  }

  function SideBudget(ss: seq<Session>, forwarding: bool, w: Way): nat {
    if forwarding && Runs(ss) then Budget(CurrentPair(ss).Get(w)) else 0
  }

  /** Nothing a stopped side may still write has grown. */
  predicate Spends(ss: seq<Session>, f: bool, ss': seq<Session>, f': bool, w: Way) {
    Total(ss', w) + SideBudget(ss', f', w) <= Total(ss, w) + SideBudget(ss, f, w)
  }

  lemma {:induction false} TotalSame(ss: seq<Session>, ss': seq<Session>, w: Way)
    requires |ss| == |ss'| && forall k :: 0 <= k < |ss| ==> Wrote(ss[k], w) == Wrote(ss'[k], w)
    ensures Total(ss, w) == Total(ss', w)
  {
    if ss != [] {
      TotalSame(ss[..|ss| - 1], ss'[..|ss| - 1], w);
    }
  }

  lemma LastSpends(ss: seq<Session>, p': Pair, w: Way, n: nat)
    requires Runs(ss) && Shrinks(CurrentPair(ss).Get(w), p'.Get(w), n)
    ensures Spends(ss, true, SetPair(ss, |ss| - 1, p'), true, w)
  {
    assert SetPair(ss, |ss| - 1, p')[..|ss| - 1] == ss[..|ss| - 1];
  }

  lemma UpdateSpends(ss: seq<Session>, e: Event, w: Way)
    requires Runs(ss) && Sound(CurrentPair(ss)) && CurrentPair(ss).watch.value && Enabled(CurrentPair(ss), e)
    ensures Spends(ss, true, UpdateCurrent(ss, e), true, w)
  {
    StepAfterStop(CurrentPair(ss), e, w);
    LastSpends(ss, Apply(CurrentPair(ss), e), w, if e.Own? && e.way == w then 1 else 0);
  }

  lemma StartSpends(ss: seq<Session>, clock: nat, watch: Watch, seen: nat, local: Source, w: Way)
    requires ss != [] && Last(ss).pair.None?
    ensures Spends(ss, false, SetPair(ss, |ss| - 1, Start(clock, watch, seen, local)), true, w)
  {
    assert SetPair(ss, |ss| - 1, Start(clock, watch, seen, local))[..|ss| - 1] == ss[..|ss| - 1];
  }

  lemma AppendSpends(ss: seq<Session>, a: Addr, n: nat, w: Way)
    ensures Spends(ss, false, ss + [Session(a, n, None)], false, w)
  {
    assert (ss + [Session(a, n, None)])[..|ss|] == ss;
  }

  lemma InputSpends(ss: seq<Session>, f: bool, k: nat, e: Event, w: Way)
    requires k < |ss| && ss[k].pair.Some? && Outer(e) && Enabled(ss[k].pair.value, e)
    ensures Spends(ss, f, SetPair(ss, k, Apply(ss[k].pair.value, e)), f, w)
  {
    OuterStep(ss[k].pair.value, e, w);
    TotalSame(ss, SetPair(ss, k, Apply(ss[k].pair.value, e)), w);
  }

  lemma ClientSpends(c: Client, a: ClientAct, w: Way)
    requires ClientOk(c) && PairsSound(c.sessions) && c.watch.value && ClientCan(c, a)
    ensures var c' := ClientStep(c, a);
            c'.watch.value && Spends(c.sessions, c.phase.Forwarding?, c'.sessions, c'.phase.Forwarding?, w)
  {
    match a
    case OpenStream => AppendSpends(c.sessions, c.phase.addr, c.streams, w);
    case StartPair(clock) =>
      StartSpends(c.sessions, clock, c.watch, c.seen, Source0(c.protocol, c.queue, Some(c.phase.addr)), w);
    case PairStep(e) => UpdateSpends(c.sessions, e, w);
    case Arrives(x) =>
      if c.phase.Forwarding? {
        UpdateSpends(c.sessions, Arrive(Up, x), w);
      }
    case Disconnect =>
      if c.phase.Forwarding? {
        UpdateSpends(c.sessions, SendStop, w);
      }
    case _ =>
  }

  lemma HostSpends(h: Host, a: HostAct, n: nat, packets: seq<Packet>, codec: Codec, w: Way)
    requires HostOk(h) && PairsSound(h.sessions) && h.watch.value && HostCan(h, a, n, packets)
    ensures var h' := HostStep(h, a, n, packets, codec);
            h'.watch.value && Spends(h.sessions, h.phase.HForwarding?, h'.sessions, h'.phase.HForwarding?, w)
  {
    match a
    case HRegister => AppendSpends(h.sessions, h.phase.addr, h.phase.stream, w);
    case HStartPair(clock) =>
      StartSpends(h.sessions, clock, h.watch, h.seen, Source0(h.protocol, [], None), w);
    case HPairStep(e) => UpdateSpends(h.sessions, e, w);
    case HStop =>
      if h.phase.HForwarding? {
        UpdateSpends(h.sessions, SendStop, w);
      }
    case _ =>
  }

  lemma DeliverySpends(from: seq<Session>, i: nat, to: seq<Session>, f: bool, j: nat, n: nat, w: Way)
    requires CanDeliver(from, i, to, j, n)
    ensures Spends(to, f, Delivery(from, i, to, j, n), f, w)
  {
    InputSpends(to, f, j, Incoming(from, i, to, j, n), w);
  }

  lemma StepClientSpends(s: System, t: Step, codec: Codec, w: Way)
    requires ClientOk(s.client) && PairsSound(s.client.sessions) && s.client.watch.value && Can(s, t)
    ensures var c, c' := s.client, Next(s, t, codec).client;
            c'.watch.value && Spends(c.sessions, c.phase.Forwarding?, c'.sessions, c'.phase.Forwarding?, w)
  {
    match t
    case ByClient(a) => ClientSpends(s.client, a, w);
    case ByHost(a) =>
    case Deliver(toHost, i, j, n) =>
      if !toHost {
        DeliverySpends(s.host.sessions, i, s.client.sessions, s.client.phase.Forwarding?, j, n, w);
      }
    case Finish(toHost, i, j) =>
      if !toHost {
        InputSpends(s.client.sessions, s.client.phase.Forwarding?, j, Close(Down), w);
      }
  }

  lemma StepHostSpends(s: System, t: Step, codec: Codec, w: Way)
    requires HostOk(s.host) && PairsSound(s.host.sessions) && s.host.watch.value && Can(s, t)
    ensures var h, h' := s.host, Next(s, t, codec).host;
            h'.watch.value && Spends(h.sessions, h.phase.HForwarding?, h'.sessions, h'.phase.HForwarding?, w)
  {
    match t
    case ByClient(a) =>
    case ByHost(a) => HostSpends(s.host, a, s.client.streams, s.packets, codec, w);
    case Deliver(toHost, i, j, n) =>
      if toHost {
        DeliverySpends(s.client.sessions, i, s.host.sessions, s.host.phase.HForwarding?, j, n, w);
      }
    case Finish(toHost, i, j) =>
      if toHost {
        InputSpends(s.host.sessions, s.host.phase.HForwarding?, j, Close(Down), w);
      }
  }

  lemma {:induction false} RunSpends(s: System, ts: seq<Step>, codec: Codec, w: Way)
    requires Lawful(codec) && Paired(s, codec) && Linked(s) && Healthy(s) && Valid(s, ts, codec)
    ensures var c, c' := s.client, After(s, ts, codec).client;
            c.watch.value ==> Spends(c.sessions, c.phase.Forwarding?, c'.sessions, c'.phase.Forwarding?, w)
    ensures var h, h' := s.host, After(s, ts, codec).host;
            h.watch.value ==> Spends(h.sessions, h.phase.HForwarding?, h'.sessions, h'.phase.HForwarding?, w)
    decreases |ts|
  {
    if ts != [] {
      if s.client.watch.value {
        StepClientSpends(s, ts[0], codec, w);
      }
      if s.host.watch.value {
        StepHostSpends(s, ts[0], codec, w);
      }
      StepPaired(s, ts[0], codec);
      StepLinked(s, ts[0], codec);
      StepHealthy(s, ts[0], codec);
      RunSpends(Next(s, ts[0], codec), ts[1..], codec, w);
    }
  }

  lemma BudgetIsSmall(p: Pair, w: Way)
    requires Sound(p)
    ensures Budget(p.Get(w)) <= BUFFER_SIZE
  {
  }

  /**
   Once the client was disconnected, or the host stopped, all present and future sessions of that side
   together write at most 1024 further bytes in each direction, and none if none was being forwarded.
   */
  lemma StoppedSideWritesOneChunk(cp: Protocol, hp: Protocol, ts: seq<Step>, us: seq<Step>, codec: Codec, w: Way)
    requires Lawful(codec) && Valid(Initial(cp, hp), ts, codec)
    requires Valid(After(Initial(cp, hp), ts, codec), us, codec)
    ensures var s := After(Initial(cp, hp), ts, codec);
            var s' := After(s, us, codec);
            && (ByClient(Disconnect) in ts ==>
                  Total(s'.client.sessions, w) <= Total(s.client.sessions, w) + if s.client.phase.Forwarding? then 1024 else 0)
            && (ByHost(HStop) in ts ==>
                  Total(s'.host.sessions, w) <= Total(s.host.sessions, w) + if s.host.phase.HForwarding? then 1024 else 0)
  {
    var s := After(Initial(cp, hp), ts, codec);
    StopReachesForwarders(cp, hp, ts, codec);
    EveryRun(cp, hp, ts, codec);
    RunSpends(s, us, codec, w);
    if s.client.phase.Forwarding? {
      BudgetIsSmall(CurrentPair(s.client.sessions), w);
    }
    if s.host.phase.HForwarding? {
      BudgetIsSmall(CurrentPair(s.host.sessions), w);
    }
  }
}
