/** Nothing stands in the way of service: every sequence of connections can be served, byte for byte. */
module Workloads {
  import opened Common
  import opened Forwarder
  import opened Fidelity
  import opened Stopping
  import opened Completeness
  import opened Tunnel
  import opened Isolation

  /**
   What an application sends and the service answers, write by write or datagram by datagram, and how
   the tunnel's stream divides the bytes on their way there and back.
   */
  datatype Request = Request(from: Addr, data: seq<seq<Byte>>, reply: seq<seq<Byte>>,
                             there: seq<seq<Byte>>, back: seq<seq<Byte>>)

  /** Datagrams of one buffer at most, and not empty. */
  predicate Fits(pieces: seq<seq<Byte>>) {
    forall i :: 0 <= i < |pieces| ==> 1 <= |pieces[i]| <= 1024
  }

  predicate Sensible(req: Request, cp: Protocol, hp: Protocol) {
    && Joined(req.there) == Joined(req.data) && Joined(req.back) == Joined(req.reply)
    && (cp == Udp ==> Fits(req.data)) && (hp == Udp ==> Fits(req.reply))
  }

  // ---- what is supplied to a loop ---------------------------------------------------------

  /** These datagrams of `a`, and the empty one that ends a session. */
  function Mails(pieces: seq<seq<Byte>>, a: Addr): seq<Datagram> {
    if pieces == [] then [Datagram(a, [])] else [Datagram(a, pieces[0])] + Mails(pieces[1..], a)
  }

  lemma {:induction false} MailsSupply(pieces: seq<seq<Byte>>, a: Addr, own: Option<Addr>)
    requires Fits(pieces) && (own.None? || own.value == a)
    ensures EndsEmpty(Mails(pieces, a), own) && Payload(Mails(pieces, a), own) == Joined(pieces)
    ensures Mails(pieces, a) != [] && Mails(pieces, a)[0].from == a
  {
    if pieces != [] {
      assert forall i :: 0 <= i < |pieces[1..]| ==> pieces[1..][i] == pieces[i + 1];
      MailsSupply(pieces[1..], a, own);
      assert Mails(pieces, a)[1..] == Mails(pieces[1..], a);
      assert Cut(pieces[0]) == pieces[0];
    }
  }

  predicate AllHostLocal(es: seq<Event>) {
    forall i :: 0 <= i < |es| ==> Local(es[i]) || (es[i].Arrive? && es[i].way == Up)
  }

  predicate AllLocal(es: seq<Event>) {
    forall i :: 0 <= i < |es| ==> Local(es[i])
  }

  /** From `p` to `q` only the upward source was supplied, with these bytes in all. */
  predicate SuppliedUp(p: Pair, q: Pair, bytes: seq<Byte>) {
    && q == p.(up := q.up) && q.up == p.up.(src := q.up.src, fed := bytes)
    && Supplied(q.up.src) && Sound(q)
  }

  /** The pair after `bytes` arrived on an empty upward stream. */
  function Holding(p: Pair, bytes: seq<Byte>, closed: bool): Pair {
    p.(up := p.up.(src := Stream(bytes, closed), fed := bytes))
  }

  lemma FeedIsHolding(p: Pair, bytes: seq<Byte>)
    requires p.up.src == Stream([], false) && p.up.fed == []
    ensures Apply(p, Feed(Up, bytes)) == Holding(p, bytes, false)
    ensures Apply(Holding(p, bytes, false), Close(Up)) == Holding(p, bytes, true)
  {
    assert [] + bytes == bytes;
  }

  lemma HoldingSound(p: Pair, bytes: seq<Byte>)
    requires Sound(p) && p.up.src == Stream([], false) && p.up.fed == []
    ensures Sound(Holding(p, bytes, true))
  {
    FeedIsHolding(p, bytes);
    StepSound(p, Feed(Up, bytes));
    StepSound(Holding(p, bytes, false), Close(Up));
  }

  lemma SuppliesStream(p: Pair, bytes: seq<Byte>) returns (es: seq<Event>)
    requires Sound(p) && p.up.src == Stream([], false) && p.up.fed == []
    ensures ValidRun(p, es) && AllLocal(es) && SuppliedUp(p, Run(p, es), bytes)
  {
    FeedIsHolding(p, bytes);
    HoldingSound(p, bytes);
    RunCons(Holding(p, bytes, false), Close(Up), []);
    es := [Close(Up)] + [];
    RunCons(p, Feed(Up, bytes), es);
    es := [Feed(Up, bytes)] + es;
    assert Run(p, es) == Holding(p, bytes, true);
  }

  /** The upward source of `q` is that of `p` with these datagrams behind. */
  predicate Mailed(p: Pair, q: Pair, mails: seq<Datagram>) {
    && p.up.src.Socket? && q == p.(up := q.up) && Sound(q)
    && q.up == p.up.(src := p.up.src.(queue := p.up.src.queue + mails), fed := p.up.fed + Payload(mails, p.up.src.own))
  }

  lemma MailArrives(p: Pair, x: Datagram)
    requires Sound(p) && p.up.src.Socket?
    ensures Mailed(p, Apply(p, Arrive(Up, x)), [x])
  {
    StepSound(p, Arrive(Up, x));
    var first := if p.up.src.Accepts(x) then Cut(x.data) else [];
    assert [x][1..] == [] && first + [] == first && p.up.fed + [] == p.up.fed;
    assert Payload([x], p.up.src.own) == first;
  }

  lemma MailedOn(p: Pair, q: Pair, r: Pair, x: Datagram, mails: seq<Datagram>)
    requires Mailed(p, q, [x]) && Mailed(q, r, mails)
    ensures Mailed(p, r, [x] + mails)
  {
    Regroup(p.up.src.queue, [x], mails);
    PayloadCons(x, mails, p.up.src.own);
    Regroup(p.up.fed, Payload([x], p.up.src.own), Payload(mails, p.up.src.own));
  }

  lemma PayloadCons(x: Datagram, mails: seq<Datagram>, own: Option<Addr>)
    ensures Payload([x] + mails, own) == Payload([x], own) + Payload(mails, own)
  {
    assert ([x] + mails)[1..] == mails && [x][1..] == [];
    var first := if own.None? || x.from == own.value then Cut(x.data) else [];
    assert first + [] == first;
  }

  lemma {:induction false} SuppliesMails(p: Pair, mails: seq<Datagram>) returns (es: seq<Event>)
    requires Sound(p) && p.up.src.Socket?
    ensures ValidRun(p, es) && AllHostLocal(es) && Mailed(p, Run(p, es), mails)
    decreases |mails|
  {
    if mails == [] {
      assert ValidRun(p, []) && p.up.src.queue + [] == p.up.src.queue && p.up.fed + [] == p.up.fed;
      es := [];
    } else {
      var e := Arrive(Up, mails[0]);
      var q := Apply(p, e);
      MailArrives(p, mails[0]);
      es := SuppliesMails(q, mails[1..]);
      MailedOn(p, q, Run(q, es), mails[0], mails[1..]);
      assert [mails[0]] + mails[1..] == mails;
      RunCons(p, e, es);
      es := [e] + es;
    }
  }

  /** What a service does to the host's local source, by protocol. */
  lemma SuppliesHost(p: Pair, hp: Protocol, pieces: seq<seq<Byte>>, a: Addr) returns (es: seq<Event>)
    requires Sound(p) && p.up.src == Source0(hp, [], None) && p.up.fed == [] && (hp == Udp ==> Fits(pieces))
    ensures ValidRun(p, es) && AllHostLocal(es) && SuppliedUp(p, Run(p, es), Joined(pieces))
  {
    if hp == Tcp {
      es := SuppliesStream(p, Joined(pieces));
    } else {
      MailsSupply(pieces, a, None);
      es := SuppliesMails(p, Mails(pieces, a));
      assert [] + Mails(pieces, a) == Mails(pieces, a) && [] + Joined(pieces) == Joined(pieces);
    }
  }

  // ---- one pair ---------------------------------------------------------------------------

  /** A downward loop that has not begun. */
  predicate JustStarted(d: Direction, watch: Watch) {
    d.phase.Top? && d.src == Stream([], false) && d.fed == [] && !watch.Ready(d.seen)
  }

  /** A loop whose source is supplied takes it all and ends. */
  lemma TakesAll(p: Pair, w: Way) returns (es: seq<Event>)
    requires Sound(p) && p.Get(w).phase.Top? && Supplied(p.Get(w).src) && !p.watch.Ready(p.Get(w).seen)
    ensures ValidRun(p, es) && AllLocal(es)
    ensures var d, q := p.Get(w), Run(p, es);
            && Sound(q) && q.Get(w).phase == Done(SourceEnded) && q.Get(w).Delivered() == d.fed && Waits(q.Get(w).src) == 0
            && q.Get(w).src.Stream? == d.src.Stream? && q.Get(Opposite(w)) == p.Get(Opposite(w)) && q.watch == p.watch
  {
    es := DrainsToEnd(p, w);
  }

  // ---- both sides forwarding --------------------------------------------------------------

  /** Both sides serve their newest session, over the same stream. */
  predicate Serving(s: System) {
    && s.client.phase.Forwarding? && s.client.sessions != []
    && s.host.phase.HForwarding? && |s.host.sessions| == |s.client.sessions|
    && Last(s.client.sessions).stream == Last(s.host.sessions).stream
  }

  /** The same with these forwarders. */
  function With(s: System, c: Pair, h: Pair): System
    requires Serving(s)
  {
    var n := |s.client.sessions| - 1;
    System(s.client.(sessions := SetPair(s.client.sessions, n, c)), s.packets, s.host.(sessions := SetPair(s.host.sessions, n, h)))
  }

  lemma WithClientStep(s: System, c: Pair, h: Pair, e: Event, codec: Codec)
    requires Serving(s) && Local(e) && Enabled(c, e)
    ensures Can(With(s, c, h), ByClient(PairStep(e)))
    ensures Next(With(s, c, h), ByClient(PairStep(e)), codec) == With(s, Apply(c, e), h)
  {
    var n := |s.client.sessions| - 1;
    assert SetPair(SetPair(s.client.sessions, n, c), n, Apply(c, e)) == SetPair(s.client.sessions, n, Apply(c, e));
  }

  lemma WithHostStep(s: System, c: Pair, h: Pair, e: Event, codec: Codec)
    requires Serving(s) && (Local(e) || (e.Arrive? && e.way == Up)) && Enabled(h, e)
    ensures Can(With(s, c, h), ByHost(HPairStep(e)))
    ensures Next(With(s, c, h), ByHost(HPairStep(e)), codec) == With(s, c, Apply(h, e))
  {
    var n := |s.client.sessions| - 1;
    assert SetPair(SetPair(s.host.sessions, n, h), n, Apply(h, e)) == SetPair(s.host.sessions, n, Apply(h, e));
  }

  lemma {:induction false} ClientMoves(s0: System, s: System, c: Pair, h: Pair, es: seq<Event>, codec: Codec)
    requires Serving(s) && Leads(s0, With(s, c, h), codec) && ValidRun(c, es) && AllLocal(es)
    ensures Leads(s0, With(s, Run(c, es), h), codec)
    decreases |es|
  {
    if es != [] {
      assert Local(es[0]) && AllLocal(es[1..]);
      WithClientStep(s, c, h, es[0], codec);
      LeadsNext(s0, With(s, c, h), ByClient(PairStep(es[0])), codec);
      ClientMoves(s0, s, Apply(c, es[0]), h, es[1..], codec);
    }
  }

  lemma {:induction false} HostMoves(s0: System, s: System, c: Pair, h: Pair, es: seq<Event>, codec: Codec)
    requires Serving(s) && Leads(s0, With(s, c, h), codec) && ValidRun(h, es) && AllHostLocal(es)
    ensures Leads(s0, With(s, c, Run(h, es)), codec)
    decreases |es|
  {
    if es != [] {
      assert forall i :: 0 <= i < |es[1..]| ==> es[1..][i] == es[i + 1];
      WithHostStep(s, c, h, es[0], codec);
      LeadsNext(s0, With(s, c, h), ByHost(HPairStep(es[0])), codec);
      HostMoves(s0, s, c, Apply(h, es[0]), es[1..], codec);
    }
  }

  /** A pair after more bytes, or the end, arrived from the tunnel. */
  function Given(p: Pair, bytes: seq<Byte>): Pair
    requires p.down.src.Stream?
  {
    p.(down := Fill(p.down, bytes))
  }

  function Closed(p: Pair): Pair
    requires p.down.src.Stream?
  {
    p.(down := Shut(p.down))
  }

  /** What the other side wrote is what has arrived and, piece by piece, what is to come. */
  predicate Underway(from: Pair, to: Pair, pieces: seq<seq<Byte>>) {
    && from.up.phase.Done? && to.down.src.Stream? && !to.down.src.closed
    && from.up.Delivered() == to.down.fed + Joined(pieces)
  }

  lemma NextPiece(from: Pair, to: Pair, pieces: seq<seq<Byte>>)
    requires Underway(from, to, pieces) && pieces != []
    ensures |to.down.fed| + |pieces[0]| <= |from.up.Delivered()|
    ensures from.up.Delivered()[|to.down.fed|..|to.down.fed| + |pieces[0]|] == pieces[0]
    ensures Underway(from, Given(to, pieces[0]), pieces[1..])
  {
    Regroup(to.down.fed, pieces[0], Joined(pieces[1..]));
  }

  lemma SetTwice(ss: seq<Session>, n: nat, p: Pair, q: Pair)
    requires n < |ss|
    ensures SetPair(SetPair(ss, n, p), n, q) == SetPair(ss, n, q)
  {
  }

  lemma DeliverToHost(s: System, c: Pair, h: Pair, piece: seq<Byte>, codec: Codec)
    requires Serving(s) && h.down.src.Stream? && !h.down.src.closed
    requires |h.down.fed| + |piece| <= |c.up.Delivered()|
    requires c.up.Delivered()[|h.down.fed|..|h.down.fed| + |piece|] == piece
    ensures var n := |s.client.sessions| - 1;
            && Can(With(s, c, h), Deliver(true, n, n, |piece|))
            && Next(With(s, c, h), Deliver(true, n, n, |piece|), codec) == With(s, c, Given(h, piece))
  {
    SetTwice(s.host.sessions, |s.client.sessions| - 1, h, Given(h, piece));
  }

  lemma DeliverToClient(s: System, c: Pair, h: Pair, piece: seq<Byte>, codec: Codec)
    requires Serving(s) && c.down.src.Stream? && !c.down.src.closed
    requires |c.down.fed| + |piece| <= |h.up.Delivered()|
    requires h.up.Delivered()[|c.down.fed|..|c.down.fed| + |piece|] == piece
    ensures var n := |s.client.sessions| - 1;
            && Can(With(s, c, h), Deliver(false, n, n, |piece|))
            && Next(With(s, c, h), Deliver(false, n, n, |piece|), codec) == With(s, Given(c, piece), h)
  {
    SetTwice(s.client.sessions, |s.client.sessions| - 1, c, Given(c, piece));
  }

  lemma FinishToHost(s: System, c: Pair, h: Pair, codec: Codec)
    requires Serving(s) && Underway(c, h, [])
    ensures var n := |s.client.sessions| - 1;
            && Can(With(s, c, h), Finish(true, n, n))
            && Next(With(s, c, h), Finish(true, n, n), codec) == With(s, c, Closed(h))
  {
    assert h.down.fed + [] == h.down.fed;
    SetTwice(s.host.sessions, |s.client.sessions| - 1, h, Closed(h));
  }

  lemma FinishToClient(s: System, c: Pair, h: Pair, codec: Codec)
    requires Serving(s) && Underway(h, c, [])
    ensures var n := |s.client.sessions| - 1;
            && Can(With(s, c, h), Finish(false, n, n))
            && Next(With(s, c, h), Finish(false, n, n), codec) == With(s, Closed(c), h)
  {
    assert c.down.fed + [] == c.down.fed;
    SetTwice(s.client.sessions, |s.client.sessions| - 1, c, Closed(c));
  }

  /** From `p` to `q` only input from the tunnel came, up to its end. */
  predicate GivenAll(p: Pair, q: Pair, sent: seq<Byte>) {
    && q == p.(down := q.down) && q.down == p.down.(src := q.down.src, fed := sent)
    && q.down.src.Stream? && q.down.src.closed && Sound(q)
  }

  lemma GivenSound(p: Pair, bytes: seq<Byte>)
    requires Sound(p) && p.down.src.Stream? && !p.down.src.closed
    ensures Sound(Given(p, bytes)) && Sound(Closed(p))
  {
    StepSound(p, Feed(Down, bytes));
    StepSound(p, Close(Down));
  }

  lemma {:induction false} CarriesToHost(s0: System, s: System, c: Pair, h: Pair, pieces: seq<seq<Byte>>, codec: Codec)
    returns (h': Pair)
    requires Serving(s) && Leads(s0, With(s, c, h), codec) && Underway(c, h, pieces) && Sound(h)
    ensures Leads(s0, With(s, c, h'), codec) && GivenAll(h, h', c.up.Delivered())
    decreases |pieces|
  {
    var n := |s.client.sessions| - 1;
    if pieces == [] {
      FinishToHost(s, c, h, codec);
      LeadsNext(s0, With(s, c, h), Finish(true, n, n), codec);
      GivenSound(h, []);
      assert h.down.fed + [] == h.down.fed;
      h' := Closed(h);
    } else {
      NextPiece(c, h, pieces);
      DeliverToHost(s, c, h, pieces[0], codec);
      LeadsNext(s0, With(s, c, h), Deliver(true, n, n, |pieces[0]|), codec);
      GivenSound(h, pieces[0]);
      h' := CarriesToHost(s0, s, c, Given(h, pieces[0]), pieces[1..], codec);
    }
  }

  lemma {:induction false} CarriesToClient(s0: System, s: System, c: Pair, h: Pair, pieces: seq<seq<Byte>>, codec: Codec)
    returns (c': Pair)
    requires Serving(s) && Leads(s0, With(s, c, h), codec) && Underway(h, c, pieces) && Sound(c)
    ensures Leads(s0, With(s, c', h), codec) && GivenAll(c, c', h.up.Delivered())
    decreases |pieces|
  {
    var n := |s.client.sessions| - 1;
    if pieces == [] {
      FinishToClient(s, c, h, codec);
      LeadsNext(s0, With(s, c, h), Finish(false, n, n), codec);
      GivenSound(c, []);
      assert c.down.fed + [] == c.down.fed;
      c' := Closed(c);
    } else {
      NextPiece(h, c, pieces);
      DeliverToClient(s, c, h, pieces[0], codec);
      LeadsNext(s0, With(s, c, h), Deliver(false, n, n, |pieces[0]|), codec);
      GivenSound(c, pieces[0]);
      c' := CarriesToClient(s0, s, Given(c, pieces[0]), h, pieces[1..], codec);
    }
  }

  /** A pair whose upward source is supplied with `bytes`, and that has not begun. */
  predicate Loaded1(p: Pair, bytes: seq<Byte>) {
    && Sound(p) && JustStarted(p.down, p.watch)
    && p.up.phase.Top? && Supplied(p.up.src) && p.up.fed == bytes && !p.watch.Ready(p.up.seen)
  }

  /** Both pairs have taken all their local sources supplied. */
  predicate Took(p: Pair, q: Pair, bytes: seq<Byte>) {
    && Sound(q) && q.up.phase == Done(SourceEnded) && q.up.Delivered() == bytes && Waits(q.up.src) == 0
    && q.up.src.Stream? == p.up.src.Stream? && q.down == p.down && q.watch == p.watch
  }

  lemma BothTake(s0: System, s: System, c: Pair, h: Pair, data: seq<Byte>, reply: seq<Byte>, codec: Codec)
    returns (c': Pair, h': Pair)
    requires Serving(s) && Leads(s0, With(s, c, h), codec) && Loaded1(c, data) && Loaded1(h, reply)
    ensures Leads(s0, With(s, c', h'), codec) && Took(c, c', data) && Took(h, h', reply)
  {
    var es := TakesAll(c, Up);
    ClientMoves(s0, s, c, h, es, codec);
    c' := Run(c, es);
    es := TakesAll(h, Up);
    HostMoves(s0, s, c', h, es, codec);
    h' := Run(h, es);
  }

  /** Both loops of `q` have ended; downwards it delivered `bytes`. */
  predicate HandedOn(p: Pair, q: Pair, bytes: seq<Byte>) {
    q.Joined() && q.down.Delivered() == bytes && q.up == p.up && q.watch == p.watch
  }

  lemma HostHandsOn(s0: System, s: System, c: Pair, h: Pair, pieces: seq<seq<Byte>>, codec: Codec) returns (h': Pair)
    requires Serving(s) && Leads(s0, With(s, c, h), codec) && Sound(h)
    requires c.up.phase.Done? && c.up.Delivered() == Joined(pieces) && h.up.phase.Done? && JustStarted(h.down, h.watch)
    ensures Leads(s0, With(s, c, h'), codec) && HandedOn(h, h', Joined(pieces))
  {
    assert [] + Joined(pieces) == Joined(pieces);
    var h1 := CarriesToHost(s0, s, c, h, pieces, codec);
    var es := TakesAll(h1, Down);
    HostMoves(s0, s, c, h1, es, codec);
    h' := Run(h1, es);
  }

  lemma ClientHandsOn(s0: System, s: System, c: Pair, h: Pair, pieces: seq<seq<Byte>>, codec: Codec) returns (c': Pair)
    requires Serving(s) && Leads(s0, With(s, c, h), codec) && Sound(c)
    requires h.up.phase.Done? && h.up.Delivered() == Joined(pieces) && c.up.phase.Done? && JustStarted(c.down, c.watch)
    ensures Leads(s0, With(s, c', h), codec) && HandedOn(c, c', Joined(pieces))
  {
    assert [] + Joined(pieces) == Joined(pieces);
    var c1 := CarriesToClient(s0, s, c, h, pieces, codec);
    var es := TakesAll(c1, Down);
    ClientMoves(s0, s, c1, h, es, codec);
    c' := Run(c1, es);
  }

  /** Both pairs run to their ends, having carried the data to the service and the reply back. */
  lemma Exchange(s0: System, s: System, c: Pair, h: Pair, there: seq<seq<Byte>>, back: seq<seq<Byte>>, codec: Codec)
    returns (c': Pair, h': Pair)
    requires Serving(s) && Leads(s0, With(s, c, h), codec)
    requires Loaded1(c, Joined(there)) && Loaded1(h, Joined(back))
    ensures Leads(s0, With(s, c', h'), codec) && c'.Joined() && h'.Joined() && c'.watch == c.watch && h'.watch == h.watch
    ensures h'.down.Delivered() == Joined(there) && c'.down.Delivered() == Joined(back)
    ensures c'.up.src.Stream? == c.up.src.Stream? && Waits(c'.up.src) == 0
  {
    var c1, h1 := BothTake(s0, s, c, h, Joined(there), Joined(back), codec);
    h' := HostHandsOn(s0, s, c1, h1, there, codec);
    c' := ClientHandsOn(s0, s, c1, h', back, codec);
  }

  // ---- opening a session ------------------------------------------------------------------

  /** Between two sessions, with as many served as requested, nothing waiting and nobody told to stop. */
  predicate Between(s: System, cp: Protocol, hp: Protocol) {
    var c, h := s.client, s.host;
    && c.protocol == cp && c.phase.Listening? && c.registry == map[] && !c.watch.Ready(c.seen) && c.queue == []
    && h.protocol == hp && h.phase.Accepting? && h.registry == map[] && !h.watch.Ready(h.seen)
    && FreshReceiver(c.watch, c.seen) && FreshReceiver(h.watch, h.seen)
    && |c.sessions| == |h.sessions| == |s.packets| == c.streams == h.streams == h.packets
  }

  /** The client after it opened a session for `a`, sent the request and registered it. */
  function Requested1(c: Client, a: Addr): Client {
    c.(phase := Registered(a), sessions := c.sessions + [Session(a, c.streams, None)], streams := c.streams + 1,
       registry := c.registry[a := |c.sessions|])
  }

  /** A listening client with a connection of `a`, or a datagram of `a`, to serve. */
  predicate Offered(c: Client, a: Addr) {
    && c.phase.Listening? && c.registry == map[] && !c.watch.Ready(c.seen)
    && (c.protocol == Udp ==> c.queue != [] && c.queue[0].from == a)
  }

  lemma OpensFor(s0: System, s: System, a: Addr, codec: Codec)
    requires Leads(s0, s, codec) && Offered(s.client, a)
    ensures Leads(s0, s.(client := Requested1(s.client, a).(phase := Opened(a), registry := s.client.registry)), codec)
  {
    var c := s.client;
    LeadsNext(s0, s, ByClient(CheckStop), codec);
    var s1 := s.(client := c.(phase := Checked));
    LeadsNext(s0, s1, ByClient(Pick(a)), codec);
    var s2 := s.(client := c.(phase := Picked(a)));
    LeadsNext(s0, s2, ByClient(OpenStream), codec);
  }

  lemma SendsPacket(s0: System, s: System, a: Addr, codec: Codec)
    requires Leads(s0, s, codec) && s.client.phase == Opened(a)
    ensures Leads(s0, s.(client := s.client.(phase := Sent(a)), packets := s.packets + [Packet(codec.encode(a), true)]), codec)
  {
    var c, ps := s.client, s.packets;
    LeadsNext(s0, s, ByClient(OpenPacket), codec);
    var s1 := s.(client := c.(phase := Sending(a)), packets := ps + [Packet([], false)]);
    LeadsNext(s0, s1, ByClient(WritePacket), codec);
    assert s1.packets[|ps| := Packet(codec.encode(a), false)] == ps + [Packet(codec.encode(a), false)];
    var s2 := s.(client := c.(phase := Written(a)), packets := ps + [Packet(codec.encode(a), false)]);
    LeadsNext(s0, s2, ByClient(FinishPacket), codec);
    assert s2.packets[|ps| := Packet(codec.encode(a), true)] == ps + [Packet(codec.encode(a), true)];
  }

  lemma ClientRequests(s0: System, s: System, a: Addr, codec: Codec)
    requires Leads(s0, s, codec) && Offered(s.client, a)
    ensures Leads(s0, s.(client := Requested1(s.client, a), packets := s.packets + [Packet(codec.encode(a), true)]), codec)
  {
    OpensFor(s0, s, a, codec);
    var s1 := s.(client := Requested1(s.client, a).(phase := Opened(a), registry := s.client.registry));
    SendsPacket(s0, s1, a, codec);
    var s2 := s1.(client := s1.client.(phase := Sent(a)), packets := s.packets + [Packet(codec.encode(a), true)]);
    LeadsNext(s0, s2, ByClient(Register), codec);
    assert Next(s2, ByClient(Register), codec).client == Requested1(s.client, a);
  }

  /** The host reads the packet it accepted to its end, 1024 bytes at a time. */
  lemma {:induction false} HostReads(s0: System, s: System, stream: nat, buf: seq<Byte>, codec: Codec)
    requires 1 <= s.host.packets <= |s.packets| && buf <= s.packets[s.host.packets - 1].bytes
    requires Leads(s0, s.(host := s.host.(phase := Receiving(stream, buf))), codec)
    ensures Leads(s0, s.(host := s.host.(phase := Receiving(stream, s.packets[s.host.packets - 1].bytes))), codec)
    decreases |s.packets[s.host.packets - 1].bytes| - |buf|
  {
    var bytes := s.packets[s.host.packets - 1].bytes;
    if |buf| == |bytes| {
      assert buf == bytes;
    } else {
      var n := Min(|bytes| - |buf|, 1024);
      LeadsNext(s0, s.(host := s.host.(phase := Receiving(stream, buf))), ByHost(ReadPacket(n)), codec);
      assert buf + bytes[|buf|..|buf| + n] == bytes[..|buf| + n];
      HostReads(s0, s, stream, bytes[..|buf| + n], codec);
    }
  }

  /** The host after it accepted the stream and the request of `a`, and registered the session. */
  function Registered1(h: Host, a: Addr): Host {
    h.(phase := HRegistered(a), streams := h.streams + 1, packets := h.packets + 1,
       sessions := h.sessions + [Session(a, h.streams, None)], registry := h.registry[Unspecified(a) := |h.sessions|])
  }

  lemma HostRegisters(s0: System, s: System, a: Addr, codec: Codec)
    requires Lawful(codec) && Leads(s0, s, codec) && s.host.phase.Accepting?
    requires s.host.streams < s.client.streams && s.host.packets < |s.packets|
    requires s.packets[s.host.packets] == Packet(codec.encode(a), true)
    ensures Leads(s0, s.(host := Registered1(s.host, a)), codec)
  {
    var h := s.host;
    LeadsNext(s0, s, ByHost(AcceptStream), codec);
    var s1 := s.(host := h.(phase := AwaitPacket(h.streams), streams := h.streams + 1));
    LeadsNext(s0, s1, ByHost(AcceptPacket), codec);
    var s2 := s.(host := h.(phase := Receiving(h.streams, []), streams := h.streams + 1, packets := h.packets + 1));
    HostReads(s0, s2, h.streams, [], codec);
    var s3 := s.(host := s2.host.(phase := Receiving(h.streams, codec.encode(a))));
    assert codec.decode(codec.encode(a)) == Some(a);
    LeadsNext(s0, s3, ByHost(Decode), codec);
    var s4 := s.(host := s2.host.(phase := Tunnel.Requested(h.streams, a)));
    assert Next(s3, ByHost(Decode), codec) == s4;
    LeadsNext(s0, s4, ByHost(HRegister), codec);
  }

  /** For a UDP tunnel, the application's datagrams arrive at the listener's socket. */
  lemma {:induction false} MailsArrive(s0: System, s: System, mails: seq<Datagram>, codec: Codec)
    requires Leads(s0, s, codec) && s.client.protocol == Udp && s.client.phase.Listening?
    ensures Leads(s0, s.(client := s.client.(queue := s.client.queue + mails, arrivals := s.client.arrivals + mails)), codec)
    decreases |mails|
  {
    var c := s.client;
    if mails == [] {
      assert c.queue + [] == c.queue && c.arrivals + [] == c.arrivals;
    } else {
      LeadsNext(s0, s, ByClient(Arrives(mails[0])), codec);
      var s1 := s.(client := c.(queue := c.queue + [mails[0]], arrivals := c.arrivals + [mails[0]]));
      MailsArrive(s0, s1, mails[1..], codec);
      Regroup(c.queue, [mails[0]], mails[1..]);
      Regroup(c.arrivals, [mails[0]], mails[1..]);
      assert [mails[0]] + mails[1..] == mails;
    }
  }

  /** What an application does before the listener picks its connection, by protocol. */
  function Offer(c: Client, req: Request): Client {
    if c.protocol == Tcp then c
    else c.(queue := Mails(req.data, req.from), arrivals := c.arrivals + Mails(req.data, req.from))
  }

  lemma OffersOne(s0: System, s: System, req: Request, codec: Codec)
    requires Leads(s0, s, codec) && s.client.phase.Listening? && s.client.queue == []
    requires s.client.registry == map[] && !s.client.watch.Ready(s.client.seen)
    requires s.client.protocol == Udp ==> Fits(req.data)
    ensures Leads(s0, s.(client := Offer(s.client, req)), codec) && Offered(Offer(s.client, req), req.from)
  {
    if s.client.protocol == Udp {
      MailsArrive(s0, s, Mails(req.data, req.from), codec);
      MailsSupply(req.data, req.from, Some(req.from));
      assert [] + Mails(req.data, req.from) == Mails(req.data, req.from);
    }
  }

  // ---- one session, and any number --------------------------------------------------------

  /** Session k served this request: the service got the data, the application the reply, nothing else. */
  predicate Answered(cs: seq<Session>, hs: seq<Session>, k: nat, req: Request)
    requires k < |cs| && k < |hs|
  {
    && cs[k].addr == hs[k].addr == req.from
    && hs[k].pair.Some? && hs[k].pair.value.Joined() && hs[k].pair.value.down.Delivered() == Joined(req.data)
    && cs[k].pair.Some? && cs[k].pair.value.Joined() && cs[k].pair.value.down.Delivered() == Joined(req.reply)
  }

  /** Both sides have registered the session of `a`, over the same stream, and nobody was told to stop. */
  predicate BothRegistered(s: System, a: Addr) {
    && s.client.phase == Registered(a) && s.host.phase == HRegistered(a)
    && s.client.sessions != [] && |s.host.sessions| == |s.client.sessions|
    && Last(s.client.sessions).stream == Last(s.host.sessions).stream
    && !s.client.watch.Ready(s.client.seen) && !s.host.watch.Ready(s.host.seen)
    && FreshReceiver(s.client.watch, s.client.seen) && FreshReceiver(s.host.watch, s.host.seen)
  }

  /** The state in which both forward, but for the pairs. */
  function Forwards(s: System, a: Addr): System {
    s.(client := s.client.(phase := Forwarding(a), queue := []), host := s.host.(phase := HForwarding(a)))
  }

  lemma BothStart(s0: System, s: System, a: Addr, codec: Codec) returns (c: Pair, h: Pair)
    requires Leads(s0, s, codec) && BothRegistered(s, a)
    ensures c == Start(0, s.client.watch, s.client.seen, Source0(s.client.protocol, s.client.queue, Some(a))) && Sound(c)
    ensures h == Start(0, s.host.watch, s.host.seen, Source0(s.host.protocol, [], None)) && Sound(h)
    ensures Serving(Forwards(s, a)) && Leads(s0, With(Forwards(s, a), c, h), codec)
  {
    var n := |s.client.sessions| - 1;
    c := Start(0, s.client.watch, s.client.seen, Source0(s.client.protocol, s.client.queue, Some(a)));
    h := Start(0, s.host.watch, s.host.seen, Source0(s.host.protocol, [], None));
    StartSound(0, s.client.watch, s.client.seen, Source0(s.client.protocol, s.client.queue, Some(a)));
    StartSound(0, s.host.watch, s.host.seen, Source0(s.host.protocol, [], None));
    LeadsNext(s0, s, ByClient(StartPair(0)), codec);
    var s1 := s.(client := s.client.(phase := Forwarding(a), queue := [], sessions := SetPair(s.client.sessions, n, c)));
    assert Next(s, ByClient(StartPair(0)), codec) == s1;
    LeadsNext(s0, s1, ByHost(HStartPair(0)), codec);
    assert Next(s1, ByHost(HStartPair(0)), codec) == With(Forwards(s, a), c, h);
  }

  /** The application supplies what it sends: over TCP now, over UDP its datagrams wait already. */
  lemma ClientLoads(c: Pair, cp: Protocol, pieces: seq<seq<Byte>>, a: Addr) returns (es: seq<Event>)
    requires Sound(c) && !c.watch.Ready(c.up.seen) && (cp == Udp ==> Fits(pieces))
    requires c == Start(0, c.watch, c.up.seen, Source0(cp, Mails(pieces, a), Some(a)))
    ensures ValidRun(c, es) && AllLocal(es) && Loaded1(Run(c, es), Joined(pieces))
    ensures Run(c, es).watch == c.watch && (Run(c, es).up.src.Stream? <==> cp == Tcp)
  {
    if cp == Tcp {
      es := SuppliesStream(c, Joined(pieces));
      RunFeeds(c, es, Up);
    } else {
      MailsSupply(pieces, a, Some(a));
      assert ValidRun(c, []);
      es := [];
    }
  }

  lemma HostLoads(h: Pair, hp: Protocol, pieces: seq<seq<Byte>>, a: Addr) returns (es: seq<Event>)
    requires Sound(h) && !h.watch.Ready(h.up.seen) && (hp == Udp ==> Fits(pieces))
    requires h == Start(0, h.watch, h.up.seen, Source0(hp, [], None))
    ensures ValidRun(h, es) && AllHostLocal(es) && Loaded1(Run(h, es), Joined(pieces)) && Run(h, es).watch == h.watch
  {
    es := SuppliesHost(h, hp, pieces, a);
  }

  /** The application and the service supply what they send; both pairs are then loaded. */
  lemma BothSupply(s0: System, s: System, req: Request, c: Pair, h: Pair, codec: Codec) returns (c': Pair, h': Pair)
    requires Serving(s) && Leads(s0, With(s, c, h), codec) && Sound(c) && Sound(h)
    requires Sensible(req, s.client.protocol, s.host.protocol)
    requires !c.watch.Ready(c.up.seen) && !h.watch.Ready(h.up.seen)
    requires c == Start(0, c.watch, c.up.seen, Source0(s.client.protocol, Mails(req.data, req.from), Some(req.from)))
    requires h == Start(0, h.watch, h.up.seen, Source0(s.host.protocol, [], None))
    ensures Leads(s0, With(s, c', h'), codec) && Loaded1(c', Joined(req.there)) && Loaded1(h', Joined(req.back))
    ensures c'.watch == c.watch && h'.watch == h.watch && (c'.up.src.Stream? <==> s.client.protocol == Tcp)
  {
    var es := ClientLoads(c, s.client.protocol, req.data, req.from);
    ClientMoves(s0, s, c, h, es, codec);
    c' := Run(c, es);
    es := HostLoads(h, s.host.protocol, req.reply, req.from);
    HostMoves(s0, s, c', h, es, codec);
    h' := Run(h, es);
  }

  /** The state after both sides joined and deregistered. */
  function Joins(s: System, c: Pair, h: Pair): System
    requires Serving(s)
  {
    var t := With(s, c, h);
    t.(client := t.client.(phase := Listening, registry := s.client.registry - {s.client.phase.addr}),
       host := t.host.(phase := Accepting, registry := s.host.registry - {Unspecified(s.host.phase.addr)}))
  }

  lemma BothJoin(s0: System, s: System, c: Pair, h: Pair, codec: Codec)
    requires Serving(s) && Leads(s0, With(s, c, h), codec) && c.Joined() && h.Joined() && Waits(c.up.src) == 0
    requires s.client.queue == []
    ensures Leads(s0, Joins(s, c, h), codec)
  {
    var t := With(s, c, h);
    LeadsNext(s0, t, ByClient(Join), codec);
    var t1 := t.(client := t.client.(phase := Listening, registry := s.client.registry - {s.client.phase.addr}));
    assert WaitingQueue(t.client) == [];
    assert Next(t, ByClient(Join), codec) == t1;
    LeadsNext(s0, t1, ByHost(HJoin), codec);
  }

  lemma OpensOne(s0: System, s: System, a: Addr, codec: Codec)
    requires Lawful(codec) && Leads(s0, s, codec) && Offered(s.client, a) && s.host.phase.Accepting?
    requires s.host.streams == s.client.streams && s.host.packets == |s.packets|
    ensures Leads(s0, System(Requested1(s.client, a), s.packets + [Packet(codec.encode(a), true)], Registered1(s.host, a)), codec)
  {
    ClientRequests(s0, s, a, codec);
    var s1 := s.(client := Requested1(s.client, a), packets := s.packets + [Packet(codec.encode(a), true)]);
    HostRegisters(s0, s1, a, codec);
  }

  /** From the registration to the end of the session. */
  lemma ServesRegistered(s0: System, s: System, req: Request, codec: Codec) returns (c: Pair, h: Pair)
    requires Leads(s0, s, codec) && BothRegistered(s, req.from) && Sensible(req, s.client.protocol, s.host.protocol)
    requires s.client.protocol == Udp ==> s.client.queue == Mails(req.data, req.from)
    ensures Serving(Forwards(s, req.from)) && Leads(s0, Joins(Forwards(s, req.from), c, h), codec)
    ensures c.Joined() && h.Joined()
    ensures h.down.Delivered() == Joined(req.data) && c.down.Delivered() == Joined(req.reply)
  {
    var s1 := Forwards(s, req.from);
    var c0, h0 := BothStart(s0, s, req.from, codec);
    var c1, h1 := BothSupply(s0, s1, req, c0, h0, codec);
    c, h := Exchange(s0, s1, c1, h1, req.there, req.back, codec);
    BothJoin(s0, s1, c, h, codec);
  }

  lemma ServesOne(s0: System, s: System, cp: Protocol, hp: Protocol, req: Request, codec: Codec) returns (s': System)
    requires Lawful(codec) && Between(s, cp, hp) && Leads(s0, s, codec) && Sensible(req, cp, hp)
    ensures Between(s', cp, hp) && Leads(s0, s', codec) && |s'.host.sessions| == |s.host.sessions| + 1
    ensures s.client.sessions <= s'.client.sessions && s.host.sessions <= s'.host.sessions
    ensures Answered(s'.client.sessions, s'.host.sessions, |s.host.sessions|, req)
  {
    var a := req.from;
    OffersOne(s0, s, req, codec);
    var s1 := s.(client := Offer(s.client, req));
    OpensOne(s0, s1, a, codec);
    var s2 := System(Requested1(s1.client, a), s.packets + [Packet(codec.encode(a), true)], Registered1(s.host, a));
    var c, h := ServesRegistered(s0, s2, req, codec);
    assert map[a := |s.client.sessions|] - {a} == map[];
    assert map[Unspecified(a) := |s.host.sessions|] - {Unspecified(a)} == map[];
    s' := Joins(Forwards(s2, a), c, h);
  }

  /**
   For every sequence of connections to a tunnel of any protocols, with whatever their applications send
   and the service answers, and however the streams divide it, there is a run that serves them all:
   session k carries the k-th connection's address, the service received exactly its data and the
   application exactly the reply, and both sides are ready for more.
   */
  lemma {:induction false} EveryWorkloadIsServed(cp: Protocol, hp: Protocol, reqs: seq<Request>, codec: Codec)
    returns (s: System)
    requires Lawful(codec) && forall k :: 0 <= k < |reqs| ==> Sensible(reqs[k], cp, hp)
    ensures Leads(Initial(cp, hp), s, codec) && Between(s, cp, hp) && |s.client.sessions| == |s.host.sessions| == |reqs|
    ensures forall k :: 0 <= k < |reqs| ==> Answered(s.client.sessions, s.host.sessions, k, reqs[k])
  {
    if reqs == [] {
      s := Initial(cp, hp);
      assert Valid(s, [], codec);
    } else {
      var n := |reqs| - 1;
      var s1 := EveryWorkloadIsServed(cp, hp, reqs[..n], codec);
      s := ServesOne(Initial(cp, hp), s1, cp, hp, reqs[n], codec);
      forall k | 0 <= k < n
        ensures Answered(s.client.sessions, s.host.sessions, k, reqs[k])
      {
        assert s.client.sessions[k] == s1.client.sessions[k] && s.host.sessions[k] == s1.host.sessions[k];
        assert reqs[..n][k] == reqs[k];
      }
    }
  }
}
