/** What a session forwards: never more, less or other than what its source held, in order. */
module Fidelity {
  import opened Common
  import opened Forwarder

  /** Bytes read but not yet written. */
  function Pending(d: Direction): seq<Byte> {
    if d.phase.Writing? then d.phase.rest else []
  }

  /** A peeked datagram is still at the head of the queue when the receive takes it. */
  predicate HoldsPeeked(d: Direction) {
    d.phase.Peeked? ==>
      && d.src.Socket? && d.src.own.Some? && d.src.queue != []
      && d.src.queue[0].from == d.src.own.value
      && d.phase.buf == Cut(d.src.queue[0].data)
  }

  /** Every piece that left this direction fits one buffer and is not empty. */
  predicate PieceSizes(d: Direction) {
    && (d.phase.Writing? ==> 1 <= |d.phase.rest| <= BUFFER_SIZE)
    && forall i :: 0 <= i < |d.out| ==> 1 <= |d.out[i]| <= BUFFER_SIZE
  }

  /** Only a stream that was closed and read out ends a stream direction with `SourceEnded`. */
  predicate EndsAtEof(d: Direction) {
    d.phase == Done(SourceEnded) && d.src.Stream? ==> d.src.closed && d.src.buf == []
  }

  predicate OwnOnly(d: Direction) {
    d.src.Socket? && d.src.own.Some? ==> forall i :: 0 <= i < |d.got| ==> d.got[i].from == d.src.own.value
  }

  predicate Faithful(d: Direction) {
    && d.Delivered() + Pending(d) == d.taken
    && d.fed == d.taken + Content(d.src)
    && (d.src.Socket? ==> d.taken == Payload(d.got, d.src.own))
    && (d.src.Stream? ==> d.got == [])
    && OwnOnly(d)
    && HoldsPeeked(d)
    && PieceSizes(d)
    && EndsAtEof(d)
  }

  lemma {:induction false} PayloadAppend(q: seq<Datagram>, x: Datagram, own: Option<Addr>)
    ensures Payload(q + [x], own) ==
            Payload(q, own) + (if own.None? || x.from == own.value then Cut(x.data) else [])
  {
    if q != [] {
      assert (q + [x])[1..] == q[1..] + [x];
      PayloadAppend(q[1..], x, own);
      var head := if own.None? || q[0].from == own.value then Cut(q[0].data) else [];
      var last := if own.None? || x.from == own.value then Cut(x.data) else [];
      Regroup(head, Payload(q[1..], own), last);
    }
  }

  /** Receiving after a peek yields exactly the peeked datagram, cut to the buffer. */
  lemma OverwriteCut(data: seq<Byte>)
    ensures Overwrite(Cut(data), data) == Cut(data)
  {
  }

  lemma TakeChunkFaithful(d: Direction, chunk: seq<Byte>, src: Source, clock: nat)
    requires Faithful(d) && d.src.Stream? && src.Stream? && !d.phase.Writing?
    requires 1 <= |chunk| <= BUFFER_SIZE && d.src.buf == chunk + src.buf
    ensures Faithful(TakeChunk(d.(src := src), chunk, clock))
  {
  }

  lemma TakeDatagramFaithful(d: Direction, payload: seq<Byte>, clock: nat)
    requires Faithful(d) && d.src.Socket? && d.src.queue != [] && !d.phase.Writing?
    requires d.src.Accepts(d.src.queue[0]) && payload == Cut(d.src.queue[0].data)
    ensures Faithful(TakeDatagram(d, payload, clock))
  {
    PayloadAppend(d.got, d.src.queue[0], d.src.own);
    var rest := Payload(d.src.queue[1..], d.src.own);
    Regroup(d.taken, payload, rest);
    assert d.Delivered() + [] == d.Delivered();
  }

  lemma PiecesGrow(out: seq<seq<Byte>>, piece: seq<Byte>)
    requires (forall i :: 0 <= i < |out| ==> 1 <= |out[i]| <= BUFFER_SIZE) && 1 <= |piece| <= BUFFER_SIZE
    ensures forall i :: 0 <= i < |out + [piece]| ==> 1 <= |(out + [piece])[i]| <= BUFFER_SIZE
  {
  }

  lemma WriteFaithful(d: Direction, piece: seq<Byte>, rest: seq<Byte>)
    requires Faithful(d) && d.phase == Writing(piece + rest) && piece != []
    ensures Faithful(PutPiece(d, piece, rest))
  {
    FlatAppend(d.out, piece);
    Regroup(d.Delivered(), piece, rest);
    PiecesGrow(d.out, piece);
    assert Pending(PutPiece(d, piece, rest)) == rest;
  }

  /** Acts that neither read nor write. */
  lemma QuietFaithful(d: Direction, a: Act, clock: nat, watch: Watch, stamp: nat, others: nat)
    requires Faithful(d) && CanAct(d, a)
    requires a.ReadClock? || a.LoadStamp? || a.Arm? || a.PollStop? || a.ReceiveFails? || a.PollTimer? || a.Decide?
    ensures Faithful(Act1(d, a, clock, watch, stamp, others))
  {
    var d' := Act1(d, a, clock, watch, stamp, others);
    assert d' == d.(phase := d'.phase, seen := d'.seen, wakes := d'.wakes, mark := d'.mark);
  }

  lemma PeekFaithful(d: Direction, clock: nat, watch: Watch, stamp: nat, others: nat)
    requires Faithful(d) && CanAct(d, Peek)
    ensures Faithful(Act1(d, Peek, clock, watch, stamp, others))
  {
    var d' := Act1(d, Peek, clock, watch, stamp, others);
    assert d' == d.(phase := d'.phase);
  }

  lemma ActFaithful(d: Direction, a: Act, clock: nat, watch: Watch, stamp: nat, others: nat)
    requires Faithful(d) && CanAct(d, a)
    ensures Faithful(Act1(d, a, clock, watch, stamp, others))
  {
    match a
    case ReadStream(n) =>
      if n > 0 {
        TakeChunkFaithful(d, d.src.buf[..n], d.src.(buf := d.src.buf[n..]), clock);
      }
    case Receive => TakeDatagramFaithful(d, Cut(d.src.queue[0].data), clock);
    case ReceivePeeked =>
      OverwriteCut(d.src.queue[0].data);
      TakeDatagramFaithful(d, Cut(d.src.queue[0].data), clock);
    case Write(k) =>
      assert d.phase.rest == d.phase.rest[..k] + d.phase.rest[k..];
      WriteFaithful(d, d.phase.rest[..k], d.phase.rest[k..]);
    case Peek => PeekFaithful(d, clock, watch, stamp, others);
    case _ => QuietFaithful(d, a, clock, watch, stamp, others);
  }

  lemma FillFaithful(d: Direction, bytes: seq<Byte>)
    requires Faithful(d) && d.src.Stream? && !d.src.closed
    ensures Faithful(Fill(d, bytes))
  {
  }

  lemma EnqueueFaithful(d: Direction, x: Datagram)
    requires Faithful(d) && d.src.Socket?
    ensures Faithful(Enqueue(d, x))
  {
    PayloadAppend(d.src.queue, x, d.src.own);
    Regroup(d.taken, Content(d.src), Cut(x.data));
  }

  predicate FaithfulPair(p: Pair) {
    Faithful(p.down) && Faithful(p.up)
  }

  lemma PutFaithful(p: Pair, w: Way, d: Direction)
    requires FaithfulPair(p) && Faithful(d)
    ensures FaithfulPair(p.Put(w, d))
  {
  }

  lemma OwnFaithful(p: Pair, w: Way, a: Act)
    requires FaithfulPair(p) && CanAct(p.Get(w), a)
    ensures FaithfulPair(Apply(p, Own(w, a)))
  {
    var d' := Act1(p.Get(w), a, p.clock, p.watch, p.stamp, |p.Get(Opposite(w)).stores|);
    ActFaithful(p.Get(w), a, p.clock, p.watch, p.stamp, |p.Get(Opposite(w)).stores|);
    PutFaithful(p, w, d');
  }

  lemma StepFaithful(p: Pair, e: Event)
    requires FaithfulPair(p) && Enabled(p, e)
    ensures FaithfulPair(Apply(p, e))
  {
    match e
    case Own(w, a) => OwnFaithful(p, w, a);
    case Feed(w, bytes) =>
      FillFaithful(p.Get(w), bytes);
      PutFaithful(p, w, Fill(p.Get(w), bytes));
    case Close(w) =>
      assert Faithful(Shut(p.Get(w)));
      PutFaithful(p, w, Shut(p.Get(w)));
    case Arrive(w, x) =>
      EnqueueFaithful(p.Get(w), x);
      PutFaithful(p, w, Enqueue(p.Get(w), x));
    case _ =>
  }

  lemma StartFaithful(clock: nat, watch: Watch, seen: nat, local: Source)
    ensures FaithfulPair(Start(clock, watch, seen, local))
  {
  }

  lemma {:induction false} RunFaithful(p: Pair, es: seq<Event>)
    requires FaithfulPair(p) && ValidRun(p, es)
    ensures FaithfulPair(Run(p, es))
    decreases |es|
  {
    if es != [] {
      StepFaithful(p, es[0]);
      RunFaithful(Apply(p, es[0]), es[1..]);
    }
  }

  // ---- the same, told from the events of the run alone ------------------------------------

  /** The bytes an event brings to the source of `w`, as far as a session of `own` may read them. */
  function Brings(e: Event, w: Way, own: Option<Addr>): seq<Byte> {
    match e
    case Feed(v, bytes) => if v == w then bytes else []
    case Arrive(v, x) => if v == w && (own.None? || x.from == own.value) then Cut(x.data) else []
    case _ => []
  }

  /** Everything a run brings to the source of `w`, in order. */
  function Input(es: seq<Event>, w: Way, own: Option<Addr>): seq<Byte> {
    if es == [] then [] else Brings(es[0], w, own) + Input(es[1..], w, own)
  }

  function OwnOf(d: Direction): Option<Addr> {
    if d.src.Socket? then d.src.own else None
  }

  lemma StepFeeds(p: Pair, e: Event, w: Way)
    requires Enabled(p, e)
    ensures var d, d' := p.Get(w), Apply(p, e).Get(w);
            d'.fed == d.fed + Brings(e, w, OwnOf(d)) && OwnOf(d') == OwnOf(d) && d'.src.Stream? == d.src.Stream?
  {
    if e.Own? {
      OwnStep(p, e.way, e.act);
    }
  }

  lemma {:induction false} RunFeeds(p: Pair, es: seq<Event>, w: Way)
    requires ValidRun(p, es)
    ensures var d, d' := p.Get(w), Run(p, es).Get(w);
            d'.fed == d.fed + Input(es, w, OwnOf(d)) && OwnOf(d') == OwnOf(d) && d'.src.Stream? == d.src.Stream?
    decreases |es|
  {
    if es != [] {
      var own := OwnOf(p.Get(w));
      StepFeeds(p, es[0], w);
      RunFeeds(Apply(p, es[0]), es[1..], w);
      Regroup(p.Get(w).fed, Brings(es[0], w, own), Input(es[1..], w, own));
    }
  }

  /**
   For every interleaving and chunking, what a direction has written is a prefix of what its
   source was given; and it is all of it if the direction ended because a stream ended.
   */
  lemma SessionForwardsPrefix(clock: nat, watch: Watch, seen: nat, local: Source, es: seq<Event>, w: Way)
    requires ValidRun(Start(clock, watch, seen, local), es)
    ensures var p := Start(clock, watch, seen, local);
            var given := Content(p.Get(w).src) + Input(es, w, OwnOf(p.Get(w)));
            var d := Run(p, es).Get(w);
            && d.Delivered() <= given
            && (d.phase == Done(SourceEnded) && d.src.Stream? ==> d.Delivered() == given)
  {
    var p := Start(clock, watch, seen, local);
    StartFaithful(clock, watch, seen, local);
    RunFaithful(p, es);
    RunFeeds(p, es, w);
    var d := Run(p, es).Get(w);
    Regroup(d.Delivered(), Pending(d), Content(d.src));
  }

  // ---- datagrams --------------------------------------------------------------------------

  /** An act moves a datagram from the head of the queue to the session, or none. */
  lemma ActConserves(d: Direction, a: Act, clock: nat, watch: Watch, stamp: nat, others: nat)
    requires d.src.Socket? && CanAct(d, a)
    ensures var d' := Act1(d, a, clock, watch, stamp, others);
            d'.src.Socket? && d'.src.own == d.src.own && d'.got + d'.src.queue == d.got + d.src.queue
  {
    if a.Receive? || a.ReceivePeeked? {
      assert d.src.queue == [d.src.queue[0]] + d.src.queue[1..];
      Regroup(d.got, [d.src.queue[0]], d.src.queue[1..]);
    }
  }

  /** A step of the running pair keeps every datagram, and may add one at the end. */
  lemma PairConserves(p: Pair, e: Event)
    requires p.up.src.Socket? && Enabled(p, e)
    ensures var q := Apply(p, e);
            && q.up.src.Socket? && q.up.src.own == p.up.src.own
            && q.up.got + q.up.src.queue ==
               p.up.got + p.up.src.queue + (if e.Arrive? && e.way == Up then [e.dgram] else [])
  {
    if e.Own? {
      OwnStep(p, e.way, e.act);
      if e.way == Up {
        ActConserves(p.up, e.act, p.clock, p.watch, p.stamp, |p.down.stores|);
      }
    } else if e.Arrive? && e.way == Up {
      Regroup(p.up.got, p.up.src.queue, [e.dgram]);
    }
  }

  /** The datagrams a run brings to the socket of the upward direction, in order of arrival. */
  function Arrivals(es: seq<Event>): seq<Datagram> {
    if es == [] then []
    else (if es[0].Arrive? && es[0].way == Up then [es[0].dgram] else []) + Arrivals(es[1..])
  }

  lemma {:induction false} RunConserves(p: Pair, es: seq<Event>)
    requires p.up.src.Socket? && ValidRun(p, es)
    ensures var q := Run(p, es);
            q.up.src.Socket? && q.up.got + q.up.src.queue == p.up.got + p.up.src.queue + Arrivals(es)
    decreases |es|
  {
    if es != [] {
      PairConserves(p, es[0]);
      RunConserves(Apply(p, es[0]), es[1..]);
      var first := if es[0].Arrive? && es[0].way == Up then [es[0].dgram] else [];
      Regroup(p.up.got + p.up.src.queue, first, Arrivals(es[1..]));
    }
  }

  lemma {:induction false} PayloadOfOwn(ds: seq<Datagram>, a: Addr)
    requires forall i :: 0 <= i < |ds| ==> ds[i].from == a
    ensures Payload(ds, Some(a)) == Payload(ds, None)
  {
    if ds != [] {
      assert forall i :: 0 <= i < |ds[1..]| ==> ds[1..][i] == ds[i + 1];
      PayloadOfOwn(ds[1..], a);
    }
  }

  /** What was written and is being written is the first 1024 bytes of each datagram read, in order. */
  lemma OwnPayload(d: Direction)
    requires Faithful(d) && d.src.Socket?
    ensures d.Delivered() + Pending(d) == Payload(d.got, None)
  {
    if d.src.own.Some? {
      PayloadOfOwn(d.got, d.src.own.value);
    }
  }

  /**
   A UDP client session consumes an in-order prefix of the datagrams that were waiting or arrived, all
   of them its own sender's, and forwards the first 1024 bytes of each in order; every piece it hands
   to the application has 1 to 1024 bytes.
   */
  lemma SessionTakesOwnDatagrams(clock: nat, watch: Watch, seen: nat, queue: seq<Datagram>, sender: Addr, es: seq<Event>)
    requires ValidRun(Start(clock, watch, seen, Socket(queue, Some(sender))), es)
    ensures var q := Run(Start(clock, watch, seen, Socket(queue, Some(sender))), es);
            && q.up.src.Socket? && q.up.got + q.up.src.queue == queue + Arrivals(es)
            && (forall i :: 0 <= i < |q.up.got| ==> q.up.got[i].from == sender)
            && q.up.Delivered() + Pending(q.up) == First1024(q.up.got)
            && (forall i :: 0 <= i < |q.down.out| ==> 1 <= |q.down.out[i]| <= 1024)
  {
    var p := Start(clock, watch, seen, Socket(queue, Some(sender)));
    StartFaithful(clock, watch, seen, Socket(queue, Some(sender)));
    RunFaithful(p, es);
    RunFeeds(p, es, Up);
    RunConserves(p, es);
    assert [] + queue == queue;
    OwnPayload(Run(p, es).up);
    PayloadIs1024(Run(p, es).up.got);
  }

  // ---- what is kept of a datagram, in numbers ---------------------------------------------

  /** The contents of datagrams, whole, one after the other. */
  function Whole(ds: seq<Datagram>): seq<Byte> {
    if ds == [] then [] else ds[0].data + Whole(ds[1..])
  }

  /** The contents of datagrams, the part beyond 1024 bytes of each left off. */
  function First1024(ds: seq<Datagram>): seq<Byte> {
    if ds == [] then [] else (if |ds[0].data| <= 1024 then ds[0].data else ds[0].data[..1024]) + First1024(ds[1..])
  }

  lemma {:induction false} WholeIfShort(ds: seq<Datagram>)
    requires forall i :: 0 <= i < |ds| ==> |ds[i].data| <= 1024
    ensures First1024(ds) == Whole(ds)
  {
    if ds != [] {
      assert forall i :: 0 <= i < |ds[1..]| ==> ds[1..][i] == ds[i + 1];
      WholeIfShort(ds[1..]);
    }
  }

  lemma {:induction false} PayloadIs1024(ds: seq<Datagram>)
    ensures Payload(ds, None) == First1024(ds)
  {
    if ds != [] {
      PayloadIs1024(ds[1..]);
      assert Cut(ds[0].data) == if |ds[0].data| <= 1024 then ds[0].data else ds[0].data[..1024];
    }
  }

  /**
   Over every run of a session that reads a UDP socket, shared or connected: what was written and is
   being written is the first 1024 bytes of each datagram consumed, and of datagrams of at most 1024
   bytes it is the whole.
   */
  lemma DatagramsGoWhole(clock: nat, watch: Watch, seen: nat, local: Source, es: seq<Event>)
    requires local.Socket? && ValidRun(Start(clock, watch, seen, local), es)
    ensures var d := Run(Start(clock, watch, seen, local), es).up;
            && d.Delivered() + Pending(d) == First1024(d.got)
            && ((forall i :: 0 <= i < |d.got| ==> |d.got[i].data| <= 1024) ==> d.Delivered() + Pending(d) == Whole(d.got))
  {
    var p := Start(clock, watch, seen, local);
    StartFaithful(clock, watch, seen, local);
    RunFaithful(p, es);
    RunFeeds(p, es, Up);
    var d := Run(p, es).up;
    OwnPayload(d);
    PayloadIs1024(d.got);
    if forall i :: 0 <= i < |d.got| ==> |d.got[i].data| <= 1024 {
      WholeIfShort(d.got);
    }
  }
}
