/** What a loop can do, as opposed to what it never does: every chunking, the end of a stream, whole sends. */
module Completeness {
  import opened Common
  import opened Forwarder
  import opened Fidelity
  import opened Stopping
  import opened Stuck
  import Idle

  // ---- one datagram for each chunk --------------------------------------------------------

  /** The pieces sent, and the chunk that is being sent. */
  function Sending(d: Direction): seq<seq<Byte>> {
    d.out + if d.phase.Writing? then [d.phase.rest] else []
  }

  /** The chunks that `w` reads in a run. */
  ghost function Chunks(p: Pair, es: seq<Event>, w: Way): seq<seq<Byte>>
    requires ValidRun(p, es)
    decreases |es|
  {
    if es == [] then []
    else
      var q := Apply(p, es[0]);
      (if Idle.Activity(p, es[0], w) then [q.Get(w).phase.rest] else []) + Chunks(q, es[1..], w)
  }

  lemma ChunkSent(p: Pair, e: Event, w: Way)
    requires Enabled(p, e) && p.Get(w).datagramSink
    ensures var q := Apply(p, e);
            && q.Get(w).datagramSink
            && Sending(q.Get(w)) == Sending(p.Get(w)) + (if Idle.Activity(p, e, w) then [q.Get(w).phase.rest] else [])
  {
    if e.Own? {
      OwnStep(p, e.way, e.act);
      if e.way == w && e.act.Write? {
        assert p.Get(w).phase.rest[..e.act.k] == p.Get(w).phase.rest;
      }
    } else {
      OuterStep(p, e, w);
    }
  }

  lemma {:induction false} ChunksSent(p: Pair, es: seq<Event>, w: Way)
    requires ValidRun(p, es) && p.Get(w).datagramSink
    ensures Sending(Run(p, es).Get(w)) == Sending(p.Get(w)) + Chunks(p, es, w)
    decreases |es|
  {
    if es != [] {
      var q := Apply(p, es[0]);
      ChunkSent(p, es[0], w);
      ChunksSent(q, es[1..], w);
      Regroup(Sending(p.Get(w)), if Idle.Activity(p, es[0], w) then [q.Get(w).phase.rest] else [], Chunks(q, es[1..], w));
    }
  }

  /**
   Towards a UDP socket every chunk read from the stream goes out as one datagram of its own, in order,
   whatever the run; the last one read may still be on its way.
   */
  lemma OneDatagramPerRead(clock: nat, watch: Watch, seen: nat, local: Source, es: seq<Event>)
    requires local.Socket? && ValidRun(Start(clock, watch, seen, local), es)
    ensures var p := Start(clock, watch, seen, local);
            var d := Run(p, es).down;
            d.out + (if d.phase.Writing? then [d.phase.rest] else []) == Chunks(p, es, Down)
  {
    ChunksSent(Start(clock, watch, seen, local), es, Down);
  }

  // ---- every chunking ---------------------------------------------------------------------

  /** From the top of the loop to the poll of the source, with time standing still. */
  lemma ToPoll(p: Pair, w: Way) returns (es: seq<Event>)
    requires p.Get(w).phase.Top? && !p.watch.Ready(p.Get(w).seen)
    ensures ValidRun(p, es) && OwnSteps(es, w)
    ensures var d, q := p.Get(w), Run(p, es);
            && q.Get(w).phase.Polled? && q.Get(w) == d.(phase := q.Get(w).phase, mark := q.Get(w).mark)
            && q == p.Put(w, q.Get(w))
  {
    var timeout := Timeout(Secs(p.clock), p.stamp);
    var others := |p.Get(Opposite(w)).stores|;
    var p1 := p.Put(w, p.Get(w).(phase := Clocked(Secs(p.clock))));
    var p2 := p.Put(w, p.Get(w).(phase := Loaded(timeout), mark := others));
    var p3 := p.Put(w, p.Get(w).(phase := Armed(p.clock + timeout * NANOS), mark := others));
    var p4 := p.Put(w, p.Get(w).(phase := Polled(p.clock + timeout * NANOS), mark := others));
    assert p1 == Apply(p, Own(w, ReadClock)) && p2 == Apply(p1, Own(w, LoadStamp));
    assert p3 == Apply(p2, Own(w, Arm)) && p4 == Apply(p3, Own(w, PollStop));
    RunCons(p3, Own(w, PollStop), []);
    es := [Own(w, PollStop)] + [];
    RunCons(p2, Own(w, Arm), es);
    es := [Own(w, Arm)] + es;
    RunCons(p1, Own(w, LoadStamp), es);
    es := [Own(w, LoadStamp)] + es;
    RunCons(p, Own(w, ReadClock), es);
    es := [Own(w, ReadClock)] + es;
  }

  /** The pieces one after the other. */
  function Joined(pieces: seq<seq<Byte>>): seq<Byte> {
    if pieces == [] then [] else pieces[0] + Joined(pieces[1..])
  }

  /** A chunk in hand goes out in these pieces; towards a datagram socket, in one. */
  predicate Divides(pieces: seq<seq<Byte>>, datagramSink: bool) {
    && pieces != [] && (datagramSink ==> |pieces| == 1)
    && (forall i :: 0 <= i < |pieces| ==> pieces[i] != [])
  }

  lemma {:induction false} WritesAll(p: Pair, w: Way, pieces: seq<seq<Byte>>) returns (es: seq<Event>)
    requires p.Get(w).phase == Writing(Joined(pieces)) && Divides(pieces, p.Get(w).datagramSink)
    ensures ValidRun(p, es) && OwnSteps(es, w)
    ensures var d, q := p.Get(w), Run(p, es);
            q == p.Put(w, q.Get(w)) && q.Get(w) == d.(phase := Top, out := d.out + pieces)
    decreases |pieces|
  {
    var d := p.Get(w);
    var piece, rest := pieces[0], Joined(pieces[1..]);
    assert (piece + rest)[..|piece|] == piece && (piece + rest)[|piece|..] == rest;
    var e := Own(w, Write(|piece|));
    OwnStep(p, w, Write(|piece|));
    var q := Apply(p, e);
    assert q == p.Put(w, q.Get(w)) && q.Get(w) == d.(phase := if rest == [] then Top else Writing(rest), out := d.out + [piece]);
    if |pieces| == 1 {
      assert ValidRun(q, []) && pieces == [piece];
      es := [];
    } else {
      assert pieces[1..][0] == pieces[1] && rest != [];
      assert forall i :: 0 <= i < |pieces[1..]| ==> pieces[1..][i] == pieces[i + 1];
      es := WritesAll(q, w, pieces[1..]);
      Regroup(d.out, [piece], pieces[1..]);
      assert [piece] + pieces[1..] == pieces;
    }
    RunCons(p, e, es);
    OwnStepsCons(e, es, w);
    es := [e] + es;
  }

  /** A polling loop reads the first bytes that wait. */
  lemma ReadsFirst(p: Pair, w: Way, chunk: seq<Byte>, rest: seq<Byte>)
    requires p.Get(w).phase.Polled? && p.Get(w).src.Stream? && p.Get(w).src.buf == chunk + rest && 1 <= |chunk| <= 1024
    ensures CanAct(p.Get(w), ReadStream(|chunk|))
    ensures var d, q := p.Get(w), Apply(p, Own(w, ReadStream(|chunk|)));
            && q.Get(w).phase == Writing(chunk) && q.Get(w).src == d.src.(buf := rest) && q.watch == p.watch
            && q.Get(w).out == d.out && q.Get(w).seen == d.seen && q.Get(w).datagramSink == d.datagramSink
  {
    OwnStep(p, w, ReadStream(|chunk|));
    assert (chunk + rest)[..|chunk|] == chunk && (chunk + rest)[|chunk|..] == rest;
  }

  /** One turn of the loop that forwards one chunk, in these pieces. */
  lemma OneChunk(p: Pair, w: Way, pieces: seq<seq<Byte>>, rest: seq<Byte>) returns (es: seq<Event>)
    requires p.Get(w).phase.Top? && !p.watch.Ready(p.Get(w).seen) && Divides(pieces, p.Get(w).datagramSink)
    requires p.Get(w).src.Stream? && p.Get(w).src.buf == Joined(pieces) + rest && 1 <= |Joined(pieces)| <= 1024
    ensures ValidRun(p, es) && OwnSteps(es, w)
    ensures var d, q := p.Get(w), Run(p, es);
            && q.Get(w).phase.Top? && q.Get(w).out == d.out + pieces && q.Get(w).seen == d.seen && q.watch == p.watch
            && q.Get(w).src == d.src.(buf := rest) && q.Get(w).datagramSink == d.datagramSink
  {
    var e1 := ToPoll(p, w);
    var p1 := Run(p, e1);
    var e := Own(w, ReadStream(|Joined(pieces)|));
    ReadsFirst(p1, w, Joined(pieces), rest);
    var e2 := WritesAll(Apply(p1, e), w, pieces);
    RunCons(p1, e, e2);
    OwnStepsCons(e, e2, w);
    RunConcat(p, e1, [e] + e2);
    OwnStepsConcat(e1, [e] + e2, w);
    es := e1 + ([e] + e2);
  }

  lemma OwnStepsConcat(es: seq<Event>, fs: seq<Event>, w: Way)
    requires OwnSteps(es, w) && OwnSteps(fs, w)
    ensures OwnSteps(es + fs, w)
  {
  }

  /** All pieces of all chunks, in order. */
  function Pieces(chunks: seq<seq<seq<Byte>>>): seq<seq<Byte>> {
    if chunks == [] then [] else chunks[0] + Pieces(chunks[1..])
  }

  /**
   Whatever waits in a stream, a loop not told to stop can read it in chunks of any sizes from 1 to 1024
   bytes and write each chunk in any pieces (one, towards a datagram socket), by steps of its own alone.
   */
  lemma {:induction false} EveryChunking(p: Pair, w: Way, chunks: seq<seq<seq<Byte>>>, rest: seq<Byte>) returns (es: seq<Event>)
    requires p.Get(w).phase.Top? && !p.watch.Ready(p.Get(w).seen)
    requires p.Get(w).src.Stream? && p.Get(w).src.buf == Joined(Pieces(chunks)) + rest
    requires forall i :: 0 <= i < |chunks| ==> Divides(chunks[i], p.Get(w).datagramSink) && 1 <= |Joined(chunks[i])| <= 1024
    ensures ValidRun(p, es) && OwnSteps(es, w)
    ensures var d, q := p.Get(w), Run(p, es);
            && q.Get(w).phase.Top? && q.Get(w).out == d.out + Pieces(chunks) && q.Get(w).seen == d.seen && q.watch == p.watch
            && q.Get(w).src == d.src.(buf := rest)
    decreases |chunks|
  {
    if chunks == [] {
      assert ValidRun(p, []) && Joined(Pieces(chunks)) + rest == rest;
      es := [];
    } else {
      var more := Pieces(chunks[1..]);
      JoinedConcat(chunks[0], more);
      Regroup(Joined(chunks[0]), Joined(more), rest);
      var e1 := OneChunk(p, w, chunks[0], Joined(more) + rest);
      var e2 := EveryChunking(Run(p, e1), w, chunks[1..], rest);
      RunConcat(p, e1, e2);
      OwnStepsConcat(e1, e2, w);
      es := e1 + e2;
      Regroup(p.Get(w).out, chunks[0], more);
    }
  }

  lemma {:induction false} JoinedConcat(a: seq<seq<Byte>>, b: seq<seq<Byte>>)
    ensures Joined(a + b) == Joined(a) + Joined(b)
  {
    if a == [] {
      assert a + b == b;
    } else {
      assert (a + b)[1..] == a[1..] + b;
      JoinedConcat(a[1..], b);
      Regroup(a[0], Joined(a[1..]), Joined(b));
    }
  }

  // ---- the end of a source ----------------------------------------------------------------

  /** Own datagrams with content, then one without: that one ends the loop. */
  predicate EndsEmpty(queue: seq<Datagram>, own: Option<Addr>) {
    && queue != [] && (own.None? || queue[0].from == own.value)
    && if queue[0].data == [] then |queue| == 1 else EndsEmpty(queue[1..], own)
  }

  /** Nothing more is to come: a closed stream, or a queue that ends with an empty datagram. */
  predicate Supplied(src: Source) {
    if src.Stream? then src.closed else EndsEmpty(src.queue, src.own)
  }

  function Waits(src: Source): nat {
    if src.Stream? then |src.buf| else |src.queue|
  }

  /** A loop over such a source that is not told to stop, nor about to time out. */
  predicate Drains(p: Pair, w: Way) {
    var d := p.Get(w);
    Sound(p) && Supplied(d.src) && !d.phase.Done? && !p.watch.Ready(d.seen) && !Late(d, p.stamp)
  }

  /** Steps to the next read. */
  function ToRead(d: Direction): nat {
    match d.phase
    case Peeked(_) => 0
    case Polled(_) => 1
    case Armed(_) => 2
    case Loaded(_) => 3
    case Clocked(_) => 4
    case Top => 5
    case _ => 6
  }

  /** From `d` to `d'`: the source was read out and that ended the loop, or a read came closer. */
  predicate DrainsOn(d: Direction, d': Direction) {
    && d'.seen == d.seen && d'.src.Stream? == d.src.Stream? && !d'.phase.Woken?
    && if d'.phase.Done? then d'.phase == Done(SourceEnded) && Waits(d'.src) == 0
       else Supplied(d'.src) && (Waits(d'.src) < Waits(d.src) || (d'.src == d.src && ToRead(d') < ToRead(d)))
  }

  lemma DrainRead(d: Direction, clock: nat, watch: Watch, stamp: nat, others: nat)
    requires Faithful(d) && Supplied(d.src) && (d.phase.Polled? || d.phase.Peeked?) && !watch.Ready(d.seen)
    ensures CanAct(d, NextAct(d)) && DrainsOn(d, Act1(d, NextAct(d), clock, watch, stamp, others))
  {
    NeverBlocked(d);
    if d.src.Socket? {
      OverwriteCut(d.src.queue[0].data);
      assert d.src.queue[0].data == [] ==> d.src.queue[1..] == [];
    }
  }

  lemma DrainTurn(d: Direction, clock: nat, watch: Watch, stamp: nat, others: nat)
    requires Faithful(d) && Supplied(d.src) && !d.phase.Polled? && !d.phase.Peeked? && !d.phase.Done?
    requires !watch.Ready(d.seen) && !Late(d, stamp)
    ensures CanAct(d, NextAct(d)) && DrainsOn(d, Act1(d, NextAct(d), clock, watch, stamp, others))
  {
    NeverBlocked(d);
  }

  lemma DrainStep(p: Pair, w: Way)
    requires Drains(p, w)
    ensures CanAct(p.Get(w), NextAct(p.Get(w))) && NoFailure(NextAct(p.Get(w)))
    ensures var d, q := p.Get(w), Apply(p, Own(w, NextAct(p.Get(w))));
            && Sound(q) && q.watch == p.watch && q.Get(Opposite(w)) == p.Get(Opposite(w))
            && DrainsOn(d, q.Get(w)) && q.Get(w).fed == d.fed && (q.Get(w).phase.Done? || Drains(q, w))
  {
    var d := p.Get(w);
    NeverBlocked(d);
    OwnStep(p, w, NextAct(d));
    StepSound(p, Own(w, NextAct(d)));
    StepFeeds(p, Own(w, NextAct(d)), w);
    assert d.fed + [] == d.fed;
    if d.phase.Polled? || d.phase.Peeked? {
      DrainRead(d, p.clock, p.watch, p.stamp, |p.Get(Opposite(w)).stores|);
    } else {
      DrainTurn(d, p.clock, p.watch, p.stamp, |p.Get(Opposite(w)).stores|);
    }
  }

  /** At its end such a loop has delivered all that its source ever held for it. */
  lemma DrainedAll(d: Direction)
    requires Faithful(d) && d.phase == Done(SourceEnded) && Waits(d.src) == 0
    ensures d.Delivered() == d.fed
  {
    assert d.Delivered() + [] == d.Delivered() && d.taken + [] == d.taken;
  }

  lemma {:induction false} DrainsToEnd(p: Pair, w: Way) returns (es: seq<Event>)
    requires Drains(p, w)
    ensures ValidRun(p, es) && OwnSteps(es, w) && Sound(Run(p, es))
    ensures var d, q := p.Get(w), Run(p, es);
            && q.Get(w).phase == Done(SourceEnded) && q.Get(w).Delivered() == d.fed && Waits(q.Get(w).src) == 0
            && q.Get(w).src.Stream? == d.src.Stream? && q.Get(Opposite(w)) == p.Get(Opposite(w)) && q.watch == p.watch
    decreases Waits(p.Get(w).src), ToRead(p.Get(w))
  {
    var e := Own(w, NextAct(p.Get(w)));
    DrainStep(p, w);
    var q := Apply(p, e);
    if q.Get(w).phase.Done? {
      DrainedAll(q.Get(w));
      assert ValidRun(q, []);
      es := [];
    } else {
      es := DrainsToEnd(q, w);
    }
    RunCons(p, e, es);
    OwnStepsCons(e, es, w);
    es := [e] + es;
  }

  /**
   Once its stream is closed, a loop that is not told to stop and not about to time out can end by steps
   of its own, no read failing, and has then delivered everything the stream ever carried.
   */
  lemma CloseDelivers(p: Pair, w: Way) returns (es: seq<Event>)
    requires Sound(p) && p.Get(w).src.Stream? && !p.Get(w).phase.Done? && !p.watch.Ready(p.Get(w).seen)
    requires !Late(p.Get(w), p.stamp)
    ensures ValidRun(Apply(p, Close(w)), es) && OwnSteps(es, w)
    ensures var q := Run(Apply(p, Close(w)), es);
            && q.Get(w).phase == Done(SourceEnded) && q.Get(w).Delivered() == p.Get(w).fed
            && q.Get(Opposite(w)) == p.Get(Opposite(w)) && q.watch == p.watch
  {
    StepSound(p, Close(w));
    OuterStep(p, Close(w), Opposite(w));
    es := DrainsToEnd(Apply(p, Close(w)), w);
  }
}
