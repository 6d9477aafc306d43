/**
 The two ways a session gets stuck: its stop channel loses the sender before a stop was sent, or the
 head of the client's shared UDP socket is another application's datagram.
 */
module Stuck {
  import opened Common
  import opened Forwarder
  import opened Fidelity
  import opened Stopping
  import Idle

  /** Going round the loop without reaching the source. */
  predicate Circling(d: Direction) {
    d.phase.Top? || d.phase.Clocked? || d.phase.Loaded? || d.phase.Armed?
  }

  /** The timer branch was taken and the coming decision ends the loop. */
  predicate Late(d: Direction, stamp: nat) {
    d.phase.Woken? && d.phase.now >= stamp + TIMEOUT
  }

  /** Enough time for the timer of a polling loop to fire and end it. */
  function LongWait(d: Direction, stamp: nat): nat
    requires d.phase.Polled?
  {
    d.phase.deadline + (stamp + TIMEOUT) * NANOS
  }

  /** The timer of a polling loop has fired, and not in vain. */
  predicate Overdue(d: Direction, clock: nat, stamp: nat)
    requires d.phase.Polled?
  {
    clock >= d.phase.deadline && Secs(clock) >= stamp + TIMEOUT
  }

  // ---- another application's datagram -----------------------------------------------------

  /** The direction reads the client's shared UDP socket. */
  predicate Shares(d: Direction) {
    d.src.Socket? && d.src.own.Some?
  }

  /** The head of the shared queue comes from another application. */
  predicate ForeignHead(d: Direction) {
    Shares(d) && d.src.queue != [] && d.src.queue[0].from != d.src.own.value
  }

  /** Another application's datagram waits, with only own nonempty ones before it. */
  predicate Barred(queue: seq<Datagram>, own: Addr) {
    exists i :: 0 <= i < |queue| && Bars(queue, own, i)
  }

  predicate Bars(queue: seq<Datagram>, own: Addr, i: nat)
    requires i < |queue|
  {
    queue[i].from != own && forall j :: 0 <= j < i ==> queue[j].from == own && queue[j].data != []
  }

  lemma BarredHead(queue: seq<Datagram>, own: Addr)
    requires queue != []
    ensures Barred(queue, own) <==> queue[0].from != own || (queue[0].data != [] && Barred(queue[1..], own))
  {
    if queue[0].from != own {
      assert Bars(queue, own, 0);
    } else {
      if Barred(queue, own) {
        var i :| 0 <= i < |queue| && Bars(queue, own, i);
        assert Bars(queue[1..], own, i - 1);
      }
      if queue[0].data != [] && Barred(queue[1..], own) {
        var i :| 0 <= i < |queue[1..]| && Bars(queue[1..], own, i);
        assert forall j :: 1 <= j < |queue| ==> queue[j] == queue[1..][j - 1];
        assert Bars(queue, own, i + 1);
      }
    }
  }

  lemma BarredAppend(queue: seq<Datagram>, own: Addr, x: Datagram)
    requires Barred(queue, own)
    ensures Barred(queue + [x], own)
  {
    var i :| 0 <= i < |queue| && Bars(queue, own, i);
    assert Bars(queue + [x], own, i);
  }

  /** No stop is sent and no read of the upward direction fails. */
  predicate Undisturbed(e: Event) {
    e != SendStop && e != Own(Up, PollTimer(true))
  }

  predicate AllUndisturbed(es: seq<Event>) {
    forall i :: 0 <= i < |es| ==> Undisturbed(es[i])
  }

  /** The upward loop cannot get past the datagram that bars it. */
  predicate KeptOut(p: Pair) {
    && !p.watch.value && p.stamp <= Secs(p.clock)
    && Shares(p.up) && Barred(p.up.src.queue, p.up.src.own.value) && HoldsPeeked(p.up)
    && !p.up.phase.Done? && !Late(p.up, p.stamp)
  }

  /** The datagrams before the first one of another application. */
  function Ahead(queue: seq<Datagram>, own: Addr): seq<Datagram> {
    if queue == [] || queue[0].from != own then [] else [queue[0]] + Ahead(queue[1..], own)
  }

  /** What was written, is being written, and waits before the datagram that bars the loop. */
  function Prospect(d: Direction): seq<Byte>
    requires Shares(d)
  {
    d.Delivered() + (Pending(d) + Payload(Ahead(d.src.queue, d.src.own.value), None))
  }

  lemma {:induction false} AheadAppend(queue: seq<Datagram>, own: Addr, x: Datagram)
    requires Barred(queue, own)
    ensures Ahead(queue + [x], own) == Ahead(queue, own)
  {
    BarredHead(queue, own);
    assert (queue + [x])[1..] == queue[1..] + [x];
    if queue[0].from == own {
      AheadAppend(queue[1..], own, x);
    }
  }

  lemma PayloadHead(x: Datagram, rest: seq<Datagram>)
    ensures Payload([x] + rest, None) == Cut(x.data) + Payload(rest, None)
  {
    assert ([x] + rest)[1..] == rest;
  }

  /** Receiving the head moves it from what waits to what is being written. */
  lemma ReceiveProspect(d: Direction, clock: nat)
    requires Faithful(d) && Shares(d) && d.phase.Peeked? && Barred(d.src.queue, d.src.own.value)
    ensures var d' := TakeDatagram(d, Cut(d.src.queue[0].data), clock);
            d'.phase.Writing? && Barred(d'.src.queue, d.src.own.value) && Prospect(d') == Prospect(d)
  {
    BarredHead(d.src.queue, d.src.own.value);
    PayloadHead(d.src.queue[0], Ahead(d.src.queue[1..], d.src.own.value));
    assert [] + Payload(Ahead(d.src.queue, d.src.own.value), None) == Payload(Ahead(d.src.queue, d.src.own.value), None);
  }

  lemma WriteProspect(d: Direction, piece: seq<Byte>, rest: seq<Byte>)
    requires Shares(d) && d.phase == Writing(piece + rest)
    ensures Prospect(PutPiece(d, piece, rest)) == Prospect(d)
  {
    var ahead := Payload(Ahead(d.src.queue, d.src.own.value), None);
    FlatAppend(d.out, piece);
    Regroup(piece, rest, ahead);
    Regroup(d.Delivered(), piece, rest + ahead);
    assert Pending(PutPiece(d, piece, rest)) == rest;
  }

  lemma KeptOutQuiet(p: Pair, a: Act)
    requires KeptOut(p) && CanAct(p.up, a) && a != PollTimer(true) && !a.ReceivePeeked? && !a.Write?
    ensures var p' := Apply(p, Own(Up, a));
            KeptOut(p') && p'.up.src == p.up.src && p'.up.out == p.up.out && Pending(p'.up) == Pending(p.up)
  {
    var d' := Act1(p.up, a, p.clock, p.watch, p.stamp, |p.down.stores|);
    assert d' == p.up.(phase := d'.phase, seen := d'.seen, wakes := d'.wakes, mark := d'.mark);
  }

  lemma KeptOutReceive(p: Pair)
    requires KeptOut(p) && Faithful(p.up) && p.up.phase.Peeked?
    ensures CanAct(p.up, ReceivePeeked)
    ensures var p' := Apply(p, Own(Up, ReceivePeeked));
            KeptOut(p') && Prospect(p'.up) == Prospect(p.up)
  {
    var head := p.up.src.queue[0];
    OverwriteCut(head.data);
    ReceiveProspect(p.up, p.clock);
    assert Act1(p.up, ReceivePeeked, p.clock, p.watch, p.stamp, |p.down.stores|) == TakeDatagram(p.up, Cut(head.data), p.clock);
  }

  lemma KeptOutWrite(p: Pair, k: nat)
    requires KeptOut(p) && CanAct(p.up, Write(k))
    ensures var p' := Apply(p, Own(Up, Write(k)));
            KeptOut(p') && Prospect(p'.up) == Prospect(p.up)
  {
    assert p.up.phase.rest == p.up.phase.rest[..k] + p.up.phase.rest[k..];
    WriteProspect(p.up, p.up.phase.rest[..k], p.up.phase.rest[k..]);
  }

  lemma KeptOutAct(p: Pair, a: Act)
    requires KeptOut(p) && Faithful(p.up) && CanAct(p.up, a) && a != PollTimer(true)
    ensures var p' := Apply(p, Own(Up, a));
            KeptOut(p') && Prospect(p'.up) == Prospect(p.up)
  {
    if a.ReceivePeeked? {
      KeptOutReceive(p);
    } else if a.Write? {
      KeptOutWrite(p, a.k);
    } else {
      KeptOutQuiet(p, a);
    }
  }

  lemma KeptOutStep(p: Pair, e: Event)
    requires KeptOut(p) && Faithful(p.up) && Enabled(p, e) && Undisturbed(e)
    ensures KeptOut(Apply(p, e)) && Prospect(Apply(p, e).up) == Prospect(p.up)
  {
    match e
    case Own(w, a) =>
      if w == Up {
        KeptOutAct(p, a);
      } else {
        OwnStep(p, w, a);
      }
    case Arrive(w, x) =>
      if w == Up {
        BarredAppend(p.up.src.queue, p.up.src.own.value, x);
        AheadAppend(p.up.src.queue, p.up.src.own.value, x);
      }
    case _ => OuterStep(p, e, Up);
  }

  /**
   A datagram of another application stops a UDP client session for good as soon as only own nonempty
   ones wait before it: those are forwarded, nothing else is, and the session never ends.
   */
  lemma {:induction false} BarredForGood(p: Pair, es: seq<Event>)
    requires KeptOut(p) && FaithfulPair(p) && ValidRun(p, es) && AllUndisturbed(es)
    ensures KeptOut(Run(p, es)) && Prospect(Run(p, es).up) == Prospect(p.up)
    ensures !Run(p, es).Joined() && Run(p, es).up.Delivered() <= Prospect(p.up)
    decreases |es|
  {
    if es != [] {
      KeptOutStep(p, es[0]);
      StepFaithful(p, es[0]);
      assert forall i :: 0 <= i < |es[1..]| ==> es[1..][i] == es[i + 1];
      BarredForGood(Apply(p, es[0]), es[1..]);
    }
  }

  /** What brings the upward loop towards its end. */
  function TowardsEnd(p: Pair): Event {
    if p.up.phase.Polled? && p.up.src.Socket? && p.up.src.queue == [] && !Overdue(p.up, p.clock, p.stamp) then
      Tick(LongWait(p.up, p.stamp))
    else
      Own(Up, NextAct(p.up))
  }

  /** Steps to the next datagram, or to the end. */
  function Distance(p: Pair): nat {
    match p.up.phase
    case Done(_) => 0
    case Peeked(_) => 1
    case Polled(_) => if Overdue(p.up, p.clock, p.stamp) then 2 else 3
    case Armed(_) => 4
    case Loaded(_) => 5
    case Clocked(_) => 6
    case Top => 7
    case Writing(_) => 8
    case Woken(_) => if Late(p.up, p.stamp) then 1 else 8
  }

  /** Nothing bars the upward loop, or the coming decision ends it. */
  predicate Unbarred(p: Pair) {
    Shares(p.up) && (p.up.phase.Done? || Late(p.up, p.stamp) || !Barred(p.up.src.queue, p.up.src.own.value))
  }

  /** From `p` to `p'`: the loop ended, took a datagram, or came closer to either. */
  predicate Nearer(p: Pair, p': Pair)
    requires Shares(p.up)
  {
    && Unbarred(p')
    && (p'.up.phase.Done?
        || (!p'.watch.Ready(p'.up.seen)
            && (|p'.up.src.queue| < |p.up.src.queue| || (p'.up.src.queue == p.up.src.queue && Distance(p') < Distance(p)))))
  }

  lemma PeekNearer(p: Pair)
    requires Unbarred(p) && !p.watch.Ready(p.up.seen) && p.up.phase.Polled? && p.up.src.queue != []
    ensures CanAct(p.up, Peek) && Nearer(p, Apply(p, Own(Up, Peek)))
  {
    BarredHead(p.up.src.queue, p.up.src.own.value);
    assert p.up.src.queue[0].from == p.up.src.own.value;
    assert Apply(p, Own(Up, Peek)) == p.(up := p.up.(phase := Peeked(Cut(p.up.src.queue[0].data))));
  }

  lemma ReceiveNearer(p: Pair)
    requires Sound(p) && Unbarred(p) && !p.watch.Ready(p.up.seen) && p.up.phase.Peeked?
    ensures CanAct(p.up, ReceivePeeked) && Nearer(p, Apply(p, Own(Up, ReceivePeeked)))
  {
    OwnStep(p, Up, ReceivePeeked);
    BarredHead(p.up.src.queue, p.up.src.own.value);
    OverwriteCut(p.up.src.queue[0].data);
  }

  lemma QuietNearer(p: Pair)
    requires Sound(p) && Unbarred(p) && !p.watch.Ready(p.up.seen)
    requires !p.up.phase.Done? && !p.up.phase.Polled? && !p.up.phase.Peeked?
    ensures CanAct(p.up, NextAct(p.up)) && Nearer(p, Apply(p, Own(Up, NextAct(p.up))))
  {
    NeverBlocked(p.up);
    OwnStep(p, Up, NextAct(p.up));
  }

  /** With an empty queue, time passes until the timer fires. */
  lemma TimerNearer(p: Pair)
    requires Unbarred(p) && !p.watch.Ready(p.up.seen) && p.up.phase.Polled? && p.up.src.queue == []
    ensures Enabled(p, TowardsEnd(p)) && Undisturbed(TowardsEnd(p)) && Nearer(p, Apply(p, TowardsEnd(p)))
  {
    if Overdue(p.up, p.clock, p.stamp) {
      OwnStep(p, Up, PollTimer(false));
    } else {
      var p' := Apply(p, Tick(LongWait(p.up, p.stamp)));
      assert p' == p.(clock := p'.clock) && Overdue(p'.up, p'.clock, p'.stamp);
    }
  }

  lemma TowardsEndStep(p: Pair)
    requires Sound(p) && Unbarred(p) && !p.up.phase.Done? && !p.watch.Ready(p.up.seen)
    ensures Enabled(p, TowardsEnd(p)) && Undisturbed(TowardsEnd(p)) && Nearer(p, Apply(p, TowardsEnd(p)))
  {
    if p.up.phase.Peeked? {
      ReceiveNearer(p);
    } else if !p.up.phase.Polled? {
      QuietNearer(p);
    } else if p.up.src.queue != [] {
      PeekNearer(p);
    } else {
      TimerNearer(p);
    }
  }

  lemma {:induction false} EndsUnlessBarred(p: Pair) returns (es: seq<Event>)
    requires Sound(p) && Unbarred(p) && (p.up.phase.Done? || !p.watch.Ready(p.up.seen))
    ensures ValidRun(p, es) && AllUndisturbed(es) && Run(p, es).up.phase.Done?
    decreases if p.up.phase.Done? then 0 else 1, if Shares(p.up) then |p.up.src.queue| else 0, Distance(p)
  {
    if p.up.phase.Done? {
      assert ValidRun(p, []);
      es := [];
    } else {
      var e := TowardsEnd(p);
      TowardsEndStep(p);
      StepSound(p, e);
      es := EndsUnlessBarred(Apply(p, e));
      RunCons(p, e, es);
      es := [e] + es;
    }
  }

  /**
   Exactly when a UDP client session that is not told to stop can still end its upward loop: no other
   application's datagram waits with only own nonempty ones before it, or the loop is already at the
   decision that ends it. Every reachable state is covered, and every undisturbed continuation.
   */
  lemma EndsIffNotBarred(p: Pair)
    requires Sound(p) && Idle.IdleInv(p) && Shares(p.up) && !p.up.phase.Done? && !p.watch.Ready(p.up.seen)
    ensures (exists es :: ValidRun(p, es) && AllUndisturbed(es) && Run(p, es).up.phase.Done?)
       <==> !Barred(p.up.src.queue, p.up.src.own.value) || Late(p.up, p.stamp)
  {
    if Unbarred(p) {
      var es := EndsUnlessBarred(p);
    } else {
      forall es | ValidRun(p, es) && AllUndisturbed(es)
        ensures !Run(p, es).up.phase.Done?
      {
        BarredForGood(p, es);
      }
    }
  }

  lemma ForeignHeadStep(p: Pair, e: Event)
    requires !p.watch.value && ForeignHead(p.up) && (Circling(p.up) || p.up.phase.Polled?)
    requires Enabled(p, e) && Undisturbed(e)
    ensures var p' := Apply(p, e);
            && !p'.watch.value && ForeignHead(p'.up) && (Circling(p'.up) || p'.up.phase.Polled?)
            && p'.up.taken == p.up.taken && p'.up.out == p.up.out && p'.up.got == p.up.got
  {
    if e.Own? {
      OwnStep(p, e.way, e.act);
    } else {
      OuterStep(p, e, Up);
    }
  }

  /** Once it is at the head, that datagram is peeked and skipped for ever: the loop takes nothing more. */
  lemma {:induction false} ForeignHeadBlocks(p: Pair, es: seq<Event>)
    requires !p.watch.value && ForeignHead(p.up) && (Circling(p.up) || p.up.phase.Polled?)
    requires ValidRun(p, es) && AllUndisturbed(es)
    ensures !Run(p, es).Joined() && !Run(p, es).up.phase.Done?
    ensures Run(p, es).up.taken == p.up.taken && Run(p, es).up.out == p.up.out && Run(p, es).up.got == p.up.got
    decreases |es|
  {
    if es != [] {
      ForeignHeadStep(p, es[0]);
      assert forall i :: 0 <= i < |es[1..]| ==> es[1..][i] == es[i + 1];
      ForeignHeadBlocks(Apply(p, es[0]), es[1..]);
    }
  }

  /** Polling a queue whose head is another application's, or an own datagram without content. */
  predicate MuteHead(d: Direction) {
    && Shares(d)
    && (d.phase.Done?
        || (d.src.queue != []
            && if ForeignHead(d) then Circling(d) || d.phase.Polled? || d.phase.Woken?
               else d.src.queue[0].data == [] && (Circling(d) || d.phase.Polled? || d.phase.Woken? || d.phase == Peeked([]))))
  }

  lemma MuteHeadStep(p: Pair, e: Event)
    requires MuteHead(p.up) && Enabled(p, e)
    ensures MuteHead(Apply(p, e).up) && Apply(p, e).up.out == p.up.out
  {
    if e.Own? {
      OwnStep(p, e.way, e.act);
    } else {
      OuterStep(p, e, Up);
    }
  }

  lemma {:induction false} MuteHeadForwardsNothing(p: Pair, es: seq<Event>)
    requires MuteHead(p.up) && ValidRun(p, es)
    ensures Run(p, es).up.out == p.up.out
    decreases |es|
  {
    if es != [] {
      MuteHeadStep(p, es[0]);
      MuteHeadForwardsNothing(Apply(p, es[0]), es[1..]);
    }
  }

  lemma WholeWrite(p: Pair) returns (es: seq<Event>)
    requires p.up.phase.Writing? && p.up.phase.rest != []
    ensures ValidRun(p, es) && AllUndisturbed(es) && Run(p, es).up.out == p.up.out + [p.up.phase.rest]
  {
    var rest := p.up.phase.rest;
    assert rest[..|rest|] == rest;
    OwnStep(p, Up, Write(|rest|));
    RunCons(p, Own(Up, Write(|rest|)), []);
    es := [Own(Up, Write(|rest|))] + [];
  }

  /** Receiving what was peeked starts to write it. */
  lemma PeekedIsWritten(p: Pair, data: seq<Byte>)
    requires Shares(p.up) && p.up.src.queue != [] && p.up.src.queue[0].data == data != [] && p.up.phase == Peeked(Cut(data))
    ensures var q := Apply(p, Own(Up, ReceivePeeked)); q.up.phase == Writing(Cut(data)) && q.up.out == p.up.out
  {
    OverwriteCut(data);
  }

  /** With an own datagram at the head, peek, receive and write forward it. */
  lemma OwnHeadForwards(p: Pair) returns (es: seq<Event>)
    requires p.up.phase.Polled? && Shares(p.up) && p.up.src.queue != []
    requires !ForeignHead(p.up) && p.up.src.queue[0].data != []
    ensures ValidRun(p, es) && AllUndisturbed(es)
    ensures Run(p, es).up.out == p.up.out + [Cut(p.up.src.queue[0].data)]
  {
    var data := p.up.src.queue[0].data;
    var p1 := Apply(p, Own(Up, Peek));
    assert p1.up == p.up.(phase := Peeked(Cut(data)));
    PeekedIsWritten(p1, data);
    var p2 := Apply(p1, Own(Up, ReceivePeeked));
    es := WholeWrite(p2);
    RunCons(p1, Own(Up, ReceivePeeked), es);
    es := [Own(Up, ReceivePeeked)] + es;
    RunCons(p, Own(Up, Peek), es);
    es := [Own(Up, Peek)] + es;
  }

  /**
   Exactly when a polling UDP client session can still forward anything: the queue is empty, or its
   head is an own datagram with content. Otherwise nothing that happens makes it forward.
   */
  lemma ForwardsIffOwnHead(p: Pair)
    requires p.up.phase.Polled? && Shares(p.up)
    ensures (exists es :: ValidRun(p, es) && Run(p, es).up.out != p.up.out)
       <==> p.up.src.queue == [] || (!ForeignHead(p.up) && p.up.src.queue[0].data != [])
    ensures (exists es :: ValidRun(p, es) && AllUndisturbed(es) && Run(p, es).up.out != p.up.out)
       <==> p.up.src.queue == [] || (!ForeignHead(p.up) && p.up.src.queue[0].data != [])
  {
    if p.up.src.queue == [] {
      var e := Arrive(Up, Datagram(p.up.src.own.value, [0]));
      var es := OwnHeadForwards(Apply(p, e));
      RunCons(p, e, es);
      assert AllUndisturbed([e] + es);
    } else if !ForeignHead(p.up) && p.up.src.queue[0].data != [] {
      var es := OwnHeadForwards(p);
    } else {
      forall es | ValidRun(p, es)
        ensures Run(p, es).up.out == p.up.out
      {
        MuteHeadForwardsNothing(p, es);
      }
    }
  }

  /** A receive that fails after its peek only sends the loop round: it can peek the same datagram again. */
  lemma FailedReceiveRetries(p: Pair) returns (es: seq<Event>)
    requires HoldsPeeked(p.up) && p.up.phase.Peeked? && !p.watch.Ready(p.up.seen)
    ensures ValidRun(p, [Own(Up, ReceiveFails)] + es)
    ensures var q := Run(p, [Own(Up, ReceiveFails)] + es);
            && q.up.phase == p.up.phase && q.up.src == p.up.src && q.up.got == p.up.got && q.up.taken == p.up.taken
  {
    var q := Apply(p, Own(Up, ReceiveFails));
    assert q.up == p.up.(phase := Top) && q.watch == p.watch;
    ReachesSelf(q);
    var q1 := Idle.ReachesPolled(q, q, Up);
    ReachesNext(q, q1, Own(Up, Peek));
    es :| ValidRun(q, es) && Run(q, es) == Apply(q1, Own(Up, Peek));
    RunCons(p, Own(Up, ReceiveFails), es);
  }

  /** Two applications, one datagram each, are enough: the session is stuck from its start. */
  lemma ForeignHeadIsReachable(a: Addr, b: Addr, x: Byte)
    requires a != b
    ensures var p := Start(0, Watch(false, 0, true), 0, Socket([Datagram(a, [x]), Datagram(b, [x])], Some(a)));
            KeptOut(p) && Sound(p) && Prospect(p.up) == [x]
  {
    var queue := [Datagram(a, [x]), Datagram(b, [x])];
    var p := Start(0, Watch(false, 0, true), 0, Socket(queue, Some(a)));
    StartSound(0, p.watch, 0, p.up.src);
    assert Bars(queue, a, 1);
    assert queue[1..] == [queue[1]] && Ahead([queue[1]], a) == [];
    assert Ahead(queue, a) == [queue[0]] + [];
    PayloadHead(queue[0], []);
  }

  // ---- a dropped sender -------------------------------------------------------------------

  /** A loop that has ended, read or written since `d`. */
  predicate Progressed(d: Direction, d': Direction) {
    d'.phase.Done? || d'.got != d.got || d'.taken != d.taken || d'.out != d.out
  }

  /** Whether reads of `w` may fail is a parameter. */
  predicate Permitted(es: seq<Event>, w: Way, failures: bool) {
    forall i :: 0 <= i < |es| ==> failures || (es[i] != Own(w, PollTimer(true)) && es[i] != Own(w, ReceiveFails))
  }

  ghost predicate CanProgress(p: Pair, w: Way, failures: bool) {
    exists es :: ValidRun(p, es) && Permitted(es, w, failures) && Progressed(p.Get(w), Run(p, es).Get(w))
  }

  /** The stop was sent, or the loop is past its poll with something to read or time running out. */
  predicate MayProgress(p: Pair, w: Way, failures: bool) {
    var d := p.Get(w);
    p.watch.value || d.phase.Peeked? || d.phase.Writing? || Late(d, p.stamp) || (d.phase.Polled? && (failures || !ForeignHead(d)))
  }

  /** Without sender and stop, going round for ever. */
  predicate Spinning(p: Pair, w: Way, failures: bool) {
    var d := p.Get(w);
    && !p.watch.senderAlive && !p.watch.value && p.stamp <= Secs(p.clock)
    && (Circling(d) || (d.phase.Woken? && !Late(d, p.stamp)) || (!failures && d.phase.Polled? && ForeignHead(d)))
  }

  lemma SpinningAct(p: Pair, a: Act, w: Way, failures: bool)
    requires Spinning(p, w, failures) && CanAct(p.Get(w), a)
    requires failures || (a != PollTimer(true) && a != ReceiveFails)
    ensures var d, d' := p.Get(w), Act1(p.Get(w), a, p.clock, p.watch, p.stamp, |p.Get(Opposite(w)).stores|);
            && (Circling(d') || (d'.phase.Woken? && !Late(d', p.stamp)) || (!failures && d'.phase.Polled? && ForeignHead(d')))
            && d'.got == d.got && d'.taken == d.taken && d'.out == d.out && d'.stores == d.stores
  {
  }

  lemma SpinningStep(p: Pair, e: Event, w: Way, failures: bool)
    requires Spinning(p, w, failures) && Enabled(p, e) && Permitted([e], w, failures)
    ensures Spinning(Apply(p, e), w, failures)
    ensures var d, d' := p.Get(w), Apply(p, e).Get(w); d'.got == d.got && d'.taken == d.taken && d'.out == d.out
  {
    assert [e][0] == e;
    if e.Own? {
      OwnStep(p, e.way, e.act);
      if e.way == w {
        SpinningAct(p, e.act, w, failures);
      }
    } else {
      OuterStep(p, e, w);
    }
  }

  /**
   If the sender is dropped without sending a stop, `changed()` completes at once every time and
   the stop branch always wins: a loop that is not past its poll never reads, writes or ends.
   */
  lemma {:induction false} DroppedSenderSpins(p: Pair, es: seq<Event>, w: Way, failures: bool)
    requires Spinning(p, w, failures) && ValidRun(p, es) && Permitted(es, w, failures)
    ensures Spinning(Run(p, es), w, failures) && !Progressed(p.Get(w), Run(p, es).Get(w))
    decreases |es|
  {
    if es != [] {
      SpinningStep(p, es[0], w, failures);
      assert forall i :: 0 <= i < |es[1..]| ==> es[1..][i] == es[i + 1];
      DroppedSenderSpins(Apply(p, es[0]), es[1..], w, failures);
    }
  }

  /** One step reads, writes or ends. */
  predicate Ready(d: Direction, stamp: nat) {
    d.phase.Peeked? || d.phase.Writing? || Late(d, stamp) || (d.phase.Polled? && d.src.ReadReady() && !Shares(d))
  }

  lemma ReadyAct(d: Direction, clock: nat, watch: Watch, stamp: nat, others: nat)
    requires Faithful(d) && Ready(d, stamp)
    ensures CanAct(d, NextAct(d)) && NoFailure(NextAct(d))
    ensures Progressed(d, Act1(d, NextAct(d), clock, watch, stamp, others))
  {
    NeverBlocked(d);
    var d' := Act1(d, NextAct(d), clock, watch, stamp, others);
    if d.phase.Writing? {
      assert |d'.out| > |d.out|;
    } else if !d.phase.Woken? && d.src.Socket? {
      assert |d'.got| > |d.got|;
    } else if !d.phase.Woken? && d.src.buf != [] {
      assert |d'.taken| > |d.taken|;
    }
  }

  lemma ReadyProgresses(p: Pair, w: Way) returns (es: seq<Event>)
    requires Sound(p) && Ready(p.Get(w), p.stamp)
    ensures ValidRun(p, es) && Permitted(es, w, false) && Progressed(p.Get(w), Run(p, es).Get(w))
  {
    var d := p.Get(w);
    var e := Own(w, NextAct(d));
    ReadyAct(d, p.clock, p.watch, p.stamp, |p.Get(Opposite(w)).stores|);
    OwnStep(p, w, NextAct(d));
    RunCons(p, e, []);
    es := [e] + [];
  }

  /** The timer of a polling loop, given time, ends it. */
  lemma TimerEnds(p: Pair, w: Way, failed: bool) returns (es: seq<Event>)
    requires p.Get(w).phase.Polled? && (failed || !p.Get(w).src.ReadReady())
    ensures ValidRun(p, es) && Permitted(es, w, failed) && Run(p, es).Get(w).phase.Done?
  {
    var p1 := Apply(p, Tick(LongWait(p.Get(w), p.stamp)));
    var p2 := Apply(p1, Own(w, PollTimer(failed)));
    OwnStep(p1, w, PollTimer(failed));
    assert Overdue(p1.Get(w), p1.clock, p1.stamp) && p2.Get(w).phase == Woken(Secs(p1.clock));
    OwnStep(p2, w, Decide);
    RunCons(p2, Own(w, Decide), []);
    RunCons(p1, Own(w, PollTimer(failed)), [Own(w, Decide)] + []);
    es := [Own(w, PollTimer(failed))] + ([Own(w, Decide)] + []);
    RunCons(p, Tick(LongWait(p.Get(w), p.stamp)), es);
    es := [Tick(LongWait(p.Get(w), p.stamp))] + es;
  }

  lemma PolledProgresses(p: Pair, w: Way) returns (es: seq<Event>)
    requires Sound(p) && p.Get(w).phase.Polled? && !ForeignHead(p.Get(w))
    ensures ValidRun(p, es) && Permitted(es, w, false) && Progressed(p.Get(w), Run(p, es).Get(w))
  {
    var d := p.Get(w);
    if !d.src.ReadReady() {
      es := TimerEnds(p, w, false);
    } else if !Shares(d) {
      es := ReadyProgresses(p, w);
    } else {
      var q := Apply(p, Own(w, Peek));
      OwnStep(p, w, Peek);
      StepSound(p, Own(w, Peek));
      es := ReadyProgresses(q, w);
      RunCons(p, Own(w, Peek), es);
      es := [Own(w, Peek)] + es;
    }
  }

  /**
   Exactly when a loop whose sender is gone can still end, read or write: the stop was sent, or the
   loop has this poll of the channel behind it and its source does not send it back to the next one.
   */
  lemma DroppedSenderIff(p: Pair, w: Way, failures: bool)
    requires Sound(p) && Idle.IdleInv(p) && !p.watch.senderAlive && !p.Get(w).phase.Done?
    ensures CanProgress(p, w, failures) <==> MayProgress(p, w, failures)
  {
    if !MayProgress(p, w, failures) {
      forall es | ValidRun(p, es) && Permitted(es, w, failures)
        ensures !Progressed(p.Get(w), Run(p, es).Get(w))
      {
        DroppedSenderSpins(p, es, w, failures);
      }
    } else {
      var es;
      if p.watch.value {
        es := EndsAfterStop(p, w);
      } else if !p.Get(w).phase.Polled? {
        es := ReadyProgresses(p, w);
      } else if !ForeignHead(p.Get(w)) {
        es := PolledProgresses(p, w);
      } else {
        es := TimerEnds(p, w, true);
      }
      assert Permitted(es, w, failures);
    }
  }

  /** So at any point of any run where the sender is dropped. */
  lemma DroppedSenderStalls(clock: nat, watch: Watch, seen: nat, local: Source, es: seq<Event>, w: Way, failures: bool)
    requires FreshReceiver(watch, seen) && ValidRun(Start(clock, watch, seen, local), es)
    requires Enabled(Run(Start(clock, watch, seen, local), es), DropSender)
    requires !Run(Start(clock, watch, seen, local), es).Get(w).phase.Done?
    ensures var p := Apply(Run(Start(clock, watch, seen, local), es), DropSender);
            CanProgress(p, w, failures) <==> MayProgress(p, w, failures)
  {
    var p := Start(clock, watch, seen, local);
    StartSound(clock, watch, seen, local);
    Idle.StartIdle(clock, watch, seen, local);
    RunSound(p, es);
    Idle.RunIdle(p, es);
    StepSound(Run(p, es), DropSender);
    Idle.StepIdle(Run(p, es), DropSender);
    OuterStep(Run(p, es), DropSender, w);
    DroppedSenderIff(Apply(Run(p, es), DropSender), w, failures);
  }

  /** A session that has just started when the sender goes does anything at all exactly if it was stopped. */
  lemma DroppedAtStart(clock: nat, watch: Watch, seen: nat, local: Source, w: Way, failures: bool)
    requires FreshReceiver(watch, seen) && watch.senderAlive
    ensures CanProgress(Apply(Start(clock, watch, seen, local), DropSender), w, failures) <==> watch.value
  {
    assert ValidRun(Start(clock, watch, seen, local), []);
    DroppedSenderStalls(clock, watch, seen, local, [], w, failures);
  }
}
