/** What a session still does once it was told to stop. */
module Stopping {
  import opened Common
  import opened Forwarder
  import opened Fidelity

  // ---- the stop channel -------------------------------------------------------------------

  /** A direction that has seen every version has not been told to stop, or has stopped. */
  predicate Heeds(d: Direction, watch: Watch) {
    && d.seen <= watch.version
    && (d.phase == Done(Stopped) ==> watch.value)
    && (d.phase != Done(Stopped) && d.seen == watch.version ==> !watch.value)
  }

  predicate HeedsStop(p: Pair) {
    Heeds(p.down, p.watch) && Heeds(p.up, p.watch)
  }

  /** The receiver that the loops clone has not consumed a stop. */
  predicate FreshReceiver(watch: Watch, seen: nat) {
    seen <= watch.version && (seen == watch.version ==> !watch.value)
  }

  lemma StepHeeds(p: Pair, e: Event)
    requires HeedsStop(p) && Enabled(p, e)
    ensures HeedsStop(Apply(p, e))
  {
    if e.Own? {
      OwnStep(p, e.way, e.act);
    } else {
      OuterStep(p, e, Down);
      OuterStep(p, e, Up);
    }
  }

  // ---- after a stop -----------------------------------------------------------------------

  /** Bytes a direction may still write once it was told to stop. */
  function Budget(d: Direction): nat {
    match d.phase
    case Writing(rest) => |rest|
    case Polled(_) => BUFFER_SIZE
    case Peeked(_) => BUFFER_SIZE
    case _ => 0
  }

  /** Chunks it may still read: one if it is past the poll of the stop channel, else none. */
  function Readable(d: Direction): nat {
    if d.phase.Polled? || d.phase.Peeked? then 1 else 0
  }

  /** Steps it may still take. */
  function Rank(d: Direction): nat {
    match d.phase
    case Done(_) => 0
    case Armed(_) => 1
    case Loaded(_) => 2
    case Clocked(_) => 3
    case Top => 4
    case Woken(_) => 5
    case Writing(rest) => 4 + |rest|
    case Peeked(_) => 5 + BUFFER_SIZE
    case Polled(_) => 6 + BUFFER_SIZE
  }

  /** From `d` to `d'` in `n` steps of the direction: nothing it may still do has grown. */
  predicate Shrinks(d: Direction, d': Direction, n: nat) {
    && |d'.Delivered()| + Budget(d') <= |d.Delivered()| + Budget(d)
    && |d'.stores| + Readable(d') <= |d.stores| + Readable(d)
    && Rank(d') + n <= Rank(d)
  }

  lemma ActAfterStop(d: Direction, a: Act, clock: nat, watch: Watch, stamp: nat, others: nat)
    requires HoldsPeeked(d) && PieceSizes(d) && CanAct(d, a) && watch.value && d.seen != watch.version
    ensures Shrinks(d, Act1(d, a, clock, watch, stamp, others), 1)
  {
    match a
    case Write(k) =>
      FlatAppend(d.out, d.phase.rest[..k]);
    case ReceivePeeked =>
      OverwriteCut(d.src.queue[0].data);
    case _ =>
  }

  /** How many steps of a run are steps of direction `w`. */
  function Steps(es: seq<Event>, w: Way): nat {
    if es == [] then 0
    else (if es[0].Own? && es[0].way == w then 1 else 0) + Steps(es[1..], w)
  }

  predicate Sound(p: Pair) {
    FaithfulPair(p) && HeedsStop(p)
  }

  lemma StepSound(p: Pair, e: Event)
    requires Sound(p) && Enabled(p, e)
    ensures Sound(Apply(p, e)) && (p.watch.value ==> Apply(p, e).watch.value)
  {
    StepFaithful(p, e);
    StepHeeds(p, e);
  }

  lemma OwnAfterStop(p: Pair, v: Way, a: Act, w: Way)
    requires Sound(p) && p.watch.value && CanAct(p.Get(v), a)
    ensures Shrinks(p.Get(w), Apply(p, Own(v, a)).Get(w), if v == w then 1 else 0)
  {
    OwnStep(p, v, a);
    if v == w {
      ActAfterStop(p.Get(w), a, p.clock, p.watch, p.stamp, |p.Get(Opposite(w)).stores|);
    }
  }

  lemma OuterShrinks(p: Pair, e: Event, w: Way)
    requires !e.Own? && Enabled(p, e)
    ensures Shrinks(p.Get(w), Apply(p, e).Get(w), 0)
  {
    OuterStep(p, e, w);
  }

  lemma StepAfterStop(p: Pair, e: Event, w: Way)
    requires Sound(p) && p.watch.value && Enabled(p, e)
    ensures Shrinks(p.Get(w), Apply(p, e).Get(w), if e.Own? && e.way == w then 1 else 0)
  {
    if e.Own? {
      assert e == Own(e.way, e.act);
      OwnAfterStop(p, e.way, e.act, w);
    } else {
      OuterShrinks(p, e, w);
    }
  }

  /**
   Whatever happens after a stop, a direction writes at most the chunk it already holds or, if it
   had just polled the channel, one chunk of at most 1024 bytes; it reads at most one chunk; and it
   takes a bounded number of steps.
   */
  lemma {:induction false} RunAfterStop(p: Pair, es: seq<Event>, w: Way)
    requires Sound(p) && p.watch.value && ValidRun(p, es)
    ensures Sound(Run(p, es)) && Run(p, es).watch.value
    ensures Shrinks(p.Get(w), Run(p, es).Get(w), Steps(es, w))
    decreases |es|
  {
    if es != [] {
      StepSound(p, es[0]);
      StepAfterStop(p, es[0], w);
      RunAfterStop(Apply(p, es[0]), es[1..], w);
    }
  }

  lemma {:induction false} RunSound(p: Pair, es: seq<Event>)
    requires Sound(p) && ValidRun(p, es)
    ensures Sound(Run(p, es))
    decreases |es|
  {
    if es != [] {
      StepSound(p, es[0]);
      RunSound(Apply(p, es[0]), es[1..]);
    }
  }

  lemma StartSound(clock: nat, watch: Watch, seen: nat, local: Source)
    requires FreshReceiver(watch, seen)
    ensures Sound(Start(clock, watch, seen, local))
  {
    StartFaithful(clock, watch, seen, local);
  }

  lemma OneChunkFrom(p: Pair, fs: seq<Event>, w: Way)
    requires Sound(p) && Enabled(p, SendStop) && ValidRun(Apply(p, SendStop), fs)
    ensures var d, d' := p.Get(w), Run(Apply(p, SendStop), fs).Get(w);
            && |d'.Delivered()| <= |d.Delivered()| + BUFFER_SIZE
            && |d'.stores| <= |d.stores| + 1
            && (d.phase.Polled? || d.phase.Peeked? || |d'.stores| <= |d.stores|)
  {
    StepSound(p, SendStop);
    RunAfterStop(Apply(p, SendStop), fs, w);
    OuterStep(p, SendStop, w);
    assert Budget(p.Get(w)) <= BUFFER_SIZE;
  }

  /**
   Over every run of a session, a stop at any point and every continuation: each direction writes
   at most 1024 further bytes and reads at most one further chunk, and only if it was past the poll.
   */
  lemma OneChunkAfterStop(clock: nat, watch: Watch, seen: nat, local: Source, es: seq<Event>, fs: seq<Event>, w: Way)
    requires FreshReceiver(watch, seen) && ValidRun(Start(clock, watch, seen, local), es)
    requires Enabled(Run(Start(clock, watch, seen, local), es), SendStop)
    requires ValidRun(Apply(Run(Start(clock, watch, seen, local), es), SendStop), fs)
    ensures var p := Run(Start(clock, watch, seen, local), es);
            var d, d' := p.Get(w), Run(Apply(p, SendStop), fs).Get(w);
            && |d'.Delivered()| <= |d.Delivered()| + 1024
            && |d'.stores| <= |d.stores| + 1
            && (d.phase.Polled? || d.phase.Peeked? || |d'.stores| <= |d.stores|)
  {
    StartSound(clock, watch, seen, local);
    RunSound(Start(clock, watch, seen, local), es);
    OneChunkFrom(Run(Start(clock, watch, seen, local), es), fs, w);
  }

  /** A session whose loops start after the stop forwards nothing: their receivers still hold it unseen. */
  lemma StartedAfterStopForwardsNothing(clock: nat, watch: Watch, seen: nat, local: Source, es: seq<Event>, w: Way)
    requires FreshReceiver(watch, seen) && watch.value && ValidRun(Start(clock, watch, seen, local), es)
    ensures Run(Start(clock, watch, seen, local), es).Get(w).Delivered() == []
    ensures Run(Start(clock, watch, seen, local), es).Get(w).stores == []
  {
    StartSound(clock, watch, seen, local);
    RunAfterStop(Start(clock, watch, seen, local), es, w);
  }

  /** The steps of a loop in which no read fails. */
  predicate NoFailure(a: Act) {
    a != PollTimer(true) && a != ReceiveFails
  }

  /** A step the loop can take, with no read failing: reads take all they can, writes complete. */
  function NextAct(d: Direction): Act {
    match d.phase
    case Top => ReadClock
    case Clocked(_) => LoadStamp
    case Loaded(_) => Arm
    case Armed(_) => PollStop
    case Polled(_) =>
      if !d.src.ReadReady() then PollTimer(false)
      else if d.src.Stream? then ReadStream(Min(|d.src.buf|, BUFFER_SIZE))
      else if d.src.own.None? then Receive else Peek
    case Peeked(_) => ReceivePeeked
    case Writing(rest) => Write(|rest|)
    case _ => Decide
  }

  /** A loop that has not ended can always take such a step. */
  lemma NeverBlocked(d: Direction)
    requires Faithful(d) && !d.phase.Done?
    ensures CanAct(d, NextAct(d)) && NoFailure(NextAct(d))
  {
  }

  /**
   After a stop each loop takes at most 1030 further steps, has ended if it took as many as its
   rank, and until then has a step to take that is no failing read: so the join completes.
   */
  lemma {:induction false} ShutdownTerminates(p: Pair, es: seq<Event>, w: Way)
    requires Sound(p) && p.watch.value && ValidRun(p, es)
    ensures Steps(es, w) <= Rank(p.Get(w)) <= 1030
    ensures Steps(es, w) == Rank(p.Get(w)) ==> Run(p, es).Get(w).phase.Done?
    ensures Run(p, es).Get(w).phase.Done? || exists a :: Enabled(Run(p, es), Own(w, a)) && NoFailure(a)
  {
    RunAfterStop(p, es, w);
    if !Run(p, es).Get(w).phase.Done? {
      NeverBlocked(Run(p, es).Get(w));
      assert Enabled(Run(p, es), Own(w, NextAct(Run(p, es).Get(w))));
    }
  }

  /** After a stop, such a step brings the loop closer to its end and leaves the other one where it is. */
  lemma NextAfterStop(p: Pair, w: Way)
    requires Sound(p) && p.watch.value && !p.Get(w).phase.Done?
    ensures CanAct(p.Get(w), NextAct(p.Get(w))) && NoFailure(NextAct(p.Get(w)))
    ensures var q := Apply(p, Own(w, NextAct(p.Get(w))));
            && Sound(q) && q.watch.value
            && Rank(q.Get(w)) < Rank(p.Get(w)) && q.Get(Opposite(w)) == p.Get(Opposite(w))
  {
    var e := Own(w, NextAct(p.Get(w)));
    NeverBlocked(p.Get(w));
    StepSound(p, e);
    StepAfterStop(p, e, w);
    OwnStep(p, w, e.act);
  }

  /** Steps of loop `w` alone, in none of which a read fails. */
  predicate OwnSteps(es: seq<Event>, w: Way) {
    forall i :: 0 <= i < |es| ==> es[i].Own? && es[i].way == w && NoFailure(es[i].act)
  }

  lemma OwnStepsCons(e: Event, es: seq<Event>, w: Way)
    requires OwnSteps(es, w) && e.Own? && e.way == w && NoFailure(e.act)
    ensures OwnSteps([e] + es, w)
  {
  }

  lemma {:induction false} EndsAfterStop(p: Pair, w: Way) returns (es: seq<Event>)
    requires Sound(p) && p.watch.value
    ensures ValidRun(p, es) && OwnSteps(es, w) && Run(p, es).Get(w).phase.Done?
    ensures Sound(Run(p, es)) && Run(p, es).watch.value && Run(p, es).Get(Opposite(w)) == p.Get(Opposite(w))
    decreases Rank(p.Get(w))
  {
    if p.Get(w).phase.Done? {
      assert ValidRun(p, []);
      es := [];
    } else {
      var e := Own(w, NextAct(p.Get(w)));
      NextAfterStop(p, w);
      es := EndsAfterStop(Apply(p, e), w);
      RunCons(p, e, es);
      OwnStepsCons(e, es, w);
      es := [e] + es;
    }
  }

  /** And both can end by such steps alone, one after the other. */
  lemma ShutdownCompletes(p: Pair) returns (es: seq<Event>, fs: seq<Event>)
    requires Sound(p) && p.watch.value
    ensures OwnSteps(es, Down) && OwnSteps(fs, Up)
    ensures ValidRun(p, es + fs) && Run(p, es + fs).Joined()
  {
    es := EndsAfterStop(p, Down);
    fs := EndsAfterStop(Run(p, es), Up);
    RunConcat(p, es, fs);
  }
}
