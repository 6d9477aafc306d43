/** The idle timeout: never early, and paid for by the opposite direction when it fires in vain. */
module Idle {
  import opened Common
  import opened Forwarder

  /** The stamp is the last store, truncated; no store is later than it. */
  predicate StampKept(p: Pair) {
    && p.stampAt <= p.clock
    && p.stamp == Secs(p.stampAt)
    && (forall i :: 0 <= i < |p.down.stores| ==> p.down.stores[i] <= p.stampAt)
    && (forall i :: 0 <= i < |p.up.stores| ==> p.up.stores[i] <= p.stampAt)
  }

  /** Between loading the stamp and acting on the timer. */
  predicate Waiting(d: Direction) {
    d.phase.Loaded? || d.phase.Armed? || d.phase.Polled? || d.phase.Woken?
  }

  /** Unless the opposite direction stored since the load, the timer fires no sooner than it should. */
  predicate TimerDue(d: Direction, clock: nat, stamp: nat) {
    match d.phase
    case Loaded(timeout) => clock + timeout * NANOS >= (stamp + TIMEOUT) * NANOS
    case Armed(deadline) => deadline >= (stamp + TIMEOUT) * NANOS
    case Polled(deadline) => deadline >= (stamp + TIMEOUT) * NANOS
    case Woken(now) => now >= stamp + TIMEOUT
    case _ => true
  }

  predicate Paid(d: Direction, clock: nat, stamp: nat, others: nat) {
    && d.wakes <= others
    && (Waiting(d) ==> d.wakes <= d.mark <= others)
    && (d.phase.Clocked? || d.phase.Woken? ==> d.phase.now <= Secs(clock))
    && (others == d.mark ==> TimerDue(d, clock, stamp))
  }

  predicate IdleInv(p: Pair) {
    && StampKept(p)
    && Paid(p.down, p.clock, p.stamp, |p.up.stores|)
    && Paid(p.up, p.clock, p.stamp, |p.down.stores|)
  }

  lemma LoadIsDue(now: nat, clock: nat, stampAt: nat)
    requires now <= Secs(clock) && stampAt <= clock
    ensures clock + Timeout(now, Secs(stampAt)) * NANOS >= (Secs(stampAt) + TIMEOUT) * NANOS
  {
  }

  lemma ActPaid(d: Direction, a: Act, clock: nat, watch: Watch, stampAt: nat, others: nat)
    requires CanAct(d, a) && stampAt <= clock && Paid(d, clock, Secs(stampAt), others)
    ensures var d' := Act1(d, a, clock, watch, Secs(stampAt), others);
            && (d'.stores == d.stores || d'.stores == d.stores + [clock])
            && (d'.stores != d.stores ==> !Waiting(d') && d'.wakes <= others)
            && (d'.stores == d.stores ==> Paid(d', clock, Secs(stampAt), others))
  {
    if a.LoadStamp? {
      LoadIsDue(d.phase.now, clock, stampAt);
    }
  }

  lemma OwnIdle(p: Pair, w: Way, a: Act)
    requires IdleInv(p) && CanAct(p.Get(w), a)
    ensures IdleInv(Apply(p, Own(w, a)))
  {
    OwnStep(p, w, a);
    ActPaid(p.Get(w), a, p.clock, p.watch, p.stampAt, |p.Get(Opposite(w)).stores|);
  }

  lemma StepIdle(p: Pair, e: Event)
    requires IdleInv(p) && Enabled(p, e)
    ensures IdleInv(Apply(p, e))
  {
    if e.Own? {
      OwnIdle(p, e.way, e.act);
    } else {
      OuterStep(p, e, Down);
      OuterStep(p, e, Up);
    }
  }

  lemma {:induction false} RunIdle(p: Pair, es: seq<Event>)
    requires IdleInv(p) && ValidRun(p, es)
    ensures IdleInv(Run(p, es))
    decreases |es|
  {
    if es != [] {
      StepIdle(p, es[0]);
      RunIdle(Apply(p, es[0]), es[1..]);
    }
  }

  lemma StartIdle(clock: nat, watch: Watch, seen: nat, local: Source)
    ensures IdleInv(Start(clock, watch, seen, local))
  {
  }

  // ---- counted on the run itself ----------------------------------------------------------

  /** The timer fired, and the loop went on. */
  predicate VainWake(p: Pair, e: Event, w: Way)
    requires Enabled(p, e)
  {
    e == Own(w, Decide) && !Apply(p, e).Get(w).phase.Done?
  }

  /** A chunk was read, and the activity stamped. */
  predicate Activity(p: Pair, e: Event, w: Way)
    requires Enabled(p, e)
  {
    e.Own? && e.way == w && !p.Get(w).phase.Writing? && Apply(p, e).Get(w).phase.Writing?
  }

  ghost function VainWakes(p: Pair, es: seq<Event>, w: Way): nat
    requires ValidRun(p, es)
    decreases |es|
  {
    if es == [] then 0
    else (if VainWake(p, es[0], w) then 1 else 0) + VainWakes(Apply(p, es[0]), es[1..], w)
  }

  ghost function Activities(p: Pair, es: seq<Event>, w: Way): nat
    requires ValidRun(p, es)
    decreases |es|
  {
    if es == [] then 0
    else (if Activity(p, es[0], w) then 1 else 0) + Activities(Apply(p, es[0]), es[1..], w)
  }

  lemma StepCounts(p: Pair, e: Event, w: Way)
    requires Enabled(p, e)
    ensures var d, d' := p.Get(w), Apply(p, e).Get(w);
            && d'.wakes == d.wakes + (if VainWake(p, e, w) then 1 else 0)
            && |d'.stores| == |d.stores| + (if Activity(p, e, w) then 1 else 0)
            && (e == Own(w, LoadStamp) || d'.mark == d.mark)
  {
    if e.Own? {
      OwnStep(p, e.way, e.act);
    } else {
      OuterStep(p, e, w);
    }
  }

  lemma {:induction false} RunCounts(p: Pair, es: seq<Event>, w: Way)
    requires ValidRun(p, es)
    ensures var d, d' := p.Get(w), Run(p, es).Get(w);
            && d'.wakes == d.wakes + VainWakes(p, es, w)
            && |d'.stores| == |d.stores| + Activities(p, es, w)
            && (Own(w, LoadStamp) !in es ==> d'.mark == d.mark)
    decreases |es|
  {
    if es != [] {
      StepCounts(p, es[0], w);
      RunCounts(Apply(p, es[0]), es[1..], w);
      assert forall e :: e in es[1..] ==> e in es;
    }
  }

  /**
   Over any run of a session, one direction's timer fires in vain at most as often as the
   opposite direction read a chunk.
   */
  lemma VainWakesArePaid(clock: nat, watch: Watch, seen: nat, local: Source, es: seq<Event>, w: Way)
    requires ValidRun(Start(clock, watch, seen, local), es)
    ensures var p := Start(clock, watch, seen, local);
            VainWakes(p, es, w) <= Activities(p, es, Opposite(w))
  {
    var p := Start(clock, watch, seen, local);
    StartIdle(clock, watch, seen, local);
    RunIdle(p, es);
    RunCounts(p, es, w);
    RunCounts(p, es, Opposite(w));
  }

  /** And each vain wake-up has such a read between the iteration's load of the stamp and the wake-up. */
  lemma VainWakeHasCause(p: Pair, mid: seq<Event>, w: Way)
    requires IdleInv(p) && Enabled(p, Own(w, LoadStamp)) && Own(w, LoadStamp) !in mid
    requires ValidRun(Apply(p, Own(w, LoadStamp)), mid)
    requires Enabled(Run(Apply(p, Own(w, LoadStamp)), mid), Own(w, Decide))
    requires VainWake(Run(Apply(p, Own(w, LoadStamp)), mid), Own(w, Decide), w)
    ensures Activities(Apply(p, Own(w, LoadStamp)), mid, Opposite(w)) >= 1
  {
    var p1 := Apply(p, Own(w, LoadStamp));
    OwnStep(p, w, LoadStamp);
    StepIdle(p, Own(w, LoadStamp));
    RunIdle(p1, mid);
    RunCounts(p1, mid, w);
    RunCounts(p1, mid, Opposite(w));
  }

  lemma {:induction false} StampGrows(p: Pair, es: seq<Event>)
    requires IdleInv(p) && ValidRun(p, es)
    ensures p.stampAt <= Run(p, es).stampAt && p.clock <= Run(p, es).clock
    decreases |es|
  {
    if es != [] {
      StepIdle(p, es[0]);
      if es[0].Own? {
        OwnStep(p, es[0].way, es[0].act);
      } else {
        OuterStep(p, es[0], Up);
      }
      StampGrows(Apply(p, es[0]), es[1..]);
    }
  }

  /**
   When a direction gives up, more than 19 seconds, in nanoseconds, have passed since the session started and
   since either direction last read a chunk.
   */
  lemma NoEarlyTimeout(clock: nat, watch: Watch, seen: nat, local: Source, es: seq<Event>, w: Way)
    requires ValidRun(Start(clock, watch, seen, local), es)
    requires Enabled(Run(Start(clock, watch, seen, local), es), Own(w, Decide))
    requires Apply(Run(Start(clock, watch, seen, local), es), Own(w, Decide)).Get(w).phase == Done(TimedOut)
    ensures var q := Run(Start(clock, watch, seen, local), es);
            && q.clock - clock > 19_000_000_000
            && (forall v: Way, i :: 0 <= i < |q.Get(v).stores| ==> q.clock - q.Get(v).stores[i] > 19_000_000_000)
  {
    var p := Start(clock, watch, seen, local);
    StartIdle(clock, watch, seen, local);
    RunIdle(p, es);
    StampGrows(p, es);
  }

  // ---- exactly when it is less than 20 seconds --------------------------------------------

  /** In this run neither direction reads a chunk, and `w` gives up before `limit`. */
  ghost predicate TimesOutBefore(p: Pair, es: seq<Event>, w: Way, limit: nat) {
    && ValidRun(p, es)
    && Activities(p, es, Down) == 0 && Activities(p, es, Up) == 0
    && Run(p, es).Get(w).phase == Done(TimedOut) && Run(p, es).clock < limit
  }

  lemma QuietStep(p: Pair, e: Event)
    requires Enabled(p, e) && !Activity(p, e, Down) && !Activity(p, e, Up)
    ensures var q := Apply(p, e);
            q.stamp == p.stamp && q.stampAt == p.stampAt && q.down.stores == p.down.stores && q.up.stores == p.up.stores
  {
    if e.Own? {
      OwnStep(p, e.way, e.act);
    } else {
      OuterStep(p, e, Down);
      OuterStep(p, e, Up);
    }
  }

  /** A loop that has timed out did so 20 whole seconds after the stamp. */
  predicate TimedOutDue(p: Pair, w: Way) {
    p.Get(w).phase == Done(TimedOut) ==> Secs(p.clock) >= p.stamp + TIMEOUT
  }

  lemma QuietStepDue(p: Pair, e: Event, w: Way)
    requires IdleInv(p) && TimedOutDue(p, w) && Enabled(p, e) && !Activity(p, e, Down) && !Activity(p, e, Up)
    ensures TimedOutDue(Apply(p, e), w) && Apply(p, e).stamp == p.stamp
  {
    QuietStep(p, e);
    if e.Own? {
      OwnStep(p, e.way, e.act);
    } else {
      OuterStep(p, e, w);
    }
  }

  lemma {:induction false} QuietRunDue(p: Pair, es: seq<Event>, w: Way)
    requires IdleInv(p) && TimedOutDue(p, w) && ValidRun(p, es)
    requires Activities(p, es, Down) == 0 && Activities(p, es, Up) == 0
    ensures TimedOutDue(Run(p, es), w) && Run(p, es).stamp == p.stamp
    decreases |es|
  {
    if es != [] {
      QuietStepDue(p, es[0], w);
      StepIdle(p, es[0]);
      QuietRunDue(Apply(p, es[0]), es[1..], w);
    }
  }

  lemma QuietCons(p: Pair, e: Event, es: seq<Event>, w: Way, limit: nat)
    requires Enabled(p, e) && !Activity(p, e, Down) && !Activity(p, e, Up) && TimesOutBefore(Apply(p, e), es, w, limit)
    ensures TimesOutBefore(p, [e] + es, w, limit)
  {
    RunCons(p, e, es);
    assert ([e] + es)[1..] == es;
  }

  /** Nothing comes to the source of `w`. */
  predicate NoInput(es: seq<Event>, w: Way) {
    forall i :: 0 <= i < |es| ==> es[i] != Close(w) && !(es[i].Feed? && es[i].way == w) && !(es[i].Arrive? && es[i].way == w)
  }

  /** What a loop with nothing to read does next, once 20 whole seconds have passed since the stamp. */
  function NextWhenDue(d: Direction): Act
    requires !d.phase.Peeked? && !d.phase.Writing? && !d.phase.Done?
  {
    match d.phase
    case Top => ReadClock
    case Clocked(_) => LoadStamp
    case Loaded(_) => Arm
    case Armed(_) => PollStop
    case Polled(_) => PollTimer(false)
    case Woken(_) => Decide
  }

  /** The loop is at a point from where its timer, in a due state, ends it at once. */
  predicate AboutToEnd(p: Pair, w: Way) {
    match p.Get(w).phase
    case Top => true
    case Clocked(now) => now >= p.stamp + TIMEOUT
    case Loaded(timeout) => timeout == 0
    case Armed(deadline) => p.clock >= deadline
    case Polled(deadline) => p.clock >= deadline
    case Woken(now) => now >= p.stamp + TIMEOUT
    case _ => false
  }

  function StepsToEnd(d: Direction): nat {
    match d.phase
    case Top => 6
    case Clocked(_) => 5
    case Loaded(_) => 4
    case Armed(_) => 3
    case Polled(_) => 2
    case _ => 1
  }

  /** Nothing to read, no word from the stop channel, and 20 whole seconds since the stamp. */
  predicate Due(p: Pair, w: Way) {
    Secs(p.clock) >= p.stamp + TIMEOUT && !p.Get(w).src.ReadReady() && !p.watch.Ready(p.Get(w).seen)
  }

  lemma DueStep(p: Pair, w: Way)
    requires Due(p, w) && AboutToEnd(p, w)
    ensures CanAct(p.Get(w), NextWhenDue(p.Get(w)))
    ensures var q := Apply(p, Own(w, NextWhenDue(p.Get(w))));
            && q.Get(w).stores == p.Get(w).stores && q.clock == p.clock
            && (if p.Get(w).phase.Woken? then q.Get(w).phase == Done(TimedOut)
                else Due(q, w) && AboutToEnd(q, w) && StepsToEnd(q.Get(w)) < StepsToEnd(p.Get(w)))
  {
    OwnStep(p, w, NextWhenDue(p.Get(w)));
  }

  lemma {:induction false} EndsWhenDue(p: Pair, w: Way) returns (es: seq<Event>)
    requires Due(p, w) && AboutToEnd(p, w)
    ensures TimesOutBefore(p, es, w, p.clock + 1) && NoInput(es, w)
    decreases StepsToEnd(p.Get(w))
  {
    var e := Own(w, NextWhenDue(p.Get(w)));
    DueStep(p, w);
    StepCounts(p, e, Down);
    StepCounts(p, e, Up);
    OwnStep(p, w, e.act);
    if p.Get(w).phase.Woken? {
      assert TimesOutBefore(Apply(p, e), [], w, p.clock + 1);
      es := [];
    } else {
      es := EndsWhenDue(Apply(p, e), w);
    }
    QuietCons(p, e, es, w, p.clock + 1);
    es := [e] + es;
  }

  ghost predicate CanTimeOutBefore(p: Pair, w: Way, limit: nat) {
    exists es :: TimesOutBefore(p, es, w, limit)
  }

  ghost predicate CanTimeOutUnfed(p: Pair, w: Way, limit: nat) {
    exists es :: TimesOutBefore(p, es, w, limit) && NoInput(es, w)
  }

  /**
   From the top of an iteration with nothing to read, less than 20 real seconds after the last
   activity: without further activity the loop can give up short of 20 seconds exactly if that
   activity did not fall on the turn of a second.
   */
  lemma EarlyTimeoutIff(p: Pair, w: Way)
    requires IdleInv(p) && p.Get(w).phase.Top? && p.clock < p.stampAt + TIMEOUT * NANOS
    requires !p.Get(w).src.ReadReady() && !p.watch.Ready(p.Get(w).seen)
    ensures CanTimeOutBefore(p, w, p.stampAt + TIMEOUT * NANOS) <==> p.stampAt % NANOS > 0
  {
    var limit := p.stampAt + TIMEOUT * NANOS;
    assert p.stampAt == p.stamp * NANOS + p.stampAt % NANOS;
    forall es | TimesOutBefore(p, es, w, limit)
      ensures p.stampAt % NANOS > 0
    {
      QuietRunDue(p, es, w);
    }
    if p.stampAt % NANOS > 0 {
      var due := (p.stamp + TIMEOUT) * NANOS;
      var e := Tick(if p.clock < due then due - p.clock else 0);
      var q := Apply(p, e);
      assert q.clock < limit && Secs(q.clock) >= p.stamp + TIMEOUT;
      var es := EndsWhenDue(q, w);
      QuietCons(p, e, es, w, limit);
    }
  }

  // ---- the same, for a timer that is armed ------------------------------------------------

  /** The loop waits for its timer at `deadline`, was told to stop, or has lost its sender. */
  predicate AwaitsTimer(d: Direction, clock: nat, watch: Watch, stamp: nat, deadline: nat) {
    && !d.src.ReadReady()
    && (d.phase.Done? || d.seen == watch.version || watch.value)
    && match d.phase
       case Top => !watch.senderAlive
       case Clocked(_) => !watch.senderAlive
       case Loaded(_) => !watch.senderAlive
       case Armed(x) => x == deadline || !watch.senderAlive
       case Polled(x) => x == deadline
       case Woken(now) => now >= stamp + TIMEOUT && clock >= deadline
       case Done(reason) => reason == TimedOut ==> clock >= deadline
       case _ => false
  }

  lemma AwaitsTimerAct(d: Direction, a: Act, clock: nat, watch: Watch, stamp: nat, others: nat, deadline: nat)
    requires CanAct(d, a) && AwaitsTimer(d, clock, watch, stamp, deadline) && deadline >= (stamp + TIMEOUT) * NANOS
    ensures AwaitsTimer(Act1(d, a, clock, watch, stamp, others), clock, watch, stamp, deadline)
  {
  }

  predicate Awaits(p: Pair, w: Way, deadline: nat) {
    AwaitsTimer(p.Get(w), p.clock, p.watch, p.stamp, deadline) && deadline >= (p.stamp + TIMEOUT) * NANOS
  }

  lemma AwaitsTimerStep(p: Pair, e: Event, w: Way, deadline: nat)
    requires Enabled(p, e) && Awaits(p, w, deadline)
    requires NoInput([e], w) && !Activity(p, e, Down) && !Activity(p, e, Up)
    ensures Awaits(Apply(p, e), w, deadline)
  {
    QuietStep(p, e);
    assert [e][0] == e;
    if e.Own? {
      OwnStep(p, e.way, e.act);
      if e.way == w {
        AwaitsTimerAct(p.Get(w), e.act, p.clock, p.watch, p.stamp, |p.Get(Opposite(w)).stores|, deadline);
      }
    } else {
      OuterStep(p, e, w);
      assert !p.Get(w).src.ReadReady() ==> !Apply(p, e).Get(w).src.ReadReady();
    }
  }

  lemma {:induction false} AwaitsTimerRun(p: Pair, es: seq<Event>, w: Way, deadline: nat)
    requires ValidRun(p, es) && Awaits(p, w, deadline)
    requires NoInput(es, w) && Activities(p, es, Down) == 0 && Activities(p, es, Up) == 0
    ensures Awaits(Run(p, es), w, deadline)
    decreases |es|
  {
    if es != [] {
      assert forall i :: 0 <= i < |es[1..]| ==> es[1..][i] == es[i + 1];
      AwaitsTimerStep(p, es[0], w, deadline);
      AwaitsTimerRun(Apply(p, es[0]), es[1..], w, deadline);
    }
  }

  /**
   Once the timer is armed with the current stamp, its deadline decides: if nothing more comes in,
   the loop can give up short of 20 real seconds exactly if the deadline is short of them.
   */
  lemma EarlyDeadlineIff(p: Pair, w: Way)
    requires IdleInv(p) && p.Get(w).phase.Armed? && p.Get(w).mark == |p.Get(Opposite(w)).stores|
    requires !p.Get(w).src.ReadReady() && p.Get(w).seen == p.watch.version && p.watch.senderAlive
    requires p.clock < p.stampAt + TIMEOUT * NANOS
    ensures CanTimeOutUnfed(p, w, p.stampAt + TIMEOUT * NANOS) <==> p.Get(w).phase.deadline < p.stampAt + TIMEOUT * NANOS
  {
    var limit, deadline := p.stampAt + TIMEOUT * NANOS, p.Get(w).phase.deadline;
    assert deadline >= (p.stamp + TIMEOUT) * NANOS;
    forall es | TimesOutBefore(p, es, w, limit) && NoInput(es, w)
      ensures deadline < limit
    {
      AwaitsTimerRun(p, es, w, deadline);
    }
    if deadline < limit {
      var e := Tick(if p.clock < deadline then deadline - p.clock else 0);
      var es := EndsWhenDue(Apply(p, e), w);
      QuietCons(p, e, es, w, limit);
      assert NoInput([e] + es, w);
    }
  }

  /**
   A loop that reads the clock, loads the stamp and arms its timer without delay: whether the timeout
   can come short of 20 real seconds is then a matter of the fractions of a second, that of the moment
   it was armed against that of the last activity.
   */
  lemma PromptTimeoutIff(p: Pair, w: Way, q: Pair)
    requires IdleInv(p) && p.Get(w).phase.Top? && Secs(p.clock) < p.stamp + TIMEOUT
    requires !p.Get(w).src.ReadReady() && p.Get(w).seen == p.watch.version && p.watch.senderAlive
    requires ValidRun(p, [Own(w, ReadClock), Own(w, LoadStamp), Own(w, Arm)])
    requires q == Run(p, [Own(w, ReadClock), Own(w, LoadStamp), Own(w, Arm)])
    ensures CanTimeOutUnfed(q, w, q.stampAt + TIMEOUT * NANOS) <==> p.clock % NANOS < p.stampAt % NANOS
  {
    var es := [Own(w, ReadClock), Own(w, LoadStamp), Own(w, Arm)];
    RunIdle(p, es);
    OwnStep(p, w, ReadClock);
    var p1 := Apply(p, Own(w, ReadClock));
    OwnStep(p1, w, LoadStamp);
    var p2 := Apply(p1, Own(w, LoadStamp));
    OwnStep(p2, w, Arm);
    assert es == [Own(w, ReadClock)] + ([Own(w, LoadStamp)] + ([Own(w, Arm)] + []));
    RunCons(p2, Own(w, Arm), []);
    RunCons(p1, Own(w, LoadStamp), [Own(w, Arm)] + []);
    RunCons(p, Own(w, ReadClock), [Own(w, LoadStamp)] + ([Own(w, Arm)] + []));
    assert q == Apply(p2, Own(w, Arm));
    var fraction := p.clock % NANOS;
    assert p.clock == Secs(p.clock) * NANOS + fraction && p.stampAt == p.stamp * NANOS + p.stampAt % NANOS;
    assert q.Get(w).phase == Armed((p.stamp + TIMEOUT) * NANOS + fraction);
    EarlyDeadlineIff(q, w);
  }

  /** One direction goes from the top of its loop to the poll of its source. */
  lemma ReachesPolled(p: Pair, q: Pair, w: Way) returns (q': Pair)
    requires Reaches(p, q) && q.Get(w).phase == Top && !q.watch.Ready(q.Get(w).seen)
    ensures Reaches(p, q')
    ensures var deadline := q.clock + Timeout(Secs(q.clock), q.stamp) * NANOS;
            q' == q.Put(w, q.Get(w).(phase := Polled(deadline), mark := |q.Get(Opposite(w)).stores|))
  {
    ReachesNext(p, q, Own(w, ReadClock));
    var q1 := q.Put(w, q.Get(w).(phase := Clocked(Secs(q.clock))));
    assert q1 == Apply(q, Own(w, ReadClock));
    ReachesNext(p, q1, Own(w, LoadStamp));
    var timeout := Timeout(Secs(q.clock), q.stamp);
    var q2 := q.Put(w, q.Get(w).(phase := Loaded(timeout), mark := |q.Get(Opposite(w)).stores|));
    assert q2 == Apply(q1, Own(w, LoadStamp));
    ReachesNext(p, q2, Own(w, Arm));
    var q3 := q2.Put(w, q2.Get(w).(phase := Armed(q.clock + timeout * NANOS)));
    assert q3 == Apply(q2, Own(w, Arm));
    ReachesNext(p, q3, Own(w, PollStop));
    q' := Apply(q3, Own(w, PollStop));
  }

  /** The receiving direction is parked until second 20; the other one reads just before second 1. */
  lemma ReachesAboutToRead(p: Pair) returns (q: Pair)
    requires p == Start(0, Watch(false, 0, true), 0, Stream([], false))
    ensures Reaches(p, q) && q.clock == NANOS - 1 && q.watch == p.watch && q.stamp == 0
    ensures q.down == p.down.(phase := Armed(TIMEOUT * NANOS)) && q.up == Fill(p.up, [0])
  {
    ReachesSelf(p);
    var q1 := ReachesPolled(p, p, Down);
    assert q1.down == p.down.(phase := Polled(TIMEOUT * NANOS));
    ReachesNext(p, q1, Own(Down, PollTimer(false)));
    var q2 := Apply(q1, Own(Down, PollTimer(false)));
    ReachesNext(p, q2, Tick(NANOS - 1));
    var q3 := Apply(q2, Tick(NANOS - 1));
    ReachesNext(p, q3, Feed(Up, [0]));
    q := Apply(q3, Feed(Up, [0]));
  }

  /** From there the receiving direction times out at second 20. */
  lemma ReachesTimeout(p: Pair, q: Pair) returns (r: Pair)
    requires Reaches(p, q) && q.stamp == 0 && q.up.phase.Polled? && q.down.phase == Armed(20 * NANOS)
    requires !q.watch.Ready(q.down.seen) && q.down.src == Stream([], false) && q.up.src == Stream([0], false)
    requires q.clock == NANOS - 1
    ensures Reaches(p, r) && r.down.phase == Done(TimedOut)
    ensures r.up.stores == q.up.stores + [NANOS - 1] && r.clock == 20 * NANOS
  {
    ReachesNext(p, q, Own(Up, ReadStream(1)));
    var q1 := Apply(q, Own(Up, ReadStream(1)));
    assert q1.stamp == 0 && q1.down == q.down && q1.clock == q.clock && q1.watch == q.watch;
    ReachesNext(p, q1, Tick(19 * NANOS + 1));
    var q2 := Apply(q1, Tick(19 * NANOS + 1));
    ReachesNext(p, q2, Own(Down, PollStop));
    var q3 := Apply(q2, Own(Down, PollStop));
    assert q3 == q2.(down := q2.down.(phase := Polled(20 * NANOS)));
    ReachesNext(p, q3, Own(Down, PollTimer(false)));
    var q4 := Apply(q3, Own(Down, PollTimer(false)));
    assert q4 == q2.(down := q2.down.(phase := Woken(20)));
    ReachesNext(p, q4, Own(Down, Decide));
    r := Apply(q4, Own(Down, Decide));
  }

  /** 19 seconds and one nanosecond of idleness can be enough: the bound above is exact. */
  lemma TimeoutBeforeTwentySeconds() returns (r: Pair)
    ensures Reaches(Start(0, Watch(false, 0, true), 0, Stream([], false)), r)
    ensures r.down.phase == Done(TimedOut)
    ensures |r.up.stores| == 1 && r.clock - r.up.stores[0] == 19_000_000_001
  {
    var p := Start(0, Watch(false, 0, true), 0, Stream([], false));
    var q := ReachesAboutToRead(p);
    var q' := ReachesPolled(p, q, Up);
    r := ReachesTimeout(p, q');
  }
}
