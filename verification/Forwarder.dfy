/**
 One session's two forwarding loops as a state machine.

 Both directions of every forwarder (TCP or UDP, host or client) run the same loop: read the
 clock, load the shared stamp, arm a timer, then select, in this order, the stop channel, the
 source and the timer. A `Direction` is one loop, a `Pair` is the two loops with what they share.
 An event is one atomic step of one loop or of its surroundings, and a run is any sequence of
 enabled events, so a statement about all runs covers every interleaving.
 */
module Forwarder {
  import opened Common

  const NANOS: nat := 1_000_000_000

  /** The clock as the loops see it: truncated to whole seconds. */
  function Secs(t: nat): nat {
    t / NANOS
  }

  function SaturatingSub(a: nat, b: nat): nat {
    if a >= b then a - b else 0
  }

  /** The sleep, in seconds, that an iteration arms. */
  function Timeout(now: nat, last: nat): nat {
    var elapsed := SaturatingSub(now, last);
    if elapsed >= TIMEOUT then 0 else TIMEOUT - elapsed
  }

  /** A watch channel: the current value, its version, and whether the sender still exists. */
  datatype Watch = Watch(value: bool, version: nat, senderAlive: bool) {
    /** `changed()` completes on an unseen version, and at once when the sender is gone. */
    predicate Ready(seen: nat) {
      seen != version || !senderAlive
    }

    function Stop(): Watch {
      Watch(true, version + 1, senderAlive)
    }
  }

  /** Where a direction reads from: a byte stream, or a datagram queue, filtered by sender or not. */
  datatype Source =
    | Stream(buf: seq<Byte>, closed: bool)
    | Socket(queue: seq<Datagram>, own: Option<Addr>)
  {
    predicate ReadReady() {
      if Stream? then buf != [] || closed else queue != []
    }

    predicate Accepts(d: Datagram)
      requires Socket?
    {
      own.None? || d.from == own.value
    }
  }

  datatype Reason = Stopped | SourceEnded | TimedOut

  datatype Phase =
    | Top                            // start of an iteration
    | Clocked(now: nat)              // clock read
    | Loaded(timeout: nat)           // stamp loaded, sleep computed
    | Armed(deadline: nat)           // parked in the select
    | Polled(deadline: nat)          // this poll found the stop branch not ready
    | Peeked(buf: seq<Byte>)         // UDP client: peeked an own datagram, not yet received
    | Writing(rest: seq<Byte>)       // chunk read and stamp stored, write in progress
    | Woken(now: nat)                // timer branch taken, clock read
    | Done(reason: Reason)

  /**
   `fed`, `taken`, `got`, `out`, `stores`, `wakes` and `mark` record the direction's past: bytes
   that reached the source, bytes and datagrams read, pieces written, the times of the activity
   stores, the timer wake-ups that did not end the loop, and the number of stores the opposite
   direction had made when this iteration loaded the stamp.
   */
  datatype Direction = Direction(
    phase: Phase, seen: nat, src: Source, datagramSink: bool,
    fed: seq<Byte>, taken: seq<Byte>, got: seq<Datagram>, out: seq<seq<Byte>>,
    stores: seq<nat>, wakes: nat, mark: nat)
  {
    /** The bytes the sink has received. */
    function Delivered(): seq<Byte> {
      Flat(out)
    }
  }

  datatype Way = Down | Up     // Down: tunnel to local socket, Up: local socket to tunnel

  function Opposite(w: Way): Way {
    if w == Down then Up else Down
  }

  /** The two loops and what they share; `stampAt` is the untruncated time of the last store. */
  datatype Pair = Pair(clock: nat, watch: Watch, stamp: nat, stampAt: nat, down: Direction, up: Direction) {
    function Get(w: Way): Direction {
      if w == Down then down else up
    }

    function Put(w: Way, d: Direction): Pair {
      if w == Down then this.(down := d) else this.(up := d)
    }

    /** The join completes when both loops have ended. */
    predicate Joined() {
      down.phase.Done? && up.phase.Done?
    }
  }

  datatype Act =
    | ReadClock
    | LoadStamp
    | Arm
    | PollStop
    | ReadStream(n: nat)
    | Receive                   // connected UDP socket
    | Peek                      // shared UDP socket of the client
    | ReceivePeeked
    | ReceiveFails
    | PollTimer(failed: bool)   // read branch not ready, or disabled by a failed read
    | Decide
    | Write(k: nat)

  datatype Event =
    | Own(way: Way, act: Act)
    | Tick(dt: nat)
    | SendStop
    | DropSender
    | Feed(way: Way, bytes: seq<Byte>)
    | Close(way: Way)
    | Arrive(way: Way, dgram: Datagram)

  // ---- one loop ---------------------------------------------------------------------------

  predicate CanAct(d: Direction, a: Act) {
    match a
    case ReadClock => d.phase.Top?
    case LoadStamp => d.phase.Clocked?
    case Arm => d.phase.Loaded?
    case PollStop => d.phase.Armed?
    case ReadStream(n) =>
      d.phase.Polled? && d.src.Stream? && d.src.ReadReady() &&
      (if d.src.buf == [] then n == 0 else 1 <= n <= Min(|d.src.buf|, BUFFER_SIZE))
    case Receive => d.phase.Polled? && d.src.Socket? && d.src.own.None? && d.src.queue != []
    case Peek => d.phase.Polled? && d.src.Socket? && d.src.own.Some? && d.src.queue != []
    case ReceivePeeked => d.phase.Peeked? && d.src.Socket? && d.src.queue != []
    case ReceiveFails => d.phase.Peeked?
    case PollTimer(failed) => d.phase.Polled? && (failed || !d.src.ReadReady())
    case Decide => d.phase.Woken?
    case Write(k) =>
      d.phase.Writing? && 1 <= k <= |d.phase.rest| && (d.datagramSink ==> k == |d.phase.rest|)
  }

  /** A nonempty chunk was read: record it, stamp the activity, start writing. */
  function TakeChunk(d: Direction, chunk: seq<Byte>, clock: nat): Direction {
    d.(taken := d.taken + chunk, stores := d.stores + [clock], phase := Writing(chunk))
  }

  /** A piece of the chunk went out; go on with the rest. */
  function PutPiece(d: Direction, piece: seq<Byte>, rest: seq<Byte>): Direction {
    d.(out := d.out + [piece], phase := if rest == [] then Top else Writing(rest))
  }

  /** Remove the head datagram; an empty payload ends the loop. */
  function TakeDatagram(d: Direction, payload: seq<Byte>, clock: nat): Direction
    requires d.src.Socket? && d.src.queue != []
  {
    var d' := d.(src := d.src.(queue := d.src.queue[1..]), got := d.got + [d.src.queue[0]]);
    if payload == [] then d'.(phase := Done(SourceEnded)) else TakeChunk(d', payload, clock)
  }

  /** A receive of at most `|buf|` bytes overwrites the front of the peeked buffer. */
  function Overwrite(buf: seq<Byte>, data: seq<Byte>): seq<Byte> {
    var m := Min(|buf|, |data|);
    data[..m] + buf[m..]
  }

  function Act1(d: Direction, a: Act, clock: nat, watch: Watch, stamp: nat, otherStores: nat): Direction
    requires CanAct(d, a)
  {
    match a
    case ReadClock => d.(phase := Clocked(Secs(clock)))
    case LoadStamp => d.(phase := Loaded(Timeout(d.phase.now, stamp)), mark := otherStores)
    case Arm => d.(phase := Armed(clock + d.phase.timeout * NANOS))
    case PollStop =>
      if watch.Ready(d.seen) then
        d.(seen := watch.version, phase := if watch.value then Done(Stopped) else Top)
      else
        d.(phase := Polled(d.phase.deadline))
    case ReadStream(n) =>
      if n == 0 then d.(phase := Done(SourceEnded))
      else TakeChunk(d.(src := d.src.(buf := d.src.buf[n..])), d.src.buf[..n], clock)
    case Receive => TakeDatagram(d, Cut(d.src.queue[0].data), clock)
    case Peek =>
      if d.src.queue[0].from != d.src.own.value then d.(phase := Top)
      else d.(phase := Peeked(Cut(d.src.queue[0].data)))
    case ReceivePeeked => TakeDatagram(d, Overwrite(d.phase.buf, d.src.queue[0].data), clock)
    case ReceiveFails => d.(phase := Top)
    case PollTimer(_) =>
      if clock >= d.phase.deadline then d.(phase := Woken(Secs(clock)))
      else d.(phase := Armed(d.phase.deadline))
    case Decide =>
      if SaturatingSub(d.phase.now, stamp) >= TIMEOUT then d.(phase := Done(TimedOut))
      else d.(phase := Top, wakes := d.wakes + 1)
    case Write(k) => PutPiece(d, d.phase.rest[..k], d.phase.rest[k..])
  }

  // ---- what the surroundings do to a source -----------------------------------------------

  function Fill(d: Direction, bytes: seq<Byte>): Direction
    requires d.src.Stream?
  {
    d.(src := d.src.(buf := d.src.buf + bytes), fed := d.fed + bytes)
  }

  function Shut(d: Direction): Direction
    requires d.src.Stream?
  {
    d.(src := d.src.(closed := true))
  }

  function Enqueue(d: Direction, x: Datagram): Direction
    requires d.src.Socket?
  {
    d.(src := d.src.(queue := d.src.queue + [x]), fed := if d.src.Accepts(x) then d.fed + Cut(x.data) else d.fed)
  }

  // ---- the pair ---------------------------------------------------------------------------

  predicate Enabled(p: Pair, e: Event) {
    match e
    case Own(w, a) => CanAct(p.Get(w), a)
    case Tick(_) => true
    case SendStop => p.watch.senderAlive
    case DropSender => p.watch.senderAlive
    case Feed(w, _) => p.Get(w).src.Stream? && !p.Get(w).src.closed
    case Close(w) => p.Get(w).src.Stream?
    case Arrive(w, _) => p.Get(w).src.Socket?
  }

  function Apply(p: Pair, e: Event): Pair
    requires Enabled(p, e)
  {
    match e
    case Own(w, a) =>
      var d := p.Get(w);
      var d' := Act1(d, a, p.clock, p.watch, p.stamp, |p.Get(Opposite(w)).stores|);
      var p' := p.Put(w, d');
      if |d'.stores| > |d.stores| then p'.(stamp := Secs(p.clock), stampAt := p.clock) else p'
    case Tick(dt) => p.(clock := p.clock + dt)
    case SendStop => p.(watch := p.watch.Stop())
    case DropSender => p.(watch := p.watch.(senderAlive := false))
    case Feed(w, bytes) => p.Put(w, Fill(p.Get(w), bytes))
    case Close(w) => p.Put(w, Shut(p.Get(w)))
    case Arrive(w, x) => p.Put(w, Enqueue(p.Get(w), x))
  }

  /** A step of one loop leaves the clock, the channel and the other loop alone. */
  lemma OwnStep(p: Pair, w: Way, a: Act)
    requires CanAct(p.Get(w), a)
    ensures var p' := Apply(p, Own(w, a));
            && p'.Get(w) == Act1(p.Get(w), a, p.clock, p.watch, p.stamp, |p.Get(Opposite(w)).stores|)
            && p'.Get(Opposite(w)) == p.Get(Opposite(w)) && p'.clock == p.clock && p'.watch == p.watch
            && (p'.Get(w).stores == p.Get(w).stores || p'.Get(w).stores == p.Get(w).stores + [p.clock])
            && (if p'.Get(w).stores == p.Get(w).stores
                then p'.stamp == p.stamp && p'.stampAt == p.stampAt
                else p'.stamp == Secs(p.clock) && p'.stampAt == p.clock)
  {
  }

  /** The surroundings only move the clock, the channel and what waits in the sources. */
  lemma OuterStep(p: Pair, e: Event, w: Way)
    requires !e.Own? && Enabled(p, e)
    ensures var p' := Apply(p, e);
            && p'.Get(w) == p.Get(w).(src := p'.Get(w).src, fed := p'.Get(w).fed)
            && p'.stamp == p.stamp && p'.stampAt == p.stampAt && p'.clock >= p.clock
  {
  }

  ghost predicate ValidRun(p: Pair, es: seq<Event>)
    decreases |es|
  {
    es == [] || (Enabled(p, es[0]) && ValidRun(Apply(p, es[0]), es[1..]))
  }

  ghost function Run(p: Pair, es: seq<Event>): Pair
    requires ValidRun(p, es)
    decreases |es|
  {
    if es == [] then p else Run(Apply(p, es[0]), es[1..])
  }

  lemma RunCons(p: Pair, e: Event, es: seq<Event>)
    requires Enabled(p, e) && ValidRun(Apply(p, e), es)
    ensures ValidRun(p, [e] + es) && Run(p, [e] + es) == Run(Apply(p, e), es)
  {
    assert ([e] + es)[1..] == es;
  }

  /** Runs compose. */
  lemma {:induction false} RunConcat(p: Pair, es: seq<Event>, fs: seq<Event>)
    requires ValidRun(p, es)
    ensures ValidRun(p, es + fs) <==> ValidRun(Run(p, es), fs)
    ensures ValidRun(p, es + fs) ==> Run(p, es + fs) == Run(Run(p, es), fs)
    decreases |es|
  {
    if es == [] {
      assert es + fs == fs;
    } else {
      assert (es + fs)[1..] == es[1..] + fs;
      RunConcat(Apply(p, es[0]), es[1..], fs);
    }
  }

  lemma RunAppend(p: Pair, es: seq<Event>, e: Event)
    requires ValidRun(p, es) && Enabled(Run(p, es), e)
    ensures ValidRun(p, es + [e]) && Run(p, es + [e]) == Apply(Run(p, es), e)
  {
    RunConcat(p, es, [e]);
    assert ValidRun(Apply(Run(p, es), e), [e][1..]);
  }

  ghost predicate Reaches(p: Pair, q: Pair) {
    exists es :: ValidRun(p, es) && Run(p, es) == q
  }

  lemma ReachesSelf(p: Pair)
    ensures Reaches(p, p)
  {
    assert ValidRun(p, []);
  }

  lemma ReachesNext(p: Pair, q: Pair, e: Event)
    requires Reaches(p, q) && Enabled(q, e)
    ensures Reaches(p, Apply(q, e))
  {
    var es :| ValidRun(p, es) && Run(p, es) == q;
    RunAppend(p, es, e);
  }

  // ---- starting a session -----------------------------------------------------------------

  /** The bytes a session would read from a datagram queue: its own datagrams, each cut. */
  function Payload(queue: seq<Datagram>, own: Option<Addr>): seq<Byte> {
    if queue == [] then []
    else (if own.None? || queue[0].from == own.value then Cut(queue[0].data) else []) + Payload(queue[1..], own)
  }

  function Content(src: Source): seq<Byte> {
    match src
    case Stream(buf, _) => buf
    case Socket(queue, own) => Payload(queue, own)
  }

  function Fresh(seen: nat, src: Source, datagramSink: bool): Direction {
    Direction(Top, seen, src, datagramSink, Content(src), [], [], [], [], 0, 0)
  }

  /** Both loops start with a clone of the same receiver, right after the stamp is set. */
  function Start(clock: nat, watch: Watch, seen: nat, local: Source): Pair {
    Pair(clock, watch, Secs(clock), clock, Fresh(seen, Stream([], false), local.Socket?), Fresh(seen, local, false))
  }
}
