/**
 The forwarding loops as tasks that update shared state in place: two loops hold references to one
 `Shared` object, as the spawned tasks hold clones of the same stamp and stop channel, and each reads
 into a buffer array of its own that it overwrites from read to read. Each method is proved to do what
 the event of the same name does to the state machine, in which a chunk is a value, so everything
 proved of its runs holds of the tasks: a stale byte of an earlier read is never forwarded.
 */
module ForwarderTasks {
  import opened Common
  import opened Forwarder
  import Fidelity

  class Shared {
    var clock: nat
    var watch: Watch
    var stamp: nat
    ghost var stampAt: nat

    constructor (clock: nat, watch: Watch)
      ensures this.clock == clock && this.watch == watch && stamp == Secs(clock) && stampAt == clock
    {
      this.clock, this.watch, stamp, stampAt := clock, watch, Secs(clock), clock;
    }
  }

  /** Where a loop is; the data that goes with it is in the loop's variables. */
  datatype Point =
    | AtTop | AtClocked | AtLoaded | AtArmed | AtPolled | AtPeeked | AtWriting | AtWoken
    | AtEnd(reason: Reason)

  /** Copies the front of `data` over the front of the buffer. */
  method CopyInto(buf: array<Byte>, data: seq<Byte>, n: nat)
    requires n <= buf.Length && n <= |data|
    modifies buf
    ensures buf[..n] == data[..n] && buf[n..] == old(buf[n..])
  {
    var i := 0;
    while i < n
      invariant 0 <= i <= n && buf[..i] == data[..i] && buf[i..] == old(buf[i..])
    {
      buf[i] := data[i];
      i := i + 1;
    }
  }

  class Loop {
    const shared: Shared
    const datagramSink: bool
    const buf: array<Byte>
    var at: Point
    var now: nat          // the clock, in seconds, when last read
    var timeout: nat      // the sleep of this iteration, in seconds
    var deadline: nat     // when its timer fires
    var lo: nat
    var hi: nat           // the chunk in hand is buf[lo..hi]
    var seen: nat
    var src: Source
    var out: seq<seq<Byte>>
    ghost var fed: seq<Byte>
    ghost var taken: seq<Byte>
    ghost var got: seq<Datagram>
    ghost var stores: seq<nat>
    ghost var wakes: nat
    ghost var mark: nat

    ghost predicate Valid()
      reads this
    {
      buf.Length == BUFFER_SIZE && lo <= hi <= BUFFER_SIZE && (at.AtPeeked? ==> lo == 0)
    }

    constructor (shared: Shared, seen: nat, src: Source, datagramSink: bool)
      ensures this.shared == shared && fresh(buf) && Valid() && View() == Fresh(seen, src, datagramSink)
    {
      this.shared, this.seen, this.src, this.datagramSink := shared, seen, src, datagramSink;
      buf := new Byte[BUFFER_SIZE](_ => 0);
      at, out, now, timeout, deadline, lo, hi := AtTop, [], 0, 0, 0, 0, 0;
      fed, taken, got, stores, wakes, mark := Content(src), [], [], [], 0, 0;
    }

    ghost function PhaseView(): Phase
      requires Valid()
      reads this, buf
    {
      match at
      case AtTop => Top
      case AtClocked => Clocked(now)
      case AtLoaded => Loaded(timeout)
      case AtArmed => Armed(deadline)
      case AtPolled => Polled(deadline)
      case AtPeeked => Peeked(buf[lo..hi])
      case AtWriting => Writing(buf[lo..hi])
      case AtWoken => Woken(now)
      case AtEnd(reason) => Done(reason)
    }

    ghost function View(): Direction
      requires Valid()
      reads this, buf
    {
      Direction(PhaseView(), seen, src, datagramSink, fed, taken, got, out, stores, wakes, mark)
    }

    /** A chunk was read into the front of the buffer: stamp the activity, then start writing. */
    method Store(n: nat)
      requires Valid() && n <= BUFFER_SIZE
      modifies this`taken, this`stores, this`at, this`lo, this`hi, shared`stamp, shared`stampAt
      ensures Valid() && View() == TakeChunk(old(View()), buf[..n], shared.clock)
      ensures shared.stamp == Secs(shared.clock) && shared.stampAt == shared.clock
    {
      taken, stores := taken + buf[..n], stores + [shared.clock];
      shared.stamp, shared.stampAt := Secs(shared.clock), shared.clock;
      lo, hi, at := 0, n, AtWriting;
    }

    /** The head datagram was received into the front of the buffer. */
    method Dequeue(n: nat)
      requires Valid() && src.Socket? && src.queue != [] && n <= BUFFER_SIZE
      modifies this, shared`stamp, shared`stampAt
      ensures Valid() && View() == TakeDatagram(old(View()), buf[..n], shared.clock)
      ensures Stamped(old(stores), old(shared.stamp), old(shared.stampAt))
    {
      got := got + [src.queue[0]];
      src := src.(queue := src.queue[1..]);
      if n == 0 {
        at := AtEnd(SourceEnded);
      } else {
        Store(n);
      }
    }

    /** The stamp moved exactly if a chunk was read. */
    ghost predicate Stamped(oldStores: seq<nat>, oldStamp: nat, oldStampAt: nat)
      reads this, shared
    {
      if |stores| > |oldStores| then shared.stamp == Secs(shared.clock) && shared.stampAt == shared.clock
      else shared.stamp == oldStamp && shared.stampAt == oldStampAt
    }

    /** The top of the loop: read the clock, load the stamp, arm the timer. */
    method Prepare(a: Act, ghost others: nat)
      requires Valid() && CanAct(View(), a) && (a.ReadClock? || a.LoadStamp? || a.Arm?)
      modifies this
      ensures Valid() && View() == Act1(old(View()), a, shared.clock, shared.watch, shared.stamp, others)
      ensures stores == old(stores)
    {
      match a
      case ReadClock => now, at := Secs(shared.clock), AtClocked;
      case LoadStamp =>
        var elapsed := SaturatingSub(now, shared.stamp);
        timeout := if elapsed >= TIMEOUT then 0 else TIMEOUT - elapsed;
        mark, at := others, AtLoaded;
      case Arm => deadline, at := shared.clock + timeout * NANOS, AtArmed;
    }

    /** The first arm of the select. */
    method PollChannel()
      requires Valid() && CanAct(View(), PollStop)
      modifies this
      ensures Valid() && View() == Act1(old(View()), PollStop, shared.clock, shared.watch, shared.stamp, 0)
      ensures stores == old(stores)
    {
      if !shared.watch.Ready(seen) {
        at := AtPolled;
      } else {
        seen := shared.watch.version;
        if shared.watch.value {
          at := AtEnd(Stopped);
        } else {
          at := AtTop;
        }
      }
    }

    /** The last arm of the select: the timer, and the decision once it has fired. */
    method Sleep(a: Act)
      requires Valid() && CanAct(View(), a) && (a.PollTimer? || a.Decide?)
      modifies this
      ensures Valid() && View() == Act1(old(View()), a, shared.clock, shared.watch, shared.stamp, 0)
      ensures stores == old(stores)
    {
      match a
      case PollTimer(_) =>
        if shared.clock >= deadline {
          now, at := Secs(shared.clock), AtWoken;
        } else {
          at := AtArmed;
        }
      case Decide =>
        if SaturatingSub(now, shared.stamp) >= TIMEOUT {
          at := AtEnd(TimedOut);
        } else {
          wakes, at := wakes + 1, AtTop;
        }
    }

    /** One step of the loop, other than the read arm and the write that follows it. */
    method Turn(a: Act, ghost others: nat)
      requires Valid() && CanAct(View(), a)
      requires a.ReadClock? || a.LoadStamp? || a.Arm? || a.PollStop? || a.PollTimer? || a.Decide?
      modifies this
      ensures Valid() && View() == Act1(old(View()), a, shared.clock, shared.watch, shared.stamp, others)
      ensures stores == old(stores)
    {
      if a.PollStop? {
        PollChannel();
      } else if a.PollTimer? || a.Decide? {
        Sleep(a);
      } else {
        Prepare(a, others);
      }
    }

    method ReadChunk(n: nat)
      requires Valid() && CanAct(View(), ReadStream(n))
      modifies this, buf, shared`stamp, shared`stampAt
      ensures Valid() && View() == Act1(old(View()), ReadStream(n), shared.clock, shared.watch, old(shared.stamp), 0)
      ensures Stamped(old(stores), old(shared.stamp), old(shared.stampAt))
    {
      if n == 0 {
        at := AtEnd(SourceEnded);
      } else {
        CopyInto(buf, src.buf, n);
        src := src.(buf := src.buf[n..]);
        Store(n);
      }
    }

    /** Fills the buffer with what fits of the head datagram. */
    method FillFromHead() returns (n: nat)
      requires Valid() && src.Socket? && src.queue != []
      modifies buf
      ensures n <= BUFFER_SIZE && buf[..n] == Cut(src.queue[0].data)
    {
      n := Min(|src.queue[0].data|, BUFFER_SIZE);
      CopyInto(buf, src.queue[0].data, n);
    }

    method ReceiveConnected()
      requires Valid() && CanAct(View(), Receive)
      modifies this, buf, shared`stamp, shared`stampAt
      ensures Valid() && View() == Act1(old(View()), Receive, shared.clock, shared.watch, old(shared.stamp), 0)
      ensures Stamped(old(stores), old(shared.stamp), old(shared.stampAt))
    {
      var n := FillFromHead();
      Dequeue(n);
    }

    method PeekHead()
      requires Valid() && CanAct(View(), Peek)
      modifies this, buf
      ensures Valid() && View() == Act1(old(View()), Peek, shared.clock, shared.watch, shared.stamp, 0)
      ensures stores == old(stores)
    {
      var n := FillFromHead();
      if src.queue[0].from != src.own.value {
        at := AtTop;
      } else {
        lo, hi, at := 0, n, AtPeeked;
      }
    }

    /** Receives into as much of the buffer as the peek filled, over what it left there. */
    method ReceiveOverPeeked()
      requires Valid() && CanAct(View(), ReceivePeeked)
      modifies this, buf, shared`stamp, shared`stampAt
      ensures Valid() && View() == Act1(old(View()), ReceivePeeked, shared.clock, shared.watch, old(shared.stamp), 0)
      ensures Stamped(old(stores), old(shared.stamp), old(shared.stampAt))
    {
      ghost var peeked := buf[..hi];
      var m := Min(hi, |src.queue[0].data|);
      CopyInto(buf, src.queue[0].data, m);
      assert buf[..hi] == Overwrite(peeked, src.queue[0].data);
      Dequeue(hi);
    }

    method WriteSome(k: nat)
      requires Valid() && CanAct(View(), Write(k))
      modifies this
      ensures Valid() && View() == Act1(old(View()), Write(k), shared.clock, shared.watch, shared.stamp, 0)
      ensures stores == old(stores)
    {
      assert buf[lo..hi][..k] == buf[lo..lo + k] && buf[lo..hi][k..] == buf[lo + k..hi];
      out := out + [buf[lo..lo + k]];
      lo := lo + k;
      at := if lo == hi then AtTop else AtWriting;
    }

    /** The read arm, and the write that follows it. */
    method Transfer(a: Act, ghost others: nat)
      requires Valid() && CanAct(View(), a)
      requires a.ReadStream? || a.Receive? || a.Peek? || a.ReceivePeeked? || a.ReceiveFails? || a.Write?
      modifies this, buf, shared`stamp, shared`stampAt
      ensures Valid() && View() == Act1(old(View()), a, shared.clock, shared.watch, old(shared.stamp), others)
      ensures Stamped(old(stores), old(shared.stamp), old(shared.stampAt))
    {
      match a
      case ReadStream(n) => ReadChunk(n);
      case Receive => ReceiveConnected();
      case Peek => PeekHead();
      case ReceivePeeked => ReceiveOverPeeked();
      case ReceiveFails => at := AtTop;
      case Write(k) => WriteSome(k);
    }

    /** One step of the loop. */
    method Step(a: Act, ghost others: nat)
      requires Valid() && CanAct(View(), a)
      modifies this, buf, shared`stamp, shared`stampAt
      ensures Valid() && View() == Act1(old(View()), a, shared.clock, shared.watch, old(shared.stamp), others)
      ensures Stamped(old(stores), old(shared.stamp), old(shared.stampAt))
    {
      if a.ReadStream? || a.Receive? || a.Peek? || a.ReceivePeeked? || a.ReceiveFails? || a.Write? {
        Transfer(a, others);
      } else {
        Turn(a, others);
      }
    }

    /** What the surroundings do to the source. */
    method TakeIn(e: Event)
      requires Valid() && (e.Feed? || e.Close? || e.Arrive?)
      requires if e.Arrive? then src.Socket? else src.Stream?
      modifies this`src, this`fed
      ensures Valid()
      ensures View() == match e case Feed(_, bytes) => Fill(old(View()), bytes)
                                case Close(_) => Shut(old(View()))
                                case Arrive(_, x) => Enqueue(old(View()), x)
                                case _ => old(View())
    {
      match e
      case Feed(_, bytes) => src, fed := src.(buf := src.buf + bytes), fed + bytes;
      case Close(_) => src := src.(closed := true);
      case Arrive(_, x) =>
        fed := if src.Accepts(x) then fed + Cut(x.data) else fed;
        src := src.(queue := src.queue + [x]);
    }
  }

  class Session {
    const shared: Shared
    const down: Loop
    const up: Loop

    /** The loops share the stamp, the clock and the stop channel, and nothing else. */
    ghost predicate Valid()
      reads Parts()
    {
      && down != up && down.shared == shared && up.shared == shared && down.buf != up.buf
      && down.Valid() && up.Valid()
    }

    ghost function Parts(): set<object> {
      {shared, down, up, down.buf, up.buf}
    }

    ghost function View(): Pair
      requires Valid()
      reads Parts()
    {
      Pair(shared.clock, shared.watch, shared.stamp, shared.stampAt, down.View(), up.View())
    }

    constructor (clock: nat, watch: Watch, seen: nat, local: Source)
      ensures Valid() && fresh(Parts()) && View() == Start(clock, watch, seen, local)
    {
      var sh := new Shared(clock, watch);
      var d := new Loop(sh, seen, Stream([], false), local.Socket?);
      var u := new Loop(sh, seen, local, false);
      shared, down, up := sh, d, u;
    }

    method OwnStep(w: Way, a: Act)
      requires Valid() && CanAct(View().Get(w), a)
      modifies Parts()
      ensures Valid() && View() == Apply(old(View()), Own(w, a))
    {
      if w == Down {
        down.Step(a, |up.stores|);
      } else {
        up.Step(a, |down.stores|);
      }
    }

    method Happen(e: Event)
      requires Valid() && Enabled(View(), e)
      modifies Parts()
      ensures Valid() && View() == Apply(old(View()), e)
    {
      match e
      case Own(w, a) => OwnStep(w, a);
      case Tick(dt) => shared.clock := shared.clock + dt;
      case SendStop => shared.watch := shared.watch.Stop();
      case DropSender => shared.watch := shared.watch.(senderAlive := false);
      case _ =>
        if e.way == Down {
          down.TakeIn(e);
        } else {
          up.TakeIn(e);
        }
    }

    /** Any interleaving of the two tasks and their surroundings. */
    method Drive(es: seq<Event>)
      requires Valid() && ValidRun(View(), es)
      modifies Parts()
      ensures Valid() && View() == Run(old(View()), es)
    {
      var i := 0;
      while i < |es|
        invariant 0 <= i <= |es| && Valid()
        invariant ValidRun(View(), es[i..]) && Run(View(), es[i..]) == Run(old(View()), es)
      {
        assert es[i..][0] == es[i] && es[i..][1..] == es[i + 1..];
        Happen(es[i]);
        i := i + 1;
      }
    }
  }

  /** A whole session: whatever the interleaving, each side gets a prefix of what the other held. */
  method ForwardSession(clock: nat, watch: Watch, seen: nat, local: Source, es: seq<Event>)
    returns (toTunnel: seq<seq<Byte>>, toLocal: seq<seq<Byte>>)
    requires ValidRun(Start(clock, watch, seen, local), es)
    ensures Flat(toTunnel) <= Content(local) + Fidelity.Input(es, Up, if local.Socket? then local.own else None)
    ensures Flat(toLocal) <= Fidelity.Input(es, Down, None)
    ensures forall i :: 0 <= i < |toLocal| ==> 1 <= |toLocal[i]| <= 1024
  {
    var session := new Session(clock, watch, seen, local);
    session.Drive(es);
    toTunnel, toLocal := session.up.out, session.down.out;
    Fidelity.SessionForwardsPrefix(clock, watch, seen, local, es, Up);
    Fidelity.SessionForwardsPrefix(clock, watch, seen, local, es, Down);
    Fidelity.StartFaithful(clock, watch, seen, local);
    Fidelity.RunFaithful(Start(clock, watch, seen, local), es);
  }
}
