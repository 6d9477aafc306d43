/** One run of a host tunnel's accept loop, as a value: who is connected, who is served, what is registered. */
module HostRuns {
  import opened Common

  /** A peer's public key. */
  type PeerId = nat

  datatype LocalConnection = LocalConnection(localAddr: Addr, virtualAddr: Addr, id: nat)

  datatype LoopPhase =
    | Accepting
    | Serving(peer: PeerId)
    | Registered(peer: PeerId, conn: LocalConnection)
    | Forwarding(peer: PeerId, conn: LocalConnection)

  /**
   `held` shows, for each connected peer, the connection whose entry its map holds. The rest is the
   accept loop's position and the past: how often each peer was handed to the session loop, and how
   many sessions were registered, deregistered, and failed to start.
   */
  datatype RunView = RunView(
    held: map<PeerId, Option<LocalConnection>>, phase: LoopPhase,
    calls: map<PeerId, nat>, registered: nat, deregistered: nat, failures: nat)
  {
    predicate Busy() {
      phase.Registered? || phase.Forwarding?
    }
  }

  /** The map that holds one connection's entry, or none. */
  function Entries(held: Option<LocalConnection>): map<Addr, nat> {
    if held.None? then map[] else map[held.value.virtualAddr := held.value.id]
  }

  datatype LoopEvent =
    | Connects(from: PeerId)              // a connection was accepted
    | Requests(addr: Addr, id: nat)       // a stream and its packet were received
    | Starts(ok: bool)                    // the socket to the service was set up, or not
    | Ends                                // both forwarding loops ended
    | Breaks                              // the connection failed between two sessions

  const EmptyRun := RunView(map[], Accepting, map[], 0, 0, 0)

  predicate Possible(v: RunView, e: LoopEvent) {
    match e
    case Connects(_) => v.phase.Accepting?
    case Requests(_, _) => v.phase.Serving?
    case Starts(_) => v.phase.Registered?
    case Ends => v.phase.Forwarding?
    case Breaks => v.phase.Serving?
  }

  function Happens(v: RunView, e: LoopEvent): RunView
    requires Possible(v, e)
  {
    match e
    case Connects(peer) =>
      if peer in v.held then v
      else v.(held := v.held[peer := None], phase := Serving(peer),
              calls := v.calls[peer := 1 + if peer in v.calls then v.calls[peer] else 0])
    case Requests(addr, id) =>
      var conn := LocalConnection(addr, Unspecified(addr), id);
      v.(held := v.held[v.phase.peer := Some(conn)], phase := Registered(v.phase.peer, conn), registered := v.registered + 1)
    case Starts(ok) =>
      if ok then v.(phase := Forwarding(v.phase.peer, v.phase.conn))
      else v.(phase := Accepting, failures := v.failures + 1)
    case Ends =>
      v.(held := v.held[v.phase.peer := None], phase := Serving(v.phase.peer), deregistered := v.deregistered + 1)
    case Breaks => v.(phase := Accepting)
  }

  // ---- what every event keeps -------------------------------------------------------------

  /** The peer being served is connected; its map holds its session, or nothing between sessions. */
  predicate PhaseOk(v: RunView) {
    match v.phase
    case Accepting => true
    case Serving(p) => p in v.held && v.held[p] == None
    case Registered(p, conn) => p in v.held && v.held[p] == Some(conn)
    case Forwarding(p, conn) => p in v.held && v.held[p] == Some(conn)
  }

  predicate ServedOnce(v: RunView) {
    v.calls.Keys == v.held.Keys && forall p :: p in v.calls ==> v.calls[p] == 1
  }

  predicate Balanced(v: RunView) {
    v.registered == v.deregistered + v.failures + if v.Busy() then 1 else 0
  }

  predicate Inv(v: RunView) {
    PhaseOk(v) && ServedOnce(v) && Balanced(v)
  }

  lemma HappensKeepsInv(v: RunView, e: LoopEvent)
    requires Inv(v) && Possible(v, e)
    ensures Inv(Happens(v, e))
    ensures v.held.Keys <= Happens(v, e).held.Keys
  {
  }

  // ---- the count --------------------------------------------------------------------------

  lemma EntriesSize(held: Option<LocalConnection>)
    ensures |Entries(held)| == if held.Some? then 1 else 0
  {
  }

  lemma EntryRemoved(conn: LocalConnection)
    ensures conn.virtualAddr in Entries(Some(conn)) && Entries(Some(conn)) - {conn.virtualAddr} == Entries(None)
  {
  }

  /** Peers whose map holds an entry; no map holds more than one. */
  function Occupied(held: map<PeerId, Option<LocalConnection>>): set<PeerId> {
    set p | p in held && held[p].Some?
  }

  /** All maps together hold the sessions registered and not deregistered. */
  predicate Tally(v: RunView) {
    |Occupied(v.held)| == v.registered - v.deregistered
  }

  lemma OccupiedSet(held: map<PeerId, Option<LocalConnection>>, p: PeerId, conn: LocalConnection)
    requires p in held && held[p].None?
    ensures |Occupied(held[p := Some(conn)])| == |Occupied(held)| + 1
  {
    assert Occupied(held[p := Some(conn)]) == Occupied(held) + {p};
  }

  lemma OccupiedClear(held: map<PeerId, Option<LocalConnection>>, p: PeerId)
    ensures |Occupied(held[p := None])| == |Occupied(held)| - if p in held && held[p].Some? then 1 else 0
  {
    assert Occupied(held[p := None]) == Occupied(held) - {p};
    assert p in Occupied(held) <==> p in held && held[p].Some?;
  }

  lemma HappensKeepsTally(v: RunView, e: LoopEvent)
    requires Inv(v) && Tally(v) && Possible(v, e)
    ensures Tally(Happens(v, e))
  {
    match e
    case Connects(peer) => OccupiedClear(v.held, peer);
    case Requests(addr, id) => OccupiedSet(v.held, v.phase.peer, LocalConnection(addr, Unspecified(addr), id));
    case Ends => OccupiedClear(v.held, v.phase.peer);
    case _ =>
  }

  // ---- every run --------------------------------------------------------------------------

  ghost predicate ValidLoop(v: RunView, es: seq<LoopEvent>)
    decreases |es|
  {
    es == [] || (Possible(v, es[0]) && ValidLoop(Happens(v, es[0]), es[1..]))
  }

  ghost function LoopAfter(v: RunView, es: seq<LoopEvent>): RunView
    requires ValidLoop(v, es)
    decreases |es|
  {
    if es == [] then v else LoopAfter(Happens(v, es[0]), es[1..])
  }

  lemma {:induction false} LoopKeepsInv(v: RunView, es: seq<LoopEvent>)
    requires Inv(v) && ValidLoop(v, es)
    ensures Inv(LoopAfter(v, es)) && v.held.Keys <= LoopAfter(v, es).held.Keys
    decreases |es|
  {
    if es != [] {
      HappensKeepsInv(v, es[0]);
      LoopKeepsInv(Happens(v, es[0]), es[1..]);
    }
  }

  lemma {:induction false} LoopKeepsTally(v: RunView, es: seq<LoopEvent>)
    requires Inv(v) && Tally(v) && ValidLoop(v, es)
    ensures Tally(LoopAfter(v, es))
    decreases |es|
  {
    if es != [] {
      HappensKeepsInv(v, es[0]);
      HappensKeepsTally(v, es[0]);
      LoopKeepsTally(Happens(v, es[0]), es[1..]);
    }
  }

  /** Sessions registered, deregistered and failed to start, counted on the events alone. */
  function CountRequests(es: seq<LoopEvent>): nat {
    if es == [] then 0 else (if es[0].Requests? then 1 else 0) + CountRequests(es[1..])
  }

  function CountEnds(es: seq<LoopEvent>): nat {
    if es == [] then 0 else (if es[0].Ends? then 1 else 0) + CountEnds(es[1..])
  }

  function CountFailures(es: seq<LoopEvent>): nat {
    if es == [] then 0 else (if es[0] == Starts(false) then 1 else 0) + CountFailures(es[1..])
  }

  lemma {:induction false} LoopCounts(v: RunView, es: seq<LoopEvent>)
    requires ValidLoop(v, es)
    ensures LoopAfter(v, es).registered == v.registered + CountRequests(es)
    ensures LoopAfter(v, es).deregistered == v.deregistered + CountEnds(es)
    ensures LoopAfter(v, es).failures == v.failures + CountFailures(es)
    decreases |es|
  {
    if es != [] {
      LoopCounts(Happens(v, es[0]), es[1..]);
    }
  }

  lemma ActiveCount(v: RunView, es: seq<LoopEvent>)
    requires Inv(v) && Tally(v) && ValidLoop(v, es)
    ensures var v' := LoopAfter(v, es);
            && |Occupied(v'.held)| == v.registered + CountRequests(es) - v.deregistered - CountEnds(es)
            && (!v'.Busy() ==> |Occupied(v'.held)| == v.failures + CountFailures(es))
  {
    LoopKeepsInv(v, es);
    LoopKeepsTally(v, es);
    LoopCounts(v, es);
  }

  /**
   Over every run of the accept loop: the number of entries is the number of sessions registered
   minus deregistered, and between sessions what is left is the sessions that failed to start.
   */
  lemma ActiveCountIsConserved(es: seq<LoopEvent>)
    requires ValidLoop(EmptyRun, es)
    ensures |Occupied(LoopAfter(EmptyRun, es).held)| == CountRequests(es) - CountEnds(es)
    ensures !LoopAfter(EmptyRun, es).Busy() ==> |Occupied(LoopAfter(EmptyRun, es).held)| == CountFailures(es)
  {
    ActiveCount(EmptyRun, es);
  }

  lemma CountKeys(calls: map<PeerId, nat>)
    ensures |calls| == |calls.Keys|
  {
  }

  /** One connection whose session fails to start is enough to leave an entry behind. */
  lemma LeftoverIsReachable(p: PeerId, addr: Addr, id: nat)
    ensures var es := [Connects(p), Requests(addr, id), Starts(false)];
            && ValidLoop(EmptyRun, es) && LoopAfter(EmptyRun, es).phase.Accepting?
            && Occupied(LoopAfter(EmptyRun, es).held) == {p}
  {
    var es := [Connects(p), Requests(addr, id), Starts(false)];
    assert es[1..] == [Requests(addr, id), Starts(false)] && es[1..][1..] == [Starts(false)] && es[1..][1..][1..] == [];
    var v1 := Happens(EmptyRun, Connects(p));
    var v2 := Happens(v1, Requests(addr, id));
    var v3 := Happens(v2, Starts(false));
    assert LoopAfter(v2, [Starts(false)]) == v3 by {
      assert [Starts(false)][1..] == [];
    }
    assert p in v3.held && v3.held.Keys == {p};
  }

  /** The peers that connected, told from the events alone. */
  function Peers(es: seq<LoopEvent>): set<PeerId> {
    set e | e in es && e.Connects? :: e.from
  }

  lemma {:induction false} LoopServes(v: RunView, es: seq<LoopEvent>)
    requires Inv(v) && ValidLoop(v, es)
    ensures LoopAfter(v, es).calls.Keys == v.calls.Keys + Peers(es)
    decreases |es|
  {
    if es != [] {
      var v' := Happens(v, es[0]);
      HappensKeepsInv(v, es[0]);
      LoopServes(v', es[1..]);
      assert v'.calls.Keys == v.calls.Keys + if es[0].Connects? then {es[0].from} else {};
      assert forall e :: e in es <==> e == es[0] || e in es[1..];
      assert Peers(es) == (if es[0].Connects? then {es[0].from} else {}) + Peers(es[1..]);
    }
  }

  /** Exactly the peers that connected are registered and were handed to the session loop, each of them once. */
  lemma PeersAreServedOnce(es: seq<LoopEvent>)
    requires ValidLoop(EmptyRun, es)
    ensures var v := LoopAfter(EmptyRun, es);
            v.calls.Keys == v.held.Keys == Peers(es) && forall p :: p in Peers(es) ==> v.calls[p] == 1
  {
    LoopKeepsInv(EmptyRun, es);
    LoopServes(EmptyRun, es);
    assert EmptyRun.calls.Keys + Peers(es) == Peers(es);
  }

  /** The peer lookup always succeeds, no insertion overwrites, every removal finds its own entry. */
  lemma LookupsSucceed(es: seq<LoopEvent>)
    requires ValidLoop(EmptyRun, es)
    ensures var v := LoopAfter(EmptyRun, es);
            && (v.phase.Serving? ==> v.phase.peer in v.held && v.held[v.phase.peer] == None)
            && (v.phase.Forwarding? ==> v.phase.peer in v.held && v.held[v.phase.peer] == Some(v.phase.conn))
  {
    LoopKeepsInv(EmptyRun, es);
  }

  // ---- starting and stopping, mixed with the runs -----------------------------------------

  datatype HostEvent =
    | StartCalled(bindOk: bool)
    | StopCalled
    | Task(event: LoopEvent)

  /** The accept loop's events since the tunnel was last started, or none if it is not running. */
  function CurrentRun(es: seq<HostEvent>): Option<seq<LoopEvent>> {
    if es == [] then None
    else
      var before := CurrentRun(es[..|es| - 1]);
      match es[|es| - 1]
      case StartCalled(bindOk) => if before.None? && bindOk then Some([]) else before
      case StopCalled => None
      case Task(e) => if before.None? then None else Some(before.value + [e])
  }

  ghost predicate Acceptable(run: Option<seq<LoopEvent>>, e: HostEvent) {
    e.Task? ==> run.Some? && ValidLoop(EmptyRun, run.value) && Possible(LoopAfter(EmptyRun, run.value), e.event)
  }

  /** Any calls in any order; the accept loop acts only while there is one. */
  ghost predicate ValidLife(es: seq<HostEvent>) {
    es == [] || (ValidLife(es[..|es| - 1]) && Acceptable(CurrentRun(es[..|es| - 1]), es[|es| - 1]))
  }

  lemma {:induction false} LoopAppend(v: RunView, es: seq<LoopEvent>, e: LoopEvent)
    requires ValidLoop(v, es) && Possible(LoopAfter(v, es), e)
    ensures ValidLoop(v, es + [e]) && LoopAfter(v, es + [e]) == Happens(LoopAfter(v, es), e)
    decreases |es|
  {
    if es == [] {
      assert [] + [e] == [e] && [e][1..] == [];
    } else {
      assert (es + [e])[1..] == es[1..] + [e];
      LoopAppend(Happens(v, es[0]), es[1..], e);
    }
  }

  lemma {:induction false} ValidPrefix(es: seq<HostEvent>, n: nat)
    requires ValidLife(es) && n <= |es|
    ensures ValidLife(es[..n])
  {
    if n == |es| {
      assert es[..n] == es;
    } else {
      ValidPrefix(es[..|es| - 1], n);
      assert es[..|es| - 1][..n] == es[..n];
    }
  }
}
