/** What the tasks of a tunnel share by reference. */
module SharedState {
  import opened Common

  /** A map of local connections, keyed by address. */
  class LocalConnections {
    var entries: map<Addr, nat>

    constructor ()
      ensures entries == map[]
    {
      entries := map[];
    }
  }

  /** The stop channel: `send` fails when no receiver is left. */
  class StopChannel {
    var value: bool
    var version: nat
    var receivers: nat

    constructor ()
      ensures !value && version == 0 && receivers == 1
    {
      value, version, receivers := false, 0, 1;
    }

    method Send() returns (ok: bool)
      modifies this
      ensures ok == (old(receivers) > 0) && receivers == old(receivers)
      ensures value == (old(value) || ok) && version == old(version) + if ok then 1 else 0
    {
      ok := receivers > 0;
      if ok {
        value, version := true, version + 1;
      }
    }
  }
}
