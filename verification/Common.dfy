/** Types, constants and sequence facts shared by every component of the tunnel. */
module Common {
  type Byte = b: int | 0 <= b < 256

  datatype Option<+T> = None | Some(value: T)

  datatype Protocol = Tcp | Udp

  /** A socket address; the fields are the ones its equality and hash look at. */
  datatype Addr =
    | V4(ip4: nat, port: nat)
    | V6(ip6: nat, port: nat, flowinfo: nat, scope: nat)

  /** The wildcard address with port 0, in the family of the address it stands in for. */
  function Unspecified(a: Addr): Addr {
    if a.V4? then V4(0, 0) else V6(0, 0, 0, 0)
  }

  datatype Datagram = Datagram(from: Addr, data: seq<Byte>)

  /** Size of every forwarder buffer, in bytes. */
  const BUFFER_SIZE: nat := 1024

  /** Idle time after which a forwarder gives up, in whole seconds. */
  const TIMEOUT: nat := 20

  function Min(a: nat, b: nat): nat {
    if a <= b then a else b
  }

  /** What a read into a forwarder buffer keeps of a datagram. */
  function Cut(data: seq<Byte>): seq<Byte> {
    data[..Min(|data|, BUFFER_SIZE)]
  }

  /** Concatenation of a sequence of pieces. */
  function Flat<T>(pieces: seq<seq<T>>): seq<T> {
    if pieces == [] then [] else Flat(pieces[..|pieces| - 1]) + pieces[|pieces| - 1]
  }

  lemma Regroup<T>(a: seq<T>, b: seq<T>, c: seq<T>)
    ensures (a + b) + c == a + (b + c)
  {
  }

  lemma FlatAppend<T>(pieces: seq<seq<T>>, piece: seq<T>)
    ensures Flat(pieces + [piece]) == Flat(pieces) + piece
  {
    assert (pieces + [piece])[..|pieces|] == pieces;
  }
}
