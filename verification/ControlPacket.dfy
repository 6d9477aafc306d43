/** Sending and receiving one control packet on a stream of its own. */
module ControlPacket {
  import opened Common
  import opened Tunnel

  /** What one read of the packet stream yields. */
  datatype ReadResult = Data(bytes: seq<Byte>) | End | Broken

  datatype Received = Request(addr: Addr) | DecodeFailed | ReadFailed | Waiting

  /** The bytes of the reads before the first that is not data. */
  function Body(parts: seq<ReadResult>): seq<Byte> {
    if parts == [] || !parts[0].Data? then [] else parts[0].bytes + Body(parts[1..])
  }

  /** How the stream ends: the first read that is not data, if any. */
  function Ending(parts: seq<ReadResult>): Option<ReadResult> {
    if parts == [] then None else if parts[0].Data? then Ending(parts[1..]) else Some(parts[0])
  }

  lemma {:induction false} BodyStep(parts: seq<ReadResult>, i: nat)
    requires i < |parts| && forall j :: 0 <= j < i ==> parts[j].Data?
    ensures Body(parts[..i]) + Body(parts[i..]) == Body(parts) && Ending(parts[i..]) == Ending(parts)
    decreases i
  {
    if i > 0 {
      assert parts[1..][..i - 1] == parts[..i][1..] && parts[1..][i - 1..] == parts[i..];
      BodyStep(parts[1..], i - 1);
      Regroup(parts[0].bytes, Body(parts[..i][1..]), Body(parts[i..]));
    }
  }

  lemma {:induction false} BodyAppend(parts: seq<ReadResult>, bytes: seq<Byte>)
    requires forall j :: 0 <= j < |parts| ==> parts[j].Data?
    ensures Body(parts + [Data(bytes)]) == Body(parts) + bytes
  {
    if parts == [] {
      assert Body([Data(bytes)][1..]) == [];
    } else {
      assert (parts + [Data(bytes)])[1..] == parts[1..] + [Data(bytes)];
      BodyAppend(parts[1..], bytes);
      Regroup(parts[0].bytes, Body(parts[1..]), bytes);
    }
  }

  /**
   The receive loop: reads of at most 1024 bytes are appended until the stream ends. Whatever the
   split into reads, a stream that carries an encoded request yields that request.
   */
  method ReceivePacket(parts: seq<ReadResult>, codec: Codec) returns (r: Received)
    requires forall i :: 0 <= i < |parts| && parts[i].Data? ==> |parts[i].bytes| <= 1024
    ensures Ending(parts) == None <==> r == Waiting
    ensures Ending(parts) == Some(Broken) <==> r == ReadFailed
    ensures Ending(parts) == Some(End) ==>
              r == match codec.decode(Body(parts)) case Some(a) => Request(a) case None => DecodeFailed
    ensures forall a :: Lawful(codec) && Ending(parts) == Some(End) && Body(parts) == codec.encode(a) ==> r == Request(a)
  {
    var buf: seq<Byte> := [];
    var i := 0;
    while i < |parts|
      invariant 0 <= i <= |parts|
      invariant forall j :: 0 <= j < i ==> parts[j].Data?
      invariant buf == Body(parts[..i])
    {
      BodyStep(parts, i);
      match parts[i]
      case Data(bytes) =>
        BodyAppend(parts[..i], bytes);
        assert parts[..i + 1] == parts[..i] + [Data(bytes)];
        buf := buf + bytes;
        i := i + 1;
      case Broken => return ReadFailed;
      case End =>
        assert buf + [] == buf == Body(parts);
        var msg := codec.decode(buf);
        return if msg.Some? then Request(msg.value) else DecodeFailed;
    }
    assert parts[..i] == parts;
    AllDataNeverEnds(parts);
    return Waiting;
  }

  lemma {:induction false} AllDataNeverEnds(parts: seq<ReadResult>)
    requires forall j :: 0 <= j < |parts| ==> parts[j].Data?
    ensures Ending(parts) == None
  {
    if parts != [] {
      AllDataNeverEnds(parts[1..]);
    }
  }
}
