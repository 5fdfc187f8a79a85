/**
 * Properties of the Compressed Data packet that relate several calls:
 * byte-exact re-serialisation after a read, the write cache, the
 * uncompressed round trip, and which algorithm supports which direction.
 */
module CompressedDataProperties {
  import opened Base
  import opened Algorithms
  import opened Framing
  import opened CompressedData

  /** After a successful read, write emits exactly the octets that were read, and changes nothing. */
  lemma ReadThenWriteReproducesInput<Packet>(s: PacketState<Packet>, bytes: seq<byte>, b: Backend<Packet>)
    requires ReadStep(s, bytes, b).result.Success?
    ensures WriteStep(ReadStep(s, bytes, b).after, b) == Step(Success(bytes), ReadStep(s, bytes, b).after)
  {
  }

  /** A second write returns what the first returned and leaves the same fields. */
  lemma WriteIsIdempotent<Packet>(s: PacketState<Packet>, b: Backend<Packet>)
    ensures WriteStep(WriteStep(s, b).after, b) == WriteStep(s, b)
  {
  }

  /** Once the cache is filled, replacing the packet list does not change what write emits. */
  lemma CachedWriteIgnoresPackets<Packet>(s: PacketState<Packet>, ps: seq<Packet>, b: Backend<Packet>)
    requires s.compressed.Some?
    ensures WriteStep(s.(packets := ps), b).result == WriteStep(s, b).result
  {
  }

  /** What a caller may do to a packet between writes. */
  datatype Call<Packet> = CallWrite | AssignPackets(ps: seq<Packet>) | CallDecompress

  /** The number of writes in a sequence of calls. */
  function Writes<Packet>(calls: seq<Call<Packet>>): nat
  {
    if calls == [] then 0 else (if calls[0].CallWrite? then 1 else 0) + Writes(calls[1..])
  }

  /** The state after a sequence of calls, and the results of its writes in order. */
  function Run<Packet>(s: PacketState<Packet>, calls: seq<Call<Packet>>, b: Backend<Packet>): (r: (PacketState<Packet>, seq<Result<seq<byte>, Error>>))
    ensures |r.1| == Writes(calls)
    decreases |calls|
  {
    if calls == [] then (s, [])
    else
      match calls[0]
      case CallWrite =>
        var w := WriteStep(s, b);
        var rest := Run(w.after, calls[1..], b);
        (rest.0, [w.result] + rest.1)
      case AssignPackets(ps) => Run(s.(packets := ps), calls[1..], b)
      case CallDecompress => Run(DecompressStep(s, b).after, calls[1..], b)
  }

  /**
   * The stale-cache behaviour: once a known algorithm has a cached body,
   * however the packet list is replaced or re-parsed in between, every
   * later write (one result per write call) emits the algorithm octet
   * followed by that same body, and `algorithm` and the cache never change.
   */
  lemma {:induction false} CachedWritesAreStable<Packet>(s: PacketState<Packet>, calls: seq<Call<Packet>>, b: Backend<Packet>)
    requires s.compressed.Some? && s.algorithm != Unrecognised
    ensures Run(s, calls, b).0.algorithm == s.algorithm
    ensures Run(s, calls, b).0.compressed == s.compressed
    ensures |Run(s, calls, b).1| == Writes(calls)
    ensures forall k :: 0 <= k < |Run(s, calls, b).1| ==>
      Run(s, calls, b).1[k] == Success(JoinHeader(s.algorithm, s.compressed.value).value)
    decreases |calls|
  {
    if calls != [] {
      match calls[0]
      case CallWrite =>
        CachedWritesAreStable(WriteStep(s, b).after, calls[1..], b);
      case AssignPackets(ps) =>
        CachedWritesAreStable(s.(packets := ps), calls[1..], b);
      case CallDecompress =>
        CachedWritesAreStable(DecompressStep(s, b).after, calls[1..], b);
    }
  }

  /** A fresh uncompressed packet writes octet 0 followed by the serialised packet list. */
  lemma FreshUncompressedWrite<Packet>(ps: seq<Packet>, b: Backend<Packet>)
    ensures WriteStep(Ready(Uncompressed, ps), b).result == Success([0 as byte] + b.serializePackets(ps))
    ensures WriteStep(Ready(Uncompressed, ps), b).after.compressed == Some(b.serializePackets(ps))
  {
  }

  /**
   * Round trip of the uncompressed algorithm: when the packet list parser
   * reads back what its writer wrote, reading what a fresh uncompressed
   * packet writes recovers the packet list.
   */
  lemma UncompressedRoundTrip<Packet>(s: PacketState<Packet>, ps: seq<Packet>, b: Backend<Packet>)
    requires b.parsePackets(Bytes(b.serializePackets(ps))) == Some(ps)
    ensures WriteStep(Ready(Uncompressed, ps), b).result.Success?
    ensures ReadStep(s, WriteStep(Ready(Uncompressed, ps), b).result.value, b)
      == Step(Success(()), PacketState(Uncompressed, Some(b.serializePackets(ps)), ps))
  {
  }

  /** Encoding works for the uncompressed algorithm only; the others fail without touching any field. */
  lemma EncodeSupport<Packet>(a: Alg, ps: seq<Packet>, b: Backend<Packet>)
    ensures WriteStep(Ready(a, ps), b).result.Success? <==> a == Uncompressed
    ensures a != Uncompressed ==> WriteStep(Ready(a, ps), b).after == Ready(a, ps)
    ensures a in {Zip, Zlib, Bzip2} ==> WriteStep(Ready(a, ps), b).result == Failure(NotImplemented)
  {
  }

  /** Decoding works for the uncompressed, ZIP and ZLIB algorithms; BZip2 and unrecognised ones throw. */
  lemma DecodeSupport<Packet>(a: Alg, body: seq<byte>, b: Backend<Packet>)
    ensures Decompressed(a, Some(body), b).Success? <==> a in {Uncompressed, Zip, Zlib}
    ensures a == Bzip2 ==> Decompressed(a, Some(body), b) == Failure(NotImplemented)
    ensures a == Unrecognised ==> Decompressed(a, Some(body), b) == Failure(UnknownAlgorithm)
  {
  }

  /** Reading a BZip2 packet throws, after `algorithm` and the cache were assigned; `packets` is untouched. */
  lemma ReadBzip2Fails<Packet>(s: PacketState<Packet>, body: seq<byte>, b: Backend<Packet>)
    ensures ReadStep(s, [3 as byte] + body, b) ==
      Step(Failure(NotImplemented), PacketState(Bzip2, Some(body), s.packets))
  {
  }

  /** Reading an uncompressed packet hands its body verbatim to the packet list parser. */
  lemma ReadUncompressed<Packet>(s: PacketState<Packet>, body: seq<byte>, b: Backend<Packet>)
    ensures ReadStep(s, [0 as byte] + body, b).result.Success? <==> b.parsePackets(Bytes(body)).Some?
    ensures ReadStep(s, [0 as byte] + body, b).result.Success? ==>
      Some(ReadStep(s, [0 as byte] + body, b).after.packets) == b.parsePackets(Bytes(body))
  {
  }

  /**
   * Reading a ZLIB packet: when the low nibble of the first body octet is 8
   * the body minus its last 4 octets goes to the inflater; otherwise the
   * parser receives no data, whatever the remaining octets are.
   */
  lemma ReadZlib<Packet>(s: PacketState<Packet>, body: seq<byte>, b: Backend<Packet>)
    ensures var inner := if |body| > 0 && body[0] % 16 == 8
                         then Bytes(b.zlibInflate(body[..if |body| >= 4 then |body| - 4 else 0]))
                         else Absent;
      ReadStep(s, [2 as byte] + body, b) ==
        if b.parsePackets(inner).Some?
        then Step(Success(()), PacketState(Zlib, Some(body), b.parsePackets(inner).value))
        else Step(Failure(MalformedPackets), PacketState(Zlib, Some(body), s.packets))
  {
  }

  /** Reading a ZIP packet passes the whole body to the raw inflater. */
  lemma ReadZip<Packet>(s: PacketState<Packet>, body: seq<byte>, b: Backend<Packet>)
    ensures ReadStep(s, [1 as byte] + body, b).result.Success? <==> b.parsePackets(Bytes(b.inflate(body))).Some?
    ensures ReadStep(s, [1 as byte] + body, b).after.packets ==
      if b.parsePackets(Bytes(b.inflate(body))).Some? then b.parsePackets(Bytes(b.inflate(body))).value else s.packets
  {
  }
}

/** A client of the packet object: parse a packet body into a new packet and serialise it again. */
module Reserialisation {
  import opened Base
  import opened CompressedData
  import CompressedDataProperties

  /** Re-serialising a parsed packet gives back the very octets it was parsed from. */
  method Reserialise<Packet>(backend: Backend<Packet>, bytes: seq<byte>) returns (r: Result<seq<byte>, Error>)
    ensures r.Success? <==> ReadStep(Fresh(), bytes, backend).result.Success?
    ensures r.Success? ==> r.value == bytes
    ensures r.Failure? ==> r.error == ReadStep(Fresh(), bytes, backend).result.error
  {
    var packet := new CompressedDataPacket(backend);
    var read := packet.Read(bytes);
    if read.Failure? {
      return Failure(read.error);
    }
    CompressedDataProperties.ReadThenWriteReproducesInput(Fresh(), bytes, backend);
    r := packet.Write();
  }
}
