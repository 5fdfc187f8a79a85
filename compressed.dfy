/**
 * The Compressed Data packet (tag 8, section 5.6 of RFC 4880) of
 * `src/packet/compressed.js`: an object with an `algorithm`, a nullable
 * cache of the still-compressed body and the nested packet list, and the
 * four operations `read`, `decompress`, `compress` and `write`.
 *
 * Each method is specified by a step function on a `PacketState` value,
 * which `CompressedDataPacket.State()` reads off the object's fields; the
 * properties the source relies on are proved about the step functions.
 */
module CompressedData {
  import opened Base
  import opened Algorithms
  import opened Framing

  /** Why an operation throws. */
  datatype Error =
    | UnknownAlgorithm  // the wire code or the `algorithm` field names no known algorithm
    | NotImplemented    // the algorithm is known but has no transform in this direction
    | NoPayload         // a ZIP or ZLIB body is taken apart while the cache is null
    | MalformedPackets  // the packet list parser rejected the decompressed stream

  /**
   * The value `decompress` hands to the packet list parser: a byte string,
   * or `Absent` for the JavaScript `null` or `undefined` that some paths
   * leave in the `decompressed` variable.
   */
  datatype Stream = Bytes(data: seq<byte>) | Absent

  /**
   * The collaborators the packet calls into but does not define: the raw
   * DEFLATE inflater used for ZIP (`JXG.Util.Unzip(...).deflate()`), the
   * inflater used for ZLIB (`JXG.decompress`), and the packet list's
   * `read` (which may throw) and `write`.
   */
  datatype Backend<!Packet> = Backend(
    inflate: seq<byte> -> seq<byte>,
    zlibInflate: seq<byte> -> seq<byte>,
    parsePackets: Stream -> Option<seq<Packet>>,
    serializePackets: seq<Packet> -> seq<byte>)

  /** The three fields of a packet object, as one value. */
  datatype PacketState<Packet> = PacketState(
    algorithm: Alg,
    compressed: Option<seq<byte>>,
    packets: seq<Packet>)

  /** What a call returns together with the fields it leaves behind. */
  datatype Step<T, Packet> = Step(result: Result<T, Error>, after: PacketState<Packet>)

  /** The state of a newly constructed packet. */
  function Fresh<Packet>(): PacketState<Packet>
  {
    PacketState(Uncompressed, None, [])
  }

  /** A packet built for writing: the caller has assigned `algorithm` and `packets`, nothing is cached. */
  function Ready<Packet>(a: Alg, ps: seq<Packet>): PacketState<Packet>
  {
    PacketState(a, None, ps)
  }

  /**
   * The inner stream `decompress` recovers from the cached body, before it
   * is parsed, or the error it throws on the way.
   */
  function Decompressed<Packet>(a: Alg, body: Option<seq<byte>>, b: Backend<Packet>): (r: Result<Stream, Error>)
    ensures r == Failure(NotImplemented) <==> a == Bzip2
    ensures r == Failure(UnknownAlgorithm) <==> a == Unrecognised
    ensures r == Failure(NoPayload) <==> (a == Zip || a == Zlib) && body.None?
    ensures a == Uncompressed ==> r == Success(if body.Some? then Bytes(body.value) else Absent)
    ensures a == Zip && body.Some? ==> r == Success(Bytes(b.inflate(body.value)))
    ensures a == Zlib && body.Some? ==>
      r.Success? &&
      (r.value.Bytes? <==> CompressionMethod(body.value) == Some(DeflateMethod)) &&
      (r.value.Bytes? ==> r.value.data == b.zlibInflate(WithoutChecksum(body.value)))
  {
    match a
    case Uncompressed =>
      Success(if body.Some? then Bytes(body.value) else Absent)
    case Zip =>
      if body.None? then Failure(NoPayload) else Success(Bytes(b.inflate(body.value)))
    case Zlib =>
      if body.None? then Failure(NoPayload)
      else if CompressionMethod(body.value) == Some(DeflateMethod) then
        Success(Bytes(b.zlibInflate(WithoutChecksum(body.value))))
      else
        Success(Absent)
    case Bzip2 => Failure(NotImplemented)
    case Unrecognised => Failure(UnknownAlgorithm)
  }

  /** `decompress`: only `packets` may change, and only when the stream is recovered and parsed. */
  function DecompressStep<Packet>(s: PacketState<Packet>, b: Backend<Packet>): (r: Step<(), Packet>)
    ensures r.after.algorithm == s.algorithm && r.after.compressed == s.compressed
    ensures r.result.Failure? ==> r.after == s
    ensures r.result.Success? <==>
      Decompressed(s.algorithm, s.compressed, b).Success? &&
      b.parsePackets(Decompressed(s.algorithm, s.compressed, b).value).Some?
    ensures r.result.Success? ==>
      Some(r.after.packets) == b.parsePackets(Decompressed(s.algorithm, s.compressed, b).value)
    ensures Decompressed(s.algorithm, s.compressed, b).Failure? ==>
      r.result.error == Decompressed(s.algorithm, s.compressed, b).error
  {
    match Decompressed(s.algorithm, s.compressed, b)
    case Failure(e) => Step(Failure(e), s)
    case Success(inner) =>
      match b.parsePackets(inner)
      case None => Step(Failure(MalformedPackets), s)
      case Some(ps) => Step(Success(()), s.(packets := ps))
  }

  /**
   * `read`: the first octet selects the algorithm, the rest becomes the
   * cache, and then `decompress` runs. A rejected code throws before any
   * field is assigned; a failing `decompress` throws after both were.
   */
  function ReadStep<Packet>(s: PacketState<Packet>, bytes: seq<byte>, b: Backend<Packet>): (r: Step<(), Packet>)
    ensures SplitHeader(bytes).None? ==> r == Step(Failure(UnknownAlgorithm), s)
    ensures SplitHeader(bytes).Some? ==>
      r.after.algorithm == SplitHeader(bytes).value.0 &&
      r.after.compressed == Some(bytes[1..])
    ensures r.result.Success? ==> |bytes| > 0 && CodeOf(r.after.algorithm) == Some(bytes[0])
  {
    match SplitHeader(bytes)
    case None => Step(Failure(UnknownAlgorithm), s)
    case Some((a, body)) => DecompressStep(s.(algorithm := a, compressed := Some(body)), b)
  }

  /**
   * `compress`: only the uncompressed algorithm has an encoder, and it
   * stores the serialised packet list as the cache; every other algorithm
   * leaves all fields as they were.
   */
  function CompressStep<Packet>(s: PacketState<Packet>, b: Backend<Packet>): (r: PacketState<Packet>)
    ensures r.algorithm == s.algorithm && r.packets == s.packets
    ensures s.algorithm != Uncompressed ==> r == s
    ensures s.algorithm == Uncompressed ==> r.compressed == Some(b.serializePackets(s.packets))
  {
    if s.algorithm == Uncompressed then s.(compressed := Some(b.serializePackets(s.packets))) else s
  }

  /**
   * `write`: compress only when nothing is cached, then prefix the cache
   * with the algorithm octet. When the cache is still null afterwards the
   * call fails (the source would emit the text "null"; see `NullWrite`).
   */
  function WriteStep<Packet>(s: PacketState<Packet>, b: Backend<Packet>): (r: Step<seq<byte>, Packet>)
    ensures r.after.algorithm == s.algorithm && r.after.packets == s.packets
    ensures s.compressed.Some? ==> r.after == s
    ensures s.compressed.None? && s.algorithm == Uncompressed ==>
      r.after.compressed == Some(b.serializePackets(s.packets))
    ensures r.result.Success? <==>
      s.algorithm != Unrecognised && (s.compressed.Some? || s.algorithm == Uncompressed)
    ensures r.result.Success? ==>
      r.after.compressed.Some? && JoinHeader(s.algorithm, r.after.compressed.value) == Some(r.result.value)
    ensures s.algorithm == Unrecognised ==> r.result == Failure(UnknownAlgorithm)
    ensures s.compressed.None? && s.algorithm in {Zip, Zlib, Bzip2} ==>
      r == Step(Failure(NotImplemented), s)
  {
    var t := if s.compressed.None? then CompressStep(s, b) else s;
    if t.compressed.None? then
      Step(Failure(if t.algorithm == Unrecognised then UnknownAlgorithm else NotImplemented), t)
    else
      match JoinHeader(t.algorithm, t.compressed.value)
      case None => Step(Failure(UnknownAlgorithm), t)
      case Some(out) => Step(Success(out), t)
  }

  /**
   * A Compressed Data packet object. `backend` stands for the library code
   * the object calls into; the three mutable fields are those of the source.
   */
  class CompressedDataPacket<Packet> {
    const backend: Backend<Packet>
    var algorithm: Alg
    var compressed: Option<seq<byte>>
    var packets: seq<Packet>

    /** The object's fields as a value. */
    function State(): PacketState<Packet>
      reads this
    {
      PacketState(algorithm, compressed, packets)
    }

    /** A new packet: uncompressed, nothing cached, an empty packet list. */
    constructor (backend: Backend<Packet>)
      ensures this.backend == backend
      ensures algorithm == Uncompressed && compressed == None && packets == []
      ensures State() == Fresh()
    {
      this.backend := backend;
      algorithm := Uncompressed;
      compressed := None;
      packets := [];
    }

    /** Parses a packet body: algorithm octet, cached body, then an eager `Decompress`. */
    method Read(bytes: seq<byte>) returns (r: Result<(), Error>)
      modifies this
      ensures Step(r, State()) == ReadStep(old(State()), bytes, backend)
      ensures r.Success? ==> JoinHeader(algorithm, compressed.value) == Some(bytes)
    {
      var a := if |bytes| > 0 then AlgorithmFromCode(bytes[0]) else None;
      if a.None? {
        return Failure(UnknownAlgorithm);
      }
      algorithm := a.value;
      compressed := Some(bytes[1..]);
      r := Decompress();
      assert bytes == [bytes[0]] + bytes[1..];
    }

    /** Recovers the inner stream by algorithm and replaces `packets` with what the parser makes of it. */
    method Decompress() returns (r: Result<(), Error>)
      modifies this`packets
      ensures Step(r, State()) == DecompressStep(old(State()), backend)
    {
      var inner: Stream;
      match algorithm {
        case Uncompressed =>
          inner := if compressed.Some? then Bytes(compressed.value) else Absent;
        case Zip =>
          if compressed.None? {
            return Failure(NoPayload);
          }
          inner := Bytes(backend.inflate(compressed.value));
        case Zlib =>
          if compressed.None? {
            return Failure(NoPayload);
          }
          var body := compressed.value;
          if CompressionMethod(body) == Some(DeflateMethod) {
            inner := Bytes(backend.zlibInflate(WithoutChecksum(body)));
          } else {
            inner := Absent;
          }
        case Bzip2 =>
          return Failure(NotImplemented);
        case Unrecognised =>
          return Failure(UnknownAlgorithm);
      }
      var parsed := backend.parsePackets(inner);
      if parsed.None? {
        return Failure(MalformedPackets);
      }
      packets := parsed.value;
      r := Success(());
    }

    /** Fills the cache from the packet list; only the uncompressed algorithm can. */
    method Compress()
      modifies this`compressed
      ensures State() == CompressStep(old(State()), backend)
    {
      match algorithm {
        case Uncompressed =>
          compressed := Some(backend.serializePackets(packets));
        case Zip =>
        case Zlib =>
        case Bzip2 =>
        case Unrecognised =>
      }
    }

    /** Serialises the packet body, compressing first only when nothing is cached. */
    method Write() returns (r: Result<seq<byte>, Error>)
      modifies this`compressed
      ensures Step(r, State()) == WriteStep(old(State()), backend)
      ensures old(compressed).Some? ==> compressed == old(compressed)
    {
      if compressed.None? {
        Compress();
      }
      var code := CodeOf(algorithm);
      if code.None? {
        return Failure(UnknownAlgorithm);
      }
      if compressed.None? {
        return Failure(NotImplemented);
      }
      r := Success([code.value] + compressed.value);
    }
  }
}
