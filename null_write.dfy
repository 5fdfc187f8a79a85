/**
 * `write` as the source has it when `compress` leaves the cache null (ZIP,
 * ZLIB and BZip2 have no encoder): the null value is concatenated to the
 * algorithm character and the packet body ends in the four characters
 * "null". `CompressedData.WriteStep` is the intended behaviour: the call
 * fails with `NotImplemented`.
 */
module NullWrite {
  import opened Base
  import opened Algorithms
  import opened Framing
  import opened CompressedData

  /** The octets of the text "null" that JavaScript produces for `"" + null`. */
  const NullText: seq<byte> := [0x6E, 0x75, 0x6C, 0x6C]

  /** `write` as written; `None` when the algorithm has no octet in the registry. */
  function WriteAsWritten<Packet>(s: PacketState<Packet>, b: Backend<Packet>): (out: Option<seq<byte>>)
    ensures out.Some? <==> s.algorithm != Unrecognised
    ensures out.Some? && WriteStep(s, b).result.Success? ==> WriteStep(s, b).result.value == out.value
    ensures out.Some? && WriteStep(s, b).result.Failure? ==>
      s.compressed.None? && SplitHeader(out.value) == Some((s.algorithm, NullText))
  {
    var t := if s.compressed.None? then CompressStep(s, b) else s;
    match CodeOf(t.algorithm)
    case None => None
    case Some(c) => Some([c] + (if t.compressed.Some? then t.compressed.value else NullText))
  }

  /**
   * A fresh ZIP packet "writes" the octets 0x01 'n' 'u' 'l' 'l', which a
   * reader takes for a ZIP packet whose compressed data is the text "null";
   * the corrected `WriteStep` throws `NotImplemented` instead.
   */
  lemma FreshZipWriteEmitsNull<Packet>(ps: seq<Packet>, b: Backend<Packet>)
    ensures WriteAsWritten(Ready(Zip, ps), b) == Some([0x01, 0x6E, 0x75, 0x6C, 0x6C])
    ensures ReadStep(Fresh<Packet>(), [0x01, 0x6E, 0x75, 0x6C, 0x6C], b).after.compressed == Some(NullText)
    ensures WriteStep(Ready(Zip, ps), b) == Step(Failure(NotImplemented), Ready(Zip, ps))
  {
    assert [0x01 as byte, 0x6E, 0x75, 0x6C, 0x6C][1..] == NullText;
    assert [0x01 as byte] + NullText == [0x01, 0x6E, 0x75, 0x6C, 0x6C];
  }
}
