# Compressed Data packet (OpenPGP tag 8) — a Dafny model

This project models `packet_compressed` of openpgpjs (`src/packet/compressed.js`),
the Compressed Data packet of section 5.6 of RFC 4880, whose first octet is a
compression algorithm code from section 9.3 of RFC 4880 (0 uncompressed, 1 ZIP,
2 ZLIB, 3 BZip2) and whose remainder is the compressed data.

The packet object has three fields: `algorithm`, `compressed` (a cache of the
still-compressed body, `null` until `read` or `compress` fills it) and `packets`
(the nested packet list). Its four operations are modelled as methods of the
class `CompressedData.CompressedDataPacket`:

- `Read` takes the first octet as the algorithm, caches the rest and decompresses eagerly;
- `Decompress` dispatches on the algorithm and hands the recovered stream to the packet list parser;
- `Compress` fills the cache from the packet list (uncompressed only);
- `Write` compresses only when nothing is cached and prefixes the algorithm octet.

Each method is proved against a step function on a `PacketState` value
(`ReadStep`, `DecompressStep`, `CompressStep`, `WriteStep`). The properties
the packet relies on are stated on those functions and as lemmas in
`CompressedDataProperties`:

- byte-exact re-serialisation after a read;
- write idempotence;
- the stale cache across any sequence of later calls;
- the uncompressed round trip;
- which algorithm supports which direction.

Files:

- `base.dfy`: octets, `Option`, `Result`.
- `algorithm.dfy`: the algorithm identifiers and the code table.
- `framing.dfy`: the header octet, and the ZLIB method nibble and ADLER32 trailer of RFC 1950.
- `compressed.dfy`: the state, the step functions and the class.
- `properties.dfy`: multi-call properties and a client that re-serialises a parsed packet.
- `null_write.dfy`: the as-written `write` of the finding below.

The library code the packet calls is a parameter: `Backend` holds four functions.

- `inflate`: the raw DEFLATE inflater used for ZIP (`JXG.Util.Unzip(...).deflate()`).
- `zlibInflate`: the inflater used for ZLIB (`JXG.decompress`).
- `parsePackets`: the packet list's `read`, which may reject its input.
- `serializePackets`: the packet list's `write`.

Nothing about them is assumed except where a lemma states it as a `requires`
(`UncompressedRoundTrip` needs the packet list parser to read back what its
writer wrote).

Three behaviours of the code are easy to misread:

- A ZLIB body whose compression method is not 8 does not throw. The source logs an error and hands `undefined` to the packet list parser; the model hands `Absent`.
- `compress` for ZIP, ZLIB and BZip2 does not throw either. It logs (taking `util` to be a global, since the file imports only `packetlist` and `enums`) and leaves the cache as it was.
- `Decompress` with a null cache does not uniformly fail. For the uncompressed algorithm it hands `null` (`Absent`) to the parser. For ZIP and ZLIB the source dereferences the null body; the model fails with `NoPayload`.

## Model

| member | source | states |
|---|---|---|
| Algorithms.AlgorithmFromCode | src/packet/compressed.js:50 | exactly the codes 0..3 name an algorithm, never an unrecognised one; 0 and only 0 is uncompressed |
| Algorithms.CodeOf | src/packet/compressed.js:64 | every known algorithm has a code below 4 that maps back to it; an unrecognised one has none |
| Algorithms.CodeRoundTrip | src/packet/compressed.js:50-64 | the code read from the wire is the code written back for the same algorithm |
| Framing.SplitHeader | src/packet/compressed.js:48-53 | a body splits iff it is non-empty and its first octet is a known code; the algorithm's code is that octet and the rest is everything after it |
| Framing.JoinHeader | src/packet/compressed.js:64-65 | prefixing works for every known algorithm, adds exactly one octet, and splitting the result gives back the algorithm and the body |
| Framing.JoinSplit | src/packet/compressed.js:50-65 | splitting a body and joining the parts again gives back the same octets |
| Framing.CompressionMethod | src/packet/compressed.js:93-94 | the method is defined iff the ZLIB body is non-empty and is the first octet modulo 16 |
| Framing.WithoutChecksum | src/packet/compressed.js:101-102 | the result is a prefix of the body, exactly 4 octets shorter, or empty for a body under 4 octets |
| CompressedData.Decompressed | src/packet/compressed.js:75-122 | BZip2 and only BZip2 throws not-implemented; only an unrecognised value throws unknown-algorithm; uncompressed passes the body verbatim; ZIP inflates the whole body; ZLIB inflates the body minus its last 4 octets exactly when the method nibble is 8 and otherwise yields no data |
| CompressedData.DecompressStep | src/packet/compressed.js:74-125 | decompress never changes `algorithm` or the cache; it succeeds iff the stream is recovered and parsed, and then `packets` is the parse result; on failure nothing changes |
| CompressedData.ReadStep | src/packet/compressed.js:48-56 | an empty input or an unknown code throws unknown-algorithm with no field changed; otherwise `algorithm` is the code's algorithm and the cache is the input minus its first octet, even when decompression then throws |
| CompressedData.CompressStep | src/packet/compressed.js:133-158 | only the uncompressed algorithm sets the cache, to the serialised packet list; every other algorithm changes no field |
| CompressedData.WriteStep | src/packet/compressed.js:60-66 | write never changes `algorithm` or `packets`; with a cache present it changes nothing; it succeeds iff the algorithm is known and a cache exists or can be made (uncompressed), and then emits the code octet followed by the cache; ZIP, ZLIB and BZip2 without a cache fail not-implemented |
| CompressedData.CompressedDataPacket.constructor | src/packet/compressed.js:31-37 | a new packet is uncompressed, has no cache and an empty packet list |
| CompressedData.CompressedDataPacket.Read | src/packet/compressed.js:48-56 | the new fields and result are those of `ReadStep`; after a successful read the algorithm octet followed by the cache is exactly the input |
| CompressedData.CompressedDataPacket.Decompress | src/packet/compressed.js:74-125 | modifies only `packets`; result and fields are those of `DecompressStep` |
| CompressedData.CompressedDataPacket.Compress | src/packet/compressed.js:133-158 | modifies only the cache; the fields are those of `CompressStep` |
| CompressedData.CompressedDataPacket.Write | src/packet/compressed.js:60-66 | modifies only the cache, and not at all when a cache exists; result and fields are those of `WriteStep` |
| CompressedDataProperties.ReadThenWriteReproducesInput | src/packet/compressed.js:48-66 | after a successful read, write returns the input octets unchanged and changes no field |
| CompressedDataProperties.WriteIsIdempotent | src/packet/compressed.js:60-66 | a second write returns the same result and leaves the same fields as the first |
| CompressedDataProperties.CachedWriteIgnoresPackets | src/packet/compressed.js:61-62 | with a cache present, replacing the packet list does not change what write returns |
| CompressedDataProperties.CachedWritesAreStable | src/packet/compressed.js:60-66 | once a known algorithm has a cache, across any sequence of writes, packet list assignments and decompressions, there is one result per write call, every write emits the code octet followed by that cache, and `algorithm` and the cache never change |
| CompressedDataProperties.FreshUncompressedWrite | src/packet/compressed.js:60-66 | a fresh uncompressed packet writes octet 0 followed by the serialised packet list and caches that list |
| CompressedDataProperties.UncompressedRoundTrip | src/packet/compressed.js:48-66 | if the packet list parser reads back what its writer wrote, reading what a fresh uncompressed packet writes recovers its packet list, with the algorithm and cache set accordingly |
| CompressedDataProperties.EncodeSupport | src/packet/compressed.js:133-158 | with the corrected write (see Findings), writing a fresh packet succeeds iff it is uncompressed; the other algorithms leave every field unchanged, and ZIP, ZLIB and BZip2 fail not-implemented |
| CompressedDataProperties.DecodeSupport | src/packet/compressed.js:77-122 | recovering the inner stream from a body succeeds iff the algorithm is uncompressed, ZIP or ZLIB; BZip2 throws not-implemented, an unrecognised value throws unknown-algorithm |
| CompressedDataProperties.ReadBzip2Fails | src/packet/compressed.js:114-116 | reading code 3 throws not-implemented after setting the algorithm and cache, leaving `packets` untouched |
| CompressedDataProperties.ReadUncompressed | src/packet/compressed.js:78-79 | reading code 0 succeeds iff the parser accepts the body verbatim, and `packets` is then its parse |
| CompressedDataProperties.ReadZlib | src/packet/compressed.js:92-112 | reading code 2 inflates the body minus its last 4 octets when the first body octet's low nibble is 8, and otherwise hands the parser no data whatever the other octets are |
| CompressedDataProperties.ReadZip | src/packet/compressed.js:82-90 | reading code 1 parses the raw inflation of the whole body |
| Reserialisation.Reserialise | src/packet/compressed.js:48-66 | reading a body into a new packet and writing it again either returns exactly those octets or fails with the error the read failed with |
| NullWrite.WriteAsWritten | src/packet/compressed.js:60-65 | the source's write agrees with `WriteStep` wherever that succeeds; where `WriteStep` fails for a known algorithm, the source emits the code octet followed by the text "null" |
| NullWrite.FreshZipWriteEmitsNull | src/packet/compressed.js:140-142 | a fresh ZIP packet writes 0x01 followed by the text "null", which reads back as a ZIP packet whose compressed data is "null"; the corrected write fails not-implemented |

## Left out

- The inflaters (`JXG.Util.Unzip`, `JXG.decompress`) and the `s2r`, Base64 and `unescape` conversions around them are library code. They are the total functions `inflate` and `zlibInflate` of `Backend`, so the model does not capture an inflater that throws.
- The packet list (`packetlist.js`) is not part of this model. Its `read` and `write` are the `parsePackets` and `serializePackets` functions of `Backend`.
- Decompress and the packet list parser: the model replaces `packets` with the parse result. Whether the packet list's `read` appends to a non-empty list, and what it leaves after throwing part-way, is not modelled. On a packet fresh from the constructor, appending and replacing coincide.
- The enumeration registry (`enums.js`) is not part of this model. It is the fixed table of section 9.3 of RFC 4880 in `AlgorithmFromCode` and `CodeOf`. A code outside 0..3, or an empty input, is taken to make the registry throw before any field is assigned.
- `util.print_error` logging is left out, and so are the exception objects and their message texts. The messages' misspelt `this.alogrithm` and `this.type` only affect that text. The model takes `util` to be a global whose `print_error` returns: `src/packet/compressed.js` imports only `packetlist` and `enums` (lines 18-19), and without such a global lines 109 and 141-155 would throw a ReferenceError instead of logging.
- The ADLER32 trailer of a ZLIB stream is dropped but not verified, as in the source.
- CompressedData.WriteStep: for an algorithm value the registry does not know, it fails with `UnknownAlgorithm`. It does not reproduce whatever `String.fromCharCode` makes of the registry's answer for it.
- CompressedData.WriteStep: when the cache stays null it fails with `NotImplemented` rather than emitting the text "null"; see the finding below.
- CompressedData.CompressedDataPacket.Write: follows `WriteStep`, so when the cache stays null (ZIP, ZLIB, BZip2) it fails with `NotImplemented` rather than returning the code octet followed by the text "null"; see the finding below.
- CompressedDataProperties.EncodeSupport: states the corrected write; as written, a fresh ZIP, ZLIB or BZip2 packet writes its code octet followed by "null" instead of failing; see the finding below.

## Findings

| source | as written | input that shows it | evidently intended | confidence | as-written member | corrected member |
|---|---|---|---|---|---|---|
| src/packet/compressed.js:60-65 | when `compress` leaves the cache null (ZIP, ZLIB, BZip2 only log), `write` concatenates `null` to the algorithm character and returns a packet body ending in the text "null" (assuming `util` is a global whose `print_error` returns; the file does not import it) | a fresh packet with `algorithm = 'zip'`: `write()` returns 0x01 'n' 'u' 'l' 'l' | `write` fails, as the algorithm has no encoder | medium, not executed | NullWrite.WriteAsWritten, NullWrite.FreshZipWriteEmitsNull | CompressedData.WriteStep |
