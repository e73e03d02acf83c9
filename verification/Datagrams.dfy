/** Datagram headers, and cutting an encoded frame into datagrams. */
module Datagrams {
  import opened Common
  import opened ReplicationTypes
  import opened Bytes
  import opened Arithmetic

  const DATAGRAM_MAGIC: u32 := 0x43524431
  const DATAGRAM_HEADER_SIZE := 42
  const FLAG_FULL: u16 := 1

  /** The checksum is any deterministic function of bytes. */
  type Checksum = seq<u8> -> u32

  datatype DatagramHeader = DatagramHeader(
    protocol: u16, flags: u16, roomID: u64, epoch: u32, tick: u32, baseTick: u32, sequence: u32,
    chunkIndex: u16, chunkCount: u16, payloadLen: u16, checksum: u32)

  /** The 38 bytes in front of the checksum. */
  function HeaderPrefix(h: DatagramHeader): (b: seq<u8>)
    ensures |b| == 38
  {
    U32(DATAGRAM_MAGIC) + U16(h.protocol) + U16(h.flags) + U64(h.roomID) + U32(h.epoch) + U32(h.tick)
    + U32(h.baseTick) + U32(h.sequence) + U16(h.chunkIndex) + U16(h.chunkCount) + U16(h.payloadLen)
  }

  function ChecksumOf(packet: seq<u8>, crc: Checksum): u32
    requires |packet| >= DATAGRAM_HEADER_SIZE
  {
    crc(packet[..38] + [0, 0, 0, 0] + packet[42..])
  }

  predicate Encodable(h: DatagramHeader, payload: seq<u8>) {
    && h.protocol == PROTOCOL_VERSION && h.roomID != 0 && h.epoch != 0 && h.tick != 0 && h.sequence != 0
    && h.chunkCount != 0 && h.chunkIndex < h.chunkCount && |payload| == h.payloadLen
  }

  function EncodeDatagram(h: DatagramHeader, payload: seq<u8>, crc: Checksum): Result<seq<u8>, Error> {
    if !Encodable(h, payload) then Err(InvalidDatagram)
    else Ok(HeaderPrefix(h) + U32(crc(HeaderPrefix(h) + [0, 0, 0, 0] + payload)) + payload)
  }

  function HeaderAt(packet: seq<u8>): DatagramHeader
    requires |packet| >= DATAGRAM_HEADER_SIZE
  {
    DatagramHeader(
      U16At(packet, 4), U16At(packet, 6), U64At(packet, 8), U32At(packet, 16), U32At(packet, 20), U32At(packet, 24),
      U32At(packet, 28), U16At(packet, 32), U16At(packet, 34), U16At(packet, 36), U32At(packet, 38))
  }

  function DecodeDatagram(packet: seq<u8>, raw: Limits, crc: Checksum): Result<(DatagramHeader, seq<u8>), Error> {
    var limits := NormalizeLimits(raw);
    if |packet| < DATAGRAM_HEADER_SIZE || |packet| > limits.maxDatagramBytes || U32At(packet, 0) != DATAGRAM_MAGIC
    then Err(InvalidDatagram)
    else
      var h := HeaderAt(packet);
      if || h.protocol != PROTOCOL_VERSION || h.roomID == 0 || h.epoch == 0 || h.tick == 0 || h.sequence == 0
         || h.chunkCount == 0 || h.chunkCount > limits.maxFragments || h.chunkIndex >= h.chunkCount
         || h.payloadLen != |packet| - DATAGRAM_HEADER_SIZE || h.flags > FLAG_FULL
      then Err(InvalidDatagram)
      else if ChecksumOf(packet, crc) != h.checksum then Err(ChecksumMismatch)
      else Ok((h, packet[42..]))
  }

  lemma {:induction false} PrefixSlices(h: DatagramHeader)
    ensures var b := HeaderPrefix(h);
            && b[0..4] == U32(DATAGRAM_MAGIC) && b[4..6] == U16(h.protocol) && b[6..8] == U16(h.flags)
            && b[8..16] == U64(h.roomID) && b[16..20] == U32(h.epoch) && b[20..24] == U32(h.tick)
            && b[24..28] == U32(h.baseTick) && b[28..32] == U32(h.sequence) && b[32..34] == U16(h.chunkIndex)
            && b[34..36] == U16(h.chunkCount) && b[36..38] == U16(h.payloadLen)
  {}

  lemma {:induction false} HeaderReads(h: DatagramHeader, packet: seq<u8>)
    requires |packet| >= DATAGRAM_HEADER_SIZE && packet[..38] == HeaderPrefix(h) && packet[38..42] == U32(h.checksum)
    ensures HeaderAt(packet) == h && U32At(packet, 0) == DATAGRAM_MAGIC
  {
    PrefixSlices(h);
    var b := packet[..38];
    assert packet[0..4] == b[0..4] && packet[4..6] == b[4..6] && packet[6..8] == b[6..8] && packet[8..16] == b[8..16];
    assert packet[16..20] == b[16..20] && packet[20..24] == b[20..24] && packet[24..28] == b[24..28];
    assert packet[28..32] == b[28..32] && packet[32..34] == b[32..34] && packet[34..36] == b[34..36];
    assert packet[36..38] == b[36..38];
    U32Value(DATAGRAM_MAGIC, packet, 0);
    U16Value(h.protocol, packet, 4);
    U16Value(h.flags, packet, 6);
    U64Value(h.roomID, packet, 8);
    U32Value(h.epoch, packet, 16);
    U32Value(h.tick, packet, 20);
    U32Value(h.baseTick, packet, 24);
    U32Value(h.sequence, packet, 28);
    U16Value(h.chunkIndex, packet, 32);
    U16Value(h.chunkCount, packet, 34);
    U16Value(h.payloadLen, packet, 36);
    U32Value(h.checksum, packet, 38);
  }

  /** A datagram within the receiver's limits decodes to the header and payload it was made from. */
  lemma {:induction false} DatagramRoundTrip(h: DatagramHeader, payload: seq<u8>, raw: Limits, crc: Checksum)
    requires Encodable(h, payload) && h.flags <= FLAG_FULL
    requires |payload| + DATAGRAM_HEADER_SIZE <= NormalizeLimits(raw).maxDatagramBytes
    requires h.chunkCount <= NormalizeLimits(raw).maxFragments
    ensures var packet := EncodeDatagram(h, payload, crc).value;
            var sum := crc(HeaderPrefix(h) + [0, 0, 0, 0] + payload);
            DecodeDatagram(packet, raw, crc) == Ok((h.(checksum := sum), payload))
  {
    var packet := EncodeDatagram(h, payload, crc).value;
    var sum := crc(HeaderPrefix(h) + [0, 0, 0, 0] + payload);
    var g := h.(checksum := sum);
    assert HeaderPrefix(g) == HeaderPrefix(h);
    assert packet[..38] == HeaderPrefix(h) && packet[38..42] == U32(sum) && packet[42..] == payload;
    HeaderReads(g, packet);
  }

  // ---- Cutting ----

  /** The payloads of one frame, each full except perhaps the last. */
  function Chunks(encoded: seq<u8>, size: nat): (cs: seq<seq<u8>>)
    requires size > 0 && encoded != []
    ensures |cs| >= 1
    ensures forall c :: c in cs ==> 0 < |c| <= size
    decreases |encoded|
  {
    if |encoded| <= size then [encoded] else [encoded[..size]] + Chunks(encoded[size..], size)
  }

  function Concat(cs: seq<seq<u8>>): seq<u8> {
    if cs == [] then [] else cs[0] + Concat(cs[1..])
  }

  lemma ConcatCons(first: seq<u8>, rest: seq<seq<u8>>)
    ensures Concat([first] + rest) == first + Concat(rest) && ([first] + rest)[1..] == rest
  {}

  /** The chunks, in order, are the encoded frame. */
  lemma {:induction false} ChunksConcat(encoded: seq<u8>, size: nat)
    requires size > 0 && encoded != []
    ensures Concat(Chunks(encoded, size)) == encoded
    decreases |encoded|
  {
    if |encoded| > size {
      var first, rest := encoded[..size], Chunks(encoded[size..], size);
      ChunksConcat(encoded[size..], size);
      ConcatCons(first, rest);
      assert first + encoded[size..] == encoded;
    } else {
      ConcatCons(encoded, []);
    }
  }

  function ChunkCount(length: nat, size: nat): nat
    requires size > 0
  {
    (length + size - 1) / size
  }

  lemma {:induction false} ChunksLength(encoded: seq<u8>, size: nat)
    requires size > 0 && encoded != []
    ensures |Chunks(encoded, size)| == ChunkCount(|encoded|, size)
    decreases |encoded|
  {
    if |encoded| <= size {
      DivUnique(|encoded| + size - 1, size, 1, |encoded| - 1);
    } else {
      ChunksLength(encoded[size..], size);
      DivStep(|encoded| - 1, size);
    }
  }

  /** Where a slice that starts at a given offset ends. */
  function SliceEnd(start: nat, size: nat, length: nat): nat {
    if start + size < length then start + size else length
  }

  lemma {:induction false} LaterSlice(encoded: seq<u8>, size: nat, at: nat)
    requires size < |encoded| && at < |encoded| - size
    ensures encoded[size..][at..SliceEnd(at, size, |encoded| - size)] == encoded[at + size..SliceEnd(at + size, size, |encoded|)]
  {}

  /** Chunk i is the slice the sending loop takes. */
  lemma {:induction false} ChunkSlice(encoded: seq<u8>, size: nat, i: nat)
    requires size > 0 && encoded != [] && i < |Chunks(encoded, size)|
    ensures 0 <= i * size < |encoded|
    ensures Chunks(encoded, size)[i] == encoded[i * size..SliceEnd(i * size, size, |encoded|)]
    decreases |encoded|
  {
    if |encoded| > size && i > 0 {
      ChunkSlice(encoded[size..], size, i - 1);
      var at := (i - 1) * size;
      assert i * size == at + size;
      LaterSlice(encoded, size, at);
    }
  }

  /** What identifies one frame on its way to one receiver. */
  datatype AssemblyKey = AssemblyKey(session: u64, roomID: u64, epoch: u32, tick: u32, sequence: u32)

  /** One frame cut into chunks. */
  datatype Transmission = Transmission(flags: u16, baseTick: u32, chunks: seq<seq<u8>>)

  function TotalLength(cs: seq<seq<u8>>): nat {
    if cs == [] then 0 else |cs[0]| + TotalLength(cs[1..])
  }

  lemma {:induction false} ConcatLength(cs: seq<seq<u8>>)
    ensures |Concat(cs)| == TotalLength(cs)
  {
    if cs != [] { ConcatLength(cs[1..]); }
  }

  /** A transmission that fits the datagram, fragment and frame limits. */
  predicate Sendable(key: AssemblyKey, tx: Transmission, limits: Limits) {
    && key.roomID != 0 && key.epoch != 0 && key.tick != 0 && key.sequence != 0
    && tx.flags <= FLAG_FULL
    && 1 <= |tx.chunks| <= limits.maxFragments && |tx.chunks| < 0x1_0000
    && (forall c :: c in tx.chunks ==> 0 < |c| < 0x1_0000 && |c| + DATAGRAM_HEADER_SIZE <= limits.maxDatagramBytes)
    && TotalLength(tx.chunks) <= limits.maxFrameBytes
  }

  lemma {:induction false} LengthBound(cs: seq<seq<u8>>, each: nat)
    requires forall c :: c in cs ==> |c| <= each
    ensures TotalLength(cs) <= |cs| * each
  {
    if cs != [] {
      LengthBound(cs[1..], each);
      assert cs[0] in cs;
      assert |cs| * each == each + (|cs| - 1) * each;
    }
  }

  /** What fits into datagrams is shorter than 2^32 bytes: there are fewer than 2^16 chunks of fewer than 2^16 bytes. */
  lemma {:induction false} SendableShort(key: AssemblyKey, tx: Transmission, limits: Limits)
    requires Sendable(key, tx, limits)
    ensures |Concat(tx.chunks)| < 0x1_0000_0000
  {
    ConcatLength(tx.chunks);
    LengthBound(tx.chunks, 0xffff);
    assert |tx.chunks| * 0xffff <= 0xffff * 0xffff;
  }

  function ChunkHeader(key: AssemblyKey, tx: Transmission, i: nat): DatagramHeader
    requires i < |tx.chunks| < 0x1_0000 && |tx.chunks[i]| < 0x1_0000
  {
    DatagramHeader(PROTOCOL_VERSION, tx.flags, key.roomID, key.epoch, key.tick, tx.baseTick, key.sequence,
                   i, |tx.chunks|, |tx.chunks[i]|, 0)
  }

  /** Datagram i of a transmission. */
  function Packet(key: AssemblyKey, tx: Transmission, i: nat, limits: Limits, crc: Checksum): seq<u8>
    requires Sendable(key, tx, limits) && i < |tx.chunks|
  {
    assert tx.chunks[i] in tx.chunks;
    EncodeDatagram(ChunkHeader(key, tx, i), tx.chunks[i], crc).value
  }

  /** The first n datagrams of a transmission. */
  function Packets(key: AssemblyKey, tx: Transmission, n: nat, limits: Limits, crc: Checksum): (r: seq<seq<u8>>)
    requires Sendable(key, tx, limits) && n <= |tx.chunks|
    ensures |r| == n
  {
    if n == 0 then [] else Packets(key, tx, n - 1, limits, crc) + [Packet(key, tx, n - 1, limits, crc)]
  }

  lemma {:induction false} PacketsAt(key: AssemblyKey, tx: Transmission, n: nat, limits: Limits, crc: Checksum, i: nat)
    requires Sendable(key, tx, limits) && i < n <= |tx.chunks|
    ensures Packets(key, tx, n, limits, crc)[i] == Packet(key, tx, i, limits, crc)
  {
    var before := Packets(key, tx, n - 1, limits, crc);
    if i < n - 1 {
      PacketsAt(key, tx, n - 1, limits, crc, i);
      assert Packets(key, tx, n, limits, crc)[i] == before[i];
    } else {
      assert Packets(key, tx, n, limits, crc)[|before|] == Packet(key, tx, i, limits, crc);
    }
  }

  function KeyOf(session: u64, meta: SnapshotMeta, sequence: u32): AssemblyKey {
    AssemblyKey(session, meta.roomID, meta.epoch, meta.tick, sequence)
  }

  function TransmissionOf(frame: DeltaFrame, encoded: seq<u8>, size: nat): Transmission
    requires size > 0 && encoded != []
  {
    Transmission(if frame.kind == FRAME_FULL then FLAG_FULL else 0, frame.baseTick, Chunks(encoded, size))
  }

  function DatagramSize(maxDatagram: int): int {
    if maxDatagram <= 0 then DEFAULT_MAX_DATAGRAM else maxDatagram
  }

  /** The checks FragmentFrame makes before it cuts; the cut itself cannot fail. */
  function FragmentError(frame: DeltaFrame, sequence: u32, encoded: seq<u8>, maxDatagram: int, raw: Limits): Option<Error> {
    var limits := NormalizeLimits(raw);
    var size := DatagramSize(maxDatagram) - DATAGRAM_HEADER_SIZE;
    if sequence == 0 || |encoded| == 0 || |encoded| > limits.maxFrameBytes then Some(InvalidDatagram)
    else if DatagramSize(maxDatagram) > limits.maxDatagramBytes then Some(InvalidDatagram)
    else if size <= 0 || size >= 0x1_0000 then Some(InvalidDatagram)
    else if ChunkCount(|encoded|, size) > limits.maxFragments || ChunkCount(|encoded|, size) >= 0x1_0000 then Some(FragmentLimit)
    else if frame.meta.roomID == 0 || frame.meta.epoch == 0 || frame.meta.tick == 0 then Some(InvalidDatagram)
    else None
  }

  /** A frame that passes the checks gives a transmission within all limits whose chunks are the encoded bytes. */
  lemma {:induction false} FragmentSendable(frame: DeltaFrame, sequence: u32, encoded: seq<u8>, maxDatagram: int, raw: Limits,
                                            session: u64)
    requires FragmentError(frame, sequence, encoded, maxDatagram, raw) == None
    ensures var size := DatagramSize(maxDatagram) - DATAGRAM_HEADER_SIZE;
            && size > 0 && encoded != []
            && Sendable(KeyOf(session, frame.meta, sequence), TransmissionOf(frame, encoded, size), NormalizeLimits(raw))
            && Concat(TransmissionOf(frame, encoded, size).chunks) == encoded
  {
    var size := DatagramSize(maxDatagram) - DATAGRAM_HEADER_SIZE;
    ChunksLength(encoded, size);
    ChunksConcat(encoded, size);
    ConcatLength(Chunks(encoded, size));
  }

  function FragmentFrame(frame: DeltaFrame, sequence: u32, encoded: seq<u8>, maxDatagram: int, raw: Limits, crc: Checksum)
    : Result<seq<seq<u8>>, Error>
  {
    match FragmentError(frame, sequence, encoded, maxDatagram, raw)
    case Some(e) => Err(e)
    case None =>
      FragmentSendable(frame, sequence, encoded, maxDatagram, raw, 0);
      var key := KeyOf(0, frame.meta, sequence);
      var tx := TransmissionOf(frame, encoded, DatagramSize(maxDatagram) - DATAGRAM_HEADER_SIZE);
      Ok(Packets(key, tx, |tx.chunks|, NormalizeLimits(raw), crc))
  }

  /** Packets do not name the session: the receiver may file them under any. */
  lemma {:induction false} PacketsAnySession(key: AssemblyKey, session: u64, tx: Transmission, n: nat, limits: Limits, crc: Checksum)
    requires Sendable(key, tx, limits) && n <= |tx.chunks|
    ensures Sendable(key.(session := session), tx, limits)
    ensures Packets(key.(session := session), tx, n, limits, crc) == Packets(key, tx, n, limits, crc)
  {
    if n > 0 {
      PacketsAnySession(key, session, tx, n - 1, limits, crc);
      assert tx.chunks[n - 1] in tx.chunks;
      assert ChunkHeader(key.(session := session), tx, n - 1) == ChunkHeader(key, tx, n - 1);
    }
  }

  /** The packets are the cut of the bytes, filed under the key. */
  ghost predicate CutOf(packets: seq<seq<u8>>, key: AssemblyKey, tx: Transmission, encoded: seq<u8>, limits: Limits, crc: Checksum) {
    && Sendable(key, tx, limits) && Concat(tx.chunks) == encoded
    && packets == Packets(key, tx, |tx.chunks|, limits, crc)
  }

  /** The chunks a frame is cut into for datagrams of the given size. */
  function FrameTransmission(frame: DeltaFrame, encoded: seq<u8>, maxDatagram: int): Transmission {
    var size := DatagramSize(maxDatagram) - DATAGRAM_HEADER_SIZE;
    if encoded != [] && size > 0 then TransmissionOf(frame, encoded, size) else Transmission(0, 0, [])
  }

  lemma {:induction false} FragmentsCut(frame: DeltaFrame, sequence: u32, encoded: seq<u8>, maxDatagram: int, raw: Limits,
                                        crc: Checksum, session: u64, packets: seq<seq<u8>>)
    requires FragmentFrame(frame, sequence, encoded, maxDatagram, raw, crc) == Ok(packets)
    ensures CutOf(packets, KeyOf(session, frame.meta, sequence), FrameTransmission(frame, encoded, maxDatagram), encoded,
                  NormalizeLimits(raw), crc)
  {
    FragmentSendable(frame, sequence, encoded, maxDatagram, raw, 0);
    var tx := TransmissionOf(frame, encoded, DatagramSize(maxDatagram) - DATAGRAM_HEADER_SIZE);
    PacketsAnySession(KeyOf(0, frame.meta, sequence), session, tx, |tx.chunks|, NormalizeLimits(raw), crc);
  }

  /** One turn of the cutting loop: slice, stamp, seal. */
  method CutOne(frame: DeltaFrame, sequence: u32, encoded: seq<u8>, size: nat, i: nat, limits: Limits, crc: Checksum)
    returns (packet: seq<u8>)
    requires 0 < size < 0x1_0000 && encoded != [] && i < |Chunks(encoded, size)|
    requires Sendable(KeyOf(0, frame.meta, sequence), TransmissionOf(frame, encoded, size), limits)
    ensures packet == Packet(KeyOf(0, frame.meta, sequence), TransmissionOf(frame, encoded, size), i, limits, crc)
  {
    ghost var tx := TransmissionOf(frame, encoded, size);
    ChunksLength(encoded, size);
    ChunkSlice(encoded, size, i);
    var start := i * size;
    var end := SliceEnd(start, size, |encoded|);
    var payload := encoded[start..end];
    assert payload == tx.chunks[i] && payload in tx.chunks;
    var flags: u16 := if frame.kind == FRAME_FULL then FLAG_FULL else 0;
    var header := DatagramHeader(PROTOCOL_VERSION, flags, frame.meta.roomID, frame.meta.epoch, frame.meta.tick,
                                 frame.baseTick, sequence, i, ChunkCount(|encoded|, size), end - start, 0);
    packet := EncodeDatagram(header, payload, crc).value;
  }

  method CutLoop(frame: DeltaFrame, sequence: u32, encoded: seq<u8>, size: nat, limits: Limits, crc: Checksum)
    returns (out: seq<seq<u8>>)
    requires 0 < size < 0x1_0000 && encoded != []
    requires Sendable(KeyOf(0, frame.meta, sequence), TransmissionOf(frame, encoded, size), limits)
    ensures out == Packets(KeyOf(0, frame.meta, sequence), TransmissionOf(frame, encoded, size),
                           |Chunks(encoded, size)|, limits, crc)
  {
    ghost var key, tx := KeyOf(0, frame.meta, sequence), TransmissionOf(frame, encoded, size);
    var count := ChunkCount(|encoded|, size);
    ChunksLength(encoded, size);
    out := [];
    for i := 0 to count
      invariant out == Packets(key, tx, i, limits, crc)
    {
      var packet := CutOne(frame, sequence, encoded, size, i, limits, crc);
      out := out + [packet];
    }
  }

  /** The source's FragmentFrame. */
  method FragmentFrameLoop(frame: DeltaFrame, sequence: u32, encoded: seq<u8>, maxDatagram: int, raw: Limits, crc: Checksum)
    returns (r: Result<seq<seq<u8>>, Error>)
    ensures r == FragmentFrame(frame, sequence, encoded, maxDatagram, raw, crc)
  {
    var failure := FragmentError(frame, sequence, encoded, maxDatagram, raw);
    if failure.Some? {
      return Err(failure.value);
    }
    FragmentSendable(frame, sequence, encoded, maxDatagram, raw, 0);
    var out := CutLoop(frame, sequence, encoded, DatagramSize(maxDatagram) - DATAGRAM_HEADER_SIZE, NormalizeLimits(raw), crc);
    return Ok(out);
  }
}
