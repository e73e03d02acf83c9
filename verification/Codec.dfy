/** Big-endian integers on byte sequences. */
module Bytes {
  import opened Common

  function U16(x: u16): (b: seq<u8>)
    ensures |b| == 2
  {
    [x / 0x100, x % 0x100]
  }

  function U32(x: u32): (b: seq<u8>)
    ensures |b| == 4
  {
    U16(x / 0x1_0000) + U16(x % 0x1_0000)
  }

  function U64(x: u64): (b: seq<u8>)
    ensures |b| == 8
  {
    U32(x / 0x1_0000_0000) + U32(x % 0x1_0000_0000)
  }

  function U16At(b: seq<u8>, i: nat): u16
    requires i + 2 <= |b|
  {
    (b[i] as int) * 0x100 + b[i + 1]
  }

  function U32At(b: seq<u8>, i: nat): u32
    requires i + 4 <= |b|
  {
    (U16At(b, i) as int) * 0x1_0000 + U16At(b, i + 2)
  }

  function U64At(b: seq<u8>, i: nat): u64
    requires i + 8 <= |b|
  {
    (U32At(b, i) as int) * 0x1_0000_0000 + U32At(b, i + 4)
  }

  lemma U16Slice(b: seq<u8>, i: nat)
    requires i + 2 <= |b|
    ensures U16(U16At(b, i)) == b[i..i + 2]
  {}

  lemma U32Slice(b: seq<u8>, i: nat)
    requires i + 4 <= |b|
    ensures U32(U32At(b, i)) == b[i..i + 4]
  {}

  lemma U64Slice(b: seq<u8>, i: nat)
    requires i + 8 <= |b|
    ensures U64(U64At(b, i)) == b[i..i + 8]
  {
    U32Slice(b, i);
    U32Slice(b, i + 4);
    var hi: int, lo: int := U32At(b, i), U32At(b, i + 4);
    assert (hi * 0x1_0000_0000 + lo) / 0x1_0000_0000 == hi && (hi * 0x1_0000_0000 + lo) % 0x1_0000_0000 == lo;
  }

  lemma U16Value(x: u16, b: seq<u8>, i: nat)
    requires i + 2 <= |b| && b[i..i + 2] == U16(x)
    ensures U16At(b, i) == x
  {}

  lemma U32Value(x: u32, b: seq<u8>, i: nat)
    requires i + 4 <= |b| && b[i..i + 4] == U32(x)
    ensures U32At(b, i) == x
  {}

  lemma U64Value(x: u64, b: seq<u8>, i: nat)
    requires i + 8 <= |b| && b[i..i + 8] == U64(x)
    ensures U64At(b, i) == x
  {}
}

/** The binary frame format. */
module Codec {
  import opened Common
  import opened ReplicationTypes
  import opened Bytes

  const FRAME_MAGIC: u32 := 0x43525031

  // ---- Writing: each piece followed by what comes after it ----

  function ComponentHeader(c: ComponentDelta): (b: seq<u8>)
    ensures |b| == 9
  {
    [c.operation] + U16(c.typeID) + U16(c.schemaVersion) + U32(|c.data| % 0x1_0000_0000)
  }

  function PutComponent(c: ComponentDelta, tail: seq<u8>): seq<u8> {
    ComponentHeader(c) + c.data + tail
  }

  function PutComponents(cs: seq<ComponentDelta>, tail: seq<u8>): seq<u8> {
    if cs == [] then tail else PutComponent(cs[0], PutComponents(cs[1..], tail))
  }

  function ObjectHeader(o: ObjectDelta): (b: seq<u8>)
    requires |o.components| < 0x1_0000
    ensures |b| == 9
  {
    [o.operation] + U16(o.ref.id) + U16(o.ref.generation) + U16(o.archetype) + U16(|o.components|)
  }

  function PutObject(o: ObjectDelta, tail: seq<u8>): seq<u8>
    requires |o.components| < 0x1_0000
  {
    ObjectHeader(o) + PutComponents(o.components, tail)
  }

  predicate CountsFit(objects: seq<ObjectDelta>) {
    |objects| < 0x1_0000 && forall o :: o in objects ==> |o.components| < 0x1_0000
  }

  function PutObjects(objects: seq<ObjectDelta>, tail: seq<u8>): seq<u8>
    requires forall o :: o in objects ==> |o.components| < 0x1_0000
  {
    if objects == [] then tail else PutObject(objects[0], PutObjects(objects[1..], tail))
  }

  function FrameHeader(frame: DeltaFrame): (b: seq<u8>)
    requires |frame.objects| < 0x1_0000
    ensures |b| == 32
  {
    U32(FRAME_MAGIC) + U16(PROTOCOL_VERSION) + [frame.kind] + [0] + U64(frame.meta.roomID) + U32(frame.meta.epoch)
    + U32(frame.meta.tick) + U32(frame.baseTick) + U16(frame.meta.schemaVersion) + U16(|frame.objects|)
  }

  /** The bytes of a frame. */
  function FrameBytes(frame: DeltaFrame): seq<u8>
    requires CountsFit(frame.objects)
  {
    FrameHeader(frame) + PutObjects(frame.objects, [])
  }

  // ---- Validation ----

  function ValidateComponent(operation: u8, c: ComponentDelta, seen: set<u16>, limits: Limits): Option<Error> {
    if c.typeID == 0 || c.operation < COMPONENT_SET || c.operation > COMPONENT_REMOVE then Some(InvalidFrame)
    else if c.typeID in seen then Some(InvalidFrame)
    else if operation == OBJECT_CREATE && c.operation != COMPONENT_SET then Some(InvalidFrame)
    else if c.operation == COMPONENT_SET && c.schemaVersion == 0 then Some(InvalidFrame)
    else if c.operation == COMPONENT_REMOVE && (c.schemaVersion != 0 || |c.data| != 0) then Some(InvalidFrame)
    else if |c.data| > limits.maxComponentBytes then Some(ComponentTooLarge)
    else None
  }

  function ValidateComponents(operation: u8, cs: seq<ComponentDelta>, seen: set<u16>, limits: Limits): Option<Error>
    decreases |cs|
  {
    if cs == [] then None
    else
      match ValidateComponent(operation, cs[0], seen, limits)
      case Some(e) => Some(e)
      case None => ValidateComponents(operation, cs[1..], seen + {cs[0].typeID}, limits)
  }

  function ValidateObject(kind: u8, o: ObjectDelta, seen: set<ObjectRef>, limits: Limits): Option<Error> {
    if !o.ref.Valid() then Some(InvalidObjectRef)
    else if o.operation < OBJECT_CREATE || o.operation > OBJECT_REMOVE then Some(InvalidFrame)
    else if o.ref in seen then Some(InvalidFrame)
    else if kind == FRAME_FULL && o.operation != OBJECT_CREATE then Some(InvalidFrame)
    else if o.operation == OBJECT_CREATE && o.archetype == 0 then Some(InvalidObjectRef)
    else if o.operation == OBJECT_REMOVE && |o.components| > 0 then Some(InvalidFrame)
    else if |o.components| > limits.maxComponentsPerObject * 2 then Some(ComponentLimit)
    else ValidateComponents(o.operation, o.components, {}, limits)
  }

  function ValidateObjects(kind: u8, objects: seq<ObjectDelta>, seen: set<ObjectRef>, limits: Limits): Option<Error>
    decreases |objects|
  {
    if objects == [] then None
    else
      match ValidateObject(kind, objects[0], seen, limits)
      case Some(e) => Some(e)
      case None => ValidateObjects(kind, objects[1..], seen + {objects[0].ref}, limits)
  }

  function ValidateFrame(frame: DeltaFrame, limits: Limits): Option<Error> {
    if !frame.meta.Valid() then Some(InvalidFrame)
    else if frame.kind != FRAME_FULL && frame.kind != FRAME_DELTA then Some(InvalidFrame)
    else if frame.kind == FRAME_FULL && frame.baseTick != 0 then Some(InvalidFrame)
    else if frame.kind == FRAME_DELTA && (frame.baseTick == 0 || frame.baseTick >= frame.meta.tick) then Some(BaselineMismatch)
    else if |frame.objects| > limits.maxObjects * 2 then Some(ObjectLimit)
    else ValidateObjects(frame.kind, frame.objects, {}, limits)
  }

  // ---- Encoding, with the size check after every component ----

  function WriteComponents(buffer: seq<u8>, cs: seq<ComponentDelta>, limits: Limits): Result<seq<u8>, Error>
    decreases |cs|
  {
    if cs == [] then Ok(buffer)
    else
      var next := buffer + PutComponent(cs[0], []);
      if |next| > limits.maxFrameBytes then Err(FrameTooLarge)
      else WriteComponents(next, cs[1..], limits)
  }

  function WriteObjects(buffer: seq<u8>, objects: seq<ObjectDelta>, limits: Limits): Result<seq<u8>, Error>
    decreases |objects|
  {
    if objects == [] then Ok(buffer)
    else
      var o := objects[0];
      if |o.components| >= 0x1_0000 then Err(ComponentLimit)
      else
        match WriteComponents(buffer + ObjectHeader(o), o.components, limits)
        case Err(e) => Err(e)
        case Ok(next) => WriteObjects(next, objects[1..], limits)
  }

  function EncodeFrame(frame: DeltaFrame, raw: Limits): Result<seq<u8>, Error> {
    var limits := NormalizeLimits(raw);
    match ValidateFrame(frame, limits)
    case Some(e) => Err(e)
    case None =>
      if |frame.objects| >= 0x1_0000 then Err(ObjectLimit)
      else WriteObjects(FrameHeader(frame), frame.objects, limits)
  }

  // ---- Decoding: each reader returns a value and the bytes it left ----

  function ReadComponent(b: seq<u8>, limits: Limits): Result<(ComponentDelta, seq<u8>), Error> {
    if |b| < 9 then Err(InvalidFrame)
    else
      var length := U32At(b, 5);
      if length > limits.maxComponentBytes % 0x1_0000_0000 || length > |b| - 9 then Err(ComponentTooLarge)
      else Ok((ComponentDelta(b[0], U16At(b, 1), U16At(b, 3), b[9..9 + length]), b[9 + length..]))
  }

  function ReadComponents(b: seq<u8>, count: nat, limits: Limits): Result<(seq<ComponentDelta>, seq<u8>), Error>
    decreases count
  {
    if count == 0 then Ok(([], b))
    else
      match ReadComponent(b, limits)
      case Err(e) => Err(e)
      case Ok((c, rest)) =>
        match ReadComponents(rest, count - 1, limits)
        case Err(e) => Err(e)
        case Ok((cs, end)) => Ok(([c] + cs, end))
  }

  function ReadObject(b: seq<u8>, limits: Limits): Result<(ObjectDelta, seq<u8>), Error> {
    if |b| < 9 then Err(InvalidFrame)
    else if U16At(b, 7) > limits.maxComponentsPerObject * 2 then Err(ComponentLimit)
    else
      match ReadComponents(b[9..], U16At(b, 7), limits)
      case Err(e) => Err(e)
      case Ok((cs, rest)) =>
        Ok((ObjectDelta(b[0], ObjectRef(U16At(b, 1), U16At(b, 3)), U16At(b, 5), cs), rest))
  }

  function ReadObjects(b: seq<u8>, count: nat, limits: Limits): Result<(seq<ObjectDelta>, seq<u8>), Error>
    decreases count
  {
    if count == 0 then Ok(([], b))
    else
      match ReadObject(b, limits)
      case Err(e) => Err(e)
      case Ok((o, rest)) =>
        match ReadObjects(rest, count - 1, limits)
        case Err(e) => Err(e)
        case Ok((os, end)) => Ok(([o] + os, end))
  }

  function DecodeFrame(data: seq<u8>, raw: Limits): Result<DeltaFrame, Error> {
    var limits := NormalizeLimits(raw);
    if |data| == 0 || |data| > limits.maxFrameBytes then Err(FrameTooLarge)
    else if |data| < 32 then Err(InvalidFrame)
    else if U32At(data, 0) != FRAME_MAGIC || U16At(data, 4) != PROTOCOL_VERSION || data[7] != 0 then Err(InvalidFrame)
    else if U16At(data, 30) > limits.maxObjects * 2 then Err(ObjectLimit)
    else
      match ReadObjects(data[32..], U16At(data, 30), limits)
      case Err(e) => Err(e)
      case Ok((objects, rest)) =>
        if rest != [] then Err(InvalidFrame)
        else
          var meta := SnapshotMeta(U64At(data, 8), U32At(data, 16), U32At(data, 20), U16At(data, 28));
          var frame := DeltaFrame(meta, data[6], U32At(data, 24), objects);
          match ValidateFrame(frame, limits)
          case Some(e) => Err(e)
          case None => Ok(frame)
  }

  // ---- Every payload length a decoder limit can represent ----

  /** The decoder compares lengths with the component limit truncated to 32 bits. */
  predicate PayloadFits(c: ComponentDelta, limits: Limits) {
    |c.data| <= limits.maxComponentBytes % 0x1_0000_0000
  }

  predicate PayloadsFit(objects: seq<ObjectDelta>, limits: Limits) {
    forall o :: o in objects ==> forall c :: c in o.components ==> PayloadFits(c, limits)
  }

  lemma {:induction false} ComponentHeaderSound(b: seq<u8>, c: ComponentDelta)
    requires |b| >= 9 && |c.data| == U32At(b, 5)
    requires c.operation == b[0] && c.typeID == U16At(b, 1) && c.schemaVersion == U16At(b, 3)
    ensures ComponentHeader(c) == b[..9]
  {
    U16Slice(b, 1);
    U16Slice(b, 3);
    U32Slice(b, 5);
    assert [b[0]] + b[1..3] + b[3..5] + b[5..9] == b[..9];
  }

  lemma {:induction false} ReadComponentSound(b: seq<u8>, limits: Limits)
    requires ReadComponent(b, limits).Ok?
    ensures var (c, rest) := ReadComponent(b, limits).value; PutComponent(c, rest) == b && PayloadFits(c, limits)
  {
    var (c, rest) := ReadComponent(b, limits).value;
    ComponentHeaderSound(b, c);
    var n := 9 + |c.data|;
    assert b[..9] + b[9..n] + b[n..] == b;
  }

  lemma {:induction false} ComponentHeaderComplete(b: seq<u8>, c: ComponentDelta)
    requires |b| >= 9 && b[..9] == ComponentHeader(c) && |c.data| < 0x1_0000_0000
    ensures U32At(b, 5) == |c.data| && c.operation == b[0] && c.typeID == U16At(b, 1) && c.schemaVersion == U16At(b, 3)
  {
    var h := b[..9];
    assert h[0] == c.operation && h[1..3] == U16(c.typeID) && h[3..5] == U16(c.schemaVersion) && h[5..9] == U32(|c.data|);
    assert b[1..3] == h[1..3] && b[3..5] == h[3..5] && b[5..9] == h[5..9];
    U16Value(c.typeID, b, 1);
    U16Value(c.schemaVersion, b, 3);
    U32Value(|c.data|, b, 5);
  }

  lemma {:induction false} ReadComponentComplete(c: ComponentDelta, tail: seq<u8>, limits: Limits)
    requires PayloadFits(c, limits)
    ensures ReadComponent(PutComponent(c, tail), limits) == Ok((c, tail))
  {
    var b := PutComponent(c, tail);
    var n := 9 + |c.data|;
    assert b[..9] == ComponentHeader(c) && b[9..n] == c.data && b[n..] == tail;
    ComponentHeaderComplete(b, c);
  }

  lemma {:induction false} ReadComponentsSound(b: seq<u8>, count: nat, limits: Limits)
    requires ReadComponents(b, count, limits).Ok?
    ensures var (cs, rest) := ReadComponents(b, count, limits).value;
            PutComponents(cs, rest) == b && |cs| == count && forall c :: c in cs ==> PayloadFits(c, limits)
    decreases count
  {
    if count > 0 {
      ReadComponentSound(b, limits);
      var (c, rest) := ReadComponent(b, limits).value;
      ReadComponentsSound(rest, count - 1, limits);
      var (cs, end) := ReadComponents(rest, count - 1, limits).value;
      assert ([c] + cs)[1..] == cs;
    }
  }

  lemma {:induction false} ReadComponentsComplete(cs: seq<ComponentDelta>, tail: seq<u8>, limits: Limits)
    requires forall c :: c in cs ==> PayloadFits(c, limits)
    ensures ReadComponents(PutComponents(cs, tail), |cs|, limits) == Ok((cs, tail))
  {
    if cs != [] {
      ReadComponentComplete(cs[0], PutComponents(cs[1..], tail), limits);
      ReadComponentsComplete(cs[1..], tail, limits);
      assert cs == [cs[0]] + cs[1..];
    }
  }

  lemma {:induction false} ReadObjectSound(b: seq<u8>, limits: Limits)
    requires ReadObject(b, limits).Ok?
    ensures var (o, rest) := ReadObject(b, limits).value;
            && |o.components| < 0x1_0000 && PutObject(o, rest) == b
            && |o.components| <= limits.maxComponentsPerObject * 2
            && forall c :: c in o.components ==> PayloadFits(c, limits)
  {
    var (o, rest) := ReadObject(b, limits).value;
    ReadComponentsSound(b[9..], U16At(b, 7), limits);
    U16Slice(b, 1);
    U16Slice(b, 3);
    U16Slice(b, 5);
    U16Slice(b, 7);
    assert [b[0]] + b[1..3] + b[3..5] + b[5..7] + b[7..9] == b[..9];
    assert ObjectHeader(o) == b[..9];
  }

  lemma {:induction false} ReadObjectComplete(o: ObjectDelta, tail: seq<u8>, limits: Limits)
    requires |o.components| < 0x1_0000 && |o.components| <= limits.maxComponentsPerObject * 2
    requires forall c :: c in o.components ==> PayloadFits(c, limits)
    ensures ReadObject(PutObject(o, tail), limits) == Ok((o, tail))
  {
    var h := ObjectHeader(o);
    var b := PutObject(o, tail);
    assert h[1..3] == U16(o.ref.id) && h[3..5] == U16(o.ref.generation);
    assert h[5..7] == U16(o.archetype) && h[7..9] == U16(|o.components|);
    assert b[1..3] == h[1..3] && b[3..5] == h[3..5] && b[5..7] == h[5..7] && b[7..9] == h[7..9];
    U16Value(o.ref.id, b, 1);
    U16Value(o.ref.generation, b, 3);
    U16Value(o.archetype, b, 5);
    U16Value(|o.components|, b, 7);
    assert b[9..] == PutComponents(o.components, tail);
    ReadComponentsComplete(o.components, tail, limits);
  }

  lemma {:induction false} ReadObjectsSound(b: seq<u8>, count: nat, limits: Limits)
    requires ReadObjects(b, count, limits).Ok?
    ensures var (os, rest) := ReadObjects(b, count, limits).value;
            && |os| == count && (forall o :: o in os ==> |o.components| < 0x1_0000)
            && PutObjects(os, rest) == b && PayloadsFit(os, limits)
    decreases count
  {
    if count > 0 {
      ReadObjectSound(b, limits);
      var (o, rest) := ReadObject(b, limits).value;
      ReadObjectsSound(rest, count - 1, limits);
      var (os, end) := ReadObjects(rest, count - 1, limits).value;
      assert ([o] + os)[1..] == os;
    }
  }

  lemma {:induction false} ReadObjectsComplete(os: seq<ObjectDelta>, tail: seq<u8>, limits: Limits)
    requires forall o :: o in os ==> |o.components| < 0x1_0000 && |o.components| <= limits.maxComponentsPerObject * 2
    requires PayloadsFit(os, limits)
    ensures ReadObjects(PutObjects(os, tail), |os|, limits) == Ok((os, tail))
  {
    if os != [] {
      assert os[0] in os;
      ReadObjectComplete(os[0], PutObjects(os[1..], tail), limits);
      ReadObjectsComplete(os[1..], tail, limits);
      assert os == [os[0]] + os[1..];
    }
  }

  // ---- The frame as a whole ----

  lemma {:induction false} ComponentsTail(cs: seq<ComponentDelta>, tail: seq<u8>)
    ensures PutComponents(cs, tail) == PutComponents(cs, []) + tail
  {
    if cs != [] { ComponentsTail(cs[1..], tail); }
  }

  lemma {:induction false} ObjectsTail(os: seq<ObjectDelta>, tail: seq<u8>)
    requires forall o :: o in os ==> |o.components| < 0x1_0000
    ensures PutObjects(os, tail) == PutObjects(os, []) + tail
  {
    if os != [] {
      var rest := PutObjects(os[1..], []);
      ObjectsTail(os[1..], tail);
      ComponentsTail(os[0].components, rest + tail);
      ComponentsTail(os[0].components, rest);
    }
  }

  lemma {:induction false} WriteComponentsBytes(buffer: seq<u8>, cs: seq<ComponentDelta>, limits: Limits)
    ensures var r := WriteComponents(buffer, cs, limits);
            && (r.Ok? ==> r.value == buffer + PutComponents(cs, []))
            && (|buffer + PutComponents(cs, [])| <= limits.maxFrameBytes ==> r.Ok?)
            && (r.Ok? || r == Err(FrameTooLarge))
    decreases |cs|
  {
    if cs != [] {
      var next := buffer + PutComponent(cs[0], []);
      WriteComponentsBytes(next, cs[1..], limits);
      assert buffer + PutComponents(cs, []) == next + PutComponents(cs[1..], []);
    }
  }

  lemma {:induction false} ObjectAppends(buffer: seq<u8>, os: seq<ObjectDelta>)
    requires os != [] && forall o :: o in os ==> |o.components| < 0x1_0000
    ensures buffer + PutObjects(os, []) ==
            (buffer + ObjectHeader(os[0]) + PutComponents(os[0].components, [])) + PutObjects(os[1..], [])
  {
    var rest := PutObjects(os[1..], []);
    ComponentsTail(os[0].components, rest);
    Regroup(buffer, ObjectHeader(os[0]), PutComponents(os[0].components, []), rest);
  }

  lemma Regroup<T>(a: seq<T>, b: seq<T>, c: seq<T>, d: seq<T>)
    ensures a + (b + (c + d)) == (a + b + c) + d
  {}

  lemma {:induction false} WriteObjectsBytes(buffer: seq<u8>, os: seq<ObjectDelta>, limits: Limits)
    requires forall o :: o in os ==> |o.components| < 0x1_0000
    ensures var r := WriteObjects(buffer, os, limits);
            && (r.Ok? ==> r.value == buffer + PutObjects(os, []))
            && (|buffer + PutObjects(os, [])| <= limits.maxFrameBytes ==> r.Ok?)
    decreases |os|
  {
    if os != [] {
      var o := os[0];
      assert o in os;
      var start := buffer + ObjectHeader(o);
      WriteComponentsBytes(start, o.components, limits);
      var next := start + PutComponents(o.components, []);
      WriteObjectsBytes(next, os[1..], limits);
      ObjectAppends(buffer, os);
    }
  }

  lemma {:induction false} WriteObjectsCounts(buffer: seq<u8>, os: seq<ObjectDelta>, limits: Limits)
    requires WriteObjects(buffer, os, limits).Ok?
    ensures forall o :: o in os ==> |o.components| < 0x1_0000
    decreases |os|
  {
    if os != [] {
      WriteObjectsCounts(WriteComponents(buffer + ObjectHeader(os[0]), os[0].components, limits).value, os[1..], limits);
      assert os == [os[0]] + os[1..];
    }
  }

  /** An encoded frame is its bytes. */
  lemma {:induction false} EncodedBytes(frame: DeltaFrame, raw: Limits)
    requires EncodeFrame(frame, raw).Ok?
    ensures CountsFit(frame.objects) && EncodeFrame(frame, raw) == Ok(FrameBytes(frame))
    ensures ValidateFrame(frame, NormalizeLimits(raw)) == None
  {
    WriteObjectsCounts(FrameHeader(frame), frame.objects, NormalizeLimits(raw));
    WriteObjectsBytes(FrameHeader(frame), frame.objects, NormalizeLimits(raw));
  }

  lemma {:induction false} ValidCounts(kind: u8, objects: seq<ObjectDelta>, seen: set<ObjectRef>, limits: Limits)
    requires ValidateObjects(kind, objects, seen, limits) == None
    ensures forall o :: o in objects ==> |o.components| <= limits.maxComponentsPerObject * 2
    decreases |objects|
  {
    if objects != [] {
      ValidCounts(kind, objects[1..], seen + {objects[0].ref}, limits);
      assert objects == [objects[0]] + objects[1..];
    }
  }

  lemma {:induction false} HeaderSound(data: seq<u8>, frame: DeltaFrame)
    requires |data| >= 32 && |frame.objects| < 0x1_0000 && |frame.objects| == U16At(data, 30)
    requires U32At(data, 0) == FRAME_MAGIC && U16At(data, 4) == PROTOCOL_VERSION && data[7] == 0
    requires frame.meta == SnapshotMeta(U64At(data, 8), U32At(data, 16), U32At(data, 20), U16At(data, 28))
    requires frame.kind == data[6] && frame.baseTick == U32At(data, 24)
    ensures FrameHeader(frame) == data[..32]
  {
    U32Slice(data, 0);
    U16Slice(data, 4);
    U64Slice(data, 8);
    U32Slice(data, 16);
    U32Slice(data, 20);
    U32Slice(data, 24);
    U16Slice(data, 28);
    U16Slice(data, 30);
    assert data[0..4] + data[4..6] + [data[6]] + [data[7]] + data[8..16] == data[..16];
    assert data[..16] + data[16..20] + data[20..24] + data[24..28] + data[28..30] + data[30..32] == data[..32];
  }

  lemma {:induction false} HeaderSlices(frame: DeltaFrame)
    requires |frame.objects| < 0x1_0000
    ensures var h := FrameHeader(frame);
            && h[0..4] == U32(FRAME_MAGIC) && h[4..6] == U16(PROTOCOL_VERSION) && h[6] == frame.kind && h[7] == 0
            && h[8..16] == U64(frame.meta.roomID) && h[16..20] == U32(frame.meta.epoch) && h[20..24] == U32(frame.meta.tick)
            && h[24..28] == U32(frame.baseTick) && h[28..30] == U16(frame.meta.schemaVersion)
            && h[30..32] == U16(|frame.objects|)
  {}

  lemma {:induction false} HeaderComplete(frame: DeltaFrame, data: seq<u8>)
    requires |frame.objects| < 0x1_0000 && |data| >= 32 && data[..32] == FrameHeader(frame)
    ensures U32At(data, 0) == FRAME_MAGIC && U16At(data, 4) == PROTOCOL_VERSION && data[7] == 0
    ensures frame.meta == SnapshotMeta(U64At(data, 8), U32At(data, 16), U32At(data, 20), U16At(data, 28))
    ensures frame.kind == data[6] && frame.baseTick == U32At(data, 24) && |frame.objects| == U16At(data, 30)
  {
    var h := data[..32];
    HeaderSlices(frame);
    assert data[0..4] == h[0..4] && data[4..6] == h[4..6] && data[6] == h[6] && data[7] == h[7];
    assert data[8..16] == h[8..16] && data[16..20] == h[16..20] && data[20..24] == h[20..24];
    assert data[24..28] == h[24..28] && data[28..30] == h[28..30] && data[30..32] == h[30..32];
    U32Value(FRAME_MAGIC, data, 0);
    U16Value(PROTOCOL_VERSION, data, 4);
    U64Value(frame.meta.roomID, data, 8);
    U32Value(frame.meta.epoch, data, 16);
    U32Value(frame.meta.tick, data, 20);
    U32Value(frame.baseTick, data, 24);
    U16Value(frame.meta.schemaVersion, data, 28);
    U16Value(|frame.objects|, data, 30);
  }

  /** Whatever is decoded is a valid frame whose bytes are exactly the input. */
  lemma {:induction false} DecodeSound(data: seq<u8>, raw: Limits)
    requires DecodeFrame(data, raw).Ok?
    ensures var frame := DecodeFrame(data, raw).value;
            && CountsFit(frame.objects) && FrameBytes(frame) == data
            && PayloadsFit(frame.objects, NormalizeLimits(raw))
            && ValidateFrame(frame, NormalizeLimits(raw)) == None
  {
    var frame := DecodeFrame(data, raw).value;
    ReadObjectsSound(data[32..], U16At(data, 30), NormalizeLimits(raw));
    HeaderSound(data, frame);
    assert data == data[..32] + data[32..];
  }

  /** Bytes the decoder accepts re-encode to those same bytes. */
  lemma {:induction false} DecodeThenEncode(data: seq<u8>, raw: Limits)
    requires DecodeFrame(data, raw).Ok?
    ensures EncodeFrame(DecodeFrame(data, raw).value, raw) == Ok(data)
  {
    var frame := DecodeFrame(data, raw).value;
    DecodeSound(data, raw);
    WriteObjectsBytes(FrameHeader(frame), frame.objects, NormalizeLimits(raw));
  }

  lemma {:induction false} DecodeComplete(frame: DeltaFrame, raw: Limits)
    requires CountsFit(frame.objects) && ValidateFrame(frame, NormalizeLimits(raw)) == None
    requires PayloadsFit(frame.objects, NormalizeLimits(raw)) && |FrameBytes(frame)| <= NormalizeLimits(raw).maxFrameBytes
    ensures DecodeFrame(FrameBytes(frame), raw) == Ok(frame)
  {
    var limits := NormalizeLimits(raw);
    var data := FrameBytes(frame);
    assert data[..32] == FrameHeader(frame) && data[32..] == PutObjects(frame.objects, []);
    HeaderComplete(frame, data);
    ValidCounts(frame.kind, frame.objects, {}, limits);
    ReadObjectsComplete(frame.objects, [], limits);
  }

  /**
    An encoded frame that fits the frame limit decodes to itself exactly when every payload length is within the component
    limit truncated to 32 bits.
   */
  lemma {:induction false} EncodeThenDecode(frame: DeltaFrame, raw: Limits)
    requires EncodeFrame(frame, raw).Ok? && |EncodeFrame(frame, raw).value| <= NormalizeLimits(raw).maxFrameBytes
    ensures DecodeFrame(EncodeFrame(frame, raw).value, raw) == Ok(frame) <==> PayloadsFit(frame.objects, NormalizeLimits(raw))
  {
    EncodedBytes(frame, raw);
    var data := EncodeFrame(frame, raw).value;
    var decoded := DecodeFrame(data, raw);
    if decoded == Ok(frame) {
      DecodeSound(data, raw);
      assert PayloadsFit(frame.objects, NormalizeLimits(raw));
    }
    if PayloadsFit(frame.objects, NormalizeLimits(raw)) {
      DecodeComplete(frame, raw);
      assert decoded == Ok(frame);
    }
  }

  /** Below 2^32 the truncation changes nothing, and every encodable frame has fitting payloads. */
  lemma {:induction false} SmallLimitFits(frame: DeltaFrame, raw: Limits)
    requires EncodeFrame(frame, raw).Ok? && NormalizeLimits(raw).maxComponentBytes < 0x1_0000_0000
    ensures PayloadsFit(frame.objects, NormalizeLimits(raw))
  {
    EncodedBytes(frame, raw);
    ValidPayloads(frame.kind, frame.objects, {}, NormalizeLimits(raw));
  }

  lemma {:induction false} ValidComponentPayloads(operation: u8, cs: seq<ComponentDelta>, seen: set<u16>, limits: Limits)
    requires ValidateComponents(operation, cs, seen, limits) == None
    ensures forall c :: c in cs ==> |c.data| <= limits.maxComponentBytes
    decreases |cs|
  {
    if cs != [] {
      ValidComponentPayloads(operation, cs[1..], seen + {cs[0].typeID}, limits);
      assert cs == [cs[0]] + cs[1..];
    }
  }

  lemma {:induction false} ValidPayloads(kind: u8, objects: seq<ObjectDelta>, seen: set<ObjectRef>, limits: Limits)
    requires ValidateObjects(kind, objects, seen, limits) == None
    ensures forall o :: o in objects ==> forall c :: c in o.components ==> |c.data| <= limits.maxComponentBytes
    decreases |objects|
  {
    if objects != [] {
      ValidComponentPayloads(objects[0].operation, objects[0].components, {}, limits);
      ValidPayloads(kind, objects[1..], seen + {objects[0].ref}, limits);
      assert objects == [objects[0]] + objects[1..];
    }
  }

  /** Frames with representable payloads are determined by their bytes. */
  lemma {:induction false} BytesDetermineFrame(f: DeltaFrame, g: DeltaFrame)
    requires CountsFit(f.objects) && CountsFit(g.objects)
    requires forall o :: o in f.objects + g.objects ==> forall c :: c in o.components ==> |c.data| < 0x1_0000_0000
    requires FrameBytes(f) == FrameBytes(g)
    ensures f == g
  {
    var wide := DEFAULT_LIMITS.(maxComponentBytes := 0xffff_ffff, maxComponentsPerObject := 0x1_0000);
    var data := FrameBytes(f);
    assert data[..32] == FrameHeader(f) && data[32..] == PutObjects(f.objects, []);
    assert data[..32] == FrameHeader(g) && data[32..] == PutObjects(g.objects, []);
    HeaderComplete(f, data);
    HeaderComplete(g, data);
    assert forall o :: o in f.objects || o in g.objects ==> o in f.objects + g.objects;
    ReadObjectsComplete(f.objects, [], wide);
    ReadObjectsComplete(g.objects, [], wide);
  }

  lemma {:induction false} ComponentsLength(cs: seq<ComponentDelta>, tail: seq<u8>)
    ensures |PutComponents(cs, tail)| >= |tail| && forall c :: c in cs ==> |c.data| <= |PutComponents(cs, tail)|
  {
    if cs != [] {
      ComponentsLength(cs[1..], tail);
      assert cs == [cs[0]] + cs[1..];
    }
  }

  /** No payload is longer than the bytes it is part of. */
  lemma {:induction false} ObjectsLength(objects: seq<ObjectDelta>, tail: seq<u8>)
    requires forall o :: o in objects ==> |o.components| < 0x1_0000
    ensures |PutObjects(objects, tail)| >= |tail|
    ensures forall o :: o in objects ==> forall c :: c in o.components ==> |c.data| <= |PutObjects(objects, tail)|
  {
    if objects != [] {
      var rest := PutObjects(objects[1..], tail);
      ObjectsLength(objects[1..], tail);
      ComponentsLength(objects[0].components, rest);
      assert objects == [objects[0]] + objects[1..];
    }
  }

  /** A client with limits of its own decodes a server's frame of less than 2^32 bytes to that frame or not at all. */
  lemma {:induction false} DecodeElsewhere(frame: DeltaFrame, server: Limits, client: Limits)
    requires EncodeFrame(frame, server).Ok? && |EncodeFrame(frame, server).value| < 0x1_0000_0000
    requires DecodeFrame(EncodeFrame(frame, server).value, client).Ok?
    ensures DecodeFrame(EncodeFrame(frame, server).value, client).value == frame
  {
    var data := EncodeFrame(frame, server).value;
    var g := DecodeFrame(data, client).value;
    EncodedBytes(frame, server);
    ObjectsLength(frame.objects, []);
    DecodeSound(data, client);
    forall o, c | o in frame.objects + g.objects && c in o.components ensures |c.data| < 0x1_0000_0000 {
      if o in g.objects { assert PayloadFits(c, NormalizeLimits(client)); }
    }
    BytesDetermineFrame(frame, g);
  }

  /** The condition is needed: a component limit of 2^32 truncates to zero, and a one-byte payload no longer decodes. */
  lemma TruncatedLimitRejects()
    ensures exists frame: DeltaFrame, raw: Limits ::
              && EncodeFrame(frame, raw).Ok?
              && |EncodeFrame(frame, raw).value| <= NormalizeLimits(raw).maxFrameBytes
              && DecodeFrame(EncodeFrame(frame, raw).value, raw) != Ok(frame)
  {
    var raw := DEFAULT_LIMITS.(maxComponentBytes := 0x1_0000_0000);
    var c := ComponentDelta(COMPONENT_SET, 1, 1, [7]);
    var o := ObjectDelta(OBJECT_CREATE, ObjectRef(1, 1), 1, [c]);
    var frame := DeltaFrame(SnapshotMeta(1, 1, 1, 1), FRAME_FULL, 0, [o]);
    assert ValidateComponents(OBJECT_CREATE, [c], {}, raw) == None;
    assert ValidateObjects(FRAME_FULL, [o], {}, raw) == None;
    assert PutComponents([c], []) == PutComponent(c, []);
    assert PutObjects([o], []) == PutObject(o, []);
    WriteObjectsBytes(FrameHeader(frame), [o], raw);
    assert EncodeFrame(frame, raw).Ok?;
    assert o in frame.objects && c in o.components && !PayloadFits(c, raw);
    EncodeThenDecode(frame, raw);
  }
}
