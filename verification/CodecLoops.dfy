/** The validating, writing and reading loops, proved against module Codec. */
module CodecLoops {
  import opened Common
  import opened ReplicationTypes
  import opened Bytes
  import opened Codec

  method ValidateComponentLoop(operation: u8, cs: seq<ComponentDelta>, limits: Limits) returns (r: Option<Error>)
    ensures r == ValidateComponents(operation, cs, {}, limits)
  {
    var seen: set<u16> := {};
    var k := 0;
    while k < |cs|
      invariant 0 <= k <= |cs|
      invariant ValidateComponents(operation, cs, {}, limits) == ValidateComponents(operation, cs[k..], seen, limits)
    {
      assert cs[k..][1..] == cs[k + 1..];
      var verdict := ValidateComponent(operation, cs[k], seen, limits);
      if verdict.Some? {
        return verdict;
      }
      seen := seen + {cs[k].typeID};
      k := k + 1;
    }
    return None;
  }

  method ValidateObjectOnce(kind: u8, o: ObjectDelta, seen: set<ObjectRef>, limits: Limits) returns (r: Option<Error>)
    ensures r == ValidateObject(kind, o, seen, limits)
  {
    if !o.ref.Valid() {
      return Some(InvalidObjectRef);
    }
    if o.operation < OBJECT_CREATE || o.operation > OBJECT_REMOVE {
      return Some(InvalidFrame);
    }
    if o.ref in seen {
      return Some(InvalidFrame);
    }
    if kind == FRAME_FULL && o.operation != OBJECT_CREATE {
      return Some(InvalidFrame);
    }
    if o.operation == OBJECT_CREATE && o.archetype == 0 {
      return Some(InvalidObjectRef);
    }
    if o.operation == OBJECT_REMOVE && |o.components| > 0 {
      return Some(InvalidFrame);
    }
    if |o.components| > limits.maxComponentsPerObject * 2 {
      return Some(ComponentLimit);
    }
    r := ValidateComponentLoop(o.operation, o.components, limits);
  }

  method ValidateFrameLoop(frame: DeltaFrame, limits: Limits) returns (r: Option<Error>)
    ensures r == ValidateFrame(frame, limits)
  {
    if !frame.meta.Valid() || (frame.kind != FRAME_FULL && frame.kind != FRAME_DELTA) {
      return Some(InvalidFrame);
    }
    if frame.kind == FRAME_FULL && frame.baseTick != 0 {
      return Some(InvalidFrame);
    }
    if frame.kind == FRAME_DELTA && (frame.baseTick == 0 || frame.baseTick >= frame.meta.tick) {
      return Some(BaselineMismatch);
    }
    if |frame.objects| > limits.maxObjects * 2 {
      return Some(ObjectLimit);
    }
    var objects := frame.objects;
    var seen: set<ObjectRef> := {};
    var k := 0;
    while k < |objects|
      invariant 0 <= k <= |objects|
      invariant ValidateObjects(frame.kind, objects, {}, limits) == ValidateObjects(frame.kind, objects[k..], seen, limits)
    {
      assert objects[k..][1..] == objects[k + 1..];
      var verdict := ValidateObjectOnce(frame.kind, objects[k], seen, limits);
      if verdict.Some? {
        return verdict;
      }
      seen := seen + {objects[k].ref};
      k := k + 1;
    }
    return None;
  }

  method WriteComponentLoop(start: seq<u8>, cs: seq<ComponentDelta>, limits: Limits) returns (r: Result<seq<u8>, Error>)
    ensures r == WriteComponents(start, cs, limits)
  {
    var buffer := start;
    var k := 0;
    while k < |cs|
      invariant 0 <= k <= |cs|
      invariant WriteComponents(start, cs, limits) == WriteComponents(buffer, cs[k..], limits)
    {
      assert cs[k..][1..] == cs[k + 1..];
      buffer := buffer + PutComponent(cs[k], []);
      if |buffer| > limits.maxFrameBytes {
        return Err(FrameTooLarge);
      }
      k := k + 1;
    }
    return Ok(buffer);
  }

  method EncodeFrameLoop(frame: DeltaFrame, raw: Limits) returns (r: Result<seq<u8>, Error>)
    ensures r == EncodeFrame(frame, raw)
  {
    var limits := NormalizeLimits(raw);
    var verdict := ValidateFrameLoop(frame, limits);
    if verdict.Some? {
      return Err(verdict.value);
    }
    if |frame.objects| >= 0x1_0000 {
      return Err(ObjectLimit);
    }
    var objects := frame.objects;
    var buffer := FrameHeader(frame);
    var k := 0;
    while k < |objects|
      invariant 0 <= k <= |objects|
      invariant WriteObjects(FrameHeader(frame), objects, limits) == WriteObjects(buffer, objects[k..], limits)
    {
      assert objects[k..][1..] == objects[k + 1..];
      var o := objects[k];
      if |o.components| >= 0x1_0000 {
        return Err(ComponentLimit);
      }
      var written := WriteComponentLoop(buffer + ObjectHeader(o), o.components, limits);
      if written.Err? {
        return written;
      }
      buffer := written.value;
      k := k + 1;
    }
    return Ok(buffer);
  }

  /** What is left to read once `read` has been read from the front. */
  ghost function Prepend<T>(read: seq<T>, rest: Result<(seq<T>, seq<u8>), Error>): Result<(seq<T>, seq<u8>), Error> {
    match rest
    case Err(e) => Err(e)
    case Ok((more, end)) => Ok((read + more, end))
  }

  lemma {:induction false} PrependStep<T>(read: seq<T>, x: T, rest: Result<(seq<T>, seq<u8>), Error>)
    ensures Prepend(read, Prepend([x], rest)) == Prepend(read + [x], rest)
  {
    if rest.Ok? {
      var (more, end) := rest.value;
      assert read + ([x] + more) == (read + [x]) + more;
    }
  }

  lemma PrependNone<T>(rest: Result<(seq<T>, seq<u8>), Error>)
    ensures Prepend([], rest) == rest
  {
    if rest.Ok? { assert [] + rest.value.0 == rest.value.0; }
  }

  method ReadComponentLoop(b: seq<u8>, count: nat, limits: Limits) returns (r: Result<(seq<ComponentDelta>, seq<u8>), Error>)
    ensures r == ReadComponents(b, count, limits)
  {
    var cs: seq<ComponentDelta> := [];
    var rest := b;
    var k := 0;
    PrependNone(ReadComponents(b, count, limits));
    while k < count
      invariant 0 <= k <= count
      invariant ReadComponents(b, count, limits) == Prepend(cs, ReadComponents(rest, count - k, limits))
    {
      var next := ReadComponent(rest, limits);
      if next.Err? {
        return Err(next.error);
      }
      PrependStep(cs, next.value.0, ReadComponents(next.value.1, count - k - 1, limits));
      cs := cs + [next.value.0];
      rest := next.value.1;
      k := k + 1;
    }
    assert cs + [] == cs;
    return Ok((cs, rest));
  }

  method ReadObjectOnce(b: seq<u8>, limits: Limits) returns (r: Result<(ObjectDelta, seq<u8>), Error>)
    ensures r == ReadObject(b, limits)
  {
    if |b| < 9 {
      return Err(InvalidFrame);
    }
    var count := U16At(b, 7);
    if count > limits.maxComponentsPerObject * 2 {
      return Err(ComponentLimit);
    }
    var read := ReadComponentLoop(b[9..], count, limits);
    if read.Err? {
      return Err(read.error);
    }
    return Ok((ObjectDelta(b[0], ObjectRef(U16At(b, 1), U16At(b, 3)), U16At(b, 5), read.value.0), read.value.1));
  }

  method ReadObjectLoop(b: seq<u8>, count: nat, limits: Limits) returns (r: Result<(seq<ObjectDelta>, seq<u8>), Error>)
    ensures r == ReadObjects(b, count, limits)
  {
    var os: seq<ObjectDelta> := [];
    var rest := b;
    var k := 0;
    PrependNone(ReadObjects(b, count, limits));
    while k < count
      invariant 0 <= k <= count
      invariant ReadObjects(b, count, limits) == Prepend(os, ReadObjects(rest, count - k, limits))
    {
      var next := ReadObjectOnce(rest, limits);
      if next.Err? {
        return Err(next.error);
      }
      PrependStep(os, next.value.0, ReadObjects(next.value.1, count - k - 1, limits));
      os := os + [next.value.0];
      rest := next.value.1;
      k := k + 1;
    }
    assert os + [] == os;
    return Ok((os, rest));
  }

  method DecodeFrameLoop(data: seq<u8>, raw: Limits) returns (r: Result<DeltaFrame, Error>)
    ensures r == DecodeFrame(data, raw)
  {
    var limits := NormalizeLimits(raw);
    if |data| == 0 || |data| > limits.maxFrameBytes {
      return Err(FrameTooLarge);
    }
    if |data| < 32 {
      return Err(InvalidFrame);
    }
    if U32At(data, 0) != FRAME_MAGIC || U16At(data, 4) != PROTOCOL_VERSION || data[7] != 0 {
      return Err(InvalidFrame);
    }
    var count := U16At(data, 30);
    if count > limits.maxObjects * 2 {
      return Err(ObjectLimit);
    }
    var read := ReadObjectLoop(data[32..], count, limits);
    if read.Err? {
      return Err(read.error);
    }
    if |read.value.1| != 0 {
      return Err(InvalidFrame);
    }
    var meta := SnapshotMeta(U64At(data, 8), U32At(data, 16), U32At(data, 20), U16At(data, 28));
    var frame := DeltaFrame(meta, data[6], U32At(data, 24), read.value.0);
    var verdict := ValidateFrameLoop(frame, limits);
    if verdict.Some? {
      return Err(verdict.value);
    }
    return Ok(frame);
  }
}
