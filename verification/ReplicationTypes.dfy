/** Snapshots, delta frames and limits of the snapshot replication protocol. */
module ReplicationTypes {
  import opened Common

  const PROTOCOL_VERSION: u16 := 1
  const DEFAULT_MAX_DATAGRAM := 1200

  const FRAME_FULL: u8 := 1
  const FRAME_DELTA: u8 := 2
  const OBJECT_CREATE: u8 := 1
  const OBJECT_UPDATE: u8 := 2
  const OBJECT_REMOVE: u8 := 3
  const COMPONENT_SET: u8 := 1
  const COMPONENT_REMOVE: u8 := 2

  datatype Error =
    | InvalidObjectRef
    | ObjectNotFound
    | ObjectLimit
    | ComponentLimit
    | ComponentTooLarge
    | FrameTooLarge
    | InvalidFrame
    | BaselineMismatch
    | SnapshotNotFound
    | SessionNotFound
    | InvalidAck
    | InvalidControl
    | PreparedFrameStale
    | InvalidDatagram
    | ChecksumMismatch
    | FragmentLimit
    | ReassemblyCapacity

  datatype Limits = Limits(
    maxObjects: int,
    maxComponentsPerObject: int,
    maxComponentBytes: int,
    maxFrameBytes: int,
    maxDatagramBytes: int,
    maxFragments: int,
    maxInflightFrames: int)
  {
    predicate Positive() {
      && maxObjects > 0 && maxComponentsPerObject > 0 && maxComponentBytes > 0 && maxFrameBytes > 0
      && maxDatagramBytes > 0 && maxFragments > 0 && maxInflightFrames > 0
    }
  }

  const DEFAULT_LIMITS := Limits(100, 64, 0x1_0000, 0x40_0000, DEFAULT_MAX_DATAGRAM, 64, 32)

  function OrDefault(value: int, fallback: int): int {
    if value <= 0 then fallback else value
  }

  /** Every limit that is not positive is replaced by its default. */
  function NormalizeLimits(limits: Limits): (r: Limits)
    ensures r.Positive()
    ensures limits.Positive() ==> r == limits
  {
    Limits(
      OrDefault(limits.maxObjects, DEFAULT_LIMITS.maxObjects),
      OrDefault(limits.maxComponentsPerObject, DEFAULT_LIMITS.maxComponentsPerObject),
      OrDefault(limits.maxComponentBytes, DEFAULT_LIMITS.maxComponentBytes),
      OrDefault(limits.maxFrameBytes, DEFAULT_LIMITS.maxFrameBytes),
      OrDefault(limits.maxDatagramBytes, DEFAULT_LIMITS.maxDatagramBytes),
      OrDefault(limits.maxFragments, DEFAULT_LIMITS.maxFragments),
      OrDefault(limits.maxInflightFrames, DEFAULT_LIMITS.maxInflightFrames))
  }

  datatype ObjectRef = ObjectRef(id: u16, generation: u16) {
    predicate Valid() { id != 0 && generation != 0 }

    predicate Less(other: ObjectRef) {
      if id != other.id then id < other.id else generation < other.generation
    }

    /** An integer whose order is the order of Less. */
    function Rank(): int { id * 0x1_0000 + generation }
  }

  datatype SnapshotMeta = SnapshotMeta(roomID: u64, epoch: u32, tick: u32, schemaVersion: u16) {
    predicate Valid() { roomID != 0 && epoch != 0 && tick != 0 && schemaVersion != 0 }
  }

  datatype ComponentState = ComponentState(typeID: u16, schemaVersion: u16, data: seq<u8>)

  datatype ObjectState = ObjectState(ref: ObjectRef, archetype: u16, components: seq<ComponentState>)

  datatype Snapshot = Snapshot(meta: SnapshotMeta, objects: seq<ObjectState>)

  datatype ComponentDelta = ComponentDelta(operation: u8, typeID: u16, schemaVersion: u16, data: seq<u8>)

  datatype ObjectDelta = ObjectDelta(operation: u8, ref: ObjectRef, archetype: u16, components: seq<ComponentDelta>)

  datatype DeltaFrame = DeltaFrame(meta: SnapshotMeta, kind: u8, baseTick: u32, objects: seq<ObjectDelta>)

  lemma RankOrdersRefs(a: ObjectRef, b: ObjectRef)
    ensures a.Less(b) <==> a.Rank() < b.Rank()
    ensures a.Rank() == b.Rank() <==> a == b
  {}
}
