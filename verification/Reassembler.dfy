/** The receiver's mutable state, proved against module Reassembly. */
module Reassemblers {
  import opened Common
  import opened ReplicationTypes
  import opened Datagrams
  import opened Reassembly

  const DEFAULT_TTL := 2_000_000_000

  method ConcatLoop(chunks: seq<seq<u8>>) returns (out: seq<u8>)
    ensures out == Concat(chunks)
  {
    out := [];
    var k := 0;
    while k < |chunks|
      invariant 0 <= k <= |chunks|
      invariant out + Concat(chunks[k..]) == Concat(chunks)
    {
      assert chunks[k..][1..] == chunks[k + 1..];
      out := out + chunks[k];
      k := k + 1;
    }
  }

  class Reassembler {
    const limits: Limits
    const ttl: int
    var inflight: Inflight

    ghost predicate Valid()
      reads this
    {
      limits.Positive() && ttl > 0 && Shaped(inflight)
    }

    constructor (raw: Limits, ttl: int)
      ensures Valid() && inflight == map[]
      ensures limits == NormalizeLimits(raw) && this.ttl == if ttl <= 0 then DEFAULT_TTL else ttl
    {
      limits := NormalizeLimits(raw);
      this.ttl := if ttl <= 0 then DEFAULT_TTL else ttl;
      inflight := map[];
    }

    /** Drops every assembly that has been waiting for the whole lifetime. */
    method ExpireAt(now: int) returns (removed: nat)
      requires Valid()
      modifies this`inflight
      ensures Valid() && inflight == Expired(old(inflight), now, ttl)
      ensures removed == |old(inflight)| - |inflight|
    {
      removed := 0;
      ghost var start := inflight;
      var rest := inflight.Keys;
      while rest != {}
        invariant rest <= inflight.Keys <= start.Keys
        invariant forall k :: k in inflight ==> inflight[k] == start[k]
        invariant forall k :: k in rest ==> k in inflight
        invariant forall k :: k in start && k !in rest ==> (k in inflight <==> now - start[k].created < ttl)
        invariant removed == |start| - |inflight|
        decreases |rest|
      {
        var key :| key in rest;
        rest := rest - {key};
        if now - inflight[key].created >= ttl {
          assert inflight.Keys == (inflight - {key}).Keys + {key};
          inflight := inflight - {key};
          removed := removed + 1;
        }
      }
      assert inflight == Expired(start, now, ttl);
    }

    /** Files one payload of the assembly under `key`. */
    method AcceptChunk(key: AssemblyKey, assembly: Assembly, h: DatagramHeader, payload: seq<u8>) returns (outcome: Outcome)
      requires Valid() && h.chunkIndex < |assembly.chunks| == assembly.header.chunkCount
      modifies this`inflight
      ensures Valid() && (inflight, outcome) == Accept(old(inflight), key, assembly, h, payload, limits)
    {
      inflight := inflight[key := assembly];
      var existing := assembly.chunks[h.chunkIndex];
      if existing != [] {
        if existing != payload {
          inflight := inflight - {key};
          assert inflight == old(inflight) - {key};
          return Refused(InvalidDatagram);
        }
        return Waiting;
      }
      if assembly.total + |payload| > limits.maxFrameBytes {
        inflight := inflight - {key};
        assert inflight == old(inflight) - {key};
        return Refused(FrameTooLarge);
      }
      var next := WithChunk(assembly, h.chunkIndex, payload);
      inflight := inflight[key := next];
      assert inflight == old(inflight)[key := next];
      if next.received != |next.chunks| {
        return Waiting;
      }
      var out := ConcatLoop(next.chunks);
      inflight := inflight - {key};
      assert inflight == old(inflight) - {key};
      return Delivered(out);
    }

    method PushDatagram(session: u64, packet: seq<u8>, now: int, crc: Checksum) returns (outcome: Outcome)
      requires Valid()
      modifies this`inflight
      ensures Valid() && (inflight, outcome) == Push(old(inflight), session, packet, now, ttl, limits, crc)
    {
      var decoded := DecodeDatagram(packet, limits, crc);
      if decoded.Err? {
        return Refused(decoded.error);
      }
      var (h, payload) := decoded.value;
      if h.chunkCount == 1 {
        return Delivered(payload);
      }
      var key := KeyFor(session, h);
      var _ := ExpireAt(now);
      if key !in inflight {
        if |inflight| >= limits.maxInflightFrames {
          return Refused(ReassemblyCapacity);
        }
        outcome := AcceptChunk(key, NewAssembly(h, now), h, payload);
        return;
      }
      var assembly := inflight[key];
      if assembly.header.chunkCount != h.chunkCount || assembly.header.baseTick != h.baseTick || assembly.header.flags != h.flags {
        inflight := inflight - {key};
        return Refused(InvalidDatagram);
      }
      outcome := AcceptChunk(key, assembly, h, payload);
    }
  }
}
