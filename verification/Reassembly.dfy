/** Putting frames back together from datagrams that arrive in any order, more than once, or not at all. */
module Reassembly {
  import opened Common
  import opened ReplicationTypes
  import opened Datagrams

  /** A frame being put together; an empty chunk stands for one not received yet. */
  datatype Assembly = Assembly(header: DatagramHeader, created: int, chunks: seq<seq<u8>>, received: nat, total: nat)

  type Inflight = map<AssemblyKey, Assembly>

  datatype Outcome =
    | Delivered(bytes: seq<u8>)
    | Waiting
    | Refused(error: Error)

  function Expired(inflight: Inflight, now: int, ttl: int): Inflight {
    map k | k in inflight && now - inflight[k].created < ttl :: inflight[k]
  }

  function NoChunks(n: nat): (r: seq<seq<u8>>)
    ensures |r| == n && forall i :: 0 <= i < n ==> r[i] == []
  {
    if n == 0 then [] else [[]] + NoChunks(n - 1)
  }

  function NewAssembly(h: DatagramHeader, now: int): Assembly {
    Assembly(h, now, NoChunks(h.chunkCount), 0, 0)
  }

  /** The assembly with one more chunk. */
  function WithChunk(a: Assembly, i: nat, payload: seq<u8>): Assembly
    requires i < |a.chunks|
  {
    a.(chunks := a.chunks[i := payload], received := a.received + 1, total := a.total + |payload|)
  }

  /** Every assembly has a slot for each of its chunks. */
  predicate Shaped(inflight: Inflight) {
    forall k :: k in inflight ==> |inflight[k].chunks| == inflight[k].header.chunkCount
  }

  /** Files one payload into the assembly it belongs to. */
  function Accept(inflight: Inflight, key: AssemblyKey, a: Assembly, h: DatagramHeader, payload: seq<u8>, limits: Limits)
    : (r: (Inflight, Outcome))
    requires Shaped(inflight) && h.chunkIndex < |a.chunks| == a.header.chunkCount
    ensures Shaped(r.0)
  {
    var existing := a.chunks[h.chunkIndex];
    if existing != [] then
      if existing != payload then (inflight - {key}, Refused(InvalidDatagram)) else (inflight[key := a], Waiting)
    else if a.total + |payload| > limits.maxFrameBytes then (inflight - {key}, Refused(FrameTooLarge))
    else
      var b := WithChunk(a, h.chunkIndex, payload);
      if b.received != |b.chunks| then (inflight[key := b], Waiting)
      else (inflight - {key}, Delivered(Concat(b.chunks)))
  }

  function KeyFor(session: u64, h: DatagramHeader): AssemblyKey {
    AssemblyKey(session, h.roomID, h.epoch, h.tick, h.sequence)
  }

  /** What happens to a datagram that decoded to `h` and `payload`. */
  function PushDecoded(inflight: Inflight, session: u64, h: DatagramHeader, payload: seq<u8>, now: int, ttl: int, limits: Limits)
    : (r: (Inflight, Outcome))
    requires Shaped(inflight) && h.chunkIndex < h.chunkCount
    ensures Shaped(r.0)
  {
    if h.chunkCount == 1 then (inflight, Delivered(payload))
    else
      var live := Expired(inflight, now, ttl);
      var key := KeyFor(session, h);
      if key !in live then
        if |live| >= limits.maxInflightFrames then (live, Refused(ReassemblyCapacity))
        else Accept(live, key, NewAssembly(h, now), h, payload, limits)
      else
        var a := live[key];
        if a.header.chunkCount != h.chunkCount || a.header.baseTick != h.baseTick || a.header.flags != h.flags
        then (live - {key}, Refused(InvalidDatagram))
        else Accept(live, key, a, h, payload, limits)
  }

  function Push(inflight: Inflight, session: u64, packet: seq<u8>, now: int, ttl: int, raw: Limits, crc: Checksum)
    : (r: (Inflight, Outcome))
    requires Shaped(inflight)
    ensures Shaped(r.0)
  {
    match DecodeDatagram(packet, raw, crc)
    case Err(e) => (inflight, Refused(e))
    case Ok((h, payload)) => PushDecoded(inflight, session, h, payload, now, ttl, NormalizeLimits(raw))
  }

  // ---- Counting what has arrived ----

  function ReceivedCount(cs: seq<seq<u8>>): nat {
    if cs == [] then 0 else (if cs[0] == [] then 0 else 1) + ReceivedCount(cs[1..])
  }

  lemma {:induction false} ReceiveOne(cs: seq<seq<u8>>, i: nat, payload: seq<u8>)
    requires i < |cs| && cs[i] == [] && payload != []
    ensures ReceivedCount(cs[i := payload]) == ReceivedCount(cs) + 1
    ensures TotalLength(cs[i := payload]) == TotalLength(cs) + |payload|
  {
    if i > 0 {
      ReceiveOne(cs[1..], i - 1, payload);
      assert cs[i := payload][1..] == cs[1..][i - 1 := payload];
    }
  }

  lemma {:induction false} NothingReceived(n: nat)
    ensures ReceivedCount(NoChunks(n)) == 0 && TotalLength(NoChunks(n)) == 0
  {
    if n > 0 { NothingReceived(n - 1); }
  }

  lemma {:induction false} AllReceived(cs: seq<seq<u8>>)
    ensures ReceivedCount(cs) <= |cs|
    ensures ReceivedCount(cs) == |cs| <==> forall i :: 0 <= i < |cs| ==> cs[i] != []
  {
    if cs != [] {
      AllReceived(cs[1..]);
      assert forall i :: 1 <= i < |cs| ==> cs[i] == cs[1..][i - 1];
      if forall i :: 0 <= i < |cs| ==> cs[i] != [] {
        assert forall i :: 0 <= i < |cs[1..]| ==> cs[1..][i] == cs[i + 1];
      }
    }
  }

  /** `part` holds some of the chunks of `whole`, each in its place. */
  ghost predicate PartOf(part: seq<seq<u8>>, whole: seq<seq<u8>>) {
    |part| == |whole| && forall i :: 0 <= i < |part| ==> part[i] == [] || part[i] == whole[i]
  }

  lemma {:induction false} PartLength(part: seq<seq<u8>>, whole: seq<seq<u8>>)
    requires PartOf(part, whole)
    ensures TotalLength(part) <= TotalLength(whole)
  {
    if part != [] {
      assert PartOf(part[1..], whole[1..]);
      PartLength(part[1..], whole[1..]);
    }
  }

  // ---- The invariant: every assembly holds only genuine chunks ----

  /** Which transmission each key stands for. */
  type Table = map<AssemblyKey, Transmission>

  ghost predicate SendableTable(table: Table, limits: Limits) {
    forall k :: k in table ==> Sendable(k, table[k], limits)
  }

  ghost predicate Genuine(a: Assembly, tx: Transmission) {
    && a.header.chunkCount == |tx.chunks| && a.header.baseTick == tx.baseTick && a.header.flags == tx.flags
    && PartOf(a.chunks, tx.chunks)
    && a.received == ReceivedCount(a.chunks) && a.total == TotalLength(a.chunks)
  }

  /** An assembly that belongs to the table and still misses a chunk. */
  ghost predicate Unfinished(key: AssemblyKey, a: Assembly, table: Table) {
    key in table && Genuine(a, table[key]) && a.received < |table[key].chunks|
  }

  ghost predicate Consistent(inflight: Inflight, table: Table, limits: Limits) {
    && |inflight| <= limits.maxInflightFrames
    && forall k :: k in inflight ==> Unfinished(k, inflight[k], table)
  }

  lemma ConsistentShaped(inflight: Inflight, table: Table, limits: Limits)
    requires Consistent(inflight, table, limits)
    ensures Shaped(inflight)
  {}

  /** The chunks of a frame that have arrived since it was last delivered, dropped or expired. */
  ghost function Arrived(inflight: Inflight, key: AssemblyKey): set<nat> {
    if key !in inflight then {} else Present(inflight[key].chunks)
  }

  lemma {:induction false} ExpiredConsistent(inflight: Inflight, now: int, ttl: int, table: Table, limits: Limits)
    requires Consistent(inflight, table, limits)
    ensures Consistent(Expired(inflight, now, ttl), table, limits)
  {
    SubsetCardinality(Expired(inflight, now, ttl).Keys, inflight.Keys);
  }

  lemma {:induction false} WithChunkGenuine(a: Assembly, tx: Transmission, i: nat)
    requires Genuine(a, tx) && i < |a.chunks| && a.chunks[i] == [] && tx.chunks[i] != []
    ensures var b := WithChunk(a, i, tx.chunks[i]);
            && Genuine(b, tx) && b.received <= |b.chunks| && b.total <= TotalLength(tx.chunks)
            && (b.received == |b.chunks| ==> b.chunks == tx.chunks)
  {
    ReceiveOne(a.chunks, i, tx.chunks[i]);
    var chunks := a.chunks[i := tx.chunks[i]];
    assert PartOf(chunks, tx.chunks);
    PartLength(chunks, tx.chunks);
    AllReceived(chunks);
  }

  lemma {:induction false} ConsistentRemove(live: Inflight, key: AssemblyKey, table: Table, limits: Limits)
    requires Consistent(live, table, limits)
    ensures Consistent(live - {key}, table, limits)
  {}

  lemma {:induction false} ConsistentUpdate(live: Inflight, key: AssemblyKey, a: Assembly, table: Table, limits: Limits)
    requires Consistent(live, table, limits) && Unfinished(key, a, table)
    requires key in live || |live| < limits.maxInflightFrames
    ensures Consistent(live[key := a], table, limits)
  {}

  /** Nothing but the assembly under `key` changed. */
  ghost predicate OthersKept(before: Inflight, after: Inflight, key: AssemblyKey) {
    forall k :: k != key ==> (k in after <==> k in before) && (k in before ==> after[k] == before[k])
  }

  /** What filing chunk i of a genuine transmission does. */
  ghost predicate Files(live: Inflight, key: AssemblyKey, a: Assembly, i: nat, table: Table, limits: Limits,
                        next: Inflight, outcome: Outcome)
    requires key in table && i < |a.chunks| == |table[key].chunks|
  {
    && Consistent(next, table, limits) && OthersKept(live, next, key) && !outcome.Refused?
    && (outcome.Delivered? ==>
          outcome.bytes == Concat(table[key].chunks) && key !in next && a.chunks[i := table[key].chunks[i]] == table[key].chunks)
    && (outcome.Waiting? ==> key in next && next[key].chunks == a.chunks[i := table[key].chunks[i]])
  }

  lemma {:induction false} AcceptAgain(live: Inflight, key: AssemblyKey, a: Assembly, h: DatagramHeader, table: Table, limits: Limits)
    requires Consistent(live, table, limits) && Unfinished(key, a, table)
    requires h.chunkIndex < |a.chunks| && a.chunks[h.chunkIndex] != []
    requires key in live || |live| < limits.maxInflightFrames
    ensures var (next, outcome) := Accept(live, key, a, h, table[key].chunks[h.chunkIndex], limits);
            Files(live, key, a, h.chunkIndex, table, limits, next, outcome)
  {
    assert a.chunks[h.chunkIndex := table[key].chunks[h.chunkIndex]] == a.chunks;
    ConsistentUpdate(live, key, a, table, limits);
  }

  lemma {:induction false} AcceptLast(live: Inflight, key: AssemblyKey, a: Assembly, h: DatagramHeader, table: Table, limits: Limits)
    requires Consistent(live, table, limits) && Unfinished(key, a, table) && Sendable(key, table[key], limits)
    requires h.chunkIndex < |a.chunks| && a.chunks[h.chunkIndex] == [] && a.received + 1 == |a.chunks|
    requires table[key].chunks[h.chunkIndex] != []
    ensures var (next, outcome) := Accept(live, key, a, h, table[key].chunks[h.chunkIndex], limits);
            Files(live, key, a, h.chunkIndex, table, limits, next, outcome)
  {
    WithChunkGenuine(a, table[key], h.chunkIndex);
    ConsistentRemove(live, key, table, limits);
  }

  lemma {:induction false} AcceptNext(live: Inflight, key: AssemblyKey, a: Assembly, h: DatagramHeader, table: Table, limits: Limits)
    requires Consistent(live, table, limits) && Unfinished(key, a, table) && Sendable(key, table[key], limits)
    requires h.chunkIndex < |a.chunks| && a.chunks[h.chunkIndex] == [] && a.received + 1 != |a.chunks|
    requires table[key].chunks[h.chunkIndex] != []
    requires key in live || |live| < limits.maxInflightFrames
    ensures var (next, outcome) := Accept(live, key, a, h, table[key].chunks[h.chunkIndex], limits);
            Files(live, key, a, h.chunkIndex, table, limits, next, outcome)
  {
    WithChunkGenuine(a, table[key], h.chunkIndex);
    ConsistentUpdate(live, key, WithChunk(a, h.chunkIndex, table[key].chunks[h.chunkIndex]), table, limits);
  }

  /** A genuine chunk is filed; the frame is delivered, whole, exactly when it was the last one missing. */
  lemma {:induction false} AcceptGenuine(live: Inflight, key: AssemblyKey, a: Assembly, h: DatagramHeader, table: Table, limits: Limits)
    requires Consistent(live, table, limits) && Unfinished(key, a, table)
    requires Sendable(key, table[key], limits) && h.chunkIndex < |a.chunks|
    requires key in live || |live| < limits.maxInflightFrames
    ensures var (next, outcome) := Accept(live, key, a, h, table[key].chunks[h.chunkIndex], limits);
            Files(live, key, a, h.chunkIndex, table, limits, next, outcome)
  {
    var i := h.chunkIndex;
    var payload := table[key].chunks[i];
    assert payload in table[key].chunks;
    if a.chunks[i] != [] {
      AcceptAgain(live, key, a, h, table, limits);
    } else if a.received + 1 == |a.chunks| {
      AcceptLast(live, key, a, h, table, limits);
    } else {
      AcceptNext(live, key, a, h, table, limits);
    }
  }

  lemma {:induction false} NewUnfinished(key: AssemblyKey, h: DatagramHeader, now: int, table: Table)
    requires key in table && h.chunkCount == |table[key].chunks| > 0
    requires h.baseTick == table[key].baseTick && h.flags == table[key].flags
    ensures Unfinished(key, NewAssembly(h, now), table)
  {
    NothingReceived(h.chunkCount);
  }

  /** The header a chunk of a transmission arrives with; its checksum field plays no part afterwards. */
  ghost predicate HeaderOf(h: DatagramHeader, key: AssemblyKey, tx: Transmission) {
    && KeyFor(key.session, h) == key && h.baseTick == tx.baseTick && h.flags == tx.flags
    && h.chunkCount == |tx.chunks| && h.chunkIndex < h.chunkCount
  }

  ghost function Present(cs: seq<seq<u8>>): set<nat> {
    set i: nat | i < |cs| && cs[i] != []
  }

  lemma {:induction false} PresentUpdate(cs: seq<seq<u8>>, i: nat, payload: seq<u8>)
    requires i < |cs| && payload != []
    ensures Present(cs[i := payload]) == Present(cs) + {i}
  {}

  lemma {:induction false} PresentNone(n: nat)
    ensures Present(NoChunks(n)) == {}
  {}

  /** Every chunk of `key` but i has arrived. */
  ghost predicate AllBut(live: Inflight, key: AssemblyKey, i: nat, n: nat) {
    forall j: nat :: j < n && j != i ==> j in Arrived(live, key)
  }

  /** The outcome of pushing chunk i of `key` when `live` is what expiry left. */
  ghost predicate Pushed(live: Inflight, key: AssemblyKey, i: nat, table: Table, limits: Limits, next: Inflight, outcome: Outcome)
    requires key in table
  {
    && Consistent(next, table, limits) && OthersKept(live, next, key)
    && match outcome
       case Delivered(bytes) => bytes == Concat(table[key].chunks) && key !in next && AllBut(live, key, i, |table[key].chunks|)
       case Waiting => key in next && Arrived(next, key) == Arrived(live, key) + {i}
       case Refused(e) => e == ReassemblyCapacity && key !in live && |live| == limits.maxInflightFrames && next == live
  }

  lemma {:induction false} FilesPushed(live: Inflight, key: AssemblyKey, a: Assembly, i: nat, table: Table, limits: Limits,
                                       next: Inflight, outcome: Outcome)
    requires key in table && i < |a.chunks| == |table[key].chunks| && forall c :: c in table[key].chunks ==> c != []
    requires Files(live, key, a, i, table, limits, next, outcome)
    requires Present(a.chunks) == Arrived(live, key)
    ensures Pushed(live, key, i, table, limits, next, outcome)
  {
    assert table[key].chunks[i] in table[key].chunks;
    PresentUpdate(a.chunks, i, table[key].chunks[i]);
    if outcome.Waiting? {
      assert Arrived(next, key) == Present(next[key].chunks);
    } else if outcome.Delivered? {
      forall j: nat | j < |table[key].chunks| && j != i ensures j in Arrived(live, key) {
        assert a.chunks[j] == table[key].chunks[j] && table[key].chunks[j] in table[key].chunks;
      }
    }
  }

  lemma {:induction false} PushKnown(inflight: Inflight, key: AssemblyKey, h: DatagramHeader, now: int, ttl: int,
                                     table: Table, limits: Limits)
    requires Consistent(inflight, table, limits) && Shaped(inflight) && key in table && Sendable(key, table[key], limits)
    requires HeaderOf(h, key, table[key]) && h.chunkCount > 1 && key in Expired(inflight, now, ttl)
    ensures var (next, outcome) := PushDecoded(inflight, key.session, h, table[key].chunks[h.chunkIndex], now, ttl, limits);
            Pushed(Expired(inflight, now, ttl), key, h.chunkIndex, table, limits, next, outcome)
  {
    var live := Expired(inflight, now, ttl);
    ExpiredConsistent(inflight, now, ttl, table, limits);
    assert Unfinished(key, live[key], table);
    AcceptGenuine(live, key, live[key], h, table, limits);
    assert table[key].chunks[h.chunkIndex] in table[key].chunks;
    var (next, outcome) := Accept(live, key, live[key], h, table[key].chunks[h.chunkIndex], limits);
    assert Present(live[key].chunks) == Arrived(live, key);
    FilesPushed(live, key, live[key], h.chunkIndex, table, limits, next, outcome);
  }

  lemma {:induction false} PushFresh(inflight: Inflight, key: AssemblyKey, h: DatagramHeader, now: int, ttl: int,
                                     table: Table, limits: Limits)
    requires Consistent(inflight, table, limits) && Shaped(inflight) && key in table && Sendable(key, table[key], limits)
    requires HeaderOf(h, key, table[key]) && h.chunkCount > 1 && key !in Expired(inflight, now, ttl)
    ensures var (next, outcome) := PushDecoded(inflight, key.session, h, table[key].chunks[h.chunkIndex], now, ttl, limits);
            Pushed(Expired(inflight, now, ttl), key, h.chunkIndex, table, limits, next, outcome)
  {
    var live := Expired(inflight, now, ttl);
    ExpiredConsistent(inflight, now, ttl, table, limits);
    if |live| < limits.maxInflightFrames {
      var a := NewAssembly(h, now);
      NewUnfinished(key, h, now, table);
      AcceptGenuine(live, key, a, h, table, limits);
      assert table[key].chunks[h.chunkIndex] in table[key].chunks;
      var (next, outcome) := Accept(live, key, a, h, table[key].chunks[h.chunkIndex], limits);
      PresentNone(h.chunkCount);
      FilesPushed(live, key, a, h.chunkIndex, table, limits, next, outcome);
    }
  }

  /**
    Pushing a genuine datagram, after any history of genuine datagrams: the only refusal is for lack of capacity, the only
    delivery is the exact frame, and otherwise the chunk is remembered.
   */
  lemma {:induction false} PushGenuine(inflight: Inflight, key: AssemblyKey, h: DatagramHeader, now: int, ttl: int,
                                       table: Table, limits: Limits)
    requires Consistent(inflight, table, limits) && key in table && Sendable(key, table[key], limits)
    requires HeaderOf(h, key, table[key])
    ensures Shaped(inflight)
    ensures var (next, outcome) := PushDecoded(inflight, key.session, h, table[key].chunks[h.chunkIndex], now, ttl, limits);
            if h.chunkCount == 1 then next == inflight && outcome == Delivered(Concat(table[key].chunks))
            else Pushed(Expired(inflight, now, ttl), key, h.chunkIndex, table, limits, next, outcome)
  {
    ConsistentShaped(inflight, table, limits);
    if h.chunkCount == 1 {
      var cs := table[key].chunks;
      assert Concat(cs) == cs[0] + Concat([]);
    } else if key in Expired(inflight, now, ttl) {
      PushKnown(inflight, key, h, now, ttl, table, limits);
    } else {
      PushFresh(inflight, key, h, now, ttl, table, limits);
    }
  }

  // ---- Whole runs ----

  /** A genuine datagram reaching the receiver at some time. */
  datatype Arrival = Arrival(key: AssemblyKey, index: nat, now: int)

  /** The configuration a receiver runs with. */
  datatype Receiver = Receiver(raw: Limits, ttl: int, crc: Checksum)

  ghost predicate GoodArrival(e: Arrival, table: Table) {
    e.key in table && e.index < |table[e.key].chunks|
  }

  /** A genuine packet decodes to its header and chunk. */
  lemma {:induction false} PacketDecodes(key: AssemblyKey, tx: Transmission, i: nat, limits: Limits, crc: Checksum)
    requires limits.Positive() && Sendable(key, tx, limits) && i < |tx.chunks|
    ensures var r := DecodeDatagram(Packet(key, tx, i, limits, crc), limits, crc);
            r.Ok? && r.value.1 == tx.chunks[i] && HeaderOf(r.value.0, key, tx) && r.value.0.chunkIndex == i
  {
    assert tx.chunks[i] in tx.chunks;
    DatagramRoundTrip(ChunkHeader(key, tx, i), tx.chunks[i], limits, crc);
  }

  /** One arrival, as the receiver sees it: bytes in, bytes or nothing out. */
  ghost function Receive(inflight: Inflight, e: Arrival, table: Table, rc: Receiver): (r: (Inflight, Outcome))
    requires Shaped(inflight) && GoodArrival(e, table) && SendableTable(table, NormalizeLimits(rc.raw))
    ensures Shaped(r.0)
  {
    var limits := NormalizeLimits(rc.raw);
    Push(inflight, e.key.session, Packet(e.key, table[e.key], e.index, limits, rc.crc), e.now, rc.ttl, limits, rc.crc)
  }

  /** What one arrival does to a receiver that has only ever seen genuine datagrams. */
  ghost predicate Received(before: Inflight, e: Arrival, table: Table, rc: Receiver, after: Inflight, outcome: Outcome)
    requires GoodArrival(e, table)
  {
    if |table[e.key].chunks| == 1 then after == before && outcome == Delivered(Concat(table[e.key].chunks))
    else Pushed(Expired(before, e.now, rc.ttl), e.key, e.index, table, NormalizeLimits(rc.raw), after, outcome)
  }

  lemma {:induction false} ReceiveGenuine(inflight: Inflight, e: Arrival, table: Table, rc: Receiver)
    requires SendableTable(table, NormalizeLimits(rc.raw)) && Consistent(inflight, table, NormalizeLimits(rc.raw))
    requires GoodArrival(e, table)
    ensures Shaped(inflight)
    ensures var (after, outcome) := Receive(inflight, e, table, rc); Received(inflight, e, table, rc, after, outcome)
  {
    var limits := NormalizeLimits(rc.raw);
    var tx := table[e.key];
    ConsistentShaped(inflight, table, limits);
    PacketDecodes(e.key, tx, e.index, limits, rc.crc);
    var h := DecodeDatagram(Packet(e.key, tx, e.index, limits, rc.crc), limits, rc.crc).value.0;
    PushGenuine(inflight, e.key, h, e.now, rc.ttl, table, limits);
  }

  /** A run: arrivals, the assemblies in flight between them, and what each arrival led to. */
  datatype Trace = Trace(es: seq<Arrival>, states: seq<Inflight>, outcomes: seq<Outcome>)

  ghost predicate WellTimed(t: Trace, table: Table) {
    && |t.states| == |t.es| + 1 && |t.outcomes| == |t.es|
    && forall j :: 0 <= j < |t.es| ==> GoodArrival(t.es[j], table)
  }

  /** The run starts with nothing in flight and every step is the receiver's own. */
  ghost predicate IsRun(t: Trace, table: Table, rc: Receiver) {
    && SendableTable(table, NormalizeLimits(rc.raw))
    && WellTimed(t, table) && t.states[0] == map[]
    && forall j :: 0 <= j < |t.es| ==>
         Shaped(t.states[j]) && (t.states[j + 1], t.outcomes[j]) == Receive(t.states[j], t.es[j], table, rc)
  }

  /** Every step of the run is understood, and every state in it is consistent. */
  ghost predicate Understood(t: Trace, table: Table, rc: Receiver) {
    && WellTimed(t, table) && t.states[0] == map[]
    && (forall j :: 0 <= j < |t.states| ==> Consistent(t.states[j], table, NormalizeLimits(rc.raw)))
    && (forall j :: 0 <= j < |t.es| ==> Received(t.states[j], t.es[j], table, rc, t.states[j + 1], t.outcomes[j]))
  }

  /** Every run of genuine datagrams, in any order and with any repetition, keeps the receiver consistent. */
  lemma {:induction false} RunConsistent(t: Trace, table: Table, rc: Receiver, n: nat)
    requires IsRun(t, table, rc) && n < |t.states|
    ensures Consistent(t.states[n], table, NormalizeLimits(rc.raw))
    ensures n < |t.es| ==> Received(t.states[n], t.es[n], table, rc, t.states[n + 1], t.outcomes[n])
  {
    if n > 0 { RunConsistent(t, table, rc, n - 1); }
    if n < |t.es| { ReceiveGenuine(t.states[n], t.es[n], table, rc); }
  }

  lemma {:induction false} RunUnderstood(t: Trace, table: Table, rc: Receiver)
    requires IsRun(t, table, rc)
    ensures Understood(t, table, rc)
  {
    forall n | 0 <= n < |t.states|
      ensures Consistent(t.states[n], table, NormalizeLimits(rc.raw))
              && (n < |t.es| ==> Received(t.states[n], t.es[n], table, rc, t.states[n + 1], t.outcomes[n])) {
      RunConsistent(t, table, rc, n);
    }
  }

  /**
    Safety of reassembly over whole runs: a delivery is always the exact bytes of the frame its key stands for and happens
    only with the last chunk missing, the only refusal is for capacity, and the assemblies never exceed their limit.
   */
  lemma {:induction false} RunDeliversExactly(t: Trace, table: Table, rc: Receiver, j: nat)
    requires IsRun(t, table, rc) && j < |t.es|
    ensures |t.states[j + 1]| <= NormalizeLimits(rc.raw).maxInflightFrames
    ensures t.outcomes[j].Delivered? ==>
              && t.outcomes[j].bytes == Concat(table[t.es[j].key].chunks)
              && AllBut(Expired(t.states[j], t.es[j].now, rc.ttl), t.es[j].key, t.es[j].index, |table[t.es[j].key].chunks|)
    ensures t.outcomes[j].Refused? ==> t.outcomes[j].error == ReassemblyCapacity
  {
    RunConsistent(t, table, rc, j);
    RunConsistent(t, table, rc, j + 1);
  }

  /** The j-th arrival does not expire the assembly of `key`, and is not refused if it belongs to `key`. */
  ghost predicate Keeps(t: Trace, j: nat, key: AssemblyKey, rc: Receiver)
    requires j < |t.es| == |t.outcomes| && j < |t.states|
  {
    && (key in t.states[j] ==> key in Expired(t.states[j], t.es[j].now, rc.ttl))
    && (t.es[j].key == key ==> !t.outcomes[j].Refused?)
  }

  /** The chunks of `key` among arrivals start, ..., n-1. */
  ghost function IndicesSince(es: seq<Arrival>, start: nat, n: nat, key: AssemblyKey): set<nat>
    requires start <= n <= |es|
    decreases n
  {
    if n == start then {}
    else IndicesSince(es, start, n - 1, key) + (if es[n - 1].key == key then {es[n - 1].index} else {})
  }

  lemma {:induction false} IndexArrived(es: seq<Arrival>, start: nat, n: nat, key: AssemblyKey, i: nat)
    requires start <= n <= |es|
    ensures i in IndicesSince(es, start, n, key) <==> exists j :: start <= j < n && es[j].key == key && es[j].index == i
  {
    if n > start { IndexArrived(es, start, n - 1, key, i); }
  }

  lemma {:induction false} ArrivedStep(before: Inflight, e: Arrival, table: Table, rc: Receiver, after: Inflight,
                                       outcome: Outcome, key: AssemblyKey)
    requires GoodArrival(e, table) && Received(before, e, table, rc, after, outcome)
    requires key in table && |table[key].chunks| > 1
    requires key in before ==> key in Expired(before, e.now, rc.ttl)
    requires e.key == key ==> outcome.Waiting?
    ensures Arrived(after, key) == Arrived(before, key) + (if e.key == key then {e.index} else {})
  {
    assert Arrived(Expired(before, e.now, rc.ttl), key) == Arrived(before, key);
  }

  /** The j-th arrival adds its chunk to what is held of `key`, if it belongs to it, and loses nothing. */
  ghost predicate Collects(t: Trace, j: nat, key: AssemblyKey)
    requires j < |t.es| < |t.states|
  {
    Arrived(t.states[j + 1], key) == Arrived(t.states[j], key) + (if t.es[j].key == key then {t.es[j].index} else {})
  }

  lemma {:induction false} ChunkStep(t: Trace, j: nat, key: AssemblyKey, table: Table, rc: Receiver)
    requires Understood(t, table, rc) && j < |t.es| && key in table && |table[key].chunks| > 1
    requires Keeps(t, j, key, rc) && (t.es[j].key == key ==> !t.outcomes[j].Delivered?)
    ensures Collects(t, j, key)
  {
    assert Received(t.states[j], t.es[j], table, rc, t.states[j + 1], t.outcomes[j]);
    ArrivedStep(t.states[j], t.es[j], table, rc, t.states[j + 1], t.outcomes[j], key);
  }

  /** Until `key` is delivered, the receiver holds exactly the chunks of it that arrived. */
  lemma {:induction false} ChunksAccumulate(t: Trace, start: nat, n: nat, key: AssemblyKey)
    requires start <= n <= |t.es| < |t.states| && key !in t.states[start]
    requires forall j :: start <= j < n ==> Collects(t, j, key)
    ensures Arrived(t.states[n], key) == IndicesSince(t.es, start, n, key)
    decreases n
  {
    if n > start {
      ChunksAccumulate(t, start, n - 1, key);
      assert Collects(t, n - 1, key);
    }
  }

  lemma {:induction false} UnfinishedMisses(key: AssemblyKey, a: Assembly, table: Table)
    requires Unfinished(key, a, table)
    ensures exists i: nat :: i < |table[key].chunks| && i !in Present(a.chunks)
  {
    AllReceived(a.chunks);
    var i :| 0 <= i < |a.chunks| && a.chunks[i] == [];
    assert i !in Present(a.chunks);
  }

  lemma {:induction false} MustDeliver(t: Trace, start: nat, key: AssemblyKey, table: Table, rc: Receiver)
    requires Understood(t, table, rc) && start <= |t.es| && key in table && |table[key].chunks| > 1
    requires key !in t.states[start]
    requires forall j :: start <= j < |t.es| ==> Keeps(t, j, key, rc)
    requires forall i: nat :: i < |table[key].chunks| ==> i in IndicesSince(t.es, start, |t.es|, key)
    ensures exists j :: start <= j < |t.es| && t.es[j].key == key && t.outcomes[j].Delivered?
  {
    if forall j :: start <= j < |t.es| && t.es[j].key == key ==> !t.outcomes[j].Delivered? {
      var n := |t.es|;
      forall j | start <= j < n ensures Collects(t, j, key) { ChunkStep(t, j, key, table, rc); }
      ChunksAccumulate(t, start, n, key);
      assert 0 in IndicesSince(t.es, start, n, key);
      assert Unfinished(key, t.states[n][key], table);
      UnfinishedMisses(key, t.states[n][key], table);
      assert false;
    }
  }

  /**
    Completeness of reassembly: once every chunk of a frame has arrived, without its assembly expiring or a chunk being
    refused for capacity, the frame has been delivered.
   */
  lemma {:induction false} RunDelivers(t: Trace, start: nat, key: AssemblyKey, table: Table, rc: Receiver)
    requires IsRun(t, table, rc) && start <= |t.es| && key in table && key !in t.states[start]
    requires forall j :: start <= j < |t.es| ==> Keeps(t, j, key, rc)
    requires forall i: nat :: i < |table[key].chunks| ==> i in IndicesSince(t.es, start, |t.es|, key)
    ensures exists j :: start <= j < |t.es| && t.es[j].key == key && t.outcomes[j] == Delivered(Concat(table[key].chunks))
  {
    RunUnderstood(t, table, rc);
    assert Sendable(key, table[key], NormalizeLimits(rc.raw));
    if |table[key].chunks| == 1 {
      IndexArrived(t.es, start, |t.es|, key, 0);
      var j :| start <= j < |t.es| && t.es[j].key == key && t.es[j].index == 0;
      assert Received(t.states[j], t.es[j], table, rc, t.states[j + 1], t.outcomes[j]);
    } else {
      MustDeliver(t, start, key, table, rc);
      var j :| start <= j < |t.es| && t.es[j].key == key && t.outcomes[j].Delivered?;
      assert Received(t.states[j], t.es[j], table, rc, t.states[j + 1], t.outcomes[j]);
    }
  }
}
