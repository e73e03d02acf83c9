/**
 * What happens when a projector shows one tick in two ways: for every two projections there is a run at whose end the
 * client holds a snapshot that the server never made.
 */
module Divergence {
  import opened Common
  import opened Folds
  import opened Arithmetic
  import opened ReplicationTypes
  import opened Snapshots
  import opened Deltas
  import opened Codec
  import opened Datagrams
  import opened Reassembly
  import opened Sessions
  import opened Replicators
  import Runs = SessionRuns
  import opened EndToEnd
  import opened Projections

  // ---- All packets of a frame, delivered in order to an idle receiver ----

  ghost predicate ArrivedFirst(inflight: Inflight, key: AssemblyKey, k: nat) {
    forall i: nat :: i in Arrived(inflight, key) <==> i < k
  }

  /** The receiver holds the first k chunks of one frame and nothing else. */
  ghost predicate HoldsFirst(inflight: Inflight, key: AssemblyKey, table: Table, limits: Limits, k: nat) {
    && Consistent(inflight, table, limits) && inflight.Keys <= {key} && ArrivedFirst(inflight, key, k) && (k == 0 ==> inflight == map[])
    && forall x :: x in inflight ==> inflight[x].created == 0
  }

  lemma {:induction false} CreatedNow(inflight: Inflight, session: u64, packet: seq<u8>, ttl: int, raw: Limits, crc: Checksum)
    requires Shaped(inflight) && forall x :: x in inflight ==> inflight[x].created == 0
    ensures var next := Push(inflight, session, packet, 0, ttl, raw, crc).0; forall x :: x in next ==> next[x].created == 0
  {}

  lemma {:induction false} NoneExpired(inflight: Inflight, ttl: int)
    requires ttl > 0 && forall x :: x in inflight ==> inflight[x].created == 0
    ensures Expired(inflight, 0, ttl) == inflight
  {}

  lemma {:induction false} OnlyOne(inflight: Inflight, key: AssemblyKey)
    requires inflight.Keys <= {key} && key !in inflight
    ensures inflight == map[]
  {
    assert inflight.Keys == {};
  }

  lemma {:induction false} NotRefused(live: Inflight, key: AssemblyKey, limits: Limits)
    requires live.Keys <= {key} && limits.Positive()
    ensures key in live || |live| < limits.maxInflightFrames
  {
    if key !in live { OnlyOne(live, key); }
  }

  lemma {:induction false} WaitsForMore(next: Inflight, key: AssemblyKey, table: Table, limits: Limits, k: nat)
    requires Consistent(next, table, limits) && key in next && key in table && ArrivedFirst(next, key, k)
    ensures k < |table[key].chunks|
  {
    assert Unfinished(key, next[key], table);
    UnfinishedMisses(key, next[key], table);
    var i: nat :| i < |table[key].chunks| && i !in Present(next[key].chunks);
    assert i !in Arrived(next, key);
  }

  lemma {:induction false} LastMissing(live: Inflight, key: AssemblyKey, k: nat, n: nat)
    requires AllBut(live, key, k, n) && ArrivedFirst(live, key, k) && k < n
    ensures k == n - 1
  {
    assert k + 1 !in Arrived(live, key);
  }

  lemma {:induction false} SameKeys(live: Inflight, next: Inflight, key: AssemblyKey)
    requires OthersKept(live, next, key) && live.Keys <= {key}
    ensures next.Keys <= {key}
  {
    forall x | x in next ensures x == key {}
  }

  lemma {:induction false} ArrivedNext(live: Inflight, next: Inflight, key: AssemblyKey, k: nat)
    requires Arrived(next, key) == Arrived(live, key) + {k} && ArrivedFirst(live, key, k)
    ensures ArrivedFirst(next, key, k + 1)
  {}

  /** One more chunk: the last one completes the frame, any other one waits. */
  lemma {:induction false} PushedNext(live: Inflight, key: AssemblyKey, k: nat, table: Table, limits: Limits, next: Inflight,
                                      outcome: Outcome)
    requires key in table && k < |table[key].chunks| && limits.Positive() && live.Keys <= {key} && ArrivedFirst(live, key, k)
    requires Pushed(live, key, k, table, limits, next, outcome)
    ensures next.Keys <= {key} && !outcome.Refused?
    ensures outcome.Delivered? <==> k == |table[key].chunks| - 1
    ensures outcome.Waiting? ==> ArrivedFirst(next, key, k + 1)
    ensures outcome.Delivered? ==> outcome.bytes == Concat(table[key].chunks) && next == map[]
  {
    NotRefused(live, key, limits);
    SameKeys(live, next, key);
    match outcome
    case Waiting =>
      ArrivedNext(live, next, key, k);
      WaitsForMore(next, key, table, limits, k + 1);
    case Delivered(_) =>
      OnlyOne(next, key);
      LastMissing(live, key, k, |table[key].chunks|);
    case Refused(_) =>
  }

  lemma {:induction false} PushReceives(inflight: Assemblies, key: AssemblyKey, tx: Transmission, packets: seq<seq<u8>>,
                                        encoded: seq<u8>, k: nat, rc: Receiver)
    requires CutOf(packets, key, tx, encoded, NormalizeLimits(rc.raw), rc.crc) && k < |tx.chunks|
    ensures Push(inflight, key.session, packets[k], 0, rc.ttl, rc.raw, rc.crc)
            == Receive(inflight, Arrival(key, k, 0), map[key := tx], rc)
  {
    PacketsAt(key, tx, |tx.chunks|, NormalizeLimits(rc.raw), rc.crc, k);
  }

  lemma {:induction false} PushIs(inflight: Assemblies, key: AssemblyKey, tx: Transmission, packets: seq<seq<u8>>, encoded: seq<u8>,
                                  k: nat, rc: Receiver, next: Inflight, outcome: Outcome)
    requires CutOf(packets, key, tx, encoded, NormalizeLimits(rc.raw), rc.crc) && k < |tx.chunks| && rc.ttl > 0
    requires HoldsFirst(inflight, key, map[key := tx], NormalizeLimits(rc.raw), k)
    requires (next, outcome) == Receive(inflight, Arrival(key, k, 0), map[key := tx], rc)
    ensures if |tx.chunks| == 1 then next == inflight && outcome == Delivered(encoded)
            else Pushed(inflight, key, k, map[key := tx], NormalizeLimits(rc.raw), next, outcome)
  {
    ReceiveGenuine(inflight, Arrival(key, k, 0), map[key := tx], rc);
    NoneExpired(inflight, rc.ttl);
  }

  /** What the receiver makes of packet k of a frame of which it holds the packets before. */
  ghost predicate Progress(next: Inflight, outcome: Outcome, key: AssemblyKey, tx: Transmission, encoded: seq<u8>, k: nat, limits: Limits) {
    if k == |tx.chunks| - 1 then outcome == Delivered(encoded) && next == map[]
    else outcome == Reassembly.Waiting && HoldsFirst(next, key, map[key := tx], limits, k + 1)
  }

  lemma {:induction false} PushNext(inflight: Assemblies, key: AssemblyKey, tx: Transmission, packets: seq<seq<u8>>, encoded: seq<u8>,
                                    k: nat, rc: Receiver)
    requires CutOf(packets, key, tx, encoded, NormalizeLimits(rc.raw), rc.crc) && k < |tx.chunks| && rc.ttl > 0
    requires HoldsFirst(inflight, key, map[key := tx], NormalizeLimits(rc.raw), k)
    ensures var (next, outcome) := Push(inflight, key.session, packets[k], 0, rc.ttl, rc.raw, rc.crc);
            Progress(next, outcome, key, tx, encoded, k, NormalizeLimits(rc.raw))
  {
    var (next, outcome) := Push(inflight, key.session, packets[k], 0, rc.ttl, rc.raw, rc.crc);
    PushReceives(inflight, key, tx, packets, encoded, k, rc);
    PushIs(inflight, key, tx, packets, encoded, k, rc, next, outcome);
    if |tx.chunks| > 1 {
      PushedNext(inflight, key, k, map[key := tx], NormalizeLimits(rc.raw), next, outcome);
      CreatedNow(inflight, key.session, packets[k], rc.ttl, rc.raw, rc.crc);
    }
  }

  ghost function Stepper(w: World): (State, Action) -> State {
    (s, a) => FreeStep(w, s, a)
  }

  /** A run of a server that may show a tick in several ways. */
  ghost function FreeRun(w: World, acts: seq<Action>): State {
    Fold(Stepper(w), START, acts)
  }

  /** After the first k packets. */
  ghost predicate Underway(w: World, s: State, now: State, key: AssemblyKey, tx: Transmission, encoded: seq<u8>, k: nat) {
    if k < |tx.chunks| then
      now == s.(inflight := now.inflight) && HoldsFirst(now.inflight, key, map[key := tx], NormalizeLimits(w.server.limits), k)
    else now == s.(held := Rebuild(w.client, s.held, encoded))
  }

  lemma {:induction false} OnePacket(w: World, s: State, now: State, t: Ticket, tx: Transmission, k: nat)
    requires w.ttl > 0 && s.inflight == map[]
    requires CutOf(t.packets, FrameKey(w, t), tx, t.encoded, NormalizeLimits(w.server.limits), w.server.crc)
    requires k < |tx.chunks| && Underway(w, s, now, FrameKey(w, t), tx, t.encoded, k)
    ensures Underway(w, s, DeliverStep(w, now, t.packets[k], 0), FrameKey(w, t), tx, t.encoded, k + 1)
  {
    PushNext(now.inflight, FrameKey(w, t), tx, t.packets, t.encoded, k, Receiver(w.server.limits, w.ttl, w.server.crc));
  }

  lemma {:induction false} NotYet(w: World, s: State, key: AssemblyKey, tx: Transmission, encoded: seq<u8>)
    requires s.inflight == map[] && |tx.chunks| > 0
    ensures Underway(w, s, s, key, tx, encoded, 0)
  {}

  function Deliveries(i: nat, n: nat): seq<Action> {
    seq(n, k requires 0 <= k < n => Deliver(i, k, 0))
  }

  lemma {:induction false} FreePacket(w: World, s: State, now: State, i: nat, t: Ticket, tx: Transmission, k: nat)
    requires w.ttl > 0 && s.inflight == map[] && i < |s.server.tickets| && t == s.server.tickets[i]
    requires CutOf(t.packets, FrameKey(w, t), tx, t.encoded, NormalizeLimits(w.server.limits), w.server.crc)
    requires k < |tx.chunks| && Underway(w, s, now, FrameKey(w, t), tx, t.encoded, k)
    ensures Underway(w, s, Stepper(w)(now, Deliver(i, k, 0)), FrameKey(w, t), tx, t.encoded, k + 1)
  {
    OnePacket(w, s, now, t, tx, k);
  }

  ghost function UnderwayAt(w: World, s: State, t: Ticket, tx: Transmission): (State, nat) -> bool {
    (now: State, k: nat) => Underway(w, s, now, FrameKey(w, t), tx, t.encoded, k)
  }

  lemma {:induction false} StepOn(w: World, s: State, now: State, i: nat, t: Ticket, tx: Transmission, n: nat, k: nat)
    requires w.ttl > 0 && s.inflight == map[] && i < |s.server.tickets| && t == s.server.tickets[i] && k < n == |tx.chunks|
    requires CutOf(t.packets, FrameKey(w, t), tx, t.encoded, NormalizeLimits(w.server.limits), w.server.crc)
    requires UnderwayAt(w, s, t, tx)(now, k)
    ensures UnderwayAt(w, s, t, tx)(Stepper(w)(now, Deliveries(i, n)[k]), k + 1)
  {
    FreePacket(w, s, now, i, t, tx, k);
  }

  lemma {:induction false} StepsOn(w: World, s: State, i: nat, t: Ticket, tx: Transmission, n: nat)
    requires w.ttl > 0 && s.inflight == map[] && i < |s.server.tickets| && t == s.server.tickets[i] && n == |tx.chunks|
    requires CutOf(t.packets, FrameKey(w, t), tx, t.encoded, NormalizeLimits(w.server.limits), w.server.crc)
    ensures forall now, k: nat :: k < n && UnderwayAt(w, s, t, tx)(now, k) ==>
              UnderwayAt(w, s, t, tx)(Stepper(w)(now, Deliveries(i, n)[k]), k + 1)
  {
    forall now, k: nat | k < n && UnderwayAt(w, s, t, tx)(now, k)
      ensures UnderwayAt(w, s, t, tx)(Stepper(w)(now, Deliveries(i, n)[k]), k + 1)
    {
      StepOn(w, s, now, i, t, tx, n, k);
    }
  }

  lemma {:induction false} AllUnderway(w: World, s: State, i: nat, t: Ticket, tx: Transmission)
    requires w.ttl > 0 && s.inflight == map[] && i < |s.server.tickets| && t == s.server.tickets[i]
    requires CutOf(t.packets, FrameKey(w, t), tx, t.encoded, NormalizeLimits(w.server.limits), w.server.crc)
    ensures UnderwayAt(w, s, t, tx)(Fold(Stepper(w), s, Deliveries(i, |tx.chunks|)), |tx.chunks|)
  {
    NotYet(w, s, FrameKey(w, t), tx, t.encoded);
    StepsOn(w, s, i, t, tx, |tx.chunks|);
    FoldKeeps(Stepper(w), s, Deliveries(i, |tx.chunks|), UnderwayAt(w, s, t, tx));
  }

  /** A frame whose packets all arrive is rebuilt. */
  lemma {:induction false} FrameArrives(w: World, s: State, i: nat, t: Ticket)
    requires w.ttl > 0 && s.inflight == map[] && i < |s.server.tickets| && t == s.server.tickets[i] && OnWire(w.server, t)
    ensures Fold(Stepper(w), s, Deliveries(i, |t.packets|)) == s.(held := Rebuild(w.client, s.held, t.encoded))
  {
    WireCut(w.server, w.session, t);
    AllUnderway(w, s, i, t, TransmissionFor(w.server, t));
  }

  // ---- The two projections and the tick after them ----

  /** The full frame of a snapshot. */
  function FullTicket(cfg: Config, x: Snapshot, sequence: u32, generation: nat): Result<Ticket, Error> {
    BuildTicket(cfg, Preparation(None, None, sequence, generation, 0, true), x)
  }

  function NextMeta(m: SnapshotMeta): SnapshotMeta
    requires m.tick < 0xffff_ffff
  {
    m.(tick := m.tick + 1)
  }

  /** Two projections of one tick that both can be sent, to a client with the server's limits that can decode the first. */
  ghost predicate TwoWays(w: World, a: Snapshot, b: Snapshot) {
    && w.client == w.server.limits && w.ttl > 0
    && a.meta == b.meta && a.meta.tick < 0xffff_ffff && Normal(a, w.server.limits) && Normal(b, w.server.limits)
    && FullTicket(w.server, a, 1, 0).Ok? && FullTicket(w.server, b, 2, 1).Ok?
    && PayloadsFit(FullTicket(w.server, a, 1, 0).value.frame.objects, NormalizeLimits(w.server.limits))
  }

  /** The objects of b, shown again at the next tick. */
  function Next(b: Snapshot): Snapshot
    requires b.meta.tick < 0xffff_ffff
  {
    Snapshot(NextMeta(b.meta), b.objects)
  }

  lemma {:induction false} NextNormal(b: Snapshot, raw: Limits)
    requires Normal(b, raw) && b.meta.tick < 0xffff_ffff
    ensures Normal(Next(b), raw) && BuildDelta(Some(b), Next(b)).Ok? && BuildDelta(Some(b), Next(b)).value.objects == []
  {
    SameObjects(b.objects);
  }

  lemma {:induction false} MergesAlone(a: Snapshot, raw: Limits)
    requires Normal(a, raw)
    ensures MergeFits(None, a, NormalizeLimits(raw))
  {
    ViewSize(a.objects);
    assert ObjectsView([]).Keys + ObjectsView(a.objects).Keys == ObjectsView(a.objects).Keys;
  }

  lemma {:induction false} ComponentsSize(cs: seq<ComponentState>)
    ensures |ComponentsView(cs).Keys| <= |cs|
  {
    if cs != [] {
      ComponentsSize(cs[1..]);
      assert ComponentsView(cs).Keys == {cs[0].typeID} + ComponentsView(cs[1..]).Keys;
    }
  }

  lemma {:induction false} ObjectSelf(o: ObjectState, limits: Limits)
    requires GoodObject(o, limits)
    ensures ComponentsFit(o, o, limits)
  {
    ComponentsSize(o.components);
    assert ComponentsView(o.components).Keys + ComponentsView(o.components).Keys == ComponentsView(o.components).Keys;
  }

  lemma {:induction false} ObjectsSelf(objects: seq<ObjectState>, limits: Limits)
    requires GoodObjects(objects, limits)
    ensures AllComponentsFit(objects, objects, limits)
  {
    forall b, c | b in objects && c in objects && b.ref == c.ref ensures ComponentsFit(b, c, limits) {
      var i :| 0 <= i < |objects| && objects[i] == b;
      var j :| 0 <= j < |objects| && objects[j] == c;
      assert i == j;
      ObjectSelf(b, limits);
    }
  }

  lemma {:induction false} MergesSelf(a: Snapshot, meta: SnapshotMeta, raw: Limits)
    requires Normal(a, raw)
    ensures MergeFits(Some(a), Snapshot(meta, a.objects), NormalizeLimits(raw))
  {
    ViewSize(a.objects);
    ObjectsSelf(a.objects, NormalizeLimits(raw));
    assert ObjectsView(a.objects).Keys + ObjectsView(a.objects).Keys == ObjectsView(a.objects).Keys;
  }

  // ---- The client's side ----

  lemma {:induction false} TicketShort(cfg: Config, t: Ticket)
    requires OnWire(cfg, t)
    ensures |t.encoded| < 0x1_0000_0000 && |t.encoded| <= NormalizeLimits(cfg.limits).maxFrameBytes
  {
    WireCut(cfg, 0, t);
    SendableShort(KeyOf(0, t.frame.meta, t.sequence), TransmissionFor(cfg, t), NormalizeLimits(cfg.limits));
  }

  /** The client rebuilds the first projection. */
  lemma {:induction false} FirstRebuilt(w: World, a: Snapshot, t: Ticket)
    requires w.client == w.server.limits && Normal(a, w.server.limits)
    requires t.snapshot == a && BuildDelta(None, a) == Ok(t.frame) && OnWire(w.server, t)
    requires PayloadsFit(t.frame.objects, NormalizeLimits(w.server.limits))
    ensures Rebuild(w.client, map[], t.encoded) == map[a.meta.tick := a]
  {
    TicketShort(w.server, t);
    MergesAlone(a, w.server.limits);
    RebuildsExactly(w.client, map[], None, t);
  }

  lemma {:induction false} NextApplies(a: Snapshot, b: Snapshot, raw: Limits)
    requires a.meta == b.meta && a.meta.tick < 0xffff_ffff && Normal(a, raw) && Normal(b, raw)
    ensures BuildDelta(Some(b), Next(b)).Ok?
    ensures ApplyDelta(Some(a), BuildDelta(Some(b), Next(b)).value, raw) == Ok(Snapshot(NextMeta(a.meta), a.objects))
  {
    NextNormal(a, raw);
    NextNormal(b, raw);
    MergesSelf(a, NextMeta(a.meta), raw);
    TwoProjectionsDiverge(a, b, Next(b), raw);
  }

  lemma {:induction false} RebuildWith(raw: Limits, held: map<u32, Snapshot>, bytes: seq<u8>, frame: DeltaFrame, snapshot: Snapshot)
    requires DecodeFrame(bytes, raw) == Ok(frame) && ApplyDelta(Lookup(held, frame.baseTick), frame, raw) == Ok(snapshot)
    ensures Rebuild(raw, held, bytes) == held[snapshot.meta.tick := snapshot]
  {}

  /** The next tick's frame, built on the second projection, turns the first into a snapshot nobody made. */
  lemma {:induction false} NextRebuilt(w: World, a: Snapshot, b: Snapshot, t: Ticket)
    requires w.client == w.server.limits && a.meta == b.meta && a.meta.tick < 0xffff_ffff
    requires Normal(a, w.server.limits) && Normal(b, w.server.limits)
    requires BuildDelta(Some(b), Next(b)) == Ok(t.frame) && OnWire(w.server, t)
    ensures Rebuild(w.client, map[a.meta.tick := a], t.encoded)
            == map[a.meta.tick := a][NextMeta(a.meta).tick := Snapshot(NextMeta(a.meta), a.objects)]
  {
    var held := map[a.meta.tick := a];
    TicketShort(w.server, t);
    NextApplies(a, b, w.client);
    assert t.frame.objects == [] && t.frame.baseTick == a.meta.tick by { NextNormal(b, w.client); }
    DecodesBack(w.client, t);
    assert Lookup(held, t.frame.baseTick) == Some(a);
    RebuildWith(w.client, held, t.encoded, t.frame, Snapshot(NextMeta(a.meta), a.objects));
  }

  // ---- The server's side ----

  lemma {:induction false} Renormalized(x: Snapshot, raw: Limits)
    requires Normal(x, raw)
    ensures NewSnapshot(x.meta, x.objects, raw) == Ok(x)
  {
    NewSnapshotCanonical(x, x.objects, raw);
  }

  lemma {:induction false} Publishes(cfg: Config, r: Runs.State, x: Snapshot)
    requires Normal(x, cfg.limits) && x.meta.tick > Runs.LatestTick(r)
    ensures Runs.Step(cfg, r, Runs.Publish(x)) == r.(latest := Some(x), published := r.published[x.meta.tick := x])
  {
    Renormalized(x, cfg.limits);
  }

  lemma {:induction false} PreparesTicket(cfg: Config, session: Session, read: Snapshot, x: Snapshot, p: Preparation, t: Ticket)
    requires read.meta == x.meta && Normal(x, cfg.limits)
    requires Prepare(session, x.meta.tick).1 == Ok(p) && BuildTicket(cfg, p, x) == Ok(t)
    ensures PrepareLatest(cfg, session, read, Ok(x)) == (Prepare(session, x.meta.tick).0, Ok(t))
  {
    Renormalized(x, cfg.limits);
  }

  /** Building a frame of projection x of the snapshot that was read. */
  lemma {:induction false} Builds(cfg: Config, r: Runs.State, x: Snapshot, session: Session, t: Ticket)
    requires r.reading.Some? && r.session.sequence < 0xffff_ffff
    requires PrepareLatest(cfg, r.session, r.reading.value, Ok(x)) == (session, Ok(t))
    ensures Runs.BuildStep(cfg, r, Ok(x)) == r.(session := session, reading := None, tickets := r.tickets + [t])
  {}

  lemma {:induction false} FewerChunks(m: nat, n: nat, size: nat)
    requires size > 0 && m <= n
    ensures ChunkCount(m, size) <= ChunkCount(n, size)
  {
    var (x, y) := (m + size - 1, n + size - 1);
    assert x / size * size <= x && y < (y / size + 1) * size;
    if x / size > y / size { MulOrder(y / size + 1, x / size, size); }
  }

  lemma {:induction false} EmptyEncodes(frame: DeltaFrame, raw: Limits)
    requires frame.objects == [] && ValidateFrame(frame, NormalizeLimits(raw)) == None
    ensures EncodeFrame(frame, raw).Ok? && |EncodeFrame(frame, raw).value| == 32
  {}

  lemma {:induction false} NextValid(b: Snapshot, limits: Limits)
    requires b.meta.Valid() && b.meta.tick < 0xffff_ffff && limits.Positive()
    requires BuildDelta(Some(b), Next(b)).Ok? && BuildDelta(Some(b), Next(b)).value.objects == []
    ensures ValidateFrame(BuildDelta(Some(b), Next(b)).value, limits) == None
  {}

  /** A frame of 32 bytes can be cut for any datagram size that an encoded frame can be cut for. */
  lemma {:induction false} ShortFragments(full: DeltaFrame, whole: seq<u8>, frame: DeltaFrame, bytes: seq<u8>, sequence: u32,
                                          maxDatagram: int, raw: Limits)
    requires FragmentError(full, 1, whole, maxDatagram, raw) == None && |bytes| == 32 <= |whole| && sequence != 0
    requires frame.meta.roomID != 0 && frame.meta.epoch != 0 && frame.meta.tick != 0
    ensures FragmentError(frame, sequence, bytes, maxDatagram, raw) == None
  {
    FewerChunks(32, |whole|, DatagramSize(maxDatagram) - DATAGRAM_HEADER_SIZE);
  }

  lemma {:induction false} FullFragments(cfg: Config, a: Snapshot)
    requires FullTicket(cfg, a, 1, 0).Ok?
    ensures var t := FullTicket(cfg, a, 1, 0).value;
            FragmentError(t.frame, 1, t.encoded, cfg.maxDatagram, cfg.limits) == None && |t.encoded| >= 32
  {
    EncodedBytes(FullTicket(cfg, a, 1, 0).value.frame, cfg.limits);
  }

  lemma {:induction false} NextSends(cfg: Config, a: Snapshot, b: Snapshot, p: Preparation)
    requires a.meta == b.meta && a.meta.tick < 0xffff_ffff && Normal(b, cfg.limits) && FullTicket(cfg, a, 1, 0).Ok?
    requires p.base == Some(b) && p.sequence != 0
    ensures BuildTicket(cfg, p, Next(b)).Ok?
  {
    NextNormal(b, cfg.limits);
    var frame := BuildDelta(Some(b), Next(b)).value;
    NextValid(b, NormalizeLimits(cfg.limits));
    EmptyEncodes(frame, cfg.limits);
    FullFragments(cfg, a);
    var t := FullTicket(cfg, a, 1, 0).value;
    ShortFragments(t.frame, t.encoded, frame, EncodeFrame(frame, cfg.limits).value, p.sequence, cfg.maxDatagram, cfg.limits);
  }

  // ---- The run ----

  /** Server calls leave the client alone. */
  lemma {:induction false} Serves(w: World, s: State, a: Runs.Action)
    requires AcksRebuilt(s, a)
    ensures var t := Stepper(w)(s, Serve(a));
            && t.server == Runs.Step(w.server, s.server, a)
            && t.inflight == s.inflight && t.held == s.held && t.forgotten == s.forgotten
  {}

  function Sent(x: Snapshot, ack: u32, sequence: u32, tier: u8, generation: nat, committed: u32): Session {
    Session(ack, x.meta.tick, sequence, false, false, tier, map[x.meta.tick := x], [x.meta.tick], generation, committed, 0)
  }

  lemma {:induction false} FirstPrepared(cfg: Config, a: Snapshot, t: Ticket)
    requires Normal(a, cfg.limits) && FullTicket(cfg, a, 1, 0) == Ok(t)
    ensures PrepareLatest(cfg, NEW_SESSION, a, Ok(a)) == (NEW_SESSION.(sequence := 1), Ok(t))
  {
    PreparesTicket(cfg, NEW_SESSION, a, a, Prepare(NEW_SESSION, a.meta.tick).1.value, t);
  }

  lemma {:induction false} FirstCommitted(a: Snapshot, t: Ticket)
    requires a.meta.tick != 0 && t.snapshot == a && t.sequence == 1 && t.generation == 0 && t.full && !t.spent
    ensures CommitTicket(NEW_SESSION.(sequence := 1), t) == (Sent(a, 0, 1, 0, 0, 1), t.(spent := true, outcome := None))
  {
    assert [] + [a.meta.tick] == [a.meta.tick];
    assert CommitPrepared(NEW_SESSION.(sequence := 1), a, 1, 0, true) == (Sent(a, 0, 1, 0, 0, 1), None);
  }

  lemma {:induction false} SecondPrepared(cfg: Config, a: Snapshot, b: Snapshot, u: Ticket)
    requires a.meta == b.meta && Normal(b, cfg.limits) && FullTicket(cfg, b, 2, 1) == Ok(u)
    ensures PrepareLatest(cfg, Sent(a, 0, 1, 1, 1, 1), a, Ok(b)) == (Sent(a, 0, 2, 1, 1, 1), Ok(u))
  {
    PreparesTicket(cfg, Sent(a, 0, 1, 1, 1, 1), a, b, Prepare(Sent(a, 0, 1, 1, 1, 1), b.meta.tick).1.value, u);
  }

  lemma {:induction false} SecondCommitted(a: Snapshot, b: Snapshot, u: Ticket)
    requires a.meta == b.meta && a.meta.tick != 0 && u.snapshot == b && u.sequence == 2 && u.generation == 1 && u.full && !u.spent
    ensures CommitTicket(Sent(a, 0, 2, 1, 1, 1), u) == (Sent(b, 0, 2, 1, 1, 2), u.(spent := true, outcome := None))
  {
    assert map[a.meta.tick := a][b.meta.tick := b] == map[b.meta.tick := b];
  }

  lemma {:induction false} Acknowledged(b: Snapshot)
    requires b.meta.tick != 0
    ensures Acknowledge(Sent(b, 0, 2, 1, 1, 2), b.meta.tick, b.meta.tick) == (Sent(b, b.meta.tick, 2, 1, 1, 2), None)
  {}

  lemma {:induction false} ThirdPrepared(cfg: Config, b: Snapshot, v: Ticket)
    requires b.meta.tick < 0xffff_ffff && Normal(b, cfg.limits)
    requires BuildTicket(cfg, Preparation(Some(b), Some(b), 3, 1, 1, false), Next(b)) == Ok(v)
    ensures PrepareLatest(cfg, Sent(b, b.meta.tick, 2, 1, 1, 2), Next(b), Ok(Next(b))) == (Sent(b, b.meta.tick, 3, 1, 1, 2), Ok(v))
  {
    NextNormal(b, cfg.limits);
    PreparesTicket(cfg, Sent(b, b.meta.tick, 2, 1, 1, 2), Next(b), Next(b), Preparation(Some(b), Some(b), 3, 1, 1, false), v);
  }

  /** The client's part of the state. */
  ghost predicate SameClient(s: State, t: State) {
    t.inflight == s.inflight && t.held == s.held && t.forgotten == s.forgotten
  }

  /** Some actions lead from s to t. */
  ghost predicate Leads(w: World, s: State, t: State) {
    exists acts: seq<Action> :: Fold(Stepper(w), s, acts) == t
  }

  lemma {:induction false} LeadsOn(w: World, s: State, t: State, u: State)
    requires Leads(w, s, t) && Leads(w, t, u)
    ensures Leads(w, s, u)
  {
    var acts :| Fold(Stepper(w), s, acts) == t;
    var more :| Fold(Stepper(w), t, more) == u;
    FoldMore(Stepper(w), s, acts, more);
  }

  lemma {:induction false} LeadsOne(w: World, s: State, a: Action)
    ensures Leads(w, s, Stepper(w)(s, a))
  {
    FoldOne(Stepper(w), s, a);
  }

  /** A server call, as one step of the whole. */
  lemma {:induction false} Serving(w: World, s: State, a: Runs.Action, r: Runs.State) returns (t: State)
    requires AcksRebuilt(s, a) && Runs.Step(w.server, s.server, a) == r
    ensures Leads(w, s, t) && t.server == r && SameClient(s, t)
  {
    t := Stepper(w)(s, Serve(a));
    Serves(w, s, a);
    LeadsOne(w, s, Serve(a));
  }

  lemma {:induction false} Publishing(w: World, s: State, x: Snapshot) returns (t: State)
    requires Normal(x, w.server.limits) && x.meta.tick > Runs.LatestTick(s.server)
    ensures Leads(w, s, t) && SameClient(s, t)
    ensures t.server == s.server.(latest := Some(x), published := s.server.published[x.meta.tick := x])
  {
    Publishes(w.server, s.server, x);
    t := Serving(w, s, Runs.Publish(x), s.server.(latest := Some(x), published := s.server.published[x.meta.tick := x]));
  }

  lemma {:induction false} Reading(w: World, s: State) returns (t: State)
    requires s.server.reading.None?
    ensures Leads(w, s, t) && SameClient(s, t) && t.server == s.server.(reading := s.server.latest)
  {
    t := Serving(w, s, Runs.ReadLatest, s.server.(reading := s.server.latest));
  }

  lemma {:induction false} Building(w: World, s: State, x: Snapshot, session: Session, ticket: Ticket) returns (t: State)
    requires s.server.reading.Some? && s.server.session.sequence < 0xffff_ffff
    requires PrepareLatest(w.server, s.server.session, s.server.reading.value, Ok(x)) == (session, Ok(ticket))
    ensures Leads(w, s, t) && SameClient(s, t)
    ensures t.server == s.server.(session := session, reading := None, tickets := s.server.tickets + [ticket])
  {
    Builds(w.server, s.server, x, session, ticket);
    t := Serving(w, s, Runs.BuildFrame(Ok(x)), s.server.(session := session, reading := None, tickets := s.server.tickets + [ticket]));
  }

  lemma {:induction false} Committing(w: World, s: State, i: nat, session: Session, done: Ticket) returns (t: State)
    requires i < |s.server.tickets| && CommitTicket(s.server.session, s.server.tickets[i]) == (session, done)
    ensures Leads(w, s, t) && SameClient(s, t)
    ensures t.server == s.server.(session := session, tickets := s.server.tickets[i := done])
  {
    t := Serving(w, s, Runs.CommitFrame(i), s.server.(session := session, tickets := s.server.tickets[i := done]));
  }

  lemma {:induction false} Tiering(w: World, s: State, tier: u8) returns (t: State)
    ensures Leads(w, s, t) && SameClient(s, t) && t.server == s.server.(session := SetQualityTier(s.server.session, tier))
  {
    t := Serving(w, s, Runs.SetTier(tier), s.server.(session := SetQualityTier(s.server.session, tier)));
  }

  lemma {:induction false} Acking(w: World, s: State, tick: u32) returns (t: State)
    requires tick in s.held && tick <= Runs.LatestTick(s.server)
    ensures Leads(w, s, t) && SameClient(s, t)
    ensures t.server == s.server.(session := Acknowledge(s.server.session, tick, tick).0)
  {
    t := Serving(w, s, Runs.Ack(tick, tick), s.server.(session := Acknowledge(s.server.session, tick, tick).0));
  }

  function Done(t: Ticket): Ticket { t.(spent := true, outcome := None) }

  lemma {:induction false} FullTicketIs(cfg: Config, x: Snapshot, sequence: u32, generation: nat, t: Ticket)
    requires FullTicket(cfg, x, sequence, generation) == Ok(t)
    ensures t.snapshot == x && t.sequence == sequence && t.generation == generation && t.full && !t.spent && x.meta.Valid()
    ensures BuildDelta(None, x) == Ok(t.frame) && OnWire(cfg, t)
  {
    BuiltTicket(cfg, Preparation(None, None, sequence, generation, 0, true), x);
  }

  /** A frame is built, and committed as the newest ticket. */
  lemma {:induction false} BuildsAndCommits(w: World, s: State, x: Snapshot, session: Session, t: Ticket, after: Session) returns (s': State)
    requires s.server.reading.Some? && s.server.session.sequence < 0xffff_ffff
    requires PrepareLatest(w.server, s.server.session, s.server.reading.value, Ok(x)) == (session, Ok(t))
    requires CommitTicket(session, t) == (after, Done(t))
    ensures Leads(w, s, s') && SameClient(s, s')
    ensures s'.server == s.server.(session := after, reading := None, tickets := s.server.tickets + [Done(t)])
  {
    var s1 := Building(w, s, x, session, t);
    s' := Committing(w, s1, |s.server.tickets|, after, Done(t));
    assert (s.server.tickets + [t])[|s.server.tickets| := Done(t)] == s.server.tickets + [Done(t)];
    LeadsOn(w, s, s1, s');
  }

  lemma {:induction false} PublishedAndRead(w: World, a: Snapshot) returns (s: State)
    requires Normal(a, w.server.limits)
    ensures Leads(w, START, s) && SameClient(START, s)
    ensures s.server == Runs.State(Some(a), map[a.meta.tick := a], Some(a), NEW_SESSION, [])
  {
    var s1 := Publishing(w, START, a);
    s := Reading(w, s1);
    LeadsOn(w, START, s1, s);
  }

  lemma {:induction false} FirstReady(cfg: Config, a: Snapshot, t: Ticket)
    requires Normal(a, cfg.limits) && FullTicket(cfg, a, 1, 0) == Ok(t)
    ensures PrepareLatest(cfg, NEW_SESSION, a, Ok(a)) == (NEW_SESSION.(sequence := 1), Ok(t))
    ensures CommitTicket(NEW_SESSION.(sequence := 1), t) == (Sent(a, 0, 1, 0, 0, 1), Done(t))
  {
    FullTicketIs(cfg, a, 1, 0, t);
    FirstPrepared(cfg, a, t);
    FirstCommitted(a, t);
  }

  lemma {:induction false} FirstSent(w: World, s: State, a: Snapshot, t: Ticket) returns (s': State)
    requires Normal(a, w.server.limits) && FullTicket(w.server, a, 1, 0) == Ok(t)
    requires s.server == Runs.State(Some(a), map[a.meta.tick := a], Some(a), NEW_SESSION, [])
    ensures Leads(w, s, s') && SameClient(s, s')
    ensures s'.server == Runs.State(Some(a), map[a.meta.tick := a], None, Sent(a, 0, 1, 0, 0, 1), [Done(t)])
  {
    FirstReady(w.server, a, t);
    s' := BuildsAndCommits(w, s, a, NEW_SESSION.(sequence := 1), t, Sent(a, 0, 1, 0, 0, 1));
  }

  lemma {:induction false} TieredAndRead(w: World, s: State, a: Snapshot, ts: seq<Ticket>) returns (s': State)
    requires s.server == Runs.State(Some(a), map[a.meta.tick := a], None, Sent(a, 0, 1, 0, 0, 1), ts)
    ensures Leads(w, s, s') && SameClient(s, s')
    ensures s'.server == Runs.State(Some(a), map[a.meta.tick := a], Some(a), Sent(a, 0, 1, 1, 1, 1), ts)
  {
    var s1 := Tiering(w, s, 1);
    s' := Reading(w, s1);
    LeadsOn(w, s, s1, s');
  }

  lemma {:induction false} SecondSent(w: World, s: State, a: Snapshot, b: Snapshot, ts: seq<Ticket>, u: Ticket) returns (s': State)
    requires a.meta == b.meta && Normal(b, w.server.limits) && FullTicket(w.server, b, 2, 1) == Ok(u)
    requires s.server == Runs.State(Some(a), map[a.meta.tick := a], Some(a), Sent(a, 0, 1, 1, 1, 1), ts)
    ensures Leads(w, s, s') && SameClient(s, s')
    ensures s'.server == Runs.State(Some(a), map[a.meta.tick := a], None, Sent(b, 0, 2, 1, 1, 2), ts + [Done(u)])
  {
    FullTicketIs(w.server, b, 2, 1, u);
    SecondPrepared(w.server, a, b, u);
    SecondCommitted(a, b, u);
    s' := BuildsAndCommits(w, s, b, Sent(a, 0, 2, 1, 1, 1), u, Sent(b, 0, 2, 1, 1, 2));
  }

  /** Projection a is sent and, after a change of tier, projection b of the same tick. */
  lemma {:induction false} BothSent(w: World, a: Snapshot, b: Snapshot, t: Ticket, u: Ticket) returns (s: State)
    requires a.meta == b.meta && Normal(a, w.server.limits) && Normal(b, w.server.limits)
    requires FullTicket(w.server, a, 1, 0) == Ok(t) && FullTicket(w.server, b, 2, 1) == Ok(u)
    ensures Leads(w, START, s) && SameClient(START, s)
    ensures s.server == Runs.State(Some(a), map[a.meta.tick := a], None, Sent(b, 0, 2, 1, 1, 2), [Done(t)] + [Done(u)])
  {
    var s1 := PublishedAndRead(w, a);
    var s2 := FirstSent(w, s1, a, t);
    LeadsOn(w, START, s1, s2);
    var s3 := TieredAndRead(w, s2, a, [Done(t)]);
    LeadsOn(w, START, s2, s3);
    s := SecondSent(w, s3, a, b, [Done(t)], u);
    LeadsOn(w, START, s3, s);
  }

  /** The client acknowledges, and the next tick shows the objects of b again. */
  lemma {:induction false} SendsNext(w: World, s: State, a: Snapshot, b: Snapshot, ts: seq<Ticket>, v: Ticket) returns (s': State)
    requires a.meta == b.meta && b.meta.tick < 0xffff_ffff && Normal(b, w.server.limits) && b.meta.tick in s.held
    requires BuildTicket(w.server, Preparation(Some(b), Some(b), 3, 1, 1, false), Next(b)) == Ok(v)
    requires s.server == Runs.State(Some(a), map[a.meta.tick := a], None, Sent(b, 0, 2, 1, 1, 2), ts)
    ensures Leads(w, s, s') && SameClient(s, s') && s'.server.tickets == ts + [v]
  {
    Acknowledged(b);
    NextNormal(b, w.server.limits);
    var s1 := Acking(w, s, b.meta.tick);
    var s2 := Publishing(w, s1, Next(b));
    LeadsOn(w, s, s1, s2);
    var s3 := Reading(w, s2);
    LeadsOn(w, s, s2, s3);
    ThirdPrepared(w.server, b, v);
    s' := Building(w, s3, Next(b), Sent(b, b.meta.tick, 3, 1, 1, 2), v);
    LeadsOn(w, s, s3, s');
  }

  lemma {:induction false} Delivering(w: World, s: State, i: nat, t: Ticket) returns (s': State)
    requires w.ttl > 0 && s.inflight == map[] && i < |s.server.tickets| && t == s.server.tickets[i] && OnWire(w.server, t)
    ensures Leads(w, s, s') && s' == s.(held := Rebuild(w.client, s.held, t.encoded))
  {
    FrameArrives(w, s, i, t);
    s' := s.(held := Rebuild(w.client, s.held, t.encoded));
  }

  /** The client holds a snapshot of a tick that the server never made. */
  ghost predicate Astray(s: State) {
    exists tick: u32 :: tick in s.held && forall i :: 0 <= i < |s.server.tickets| ==> s.server.tickets[i].snapshot != s.held[tick]
  }

  /** A full frame of x that has been sent. */
  ghost predicate FullOf(cfg: Config, x: Snapshot, t: Ticket) {
    t.snapshot == x && BuildDelta(None, x) == Ok(t.frame) && OnWire(cfg, t)
  }

  /** A frame of the objects of b at the next tick, built on b. */
  ghost predicate DeltaOf(cfg: Config, b: Snapshot, v: Ticket) {
    b.meta.tick < 0xffff_ffff && v.snapshot == Next(b) && BuildDelta(Some(b), Next(b)) == Ok(v.frame) && OnWire(cfg, v)
  }

  lemma {:induction false} NextTicket(cfg: Config, a: Snapshot, b: Snapshot) returns (v: Ticket)
    requires a.meta == b.meta && a.meta.tick < 0xffff_ffff && Normal(b, cfg.limits) && FullTicket(cfg, a, 1, 0).Ok?
    ensures BuildTicket(cfg, Preparation(Some(b), Some(b), 3, 1, 1, false), Next(b)) == Ok(v)
    ensures DeltaOf(cfg, b, v)
  {
    var p := Preparation(Some(b), Some(b), 3, 1, 1, false);
    NextSends(cfg, a, b, p);
    v := BuildTicket(cfg, p, Next(b)).value;
    BuiltTicket(cfg, p, Next(b));
  }

  /** The next tick is prepared on the second projection. */
  lemma {:induction false} NextPrepared(w: World, s: State, a: Snapshot, b: Snapshot, ts: seq<Ticket>) returns (s': State, v: Ticket)
    requires a.meta == b.meta && b.meta.tick < 0xffff_ffff && Normal(b, w.server.limits) && b.meta.tick in s.held
    requires FullTicket(w.server, a, 1, 0).Ok?
    requires s.server == Runs.State(Some(a), map[a.meta.tick := a], None, Sent(b, 0, 2, 1, 1, 2), ts)
    ensures Leads(w, s, s') && SameClient(s, s') && s'.server.tickets == ts + [v] && DeltaOf(w.server, b, v)
  {
    v := NextTicket(w.server, a, b);
    s' := SendsNext(w, s, a, b, ts, v);
  }

  /** The client rebuilds the first projection. */
  lemma {:induction false} FirstDelivered(w: World, s: State, a: Snapshot, t: Ticket) returns (s': State)
    requires w.client == w.server.limits && w.ttl > 0 && Normal(a, w.server.limits) && SameClient(START, s)
    requires |s.server.tickets| > 0 && s.server.tickets[0] == t && FullOf(w.server, a, t)
    requires PayloadsFit(t.frame.objects, NormalizeLimits(w.server.limits))
    ensures Leads(w, s, s') && s' == s.(held := map[a.meta.tick := a])
  {
    FirstRebuilt(w, a, t);
    s' := Delivering(w, s, 0, t);
  }

  lemma {:induction false} StraysAt(s: State, a: Snapshot, b: Snapshot, t: Ticket, u: Ticket, v: Ticket)
    requires a.meta == b.meta && a.meta.tick < 0xffff_ffff && a != b && s.server.tickets == [t] + [u] + [v]
    requires t.snapshot == a && u.snapshot == b && v.snapshot == Next(b)
    requires s.held == map[a.meta.tick := a][NextMeta(a.meta).tick := Snapshot(NextMeta(a.meta), a.objects)]
    ensures Astray(s)
  {
    var tick := NextMeta(a.meta).tick;
    assert s.held[tick] == Snapshot(NextMeta(a.meta), a.objects);
    forall i | 0 <= i < |s.server.tickets| ensures s.server.tickets[i].snapshot != s.held[tick] {}
  }

  /** The frame of the next tick arrives and is applied to the wrong base. */
  lemma {:induction false} NextDelivered(w: World, s: State, a: Snapshot, b: Snapshot, t: Ticket, u: Ticket, v: Ticket) returns (s': State)
    requires w.client == w.server.limits && w.ttl > 0 && a.meta == b.meta && a.meta.tick < 0xffff_ffff
    requires Normal(a, w.server.limits) && Normal(b, w.server.limits) && a != b
    requires s.inflight == map[] && s.held == map[a.meta.tick := a] && s.server.tickets == [t] + [u] + [v]
    requires t.snapshot == a && u.snapshot == b && DeltaOf(w.server, b, v)
    ensures Leads(w, s, s') && Astray(s')
  {
    NextRebuilt(w, a, b, v);
    s' := Delivering(w, s, 2, v);
    StraysAt(s', a, b, t, u, v);
  }

  lemma {:induction false} DoneIsFull(cfg: Config, x: Snapshot, sequence: u32, generation: nat, t: Ticket)
    requires FullTicket(cfg, x, sequence, generation) == Ok(t)
    ensures FullOf(cfg, x, Done(t))
  {
    FullTicketIs(cfg, x, sequence, generation, t);
  }

  /** What follows once both projections have been sent. */
  lemma {:induction false} ThenAstray(w: World, s: State, a: Snapshot, b: Snapshot, t: Ticket, u: Ticket) returns (s': State)
    requires w.client == w.server.limits && w.ttl > 0 && a.meta == b.meta && b.meta.tick < 0xffff_ffff && a != b
    requires Normal(a, w.server.limits) && Normal(b, w.server.limits) && SameClient(START, s) && FullTicket(w.server, a, 1, 0).Ok?
    requires s.server == Runs.State(Some(a), map[a.meta.tick := a], None, Sent(b, 0, 2, 1, 1, 2), [t] + [u])
    requires FullOf(w.server, a, t) && u.snapshot == b && PayloadsFit(t.frame.objects, NormalizeLimits(w.server.limits))
    ensures Leads(w, s, s') && Astray(s')
  {
    var s1 := FirstDelivered(w, s, a, t);
    var s2, v := NextPrepared(w, s1, a, b, [t] + [u]);
    LeadsOn(w, s, s1, s2);
    s' := NextDelivered(w, s2, a, b, t, u, v);
    LeadsOn(w, s, s2, s');
  }

  lemma {:induction false} LeadsAstray(w: World, a: Snapshot, b: Snapshot) returns (s: State)
    requires TwoWays(w, a, b) && a != b
    ensures Leads(w, START, s) && Astray(s)
  {
    var (t, u) := (FullTicket(w.server, a, 1, 0).value, FullTicket(w.server, b, 2, 1).value);
    var s1 := BothSent(w, a, b, t, u);
    DoneIsFull(w.server, a, 1, 0, t);
    DoneIsFull(w.server, b, 2, 1, u);
    s := ThenAstray(w, s1, a, b, Done(t), Done(u));
    LeadsOn(w, START, s1, s);
  }

  /**
   * Any two different projections of one tick lead a client astray: some run sends both, and ends with the client
   * holding, for the next tick, a snapshot that is none of those the server made.
   */
  lemma {:induction false} TwoWaysDiverge(w: World, a: Snapshot, b: Snapshot)
    requires TwoWays(w, a, b) && a != b
    ensures exists acts: seq<Action> :: Astray(FreeRun(w, acts))
  {
    var s := LeadsAstray(w, a, b);
    var acts :| Fold(Stepper(w), START, acts) == s;
    assert Astray(FreeRun(w, acts));
  }

  // ---- A projector that shows every tick in one way ----

  /** Everything recorded as shown was prepared. */
  ghost predicate ShownMade(s: State) {
    forall t :: t in s.shown ==> exists i :: 0 <= i < |s.server.tickets| && s.server.tickets[i].snapshot == s.shown[t]
  }

  lemma {:induction false} ShownKept(s: State, n: Runs.State)
    requires ShownMade(s) && Runs.Advanced(s.server, n)
    ensures forall t :: t in s.shown ==> exists i :: 0 <= i < |n.tickets| && n.tickets[i].snapshot == s.shown[t]
  {
    forall t | t in s.shown ensures exists i :: 0 <= i < |n.tickets| && n.tickets[i].snapshot == s.shown[t] {
      var i :| 0 <= i < |s.server.tickets| && s.server.tickets[i].snapshot == s.shown[t];
      assert n.tickets[i].snapshot == s.server.tickets[i].snapshot;
    }
  }

  lemma {:induction false} ShownMadeStep(w: World, s: State, a: Action)
    requires Runs.Inv(s.server) && ShownMade(s)
    ensures ShownMade(Step(w, s, a))
  {
    if a.Serve? {
      var n := Runs.Step(w.server, s.server, a.action);
      Runs.StepAdvances(w.server, s.server, a.action);
      ShownKept(s, n);
      RecordMade(w, s, n);
    }
  }

  lemma {:induction false} RecordMade(w: World, s: State, n: Runs.State)
    requires forall t :: t in s.shown ==> exists i :: 0 <= i < |n.tickets| && n.tickets[i].snapshot == s.shown[t]
    ensures ShownMade(Record(w, s, n))
  {}

  lemma {:induction false} RunShownMade(w: World, acts: seq<Action>)
    ensures ShownMade(Run(w, acts))
  {
    if acts != [] {
      RunShownMade(w, acts[..|acts| - 1]);
      RunKeeps(w, acts[..|acts| - 1]);
      ShownMadeStep(w, Run(w, acts[..|acts| - 1]), acts[|acts| - 1]);
    }
  }

  ghost predicate HeldShown(s: State) {
    forall t :: t in s.held ==> t in s.shown && s.held[t] == s.shown[t]
  }

  lemma {:induction false} NotAstray(s: State)
    requires ShownMade(s) && HeldShown(s)
    ensures !Astray(s)
  {
    forall tick: u32 | tick in s.held ensures exists i :: 0 <= i < |s.server.tickets| && s.server.tickets[i].snapshot == s.held[tick] {
      assert tick in s.shown && s.held[tick] == s.shown[tick];
    }
  }

  /** With one projection for each tick no run leads the client astray. */
  lemma {:induction false} OneWayNeverAstray(w: World, acts: seq<Action>)
    ensures !Astray(Run(w, acts))
  {
    RunShownMade(w, acts);
    ClientNeverDiverges(w, acts);
    assert HeldShown(Run(w, acts));
    NotAstray(Run(w, acts));
  }
}
