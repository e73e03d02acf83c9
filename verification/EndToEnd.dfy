/**
 * Server and client together. The server runs a session; every packet of every frame it ever prepared may reach the
 * client at any time, any number of times, in any order, or never. The client reassembles, decodes, applies, and keeps
 * what it rebuilt by tick; it acknowledges only ticks it rebuilt, and may forget snapshots or expire assemblies at will.
 */
module EndToEnd {
  import opened Common
  import opened ReplicationTypes
  import opened Snapshots
  import opened Deltas
  import opened Codec
  import opened Datagrams
  import opened Reassembly
  import opened Sessions
  import opened Replicators
  import Runs = SessionRuns

  /** The server's configuration, the client's session id and expiry, and the limits the client decodes and applies with. */
  datatype World = World(server: Config, session: u64, ttl: int, client: Limits)

  /** The receiver's frames in flight, with a slot for each chunk. */
  type Assemblies = m: Inflight | Shaped(m) witness map[]

  /**
   * shown records the projection the server made of each tick, and table what each frame key stands for on the wire.
   * forgotten are the ticks that the client rebuilt and dropped.
   */
  datatype State = State(
    server: Runs.State,
    shown: map<u32, Snapshot>,
    table: Table,
    inflight: Assemblies,
    held: map<u32, Snapshot>,
    forgotten: set<u32>)

  const START := State(Runs.INITIAL, map[], map[], map[], map[], {})

  datatype Action =
    | Serve(action: Runs.Action)
    | Deliver(index: nat, chunk: nat, now: int)
    | Expire(now: int)
    | Forget(ticks: set<u32>)

  predicate Rebuilt(s: State, tick: u32) {
    tick in s.held || tick in s.forgotten
  }

  /** The client acknowledges only what it rebuilt, by the direct call or by a control message. */
  predicate AcksRebuilt(s: State, a: Runs.Action) {
    match a
    case Ack(tick, _) => Rebuilt(s, tick)
    case Control(m, _) => m.kind == ControlAck ==> Rebuilt(s, m.tick)
    case _ => true
  }

  /** A tick is never given two different projections. */
  predicate OneProjection(w: World, s: State, a: Runs.Action) {
    a.BuildFrame? && s.server.reading.Some? ==>
      var r := NormalizeProjection(a.projected, s.server.reading.value.meta, w.server.limits);
      r.Ok? && r.value.meta.tick in s.shown ==> s.shown[r.value.meta.tick] == r.value
  }

  predicate Allowed(w: World, s: State, a: Runs.Action) {
    OneProjection(w, s, a) && AcksRebuilt(s, a)
  }

  /** The chunks a prepared frame was cut into. */
  function TransmissionFor(cfg: Config, t: Ticket): Transmission {
    FrameTransmission(t.frame, t.encoded, cfg.maxDatagram)
  }

  function FrameKey(w: World, t: Ticket): AssemblyKey {
    KeyOf(w.session, t.frame.meta, t.sequence)
  }

  /** The records gain an entry for each newly prepared frame. */
  function Record(w: World, s: State, server: Runs.State): State {
    if |server.tickets| <= |s.server.tickets| then s.(server := server)
    else
      var t := server.tickets[|server.tickets| - 1];
      s.(server := server,
         shown := s.shown[t.snapshot.meta.tick := t.snapshot],
         table := s.table[FrameKey(w, t) := TransmissionFor(w.server, t)])
  }

  /** The client on a complete frame: decode it, find its base, apply it, keep the result. */
  ghost function Rebuild(client: Limits, held: map<u32, Snapshot>, bytes: seq<u8>): map<u32, Snapshot> {
    match DecodeFrame(bytes, client)
    case Err(_) => held
    case Ok(frame) =>
      match ApplyDelta(Lookup(held, frame.baseTick), frame, client)
      case Err(_) => held
      case Ok(snapshot) => held[snapshot.meta.tick := snapshot]
  }

  ghost function DeliverStep(w: World, s: State, packet: seq<u8>, now: int): State {
    var (inflight, outcome) := Push(s.inflight, w.session, packet, now, w.ttl, w.server.limits, w.server.crc);
    s.(inflight := inflight, held := if outcome.Delivered? then Rebuild(w.client, s.held, outcome.bytes) else s.held)
  }

  function ForgetStep(s: State, ticks: set<u32>): State {
    s.(held := s.held - ticks, forgotten := s.forgotten + ticks * s.held.Keys)
  }

  /** One step, whatever a projector makes of a tick. */
  ghost function FreeStep(w: World, s: State, a: Action): State {
    match a
    case Serve(action) => if AcksRebuilt(s, action) then Record(w, s, Runs.Step(w.server, s.server, action)) else s
    case Deliver(i, j, now) =>
      if i < |s.server.tickets| && j < |s.server.tickets[i].packets| then DeliverStep(w, s, s.server.tickets[i].packets[j], now)
      else s
    case Expire(now) => s.(inflight := Expired(s.inflight, now, w.ttl))
    case Forget(ticks) => ForgetStep(s, ticks)
  }

  /** One step of a server whose projector shows every tick in one way. */
  ghost function Step(w: World, s: State, a: Action): State {
    if a.Serve? && !OneProjection(w, s, a.action) then s else FreeStep(w, s, a)
  }

  ghost function Run(w: World, acts: seq<Action>): State {
    if acts == [] then START else Step(w, Run(w, acts[..|acts| - 1]), acts[|acts| - 1])
  }

  // ---- The invariant ----

  /** The frame is the difference between the projection of its base tick, or nothing, and the projection of its tick. */
  ghost predicate Honest(shown: map<u32, Snapshot>, t: Ticket) {
    && t.snapshot.meta.tick in shown && shown[t.snapshot.meta.tick] == t.snapshot
    && (t.frame.kind == FRAME_FULL || t.frame.baseTick in shown)
    && BuildDelta(if t.frame.kind == FRAME_FULL then None else Some(shown[t.frame.baseTick]), t.snapshot) == Ok(t.frame)
  }

  /** The table knows the frame: its packets are the cut of its encoded bytes. */
  ghost predicate Filed(w: World, table: Table, t: Ticket) {
    && FrameKey(w, t) in table && EncodeFrame(t.frame, w.server.limits) == Ok(t.encoded)
    && CutOf(t.packets, FrameKey(w, t), table[FrameKey(w, t)], t.encoded, NormalizeLimits(w.server.limits), w.server.crc)
  }

  ghost predicate ServerInv(w: World, s: State) {
    && Runs.Inv(s.server)
    && (forall t :: t in s.shown ==> t == s.shown[t].meta.tick && Normal(s.shown[t], w.server.limits))
    && (forall t :: t in s.server.session.sent ==> t in s.shown && s.shown[t] == s.server.session.sent[t])
    && (forall i :: 0 <= i < |s.server.tickets| ==> Honest(s.shown, s.server.tickets[i]))
  }

  ghost predicate AllFiled(w: World, table: Table, ts: seq<Ticket>) {
    forall i :: 0 <= i < |ts| ==> Filed(w, table, ts[i])
  }

  ghost predicate Numbered(table: Table, sequence: u32) {
    forall k :: k in table ==> k.sequence <= sequence
  }

  ghost predicate WireInv(w: World, s: State) {
    && SendableTable(s.table, NormalizeLimits(w.server.limits)) && Numbered(s.table, s.server.session.sequence)
    && Consistent(s.inflight, s.table, NormalizeLimits(w.server.limits))
    && AllFiled(w, s.table, s.server.tickets)
  }

  /** The client holds only true projections, and has rebuilt the base of every delta frame it may ever be sent. */
  ghost predicate ClientInv(s: State) {
    && (forall t :: t in s.held ==> t in s.shown && s.shown[t] == s.held[t])
    && (s.server.session.ackTick == 0 || Rebuilt(s, s.server.session.ackTick))
    && (forall i :: 0 <= i < |s.server.tickets| ==>
          s.server.tickets[i].frame.kind == FRAME_FULL || Rebuilt(s, s.server.tickets[i].frame.baseTick))
  }

  ghost predicate Inv(w: World, s: State) {
    ServerInv(w, s) && WireInv(w, s) && ClientInv(s)
  }

  // ---- A delivered packet ----

  lemma {:induction false} WireCut(cfg: Config, session: u64, t: Ticket)
    requires FragmentFrame(t.frame, t.sequence, t.encoded, cfg.maxDatagram, cfg.limits, cfg.crc) == Ok(t.packets)
    ensures CutOf(t.packets, KeyOf(session, t.frame.meta, t.sequence), TransmissionFor(cfg, t), t.encoded,
                  NormalizeLimits(cfg.limits), cfg.crc)
  {
    FragmentsCut(t.frame, t.sequence, t.encoded, cfg.maxDatagram, cfg.limits, cfg.crc, session, t.packets);
  }

  lemma {:induction false} CutFiled(w: World, table: Table, t: Ticket, tx: Transmission)
    requires EncodeFrame(t.frame, w.server.limits) == Ok(t.encoded)
    requires CutOf(t.packets, FrameKey(w, t), tx, t.encoded, NormalizeLimits(w.server.limits), w.server.crc)
    ensures Filed(w, table[FrameKey(w, t) := tx], t) && Sendable(FrameKey(w, t), tx, NormalizeLimits(w.server.limits))
  {}

  /** A complete frame that reaches the client is exactly what the server encoded. */
  lemma {:induction false} PushCut(inflight: Assemblies, table: Table, key: AssemblyKey, packets: seq<seq<u8>>, encoded: seq<u8>,
                                   j: nat, now: int, rc: Receiver)
    requires key in table && CutOf(packets, key, table[key], encoded, NormalizeLimits(rc.raw), rc.crc) && j < |packets|
    requires SendableTable(table, NormalizeLimits(rc.raw)) && Consistent(inflight, table, NormalizeLimits(rc.raw))
    ensures var (next, outcome) := Push(inflight, key.session, packets[j], now, rc.ttl, rc.raw, rc.crc);
            && Consistent(next, table, NormalizeLimits(rc.raw)) && (outcome.Delivered? ==> outcome.bytes == encoded)
  {
    PacketsAt(key, table[key], |table[key].chunks|, NormalizeLimits(rc.raw), rc.crc, j);
    ReceiveGenuine(inflight, Arrival(key, j, now), table, rc);
  }

  // ---- The client rebuilds true projections only ----

  /** Applied to what the client holds for its base tick, an honest frame gives its snapshot or nothing. */
  lemma {:induction false} AppliesHonestly(server: Limits, client: Limits, shown: map<u32, Snapshot>, held: map<u32, Snapshot>, t: Ticket)
    requires Honest(shown, t) && Normal(t.snapshot, server)
    requires t.frame.kind == FRAME_FULL || Normal(shown[t.frame.baseTick], server)
    requires t.frame.baseTick in held ==> t.frame.baseTick in shown && shown[t.frame.baseTick] == held[t.frame.baseTick]
    ensures var r := ApplyDelta(Lookup(held, t.frame.baseTick), t.frame, client); r.Ok? ==> r.value == t.snapshot
  {
    if t.frame.kind == FRAME_FULL {
      DeltaMeaning(None, t.snapshot, server, client);
      FullIgnoresBase(Lookup(held, t.frame.baseTick), t.frame, client);
    } else if t.frame.baseTick in held {
      DeltaMeaning(Some(shown[t.frame.baseTick]), t.snapshot, server, client);
    }
  }

  lemma {:induction false} FullIgnoresBase(base: Option<Snapshot>, frame: DeltaFrame, raw: Limits)
    requires frame.kind == FRAME_FULL
    ensures ApplyDelta(base, frame, raw) == ApplyDelta(None, frame, raw)
  {}

  lemma {:induction false} RebuildTrue(server: Limits, client: Limits, shown: map<u32, Snapshot>, held: map<u32, Snapshot>, t: Ticket)
    requires EncodeFrame(t.frame, server) == Ok(t.encoded) && |t.encoded| < 0x1_0000_0000 && Honest(shown, t)
    requires forall k :: k in shown ==> Normal(shown[k], server)
    requires forall k :: k in held ==> k in shown && shown[k] == held[k]
    ensures var next := Rebuild(client, held, t.encoded);
            next == held || next == held[t.snapshot.meta.tick := t.snapshot]
  {
    AppliesHonestly(server, client, shown, held, t);
    if DecodeFrame(t.encoded, client).Ok? { DecodeElsewhere(t.frame, server, client); }
  }

  // ---- Growing records ----

  ghost predicate Extends<K, V>(a: map<K, V>, b: map<K, V>) {
    forall k :: k in a ==> k in b && b[k] == a[k]
  }

  lemma HonestLater(shown: map<u32, Snapshot>, later: map<u32, Snapshot>, t: Ticket)
    requires Honest(shown, t) && Extends(shown, later)
    ensures Honest(later, t)
  {}

  lemma FiledLater(w: World, table: Table, later: Table, t: Ticket)
    requires Filed(w, table, t) && Extends(table, later)
    ensures Filed(w, later, t)
  {}

  lemma ConsistentLater(inflight: Inflight, table: Table, later: Table, limits: Limits)
    requires Consistent(inflight, table, limits) && Extends(table, later)
    ensures Consistent(inflight, later, limits)
  {}

  // ---- Server steps that prepare no new frame ----

  /** A server step that follows the session's rules and prepares no new frame. */
  ghost predicate Settles(s: State, a: Runs.Action, n: Runs.State) {
    && Runs.Inv(n) && Runs.Advanced(s.server, n) && Runs.Sourced(s.server, a, n) && |n.tickets| == |s.server.tickets|
    && AcksRebuilt(s, a)
  }

  lemma {:induction false} SettleServer(w: World, s: State, a: Runs.Action, n: Runs.State)
    requires ServerInv(w, s) && Settles(s, a, n)
    ensures ServerInv(w, s.(server := n))
  {
    forall k | k in n.session.sent ensures k in s.shown && s.shown[k] == n.session.sent[k] {
      assert n.session.sent[k].meta.tick == k;
      if !(k in s.server.session.sent && n.session.sent[k] == s.server.session.sent[k]) {
        var i :| 0 <= i < |s.server.tickets| && s.server.tickets[i].snapshot == n.session.sent[k];
        assert Honest(s.shown, s.server.tickets[i]);
      }
    }
    forall i | 0 <= i < |n.tickets| ensures Honest(s.shown, n.tickets[i]) {
      assert Honest(s.shown, s.server.tickets[i]);
    }
  }

  lemma {:induction false} SettleWire(w: World, s: State, a: Runs.Action, n: Runs.State)
    requires WireInv(w, s) && Settles(s, a, n)
    ensures WireInv(w, s.(server := n))
  {
    forall i | 0 <= i < |n.tickets| ensures Filed(w, s.table, n.tickets[i]) {
      assert Filed(w, s.table, s.server.tickets[i]);
    }
  }

  lemma {:induction false} SettleClient(s: State, a: Runs.Action, n: Runs.State)
    requires ClientInv(s) && Settles(s, a, n)
    ensures ClientInv(s.(server := n))
  {}

  // ---- A newly prepared frame ----

  lemma {:induction false} NewFrameHonest(w: World, s: State, t: Ticket)
    requires ServerInv(w, s) && FromAcked(s.server.session, t)
    requires t.snapshot.meta.tick in s.shown ==> s.shown[t.snapshot.meta.tick] == t.snapshot
    ensures Honest(s.shown[t.snapshot.meta.tick := t.snapshot], t)
    ensures t.frame.kind == FRAME_FULL || t.frame.baseTick == s.server.session.ackTick != 0
  {}

  /** The server appended one frame and touched neither the send history nor the acknowledgement. */
  ghost predicate Adds(s: State, t: Ticket, n: Runs.State) {
    && Runs.Inv(n) && n.tickets == s.server.tickets + [t]
    && n.session.sent == s.server.session.sent && n.session.ackTick == s.server.session.ackTick
    && s.server.session.sequence < t.sequence == n.session.sequence
    && (t.snapshot.meta.tick in s.shown ==> s.shown[t.snapshot.meta.tick] == t.snapshot)
  }

  function Recorded(s: State, t: Ticket, n: Runs.State, key: AssemblyKey, tx: Transmission): State {
    s.(server := n, shown := s.shown[t.snapshot.meta.tick := t.snapshot], table := s.table[key := tx])
  }

  lemma {:induction false} AddServer(w: World, s: State, t: Ticket, n: Runs.State, key: AssemblyKey, tx: Transmission)
    requires ServerInv(w, s) && Adds(s, t, n) && Normal(t.snapshot, w.server.limits)
    requires Honest(s.shown[t.snapshot.meta.tick := t.snapshot], t)
    ensures ServerInv(w, Recorded(s, t, n, key, tx))
  {
    var later := s.shown[t.snapshot.meta.tick := t.snapshot];
    forall i | 0 <= i < |s.server.tickets| ensures Honest(later, n.tickets[i]) {
      HonestLater(s.shown, later, s.server.tickets[i]);
    }
  }

  lemma {:induction false} AllFiledAdd(w: World, table: Table, later: Table, ts: seq<Ticket>, t: Ticket)
    requires AllFiled(w, table, ts) && Extends(table, later) && Filed(w, later, t)
    ensures AllFiled(w, later, ts + [t])
  {
    forall i | 0 <= i < |ts + [t]| ensures Filed(w, later, (ts + [t])[i]) {
      if i < |ts| { FiledLater(w, table, later, ts[i]); }
    }
  }

  lemma {:induction false} TableAdd(table: Table, key: AssemblyKey, tx: Transmission, limits: Limits, before: u32, after: u32)
    requires SendableTable(table, limits) && Numbered(table, before) && before < key.sequence == after && Sendable(key, tx, limits)
    ensures Extends(table, table[key := tx]) && SendableTable(table[key := tx], limits) && Numbered(table[key := tx], after)
  {}

  lemma {:induction false} AddWire(w: World, s: State, t: Ticket, n: Runs.State, tx: Transmission)
    requires WireInv(w, s) && Adds(s, t, n)
    requires Filed(w, s.table[FrameKey(w, t) := tx], t) && Sendable(FrameKey(w, t), tx, NormalizeLimits(w.server.limits))
    ensures WireInv(w, Recorded(s, t, n, FrameKey(w, t), tx))
  {
    var (later, limits) := (s.table[FrameKey(w, t) := tx], NormalizeLimits(w.server.limits));
    TableAdd(s.table, FrameKey(w, t), tx, limits, s.server.session.sequence, n.session.sequence);
    ConsistentLater(s.inflight, s.table, later, limits);
    AllFiledAdd(w, s.table, later, s.server.tickets, t);
  }

  lemma {:induction false} AddClient(s: State, t: Ticket, n: Runs.State, key: AssemblyKey, tx: Transmission)
    requires ClientInv(s) && Adds(s, t, n)
    requires t.frame.kind == FRAME_FULL || t.frame.baseTick == s.server.session.ackTick != 0
    ensures ClientInv(Recorded(s, t, n, key, tx))
  {}

  // ---- Every step keeps the invariant ----

  lemma {:induction false} AddKeeps(w: World, s: State, t: Ticket, n: Runs.State)
    requires Inv(w, s) && Adds(s, t, n)
    requires FromAcked(s.server.session, t) && OnWire(w.server, t) && Normal(t.snapshot, w.server.limits)
    ensures Inv(w, Recorded(s, t, n, FrameKey(w, t), TransmissionFor(w.server, t)))
  {
    NewFrameHonest(w, s, t);
    WireCut(w.server, w.session, t);
    var tx := TransmissionFor(w.server, t);
    CutFiled(w, s.table, t, tx);
    AddServer(w, s, t, n, FrameKey(w, t), tx);
    AddWire(w, s, t, n, tx);
    AddClient(s, t, n, FrameKey(w, t), tx);
  }

  lemma {:induction false} SettleKeeps(w: World, s: State, a: Runs.Action, n: Runs.State)
    requires Inv(w, s) && Settles(s, a, n)
    ensures Inv(w, s.(server := n))
  {
    SettleServer(w, s, a, n);
    SettleWire(w, s, a, n);
    SettleClient(s, a, n);
  }

  /** The frame a preparation appends. */
  lemma {:induction false} BuildAdds(w: World, s: State, projected: Result<Snapshot, Error>, t: Ticket)
    requires Inv(w, s) && Allowed(w, s, Runs.BuildFrame(projected))
    requires var n := Runs.BuildStep(w.server, s.server, projected);
             |n.tickets| > |s.server.tickets| && t == n.tickets[|n.tickets| - 1]
    ensures Adds(s, t, Runs.BuildStep(w.server, s.server, projected))
    ensures FromAcked(s.server.session, t) && OnWire(w.server, t) && Normal(t.snapshot, w.server.limits)
  {
    Runs.BuildKeeps(w.server, s.server, projected);
    PreparedTicket(w.server, s.server.session, s.server.reading.value, projected);
    PreparedFrom(w.server, s.server.session, s.server.reading.value, projected);
  }

  lemma {:induction false} ServeSettles(w: World, s: State, a: Runs.Action, n: Runs.State)
    requires Inv(w, s) && Allowed(w, s, a) && n == Runs.Step(w.server, s.server, a) && |n.tickets| <= |s.server.tickets|
    ensures Inv(w, s.(server := n))
  {
    Runs.StepKeeps(w.server, s.server, a);
    Runs.StepAdvances(w.server, s.server, a);
    Runs.StepSourced(w.server, s.server, a);
    SettleKeeps(w, s, a, n);
  }

  lemma {:induction false} ServeBuilds(w: World, s: State, projected: Result<Snapshot, Error>, n: Runs.State)
    requires Inv(w, s) && Allowed(w, s, Runs.BuildFrame(projected)) && n == Runs.BuildStep(w.server, s.server, projected)
    requires |n.tickets| > |s.server.tickets|
    ensures Inv(w, Record(w, s, n))
  {
    var t := n.tickets[|n.tickets| - 1];
    BuildAdds(w, s, projected, t);
    AddKeeps(w, s, t, n);
  }

  lemma {:induction false} OnlyBuildsAdd(cfg: Config, s: Runs.State, a: Runs.Action)
    requires |Runs.Step(cfg, s, a).tickets| > |s.tickets|
    ensures a.BuildFrame?
  {}

  lemma {:induction false} ServeKeeps(w: World, s: State, a: Runs.Action)
    requires Inv(w, s) && Allowed(w, s, a)
    ensures Inv(w, Record(w, s, Runs.Step(w.server, s.server, a)))
  {
    var n := Runs.Step(w.server, s.server, a);
    if |n.tickets| > |s.server.tickets| {
      OnlyBuildsAdd(w.server, s.server, a);
      ServeBuilds(w, s, a.projected, n);
    } else {
      ServeSettles(w, s, a, n);
    }
  }

  /** One packet changes what the client holds only by adding the true projection of the packet's tick. */
  lemma {:induction false} DeliverEffect(w: World, s: State, i: nat, j: nat, now: int)
    requires Inv(w, s) && i < |s.server.tickets| && j < |s.server.tickets[i].packets|
    ensures var (t, next) := (s.server.tickets[i], DeliverStep(w, s, s.server.tickets[i].packets[j], now));
            && Consistent(next.inflight, s.table, NormalizeLimits(w.server.limits))
            && (next.held == s.held || next.held == s.held[t.snapshot.meta.tick := t.snapshot])
            && next == s.(inflight := next.inflight, held := next.held)
  {
    var t := s.server.tickets[i];
    assert Honest(s.shown, t) && Filed(w, s.table, t);
    PushCut(s.inflight, s.table, FrameKey(w, t), t.packets, t.encoded, j, now, Receiver(w.server.limits, w.ttl, w.server.crc));
    FiledShort(w, s.table, t);
    RebuildTrue(w.server.limits, w.client, s.shown, s.held, t);
  }

  lemma {:induction false} HeldKeeps(s: State, held: map<u32, Snapshot>, inflight: Assemblies, t: Ticket)
    requires ClientInv(s) && Honest(s.shown, t) && (held == s.held || held == s.held[t.snapshot.meta.tick := t.snapshot])
    ensures ClientInv(s.(inflight := inflight, held := held))
  {}

  /** The client's own steps leave the server and the wire's records alone. */
  lemma {:induction false} ClientOnly(w: World, s: State, t: State)
    requires ServerInv(w, s) && WireInv(w, s) && t == s.(inflight := t.inflight, held := t.held, forgotten := t.forgotten)
    requires Consistent(t.inflight, s.table, NormalizeLimits(w.server.limits))
    ensures ServerInv(w, t) && WireInv(w, t)
  {
    assert ServerInv(w, t);
    assert WireInv(w, t);
  }

  lemma {:induction false} DeliverKeeps(w: World, s: State, t: Ticket, next: State)
    requires Inv(w, s) && Honest(s.shown, t) && Consistent(next.inflight, s.table, NormalizeLimits(w.server.limits))
    requires next.held == s.held || next.held == s.held[t.snapshot.meta.tick := t.snapshot]
    requires next == s.(inflight := next.inflight, held := next.held)
    ensures Inv(w, next)
  {
    HeldKeeps(s, next.held, next.inflight, t);
    ClientOnly(w, s, next);
  }

  lemma {:induction false} ExpireClient(s: State, inflight: Assemblies)
    requires ClientInv(s)
    ensures ClientInv(s.(inflight := inflight))
  {}

  lemma {:induction false} ExpireKeeps(w: World, s: State, t: State, now: int)
    requires Inv(w, s) && t == s.(inflight := Expired(s.inflight, now, w.ttl))
    ensures Inv(w, t)
  {
    ExpiredConsistent(s.inflight, now, w.ttl, s.table, NormalizeLimits(w.server.limits));
    ExpireClient(s, t.inflight);
    ClientOnly(w, s, t);
  }

  lemma {:induction false} ForgetClient(s: State, ticks: set<u32>)
    requires ClientInv(s)
    ensures ClientInv(ForgetStep(s, ticks))
  {}

  lemma {:induction false} ForgetKeeps(w: World, s: State, t: State, ticks: set<u32>)
    requires Inv(w, s) && t == ForgetStep(s, ticks)
    ensures Inv(w, t)
  {
    ForgetClient(s, ticks);
    ClientOnly(w, s, t);
  }

  lemma {:induction false} PacketKeeps(w: World, s: State, i: nat, j: nat, now: int)
    requires Inv(w, s) && i < |s.server.tickets| && j < |s.server.tickets[i].packets|
    ensures Inv(w, DeliverStep(w, s, s.server.tickets[i].packets[j], now))
  {
    DeliverEffect(w, s, i, j, now);
    assert Honest(s.shown, s.server.tickets[i]);
    DeliverKeeps(w, s, s.server.tickets[i], DeliverStep(w, s, s.server.tickets[i].packets[j], now));
  }

  lemma {:induction false} StepKeeps(w: World, s: State, a: Action)
    requires Inv(w, s)
    ensures Inv(w, Step(w, s, a))
  {
    match a
    case Serve(action) =>
      if Allowed(w, s, action) { ServeKeeps(w, s, action); }
    case Deliver(i, j, now) =>
      if i < |s.server.tickets| && j < |s.server.tickets[i].packets| { PacketKeeps(w, s, i, j, now); }
    case Expire(now) => ExpireKeeps(w, s, Step(w, s, a), now);
    case Forget(ticks) => ForgetKeeps(w, s, Step(w, s, a), ticks);
  }

  lemma {:induction false} RunKeeps(w: World, acts: seq<Action>)
    ensures Inv(w, Run(w, acts))
  {
    if acts != [] {
      RunKeeps(w, acts[..|acts| - 1]);
      StepKeeps(w, Run(w, acts[..|acts| - 1]), acts[|acts| - 1]);
    }
  }

  // ---- What every run guarantees ----

  /** The client never holds a snapshot different from the server's projection of that tick. */
  lemma {:induction false} ClientNeverDiverges(w: World, acts: seq<Action>)
    ensures var s := Run(w, acts); forall t :: t in s.held ==> t in s.shown && s.held[t] == s.shown[t]
  {
    RunKeeps(w, acts);
  }

  /** The base a frame was built on: the server's projection of its base tick, or nothing. */
  ghost function BaseOf(s: State, t: Ticket): Option<Snapshot> {
    if t.frame.kind == FRAME_FULL then None else Lookup(s.shown, t.frame.baseTick)
  }

  /**
   * The client has rebuilt the base of every delta frame that may still reach it; unless it forgot that base, it holds
   * it, and what it holds is what the frame was built on.
   */
  lemma {:induction false} EveryBaseHeld(w: World, acts: seq<Action>, i: nat)
    requires i < |Run(w, acts).server.tickets|
    ensures var s := Run(w, acts); var t := s.server.tickets[i];
            && BuildDelta(BaseOf(s, t), t.snapshot) == Ok(t.frame) && Lookup(s.shown, t.snapshot.meta.tick) == Some(t.snapshot)
            && (HasBase(s.held, BaseOf(s, t), t.frame) || (t.frame.kind != FRAME_FULL && t.frame.baseTick in s.forgotten))
  {
    RunKeeps(w, acts);
    var s := Run(w, acts);
    assert Honest(s.shown, s.server.tickets[i]);
  }

  /** With the encoder's own limits a frame decodes to itself when its payloads fit the truncated limit, and else not at all. */
  lemma {:induction false} DecodesBack(raw: Limits, t: Ticket)
    requires EncodeFrame(t.frame, raw) == Ok(t.encoded) && |t.encoded| <= NormalizeLimits(raw).maxFrameBytes
    requires |t.encoded| < 0x1_0000_0000
    ensures if PayloadsFit(t.frame.objects, NormalizeLimits(raw)) then DecodeFrame(t.encoded, raw) == Ok(t.frame)
            else DecodeFrame(t.encoded, raw).Err?
  {
    EncodeThenDecode(t.frame, raw);
    if DecodeFrame(t.encoded, raw).Ok? { DecodeElsewhere(t.frame, raw, raw); }
  }

  /** The client finds the base the frame was built on. */
  ghost predicate HasBase(held: map<u32, Snapshot>, base: Option<Snapshot>, frame: DeltaFrame) {
    if frame.kind == FRAME_FULL then base == None else base.Some? && Lookup(held, frame.baseTick) == base
  }

  lemma {:induction false} AppliesTo(raw: Limits, held: map<u32, Snapshot>, base: Option<Snapshot>, t: Ticket)
    requires BuildDelta(base, t.snapshot) == Ok(t.frame) && Normal(t.snapshot, raw) && (base.Some? ==> Normal(base.value, raw))
    requires HasBase(held, base, t.frame) && MergeFits(base, t.snapshot, NormalizeLimits(raw))
    ensures ApplyDelta(Lookup(held, t.frame.baseTick), t.frame, raw) == Ok(t.snapshot)
  {
    DeltaMeaning(base, t.snapshot, raw, raw);
    if t.frame.kind == FRAME_FULL { FullIgnoresBase(Lookup(held, t.frame.baseTick), t.frame, raw); }
  }

  lemma {:induction false} RebuildFrom(raw: Limits, held: map<u32, Snapshot>, t: Ticket)
    requires DecodeFrame(t.encoded, raw) == Ok(t.frame)
    requires ApplyDelta(Lookup(held, t.frame.baseTick), t.frame, raw) == Ok(t.snapshot)
    ensures Rebuild(raw, held, t.encoded) == held[t.snapshot.meta.tick := t.snapshot]
  {}

  lemma {:induction false} FiledShort(w: World, table: Table, t: Ticket)
    requires Filed(w, table, t)
    ensures |t.encoded| < 0x1_0000_0000 && |t.encoded| <= NormalizeLimits(w.server.limits).maxFrameBytes
  {
    ConcatLength(table[FrameKey(w, t)].chunks);
    SendableShort(FrameKey(w, t), table[FrameKey(w, t)], NormalizeLimits(w.server.limits));
  }

  lemma {:induction false} RebuildsExactly(raw: Limits, held: map<u32, Snapshot>, base: Option<Snapshot>, t: Ticket)
    requires EncodeFrame(t.frame, raw) == Ok(t.encoded) && |t.encoded| <= NormalizeLimits(raw).maxFrameBytes
    requires |t.encoded| < 0x1_0000_0000
    requires BuildDelta(base, t.snapshot) == Ok(t.frame) && Normal(t.snapshot, raw) && (base.Some? ==> Normal(base.value, raw))
    requires HasBase(held, base, t.frame) && MergeFits(base, t.snapshot, NormalizeLimits(raw))
    ensures Rebuild(raw, held, t.encoded) ==
            if PayloadsFit(t.frame.objects, NormalizeLimits(raw)) then held[t.snapshot.meta.tick := t.snapshot] else held
  {
    DecodesBack(raw, t);
    if PayloadsFit(t.frame.objects, NormalizeLimits(raw)) {
      AppliesTo(raw, held, base, t);
      RebuildFrom(raw, held, t);
    }
  }

  /**
   * With the server's own limits, a completed frame whose base was not forgotten and whose merge fits gives the client
   * the tick's projection if its payloads fit the truncated limit, and otherwise changes nothing.
   */
  lemma {:induction false} CompletedFrameRebuilds(w: World, acts: seq<Action>, i: nat)
    requires w.client == w.server.limits
    requires i < |Run(w, acts).server.tickets|
    requires var s := Run(w, acts); var t := s.server.tickets[i];
             && (t.frame.kind == FRAME_FULL || t.frame.baseTick !in s.forgotten)
             && MergeFits(BaseOf(s, t), t.snapshot, NormalizeLimits(w.client))
    ensures var s := Run(w, acts); var t := s.server.tickets[i];
            && Rebuild(w.client, s.held, t.encoded) ==
               (if PayloadsFit(t.frame.objects, NormalizeLimits(w.client)) then s.held[t.snapshot.meta.tick := t.snapshot] else s.held)
            && Lookup(s.shown, t.snapshot.meta.tick) == Some(t.snapshot)
  {
    RunKeeps(w, acts);
    EveryBaseHeld(w, acts, i);
    var s := Run(w, acts);
    var t := s.server.tickets[i];
    assert Filed(w, s.table, t);
    FiledShort(w, s.table, t);
    RebuildsExactly(w.client, s.held, BaseOf(s, t), t);
  }
}
