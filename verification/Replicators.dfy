/** The server's frame preparation: read the latest snapshot, pick a base, project, diff, encode, fragment, commit later. */
module Replicators {
  import opened Common
  import opened ReplicationTypes
  import opened Snapshots
  import opened Deltas
  import opened DeltaLoops
  import opened Codec
  import opened CodecLoops
  import opened Datagrams
  import opened Sessions

  datatype Config = Config(limits: Limits, maxDatagram: int, crc: Checksum)

  /** A prepared frame: its content, and whether its one outcome has been decided. */
  datatype Ticket = Ticket(
    frame: DeltaFrame,
    encoded: seq<u8>,
    packets: seq<seq<u8>>,
    snapshot: Snapshot,
    sequence: u32,
    generation: nat,
    full: bool,
    spent: bool,
    outcome: Option<Error>)

  /** The projector's answer is accepted only with unchanged metadata, and is normalised. */
  function NormalizeProjection(projected: Result<Snapshot, Error>, meta: SnapshotMeta, limits: Limits): Result<Snapshot, Error> {
    match projected
    case Err(e) => Err(e)
    case Ok(s) => if s.meta != meta then Err(InvalidFrame) else NewSnapshot(s.meta, s.objects, limits)
  }

  function BuildTicket(cfg: Config, p: Preparation, current: Snapshot): Result<Ticket, Error> {
    match BuildDelta(p.base, current)
    case Err(e) => Err(e)
    case Ok(frame) =>
      match EncodeFrame(frame, cfg.limits)
      case Err(e) => Err(e)
      case Ok(encoded) =>
        match FragmentFrame(frame, p.sequence, encoded, cfg.maxDatagram, cfg.limits, cfg.crc)
        case Err(e) => Err(e)
        case Ok(packets) =>
          Ok(Ticket(frame, encoded, packets, current, p.sequence, p.generation, frame.kind == FRAME_FULL, false, None))
  }

  /** Preparation of a frame for snapshot current, given what the projector makes of it. */
  function PrepareLatest(cfg: Config, s: Session, current: Snapshot, projected: Result<Snapshot, Error>)
    : (Session, Result<Ticket, Error>)
  {
    match Prepare(s, current.meta.tick)
    case (next, Err(e)) => (next, Err(e))
    case (next, Ok(p)) =>
      match NormalizeProjection(projected, current.meta, cfg.limits)
      case Err(e) => (next, Err(e))
      case Ok(shown) => (next, BuildTicket(cfg, p, shown))
  }

  /** Preparing only draws a sequence number and may force a full frame; the ticket carries what was drawn. */
  ghost predicate Draws(s: Session, current: Snapshot, next: Session, r: Result<Ticket, Error>) {
    && next == s.(sequence := next.sequence, forceFull := next.forceFull)
    && (s.forceFull ==> next.forceFull)
    && next.sequence == (if s.closed then s.sequence else NextSequence(s.sequence))
    && (r.Ok? ==> Carries(s, current, next.sequence, r.value))
  }

  ghost predicate Carries(s: Session, current: Snapshot, sequence: u32, t: Ticket) {
    && !s.closed && !t.spent && t.snapshot.meta == current.meta && current.meta.Valid()
    && t.sequence == sequence && t.generation == s.generation && (s.forceFull ==> t.full)
    && (t.full <==> t.frame.kind == FRAME_FULL)
  }

  lemma PreparationDraws(s: Session, tick: u32)
    ensures var (next, r) := Prepare(s, tick);
            && next == s.(sequence := next.sequence, forceFull := next.forceFull)
            && (s.forceFull ==> next.forceFull) && (r.Err? <==> s.closed)
            && next.sequence == (if s.closed then s.sequence else NextSequence(s.sequence))
            && (r.Ok? ==> && r.value.sequence == next.sequence && r.value.generation == s.generation
                          && (s.forceFull ==> r.value.base.None?))
  {}

  /** The frame encodes to the bytes the packets were cut from. */
  ghost predicate OnWire(cfg: Config, t: Ticket) {
    && EncodeFrame(t.frame, cfg.limits) == Ok(t.encoded)
    && FragmentFrame(t.frame, t.sequence, t.encoded, cfg.maxDatagram, cfg.limits, cfg.crc) == Ok(t.packets)
  }

  lemma BuiltTicket(cfg: Config, p: Preparation, current: Snapshot)
    ensures var r := BuildTicket(cfg, p, current);
            r.Ok? ==> && !r.value.spent && r.value.snapshot == current && current.meta.Valid()
                      && r.value.sequence == p.sequence && r.value.generation == p.generation
                      && (r.value.full <==> p.base.None?)
                      && BuildDelta(p.base, current) == Ok(r.value.frame) && OnWire(cfg, r.value)
  {}

  lemma {:induction false} PreparedTicket(cfg: Config, s: Session, current: Snapshot, projected: Result<Snapshot, Error>)
    ensures var (next, r) := PrepareLatest(cfg, s, current, projected); Draws(s, current, next, r)
  {
    PreparationDraws(s, current.meta.tick);
    var shown := NormalizeProjection(projected, current.meta, cfg.limits);
    if !s.closed && shown.Ok? {
      BuiltTicket(cfg, Prepare(s, current.meta.tick).1.value, shown.value);
    }
  }

  /** The frame is the difference from nothing, or from the snapshot stored for the acknowledged tick. */
  ghost predicate FromAcked(s: Session, t: Ticket) {
    || (t.frame.kind == FRAME_FULL && BuildDelta(None, t.snapshot) == Ok(t.frame))
    || (t.frame.kind == FRAME_DELTA && s.ackTick in s.sent && BuildDelta(Some(s.sent[s.ackTick]), t.snapshot) == Ok(t.frame))
  }

  lemma {:induction false} PreparedFrom(cfg: Config, s: Session, current: Snapshot, projected: Result<Snapshot, Error>)
    requires PrepareLatest(cfg, s, current, projected).1.Ok?
    ensures var t := PrepareLatest(cfg, s, current, projected).1.value;
            && NormalizeProjection(projected, current.meta, cfg.limits) == Ok(t.snapshot)
            && Normal(t.snapshot, cfg.limits) && FromAcked(s, t) && OnWire(cfg, t)
  {
    var shown := NormalizeProjection(projected, current.meta, cfg.limits);
    NewSnapshotNormal(projected.value.meta, projected.value.objects, cfg.limits);
    BuiltTicket(cfg, Prepare(s, current.meta.tick).1.value, shown.value);
  }

  /** The first decision about a ticket is the only one. */
  function CommitTicket(s: Session, t: Ticket): (Session, Ticket) {
    if t.spent then (s, t)
    else
      var (next, e) := CommitPrepared(s, t.snapshot, t.sequence, t.generation, t.full);
      (next, t.(spent := true, outcome := e))
  }

  function AbortTicket(t: Ticket): Ticket {
    if t.spent then t else t.(spent := true, outcome := Some(PreparedFrameStale))
  }

  method BuildTicketFrame(cfg: Config, p: Preparation, current: Snapshot) returns (r: Result<Ticket, Error>)
    ensures r == BuildTicket(cfg, p, current)
  {
    var built := BuildDeltaFrame(p.base, current);
    if built.Err? {
      return Err(built.error);
    }
    var frame := built.value;
    var encoded := EncodeFrameLoop(frame, cfg.limits);
    if encoded.Err? {
      return Err(encoded.error);
    }
    var packets := FragmentFrameLoop(frame, p.sequence, encoded.value, cfg.maxDatagram, cfg.limits, cfg.crc);
    if packets.Err? {
      return Err(packets.error);
    }
    return Ok(Ticket(frame, encoded.value, packets.value, current, p.sequence, p.generation, frame.kind == FRAME_FULL, false, None));
  }

  method NormalizeProjected(projected: Result<Snapshot, Error>, meta: SnapshotMeta, limits: Limits) returns (r: Result<Snapshot, Error>)
    ensures r == NormalizeProjection(projected, meta, limits)
  {
    if projected.Err? {
      return Err(projected.error);
    }
    if projected.value.meta != meta {
      return Err(InvalidFrame);
    }
    r := NormalizeSnapshot(projected.value.meta, projected.value.objects, limits);
  }

  method PrepareLatestFrame(cfg: Config, state: SessionState, current: Snapshot, projected: Result<Snapshot, Error>)
    returns (r: Result<Ticket, Error>)
    modifies state
    ensures (state.View(), r) == PrepareLatest(cfg, old(state.View()), current, projected)
  {
    var prepared := state.PrepareFrame(current.meta.tick);
    if prepared.Err? {
      return Err(prepared.error);
    }
    var shown := NormalizeProjected(projected, current.meta, cfg.limits);
    if shown.Err? {
      return Err(shown.error);
    }
    r := BuildTicketFrame(cfg, prepared.value, shown.value);
  }

  /** The handle given to a transport; commit and abort share one decision. */
  class PreparedFrame {
    const state: SessionState
    const content: Ticket
    var spent: bool
    var commitErr: Option<Error>

    ghost function View(): Ticket
      reads this
    {
      content.(spent := spent, outcome := commitErr)
    }

    constructor (state: SessionState, content: Ticket)
      ensures this.state == state && this.content == content && View() == content.(spent := false, outcome := None)
    {
      this.state, this.content := state, content;
      spent, commitErr := false, None;
    }

    method Commit() returns (e: Option<Error>)
      modifies this, state
      ensures (state.View(), View()) == CommitTicket(old(state.View()), old(View())) && e == commitErr
    {
      if !spent {
        var outcome := state.Commit(content.snapshot, content.sequence, content.generation, content.full);
        spent, commitErr := true, outcome;
      }
      return commitErr;
    }

    method Abort()
      modifies this
      ensures View() == AbortTicket(old(View()))
    {
      if !spent {
        spent, commitErr := true, Some(PreparedFrameStale);
      }
    }
  }
}
