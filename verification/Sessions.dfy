/** What a session remembers: acknowledgements, the recent projections it sent, and why the next frame must be full. */
module Sessions {
  import opened Common
  import opened ReplicationTypes

  const MAX_HISTORY := 64

  datatype Session = Session(
    ackTick: u32,
    lastSent: u32,
    sequence: u32,
    forceFull: bool,
    closed: bool,
    qualityTier: u8,
    sent: map<u32, Snapshot>,
    sentOrder: seq<u32>,
    generation: nat,
    committed: u32,
    controlSeq: u32)

  const NEW_SESSION := Session(0, 0, 0, true, false, 0, map[], [], 0, 0, 0)

  datatype ControlType = ControlAck | ControlResync | ControlOther

  datatype ControlMessage = ControlMessage(kind: ControlType, roomID: u64, epoch: u32, tick: u32, sequence: u32)

  /** What prepare hands to the frame builder. */
  datatype Preparation = Preparation(base: Option<Snapshot>, previous: Option<Snapshot>, sequence: u32, generation: nat,
                                     qualityTier: u8, fullRefresh: bool)

  function Lookup(sent: map<u32, Snapshot>, tick: u32): Option<Snapshot> {
    if tick in sent then Some(sent[tick]) else None
  }

  /** The next sequence number; zero is skipped when the counter wraps. */
  function NextSequence(sequence: u32): u32 {
    if sequence == 0xffff_ffff then 1 else sequence + 1
  }

  function Prepare(s: Session, targetTick: u32): (Session, Result<Preparation, Error>) {
    if s.closed then (s, Err(SessionNotFound))
    else
      var next := s.(sequence := NextSequence(s.sequence));
      var previous := Lookup(s.sent, s.lastSent);
      if !s.forceFull && s.ackTick != 0 && s.ackTick < targetTick then
        if s.ackTick in s.sent then
          (next, Ok(Preparation(Some(s.sent[s.ackTick]), previous, next.sequence, s.generation, s.qualityTier, false)))
        else
          (next.(forceFull := true), Ok(Preparation(None, previous, next.sequence, s.generation, s.qualityTier, true)))
      else
        (next, Ok(Preparation(None, previous, next.sequence, s.generation, s.qualityTier, true)))
  }

  /** Drops the oldest entries until the history fits. */
  function Trim(sent: map<u32, Snapshot>, order: seq<u32>): (map<u32, Snapshot>, seq<u32>)
    decreases |order|
  {
    if |order| <= MAX_HISTORY then (sent, order) else Trim(sent - {order[0]}, order[1..])
  }

  function CommitPrepared(s: Session, snapshot: Snapshot, sequence: u32, generation: nat, full: bool): (Session, Option<Error>) {
    if s.closed then (s, Some(SessionNotFound))
    else if generation != s.generation || sequence <= s.committed then (s, Some(PreparedFrameStale))
    else
      var tick := snapshot.meta.tick;
      var order := if tick in s.sent then s.sentOrder else s.sentOrder + [tick];
      var (sent, kept) := Trim(s.sent[tick := snapshot], order);
      (s.(committed := sequence,
          lastSent := if tick > s.lastSent then tick else s.lastSent,
          sent := sent,
          sentOrder := kept,
          forceFull := if full then false else s.forceFull),
       None)
  }

  function Advance(s: Session, tick: u32): Session {
    if tick > s.ackTick then s.(ackTick := tick, forceFull := false) else s
  }

  function Acknowledge(s: Session, tick: u32, latestPublished: u32): (Session, Option<Error>) {
    if tick == 0 || tick > latestPublished then (s, Some(InvalidAck))
    else if s.closed then (s, Some(SessionNotFound))
    else if tick > s.lastSent || tick !in s.sent then (s, Some(InvalidAck))
    else (Advance(s, tick), None)
  }

  function HandleControl(s: Session, m: ControlMessage, latestPublished: u32): (Session, Option<Error>) {
    if s.closed then (s, Some(SessionNotFound))
    else if m.sequence <= s.controlSeq then (s, Some(InvalidControl))
    else
      var t := s.(controlSeq := m.sequence);
      match m.kind
      case ControlAck =>
        if m.tick == 0 || m.tick > latestPublished || m.tick > s.lastSent || m.tick !in s.sent then (t, Some(InvalidAck))
        else (Advance(t, m.tick), None)
      case ControlResync => (t.(forceFull := true, generation := s.generation + 1), None)
      case ControlOther => (t, Some(InvalidControl))
  }

  function ForceFull(s: Session): Session {
    if s.closed then s else s.(forceFull := true, generation := s.generation + 1)
  }

  function SetQualityTier(s: Session, tier: u8): Session {
    if s.closed || s.qualityTier == tier then s else s.(qualityTier := tier, generation := s.generation + 1)
  }

  function Close(s: Session): Session {
    s.(closed := true, sent := map[], sentOrder := [])
  }

  /** The session as the server updates it, field by field. */
  class SessionState {
    var ackTick: u32
    var lastSent: u32
    var sequence: u32
    var forceFull: bool
    var closed: bool
    var qualityTier: u8
    var sent: map<u32, Snapshot>
    var sentOrder: seq<u32>
    var generation: nat
    var committed: u32
    var controlSeq: u32

    ghost function View(): Session
      reads this
    {
      Session(ackTick, lastSent, sequence, forceFull, closed, qualityTier, sent, sentOrder, generation, committed, controlSeq)
    }

    constructor ()
      ensures View() == NEW_SESSION
    {
      ackTick, lastSent, sequence, forceFull, closed, qualityTier := 0, 0, 0, true, false, 0;
      sent, sentOrder, generation, committed, controlSeq := map[], [], 0, 0, 0;
    }

    method PrepareFrame(targetTick: u32) returns (r: Result<Preparation, Error>)
      modifies this
      ensures (View(), r) == Prepare(old(View()), targetTick)
    {
      if closed {
        return Err(SessionNotFound);
      }
      sequence := NextSequence(sequence);
      var previous := Lookup(sent, lastSent);
      if !forceFull && ackTick != 0 && ackTick < targetTick {
        if ackTick in sent {
          return Ok(Preparation(Some(sent[ackTick]), previous, sequence, generation, qualityTier, false));
        }
        forceFull := true;
      }
      return Ok(Preparation(None, previous, sequence, generation, qualityTier, true));
    }

    method TrimHistory()
      modifies `sent, `sentOrder
      ensures (sent, sentOrder) == Trim(old(sent), old(sentOrder))
    {
      while |sentOrder| > MAX_HISTORY
        invariant Trim(sent, sentOrder) == Trim(old(sent), old(sentOrder))
      {
        var oldest := sentOrder[0];
        sentOrder := sentOrder[1..];
        sent := sent - {oldest};
      }
    }

    method Commit(snapshot: Snapshot, seqNo: u32, gen: nat, full: bool) returns (e: Option<Error>)
      modifies this
      ensures (View(), e) == CommitPrepared(old(View()), snapshot, seqNo, gen, full)
    {
      if closed {
        return Some(SessionNotFound);
      }
      if gen != generation || seqNo <= committed {
        return Some(PreparedFrameStale);
      }
      committed := seqNo;
      var tick := snapshot.meta.tick;
      if tick > lastSent {
        lastSent := tick;
      }
      if tick !in sent {
        sentOrder := sentOrder + [tick];
      }
      sent := sent[tick := snapshot];
      TrimHistory();
      if full {
        forceFull := false;
      }
      return None;
    }

    method Ack(tick: u32, latestPublished: u32) returns (e: Option<Error>)
      modifies this
      ensures (View(), e) == Acknowledge(old(View()), tick, latestPublished)
    {
      if tick == 0 || tick > latestPublished {
        return Some(InvalidAck);
      }
      if closed {
        return Some(SessionNotFound);
      }
      if tick > lastSent || tick !in sent {
        return Some(InvalidAck);
      }
      if tick > ackTick {
        ackTick := tick;
        forceFull := false;
      }
      return None;
    }

    method Control(m: ControlMessage, latestPublished: u32) returns (e: Option<Error>)
      modifies this
      ensures (View(), e) == HandleControl(old(View()), m, latestPublished)
    {
      if closed {
        return Some(SessionNotFound);
      }
      if m.sequence <= controlSeq {
        return Some(InvalidControl);
      }
      controlSeq := m.sequence;
      if m.kind == ControlAck {
        if m.tick == 0 || m.tick > latestPublished || m.tick > lastSent || m.tick !in sent {
          return Some(InvalidAck);
        }
        if m.tick > ackTick {
          ackTick := m.tick;
          forceFull := false;
        }
        return None;
      } else if m.kind == ControlResync {
        forceFull := true;
        generation := generation + 1;
        return None;
      }
      return Some(InvalidControl);
    }

    method ForceFullFrame()
      modifies this
      ensures View() == ForceFull(old(View()))
    {
      if !closed {
        forceFull := true;
        generation := generation + 1;
      }
    }

    method SetTier(tier: u8) returns (e: Option<Error>)
      modifies this
      ensures View() == SetQualityTier(old(View()), tier)
      ensures e == if old(closed) then Some(SessionNotFound) else None
    {
      if closed {
        return Some(SessionNotFound);
      }
      if qualityTier != tier {
        qualityTier := tier;
        generation := generation + 1;
      }
      return None;
    }

    method CloseSession()
      modifies this
      ensures View() == Close(old(View()))
    {
      closed := true;
      sent := map[];
      sentOrder := [];
    }
  }
}
