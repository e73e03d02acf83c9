/**
 * Every run of one session: snapshots are published, frames are prepared, committed and aborted in any order, and
 * acknowledgements, control messages, forced full frames, tier changes and closing happen in between.
 */
module SessionRuns {
  import opened Common
  import opened ReplicationTypes
  import opened Snapshots
  import opened Deltas
  import opened Sessions
  import opened Replicators

  /**
   * latest is the newest snapshot in the ring and published records every snapshot ever accepted there. A preparation
   * first reads the ring and then enters the session; reading is the snapshot read by the one preparation that holds
   * the session's send lock. Prepared frames are kept for ever: their packets may still be in the network.
   */
  datatype State = State(
    latest: Option<Snapshot>,
    published: map<u32, Snapshot>,
    reading: Option<Snapshot>,
    session: Session,
    tickets: seq<Ticket>)

  const INITIAL := State(None, map[], None, NEW_SESSION, [])

  datatype Action =
    | Publish(snapshot: Snapshot)
    | ReadLatest
    | BuildFrame(projected: Result<Snapshot, Error>)
    | CommitFrame(index: nat)
    | AbortFrame(index: nat)
    | Ack(tick: u32, seen: u32)
    | Control(message: ControlMessage, seen: u32)
    | ForceFullFrame
    | SetTier(tier: u8)
    | CloseSession

  function LatestTick(s: State): u32 {
    if s.latest.Some? then s.latest.value.meta.tick else 0
  }

  function PublishStep(cfg: Config, s: State, snapshot: Snapshot): State {
    match NewSnapshot(snapshot.meta, snapshot.objects, cfg.limits)
    case Err(_) => s
    case Ok(normal) =>
      if normal.meta.tick <= LatestTick(s) then s
      else s.(latest := Some(normal), published := s.published[normal.meta.tick := normal])
  }

  /** Entering the session with the snapshot read before; the sequence number is kept below its wrap-around. */
  function BuildStep(cfg: Config, s: State, projected: Result<Snapshot, Error>): State {
    if s.reading.None? || s.session.sequence == 0xffff_ffff then s
    else
      var (session, prepared) := PrepareLatest(cfg, s.session, s.reading.value, projected);
      s.(session := session, reading := None,
         tickets := if prepared.Ok? then s.tickets + [prepared.value] else s.tickets)
  }

  function CommitStep(s: State, i: nat): State {
    if i >= |s.tickets| then s
    else
      var (session, ticket) := CommitTicket(s.session, s.tickets[i]);
      s.(session := session, tickets := s.tickets[i := ticket])
  }

  /** The calls that touch the session alone. The latest tick an acknowledgement is compared with may lag behind. */
  function SessionStep(s: Session, a: Action, latest: u32): Session {
    match a
    case Ack(tick, seen) => if seen <= latest then Acknowledge(s, tick, seen).0 else s
    case Control(m, seen) => if seen <= latest then HandleControl(s, m, seen).0 else s
    case ForceFullFrame => ForceFull(s)
    case SetTier(tier) => SetQualityTier(s, tier)
    case CloseSession => Close(s)
    case _ => s
  }

  function Step(cfg: Config, s: State, a: Action): State {
    match a
    case Publish(snapshot) => PublishStep(cfg, s, snapshot)
    case ReadLatest => if s.reading.Some? then s else s.(reading := s.latest)
    case BuildFrame(projected) => BuildStep(cfg, s, projected)
    case CommitFrame(i) => CommitStep(s, i)
    case AbortFrame(i) => if i < |s.tickets| then s.(tickets := s.tickets[i := AbortTicket(s.tickets[i])]) else s
    case _ => s.(session := SessionStep(s.session, a, LatestTick(s)))
  }

  function Run(cfg: Config, acts: seq<Action>): State {
    if acts == [] then INITIAL else Step(cfg, Run(cfg, acts[..|acts| - 1]), acts[|acts| - 1])
  }

  // ---- The invariant ----

  ghost predicate Rising(order: seq<u32>) {
    forall i, j :: 0 <= i < j < |order| ==> order[i] < order[j]
  }

  /** The order lists exactly the stored ticks, rising, and ends with the last one sent. */
  ghost predicate History(sent: map<u32, Snapshot>, order: seq<u32>, lastSent: u32) {
    && Rising(order)
    && (forall t :: t in order <==> t in sent)
    && (forall t :: t in sent ==> t != 0 && sent[t].meta.tick == t)
    && (if order == [] then lastSent == 0 else order[|order| - 1] == lastSent)
  }

  ghost predicate SessionInv(s: Session) {
    && s.ackTick <= s.lastSent && s.committed <= s.sequence
    && |s.sentOrder| <= MAX_HISTORY
    && if s.closed then s.sent == map[] && s.sentOrder == [] else History(s.sent, s.sentOrder, s.lastSent)
  }

  /** A frame that can still commit is no older than the last one sent. */
  ghost predicate TicketInv(t: Ticket, s: Session, latest: u32) {
    && t.snapshot.meta.tick != 0 && t.snapshot.meta.tick <= latest
    && t.sequence <= s.sequence && t.generation <= s.generation
    && (t.full <==> t.frame.kind == FRAME_FULL)
    && (t.sequence > s.committed ==> t.snapshot.meta.tick >= s.lastSent)
  }

  ghost predicate TicketsRise(ts: seq<Ticket>) {
    forall i, j :: 0 <= i < j < |ts| ==> ts[i].sequence < ts[j].sequence && ts[i].snapshot.meta.tick <= ts[j].snapshot.meta.tick
  }

  ghost predicate ReadingInv(s: State) {
    s.reading.Some? ==>
      && s.reading.value.meta.tick <= LatestTick(s)
      && s.session.lastSent <= s.reading.value.meta.tick
      && forall i :: 0 <= i < |s.tickets| ==> s.tickets[i].snapshot.meta.tick <= s.reading.value.meta.tick
  }

  ghost predicate Inv(s: State) {
    && SessionInv(s.session) && s.session.lastSent <= LatestTick(s)
    && (forall i :: 0 <= i < |s.tickets| ==> TicketInv(s.tickets[i], s.session, LatestTick(s)))
    && TicketsRise(s.tickets) && ReadingInv(s)
  }

  // ---- History ----

  lemma {:induction false} TrimKeepsHistory(sent: map<u32, Snapshot>, order: seq<u32>, lastSent: u32)
    requires History(sent, order, lastSent)
    ensures var (s, o) := Trim(sent, order); History(s, o, lastSent) && |o| <= MAX_HISTORY
    ensures forall t :: t in Trim(sent, order).0 ==> t in sent && Trim(sent, order).0[t] == sent[t]
    decreases |order|
  {
    if |order| > MAX_HISTORY {
      var rest, left := order[1..], sent - {order[0]};
      forall t ensures t in rest <==> t in left {
        if t in left {
          var k :| 0 <= k < |order| && order[k] == t;
          assert order[k] == rest[k - 1];
        }
      }
      TrimKeepsHistory(left, rest, lastSent);
    }
  }

  lemma {:induction false} RecordKeepsHistory(sent: map<u32, Snapshot>, order: seq<u32>, lastSent: u32, snapshot: Snapshot)
    requires History(sent, order, lastSent) && snapshot.meta.tick != 0 && lastSent <= snapshot.meta.tick
    ensures var tick := snapshot.meta.tick;
            History(sent[tick := snapshot], if tick in sent then order else order + [tick], tick)
  {}

  lemma {:induction false} CommitKeeps(s: Session, t: Ticket, latest: u32)
    requires SessionInv(s) && TicketInv(t, s, latest) && s.lastSent <= latest
    ensures var (next, e) := CommitPrepared(s, t.snapshot, t.sequence, t.generation, t.full);
            && SessionInv(next) && next.lastSent <= latest
            && next.generation == s.generation && next.sequence == s.sequence && s.committed <= next.committed
            && next.ackTick == s.ackTick && next.closed == s.closed
            && (e.Some? ==> next == s)
            && (e.None? ==> next.lastSent == t.snapshot.meta.tick && next.committed == t.sequence > s.committed)
            && forall k :: k in next.sent ==> (k in s.sent && next.sent[k] == s.sent[k]) || next.sent[k] == t.snapshot
  {
    if !s.closed && t.generation == s.generation && t.sequence > s.committed {
      var tick := t.snapshot.meta.tick;
      RecordKeepsHistory(s.sent, s.sentOrder, s.lastSent, t.snapshot);
      TrimKeepsHistory(s.sent[tick := t.snapshot], if tick in s.sent then s.sentOrder else s.sentOrder + [tick], tick);
    }
  }

  // ---- One lemma per step ----

  lemma PublishKeeps(cfg: Config, s: State, snapshot: Snapshot)
    requires Inv(s)
    ensures Inv(PublishStep(cfg, s, snapshot))
  {}

  lemma {:induction false} BuiltKeeps(s: State, session: Session, prepared: Result<Ticket, Error>)
    requires Inv(s) && s.reading.Some? && s.session.sequence != 0xffff_ffff && Draws(s.session, s.reading.value, session, prepared)
    ensures Inv(s.(session := session, reading := None,
                   tickets := if prepared.Ok? then s.tickets + [prepared.value] else s.tickets))
  {}

  lemma {:induction false} BuildKeeps(cfg: Config, s: State, projected: Result<Snapshot, Error>)
    requires Inv(s)
    ensures Inv(BuildStep(cfg, s, projected))
  {
    if s.reading.Some? && s.session.sequence != 0xffff_ffff {
      PreparedTicket(cfg, s.session, s.reading.value, projected);
      var (session, prepared) := PrepareLatest(cfg, s.session, s.reading.value, projected);
      BuiltKeeps(s, session, prepared);
    }
  }

  lemma {:induction false} CommitStepKeeps(s: State, i: nat)
    requires Inv(s)
    ensures Inv(CommitStep(s, i))
  {
    if i < |s.tickets| && !s.tickets[i].spent {
      var t := s.tickets[i];
      CommitKeeps(s.session, t, LatestTick(s));
      var next := CommitStep(s, i);
      forall j | 0 <= j < |s.tickets| ensures TicketInv(next.tickets[j], next.session, LatestTick(next)) {
        assert TicketInv(s.tickets[j], s.session, LatestTick(s));
        if j < i { assert s.tickets[j].sequence < t.sequence; }
        if i < j { assert t.snapshot.meta.tick <= s.tickets[j].snapshot.meta.tick; }
      }
    }
  }

  /** Calls on the session alone leave the send history as it is, or drop all of it. */
  ghost predicate Entered(s: Session, next: Session) {
    && SessionInv(next) && s.ackTick <= next.ackTick && s.generation <= next.generation
    && next.lastSent == s.lastSent && next.committed == s.committed && next.sequence == s.sequence
    && (next.sent == s.sent || next.sent == map[])
  }

  lemma {:induction false} AckEnters(s: Session, tick: u32, seen: u32)
    requires SessionInv(s)
    ensures Entered(s, Acknowledge(s, tick, seen).0)
  {}

  lemma {:induction false} ControlEnters(s: Session, m: ControlMessage, seen: u32)
    requires SessionInv(s)
    ensures Entered(s, HandleControl(s, m, seen).0)
  {}

  lemma {:induction false} SessionStepKeeps(s: Session, a: Action, latest: u32)
    requires SessionInv(s)
    ensures Entered(s, SessionStep(s, a, latest))
  {
    match a
    case Ack(tick, seen) => AckEnters(s, tick, seen);
    case Control(m, seen) => ControlEnters(s, m, seen);
    case _ =>
  }

  lemma {:induction false} EnteredKeeps(s: State, next: Session)
    requires Inv(s) && Entered(s.session, next)
    ensures Inv(s.(session := next))
  {}

  lemma {:induction false} ReadAbortKeep(s: State, a: Action, cfg: Config)
    requires Inv(s) && (a.ReadLatest? || a.AbortFrame?)
    ensures Inv(Step(cfg, s, a))
  {}

  lemma {:induction false} StepKeeps(cfg: Config, s: State, a: Action)
    requires Inv(s)
    ensures Inv(Step(cfg, s, a))
  {
    match a
    case Publish(snapshot) => PublishKeeps(cfg, s, snapshot);
    case ReadLatest => ReadAbortKeep(s, a, cfg);
    case AbortFrame(_) => ReadAbortKeep(s, a, cfg);
    case BuildFrame(projected) => BuildKeeps(cfg, s, projected);
    case CommitFrame(i) => CommitStepKeeps(s, i);
    case _ =>
      SessionStepKeeps(s.session, a, LatestTick(s));
      EnteredKeeps(s, SessionStep(s.session, a, LatestTick(s)));
  }

  lemma {:induction false} RunKeeps(cfg: Config, acts: seq<Action>)
    ensures Inv(Run(cfg, acts))
  {
    if acts != [] {
      RunKeeps(cfg, acts[..|acts| - 1]);
      StepKeeps(cfg, Run(cfg, acts[..|acts| - 1]), acts[|acts| - 1]);
    }
  }

  // ---- What holds over every run ----

  /** After every run the history lists exactly the stored ticks, rising and at most 64; the ack never passes lastSent. */
  lemma {:induction false} HistoryOverRuns(cfg: Config, acts: seq<Action>)
    ensures var s := Run(cfg, acts).session;
            && s.ackTick <= s.lastSent && |s.sentOrder| <= 64 && Rising(s.sentOrder)
            && (forall t :: t in s.sentOrder <==> t in s.sent)
            && (forall t :: t in s.sent ==> s.sent[t].meta.tick == t <= s.lastSent)
  {
    RunKeeps(cfg, acts);
    var s := Run(cfg, acts).session;
    forall t | t in s.sent ensures t <= s.lastSent {
      var k :| 0 <= k < |s.sentOrder| && s.sentOrder[k] == t;
    }
  }

  /**
   * What a preparation starts from after any run: the base is what was sent for the acknowledged tick, the projector
   * sees what was sent last, and a frame without a base is a full refresh.
   */
  lemma {:induction false} PreparationOverRuns(cfg: Config, acts: seq<Action>, tick: u32)
    requires !Run(cfg, acts).session.closed
    ensures var s := Run(cfg, acts).session;
            var r := Prepare(s, tick).1;
            && r.Ok? && r.value.fullRefresh == r.value.base.None?
            && (r.value.base.Some? ==> r.value.base.value.meta.tick == s.ackTick < tick && Lookup(s.sent, s.ackTick) == r.value.base)
            && (r.value.previous.None? <==> s.lastSent == 0)
            && (r.value.previous.Some? ==> r.value.previous.value.meta.tick == s.lastSent)
  {
    RunKeeps(cfg, acts);
    var s := Run(cfg, acts).session;
    if s.sentOrder != [] { assert s.sentOrder[|s.sentOrder| - 1] in s.sent; }
  }

  /** The acknowledgement and the generation did not go back, and no prepared frame was lost or altered. */
  ghost predicate Advanced(s: State, next: State) {
    && s.session.ackTick <= next.session.ackTick && s.session.generation <= next.session.generation
    && |s.tickets| <= |next.tickets|
    && forall i :: 0 <= i < |s.tickets| ==>
         next.tickets[i] == s.tickets[i].(spent := next.tickets[i].spent, outcome := next.tickets[i].outcome)
  }

  lemma {:induction false} BuildAdvances(cfg: Config, s: State, projected: Result<Snapshot, Error>)
    ensures Advanced(s, BuildStep(cfg, s, projected))
  {
    if s.reading.Some? { PreparedTicket(cfg, s.session, s.reading.value, projected); }
  }

  lemma {:induction false} CommitAdvances(s: State, i: nat)
    requires Inv(s)
    ensures Advanced(s, CommitStep(s, i))
  {}

  lemma {:induction false} StepAdvances(cfg: Config, s: State, a: Action)
    requires Inv(s)
    ensures Advanced(s, Step(cfg, s, a))
  {
    match a
    case Publish(_) =>
    case ReadLatest =>
    case AbortFrame(_) =>
    case BuildFrame(projected) => BuildAdvances(cfg, s, projected);
    case CommitFrame(i) => CommitAdvances(s, i);
    case _ => SessionStepKeeps(s.session, a, LatestTick(s));
  }

  /** The state after the first n actions of a run. */
  function After(cfg: Config, acts: seq<Action>, n: nat): State
    requires n <= |acts|
  {
    Run(cfg, acts[..n])
  }

  lemma AfterStep(cfg: Config, acts: seq<Action>, n: nat)
    requires n < |acts|
    ensures After(cfg, acts, n + 1) == Step(cfg, After(cfg, acts, n), acts[n]) && Inv(After(cfg, acts, n))
  {
    assert acts[..n + 1][..n] == acts[..n];
    RunKeeps(cfg, acts[..n]);
  }

  /** Over every run the acknowledged tick and the generation never decrease, and prepared frames keep their content. */
  lemma {:induction false} NeverBack(cfg: Config, acts: seq<Action>, n: nat, m: nat)
    requires n <= m <= |acts|
    ensures Advanced(After(cfg, acts, n), After(cfg, acts, m))
    decreases m
  {
    if n < m {
      NeverBack(cfg, acts, n, m - 1);
      AfterStep(cfg, acts, m - 1);
      StepAdvances(cfg, After(cfg, acts, m - 1), acts[m - 1]);
    }
  }

  /** A forced full frame, or a resync request the session accepts. */
  predicate ForcesFull(s: State, a: Action) {
    && !s.session.closed
    && match a
       case ForceFullFrame => true
       case Control(m, seen) => m.kind == ControlResync && m.sequence > s.session.controlSeq && seen <= LatestTick(s)
       case _ => false
  }

  /** Everything that makes the frames prepared so far stale: a forced full frame, a resync, or another quality tier. */
  predicate Restarts(s: State, a: Action) {
    ForcesFull(s, a) || (!s.session.closed && a.SetTier? && a.tier != s.session.qualityTier)
  }

  /** The action commits frame i. */
  predicate Commits(s: State, a: Action, i: nat) {
    && a == CommitFrame(i) && i < |s.tickets| && !s.tickets[i].spent
    && CommitPrepared(s.session, s.tickets[i].snapshot, s.tickets[i].sequence, s.tickets[i].generation, s.tickets[i].full).1.None?
  }

  /** No frame prepared before a forced full frame, a resync or a change of tier ever commits after it. */
  lemma {:induction false} StaleNeverCommits(cfg: Config, acts: seq<Action>, n: nat, m: nat, i: nat)
    requires n < m < |acts| && Restarts(After(cfg, acts, n), acts[n]) && i < |After(cfg, acts, n).tickets|
    ensures !Commits(After(cfg, acts, m), acts[m], i)
    ensures acts[m] == CommitFrame(i) ==> After(cfg, acts, m + 1).session == After(cfg, acts, m).session
  {
    AfterStep(cfg, acts, n);
    NeverBack(cfg, acts, n, m);
    NeverBack(cfg, acts, n + 1, m);
    AfterStep(cfg, acts, m);
    assert TicketInv(After(cfg, acts, n).tickets[i], After(cfg, acts, n).session, LatestTick(After(cfg, acts, n)));
  }

  lemma {:induction false} ClosedStep(cfg: Config, s: State, a: Action)
    requires s.session.closed && s.session.sent == map[] && s.session.sentOrder == []
    ensures Step(cfg, s, a).session == s.session && |Step(cfg, s, a).tickets| == |s.tickets|
  {}

  /** A closed session never changes again, and nothing is prepared for it. */
  lemma {:induction false} ClosedForever(cfg: Config, acts: seq<Action>, n: nat, m: nat)
    requires n <= m <= |acts| && After(cfg, acts, n).session.closed
    ensures After(cfg, acts, m).session == After(cfg, acts, n).session
    ensures |After(cfg, acts, m).tickets| == |After(cfg, acts, n).tickets|
    decreases m
  {
    if n < m {
      ClosedForever(cfg, acts, n, m - 1);
      AfterStep(cfg, acts, m - 1);
      ClosedStep(cfg, After(cfg, acts, m - 1), acts[m - 1]);
    }
  }

  /** What holds from a forced full frame on, as long as nothing commits and no acknowledgement advances. */
  ghost predicate Pending(s: State, before: nat) {
    s.session.closed || (s.session.forceFull && forall i :: before <= i < |s.tickets| ==> s.tickets[i].full)
  }

  predicate Quiet(s: State, a: Action, next: State) {
    && next.session.ackTick == s.session.ackTick
    && (a.CommitFrame? ==> !Commits(s, a, a.index))
  }

  predicate QuietAt(cfg: Config, acts: seq<Action>, k: nat)
    requires k < |acts|
  {
    Quiet(After(cfg, acts, k), acts[k], After(cfg, acts, k + 1))
  }

  lemma {:induction false} PendingBuild(cfg: Config, s: State, projected: Result<Snapshot, Error>, before: nat)
    requires Pending(s, before)
    ensures Pending(BuildStep(cfg, s, projected), before)
  {
    if s.reading.Some? { PreparedTicket(cfg, s.session, s.reading.value, projected); }
  }

  lemma {:induction false} PendingSession(s: Session, a: Action, latest: u32)
    requires s.forceFull && SessionStep(s, a, latest).ackTick == s.ackTick
    ensures SessionStep(s, a, latest).forceFull
  {}

  lemma {:induction false} PendingStep(cfg: Config, s: State, a: Action, before: nat)
    requires Inv(s) && Pending(s, before) && Quiet(s, a, Step(cfg, s, a))
    ensures Pending(Step(cfg, s, a), before)
  {
    match a
    case Publish(_) =>
    case ReadLatest =>
    case AbortFrame(_) =>
    case BuildFrame(projected) => PendingBuild(cfg, s, projected, before);
    case CommitFrame(i) =>
    case _ =>
      if s.session.forceFull { PendingSession(s.session, a, LatestTick(s)); }
  }

  lemma {:induction false} PendingStart(cfg: Config, s: State, a: Action)
    requires ForcesFull(s, a)
    ensures Pending(Step(cfg, s, a), |s.tickets|)
  {}

  lemma {:induction false} PendingAt(cfg: Config, acts: seq<Action>, k: nat, before: nat)
    requires k < |acts| && Pending(After(cfg, acts, k), before) && QuietAt(cfg, acts, k)
    ensures Pending(After(cfg, acts, k + 1), before)
  {
    AfterStep(cfg, acts, k);
    PendingStep(cfg, After(cfg, acts, k), acts[k], before);
  }

  lemma {:induction false} PendingRun(cfg: Config, acts: seq<Action>, n: nat, m: nat)
    requires n < m <= |acts| && ForcesFull(After(cfg, acts, n), acts[n])
    requires forall k :: n < k < m ==> QuietAt(cfg, acts, k)
    ensures Pending(After(cfg, acts, m), |After(cfg, acts, n).tickets|)
    decreases m
  {
    if n + 1 == m {
      AfterStep(cfg, acts, n);
      PendingStart(cfg, After(cfg, acts, n), acts[n]);
    } else {
      PendingRun(cfg, acts, n, m - 1);
      PendingAt(cfg, acts, m - 1, |After(cfg, acts, n).tickets|);
    }
  }

  /** Until an acknowledgement advances, the first frame committed after a forced full frame or a resync is a full one. */
  lemma {:induction false} FirstCommitIsFull(cfg: Config, acts: seq<Action>, n: nat, m: nat, i: nat)
    requires n < m < |acts| && ForcesFull(After(cfg, acts, n), acts[n])
    requires forall k :: n < k < m ==> QuietAt(cfg, acts, k)
    requires Commits(After(cfg, acts, m), acts[m], i)
    ensures After(cfg, acts, m).tickets[i].frame.kind == FRAME_FULL
  {
    PendingRun(cfg, acts, n, m);
    RunKeeps(cfg, acts[..m]);
    assert TicketInv(After(cfg, acts, m).tickets[i], After(cfg, acts, m).session, LatestTick(After(cfg, acts, m)));
    if i < |After(cfg, acts, n).tickets| {
      StaleNeverCommits(cfg, acts, n, m, i);
    }
  }

  // ---- Where the parts of the next state come from ----

  /** Everything stored was stored before or is the snapshot of a prepared frame; an acknowledgement comes from a message. */
  ghost predicate Sourced(s: State, a: Action, next: State) {
    && (forall k :: k in next.session.sent ==>
          || (k in s.session.sent && next.session.sent[k] == s.session.sent[k])
          || exists i :: 0 <= i < |s.tickets| && s.tickets[i].snapshot == next.session.sent[k])
    && (next.session.ackTick == s.session.ackTick
        || (a.Ack? && next.session.ackTick == a.tick)
        || (a.Control? && a.message.kind == ControlAck && next.session.ackTick == a.message.tick))
    && s.session.sequence <= next.session.sequence
  }

  lemma {:induction false} CommitSourced(s: State, i: nat)
    requires Inv(s)
    ensures Sourced(s, CommitFrame(i), CommitStep(s, i))
  {
    if i < |s.tickets| { CommitKeeps(s.session, s.tickets[i], LatestTick(s)); }
  }

  lemma {:induction false} SessionSourced(s: State, a: Action)
    ensures Sourced(s, a, s.(session := SessionStep(s.session, a, LatestTick(s))))
  {}

  lemma {:induction false} BuildSourced(cfg: Config, s: State, projected: Result<Snapshot, Error>)
    ensures Sourced(s, BuildFrame(projected), BuildStep(cfg, s, projected))
  {
    if s.reading.Some? { PreparedTicket(cfg, s.session, s.reading.value, projected); }
  }

  lemma {:induction false} StepSourced(cfg: Config, s: State, a: Action)
    requires Inv(s)
    ensures Sourced(s, a, Step(cfg, s, a))
  {
    match a
    case Publish(_) =>
    case ReadLatest =>
    case AbortFrame(_) =>
    case BuildFrame(projected) => BuildSourced(cfg, s, projected);
    case CommitFrame(i) => CommitSourced(s, i);
    case _ => SessionSourced(s, a);
  }
}
