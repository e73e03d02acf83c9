/**
 * Entity sync as it runs: writers change the entity under its lock and mark what they changed, an update is prepared
 * under that lock, and memberships change or an update is distributed under the subject's operation lock. Every call
 * is cut into the steps between which other calls can act.
 */
module EntitySync {
  import opened Common
  import opened SubjectSync
  import opened Subscriptions

  /**
   * The holder of the entity lock. unmarked are the fields it changed and has yet to mark, marked those it marked
   * (everything when all is set); it releases the lock only when nothing is left unmarked.
   */
  datatype Writer = Writer(unmarked: set<Field>, marked: set<Field>, all: bool)

  /** The entity's side. */
  datatype Source = Source(subject: Subject, content: Content, writer: Option<Writer>)

  /** The call that holds the operation lock, and how far it has come. */
  datatype Op =
    | Idle
    | Entering(who: Subscriber, previous: Option<Subscription>, pending: Subscription)
    | Captured(who: Subscriber, previous: Option<Subscription>, pending: Subscription, version: nat, payload: Payload)
    | Entered(who: Subscriber, pending: Subscription, version: nat)
    | Leaving(who: Subscriber, current: Subscription)
    | Sending(update: Prepared, targets: Subs)
    | Sent(update: Prepared, targets: Subs)
    | Committed(update: Prepared, targets: Subs)

  /**
   * views and seen are what the members replay from admitted envelopes: their content and its version. past are the
   * updates that have been committed or aborted; a caller may still hand them over.
   */
  datatype State = State(
    source: Source,
    outstanding: Option<Prepared>,
    past: set<Prepared>,
    subs: Subs,
    revision: nat,
    op: Op,
    views: map<Subscriber, Payload>,
    seen: map<Subscriber, nat>)

  datatype Action =
    | BeginWrite
    | SetField(field: Field, value: int)
    | MarkFields(mask: set<Field>)
    | MarkAll(reason: nat)
    | EndWrite
    | PrepareUpdate(profiles: set<Profile>, fails: set<Profile>)
    | AbandonUpdate
    | CloseSubject
    | BeginSubscribe(who: Subscriber, profile: Profile)
    | Capture(failed: bool)
    | AdmitSnapshot(accepts: bool)
    | Activate
    | BeginLeave(who: Subscriber)
    | AdmitLeave(accepts: bool)
    | BeginDistribute
    | HandOver(update: Prepared)
    | AdmitUpdates(accepts: bool)
    | CommitUpdate
    | FinishDistribute

  function Initial(content: Content): State {
    State(Source(NewSubject(true), content, None), None, {}, map[], 0, Idle, map[], map[])
  }

  // ---- The entity's side ----

  function WriteField(src: Source, f: Field, v: int): Source {
    if src.writer.None? || f !in src.content then src
    else
      var w := src.writer.value;
      src.(content := src.content[f := v],
           writer := Some(if w.all || f in w.marked then w else w.(unmarked := w.unmarked + {f})))
  }

  function Marking(src: Source, mask: set<Field>): Source {
    src.(subject := MarkDirty(src.subject, mask),
         writer := if src.writer.None? then None
                   else Some(src.writer.value.(unmarked := src.writer.value.unmarked - mask,
                                               marked := src.writer.value.marked + mask)))
  }

  function MarkingAll(src: Source, reason: nat): Source {
    src.(subject := MarkFullDirty(src.subject, reason),
         writer := if src.writer.None? then None else Some(src.writer.value.(unmarked := {}, all := true)))
  }

  function SourceStep(src: Source, a: Action): Source {
    match a
    case BeginWrite => if src.writer.None? then src.(writer := Some(Writer({}, {}, false))) else src
    case SetField(f, v) => WriteField(src, f, v)
    case MarkFields(mask) => Marking(src, mask)
    case MarkAll(reason) => MarkingAll(src, reason)
    case EndWrite => if src.writer.Some? && src.writer.value.unmarked == {} then src.(writer := None) else src
    case CloseSubject => src.(subject := Close(src.subject))
    case _ => src
  }

  /** Preparing takes the entity lock. */
  function PrepareStep(s: State, profiles: set<Profile>, fails: set<Profile>, show: Show): State {
    if s.source.writer.Some? then s
    else
      var (subject, r) := Prepare(s.source.subject, s.source.content, profiles, show, fails);
      s.(source := s.source.(subject := subject), outstanding := if r.Ok? then Some(r.value) else s.outstanding)
  }

  function Finish(p: Prepared): Prepared { p.(finished := true) }

  function AbandonStep(s: State): State {
    if s.outstanding.None? then s
    else
      s.(source := s.source.(subject := Abort(s.source.subject, s.outstanding.value).0), outstanding := None,
         past := s.past + {Finish(s.outstanding.value)})
  }

  // ---- Memberships ----

  function SubscribeStep(s: State, who: Subscriber, wanted: Profile): State {
    var profile := NormalizeProfile(wanted);
    if !s.op.Idle? || AlreadyActive(s.subs, who, profile) then s
    else
      var pending := Subscription(profile, Pending, 0, s.revision + 1);
      s.(op := Entering(who, Find(s.subs, who), pending), subs := s.subs[who := pending], revision := s.revision + 1)
  }

  /** The snapshot is taken under the entity lock, at the current version, and consumes nothing. */
  function CaptureStep(s: State, fails: bool, show: Show): State {
    if !s.op.Entering? || s.source.writer.Some? then s
    else if fails || !s.source.subject.enabled || !s.source.subject.hasPacker then
      s.(op := Idle, subs := Rollback(s.subs, s.op.who, s.op.previous))
    else
      s.(op := Captured(s.op.who, s.op.previous, s.op.pending, s.source.subject.version,
                        PackSnapshot(show, s.op.pending.profile, s.source.content)))
  }

  function AdmitSnapshotStep(s: State, accepts: bool): State {
    if !s.op.Captured? then s
    else if !accepts then s.(op := Idle, subs := Rollback(s.subs, s.op.who, s.op.previous))
    else
      s.(op := Entered(s.op.who, s.op.pending, s.op.version),
         views := s.views[s.op.who := s.op.payload], seen := s.seen[s.op.who := s.op.version])
  }

  function ActivateStep(s: State): State {
    if !s.op.Entered? then s
    else if s.op.who !in s.subs || s.subs[s.op.who].revision != s.op.pending.revision || s.subs[s.op.who].status != Pending then
      s.(op := Idle)
    else
      s.(op := Idle, subs := s.subs[s.op.who := s.op.pending.(status := Active, contentVersion := s.op.version)])
  }

  function LeaveStep(s: State, who: Subscriber): State {
    if !s.op.Idle? || who !in s.subs || s.subs[who].status != Active then s
    else
      var current := s.subs[who].(status := Closing, revision := s.revision + 1);
      s.(op := Leaving(who, current), subs := s.subs[who := current], revision := s.revision + 1)
  }

  function AdmitLeaveStep(s: State, accepts: bool): State {
    if !s.op.Leaving? then s
    else if !accepts then s.(op := Idle, subs := s.subs[s.op.who := s.op.current.(status := Active)])
    else
      s.(op := Idle,
         subs := if s.op.who in s.subs && s.subs[s.op.who].revision == s.op.current.revision && s.subs[s.op.who].status == Closing
                 then s.subs - {s.op.who} else s.subs)
  }

  // ---- Distribution ----

  /** The prepared update is handed over; without every needed profile it is aborted. */
  function DistributeStep(s: State): State {
    if !s.op.Idle? || s.outstanding.None? then s
    else
      var p := s.outstanding.value;
      if Covered(Targets(s.subs), p) then s.(op := Sending(p, Targets(s.subs)), outstanding := None)
      else AbandonStep(s)
  }

  /** An update that was finished before is handed over again; aborting it again does nothing. */
  function HandOverStep(s: State, p: Prepared): State {
    if !s.op.Idle? || p !in s.past || !Covered(Targets(s.subs), p) then s else s.(op := Sending(p, Targets(s.subs)))
  }

  /** What a member sees after an envelope: a snapshot replaces its view, a delta overlays it. */
  function Replay(view: Payload, p: Prepared, payload: Payload): Payload {
    if p.full then payload else view + payload
  }

  function Replayed(views: map<Subscriber, Payload>, targets: Subs, p: Prepared): map<Subscriber, Payload>
    requires Covered(targets, p)
  {
    map k | k in views.Keys + targets.Keys ::
      if k in targets then Replay(if k in views then views[k] else map[], p, p.updates[NormalizeProfile(targets[k].profile)])
      else views[k]
  }

  function SeenAll(seen: map<Subscriber, nat>, targets: Subs, version: nat): map<Subscriber, nat> {
    map k | k in seen.Keys + targets.Keys :: if k in targets then version else seen[k]
  }

  function AdmitUpdatesStep(s: State, accepts: bool): State {
    if !s.op.Sending? || !Covered(s.op.targets, s.op.update) then s
    else if s.op.targets.Keys != {} && !accepts then
      s.(op := Idle, source := s.source.(subject := Abort(s.source.subject, s.op.update).0), past := s.past + {Finish(s.op.update)})
    else
      s.(op := Sent(s.op.update, s.op.targets), views := Replayed(s.views, s.op.targets, s.op.update),
         seen := SeenAll(s.seen, s.op.targets, s.op.update.version))
  }

  function CommitStep(s: State): State {
    if !s.op.Sent? then s
    else
      var (subject, e) := Commit(s.source.subject, s.op.update);
      s.(source := s.source.(subject := subject), op := if e.None? then Committed(s.op.update, s.op.targets) else Idle,
         past := s.past + {Finish(s.op.update)})
  }

  function FinishStep(s: State): State {
    if !s.op.Committed? then s
    else s.(op := Idle, subs := Reached(s.subs, s.op.targets, s.op.update.version))
  }

  function Step(show: Show, s: State, a: Action): State {
    match a
    case PrepareUpdate(profiles, fails) => PrepareStep(s, profiles, fails, show)
    case AbandonUpdate => AbandonStep(s)
    case BeginSubscribe(who, profile) => SubscribeStep(s, who, profile)
    case Capture(failed) => CaptureStep(s, failed, show)
    case AdmitSnapshot(accepts) => AdmitSnapshotStep(s, accepts)
    case Activate => ActivateStep(s)
    case BeginLeave(who) => LeaveStep(s, who)
    case AdmitLeave(accepts) => AdmitLeaveStep(s, accepts)
    case BeginDistribute => DistributeStep(s)
    case HandOver(p) => HandOverStep(s, p)
    case AdmitUpdates(accepts) => AdmitUpdatesStep(s, accepts)
    case CommitUpdate => CommitStep(s)
    case FinishDistribute => FinishStep(s)
    case _ => s.(source := SourceStep(s.source, a))
  }

  function Run(show: Show, content: Content, acts: seq<Action>): State {
    if acts == [] then Initial(content) else Step(show, Run(show, content, acts[..|acts| - 1]), acts[|acts| - 1])
  }

  // ---- The invariant ----

  /** The field is dirty, or its change is about to be marked. */
  predicate PendingField(src: Source, f: Field) {
    src.subject.fullDirty || f in src.subject.dirty || (src.writer.Some? && f in src.writer.value.unmarked)
  }

  /** The view shows the entity's content, except on pending fields. */
  ghost predicate Agrees(show: Show, src: Source, view: Payload, profile: Profile) {
    && view.Keys == src.content.Keys
    && forall f :: f in src.content ==> PendingField(src, f) || view[f] == show(profile, f, src.content[f])
  }

  /** A membership that has everything up to the current version. */
  ghost predicate Current(show: Show, s: State, k: Subscriber, subscription: Subscription) {
    && k in s.views && k in s.seen
    && NormalizeProfile(subscription.profile) == subscription.profile
    && Agrees(show, s.source, s.views[k], subscription.profile)
    && subscription.contentVersion == s.source.subject.version - (if s.op.Committed? then 1 else 0)
    && s.seen[k] == s.source.subject.version + (if s.op.Sent? && !s.op.update.finished then 1 else 0)
  }

  /** What a writer has marked stays dirty until it lets go of the entity. */
  ghost predicate WriterInv(src: Source, p: Option<Prepared>) {
    src.writer.Some? ==>
      var w := src.writer.value;
      && (w.all ==> src.subject.fullDirty)
      && (src.subject.fullDirty || w.marked <= src.subject.dirty)
      && (p.Some? && (w.all || w.marked != {}) ==> p.value.generation < src.subject.generation)
  }

  /** The payloads hold the packed fields, with their current values unless a writer has just changed them. */
  ghost predicate Fresh(show: Show, src: Source, p: Prepared) {
    forall q, f :: q in p.updates && f in p.updates[q] ==>
      f in src.content && ((src.writer.Some? && f in src.writer.value.unmarked) || p.updates[q][f] == show(q, f, src.content[f]))
  }

  ghost predicate Shaped(src: Source, p: Prepared) {
    forall q :: q in p.updates ==> p.updates[q].Keys == if p.full then src.content.Keys else src.content.Keys * p.mask
  }

  /** An update in flight: nothing it covers has been cleared, and unless something was marked since, it is exact. */
  ghost predicate Live(show: Show, src: Source, p: Prepared) {
    && !p.finished && p.token == src.subject.inflight != 0
    && p.baseVersion == src.subject.version && p.version == p.baseVersion + 1
    && Shaped(src, p)
    && p.generation <= src.subject.generation
    && if p.generation == src.subject.generation
       then p.mask == src.subject.dirty && p.full == src.subject.fullDirty && Fresh(show, src, p)
       else src.subject.fullDirty || (!p.full && p.mask <= src.subject.dirty)
  }

  /** The update that can still be committed, wherever it is. */
  function InFlightUpdate(s: State): Option<Prepared> {
    if (s.op.Sending? || s.op.Sent?) && !s.op.update.finished then Some(s.op.update) else s.outstanding
  }

  ghost predicate OpInv(show: Show, s: State) {
    match s.op
    case Idle => true
    case Entering(who, previous, pending) =>
      EnteringInv(show, s, who, previous, pending)
    case Captured(who, previous, pending, version, payload) =>
      && EnteringInv(show, s, who, previous, pending)
      && version == s.source.subject.version && Agrees(show, s.source, payload, pending.profile)
    case Entered(who, pending, version) =>
      && who in s.subs && s.subs[who] == pending && pending.status == Pending
      && Current(show, s, who, pending.(contentVersion := version))
    case Leaving(who, current) =>
      who in s.subs && s.subs[who] == current && current.status == Closing && Current(show, s, who, current)
    case Sending(p, targets) => targets == Targets(s.subs) && Covered(targets, p) && (p.finished || s.outstanding.None?)
    case Sent(p, targets) =>
      && targets == Targets(s.subs) && Covered(targets, p)
      && (!p.finished ==>
            && s.outstanding.None?
            && forall k :: k in targets ==> k in s.views && Carries(s.source, s.views[k], p, targets[k].profile))
    case Committed(p, targets) => targets == Targets(s.subs) && p.version == s.source.subject.version
  }

  ghost predicate EnteringInv(show: Show, s: State, who: Subscriber, previous: Option<Subscription>, pending: Subscription) {
    && who in s.subs && s.subs[who] == pending && pending.status == Pending && NormalizeProfile(pending.profile) == pending.profile
    && (previous.Some? ==> previous.value.status == Active && Current(show, s, who, previous.value))
  }

  /** The view already contains the update's payload. */
  ghost predicate Carries(src: Source, view: Payload, p: Prepared, profile: Profile) {
    && NormalizeProfile(profile) in p.updates
    && forall f :: f in p.updates[NormalizeProfile(profile)] ==> f in view && view[f] == p.updates[NormalizeProfile(profile)][f]
  }

  /** The subscriber a membership call is about; everyone else is active. */
  ghost predicate Busy(op: Op, k: Subscriber) {
    (op.Entering? || op.Captured? || op.Entered? || op.Leaving?) && op.who == k
  }

  /** The memberships' part of the invariant. */
  ghost predicate MembersInv(show: Show, s: State) {
    && (forall k :: k in s.subs && !Busy(s.op, k) ==> s.subs[k].status == Active && Current(show, s, k, s.subs[k]))
    && OpInv(show, s)
  }

  /** The update's part of the invariant. */
  ghost predicate FlightInv(show: Show, src: Source, p: Option<Prepared>) {
    WriterInv(src, p) && (p.Some? ==> Live(show, src, p.value))
  }

  /** Nothing is promised once the subject is closed. */
  ghost predicate Inv(show: Show, s: State) {
    s.source.subject.enabled ==> FlightInv(show, s.source, InFlightUpdate(s)) && MembersInv(show, s) && PastInv(s)
  }

  /** Past updates, one of which may be in a caller's hands again, carry fields of the entity. */
  ghost predicate PastInv(s: State) {
    && (forall p :: p in s.past ==> p.finished && Shaped(s.source, p))
    && ((s.op.Sending? || s.op.Sent?) && s.op.update.finished ==> Shaped(s.source, s.op.update))
  }

  /** Nothing the update carries for one profile has changed since, unless it is pending. */
  ghost predicate GoodFor(show: Show, src: Source, p: Prepared, profile: Profile)
    requires profile in p.updates
  {
    forall f :: f in p.updates[profile] ==> f in src.content && (PendingField(src, f) || p.updates[profile][f] == show(profile, f, src.content[f]))
  }

  /** Nothing the update carries for these members has changed since, unless it is pending. */
  ghost predicate StillGood(show: Show, src: Source, p: Prepared, targets: Subs)
    requires Covered(targets, p)
  {
    forall k :: k in targets ==> GoodFor(show, src, p, NormalizeProfile(targets[k].profile))
  }

  /** Admitting a finished update is harmless when it carries the current version and nothing stale. */
  ghost predicate Careful(show: Show, s: State, a: Action) {
    s.source.subject.enabled && a == AdmitUpdates(true) && s.op.Sending? && s.op.update.finished && s.op.targets.Keys != {}
    && Covered(s.op.targets, s.op.update) ==>
      s.op.update.version == s.source.subject.version && StillGood(show, s.source, s.op.update, s.op.targets)
  }

  ghost predicate CarefulRun(show: Show, content: Content, acts: seq<Action>) {
    acts != [] ==>
      && CarefulRun(show, content, acts[..|acts| - 1])
      && Careful(show, Run(show, content, acts[..|acts| - 1]), acts[|acts| - 1])
  }

  // ---- Writes and marks ----

  /** The entity's side moved on: pending fields stay pending, and whatever changed is pending. */
  ghost predicate Drifts(src: Source, dst: Source) {
    && dst.content.Keys == src.content.Keys && dst.subject.version == src.subject.version
    && forall f :: f in src.content ==>
         && (PendingField(src, f) ==> PendingField(dst, f))
         && (dst.content[f] == src.content[f] || PendingField(dst, f))
  }

  lemma AgreesDrift(show: Show, src: Source, dst: Source, view: Payload, profile: Profile)
    requires Agrees(show, src, view, profile) && Drifts(src, dst)
    ensures Agrees(show, dst, view, profile)
  {}

  /** The actions of writers, which hold no operation lock. */
  predicate Writes(a: Action) {
    a.BeginWrite? || a.SetField? || a.MarkFields? || a.MarkAll? || a.EndWrite?
  }

  lemma WriteDrifts(src: Source, a: Action, p: Option<Prepared>)
    requires Writes(a) && src.subject.enabled && WriterInv(src, p)
    ensures Drifts(src, SourceStep(src, a)) && SourceStep(src, a).subject.enabled
  {}

  lemma WriteKeepsWriter(src: Source, a: Action, p: Option<Prepared>)
    requires Writes(a) && src.subject.enabled && WriterInv(src, p)
    requires p.Some? ==> p.value.generation <= src.subject.generation
    ensures WriterInv(SourceStep(src, a), p)
  {}

  lemma WriteKeepsLive(show: Show, src: Source, a: Action, p: Prepared)
    requires Writes(a) && src.subject.enabled && WriterInv(src, Some(p)) && Live(show, src, p)
    ensures Live(show, SourceStep(src, a), p)
  {}

  /** A membership stays current while the entity's side drifts. */
  lemma CurrentDrift(show: Show, s: State, dst: Source, k: Subscriber, subscription: Subscription)
    requires Current(show, s, k, subscription) && Drifts(s.source, dst)
    ensures Current(show, s.(source := dst), k, subscription)
  {}

  lemma {:induction false} OpDrift(show: Show, s: State, dst: Source)
    requires OpInv(show, s) && Drifts(s.source, dst)
    ensures OpInv(show, s.(source := dst))
  {
    match s.op
    case Entering(who, previous, pending) =>
      if previous.Some? { CurrentDrift(show, s, dst, who, previous.value); }
    case Captured(who, previous, pending, version, payload) =>
      if previous.Some? { CurrentDrift(show, s, dst, who, previous.value); }
      AgreesDrift(show, s.source, dst, payload, pending.profile);
    case Entered(who, pending, version) => CurrentDrift(show, s, dst, who, pending.(contentVersion := version));
    case Leaving(who, current) => CurrentDrift(show, s, dst, who, current);
    case Sent(p, targets) =>
      if !p.finished {
        forall k | k in targets ensures k in s.views && Carries(dst, s.views[k], p, targets[k].profile) {
          assert Carries(s.source, s.views[k], p, targets[k].profile);
        }
      }
    case _ =>
  }

  lemma {:induction false} MembersDrift(show: Show, s: State, dst: Source)
    requires MembersInv(show, s) && Drifts(s.source, dst)
    ensures MembersInv(show, s.(source := dst))
  {
    forall k | k in s.subs && !Busy(s.op, k) ensures Current(show, s.(source := dst), k, s.subs[k]) {
      CurrentDrift(show, s, dst, k, s.subs[k]);
    }
    OpDrift(show, s, dst);
  }

  lemma {:induction false} WriteKeeps(show: Show, s: State, a: Action)
    requires Inv(show, s) && Writes(a)
    ensures Inv(show, Step(show, s, a))
  {
    if s.source.subject.enabled {
      var p := InFlightUpdate(s);
      WriteDrifts(s.source, a, p);
      WriteKeepsWriter(s.source, a, p);
      if p.Some? { WriteKeepsLive(show, s.source, a, p.value); }
      MembersDrift(show, s, SourceStep(s.source, a));
    }
  }

  // ---- Preparing and abandoning ----

  lemma {:induction false} PreparedLive(show: Show, src: Source, profiles: set<Profile>, fails: set<Profile>)
    requires src.writer.None? && Prepare(src.subject, src.content, profiles, show, fails).1.Ok?
    ensures var (subject, r) := Prepare(src.subject, src.content, profiles, show, fails);
            Live(show, src.(subject := subject), r.value)
  {}

  /** Only the token and the outstanding update may differ. */
  lemma {:induction false} MembersRetoken(show: Show, s: State, subject: Subject, outstanding: Option<Prepared>, past: set<Prepared>)
    requires MembersInv(show, s)
    requires subject == s.source.subject.(nextToken := subject.nextToken, inflight := subject.inflight)
    requires (s.op.Sending? || s.op.Sent?) && !s.op.update.finished ==> outstanding.None?
    ensures MembersInv(show, s.(source := s.source.(subject := subject), outstanding := outstanding, past := past))
  {
    MembersDrift(show, s, s.source.(subject := subject));
    var t := s.(source := s.source.(subject := subject));
    var u := t.(outstanding := outstanding, past := past);
    forall k, subscription | Current(show, t, k, subscription) ensures Current(show, u, k, subscription) {}
  }

  lemma {:induction false} PrepareKeeps(show: Show, s: State, profiles: set<Profile>, fails: set<Profile>)
    requires Inv(show, s)
    ensures Inv(show, PrepareStep(s, profiles, fails, show))
  {
    if s.source.writer.None? && s.source.subject.enabled {
      var (subject, r) := Prepare(s.source.subject, s.source.content, profiles, show, fails);
      if PrepareError(s.source.subject).None? {
        MembersRetoken(show, s, subject, if r.Ok? then Some(r.value) else s.outstanding, s.past);
      }
      if r.Ok? { PreparedLive(show, s.source, profiles, fails); }
    }
  }

  lemma {:induction false} AbandonKeeps(show: Show, s: State)
    requires Inv(show, s)
    ensures Inv(show, AbandonStep(s))
  {
    if s.outstanding.Some? && s.source.subject.enabled {
      MembersRetoken(show, s, Abort(s.source.subject, s.outstanding.value).0, None, AbandonStep(s).past);
    }
  }

  // ---- Memberships come and go ----

  lemma {:induction false} SubscribeKeeps(show: Show, s: State, who: Subscriber, wanted: Profile)
    requires MembersInv(show, s)
    ensures MembersInv(show, SubscribeStep(s, who, wanted))
  {
    var t := SubscribeStep(s, who, wanted);
    if s.op.Idle? {
      forall k | k in s.subs ensures Current(show, t, k, s.subs[k]) { assert Current(show, s, k, s.subs[k]); }
    }
  }

  lemma {:induction false} RollbackKeeps(show: Show, s: State)
    requires MembersInv(show, s) && (s.op.Entering? || s.op.Captured?)
    ensures MembersInv(show, s.(op := Idle, subs := Rollback(s.subs, s.op.who, s.op.previous)))
  {}

  lemma {:induction false} CaptureKeeps(show: Show, s: State, failed: bool)
    requires MembersInv(show, s)
    ensures MembersInv(show, CaptureStep(s, failed, show))
  {
    if s.op.Entering? && s.source.writer.None? {
      RollbackKeeps(show, s);
      var t := CaptureStep(s, failed, show);
      if t.op.Captured? {
        forall k | k in s.subs && !Busy(s.op, k) ensures Current(show, t, k, s.subs[k]) { assert Current(show, s, k, s.subs[k]); }
        if s.op.previous.Some? { assert Current(show, t, s.op.who, s.op.previous.value); }
      }
    }
  }

  lemma {:induction false} AdmitSnapshotKeeps(show: Show, s: State, accepts: bool)
    requires MembersInv(show, s)
    ensures MembersInv(show, AdmitSnapshotStep(s, accepts))
  {
    if s.op.Captured? {
      RollbackKeeps(show, s);
      var t := AdmitSnapshotStep(s, accepts);
      if accepts {
        forall k | k in s.subs && !Busy(s.op, k) ensures Current(show, t, k, s.subs[k]) { assert Current(show, s, k, s.subs[k]); }
      }
    }
  }

  lemma {:induction false} ActivateKeeps(show: Show, s: State)
    requires MembersInv(show, s)
    ensures MembersInv(show, ActivateStep(s))
  {}

  lemma {:induction false} LeaveKeeps(show: Show, s: State, who: Subscriber)
    requires MembersInv(show, s)
    ensures MembersInv(show, LeaveStep(s, who))
  {}

  lemma {:induction false} AdmitLeaveKeeps(show: Show, s: State, accepts: bool)
    requires MembersInv(show, s)
    ensures MembersInv(show, AdmitLeaveStep(s, accepts))
  {}

  // ---- Distribution ----

  lemma {:induction false} AllTargets(show: Show, s: State)
    requires MembersInv(show, s) && (forall k :: k in s.subs ==> !Busy(s.op, k))
    ensures Targets(s.subs) == s.subs
  {
    forall k | k in s.subs ensures k in Targets(s.subs) { assert s.subs[k].status == Active; }
  }

  lemma {:induction false} DistributeKeeps(show: Show, s: State)
    requires MembersInv(show, s) && s.op.Idle? && s.outstanding.Some? && Covered(Targets(s.subs), s.outstanding.value)
    ensures MembersInv(show, DistributeStep(s))
  {}

  /** An admitted update overwrites a view only on fields that are still pending. */
  lemma {:induction false} ReplayAgrees(show: Show, src: Source, view: Payload, p: Prepared, profile: Profile)
    requires Live(show, src, p) && Agrees(show, src, view, profile) && profile in p.updates
    ensures Agrees(show, src, Replay(view, p, p.updates[profile]), profile)
  {}

  /** Each target is one version behind the update it is sent. */
  lemma {:induction false} AdmitKeeps(show: Show, s: State)
    requires MembersInv(show, s) && s.op.Sending? && Live(show, s.source, s.op.update)
    ensures MembersInv(show, AdmitUpdatesStep(s, true))
    ensures forall k :: k in s.op.targets ==> k in s.seen && s.seen[k] == s.op.update.baseVersion == s.op.update.version - 1
  {
    AllTargets(show, s);
    var t := AdmitUpdatesStep(s, true);
    forall k | k in s.subs ensures Current(show, t, k, s.subs[k]) {
      assert Current(show, s, k, s.subs[k]);
      ReplayAgrees(show, s.source, s.views[k], s.op.update, s.subs[k].profile);
    }
    forall k | k in s.op.targets ensures k in t.views && Carries(t.source, t.views[k], s.op.update, s.op.targets[k].profile) {
      assert Current(show, s, k, s.subs[k]);
    }
  }

  /** Committing clears marks only when nothing was marked since the update was prepared; then the view is exact. */
  lemma {:induction false} CommitAgrees(show: Show, src: Source, view: Payload, p: Prepared, profile: Profile)
    requires Live(show, src, p) && src.subject.enabled && Agrees(show, src, view, profile)
    requires Carries(src, view, p, profile) && NormalizeProfile(profile) == profile
    ensures Commit(src.subject, p).1.None?
    ensures Agrees(show, src.(subject := Commit(src.subject, p).0), view, profile)
  {}

  lemma {:induction false} CommitKeeps(show: Show, s: State)
    requires MembersInv(show, s) && s.op.Sent? && s.source.subject.enabled && Live(show, s.source, s.op.update)
    ensures MembersInv(show, CommitStep(s))
  {
    AllTargets(show, s);
    var t := CommitStep(s);
    forall k | k in s.subs ensures Current(show, t, k, s.subs[k]) {
      assert Current(show, s, k, s.subs[k]);
      CommitAgrees(show, s.source, s.views[k], s.op.update, s.subs[k].profile);
    }
  }

  lemma {:induction false} CommitFlight(show: Show, src: Source, p: Prepared)
    requires FlightInv(show, src, Some(p)) && src.subject.enabled
    ensures FlightInv(show, src.(subject := Commit(src.subject, p).0), None)
  {}

  lemma {:induction false} FinishKeeps(show: Show, s: State)
    requires MembersInv(show, s) && s.op.Committed?
    ensures MembersInv(show, FinishStep(s))
  {
    AllTargets(show, s);
    var t := FinishStep(s);
    forall k | k in t.subs ensures t.subs[k].status == Active && Current(show, t, k, t.subs[k]) {
      assert Current(show, s, k, s.subs[k]);
    }
  }

  // ---- Every step of every run ----

  lemma {:induction false} BeginKeeps(show: Show, s: State)
    requires Inv(show, s) && s.source.subject.enabled
    ensures Inv(show, DistributeStep(s))
  {
    if s.op.Idle? && s.outstanding.Some? && Covered(Targets(s.subs), s.outstanding.value) { DistributeKeeps(show, s); }
    else { AbandonKeeps(show, s); }
  }

  /** A refused batch leaves every member as it was. */
  lemma {:induction false} RefusedKeeps(show: Show, s: State)
    requires MembersInv(show, s) && s.op.Sending? && s.op.targets.Keys != {}
    ensures MembersInv(show, AdmitUpdatesStep(s, false))
  {}

  /** A member that replays a finished update. */
  lemma {:induction false} ReplayAgain(show: Show, src: Source, view: Payload, p: Prepared, profile: Profile)
    requires Shaped(src, p) && Agrees(show, src, view, profile) && profile in p.updates
    ensures Agrees(show, src, Replay(view, p, p.updates[profile]), profile)
            <==> forall f :: f in p.updates[profile] ==> PendingField(src, f) || p.updates[profile][f] == show(profile, f, src.content[f])
  {
    var (payload, next) := (p.updates[profile], Replay(view, p, p.updates[profile]));
    if Agrees(show, src, next, profile) {
      forall f | f in payload ensures PendingField(src, f) || payload[f] == show(profile, f, src.content[f]) {
        assert f in src.content && next[f] == payload[f];
      }
    }
  }

  lemma {:induction false} MemberAgain(show: Show, s: State, t: State, k: Subscriber)
    requires s.op.Sending? && s.op.update.finished && Shaped(s.source, s.op.update) && Covered(s.op.targets, s.op.update)
    requires k in s.op.targets && k in s.subs && s.subs[k] == s.op.targets[k] && Current(show, s, k, s.subs[k])
    requires s.op.targets.Keys != {} && t == AdmitUpdatesStep(s, true)
    ensures Current(show, t, k, s.subs[k])
            <==> s.op.update.version == s.source.subject.version && GoodFor(show, s.source, s.op.update, s.subs[k].profile)
  {
    ReplayAgain(show, s.source, s.views[k], s.op.update, s.subs[k].profile);
  }

  /**
   * An update that was finished before keeps every member right when it is admitted again if and only if it carries the
   * current version and nothing that has changed since.
   */
  lemma {:induction false} AdmittedAgain(show: Show, s: State)
    requires MembersInv(show, s) && s.op.Sending? && s.op.update.finished && Shaped(s.source, s.op.update) && s.op.targets.Keys != {}
    ensures MembersInv(show, AdmitUpdatesStep(s, true))
            <==> s.op.update.version == s.source.subject.version && StillGood(show, s.source, s.op.update, s.op.targets)
  {
    AllTargets(show, s);
    var (t, p) := (AdmitUpdatesStep(s, true), s.op.update);
    forall k | k in s.subs
      ensures Current(show, t, k, s.subs[k])
              <==> p.version == s.source.subject.version && s.subs[k].profile == NormalizeProfile(s.subs[k].profile) && s.subs[k].profile in p.updates
                   && GoodFor(show, s.source, p, s.subs[k].profile)
    {
      assert Current(show, s, k, s.subs[k]);
      MemberAgain(show, s, t, k);
    }
    if MembersInv(show, t) {
      forall k | k in s.subs ensures Current(show, t, k, s.subs[k]) { assert t.subs[k].status == Active; }
      assert s.subs.Keys != {};
    }
  }

  lemma {:induction false} NoneAdmitted(show: Show, s: State)
    requires MembersInv(show, s) && s.op.Sending? && s.op.update.finished && s.op.targets.Keys == {}
    ensures MembersInv(show, AdmitUpdatesStep(s, true))
  {
    AllTargets(show, s);
    assert s.subs.Keys == {};
  }

  lemma {:induction false} PastAdmission(s: State, accepts: bool)
    requires PastInv(s) && (s.op.Sending? && !s.op.update.finished ==> Shaped(s.source, s.op.update))
    ensures PastInv(AdmitUpdatesStep(s, accepts))
  {}

  lemma {:induction false} AdmissionKeeps(show: Show, s: State, accepts: bool)
    requires Inv(show, s) && s.source.subject.enabled && Careful(show, s, AdmitUpdates(accepts))
    ensures Inv(show, AdmitUpdatesStep(s, accepts))
  {
    if s.op.Sending? {
      PastAdmission(s, accepts);
      if s.op.targets.Keys != {} && !accepts { RefusedKeeps(show, s); }
      else if !s.op.update.finished { AdmitKeeps(show, s); }
      else if s.op.targets.Keys == {} { NoneAdmitted(show, s); }
      else { AdmittedAgain(show, s); }
    }
  }

  /** Committing a finished update changes nothing. */
  lemma {:induction false} RecommitKeeps(show: Show, s: State)
    requires MembersInv(show, s) && s.op.Sent? && s.op.update.finished
    ensures MembersInv(show, CommitStep(s))
  {
    var t := CommitStep(s);
    forall k | k in s.subs ensures Current(show, t, k, s.subs[k]) { assert Current(show, s, k, s.subs[k]); }
  }

  lemma {:induction false} CommitDone(show: Show, s: State)
    requires Inv(show, s) && s.source.subject.enabled && s.op.Sent?
    ensures Inv(show, CommitStep(s))
  {
    if s.op.update.finished {
      RecommitKeeps(show, s);
    } else {
      CommitKeeps(show, s);
      CommitFlight(show, s.source, s.op.update);
    }
  }

  lemma {:induction false} CommittingKeeps(show: Show, s: State, a: Action)
    requires Inv(show, s) && s.source.subject.enabled && (a.CommitUpdate? || a.FinishDistribute?)
    ensures Inv(show, Step(show, s, a))
  {
    if a.CommitUpdate? && s.op.Sent? {
      CommitDone(show, s);
    } else if a.FinishDistribute? && s.op.Committed? {
      FinishKeeps(show, s);
    }
  }

  predicate Membership(a: Action) {
    a.BeginSubscribe? || a.Capture? || a.AdmitSnapshot? || a.Activate? || a.BeginLeave? || a.AdmitLeave?
  }

  lemma {:induction false} MembershipMembers(show: Show, s: State, a: Action)
    requires MembersInv(show, s) && Membership(a)
    ensures MembersInv(show, Step(show, s, a))
  {
    match a
    case BeginSubscribe(who, profile) => SubscribeKeeps(show, s, who, profile);
    case Capture(failed) => CaptureKeeps(show, s, failed);
    case AdmitSnapshot(accepts) => AdmitSnapshotKeeps(show, s, accepts);
    case Activate => ActivateKeeps(show, s);
    case BeginLeave(who) => LeaveKeeps(show, s, who);
    case AdmitLeave(accepts) => AdmitLeaveKeeps(show, s, accepts);
  }

  lemma {:induction false} MembershipFlight(show: Show, s: State, a: Action)
    requires Membership(a)
    ensures var t := Step(show, s, a); t.source == s.source && InFlightUpdate(t) == InFlightUpdate(s)
  {}

  lemma {:induction false} MembershipKeeps(show: Show, s: State, a: Action)
    requires Inv(show, s) && s.source.subject.enabled && Membership(a)
    ensures Inv(show, Step(show, s, a))
  {
    MembershipMembers(show, s, a);
    MembershipFlight(show, s, a);
  }

  /** A closed subject stays closed. */
  lemma {:induction false} ClosedStays(show: Show, s: State, a: Action)
    requires !s.source.subject.enabled
    ensures !Step(show, s, a).source.subject.enabled
  {}

  lemma {:induction false} HandOverKeeps(show: Show, s: State, p: Prepared)
    requires Inv(show, s) && s.source.subject.enabled
    ensures Inv(show, HandOverStep(s, p))
  {
    var t := HandOverStep(s, p);
    if t != s {
      forall k | k in s.subs ensures Current(show, t, k, s.subs[k]) { assert Current(show, s, k, s.subs[k]); }
    }
  }

  lemma {:induction false} StepKeeps(show: Show, s: State, a: Action)
    requires Inv(show, s) && Careful(show, s, a)
    ensures Inv(show, Step(show, s, a))
  {
    if !s.source.subject.enabled {
      ClosedStays(show, s, a);
    } else {
      match a
      case PrepareUpdate(profiles, fails) => PrepareKeeps(show, s, profiles, fails);
      case AbandonUpdate => AbandonKeeps(show, s);
      case CloseSubject =>
      case BeginDistribute => BeginKeeps(show, s);
      case HandOver(p) => HandOverKeeps(show, s, p);
      case AdmitUpdates(accepts) => AdmissionKeeps(show, s, accepts);
      case CommitUpdate => CommittingKeeps(show, s, a);
      case FinishDistribute => CommittingKeeps(show, s, a);
      case BeginWrite => WriteKeeps(show, s, a);
      case SetField(_, _) => WriteKeeps(show, s, a);
      case MarkFields(_) => WriteKeeps(show, s, a);
      case MarkAll(_) => WriteKeeps(show, s, a);
      case EndWrite => WriteKeeps(show, s, a);
      case _ => MembershipKeeps(show, s, a);
    }
  }

  lemma {:induction false} RunKeeps(show: Show, content: Content, acts: seq<Action>)
    requires CarefulRun(show, content, acts)
    ensures Inv(show, Run(show, content, acts))
  {
    if acts != [] {
      RunKeeps(show, content, acts[..|acts| - 1]);
      StepKeeps(show, Run(show, content, acts[..|acts| - 1]), acts[|acts| - 1]);
    }
  }

  // ---- What every run guarantees while the subject is open ----

  /** Between calls every active member is at the subject's version, in the coordinator's books and in its own. */
  lemma {:induction false} VersionsMatch(show: Show, content: Content, acts: seq<Action>, k: Subscriber)
    requires CarefulRun(show, content, acts)
    requires var s := Run(show, content, acts);
             s.source.subject.enabled && s.op.Idle? && k in s.subs && s.subs[k].status == Active
    ensures var s := Run(show, content, acts);
            k in s.seen && s.subs[k].contentVersion == s.source.subject.version == s.seen[k]
  {
    RunKeeps(show, content, acts);
    var s := Run(show, content, acts);
    assert Current(show, s, k, s.subs[k]);
  }

  /** A batch about to be admitted takes every member it is addressed to exactly one version further. */
  lemma {:induction false} EachUpdateExtendsByOne(show: Show, content: Content, acts: seq<Action>, k: Subscriber)
    requires CarefulRun(show, content, acts)
    requires var s := Run(show, content, acts); s.source.subject.enabled && s.op.Sending? && !s.op.update.finished && k in s.op.targets
    ensures var s := Run(show, content, acts);
            k in s.seen && s.op.update.baseVersion == s.seen[k] && s.op.update.version == s.seen[k] + 1
  {
    RunKeeps(show, content, acts);
    AdmitKeeps(show, Run(show, content, acts));
  }

  /** At every moment an active member's replayed view differs from the entity only on pending fields. */
  lemma {:induction false} ViewsDifferOnlyWherePending(show: Show, content: Content, acts: seq<Action>, k: Subscriber)
    requires CarefulRun(show, content, acts)
    requires var s := Run(show, content, acts); s.source.subject.enabled && k in s.subs && s.subs[k].status == Active
    ensures var s := Run(show, content, acts); k in s.views && Agrees(show, s.source, s.views[k], s.subs[k].profile)
  {
    RunKeeps(show, content, acts);
    var s := Run(show, content, acts);
    assert !Busy(s.op, k);
    assert Current(show, s, k, s.subs[k]);
  }

  /** With nothing dirty and no writer, an active member sees exactly what its profile shows of the entity. */
  lemma {:induction false} QuietViewsAreExact(show: Show, content: Content, acts: seq<Action>, k: Subscriber)
    requires CarefulRun(show, content, acts)
    requires var s := Run(show, content, acts);
             && s.source.subject.enabled && s.source.subject.dirty == {} && !s.source.subject.fullDirty && s.source.writer.None?
             && k in s.subs && s.subs[k].status == Active
    ensures var s := Run(show, content, acts);
            k in s.views && s.views[k] == PackSnapshot(show, s.subs[k].profile, s.source.content)
  {
    ViewsDifferOnlyWherePending(show, content, acts, k);
  }

  /** An update is committed at most once, even by a caller that forgets it was finished. */
  lemma {:induction false} CommitsOnce(s: Subject, p: Prepared)
    requires p.token != 0 && Commit(s, p).1.None?
    ensures Commit(Commit(s, p).0, p) == (Commit(s, p).0, Some(StalePrepare))
  {}
}
