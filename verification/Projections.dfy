/** When a projector is a function of the snapshot alone, and what goes wrong when it is not. */
module Projections {
  import opened Common
  import opened ReplicationTypes
  import opened Snapshots
  import opened Deltas
  import opened Sessions
  import opened Replicators
  import Runs = SessionRuns
  import opened EndToEnd

  type Projector = Snapshot -> Result<Snapshot, Error>

  /** What a pure projector shows of a published snapshot. */
  function Shows(w: World, project: Projector, s: Snapshot): Result<Snapshot, Error> {
    NormalizeProjection(project(s), s.meta, w.server.limits)
  }

  /** Every preparation of the run shows what the projector makes of the snapshot it read. */
  ghost predicate Pure(w: World, project: Projector, acts: seq<Action>) {
    acts != [] ==>
      && Pure(w, project, acts[..|acts| - 1])
      && Follows(project, Run(w, acts[..|acts| - 1]), acts[|acts| - 1])
  }

  ghost predicate Follows(project: Projector, s: State, a: Action) {
    a.Serve? && a.action.BuildFrame? && s.server.reading.Some? ==> a.action.projected == project(s.server.reading.value)
  }

  /** The ring's snapshots are the published ones, and nothing newer than the latest is published. */
  ghost predicate Ringed(s: Runs.State) {
    && (forall t :: t in s.published ==> t <= Runs.LatestTick(s))
    && (s.latest.Some? ==> s.latest.value.meta.tick in s.published && s.published[s.latest.value.meta.tick] == s.latest.value)
    && (s.reading.Some? ==> s.reading.value.meta.tick in s.published && s.published[s.reading.value.meta.tick] == s.reading.value)
  }

  ghost predicate ShownBy(w: World, project: Projector, s: State) {
    && Ringed(s.server)
    && forall t :: t in s.shown ==> t in s.server.published && Shows(w, project, s.server.published[t]) == Ok(s.shown[t])
  }

  lemma {:induction false} RingedStep(w: World, s: Runs.State, a: Runs.Action)
    requires Ringed(s)
    ensures Ringed(Runs.Step(w.server, s, a)) && Extends(s.published, Runs.Step(w.server, s, a).published)
  {}

  lemma {:induction false} PureBuildAllowed(w: World, project: Projector, s: State)
    requires ShownBy(w, project, s) && s.server.reading.Some?
    ensures Allowed(w, s, Runs.BuildFrame(project(s.server.reading.value)))
  {}

  /** A step either records no projection or records what the projector shows of the snapshot being read. */
  ghost predicate Records(w: World, project: Projector, s: State, next: State) {
    || next.shown == s.shown
    || (s.server.reading.Some? && var r := Shows(w, project, s.server.reading.value);
        r.Ok? && next.shown == s.shown[s.server.reading.value.meta.tick := r.value])
  }

  /** A preparation appends at most one frame, and that frame shows the normalised projection. */
  ghost predicate Appends(cfg: Config, s: Runs.State, projected: Result<Snapshot, Error>, n: Runs.State)
    requires s.reading.Some?
  {
    || |n.tickets| == |s.tickets|
    || (|n.tickets| == |s.tickets| + 1
        && NormalizeProjection(projected, s.reading.value.meta, cfg.limits) == Ok(n.tickets[|s.tickets|].snapshot))
  }

  lemma {:induction false} BuildAppends(cfg: Config, s: Runs.State, projected: Result<Snapshot, Error>)
    requires s.reading.Some?
    ensures Appends(cfg, s, projected, Runs.BuildStep(cfg, s, projected))
  {
    if PrepareLatest(cfg, s.session, s.reading.value, projected).1.Ok? {
      PreparedFrom(cfg, s.session, s.reading.value, projected);
    }
  }

  lemma {:induction false} ProjectionTick(projected: Result<Snapshot, Error>, meta: SnapshotMeta, limits: Limits)
    requires NormalizeProjection(projected, meta, limits).Ok?
    ensures NormalizeProjection(projected, meta, limits).value.meta == meta
  {}

  lemma {:induction false} AppendRecords(w: World, project: Projector, s: State, n: Runs.State)
    requires s.server.reading.Some? && Appends(w.server, s.server, project(s.server.reading.value), n)
    ensures Records(w, project, s, Record(w, s, n))
  {
    if |n.tickets| > |s.server.tickets| {
      ProjectionTick(project(s.server.reading.value), s.server.reading.value.meta, w.server.limits);
    }
  }

  lemma {:induction false} StepRecords(w: World, project: Projector, s: State, a: Action)
    requires Runs.Inv(s.server) && Follows(project, s, a)
    ensures Records(w, project, s, Step(w, s, a))
  {
    if a.Serve? && a.action.BuildFrame? && s.server.reading.Some? {
      BuildAppends(w.server, s.server, a.action.projected);
      AppendRecords(w, project, s, Runs.BuildStep(w.server, s.server, a.action.projected));
    }
  }

  lemma {:induction false} StepServes(w: World, s: State, a: Action)
    requires Ringed(s.server)
    ensures Ringed(Step(w, s, a).server) && Extends(s.server.published, Step(w, s, a).server.published)
  {
    if a.Serve? { RingedStep(w, s.server, a.action); }
  }

  lemma {:induction false} RecordsKeep(w: World, project: Projector, s: State, next: State)
    requires ShownBy(w, project, s) && Records(w, project, s, next)
    requires Ringed(next.server) && Extends(s.server.published, next.server.published)
    ensures ShownBy(w, project, next)
  {}

  lemma {:induction false} PureRun(w: World, project: Projector, acts: seq<Action>)
    requires Pure(w, project, acts)
    ensures ShownBy(w, project, Run(w, acts))
  {
    if acts != [] {
      var s := Run(w, acts[..|acts| - 1]);
      PureRun(w, project, acts[..|acts| - 1]);
      RunKeeps(w, acts[..|acts| - 1]);
      StepRecords(w, project, s, acts[|acts| - 1]);
      StepServes(w, s, acts[|acts| - 1]);
      RecordsKeep(w, project, s, Run(w, acts));
    }
  }

  /**
   * A projector that is a function of the snapshot alone: whatever was published, lost, repeated or reordered, the
   * client holds for a tick only what the projector shows of the snapshot published for it.
   */
  lemma {:induction false} PureProjectorNeverDiverges(w: World, project: Projector, acts: seq<Action>)
    requires Pure(w, project, acts)
    ensures var s := Run(w, acts);
            forall t :: t in s.held ==> t in s.server.published && Shows(w, project, s.server.published[t]) == Ok(s.held[t])
  {
    PureRun(w, project, acts);
    ClientNeverDiverges(w, acts);
  }

  // ---- A projector that shows one tick in two ways ----

  lemma {:induction false} SameComponents(cs: seq<ComponentState>)
    ensures DiffComponents(cs, cs) == []
    decreases |cs|
  {
    if cs != [] { SameComponents(cs[1..]); }
  }

  lemma {:induction false} SameObjects(objects: seq<ObjectState>)
    ensures DiffObjects(objects, objects) == []
    decreases |objects|
  {
    if objects != [] {
      SameComponents(objects[0].components);
      SameObjects(objects[1..]);
    }
  }

  /** Two frames of one tick committed in turn, the first shown to the client: the session keeps the second as the base. */
  lemma {:induction false} SecondSendReplacesBase(a: Snapshot, b: Snapshot, next: u32)
    requires a.meta == b.meta && 0 < a.meta.tick < next
    ensures var s1 := CommitPrepared(Prepare(NEW_SESSION, a.meta.tick).0, a, 1, 0, true).0;
            var s2 := CommitPrepared(Prepare(s1, a.meta.tick).0, b, 2, 0, true).0;
            var s3 := Acknowledge(s2, a.meta.tick, a.meta.tick).0;
            Prepare(s3, next).1.Ok? && Prepare(s3, next).1.value.base == Some(b)
  {}

  /**
   * The client rebuilt a, the session's base is b, and the next tick shows the objects of b again: the frame applies
   * without error and leaves the client on the objects of a. It holds the right snapshot exactly when a and b agree.
   */
  lemma {:induction false} TwoProjectionsDiverge(a: Snapshot, b: Snapshot, c: Snapshot, raw: Limits)
    requires Normal(a, raw) && Normal(b, raw) && Normal(c, raw) && a.meta == b.meta
    requires c.objects == b.objects && BuildDelta(Some(b), c).Ok? && Normal(Snapshot(c.meta, a.objects), raw)
    requires MergeFits(Some(a), Snapshot(c.meta, a.objects), NormalizeLimits(raw))
    ensures ApplyDelta(Some(a), BuildDelta(Some(b), c).value, raw) == Ok(Snapshot(c.meta, a.objects))
    ensures ApplyDelta(Some(a), BuildDelta(Some(b), c).value, raw) == Ok(c) <==> a == b
  {
    SameObjects(a.objects);
    SameObjects(b.objects);
    DeltaMeaning(Some(a), Snapshot(c.meta, a.objects), raw, raw);
  }
}
