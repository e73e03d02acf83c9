/**
 * Handing an update to Distribute a second time. Distribute admits the envelopes before the commit finds the update
 * finished, so a retry can reach members without being committed.
 */
module Retries {
  import opened Common
  import opened SubjectSync
  import opened Subscriptions
  import opened EntitySync
  import opened Flushes

  /** A step that is not careful breaks the invariant at once. */
  lemma {:induction false} CarelessBreaks(show: Show, s: State, a: Action)
    requires Inv(show, s) && !Careful(show, s, a)
    ensures !Inv(show, Step(show, s, a))
  {
    AdmittedAgain(show, s);
  }

  /** The invariant holds all along a run if and only if no finished update with something stale is admitted in it. */
  lemma {:induction false} InvIffCareful(show: Show, content: Content, acts: seq<Action>)
    ensures (forall n :: 0 <= n <= |acts| ==> Inv(show, Run(show, content, acts[..n]))) <==> CarefulRun(show, content, acts)
  {
    if acts == [] {
      RunKeeps(show, content, acts);
    } else {
      var (rest, a) := (acts[..|acts| - 1], acts[|acts| - 1]);
      var s := Run(show, content, rest);
      InvIffCareful(show, content, rest);
      assert acts[..|acts|] == acts;
      forall n | 0 <= n < |acts| ensures acts[..n] == rest[..n] {}
      assert rest[..|rest|] == rest;
      if CarefulRun(show, content, acts) { RunKeeps(show, content, acts); }
      if CarefulRun(show, content, rest) && !Careful(show, s, a) {
        RunKeeps(show, content, rest);
        CarelessBreaks(show, s, a);
        assert !Inv(show, Run(show, content, acts[..|acts|]));
      }
    }
  }

  // ---- Callers that hand every update over once ----

  predicate Unfinished(s: State) {
    && (s.outstanding.Some? ==> !s.outstanding.value.finished)
    && (s.op.Sending? || s.op.Sent? ==> !s.op.update.finished)
  }

  lemma {:induction false} UnfinishedStep(show: Show, s: State, a: Action)
    requires Unfinished(s) && !a.HandOver?
    ensures Unfinished(Step(show, s, a))
  {}

  /** Such callers are careful: everything promised of careful runs holds of them. */
  lemma {:induction false} OnceIsCareful(show: Show, content: Content, acts: seq<Action>)
    requires forall a :: a in acts ==> !a.HandOver?
    ensures CarefulRun(show, content, acts) && Unfinished(Run(show, content, acts))
  {
    if acts != [] {
      OnceIsCareful(show, content, acts[..|acts| - 1]);
      UnfinishedStep(show, Run(show, content, acts[..|acts| - 1]), acts[|acts| - 1]);
    }
  }

  /** What is about to be admitted takes a member one version further and can be committed, if and only if it is unfinished. */
  lemma {:induction false} ExtendsIffUnfinished(show: Show, content: Content, acts: seq<Action>, k: Subscriber)
    requires CarefulRun(show, content, acts)
    requires var s := Run(show, content, acts); s.source.subject.enabled && s.op.Sending? && k in s.op.targets
    ensures var s := Run(show, content, acts);
            k in s.seen
            && (s.op.update.version == s.seen[k] + 1 && Commit(s.source.subject, s.op.update).1.None? <==> !s.op.update.finished)
  {
    RunKeeps(show, content, acts);
    var s := Run(show, content, acts);
    if !s.op.update.finished { EachUpdateExtendsByOne(show, content, acts, k); }
    assert Current(show, s, k, s.subs[k]);
  }

  // ---- Handing over what was committed ----

  /** The subject is at the update's version, and for every profile it carries nothing that has changed without being pending. */
  ghost predicate Good(show: Show, src: Source, p: Prepared) {
    src.subject.version == p.version && forall q :: q in p.updates ==> GoodFor(show, src, p, q)
  }

  lemma {:induction false} GoodDrift(show: Show, src: Source, dst: Source, p: Prepared)
    requires Good(show, src, p) && Drifts(src, dst)
    ensures Good(show, dst, p)
  {
    forall q | q in p.updates ensures GoodFor(show, dst, p, q) { assert GoodFor(show, src, p, q); }
  }

  lemma {:induction false} CommitGood(show: Show, s: State)
    requires Inv(show, s) && s.source.subject.enabled && s.op.Sent? && !s.op.update.finished
    ensures Good(show, CommitStep(s).source, Finish(s.op.update)) && CommitStep(s).source.subject.enabled
  {
    var (src, p) := (s.source, s.op.update);
    assert Live(show, src, p);
    forall q | q in p.updates ensures GoodFor(show, CommitStep(s).source, Finish(p), q) {}
  }

  lemma {:induction false} CommitVersion(show: Show, s: State)
    requires Inv(show, s) && s.source.subject.enabled
    ensures CommitStep(s).source.subject.version > s.source.subject.version || CommitStep(s).source == s.source
  {
    if s.op.Sent? && !s.op.update.finished { assert Live(show, s.source, s.op.update); }
  }

  /** Steps other than writes and commits change at most the tokens. */
  lemma {:induction false} OtherDrifts(show: Show, s: State, a: Action)
    requires s.source.subject.enabled && !Writes(a) && !a.CommitUpdate? && !a.CloseSubject?
    ensures var t := Step(show, s, a).source;
            t == s.source.(subject := s.source.subject.(nextToken := t.subject.nextToken, inflight := t.subject.inflight))
  {}

  /** While the subject is open its version never goes back, and a step that keeps it lets the entity only drift. */
  lemma {:induction false} VersionStep(show: Show, s: State, a: Action)
    requires Inv(show, s) && Step(show, s, a).source.subject.enabled
    ensures s.source.subject.enabled && Step(show, s, a).source.subject.version >= s.source.subject.version
    ensures Step(show, s, a).source.subject.version == s.source.subject.version ==> Drifts(s.source, Step(show, s, a).source)
  {
    if !s.source.subject.enabled {
      ClosedStays(show, s, a);
    } else if Writes(a) {
      WriteDrifts(s.source, a, InFlightUpdate(s));
    } else if a.CommitUpdate? {
      CommitVersion(show, s);
    } else {
      OtherDrifts(show, s, a);
    }
  }

  ghost function At(show: Show, content: Content, acts: seq<Action>, n: nat): State
    requires n <= |acts|
  {
    Run(show, content, acts[..n])
  }

  lemma {:induction false} CarefulPrefix(show: Show, content: Content, acts: seq<Action>, n: nat)
    requires CarefulRun(show, content, acts) && n <= |acts|
    ensures CarefulRun(show, content, acts[..n])
    decreases |acts|
  {
    if n == |acts| {
      assert acts[..n] == acts;
    } else {
      CarefulPrefix(show, content, acts[..|acts| - 1], n);
      assert acts[..|acts| - 1][..n] == acts[..n];
    }
  }

  lemma {:induction false} AtNext(show: Show, content: Content, acts: seq<Action>, n: nat)
    requires CarefulRun(show, content, acts) && n < |acts|
    ensures At(show, content, acts, n + 1) == Step(show, At(show, content, acts, n), acts[n]) && Inv(show, At(show, content, acts, n))
  {
    assert acts[..n + 1][..n] == acts[..n];
    CarefulPrefix(show, content, acts, n);
    RunKeeps(show, content, acts[..n]);
  }

  lemma {:induction false} GoodNext(show: Show, s: State, a: Action, p: Prepared)
    requires Inv(show, s) && Step(show, s, a).source.subject.enabled && s.source.subject.version >= p.version
    requires s.source.subject.version == p.version ==> Good(show, s.source, p)
    ensures var t := Step(show, s, a).source; t.subject.version >= p.version && (t.subject.version == p.version ==> Good(show, t, p))
  {
    VersionStep(show, s, a);
    if Step(show, s, a).source.subject.version == p.version { GoodDrift(show, s.source, Step(show, s, a).source, p); }
  }

  lemma {:induction false} OpenBefore(show: Show, s: State, a: Action)
    requires Step(show, s, a).source.subject.enabled
    ensures s.source.subject.enabled
  {
    if !s.source.subject.enabled { ClosedStays(show, s, a); }
  }

  /** What was good stays good until the next commit. */
  lemma {:induction false} GoodLater(show: Show, content: Content, acts: seq<Action>, n: nat, m: nat, p: Prepared)
    requires CarefulRun(show, content, acts) && n <= m <= |acts|
    requires Good(show, At(show, content, acts, n).source, p) && At(show, content, acts, m).source.subject.enabled
    ensures At(show, content, acts, m).source.subject.version >= p.version
    ensures At(show, content, acts, m).source.subject.version == p.version ==> Good(show, At(show, content, acts, m).source, p)
    decreases m
  {
    if n < m {
      AtNext(show, content, acts, m - 1);
      OpenBefore(show, At(show, content, acts, m - 1), acts[m - 1]);
      GoodLater(show, content, acts, n, m - 1, p);
      GoodNext(show, At(show, content, acts, m - 1), acts[m - 1], p);
    }
  }

  /**
   * An update that was committed may be handed over again and admitted without harm if and only if the subject is still
   * at its version.
   */
  lemma {:induction false} CommittedAgain(show: Show, content: Content, acts: seq<Action>, n: nat)
    requires CarefulRun(show, content, acts) && n < |acts| && acts[n] == Action.CommitUpdate
    requires var c := At(show, content, acts, n); c.source.subject.enabled && c.op.Sent? && !c.op.update.finished
    requires var s := Run(show, content, acts);
             && s.source.subject.enabled && s.op.Sending? && s.op.targets.Keys != {}
             && s.op.update == Finish(At(show, content, acts, n).op.update)
    ensures var s := Run(show, content, acts);
            MembersInv(show, AdmitUpdatesStep(s, true)) <==> s.source.subject.version == s.op.update.version
  {
    var (c, s) := (At(show, content, acts, n), Run(show, content, acts));
    AtNext(show, content, acts, n);
    CommitGood(show, c);
    assert acts[..|acts|] == acts;
    GoodLater(show, content, acts, n + 1, |acts|, s.op.update);
    RunKeeps(show, content, acts);
    AdmittedAgain(show, s);
  }

  /** An update that was aborted breaks every member it is admitted to as long as no other update has been committed. */
  lemma {:induction false} AbortedAgain(show: Show, s: State)
    requires Inv(show, s) && s.source.subject.enabled && s.op.Sending? && s.op.update.finished && s.op.targets.Keys != {}
    requires s.op.update.baseVersion == s.source.subject.version && s.op.update.version == s.op.update.baseVersion + 1
    ensures !MembersInv(show, AdmitUpdatesStep(s, true))
  {
    AdmittedAgain(show, s);
  }

  // ---- A retry after a refused admission ----

  /** Distribute is refused, and the caller hands the same update over again. */
  function RetryActs(p: Prepared): seq<Action> {
    [BeginDistribute, AdmitUpdates(false), HandOver(Finish(p)), AdmitUpdates(true), Action.CommitUpdate]
  }

  function Retried(s: State, p: Prepared): State {
    CommitStep(AdmitUpdatesStep(HandOverStep(AdmitUpdatesStep(DistributeStep(s), false), Finish(p)), true))
  }

  lemma {:induction false} RefusedIs(s: State, p: Prepared)
    requires s.op.Idle? && s.outstanding == Some(p) && Covered(Targets(s.subs), p) && Targets(s.subs).Keys != {}
    ensures var r := AdmitUpdatesStep(DistributeStep(s), false);
            && r.op.Idle? && r.subs == s.subs && r.source.subject.version == s.source.subject.version && Finish(p) in r.past
  {}

  lemma {:induction false} AgainIs(s: State, p: Prepared)
    requires s.op.Idle? && p in s.past && p.finished && Covered(Targets(s.subs), p)
    ensures var t := CommitStep(AdmitUpdatesStep(HandOverStep(s, p), true));
            && t.op.Idle? && t.subs == s.subs && t.source.subject.version == s.source.subject.version
            && forall k :: k in Targets(s.subs) ==> k in t.seen && t.seen[k] == p.version
  {}

  lemma {:induction false} RetriedIs(s: State, p: Prepared)
    requires s.op.Idle? && s.outstanding == Some(p) && Covered(Targets(s.subs), p) && Targets(s.subs).Keys != {}
    ensures var t := Retried(s, p);
            && t.op.Idle? && t.subs == s.subs && t.source.subject.version == s.source.subject.version
            && forall k :: k in Targets(s.subs) ==> k in t.seen && t.seen[k] == p.version
  {
    RefusedIs(s, p);
    AgainIs(AdmitUpdatesStep(DistributeStep(s), false), Finish(p));
  }

  lemma {:induction false} RetryIs(show: Show, s: State, p: Prepared)
    ensures RunFrom(show, s, RetryActs(p)) == Retried(s, p)
  {
    var acts := RetryActs(p);
    var s1 := Step(show, s, acts[0]);
    var s2 := Step(show, s1, acts[1]);
    var s3 := Step(show, s2, acts[2]);
    var s4 := Step(show, s3, acts[3]);
    assert RunFrom(show, s4, acts[4..]) == Step(show, s4, acts[4]);
    assert RunFrom(show, s3, acts[3..]) == RunFrom(show, s4, acts[4..]);
    assert RunFrom(show, s2, acts[2..]) == RunFrom(show, s3, acts[3..]);
    assert RunFrom(show, s1, acts[1..]) == RunFrom(show, s2, acts[2..]);
  }

  /** An update is waiting to be distributed and there is somebody to send it to. */
  predicate Waiting(s: State) {
    && s.source.subject.enabled && s.op.Idle? && s.outstanding.Some?
    && Covered(Targets(s.subs), s.outstanding.value) && Targets(s.subs).Keys != {}
  }

  /**
   * Whenever an update is waiting: if its admission is refused and it is handed over again, every member has seen the
   * next version while its ContentVersion and the subject stay at the old one.
   */
  lemma {:induction false} RetryRunsAhead(show: Show, content: Content, acts: seq<Action>, k: Subscriber)
    requires CarefulRun(show, content, acts) && Waiting(Run(show, content, acts)) && k in Targets(Run(show, content, acts).subs)
    ensures var s := Run(show, content, acts);
            var t := Run(show, content, acts + RetryActs(s.outstanding.value));
            && t.op.Idle? && k in t.subs && k in t.seen && t.subs[k].status == Active
            && t.subs[k].contentVersion == t.source.subject.version == s.source.subject.version
            && t.seen[k] == t.source.subject.version + 1
  {
    var s := Run(show, content, acts);
    var p := s.outstanding.value;
    RunSplit(show, content, acts, RetryActs(p));
    RetryIs(show, s, p);
    RetriedIs(s, p);
    RunKeeps(show, content, acts);
    VersionsMatch(show, content, acts, k);
  }

  // ---- Such a moment is reached ----

  const SOMEONE: Subscriber := 1
  const PLAIN := Profile("default", 0, 0)

  /** Somebody subscribes. */
  const SUBSCRIBING := [BeginSubscribe(SOMEONE, PLAIN), Capture(false), AdmitSnapshot(true), Activate]

  /** A field is written, and an update prepared. */
  function Writing(f: Field, v: int): seq<Action> {
    [BeginWrite, SetField(f, v), MarkFields({f}), EndWrite, EntitySync.Action.PrepareUpdate({PLAIN}, {})]
  }

  /** One member, nothing pending. */
  predicate Quiet(s: State, content: Content) {
    && s.subs == map[SOMEONE := Subscription(PLAIN, Active, 0, 1)] && s.op.Idle? && s.outstanding.None?
    && s.source == Initial(content).source
  }

  lemma {:induction false} Subscribes(show: Show, content: Content)
    ensures Quiet(RunFrom(show, Initial(content), SUBSCRIBING), content)
  {
    var s0 := Initial(content);
    var s1 := Step(show, s0, SUBSCRIBING[0]);
    var s2 := Step(show, s1, SUBSCRIBING[1]);
    var s3 := Step(show, s2, SUBSCRIBING[2]);
    var s4 := Step(show, s3, SUBSCRIBING[3]);
    assert Quiet(s4, content);
    assert RunFrom(show, s3, SUBSCRIBING[3..]) == s4;
    assert RunFrom(show, s2, SUBSCRIBING[2..]) == RunFrom(show, s3, SUBSCRIBING[3..]);
    assert RunFrom(show, s1, SUBSCRIBING[1..]) == RunFrom(show, s2, SUBSCRIBING[2..]);
  }

  lemma {:induction false} WritesIs(show: Show, s: State, f: Field, v: int)
    ensures RunFrom(show, s, Writing(f, v)) ==
            Step(show, Step(show, Step(show, Step(show, Step(show, s, BeginWrite), SetField(f, v)), MarkFields({f})), EndWrite),
                 EntitySync.Action.PrepareUpdate({PLAIN}, {}))
  {
    var acts := Writing(f, v);
    var s1 := Step(show, s, acts[0]);
    var s2 := Step(show, s1, acts[1]);
    var s3 := Step(show, s2, acts[2]);
    var s4 := Step(show, s3, acts[3]);
    assert RunFrom(show, s4, acts[4..]) == Step(show, s4, acts[4]);
    assert RunFrom(show, s3, acts[3..]) == RunFrom(show, s4, acts[4..]);
    assert RunFrom(show, s2, acts[2..]) == RunFrom(show, s3, acts[3..]);
    assert RunFrom(show, s1, acts[1..]) == RunFrom(show, s2, acts[2..]);
  }

  lemma {:induction false} WritePrepares(show: Show, s: State, content: Content, f: Field, v: int)
    requires Quiet(s, content) && f in content
    ensures var t := RunFrom(show, s, Writing(f, v)); Waiting(t) && SOMEONE in Targets(t.subs) && t.source.subject.version == 0
  {
    WritesIs(show, s, f, v);
    var s1 := Step(show, s, BeginWrite);
    var s2 := Step(show, s1, SetField(f, v));
    var s3 := Step(show, s2, MarkFields({f}));
    var s4 := Step(show, s3, EndWrite);
    assert s1.source.writer == Some(Writer({}, {}, false)) && {} + {f} == {f} && {f} - {f} == {};
    assert s2.source.writer == Some(Writer({f}, {}, false));
    assert s3.source.writer == Some(Writer({}, {f}, false)) && s3.source.subject.dirty == {f};
    assert s4.source.writer == None && s4.source.subject == s3.source.subject && s4.subs == s.subs;
    assert PLAIN in NormalizeProfiles({PLAIN});
    assert SOMEONE in Targets(s4.subs);
  }

  lemma {:induction false} WaitingReached(show: Show, content: Content, f: Field, v: int)
    requires f in content
    ensures var acts := SUBSCRIBING + Writing(f, v);
            && CarefulRun(show, content, acts) && Waiting(Run(show, content, acts))
            && SOMEONE in Targets(Run(show, content, acts).subs) && Run(show, content, acts).source.subject.version == 0
  {
    Subscribes(show, content);
    RunSplit(show, content, [], SUBSCRIBING);
    assert [] + SUBSCRIBING == SUBSCRIBING;
    RunSplit(show, content, SUBSCRIBING, Writing(f, v));
    WritePrepares(show, Run(show, content, SUBSCRIBING), content, f, v);
    OnceIsCareful(show, content, SUBSCRIBING + Writing(f, v));
  }

  /**
   * For any content and any write: subscribe, write, prepare, be refused, and hand the update over again. The member has
   * then seen version 1 while its ContentVersion and the subject's version are 0.
   */
  lemma {:induction false} RetryExample(show: Show, content: Content, f: Field, v: int)
    requires f in content
    ensures exists acts :: var t := Run(show, content, acts);
              && t.op.Idle? && SOMEONE in t.subs && SOMEONE in t.seen
              && t.seen[SOMEONE] == 1 && t.subs[SOMEONE].contentVersion == 0 && t.source.subject.version == 0
  {
    var acts := SUBSCRIBING + Writing(f, v);
    WaitingReached(show, content, f, v);
    RetryRunsAhead(show, content, acts, SOMEONE);
  }
}
