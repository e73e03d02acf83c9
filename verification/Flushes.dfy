/** A flush of a dirty subject that nothing disturbs brings every member up to date. */
module Flushes {
  import opened Common
  import opened SubjectSync
  import opened Subscriptions
  import opened EntitySync

  /** The profiles that active members want. */
  function Profiles(subs: Subs): set<Profile> {
    set k | k in subs && subs[k].status == Active :: subs[k].profile
  }

  /** FlushSubject, step by step, with a sink that accepts. */
  function FlushActs(subs: Subs): seq<Action> {
    [PrepareUpdate(Profiles(subs), {}), BeginDistribute, AdmitUpdates(true), Action.CommitUpdate, FinishDistribute]
  }

  /** Something is dirty, nobody writes, and no update is on its way. */
  predicate Ready(s: State) {
    && s.source.subject.enabled && s.source.subject.hasPacker && s.source.subject.inflight == 0
    && (s.source.subject.dirty != {} || s.source.subject.fullDirty)
    && s.source.writer.None? && s.op.Idle? && s.outstanding.None?
  }

  function RunFrom(show: Show, s: State, acts: seq<Action>): State
    decreases |acts|
  {
    if acts == [] then s else RunFrom(show, Step(show, s, acts[0]), acts[1..])
  }

  lemma {:induction false} RunSplit(show: Show, content: Content, acts: seq<Action>, more: seq<Action>)
    ensures Run(show, content, acts + more) == RunFrom(show, Run(show, content, acts), more)
    decreases |more|
  {
    if more == [] {
      assert acts + more == acts;
    } else {
      assert acts + more == (acts + [more[0]]) + more[1..];
      assert (acts + [more[0]])[..|acts|] == acts;
      RunSplit(show, content, acts + [more[0]], more[1..]);
    }
  }

  /** The update prepared for all members covers them, and nothing but the token has changed. */
  lemma {:induction false} PreparesAll(show: Show, s: State)
    requires Ready(s)
    ensures var t := PrepareStep(s, Profiles(s.subs), {}, show);
            && t.outstanding.Some? && Covered(Targets(s.subs), t.outstanding.value)
            && var p := t.outstanding.value;
            && t == s.(outstanding := Some(p), source := t.source)
            && t.source == s.source.(subject := s.source.subject.(nextToken := p.token, inflight := p.token))
            && !p.finished && p.version == p.baseVersion + 1 && p.baseVersion == s.source.subject.version
            && p.generation == s.source.subject.generation
  {
    var profiles := Profiles(s.subs);
    forall k | k in Targets(s.subs) ensures NormalizeProfile(s.subs[k].profile) in NormalizeProfiles(profiles) {
      assert s.subs[k].profile in profiles;
    }
  }

  /** Every active member was moved to a version that holds all there is. */
  ghost predicate Flushed(s: State, t: State, version: nat) {
    && t.op.Idle? && t.subs == Reached(s.subs, Targets(s.subs), version)
    && t.source.writer == s.source.writer && t.source.content == s.source.content
    && t.source.subject.enabled && t.source.subject.version == version
    && t.source.subject.dirty == {} && !t.source.subject.fullDirty
  }

  /** The rest of the flush: admitted, committed, and every target moved on. */
  lemma {:induction false} Delivers(s: State, p: Prepared)
    requires s.op.Idle? && s.outstanding == Some(p) && Covered(Targets(s.subs), p) && !p.finished
    requires s.source.subject.enabled && s.source.subject.inflight == p.token && s.source.subject.version == p.baseVersion
    requires s.source.subject.generation == p.generation
    ensures Flushed(s, FinishStep(CommitStep(AdmitUpdatesStep(DistributeStep(s), true))), p.version)
  {}

  lemma {:induction false} FlushIs(show: Show, s: State)
    ensures RunFrom(show, s, FlushActs(s.subs)) ==
            FinishStep(CommitStep(AdmitUpdatesStep(DistributeStep(PrepareStep(s, Profiles(s.subs), {}, show)), true)))
  {
    var acts := FlushActs(s.subs);
    var s1 := Step(show, s, acts[0]);
    var s2 := Step(show, s1, acts[1]);
    var s3 := Step(show, s2, acts[2]);
    var s4 := Step(show, s3, acts[3]);
    assert RunFrom(show, s4, acts[4..]) == Step(show, s4, acts[4]);
    assert RunFrom(show, s3, acts[3..]) == RunFrom(show, s4, acts[4..]);
    assert RunFrom(show, s2, acts[2..]) == RunFrom(show, s3, acts[3..]);
    assert RunFrom(show, s1, acts[1..]) == RunFrom(show, s2, acts[2..]);
  }

  lemma {:induction false} FlushEffect(show: Show, s: State)
    requires Ready(s)
    ensures Flushed(s, RunFrom(show, s, FlushActs(s.subs)), s.source.subject.version + 1)
  {
    var prepared := PrepareStep(s, Profiles(s.subs), {}, show);
    FlushIs(show, s);
    PreparesAll(show, s);
    Delivers(prepared, prepared.outstanding.value);
  }

  ghost predicate CarefulFrom(show: Show, s: State, acts: seq<Action>)
    decreases |acts|
  {
    acts != [] ==> Careful(show, s, acts[0]) && CarefulFrom(show, Step(show, s, acts[0]), acts[1..])
  }

  lemma {:induction false} CarefulSplit(show: Show, content: Content, acts: seq<Action>, more: seq<Action>)
    requires CarefulRun(show, content, acts) && CarefulFrom(show, Run(show, content, acts), more)
    ensures CarefulRun(show, content, acts + more)
    decreases |more|
  {
    if more == [] {
      assert acts + more == acts;
    } else {
      assert acts + more == (acts + [more[0]]) + more[1..];
      assert (acts + [more[0]])[..|acts|] == acts;
      CarefulSplit(show, content, acts + [more[0]], more[1..]);
    }
  }

  /** The update that a flush admits has just been prepared. */
  lemma {:induction false} SendsUnfinished(show: Show, s: State)
    requires Ready(s)
    ensures var t := DistributeStep(PrepareStep(s, Profiles(s.subs), {}, show)); t.op.Sending? ==> !t.op.update.finished
  {
    PreparesAll(show, s);
  }

  lemma {:induction false} CarefulCons(show: Show, s: State, a: Action, acts: seq<Action>)
    requires Careful(show, s, a) && CarefulFrom(show, Step(show, s, a), acts)
    ensures CarefulFrom(show, s, [a] + acts)
  {
    assert ([a] + acts)[1..] == acts;
  }

  /** Only admitting can be careless. */
  lemma {:induction false} OtherCareful(show: Show, s: State, a: Action, acts: seq<Action>)
    requires a != AdmitUpdates(true) && CarefulFrom(show, Step(show, s, a), acts)
    ensures CarefulFrom(show, s, [a] + acts)
  {
    CarefulCons(show, s, a, acts);
  }

  lemma {:induction false} EndsCareful(show: Show, s: State, a: Action, b: Action)
    requires a != AdmitUpdates(true) && b != AdmitUpdates(true)
    ensures CarefulFrom(show, s, [a] + [b])
  {
    assert [b] + [] == [b];
    OtherCareful(show, Step(show, s, a), b, []);
    OtherCareful(show, s, a, [b]);
  }

  lemma {:induction false} SendCareful(show: Show, s: State, a: Action, b: Action)
    requires (s.op.Sending? ==> !s.op.update.finished) && a != AdmitUpdates(true) && b != AdmitUpdates(true)
    ensures CarefulFrom(show, s, [AdmitUpdates(true)] + ([a] + [b]))
  {
    EndsCareful(show, Step(show, s, AdmitUpdates(true)), a, b);
    CarefulCons(show, s, AdmitUpdates(true), [a] + [b]);
  }

  lemma {:induction false} FlushCareful(show: Show, s: State)
    requires Ready(s)
    ensures CarefulFrom(show, s, FlushActs(s.subs))
  {
    var prepare := EntitySync.Action.PrepareUpdate(Profiles(s.subs), {});
    var sending := [AdmitUpdates(true)] + ([Action.CommitUpdate] + [FinishDistribute]);
    var s1 := Step(show, s, prepare);
    SendsUnfinished(show, s);
    SendCareful(show, Step(show, s1, BeginDistribute), Action.CommitUpdate, FinishDistribute);
    OtherCareful(show, s1, BeginDistribute, sending);
    OtherCareful(show, s, prepare, [BeginDistribute] + sending);
    assert FlushActs(s.subs) == [prepare] + ([BeginDistribute] + sending);
  }

  /** A member after a flush, in any careful run. */
  lemma {:induction false} MemberSettled(show: Show, content: Content, all: seq<Action>, s: State, version: nat, k: Subscriber)
    requires CarefulRun(show, content, all)
    requires Flushed(s, Run(show, content, all), version) && s.source.writer.None? && k in s.subs
    ensures var t := Run(show, content, all);
            && k in t.subs && t.subs[k].profile == s.subs[k].profile && t.subs[k].contentVersion == version
            && k in t.views && t.views[k] == PackSnapshot(show, s.subs[k].profile, s.source.content)
  {
    var t := Run(show, content, all);
    RunKeeps(show, content, all);
    assert !Busy(t.op, k);
    QuietViewsAreExact(show, content, all, k);
    VersionsMatch(show, content, all, k);
  }

  /** After any run, flushing leaves nothing dirty and every member with exactly what its profile shows of the entity. */
  lemma {:induction false} FlushSettles(show: Show, content: Content, acts: seq<Action>, k: Subscriber)
    requires CarefulRun(show, content, acts) && Ready(Run(show, content, acts))
    ensures var s := Run(show, content, acts);
            var t := Run(show, content, acts + FlushActs(s.subs));
            && t.source.content == s.source.content && t.source.subject.version == s.source.subject.version + 1
            && t.source.subject.dirty == {} && !t.source.subject.fullDirty
            && t.subs.Keys == s.subs.Keys
            && (k in s.subs ==>
                  && t.subs[k].profile == s.subs[k].profile && t.subs[k].contentVersion == t.source.subject.version
                  && k in t.views && t.views[k] == PackSnapshot(show, s.subs[k].profile, s.source.content))
  {
    var s := Run(show, content, acts);
    RunSplit(show, content, acts, FlushActs(s.subs));
    FlushEffect(show, s);
    FlushCareful(show, s);
    CarefulSplit(show, content, acts, FlushActs(s.subs));
    if k in s.subs { MemberSettled(show, content, acts + FlushActs(s.subs), s, s.source.subject.version + 1, k); }
  }
}
