/** Who receives a subject's updates: memberships, envelopes and the version each member has reached. */
module Subscriptions {
  import opened Common
  import opened SubjectSync
  import opened IntSets

  type Subscriber = int

  datatype Status = Pending | Active | Closing

  datatype Subscription = Subscription(profile: Profile, status: Status, contentVersion: nat, revision: nat)

  /** The subscriptions of one subject; calls for one subject are serialised. */
  type Subs = map<Subscriber, Subscription>

  datatype Envelope =
    | SnapshotEnvelope(subscriber: Subscriber, version: nat, payload: Payload)
    | DeltaEnvelope(subscriber: Subscriber, baseVersion: nat, version: nat, payload: Payload)
    | LeaveEnvelope(subscriber: Subscriber, version: nat)

  /** The active subscriptions, which a distribution is addressed to. */
  function Targets(subs: Subs): Subs {
    map k | k in subs && subs[k].status == Active :: subs[k]
  }

  predicate Covered(targets: Subs, p: Prepared) {
    forall k :: k in targets ==> NormalizeProfile(targets[k].profile) in p.updates
  }

  function EnvelopeFor(k: Subscriber, subscription: Subscription, p: Prepared): Envelope
    requires NormalizeProfile(subscription.profile) in p.updates
  {
    var payload := p.updates[NormalizeProfile(subscription.profile)];
    if p.full then SnapshotEnvelope(k, p.version, payload) else DeltaEnvelope(k, p.baseVersion, p.version, payload)
  }

  /** One envelope for each target, in the order of the subscribers. */
  ghost predicate BatchFor(batch: seq<Envelope>, targets: Subs, p: Prepared) {
    var keys := Sorted(targets.Keys);
    && |batch| == |keys| && Covered(targets, p)
    && forall i :: 0 <= i < |batch| ==> batch[i] == EnvelopeFor(keys[i], targets[keys[i]], p)
  }

  /** The envelopes of the first n targets. */
  ghost predicate BatchTo(out: seq<Envelope>, keys: seq<Subscriber>, targets: Subs, p: Prepared, n: nat) {
    && |out| == n <= |keys|
    && forall j :: 0 <= j < n ==>
         && keys[j] in targets && NormalizeProfile(targets[keys[j]].profile) in p.updates
         && out[j] == EnvelopeFor(keys[j], targets[keys[j]], p)
  }

  lemma {:induction false} WholeBatch(out: seq<Envelope>, keys: seq<Subscriber>, targets: Subs, p: Prepared)
    requires keys == Sorted(targets.Keys) && BatchTo(out, keys, targets, p, |keys|)
    ensures Covered(targets, p) && BatchFor(out, targets, p)
  {}

  /** Every target that is still the same subscription has now reached the version. */
  function Reached(subs: Subs, targets: Subs, version: nat): Subs {
    map k | k in subs ::
      if k in targets && subs[k].status == Active && subs[k].revision == targets[k].revision
      then subs[k].(contentVersion := version) else subs[k]
  }

  function Rollback(subs: Subs, k: Subscriber, previous: Option<Subscription>): Subs {
    if previous.Some? then subs[k := previous.value] else subs - {k}
  }

  function Find(subs: Subs, k: Subscriber): Option<Subscription> {
    if k in subs then Some(subs[k]) else None
  }

  /** A subscriber that already has this profile needs nothing. */
  predicate AlreadyActive(subs: Subs, k: Subscriber, profile: Profile) {
    k in subs && subs[k].status == Active && subs[k].profile == profile
  }

  // ---- The coordinator, one call at a time ----

  class SubscriptionCoordinator {
    var subscriptions: Subs
    var revision: nat

    constructor ()
      ensures subscriptions == map[] && revision == 0
    {
      subscriptions, revision := map[], 0;
    }

    /**
     * Subscribe: fails says that the snapshot cannot be packed and accepts whether the sink admits the envelope. On any
     * failure the memberships are as they were; on success the member is active at the captured version.
     */
    method Subscribe(k: Subscriber, wanted: Profile, state: SubjectSyncState, content: Content, show: Show, fails: bool,
                     accepts: bool)
      returns (r: Result<Subscription, SyncError>, sent: seq<Envelope>)
      modifies this
      ensures r.Err? ==> subscriptions == old(subscriptions) && sent == []
      ensures r.Ok? && AlreadyActive(old(subscriptions), k, NormalizeProfile(wanted)) ==>
                subscriptions == old(subscriptions) && sent == [] && r.value == old(subscriptions)[k]
      ensures r.Ok? && !AlreadyActive(old(subscriptions), k, NormalizeProfile(wanted)) ==>
                && subscriptions == old(subscriptions)[k := r.value]
                && r.value == Subscription(NormalizeProfile(wanted), Active, state.version, revision) && revision == old(revision) + 1
                && sent == [SnapshotEnvelope(k, state.version, PackSnapshot(show, NormalizeProfile(wanted), content))]
      ensures AlreadyActive(old(subscriptions), k, NormalizeProfile(wanted)) ==> r.Ok?
      ensures !AlreadyActive(old(subscriptions), k, NormalizeProfile(wanted)) ==>
                (r.Ok? <==> state.enabled && state.hasPacker && !fails && accepts)
    {
      var profile := NormalizeProfile(wanted);
      sent := [];
      var existing := Find(subscriptions, k);
      if AlreadyActive(subscriptions, k, profile) {
        return Ok(subscriptions[k]), [];
      }
      revision := revision + 1;
      var pending := Subscription(profile, Pending, 0, revision);
      subscriptions := subscriptions[k := pending];
      if !state.enabled || !state.hasPacker || fails || !accepts {
        subscriptions := Rollback(subscriptions, k, existing);
        var e := if !state.enabled then Closed else if !state.hasPacker then NoPacker else if fails then PackFailed else AdmissionFailed;
        return Err(e), [];
      }
      sent := [SnapshotEnvelope(k, state.version, PackSnapshot(show, profile, content))];
      pending := pending.(status := Active, contentVersion := state.version);
      subscriptions := subscriptions[k := pending];
      return Ok(pending), sent;
    }

    /** Unsubscribe: an admitted leave removes the member; a refused one leaves it active at the same version. */
    method Unsubscribe(k: Subscriber, accepts: bool) returns (e: Option<SyncError>, sent: seq<Envelope>)
      modifies this
      ensures e == if k !in old(subscriptions) then Some(NotFound)
                   else if old(subscriptions)[k].status != Active then Some(BadState)
                   else if accepts then None else Some(AdmissionFailed)
      ensures e.None? ==> subscriptions == old(subscriptions) - {k} && sent == [LeaveEnvelope(k, old(subscriptions)[k].contentVersion)]
      ensures e == Some(AdmissionFailed) ==>
                subscriptions == old(subscriptions)[k := old(subscriptions)[k].(revision := revision)] && sent == []
      ensures e == Some(NotFound) || e == Some(BadState) ==> subscriptions == old(subscriptions) && sent == []
    {
      sent := [];
      if k !in subscriptions {
        return Some(NotFound), [];
      }
      var current := subscriptions[k];
      if current.status != Active {
        return Some(BadState), [];
      }
      revision := revision + 1;
      current := current.(status := Closing, revision := revision);
      subscriptions := subscriptions[k := current];
      if !accepts {
        subscriptions := subscriptions[k := current.(status := Active)];
        return Some(AdmissionFailed), [];
      }
      sent := [LeaveEnvelope(k, current.contentVersion)];
      subscriptions := subscriptions - {k};
      return None, sent;
    }

    /** One envelope for each target, or nothing when a target's profile was not prepared. */
    method BuildBatch(targets: Subs, p: Prepared) returns (batch: Option<seq<Envelope>>)
      ensures batch.Some? <==> Covered(targets, p)
      ensures batch.Some? ==> BatchFor(batch.value, targets, p)
    {
      var keys := Sorted(targets.Keys);
      var out: seq<Envelope> := [];
      for i := 0 to |keys|
        invariant BatchTo(out, keys, targets, p, i)
      {
        assert keys[i] in keys;
        if NormalizeProfile(targets[keys[i]].profile) !in p.updates {
          return None;
        }
        out := out + [EnvelopeFor(keys[i], targets[keys[i]], p)];
      }
      WholeBatch(out, keys, targets, p);
      return Some(out);
    }

    /** Distribute: admit the whole batch first, commit the content, then move every target to the new version. */
    method Distribute(p: PreparedSubjectSync, accepts: bool) returns (e: Option<SyncError>, sent: seq<Envelope>)
      modifies this, p, p.state
      ensures revision == old(revision)
      ensures var targets := Targets(old(subscriptions));
              && (old(p.View()).updates == map[] ==> e == Some(NoUpdates) && sent == [])
              && (old(p.View()).updates != map[] ==>
                    && (!Covered(targets, old(p.View())) ==> e == Some(ProfilesMissing) && sent == [])
                    && (Covered(targets, old(p.View())) && targets.Keys != {} && !accepts ==>
                          e == Some(AdmissionFailed) && sent == [])
                    && (Covered(targets, old(p.View())) && (targets.Keys == {} || accepts) ==>
                          && BatchFor(sent, targets, old(p.View()))
                          && (p.state.View(), e) == Commit(old(p.state.View()), old(p.View()))))
              && (e == Some(NoUpdates) || e == Some(ProfilesMissing) || e == Some(AdmissionFailed) ==>
                    p.state.View() == Abort(old(p.state.View()), old(p.View())).0)
              && subscriptions == if e.None? then Reached(old(subscriptions), targets, old(p.View()).version) else old(subscriptions)
    {
      var targets := Targets(subscriptions);
      sent := [];
      if p.content.updates == map[] {
        var _ := p.AbortUpdate();
        return Some(NoUpdates), [];
      }
      var batch := BuildBatch(targets, p.content);
      if batch.None? {
        var _ := p.AbortUpdate();
        return Some(ProfilesMissing), [];
      }
      if |batch.value| > 0 && !accepts {
        var _ := p.AbortUpdate();
        return Some(AdmissionFailed), [];
      }
      sent := batch.value;
      e := p.CommitUpdate();
      if e.None? {
        AdvanceVersions(targets, p.content.version);
      }
    }

    method AdvanceVersions(targets: Subs, version: nat)
      modifies `subscriptions
      ensures subscriptions == Reached(old(subscriptions), targets, version)
    {
      var keys := Sorted(targets.Keys);
      ghost var done: set<Subscriber> := {};
      for i := 0 to |keys|
        invariant done == set j | 0 <= j < i :: keys[j]
        invariant Advanced(old(subscriptions), targets, version, done, subscriptions)
      {
        var k := keys[i];
        if k in subscriptions && subscriptions[k].status == Active && subscriptions[k].revision == targets[k].revision {
          subscriptions := subscriptions[k := subscriptions[k].(contentVersion := version)];
        }
        done := done + {k};
      }
      assert done == targets.Keys;
      AllAdvanced(old(subscriptions), targets, version, subscriptions);
    }
  }

  /** The targets in done have been moved to the version, the others not yet. */
  ghost predicate Advanced(before: Subs, targets: Subs, version: nat, done: set<Subscriber>, now: Subs) {
    && now.Keys == before.Keys
    && forall k :: k in now ==> now[k] == if k in done then Reached(before, targets, version)[k] else before[k]
  }

  lemma AllAdvanced(before: Subs, targets: Subs, version: nat, now: Subs)
    requires Advanced(before, targets, version, targets.Keys, now)
    ensures now == Reached(before, targets, version)
  {
    var goal := Reached(before, targets, version);
    assert goal.Keys == before.Keys;
    forall k | k in now ensures now[k] == goal[k] {}
  }
}
