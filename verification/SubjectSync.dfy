/** The content side of entity sync: dirty marks, a content version, and updates that are prepared first and committed later. */
module SubjectSync {
  import opened Common

  type Field = nat
  type Content = map<Field, int>
  type Payload = map<Field, int>

  datatype Profile = Profile(key: string, lod: u8, schemaVersion: u32)

  /** How a profile shows a field's value; a hidden field is shown as a constant. */
  type Show = (Profile, Field, int) -> int

  datatype SyncError =
    | Closed
    | NotDirty
    | InFlight
    | NoPacker
    | PackFailed
    | StalePrepare
    | Finished
    | AdmissionFailed
    | NoUpdates
    | ProfilesMissing
    | NotFound
    | BadState

  const REASON_NONE := 0
  const REASON_DIRTY := 1

  /** Dirty fields are a set of bits; fullDirty stands for all of them. */
  datatype Subject = Subject(
    enabled: bool,
    version: nat,
    dirty: set<Field>,
    fullDirty: bool,
    fullReason: nat,
    generation: nat,
    hasPacker: bool,
    nextToken: nat,
    inflight: nat)

  /** A captured update for every requested profile; a full one carries whole snapshots. */
  datatype Prepared = Prepared(
    token: nat,
    generation: nat,
    baseVersion: nat,
    version: nat,
    mask: set<Field>,
    full: bool,
    updates: map<Profile, Payload>,
    finished: bool)

  function NewSubject(hasPacker: bool): Subject {
    Subject(true, 0, {}, false, REASON_NONE, 0, hasPacker, 0, 0)
  }

  function NormalizeProfile(p: Profile): Profile {
    if p.key == "" then p.(key := "default") else p
  }

  function NormalizeProfiles(ps: set<Profile>): set<Profile> {
    if ps == {} then {Profile("default", 0, 0)} else set p | p in ps :: NormalizeProfile(p)
  }

  function PackSnapshot(show: Show, profile: Profile, content: Content): Payload {
    map f | f in content :: show(profile, f, content[f])
  }

  function PackDelta(show: Show, profile: Profile, content: Content, mask: set<Field>): Payload {
    map f | f in content && f in mask :: show(profile, f, content[f])
  }

  function Pack(show: Show, profile: Profile, content: Content, mask: set<Field>, full: bool): Payload {
    if full then PackSnapshot(show, profile, content) else PackDelta(show, profile, content, mask)
  }

  function MarkDirty(s: Subject, mask: set<Field>): Subject {
    if mask == {} || !s.enabled then s else s.(dirty := s.dirty + mask, generation := s.generation + 1)
  }

  function MarkFullDirty(s: Subject, reason: nat): Subject {
    if !s.enabled then s
    else s.(fullDirty := true, fullReason := if reason == REASON_NONE then REASON_DIRTY else reason, dirty := {},
            generation := s.generation + 1)
  }

  /** Why a prepare is refused before anything is packed. */
  function PrepareError(s: Subject): Option<SyncError> {
    if !s.enabled then Some(Closed)
    else if s.inflight != 0 then Some(InFlight)
    else if s.dirty == {} && !s.fullDirty then Some(NotDirty)
    else if !s.hasPacker then Some(NoPacker)
    else None
  }

  /** Captures one content version for each profile; fails names the profiles whose packing fails this time. */
  function Prepare(s: Subject, content: Content, profiles: set<Profile>, show: Show, fails: set<Profile>)
    : (Subject, Result<Prepared, SyncError>)
  {
    var e := PrepareError(s);
    if e.Some? then (s, Err(e.value))
    else
      var token := s.nextToken + 1;
      var wanted := NormalizeProfiles(profiles);
      if wanted * fails != {} then (s.(nextToken := token, inflight := 0), Err(PackFailed))
      else
        (s.(nextToken := token, inflight := token),
         Ok(Prepared(token, s.generation, s.version, s.version + 1, s.dirty, s.fullDirty,
                     map p | p in wanted :: Pack(show, p, content, s.dirty, s.fullDirty), false)))
  }

  /** A prepared update is finished by its first commit or abort; later ones only report it. */
  function Commit(s: Subject, p: Prepared): (Subject, Option<SyncError>) {
    if p.finished then (s, Some(Finished))
    else if !s.enabled || s.inflight != p.token || s.version != p.baseVersion then
      (if s.inflight == p.token then s.(inflight := 0) else s, Some(StalePrepare))
    else
      var advanced := s.(version := p.version, inflight := 0);
      (if s.generation == p.generation then advanced.(dirty := {}, fullDirty := false, fullReason := REASON_NONE) else advanced,
       None)
  }

  function Abort(s: Subject, p: Prepared): (Subject, Option<SyncError>) {
    if p.finished then (s, Some(Finished))
    else if s.inflight != p.token then (s, Some(StalePrepare))
    else (s.(inflight := 0), None)
  }

  function Close(s: Subject): Subject {
    s.(enabled := false, dirty := {}, fullDirty := false, fullReason := REASON_NONE, inflight := 0, hasPacker := false)
  }

  // ---- The state as it is updated in place ----

  class SubjectSyncState {
    var enabled: bool
    var version: nat
    var dirtyMask: set<Field>
    var fullDirty: bool
    var fullReason: nat
    var dirtyGeneration: nat
    var hasPacker: bool
    var nextToken: nat
    var inflightToken: nat

    ghost function View(): Subject
      reads this
    {
      Subject(enabled, version, dirtyMask, fullDirty, fullReason, dirtyGeneration, hasPacker, nextToken, inflightToken)
    }

    constructor (withPacker: bool)
      ensures View() == NewSubject(withPacker)
    {
      enabled, version, dirtyMask, fullDirty, fullReason := true, 0, {}, false, REASON_NONE;
      dirtyGeneration, hasPacker, nextToken, inflightToken := 0, withPacker, 0, 0;
    }

    method Mark(mask: set<Field>)
      modifies this
      ensures View() == MarkDirty(old(View()), mask)
    {
      if mask != {} && enabled {
        dirtyMask := dirtyMask + mask;
        dirtyGeneration := dirtyGeneration + 1;
      }
    }

    method MarkFull(reason: nat)
      modifies this
      ensures View() == MarkFullDirty(old(View()), reason)
    {
      if enabled {
        fullDirty := true;
        fullReason := if reason == REASON_NONE then REASON_DIRTY else reason;
        dirtyMask := {};
        dirtyGeneration := dirtyGeneration + 1;
      }
    }

    /** Packs each profile in turn and stops at the first one that fails. */
    static method PackAll(content: Content, profiles: set<Profile>, mask: set<Field>, full: bool, show: Show, fails: set<Profile>)
      returns (updates: Option<map<Profile, Payload>>)
      ensures updates == if profiles * fails != {} then None
                         else Some(map p | p in profiles :: Pack(show, p, content, mask, full))
    {
      var rest, done := profiles, map[];
      while rest != {}
        invariant rest <= profiles && (profiles - rest) * fails == {}
        invariant done == map p | p in profiles - rest :: Pack(show, p, content, mask, full)
        decreases |rest|
      {
        var p :| p in rest;
        if p in fails {
          assert p in profiles * fails;
          return None;
        }
        done := done[p := Pack(show, p, content, mask, full)];
        rest := rest - {p};
      }
      assert profiles - rest == profiles;
      return Some(done);
    }

    method PrepareUpdate(content: Content, profiles: set<Profile>, show: Show, fails: set<Profile>)
      returns (r: Result<Prepared, SyncError>)
      modifies this
      ensures (View(), r) == Prepare(old(View()), content, profiles, show, fails)
    {
      if !enabled {
        return Err(Closed);
      }
      if inflightToken != 0 {
        return Err(InFlight);
      }
      if dirtyMask == {} && !fullDirty {
        return Err(NotDirty);
      }
      if !hasPacker {
        return Err(NoPacker);
      }
      nextToken := nextToken + 1;
      inflightToken := nextToken;
      var updates := PackAll(content, NormalizeProfiles(profiles), dirtyMask, fullDirty, show, fails);
      if updates.None? {
        inflightToken := 0;
        return Err(PackFailed);
      }
      return Ok(Prepared(nextToken, dirtyGeneration, version, version + 1, dirtyMask, fullDirty, updates.value, false));
    }

    method CloseState()
      modifies this
      ensures View() == Close(old(View()))
    {
      enabled, dirtyMask, fullDirty, fullReason := false, {}, false, REASON_NONE;
      inflightToken, hasPacker := 0, false;
    }
  }

  class PreparedSubjectSync {
    const state: SubjectSyncState
    const content: Prepared
    var finished: bool

    ghost function View(): Prepared
      reads this
    {
      content.(finished := finished)
    }

    constructor (state: SubjectSyncState, content: Prepared)
      ensures this.state == state && View() == content.(finished := false)
    {
      this.state, this.content, finished := state, content, false;
    }

    method CommitUpdate() returns (e: Option<SyncError>)
      modifies this, state
      ensures (state.View(), e) == Commit(old(state.View()), old(View())) && View() == old(View()).(finished := true)
    {
      if finished {
        return Some(Finished);
      }
      finished := true;
      if !state.enabled || state.inflightToken != content.token || state.version != content.baseVersion {
        if state.inflightToken == content.token {
          state.inflightToken := 0;
        }
        return Some(StalePrepare);
      }
      state.version := content.version;
      if state.dirtyGeneration == content.generation {
        state.dirtyMask := {};
        state.fullDirty := false;
        state.fullReason := REASON_NONE;
      }
      state.inflightToken := 0;
      return None;
    }

    method AbortUpdate() returns (e: Option<SyncError>)
      modifies this, state
      ensures (state.View(), e) == Abort(old(state.View()), old(View())) && View() == old(View()).(finished := true)
    {
      if finished {
        return Some(Finished);
      }
      finished := true;
      if state.inflightToken != content.token {
        return Some(StalePrepare);
      }
      state.inflightToken := 0;
      return None;
    }
  }
}
