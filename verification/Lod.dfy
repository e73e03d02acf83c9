/** Level-of-detail projection: which components a client sees, and how often a rate-limited one is refreshed. */
module Lod {
  import opened Common
  import opened ReplicationTypes
  import opened Arithmetic

  const MAX_LEVEL: u8 := 7
  const CULLED: u8 := 255
  const COSMETIC: u8 := 1
  const CRITICAL: u8 := 5

  datatype Policy = Policy(priority: u8, maxRateHz: u8)

  datatype Decision = Decision(level: u8, minPriority: u8, maxRateHz: u8)

  datatype LodError = InvalidLod | SelectorFailed

  /** levels gives, for each component type with a policy, the levels it is present at; an empty set means all. */
  datatype Projector = Projector(registry: map<u16, Policy>, levels: map<u16, set<u8>>, snapshotRateHz: u8, alwaysFresh: u8)

  predicate Includes(levels: set<u8>, level: u8) {
    level <= MAX_LEVEL && (levels == {} || level in levels)
  }

  predicate ValidDecision(d: Decision) {
    (d.level == CULLED || d.level <= MAX_LEVEL) && (d.minPriority == 0 || COSMETIC <= d.minPriority <= CRITICAL)
  }

  // ---- Rates ----

  /** The rate a component is limited to; zero means unlimited. */
  function EffectiveRate(p: Projector, policy: Policy, d: Decision): u8 {
    if policy.priority < p.alwaysFresh && d.maxRateHz != 0 && (policy.maxRateHz == 0 || d.maxRateHz < policy.maxRateHz)
    then d.maxRateHz else policy.maxRateHz
  }

  function Interval(rateHz: nat, rate: nat): nat
    requires rate > 0
  {
    (rateHz + rate - 1) / rate
  }

  predicate RefreshDue(p: Projector, tick: u32, policy: Policy, d: Decision) {
    var rate := EffectiveRate(p, policy, d);
    rate == 0 || rate >= p.snapshotRateHz
    || (IntervalPositive(p.snapshotRateHz as int, rate as int); tick % Interval(p.snapshotRateHz as int, rate as int) == 0)
  }

  /** Enough intervals cover a whole second of snapshots. */
  lemma {:induction false} IntervalPositive(rateHz: nat, rate: nat)
    requires rate > 0 && rateHz > 0
    ensures Interval(rateHz, rate) > 0 && rateHz <= rate * Interval(rateHz, rate)
  {}

  /** How many of the n ticks from start are multiples of k. */
  function DueCount(start: nat, n: nat, k: nat): nat
    requires k > 0
  {
    if n == 0 then 0 else DueCount(start, n - 1, k) + (if (start + n - 1) % k == 0 then 1 else 0)
  }

  lemma {:induction false} DueSplit(start: nat, m: nat, n: nat, k: nat)
    requires k > 0
    ensures DueCount(start, m + n, k) == DueCount(start, m, k) + DueCount(start + m, n, k)
  {
    if n > 0 { DueSplit(start, m, n - 1, k); }
  }

  /** Multiples of k lie at least k apart. */
  lemma {:induction false} MultiplesApart(a: nat, b: nat, k: nat)
    requires k > 0 && a % k == 0 && b % k == 0 && a < b
    ensures b - a >= k
  {
    MulOrder(a / k, b / k, k);
    assert a == a / k * k && b == b / k * k;
    if a / k >= b / k { MulOrder(b / k, a / k, k); }
  }

  lemma {:induction false} NoneBefore(start: nat, n: nat, k: nat, b: nat)
    requires k > 0 && b % k == 0 && start + n <= b && b < start + k
    ensures DueCount(start, n, k) == 0
  {
    if n > 0 {
      NoneBefore(start, n - 1, k, b);
      if (start + n - 1) % k == 0 { MultiplesApart(start + n - 1, b, k); }
    }
  }

  /** Within k ticks there is at most one. */
  lemma {:induction false} AtMostOne(start: nat, n: nat, k: nat)
    requires k > 0 && n <= k
    ensures DueCount(start, n, k) <= 1
  {
    if n > 0 {
      AtMostOne(start, n - 1, k);
      if (start + n - 1) % k == 0 { NoneBefore(start, n - 1, k, start + n - 1); }
    }
  }

  lemma {:induction false} AtMostPerInterval(start: nat, n: nat, k: nat, m: nat)
    requires k > 0 && n <= m * k
    ensures DueCount(start, n, k) <= m
    decreases m
  {
    if n <= k { AtMostOne(start, n, k); if m == 0 { assert n == 0; } }
    else {
      assert (m - 1) * k == m * k - k;
      DueSplit(start, k, n - k, k);
      AtMostOne(start, k, k);
      AtMostPerInterval(start + k, n - k, k, m - 1);
    }
  }

  /** In any second's worth of consecutive ticks a limited component is due at most as often as its rate allows. */
  lemma {:induction false} DueWithinRate(p: Projector, policy: Policy, d: Decision, start: nat)
    requires var rate := EffectiveRate(p, policy, d); 0 < rate < p.snapshotRateHz
    ensures var rate := EffectiveRate(p, policy, d) as int;
            && Interval(p.snapshotRateHz as int, rate) > 0
            && DueCount(start, p.snapshotRateHz as int, Interval(p.snapshotRateHz as int, rate)) <= rate
  {
    var (rate, hz) := (EffectiveRate(p, policy, d) as int, p.snapshotRateHz as int);
    IntervalPositive(hz, rate);
    AtMostPerInterval(start, hz, Interval(hz, rate), rate);
  }

  // ---- Projection ----

  /** The objects of the snapshot sent before, by reference, when it is comparable. */
  function PreviousObjects(previous: Option<Snapshot>, current: SnapshotMeta): map<ObjectRef, ObjectState> {
    if previous.None? || previous.value.meta.roomID != current.roomID || previous.value.meta.epoch != current.epoch
       || previous.value.meta.schemaVersion != current.schemaVersion
    then map[] else ByRef(previous.value.objects)
  }

  function ByRef(objects: seq<ObjectState>): map<ObjectRef, ObjectState> {
    if objects == [] then map[] else ByRef(objects[..|objects| - 1])[objects[|objects| - 1].ref := objects[|objects| - 1]]
  }

  function FindComponent(cs: seq<ComponentState>, typeID: u16): Option<ComponentState> {
    if cs == [] then None else if cs[0].typeID == typeID then Some(cs[0]) else FindComponent(cs[1..], typeID)
  }

  /** Left out at this level, or below the priority asked for. Types the registry does not know are never left out. */
  predicate Omitted(p: Projector, typeID: u16, d: Decision) {
    && typeID in p.registry
    && (!Includes(if typeID in p.levels then p.levels[typeID] else {}, d.level)
        || (d.minPriority != 0 && p.registry[typeID].priority < d.minPriority))
  }

  /** There is an earlier value of the same object, archetype and schema version to go on with. */
  predicate Continues(before: Option<ObjectState>, o: ObjectState, c: ComponentState) {
    && before.Some? && before.value.archetype == o.archetype
    && FindComponent(before.value.components, c.typeID).Some?
    && FindComponent(before.value.components, c.typeID).value.schemaVersion == c.schemaVersion
  }

  /** The earlier value is kept when a refresh is not due and the object and schema are the same. */
  function Select(p: Projector, tick: u32, full: bool, before: Option<ObjectState>, o: ObjectState, c: ComponentState, d: Decision)
    : ComponentState
  {
    if c.typeID in p.registry && !full && before.Some? && before.value.archetype == o.archetype
       && !RefreshDue(p, tick, p.registry[c.typeID], d)
    then
      var held := FindComponent(before.value.components, c.typeID);
      if held.Some? && held.value.schemaVersion == c.schemaVersion then held.value else c
    else c
  }

  /** The component as it is shown, if it is. */
  function Chosen(p: Projector, tick: u32, full: bool, before: Option<ObjectState>, o: ObjectState, c: ComponentState, d: Decision)
    : seq<ComponentState>
  {
    if Omitted(p, c.typeID, d) then [] else [Select(p, tick, full, before, o, c, d)]
  }

  function ProjectComponents(p: Projector, tick: u32, full: bool, before: Option<ObjectState>, o: ObjectState, cs: seq<ComponentState>,
                             d: Decision): seq<ComponentState>
  {
    if cs == [] then [] else Chosen(p, tick, full, before, o, cs[0], d) + ProjectComponents(p, tick, full, before, o, cs[1..], d)
  }

  function ProjectObject(p: Projector, tick: u32, full: bool, before: Option<ObjectState>, o: ObjectState, d: Decision): ObjectState {
    ObjectState(o.ref, o.archetype, ProjectComponents(p, tick, full, before, o, o.components, d))
  }

  /** What the application's selector decides for each object. */
  type Selector = ObjectState -> Result<Decision, LodError>

  /** One object: an error, or the object as it is shown, if it is. */
  function ProjectFirst(p: Projector, tick: u32, full: bool, previous: map<ObjectRef, ObjectState>, o: ObjectState, select: Selector)
    : Result<seq<ObjectState>, LodError>
  {
    match select(o)
    case Err(e) => Err(e)
    case Ok(d) =>
      if !ValidDecision(d) then Err(InvalidLod)
      else if d.level == CULLED then Ok([])
      else Ok([ProjectObject(p, tick, full, if o.ref in previous then Some(previous[o.ref]) else None, o, d)])
  }

  function ProjectObjects(p: Projector, tick: u32, full: bool, previous: map<ObjectRef, ObjectState>, os: seq<ObjectState>,
                          select: Selector): Result<seq<ObjectState>, LodError>
  {
    if os == [] then Ok([])
    else
      match ProjectFirst(p, tick, full, previous, os[0], select)
      case Err(e) => Err(e)
      case Ok(first) =>
        match ProjectObjects(p, tick, full, previous, os[1..], select)
        case Err(e) => Err(e)
        case Ok(rest) => Ok(first + rest)
  }

  function Project(p: Projector, full: bool, previous: Option<Snapshot>, s: Snapshot, select: Selector): Result<Snapshot, LodError> {
    match ProjectObjects(p, s.meta.tick, full, PreviousObjects(previous, s.meta), s.objects, select)
    case Err(e) => Err(e)
    case Ok(objects) => Ok(Snapshot(s.meta, objects))
  }

  // ---- The loops ----

  lemma {:induction false} OneMore(p: Projector, tick: u32, full: bool, before: Option<ObjectState>, o: ObjectState,
                                   cs: seq<ComponentState>, d: Decision, i: nat, out: seq<ComponentState>)
    requires i < |cs|
    ensures out + ProjectComponents(p, tick, full, before, o, cs[i..], d)
            == out + Chosen(p, tick, full, before, o, cs[i], d) + ProjectComponents(p, tick, full, before, o, cs[i + 1..], d)
  {}

  method ChooseComponent(p: Projector, tick: u32, full: bool, before: Option<ObjectState>, o: ObjectState, c: ComponentState, d: Decision)
    returns (out: seq<ComponentState>)
    ensures out == Chosen(p, tick, full, before, o, c, d)
  {
    if Omitted(p, c.typeID, d) {
      return [];
    }
    var selected := c;
    if c.typeID in p.registry && !full && before.Some? && before.value.archetype == o.archetype
       && !RefreshDue(p, tick, p.registry[c.typeID], d) {
      var held := FindComponent(before.value.components, c.typeID);
      if held.Some? && held.value.schemaVersion == c.schemaVersion {
        selected := held.value;
      }
    }
    return [selected];
  }

  method ProjectComponentLoop(p: Projector, tick: u32, full: bool, before: Option<ObjectState>, o: ObjectState, d: Decision)
    returns (out: seq<ComponentState>)
    ensures out == ProjectComponents(p, tick, full, before, o, o.components, d)
  {
    out := [];
    assert o.components[0..] == o.components;
    for i := 0 to |o.components|
      invariant out + ProjectComponents(p, tick, full, before, o, o.components[i..], d)
                == ProjectComponents(p, tick, full, before, o, o.components, d)
    {
      OneMore(p, tick, full, before, o, o.components, d, i, out);
      var chosen := ChooseComponent(p, tick, full, before, o, o.components[i], d);
      out := out + chosen;
    }
  }

  method IndexByRef(objects: seq<ObjectState>) returns (m: map<ObjectRef, ObjectState>)
    ensures m == ByRef(objects)
  {
    m := map[];
    for i := 0 to |objects|
      invariant m == ByRef(objects[..i])
    {
      assert objects[..i + 1][..i] == objects[..i];
      m := m[objects[i].ref := objects[i]];
    }
    assert objects[..|objects|] == objects;
  }

  /** A result with a sequence put in front of it. */
  function Prefixed(out: seq<ObjectState>, r: Result<seq<ObjectState>, LodError>): Result<seq<ObjectState>, LodError> {
    match r
    case Err(e) => Err(e)
    case Ok(rest) => Ok(out + rest)
  }

  /** One object of the projection: an error, or the object as it is shown, if it is. */
  method ProjectOne(p: Projector, tick: u32, full: bool, previous: map<ObjectRef, ObjectState>, o: ObjectState, select: Selector)
    returns (r: Result<seq<ObjectState>, LodError>)
    ensures r == ProjectFirst(p, tick, full, previous, o, select)
  {
    var decided := select(o);
    if decided.Err? {
      return Err(decided.error);
    }
    if !ValidDecision(decided.value) {
      return Err(InvalidLod);
    }
    if decided.value.level == CULLED {
      return Ok([]);
    }
    var before := if o.ref in previous then Some(previous[o.ref]) else None;
    var components := ProjectComponentLoop(p, tick, full, before, o, decided.value);
    return Ok([ObjectState(o.ref, o.archetype, components)]);
  }

  lemma {:induction false} OneMoreObject(p: Projector, tick: u32, full: bool, previous: map<ObjectRef, ObjectState>,
                                         os: seq<ObjectState>, select: Selector, i: nat, out: seq<ObjectState>)
    requires i < |os|
    ensures var (first, rest) := (ProjectFirst(p, tick, full, previous, os[i], select),
                                  ProjectObjects(p, tick, full, previous, os[i + 1..], select));
            Prefixed(out, ProjectObjects(p, tick, full, previous, os[i..], select))
            == if first.Err? then Err(first.error) else Prefixed(out + first.value, rest)
  {
    assert os[i..][1..] == os[i + 1..];
    var (first, rest) := (ProjectFirst(p, tick, full, previous, os[i], select),
                          ProjectObjects(p, tick, full, previous, os[i + 1..], select));
    if first.Ok? && rest.Ok? { assert out + (first.value + rest.value) == out + first.value + rest.value; }
  }

  /** The projection after the upstream projector; the first error met is the one returned. */
  method ProjectLoop(p: Projector, full: bool, previous: Option<Snapshot>, s: Snapshot, select: Selector)
    returns (r: Result<Snapshot, LodError>)
    ensures r == Project(p, full, previous, s, select)
  {
    var index: map<ObjectRef, ObjectState> := map[];
    if previous.Some? && previous.value.meta.roomID == s.meta.roomID && previous.value.meta.epoch == s.meta.epoch
       && previous.value.meta.schemaVersion == s.meta.schemaVersion {
      index := IndexByRef(previous.value.objects);
    }
    ghost var goal := ProjectObjects(p, s.meta.tick, full, index, s.objects, select);
    var out: seq<ObjectState> := [];
    assert s.objects[0..] == s.objects && (goal.Ok? ==> [] + goal.value == goal.value);
    for i := 0 to |s.objects|
      invariant Prefixed(out, ProjectObjects(p, s.meta.tick, full, index, s.objects[i..], select)) == goal
    {
      OneMoreObject(p, s.meta.tick, full, index, s.objects, select, i, out);
      var one := ProjectOne(p, s.meta.tick, full, index, s.objects[i], select);
      if one.Err? {
        return Err(one.error);
      }
      out := out + one.value;
    }
    assert out + [] == out;
    return Ok(Snapshot(s.meta, out));
  }

  // ---- What is shown of one component ----

  /** What the client sees of a component type after projecting: the selected value of the object's own component. */
  lemma {:induction false} FindProjected(p: Projector, tick: u32, full: bool, before: Option<ObjectState>, o: ObjectState,
                                         cs: seq<ComponentState>, d: Decision, typeID: u16)
    ensures var found := FindComponent(ProjectComponents(p, tick, full, before, o, cs, d), typeID);
            found == if Omitted(p, typeID, d) || FindComponent(cs, typeID).None? then None
                     else Some(Select(p, tick, full, before, o, FindComponent(cs, typeID).value, d))
  {
    if cs != [] {
      FindProjected(p, tick, full, before, o, cs[1..], d, typeID);
      var rest := ProjectComponents(p, tick, full, before, o, cs[1..], d);
      if Omitted(p, cs[0].typeID, d) {
        assert [] + rest == rest;
      } else {
        var first := Select(p, tick, full, before, o, cs[0], d);
        SelectedType(p, tick, full, before, o, cs[0], d);
        FindHead(first, rest, typeID);
      }
    }
  }

  lemma {:induction false} FindHead(first: ComponentState, rest: seq<ComponentState>, typeID: u16)
    ensures FindComponent([first] + rest, typeID) == if first.typeID == typeID then Some(first) else FindComponent(rest, typeID)
  {}

  lemma {:induction false} FoundType(cs: seq<ComponentState>, typeID: u16)
    ensures FindComponent(cs, typeID).Some? ==> FindComponent(cs, typeID).value.typeID == typeID
  {
    if cs != [] { FoundType(cs[1..], typeID); }
  }

  lemma {:induction false} SelectedType(p: Projector, tick: u32, full: bool, before: Option<ObjectState>, o: ObjectState,
                                        c: ComponentState, d: Decision)
    ensures Select(p, tick, full, before, o, c, d).typeID == c.typeID
  {
    if before.Some? { FoundType(before.value.components, c.typeID); }
  }
}
