/** Differences between snapshots: building them, applying them, and what they mean. */
module Deltas {
  import opened Common
  import opened Ordered
  import opened ReplicationTypes
  import opened Snapshots

  // ---- Building ----

  function SetDelta(c: ComponentState): ComponentDelta {
    ComponentDelta(COMPONENT_SET, c.typeID, c.schemaVersion, c.data)
  }

  function RemoveComponentDelta(typeID: u16): ComponentDelta {
    ComponentDelta(COMPONENT_REMOVE, typeID, 0, [])
  }

  function SetDeltas(cs: seq<ComponentState>): seq<ComponentDelta> {
    if cs == [] then [] else [SetDelta(cs[0])] + SetDeltas(cs[1..])
  }

  function CreateDelta(o: ObjectState): ObjectDelta {
    ObjectDelta(OBJECT_CREATE, o.ref, o.archetype, SetDeltas(o.components))
  }

  function RemoveDelta(ref: ObjectRef): ObjectDelta {
    ObjectDelta(OBJECT_REMOVE, ref, 0, [])
  }

  function CreateDeltas(objects: seq<ObjectState>): seq<ObjectDelta> {
    if objects == [] then [] else [CreateDelta(objects[0])] + CreateDeltas(objects[1..])
  }

  function DiffComponents(base: seq<ComponentState>, current: seq<ComponentState>): seq<ComponentDelta>
    decreases |base| + |current|
  {
    if base == [] && current == [] then []
    else if base == [] then [SetDelta(current[0])] + DiffComponents(base, current[1..])
    else if current == [] then [RemoveComponentDelta(base[0].typeID)] + DiffComponents(base[1..], current)
    else if base[0].typeID < current[0].typeID then
      [RemoveComponentDelta(base[0].typeID)] + DiffComponents(base[1..], current)
    else if current[0].typeID < base[0].typeID then
      [SetDelta(current[0])] + DiffComponents(base, current[1..])
    else if base[0].schemaVersion != current[0].schemaVersion || base[0].data != current[0].data then
      [SetDelta(current[0])] + DiffComponents(base[1..], current[1..])
    else DiffComponents(base[1..], current[1..])
  }

  /** The delta for two states of one object, when they differ. */
  function DiffObject(base: ObjectState, current: ObjectState): seq<ObjectDelta> {
    if base.archetype != current.archetype then [CreateDelta(current)]
    else
      var components := DiffComponents(base.components, current.components);
      if |components| > 0 then [ObjectDelta(OBJECT_UPDATE, current.ref, current.archetype, components)] else []
  }

  function DiffObjects(base: seq<ObjectState>, current: seq<ObjectState>): seq<ObjectDelta>
    decreases |base| + |current|
  {
    if base == [] && current == [] then []
    else if base == [] then [CreateDelta(current[0])] + DiffObjects(base, current[1..])
    else if current == [] then [RemoveDelta(base[0].ref)] + DiffObjects(base[1..], current)
    else if base[0].ref.Less(current[0].ref) then [RemoveDelta(base[0].ref)] + DiffObjects(base[1..], current)
    else if current[0].ref.Less(base[0].ref) then [CreateDelta(current[0])] + DiffObjects(base, current[1..])
    else DiffObject(base[0], current[0]) + DiffObjects(base[1..], current[1..])
  }

  predicate Compatible(base: Snapshot, current: SnapshotMeta) {
    && base.meta.roomID == current.roomID
    && base.meta.epoch == current.epoch
    && base.meta.schemaVersion == current.schemaVersion
  }

  function BuildDelta(base: Option<Snapshot>, current: Snapshot): Result<DeltaFrame, Error> {
    if !current.meta.Valid() then Err(InvalidFrame)
    else if base.None? then Ok(DeltaFrame(current.meta, FRAME_FULL, 0, CreateDeltas(current.objects)))
    else if !Compatible(base.value, current.meta) || base.value.meta.tick >= current.meta.tick then Err(BaselineMismatch)
    else Ok(DeltaFrame(current.meta, FRAME_DELTA, base.value.meta.tick, DiffObjects(base.value.objects, current.objects)))
  }

  // ---- Applying ----

  function ApplyComponent(m: map<u16, ComponentState>, d: ComponentDelta, limits: Limits): Result<map<u16, ComponentState>, Error> {
    if d.typeID == 0 then Err(InvalidFrame)
    else if d.operation == COMPONENT_SET then
      if d.schemaVersion == 0 || |d.data| > limits.maxComponentBytes then Err(ComponentTooLarge)
      else Ok(m[d.typeID := ComponentState(d.typeID, d.schemaVersion, d.data)])
    else if d.operation == COMPONENT_REMOVE then Ok(m - {d.typeID})
    else Err(InvalidFrame)
  }

  function ApplyComponents(m: map<u16, ComponentState>, ds: seq<ComponentDelta>, limits: Limits): Result<map<u16, ComponentState>, Error>
    decreases |ds|
  {
    if ds == [] then Ok(m)
    else
      match ApplyComponent(m, ds[0], limits)
      case Err(e) => Err(e)
      case Ok(next) =>
        if |next| > limits.maxComponentsPerObject then Err(ComponentLimit)
        else ApplyComponents(next, ds[1..], limits)
  }

  function ApplyObject(m: map<ObjectRef, ObjectView>, d: ObjectDelta, limits: Limits): Result<map<ObjectRef, ObjectView>, Error> {
    if !d.ref.Valid() then Err(InvalidObjectRef)
    else if d.operation == OBJECT_CREATE then
      if d.archetype == 0 then Err(InvalidObjectRef)
      else
        match ApplyComponents(map[], d.components, limits)
        case Err(e) => Err(e)
        case Ok(components) => Ok(m[d.ref := ObjectView(d.archetype, components)])
    else if d.operation == OBJECT_UPDATE then
      if d.ref !in m then Err(ObjectNotFound)
      else if d.archetype != 0 && d.archetype != m[d.ref].archetype then Err(InvalidFrame)
      else
        match ApplyComponents(m[d.ref].components, d.components, limits)
        case Err(e) => Err(e)
        case Ok(components) => Ok(m[d.ref := ObjectView(m[d.ref].archetype, components)])
    else if d.operation == OBJECT_REMOVE then Ok(m - {d.ref})
    else Err(InvalidFrame)
  }

  function ApplyObjects(m: map<ObjectRef, ObjectView>, ds: seq<ObjectDelta>, limits: Limits): Result<map<ObjectRef, ObjectView>, Error>
    decreases |ds|
  {
    if ds == [] then Ok(m)
    else
      match ApplyObject(m, ds[0], limits)
      case Err(e) => Err(e)
      case Ok(next) =>
        if |next| > limits.maxObjects then Err(ObjectLimit)
        else ApplyObjects(next, ds[1..], limits)
  }

  /** The objects a frame starts from, or why it cannot be applied. */
  function StartingView(base: Option<Snapshot>, frame: DeltaFrame): Result<map<ObjectRef, ObjectView>, Error> {
    if !frame.meta.Valid() then Err(InvalidFrame)
    else if frame.kind == FRAME_FULL then
      if frame.baseTick != 0 then Err(InvalidFrame) else Ok(map[])
    else if frame.kind == FRAME_DELTA then
      if base.None? || frame.baseTick == 0 || base.value.meta.tick != frame.baseTick || !Compatible(base.value, frame.meta)
      then Err(BaselineMismatch)
      else Ok(ObjectsView(base.value.objects))
    else Err(InvalidFrame)
  }

  ghost function Pick<K(!new), V>(m: map<K, V>): (k: K)
    requires m != map[]
    ensures k in m
  {
    assert exists k :: k in m by { assert m.Keys != {}; }
    var k :| k in m;
    k
  }

  /** Some listing of a component map; iteration order is not specified. */
  ghost function ListComponents(m: map<u16, ComponentState>): seq<ComponentState> {
    if m == map[] then [] else
      var k := Pick(m);
      [m[k]] + ListComponents(m - {k})
  }

  ghost function ListObjects(m: map<ObjectRef, ObjectView>): seq<ObjectState> {
    if m == map[] then [] else
      var r := Pick(m);
      [ObjectState(r, m[r].archetype, ListComponents(m[r].components))] + ListObjects(m - {r})
  }

  ghost function ApplyDelta(base: Option<Snapshot>, frame: DeltaFrame, raw: Limits): Result<Snapshot, Error> {
    match StartingView(base, frame)
    case Err(e) => Err(e)
    case Ok(start) =>
      match ApplyObjects(start, frame.objects, NormalizeLimits(raw))
      case Err(e) => Err(e)
      case Ok(m) => NewSnapshot(frame.meta, ListObjects(m), raw)
  }

  // ---- Components: applying a difference lands on the target ----

  ghost predicate Below<V>(done: map<u16, V>, rest: map<u16, V>) {
    forall j, k :: j in done && k in rest ==> j < k
  }

  lemma {:induction false} ComponentsAbove(cs: seq<ComponentState>, t: u16)
    requires forall i :: 0 <= i < |cs| ==> t < cs[i].typeID
    ensures forall k :: k in ComponentsView(cs) ==> t < k
  {
    if cs != [] { ComponentsAbove(cs[1..], t); }
  }

  lemma {:induction false} ObjectsAbove(objects: seq<ObjectState>, r: ObjectRef)
    requires forall i :: 0 <= i < |objects| ==> r.Rank() < objects[i].ref.Rank()
    ensures forall k :: k in ObjectsView(objects) ==> r.Rank() < k.Rank()
  {
    if objects != [] { ObjectsAbove(objects[1..], r); }
  }

  lemma {:induction false} ComponentHead(cs: seq<ComponentState>)
    requires Strict(cs, ComponentKey) && cs != []
    ensures Strict(cs[1..], ComponentKey)
    ensures ComponentsView(cs) == map[cs[0].typeID := cs[0]] + ComponentsView(cs[1..])
    ensures forall k :: k in ComponentsView(cs[1..]) ==> cs[0].typeID < k
    ensures forall c :: c in cs[1..] ==> c in cs
  {
    forall i | 0 <= i < |cs[1..]| ensures cs[0].typeID < cs[1..][i].typeID {
      assert ComponentKey(cs[0]) < ComponentKey(cs[i + 1]);
    }
    ComponentsAbove(cs[1..], cs[0].typeID);
  }

  lemma MapSettle<K, V>(done: map<K, V>, t: K, v: V, rest: map<K, V>)
    requires t !in rest
    ensures done + (map[t := v] + rest) == done[t := v] + rest
    ensures (done + rest)[t := v] == done[t := v] + rest
    ensures forall b: V :: (done + (map[t := b] + rest))[t := v] == done[t := v] + rest
  {}

  lemma MapDrop<K, V>(done: map<K, V>, t: K, v: V, rest: map<K, V>)
    requires t !in rest && t !in done
    ensures (done + (map[t := v] + rest)) - {t} == done + rest
  {}

  /** One delta that applies within the limit leaves the rest to the rest. */
  lemma {:induction false} LandsCons(m: map<u16, ComponentState>, d: ComponentDelta, next: map<u16, ComponentState>,
                                     ds: seq<ComponentDelta>, limits: Limits, target: map<u16, ComponentState>, types: set<u16>)
    requires ApplyComponent(m, d, limits) == Ok(next) && next.Keys <= types
    requires LandsOn(next, ds, limits, target, types)
    ensures LandsOn(m, [d] + ds, limits, target, types)
  {
    SubsetCardinality(next.Keys, types);
    assert ([d] + ds)[1..] == ds;
  }

  ghost predicate LandsOn(m: map<u16, ComponentState>, ds: seq<ComponentDelta>, limits: Limits,
                          target: map<u16, ComponentState>, types: set<u16>)
  {
    var r := ApplyComponents(m, ds, limits);
    r == Ok(target) || (r == Err(ComponentLimit) && |types| > limits.maxComponentsPerObject)
  }

  /** After the types in `done` have been settled, the rest of the difference settles the rest. */
  lemma {:induction false} ApplyDiffComponents(done: map<u16, ComponentState>, base: seq<ComponentState>,
                                               current: seq<ComponentState>, limits: Limits, types: set<u16>)
    requires Strict(base, ComponentKey) && Strict(current, ComponentKey)
    requires Below(done, ComponentsView(base)) && Below(done, ComponentsView(current))
    requires forall c :: c in base ==> c.typeID != 0
    requires forall c :: c in current ==> GoodComponent(c, limits)
    requires done.Keys <= types && ComponentsView(base).Keys <= types && ComponentsView(current).Keys <= types
    ensures LandsOn(done + ComponentsView(base), DiffComponents(base, current), limits, done + ComponentsView(current), types)
    decreases |base| + |current|
  {
    if base == [] && current == [] {
    } else if base == [] || (current != [] && current[0].typeID < base[0].typeID) {
      SettleCurrent(done, base, current, limits, types);
    } else if current == [] || base[0].typeID < current[0].typeID {
      SettleBase(done, base, current, limits, types);
    } else {
      SettleBoth(done, base, current, limits, types);
    }
  }

  lemma {:induction false} SettleCurrent(done: map<u16, ComponentState>, base: seq<ComponentState>,
                                         current: seq<ComponentState>, limits: Limits, types: set<u16>)
    requires Strict(base, ComponentKey) && Strict(current, ComponentKey)
    requires Below(done, ComponentsView(base)) && Below(done, ComponentsView(current))
    requires forall c :: c in base ==> c.typeID != 0
    requires forall c :: c in current ==> GoodComponent(c, limits)
    requires done.Keys <= types && ComponentsView(base).Keys <= types && ComponentsView(current).Keys <= types
    requires current != [] && (base == [] || current[0].typeID < base[0].typeID)
    ensures LandsOn(done + ComponentsView(base), DiffComponents(base, current), limits, done + ComponentsView(current), types)
    decreases |base| + |current|, 0
  {
    var c := current[0];
    ComponentHead(current);
    if base != [] { ComponentHead(base); }
    MapSettle(done, c.typeID, c, ComponentsView(base));
    MapSettle(done, c.typeID, c, ComponentsView(current[1..]));
    ApplyDiffComponents(done[c.typeID := c], base, current[1..], limits, types);
    assert c in current;
    LandsCons(done + ComponentsView(base), SetDelta(c), done[c.typeID := c] + ComponentsView(base),
              DiffComponents(base, current[1..]), limits, done + ComponentsView(current), types);
  }

  lemma {:induction false} SettleBase(done: map<u16, ComponentState>, base: seq<ComponentState>,
                                      current: seq<ComponentState>, limits: Limits, types: set<u16>)
    requires Strict(base, ComponentKey) && Strict(current, ComponentKey)
    requires Below(done, ComponentsView(base)) && Below(done, ComponentsView(current))
    requires forall c :: c in base ==> c.typeID != 0
    requires forall c :: c in current ==> GoodComponent(c, limits)
    requires done.Keys <= types && ComponentsView(base).Keys <= types && ComponentsView(current).Keys <= types
    requires base != [] && (current == [] || base[0].typeID < current[0].typeID)
    ensures LandsOn(done + ComponentsView(base), DiffComponents(base, current), limits, done + ComponentsView(current), types)
    decreases |base| + |current|, 0
  {
    var b := base[0];
    ComponentHead(base);
    MapDrop(done, b.typeID, b, ComponentsView(base[1..]));
    ApplyDiffComponents(done, base[1..], current, limits, types);
    LandsCons(done + ComponentsView(base), RemoveComponentDelta(b.typeID), done + ComponentsView(base[1..]),
              DiffComponents(base[1..], current), limits, done + ComponentsView(current), types);
  }

  lemma {:induction false} SettleBoth(done: map<u16, ComponentState>, base: seq<ComponentState>,
                                      current: seq<ComponentState>, limits: Limits, types: set<u16>)
    requires Strict(base, ComponentKey) && Strict(current, ComponentKey)
    requires Below(done, ComponentsView(base)) && Below(done, ComponentsView(current))
    requires forall c :: c in base ==> c.typeID != 0
    requires forall c :: c in current ==> GoodComponent(c, limits)
    requires done.Keys <= types && ComponentsView(base).Keys <= types && ComponentsView(current).Keys <= types
    requires base != [] && current != [] && base[0].typeID == current[0].typeID
    ensures LandsOn(done + ComponentsView(base), DiffComponents(base, current), limits, done + ComponentsView(current), types)
    decreases |base| + |current|, 0
  {
    var b, c := base[0], current[0];
    ComponentHead(base);
    ComponentHead(current);
    MapSettle(done, c.typeID, c, ComponentsView(base[1..]));
    MapSettle(done, c.typeID, c, ComponentsView(current[1..]));
    ApplyDiffComponents(done[c.typeID := c], base[1..], current[1..], limits, types);
    assert c in current;
    if b != c {
      LandsCons(done + ComponentsView(base), SetDelta(c), done[c.typeID := c] + ComponentsView(base[1..]),
                DiffComponents(base[1..], current[1..]), limits, done + ComponentsView(current), types);
    }
  }

  // ---- Objects: applying a difference lands on the target ----

  lemma MapEmpty<K, V>(m: map<K, V>)
    ensures map[] + m == m
  {}

  /** Applying the difference to the base components gives the current ones, or exceeds the limit on the way. */
  lemma {:induction false} ComponentDiffLands(base: seq<ComponentState>, current: seq<ComponentState>, limits: Limits)
    requires Strict(base, ComponentKey) && Strict(current, ComponentKey)
    requires forall c :: c in base ==> c.typeID != 0
    requires forall c :: c in current ==> GoodComponent(c, limits)
    ensures LandsOn(ComponentsView(base), DiffComponents(base, current), limits, ComponentsView(current),
                    ComponentsView(base).Keys + ComponentsView(current).Keys)
  {
    ApplyDiffComponents(map[], base, current, limits, ComponentsView(base).Keys + ComponentsView(current).Keys);
    MapEmpty(ComponentsView(base));
    MapEmpty(ComponentsView(current));
  }

  lemma {:induction false} CreateIsDiff(cs: seq<ComponentState>)
    ensures SetDeltas(cs) == DiffComponents([], cs)
    ensures |ComponentsView(cs)| <= |cs|
  {
    if cs != [] {
      CreateIsDiff(cs[1..]);
      var rest := ComponentsView(cs[1..]);
      assert ComponentsView(cs).Keys == {cs[0].typeID} + rest.Keys;
    }
  }

  lemma {:induction false} CreateLands(m: map<ObjectRef, ObjectView>, o: ObjectState, limits: Limits)
    requires GoodObject(o, limits)
    ensures ApplyObject(m, CreateDelta(o), limits) == Ok(m[o.ref := ViewOf(o)])
  {
    CreateIsDiff(o.components);
    ComponentDiffLands([], o.components, limits);
    assert ComponentsView([]).Keys + ComponentsView(o.components).Keys == ComponentsView(o.components).Keys;
    assert ApplyComponents(map[], SetDeltas(o.components), limits) == Ok(ComponentsView(o.components));
  }

  ghost predicate ComponentsFit(b: ObjectState, c: ObjectState, limits: Limits) {
    |ComponentsView(b.components).Keys + ComponentsView(c.components).Keys| <= limits.maxComponentsPerObject
  }

  lemma {:induction false} UpdateLands(m: map<ObjectRef, ObjectView>, b: ObjectState, c: ObjectState, limits: Limits)
    requires b.ref == c.ref && b.ref in m && m[b.ref] == ViewOf(b) && b.archetype == c.archetype
    requires Strict(b.components, ComponentKey) && forall x :: x in b.components ==> x.typeID != 0
    requires GoodObject(c, limits)
    ensures DiffObject(b, c) == [] ==> ViewOf(b) == ViewOf(c)
    ensures DiffObject(b, c) != [] ==>
              || ApplyObject(m, DiffObject(b, c)[0], limits) == Ok(m[c.ref := ViewOf(c)])
              || (ApplyObject(m, DiffObject(b, c)[0], limits) == Err(ComponentLimit) && !ComponentsFit(b, c, limits))
    ensures |DiffObject(b, c)| <= 1
  {
    ComponentDiffLands(b.components, c.components, limits);
    if DiffObject(b, c) != [] {
      assert DiffObject(b, c)[0] == ObjectDelta(OBJECT_UPDATE, c.ref, c.archetype, DiffComponents(b.components, c.components));
    }
  }

  /** The delta between two states of one object turns the first into the second. */
  lemma {:induction false} PairLands(m: map<ObjectRef, ObjectView>, b: ObjectState, c: ObjectState, limits: Limits)
    requires b.ref == c.ref && b.ref in m && m[b.ref] == ViewOf(b)
    requires Strict(b.components, ComponentKey) && forall x :: x in b.components ==> x.typeID != 0
    requires GoodObject(c, limits)
    ensures DiffObject(b, c) == [] ==> ViewOf(b) == ViewOf(c)
    ensures DiffObject(b, c) != [] ==>
              || ApplyObject(m, DiffObject(b, c)[0], limits) == Ok(m[c.ref := ViewOf(c)])
              || (ApplyObject(m, DiffObject(b, c)[0], limits) == Err(ComponentLimit) && !ComponentsFit(b, c, limits))
    ensures |DiffObject(b, c)| <= 1
  {
    if b.archetype != c.archetype {
      CreateLands(m, c, limits);
    } else {
      UpdateLands(m, b, c, limits);
    }
  }

  ghost predicate RefsBelow(done: map<ObjectRef, ObjectView>, rest: map<ObjectRef, ObjectView>) {
    forall j, k :: j in done && k in rest ==> j.Rank() < k.Rank()
  }

  lemma {:induction false} ObjectHead(objects: seq<ObjectState>)
    requires Strict(objects, ObjectKey) && objects != []
    ensures Strict(objects[1..], ObjectKey)
    ensures forall k :: k in ObjectsView(objects[1..]) ==> objects[0].ref.Rank() < k.Rank()
    ensures forall o :: o in objects[1..] ==> o in objects
  {
    forall i | 0 <= i < |objects[1..]| ensures objects[0].ref.Rank() < objects[1..][i].ref.Rank() {
      assert ObjectKey(objects[0]) < ObjectKey(objects[i + 1]);
    }
    ObjectsAbove(objects[1..], objects[0].ref);
  }

  /** The merged component types fit for every object present on both sides. */
  ghost predicate AllComponentsFit(base: seq<ObjectState>, current: seq<ObjectState>, limits: Limits) {
    forall b, c :: b in base && c in current && b.ref == c.ref ==> ComponentsFit(b, c, limits)
  }

  ghost predicate ObjectsLandOn(m: map<ObjectRef, ObjectView>, ds: seq<ObjectDelta>, limits: Limits,
                                target: map<ObjectRef, ObjectView>, refs: set<ObjectRef>, fits: bool)
  {
    var r := ApplyObjects(m, ds, limits);
    || r == Ok(target)
    || (r == Err(ObjectLimit) && |refs| > limits.maxObjects)
    || (r == Err(ComponentLimit) && !fits)
  }

  lemma {:induction false} ObjectsLandCons(m: map<ObjectRef, ObjectView>, d: ObjectDelta, next: map<ObjectRef, ObjectView>,
                                           ds: seq<ObjectDelta>, limits: Limits, target: map<ObjectRef, ObjectView>,
                                           refs: set<ObjectRef>, fits: bool)
    requires || (ApplyObject(m, d, limits) == Ok(next) && next.Keys <= refs && ObjectsLandOn(next, ds, limits, target, refs, fits))
             || (ApplyObject(m, d, limits) == Err(ComponentLimit) && !fits)
    ensures ObjectsLandOn(m, [d] + ds, limits, target, refs, fits)
  {
    if next.Keys <= refs { SubsetCardinality(next.Keys, refs); }
    assert ([d] + ds)[1..] == ds;
  }

  /** What both sides of a difference must satisfy; `done` is the part already settled. */
  ghost predicate DiffInput(done: map<ObjectRef, ObjectView>, base: seq<ObjectState>, current: seq<ObjectState>,
                            limits: Limits, refs: set<ObjectRef>, fits: bool)
  {
    && Strict(base, ObjectKey)
    && (forall o :: o in base ==> o.ref.Valid() && Strict(o.components, ComponentKey))
    && (forall o, c :: o in base && c in o.components ==> c.typeID != 0)
    && GoodObjects(current, limits)
    && RefsBelow(done, ObjectsView(base)) && RefsBelow(done, ObjectsView(current))
    && done.Keys <= refs && ObjectsView(base).Keys <= refs && ObjectsView(current).Keys <= refs
    && (fits ==> AllComponentsFit(base, current, limits))
  }

  lemma {:induction false} ApplyDiffObjects(done: map<ObjectRef, ObjectView>, base: seq<ObjectState>,
                                            current: seq<ObjectState>, limits: Limits, refs: set<ObjectRef>, fits: bool)
    requires DiffInput(done, base, current, limits, refs, fits)
    ensures ObjectsLandOn(done + ObjectsView(base), DiffObjects(base, current), limits, done + ObjectsView(current), refs, fits)
    decreases |base| + |current|
  {
    if base == [] && current == [] {
    } else if base == [] || (current != [] && current[0].ref.Less(base[0].ref)) {
      CreateObject(done, base, current, limits, refs, fits);
    } else if current == [] || base[0].ref.Less(current[0].ref) {
      RemoveObject(done, base, current, limits, refs, fits);
    } else {
      UpdateObject(done, base, current, limits, refs, fits);
    }
  }

  lemma {:induction false} CreateObject(done: map<ObjectRef, ObjectView>, base: seq<ObjectState>,
                                        current: seq<ObjectState>, limits: Limits, refs: set<ObjectRef>, fits: bool)
    requires DiffInput(done, base, current, limits, refs, fits)
    requires current != [] && (base == [] || current[0].ref.Less(base[0].ref))
    ensures ObjectsLandOn(done + ObjectsView(base), DiffObjects(base, current), limits, done + ObjectsView(current), refs, fits)
    decreases |base| + |current|, 0
  {
    var c := current[0];
    ObjectHead(current);
    if base != [] {
      ObjectHead(base);
      RankOrdersRefs(c.ref, base[0].ref);
    }
    MapSettle(done, c.ref, ViewOf(c), ObjectsView(base));
    MapSettle(done, c.ref, ViewOf(c), ObjectsView(current[1..]));
    ApplyDiffObjects(done[c.ref := ViewOf(c)], base, current[1..], limits, refs, fits);
    assert c in current;
    CreateLands(done + ObjectsView(base), c, limits);
    ObjectsLandCons(done + ObjectsView(base), CreateDelta(c), done[c.ref := ViewOf(c)] + ObjectsView(base),
                    DiffObjects(base, current[1..]), limits, done + ObjectsView(current), refs, fits);
    if base != [] { RankOrdersRefs(base[0].ref, c.ref); }
  }

  lemma {:induction false} RemoveObject(done: map<ObjectRef, ObjectView>, base: seq<ObjectState>,
                                        current: seq<ObjectState>, limits: Limits, refs: set<ObjectRef>, fits: bool)
    requires DiffInput(done, base, current, limits, refs, fits)
    requires base != [] && (current == [] || base[0].ref.Less(current[0].ref))
    ensures ObjectsLandOn(done + ObjectsView(base), DiffObjects(base, current), limits, done + ObjectsView(current), refs, fits)
    decreases |base| + |current|, 0
  {
    var b := base[0];
    ObjectHead(base);
    assert b in base;
    MapDrop(done, b.ref, ViewOf(b), ObjectsView(base[1..]));
    ApplyDiffObjects(done, base[1..], current, limits, refs, fits);
    ObjectsLandCons(done + ObjectsView(base), RemoveDelta(b.ref), done + ObjectsView(base[1..]),
                    DiffObjects(base[1..], current), limits, done + ObjectsView(current), refs, fits);
  }

  lemma {:induction false} UpdateInput(done: map<ObjectRef, ObjectView>, base: seq<ObjectState>,
                                       current: seq<ObjectState>, limits: Limits, refs: set<ObjectRef>, fits: bool)
    requires DiffInput(done, base, current, limits, refs, fits)
    requires base != [] && current != [] && base[0].ref == current[0].ref
    ensures DiffInput(done[current[0].ref := ViewOf(current[0])], base[1..], current[1..], limits, refs, fits)
  {
    ObjectHead(base);
    ObjectHead(current);
  }

  lemma {:induction false} PairCons(m: map<ObjectRef, ObjectView>, b: ObjectState, c: ObjectState, rest: seq<ObjectDelta>,
                                    limits: Limits, target: map<ObjectRef, ObjectView>, refs: set<ObjectRef>, fits: bool)
    requires b.ref == c.ref && b.ref in m && m[b.ref] == ViewOf(b) && m.Keys <= refs
    requires Strict(b.components, ComponentKey) && forall x :: x in b.components ==> x.typeID != 0
    requires GoodObject(c, limits) && (fits ==> ComponentsFit(b, c, limits))
    requires ObjectsLandOn(m[c.ref := ViewOf(c)], rest, limits, target, refs, fits)
    ensures ObjectsLandOn(m, DiffObject(b, c) + rest, limits, target, refs, fits)
  {
    PairLands(m, b, c, limits);
    var ds := DiffObject(b, c);
    if ds == [] {
      assert m[c.ref := ViewOf(c)] == m;
      assert ds + rest == rest;
    } else {
      assert ds == [ds[0]];
      ObjectsLandCons(m, ds[0], m[c.ref := ViewOf(c)], rest, limits, target, refs, fits);
    }
  }

  lemma {:induction false} UpdateObject(done: map<ObjectRef, ObjectView>, base: seq<ObjectState>,
                                        current: seq<ObjectState>, limits: Limits, refs: set<ObjectRef>, fits: bool)
    requires DiffInput(done, base, current, limits, refs, fits)
    requires base != [] && current != [] && !base[0].ref.Less(current[0].ref) && !current[0].ref.Less(base[0].ref)
    ensures ObjectsLandOn(done + ObjectsView(base), DiffObjects(base, current), limits, done + ObjectsView(current), refs, fits)
    decreases |base| + |current|, 0
  {
    var b, c := base[0], current[0];
    assert b.ref == c.ref && b in base && c in current;
    UpdateInput(done, base, current, limits, refs, fits);
    ApplyDiffObjects(done[c.ref := ViewOf(c)], base[1..], current[1..], limits, refs, fits);
    ObjectHead(base);
    ObjectHead(current);
    MapSettle(done, c.ref, ViewOf(c), ObjectsView(base[1..]));
    MapSettle(done, c.ref, ViewOf(c), ObjectsView(current[1..]));
    PairCons(done + ObjectsView(base), b, c, DiffObjects(base[1..], current[1..]), limits,
             done + ObjectsView(current), refs, fits);
  }

  // ---- Listing a map back into a snapshot ----

  ghost predicate WellKeyed(m: map<u16, ComponentState>) {
    forall k :: k in m ==> m[k].typeID == k
  }

  ghost predicate WellKeyedObjects(m: map<ObjectRef, ObjectView>) {
    forall r :: r in m ==> WellKeyed(m[r].components)
  }

  lemma MapRejoin<K, V>(m: map<K, V>, k: K)
    requires k in m
    ensures map[k := m[k]] + (m - {k}) == m
    ensures |m| == |m - {k}| + 1
  {}

  lemma DistinctCons<T>(x: T, s: seq<T>, key: T -> int)
    requires DistinctKeys(s, key) && forall y :: y in s ==> key(y) != key(x)
    ensures DistinctKeys([x] + s, key)
  {}

  lemma {:induction false} ListComponentsView(m: map<u16, ComponentState>)
    requires WellKeyed(m)
    ensures forall c :: c in ListComponents(m) ==> c.typeID in m
    ensures DistinctKeys(ListComponents(m), ComponentKey)
    ensures ComponentsView(ListComponents(m)) == m
  {
    if m != map[] {
      var k := Pick(m);
      var rest := ListComponents(m - {k});
      ListComponentsView(m - {k});
      DistinctCons(m[k], rest, ComponentKey);
      assert ([m[k]] + rest)[1..] == rest;
      assert map[k := m[k]] + (m - {k}) == m;
    }
  }

  lemma {:induction false} ObjectsCons(o: ObjectState, rest: seq<ObjectState>)
    requires DistinctObjects(rest) && DistinctKeys(o.components, ComponentKey)
    requires forall p :: p in rest ==> p.ref != o.ref
    ensures DistinctObjects([o] + rest)
    ensures ObjectsView([o] + rest) == map[o.ref := ViewOf(o)] + ObjectsView(rest)
  {}

  lemma {:induction false} ListObjectsView(m: map<ObjectRef, ObjectView>)
    requires WellKeyedObjects(m)
    ensures forall o :: o in ListObjects(m) ==> o.ref in m
    ensures DistinctObjects(ListObjects(m))
    ensures ObjectsView(ListObjects(m)) == m
    ensures |ListObjects(m)| == |m|
  {
    if m != map[] {
      var r := Pick(m);
      var o := ObjectState(r, m[r].archetype, ListComponents(m[r].components));
      ListObjectsView(m - {r});
      ListComponentsView(m[r].components);
      ObjectsCons(o, ListObjects(m - {r}));
      MapRejoin(m, r);
    }
  }

  lemma {:induction false} ViewWellKeyed(objects: seq<ObjectState>)
    ensures WellKeyedObjects(ObjectsView(objects))
  {
    if objects != [] {
      ViewWellKeyed(objects[1..]);
      ComponentsViewKeys(objects[0].components);
    }
  }

  lemma {:induction false} ViewSize(objects: seq<ObjectState>)
    requires Strict(objects, ObjectKey)
    ensures |ObjectsView(objects)| == |objects|
  {
    if objects != [] {
      ObjectHead(objects);
      ViewSize(objects[1..]);
      assert ObjectsView(objects).Keys == {objects[0].ref} + ObjectsView(objects[1..]).Keys;
    }
  }

  // ---- Larger limits accept whatever smaller ones accept ----

  predicate Within(a: Limits, b: Limits) {
    && a.maxObjects <= b.maxObjects
    && a.maxComponentsPerObject <= b.maxComponentsPerObject
    && a.maxComponentBytes <= b.maxComponentBytes
  }

  function Larger(a: Limits, b: Limits): (r: Limits)
    ensures Within(a, r) && Within(b, r)
  {
    a.(maxObjects := if a.maxObjects < b.maxObjects then b.maxObjects else a.maxObjects,
       maxComponentsPerObject := if a.maxComponentsPerObject < b.maxComponentsPerObject then b.maxComponentsPerObject
                                 else a.maxComponentsPerObject,
       maxComponentBytes := if a.maxComponentBytes < b.maxComponentBytes then b.maxComponentBytes else a.maxComponentBytes)
  }

  lemma {:induction false} ComponentsMonotone(m: map<u16, ComponentState>, ds: seq<ComponentDelta>, a: Limits, b: Limits)
    requires Within(a, b) && ApplyComponents(m, ds, a).Ok?
    ensures ApplyComponents(m, ds, b) == ApplyComponents(m, ds, a)
    decreases |ds|
  {
    if ds != [] {
      ComponentsMonotone(ApplyComponent(m, ds[0], a).value, ds[1..], a, b);
    }
  }

  lemma {:induction false} ObjectMonotone(m: map<ObjectRef, ObjectView>, d: ObjectDelta, a: Limits, b: Limits)
    requires Within(a, b) && ApplyObject(m, d, a).Ok?
    ensures ApplyObject(m, d, b) == ApplyObject(m, d, a)
  {
    if d.operation == OBJECT_CREATE {
      ComponentsMonotone(map[], d.components, a, b);
    } else if d.operation == OBJECT_UPDATE {
      ComponentsMonotone(m[d.ref].components, d.components, a, b);
    }
  }

  lemma {:induction false} ObjectsMonotone(m: map<ObjectRef, ObjectView>, ds: seq<ObjectDelta>, a: Limits, b: Limits)
    requires Within(a, b) && ApplyObjects(m, ds, a).Ok?
    ensures ApplyObjects(m, ds, b) == ApplyObjects(m, ds, a)
    decreases |ds|
  {
    if ds != [] {
      ObjectMonotone(m, ds[0], a, b);
      ObjectsMonotone(ApplyObject(m, ds[0], a).value, ds[1..], a, b);
    }
  }

  // ---- The meaning of a delta ----

  function BaseObjects(base: Option<Snapshot>): seq<ObjectState> {
    if base.None? then [] else base.value.objects
  }

  /** The merged object references, and the merged component types of every surviving object, fit the limits. */
  ghost predicate MergeFits(base: Option<Snapshot>, current: Snapshot, limits: Limits) {
    && |ObjectsView(BaseObjects(base)).Keys + ObjectsView(current.objects).Keys| <= limits.maxObjects
    && AllComponentsFit(BaseObjects(base), current.objects, limits)
  }

  lemma {:induction false} FullIsDiff(objects: seq<ObjectState>)
    ensures CreateDeltas(objects) == DiffObjects([], objects)
  {
    if objects != [] { FullIsDiff(objects[1..]); }
  }

  lemma {:induction false} GoodWithin(objects: seq<ObjectState>, a: Limits, b: Limits)
    requires GoodObjects(objects, a) && Within(a, b)
    ensures GoodObjects(objects, b)
  {}

  /** Applying a built frame to its base yields exactly the current objects, for any limits under which it applies. */
  lemma {:induction false} FrameObjects(base: Option<Snapshot>, current: Snapshot, server: Limits, client: Limits)
    requires GoodObjects(BaseObjects(base), server) && GoodObjects(current.objects, server)
    requires BuildDelta(base, current).Ok?
    ensures var r := ApplyObjects(ObjectsView(BaseObjects(base)), BuildDelta(base, current).value.objects, client);
            && (r.Ok? ==> r.value == ObjectsView(current.objects))
            && (GoodObjects(current.objects, client) && MergeFits(base, current, client) ==> r.Ok?)
  {
    var b, c := BaseObjects(base), current.objects;
    FullIsDiff(c);
    var big := Larger(server, client);
    var refs := ObjectsView(b).Keys + ObjectsView(c).Keys;
    var fits := MergeFits(base, current, client);
    GoodWithin(c, server, big);
    assert forall o, x :: o in b && x in o.components ==> GoodObject(o, server) && GoodComponent(x, server);
    ApplyDiffObjects(map[], b, c, big, refs, false);
    MapEmpty(ObjectsView(b));
    MapEmpty(ObjectsView(c));
    if ApplyObjects(ObjectsView(b), DiffObjects(b, c), client).Ok? {
      ObjectsMonotone(ObjectsView(b), DiffObjects(b, c), client, big);
    }
    if GoodObjects(c, client) {
      ApplyDiffObjects(map[], b, c, client, refs, fits);
    }
  }

  lemma {:induction false} StartsFromBase(base: Option<Snapshot>, current: Snapshot)
    requires BuildDelta(base, current).Ok? && (base.Some? ==> base.value.meta.Valid())
    ensures StartingView(base, BuildDelta(base, current).value) == Ok(ObjectsView(BaseObjects(base)))
  {}

  /** Sorting any listing of a sorted sequence's objects gives the sequence back. */
  lemma {:induction false} RelistedObjects(objects: seq<ObjectState>)
    requires SortedObjects(objects)
    ensures var listed := ListObjects(ObjectsView(objects)); Normalize(listed) == objects && |listed| == |objects|
  {
    ViewWellKeyed(objects);
    ListObjectsView(ObjectsView(objects));
    NormalizeKeepsView(ListObjects(ObjectsView(objects)));
    ObjectsDetermined(Normalize(ListObjects(ObjectsView(objects))), objects);
    ViewSize(objects);
  }

  /** Listing the objects of a snapshot in any order and normalizing them can only give that snapshot back. */
  lemma {:induction false} Relisted(current: Snapshot, server: Limits, client: Limits)
    requires Normal(current, server)
    ensures var r := NewSnapshot(current.meta, ListObjects(ObjectsView(current.objects)), client);
            && (r.Ok? ==> r.value == current)
            && (Normal(current, client) ==> r == Ok(current))
  {
    RelistedObjects(current.objects);
  }

  /**
    The delta law: for snapshots in normal form, applying a built frame to its base never yields anything but the
    current snapshot, and it succeeds whenever the merge fits the limits checked along the way.
   */
  lemma {:induction false} DeltaMeaning(base: Option<Snapshot>, current: Snapshot, server: Limits, client: Limits)
    requires Normal(current, server) && (base.Some? ==> Normal(base.value, server))
    requires BuildDelta(base, current).Ok?
    ensures var r := ApplyDelta(base, BuildDelta(base, current).value, client);
            && (r.Ok? ==> r.value == current)
            && (Normal(current, client) && MergeFits(base, current, NormalizeLimits(client)) ==> r == Ok(current))
  {
    StartsFromBase(base, current);
    FrameObjects(base, current, NormalizeLimits(server), NormalizeLimits(client));
    Relisted(current, server, client);
  }
}
