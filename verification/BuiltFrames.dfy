/** Frames built from snapshots in normal form always pass validation, so encoding refuses them for size only. */
module BuiltFrames {
  import opened Common
  import opened Ordered
  import opened ReplicationTypes
  import opened Snapshots
  import opened Deltas
  import opened Codec

  ghost predicate TypesAbove(seen: set<u16>, cs: seq<ComponentState>) {
    forall t, c :: t in seen && c in cs ==> t < c.typeID
  }

  lemma {:induction false} TypesAboveTail(seen: set<u16>, cs: seq<ComponentState>)
    requires Strict(cs, ComponentKey) && cs != [] && TypesAbove(seen, cs)
    ensures TypesAbove(seen + {cs[0].typeID}, cs[1..]) && cs[0].typeID !in seen
  {}

  lemma {:induction false} TypesAboveHead(seen: set<u16>, t: u16, cs: seq<ComponentState>)
    requires Strict(cs, ComponentKey) && TypesAbove(seen, cs) && (cs == [] || t < cs[0].typeID)
    ensures TypesAbove(seen + {t}, cs)
  {}

  /** What the difference of two sorted component lists looks like to the validator. */
  lemma {:induction false} DiffComponentsValid(operation: u8, base: seq<ComponentState>, current: seq<ComponentState>,
                                               seen: set<u16>, limits: Limits)
    requires limits.Positive() && (operation == OBJECT_CREATE ==> base == [])
    requires Strict(base, ComponentKey) && Strict(current, ComponentKey)
    requires TypesAbove(seen, base) && TypesAbove(seen, current)
    requires forall c :: c in base ==> c.typeID != 0
    requires forall c :: c in current ==> GoodComponent(c, limits)
    ensures ValidateComponents(operation, DiffComponents(base, current), seen, limits) == None
    ensures |DiffComponents(base, current)| <= |base| + |current|
    decreases |base| + |current|
  {
    if base == [] && current == [] {
    } else if base == [] || (current != [] && current[0].typeID < base[0].typeID) {
      assert current[0] in current;
      TypesAboveTail(seen, current);
      TypesAboveHead(seen, current[0].typeID, base);
      DiffComponentsValid(operation, base, current[1..], seen + {current[0].typeID}, limits);
      ValidCons(operation, SetDelta(current[0]), DiffComponents(base, current[1..]), seen, limits);
    } else if current == [] || base[0].typeID < current[0].typeID {
      assert base[0] in base;
      TypesAboveTail(seen, base);
      TypesAboveHead(seen, base[0].typeID, current);
      DiffComponentsValid(operation, base[1..], current, seen + {base[0].typeID}, limits);
      ValidCons(operation, RemoveComponentDelta(base[0].typeID), DiffComponents(base[1..], current), seen, limits);
    } else {
      assert current[0] in current;
      TypesAboveTail(seen, base);
      TypesAboveTail(seen, current);
      DiffComponentsValid(operation, base[1..], current[1..], seen, limits);
      DiffComponentsValid(operation, base[1..], current[1..], seen + {current[0].typeID}, limits);
      ValidCons(operation, SetDelta(current[0]), DiffComponents(base[1..], current[1..]), seen, limits);
    }
  }

  lemma {:induction false} ValidCons(operation: u8, c: ComponentDelta, rest: seq<ComponentDelta>, seen: set<u16>, limits: Limits)
    requires ValidateComponents(operation, rest, seen + {c.typeID}, limits) == None
    ensures ValidateComponent(operation, c, seen, limits) == None ==>
              ValidateComponents(operation, [c] + rest, seen, limits) == None
  {}

  ghost predicate RefsAbove(seen: set<ObjectRef>, objects: seq<ObjectState>) {
    forall r, o :: r in seen && o in objects ==> r.Rank() < o.ref.Rank()
  }

  lemma {:induction false} RefsAboveTail(seen: set<ObjectRef>, objects: seq<ObjectState>)
    requires Strict(objects, ObjectKey) && objects != [] && RefsAbove(seen, objects)
    ensures RefsAbove(seen + {objects[0].ref}, objects[1..]) && objects[0].ref !in seen
  {}

  lemma {:induction false} RefsAboveHead(seen: set<ObjectRef>, r: ObjectRef, objects: seq<ObjectState>)
    requires Strict(objects, ObjectKey) && RefsAbove(seen, objects) && (objects == [] || r.Rank() < objects[0].ref.Rank())
    ensures RefsAbove(seen + {r}, objects)
  {}

  lemma {:induction false} CreateValid(kind: u8, o: ObjectState, seen: set<ObjectRef>, limits: Limits)
    requires GoodObject(o, limits) && o.ref !in seen && limits.Positive()
    ensures ValidateObject(kind, CreateDelta(o), seen, limits) == None
  {
    CreateIsDiff(o.components);
    DiffComponentsValid(OBJECT_CREATE, [], o.components, {}, limits);
  }

  lemma {:induction false} PairValid(b: ObjectState, c: ObjectState, seen: set<ObjectRef>, limits: Limits)
    requires GoodObject(b, limits) && GoodObject(c, limits) && b.ref == c.ref && c.ref !in seen
    requires limits.Positive()
    ensures |DiffObject(b, c)| <= 1
    ensures DiffObject(b, c) != [] ==> DiffObject(b, c)[0].ref == c.ref
    ensures DiffObject(b, c) != [] ==> ValidateObject(FRAME_DELTA, DiffObject(b, c)[0], seen, limits) == None
  {
    if b.archetype != c.archetype {
      CreateValid(FRAME_DELTA, c, seen, limits);
    } else {
      DiffComponentsValid(OBJECT_UPDATE, b.components, c.components, {}, limits);
    }
  }

  lemma {:induction false} ObjectValidCons(kind: u8, d: ObjectDelta, rest: seq<ObjectDelta>, seen: set<ObjectRef>, limits: Limits)
    requires ValidateObjects(kind, rest, seen + {d.ref}, limits) == None
    requires ValidateObject(kind, d, seen, limits) == None
    ensures ValidateObjects(kind, [d] + rest, seen, limits) == None
  {}

  lemma {:induction false} DiffObjectsValid(kind: u8, base: seq<ObjectState>, current: seq<ObjectState>,
                                            seen: set<ObjectRef>, limits: Limits)
    requires kind == FRAME_DELTA || (kind == FRAME_FULL && base == [])
    requires GoodObjects(base, limits) && GoodObjects(current, limits) && limits.Positive()
    requires RefsAbove(seen, base) && RefsAbove(seen, current)
    ensures ValidateObjects(kind, DiffObjects(base, current), seen, limits) == None
    ensures |DiffObjects(base, current)| <= |base| + |current|
    decreases |base| + |current|
  {
    if base == [] && current == [] {
    } else if base == [] || (current != [] && current[0].ref.Less(base[0].ref)) {
      var c := current[0];
      assert c in current;
      if base != [] { RankOrdersRefs(c.ref, base[0].ref); }
      RefsAboveTail(seen, current);
      RefsAboveHead(seen, c.ref, base);
      DiffObjectsValid(kind, base, current[1..], seen + {c.ref}, limits);
      CreateValid(kind, c, seen, limits);
      ObjectValidCons(kind, CreateDelta(c), DiffObjects(base, current[1..]), seen, limits);
    } else if current == [] || base[0].ref.Less(current[0].ref) {
      var b := base[0];
      assert b in base;
      if current != [] { RankOrdersRefs(b.ref, current[0].ref); }
      RefsAboveTail(seen, base);
      RefsAboveHead(seen, b.ref, current);
      DiffObjectsValid(kind, base[1..], current, seen + {b.ref}, limits);
      ObjectValidCons(kind, RemoveDelta(b.ref), DiffObjects(base[1..], current), seen, limits);
    } else {
      PairOfObjectsValid(base, current, seen, limits);
    }
  }

  lemma {:induction false} PairOfObjectsValid(base: seq<ObjectState>, current: seq<ObjectState>, seen: set<ObjectRef>, limits: Limits)
    requires GoodObjects(base, limits) && GoodObjects(current, limits) && limits.Positive()
    requires RefsAbove(seen, base) && RefsAbove(seen, current)
    requires base != [] && current != [] && !base[0].ref.Less(current[0].ref) && !current[0].ref.Less(base[0].ref)
    ensures ValidateObjects(FRAME_DELTA, DiffObjects(base, current), seen, limits) == None
    ensures |DiffObjects(base, current)| <= |base| + |current|
    decreases |base| + |current|, 0
  {
    var b, c := base[0], current[0];
    assert b in base && c in current && b.ref == c.ref;
    RefsAboveTail(seen, base);
    RefsAboveTail(seen, current);
    PairValid(b, c, seen, limits);
    var ds, rest := DiffObject(b, c), DiffObjects(base[1..], current[1..]);
    assert DiffObjects(base, current) == ds + rest;
    if ds == [] {
      assert ds + rest == rest;
      DiffObjectsValid(FRAME_DELTA, base[1..], current[1..], seen, limits);
    } else {
      assert ds == [ds[0]];
      DiffObjectsValid(FRAME_DELTA, base[1..], current[1..], seen + {c.ref}, limits);
      ObjectValidCons(FRAME_DELTA, ds[0], rest, seen, limits);
    }
  }

  /** A frame built between snapshots in normal form passes validation under the same limits. */
  lemma {:induction false} BuiltFrameValid(base: Option<Snapshot>, current: Snapshot, raw: Limits)
    requires Normal(current, raw) && (base.Some? ==> Normal(base.value, raw))
    requires BuildDelta(base, current).Ok?
    ensures ValidateFrame(BuildDelta(base, current).value, NormalizeLimits(raw)) == None
  {
    FullIsDiff(current.objects);
    var kind := if base.None? then FRAME_FULL else FRAME_DELTA;
    DiffObjectsValid(kind, BaseObjects(base), current.objects, {}, NormalizeLimits(raw));
  }
}
