/** The merge and apply loops, proved against the differences and applications of module Deltas. */
module DeltaLoops {
  import opened Common
  import opened Ordered
  import opened ReplicationTypes
  import opened Snapshots
  import opened Deltas

  method DiffComponentLoop(base: seq<ComponentState>, current: seq<ComponentState>) returns (out: seq<ComponentDelta>)
    ensures out == DiffComponents(base, current)
  {
    out := [];
    var i, j := 0, 0;
    while i < |base| || j < |current|
      invariant 0 <= i <= |base| && 0 <= j <= |current|
      invariant out + DiffComponents(base[i..], current[j..]) == DiffComponents(base, current)
      decreases |base| - i + |current| - j
    {
      ghost var rest := DiffComponents(base[i..], current[j..]);
      ghost var before := out;
      if i < |base| { assert base[i..][1..] == base[i + 1..]; }
      if j < |current| { assert current[j..][1..] == current[j + 1..]; }
      if i >= |base| {
        out := out + [SetDelta(current[j])];
        j := j + 1;
      } else if j >= |current| {
        out := out + [RemoveComponentDelta(base[i].typeID)];
        i := i + 1;
      } else if base[i].typeID < current[j].typeID {
        out := out + [RemoveComponentDelta(base[i].typeID)];
        i := i + 1;
      } else if current[j].typeID < base[i].typeID {
        out := out + [SetDelta(current[j])];
        j := j + 1;
      } else {
        if base[i].schemaVersion != current[j].schemaVersion || base[i].data != current[j].data {
          out := out + [SetDelta(current[j])];
        }
        i, j := i + 1, j + 1;
      }
      assert out + DiffComponents(base[i..], current[j..]) == before + rest;
    }
  }

  method CreateDeltaLoop(o: ObjectState) returns (d: ObjectDelta)
    ensures d == CreateDelta(o)
  {
    var components: seq<ComponentDelta> := [];
    var k := 0;
    while k < |o.components|
      invariant 0 <= k <= |o.components|
      invariant components + SetDeltas(o.components[k..]) == SetDeltas(o.components)
    {
      assert o.components[k..][1..] == o.components[k + 1..];
      components := components + [SetDelta(o.components[k])];
      k := k + 1;
    }
    d := ObjectDelta(OBJECT_CREATE, o.ref, o.archetype, components);
  }

  method DiffObjectOnce(base: ObjectState, current: ObjectState) returns (out: seq<ObjectDelta>)
    ensures out == DiffObject(base, current)
  {
    if base.archetype != current.archetype {
      var d := CreateDeltaLoop(current);
      return [d];
    }
    var components := DiffComponentLoop(base.components, current.components);
    if |components| > 0 {
      return [ObjectDelta(OBJECT_UPDATE, current.ref, current.archetype, components)];
    }
    return [];
  }

  lemma {:induction false} DiffObjectsStep(base: seq<ObjectState>, i: nat, current: seq<ObjectState>, j: nat)
    requires i <= |base| && j <= |current| && (i < |base| || j < |current|)
    ensures DiffObjects(base[i..], current[j..]) ==
            if j < |current| && (i >= |base| || current[j].ref.Less(base[i].ref)) then
              [CreateDelta(current[j])] + DiffObjects(base[i..], current[j + 1..])
            else if j >= |current| || base[i].ref.Less(current[j].ref) then
              [RemoveDelta(base[i].ref)] + DiffObjects(base[i + 1..], current[j..])
            else DiffObject(base[i], current[j]) + DiffObjects(base[i + 1..], current[j + 1..])
  {}

  /** One turn of the merge: what the two heads contribute, and where the cursors go. */
  method DiffNext(base: seq<ObjectState>, i: nat, current: seq<ObjectState>, j: nat) returns (ds: seq<ObjectDelta>, i': nat, j': nat)
    requires i <= |base| && j <= |current| && (i < |base| || j < |current|)
    ensures i <= i' <= |base| && j <= j' <= |current| && i + j < i' + j'
    ensures DiffObjects(base[i..], current[j..]) == ds + DiffObjects(base[i'..], current[j'..])
  {
    DiffObjectsStep(base, i, current, j);
    if j < |current| && (i >= |base| || current[j].ref.Less(base[i].ref)) {
      var d := CreateDeltaLoop(current[j]);
      return [d], i, j + 1;
    }
    if j >= |current| || base[i].ref.Less(current[j].ref) {
      return [RemoveDelta(base[i].ref)], i + 1, j;
    }
    ds := DiffObjectOnce(base[i], current[j]);
    return ds, i + 1, j + 1;
  }

  method DiffObjectLoop(base: seq<ObjectState>, current: seq<ObjectState>) returns (out: seq<ObjectDelta>)
    ensures out == DiffObjects(base, current)
  {
    out := [];
    var i, j := 0, 0;
    assert base[0..] == base && current[0..] == current;
    while i < |base| || j < |current|
      invariant 0 <= i <= |base| && 0 <= j <= |current|
      invariant out + DiffObjects(base[i..], current[j..]) == DiffObjects(base, current)
      decreases |base| - i + |current| - j
    {
      var ds, i', j' := DiffNext(base, i, current, j);
      ghost var rest := DiffObjects(base[i'..], current[j'..]);
      assert out + (ds + rest) == (out + ds) + rest;
      out, i, j := out + ds, i', j';
    }
  }

  method BuildDeltaFrame(base: Option<Snapshot>, current: Snapshot) returns (r: Result<DeltaFrame, Error>)
    ensures r == BuildDelta(base, current)
  {
    if !current.meta.Valid() {
      return Err(InvalidFrame);
    }
    if base.None? {
      var objects := DiffObjectLoop([], current.objects);
      FullIsDiff(current.objects);
      return Ok(DeltaFrame(current.meta, FRAME_FULL, 0, objects));
    }
    if !Compatible(base.value, current.meta) || base.value.meta.tick >= current.meta.tick {
      return Err(BaselineMismatch);
    }
    var objects := DiffObjectLoop(base.value.objects, current.objects);
    return Ok(DeltaFrame(current.meta, FRAME_DELTA, base.value.meta.tick, objects));
  }

  // ---- Applying ----

  lemma MapPush<K, V>(m: map<K, V>, k: K, v: V, rest: map<K, V>)
    ensures m[k := v] + rest == m + (map[k := v] + rest)
  {}

  method IndexComponents(cs: seq<ComponentState>) returns (m: map<u16, ComponentState>)
    ensures m == ComponentsView(cs) && WellKeyed(m)
  {
    m := map[];
    var k := 0;
    while k < |cs|
      invariant 0 <= k <= |cs|
      invariant m + ComponentsView(cs[k..]) == ComponentsView(cs)
      invariant WellKeyed(m)
    {
      assert cs[k..][1..] == cs[k + 1..];
      MapPush(m, cs[k].typeID, cs[k], ComponentsView(cs[k + 1..]));
      m := m[cs[k].typeID := cs[k]];
      k := k + 1;
    }
  }

  method ApplyComponentOnce(m: map<u16, ComponentState>, d: ComponentDelta, limits: Limits)
    returns (r: Result<map<u16, ComponentState>, Error>)
    requires WellKeyed(m)
    ensures r == ApplyComponent(m, d, limits) && (r.Ok? ==> WellKeyed(r.value))
  {
    if d.typeID == 0 {
      return Err(InvalidFrame);
    }
    if d.operation == COMPONENT_SET {
      if d.schemaVersion == 0 || |d.data| > limits.maxComponentBytes {
        return Err(ComponentTooLarge);
      }
      return Ok(m[d.typeID := ComponentState(d.typeID, d.schemaVersion, d.data)]);
    }
    if d.operation == COMPONENT_REMOVE {
      return Ok(m - {d.typeID});
    }
    return Err(InvalidFrame);
  }

  /** `out` lists what `rest` no longer holds of the map being ranged over. */
  ghost predicate ListedComponents(m: map<u16, ComponentState>, rest: map<u16, ComponentState>, out: seq<ComponentState>) {
    && WellKeyed(rest) && WellKeyed(m)
    && DistinctKeys(out, ComponentKey)
    && ComponentsView(out).Keys !! rest.Keys
    && ComponentsView(out) + rest == m
  }

  lemma {:induction false} ListComponentStep(m: map<u16, ComponentState>, rest: map<u16, ComponentState>,
                                             out: seq<ComponentState>, k: u16)
    requires ListedComponents(m, rest, out) && k in rest
    ensures ListedComponents(m, rest - {k}, [rest[k]] + out)
  {
    var c := rest[k];
    ComponentsViewKeys(out);
    forall d | d in out ensures ComponentKey(d) != ComponentKey(c) { assert d.typeID in ComponentsView(out); }
    DistinctCons(c, out, ComponentKey);
    assert ([c] + out)[1..] == out;
    MapMove(ComponentsView(out), k, rest);
  }

  lemma MapMove<K, V>(listed: map<K, V>, k: K, rest: map<K, V>)
    requires k in rest && listed.Keys !! rest.Keys
    ensures (map[k := rest[k]] + listed) + (rest - {k}) == listed + rest
  {}

  /** Ranges over the map in whatever order it yields its keys. */
  method ListComponentLoop(m: map<u16, ComponentState>) returns (out: seq<ComponentState>)
    requires WellKeyed(m)
    ensures DistinctKeys(out, ComponentKey) && ComponentsView(out) == m
  {
    out := [];
    var rest := m;
    MapEmpty(m);
    while rest != map[]
      invariant ListedComponents(m, rest, out)
      decreases |rest|
    {
      assert rest.Keys != {};
      var k :| k in rest.Keys;
      ListComponentStep(m, rest, out, k);
      MapRejoin(rest, k);
      out, rest := [rest[k]] + out, rest - {k};
    }
  }

  method ApplyComponentLoop(base: seq<ComponentState>, deltas: seq<ComponentDelta>, limits: Limits)
    returns (r: Result<seq<ComponentState>, Error>)
    ensures match ApplyComponents(ComponentsView(base), deltas, limits)
            case Err(e) => r == Err(e)
            case Ok(m) => r.Ok? && DistinctKeys(r.value, ComponentKey) && ComponentsView(r.value) == m
  {
    var components := IndexComponents(base);
    var k := 0;
    while k < |deltas|
      invariant 0 <= k <= |deltas|
      invariant WellKeyed(components)
      invariant ApplyComponents(ComponentsView(base), deltas, limits) == ApplyComponents(components, deltas[k..], limits)
    {
      assert deltas[k..][1..] == deltas[k + 1..];
      var next := ApplyComponentOnce(components, deltas[k], limits);
      if next.Err? {
        return Err(next.error);
      }
      components := next.value;
      if |components| > limits.maxComponentsPerObject {
        return Err(ComponentLimit);
      }
      k := k + 1;
    }
    var out := ListComponentLoop(components);
    return Ok(out);
  }

  // ---- Objects, held in a map of object states whose components are in no particular order ----

  ghost function Abstract(objects: map<ObjectRef, ObjectState>): map<ObjectRef, ObjectView> {
    map r | r in objects :: ViewOf(objects[r])
  }

  /** Every object is filed under its own reference and holds each component type once. */
  ghost predicate Filed(objects: map<ObjectRef, ObjectState>) {
    forall r :: r in objects ==> objects[r].ref == r && DistinctKeys(objects[r].components, ComponentKey)
  }

  lemma {:induction false} AbstractUpdate(objects: map<ObjectRef, ObjectState>, o: ObjectState)
    requires Filed(objects) && DistinctKeys(o.components, ComponentKey)
    ensures Abstract(objects[o.ref := o]) == Abstract(objects)[o.ref := ViewOf(o)]
    ensures Filed(objects[o.ref := o])
  {}

  /** A reference that is repeated is filed with its last object. */
  method IndexObjects(list: seq<ObjectState>) returns (objects: map<ObjectRef, ObjectState>)
    requires forall o :: o in list ==> DistinctKeys(o.components, ComponentKey)
    ensures Abstract(objects) == ObjectsView(list) && Filed(objects)
  {
    objects := map[];
    var k := 0;
    while k < |list|
      invariant 0 <= k <= |list|
      invariant Abstract(objects) + ObjectsView(list[k..]) == ObjectsView(list)
      invariant Filed(objects)
    {
      var o := list[k];
      assert list[k..][1..] == list[k + 1..];
      assert o in list;
      AbstractUpdate(objects, o);
      MapPush(Abstract(objects), o.ref, ViewOf(o), ObjectsView(list[k + 1..]));
      objects := objects[o.ref := o];
      k := k + 1;
    }
    assert Abstract(objects) + map[] == Abstract(objects);
  }

  lemma {:induction false} AbstractRemove(objects: map<ObjectRef, ObjectState>, r: ObjectRef)
    requires Filed(objects)
    ensures Abstract(objects - {r}) == Abstract(objects) - {r} && Filed(objects - {r})
  {}

  method ApplyObjectOnce(objects: map<ObjectRef, ObjectState>, d: ObjectDelta, limits: Limits)
    returns (r: Result<map<ObjectRef, ObjectState>, Error>)
    requires Filed(objects)
    ensures match ApplyObject(Abstract(objects), d, limits)
            case Err(e) => r == Err(e)
            case Ok(m) => r.Ok? && Filed(r.value) && Abstract(r.value) == m
  {
    if !d.ref.Valid() {
      return Err(InvalidObjectRef);
    }
    if d.operation == OBJECT_CREATE {
      if d.archetype == 0 {
        return Err(InvalidObjectRef);
      }
      var components := ApplyComponentLoop([], d.components, limits);
      if components.Err? {
        return Err(components.error);
      }
      var o := ObjectState(d.ref, d.archetype, components.value);
      AbstractUpdate(objects, o);
      return Ok(objects[d.ref := o]);
    }
    if d.operation == OBJECT_UPDATE {
      if d.ref !in objects {
        return Err(ObjectNotFound);
      }
      var previous := objects[d.ref];
      if d.archetype != 0 && d.archetype != previous.archetype {
        return Err(InvalidFrame);
      }
      var components := ApplyComponentLoop(previous.components, d.components, limits);
      if components.Err? {
        return Err(components.error);
      }
      var o := previous.(components := components.value);
      AbstractUpdate(objects, o);
      return Ok(objects[d.ref := o]);
    }
    if d.operation == OBJECT_REMOVE {
      AbstractRemove(objects, d.ref);
      return Ok(objects - {d.ref});
    }
    return Err(InvalidFrame);
  }

  ghost predicate ListedObjects(m: map<ObjectRef, ObjectState>, rest: map<ObjectRef, ObjectState>, out: seq<ObjectState>) {
    && Filed(rest) && Filed(m)
    && DistinctObjects(out)
    && ObjectsView(out).Keys !! rest.Keys
    && ObjectsView(out) + Abstract(rest) == Abstract(m)
    && |out| + |rest| == |m|
  }

  lemma {:induction false} ListObjectStep(m: map<ObjectRef, ObjectState>, rest: map<ObjectRef, ObjectState>,
                                          out: seq<ObjectState>, r: ObjectRef)
    requires ListedObjects(m, rest, out) && r in rest
    ensures ListedObjects(m, rest - {r}, [rest[r]] + out)
  {
    var o := rest[r];
    ObjectsViewKeys(out);
    forall p | p in out ensures p.ref != o.ref { assert p.ref in ObjectsView(out); }
    ObjectsCons(o, out);
    MapRejoin(rest, r);
    AbstractRemove(rest, r);
    MapMove(ObjectsView(out), r, Abstract(rest));
  }

  lemma {:induction false} ListedEnds(m: map<ObjectRef, ObjectState>, out: seq<ObjectState>)
    requires Filed(m)
    ensures ListedObjects(m, m, [])
    ensures ListedObjects(m, map[], out) ==> DistinctObjects(out) && ObjectsView(out) == Abstract(m) && |out| == |m|
  {
    MapEmpty(Abstract(m));
    assert ObjectsView(out) + Abstract(map[]) == ObjectsView(out);
  }

  method ListObjectLoop(m: map<ObjectRef, ObjectState>) returns (out: seq<ObjectState>)
    requires Filed(m)
    ensures DistinctObjects(out) && ObjectsView(out) == Abstract(m) && |out| == |m|
  {
    out := [];
    var rest := m;
    ListedEnds(m, out);
    while rest != map[]
      invariant ListedObjects(m, rest, out)
      decreases |rest|
    {
      assert rest.Keys != {};
      var r :| r in rest.Keys;
      ListObjectStep(m, rest, out, r);
      MapRejoin(rest, r);
      out, rest := [rest[r]] + out, rest - {r};
    }
    ListedEnds(m, out);
  }

  /** Two listings of the same objects normalize to the same snapshot, or are refused for the same reason. */
  lemma {:induction false} ListingIrrelevant(meta: SnapshotMeta, a: seq<ObjectState>, b: seq<ObjectState>, raw: Limits)
    requires DistinctObjects(a) && DistinctObjects(b) && |a| == |b| && ObjectsView(a) == ObjectsView(b)
    ensures NewSnapshot(meta, a, raw) == NewSnapshot(meta, b, raw)
  {
    NormalizeKeepsView(a);
    NormalizeKeepsView(b);
    ObjectsDetermined(Normalize(a), Normalize(b));
  }

  method ApplyObjectLoop(start: map<ObjectRef, ObjectState>, deltas: seq<ObjectDelta>, limits: Limits)
    returns (r: Result<map<ObjectRef, ObjectState>, Error>)
    requires Filed(start)
    ensures match ApplyObjects(Abstract(start), deltas, limits)
            case Err(e) => r == Err(e)
            case Ok(m) => r.Ok? && Filed(r.value) && Abstract(r.value) == m
  {
    var objects := start;
    var k := 0;
    while k < |deltas|
      invariant 0 <= k <= |deltas| && Filed(objects)
      invariant ApplyObjects(Abstract(start), deltas, limits) == ApplyObjects(Abstract(objects), deltas[k..], limits)
    {
      assert deltas[k..][1..] == deltas[k + 1..];
      var next := ApplyObjectOnce(objects, deltas[k], limits);
      if next.Err? {
        return Err(next.error);
      }
      objects := next.value;
      AbstractSize(objects);
      if |objects| > limits.maxObjects {
        return Err(ObjectLimit);
      }
      k := k + 1;
    }
    return Ok(objects);
  }

  lemma AbstractSize(objects: map<ObjectRef, ObjectState>)
    ensures |Abstract(objects)| == |objects|
  {
    assert Abstract(objects).Keys == objects.Keys;
  }

  /** The source's ApplyDelta, for a base none of whose objects repeats a component type. */
  method RebuildSnapshot(base: Option<Snapshot>, frame: DeltaFrame, raw: Limits) returns (r: Result<Snapshot, Error>)
    requires base.Some? ==> forall o :: o in base.value.objects ==> DistinctKeys(o.components, ComponentKey)
    ensures r == ApplyDelta(base, frame, raw)
  {
    if !frame.meta.Valid() {
      return Err(InvalidFrame);
    }
    var objects: map<ObjectRef, ObjectState> := map[];
    if frame.kind == FRAME_FULL {
      if frame.baseTick != 0 {
        return Err(InvalidFrame);
      }
    } else if frame.kind == FRAME_DELTA {
      if base.None? || frame.baseTick == 0 || base.value.meta.tick != frame.baseTick || !Compatible(base.value, frame.meta) {
        return Err(BaselineMismatch);
      }
      objects := IndexObjects(base.value.objects);
    } else {
      return Err(InvalidFrame);
    }
    assert StartingView(base, frame) == Ok(Abstract(objects));
    var applied := ApplyObjectLoop(objects, frame.objects, NormalizeLimits(raw));
    if applied.Err? {
      return Err(applied.error);
    }
    var listing := ListObjectLoop(applied.value);
    FiledWellKeyed(applied.value);
    ListObjectsView(Abstract(applied.value));
    AbstractSize(applied.value);
    ListingIrrelevant(frame.meta, listing, ListObjects(Abstract(applied.value)), raw);
    r := NormalizeSnapshot(frame.meta, listing, raw);
  }

  lemma {:induction false} FiledWellKeyed(objects: map<ObjectRef, ObjectState>)
    ensures WellKeyedObjects(Abstract(objects))
  {
    forall r | r in objects ensures WellKeyed(Abstract(objects)[r].components) {
      ComponentsViewKeys(objects[r].components);
    }
  }
}
