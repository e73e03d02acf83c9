/** The normal form of a snapshot: objects sorted by reference, components sorted by type. */
module Snapshots {
  import opened Common
  import opened Ordered
  import opened ReplicationTypes

  const ComponentKey: ComponentState -> int := (c: ComponentState) => c.typeID
  const ObjectKey: ObjectState -> int := (o: ObjectState) => o.ref.Rank()

  /** What an object means once the order of its components is forgotten. */
  datatype ObjectView = ObjectView(archetype: u16, components: map<u16, ComponentState>)

  function ComponentsView(cs: seq<ComponentState>): map<u16, ComponentState> {
    if cs == [] then map[] else map[cs[0].typeID := cs[0]] + ComponentsView(cs[1..])
  }

  function ViewOf(o: ObjectState): ObjectView {
    ObjectView(o.archetype, ComponentsView(o.components))
  }

  function ObjectsView(objects: seq<ObjectState>): map<ObjectRef, ObjectView> {
    if objects == [] then map[] else map[objects[0].ref := ViewOf(objects[0])] + ObjectsView(objects[1..])
  }

  function SortComponents(o: ObjectState): ObjectState {
    o.(components := Sort(o.components, ComponentKey))
  }

  function SortEach(objects: seq<ObjectState>): (r: seq<ObjectState>)
    ensures |r| == |objects|
    ensures forall i :: 0 <= i < |r| ==> r[i] == SortComponents(objects[i])
  {
    seq(|objects|, i requires 0 <= i < |objects| => SortComponents(objects[i]))
  }

  function Normalize(objects: seq<ObjectState>): (r: seq<ObjectState>)
    ensures |r| == |objects|
  {
    SortEach(Sort(objects, ObjectKey))
  }

  /** Checks components from index j on, carrying the running size estimate. */
  function ScanComponents(cs: seq<ComponentState>, j: nat, estimated: int, limits: Limits): Result<int, Error>
    requires j <= |cs|
    decreases |cs| - j
  {
    if j == |cs| then Ok(estimated)
    else if cs[j].typeID == 0 || cs[j].schemaVersion == 0 then Err(InvalidFrame)
    else if j > 0 && cs[j].typeID == cs[j - 1].typeID then Err(InvalidFrame)
    else if |cs[j].data| > limits.maxComponentBytes then Err(ComponentTooLarge)
    else if estimated + 12 + |cs[j].data| > limits.maxFrameBytes then Err(FrameTooLarge)
    else ScanComponents(cs, j + 1, estimated + 12 + |cs[j].data|, limits)
  }

  /** Checks object i against its neighbour and the limits. */
  function ScanObject(objects: seq<ObjectState>, i: nat, estimated: int, limits: Limits): Result<int, Error>
    requires i < |objects|
  {
    if !objects[i].ref.Valid() || objects[i].archetype == 0 then Err(InvalidObjectRef)
    else if i > 0 && objects[i].ref == objects[i - 1].ref then Err(InvalidFrame)
    else if |objects[i].components| > limits.maxComponentsPerObject then Err(ComponentLimit)
    else ScanComponents(objects[i].components, 0, estimated + 9, limits)
  }

  /** Checks objects from index i on, in the order the normalizing loop visits them. */
  function ScanObjects(objects: seq<ObjectState>, i: nat, estimated: int, limits: Limits): Result<int, Error>
    requires i <= |objects|
    decreases |objects| - i
  {
    if i == |objects| then Ok(estimated)
    else
      match ScanObject(objects, i, estimated, limits)
      case Err(e) => Err(e)
      case Ok(next) => ScanObjects(objects, i + 1, next, limits)
  }

  function NewSnapshot(meta: SnapshotMeta, objects: seq<ObjectState>, raw: Limits): Result<Snapshot, Error> {
    var limits := NormalizeLimits(raw);
    if !meta.Valid() then Err(InvalidFrame)
    else if |objects| > limits.maxObjects then Err(ObjectLimit)
    else
      var sorted := Normalize(objects);
      match ScanObjects(sorted, 0, 32, limits)
      case Err(e) => Err(e)
      case Ok(_) => Ok(Snapshot(meta, sorted))
  }

  predicate GoodComponent(c: ComponentState, limits: Limits) {
    c.typeID != 0 && c.schemaVersion != 0 && |c.data| <= limits.maxComponentBytes
  }

  ghost predicate GoodObject(o: ObjectState, limits: Limits) {
    && o.ref.Valid() && o.archetype != 0
    && |o.components| <= limits.maxComponentsPerObject
    && Strict(o.components, ComponentKey)
    && forall c :: c in o.components ==> GoodComponent(c, limits)
  }

  ghost predicate GoodObjects(objects: seq<ObjectState>, limits: Limits) {
    && Strict(objects, ObjectKey)
    && forall o :: o in objects ==> GoodObject(o, limits)
  }

  /** The normal form that every published, projected or rebuilt snapshot is in. */
  ghost predicate Normal(s: Snapshot, raw: Limits) {
    var limits := NormalizeLimits(raw);
    && s.meta.Valid()
    && |s.objects| <= limits.maxObjects
    && GoodObjects(s.objects, limits)
    && ScanObjects(s.objects, 0, 32, limits).Ok?
  }

  // ---- Views of strictly sorted sequences ----

  lemma {:induction false} ComponentsViewKeys(cs: seq<ComponentState>)
    ensures forall k :: k in ComponentsView(cs) <==> exists c :: c in cs && c.typeID == k
    ensures forall k :: k in ComponentsView(cs) ==> ComponentsView(cs)[k] in cs && ComponentsView(cs)[k].typeID == k
  {
    if cs != [] {
      ComponentsViewKeys(cs[1..]);
      assert cs == [cs[0]] + cs[1..];
      forall k ensures k in ComponentsView(cs) <==> exists c :: c in cs && c.typeID == k {
        if c :| c in cs && c.typeID == k { assert c == cs[0] || c in cs[1..]; }
      }
    }
  }

  lemma {:induction false} ComponentsViewAt(cs: seq<ComponentState>, c: ComponentState)
    requires DistinctKeys(cs, ComponentKey) && c in cs
    ensures c.typeID in ComponentsView(cs) && ComponentsView(cs)[c.typeID] == c
  {
    ComponentsViewKeys(cs);
    var d := ComponentsView(cs)[c.typeID];
    var i :| 0 <= i < |cs| && cs[i] == c;
    var j :| 0 <= j < |cs| && cs[j] == d;
    assert ComponentKey(cs[i]) == ComponentKey(cs[j]);
    assert i == j by {
      if i < j { assert false; } else if j < i { assert false; }
    }
  }

  lemma {:induction false} ObjectsViewKeys(objects: seq<ObjectState>)
    ensures forall r :: r in ObjectsView(objects) <==> exists o :: o in objects && o.ref == r
    ensures forall r :: r in ObjectsView(objects) ==>
              exists o :: o in objects && o.ref == r && ViewOf(o) == ObjectsView(objects)[r]
  {
    if objects != [] {
      ObjectsViewKeys(objects[1..]);
      assert objects == [objects[0]] + objects[1..];
      forall r ensures r in ObjectsView(objects) <==> exists o :: o in objects && o.ref == r {
        if o :| o in objects && o.ref == r { assert o == objects[0] || o in objects[1..]; }
      }
    }
  }

  lemma {:induction false} ObjectsViewAt(objects: seq<ObjectState>, o: ObjectState)
    requires DistinctKeys(objects, ObjectKey) && o in objects
    ensures o.ref in ObjectsView(objects) && ObjectsView(objects)[o.ref] == ViewOf(o)
  {
    ObjectsViewKeys(objects);
    var p :| p in objects && p.ref == o.ref && ViewOf(p) == ObjectsView(objects)[o.ref];
    var i :| 0 <= i < |objects| && objects[i] == o;
    var j :| 0 <= j < |objects| && objects[j] == p;
    assert ObjectKey(objects[i]) == ObjectKey(objects[j]);
    assert i == j by {
      if i < j { assert false; } else if j < i { assert false; }
    }
  }

  /** Sorted components are determined by their view. */
  lemma {:induction false} ComponentsDetermined(a: seq<ComponentState>, b: seq<ComponentState>)
    requires Strict(a, ComponentKey) && Strict(b, ComponentKey)
    requires ComponentsView(a) == ComponentsView(b)
    ensures a == b
  {
    ComponentsViewKeys(a);
    ComponentsViewKeys(b);
    forall c ensures c in a <==> c in b {
      if c in a { ComponentsViewAt(a, c); }
      if c in b { ComponentsViewAt(b, c); }
    }
    StrictUnique(a, b, ComponentKey);
  }

  ghost predicate SortedObjects(objects: seq<ObjectState>) {
    Strict(objects, ObjectKey) && forall o :: o in objects ==> Strict(o.components, ComponentKey)
  }

  lemma {:induction false} ObjectTransfers(a: seq<ObjectState>, b: seq<ObjectState>, o: ObjectState)
    requires SortedObjects(a) && SortedObjects(b)
    requires ObjectsView(a) == ObjectsView(b) && o in a
    ensures o in b
  {
    ObjectsViewAt(a, o);
    ObjectsViewKeys(b);
    var p :| p in b && p.ref == o.ref && ViewOf(p) == ObjectsView(b)[o.ref];
    ComponentsDetermined(o.components, p.components);
  }

  /** A snapshot in normal form is determined by its view: order carries no information. */
  lemma {:induction false} ObjectsDetermined(a: seq<ObjectState>, b: seq<ObjectState>)
    requires SortedObjects(a) && SortedObjects(b)
    requires ObjectsView(a) == ObjectsView(b)
    ensures a == b
  {
    forall o ensures o in a <==> o in b {
      if o in a { ObjectTransfers(a, b, o); }
      if o in b { ObjectTransfers(b, a, o); }
    }
    StrictUnique(a, b, ObjectKey);
  }

  // ---- What normalizing does to the view ----

  ghost predicate DistinctObjects(objects: seq<ObjectState>) {
    DistinctKeys(objects, ObjectKey) && forall o :: o in objects ==> DistinctKeys(o.components, ComponentKey)
  }

  lemma {:induction false} SortComponentsView(cs: seq<ComponentState>)
    requires DistinctKeys(cs, ComponentKey)
    ensures Strict(Sort(cs, ComponentKey), ComponentKey)
    ensures ComponentsView(Sort(cs, ComponentKey)) == ComponentsView(cs)
  {
    var sorted := Sort(cs, ComponentKey);
    SortStrict(cs, ComponentKey);
    ComponentsViewKeys(cs);
    ComponentsViewKeys(sorted);
    forall k | k in ComponentsView(cs) ensures ComponentsView(sorted)[k] == ComponentsView(cs)[k] {
      ComponentsViewAt(cs, ComponentsView(sorted)[k]);
    }
  }

  lemma {:induction false} NormalizeMembers(objects: seq<ObjectState>)
    ensures forall o :: o in objects ==> SortComponents(o) in Normalize(objects)
    ensures forall p :: p in Normalize(objects) ==> exists o :: o in objects && p == SortComponents(o)
  {}

  /** Normalizing sorts a listing without changing what it means. */
  lemma {:induction false} NormalizeKeepsView(objects: seq<ObjectState>)
    requires DistinctObjects(objects)
    ensures SortedObjects(Normalize(objects))
    ensures ObjectsView(Normalize(objects)) == ObjectsView(objects)
  {
    var r := Normalize(objects);
    SortStrict(objects, ObjectKey);
    NormalizeMembers(objects);
    assert Strict(r, ObjectKey);
    forall p | p in r ensures Strict(p.components, ComponentKey) {
      var o :| o in objects && p == SortComponents(o);
      SortComponentsView(o.components);
    }
    ObjectsViewKeys(objects);
    ObjectsViewKeys(r);
    forall ref ensures ref in ObjectsView(r) <==> ref in ObjectsView(objects) {
      if o :| o in objects && o.ref == ref { assert SortComponents(o) in r; }
    }
    forall o | o in objects ensures ObjectsView(r)[o.ref] == ObjectsView(objects)[o.ref] {
      ObjectsViewAt(objects, o);
      ObjectsViewAt(r, SortComponents(o));
      SortComponentsView(o.components);
    }
  }

  // ---- What an accepting scan says ----

  lemma {:induction false} ScanComponentsGood(cs: seq<ComponentState>, j: nat, estimated: int, limits: Limits)
    requires j <= |cs| && ScanComponents(cs, j, estimated, limits).Ok?
    ensures forall k :: j <= k < |cs| ==> GoodComponent(cs[k], limits)
    ensures forall k :: j <= k < |cs| && k > 0 ==> cs[k].typeID != cs[k - 1].typeID
    decreases |cs| - j
  {
    if j < |cs| {
      ScanComponentsGood(cs, j + 1, estimated + 12 + |cs[j].data|, limits);
    }
  }

  lemma {:induction false} ScanObjectsGood(objects: seq<ObjectState>, i: nat, estimated: int, limits: Limits)
    requires i <= |objects| && ScanObjects(objects, i, estimated, limits).Ok?
    ensures forall k :: i <= k < |objects| ==>
              && objects[k].ref.Valid() && objects[k].archetype != 0
              && |objects[k].components| <= limits.maxComponentsPerObject
              && (forall j :: 0 <= j < |objects[k].components| ==> GoodComponent(objects[k].components[j], limits))
              && (forall j :: 0 < j < |objects[k].components| ==>
                    objects[k].components[j].typeID != objects[k].components[j - 1].typeID)
    ensures forall k :: i <= k < |objects| && k > 0 ==> objects[k].ref != objects[k - 1].ref
    decreases |objects| - i
  {
    if i < |objects| {
      ScanComponentsGood(objects[i].components, 0, estimated + 9, limits);
      ScanObjectsGood(objects, i + 1, ScanComponents(objects[i].components, 0, estimated + 9, limits).value, limits);
    }
  }

  lemma {:induction false} AscendingWithoutRepeats<T>(s: seq<T>, key: T -> int)
    requires Ascending(s, key)
    requires forall k :: 0 < k < |s| ==> key(s[k]) != key(s[k - 1])
    ensures Strict(s, key)
  {
    forall i, j | 0 <= i < j < |s| ensures key(s[i]) < key(s[j]) {
      assert key(s[i]) <= key(s[j - 1]);
    }
  }

  lemma {:induction false} NormalizeAscends(objects: seq<ObjectState>)
    ensures Ascending(Normalize(objects), ObjectKey)
    ensures forall i :: 0 <= i < |objects| ==> Ascending(Normalize(objects)[i].components, ComponentKey)
  {}

  /** Every accepted snapshot is in normal form. */
  lemma {:induction false} NewSnapshotNormal(meta: SnapshotMeta, objects: seq<ObjectState>, raw: Limits)
    requires NewSnapshot(meta, objects, raw).Ok?
    ensures Normal(NewSnapshot(meta, objects, raw).value, raw)
  {
    var limits := NormalizeLimits(raw);
    var r := Normalize(objects);
    ScanObjectsGood(r, 0, 32, limits);
    NormalizeAscends(objects);
    forall k | 0 < k < |r| ensures ObjectKey(r[k]) != ObjectKey(r[k - 1]) {
      RankOrdersRefs(r[k].ref, r[k - 1].ref);
    }
    AscendingWithoutRepeats(r, ObjectKey);
    forall i | 0 <= i < |r| ensures GoodObject(r[i], limits) {
      AscendingWithoutRepeats(r[i].components, ComponentKey);
    }
  }

  /** Normalizing any listing of a snapshot in normal form gives that snapshot back. */
  lemma {:induction false} NewSnapshotCanonical(s: Snapshot, listing: seq<ObjectState>, raw: Limits)
    requires Normal(s, raw)
    requires DistinctObjects(listing) && |listing| == |s.objects|
    requires ObjectsView(listing) == ObjectsView(s.objects)
    ensures NewSnapshot(s.meta, listing, raw) == Ok(s)
  {
    NormalizeKeepsView(listing);
    ObjectsDetermined(Normalize(listing), s.objects);
  }

  // ---- The normalizing loop ----

  method ScanComponentLoop(cs: seq<ComponentState>, start: int, limits: Limits) returns (r: Result<int, Error>)
    ensures r == ScanComponents(cs, 0, start, limits)
  {
    var estimated := start;
    var j := 0;
    while j < |cs|
      invariant 0 <= j <= |cs|
      invariant ScanComponents(cs, 0, start, limits) == ScanComponents(cs, j, estimated, limits)
    {
      var component := cs[j];
      if component.typeID == 0 || component.schemaVersion == 0 {
        return Err(InvalidFrame);
      }
      if j > 0 && component.typeID == cs[j - 1].typeID {
        return Err(InvalidFrame);
      }
      if |component.data| > limits.maxComponentBytes {
        return Err(ComponentTooLarge);
      }
      estimated := estimated + 12 + |component.data|;
      if estimated > limits.maxFrameBytes {
        return Err(FrameTooLarge);
      }
      j := j + 1;
    }
    return Ok(estimated);
  }

  method ScanObjectOnce(objects: seq<ObjectState>, i: nat, estimated: int, limits: Limits) returns (r: Result<int, Error>)
    requires i < |objects|
    ensures r == ScanObject(objects, i, estimated, limits)
  {
    var obj := objects[i];
    if !obj.ref.Valid() || obj.archetype == 0 {
      return Err(InvalidObjectRef);
    }
    if i > 0 && obj.ref == objects[i - 1].ref {
      return Err(InvalidFrame);
    }
    if |obj.components| > limits.maxComponentsPerObject {
      return Err(ComponentLimit);
    }
    r := ScanComponentLoop(obj.components, estimated + 9, limits);
  }

  method ScanObjectLoop(objects: seq<ObjectState>, limits: Limits) returns (r: Result<int, Error>)
    ensures r == ScanObjects(objects, 0, 32, limits)
  {
    var estimated := 32;
    var i := 0;
    while i < |objects|
      invariant 0 <= i <= |objects|
      invariant ScanObjects(objects, 0, 32, limits) == ScanObjects(objects, i, estimated, limits)
    {
      var scanned := ScanObjectOnce(objects, i, estimated, limits);
      if scanned.Err? {
        return scanned;
      }
      estimated := scanned.value;
      i := i + 1;
    }
    return Ok(estimated);
  }

  /** The source's NewSnapshot: sort the copied objects, then check them one by one. */
  method NormalizeSnapshot(meta: SnapshotMeta, objects: seq<ObjectState>, raw: Limits) returns (r: Result<Snapshot, Error>)
    ensures r == NewSnapshot(meta, objects, raw)
  {
    if !meta.Valid() {
      return Err(InvalidFrame);
    }
    var limits := NormalizeLimits(raw);
    if |objects| > limits.maxObjects {
      return Err(ObjectLimit);
    }
    var sorted := Normalize(objects);
    var scanned := ScanObjectLoop(sorted, limits);
    if scanned.Err? {
      return Err(scanned.error);
    }
    return Ok(Snapshot(meta, sorted));
  }
}
