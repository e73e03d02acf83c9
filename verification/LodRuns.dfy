/**
 * Runs of the level-of-detail projector: every tick is projected from what was shown the tick before. Sources, full
 * refreshes and decisions are arbitrary; objects and components come and go.
 */
module LodRuns {
  import opened Common
  import opened ReplicationTypes
  import opened Lod
  import Arithmetic
  import opened Sessions

  /** What the projector is given at each tick. */
  datatype Feed = Feed(source: u32 -> Snapshot, full: u32 -> bool, select: u32 -> Selector)

  ghost function PreviousAt(p: Projector, feed: Feed, first: u32, t: u32): Option<Snapshot>
    requires first <= t
    decreases t, 0
  {
    if t == first then None
    else match ShownAt(p, feed, first, t - 1) case Ok(s) => Some(s) case Err(_) => None
  }

  /** The projection of tick t. */
  ghost function ShownAt(p: Projector, feed: Feed, first: u32, t: u32): Result<Snapshot, LodError>
    requires first <= t
    decreases t, 1
  {
    Project(p, feed.full(t), PreviousAt(p, feed, first, t), feed.source(t), feed.select(t))
  }

  function Lookup(objects: map<ObjectRef, ObjectState>, ref: ObjectRef): Option<ObjectState> {
    if ref in objects then Some(objects[ref]) else None
  }

  /** The component of an object of a snapshot, if both are there. */
  function ComponentOf(objects: seq<ObjectState>, ref: ObjectRef, typeID: u16): Option<ComponentState> {
    if ref in ByRef(objects) then FindComponent(ByRef(objects)[ref].components, typeID) else None
  }

  function SourceAt(feed: Feed, t: u32, ref: ObjectRef, typeID: u16): Option<ComponentState> {
    ComponentOf(feed.source(t).objects, ref, typeID)
  }

  ghost function SeenAt(p: Projector, feed: Feed, first: u32, t: u32, ref: ObjectRef, typeID: u16): Option<ComponentState>
    requires first <= t
  {
    var r := ShownAt(p, feed, first, t);
    if r.Ok? then ComponentOf(r.value.objects, ref, typeID) else None
  }

  /** The selector's decision about an object is d whenever it is asked. */
  ghost predicate Decides(select: Selector, objects: seq<ObjectState>, ref: ObjectRef, d: Decision) {
    forall o :: o in objects && o.ref == ref ==> select(o) == Ok(d)
  }

  /** Every tick from first to last is projected without an error, and the decision about the object is d. */
  ghost predicate Projected(p: Projector, feed: Feed, first: u32, last: u32, ref: ObjectRef, d: Decision)
    requires first <= last
  {
    forall t: u32 :: first <= t <= last ==>
      && ShownAt(p, feed, first, t).Ok? && feed.source(t).meta.tick == t && Decides(feed.select(t), feed.source(t).objects, ref, d)
  }

  // ---- One object of a projection ----

  lemma {:induction false} ByRefConcat(a: seq<ObjectState>, b: seq<ObjectState>)
    ensures ByRef(a + b) == ByRef(a) + ByRef(b)
  {
    if b == [] {
      assert a + b == a;
    } else {
      var (n, last) := (|b| - 1, b[|b| - 1]);
      assert (a + b)[..|a| + n] == a + b[..n] && (a + b)[|a| + n] == last;
      ByRefConcat(a, b[..n]);
      assert ByRef(a) + ByRef(b[..n])[last.ref := last] == (ByRef(a) + ByRef(b[..n]))[last.ref := last];
    }
  }

  lemma {:induction false} ByRefOne(o: ObjectState)
    ensures ByRef([o]) == map[o.ref := o]
  {
    assert [o][..0] == [];
  }

  lemma {:induction false} ByRefKeys(objects: seq<ObjectState>, ref: ObjectRef)
    ensures ref in ByRef(objects) ==> ByRef(objects)[ref] in objects && ByRef(objects)[ref].ref == ref
  {
    if objects != [] { ByRefKeys(objects[..|objects| - 1], ref); }
  }

  /** What a projection shows under a reference is the projection of the source's object. */
  lemma {:induction false} ObjectShown(p: Projector, tick: u32, full: bool, previous: map<ObjectRef, ObjectState>, os: seq<ObjectState>,
                                       select: Selector, ref: ObjectRef, d: Decision)
    requires ProjectObjects(p, tick, full, previous, os, select).Ok? && Decides(select, os, ref, d) && d.level != CULLED
    ensures var out := ByRef(ProjectObjects(p, tick, full, previous, os, select).value);
            && (ref in out <==> ref in ByRef(os))
            && (ref in out ==> out[ref] == ProjectObject(p, tick, full, Lookup(previous, ref), ByRef(os)[ref], d))
  {
    if os != [] {
      var (first, rest) := (ProjectFirst(p, tick, full, previous, os[0], select).value,
                            ProjectObjects(p, tick, full, previous, os[1..], select).value);
      ObjectShown(p, tick, full, previous, os[1..], select, ref, d);
      assert os == [os[0]] + os[1..];
      ByRefConcat([os[0]], os[1..]);
      ByRefOne(os[0]);
      ByRefConcat(first, rest);
      if first != [] { ByRefOne(first[0]); }
    }
  }

  /** The object shown before, if the snapshot shown before is comparable and has it. */
  ghost function BeforeAt(p: Projector, feed: Feed, first: u32, t: u32, ref: ObjectRef): Option<ObjectState>
    requires first <= t
  {
    Lookup(PreviousObjects(PreviousAt(p, feed, first, t), feed.source(t).meta), ref)
  }

  /** What is seen of a component at a tick: nothing when the source has none, the selected value otherwise. */
  lemma {:induction false} SeenSelected(p: Projector, feed: Feed, first: u32, t: u32, ref: ObjectRef, typeID: u16, d: Decision)
    requires first <= t && ShownAt(p, feed, first, t).Ok? && feed.source(t).meta.tick == t
    requires Decides(feed.select(t), feed.source(t).objects, ref, d) && Limited(p, typeID, d)
    ensures var source := SourceAt(feed, t, ref, typeID);
            SeenAt(p, feed, first, t, ref, typeID)
            == if source.None? then None
               else Some(Select(p, t, feed.full(t), BeforeAt(p, feed, first, t, ref), ByRef(feed.source(t).objects)[ref], source.value, d))
  {
    var (s, before) := (feed.source(t), BeforeAt(p, feed, first, t, ref));
    ObjectShown(p, t, feed.full(t), PreviousObjects(PreviousAt(p, feed, first, t), s.meta), s.objects, feed.select(t), ref, d);
    if ref in ByRef(s.objects) {
      var o := ByRef(s.objects)[ref];
      FindProjected(p, t, feed.full(t), before, o, o.components, d, typeID);
    }
  }

  /** The limits a component is under: registered, shown at this level, and slower than the snapshots. */
  predicate Limited(p: Projector, typeID: u16, d: Decision) {
    typeID in p.registry && !Omitted(p, typeID, d) && 0 < EffectiveRate(p, p.registry[typeID], d) < p.snapshotRateHz
  }

  function IntervalOf(p: Projector, typeID: u16, d: Decision): (k: nat)
    requires Limited(p, typeID, d)
    ensures k > 0
  {
    IntervalPositive(p.snapshotRateHz as int, EffectiveRate(p, p.registry[typeID], d) as int);
    Interval(p.snapshotRateHz as int, EffectiveRate(p, p.registry[typeID], d) as int)
  }

  // ---- Refreshed or kept ----

  /** The branch of the projector that goes on with the earlier value. */
  predicate Keeps(p: Projector, tick: u32, full: bool, before: Option<ObjectState>, o: ObjectState, c: ComponentState, d: Decision) {
    c.typeID in p.registry && !full && Continues(before, o, c) && !RefreshDue(p, tick, p.registry[c.typeID], d)
  }

  /** The source's value is taken at this tick. */
  ghost predicate RefreshedAt(p: Projector, feed: Feed, first: u32, t: u32, ref: ObjectRef, typeID: u16, d: Decision)
    requires first <= t
  {
    var source := SourceAt(feed, t, ref, typeID);
    source.Some?
    && !Keeps(p, t, feed.full(t), BeforeAt(p, feed, first, t, ref), ByRef(feed.source(t).objects)[ref], source.value, d)
  }

  /** A full refresh, or no earlier value to go on with: a new object or component, another archetype or schema version. */
  ghost predicate ForcedAt(p: Projector, feed: Feed, first: u32, t: u32, ref: ObjectRef, typeID: u16)
    requires first <= t
  {
    var source := SourceAt(feed, t, ref, typeID);
    source.Some?
    && (feed.full(t) || !Continues(BeforeAt(p, feed, first, t, ref), ByRef(feed.source(t).objects)[ref], source.value))
  }

  lemma {:induction false} SourceType(feed: Feed, t: u32, ref: ObjectRef, typeID: u16)
    ensures SourceAt(feed, t, ref, typeID).Some? ==> SourceAt(feed, t, ref, typeID).value.typeID == typeID
  {
    if ref in ByRef(feed.source(t).objects) { FoundType(ByRef(feed.source(t).objects)[ref].components, typeID); }
  }

  /** A tick at which nothing forces a refresh has one if and only if it is due. */
  lemma {:induction false} RefreshedWhenDue(p: Projector, feed: Feed, first: u32, t: u32, ref: ObjectRef, typeID: u16, d: Decision)
    requires first <= t && Limited(p, typeID, d) && SourceAt(feed, t, ref, typeID).Some?
    ensures RefreshedAt(p, feed, first, t, ref, typeID, d)
            <==> ForcedAt(p, feed, first, t, ref, typeID) || t % IntervalOf(p, typeID, d) == 0
  {
    SourceType(feed, t, ref, typeID);
  }

  lemma {:induction false} BeforeSeen(p: Projector, feed: Feed, first: u32, t: u32, ref: ObjectRef, typeID: u16)
    requires first <= t && BeforeAt(p, feed, first, t, ref).Some?
    ensures first < t
    ensures FindComponent(BeforeAt(p, feed, first, t, ref).value.components, typeID) == SeenAt(p, feed, first, t - 1, ref, typeID)
  {}

  /** What a refresh means for the client: it sees the source's value, and otherwise what it saw the tick before. */
  lemma {:induction false} RefreshedOrKept(p: Projector, feed: Feed, first: u32, t: u32, ref: ObjectRef, typeID: u16, d: Decision)
    requires first <= t && Projected(p, feed, first, t, ref, d) && Limited(p, typeID, d)
    ensures SeenAt(p, feed, first, t, ref, typeID).Some? <==> SourceAt(feed, t, ref, typeID).Some?
    ensures SourceAt(feed, t, ref, typeID).Some? ==>
              if RefreshedAt(p, feed, first, t, ref, typeID, d)
              then SeenAt(p, feed, first, t, ref, typeID) == SourceAt(feed, t, ref, typeID)
              else first < t && SeenAt(p, feed, first, t, ref, typeID) == SeenAt(p, feed, first, t - 1, ref, typeID)
  {
    SeenSelected(p, feed, first, t, ref, typeID, d);
    SourceType(feed, t, ref, typeID);
    if BeforeAt(p, feed, first, t, ref).Some? { BeforeSeen(p, feed, first, t, ref, typeID); }
  }

  // ---- Staleness ----

  ghost predicate NoneDue(u: u32, t: u32, k: nat)
    requires k > 0
  {
    forall v: u32 :: u < v <= t ==> v % k != 0
  }

  lemma {:induction false} NoneDueShort(u: u32, t: u32, k: nat)
    requires u <= t && k > 0 && NoneDue(u, t, k)
    ensures t - u < k
  {
    var v := t - t % k;
    assert v % k == 0 by { Arithmetic.DivUnique(v, k, t / k, 0); }
    assert !(u < v <= t);
  }

  /** u is a tick whose source value is seen at t, and none after it was due. */
  ghost predicate SeenFrom(p: Projector, feed: Feed, first: u32, t: u32, u: u32, ref: ObjectRef, typeID: u16, d: Decision)
    requires Limited(p, typeID, d)
  {
    && first <= u <= t && NoneDue(u, t, IntervalOf(p, typeID, d))
    && SeenAt(p, feed, first, t, ref, typeID) == SourceAt(feed, u, ref, typeID)
  }

  lemma {:induction false} KeptFrom(p: Projector, feed: Feed, first: u32, t: u32, u: u32, ref: ObjectRef, typeID: u16, d: Decision)
    requires Limited(p, typeID, d) && first < t && SeenFrom(p, feed, first, t - 1, u, ref, typeID, d)
    requires SourceAt(feed, t, ref, typeID).Some? && !RefreshedAt(p, feed, first, t, ref, typeID, d)
    requires SeenAt(p, feed, first, t, ref, typeID) == SeenAt(p, feed, first, t - 1, ref, typeID)
    ensures SeenFrom(p, feed, first, t, u, ref, typeID, d)
  {
    RefreshedWhenDue(p, feed, first, t, ref, typeID, d);
  }

  lemma {:induction false} ProjectedBefore(p: Projector, feed: Feed, first: u32, t: u32, ref: ObjectRef, d: Decision)
    requires first < t && Projected(p, feed, first, t, ref, d)
    ensures Projected(p, feed, first, t - 1, ref, d)
  {}

  /**
   * Under a fixed decision, a limited component is seen at a tick exactly when the source has it, and what is seen is
   * the source's value from fewer than interval ticks earlier.
   */
  lemma {:induction false} StalenessIsBounded(p: Projector, feed: Feed, first: u32, t: u32, ref: ObjectRef, typeID: u16, d: Decision)
    returns (u: u32)
    requires first <= t && Projected(p, feed, first, t, ref, d) && Limited(p, typeID, d)
    ensures SeenAt(p, feed, first, t, ref, typeID).Some? <==> SourceAt(feed, t, ref, typeID).Some?
    ensures first <= u <= t && t - u < IntervalOf(p, typeID, d)
    ensures SeenAt(p, feed, first, t, ref, typeID).Some? ==> SeenFrom(p, feed, first, t, u, ref, typeID, d)
    decreases t
  {
    RefreshedOrKept(p, feed, first, t, ref, typeID, d);
    u := t;
    if SourceAt(feed, t, ref, typeID).Some? && !RefreshedAt(p, feed, first, t, ref, typeID, d) {
      ProjectedBefore(p, feed, first, t, ref, d);
      u := StalenessIsBounded(p, feed, first, t - 1, ref, typeID, d);
      KeptFrom(p, feed, first, t, u, ref, typeID, d);
      NoneDueShort(u, t, IntervalOf(p, typeID, d));
    }
  }

  // ---- Rate ----

  /** How many of the n ticks from start refresh the component, and how many of them are forced to. */
  ghost function Refreshes(p: Projector, feed: Feed, first: u32, start: u32, n: nat, ref: ObjectRef, typeID: u16, d: Decision): nat
    requires first <= start && start + n <= 0x1_0000_0000
  {
    if n == 0 then 0
    else Refreshes(p, feed, first, start, n - 1, ref, typeID, d)
         + (if RefreshedAt(p, feed, first, start + n - 1, ref, typeID, d) then 1 else 0)
  }

  ghost function ForcedTicks(p: Projector, feed: Feed, first: u32, start: u32, n: nat, ref: ObjectRef, typeID: u16): nat
    requires first <= start && start + n <= 0x1_0000_0000
  {
    if n == 0 then 0
    else ForcedTicks(p, feed, first, start, n - 1, ref, typeID)
         + (if ForcedAt(p, feed, first, start + n - 1, ref, typeID) then 1 else 0)
  }

  lemma {:induction false} RefreshesCounted(p: Projector, feed: Feed, first: u32, start: u32, n: nat, ref: ObjectRef, typeID: u16,
                                            d: Decision)
    requires first <= start && start + n <= 0x1_0000_0000 && Limited(p, typeID, d)
    ensures Refreshes(p, feed, first, start, n, ref, typeID, d)
            <= DueCount(start, n, IntervalOf(p, typeID, d)) + ForcedTicks(p, feed, first, start, n, ref, typeID)
  {
    if n > 0 {
      RefreshesCounted(p, feed, first, start, n - 1, ref, typeID, d);
      if SourceAt(feed, start + n - 1, ref, typeID).Some? {
        RefreshedWhenDue(p, feed, first, start + n - 1, ref, typeID, d);
      }
    }
  }

  /**
   * In any second's worth of consecutive ticks a limited component is refreshed at most as often as its rate allows,
   * plus once for each tick at which a refresh is forced.
   */
  lemma {:induction false} RateIsKept(p: Projector, feed: Feed, first: u32, start: u32, ref: ObjectRef, typeID: u16, d: Decision)
    requires first <= start && start + p.snapshotRateHz as int <= 0x1_0000_0000 && Limited(p, typeID, d)
    ensures Refreshes(p, feed, first, start, p.snapshotRateHz as int, ref, typeID, d)
            <= EffectiveRate(p, p.registry[typeID], d) as int
               + ForcedTicks(p, feed, first, start, p.snapshotRateHz as int, ref, typeID)
  {
    RefreshesCounted(p, feed, first, start, p.snapshotRateHz as int, ref, typeID, d);
    DueWithinRate(p, p.registry[typeID], d, start);
  }

  /** A session without an acknowledgement, or with a full frame due, asks for a full refresh. */
  lemma {:induction false} UnackedIsFull(s: Session, tick: u32)
    requires !s.closed && (s.ackTick == 0 || s.forceFull)
    ensures Prepare(s, tick).1.Ok? && Prepare(s, tick).1.value.fullRefresh
  {}

  /** Full refreshes ignore the rate: a client that acknowledges nothing is refreshed at every tick. */
  lemma {:induction false} UnackedRefreshesAlways(p: Projector, feed: Feed, first: u32, start: u32, n: nat, ref: ObjectRef, typeID: u16,
                                                  d: Decision)
    requires first <= start && start + n <= 0x1_0000_0000 && Limited(p, typeID, d)
    requires forall t: u32 :: start <= t < start + n ==> feed.full(t) && SourceAt(feed, t, ref, typeID).Some?
    ensures Refreshes(p, feed, first, start, n, ref, typeID, d) == n
    ensures n == p.snapshotRateHz as int ==> n > EffectiveRate(p, p.registry[typeID], d) as int
  {
    if n > 0 {
      UnackedRefreshesAlways(p, feed, first, start, n - 1, ref, typeID, d);
      assert feed.full(start + n - 1);
    }
  }

  // ---- One tick shown in two ways ----

  lemma {:induction false} AllCulled(p: Projector, tick: u32, full: bool, previous: map<ObjectRef, ObjectState>, os: seq<ObjectState>,
                                     cull: Selector)
    requires forall o :: cull(o) == Ok(Decision(CULLED, 0, 0))
    ensures ProjectObjects(p, tick, full, previous, os, cull) == Ok([])
  {
    if os != [] {
      AllCulled(p, tick, full, previous, os[1..], cull);
      var none: seq<ObjectState> := [];
      assert none + none == none;
    }
  }

  lemma {:induction false} AllKept(p: Projector, tick: u32, full: bool, previous: map<ObjectRef, ObjectState>, os: seq<ObjectState>,
                                   keep: Selector, d: Decision)
    requires (forall o :: keep(o) == Ok(d)) && ValidDecision(d) && d.level != CULLED
    ensures var r := ProjectObjects(p, tick, full, previous, os, keep); r.Ok? && |r.value| == |os|
  {
    if os != [] { AllKept(p, tick, full, previous, os[1..], keep, d); }
  }

  /** A selector that culls in one tier and keeps in another shows every snapshot with objects in two ways. */
  lemma {:induction false} TiersShowTwoWays(p: Projector, full: bool, previous: Option<Snapshot>, s: Snapshot, cull: Selector,
                                            keep: Selector, d: Decision)
    requires s.objects != [] && (forall o :: cull(o) == Ok(Decision(CULLED, 0, 0)))
    requires (forall o :: keep(o) == Ok(d)) && ValidDecision(d) && d.level != CULLED
    ensures Project(p, full, previous, s, cull).Ok? && Project(p, full, previous, s, keep).Ok?
    ensures Project(p, full, previous, s, cull) != Project(p, full, previous, s, keep)
  {
    AllCulled(p, s.meta.tick, full, PreviousObjects(previous, s.meta), s.objects, cull);
    AllKept(p, s.meta.tick, full, PreviousObjects(previous, s.meta), s.objects, keep, d);
  }
}
