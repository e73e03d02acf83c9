/** The server's bounded history of published snapshots, with an index from tick to position. */
module Ring {
  import opened Common
  import opened ReplicationTypes

  const DEFAULT_CAPACITY := 64

  /** The last n elements, or all of them when there are fewer. */
  function Recent(s: seq<Snapshot>, n: nat): seq<Snapshot> {
    if |s| <= n then s else s[|s| - n..]
  }

  function LastTick(s: seq<Snapshot>): u32 {
    if s == [] then 0 else s[|s| - 1].meta.tick
  }

  predicate TicksRise(s: seq<Snapshot>) {
    && (forall i :: 0 <= i < |s| ==> s[i].meta.tick != 0)
    && forall i, j :: 0 <= i < j < |s| ==> s[i].meta.tick < s[j].meta.tick
  }

  /** The index holds exactly the ticks of the items, each at its item's position. */
  predicate Indexes(index: map<u32, int>, items: seq<Snapshot>) {
    && (forall i :: 0 <= i < |items| ==> items[i].meta.tick in index && index[items[i].meta.tick] == i)
    && forall t :: t in index ==> 0 <= index[t] < |items| && items[index[t]].meta.tick == t
  }

  lemma PushedRecent(s: seq<Snapshot>, x: Snapshot, n: nat)
    requires n > 0
    ensures var r := Recent(s, n);
            Recent(s + [x], n) == (if |r| == n then r[1..] else r) + [x]
  {}

  lemma RecentRises(s: seq<Snapshot>, n: nat)
    requires TicksRise(s)
    ensures TicksRise(Recent(s, n)) && (n > 0 ==> LastTick(Recent(s, n)) == LastTick(s))
  {}

  lemma RisePushed(s: seq<Snapshot>, x: Snapshot)
    requires TicksRise(s) && x.meta.tick != 0 && x.meta.tick > LastTick(s)
    ensures TicksRise(s + [x]) && LastTick(s + [x]) == x.meta.tick
  {}

  lemma IndexPushed(index: map<u32, int>, items: seq<Snapshot>, x: Snapshot)
    requires Indexes(index, items) && x.meta.tick !in index
    ensures Indexes(index[x.meta.tick := |items|], items + [x])
  {}

  /** Dropping the first item and lowering every other index keeps the index exact. */
  lemma IndexPopped(index: map<u32, int>, items: seq<Snapshot>, lowered: map<u32, int>)
    requires items != [] && TicksRise(items) && Indexes(index, items)
    requires lowered.Keys == index.Keys - {items[0].meta.tick}
    requires forall t :: t in lowered ==> lowered[t] == index[t] - 1
    ensures Indexes(lowered, items[1..])
  {}

  lemma NewTickAbsent(index: map<u32, int>, items: seq<Snapshot>, tick: u32)
    requires Indexes(index, items) && TicksRise(items) && tick > LastTick(items)
    ensures tick !in index
  {}

  class SnapshotRing {
    const capacity: nat
    var items: seq<Snapshot>
    var byTick: map<u32, int>
    var latest: u32
    ghost var published: seq<Snapshot>

    ghost predicate Valid()
      reads this
    {
      && capacity > 0 && TicksRise(published)
      && items == Recent(published, capacity) && Indexes(byTick, items) && latest == LastTick(published)
    }

    constructor (size: int)
      ensures Valid() && published == [] && capacity == if size <= 0 then DEFAULT_CAPACITY else size
    {
      capacity := if size <= 0 then DEFAULT_CAPACITY else size;
      items, byTick, latest, published := [], map[], 0, [];
    }

    /** Every remaining index moves down by one. */
    method Reindex()
      modifies `byTick
      ensures byTick.Keys == old(byTick.Keys)
      ensures forall t :: t in byTick ==> byTick[t] == old(byTick)[t] - 1
    {
      var rest := byTick.Keys;
      while rest != {}
        invariant rest <= byTick.Keys == old(byTick.Keys)
        invariant forall t :: t in byTick ==> byTick[t] == if t in rest then old(byTick)[t] else old(byTick)[t] - 1
        decreases |rest|
      {
        var t :| t in rest;
        byTick := byTick[t := byTick[t] - 1];
        rest := rest - {t};
      }
    }

    method EvictOldest()
      requires items != [] && TicksRise(items) && Indexes(byTick, items)
      modifies `byTick, `items
      ensures items == old(items)[1..] && Indexes(byTick, items) && byTick.Keys <= old(byTick.Keys)
    {
      byTick := byTick - {items[0].meta.tick};
      items := items[1..];
      Reindex();
      IndexPopped(old(byTick), old(items), byTick);
    }

    method Push(snapshot: Snapshot)
      requires capacity > 0 && TicksRise(items) && Indexes(byTick, items) && snapshot.meta.tick !in byTick
      modifies `byTick, `items
      ensures items == (if old(|items|) == capacity then old(items)[1..] else old(items)) + [snapshot]
      ensures Indexes(byTick, items)
    {
      if |items| == capacity {
        EvictOldest();
      }
      IndexPushed(byTick, items, snapshot);
      items := items + [snapshot];
      byTick := byTick[snapshot.meta.tick := |items| - 1];
    }

    /** Accepts exactly the valid snapshots newer than all before, and keeps the most recent ones. */
    method Add(snapshot: Snapshot) returns (e: Option<Error>)
      requires Valid()
      modifies this
      ensures Valid()
      ensures e == if !snapshot.meta.Valid() then Some(InvalidFrame)
                   else if old(latest) != 0 && snapshot.meta.tick <= old(latest) then Some(BaselineMismatch)
                   else None
      ensures published == old(published) + if e.None? then [snapshot] else []
    {
      if !snapshot.meta.Valid() {
        return Some(InvalidFrame);
      }
      if latest != 0 && snapshot.meta.tick <= latest {
        return Some(BaselineMismatch);
      }
      PushedRecent(published, snapshot, capacity);
      RecentRises(published, capacity);
      RisePushed(published, snapshot);
      NewTickAbsent(byTick, items, snapshot.meta.tick);
      Push(snapshot);
      latest := snapshot.meta.tick;
      published := published + [snapshot];
      return None;
    }

    /** Finds a tick exactly when it is among the last capacity published ones, and returns what was published. */
    method Get(tick: u32) returns (r: Option<Snapshot>)
      requires Valid()
      ensures r.Some? <==> exists i :: 0 <= i < |published| && i >= |published| - capacity && published[i].meta.tick == tick
      ensures r.Some? ==> r.value in published && r.value.meta.tick == tick
    {
      ghost var skipped := if |published| <= capacity then 0 else |published| - capacity;
      if tick == 0 || tick !in byTick || byTick[tick] < 0 || byTick[tick] >= |items| {
        forall i | 0 <= i < |published| && i >= |published| - capacity ensures published[i].meta.tick != tick {
          assert published[i] == items[i - skipped];
        }
        return None;
      }
      assert items[byTick[tick]] == published[byTick[tick] + skipped];
      return Some(items[byTick[tick]]);
    }

    method Latest() returns (r: Option<Snapshot>)
      requires Valid()
      ensures r == if published == [] then None else Some(published[|published| - 1])
    {
      if |items| == 0 {
        return None;
      }
      return Some(items[|items| - 1]);
    }
  }
}
