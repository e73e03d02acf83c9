/** One shard of the bounded local cache: a map, a clock of write records over it, and eviction of the oldest writes. */
module LocalCache {
  import opened Common
  import opened Arithmetic
  import opened IntSets

  type Key = int

  datatype Entry = Entry(value: int, expiresAt: int, size: nat, generation: nat)

  /** A write: the key and the generation its entry got. */
  datatype Record = Record(key: Key, generation: nat)

  type Items = map<Key, Entry>

  // ---- Bytes of a map ----

  ghost function AnyKey(items: Items): (k: Key)
    requires items != map[]
    ensures k in items
  {
    assert exists k :: k in items by { assert items.Keys != {}; var k := Member(items.Keys); }
    var k :| k in items;
    k
  }

  ghost function Total(items: Items): nat
    decreases |items|
  {
    if items == map[] then 0
    else
      var k := AnyKey(items);
      assert (items - {k}).Keys == items.Keys - {k};
      items[k].size + Total(items - {k})
  }

  /** The total does not depend on which entry is counted first. */
  lemma {:induction false} TotalSplit(items: Items, k: Key)
    requires k in items
    ensures Total(items) == items[k].size + Total(items - {k})
    decreases |items|
  {
    var first := AnyKey(items);
    if k != first {
      var without := items - {first};
      assert without.Keys == items.Keys - {first};
      TotalSplit(without, k);
      TotalSplit(items - {k}, first) by { assert (items - {k}).Keys == items.Keys - {k}; }
      assert items - {k} - {first} == without - {k};
    }
  }

  lemma {:induction false} TotalPut(items: Items, k: Key, e: Entry)
    ensures Total(items[k := e]) == Total(items) + e.size - (if k in items then items[k].size else 0)
  {
    TotalSplit(items[k := e], k);
    assert items[k := e] - {k} == items - {k};
    if k in items { TotalSplit(items, k); } else { assert items - {k} == items; }
  }

  // ---- The invariant ----

  /** The record still stands for its key's entry. */
  predicate Live(items: Items, r: Record) {
    r.key in items && items[r.key].generation == r.generation
  }

  ghost predicate Clocked(order: seq<Record>, generation: nat) {
    && (forall i, j :: 0 <= i < j < |order| ==> order[i].generation < order[j].generation)
    && (forall i :: 0 <= i < |order| ==> 1 <= order[i].generation <= generation)
  }

  /** The entry of k has its record at or after the hand. */
  ghost predicate Waits(items: Items, order: seq<Record>, hand: nat, k: Key)
    requires k in items
  {
    exists i :: hand <= i < |order| && order[i] == Record(k, items[k].generation)
  }

  /** Every entry has one, so the clock never runs out while entries remain. */
  ghost predicate AllWait(items: Items, order: seq<Record>, hand: nat) {
    hand <= |order| && forall k :: k in items ==> Waits(items, order, hand, k)
  }

  predicate Over(entries: int, bytes: int, maxEntries: nat, maxBytes: nat) {
    (maxEntries > 0 && entries > maxEntries) || (maxBytes > 0 && bytes > maxBytes)
  }

  /** What is left are exactly the entries written after generation g. */
  ghost predicate IsAfter(before: Items, items: Items, g: nat) {
    && (forall k :: k in items ==> k in before && items[k] == before[k] && before[k].generation > g)
    && (forall k :: k in before && before[k].generation > g ==> k in items)
  }

  ghost predicate Exact(items: Items, entries: int, bytes: int) {
    entries == |items| && bytes == Total(items)
  }

  ghost predicate Dated(items: Items, generation: nat, maxBytes: nat) {
    forall k :: k in items ==> 1 <= items[k].generation <= generation && (maxBytes > 0 ==> items[k].size <= maxBytes)
  }

  lemma {:induction false} ExactWithout(items: Items, entries: int, bytes: int, key: Key)
    requires Exact(items, entries, bytes) && key in items
    ensures Exact(items - {key}, entries - 1, bytes - items[key].size)
  {
    TotalSplit(items, key);
    assert (items - {key}).Keys == items.Keys - {key};
  }

  lemma {:induction false} ExactWith(items: Items, entries: int, bytes: int, key: Key, e: Entry)
    requires Exact(items, entries, bytes)
    ensures Exact(items[key := e], if key in items then entries else entries + 1,
                  bytes + e.size - (if key in items then items[key].size else 0))
  {
    TotalPut(items, key, e);
    assert items[key := e].Keys == items.Keys + {key};
  }

  ghost predicate Sound(items: Items, order: seq<Record>, hand: nat, entries: int, bytes: int, generation: nat, maxBytes: nat) {
    && Exact(items, entries, bytes) && Clocked(order, generation) && AllWait(items, order, hand)
    && Dated(items, generation, maxBytes)
  }

  lemma {:induction false} SoundWithout(items: Items, order: seq<Record>, hand: nat, entries: int, bytes: int, generation: nat,
                                        maxBytes: nat, key: Key)
    requires Sound(items, order, hand, entries, bytes, generation, maxBytes) && key in items
    ensures Sound(items - {key}, order, hand, entries - 1, bytes - items[key].size, generation, maxBytes)
  {
    ExactWithout(items, entries, bytes, key);
    WaitsWithout(items, order, hand, key);
  }

  /** The generation up to which the clock has gone. */
  function Passed(order: seq<Record>, hand: nat): nat {
    if hand == 0 || hand > |order| then 0 else order[hand - 1].generation
  }

  lemma {:induction false} WaitsStay(items: Items, order: seq<Record>, hand: nat, r: Record, e: Entry)
    requires AllWait(items, order, hand) && e.generation == r.generation
    ensures AllWait(items[r.key := e], order + [r], hand)
  {
    var (next, clock) := (items[r.key := e], order + [r]);
    forall k | k in next ensures Waits(next, clock, hand, k) {
      if k == r.key { assert clock[|order|] == Record(k, next[k].generation); }
      else {
        assert Waits(items, order, hand, k);
        var i :| hand <= i < |order| && order[i] == Record(k, items[k].generation);
        assert clock[i] == order[i];
      }
    }
  }

  lemma {:induction false} WaitsWithout(items: Items, order: seq<Record>, hand: nat, key: Key)
    requires AllWait(items, order, hand)
    ensures AllWait(items - {key}, order, hand)
  {}

  /** Entries are not older than the hand's next record, and only that record's own entry is as old. */
  lemma {:induction false} NextIsOldest(items: Items, order: seq<Record>, hand: nat, generation: nat, k: Key)
    requires AllWait(items, order, hand) && Clocked(order, generation) && hand < |order| && k in items
    ensures items[k].generation >= order[hand].generation > Passed(order, hand)
    ensures items[k].generation == order[hand].generation ==> order[hand] == Record(k, items[k].generation)
  {}

  /** Where an eviction pass is: it has dropped every entry up to the clock's point, each one while over the bounds. */
  ghost predicate Sweeping(before: Items, items: Items, order: seq<Record>, hand: nat, generation: nat, maxEntries: nat, maxBytes: nat,
                           newest: Key)
  {
    && IsAfter(before, items, Passed(order, hand)) && newest in items && items[newest].generation == generation
    && (items == before || exists k :: k in before && Dropped(before, items, k, maxEntries, maxBytes))
  }

  /** k was the last entry dropped: the entries kept are exactly the later ones, and with k there were too many. */
  ghost predicate Dropped(before: Items, items: Items, k: Key, maxEntries: nat, maxBytes: nat)
    requires k in before
  {
    IsAfter(before, items, before[k].generation)
    && Over(|items[k := before[k]]|, Total(items[k := before[k]]), maxEntries, maxBytes)
  }

  lemma {:induction false} AfterDrop(before: Items, items: Items, order: seq<Record>, hand: nat, generation: nat)
    requires IsAfter(before, items, Passed(order, hand)) && AllWait(items, order, hand) && Clocked(order, generation) && hand < |order|
    requires Live(items, order[hand])
    ensures IsAfter(before, items - {order[hand].key}, Passed(order, hand + 1))
  {}

  /** While over the bounds, the record under the hand does not stand for the newest entry. */
  lemma {:induction false} NewestSafe(items: Items, order: seq<Record>, hand: nat, generation: nat, maxEntries: nat, maxBytes: nat,
                                      newest: Key)
    requires AllWait(items, order, hand) && Clocked(order, generation) && Dated(items, generation, maxBytes) && hand < |order|
    requires newest in items && items[newest].generation == generation && Over(|items|, Total(items), maxEntries, maxBytes)
    ensures order[hand].key == newest ==> !Live(items, order[hand])
  {
    if order[hand] == Record(newest, generation) {
      forall k | k in items ensures k == newest { NextIsOldest(items, order, hand, generation, k); }
      AloneFits(items, newest, maxEntries, maxBytes);
    }
  }

  /** After dropping the hand's entry, no record of the remaining ones is behind the hand. */
  lemma {:induction false} DropWaits(items: Items, order: seq<Record>, hand: nat, generation: nat)
    requires AllWait(items, order, hand) && Clocked(order, generation) && hand < |order| && Live(items, order[hand])
    ensures AllWait(items - {order[hand].key}, order, hand + 1)
  {}

  lemma {:induction false} SweepSkip(before: Items, items: Items, order: seq<Record>, hand: nat, generation: nat, maxEntries: nat,
                                     maxBytes: nat, newest: Key)
    requires Sweeping(before, items, order, hand, generation, maxEntries, maxBytes, newest) && AllWait(items, order, hand)
    requires Clocked(order, generation) && hand < |order| && !Live(items, order[hand])
    ensures Sweeping(before, items, order, hand + 1, generation, maxEntries, maxBytes, newest) && AllWait(items, order, hand + 1)
  {}

  lemma {:induction false} SweepDrop(before: Items, items: Items, order: seq<Record>, hand: nat, generation: nat, maxEntries: nat,
                                     maxBytes: nat, newest: Key)
    requires Sweeping(before, items, order, hand, generation, maxEntries, maxBytes, newest) && AllWait(items, order, hand)
    requires Clocked(order, generation) && Dated(items, generation, maxBytes) && hand < |order| && Live(items, order[hand])
    requires Over(|items|, Total(items), maxEntries, maxBytes)
    ensures Sweeping(before, items - {order[hand].key}, order, hand + 1, generation, maxEntries, maxBytes, newest)
    ensures AllWait(items - {order[hand].key}, order, hand + 1)
  {
    var key := order[hand].key;
    NewestSafe(items, order, hand, generation, maxEntries, maxBytes, newest);
    DropWaits(items, order, hand, generation);
    AfterDrop(before, items, order, hand, generation);
    assert (items - {key})[key := before[key]] == items;
    assert Dropped(before, items - {key}, key, maxEntries, maxBytes);
  }

  lemma {:induction false} SoundDrop(before: Items, items: Items, order: seq<Record>, hand: nat, entries: int, bytes: int,
                                     generation: nat, maxEntries: nat, maxBytes: nat, newest: Key)
    requires Sound(items, order, hand, entries, bytes, generation, maxBytes)
    requires Sweeping(before, items, order, hand, generation, maxEntries, maxBytes, newest)
    requires hand < |order| && Live(items, order[hand]) && Over(entries, bytes, maxEntries, maxBytes)
    ensures var key := order[hand].key;
            && Sound(items - {key}, order, hand + 1, entries - 1, bytes - items[key].size, generation, maxBytes)
            && Sweeping(before, items - {key}, order, hand + 1, generation, maxEntries, maxBytes, newest)
  {
    SweepDrop(before, items, order, hand, generation, maxEntries, maxBytes, newest);
    SoundWithout(items, order, hand, entries, bytes, generation, maxBytes, order[hand].key);
  }

  /** What an eviction pass changes. */
  datatype Clock = Clock(items: Items, hand: nat, entries: int, bytes: int)

  /** One turn: the entry that the record under the hand stands for, if any, goes, and the hand moves on. */
  function Turn(c: Clock, r: Record): Clock {
    if Live(c.items, r) then Clock(c.items - {r.key}, c.hand + 1, c.entries - 1, c.bytes - c.items[r.key].size)
    else c.(hand := c.hand + 1)
  }

  /** Turns until the bounds hold; None when the records run out first. */
  function Sweep(order: seq<Record>, c: Clock, maxEntries: nat, maxBytes: nat): Option<Clock>
    decreases |order| - c.hand
  {
    if !Over(c.entries, c.bytes, maxEntries, maxBytes) then Some(c)
    else if c.hand >= |order| then None
    else Sweep(order, Turn(c, order[c.hand]), maxEntries, maxBytes)
  }

  lemma {:induction false} SoundSkip(before: Items, items: Items, order: seq<Record>, hand: nat, entries: int, bytes: int,
                                     generation: nat, maxEntries: nat, maxBytes: nat, newest: Key)
    requires Sound(items, order, hand, entries, bytes, generation, maxBytes)
    requires Sweeping(before, items, order, hand, generation, maxEntries, maxBytes, newest)
    requires hand < |order| && !Live(items, order[hand])
    ensures Sound(items, order, hand + 1, entries, bytes, generation, maxBytes)
    ensures Sweeping(before, items, order, hand + 1, generation, maxEntries, maxBytes, newest)
  {
    SweepSkip(before, items, order, hand, generation, maxEntries, maxBytes, newest);
  }

  /** A pass never runs out of records, since every entry still has one; it ends within the bounds. */
  lemma {:induction false} SweepEnds(before: Items, order: seq<Record>, c: Clock, generation: nat, maxEntries: nat, maxBytes: nat,
                                     newest: Key)
    requires Sound(c.items, order, c.hand, c.entries, c.bytes, generation, maxBytes)
    requires Sweeping(before, c.items, order, c.hand, generation, maxEntries, maxBytes, newest)
    ensures var r := Sweep(order, c, maxEntries, maxBytes);
            && r.Some? && !Over(r.value.entries, r.value.bytes, maxEntries, maxBytes)
            && Sound(r.value.items, order, r.value.hand, r.value.entries, r.value.bytes, generation, maxBytes)
            && Sweeping(before, r.value.items, order, r.value.hand, generation, maxEntries, maxBytes, newest)
    decreases |order| - c.hand
  {
    if Over(c.entries, c.bytes, maxEntries, maxBytes) {
      assert Waits(c.items, order, c.hand, newest);
      if Live(c.items, order[c.hand]) {
        SoundDrop(before, c.items, order, c.hand, c.entries, c.bytes, generation, maxEntries, maxBytes, newest);
      } else {
        SoundSkip(before, c.items, order, c.hand, c.entries, c.bytes, generation, maxEntries, maxBytes, newest);
      }
      SweepEnds(before, order, Turn(c, order[c.hand]), generation, maxEntries, maxBytes, newest);
    }
  }

  /** An entry that is alone never exceeds the bounds. */
  lemma {:induction false} AloneFits(items: Items, k: Key, maxEntries: nat, maxBytes: nat)
    requires k in items && (forall x :: x in items ==> x == k) && (maxBytes > 0 ==> items[k].size <= maxBytes)
    ensures !Over(|items|, Total(items), maxEntries, maxBytes)
  {
    TotalSplit(items, k);
    forall x ensures x !in items - {k} {}
    assert items - {k} == map[];
    assert items.Keys == (items - {k}).Keys + {k};
  }

  lemma {:induction false} FewerFit(items: Items, key: Key, maxEntries: nat, maxBytes: nat)
    requires !Over(|items|, Total(items), maxEntries, maxBytes)
    ensures !Over(|items - {key}|, Total(items - {key}), maxEntries, maxBytes)
  {
    if key in items {
      TotalSplit(items, key);
      assert (items - {key}).Keys == items.Keys - {key};
    } else {
      assert items - {key} == items;
    }
  }

  class Shard {
    const maxEntries: nat
    const maxBytes: nat
    var items: Items
    var order: seq<Record>
    var hand: nat
    var entries: int
    var bytes: int
    var generation: nat

    /** The counters are exact and the clock covers every entry. */
    ghost predicate Counted()
      reads this
    {
      Sound(items, order, hand, entries, bytes, generation, maxBytes)
    }

    ghost predicate Valid()
      reads this
    {
      Counted() && !Over(entries, bytes, maxEntries, maxBytes)
    }

    constructor (maxEntries: nat, maxBytes: nat)
      ensures Valid() && items == map[] && this.maxEntries == maxEntries && this.maxBytes == maxBytes
    {
      this.maxEntries, this.maxBytes := maxEntries, maxBytes;
      items, order, hand, entries, bytes, generation := map[], [], 0, 0, 0, 0;
    }

    /** Removes an entry and its share of the counters; its record stays behind and no longer stands for anything. */
    method DeleteLocked(key: Key) returns (removed: bool)
      modifies `items, `entries, `bytes
      ensures removed == (key in old(items)) && items == old(items) - {key}
      ensures entries == old(entries) - (if removed then 1 else 0)
      ensures bytes == old(bytes) - (if removed then old(items)[key].size else 0)
    {
      if key !in items {
        assert items - {key} == items;
        return false;
      }
      var entry := items[key];
      items := items - {key};
      entries := entries - 1;
      bytes := bytes - entry.size;
      return true;
    }

    method Delete(key: Key)
      requires Valid()
      modifies this
      ensures Valid() && items == old(items) - {key}
    {
      FewerFit(items, key, maxEntries, maxBytes);
      if key in items {
        SoundWithout(items, order, hand, entries, bytes, generation, maxBytes, key);
      } else {
        assert items - {key} == items;
      }
      var _ := DeleteLocked(key);
    }

    /** Removes an entry that is still the one seen and has run out. */
    method Expire(key: Key, seen: nat, now: int)
      requires Valid()
      modifies this
      ensures Valid()
      ensures items == if key in old(items) && old(items)[key].generation == seen && 0 < old(items)[key].expiresAt <= now
                       then old(items) - {key} else old(items)
    {
      if key in items && items[key].generation == seen && items[key].expiresAt > 0 && now >= items[key].expiresAt {
        Delete(key);
      }
    }

    /** The loop of an eviction, for a pass that is known to end. */
    method RunClock()
      requires hand <= |order|
      requires Sweep(order, Clock(items, hand, entries, bytes), maxEntries, maxBytes).Some?
      modifies `items, `entries, `bytes, `hand
      ensures Sweep(order, old(Clock(items, hand, entries, bytes)), maxEntries, maxBytes) == Some(Clock(items, hand, entries, bytes))
    {
      while Over(entries, bytes, maxEntries, maxBytes)
        invariant Sweep(order, Clock(items, hand, entries, bytes), maxEntries, maxBytes)
               == Sweep(order, old(Clock(items, hand, entries, bytes)), maxEntries, maxBytes)
        decreases |order| - hand
      {
        var candidate := order[hand];
        hand := hand + 1;
        if candidate.key !in items || items[candidate.key].generation != candidate.generation {
          continue;
        }
        var _ := DeleteLocked(candidate.key);
      }
    }

    /** Evicts oldest writes until the bounds hold; the clock never runs out, and the newest entry stays. */
    method EvictLocked(ghost newest: Key) returns (ghost upTo: nat)
      requires Counted() && newest in items && items[newest].generation == generation
      modifies `items, `entries, `bytes, `hand, `order
      ensures Valid() && newest in items && items[newest] == old(items)[newest]
      ensures IsAfter(old(items), items, upTo)
      ensures items == old(items) || exists k :: k in old(items) && Dropped(old(items), items, k, maxEntries, maxBytes)
    {
      NothingPassed(items, order, hand, generation);
      SweepEnds(items, order, Clock(items, hand, entries, bytes), generation, maxEntries, maxBytes, newest);
      RunClock();
      upTo := Passed(order, hand);
      if hand > 1024 && hand * 2 > |order| {
        CompactSound(items, order, hand, generation);
        order := order[hand..];
        hand := 0;
      }
    }

    /**
     * SetWithTTL: a value larger than the shard's bytes is refused, a stale one ignored; otherwise it is stored as the
     * newest write and the oldest writes make room for it.
     */
    method Set(key: Key, value: int, size: nat, expiresAt: int, stale: bool) returns (ok: bool, ghost upTo: nat)
      requires Valid()
      modifies this
      ensures Valid() && ok == !(maxBytes > 0 && size > maxBytes)
      ensures !ok || (stale && key in old(items)) ==> items == old(items)
      ensures ok && !(stale && key in old(items)) ==>
                && generation == old(generation) + 1
                && var written := old(items)[key := Entry(value, expiresAt, size, generation)];
                && key in items && items[key] == written[key] && IsAfter(written, items, upTo)
                && (items == written || exists k :: k in written && Dropped(written, items, k, maxEntries, maxBytes))
    {
      upTo := 0;
      if maxBytes > 0 && size > maxBytes {
        return false, upTo;
      }
      if key in items && stale {
        return true, upTo;
      }
      Write(key, value, size, expiresAt);
      upTo := EvictLocked(key);
      return true, upTo;
    }

    /** The newest write, before anything is evicted for it. */
    method Write(key: Key, value: int, size: nat, expiresAt: int)
      requires Counted() && (maxBytes > 0 ==> size <= maxBytes)
      modifies this
      ensures Counted() && generation == old(generation) + 1
      ensures items == old(items)[key := Entry(value, expiresAt, size, generation)]
    {
      var e := Entry(value, expiresAt, size, generation + 1);
      SoundWrite(items, order, hand, entries, bytes, generation, maxBytes, key, e);
      var (count, total) := if key in items then (entries, bytes + size - items[key].size) else (entries + 1, bytes + size);
      items, order, entries, bytes, generation :=
        items[key := e], order + [Record(key, e.generation)], count, total, generation + 1;
    }

    /** Get: a present entry that has not run out. */
    method Get(key: Key, now: int) returns (r: Option<int>)
      requires Valid()
      modifies this
      ensures Valid()
      ensures r == if key in old(items) && !(0 < old(items)[key].expiresAt <= now) then Some(old(items)[key].value) else None
      ensures items == if r.None? then old(items) - {key} else old(items)
    {
      if key !in items {
        assert items - {key} == items;
        return None;
      }
      var entry := items[key];
      if entry.expiresAt > 0 && now >= entry.expiresAt {
        Expire(key, entry.generation, now);
        return None;
      }
      return Some(entry.value);
    }
  }

  lemma {:induction false} SoundWrite(items: Items, order: seq<Record>, hand: nat, entries: int, bytes: int, generation: nat,
                                      maxBytes: nat, key: Key, e: Entry)
    requires Sound(items, order, hand, entries, bytes, generation, maxBytes)
    requires e.generation == generation + 1 && (maxBytes > 0 ==> e.size <= maxBytes)
    ensures Sound(items[key := e], order + [Record(key, e.generation)], hand, if key in items then entries else entries + 1,
                  if key in items then bytes + e.size - items[key].size else bytes + e.size, generation + 1, maxBytes)
  {
    ExactWith(items, entries, bytes, key, e);
    WaitsStay(items, order, hand, Record(key, e.generation), e);
  }

  lemma {:induction false} NothingPassed(items: Items, order: seq<Record>, hand: nat, generation: nat)
    requires AllWait(items, order, hand) && Clocked(order, generation)
    requires forall k :: k in items ==> items[k].generation >= 1
    ensures IsAfter(items, items, Passed(order, hand))
  {}

  /** Dropping the records behind the hand changes nothing. */
  lemma {:induction false} CompactSound(items: Items, order: seq<Record>, hand: nat, generation: nat)
    requires AllWait(items, order, hand) && Clocked(order, generation)
    ensures AllWait(items, order[hand..], 0) && Clocked(order[hand..], generation)
  {}

  // ---- All shards together ----

  function PerShard(maxEntries: nat, shards: nat): nat
    requires shards > 0
  {
    (maxEntries + shards - 1) / shards
  }

  function Sum(counts: seq<nat>): nat {
    if counts == [] then 0 else Sum(counts[..|counts| - 1]) + counts[|counts| - 1]
  }

  lemma {:induction false} SumBound(counts: seq<nat>, each: nat)
    requires forall i :: 0 <= i < |counts| ==> counts[i] <= each
    ensures Sum(counts) <= |counts| * each
  {
    if counts != [] {
      SumBound(counts[..|counts| - 1], each);
      assert |counts| * each == (|counts| - 1) * each + each;
    }
  }

  lemma {:induction false} SharesSum(counts: seq<nat>, maxEntries: nat)
    requires |counts| > 0 && forall i :: 0 <= i < |counts| ==> counts[i] <= PerShard(maxEntries, |counts|)
    ensures Sum(counts) <= maxEntries + |counts| - 1
  {
    SumBound(counts, PerShard(maxEntries, |counts|));
    var (n, q) := (|counts|, PerShard(maxEntries, |counts|));
    assert maxEntries + n - 1 == q * n + (maxEntries + n - 1) % n;
  }

  /** How many entries each shard of a store really holds. */
  ghost function Sizes(shards: seq<Shard>): (r: seq<nat>)
    reads shards
    ensures |r| == |shards| && forall i :: 0 <= i < |shards| ==> r[i] == |shards[i].items|
  {
    if shards == [] then [] else Sizes(shards[..|shards| - 1]) + [|shards[|shards| - 1].items|]
  }

  /** A store whose shards are valid, each with its share of MaxEntries, holds at most MaxEntries + shards - 1 entries. */
  lemma {:induction false} TotalEntries(shards: seq<Shard>, maxEntries: nat)
    requires |shards| > 0 && maxEntries > 0
    requires forall i :: 0 <= i < |shards| ==> shards[i].Valid() && shards[i].maxEntries == PerShard(maxEntries, |shards|)
    ensures Sum(Sizes(shards)) <= maxEntries + |shards| - 1
  {
    SharePositive(maxEntries, |shards|);
    SharesSum(Sizes(shards), maxEntries);
  }

  lemma {:induction false} SharePositive(maxEntries: nat, shards: nat)
    requires maxEntries > 0 && shards > 0
    ensures PerShard(maxEntries, shards) > 0
  {
    assert maxEntries + shards - 1 >= shards;
  }
}
