/** The open-addressing map in place: three arrays and two counters that always mean one mathematical map. */
module FastMaps {
  import opened Common
  import opened FastTables

  predicate IsPow2(n: nat) {
    n == 1 || (n > 1 && n % 2 == 0 && IsPow2(n / 2))
  }

  /** The smallest power of two at or above v. */
  method NextPowerOfTwo(v: int) returns (n: nat)
    ensures IsPow2(n) && v <= n && (v <= 1 ==> n == 1) && (v > 1 ==> n / 2 < v)
  {
    if v <= 1 {
      return 1;
    }
    n := 1;
    while n < v
      invariant IsPow2(n) && n / 2 < v
      decreases v - n
    {
      n := n * 2;
    }
  }

  /** The smallest doubling of the least capacity that takes the hinted number of entries within the load limit. */
  method CapacityForHint(hint: int) returns (capacity: nat)
    ensures IsPow2(capacity) && capacity >= MIN_CAPACITY && capacity * LOAD_PERCENT / 100 >= hint
    ensures capacity > MIN_CAPACITY ==> capacity / 2 * LOAD_PERCENT / 100 < hint
  {
    var wanted := if hint < 0 then 0 else hint;
    capacity := MIN_CAPACITY;
    assert IsPow2(1) && IsPow2(2) && IsPow2(4);
    while capacity * LOAD_PERCENT / 100 < wanted
      invariant IsPow2(capacity) && capacity >= MIN_CAPACITY
      invariant capacity > MIN_CAPACITY ==> capacity / 2 * LOAD_PERCENT / 100 < wanted
      decreases wanted - capacity * LOAD_PERCENT / 100
    {
      capacity := capacity * 2;
    }
  }

  predicate LegalCapacity(cap: nat) {
    cap == 0 || (cap >= MIN_CAPACITY && IsPow2(cap))
  }

  /** The table keeps its promises: exact counters, a legal capacity and a bounded load. */
  ghost predicate Fits<K, V>(hash: K -> nat, t: Table<K, V>, size: nat, used: nat) {
    && Sound(hash, t) && size == Count(t.states, false) && used == Count(t.states, true)
    && LegalCapacity(|t.states|) && used * 100 <= |t.states| * LOAD_PERCENT
  }

  /** There is room for one more entry. */
  predicate Room(used: nat, cap: nat) {
    (used + 1) * 100 <= cap * LOAD_PERCENT
  }

  lemma {:induction false} FillFits<K(!new), V>(hash: K -> nat, t: Table<K, V>, size: nat, used: nat, i: nat, k: K, v: V)
    requires Fits(hash, t, size, used) && Room(used, |t.states|) && Free(hash, t, k, i) && k !in Contents(t)
    ensures Fits(hash, Fill(t, i, k, v), size + 1, if t.states[i] == Empty then used + 1 else used)
    ensures Contents(Fill(t, i, k, v)) == Contents(t)[k := v]
  {
    FillSound(hash, t, i, k, v);
    FillContents(t, i, k, v);
    CountUpdate(t.states, i, Filled, false);
    CountUpdate(t.states, i, Filled, true);
  }

  lemma {:induction false} StoreFits<K(!new), V>(hash: K -> nat, t: Table<K, V>, size: nat, used: nat, i: nat, v: V)
    requires Fits(hash, t, size, used) && i < |t.states| && t.states[i] == Filled
    ensures Fits(hash, Store(t, i, v), size, used)
    ensures Contents(Store(t, i, v)) == Contents(t)[t.keys[i] := v]
  {
    StoreSound(hash, t, i, v);
    StoreContents(t, i, v);
  }

  lemma {:induction false} BuryFits<K(!new), V>(hash: K -> nat, t: Table<K, V>, size: nat, used: nat, i: nat, k: K, v: V)
    requires Fits(hash, t, size, used) && i < |t.states| && t.states[i] == Filled
    ensures size > 0 && Fits(hash, Bury(t, i, k, v), size - 1, used)
    ensures Contents(Bury(t, i, k, v)) == Contents(t) - {t.keys[i]}
  {
    BurySound(hash, t, i, k, v);
    BuryContents(t, i, k, v);
    CountUpdate(t.states, i, Deleted, false);
    CountUpdate(t.states, i, Deleted, true);
  }

  lemma {:induction false} FreshFits<K, V>(hash: K -> nat, t: Table<K, V>)
    requires Shape(t) && LegalCapacity(|t.states|) && forall i :: 0 <= i < |t.states| ==> t.states[i] == Empty
    ensures Fits(hash, t, 0, 0) && Contents(t) == map[]
  {
    AllEmpty(t.states);
    if Contents(t) != map[] {
      var k :| k in Contents(t);
      var i := EntryOf(t, |t.states|, k);
    }
  }

  /** A table without filled slots means the empty map. */
  lemma {:induction false} NoEntries<K, V>(t: Table<K, V>)
    requires Shape(t) && Count(t.states, false) == 0
    ensures Contents(t) == map[]
  {
    if Contents(t) != map[] {
      var k :| k in Contents(t);
      var i := EntryOf(t, |t.states|, k);
      NoneFilled(t.states, i);
    }
  }

  class FastMap<K(==, 0, !new), V(0)> {
    const hash: K -> nat
    var keys: array<K>
    var values: array<V>
    var states: array<Slot>
    var size: nat
    var used: nat

    ghost function View(): Table<K, V>
      reads this, keys, values, states
    {
      Table(keys[..], values[..], states[..])
    }

    ghost predicate Apart()
      reads this
    {
      && (keys as object) != (values as object) && (keys as object) != (states as object) && (values as object) != (states as object)
      && keys.Length == values.Length == states.Length
    }

    ghost predicate Valid()
      reads this, keys, values, states
    {
      Apart() && Fits(hash, View(), size, used)
    }

    /** What the map means. */
    ghost function Map(): map<K, V>
      requires Apart()
      reads this, keys, values, states
    {
      Contents(View())
    }

    constructor (hash: K -> nat, hint: int)
      ensures Valid() && Map() == map[] && this.hash == hash && fresh(keys) && fresh(values) && fresh(states)
    {
      var capacity := CapacityForHint(hint);
      this.hash := hash;
      keys := new K[capacity];
      values := new V[capacity];
      states := new Slot[capacity](_ => Empty);
      size, used := 0, 0;
      new;
      FreshFits(hash, View());
    }

    /** Probes until the key or an empty slot. */
    method FindExisting(key: K) returns (idx: nat, found: bool)
      requires Valid() && states.Length > 0
      ensures found ==> idx < states.Length && states[idx] == Filled && keys[idx] == key
      ensures !found ==> key !in Map()
    {
      ghost var t := View();
      ghost var empty := HasEmpty(t.states);
      idx := Home(hash, key, states.Length);
      ghost var d := 0;
      while true
        invariant idx < states.Length && d < states.Length && idx == Probe(Home(hash, key, states.Length), d, states.Length)
        invariant View() == t && Passed(hash, t, key, d)
        decreases states.Length - d
      {
        StopsBefore(hash, t, key, d, empty);
        if states[idx] == Empty {
          MissMeansAbsent(hash, t, key, d);
          return 0, false;
        }
        if states[idx] == Filled && keys[idx] == key {
          return idx, true;
        }
        assert Passed(hash, t, key, d + 1);
        StopsBefore(hash, t, key, d + 1, empty);
        idx := if idx + 1 == states.Length then 0 else idx + 1;
        d := d + 1;
      }
    }

    /** Probes as well for a place to put a missing key: the first tombstone passed, or else the empty slot. */
    method FindSlot(key: K) returns (idx: nat, found: bool)
      requires Valid() && states.Length > 0
      ensures found ==> idx < states.Length && states[idx] == Filled && keys[idx] == key
      ensures !found ==> key !in Map() && Free(hash, View(), key, idx)
    {
      ghost var t := View();
      ghost var empty := HasEmpty(t.states);
      idx := Home(hash, key, states.Length);
      var firstDeleted := -1;
      ghost var d := 0;
      while true
        invariant idx < states.Length && d < states.Length && idx == Probe(Home(hash, key, states.Length), d, states.Length)
        invariant View() == t && Passed(hash, t, key, d)
        invariant firstDeleted >= 0 ==> firstDeleted < states.Length && Free(hash, t, key, firstDeleted)
        decreases states.Length - d
      {
        StopsBefore(hash, t, key, d, empty);
        assert states[idx] != Filled ==> Free(hash, t, key, idx);
        if states[idx] == Empty {
          MissMeansAbsent(hash, t, key, d);
          if firstDeleted >= 0 {
            return firstDeleted, false;
          }
          return idx, false;
        } else if states[idx] == Deleted {
          if firstDeleted < 0 {
            firstDeleted := idx;
          }
        } else if keys[idx] == key {
          return idx, true;
        }
        assert Passed(hash, t, key, d + 1);
        StopsBefore(hash, t, key, d + 1, empty);
        idx := if idx + 1 == states.Length then 0 else idx + 1;
        d := d + 1;
      }
    }

    /** Puts an entry where probing says, without growing. */
    method SetNoGrow(key: K, value: V)
      requires Valid() && Room(used, states.Length)
      modifies this`size, this`used, keys, values, states
      ensures Valid() && keys == old(keys) && values == old(values) && states == old(states)
      ensures Map() == old(Map())[key := value]
      ensures key !in old(Map()) ==> size == old(size) + 1
      ensures used <= old(used) + 1
    {
      ghost var t := View();
      var idx, found := FindSlot(key);
      if found {
        StoreFits(hash, t, size, used, idx, value);
        EntryAt(t, |t.states|, idx);
        values[idx] := value;
        assert View() == Store(t, idx, value);
        return;
      }
      FillFits(hash, t, size, used, idx, key, value);
      if states[idx] == Empty {
        used := used + 1;
      }
      keys[idx] := key;
      values[idx] := value;
      states[idx] := Filled;
      size := size + 1;
      assert View() == Fill(t, idx, key, value);
    }

    /** Puts the entries of old arrays into this empty table, slot by slot. */
    method CopyEntries(oldKeys: array<K>, oldValues: array<V>, oldStates: array<Slot>)
      requires Valid() && Map() == map[] && size == 0 && used == 0
      requires var t := Table(oldKeys[..], oldValues[..], oldStates[..]);
               Shape(t) && Distinct(t) && (Count(t.states, false) + 1) * 100 <= states.Length * LOAD_PERCENT
      requires {oldKeys as object, oldValues as object, oldStates as object} !! {keys as object, values as object, states as object}
      modifies this`size, this`used, keys, values, states
      ensures Valid() && keys == old(keys) && values == old(values) && states == old(states)
      ensures var t := Table(oldKeys[..], oldValues[..], oldStates[..]);
              Shape(t) && Map() == Contents(t) && size == Count(t.states, false) && used <= size
    {
      ghost var t := Table(oldKeys[..], oldValues[..], oldStates[..]);
      for i := 0 to oldStates.Length
        invariant Table(oldKeys[..], oldValues[..], oldStates[..]) == t
        invariant Valid() && keys == old(keys) && values == old(values) && states == old(states)
        invariant Map() == ContentsTo(t, i) && size == Count(t.states[..i], false) && used <= size
      {
        CountPrefix(t.states, i, false);
        assert t.states[..i + 1][..i] == t.states[..i];
        if oldStates[i] == Filled {
          NewKey(t, i);
          SetNoGrow(oldKeys[i], oldValues[i]);
        }
      }
      assert t.states[..oldStates.Length] == t.states;
    }

    /** Fresh arrays with nothing in them. */
    method Restart(capacity: nat)
      requires LegalCapacity(capacity)
      modifies this
      ensures Valid() && Map() == map[] && size == 0 && used == 0 && states.Length == capacity
      ensures fresh(keys) && fresh(values) && fresh(states)
    {
      keys := new K[capacity];
      values := new V[capacity];
      states := new Slot[capacity](_ => Empty);
      size, used := 0, 0;
      FreshFits(hash, View());
    }

    /** Moves to fresh arrays of the least power of two at or above the wanted capacity, dropping the tombstones. */
    method Rehash(wanted: int)
      requires Valid()
      requires (size + 1) * 100 <= (if wanted < MIN_CAPACITY then MIN_CAPACITY else wanted) * LOAD_PERCENT
      modifies this
      ensures Valid() && Map() == old(Map()) && size == old(size) && used <= size
      ensures states.Length >= wanted && states.Length >= MIN_CAPACITY
      ensures fresh(keys) && fresh(values) && fresh(states)
    {
      var capacity := NextPowerOfTwo(if wanted < MIN_CAPACITY then MIN_CAPACITY else wanted);
      var oldKeys, oldValues, oldStates := keys, values, states;
      Restart(capacity);
      CopyEntries(oldKeys, oldValues, oldStates);
    }

    /** Makes room for one more entry, growing only when tombstones are not the cause. */
    method EnsureWritable()
      requires Valid()
      modifies this
      ensures Valid() && Map() == old(Map()) && size == old(size) && Room(used, states.Length)
      ensures unchanged(`keys, `values, `states) || (fresh(keys) && fresh(values) && fresh(states))
    {
      CountBounds(View().states);
      if states.Length == 0 {
        Rehash(MIN_CAPACITY);
        return;
      }
      if (used + 1) * 100 <= states.Length * LOAD_PERCENT {
        return;
      }
      var capacity := states.Length * REHASH_FACTOR;
      if size * 100 < states.Length * (LOAD_PERCENT / 2) {
        capacity := states.Length;
      }
      Rehash(capacity);
    }

    /** Set: the map with this entry added or replaced. */
    method Set(key: K, value: V)
      requires Valid()
      modifies this, keys, values, states
      ensures Valid() && Map() == old(Map())[key := value]
    {
      EnsureWritable();
      SetNoGrow(key, value);
    }

    /** Get: the value if the key is present. */
    method Get(key: K) returns (r: Option<V>)
      requires Valid()
      ensures r == if key in Map() then Some(Map()[key]) else None
    {
      if states.Length == 0 {
        return None;
      }
      var idx, found := FindExisting(key);
      if !found {
        return None;
      }
      EntryAt(View(), states.Length, idx);
      return Some(values[idx]);
    }

    method Clear()
      modifies this
      ensures Valid() && Map() == map[] && size == 0
      ensures fresh(keys) && fresh(values) && fresh(states)
    {
      Restart(0);
    }

    /** Delete: the map without the key; says whether it was there. */
    method Delete(key: K) returns (removed: bool)
      requires Valid()
      modifies this, keys, values, states
      ensures Valid() && Map() == old(Map()) - {key} && removed == (key in old(Map()))
    {
      ghost var t := View();
      if states.Length == 0 {
        return false;
      }
      var idx, found := FindExisting(key);
      if !found {
        return false;
      }
      EntryAt(t, |t.states|, idx);
      var zeroK: K := *;
      var zeroV: V := *;
      BuryFits(hash, t, size, used, idx, zeroK, zeroV);
      keys[idx] := zeroK;
      values[idx] := zeroV;
      states[idx] := Deleted;
      size := size - 1;
      assert View() == Bury(t, idx, zeroK, zeroV);
      if size == 0 {
        NoEntries(View());
        Clear();
      }
      return true;
    }

    /** Len counts the entries. */
    method Len() returns (n: nat)
      requires Valid()
      ensures n == |Map()|
    {
      CountIsSize(View(), states.Length);
      assert View().states[..states.Length] == View().states;
      return size;
    }
  }

  lemma {:induction false} CountPrefix(states: seq<Slot>, i: nat, used: bool)
    requires i < |states|
    ensures Count(states[..i + 1], used) == Count(states[..i], used) + Weight(states[i], used)
    ensures Count(states[..i + 1], used) <= Count(states, used)
    decreases |states| - i
  {
    assert states[..i + 1][..i] == states[..i];
    if i + 1 < |states| { CountPrefix(states, i + 1, used); } else { assert states[..i + 1] == states; }
  }

  lemma {:induction false} NewKey<K, V>(t: Table<K, V>, i: nat)
    requires Shape(t) && Distinct(t) && i < |t.states| && t.states[i] == Filled
    ensures t.keys[i] !in ContentsTo(t, i)
  {
    if t.keys[i] in ContentsTo(t, i) { var j := EntryOf(t, i, t.keys[i]); }
  }

  lemma {:induction false} CountIsSize<K, V>(t: Table<K, V>, n: nat)
    requires Shape(t) && Distinct(t) && n <= |t.states|
    ensures Count(t.states[..n], false) == |ContentsTo(t, n)|
  {
    if n > 0 {
      CountIsSize(t, n - 1);
      CountPrefix(t.states, n - 1, false);
      if t.states[n - 1] == Filled { NewKey(t, n - 1); }
    }
  }
}
