/** Open-addressing tables as values: what a table of slots means, and why probing finds every key. */
module FastTables {
  import opened Common

  datatype Slot = Empty | Filled | Deleted

  datatype Table<K, V> = Table(keys: seq<K>, values: seq<V>, states: seq<Slot>)

  const MIN_CAPACITY := 8
  const LOAD_PERCENT := 75
  const REHASH_FACTOR := 2

  // ---- Probing ----

  /** The slot d places after start, going round. */
  function Probe(start: nat, d: nat, cap: nat): (i: nat)
    requires start < cap && d < cap
    ensures i < cap
  {
    if start + d < cap then start + d else start + d - cap
  }

  /** How many places after start slot i comes. */
  function Dist(start: nat, i: nat, cap: nat): (d: nat)
    requires start < cap && i < cap
    ensures d < cap && Probe(start, d, cap) == i
    ensures forall e :: 0 <= e < cap && Probe(start, e, cap) == i ==> e == d
  {
    if start <= i then i - start else i + cap - start
  }

  predicate Shape<K, V>(t: Table<K, V>) {
    |t.keys| == |t.values| == |t.states|
  }

  /** Where the search for a key begins; masking with a power of two less one is this remainder. */
  function Home<K>(hash: K -> nat, k: K, cap: nat): (i: nat)
    requires cap > 0
    ensures i < cap
  {
    hash(k) % cap
  }

  /** No empty slot lies between a start and d places after it. */
  ghost predicate Unbroken(states: seq<Slot>, start: nat, d: nat)
    requires start < |states| && d <= |states|
  {
    forall e :: 0 <= e < d ==> states[Probe(start, e, |states|)] != Empty
  }

  /** The key in slot i can be reached from its home. */
  ghost predicate Reached<K, V>(hash: K -> nat, t: Table<K, V>, i: nat)
    requires Shape(t) && i < |t.states|
  {
    Unbroken(t.states, Home(hash, t.keys[i], |t.states|), Dist(Home(hash, t.keys[i], |t.states|), i, |t.states|))
  }

  ghost predicate Distinct<K, V>(t: Table<K, V>)
    requires Shape(t)
  {
    forall i, j :: 0 <= i < j < |t.states| && t.states[i] == Filled && t.states[j] == Filled ==> t.keys[i] != t.keys[j]
  }

  ghost predicate Sound<K, V>(hash: K -> nat, t: Table<K, V>) {
    && Shape(t) && Distinct(t)
    && forall i :: 0 <= i < |t.states| && t.states[i] == Filled ==> Reached(hash, t, i)
  }

  // ---- What the table means ----

  /** The entries of the first n slots. */
  ghost function ContentsTo<K, V>(t: Table<K, V>, n: nat): map<K, V>
    requires Shape(t) && n <= |t.states|
  {
    if n == 0 then map[]
    else if t.states[n - 1] == Filled then ContentsTo(t, n - 1)[t.keys[n - 1] := t.values[n - 1]]
    else ContentsTo(t, n - 1)
  }

  ghost function Contents<K, V>(t: Table<K, V>): map<K, V>
    requires Shape(t)
  {
    ContentsTo(t, |t.states|)
  }

  lemma {:induction false} EntryOf<K, V>(t: Table<K, V>, n: nat, k: K) returns (i: nat)
    requires Shape(t) && n <= |t.states| && k in ContentsTo(t, n)
    ensures i < n && t.states[i] == Filled && t.keys[i] == k && t.values[i] == ContentsTo(t, n)[k]
    decreases n
  {
    if t.states[n - 1] == Filled && t.keys[n - 1] == k { i := n - 1; } else { i := EntryOf(t, n - 1, k); }
  }

  lemma {:induction false} EntryAt<K, V>(t: Table<K, V>, n: nat, i: nat)
    requires Shape(t) && Distinct(t) && i < n <= |t.states| && t.states[i] == Filled
    ensures t.keys[i] in ContentsTo(t, n) && ContentsTo(t, n)[t.keys[i]] == t.values[i]
    decreases n
  {
    if i < n - 1 { EntryAt(t, n - 1, i); }
  }

  /** A key is in the contents exactly when some filled slot has it. */
  lemma {:induction false} Member<K, V>(t: Table<K, V>, n: nat, k: K)
    requires Shape(t) && Distinct(t) && n <= |t.states|
    ensures k in ContentsTo(t, n) <==> exists i :: 0 <= i < n && t.states[i] == Filled && t.keys[i] == k
  {
    if k in ContentsTo(t, n) { var i := EntryOf(t, n, k); }
    if i :| 0 <= i < n && t.states[i] == Filled && t.keys[i] == k { EntryAt(t, n, i); }
  }

  /** Two maps agree on a key. */
  ghost predicate Agree<K, V>(a: map<K, V>, b: map<K, V>, x: K) {
    (x in a <==> x in b) && (x in a ==> a[x] == b[x])
  }

  // ---- Counting ----

  function Weight(s: Slot, used: bool): nat {
    if s == Filled || (used && s == Deleted) then 1 else 0
  }

  /** How many slots are filled, or are filled or deleted. */
  function Count(states: seq<Slot>, used: bool): nat {
    if states == [] then 0 else Count(states[..|states| - 1], used) + Weight(states[|states| - 1], used)
  }

  lemma {:induction false} CountUpdate(states: seq<Slot>, i: nat, s: Slot, used: bool)
    requires i < |states|
    ensures Count(states[i := s], used) == Count(states, used) - Weight(states[i], used) + Weight(s, used)
  {
    var n := |states| - 1;
    if i == n { assert states[i := s][..n] == states[..n]; }
    else {
      assert states[i := s][..n] == states[..n][i := s];
      CountUpdate(states[..n], i, s, used);
    }
  }

  lemma {:induction false} CountBounds(states: seq<Slot>)
    ensures Count(states, false) <= Count(states, true) <= |states|
  {
    if states != [] { CountBounds(states[..|states| - 1]); }
  }

  /** A table that is not used up has an empty slot. */
  lemma {:induction false} HasEmpty(states: seq<Slot>) returns (i: nat)
    requires Count(states, true) < |states|
    ensures i < |states| && states[i] == Empty
  {
    var n := |states| - 1;
    if states[n] == Empty { i := n; } else { i := HasEmpty(states[..n]); }
  }

  lemma {:induction false} NoneFilled(states: seq<Slot>, i: nat)
    requires Count(states, false) == 0 && i < |states|
    ensures states[i] != Filled
  {
    var n := |states| - 1;
    if i < n { NoneFilled(states[..n], i); }
  }

  lemma {:induction false} AllEmpty(states: seq<Slot>)
    requires forall i :: 0 <= i < |states| ==> states[i] == Empty
    ensures Count(states, true) == 0 && Count(states, false) == 0
  {
    if states != [] { AllEmpty(states[..|states| - 1]); }
  }

  // ---- Changing one slot ----

  /** Slot i takes a key and value; the slot was not filled and nothing on the way from the key's home is empty. */
  ghost predicate Free<K, V>(hash: K -> nat, t: Table<K, V>, k: K, i: nat)
    requires Shape(t)
  {
    && i < |t.states| && t.states[i] != Filled
    && Unbroken(t.states, Home(hash, k, |t.states|), Dist(Home(hash, k, |t.states|), i, |t.states|))
  }

  function Fill<K, V>(t: Table<K, V>, i: nat, k: K, v: V): Table<K, V>
    requires Shape(t) && i < |t.states|
  {
    Table(t.keys[i := k], t.values[i := v], t.states[i := Filled])
  }

  lemma {:induction false} UnbrokenFill(states: seq<Slot>, start: nat, d: nat, i: nat, s: Slot)
    requires start < |states| && d <= |states| && i < |states| && s != Empty && Unbroken(states, start, d)
    ensures Unbroken(states[i := s], start, d)
  {}

  lemma {:induction false} FillSound<K, V>(hash: K -> nat, t: Table<K, V>, i: nat, k: K, v: V)
    requires Sound(hash, t) && Free(hash, t, k, i) && k !in Contents(t)
    ensures Sound(hash, Fill(t, i, k, v))
  {
    var u, cap := Fill(t, i, k, v), |t.states|;
    forall j | 0 <= j < cap && u.states[j] == Filled ensures Reached(hash, u, j) && (j != i ==> u.keys[j] != k) {
      if j != i {
        assert Reached(hash, t, j);
        EntryAt(t, cap, j);
      }
      var home := Home(hash, u.keys[j], cap);
      UnbrokenFill(t.states, home, Dist(home, j, cap), i, Filled);
    }
  }

  lemma {:induction false} FillAt<K, V>(t: Table<K, V>, i: nat, k: K, v: V, x: K)
    requires Shape(t) && Distinct(t) && i < |t.states| && t.states[i] != Filled && k !in Contents(t)
    requires Distinct(Fill(t, i, k, v))
    ensures Agree(Contents(Fill(t, i, k, v)), Contents(t)[k := v], x)
  {
    var u, cap := Fill(t, i, k, v), |t.states|;
    EntryAt(u, cap, i);
    if x in Contents(u) && x != k {
      var j := EntryOf(u, cap, x);
      EntryAt(t, cap, j);
    }
    if x in Contents(t) {
      var j := EntryOf(t, cap, x);
      EntryAt(u, cap, j);
    }
  }

  lemma {:induction false} FillContents<K(!new), V>(t: Table<K, V>, i: nat, k: K, v: V)
    requires Shape(t) && Distinct(t) && i < |t.states| && t.states[i] != Filled && k !in Contents(t)
    requires Distinct(Fill(t, i, k, v))
    ensures Contents(Fill(t, i, k, v)) == Contents(t)[k := v]
  {
    var a, b := Contents(Fill(t, i, k, v)), Contents(t)[k := v];
    forall x ensures x in a <==> x in b { FillAt(t, i, k, v, x); }
    forall x | x in a ensures a[x] == b[x] { FillAt(t, i, k, v, x); }
    assert a == b;
  }

  /** A filled slot gets another value. */
  function Store<K, V>(t: Table<K, V>, i: nat, v: V): Table<K, V>
    requires Shape(t) && i < |t.states|
  {
    t.(values := t.values[i := v])
  }

  lemma {:induction false} StoreSound<K, V>(hash: K -> nat, t: Table<K, V>, i: nat, v: V)
    requires Sound(hash, t) && i < |t.states| && t.states[i] == Filled
    ensures Sound(hash, Store(t, i, v))
  {}

  lemma {:induction false} StoreAt<K, V>(t: Table<K, V>, i: nat, v: V, x: K)
    requires Shape(t) && Distinct(t) && i < |t.states| && t.states[i] == Filled
    ensures Agree(Contents(Store(t, i, v)), Contents(t)[t.keys[i] := v], x)
  {
    var u, cap := Store(t, i, v), |t.states|;
    EntryAt(u, cap, i);
    if x in Contents(u) { var j := EntryOf(u, cap, x); EntryAt(t, cap, j); }
    if x in Contents(t) { var j := EntryOf(t, cap, x); EntryAt(u, cap, j); }
  }

  lemma {:induction false} StoreContents<K(!new), V>(t: Table<K, V>, i: nat, v: V)
    requires Shape(t) && Distinct(t) && i < |t.states| && t.states[i] == Filled
    ensures Contents(Store(t, i, v)) == Contents(t)[t.keys[i] := v]
  {
    var a, b := Contents(Store(t, i, v)), Contents(t)[t.keys[i] := v];
    forall x ensures x in a <==> x in b { StoreAt(t, i, v, x); }
    forall x | x in a ensures a[x] == b[x] { StoreAt(t, i, v, x); }
    assert a == b;
  }

  /** A filled slot becomes a tombstone; its key and value are overwritten. */
  function Bury<K, V>(t: Table<K, V>, i: nat, k: K, v: V): Table<K, V>
    requires Shape(t) && i < |t.states|
  {
    Table(t.keys[i := k], t.values[i := v], t.states[i := Deleted])
  }

  lemma {:induction false} BurySound<K, V>(hash: K -> nat, t: Table<K, V>, i: nat, k: K, v: V)
    requires Sound(hash, t) && i < |t.states| && t.states[i] == Filled
    ensures Sound(hash, Bury(t, i, k, v))
  {}

  lemma {:induction false} BuryAt<K, V>(t: Table<K, V>, i: nat, k: K, v: V, x: K)
    requires Shape(t) && Distinct(t) && i < |t.states| && t.states[i] == Filled
    ensures Agree(Contents(Bury(t, i, k, v)), Contents(t) - {t.keys[i]}, x)
  {
    var u, cap := Bury(t, i, k, v), |t.states|;
    if x in Contents(u) { var j := EntryOf(u, cap, x); EntryAt(t, cap, j); }
    if x in Contents(t) && x != t.keys[i] { var j := EntryOf(t, cap, x); EntryAt(u, cap, j); }
  }

  lemma {:induction false} BuryContents<K(!new), V>(t: Table<K, V>, i: nat, k: K, v: V)
    requires Shape(t) && Distinct(t) && i < |t.states| && t.states[i] == Filled
    ensures Contents(Bury(t, i, k, v)) == Contents(t) - {t.keys[i]}
  {
    var a, b := Contents(Bury(t, i, k, v)), Contents(t) - {t.keys[i]};
    forall x ensures x in a <==> x in b { BuryAt(t, i, k, v, x); }
    forall x | x in a ensures a[x] == b[x] { BuryAt(t, i, k, v, x); }
    assert a == b;
  }

  // ---- Searching ----

  /** The first d probes for a key met neither an empty slot nor the key. */
  ghost predicate Passed<K, V>(hash: K -> nat, t: Table<K, V>, k: K, d: nat)
    requires Shape(t) && |t.states| > 0 && d <= |t.states|
  {
    forall e :: 0 <= e < d ==>
      var i := Probe(Home(hash, k, |t.states|), e, |t.states|);
      t.states[i] != Empty && (t.states[i] == Filled ==> t.keys[i] != k)
  }

  /** Meeting an empty slot without the key means the key is absent: tombstones hide nothing. */
  lemma {:induction false} MissMeansAbsent<K, V>(hash: K -> nat, t: Table<K, V>, k: K, d: nat)
    requires Sound(hash, t) && d < |t.states| && Passed(hash, t, k, d)
    requires t.states[Probe(Home(hash, k, |t.states|), d, |t.states|)] == Empty
    ensures k !in Contents(t)
  {
    var cap, home := |t.states|, Home(hash, k, |t.states|);
    forall i | 0 <= i < cap && t.states[i] == Filled ensures t.keys[i] != k {
      assert Reached(hash, t, i);
      var e := Dist(home, i, cap);
      assert e < d ==> t.keys[Probe(home, e, cap)] != k;
    }
    Member(t, cap, k);
  }

  /** A search cannot pass an empty slot. */
  lemma {:induction false} StopsBefore<K, V>(hash: K -> nat, t: Table<K, V>, k: K, d: nat, empty: nat)
    requires Shape(t) && empty < |t.states| && t.states[empty] == Empty && d <= |t.states| && Passed(hash, t, k, d)
    ensures d <= Dist(Home(hash, k, |t.states|), empty, |t.states|)
  {}
}
