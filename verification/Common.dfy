/** Failure-carrying results, fixed-width unsigned integers and sorted sequences. */
module Common {

  datatype Option<+T> = None | Some(value: T)

  datatype Result<+T, +E> = Ok(value: T) | Err(error: E)

  type u8 = x: int | 0 <= x < 0x100
  type u16 = x: int | 0 <= x < 0x1_0000
  type u32 = x: int | 0 <= x < 0x1_0000_0000
  type u64 = x: int | 0 <= x < 0x1_0000_0000_0000_0000

  /** A subset is no larger than the set that contains it. */
  lemma {:induction false} SubsetCardinality<T>(small: set<T>, big: set<T>)
    requires small <= big
    ensures |small| <= |big|
    ensures |small| == |big| ==> small == big
    decreases |small|
  {
    if small != {} {
      var x :| x in small;
      SubsetCardinality(small - {x}, big - {x});
      assert small == small - {x} + {x} && big == big - {x} + {x};
    }
  }
}

/** Sorting by an integer key, and why a strictly sorted sequence is determined by its elements. */
module Ordered {

  ghost predicate Ascending<T>(s: seq<T>, key: T -> int) {
    forall i, j :: 0 <= i < j < |s| ==> key(s[i]) <= key(s[j])
  }

  ghost predicate Strict<T>(s: seq<T>, key: T -> int) {
    forall i, j :: 0 <= i < j < |s| ==> key(s[i]) < key(s[j])
  }

  ghost predicate DistinctKeys<T>(s: seq<T>, key: T -> int) {
    forall i, j :: 0 <= i < j < |s| ==> key(s[i]) != key(s[j])
  }

  function Insert<T>(x: T, s: seq<T>, key: T -> int): (r: seq<T>)
    ensures |r| == |s| + 1 && multiset(r) == multiset(s) + multiset{x}
  {
    if s == [] || key(x) <= key(s[0]) then [x] + s
    else
      assert s == [s[0]] + s[1..];
      [s[0]] + Insert(x, s[1..], key)
  }

  lemma Inserted<T>(x: T, s: seq<T>, key: T -> int, y: T)
    ensures y in Insert(x, s, key) <==> y == x || y in s
  {
    assert y in Insert(x, s, key) <==> y in multiset(Insert(x, s, key));
  }

  lemma {:induction false} InsertAscends<T>(x: T, s: seq<T>, key: T -> int)
    requires Ascending(s, key)
    ensures Ascending(Insert(x, s, key), key)
  {
    if s != [] && key(x) > key(s[0]) {
      InsertAscends(x, s[1..], key);
      var rest := Insert(x, s[1..], key);
      forall i | 0 <= i < |rest| ensures key(s[0]) <= key(rest[i]) { Inserted(x, s[1..], key, rest[i]); }
    }
  }

  /** Insertion sort; the order among equal keys is not relied on anywhere. */
  function Sort<T(!new)>(s: seq<T>, key: T -> int): (r: seq<T>)
    ensures Ascending(r, key)
    ensures multiset(r) == multiset(s)
    ensures |r| == |s|
    ensures forall y :: y in r <==> y in s
  {
    if s == [] then [] else
      assert s == [s[0]] + s[1..];
      InsertAscends(s[0], Sort(s[1..], key), key);
      var r := Insert(s[0], Sort(s[1..], key), key);
      assert forall y :: y in r <==> y in multiset(r);
      r
  }

  lemma {:induction false} InsertStrict<T>(x: T, s: seq<T>, key: T -> int)
    requires Strict(s, key)
    requires forall y :: y in s ==> key(y) != key(x)
    ensures Strict(Insert(x, s, key), key)
  {
    if s != [] && key(x) > key(s[0]) {
      InsertStrict(x, s[1..], key);
      var rest := Insert(x, s[1..], key);
      forall i | 0 <= i < |rest| ensures key(s[0]) < key(rest[i]) { Inserted(x, s[1..], key, rest[i]); }
    } else {
      forall i | 0 <= i < |s| ensures key(x) < key(s[i]) { assert s[i] in s; }
    }
  }

  /** Distinct keys sort into a strictly ascending sequence. */
  lemma {:induction false} SortStrict<T(!new)>(s: seq<T>, key: T -> int)
    requires DistinctKeys(s, key)
    ensures Strict(Sort(s, key), key)
  {
    if s != [] {
      SortStrict(s[1..], key);
      forall y | y in Sort(s[1..], key) ensures key(y) != key(s[0]) {
        assert y in s[1..];
      }
      InsertStrict(s[0], Sort(s[1..], key), key);
    }
  }

  lemma {:induction false} StrictHeads<T>(a: seq<T>, b: seq<T>, key: T -> int)
    requires Strict(a, key) && Strict(b, key) && a != [] && b != []
    requires a[0] in b && b[0] in a
    ensures a[0] == b[0]
  {}

  lemma {:induction false} StrictTail<T>(s: seq<T>, key: T -> int, x: T)
    requires Strict(s, key) && s != []
    ensures Strict(s[1..], key) && (x in s[1..] <==> x in s && x != s[0])
  {
    assert s == [s[0]] + s[1..];
    forall i | 0 <= i < |s[1..]| ensures s[1..][i] != s[0] { assert key(s[0]) < key(s[i + 1]); }
  }

  /** Two strictly sorted sequences with the same elements are the same sequence. */
  lemma {:induction false} StrictUnique<T>(a: seq<T>, b: seq<T>, key: T -> int)
    requires Strict(a, key) && Strict(b, key)
    requires forall x :: x in a <==> x in b
    ensures a == b
  {
    assert forall i :: 0 <= i < |a| ==> a[i] in b;
    assert forall i :: 0 <= i < |b| ==> b[i] in a;
    if a != [] && b != [] {
      StrictHeads(a, b, key);
      forall x ensures x in a[1..] <==> x in b[1..] {
        StrictTail(a, key, x);
        StrictTail(b, key, x);
      }
      StrictTail(a, key, a[0]);
      StrictTail(b, key, b[0]);
      StrictUnique(a[1..], b[1..], key);
      assert a == [a[0]] + a[1..] && b == [b[0]] + b[1..];
    }
  }
}

/** The few facts about products and quotients by a variable that the models need. */
module Arithmetic {

  lemma {:induction false} MulOrder(a: nat, b: nat, size: nat)
    ensures a < b ==> a * size + size <= b * size
    decreases b
  {
    if a + 1 < b {
      MulOrder(a, b - 1, size);
      assert b * size == (b - 1) * size + size;
    }
  }

  lemma {:induction false} DivUnique(n: nat, size: nat, q: nat, r: nat)
    requires size > 0 && n == q * size + r && r < size
    ensures n / size == q && n % size == r
  {
    MulOrder(n / size, q, size);
    MulOrder(q, n / size, size);
  }

  lemma {:induction false} DivStep(n: nat, size: nat)
    requires size > 0
    ensures (n + size) / size == n / size + 1
  {
    assert n + size == (n / size + 1) * size + n % size;
    DivUnique(n + size, size, n / size + 1, n % size);
  }
}

/** Listing a finite set of integers in order. */
module IntSets {
  lemma Member<T>(s: set<T>) returns (y: T)
    requires s != {}
    ensures y in s
  {
    y :| y in s;
  }

  lemma {:induction false} LeastExists(s: set<int>) returns (m: int)
    requires s != {}
    ensures m in s && forall x :: x in s ==> m <= x
    decreases |s|
  {
    m := Member(s);
    var rest := s - {m};
    if rest != {} {
      var n := LeastExists(rest);
      forall x | x in s ensures x == m || n <= x { assert x != m ==> x in rest; }
      if n < m { m := n; }
    } else {
      forall x | x in s ensures x == m { assert x != m ==> x in rest; }
    }
  }

  function Least(s: set<int>): (m: int)
    requires s != {}
    ensures m in s && forall x :: x in s ==> m <= x
  {
    assert exists m :: m in s && forall x :: x in s ==> m <= x by { var m := LeastExists(s); }
    var m :| m in s && forall x :: x in s ==> m <= x;
    m
  }

  /** The members in rising order. */
  function Sorted(s: set<int>): (r: seq<int>)
    ensures forall x :: x in r <==> x in s
    ensures forall i, j :: 0 <= i < j < |r| ==> r[i] < r[j]
    decreases |s|
  {
    if s == {} then [] else [Least(s)] + Sorted(s - {Least(s)})
  }
}

/** Runs of an arbitrary machine. */
module Folds {
  function Fold<S, A>(step: (S, A) -> S, s: S, acts: seq<A>): S
    decreases |acts|
  {
    if acts == [] then s else step(Fold(step, s, acts[..|acts| - 1]), acts[|acts| - 1])
  }

  lemma {:induction false} FoldMore<S, A>(step: (S, A) -> S, s: S, acts: seq<A>, more: seq<A>)
    ensures Fold(step, s, acts + more) == Fold(step, Fold(step, s, acts), more)
    decreases |more|
  {
    if more == [] {
      assert acts + more == acts;
    } else {
      var rest := more[..|more| - 1];
      assert (acts + more)[..|acts + more| - 1] == acts + rest;
      FoldMore(step, s, acts, rest);
    }
  }

  /** What every step carries on from k actions to k + 1 holds at the end. */
  lemma {:induction false} FoldKeeps<S(!new), A>(step: (S, A) -> S, s: S, acts: seq<A>, holds: (S, nat) -> bool)
    requires holds(s, 0)
    requires forall t, k: nat :: k < |acts| && holds(t, k) ==> holds(step(t, acts[k]), k + 1)
    ensures holds(Fold(step, s, acts), |acts|)
    decreases |acts|
  {
    if acts != [] {
      var rest := acts[..|acts| - 1];
      forall t, k: nat | k < |rest| && holds(t, k) ensures holds(step(t, rest[k]), k + 1) {
        assert rest[k] == acts[k];
      }
      FoldKeeps(step, s, rest, holds);
    }
  }

  lemma {:induction false} FoldOne<S, A>(step: (S, A) -> S, s: S, a: A)
    ensures Fold(step, s, [a]) == step(s, a)
  {
    assert [a][..0] == [];
  }
}
