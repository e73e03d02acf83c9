/** Dependency graphs of load templates: orders, cycles, and why having the one excludes the other. */
module LoadOrder {
  import opened Common

  /** deps[i] lists the nodes that must be loaded before node i, possibly with repeats. */
  type Graph = seq<seq<nat>>

  predicate InRange(deps: Graph) {
    forall i, d :: 0 <= i < |deps| && d in deps[i] ==> d < |deps|
  }

  predicate IsListing(order: seq<nat>, n: nat) {
    && (forall i :: 0 <= i < |order| ==> order[i] < n)
    && (forall i, j :: 0 <= i < j < |order| ==> order[i] != order[j])
  }

  /** Every node once, and everything it depends on before it. */
  predicate IsOrder(deps: Graph, order: seq<nat>) {
    && |order| == |deps| && IsListing(order, |deps|)
    && forall k :: 0 <= k < |order| ==> forall d :: d in deps[order[k]] ==> d in order[..k]
  }

  /** Node a depends on node b. */
  predicate Edge(deps: Graph, a: nat, b: nat) {
    a < |deps| && b in deps[a]
  }

  /** Each node of the path depends on the next. */
  predicate IsPath(deps: Graph, p: seq<nat>) {
    && (forall i :: 0 <= i < |p| ==> p[i] < |deps|)
    && forall i, j :: 0 <= i < |p| && j == i + 1 && j < |p| ==> Edge(deps, p[i], p[j])
  }

  predicate IsCycle(deps: Graph, p: seq<nat>) {
    |p| >= 2 && IsPath(deps, p) && p[0] == p[|p| - 1]
  }

  // ---- An order leaves no cycle ----

  lemma {:induction false} PathGoesBack(deps: Graph, order: seq<nat>, p: seq<nat>, k: nat) returns (j: nat)
    requires IsOrder(deps, order) && IsPath(deps, p) && |p| >= 2 && k < |order| && order[k] == p[0]
    ensures j < k && order[j] == p[|p| - 1]
    decreases |p|
  {
    assert Edge(deps, p[0], p[1]);
    j :| 0 <= j < k && order[..k][j] == p[1];
    if |p| > 2 { j := PathGoesBack(deps, order, p[1..], j); }
  }

  lemma {:induction false} OrderHasNoCycle(deps: Graph, order: seq<nat>, p: seq<nat>)
    requires IsOrder(deps, order)
    ensures !IsCycle(deps, p)
  {
    if |p| >= 2 && IsPath(deps, p) {
      Listed(order, |deps|, p[0]);
      var k :| 0 <= k < |order| && order[k] == p[0];
      var j := PathGoesBack(deps, order, p, k);
      assert order[j] != order[k];
    }
  }

  // ---- Counting ----

  ghost function Elements(s: seq<nat>): set<nat> {
    set x | x in s
  }

  ghost function Under(n: nat): (r: set<nat>)
    ensures |r| == n && forall i: nat :: i in r <==> i < n
  {
    if n == 0 then {} else Under(n - 1) + {n - 1}
  }

  lemma {:induction false} ListingSize(s: seq<nat>, n: nat)
    requires IsListing(s, n)
    ensures |Elements(s)| == |s| <= n && Elements(s) <= Under(n)
    ensures |s| == n ==> Elements(s) == Under(n)
  {
    DistinctSize(s);
    SubsetCardinality(Elements(s), Under(n));
  }

  lemma {:induction false} DistinctSize(s: seq<nat>)
    requires forall i, j :: 0 <= i < j < |s| ==> s[i] != s[j]
    ensures |Elements(s)| == |s|
  {
    if s != [] {
      var rest, last := s[..|s| - 1], s[|s| - 1];
      DistinctSize(rest);
      assert Elements(s) == Elements(rest) + {last};
      forall i | 0 <= i < |rest| ensures rest[i] != last { assert s[i] != s[|s| - 1]; }
    }
  }

  /** A complete listing contains every node. */
  lemma {:induction false} Listed(order: seq<nat>, n: nat, x: nat)
    requires IsListing(order, n) && |order| == n && x < n
    ensures x in order
  {
    ListingSize(order, n);
    assert x in Elements(order);
  }

  /** A sequence of more than n numbers below n repeats one. */
  lemma {:induction false} Pigeonhole(p: seq<nat>, n: nat) returns (i: nat, j: nat)
    requires |p| > n && forall k :: 0 <= k < |p| ==> p[k] < n
    ensures i < j < |p| && p[i] == p[j]
  {
    if IsListing(p, n) { ListingSize(p, n); }
    i, j :| 0 <= i < j < |p| && p[i] == p[j];
  }

  // ---- Leftovers form a cycle ----

  /** Node i depends on a node outside the order. */
  predicate Blocked(deps: Graph, order: seq<nat>, i: nat) {
    i < |deps| && exists d :: d in deps[i] && d !in order
  }

  /** Every node outside the order is blocked. */
  predicate Stuck(deps: Graph, order: seq<nat>) {
    forall i :: 0 <= i < |deps| && i !in order ==> Blocked(deps, order, i)
  }

  predicate Outside(p: seq<nat>, order: seq<nat>) {
    forall i :: 0 <= i < |p| ==> p[i] !in order
  }

  lemma {:induction false} PathExtends(deps: Graph, q: seq<nat>, d: nat)
    requires InRange(deps) && IsPath(deps, q) && q != [] && Edge(deps, q[|q| - 1], d)
    ensures IsPath(deps, q + [d])
  {}

  lemma {:induction false} WalkOutside(deps: Graph, order: seq<nat>, start: nat, n: nat) returns (p: seq<nat>)
    requires InRange(deps) && Stuck(deps, order) && start < |deps| && start !in order
    ensures |p| == n + 1 && IsPath(deps, p) && Outside(p, order)
  {
    if n == 0 {
      p := [start];
    } else {
      var q := WalkOutside(deps, order, start, n - 1);
      assert Blocked(deps, order, q[|q| - 1]);
      var d :| d in deps[q[|q| - 1]] && d !in order;
      PathExtends(deps, q, d);
      p := q + [d];
    }
  }

  lemma {:induction false} SubPath(deps: Graph, p: seq<nat>, i: nat, j: nat)
    requires IsPath(deps, p) && i <= j <= |p|
    ensures IsPath(deps, p[i..j])
  {}

  lemma {:induction false} StuckHasCycle(deps: Graph, order: seq<nat>, start: nat) returns (p: seq<nat>)
    requires InRange(deps) && Stuck(deps, order) && start < |deps| && start !in order
    ensures IsCycle(deps, p)
  {
    var walk := WalkOutside(deps, order, start, |deps|);
    var i, j := Pigeonhole(walk, |deps|);
    p := walk[i..j + 1];
    SubPath(deps, walk, i, j + 1);
  }
}
