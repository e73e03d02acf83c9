/** The checkpoint loader's scheduling: names to indices, Kahn's algorithm, and levels that can load side by side. */
module Loader {
  import opened Common
  import opened LoadOrder

  datatype Template = Template(collection: string, dependsOn: seq<string>)

  datatype LoadError = EmptyCollection | DuplicateCollection | UnknownDependency | CircularDependency

  // ---- Names ----

  predicate Named(ts: seq<Template>) {
    && (forall i :: 0 <= i < |ts| ==> ts[i].collection != "")
    && (forall i, j :: 0 <= i < j < |ts| ==> ts[i].collection != ts[j].collection)
  }

  /** The names of the first n templates and their indices. */
  predicate IndexOf(ts: seq<Template>, n: nat, names: map<string, nat>)
    requires n <= |ts|
  {
    && (forall i :: 0 <= i < n ==> ts[i].collection in names && names[ts[i].collection] == i)
    && (forall c :: c in names ==> names[c] < n && ts[names[c]].collection == c)
  }

  method IndexNames(ts: seq<Template>) returns (r: Result<map<string, nat>, LoadError>)
    ensures r.Ok? <==> Named(ts)
    ensures r.Ok? ==> IndexOf(ts, |ts|, r.value)
    ensures r == Err(EmptyCollection) ==> exists i :: 0 <= i < |ts| && ts[i].collection == ""
    ensures r == Err(DuplicateCollection) ==> exists i, j :: 0 <= i < j < |ts| && ts[i].collection == ts[j].collection
    ensures r.Err? ==> r.error == EmptyCollection || r.error == DuplicateCollection
  {
    var names: map<string, nat> := map[];
    for n := 0 to |ts|
      invariant IndexOf(ts, n, names) && Named(ts[..n])
    {
      if ts[n].collection == "" {
        return Err(EmptyCollection);
      }
      if ts[n].collection in names {
        assert ts[names[ts[n].collection]].collection == ts[n].collection;
        return Err(DuplicateCollection);
      }
      names := names[ts[n].collection := n];
    }
    assert ts[..|ts|] == ts;
    return Ok(names);
  }

  predicate Known(ts: seq<Template>, names: map<string, nat>) {
    forall i, c :: 0 <= i < |ts| && c in ts[i].dependsOn ==> c in names
  }

  /** The dependencies of one template as indices. */
  predicate Resolved(t: Template, names: map<string, nat>, ds: seq<nat>) {
    |ds| == |t.dependsOn| && forall j :: 0 <= j < |ds| ==> t.dependsOn[j] in names && ds[j] == names[t.dependsOn[j]]
  }

  method ResolveOne(t: Template, names: map<string, nat>) returns (r: Option<seq<nat>>)
    ensures r.Some? <==> forall c :: c in t.dependsOn ==> c in names
    ensures r.Some? ==> Resolved(t, names, r.value)
  {
    var ds: seq<nat> := [];
    for j := 0 to |t.dependsOn|
      invariant |ds| == j && forall k :: 0 <= k < j ==> t.dependsOn[k] in names && ds[k] == names[t.dependsOn[k]]
    {
      if t.dependsOn[j] !in names {
        assert t.dependsOn[j] in t.dependsOn;
        return None;
      }
      ds := ds + [names[t.dependsOn[j]]];
    }
    return Some(ds);
  }

  method ResolveDeps(ts: seq<Template>, names: map<string, nat>) returns (r: Result<Graph, LoadError>)
    ensures r.Ok? <==> Known(ts, names)
    ensures r.Ok? ==> |r.value| == |ts| && forall i :: 0 <= i < |ts| ==> Resolved(ts[i], names, r.value[i])
    ensures r.Err? ==> r.error == UnknownDependency
  {
    var deps: Graph := [];
    for i := 0 to |ts|
      invariant |deps| == i && Known(ts[..i], names) && forall k :: 0 <= k < i ==> Resolved(ts[k], names, deps[k])
    {
      var ds := ResolveOne(ts[i], names);
      if ds.None? {
        return Err(UnknownDependency);
      }
      deps := deps + [ds.value];
    }
    assert ts[..|ts|] == ts;
    return Ok(deps);
  }

  // ---- Counting dependencies still open ----

  function Times(s: seq<nat>, x: nat): nat {
    if s == [] then 0 else Times(s[..|s| - 1], x) + (if s[|s| - 1] == x then 1 else 0)
  }

  function Open(s: seq<nat>, done: set<nat>): nat {
    if s == [] then 0 else Open(s[..|s| - 1], done) + (if s[|s| - 1] in done then 0 else 1)
  }

  lemma {:induction false} OpenAdd(s: seq<nat>, done: set<nat>, x: nat)
    requires x !in done
    ensures Open(s, done) == Open(s, done + {x}) + Times(s, x)
  {
    if s != [] { OpenAdd(s[..|s| - 1], done, x); }
  }

  lemma {:induction false} OpenNone(s: seq<nat>)
    ensures Open(s, {}) == |s|
  {
    if s != [] { OpenNone(s[..|s| - 1]); }
  }

  lemma {:induction false} OpenZero(s: seq<nat>, done: set<nat>)
    ensures Open(s, done) == 0 <==> forall x :: x in s ==> x in done
  {
    if s != [] {
      var rest, last := s[..|s| - 1], s[|s| - 1];
      OpenZero(rest, done);
      assert s == rest + [last];
    }
  }

  lemma {:induction false} TimesPrefix(s: seq<nat>, m: nat, x: nat)
    requires m < |s|
    ensures Times(s[..m + 1], x) == Times(s[..m], x) + (if s[m] == x then 1 else 0)
    ensures Times(s[..m + 1], x) <= Times(s, x)
    decreases |s| - m
  {
    assert s[..m + 1][..m] == s[..m];
    if m + 1 < |s| { TimesPrefix(s, m + 1, x); } else { assert s[..m + 1] == s; }
  }

  lemma {:induction false} TimesAppend(s: seq<nat>, y: nat, x: nat)
    ensures Times(s + [y], x) == Times(s, x) + (if y == x then 1 else 0)
  {}

  // ---- Kahn's algorithm ----

  /** adj[d] lists each node once for every time it names d as a dependency. */
  ghost predicate Reverses(deps: Graph, adj: Graph) {
    && |adj| == |deps| && InRange(adj)
    && forall d, i :: 0 <= d < |deps| && 0 <= i < |deps| ==> Times(adj[d], i) == Times(deps[i], d)
  }

  /** The edges of the first n nodes, reversed. */
  ghost predicate ReversesTo(deps: Graph, n: nat, adj: Graph)
    requires n <= |deps|
  {
    && |adj| == |deps| && InRange(adj)
    && forall d, i :: 0 <= d < |deps| && 0 <= i < |deps| ==> Times(adj[d], i) == if i < n then Times(deps[i], d) else 0
  }

  method AddEdges(deps: Graph, i: nat, adj: array<seq<nat>>)
    requires InRange(deps) && i < |deps| && ReversesTo(deps, i, adj[..])
    modifies adj
    ensures ReversesTo(deps, i + 1, adj[..])
  {
    ghost var before := adj[..];
    for j := 0 to |deps[i]|
      invariant |adj[..]| == |deps| && InRange(adj[..])
      invariant forall d, k :: 0 <= d < |deps| && 0 <= k < |deps| ==>
                  Times(adj[d], k) == Times(before[d], k) + (if k == i then Times(deps[i][..j], d) else 0)
    {
      var dep := deps[i][j];
      assert dep in deps[i];
      forall d, k | 0 <= d < |deps| && 0 <= k < |deps|
        ensures Times(deps[i][..j + 1], d) == Times(deps[i][..j], d) + (if dep == d then 1 else 0)
        ensures Times(adj[d] + [i], k) == Times(adj[d], k) + (if i == k then 1 else 0)
      {
        TimesPrefix(deps[i], j, d);
        TimesAppend(adj[d], i, k);
      }
      adj[dep] := adj[dep] + [i];
    }
    assert deps[i][..|deps[i]|] == deps[i];
  }

  /** Lowers the count of each target; those that reach zero join the queue. */
  method Relax(inDegree: array<int>, targets: seq<nat>) returns (joined: seq<nat>)
    requires forall t :: t in targets ==> t < inDegree.Length
    requires forall x: nat :: x < inDegree.Length ==> inDegree[x] >= Times(targets, x)
    modifies inDegree
    ensures forall x: nat :: x < inDegree.Length ==> inDegree[x] == old(inDegree[x]) - Times(targets, x)
    ensures forall x: nat :: x in joined <==> x < inDegree.Length && old(inDegree[x]) > 0 && inDegree[x] == 0
    ensures forall i, j :: 0 <= i < j < |joined| ==> joined[i] != joined[j]
  {
    joined := [];
    for m := 0 to |targets|
      invariant forall x: nat :: x < inDegree.Length ==> inDegree[x] == old(inDegree[x]) - Times(targets[..m], x)
      invariant forall x: nat :: x in joined <==> x < inDegree.Length && old(inDegree[x]) > 0 && inDegree[x] == 0
      invariant forall i, j :: 0 <= i < j < |joined| ==> joined[i] != joined[j]
    {
      var next := targets[m];
      assert next in targets;
      forall x: nat | x < inDegree.Length
        ensures Times(targets[..m + 1], x) == Times(targets[..m], x) + (if next == x then 1 else 0) <= Times(targets, x)
      {
        TimesPrefix(targets, m, x);
      }
      inDegree[next] := inDegree[next] - 1;
      if inDegree[next] == 0 {
        joined := joined + [next];
      }
    }
    assert targets[..|targets|] == targets;
  }

  lemma {:induction false} NoEdges(deps: Graph, adj: Graph)
    requires |adj| == |deps| && forall d :: 0 <= d < |adj| ==> adj[d] == []
    ensures ReversesTo(deps, 0, adj)
  {
    forall d, i: nat | 0 <= d < |adj| ensures Times(adj[d], i) == 0 { assert adj[d] == []; }
  }

  method ReverseEdges(deps: Graph) returns (adj: array<seq<nat>>)
    requires InRange(deps)
    ensures fresh(adj) && Reverses(deps, adj[..])
  {
    adj := new seq<nat>[|deps|](_ => []);
    NoEdges(deps, adj[..]);
    for i := 0 to |deps|
      invariant adj.Length == |deps| && ReversesTo(deps, i, adj[..])
    {
      AddEdges(deps, i, adj);
    }
  }

  /** The nodes without dependencies, in order. */
  method Sources(inDegree: array<int>) returns (queue: seq<nat>)
    ensures forall x: nat :: x in queue <==> x < inDegree.Length && inDegree[x] == 0
    ensures forall i, j :: 0 <= i < j < |queue| ==> queue[i] != queue[j]
  {
    queue := [];
    for i := 0 to inDegree.Length
      invariant forall x: nat :: x in queue <==> x < i && inDegree[x] == 0
      invariant forall k, j :: 0 <= k < j < |queue| ==> queue[k] != queue[j]
    {
      if inDegree[i] == 0 {
        queue := queue + [i];
      }
    }
  }

  // ---- The main loop's invariant ----

  ghost predicate DepsFirst(deps: Graph, order: seq<nat>) {
    forall k :: 0 <= k < |order| ==> order[k] < |deps| && forall d :: d in deps[order[k]] ==> d in order[..k]
  }

  /** The counts are exact for what has been taken, and a node is taken or queued exactly when nothing of it is open. */
  ghost predicate Progress(deps: Graph, counts: seq<int>, order: seq<nat>, queue: seq<nat>) {
    && |counts| == |deps| && IsListing(order + queue, |deps|)
    && (forall i :: 0 <= i < |deps| ==> counts[i] == Open(deps[i], Elements(order)))
    && (forall i: nat :: i < |deps| ==> (counts[i] == 0 <==> i in order + queue))
    && DepsFirst(deps, order)
  }

  lemma {:induction false} StartProgress(deps: Graph, counts: seq<int>, queue: seq<nat>)
    requires |counts| == |deps| && (forall i :: 0 <= i < |deps| ==> counts[i] == |deps[i]|)
    requires forall x: nat :: x in queue <==> x < |deps| && counts[x] == 0
    requires forall i, j :: 0 <= i < j < |queue| ==> queue[i] != queue[j]
    ensures Progress(deps, counts, [], queue)
  {
    assert [] + queue == queue && Elements([]) == {};
    forall i | 0 <= i < |deps| ensures counts[i] == Open(deps[i], Elements([])) { OpenNone(deps[i]); }
    forall i | 0 <= i < |queue| ensures queue[i] < |deps| { assert queue[i] in queue; }
  }

  /** What Relax does to counts, as values. */
  ghost predicate Relaxed(before: seq<int>, targets: seq<nat>, after: seq<int>, joined: seq<nat>) {
    && |after| == |before| && (forall x: nat :: x < |before| ==> after[x] == before[x] - Times(targets, x))
    && (forall x: nat :: x in joined <==> x < |before| && before[x] > 0 && after[x] == 0)
    && (forall i, j :: 0 <= i < j < |joined| ==> joined[i] != joined[j])
  }

  /** Taking a queued node is safe: all it depends on has been taken. */
  lemma {:induction false} TakenReady(deps: Graph, counts: seq<int>, order: seq<nat>, queue: seq<nat>)
    requires Progress(deps, counts, order, queue) && queue != []
    ensures queue[0] < |deps| && queue[0] !in order && forall d :: d in deps[queue[0]] ==> d in order
  {
    var cur := queue[0];
    assert (order + queue)[|order|] == cur;
    assert cur in order + queue;
    OpenZero(deps[cur], Elements(order));
    forall i | 0 <= i < |order| ensures order[i] != cur { assert (order + queue)[i] != (order + queue)[|order|]; }
  }

  lemma {:induction false} EnoughCount(deps: Graph, adj: Graph, counts: seq<int>, order: seq<nat>, queue: seq<nat>, x: nat)
    requires Progress(deps, counts, order, queue) && Reverses(deps, adj) && queue != [] && x < |deps|
    ensures queue[0] < |deps| && counts[x] >= Times(adj[queue[0]], x)
    ensures counts[x] - Times(adj[queue[0]], x) == Open(deps[x], Elements(order + [queue[0]]))
  {
    TakenReady(deps, counts, order, queue);
    var cur := queue[0];
    OpenAdd(deps[x], Elements(order), cur);
    assert Elements(order + [cur]) == Elements(order) + {cur};
  }

  /** The listing after taking the head of the queue and appending those that joined. */
  lemma {:induction false} NextListing(n: nat, order: seq<nat>, queue: seq<nat>, joined: seq<nat>)
    requires IsListing(order + queue, n) && queue != [] && IsListing(joined, n)
    requires forall x :: x in joined ==> x !in order + queue
    ensures IsListing(order + [queue[0]] + (queue[1..] + joined), n)
  {
    var first, next := order + queue, order + [queue[0]] + (queue[1..] + joined);
    assert next == first + joined;
    forall i, j | 0 <= i < j < |next| ensures next[i] != next[j] {
      if j >= |first| && i < |first| { assert next[j] in joined && next[i] in first; }
    }
  }

  lemma {:induction false} TakeProgress(deps: Graph, adj: Graph, counts: seq<int>, order: seq<nat>, queue: seq<nat>, after: seq<int>,
                                        joined: seq<nat>)
    requires InRange(deps) && Progress(deps, counts, order, queue) && Reverses(deps, adj) && queue != [] && queue[0] < |adj|
    requires Relaxed(counts, adj[queue[0]], after, joined)
    ensures Progress(deps, after, order + [queue[0]], queue[1..] + joined)
  {
    var cur := queue[0];
    var taken := order + [cur];
    forall x: nat | x < |deps| ensures after[x] == Open(deps[x], Elements(taken)) { EnoughCount(deps, adj, counts, order, queue, x); }
    forall x | x in joined ensures x !in order + queue { assert counts[x] > 0; }
    forall i | 0 <= i < |joined| ensures joined[i] < |deps| { assert joined[i] in joined; }
    NextListing(|deps|, order, queue, joined);
    assert taken + (queue[1..] + joined) == order + queue + joined;
    forall x: nat | x < |deps| ensures after[x] == 0 <==> x in taken + (queue[1..] + joined) {
      EnoughCount(deps, adj, counts, order, queue, x);
      assert counts[x] == 0 <==> x in order + queue;
    }
    TakenReady(deps, counts, order, queue);
    forall k | 0 <= k < |taken| ensures taken[k] < |deps| && forall d :: d in deps[taken[k]] ==> d in taken[..k] {
      if k < |order| { assert taken[..k] == order[..k]; } else { assert taken[..k] == order; }
    }
  }

  /** With an empty queue, whatever is left depends on something left. */
  lemma {:induction false} LeftIsStuck(deps: Graph, counts: seq<int>, order: seq<nat>)
    requires Progress(deps, counts, order, [])
    ensures IsListing(order, |deps|) && Stuck(deps, order) && (|order| == |deps| ==> IsOrder(deps, order))
  {
    assert order + [] == order;
    forall i: nat | i < |deps| && i !in order ensures Blocked(deps, order, i) { OpenZero(deps[i], Elements(order)); }
  }

  lemma {:induction false} ListingRoom(deps: Graph, counts: seq<int>, order: seq<nat>, queue: seq<nat>)
    requires Progress(deps, counts, order, queue)
    ensures |order| + |queue| <= |deps|
  {
    ListingSize(order + queue, |deps|);
  }

  lemma {:induction false} SomeoneLeft(deps: Graph, order: seq<nat>) returns (start: nat)
    requires IsListing(order, |deps|) && |order| != |deps|
    ensures start < |deps| && start !in order
  {
    ListingSize(order, |deps|);
    if forall i: nat :: i < |deps| ==> i in order {
      assert Under(|deps|) <= Elements(order);
      SubsetCardinality(Under(|deps|), Elements(order));
    }
    start :| start < |deps| && start !in order;
  }

  /** Kahn's algorithm: an order of all nodes, or the report of a cycle that really exists. */
  method Sort(deps: Graph) returns (r: Result<seq<nat>, LoadError>)
    requires InRange(deps)
    ensures r.Ok? ==> IsOrder(deps, r.value)
    ensures r.Err? ==> r.error == CircularDependency && exists p :: IsCycle(deps, p)
  {
    var inDegree := new int[|deps|](i requires 0 <= i < |deps| => |deps[i]|);
    var adj := ReverseEdges(deps);
    var queue: seq<nat> := Sources(inDegree);
    var order: seq<nat> := [];
    StartProgress(deps, inDegree[..], queue);
    while queue != []
      invariant adj.Length == inDegree.Length == |deps| && Reverses(deps, adj[..]) && Progress(deps, inDegree[..], order, queue)
      decreases |deps| - |order|
    {
      ghost var counts := inDegree[..];
      ListingRoom(deps, counts, order, queue);
      forall x: nat | x < |deps| ensures queue[0] < |deps| && counts[x] >= Times(adj[..][queue[0]], x) {
        EnoughCount(deps, adj[..], counts, order, queue, x);
      }
      TakenReady(deps, counts, order, queue);
      var cur := queue[0];
      assert adj[..][cur] == adj[cur];
      var joined := Relax(inDegree, adj[cur]);
      TakeProgress(deps, adj[..], counts, order, queue, inDegree[..], joined);
      queue, order := queue[1..] + joined, order + [cur];
    }
    LeftIsStuck(deps, inDegree[..], order);
    if |order| != |deps| {
      ghost var start := SomeoneLeft(deps, order);
      ghost var p := StuckHasCycle(deps, order, start);
      return Err(CircularDependency);
    }
    return Ok(order);
  }

  /** topoSort: every way it can end, in terms of the templates. */
  method TopoSort(ts: seq<Template>) returns (r: Result<seq<nat>, LoadError>, ghost names: map<string, nat>, ghost deps: Graph)
    ensures r == Err(EmptyCollection) || r == Err(DuplicateCollection) <==> !Named(ts)
    ensures Named(ts) ==> IndexOf(ts, |ts|, names) && (r == Err(UnknownDependency) <==> !Known(ts, names))
    ensures Named(ts) && Known(ts, names) ==>
              && |deps| == |ts| && InRange(deps) && (forall i :: 0 <= i < |ts| ==> Resolved(ts[i], names, deps[i]))
              && (r.Ok? ==> IsOrder(deps, r.value))
              && (r.Ok? <==> forall p :: !IsCycle(deps, p))
              && (r.Err? <==> r == Err(CircularDependency))
  {
    names, deps := map[], [];
    var index := IndexNames(ts);
    if index.Err? {
      return Err(index.error), names, deps;
    }
    names := index.value;
    var resolved := ResolveDeps(ts, index.value);
    if resolved.Err? {
      return Err(resolved.error), names, deps;
    }
    deps := resolved.value;
    ResolvedInRange(ts, names, deps);
    r := Sort(resolved.value);
    if r.Ok? {
      forall p ensures !IsCycle(deps, p) { OrderHasNoCycle(deps, r.value, p); }
    }
  }

  lemma {:induction false} ResolvedInRange(ts: seq<Template>, names: map<string, nat>, deps: Graph)
    requires IndexOf(ts, |ts|, names) && |deps| == |ts| && forall i :: 0 <= i < |ts| ==> Resolved(ts[i], names, deps[i])
    ensures InRange(deps)
  {}

  // ---- Levels ----

  /** The level of each node is one more than the highest of its dependencies, or zero. */
  ghost predicate IsLevel(deps: Graph, level: seq<nat>, i: nat)
    requires InRange(deps) && |level| == |deps| && i < |deps|
  {
    && (forall d :: d in deps[i] ==> level[d] < level[i])
    && (level[i] == 0 || exists d :: d in deps[i] && level[d] + 1 == level[i])
  }

  method LevelOf(deps: Graph, level: array<nat>, i: nat)
    requires InRange(deps) && level.Length == |deps| && i < |deps| && i !in deps[i] && level[i] == 0
    modifies level
    ensures IsLevel(deps, level[..], i) && forall j :: 0 <= j < level.Length && j != i ==> level[j] == old(level[j])
  {
    for j := 0 to |deps[i]|
      invariant forall k :: 0 <= k < level.Length && k != i ==> level[k] == old(level[k])
      invariant forall k :: 0 <= k < j ==> deps[i][k] in deps[i] && level[deps[i][k]] < level[i]
      invariant level[i] == 0 || exists k :: 0 <= k < j && deps[i][k] in deps[i] && level[deps[i][k]] + 1 == level[i]
    {
      var d := deps[i][j];
      assert d in deps[i];
      if level[d] + 1 > level[i] {
        level[i] := level[d] + 1;
      }
    }
  }

  /** The first k nodes of the order have their levels, the others still zero. */
  ghost predicate LevelledTo(deps: Graph, order: seq<nat>, level: seq<nat>, k: nat)
    requires InRange(deps) && IsListing(order, |deps|) && |level| == |deps| && k <= |order|
  {
    && (forall j :: 0 <= j < k ==> IsLevel(deps, level, order[j]))
    && (forall j :: k <= j < |order| ==> level[order[j]] == 0)
  }

  lemma {:induction false} LaterNode(deps: Graph, order: seq<nat>, j: nat, k: nat)
    requires IsOrder(deps, order) && j <= k < |order|
    ensures order[k] !in deps[order[j]]
  {}

  lemma {:induction false} LevelledStep(deps: Graph, order: seq<nat>, before: seq<nat>, after: seq<nat>, k: nat)
    requires InRange(deps) && IsListing(order, |deps|) && |before| == |after| == |deps| && k < |order|
    requires forall j :: 0 <= j < k ==> order[k] !in deps[order[j]]
    requires LevelledTo(deps, order, before, k) && IsLevel(deps, after, order[k])
    requires forall j :: 0 <= j < |deps| && j != order[k] ==> after[j] == before[j]
    ensures LevelledTo(deps, order, after, k + 1)
  {}

  lemma {:induction false} LevelledAll(deps: Graph, order: seq<nat>, level: seq<nat>, i: nat)
    requires InRange(deps) && IsOrder(deps, order) && |level| == |deps| && LevelledTo(deps, order, level, |order|) && i < |deps|
    ensures IsLevel(deps, level, i)
  {
    Listed(order, |deps|, i);
    var j :| 0 <= j < |order| && order[j] == i;
    assert IsLevel(deps, level, order[j]);
  }

  method Levels(order: seq<nat>, deps: Graph) returns (level: array<nat>)
    requires InRange(deps) && IsOrder(deps, order)
    ensures level.Length == |deps| && forall i: nat :: i < |deps| ==> IsLevel(deps, level[..], i)
  {
    level := new nat[|deps|](_ => 0);
    for k := 0 to |order|
      invariant level.Length == |deps| && LevelledTo(deps, order, level[..], k)
    {
      ghost var before := level[..];
      LaterNode(deps, order, k, k);
      assert before[order[k]] == 0;
      LevelOf(deps, level, order[k]);
      forall j | 0 <= j < k ensures order[k] !in deps[order[j]] { LaterNode(deps, order, j, k); }
      LevelledStep(deps, order, before, level[..], k);
    }
    forall i: nat | i < |deps| ensures IsLevel(deps, level[..], i) { LevelledAll(deps, order, level[..], i); }
  }

  /** Node i is in group l and in no other, once. */
  ghost predicate Placed(groups: seq<seq<nat>>, i: nat, l: nat) {
    && l < |groups| && Times(groups[l], i) == 1
    && forall m :: 0 <= m < |groups| && m != l ==> Times(groups[m], i) == 0
  }

  method Highest(level: array<nat>) returns (top: nat)
    ensures forall i :: 0 <= i < level.Length ==> level[i] <= top
    ensures top == 0 || exists i :: 0 <= i < level.Length && level[i] == top
  {
    top := 0;
    for i := 0 to level.Length
      invariant forall j :: 0 <= j < i ==> level[j] <= top
      invariant top == 0 || exists j :: 0 <= j < i && level[j] == top
    {
      if level[i] > top {
        top := level[i];
      }
    }
  }

  method Group(level: array<nat>, top: nat) returns (groups: seq<seq<nat>>)
    requires forall i :: 0 <= i < level.Length ==> level[i] <= top
    ensures |groups| == top + 1 && forall i: nat :: i < level.Length ==> Placed(groups, i, level[i])
  {
    var out := new seq<nat>[top + 1](_ => []);
    for i := 0 to level.Length
      invariant forall j: nat :: j < i ==> Placed(out[..], j, level[j])
      invariant forall j: nat, m :: j >= i && 0 <= m < out.Length ==> Times(out[m], j) == 0
    {
      ghost var before := out[..];
      var l := level[i];
      forall j: nat ensures Times(out[l] + [i], j) == Times(out[l], j) + (if i == j then 1 else 0) { TimesAppend(out[l], i, j); }
      out[l] := out[l] + [i];
      forall j: nat | j < i ensures Placed(out[..], j, level[j]) { assert Placed(before, j, level[j]); }
    }
    return out[..];
  }

  /** buildLevels: each node in exactly one level, above all it depends on and directly above one of them. */
  method BuildLevels(order: seq<nat>, deps: Graph) returns (groups: seq<seq<nat>>, ghost level: seq<nat>)
    requires InRange(deps) && IsOrder(deps, order)
    ensures |level| == |deps| && forall i: nat :: i < |deps| ==> Placed(groups, i, level[i]) && IsLevel(deps, level, i)
    ensures |groups| >= 1 && (|groups| == 1 || exists i: nat :: i < |deps| && level[i] == |groups| - 1)
  {
    var levels := Levels(order, deps);
    var top := Highest(levels);
    groups := Group(levels, top);
    level := levels[..];
  }
}
