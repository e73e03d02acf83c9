/**
 * Entity locks across workers. A worker's guard may block on an entity only when the entity lies above everything the
 * guard holds in the order by group and id; otherwise it only tries. No circle of blocked workers can form.
 */
module LockOrder {
  import opened Common
  import opened IntSets

  type Guid = int
  type Id = nat

  /** The lock group order of an entity, fixed for each id. */
  type Grouping = Guid -> int

  /** The order in which entities are locked. */
  predicate Below(group: Grouping, a: Guid, b: Guid) {
    if group(a) != group(b) then group(a) < group(b) else a < b
  }

  lemma BelowIsStrictOrder(group: Grouping, a: Guid, b: Guid, c: Guid)
    ensures !Below(group, a, a)
    ensures Below(group, a, b) || Below(group, b, a) || a == b
    ensures Below(group, a, b) && Below(group, b, c) ==> Below(group, a, c)
  {}

  predicate InOrder(group: Grouping, es: seq<Guid>) {
    forall i, j :: 0 <= i < j < |es| ==> !Below(group, es[j], es[i])
  }

  /** Everything asked for is held already or in a later group than everything held. */
  predicate MayBlock(group: Grouping, held: set<Guid>, es: seq<Guid>) {
    held == {} || forall e :: e in es ==> e in held || (group(e) > -1 && forall h :: h in held ==> group(h) < group(e))
  }

  /** The guard's check: find the latest group held, and refuse anything not after it. */
  method CheckContainAllLock(group: Grouping, held: set<Guid>, es: seq<Guid>) returns (ok: bool)
    ensures ok == MayBlock(group, held, es)
  {
    if |es| == 0 || held == {} {
      return true;
    }
    var latest, rest := -1, held;
    while rest != {}
      invariant rest <= held && latest >= -1
      invariant forall h :: h in held && h !in rest ==> group(h) <= latest
      invariant latest == -1 || exists h :: h in held && group(h) == latest
      decreases |rest|
    {
      ghost var member := Member(rest);
      var h :| h in rest;
      if group(h) > latest {
        latest := group(h);
      }
      rest := rest - {h};
    }
    for i := 0 to |es|
      invariant forall j :: 0 <= j < i ==> es[j] in held || group(es[j]) > latest
    {
      if es[i] !in held && group(es[i]) <= latest {
        ghost var e := es[i];
        assert e in es && !(group(e) > -1 && forall h :: h in held ==> group(h) < group(e));
        return false;
      }
    }
    return true;
  }

  // ---- Workers ----

  /** held is the guard; queue is what the current call still wants, and waiting the entity it is blocked on. */
  datatype Worker = Worker(held: set<Guid>, queue: seq<Guid>, blocking: bool, waiting: Option<Guid>)

  datatype State = State(owner: map<Guid, Id>, workers: map<Id, Worker>)

  /**
   * Dispatch and Cast lock a sorted list. Dispatch falls back to trying when blocking is not allowed and Cast refuses;
   * TryAll is dispatch under a group lock and group transitions. gone says that a locked entity turned out removed.
   */
  datatype Action =
    | Start(id: Id)
    | Dispatch(id: Id, es: seq<Guid>)
    | Cast(id: Id, es: seq<Guid>)
    | TryAll(id: Id, es: seq<Guid>)
    | Next(id: Id, gone: bool)
    | Acquire(id: Id, gone: bool)
    | Release(id: Id, entity: Guid)
    | Finish(id: Id)

  predicate Resting(w: Worker) {
    w.queue == [] && w.waiting.None?
  }

  /** The worker after a call begins; other actions begin none. */
  function Call(group: Grouping, w: Worker, a: Action): Worker {
    match a
    case Dispatch(_, es) => if InOrder(group, es) then w.(queue := es, blocking := MayBlock(group, w.held, es)) else w
    case Cast(_, es) => if InOrder(group, es) && MayBlock(group, w.held, es) then w.(queue := es, blocking := true) else w
    case TryAll(_, es) => w.(queue := es, blocking := false)
    case _ => w
  }

  /** The next entity of the current call: skip it, block on it, or try it. */
  function NextStep(s: State, id: Id, w: Worker, gone: bool): State {
    if w.queue == [] || w.waiting.Some? then s
    else
      var e := w.queue[0];
      if e in w.held then s.(workers := s.workers[id := w.(queue := w.queue[1..])])
      else if w.blocking then s.(workers := s.workers[id := w.(queue := w.queue[1..], waiting := Some(e))])
      else if e in s.owner || gone then s.(workers := s.workers[id := w.(queue := [])])
      else State(s.owner[e := id], s.workers[id := w.(queue := w.queue[1..], held := w.held + {e})])
  }

  /** A blocked worker gets the mutex once nobody has it. */
  function AcquireStep(s: State, id: Id, w: Worker, gone: bool): State {
    if w.waiting.None? || w.waiting.value in s.owner then s
    else if gone then s.(workers := s.workers[id := w.(queue := [], waiting := None)])
    else
      var e := w.waiting.value;
      State(s.owner[e := id], s.workers[id := w.(waiting := None, held := w.held + {e})])
  }

  function ReleaseStep(s: State, id: Id, w: Worker, e: Guid): State {
    if !Resting(w) || e !in w.held then s
    else State(s.owner - {e}, s.workers[id := w.(held := w.held - {e})])
  }

  function Step(group: Grouping, s: State, a: Action): State {
    if a.Start? then (if a.id in s.workers then s else s.(workers := s.workers[a.id := Worker({}, [], false, None)]))
    else if a.id !in s.workers then s
    else
      var w := s.workers[a.id];
      match a
      case Next(id, gone) => NextStep(s, id, w, gone)
      case Acquire(id, gone) => AcquireStep(s, id, w, gone)
      case Release(id, e) => ReleaseStep(s, id, w, e)
      case Finish(id) => if Resting(w) && w.held == {} then s.(workers := s.workers - {id}) else s
      case _ => if Resting(w) then s.(workers := s.workers[a.id := Call(group, w, a)]) else s
  }

  function Run(group: Grouping, acts: seq<Action>): State {
    if acts == [] then State(map[], map[]) else Step(group, Run(group, acts[..|acts| - 1]), acts[|acts| - 1])
  }

  // ---- The invariant ----

  ghost predicate AboveAll(group: Grouping, e: Guid, held: set<Guid>) {
    forall h :: h in held ==> Below(group, h, e)
  }

  /** What a blocking call still wants is in order and above all that is held. */
  ghost predicate Climbs(group: Grouping, w: Worker) {
    && (w.waiting.Some? ==>
          && w.blocking && w.waiting.value !in w.held && AboveAll(group, w.waiting.value, w.held)
          && forall e :: e in w.queue ==> !Below(group, e, w.waiting.value))
    && (w.blocking ==> InOrder(group, w.queue) && forall e :: e in w.queue ==> e in w.held || AboveAll(group, e, w.held))
  }

  ghost predicate OwnerInv(s: State) {
    && (forall e :: e in s.owner ==> s.owner[e] in s.workers && e in s.workers[s.owner[e]].held)
    && (forall id, e :: id in s.workers && e in s.workers[id].held ==> e in s.owner && s.owner[e] == id)
  }

  ghost predicate Inv(group: Grouping, s: State) {
    OwnerInv(s) && forall id :: id in s.workers ==> Climbs(group, s.workers[id])
  }

  lemma {:induction false} CallClimbs(group: Grouping, w: Worker, a: Action)
    requires Climbs(group, w) && Resting(w)
    ensures Climbs(group, Call(group, w, a))
  {}

  /** Taking the first wanted entity leaves the rest in order above it. */
  lemma {:induction false} TakenClimbs(group: Grouping, w: Worker, e: Guid)
    requires Climbs(group, w) && w.waiting == Some(e)
    ensures Climbs(group, w.(waiting := None, held := w.held + {e}))
  {}

  lemma {:induction false} NextClimbs(group: Grouping, w: Worker)
    requires Climbs(group, w) && w.waiting.None? && w.queue != [] && w.blocking && w.queue[0] !in w.held
    ensures Climbs(group, w.(queue := w.queue[1..], waiting := Some(w.queue[0])))
  {}

  lemma {:induction false} SkipClimbs(group: Grouping, w: Worker)
    requires Climbs(group, w) && w.waiting.None? && w.queue != []
    ensures Climbs(group, w.(queue := w.queue[1..]))
  {}

  lemma {:induction false} OneWorker(group: Grouping, s: State, t: State, id: Id, w: Worker)
    requires forall k :: k in s.workers ==> Climbs(group, s.workers[k])
    requires t.workers == s.workers[id := w] && Climbs(group, w)
    ensures forall k :: k in t.workers ==> Climbs(group, t.workers[k])
  {}

  lemma {:induction false} OwnerSame(s: State, t: State, id: Id, w: Worker)
    requires OwnerInv(s) && id in s.workers && t.owner == s.owner && t.workers == s.workers[id := w] && w.held == s.workers[id].held
    ensures OwnerInv(t)
  {}

  lemma {:induction false} OwnerTaken(s: State, t: State, id: Id, w: Worker, e: Guid)
    requires OwnerInv(s) && id in s.workers && e !in s.owner
    requires t.owner == s.owner[e := id] && t.workers == s.workers[id := w] && w.held == s.workers[id].held + {e}
    ensures OwnerInv(t)
  {}

  lemma {:induction false} OwnerGiven(s: State, t: State, id: Id, w: Worker, e: Guid)
    requires OwnerInv(s) && id in s.workers && e in s.workers[id].held
    requires t.owner == s.owner - {e} && t.workers == s.workers[id := w] && w.held == s.workers[id].held - {e}
    ensures OwnerInv(t)
  {
    assert s.owner[e] == id;
    forall k, f | k in t.workers && f in t.workers[k].held ensures f in t.owner && t.owner[f] == k {
      assert f in s.workers[k].held;
      assert s.owner[f] == k;
    }
    forall f | f in t.owner ensures t.owner[f] in t.workers && f in t.workers[t.owner[f]].held {
      assert s.owner[f] in s.workers && f in s.workers[s.owner[f]].held;
    }
  }

  lemma {:induction false} NextKeeps(group: Grouping, s: State, id: Id, gone: bool)
    requires Inv(group, s) && id in s.workers
    ensures Inv(group, NextStep(s, id, s.workers[id], gone))
  {
    var w := s.workers[id];
    var t := NextStep(s, id, w, gone);
    if w.queue != [] && w.waiting.None? {
      var e, v := w.queue[0], t.workers[id];
      if e in w.held { SkipClimbs(group, w); OwnerSame(s, t, id, v); }
      else if w.blocking { NextClimbs(group, w); OwnerSame(s, t, id, v); }
      else if e in s.owner || gone { OwnerSame(s, t, id, v); }
      else { OwnerTaken(s, t, id, v, e); }
      OneWorker(group, s, t, id, v);
    }
  }

  lemma {:induction false} AcquireKeeps(group: Grouping, s: State, id: Id, gone: bool)
    requires Inv(group, s) && id in s.workers
    ensures Inv(group, AcquireStep(s, id, s.workers[id], gone))
  {
    var w := s.workers[id];
    var t := AcquireStep(s, id, w, gone);
    if w.waiting.Some? && w.waiting.value !in s.owner {
      if gone { OwnerSame(s, t, id, t.workers[id]); }
      else { TakenClimbs(group, w, w.waiting.value); OwnerTaken(s, t, id, t.workers[id], w.waiting.value); }
      OneWorker(group, s, t, id, t.workers[id]);
    }
  }

  lemma {:induction false} ReleaseKeeps(group: Grouping, s: State, id: Id, e: Guid)
    requires Inv(group, s) && id in s.workers
    ensures Inv(group, ReleaseStep(s, id, s.workers[id], e))
  {}

  lemma {:induction false} StepKeeps(group: Grouping, s: State, a: Action)
    requires Inv(group, s)
    ensures Inv(group, Step(group, s, a))
  {
    if a.id in s.workers && !a.Start? {
      var w := s.workers[a.id];
      match a
      case Next(id, gone) => NextKeeps(group, s, id, gone);
      case Acquire(id, gone) => AcquireKeeps(group, s, id, gone);
      case Release(id, e) => ReleaseKeeps(group, s, id, e);
      case Finish(id) =>
      case _ =>
        if Resting(w) {
          CallClimbs(group, w, a);
          OwnerSame(s, Step(group, s, a), a.id, Call(group, w, a));
          OneWorker(group, s, Step(group, s, a), a.id, Call(group, w, a));
        }
    }
  }

  lemma {:induction false} RunKeeps(group: Grouping, acts: seq<Action>)
    ensures Inv(group, Run(group, acts))
  {
    if acts != [] {
      RunKeeps(group, acts[..|acts| - 1]);
      StepKeeps(group, Run(group, acts[..|acts| - 1]), acts[|acts| - 1]);
    }
  }

  // ---- What every run guarantees ----

  /** Worker a is blocked on an entity that worker b holds. */
  predicate WaitsFor(s: State, a: Id, b: Id) {
    a in s.workers && b in s.workers && s.workers[a].waiting.Some? && s.workers[a].waiting.value in s.workers[b].held
  }

  /** Along a chain of waits, the entities waited for rise. */
  lemma {:induction false} WaitsRise(group: Grouping, s: State, chain: seq<Id>, i: nat, j: nat)
    requires Inv(group, s) && i < j < |chain|
    requires forall k :: 0 <= k < |chain| - 1 ==> WaitsFor(s, chain[k], chain[k + 1])
    requires chain[j] in s.workers && s.workers[chain[j]].waiting.Some?
    ensures chain[i] in s.workers && s.workers[chain[i]].waiting.Some?
    ensures Below(group, s.workers[chain[i]].waiting.value, s.workers[chain[j]].waiting.value)
    decreases j
  {
    assert WaitsFor(s, chain[i], chain[i + 1]) && WaitsFor(s, chain[j - 1], chain[j]);
    var e, f := s.workers[chain[j - 1]].waiting.value, s.workers[chain[j]].waiting.value;
    assert Climbs(group, s.workers[chain[j]]);
    assert Below(group, e, f);
    if i < j - 1 {
      WaitsRise(group, s, chain, i, j - 1);
      BelowIsStrictOrder(group, s.workers[chain[i]].waiting.value, e, f);
    }
  }

  /** No reachable state contains a circle of workers each blocked on an entity the next one holds. */
  lemma {:induction false} NoWaitCycle(group: Grouping, acts: seq<Action>, chain: seq<Id>)
    requires |chain| >= 1
    ensures var s := Run(group, acts);
            !((forall k :: 0 <= k < |chain| - 1 ==> WaitsFor(s, chain[k], chain[k + 1]))
              && WaitsFor(s, chain[|chain| - 1], chain[0]))
  {
    RunKeeps(group, acts);
    var s := Run(group, acts);
    if (forall k :: 0 <= k < |chain| - 1 ==> WaitsFor(s, chain[k], chain[k + 1])) && WaitsFor(s, chain[|chain| - 1], chain[0]) {
      var around := chain + [chain[0]];
      forall k | 0 <= k < |around| - 1 ensures WaitsFor(s, around[k], around[k + 1]) {
        if k < |chain| - 1 { assert WaitsFor(s, chain[k], chain[k + 1]); }
      }
      assert WaitsFor(s, around[0], around[1]);
      WaitsRise(group, s, around, 0, |chain|);
      BelowIsStrictOrder(group, s.workers[chain[0]].waiting.value, 0, 0);
    }
  }

  /** The workers blocked on something above e. */
  ghost function BlockedAbove(group: Grouping, s: State, e: Guid): set<Id> {
    set id | id in s.workers && s.workers[id].waiting.Some? && Below(group, e, s.workers[id].waiting.value)
  }

  /** The worker is not waiting, or what it waits for is free. */
  predicate CanMove(s: State, id: Id) {
    id in s.workers && (s.workers[id].waiting.None? || s.workers[id].waiting.value !in s.owner)
  }

  /** Worker id can move and holds e or something above it. */
  predicate MovesAt(group: Grouping, s: State, id: Id, e: Guid) {
    CanMove(s, id) && exists f :: f in s.workers[id].held && (f == e || Below(group, e, f))
  }

  lemma {:induction false} FewerAbove(group: Grouping, s: State, id: Id, e: Guid, f: Guid)
    requires id in s.workers && s.workers[id].waiting == Some(f) && Below(group, e, f)
    ensures |BlockedAbove(group, s, f)| < |BlockedAbove(group, s, e)|
  {
    BelowIsStrictOrder(group, f, f, f);
    forall k | k in BlockedAbove(group, s, f) ensures k in BlockedAbove(group, s, e) {
      BelowIsStrictOrder(group, e, f, s.workers[k].waiting.value);
    }
    assert id in BlockedAbove(group, s, e);
    SubsetCardinality(BlockedAbove(group, s, f), BlockedAbove(group, s, e) - {id});
  }

  /** Followed upwards, the waits for an entity end at a worker that can move. */
  lemma {:induction false} WaitsEnd(group: Grouping, s: State, e: Guid) returns (id: Id)
    requires Inv(group, s) && e in s.owner
    ensures MovesAt(group, s, id, e)
    decreases |BlockedAbove(group, s, e)|
  {
    id := s.owner[e];
    assert e in s.workers[id].held && Climbs(group, s.workers[id]);
    if !CanMove(s, id) {
      var f := s.workers[id].waiting.value;
      FewerAbove(group, s, id, e, f);
      id := WaitsEnd(group, s, f);
      var g :| g in s.workers[id].held && (g == f || Below(group, f, g));
      BelowIsStrictOrder(group, e, f, g);
    }
  }

  /** In every reachable state, whenever a worker is blocked on a held entity, some worker can move. */
  lemma {:induction false} SomeoneMoves(group: Grouping, acts: seq<Action>, blocked: Id)
    requires var s := Run(group, acts); blocked in s.workers && !CanMove(s, blocked)
    ensures var s := Run(group, acts); exists id :: CanMove(s, id) && id != blocked
  {
    RunKeeps(group, acts);
    var id := WaitsEnd(group, Run(group, acts), Run(group, acts).workers[blocked].waiting.value);
  }
}
