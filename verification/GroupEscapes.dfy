/**
 * Which transitions can take an entity out of a lock group while a handler runs under that group's lock: exactly those
 * that do not lock the group.
 */
module GroupEscapes {
  import opened Common
  import opened GroupLocks

  // ---- A job that nobody is in the way of gets to run ----

  /** Everything the job needs is free. */
  ghost predicate Free(s: State, id: Id, job: Job, ws: seq<int>, e: Id) {
    && WantedBy(job) == Some(ws) && EntitiesOf(job) == [e] && e in s.ents && e !in s.mutex && id !in s.workers
    && (forall i, j :: 0 <= i < j < |ws| ==> ws[i] != ws[j]) && (forall g :: g in ws ==> g !in s.locks)
    && (forall x :: x in s.entries ==> x < s.next)
  }

  /** From s to t only worker id and new lock entries came in. */
  ghost predicate Beside(s: State, t: State, id: Id, ws: seq<int>) {
    && t.ents == s.ents && id in t.workers
    && (forall k :: k in s.workers && k != id ==> k in t.workers && t.workers[k] == s.workers[k])
    && (forall k :: k in t.workers ==> k in s.workers || k == id)
    && (forall g :: g in t.locks ==> g in s.locks || g in ws)
    && (forall x :: x in t.entries ==> x < t.next)
  }

  /** Worker id has locked the first i of its groups. */
  ghost predicate Acquired(s: State, t: State, id: Id, job: Job, ws: seq<int>, i: nat) {
    && i <= |ws| && Beside(s, t, id, ws[..i]) && t.mutex == s.mutex
    && t.workers[id] == Worker(job, ws, t.workers[id].locked, None, {}, Acquiring) && |t.workers[id].locked| == i
  }

  lemma {:induction false} Spawns(s: State, id: Id, job: Job, ws: seq<int>, e: Id)
    requires Free(s, id, job, ws, e)
    ensures Acquired(s, Step(s, Spawn(id, job)), id, job, ws, 0)
  {
    assert ws[..0] == [];
  }

  lemma {:induction false} Takes(s: State, t: State, id: Id, job: Job, ws: seq<int>, i: nat)
    requires Acquired(s, t, id, job, ws, i) && i < |ws| && ws[i] !in t.locks
    ensures var u := Step(t, TakeRef(id));
            && Beside(s, u, id, ws[..i + 1]) && u.mutex == s.mutex && t.next in u.entries && u.entries[t.next].owner.None?
            && u.workers[id] == t.workers[id].(waiting := Some(t.next))
  {
    assert ws[..i + 1] == ws[..i] + [ws[i]];
  }

  lemma {:induction false} Locks(s: State, u: State, id: Id, job: Job, ws: seq<int>, i: nat, x: EntryId, locked: seq<EntryId>)
    requires i < |ws| && Beside(s, u, id, ws[..i + 1]) && u.mutex == s.mutex && x in u.entries && u.entries[x].owner.None?
    requires u.workers[id] == Worker(job, ws, locked, Some(x), {}, Acquiring) && |locked| == i
    ensures Acquired(s, Step(u, TryLock(id)), id, job, ws, i + 1)
  {}

  lemma {:induction false} AcquiresNext(s: State, t: State, id: Id, job: Job, ws: seq<int>, e: Id, i: nat)
    requires Free(s, id, job, ws, e) && Acquired(s, t, id, job, ws, i) && i < |ws|
    ensures Acquired(s, Step(Step(t, TakeRef(id)), TryLock(id)), id, job, ws, i + 1)
  {
    assert ws[i] !in ws[..i] && ws[i] in ws;
    Takes(s, t, id, job, ws, i);
    Locks(s, Step(t, TakeRef(id)), id, job, ws, i, t.next, t.workers[id].locked);
  }

  /** The worker holds its entity as well, in the given phase. */
  ghost predicate Holding(s: State, t: State, id: Id, job: Job, ws: seq<int>, e: Id, phase: Phase) {
    && Beside(s, t, id, ws) && t.mutex == s.mutex[e := id]
    && t.workers[id] == Worker(job, ws, t.workers[id].locked, None, {e}, phase) && |t.workers[id].locked| == |ws|
  }

  lemma {:induction false} Holds(s: State, t: State, id: Id, job: Job, ws: seq<int>, e: Id)
    requires Free(s, id, job, ws, e) && Acquired(s, t, id, job, ws, |ws|)
    ensures Holding(s, Step(t, LockEntity(id, e)), id, job, ws, e, Acquiring)
  {
    assert ws[..|ws|] == ws && {} + {e} == {e};
  }

  lemma {:induction false} Checks(s: State, t: State, id: Id, job: Job, ws: seq<int>, e: Id, phase: Phase, next: Phase)
    requires Free(s, id, job, ws, e) && Passes(s, job, 0) && Holding(s, t, id, job, ws, e, phase)
    requires (phase, next) in {(Acquiring, Checking(0)), (Checking(0), Checking(1)), (Checking(1), Running)}
    ensures Holding(s, Step(t, Check(id)), id, job, ws, e, next)
  {}

  // ---- The same as a run ----

  function Acquires(id: Id, n: nat): seq<Action> {
    if n == 0 then [] else Acquires(id, n - 1) + [TakeRef(id), TryLock(id)]
  }

  function SoloActs(id: Id, job: Job, n: nat, e: Id): seq<Action> {
    [Spawn(id, job)] + Acquires(id, n) + [LockEntity(id, e), Check(id), Check(id), Check(id)]
  }

  lemma {:induction false} RunOne(ents: map<Id, Ent>, acts: seq<Action>, a: Action)
    ensures Run(ents, acts + [a]) == Step(Run(ents, acts), a)
  {
    assert (acts + [a])[..|acts|] == acts;
  }

  lemma {:induction false} RunPair(ents: map<Id, Ent>, start: seq<Action>, id: Id, n: nat)
    requires n > 0
    ensures Run(ents, start + Acquires(id, n)) == Step(Step(Run(ents, start + Acquires(id, n - 1)), TakeRef(id)), TryLock(id))
  {
    var acts := start + Acquires(id, n - 1);
    RunOne(ents, acts, TakeRef(id));
    RunOne(ents, acts + [TakeRef(id)], TryLock(id));
    assert start + Acquires(id, n) == acts + [TakeRef(id)] + [TryLock(id)];
  }

  lemma {:induction false} RunAcquires(ents: map<Id, Ent>, before: seq<Action>, s: State, id: Id, job: Job, ws: seq<int>, e: Id, n: nat)
    requires s == Run(ents, before) && Free(s, id, job, ws, e) && n <= |ws|
    ensures Acquired(s, Run(ents, before + [Spawn(id, job)] + Acquires(id, n)), id, job, ws, n)
    decreases n
  {
    var start := before + [Spawn(id, job)];
    if n == 0 {
      RunOne(ents, before, Spawn(id, job));
      Spawns(s, id, job, ws, e);
      assert start + [] == start;
    } else {
      RunAcquires(ents, before, s, id, job, ws, e, n - 1);
      AcquiresNext(s, Run(ents, start + Acquires(id, n - 1)), id, job, ws, e, n - 1);
      RunPair(ents, start, id, n);
    }
  }

  lemma {:induction false} RunChecks(ents: map<Id, Ent>, acts: seq<Action>, s: State, id: Id, job: Job, ws: seq<int>, e: Id)
    requires Free(s, id, job, ws, e) && Passes(s, job, 0) && Holding(s, Run(ents, acts), id, job, ws, e, Acquiring)
    ensures Holding(s, Run(ents, acts + [Check(id)] + [Check(id)] + [Check(id)]), id, job, ws, e, Running)
  {
    var one := acts + [Check(id)];
    RunOne(ents, acts, Check(id));
    Checks(s, Run(ents, acts), id, job, ws, e, Acquiring, Checking(0));
    RunOne(ents, one, Check(id));
    Checks(s, Run(ents, one), id, job, ws, e, Checking(0), Checking(1));
    RunOne(ents, one + [Check(id)], Check(id));
    Checks(s, Run(ents, one + [Check(id)]), id, job, ws, e, Checking(1), Running);
  }

  lemma {:induction false} SoloActsAre(before: seq<Action>, id: Id, job: Job, n: nat, e: Id)
    ensures before + SoloActs(id, job, n, e)
            == before + [Spawn(id, job)] + Acquires(id, n) + [LockEntity(id, e)] + [Check(id)] + [Check(id)] + [Check(id)]
  {}

  /** A job whose locks are free and whose checks pass gets to run. */
  lemma {:induction false} GetsToRun(ents: map<Id, Ent>, before: seq<Action>, s: State, id: Id, job: Job, ws: seq<int>, e: Id)
    requires s == Run(ents, before) && Free(s, id, job, ws, e) && Passes(s, job, 0)
    ensures Holding(s, Run(ents, before + SoloActs(id, job, |ws|, e)), id, job, ws, e, Running)
  {
    var acts := before + [Spawn(id, job)] + Acquires(id, |ws|);
    RunAcquires(ents, before, s, id, job, ws, e, |ws|);
    RunOne(ents, acts, LockEntity(id, e));
    Holds(s, Run(ents, acts), id, job, ws, e);
    RunChecks(ents, acts + [LockEntity(id, e)], s, id, job, ws, e);
    SoloActsAre(before, id, job, |ws|, e);
  }

  // ---- An entity leaves the group of a running handler ----

  /** After the run a handler runs on e in group g, and the action, an update of the given transition, takes f out of g. */
  ghost predicate TakesOut(ents: map<Id, Ent>, acts: seq<Action>, a: Action, id: Id, e: Id, f: Id, g: int,
                           current: int, kind: Kind, target: int)
  {
    var s := Run(ents, acts);
    && IsRunning(s, id) && e in s.workers[id].job.entities && e in s.ents && s.ents[e].group == g
    && f in s.ents && s.ents[f].group == g && f in Step(s, a).ents && Step(s, a).ents[f].group != g
    && a.Update? && a.id in s.workers && s.workers[a.id].job == Transition(f, current, kind, target)
  }

  /** Entity 0, on which a handler runs, and entity 1, for which the transition has been requested. */
  function Pair(g: int, kind: Kind, target: int): map<Id, Ent> {
    map[0 := Ent(g, 0, NoTransition, 0), 1 := Ent(g, 0, Transitioning(kind), target)]
  }

  function Handling(g: int): Job {
    Handler([0], [Ent(g, 0, NoTransition, 0)])
  }

  /** The handler runs in g. */
  lemma {:induction false} HandlerRuns(ents: map<Id, Ent>, g: int, kind: Kind, target: int)
    requires ents == Pair(g, kind, target) && g != 0
    ensures Holding(Run(ents, []), Run(ents, SoloActs(10, Handling(g), 1, 0)), 10, Handling(g), [g], 0, Running)
  {
    assert ResolveGroup(Handling(g).snapshots, 0) == Some(g) by { assert ResolveGroup(Handling(g).snapshots[1..], g) == Some(g); }
    GetsToRun(ents, [], Run(ents, []), 10, Handling(g), [g], 0);
    assert [] + SoloActs(10, Handling(g), 1, 0) == SoloActs(10, Handling(g), 1, 0);
  }

  /** So does the transition beside it, if it does not want the lock of g. */
  lemma {:induction false} TransitionFree(ents: map<Id, Ent>, g: int, s: State, job: Job, ws: seq<int>)
    requires job.Transition? && job.entity == 1 && ents == Pair(g, job.kind, job.target)
    requires ws == TransitionGroups(job.current, job.target, job.kind) && g !in ws
    requires Holding(Run(ents, []), s, 10, Handling(g), [g], 0, Running)
    ensures Free(s, 20, job, ws, 1) && Passes(s, job, 0)
  {}

  lemma {:induction false} UpdateTakesOut(s: State, t: State, job: Job, ws: seq<int>, g: int)
    requires job.Transition? && job.entity == 1 && TargetOf(job) != g && 1 in s.ents
    requires Holding(s, t, 20, job, ws, 1, Running)
    ensures 1 in Step(t, Update(20, true)).ents && Step(t, Update(20, true)).ents[1].group != g
  {}

  /** A transition that does not lock the group of its entity takes the entity out of it while a handler runs there. */
  lemma {:induction false} UnlockedIsLeft(g: int, current: int, kind: Kind, target: int)
    requires g != 0 && g !in TransitionGroups(current, target, kind)
    ensures var (job, ws) := (Transition(1, current, kind, target), TransitionGroups(current, target, kind));
            TakesOut(Pair(g, kind, target), SoloActs(10, Handling(g), 1, 0) + SoloActs(20, job, |ws|, 1), Update(20, true),
                     10, 0, 1, g, current, kind, target)
  {
    var (ents, job, ws) := (Pair(g, kind, target), Transition(1, current, kind, target), TransitionGroups(current, target, kind));
    var before := SoloActs(10, Handling(g), 1, 0);
    var s := Run(ents, before);
    HandlerRuns(ents, g, kind, target);
    TransitionFree(ents, g, s, job, ws);
    GetsToRun(ents, before, s, 20, job, ws, 1);
    UpdateTakesOut(s, Run(ents, before + SoloActs(20, job, |ws|, 1)), job, ws, g);
  }

  /**
   * An entity can leave a group while a handler runs under that group's lock if and only if the transition does not
   * lock the group: always by joining another group, and by leaving or moving when another group was read as its own.
   */
  lemma {:induction false} LeftIffUnlocked(g: int, current: int, kind: Kind, target: int)
    requires g != 0
    ensures (exists ents, acts, a, id, e, f :: TakesOut(ents, acts, a, id, e, f, g, current, kind, target))
            <==> g !in TransitionGroups(current, target, kind)
    ensures g !in TransitionGroups(current, target, kind)
            <==> (match kind case Join => target != g case Leave => current != g case Move => current != g && target != g)
  {
    if g !in TransitionGroups(current, target, kind) { UnlockedIsLeft(g, current, kind, target); }
    forall ents, acts, a, id, e, f | TakesOut(ents, acts, a, id, e, f, g, current, kind, target)
      ensures g !in TransitionGroups(current, target, kind)
    {
      LeavesUnlocked(ents, acts, a, id, e, f);
    }
  }
}
