/**
 * Dispatch under lock groups. Handlers capture the groups of their entities, lock the one group they resolve to and
 * then the entities, validate, and run; transitions lock the groups they touch and the entity, and move it. Group
 * locks live in reference-counted entries that are created and deleted as workers come and go.
 */
module GroupLocks {
  import opened Common

  type Id = nat
  type EntryId = nat

  datatype Kind = Join | Leave | Move

  datatype Pending = NoTransition | Transitioning(kind: Kind)

  /** The group words of an entity. */
  datatype Ent = Ent(group: int, epoch: nat, pending: Pending, target: int)

  /** A group lock: who holds it and how many workers refer to it. */
  datatype Entry = Entry(group: int, owner: Option<Id>, refs: int)

  datatype Job =
    | Handler(entities: seq<Id>, snapshots: seq<Ent>)
    | Transition(entity: Id, current: int, kind: Kind, target: int)

  datatype Phase = Acquiring | Checking(done: nat) | Running | Releasing

  /**
   * A dispatch in progress: the groups it wants, the group locks it holds in that order, the entry it refers to
   * without holding its lock, and the entity mutexes it holds.
   */
  datatype Worker = Worker(job: Job, wanted: seq<int>, locked: seq<EntryId>, waiting: Option<EntryId>, held: set<Id>, phase: Phase)

  datatype State = State(
    ents: map<Id, Ent>,
    mutex: map<Id, Id>,
    entries: map<EntryId, Entry>,
    locks: map<int, EntryId>,
    workers: map<Id, Worker>,
    next: EntryId)

  // ---- What a job locks ----

  /** The one non-zero group of the snapshots; None when two differ. */
  function ResolveGroup(snapshots: seq<Ent>, found: int): Option<int> {
    if snapshots == [] then Some(found)
    else if snapshots[0].group == 0 || snapshots[0].group == found then ResolveGroup(snapshots[1..], found)
    else if found == 0 then ResolveGroup(snapshots[1..], snapshots[0].group)
    else None
  }

  function SortedPair(a: int, b: int): seq<int> {
    if a == b then (if a == 0 then [] else [a])
    else if a == 0 then [b]
    else if b == 0 then [a]
    else if a < b then [a, b] else [b, a]
  }

  function TransitionGroups(current: int, target: int, kind: Kind): seq<int> {
    match kind
    case Join => SortedPair(target, 0)
    case Leave => SortedPair(current, 0)
    case Move => SortedPair(current, target)
  }

  function WantedBy(job: Job): Option<seq<int>> {
    match job
    case Handler(es, snapshots) =>
      if |es| != |snapshots| then None
      else (match ResolveGroup(snapshots, 0) case None => None case Some(g) => Some(if g == 0 then [] else [g]))
    case Transition(e, current, kind, target) => Some(TransitionGroups(current, target, kind))
  }

  function EntitiesOf(job: Job): seq<Id> {
    match job
    case Handler(es, _) => es
    case Transition(e, _, _, _) => [e]
  }

  // ---- Steps ----

  /**
   * BeginWords stands for every change of the transition words, which no lock guards. A captured snapshot and the
   * group a transition starts from are arbitrary: they may have been read at any earlier time, word by word.
   */
  datatype Action =
    | Spawn(id: Id, job: Job)
    | TakeRef(id: Id)
    | TryLock(id: Id)
    | LockEntity(id: Id, entity: Id)
    | GiveUp(id: Id)
    | Check(id: Id)
    | Update(id: Id, ok: bool)
    | FinishRun(id: Id)
    | ReleaseEntity(id: Id, entity: Id)
    | UnlockGroup(id: Id)
    | DropRef(id: Id)
    | Leave(id: Id)
    | BeginWords(entity: Id, pending: Pending, target: int)

  function Put(s: State, id: Id, w: Worker): State {
    s.(workers := s.workers[id := w])
  }

  function SpawnStep(s: State, id: Id, job: Job): State {
    if id in s.workers || WantedBy(job).None? || exists e :: e in EntitiesOf(job) && e !in s.ents then s
    else Put(s, id, Worker(job, WantedBy(job).value, [], None, {}, Acquiring))
  }

  /** Finds or creates the entry of the next wanted group and counts the reference. */
  function TakeRefStep(s: State, id: Id, w: Worker): State {
    if !w.phase.Acquiring? || w.waiting.Some? || |w.locked| >= |w.wanted| then s
    else
      var g := w.wanted[|w.locked|];
      if g in s.locks && s.locks[g] in s.entries then
        var x := s.locks[g];
        Put(s, id, w.(waiting := Some(x))).(entries := s.entries[x := s.entries[x].(refs := s.entries[x].refs + 1)])
      else
        Put(s, id, w.(waiting := Some(s.next))).(
          entries := s.entries[s.next := Entry(g, None, 1)], locks := s.locks[g := s.next], next := s.next + 1)
  }

  function TryLockStep(s: State, id: Id, w: Worker): State {
    if !w.phase.Acquiring? || w.waiting.None? || w.waiting.value !in s.entries then s
    else
      var x := w.waiting.value;
      if s.entries[x].owner.Some? then Put(s, id, w.(phase := Releasing))
      else
        Put(s, id, w.(waiting := None, locked := w.locked + [x])).(entries := s.entries[x := s.entries[x].(owner := Some(id))])
  }

  function LockEntityStep(s: State, id: Id, w: Worker, e: Id): State {
    if !w.phase.Acquiring? || |w.locked| != |w.wanted| || e !in EntitiesOf(w.job) || e in s.mutex then s
    else Put(s, id, w.(held := w.held + {e})).(mutex := s.mutex[e := id])
  }

  /** A lock that cannot be had, or a failed check: everything is given back. */
  function GiveUpStep(s: State, id: Id, w: Worker): State {
    if w.phase.Acquiring? && w.waiting.None? then Put(s, id, w.(phase := Releasing)) else s
  }

  /** One comparison: a handler's entity against its snapshot, a transition's entity against its request. */
  predicate Passes(s: State, job: Job, k: nat) {
    match job
    case Handler(es, snapshots) =>
      k < |es| && k < |snapshots| && es[k] in s.ents && s.ents[es[k]].pending.NoTransition? && s.ents[es[k]] == snapshots[k]
    case Transition(e, _, kind, target) =>
      e in s.ents && s.ents[e].pending == Transitioning(kind) && s.ents[e].target == target
  }

  function CheckStep(s: State, id: Id, w: Worker): State {
    if w.phase.Acquiring? && |w.locked| == |w.wanted| && (forall e :: e in EntitiesOf(w.job) ==> e in w.held) then
      Put(s, id, w.(phase := Checking(0)))
    else if !w.phase.Checking? then s
    else if w.phase.done == |EntitiesOf(w.job)| then Put(s, id, w.(phase := Running))
    else if Passes(s, w.job, w.phase.done) then Put(s, id, w.(phase := Checking(w.phase.done + 1)))
    else Put(s, id, w.(phase := Releasing))
  }

  function TargetOf(job: Job): int
    requires job.Transition?
  {
    if job.kind == Kind.Leave then 0 else job.target
  }

  /** The move itself: the group word is swapped and the epoch counts a change; a failed update only clears the words. */
  function Moved(e: Ent, target: int, ok: bool): Ent {
    Ent(if ok then target else e.group, if ok && e.group != target then e.epoch + 1 else e.epoch, NoTransition, 0)
  }

  function UpdateStep(s: State, id: Id, w: Worker, ok: bool): State {
    if !w.phase.Running? || !w.job.Transition? || w.job.entity !in s.ents then s
    else
      Put(s, id, w.(phase := Releasing)).(ents := s.ents[w.job.entity := Moved(s.ents[w.job.entity], TargetOf(w.job), ok)])
  }

  function ReleaseEntityStep(s: State, id: Id, w: Worker, e: Id): State {
    if !w.phase.Releasing? || e !in w.held then s
    else Put(s, id, w.(held := w.held - {e})).(mutex := s.mutex - {e})
  }

  function UnlockGroupStep(s: State, id: Id, w: Worker): State {
    if !w.phase.Releasing? || w.held != {} || w.waiting.Some? || w.locked == [] || w.locked[|w.locked| - 1] !in s.entries then s
    else
      var x := w.locked[|w.locked| - 1];
      Put(s, id, w.(locked := w.locked[..|w.locked| - 1], waiting := Some(x))).(
        entries := s.entries[x := s.entries[x].(owner := None)])
  }

  /** The last reference takes the entry out of the table. */
  function DropRefStep(s: State, id: Id, w: Worker): State {
    if !w.phase.Releasing? || w.waiting.None? || w.waiting.value !in s.entries then s
    else
      var x := w.waiting.value;
      var entry := s.entries[x].(refs := s.entries[x].refs - 1);
      Put(s, id, w.(waiting := None)).(
        entries := s.entries[x := entry],
        locks := if entry.refs == 0 && entry.group in s.locks && s.locks[entry.group] == x then s.locks - {entry.group} else s.locks)
  }

  function LeaveStep(s: State, id: Id, w: Worker): State {
    if w.phase.Releasing? && w.held == {} && w.locked == [] && w.waiting.None? then s.(workers := s.workers - {id}) else s
  }

  function WordsStep(s: State, e: Id, pending: Pending, target: int): State {
    if e !in s.ents then s else s.(ents := s.ents[e := s.ents[e].(pending := pending, target := target)])
  }

  function WorkerStep(s: State, a: Action, w: Worker): State
    requires !a.Spawn? && !a.BeginWords?
  {
    match a
    case TakeRef(id) => TakeRefStep(s, id, w)
    case TryLock(id) => TryLockStep(s, id, w)
    case LockEntity(id, e) => LockEntityStep(s, id, w, e)
    case GiveUp(id) => GiveUpStep(s, id, w)
    case Check(id) => CheckStep(s, id, w)
    case Update(id, ok) => UpdateStep(s, id, w, ok)
    case FinishRun(id) => if w.phase.Running? && w.job.Handler? then Put(s, id, w.(phase := Releasing)) else s
    case ReleaseEntity(id, e) => ReleaseEntityStep(s, id, w, e)
    case UnlockGroup(id) => UnlockGroupStep(s, id, w)
    case DropRef(id) => DropRefStep(s, id, w)
    case Leave(id) => LeaveStep(s, id, w)
  }

  function Step(s: State, a: Action): State {
    match a
    case Spawn(id, job) => SpawnStep(s, id, job)
    case BeginWords(e, pending, target) => WordsStep(s, e, pending, target)
    case _ => if a.id in s.workers then WorkerStep(s, a, s.workers[a.id]) else s
  }

  function Run(ents: map<Id, Ent>, acts: seq<Action>): State {
    if acts == [] then State(ents, map[], map[], map[], map[], 0)
    else Step(Run(ents, acts[..|acts| - 1]), acts[|acts| - 1])
  }

  // ---- The invariant ----

  /** The entries a worker refers to. */
  function Refs(w: Worker): set<EntryId> {
    (set x | x in w.locked) + (if w.waiting.Some? then {w.waiting.value} else {})
  }

  function Holders(workers: map<Id, Worker>, x: EntryId): set<Id> {
    set id | id in workers && x in Refs(workers[id])
  }

  /** The worker's entries exist and stand for the groups it wants, in order. */
  ghost predicate Placed(entries: map<EntryId, Entry>, w: Worker) {
    && |w.locked| + (if w.waiting.Some? then 1 else 0) <= |w.wanted|
    && (forall i :: 0 <= i < |w.locked| ==> w.locked[i] in entries && entries[w.locked[i]].group == w.wanted[i])
    && (w.waiting.Some? ==> w.waiting.value in entries && entries[w.waiting.value].group == w.wanted[|w.locked|])
    && (forall i, j :: 0 <= i < j < |w.wanted| ==> w.wanted[i] != w.wanted[j])
  }

  /** Between checking and running a worker holds all it wants, and what it checked still holds of a handler's entities. */
  ghost predicate Ready(ents: map<Id, Ent>, w: Worker) {
    && (forall e :: e in EntitiesOf(w.job) ==> e in ents) && Some(w.wanted) == WantedBy(w.job)
    && (w.phase.Checking? ==> w.phase.done <= |EntitiesOf(w.job)|)
    && (w.phase.Checking? || w.phase.Running? ==>
          && |w.locked| == |w.wanted| && w.waiting.None? && (forall e :: e in EntitiesOf(w.job) ==> e in w.held)
          && (w.job.Handler? ==> Checked(ents, w.job, if w.phase.Running? then |w.job.entities| else w.phase.done)))
  }

  ghost predicate Checked(ents: map<Id, Ent>, job: Job, n: nat)
    requires job.Handler?
  {
    && n <= |job.entities| == |job.snapshots|
    && forall k :: 0 <= k < n ==> job.entities[k] in ents && ents[job.entities[k]].group == job.snapshots[k].group
  }

  ghost predicate WorkersInv(s: State) {
    forall id :: id in s.workers ==> Placed(s.entries, s.workers[id]) && Ready(s.ents, s.workers[id])
  }

  /** Mutexes and workers agree on who holds what. */
  ghost predicate MutexInv(s: State) {
    && (forall e :: e in s.mutex ==> s.mutex[e] in s.workers && e in s.workers[s.mutex[e]].held)
    && (forall id, e :: id in s.workers && e in s.workers[id].held ==> e in s.mutex && s.mutex[e] == id)
  }

  ghost predicate OwnerInv(s: State) {
    forall id, x :: id in s.workers && x in s.workers[id].locked ==> x in s.entries && s.entries[x].owner == Some(id)
  }

  /** Reference counts are exact, and an entry that is referred to is the one in the table. */
  ghost predicate Counted(s: State, x: EntryId)
    requires x in s.entries
  {
    && x < s.next && s.entries[x].refs == |Holders(s.workers, x)|
    && (s.entries[x].refs > 0 ==> Listed(s.locks, s.entries[x].group, x))
  }

  predicate Listed(locks: map<int, EntryId>, g: int, x: EntryId) {
    g in locks && locks[g] == x
  }

  ghost predicate CountInv(s: State) {
    forall x :: x in s.entries ==> Counted(s, x)
  }

  ghost predicate TableInv(s: State) {
    forall g :: g in s.locks ==> s.locks[g] in s.entries && s.entries[s.locks[g]].group == g
  }

  ghost predicate Inv(s: State) {
    WorkersInv(s) && MutexInv(s) && OwnerInv(s) && CountInv(s) && TableInv(s)
  }

  // ---- Counting references ----

  lemma {:induction false} HoldersPut(workers: map<Id, Worker>, id: Id, w: Worker, x: EntryId)
    ensures Holders(workers[id := w], x) == if x in Refs(w) then Holders(workers, x) + {id} else Holders(workers, x) - {id}
  {}

  lemma {:induction false} HoldersKept(workers: map<Id, Worker>, id: Id, w: Worker, x: EntryId)
    requires id in workers && (x in Refs(w) <==> x in Refs(workers[id]))
    ensures Holders(workers[id := w], x) == Holders(workers, x)
  {
    HoldersPut(workers, id, w, x);
  }

  /** Entries keep their groups, and none disappears. */
  ghost predicate Grows(entries: map<EntryId, Entry>, later: map<EntryId, Entry>) {
    forall x :: x in entries ==> x in later && later[x].group == entries[x].group
  }

  /** Entity groups that a checked handler relies on are unchanged. */
  ghost predicate SameGroups(ents: map<Id, Ent>, later: map<Id, Ent>, es: set<Id>) {
    && later.Keys == ents.Keys
    && forall e :: e in es && e in ents ==> later[e].group == ents[e].group
  }

  lemma {:induction false} OtherWorker(s: State, t: State, id: Id)
    requires id in s.workers && Placed(s.entries, s.workers[id]) && Ready(s.ents, s.workers[id])
    requires Grows(s.entries, t.entries) && SameGroups(s.ents, t.ents, s.workers[id].held)
    ensures Placed(t.entries, s.workers[id]) && Ready(t.ents, s.workers[id])
  {
    var w := s.workers[id];
    if w.job.Handler? && (w.phase.Checking? || w.phase.Running?) {
      forall k | 0 <= k < (if w.phase.Running? then |w.job.entities| else w.phase.done)
        ensures w.job.entities[k] in t.ents && t.ents[w.job.entities[k]].group == w.job.snapshots[k].group
      {
        assert w.job.entities[k] in EntitiesOf(w.job);
      }
    }
  }

  /** One worker moves on; the others are untouched and rely on nothing it changed. */
  lemma {:induction false} OneWorker(s: State, t: State, id: Id, w: Worker)
    requires WorkersInv(s) && t.workers == s.workers[id := w]
    requires Placed(t.entries, w) && Ready(t.ents, w)
    requires Grows(s.entries, t.entries)
    requires forall other :: other in s.workers && other != id ==> SameGroups(s.ents, t.ents, s.workers[other].held)
    ensures WorkersInv(t)
  {
    forall other | other in t.workers ensures Placed(t.entries, t.workers[other]) && Ready(t.ents, t.workers[other]) {
      if other != id { OtherWorker(s, t, other); }
    }
  }

  lemma {:induction false} HoldersGain(workers: map<Id, Worker>, id: Id, w: Worker, x: EntryId)
    requires id in workers && x !in Refs(workers[id]) && x in Refs(w)
    ensures |Holders(workers[id := w], x)| == |Holders(workers, x)| + 1
  {
    HoldersPut(workers, id, w, x);
    assert id !in Holders(workers, x);
  }

  lemma {:induction false} HoldersLose(workers: map<Id, Worker>, id: Id, w: Worker, x: EntryId)
    requires id in workers && x in Refs(workers[id]) && x !in Refs(w)
    ensures |Holders(workers[id := w], x)| == |Holders(workers, x)| - 1
  {
    HoldersPut(workers, id, w, x);
    assert id in Holders(workers, x);
  }

  /** An entry that the moving worker neither gains nor loses. */
  lemma {:induction false} CountedKept(s: State, t: State, id: Id, w: Worker, x: EntryId)
    requires x in s.entries && x in t.entries && Counted(s, x) && id in s.workers && t.workers == s.workers[id := w]
    requires x in Refs(w) <==> x in Refs(s.workers[id])
    requires s.next <= t.next && t.entries[x].group == s.entries[x].group && t.entries[x].refs == s.entries[x].refs
    requires s.entries[x].refs > 0 && Listed(s.locks, s.entries[x].group, x) ==> Listed(t.locks, s.entries[x].group, x)
    ensures Counted(t, x)
  {
    HoldersKept(s.workers, id, w, x);
  }

  lemma {:induction false} CountKept(s: State, t: State, id: Id, w: Worker)
    requires CountInv(s) && id in s.workers && t.workers == s.workers[id := w] && Refs(w) == Refs(s.workers[id])
    requires t.next == s.next && t.locks == s.locks && t.entries.Keys == s.entries.Keys
    requires forall x :: x in s.entries ==> t.entries[x].group == s.entries[x].group && t.entries[x].refs == s.entries[x].refs
    ensures CountInv(t)
  {
    forall x | x in t.entries ensures Counted(t, x) { CountedKept(s, t, id, w, x); }
  }

  lemma {:induction false} MutexKept(s: State, t: State, id: Id, w: Worker)
    requires MutexInv(s) && id in s.workers && t.workers == s.workers[id := w] && w.held == s.workers[id].held && t.mutex == s.mutex
    ensures MutexInv(t)
  {}

  lemma {:induction false} OwnerKept(s: State, t: State, id: Id, w: Worker)
    requires OwnerInv(s) && id in s.workers && t.workers == s.workers[id := w] && w.locked == s.workers[id].locked
    requires forall x :: x in s.entries ==> x in t.entries && t.entries[x].owner == s.entries[x].owner
    ensures OwnerInv(t)
  {}

  lemma {:induction false} TableKept(s: State, t: State)
    requires TableInv(s) && t.locks == s.locks && Grows(s.entries, t.entries)
    ensures TableInv(t)
  {}

  // ---- Steps that change only the phase ----

  lemma {:induction false} PhaseKeeps(s: State, t: State, id: Id, w: Worker)
    requires Inv(s) && id in s.workers && w == s.workers[id].(phase := w.phase) && Ready(s.ents, w) && t == Put(s, id, w)
    ensures Inv(t)
  {
    assert WorkersInv(t) by { OneWorker(s, t, id, w); }
    assert MutexInv(t) by { MutexKept(s, t, id, w); }
    assert OwnerInv(t) by { OwnerKept(s, t, id, w); }
    assert CountInv(t) by { CountKept(s, t, id, w); }
    assert TableInv(t) by { TableKept(s, t); }
  }

  lemma {:induction false} StartReady(entries: map<EntryId, Entry>, ents: map<Id, Ent>, w: Worker)
    requires Placed(entries, w) && Ready(ents, w) && |w.locked| == |w.wanted| && (forall e :: e in EntitiesOf(w.job) ==> e in w.held)
    ensures Ready(ents, w.(phase := Checking(0)))
  {}

  lemma {:induction false} PassReady(s: State, w: Worker)
    requires Ready(s.ents, w) && w.phase.Checking? && w.phase.done < |EntitiesOf(w.job)| && Passes(s, w.job, w.phase.done)
    ensures Ready(s.ents, w.(phase := Checking(w.phase.done + 1)))
  {
    if w.job.Handler? { assert Checked(s.ents, w.job, w.phase.done + 1); }
  }

  lemma {:induction false} RunReady(ents: map<Id, Ent>, w: Worker)
    requires Ready(ents, w) && w.phase == Checking(|EntitiesOf(w.job)|)
    ensures Ready(ents, w.(phase := Running))
  {}

  lemma {:induction false} CheckKeeps(s: State, id: Id)
    requires Inv(s) && id in s.workers
    ensures Inv(CheckStep(s, id, s.workers[id]))
  {
    var w := s.workers[id];
    assert Placed(s.entries, w) && Ready(s.ents, w);
    var t := CheckStep(s, id, w);
    if w.phase.Acquiring? && t != s {
      StartReady(s.entries, s.ents, w);
      PhaseKeeps(s, t, id, w.(phase := Checking(0)));
    } else if w.phase.Checking? {
      if w.phase.done == |EntitiesOf(w.job)| {
        RunReady(s.ents, w);
        PhaseKeeps(s, t, id, w.(phase := Running));
      } else if Passes(s, w.job, w.phase.done) {
        PassReady(s, w);
        PhaseKeeps(s, t, id, w.(phase := Checking(w.phase.done + 1)));
      } else {
        PhaseKeeps(s, t, id, w.(phase := Releasing));
      }
    }
  }

  // ---- Entity mutexes ----

  lemma {:induction false} MutexTaken(s: State, t: State, id: Id, w: Worker, e: Id)
    requires MutexInv(s) && id in s.workers && e !in s.mutex
    requires t.workers == s.workers[id := w] && w.held == s.workers[id].held + {e} && t.mutex == s.mutex[e := id]
    ensures MutexInv(t)
  {}

  lemma {:induction false} MutexGiven(s: State, t: State, id: Id, w: Worker, e: Id)
    requires MutexInv(s) && id in s.workers && e in s.workers[id].held
    requires t.workers == s.workers[id := w] && w.held == s.workers[id].held - {e} && t.mutex == s.mutex - {e}
    ensures MutexInv(t)
  {
    assert s.mutex[e] == id;
    forall k, f | k in t.workers && f in t.workers[k].held ensures f in t.mutex && t.mutex[f] == k {
      assert f in s.workers[k].held;
      assert s.mutex[f] == k;
    }
    forall f | f in t.mutex ensures t.mutex[f] in t.workers && f in t.workers[t.mutex[f]].held {
      assert s.mutex[f] in s.workers && f in s.workers[s.mutex[f]].held;
    }
  }

  /** Everything but the mutexes, when a worker's held entities change. */
  lemma {:induction false} HeldKeeps(s: State, t: State, id: Id, w: Worker)
    requires Inv(s) && id in s.workers && w == s.workers[id].(held := w.held) && Ready(s.ents, w)
    requires t == Put(s, id, w).(mutex := t.mutex) && MutexInv(t)
    ensures Inv(t)
  {
    assert WorkersInv(t) by { OneWorker(s, t, id, w); }
    assert OwnerInv(t) by { OwnerKept(s, t, id, w); }
    assert CountInv(t) by { CountKept(s, t, id, w); }
    assert TableInv(t) by { TableKept(s, t); }
  }

  lemma {:induction false} LockEntityKeeps(s: State, id: Id, e: Id)
    requires Inv(s) && id in s.workers
    ensures Inv(LockEntityStep(s, id, s.workers[id], e))
  {
    var w := s.workers[id];
    var t := LockEntityStep(s, id, w, e);
    if t != s {
      MutexTaken(s, t, id, t.workers[id], e);
      HeldKeeps(s, t, id, t.workers[id]);
    }
  }

  lemma {:induction false} ReleaseEntityKeeps(s: State, id: Id, e: Id)
    requires Inv(s) && id in s.workers
    ensures Inv(ReleaseEntityStep(s, id, s.workers[id], e))
  {
    var w := s.workers[id];
    var t := ReleaseEntityStep(s, id, w, e);
    if t != s {
      MutexGiven(s, t, id, t.workers[id], e);
      HeldKeeps(s, t, id, t.workers[id]);
    }
  }

  // ---- Group locks ----

  lemma {:induction false} OwnerTaken(s: State, t: State, id: Id, w: Worker, x: EntryId)
    requires OwnerInv(s) && id in s.workers && x in s.entries && s.entries[x].owner.None?
    requires t.workers == s.workers[id := w] && w.locked == s.workers[id].locked + [x]
    requires t.entries == s.entries[x := s.entries[x].(owner := Some(id))]
    ensures OwnerInv(t)
  {}

  lemma {:induction false} OwnerGiven(s: State, t: State, id: Id, w: Worker, x: EntryId)
    requires OwnerInv(s) && id in s.workers && x in s.entries && x in s.workers[id].locked
    requires t.workers == s.workers[id := w] && (forall y :: y in w.locked ==> y in s.workers[id].locked && y != x)
    requires t.entries == s.entries[x := s.entries[x].(owner := None)]
    ensures OwnerInv(t)
  {}

  /** Everything but the owners, when a worker's lock on an entry it refers to comes or goes. */
  lemma {:induction false} LockKeeps(s: State, t: State, id: Id, w: Worker, x: EntryId, owner: Option<Id>)
    requires Inv(s) && id in s.workers && x in s.entries && Refs(w) == Refs(s.workers[id]) && w.held == s.workers[id].held
    requires t == Put(s, id, w).(entries := s.entries[x := s.entries[x].(owner := owner)])
    requires Placed(t.entries, w) && Ready(s.ents, w) && OwnerInv(t)
    ensures Inv(t)
  {
    assert WorkersInv(t) by { OneWorker(s, t, id, w); }
    assert MutexInv(t) by { MutexKept(s, t, id, w); }
    assert CountInv(t) by { CountKept(s, t, id, w); }
    assert TableInv(t) by { TableKept(s, t); }
  }

  /** The worker with its awaited lock. */
  function Took(w: Worker, x: EntryId): Worker {
    w.(waiting := None, locked := w.locked + [x])
  }

  lemma {:induction false} TookPlaced(entries: map<EntryId, Entry>, w: Worker, x: EntryId, owner: Option<Id>)
    requires Placed(entries, w) && w.waiting == Some(x)
    ensures Refs(Took(w, x)) == Refs(w) && Placed(entries[x := entries[x].(owner := owner)], Took(w, x))
  {}

  lemma {:induction false} TakeKeeps(s: State, id: Id, x: EntryId)
    requires Inv(s) && id in s.workers && s.workers[id].waiting == Some(x) && s.workers[id].phase.Acquiring?
    requires x in s.entries && s.entries[x].owner.None?
    ensures Inv(Put(s, id, Took(s.workers[id], x)).(entries := s.entries[x := s.entries[x].(owner := Some(id))]))
  {
    var w := Took(s.workers[id], x);
    var t := Put(s, id, w).(entries := s.entries[x := s.entries[x].(owner := Some(id))]);
    TookPlaced(s.entries, s.workers[id], x, Some(id));
    OwnerTaken(s, t, id, w, x);
    LockKeeps(s, t, id, w, x, Some(id));
  }

  lemma {:induction false} TryLockKeeps(s: State, id: Id)
    requires Inv(s) && id in s.workers
    ensures Inv(TryLockStep(s, id, s.workers[id]))
  {
    var w := s.workers[id];
    var t := TryLockStep(s, id, w);
    if t != s {
      if s.entries[w.waiting.value].owner.Some? { PhaseKeeps(s, t, id, w.(phase := Releasing)); }
      else { TakeKeeps(s, id, w.waiting.value); }
    }
  }

  /** The worker after giving back its last lock, still referring to the entry. */
  function Gave(w: Worker): Worker
    requires w.locked != []
  {
    w.(locked := w.locked[..|w.locked| - 1], waiting := Some(w.locked[|w.locked| - 1]))
  }

  lemma {:induction false} GavePlaced(entries: map<EntryId, Entry>, w: Worker, owner: Option<Id>)
    requires Placed(entries, w) && w.waiting.None? && w.locked != []
    ensures var x := w.locked[|w.locked| - 1];
            && Refs(Gave(w)) == Refs(w) && Placed(entries[x := entries[x].(owner := owner)], Gave(w))
            && forall y :: y in Gave(w).locked ==> y in w.locked && y != x
  {
    var x := w.locked[|w.locked| - 1];
    assert w.locked == w.locked[..|w.locked| - 1] + [x];
  }

  lemma {:induction false} UnlockGroupKeeps(s: State, id: Id)
    requires Inv(s) && id in s.workers
    ensures Inv(UnlockGroupStep(s, id, s.workers[id]))
  {
    var w := s.workers[id];
    var t := UnlockGroupStep(s, id, w);
    if t != s {
      var x := w.locked[|w.locked| - 1];
      GavePlaced(s.entries, w, None);
      OwnerGiven(s, t, id, Gave(w), x);
      LockKeeps(s, t, id, Gave(w), x, None);
    }
  }

  // ---- References ----

  /** The worker with a reference to x, or without the one it had. */
  function WithRef(w: Worker, x: EntryId): Worker { w.(waiting := Some(x)) }

  function WithoutRef(w: Worker): Worker { w.(waiting := None) }

  function Shared(s: State, id: Id, w: Worker, x: EntryId): State
    requires x in s.entries
  {
    Put(s, id, WithRef(w, x)).(entries := s.entries[x := s.entries[x].(refs := s.entries[x].refs + 1)])
  }

  function Created(s: State, id: Id, w: Worker, g: int): State {
    Put(s, id, WithRef(w, s.next)).(
      entries := s.entries[s.next := Entry(g, None, 1)], locks := s.locks[g := s.next], next := s.next + 1)
  }

  /** Another worker refers to the table's entry of a group. */
  lemma {:induction false} CountShared(s: State, t: State, id: Id, x: EntryId)
    requires CountInv(s) && id in s.workers && s.workers[id].waiting.None? && x !in s.workers[id].locked
    requires x in s.entries && Listed(s.locks, s.entries[x].group, x)
    requires t == Shared(s, id, s.workers[id], x)
    ensures CountInv(t)
  {
    var w := WithRef(s.workers[id], x);
    forall y | y in t.entries ensures Counted(t, y) {
      if y == x { HoldersGain(s.workers, id, w, x); } else { CountedKept(s, t, id, w, y); }
    }
  }

  /** A new entry starts with its creator's reference. */
  lemma {:induction false} CountCreated(s: State, t: State, id: Id, g: int)
    requires CountInv(s) && id in s.workers && s.workers[id].waiting.None? && g !in s.locks
    requires s.next !in s.entries && Holders(s.workers, s.next) == {}
    requires t == Created(s, id, s.workers[id], g)
    ensures CountInv(t)
  {
    var w := WithRef(s.workers[id], s.next);
    forall y | y in t.entries ensures Counted(t, y) {
      if y == s.next {
        assert s.next in Refs(s.workers[id]) <==> id in Holders(s.workers, s.next);
        HoldersGain(s.workers, id, w, y);
      } else {
        CountedKept(s, t, id, w, y);
      }
    }
  }

  lemma {:induction false} CountDropped(s: State, t: State, id: Id, x: EntryId)
    requires CountInv(s) && TableInv(s) && id in s.workers && s.workers[id].waiting == Some(x) && x !in s.workers[id].locked
    requires x in s.entries && t == DropRefStep(s, id, s.workers[id]) && s.workers[id].phase.Releasing?
    ensures CountInv(t)
  {
    var w := WithoutRef(s.workers[id]);
    forall y | y in t.entries ensures Counted(t, y) {
      if y == x { HoldersLose(s.workers, id, w, x); } else { CountedKept(s, t, id, w, y); }
    }
  }

  // ---- The rest of the steps that take or drop references ----

  lemma {:induction false} NextUnused(s: State)
    requires WorkersInv(s) && CountInv(s)
    ensures s.next !in s.entries && Holders(s.workers, s.next) == {}
  {
    forall x | x in s.entries ensures x < s.next { assert Counted(s, x); }
    forall id | id in s.workers ensures s.next !in Refs(s.workers[id]) {
      assert Placed(s.entries, s.workers[id]);
    }
  }

  lemma {:induction false} RefPlaced(entries: map<EntryId, Entry>, later: map<EntryId, Entry>, w: Worker, x: EntryId)
    requires Placed(entries, w) && w.waiting.None? && |w.locked| < |w.wanted| && Grows(entries, later)
    requires x in later && later[x].group == w.wanted[|w.locked|]
    ensures Placed(later, WithRef(w, x))
  {}

  lemma {:induction false} UnrefPlaced(entries: map<EntryId, Entry>, later: map<EntryId, Entry>, w: Worker)
    requires Placed(entries, w) && Grows(entries, later)
    ensures Placed(later, WithoutRef(w))
  {}

  ghost predicate SameOwners(entries: map<EntryId, Entry>, later: map<EntryId, Entry>) {
    forall x :: x in entries ==> x in later && later[x].owner == entries[x].owner
  }

  /** Worker id becomes w, which differs in what it waits for; entries may be added or recounted. */
  ghost predicate RefMove(s: State, t: State, id: Id, w: Worker) {
    && id in s.workers && t.workers == s.workers[id := w] && t.mutex == s.mutex && t.ents == s.ents
    && w.held == s.workers[id].held && w.locked == s.workers[id].locked
    && Grows(s.entries, t.entries) && SameOwners(s.entries, t.entries) && Placed(t.entries, w) && Ready(t.ents, w)
  }

  lemma {:induction false} RefMoveKeeps(s: State, t: State, id: Id, w: Worker)
    requires WorkersInv(s) && MutexInv(s) && OwnerInv(s) && RefMove(s, t, id, w)
    ensures WorkersInv(t) && MutexInv(t) && OwnerInv(t)
  {
    assert WorkersInv(t) by { OneWorker(s, t, id, w); }
    assert MutexInv(t) by { MutexKept(s, t, id, w); }
    assert OwnerInv(t) by { OwnerKept(s, t, id, w); }
  }

  lemma {:induction false} ShareMoves(s: State, id: Id, x: EntryId)
    requires id in s.workers && Placed(s.entries, s.workers[id]) && Ready(s.ents, s.workers[id])
    requires s.workers[id].waiting.None? && s.workers[id].phase.Acquiring? && |s.workers[id].locked| < |s.workers[id].wanted|
    requires x in s.entries && s.entries[x].group == s.workers[id].wanted[|s.workers[id].locked|]
    ensures RefMove(s, Shared(s, id, s.workers[id], x), id, WithRef(s.workers[id], x)) && x !in s.workers[id].locked
    ensures TableInv(s) ==> TableInv(Shared(s, id, s.workers[id], x))
  {
    RefPlaced(s.entries, Shared(s, id, s.workers[id], x).entries, s.workers[id], x);
  }

  lemma {:induction false} ShareKeeps(s: State, id: Id, x: EntryId)
    requires Inv(s) && id in s.workers && s.workers[id].waiting.None? && s.workers[id].phase.Acquiring?
    requires |s.workers[id].locked| < |s.workers[id].wanted| && x in s.entries
    requires s.entries[x].group == s.workers[id].wanted[|s.workers[id].locked|] && Listed(s.locks, s.entries[x].group, x)
    ensures Inv(Shared(s, id, s.workers[id], x))
  {
    var (w, t) := (WithRef(s.workers[id], x), Shared(s, id, s.workers[id], x));
    assert Placed(s.entries, s.workers[id]) && Ready(s.ents, s.workers[id]);
    ShareMoves(s, id, x);
    RefMoveKeeps(s, t, id, w);
    CountShared(s, t, id, x);
  }

  lemma {:induction false} TableCreated(s: State, t: State, g: int)
    requires TableInv(s) && s.next !in s.entries
    requires t.locks == s.locks[g := s.next] && t.entries == s.entries[s.next := Entry(g, None, 1)]
    ensures TableInv(t)
  {}

  lemma {:induction false} CreateMoves(s: State, id: Id, g: int)
    requires id in s.workers && Placed(s.entries, s.workers[id]) && Ready(s.ents, s.workers[id]) && s.next !in s.entries
    requires s.workers[id].waiting.None? && s.workers[id].phase.Acquiring? && |s.workers[id].locked| < |s.workers[id].wanted|
    requires g == s.workers[id].wanted[|s.workers[id].locked|]
    ensures RefMove(s, Created(s, id, s.workers[id], g), id, WithRef(s.workers[id], s.next))
  {
    RefPlaced(s.entries, Created(s, id, s.workers[id], g).entries, s.workers[id], s.next);
  }

  lemma {:induction false} CreateKeeps(s: State, id: Id, g: int)
    requires Inv(s) && id in s.workers && s.workers[id].waiting.None? && s.workers[id].phase.Acquiring?
    requires |s.workers[id].locked| < |s.workers[id].wanted| && g == s.workers[id].wanted[|s.workers[id].locked|] && g !in s.locks
    ensures Inv(Created(s, id, s.workers[id], g))
  {
    var (w, t) := (WithRef(s.workers[id], s.next), Created(s, id, s.workers[id], g));
    NextUnused(s);
    assert Placed(s.entries, s.workers[id]) && Ready(s.ents, s.workers[id]);
    CreateMoves(s, id, g);
    RefMoveKeeps(s, t, id, w);
    assert CountInv(t) by { CountCreated(s, t, id, g); }
    assert TableInv(t) by { TableCreated(s, t, g); }
  }

  lemma {:induction false} TakeRefIs(s: State, id: Id)
    requires TableInv(s) && id in s.workers
    ensures var (w, t) := (s.workers[id], TakeRefStep(s, id, s.workers[id]));
            if !w.phase.Acquiring? || w.waiting.Some? || |w.locked| >= |w.wanted| then t == s
            else
              var g := w.wanted[|w.locked|];
              if g in s.locks then s.locks[g] in s.entries && t == Shared(s, id, w, s.locks[g]) else t == Created(s, id, w, g)
  {}

  lemma {:induction false} TakeRefKeeps(s: State, id: Id)
    requires Inv(s) && id in s.workers
    ensures Inv(TakeRefStep(s, id, s.workers[id]))
  {
    var w := s.workers[id];
    TakeRefIs(s, id);
    if w.phase.Acquiring? && w.waiting.None? && |w.locked| < |w.wanted| {
      var g := w.wanted[|w.locked|];
      if g in s.locks { ShareKeeps(s, id, s.locks[g]); } else { CreateKeeps(s, id, g); }
    }
  }

  lemma {:induction false} TableDropped(s: State, t: State, x: EntryId, entry: Entry)
    requires TableInv(s) && x in s.entries && entry.group == s.entries[x].group && t.entries == s.entries[x := entry]
    requires t.locks == s.locks || t.locks == s.locks - {entry.group}
    ensures TableInv(t)
  {}

  lemma {:induction false} DropMoves(s: State, id: Id, x: EntryId)
    requires id in s.workers && Placed(s.entries, s.workers[id]) && Ready(s.ents, s.workers[id]) && x in s.entries
    requires s.workers[id].phase.Releasing? && s.workers[id].waiting == Some(x)
    ensures RefMove(s, DropRefStep(s, id, s.workers[id]), id, WithoutRef(s.workers[id])) && x !in s.workers[id].locked
    ensures var t := DropRefStep(s, id, s.workers[id]);
            && t.entries == s.entries[x := s.entries[x].(refs := s.entries[x].refs - 1)]
            && (t.locks == s.locks || t.locks == s.locks - {s.entries[x].group})
  {
    UnrefPlaced(s.entries, DropRefStep(s, id, s.workers[id]).entries, s.workers[id]);
  }

  lemma {:induction false} DropRefKeeps(s: State, id: Id)
    requires Inv(s) && id in s.workers
    ensures Inv(DropRefStep(s, id, s.workers[id]))
  {
    var w := s.workers[id];
    assert Placed(s.entries, w) && Ready(s.ents, w);
    if w.phase.Releasing? && w.waiting.Some? {
      var (v, x, t) := (WithoutRef(w), w.waiting.value, DropRefStep(s, id, w));
      DropMoves(s, id, x);
      RefMoveKeeps(s, t, id, v);
      assert CountInv(t) by { CountDropped(s, t, id, x); }
      assert TableInv(t) by { TableDropped(s, t, x, s.entries[x].(refs := s.entries[x].refs - 1)); }
    }
  }

  // ---- Workers come and go, entities move ----

  lemma {:induction false} WantedDistinct(job: Job)
    ensures WantedBy(job).Some? ==>
              forall i, j :: 0 <= i < j < |WantedBy(job).value| ==> WantedBy(job).value[i] != WantedBy(job).value[j]
  {}

  lemma {:induction false} CountSame(s: State, t: State)
    requires CountInv(s) && t.entries == s.entries && t.locks == s.locks && t.next == s.next
    requires forall x :: x in s.entries ==> Holders(t.workers, x) == Holders(s.workers, x)
    ensures CountInv(t)
  {
    forall x | x in t.entries ensures Counted(t, x) { assert Counted(s, x); }
  }

  /** A worker that holds nothing may appear or disappear without anyone's locks changing. */
  ghost predicate SameLocks(s: State, t: State, id: Id) {
    && t.mutex == s.mutex && t.entries == s.entries && t.locks == s.locks && t.next == s.next && t.ents == s.ents
    && (forall k :: k != id ==> (k in t.workers <==> k in s.workers) && (k in s.workers ==> t.workers[k] == s.workers[k]))
    && (id in s.workers ==> s.workers[id].held == {} && s.workers[id].locked == [])
    && (id in t.workers ==> t.workers[id].held == {} && t.workers[id].locked == [])
  }

  lemma {:induction false} MutexSame(s: State, t: State, id: Id)
    requires MutexInv(s) && SameLocks(s, t, id)
    ensures MutexInv(t)
  {}

  lemma {:induction false} OwnerSame(s: State, t: State, id: Id)
    requires OwnerInv(s) && SameLocks(s, t, id)
    ensures OwnerInv(t)
  {}

  lemma {:induction false} SpawnedKeeps(s: State, t: State, id: Id, w: Worker)
    requires Inv(s) && id !in s.workers && t == Put(s, id, w) && Placed(s.entries, w) && Ready(s.ents, w)
    requires w.held == {} && w.locked == [] && w.waiting.None?
    ensures Inv(t)
  {
    assert WorkersInv(t) by { OneWorker(s, t, id, w); }
    assert MutexInv(t) by { MutexSame(s, t, id); }
    assert OwnerInv(t) by { OwnerSame(s, t, id); }
    assert CountInv(t) by {
      forall x | x in s.entries ensures Holders(t.workers, x) == Holders(s.workers, x) { HoldersPut(s.workers, id, w, x); }
      CountSame(s, t);
    }
    assert TableInv(t) by { TableKept(s, t); }
  }

  lemma {:induction false} SpawnKeeps(s: State, id: Id, job: Job)
    requires Inv(s)
    ensures Inv(SpawnStep(s, id, job))
  {
    var t := SpawnStep(s, id, job);
    if t != s {
      WantedDistinct(job);
      SpawnedKeeps(s, t, id, t.workers[id]);
    }
  }

  lemma {:induction false} GoneCount(s: State, id: Id)
    requires CountInv(s) && id in s.workers && Refs(s.workers[id]) == {}
    ensures CountInv(s.(workers := s.workers - {id}))
  {
    var t := s.(workers := s.workers - {id});
    forall x | x in s.entries ensures Holders(t.workers, x) == Holders(s.workers, x) {}
    CountSame(s, t);
  }

  lemma {:induction false} LeaveKeeps(s: State, id: Id)
    requires Inv(s) && id in s.workers
    ensures Inv(LeaveStep(s, id, s.workers[id]))
  {
    var t := LeaveStep(s, id, s.workers[id]);
    if t != s {
      assert WorkersInv(t);
      assert MutexInv(t) by { MutexSame(s, t, id); }
      assert OwnerInv(t) by { OwnerSame(s, t, id); }
      assert CountInv(t) by { GoneCount(s, id); }
      assert TableInv(t) by { TableKept(s, t); }
    }
  }

  lemma {:induction false} GroupsKept(s: State, t: State)
    requires Inv(s) && t == s.(ents := t.ents) && t.ents.Keys == s.ents.Keys
    requires forall e :: e in s.ents ==> t.ents[e].group == s.ents[e].group
    ensures Inv(t)
  {
    forall id | id in t.workers ensures Placed(t.entries, t.workers[id]) && Ready(t.ents, t.workers[id]) { OtherWorker(s, t, id); }
    CountSame(s, t);
  }

  /** A worker that changes an entity's group holds its mutex, so no checked handler relies on it. */
  lemma {:induction false} OnlyHolderMoves(s: State, id: Id, other: Id, e: Id)
    requires MutexInv(s) && id in s.workers && other in s.workers && other != id && e in s.workers[id].held
    ensures e !in s.workers[other].held
  {
    assert s.mutex[e] == id;
    forall k | k in s.workers && e in s.workers[k].held ensures k == id { assert s.mutex[e] == k; }
  }

  lemma {:induction false} MoveKeeps(s: State, id: Id, e: Id, ent: Ent)
    requires Inv(s) && id in s.workers && s.workers[id].phase.Running? && s.workers[id].job.Transition?
    requires s.workers[id].job.entity == e && e in s.ents
    ensures Inv(Put(s, id, s.workers[id].(phase := Releasing)).(ents := s.ents[e := ent]))
  {
    var w := s.workers[id].(phase := Releasing);
    var t := Put(s, id, w).(ents := s.ents[e := ent]);
    assert Placed(s.entries, s.workers[id]) && Ready(s.ents, s.workers[id]);
    assert e in EntitiesOf(s.workers[id].job);
    forall other | other in s.workers && other != id ensures SameGroups(s.ents, t.ents, s.workers[other].held) {
      OnlyHolderMoves(s, id, other, e);
    }
    assert WorkersInv(t) by { OneWorker(s, t, id, w); }
    assert MutexInv(t) by { MutexKept(s, t, id, w); }
    assert OwnerInv(t) by { OwnerKept(s, t, id, w); }
    assert CountInv(t) by { CountKept(s, t, id, w); }
    assert TableInv(t) by { TableKept(s, t); }
  }

  lemma {:induction false} UpdateKeeps(s: State, id: Id, ok: bool)
    requires Inv(s) && id in s.workers
    ensures Inv(UpdateStep(s, id, s.workers[id], ok))
  {
    var w := s.workers[id];
    if w.phase.Running? && w.job.Transition? && w.job.entity in s.ents {
      MoveKeeps(s, id, w.job.entity, Moved(s.ents[w.job.entity], TargetOf(w.job), ok));
    }
  }

  lemma {:induction false} QuitKeeps(s: State, id: Id)
    requires Inv(s) && id in s.workers
    ensures Inv(Put(s, id, s.workers[id].(phase := Releasing)))
  {
    assert Ready(s.ents, s.workers[id]);
    PhaseKeeps(s, Put(s, id, s.workers[id].(phase := Releasing)), id, s.workers[id].(phase := Releasing));
  }

  lemma {:induction false} AcquireKeeps(s: State, a: Action)
    requires Inv(s) && (a.TakeRef? || a.TryLock? || a.LockEntity? || a.GiveUp? || a.Check?) && a.id in s.workers
    ensures Inv(WorkerStep(s, a, s.workers[a.id]))
  {
    match a
    case TakeRef(id) => TakeRefKeeps(s, id);
    case TryLock(id) => TryLockKeeps(s, id);
    case LockEntity(id, e) => LockEntityKeeps(s, id, e);
    case GiveUp(id) => QuitKeeps(s, id);
    case Check(id) => CheckKeeps(s, id);
  }

  lemma {:induction false} ReleaseKeeps(s: State, a: Action)
    requires Inv(s) && (a.Update? || a.FinishRun? || a.ReleaseEntity? || a.UnlockGroup? || a.DropRef? || a.Leave?) && a.id in s.workers
    ensures Inv(WorkerStep(s, a, s.workers[a.id]))
  {
    match a
    case Update(id, ok) => UpdateKeeps(s, id, ok);
    case FinishRun(id) => QuitKeeps(s, id);
    case ReleaseEntity(id, e) => ReleaseEntityKeeps(s, id, e);
    case UnlockGroup(id) => UnlockGroupKeeps(s, id);
    case DropRef(id) => DropRefKeeps(s, id);
    case Leave(id) => LeaveKeeps(s, id);
  }

  lemma {:induction false} StepKeeps(s: State, a: Action)
    requires Inv(s)
    ensures Inv(Step(s, a))
  {
    if a.Spawn? { SpawnKeeps(s, a.id, a.job); }
    else if a.BeginWords? { GroupsKept(s, Step(s, a)); }
    else if a.id in s.workers {
      if a.TakeRef? || a.TryLock? || a.LockEntity? || a.GiveUp? || a.Check? { AcquireKeeps(s, a); } else { ReleaseKeeps(s, a); }
    }
  }

  lemma {:induction false} RunKeeps(ents: map<Id, Ent>, acts: seq<Action>)
    ensures Inv(Run(ents, acts))
  {
    if acts != [] {
      RunKeeps(ents, acts[..|acts| - 1]);
      StepKeeps(Run(ents, acts[..|acts| - 1]), acts[|acts| - 1]);
    }
  }

  // ---- What every run guarantees ----

  /** A group resolved from snapshots is the group of each of them that has one. */
  lemma {:induction false} ResolvedGroup(snapshots: seq<Ent>, found: int, k: nat)
    requires ResolveGroup(snapshots, found).Some? && k < |snapshots| && snapshots[k].group != 0
    ensures ResolveGroup(snapshots, found).value == snapshots[k].group
    ensures found != 0 ==> ResolveGroup(snapshots, found).value == found
    decreases |snapshots|
  {
    ResolveKeeps(snapshots, found);
    if k > 0 {
      var next := if snapshots[0].group == 0 then found else snapshots[0].group;
      ResolvedGroup(snapshots[1..], next, k - 1);
    } else {
      ResolveKeeps(snapshots[1..], snapshots[0].group);
    }
  }

  lemma {:induction false} ResolveKeeps(snapshots: seq<Ent>, found: int)
    requires ResolveGroup(snapshots, found).Some?
    ensures found != 0 ==> ResolveGroup(snapshots, found).value == found
    decreases |snapshots|
  {
    if snapshots != [] && (snapshots[0].group == 0 || snapshots[0].group == found) { ResolveKeeps(snapshots[1..], found); }
  }

  predicate IsRunning(s: State, id: Id) {
    id in s.workers && s.workers[id].phase.Running? && s.workers[id].job.Handler?
  }

  /** A running handler with an entity in a non-zero group holds that group's lock, on the entry in the table. */
  lemma {:induction false} RunningHoldsGroup(s: State, id: Id, e: Id)
    requires Inv(s) && IsRunning(s, id) && e in s.workers[id].job.entities && e in s.ents && s.ents[e].group != 0
    ensures var g := s.ents[e].group;
            && g in s.locks && s.locks[g] in s.entries && s.entries[s.locks[g]].owner == Some(id)
            && s.workers[id].wanted == [g]
  {
    var w := s.workers[id];
    assert Placed(s.entries, w) && Ready(s.ents, w);
    var k :| 0 <= k < |w.job.entities| && w.job.entities[k] == e;
    ResolvedGroup(w.job.snapshots, 0, k);
    var x := w.locked[0];
    assert x in w.locked && id in Holders(s.workers, x);
    assert Counted(s, x);
  }

  /** Two handlers whose entities share a non-zero lock group never run at once. */
  lemma {:induction false} GroupExclusion(ents: map<Id, Ent>, acts: seq<Action>, a: Id, b: Id, e: Id, f: Id)
    requires var s := Run(ents, acts);
             && IsRunning(s, a) && IsRunning(s, b) && a != b
             && e in s.workers[a].job.entities && f in s.workers[b].job.entities && e in s.ents && f in s.ents
    ensures var s := Run(ents, acts); s.ents[e].group == s.ents[f].group ==> s.ents[e].group == 0
  {
    RunKeeps(ents, acts);
    var s := Run(ents, acts);
    if s.ents[e].group == s.ents[f].group != 0 {
      RunningHoldsGroup(s, a, e);
      RunningHoldsGroup(s, b, f);
    }
  }

  lemma {:induction false} OtherStepsKeepGroups(s: State, a: Action, e: Id)
    requires e in s.ents && !a.Update?
    ensures e in Step(s, a).ents && Step(s, a).ents[e].group == s.ents[e].group
  {}

  /** A step that changes an entity's group is the update of a transition that holds the entity and its groups. */
  lemma {:induction false} OnlyUpdateMoves(s: State, a: Action, e: Id)
    requires WorkersInv(s) && e in s.ents && e in Step(s, a).ents && Step(s, a).ents[e].group != s.ents[e].group
    ensures a.Update? && a.id in s.workers && s.workers[a.id].phase.Running? && s.workers[a.id].job.Transition?
    ensures s.workers[a.id].job.entity == e && e in s.workers[a.id].held && Step(s, a).ents[e].group == TargetOf(s.workers[a.id].job)
  {
    if !a.Update? {
      OtherStepsKeepGroups(s, a, e);
    } else {
      var w := s.workers[a.id];
      assert Ready(s.ents, w);
      assert w.job.entity in EntitiesOf(w.job);
    }
  }

  /** A running handler's entities never change group. */
  lemma {:induction false} RunningKeepsGroups(ents: map<Id, Ent>, acts: seq<Action>, a: Action, id: Id, e: Id)
    requires var s := Run(ents, acts); IsRunning(s, id) && e in s.workers[id].job.entities
    ensures var s := Run(ents, acts); e in s.ents && e in Step(s, a).ents && Step(s, a).ents[e].group == s.ents[e].group
  {
    RunKeeps(ents, acts);
    var s := Run(ents, acts);
    assert Ready(s.ents, s.workers[id]);
    assert e in EntitiesOf(s.workers[id].job);
    if !a.Update? { OtherStepsKeepGroups(s, a, e); }
    else if Step(s, a).ents[e].group != s.ents[e].group {
      OnlyUpdateMoves(s, a, e);
      OnlyHolderMoves(s, a.id, id, e);
    }
  }

  /** A transition about to update holds the lock of each group it wants, on the entry in the table. */
  lemma {:induction false} UpdaterHoldsGroup(s: State, id: Id, g: int)
    requires Inv(s) && id in s.workers && s.workers[id].phase.Running? && g in s.workers[id].wanted
    ensures g in s.locks && s.locks[g] in s.entries && s.entries[s.locks[g]].owner == Some(id)
  {
    var w := s.workers[id];
    assert Placed(s.entries, w) && Ready(s.ents, w);
    var i :| 0 <= i < |w.wanted| && w.wanted[i] == g;
    var x := w.locked[i];
    assert x in w.locked && id in Holders(s.workers, x);
    assert Counted(s, x);
  }

  /** An update into a non-zero group holds that group's lock. */
  lemma {:induction false} EntryNeedsLock(s: State, a: Action, f: Id)
    requires Inv(s) && f in s.ents && f in Step(s, a).ents && Step(s, a).ents[f].group != s.ents[f].group && Step(s, a).ents[f].group != 0
    ensures var g := Step(s, a).ents[f].group;
            && a.Update? && a.id in s.workers && s.workers[a.id].job.Transition?
            && g in s.locks && s.locks[g] in s.entries && s.entries[s.locks[g]].owner == Some(a.id)
  {
    OnlyUpdateMoves(s, a, f);
    assert Ready(s.ents, s.workers[a.id]);
    UpdaterHoldsGroup(s, a.id, Step(s, a).ents[f].group);
  }

  /** While a handler runs in a group, no entity enters that group. */
  lemma {:induction false} NobodyEnters(ents: map<Id, Ent>, acts: seq<Action>, a: Action, id: Id, e: Id, f: Id)
    requires var s := Run(ents, acts);
             && IsRunning(s, id) && e in s.workers[id].job.entities && e in s.ents && s.ents[e].group != 0
             && f in s.ents && f in Step(s, a).ents && s.ents[f].group != s.ents[e].group
    ensures var s := Run(ents, acts); Step(s, a).ents[f].group != s.ents[e].group
  {
    RunKeeps(ents, acts);
    var s := Run(ents, acts);
    RunningHoldsGroup(s, id, e);
    if Step(s, a).ents[f].group == s.ents[e].group { EntryNeedsLock(s, a, f); }
  }

  /** While a handler runs in a group, an entity leaves that group only through a transition that does not lock the group. */
  lemma {:induction false} LeavesUnlocked(ents: map<Id, Ent>, acts: seq<Action>, a: Action, id: Id, e: Id, f: Id)
    requires var s := Run(ents, acts);
             && IsRunning(s, id) && e in s.workers[id].job.entities && e in s.ents && s.ents[e].group != 0
             && f in s.ents && f in Step(s, a).ents && s.ents[f].group == s.ents[e].group != Step(s, a).ents[f].group
    ensures var s := Run(ents, acts);
            && a.Update? && a.id in s.workers && s.workers[a.id].job.Transition?
            && var job := s.workers[a.id].job;
            && job.entity == f && s.ents[e].group !in TransitionGroups(job.current, job.target, job.kind)
  {
    RunKeeps(ents, acts);
    var s := Run(ents, acts);
    OnlyUpdateMoves(s, a, f);
    assert Ready(s.ents, s.workers[a.id]);
    if s.ents[e].group in s.workers[a.id].wanted {
      RunningHoldsGroup(s, id, e);
      UpdaterHoldsGroup(s, a.id, s.ents[e].group);
    }
  }
}
