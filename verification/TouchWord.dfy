/**
 * The touch word of an entity, one atomic step at a time: a count of outstanding touches, a removed bit and a cleared
 * bit in one word that is only changed by compare-and-swap or by an atomic decrement.
 */
module TouchWord {
  import opened Common
  import IntSets

  type Id = nat

  const COUNT_LIMIT := 0x4000_0000

  datatype Word = Word(count: nat, removed: bool, cleared: bool)

  /**
   * A call in progress or done. Holds is a touch that has not been released. Zeroed is a release that found itself the
   * last of a removed entity and must see to the clearing; Clearing has won the cleared bit and is about to clear.
   */
  datatype Call =
    | Touching(seen: Word)
    | Holds
    | Zeroed
    | ZeroedSaw(seen: Word)
    | Removing(seen: Word)
    | ClearingBase(seen: Word)
    | Clearing(last: bool)
    | Finished(last: bool)

  /** clears counts the runs of doClear. */
  datatype State = State(word: Word, calls: map<Id, Call>, clears: nat)

  const INITIAL := State(Word(0, false, false), map[], 0)

  datatype Action =
    | BeginTouch(id: Id)
    | BeginRemove(id: Id)
    | BeginClearBase(id: Id)
    | Advance(id: Id)

  /** Fewer than 2^30 touches are outstanding. */
  function TouchStep(s: State, id: Id, seen: Word): State {
    if seen.removed || seen.cleared then s.(calls := s.calls - {id})
    else if s.word == seen && seen.count + 1 < COUNT_LIMIT then
      s.(word := seen.(count := seen.count + 1), calls := s.calls[id := Holds])
    else s.(calls := s.calls[id := Touching(s.word)])
  }

  /** The atomic decrement; the result decides whether this release has to clear. */
  function UntouchStep(s: State, id: Id): State {
    if s.word.count == 0 then s
    else
      var w := s.word.(count := s.word.count - 1);
      s.(word := w, calls := s.calls[id := if w.removed && w.count == 0 then Zeroed else Finished(false)])
  }

  function ClearStep(s: State, id: Id, seen: Word): State {
    if seen.cleared then s.(calls := s.calls[id := Finished(true)])
    else if s.word == seen then s.(word := seen.(cleared := true), calls := s.calls[id := Clearing(true)])
    else s.(calls := s.calls[id := Zeroed])
  }

  function ClearBaseStep(s: State, id: Id, seen: Word): State {
    if seen.cleared || seen.count != 0 then s.(calls := s.calls[id := Finished(false)])
    else if s.word == seen then s.(word := seen.(cleared := true), calls := s.calls[id := Clearing(false)])
    else s.(calls := s.calls[id := ClearingBase(s.word)])
  }

  function RemoveStep(s: State, id: Id, seen: Word): State {
    if s.word == seen then s.(word := seen.(removed := true), calls := s.calls[id := Finished(false)])
    else s.(calls := s.calls[id := Removing(s.word)])
  }

  function CallStep(s: State, id: Id, call: Call): State {
    match call
    case Touching(seen) => TouchStep(s, id, seen)
    case Holds => UntouchStep(s, id)
    case Zeroed => s.(calls := s.calls[id := ZeroedSaw(s.word)])
    case ZeroedSaw(seen) => ClearStep(s, id, seen)
    case Removing(seen) => RemoveStep(s, id, seen)
    case ClearingBase(seen) => ClearBaseStep(s, id, seen)
    case Clearing(last) => s.(clears := s.clears + 1, calls := s.calls[id := Finished(last)])
    case Finished(_) => s
  }

  function Step(s: State, a: Action): State {
    match a
    case BeginTouch(id) => if id in s.calls then s else s.(calls := s.calls[id := Touching(s.word)])
    case BeginRemove(id) => if id in s.calls then s else s.(calls := s.calls[id := Removing(s.word)])
    case BeginClearBase(id) => if id in s.calls then s else s.(calls := s.calls[id := ClearingBase(s.word)])
    case Advance(id) => if id in s.calls then CallStep(s, id, s.calls[id]) else s
  }

  function Run(acts: seq<Action>): State {
    if acts == [] then INITIAL else Step(Run(acts[..|acts| - 1]), acts[|acts| - 1])
  }

  // ---- The invariant ----

  /** The calls that hold a touch. */
  function Holders(calls: map<Id, Call>): set<Id> {
    set id | id in calls && calls[id].Holds?
  }

  function Clearers(calls: map<Id, Call>): set<Id> {
    set id | id in calls && calls[id].Clearing?
  }

  ghost predicate CallInv(w: Word, call: Call) {
    match call
    case Zeroed => w.removed && w.count == 0
    case ZeroedSaw(seen) => w.removed && w.count == 0 && (seen.cleared ==> w.cleared)
    case Touching(seen) => (seen.removed ==> w.removed) && (seen.cleared ==> w.cleared)
    case Clearing(_) => w.cleared
    case Finished(last) => last ==> w.cleared
    case _ => true
  }

  ghost predicate Inv(s: State) {
    && s.word.count == |Holders(s.calls)| && (s.word.cleared ==> s.word.count == 0)
    && s.clears + |Clearers(s.calls)| == (if s.word.cleared then 1 else 0)
    && forall id :: id in s.calls ==> CallInv(s.word, s.calls[id])
  }

  // ---- Counting ----

  lemma {:induction false} HoldersPut(calls: map<Id, Call>, id: Id, call: Call)
    ensures Holders(calls[id := call]) == if call.Holds? then Holders(calls) + {id} else Holders(calls) - {id}
    ensures Clearers(calls[id := call]) == if call.Clearing? then Clearers(calls) + {id} else Clearers(calls) - {id}
  {}

  lemma {:induction false} HoldersDrop(calls: map<Id, Call>, id: Id)
    ensures Holders(calls - {id}) == Holders(calls) - {id} && Clearers(calls - {id}) == Clearers(calls) - {id}
  {}

  /** A call that neither holds nor clears moves to another such place. */
  lemma {:induction false} PlaceKeeps(s: State, id: Id, call: Call)
    requires Inv(s) && !call.Holds? && !call.Clearing? && CallInv(s.word, call)
    requires id in s.calls ==> !s.calls[id].Holds? && !s.calls[id].Clearing?
    ensures Inv(s.(calls := s.calls[id := call]))
  {
    HoldersPut(s.calls, id, call);
  }

  lemma {:induction false} DropKeeps(s: State, id: Id)
    requires Inv(s) && id in s.calls && s.calls[id].Touching?
    ensures Inv(s.(calls := s.calls - {id}))
  {
    HoldersDrop(s.calls, id);
  }

  lemma {:induction false} TouchedKeeps(s: State, id: Id)
    requires Inv(s) && id in s.calls && s.calls[id].Touching? && !s.word.removed && !s.word.cleared
    ensures Inv(s.(word := s.word.(count := s.word.count + 1), calls := s.calls[id := Holds]))
  {
    HoldersPut(s.calls, id, Holds);
    assert id !in Holders(s.calls) && id !in Clearers(s.calls);
    forall k | k in s.calls && k != id ensures CallInv(s.word.(count := s.word.count + 1), s.calls[k]) {
      assert CallInv(s.word, s.calls[k]);
    }
  }

  lemma {:induction false} TouchKeeps(s: State, id: Id, seen: Word)
    requires Inv(s) && id in s.calls && s.calls[id] == Touching(seen)
    ensures Inv(TouchStep(s, id, seen))
  {
    if seen.removed || seen.cleared { DropKeeps(s, id); }
    else if s.word == seen && seen.count + 1 < COUNT_LIMIT { TouchedKeeps(s, id); }
    else { PlaceKeeps(s, id, Touching(s.word)); }
  }

  lemma {:induction false} UntouchKeeps(s: State, id: Id)
    requires Inv(s) && id in s.calls && s.calls[id].Holds?
    ensures s.word.count > 0 && Inv(UntouchStep(s, id))
  {
    assert id in Holders(s.calls);
    HoldersPut(s.calls, id, Zeroed);
    HoldersPut(s.calls, id, Finished(false));
  }

  /** Winning the cleared bit of a word without touches. */
  lemma {:induction false} WinKeeps(s: State, id: Id, last: bool)
    requires Inv(s) && id in s.calls && !s.calls[id].Holds? && !s.calls[id].Clearing? && !s.word.cleared && s.word.count == 0
    ensures Inv(s.(word := s.word.(cleared := true), calls := s.calls[id := Clearing(last)]))
  {
    HoldersPut(s.calls, id, Clearing(last));
    assert id !in Holders(s.calls) && id !in Clearers(s.calls);
    forall k | k in s.calls && k != id ensures CallInv(s.word.(cleared := true), s.calls[k]) { assert CallInv(s.word, s.calls[k]); }
  }

  lemma {:induction false} ClearKeeps(s: State, id: Id, seen: Word)
    requires Inv(s) && id in s.calls && s.calls[id] == ZeroedSaw(seen)
    ensures Inv(ClearStep(s, id, seen))
  {
    assert CallInv(s.word, s.calls[id]);
    if seen.cleared { PlaceKeeps(s, id, Finished(true)); }
    else if s.word == seen { WinKeeps(s, id, true); }
    else { PlaceKeeps(s, id, Zeroed); }
  }

  lemma {:induction false} ClearBaseKeeps(s: State, id: Id, seen: Word)
    requires Inv(s) && id in s.calls && s.calls[id] == ClearingBase(seen)
    ensures Inv(ClearBaseStep(s, id, seen))
  {
    if seen.cleared || seen.count != 0 { PlaceKeeps(s, id, Finished(false)); }
    else if s.word == seen { WinKeeps(s, id, false); }
    else { PlaceKeeps(s, id, ClearingBase(s.word)); }
  }

  lemma {:induction false} RemoveKeeps(s: State, id: Id, seen: Word)
    requires Inv(s) && id in s.calls && s.calls[id] == Removing(seen)
    ensures Inv(RemoveStep(s, id, seen))
  {
    PlaceKeeps(s, id, if s.word == seen then Finished(false) else Removing(s.word));
    if s.word == seen {
      var t := s.(calls := s.calls[id := Finished(false)]);
      forall k | k in t.calls ensures CallInv(t.word.(removed := true), t.calls[k]) { assert CallInv(t.word, t.calls[k]); }
    }
  }

  lemma {:induction false} ClearedKeeps(s: State, id: Id, last: bool)
    requires Inv(s) && id in s.calls && s.calls[id] == Clearing(last)
    ensures Inv(CallStep(s, id, Clearing(last)))
  {
    assert CallInv(s.word, s.calls[id]) && id in Clearers(s.calls);
    HoldersPut(s.calls, id, Finished(last));
  }

  lemma {:induction false} StepKeeps(s: State, a: Action)
    requires Inv(s)
    ensures Inv(Step(s, a))
  {
    match a
    case BeginTouch(id) => if id !in s.calls { PlaceKeeps(s, id, Touching(s.word)); }
    case BeginRemove(id) => if id !in s.calls { PlaceKeeps(s, id, Removing(s.word)); }
    case BeginClearBase(id) => if id !in s.calls { PlaceKeeps(s, id, ClearingBase(s.word)); }
    case Advance(id) =>
      if id in s.calls {
        assert CallInv(s.word, s.calls[id]);
        match s.calls[id]
        case Touching(seen) => TouchKeeps(s, id, seen);
        case Holds => UntouchKeeps(s, id);
        case Zeroed => PlaceKeeps(s, id, ZeroedSaw(s.word));
        case ZeroedSaw(seen) => ClearKeeps(s, id, seen);
        case Removing(seen) => RemoveKeeps(s, id, seen);
        case ClearingBase(seen) => ClearBaseKeeps(s, id, seen);
        case Clearing(last) => ClearedKeeps(s, id, last);
        case Finished(_) =>
      }
  }

  lemma {:induction false} RunKeeps(acts: seq<Action>)
    ensures Inv(Run(acts))
  {
    if acts != [] {
      RunKeeps(acts[..|acts| - 1]);
      StepKeeps(Run(acts[..|acts| - 1]), acts[|acts| - 1]);
    }
  }

  // ---- What every interleaving guarantees ----

  /** doClear runs at most once, and when it runs no touch is outstanding. */
  lemma {:induction false} ClearsOnce(acts: seq<Action>, id: Id)
    ensures var s := Run(acts);
            && s.clears <= 1
            && (s.clears == 1 || (id in s.calls && s.calls[id].Clearing?) ==> Holders(s.calls) == {})
            && (id in s.calls && s.calls[id].Clearing? ==> s.clears == 0)
  {
    RunKeeps(acts);
    var s := Run(acts);
    if id in s.calls && s.calls[id].Clearing? { assert id in Clearers(s.calls) && CallInv(s.word, s.calls[id]); }
  }

  /** A release that was the last of a removed entity returns when doClear has run, or another call is about to run it. */
  lemma {:induction false} LastReleaseClears(acts: seq<Action>, id: Id)
    requires var s := Run(acts); id in s.calls && s.calls[id] == Finished(true)
    ensures var s := Run(acts);
            s.word.cleared && (s.clears == 1 || exists other :: other in s.calls && other != id && s.calls[other].Clearing?)
  {
    RunKeeps(acts);
    var s := Run(acts);
    assert CallInv(s.word, s.calls[id]);
    if s.clears != 1 {
      var other := IntSets.Member(Clearers(s.calls));
      assert other in s.calls && s.calls[other].Clearing?;
    }
  }

  /** Removed while touched: a touch is still out, the clearing has been won, or a last release is on its way to it. */
  ghost predicate Owed(s: State) {
    && s.word.removed
    && (s.word.count > 0 || s.word.cleared || exists id :: id in s.calls && (s.calls[id].Zeroed? || s.calls[id].ZeroedSaw?))
  }

  lemma {:induction false} OwedStep(s: State, a: Action)
    requires Inv(s) && Owed(s)
    ensures Owed(Step(s, a))
  {
    var t := Step(s, a);
    if t.word.count == 0 && !t.word.cleared {
      if s.word.count > 0 {
        assert a.Advance? && t.calls[a.id].Zeroed?;
      } else {
        var id :| id in s.calls && (s.calls[id].Zeroed? || s.calls[id].ZeroedSaw?);
        assert id in t.calls && (t.calls[id].Zeroed? || t.calls[id].ZeroedSaw?);
      }
    }
  }

  lemma {:induction false} OwedLater(acts: seq<Action>, n: nat)
    requires n <= |acts| && Owed(Run(acts[..n]))
    ensures Owed(Run(acts))
    decreases |acts|
  {
    if n == |acts| {
      assert acts[..n] == acts;
    } else {
      var rest := acts[..|acts| - 1];
      assert rest[..n] == acts[..n];
      OwedLater(rest, n);
      RunKeeps(rest);
      OwedStep(Run(rest), acts[|acts| - 1]);
    }
  }

  /** An entity removed while touched has been cleared, once, by the time every call has returned. */
  lemma {:induction false} RemovedIsCleared(acts: seq<Action>, n: nat)
    requires n <= |acts| && Run(acts[..n]).word.removed && Holders(Run(acts[..n]).calls) != {}
    requires forall id :: id in Run(acts).calls ==> Run(acts).calls[id].Finished?
    ensures Run(acts).clears == 1
  {
    RunKeeps(acts[..n]);
    OwedLater(acts, n);
    RunKeeps(acts);
    assert Holders(Run(acts).calls) == {} && Clearers(Run(acts).calls) == {};
  }

  /** The bits are never taken back, and once either is set no touch succeeds. */
  lemma {:induction false} NoTouchAfterRemoval(s: State, a: Action)
    ensures var t := Step(s, a);
            && (s.word.removed ==> t.word.removed) && (s.word.cleared ==> t.word.cleared)
            && (s.word.removed || s.word.cleared ==> Holders(t.calls) <= Holders(s.calls))
  {}

  /** Over the rest of any run: whoever holds a touch after removal held it at the time of removal. */
  lemma {:induction false} NoTouchLater(acts: seq<Action>, n: nat)
    requires n <= |acts|
    ensures var (s, t) := (Run(acts[..n]), Run(acts));
            s.word.removed || s.word.cleared ==> (t.word.removed || t.word.cleared) && Holders(t.calls) <= Holders(s.calls)
    decreases |acts|
  {
    if n == |acts| {
      assert acts[..n] == acts;
    } else {
      var rest := acts[..|acts| - 1];
      NoTouchLater(rest, n);
      assert rest[..n] == acts[..n];
      NoTouchAfterRemoval(Run(rest), acts[|acts| - 1]);
    }
  }
}
