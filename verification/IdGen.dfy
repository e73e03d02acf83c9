/**
 * Block id generators, one atomic step at a time. Every generator hands out ids of the block it holds and rotates to a
 * new block when it sees the old one used up; the allocator's block numbers strictly increase over all generators.
 */
module IdGen {
  import opened Common

  type Gen = nat
  type Caller = nat

  const BLOCK_SIZE := 0x10_0000
  const MAX_BLOCK := 0x7fff_ffff
  const DYNAMIC_LIMIT := 0x8_0000_0000_0000

  /** next and end are two separate words; rotating is the caller that holds the rotation flag. */
  datatype Generator = Generator(next: nat, end: nat, rotating: Option<Caller>, block: nat)

  /** Where a call of Generate is. */
  datatype Call =
    | Ready(gen: Gen)
    | HasNext(gen: Gen, next: nat)
    | HasBoth(gen: Gen, next: nat, end: nat)
    | Exhausted(gen: Gen)
    | Rotating(gen: Gen)
    | GotBlock(gen: Gen, block: nat)
    | StoredNext(gen: Gen, block: nat)
    | StoredEnd(gen: Gen)

  /**
   * block in a generator is the last one whose start it stored. given is the next number the allocator may give
   * out, owner records who got each block, and issued lists every returned id with its generator.
   */
  datatype State = State(
    gens: map<Gen, Generator>,
    calls: map<Caller, Call>,
    given: nat,
    owner: map<nat, Gen>,
    issued: seq<(Gen, nat)>)

  const INITIAL := State(map[], map[], 0, map[], [])

  /** Acquire and NewGenerator name the block the allocator gives: any number at or above all it will not give again. */
  datatype Action =
    | NewGenerator(gen: Gen, block: nat)
    | Generate(call: Caller, gen: Gen)
    | LoadNext(call: Caller)
    | LoadEnd(call: Caller)
    | Swap(call: Caller)
    | TakeFlag(call: Caller)
    | Acquire(call: Caller, block: nat, fails: bool)
    | StoreNext(call: Caller)
    | StoreEnd(call: Caller)
    | DropFlag(call: Caller)

  /** Zero is never handed out: block 0 starts at one. */
  function Start(block: nat): nat { if block == 0 then 1 else block * BLOCK_SIZE }

  function End(block: nat): nat { block * BLOCK_SIZE + BLOCK_SIZE }

  function Put(s: State, c: Caller, call: Call): State { s.(calls := s.calls[c := call]) }

  function SetGen(s: State, g: Gen, gen: Generator): State { s.(gens := s.gens[g := gen]) }

  function Done(s: State, c: Caller): State { s.(calls := s.calls - {c}) }

  function NewGenStep(s: State, g: Gen, block: nat): State {
    if g in s.gens || block < s.given || block > MAX_BLOCK then s
    else SetGen(s, g, Generator(Start(block), End(block), None, block)).(given := block + 1, owner := s.owner[block := g])
  }

  /** The compare-and-swap of next; a lost race starts over. */
  function SwapStep(s: State, c: Caller, call: Call, gen: Generator): State
    requires call.HasBoth?
  {
    if call.next >= call.end then Put(s, c, Exhausted(call.gen))
    else if gen.next != call.next then Put(s, c, Ready(call.gen))
    else SetGen(Done(s, c), call.gen, gen.(next := gen.next + 1)).(issued := s.issued + [(call.gen, call.next)])
  }

  /** The flag is won, or the caller waits until it is free and starts over. */
  function FlagStep(s: State, c: Caller, call: Call, gen: Generator): State
    requires call.Exhausted?
  {
    if gen.rotating.Some? then s
    else SetGen(Put(s, c, Rotating(call.gen)), call.gen, gen.(rotating := Some(c)))
  }

  /** A failed or out-of-range allocation gives up the call and the flag. */
  function AcquireStep(s: State, c: Caller, call: Call, gen: Generator, block: nat, fails: bool): State
    requires call.Rotating?
  {
    if block < s.given then s
    else if fails then SetGen(Done(s, c), call.gen, gen.(rotating := None))
    else
      var t := s.(given := block + 1, owner := s.owner[block := call.gen]);
      if block > MAX_BLOCK then SetGen(Done(t, c), call.gen, gen.(rotating := None)) else Put(t, c, GotBlock(call.gen, block))
  }

  function CallStep(s: State, a: Action, c: Caller, call: Call, gen: Generator): State {
    match call
    case Ready(g) => if a.LoadNext? then Put(s, c, HasNext(g, gen.next)) else s
    case HasNext(g, n) => if a.LoadEnd? then Put(s, c, HasBoth(g, n, gen.end)) else s
    case HasBoth(_, _, _) => if a.Swap? then SwapStep(s, c, call, gen) else s
    case Exhausted(g) =>
      if a.TakeFlag? then FlagStep(s, c, call, gen) else if a.LoadNext? && gen.rotating.None? then Put(s, c, Ready(g)) else s
    case Rotating(_) => if a.Acquire? then AcquireStep(s, c, call, gen, a.block, a.fails) else s
    case GotBlock(g, b) =>
      if a.StoreNext? then SetGen(Put(s, c, StoredNext(g, b)), g, gen.(next := Start(b), block := b)) else s
    case StoredNext(g, b) => if a.StoreEnd? then SetGen(Put(s, c, StoredEnd(g)), g, gen.(end := End(b))) else s
    case StoredEnd(g) => if a.DropFlag? then SetGen(Put(s, c, Ready(g)), g, gen.(rotating := None)) else s
  }

  function Step(s: State, a: Action): State {
    match a
    case NewGenerator(g, b) => NewGenStep(s, g, b)
    case Generate(c, g) => if c in s.calls || g !in s.gens then s else Put(s, c, Ready(g))
    case _ =>
      if a.call !in s.calls || s.calls[a.call].gen !in s.gens then s
      else CallStep(s, a, a.call, s.calls[a.call], s.gens[s.calls[a.call].gen])
  }

  function Run(acts: seq<Action>): State {
    if acts == [] then INITIAL else Step(Run(acts[..|acts| - 1]), acts[|acts| - 1])
  }

  // ---- The invariant ----

  /** The generator's words stay within its last block, which it owns. */
  ghost predicate GenInv(s: State, g: Gen)
    requires g in s.gens
  {
    var gen := s.gens[g];
    && Start(gen.block) <= gen.next <= End(gen.block) && gen.end <= End(gen.block)
    && gen.block <= MAX_BLOCK && gen.block in s.owner && s.owner[gen.block] == g && gen.block < s.given
  }

  /** A caller in the rotation holds the flag; its new block is its own and later than the one in use. */
  ghost predicate CallInv(s: State, c: Caller, call: Call) {
    && call.gen in s.gens
    && var gen := s.gens[call.gen];
    && (call.Rotating? || call.GotBlock? || call.StoredNext? || call.StoredEnd? ==> gen.rotating == Some(c))
    && match call
       case HasBoth(_, _, e) => e <= End(gen.block)
       case GotBlock(g, b) => gen.block < b <= MAX_BLOCK && b < s.given && b in s.owner && s.owner[b] == g
       case StoredNext(_, b) => b == gen.block
       case _ => true
  }

  /** An issued id is below the generator's next one and in a block the generator owns. */
  ghost predicate IssuedInv(s: State, i: nat)
    requires i < |s.issued|
  {
    var (g, v) := s.issued[i];
    && g in s.gens && v < s.gens[g].next && 1 <= v < DYNAMIC_LIMIT
    && v / BLOCK_SIZE in s.owner && s.owner[v / BLOCK_SIZE] == g
  }

  ghost predicate Inv(s: State) {
    && (forall g :: g in s.gens ==> GenInv(s, g))
    && (forall c :: c in s.calls ==> CallInv(s, c, s.calls[c]))
    && (forall i :: 0 <= i < |s.issued| ==> IssuedInv(s, i))
    && (forall i, j :: 0 <= i < j < |s.issued| ==> s.issued[i].1 != s.issued[j].1)
    && (forall b :: b in s.owner ==> b < s.given)
  }

  lemma BlockOf(v: nat, block: nat)
    requires Start(block) <= v < End(block)
    ensures v / BLOCK_SIZE == block && v >= 1 && (block <= MAX_BLOCK ==> v < DYNAMIC_LIMIT)
  {}

  /** Later blocks start where earlier ones have ended. */
  lemma LaterBlock(a: nat, b: nat)
    requires a < b
    ensures End(a) <= Start(b) <= End(b)
  {}

  // ---- Steps ----

  /** A step that changes only where a call is. */
  lemma {:induction false} PlaceKeeps(s: State, c: Caller, call: Call)
    requires Inv(s) && CallInv(s, c, call)
    ensures Inv(Put(s, c, call))
  {
    var t := Put(s, c, call);
    forall g | g in t.gens ensures GenInv(t, g) { assert GenInv(s, g); }
    forall d | d in t.calls ensures CallInv(t, d, t.calls[d]) { if d != c { assert CallInv(s, d, s.calls[d]); } }
    forall i | 0 <= i < |t.issued| ensures IssuedInv(t, i) { assert IssuedInv(s, i); }
  }

  lemma {:induction false} DoneKeeps(s: State, c: Caller)
    requires Inv(s)
    ensures Inv(Done(s, c))
  {
    var t := Done(s, c);
    forall g | g in t.gens ensures GenInv(t, g) { assert GenInv(s, g); }
    forall d | d in t.calls ensures CallInv(t, d, t.calls[d]) { assert CallInv(s, d, s.calls[d]); }
    forall i | 0 <= i < |t.issued| ensures IssuedInv(t, i) { assert IssuedInv(s, i); }
  }

  /** Changing one generator within its rules: next does not go back and the block does not shrink. */
  ghost predicate Forward(gen: Generator, after: Generator) {
    gen.next <= after.next && gen.block <= after.block
  }

  /** One call and its generator move together. */
  lemma {:induction false} MoveKeeps(s: State, c: Caller, call: Call, g: Gen, after: Generator)
    requires Inv(s) && g in s.gens && Forward(s.gens[g], after)
    requires var t := SetGen(Put(s, c, call), g, after);
             && GenInv(t, g) && CallInv(t, c, call)
             && forall d :: d in s.calls && d != c && s.calls[d].gen == g ==> CallInv(t, d, s.calls[d])
    ensures Inv(SetGen(Put(s, c, call), g, after))
  {
    var t := SetGen(Put(s, c, call), g, after);
    forall h | h in t.gens ensures GenInv(t, h) { if h != g { assert GenInv(s, h); } }
    forall d | d in t.calls ensures CallInv(t, d, t.calls[d]) {
      if d != c && s.calls[d].gen != g { assert CallInv(s, d, s.calls[d]); }
    }
    forall i | 0 <= i < |t.issued| ensures IssuedInv(t, i) { assert IssuedInv(s, i); }
  }

  /** Everyone else's call is unaffected when only the flag holder rotates. */
  lemma {:induction false} OthersKeep(s: State, c: Caller, call: Call, g: Gen, after: Generator, d: Caller)
    requires Inv(s) && g in s.gens && d in s.calls && d != c && s.calls[d].gen == g && s.gens[g].block <= after.block
    requires s.gens[g].rotating == Some(c) || s.gens[g].rotating == None
    ensures CallInv(SetGen(Put(s, c, call), g, after), d, s.calls[d])
  {}

  lemma {:induction false} FlagKeeps(s: State, c: Caller, call: Call, g: Gen, rotating: Option<Caller>)
    requires Inv(s) && g in s.gens && call.gen == g && (s.gens[g].rotating == Some(c) || s.gens[g].rotating == None)
    requires (call.Rotating? && rotating == Some(c)) || (call.Ready? && rotating == None)
    ensures Inv(SetGen(Put(s, c, call), g, s.gens[g].(rotating := rotating)))
  {
    assert GenInv(s, g);
    forall d | d in s.calls && d != c && s.calls[d].gen == g
      ensures CallInv(SetGen(Put(s, c, call), g, s.gens[g].(rotating := rotating)), d, s.calls[d])
    {
      OthersKeep(s, c, call, g, s.gens[g].(rotating := rotating), d);
    }
    MoveKeeps(s, c, call, g, s.gens[g].(rotating := rotating));
  }

  lemma {:induction false} StoreNextKeeps(s: State, c: Caller, g: Gen, b: nat)
    requires Inv(s) && c in s.calls && s.calls[c] == GotBlock(g, b)
    ensures g in s.gens && Inv(SetGen(Put(s, c, StoredNext(g, b)), g, s.gens[g].(next := Start(b), block := b)))
  {
    assert CallInv(s, c, s.calls[c]) && GenInv(s, g);
    var after := s.gens[g].(next := Start(b), block := b);
    LaterBlock(s.gens[g].block, b);
    forall d | d in s.calls && d != c && s.calls[d].gen == g
      ensures CallInv(SetGen(Put(s, c, StoredNext(g, b)), g, after), d, s.calls[d])
    {
      OthersKeep(s, c, StoredNext(g, b), g, after, d);
    }
    MoveKeeps(s, c, StoredNext(g, b), g, after);
  }

  lemma {:induction false} StoreEndKeeps(s: State, c: Caller, g: Gen, b: nat)
    requires Inv(s) && c in s.calls && s.calls[c] == StoredNext(g, b)
    ensures g in s.gens && Inv(SetGen(Put(s, c, StoredEnd(g)), g, s.gens[g].(end := End(b))))
  {
    assert CallInv(s, c, s.calls[c]) && GenInv(s, g);
    var after := s.gens[g].(end := End(b));
    forall d | d in s.calls && d != c && s.calls[d].gen == g
      ensures CallInv(SetGen(Put(s, c, StoredEnd(g)), g, after), d, s.calls[d])
    {
      OthersKeep(s, c, StoredEnd(g), g, after, d);
    }
    MoveKeeps(s, c, StoredEnd(g), g, after);
  }

  /** A block nobody has had goes to a generator. */
  lemma {:induction false} GiveKeeps(s: State, block: nat, g: Gen)
    requires Inv(s) && block >= s.given
    ensures Inv(s.(given := block + 1, owner := s.owner[block := g]))
  {
    var t := s.(given := block + 1, owner := s.owner[block := g]);
    forall h | h in t.gens ensures GenInv(t, h) { assert GenInv(s, h); }
    forall d | d in t.calls ensures CallInv(t, d, t.calls[d]) { assert CallInv(s, d, s.calls[d]); }
    forall i | 0 <= i < |t.issued| ensures IssuedInv(t, i) { assert IssuedInv(s, i); }
  }

  /** The flag is given back together with the call. */
  lemma {:induction false} QuitKeeps(s: State, c: Caller, g: Gen)
    requires Inv(s) && c in s.calls && s.calls[c] == Rotating(g)
    ensures g in s.gens && Inv(SetGen(Done(s, c), g, s.gens[g].(rotating := None)))
  {
    assert CallInv(s, c, s.calls[c]);
    FlagKeeps(s, c, Ready(g), g, None);
    DoneKeeps(SetGen(Put(s, c, Ready(g)), g, s.gens[g].(rotating := None)), c);
    assert s.calls[c := Ready(g)] - {c} == s.calls - {c};
  }

  lemma {:induction false} AcquireKeeps(s: State, c: Caller, g: Gen, block: nat, fails: bool)
    requires Inv(s) && c in s.calls && s.calls[c] == Rotating(g) && g in s.gens
    ensures Inv(AcquireStep(s, c, Rotating(g), s.gens[g], block, fails))
  {
    assert CallInv(s, c, s.calls[c]) && GenInv(s, g);
    if block >= s.given {
      if fails { QuitKeeps(s, c, g); }
      else {
        var t := s.(given := block + 1, owner := s.owner[block := g]);
        GiveKeeps(s, block, g);
        if block > MAX_BLOCK { QuitKeeps(t, c, g); } else { PlaceKeeps(t, c, GotBlock(g, block)); }
      }
    }
  }

  // ---- Issuing ----

  function Issue(s: State, c: Caller, g: Gen): State
    requires g in s.gens
  {
    SetGen(Done(s, c), g, s.gens[g].(next := s.gens[g].next + 1)).(issued := s.issued + [(g, s.gens[g].next)])
  }

  /** The id about to be issued has not been issued before, by this generator or another. */
  lemma {:induction false} NextIsNew(s: State, g: Gen, i: nat)
    requires Inv(s) && g in s.gens && s.gens[g].next < End(s.gens[g].block) && i < |s.issued|
    ensures s.issued[i].1 != s.gens[g].next
  {
    assert GenInv(s, g) && IssuedInv(s, i);
    BlockOf(s.gens[g].next, s.gens[g].block);
  }

  lemma {:induction false} IssueIssued(s: State, c: Caller, g: Gen)
    requires Inv(s) && g in s.gens && s.gens[g].next < End(s.gens[g].block)
    ensures forall i :: 0 <= i <= |s.issued| ==> IssuedInv(Issue(s, c, g), i)
  {
    var t := Issue(s, c, g);
    assert GenInv(s, g);
    BlockOf(s.gens[g].next, s.gens[g].block);
    forall i | 0 <= i <= |s.issued| ensures IssuedInv(t, i) {
      if i < |s.issued| { assert IssuedInv(s, i); }
    }
  }

  lemma {:induction false} IssueKeeps(s: State, c: Caller, g: Gen)
    requires Inv(s) && g in s.gens && s.gens[g].next < End(s.gens[g].block)
    ensures Inv(Issue(s, c, g))
  {
    var t := Issue(s, c, g);
    forall h | h in t.gens ensures GenInv(t, h) { assert GenInv(s, h); }
    forall d | d in t.calls ensures CallInv(t, d, t.calls[d]) { assert CallInv(s, d, s.calls[d]); }
    IssueIssued(s, c, g);
    forall i, j | 0 <= i < j < |t.issued| ensures t.issued[i].1 != t.issued[j].1 {
      if j == |s.issued| { NextIsNew(s, g, i); }
    }
  }

  // ---- Every run ----

  lemma {:induction false} SwapKeeps(s: State, c: Caller)
    requires Inv(s) && c in s.calls && s.calls[c].HasBoth? && s.calls[c].gen in s.gens
    ensures Inv(SwapStep(s, c, s.calls[c], s.gens[s.calls[c].gen]))
  {
    var call := s.calls[c];
    assert CallInv(s, c, call);
    if call.next >= call.end { PlaceKeeps(s, c, Exhausted(call.gen)); }
    else if s.gens[call.gen].next != call.next { PlaceKeeps(s, c, Ready(call.gen)); }
    else { IssueKeeps(s, c, call.gen); }
  }

  lemma {:induction false} CallKeeps(s: State, a: Action, c: Caller)
    requires Inv(s) && c in s.calls && s.calls[c].gen in s.gens
    ensures Inv(CallStep(s, a, c, s.calls[c], s.gens[s.calls[c].gen]))
  {
    var call := s.calls[c];
    var gen := s.gens[call.gen];
    assert CallInv(s, c, call) && GenInv(s, call.gen);
    match call
    case Ready(g) => PlaceKeeps(s, c, HasNext(g, gen.next));
    case HasNext(g, n) => PlaceKeeps(s, c, HasBoth(g, n, gen.end));
    case HasBoth(_, _, _) => SwapKeeps(s, c);
    case Exhausted(g) =>
      if gen.rotating.None? { FlagKeeps(s, c, Rotating(g), g, Some(c)); }
      PlaceKeeps(s, c, Ready(g));
    case Rotating(g) => if a.Acquire? { AcquireKeeps(s, c, g, a.block, a.fails); }
    case GotBlock(g, b) => StoreNextKeeps(s, c, g, b);
    case StoredNext(g, b) => StoreEndKeeps(s, c, g, b);
    case StoredEnd(g) => FlagKeeps(s, c, Ready(g), g, None);
  }

  lemma {:induction false} NewGenKeeps(s: State, g: Gen, block: nat)
    requires Inv(s)
    ensures Inv(NewGenStep(s, g, block))
  {
    if g !in s.gens && block >= s.given && block <= MAX_BLOCK {
      GiveKeeps(s, block, g);
      var m := s.(given := block + 1, owner := s.owner[block := g]);
      var t := NewGenStep(s, g, block);
      forall h | h in t.gens ensures GenInv(t, h) { if h != g { assert GenInv(m, h); } }
      forall d | d in t.calls ensures CallInv(t, d, t.calls[d]) { assert CallInv(m, d, m.calls[d]); }
      forall i | 0 <= i < |t.issued| ensures IssuedInv(t, i) { assert IssuedInv(m, i); }
    }
  }

  lemma {:induction false} StepKeeps(s: State, a: Action)
    requires Inv(s)
    ensures Inv(Step(s, a))
  {
    match a
    case NewGenerator(g, b) => NewGenKeeps(s, g, b);
    case Generate(c, g) => if c !in s.calls && g in s.gens { PlaceKeeps(s, c, Ready(g)); }
    case _ => if a.call in s.calls && s.calls[a.call].gen in s.gens { CallKeeps(s, a, a.call); }
  }

  lemma {:induction false} RunKeeps(acts: seq<Action>)
    ensures Inv(Run(acts))
  {
    if acts != [] {
      RunKeeps(acts[..|acts| - 1]);
      StepKeeps(Run(acts[..|acts| - 1]), acts[|acts| - 1]);
    }
  }

  /** No two calls of Generate ever return the same id, and every id lies in 1..2^51-1. */
  lemma {:induction false} IdsAreUnique(acts: seq<Action>)
    ensures var ids := Run(acts).issued;
            && (forall i, j :: 0 <= i < j < |ids| ==> ids[i].1 != ids[j].1)
            && (forall i :: 0 <= i < |ids| ==> 1 <= ids[i].1 < DYNAMIC_LIMIT)
  {
    RunKeeps(acts);
    var s := Run(acts);
    forall i | 0 <= i < |s.issued| ensures 1 <= s.issued[i].1 < DYNAMIC_LIMIT { assert IssuedInv(s, i); }
  }
}
