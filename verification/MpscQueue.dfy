/**
 * The bounded multi-producer single-consumer ring, one atomic step at a time. A producer claims a ticket by moving the
 * head, writes the ticket's slot and publishes it through the slot's sequence number; the consumer takes published
 * slots in ticket order and hands each back for the ticket one lap later.
 */
module MpscQueue {
  import opened Common
  import opened Arithmetic

  type Id = nat
  type Value = int

  datatype Cell = Cell(sequence: nat, value: Value)

  /** Where a push is: about to read the head, having read it, having read the slot, owning it, having written it. */
  datatype Producer =
    | Retrying(value: Value)
    | Loaded(ticket: nat, value: Value)
    | Seen(ticket: nat, sequence: nat, value: Value)
    | Claimed(ticket: nat, value: Value)
    | Written(ticket: nat, value: Value)

  datatype Consumer =
    | Resting
    | Looking(ticket: nat)
    | Found(ticket: nat, sequence: nat)
    | Taking(ticket: nat)
    | Holding(ticket: nat, value: Value)
    | Cleared(ticket: nat, value: Value)

  /**
   * claimed records the value of each ticket in order, published the tickets whose push has returned true, and popped
   * the values returned by pops.
   */
  datatype State = State(
    head: nat,
    tail: nat,
    cells: seq<Cell>,
    producers: map<Id, Producer>,
    consumer: Consumer,
    claimed: seq<Value>,
    published: set<nat>,
    popped: seq<Value>)

  datatype Action =
    | Begin(id: Id, value: Value)
    | LoadHead(id: Id)
    | LoadSequence(id: Id)
    | Swap(id: Id)
    | WriteValue(id: Id)
    | StoreSequence(id: Id)
    | PopBegin
    | PopLook
    | PopTake
    | PopRead
    | PopClear
    | PopRelease

  function InitialCells(n: nat): (cells: seq<Cell>)
    ensures |cells| == n && forall i :: 0 <= i < n ==> cells[i] == Cell(i, 0)
  {
    if n == 0 then [] else InitialCells(n - 1) + [Cell(n - 1, 0)]
  }

  function Initial(cap: nat): State {
    State(0, 0, InitialCells(cap), map[], Resting, [], {}, [])
  }

  function Put(s: State, id: Id, p: Producer): State {
    s.(producers := s.producers[id := p])
  }

  function Done(s: State, id: Id): State {
    s.(producers := s.producers - {id})
  }

  function At(s: State, ticket: nat): nat
    requires s.cells != []
    ensures At(s, ticket) < |s.cells|
  {
    ticket % |s.cells|
  }

  /** One step of a push; a sequence behind the ticket means full, one ahead or a lost race means retry. */
  function PushStep(s: State, a: Action, id: Id, p: Producer): State
    requires s.cells != []
  {
    match p
    case Retrying(v) => if a.LoadHead? then Put(s, id, Loaded(s.head, v)) else s
    case Loaded(h, v) => if a.LoadSequence? then Put(s, id, Seen(h, s.cells[At(s, h)].sequence, v)) else s
    case Seen(h, q, v) =>
      if !a.Swap? then s
      else if q < h then Done(s, id)
      else if q == h && s.head == h then Put(s, id, Claimed(h, v)).(head := h + 1, claimed := s.claimed + [v])
      else Put(s, id, Retrying(v))
    case Claimed(h, v) =>
      if !a.WriteValue? then s
      else Put(s, id, Written(h, v)).(cells := s.cells[At(s, h) := s.cells[At(s, h)].(value := v)])
    case Written(h, v) =>
      if !a.StoreSequence? then s
      else
        Done(s, id).(cells := s.cells[At(s, h) := s.cells[At(s, h)].(sequence := h + 1)], published := s.published + {h})
  }

  /** One step of a pop by the only consumer. */
  function PopStep(s: State, a: Action): State
    requires s.cells != []
  {
    match s.consumer
    case Resting => if a.PopBegin? then s.(consumer := Looking(s.tail)) else s
    case Looking(t) => if a.PopLook? then s.(consumer := Found(t, s.cells[At(s, t)].sequence)) else s
    case Found(t, q) =>
      if !a.PopTake? then s
      else if q == t + 1 then s.(consumer := Taking(t), tail := t + 1)
      else s.(consumer := Resting)
    case Taking(t) => if a.PopRead? then s.(consumer := Holding(t, s.cells[At(s, t)].value)) else s
    case Holding(t, v) =>
      if a.PopClear? then s.(consumer := Cleared(t, v), cells := s.cells[At(s, t) := s.cells[At(s, t)].(value := 0)]) else s
    case Cleared(t, v) =>
      if !a.PopRelease? then s
      else
        s.(consumer := Resting, popped := s.popped + [v],
           cells := s.cells[At(s, t) := s.cells[At(s, t)].(sequence := t + |s.cells|)])
  }

  function Step(s: State, a: Action): State {
    if s.cells == [] then s
    else
      match a
      case Begin(id, v) => if id in s.producers then s else Put(s, id, Retrying(v))
      case PopBegin => PopStep(s, a)
      case PopLook => PopStep(s, a)
      case PopTake => PopStep(s, a)
      case PopRead => PopStep(s, a)
      case PopClear => PopStep(s, a)
      case PopRelease => PopStep(s, a)
      case _ => if a.id in s.producers then PushStep(s, a, a.id, s.producers[a.id]) else s
  }

  function Run(cap: nat, acts: seq<Action>): State {
    if acts == [] then Initial(cap) else Step(Run(cap, acts[..|acts| - 1]), acts[|acts| - 1])
  }

  // ---- Tickets and slots ----

  lemma {:induction false} SameRow(a: nat, b: nat, cap: nat, x: nat, y: nat, r: nat)
    requires a == x * cap + r && b == y * cap + r && a < b + cap && b < a + cap
    ensures a == b
  {
    MulOrder(x, y, cap);
    MulOrder(y, x, cap);
  }

  /** Within one lap, different tickets have different slots. */
  lemma {:induction false} SameSlot(a: nat, b: nat, cap: nat)
    requires cap > 0 && a % cap == b % cap && a < b + cap && b < a + cap
    ensures a == b
  {
    SameRow(a, b, cap, a / cap, b / cap, a % cap);
  }

  lemma {:induction false} NextLap(a: nat, cap: nat)
    requires cap > 0
    ensures (a + cap) % cap == a % cap
  {
    DivStep(a, cap);
  }

  // ---- The invariant ----

  /** The number of slots handed back. */
  function Released(s: State): nat { |s.popped| }

  /** The sequence number a ticket's slot carries while the ticket is in the current lap. */
  ghost predicate CellInv(s: State, t: nat)
    requires s.cells != []
  {
    s.cells[At(s, t)].sequence == if t in s.published then t + 1 else t
  }

  ghost predicate LapInv(s: State) {
    && |s.cells| >= 2 && |s.claimed| == s.head && Released(s) <= s.head <= Released(s) + |s.cells|
    && (forall t :: Released(s) <= t < Released(s) + |s.cells| ==> CellInv(s, t))
    && (forall t :: t in s.published ==> t < s.head)
    && (forall t :: 0 <= t < Released(s) ==> t in s.published)
  }

  /** The slot of a published ticket that the consumer has not cleared holds its value. */
  ghost predicate ValueInv(s: State)
    requires |s.cells| >= 2 && Released(s) <= |s.claimed| == s.head
  {
    && (forall t :: t in s.published && Released(s) <= t < s.head && !(s.consumer.Cleared? && s.consumer.ticket == t) ==>
          s.cells[At(s, t)].value == s.claimed[t])
    && s.popped == s.claimed[..Released(s)]
  }

  ghost predicate ConsumerInv(s: State)
    requires |s.cells| >= 2 && |s.claimed| == s.head && Released(s) <= s.head
  {
    match s.consumer
    case Resting => s.tail == Released(s)
    case Looking(t) => t == s.tail == Released(s)
    case Found(t, q) => t == s.tail == Released(s) && (q == t + 1 ==> t in s.published)
    case Taking(t) => t == Released(s) && s.tail == t + 1 && t in s.published
    case Holding(t, v) => t == Released(s) && s.tail == t + 1 && t in s.published && t < s.head && v == s.claimed[t]
    case Cleared(t, v) => t == Released(s) && s.tail == t + 1 && t in s.published && t < s.head && v == s.claimed[t]
  }

  /** Owning a slot: between winning the ticket and publishing it. */
  predicate Owns(p: Producer) { p.Claimed? || p.Written? }

  ghost predicate ProducerInv(s: State, p: Producer)
    requires |s.cells| >= 2 && |s.claimed| == s.head
  {
    match p
    case Retrying(_) => true
    case Loaded(h, _) => h <= s.head
    case Seen(h, q, _) => h <= s.head && q <= s.cells[At(s, h)].sequence
    case Claimed(h, v) => Released(s) <= h < s.head && h !in s.published && s.claimed[h] == v
    case Written(h, v) => Released(s) <= h < s.head && h !in s.published && s.claimed[h] == v && s.cells[At(s, h)].value == v
  }

  ghost predicate ProducersInv(s: State)
    requires |s.cells| >= 2 && |s.claimed| == s.head
  {
    && (forall id :: id in s.producers ==> ProducerInv(s, s.producers[id]))
    && (forall i, j :: i in s.producers && j in s.producers && i != j && Owns(s.producers[i]) && Owns(s.producers[j]) ==>
          s.producers[i].ticket != s.producers[j].ticket)
  }

  ghost predicate Inv(s: State) {
    LapInv(s) && ValueInv(s) && ConsumerInv(s) && ProducersInv(s)
  }

  /** A ticket of the current lap. */
  predicate InLap(s: State, t: nat) {
    Released(s) <= t < Released(s) + |s.cells|
  }

  lemma {:induction false} OtherSlot(s: State, t: nat, u: nat)
    requires |s.cells| >= 2 && InLap(s, t) && InLap(s, u) && t != u
    ensures At(s, t) != At(s, u)
  {
    if At(s, t) == At(s, u) { SameSlot(t, u, |s.cells|); }
  }

  // ---- Steps of a push ----

  lemma {:induction false} SameQueue(s: State, t: State)
    requires LapInv(s) && ValueInv(s) && ConsumerInv(s) && t == s.(producers := t.producers)
    ensures LapInv(t) && ValueInv(t) && ConsumerInv(t)
  {
    forall u | InLap(s, u) ensures CellInv(t, u) { assert CellInv(s, u); }
  }

  /** A step that changes only where one producer is, which owns nothing new. */
  lemma {:induction false} PlaceKeeps(s: State, id: Id, p: Producer)
    requires Inv(s) && ProducerInv(s, p) && !Owns(p)
    ensures Inv(Put(s, id, p))
  {
    var t := Put(s, id, p);
    SameQueue(s, t);
    forall k | k in t.producers ensures ProducerInv(t, t.producers[k]) {
      if k != id { assert ProducerInv(s, s.producers[k]); }
    }
  }

  lemma {:induction false} DoneKeeps(s: State, id: Id)
    requires Inv(s)
    ensures Inv(Done(s, id))
  {
    var t := Done(s, id);
    SameQueue(s, t);
    forall k | k in t.producers ensures ProducerInv(t, t.producers[k]) { assert ProducerInv(s, s.producers[k]); }
  }

  /** A slot whose sequence was seen at the head's ticket is free: the ring is not full. */
  lemma {:induction false} SwapHasRoom(s: State, q: nat)
    requires LapInv(s) && s.head <= q <= s.cells[At(s, s.head)].sequence
    ensures s.head < Released(s) + |s.cells|
  {
    assert CellInv(s, Released(s));
    NextLap(Released(s), |s.cells|);
  }

  function Claim(s: State, id: Id, v: Value): State {
    Put(s, id, Claimed(s.head, v)).(head := s.head + 1, claimed := s.claimed + [v])
  }

  lemma {:induction false} ClaimLap(s: State, id: Id, v: Value)
    requires LapInv(s) && s.head < Released(s) + |s.cells|
    ensures LapInv(Claim(s, id, v))
  {
    var t := Claim(s, id, v);
    forall u | InLap(t, u) ensures CellInv(t, u) { assert CellInv(s, u); }
  }

  lemma {:induction false} ClaimProducers(s: State, id: Id, v: Value)
    requires LapInv(s) && ProducersInv(s) && s.head < Released(s) + |s.cells|
    ensures ProducersInv(Claim(s, id, v))
  {
    var t := Claim(s, id, v);
    forall k | k in t.producers ensures ProducerInv(t, t.producers[k]) {
      if k != id { assert ProducerInv(s, s.producers[k]); }
    }
    forall i, j | i in t.producers && j in t.producers && i != j && Owns(t.producers[i]) && Owns(t.producers[j])
      ensures t.producers[i].ticket != t.producers[j].ticket
    {
      if i != id { assert ProducerInv(s, s.producers[i]); }
      if j != id { assert ProducerInv(s, s.producers[j]); }
    }
  }

  lemma {:induction false} ClaimKeeps(s: State, id: Id, v: Value)
    requires Inv(s) && s.head < Released(s) + |s.cells|
    ensures Inv(Claim(s, id, v))
  {
    ClaimLap(s, id, v);
    ClaimProducers(s, id, v);
    var t := Claim(s, id, v);
    assert t.claimed[..Released(s)] == s.claimed[..Released(s)];
    assert ValueInv(t) && ConsumerInv(t);
  }

  /** Another party's cell is untouched by a change to ticket h's cell. */
  lemma {:induction false} ElsewhereSame(s: State, h: nat, cell: Cell, u: nat)
    requires |s.cells| >= 2 && InLap(s, h) && InLap(s, u) && u != h
    ensures s.cells[At(s, h) := cell][At(s, u)] == s.cells[At(s, u)]
  {
    OtherSlot(s, h, u);
  }

  function Fill(s: State, id: Id, h: nat, v: Value): State
    requires s.cells != []
  {
    Put(s, id, Written(h, v)).(cells := s.cells[At(s, h) := s.cells[At(s, h)].(value := v)])
  }

  lemma {:induction false} FillLap(s: State, id: Id, h: nat, v: Value)
    requires LapInv(s) && ValueInv(s) && InLap(s, h) && h !in s.published
    ensures LapInv(Fill(s, id, h, v)) && ValueInv(Fill(s, id, h, v))
  {
    var t := Fill(s, id, h, v);
    forall u | InLap(s, u) ensures CellInv(t, u) { assert CellInv(s, u); }
    forall u | u in t.published && Released(t) <= u < t.head && !(t.consumer.Cleared? && t.consumer.ticket == u)
      ensures t.cells[At(t, u)].value == t.claimed[u]
    {
      ElsewhereSame(s, h, s.cells[At(s, h)].(value := v), u);
    }
  }

  lemma {:induction false} FillProducers(s: State, id: Id, h: nat, v: Value)
    requires LapInv(s) && ProducersInv(s) && id in s.producers && s.producers[id] == Claimed(h, v)
    ensures ProducersInv(Fill(s, id, h, v))
  {
    var t := Fill(s, id, h, v);
    assert ProducerInv(s, s.producers[id]);
    forall k | k in t.producers ensures ProducerInv(t, t.producers[k]) {
      if k != id {
        assert ProducerInv(s, s.producers[k]);
        if s.producers[k].Written? { ElsewhereSame(s, h, s.cells[At(s, h)].(value := v), s.producers[k].ticket); }
      }
    }
  }

  function Publish(s: State, id: Id, h: nat): State
    requires s.cells != []
  {
    Done(s, id).(cells := s.cells[At(s, h) := s.cells[At(s, h)].(sequence := h + 1)], published := s.published + {h})
  }

  lemma {:induction false} PublishLap(s: State, id: Id, h: nat)
    requires LapInv(s) && ValueInv(s) && InLap(s, h) && h < s.head && s.cells[At(s, h)].value == s.claimed[h]
    ensures LapInv(Publish(s, id, h)) && ValueInv(Publish(s, id, h))
  {
    var t := Publish(s, id, h);
    var cell := s.cells[At(s, h)].(sequence := h + 1);
    forall u | InLap(s, u) ensures CellInv(t, u) {
      assert CellInv(s, u);
      if u != h { ElsewhereSame(s, h, cell, u); }
    }
    forall u | u in t.published && Released(t) <= u < t.head && !(t.consumer.Cleared? && t.consumer.ticket == u)
      ensures t.cells[At(t, u)].value == t.claimed[u]
    {
      if u != h { ElsewhereSame(s, h, cell, u); }
    }
  }

  lemma {:induction false} PublishProducers(s: State, id: Id, h: nat, v: Value)
    requires LapInv(s) && ProducersInv(s) && id in s.producers && s.producers[id] == Written(h, v)
    ensures ProducersInv(Publish(s, id, h))
  {
    var t := Publish(s, id, h);
    assert ProducerInv(s, s.producers[id]) && CellInv(s, h);
    forall k | k in t.producers ensures ProducerInv(t, t.producers[k]) {
      assert ProducerInv(s, s.producers[k]);
    }
  }

  lemma {:induction false} PushKeeps(s: State, a: Action, id: Id)
    requires Inv(s) && id in s.producers
    ensures Inv(PushStep(s, a, id, s.producers[id]))
  {
    var p := s.producers[id];
    assert ProducerInv(s, p);
    match p
    case Retrying(v) => if a.LoadHead? { PlaceKeeps(s, id, Loaded(s.head, v)); }
    case Loaded(h, v) => if a.LoadSequence? { PlaceKeeps(s, id, Seen(h, s.cells[At(s, h)].sequence, v)); }
    case Seen(h, q, v) =>
      if a.Swap? {
        if q < h { DoneKeeps(s, id); }
        else if q == h && s.head == h { SwapHasRoom(s, q); ClaimKeeps(s, id, v); }
        else { PlaceKeeps(s, id, Retrying(v)); }
      }
    case Claimed(h, v) => if a.WriteValue? { FillLap(s, id, h, v); FillProducers(s, id, h, v); }
    case Written(h, v) => if a.StoreSequence? { PublishLap(s, id, h); PublishProducers(s, id, h, v); }
  }

  // ---- Steps of a pop ----

  lemma {:induction false} WatchKeeps(s: State, c: Consumer, tail: nat)
    requires Inv(s) && ConsumerInv(s.(consumer := c, tail := tail)) && !s.consumer.Cleared? && !c.Cleared?
    ensures Inv(s.(consumer := c, tail := tail))
  {
    var t := s.(consumer := c, tail := tail);
    forall u | InLap(s, u) ensures CellInv(t, u) { assert CellInv(s, u); }
    forall k | k in t.producers ensures ProducerInv(t, t.producers[k]) { assert ProducerInv(s, s.producers[k]); }
  }

  function Clear(s: State, t: nat, v: Value): State
    requires s.cells != []
  {
    s.(consumer := Cleared(t, v), cells := s.cells[At(s, t) := s.cells[At(s, t)].(value := 0)])
  }

  lemma {:induction false} ClearLap(s: State, t: nat, v: Value)
    requires LapInv(s) && ValueInv(s) && s.consumer == Holding(t, v) && t == Released(s)
    ensures LapInv(Clear(s, t, v)) && ValueInv(Clear(s, t, v))
  {
    var n := Clear(s, t, v);
    forall u | InLap(s, u) ensures CellInv(n, u) { assert CellInv(s, u); }
    forall u | u in n.published && Released(n) <= u < n.head && u != t ensures n.cells[At(n, u)].value == n.claimed[u] {
      ElsewhereSame(s, t, s.cells[At(s, t)].(value := 0), u);
    }
  }

  lemma {:induction false} ClearProducers(s: State, t: nat, v: Value)
    requires LapInv(s) && ProducersInv(s) && t == Released(s) && t in s.published
    ensures ProducersInv(Clear(s, t, v))
  {
    var n := Clear(s, t, v);
    forall k | k in n.producers ensures ProducerInv(n, n.producers[k]) {
      assert ProducerInv(s, s.producers[k]);
      if s.producers[k].Written? { ElsewhereSame(s, t, s.cells[At(s, t)].(value := 0), s.producers[k].ticket); }
    }
  }

  /** The slot is handed to the ticket one lap later. */
  function Release(s: State, t: nat, v: Value): State
    requires s.cells != []
  {
    s.(consumer := Resting, popped := s.popped + [v],
       cells := s.cells[At(s, t) := s.cells[At(s, t)].(sequence := t + |s.cells|)])
  }

  lemma {:induction false} ReleaseLap(s: State, t: nat, v: Value)
    requires LapInv(s) && t == Released(s) && t in s.published
    ensures LapInv(Release(s, t, v))
  {
    var n := Release(s, t, v);
    var cell := s.cells[At(s, t)].(sequence := t + |s.cells|);
    forall u | InLap(n, u) ensures CellInv(n, u) {
      if u == t + |s.cells| { NextLap(t, |s.cells|); }
      else { assert CellInv(s, u); ElsewhereSame(s, t, cell, u); }
    }
  }

  lemma {:induction false} ReleaseValues(s: State, t: nat, v: Value)
    requires LapInv(s) && ValueInv(s) && s.consumer == Cleared(t, v) && t == Released(s) < s.head && v == s.claimed[t]
    requires t in s.published
    ensures LapInv(Release(s, t, v)) && ValueInv(Release(s, t, v))
  {
    ReleaseLap(s, t, v);
    var n := Release(s, t, v);
    assert s.claimed[..t + 1] == s.claimed[..t] + [s.claimed[t]];
    forall u | u in n.published && Released(n) <= u < n.head ensures n.cells[At(n, u)].value == n.claimed[u] {
      ElsewhereSame(s, t, s.cells[At(s, t)].(sequence := t + |s.cells|), u);
    }
  }

  lemma {:induction false} ReleaseProducers(s: State, t: nat, v: Value)
    requires LapInv(s) && ProducersInv(s) && t == Released(s) && t in s.published
    ensures LapInv(Release(s, t, v)) && ProducersInv(Release(s, t, v))
  {
    ReleaseLap(s, t, v);
    var n := Release(s, t, v);
    assert CellInv(s, t);
    forall k | k in n.producers ensures ProducerInv(n, n.producers[k]) {
      assert ProducerInv(s, s.producers[k]);
      if s.producers[k].Written? {
        ElsewhereSame(s, t, s.cells[At(s, t)].(sequence := t + |s.cells|), s.producers[k].ticket);
      }
    }
  }

  lemma {:induction false} PopKeeps(s: State, a: Action)
    requires Inv(s)
    ensures Inv(PopStep(s, a))
  {
    match s.consumer
    case Resting => if a.PopBegin? { WatchKeeps(s, Looking(s.tail), s.tail); }
    case Looking(t) =>
      assert CellInv(s, t);
      if a.PopLook? { WatchKeeps(s, Found(t, s.cells[At(s, t)].sequence), s.tail); }
    case Found(t, q) =>
      if a.PopTake? { if q == t + 1 { WatchKeeps(s, Taking(t), t + 1); } else { WatchKeeps(s, Resting, s.tail); } }
    case Taking(t) => if a.PopRead? { WatchKeeps(s, Holding(t, s.cells[At(s, t)].value), s.tail); }
    case Holding(t, v) => if a.PopClear? { ClearLap(s, t, v); ClearProducers(s, t, v); }
    case Cleared(t, v) => if a.PopRelease? { ReleaseValues(s, t, v); ReleaseProducers(s, t, v); }
  }

  lemma {:induction false} StepKeeps(s: State, a: Action)
    requires Inv(s)
    ensures Inv(Step(s, a))
  {
    match a
    case Begin(id, v) => PlaceKeeps(s, id, Retrying(v));
    case LoadHead(id) => if id in s.producers { PushKeeps(s, a, id); }
    case LoadSequence(id) => if id in s.producers { PushKeeps(s, a, id); }
    case Swap(id) => if id in s.producers { PushKeeps(s, a, id); }
    case WriteValue(id) => if id in s.producers { PushKeeps(s, a, id); }
    case StoreSequence(id) => if id in s.producers { PushKeeps(s, a, id); }
    case _ => PopKeeps(s, a);
  }

  lemma {:induction false} InitialHolds(cap: nat)
    requires cap >= 2
    ensures Inv(Initial(cap))
  {
    var s := Initial(cap);
    forall t: nat | InLap(s, t) ensures CellInv(s, t) { assert t % cap == t; }
  }

  lemma {:induction false} StepSize(s: State, a: Action)
    ensures |Step(s, a).cells| == |s.cells|
  {}

  lemma {:induction false} RunKeeps(cap: nat, acts: seq<Action>)
    requires cap >= 2
    ensures Inv(Run(cap, acts)) && |Run(cap, acts).cells| == cap
  {
    if acts == [] { InitialHolds(cap); }
    else {
      RunKeeps(cap, acts[..|acts| - 1]);
      StepKeeps(Run(cap, acts[..|acts| - 1]), acts[|acts| - 1]);
      StepSize(Run(cap, acts[..|acts| - 1]), acts[|acts| - 1]);
    }
  }

  // ---- What every interleaving guarantees ----

  /** Pops return exactly the values of successful pushes, in ticket order and each once. */
  lemma {:induction false} PopsInTicketOrder(cap: nat, acts: seq<Action>)
    requires cap >= 2
    ensures var s := Run(cap, acts);
            && |s.popped| <= |s.claimed| && s.popped == s.claimed[..|s.popped|]
            && (forall t :: 0 <= t < |s.popped| ==> t in s.published)
            && (forall t :: t in s.published ==> t < |s.claimed|)
  {
    RunKeeps(cap, acts);
  }

  /** At most cap tickets are claimed and not handed back. */
  lemma {:induction false} AtMostCapOutstanding(cap: nat, acts: seq<Action>)
    requires cap >= 2
    ensures var s := Run(cap, acts); |s.popped| <= s.tail <= |s.popped| + 1 && s.tail <= s.head <= |s.popped| + cap
  {
    RunKeeps(cap, acts);
  }

  /** Two producers never own the same slot, and no producer owns the slot the consumer is emptying. */
  lemma {:induction false} SlotsExclusive(cap: nat, acts: seq<Action>, i: Id, j: Id)
    requires cap >= 2
    requires var s := Run(cap, acts); i in s.producers && Owns(s.producers[i])
    ensures var s := Run(cap, acts);
            && (j in s.producers && j != i && Owns(s.producers[j]) ==> s.producers[i].ticket % cap != s.producers[j].ticket % cap)
            && (s.consumer.Taking? || s.consumer.Holding? || s.consumer.Cleared? ==>
                  s.producers[i].ticket % cap != s.consumer.ticket % cap)
  {
    RunKeeps(cap, acts);
    var s := Run(cap, acts);
    assert ProducerInv(s, s.producers[i]);
    if j in s.producers && j != i && Owns(s.producers[j]) {
      assert ProducerInv(s, s.producers[j]);
      OtherSlot(s, s.producers[i].ticket, s.producers[j].ticket);
    }
    if s.consumer.Taking? || s.consumer.Holding? || s.consumer.Cleared? {
      OtherSlot(s, s.producers[i].ticket, s.consumer.ticket);
    }
  }

  /** A push gives up only on a ring that was full when it looked: cap tickets were outstanding. */
  lemma {:induction false} FullMeansFull(cap: nat, acts: seq<Action>, id: Id, h: nat)
    requires cap >= 2
    requires var s := Run(cap, acts); id in s.producers && s.producers[id].Loaded? && s.producers[id].ticket == h
    ensures var s := Run(cap, acts);
            s.cells != [] && (s.cells[At(s, h)].sequence < h ==> s.head == |s.popped| + cap && h == s.head)
  {
    RunKeeps(cap, acts);
    var s := Run(cap, acts);
    assert ProducerInv(s, s.producers[id]);
    if h < Released(s) { BehindIsAhead(s, h); }
    else if InLap(s, h) { assert CellInv(s, h); }
  }

  /** A slot whose ticket is over carries a later sequence number. */
  lemma {:induction false} BehindIsAhead(s: State, h: nat)
    requires LapInv(s) && h < Released(s)
    ensures s.cells[At(s, h)].sequence > h
    decreases Released(s) - h
  {
    NextLap(h, |s.cells|);
    if h + |s.cells| < Released(s) { BehindIsAhead(s, h + |s.cells|); } else { assert CellInv(s, h + |s.cells|); }
  }

  /** A pop gives up only when the next ticket has not been published. */
  lemma {:induction false} EmptyMeansUnpublished(cap: nat, acts: seq<Action>, t: nat)
    requires cap >= 2
    requires var s := Run(cap, acts); s.consumer == Looking(t)
    ensures var s := Run(cap, acts);
            s.cells != [] && t == |s.popped| && (s.cells[At(s, t)].sequence != t + 1 <==> t !in s.published)
  {
    RunKeeps(cap, acts);
    assert CellInv(Run(cap, acts), t);
  }
}
