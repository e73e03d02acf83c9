/** A transaction's undo log: the first overwrite of each location is recorded, and a rollback replays the log backwards. */
module UndoLog {
  import opened Common

  type Owner = nat
  type Field = nat

  /** One stored value: a scalar field has one cell, a collection field one for each key. */
  datatype Cell = Cell(owner: Owner, field: Field, token: int)

  /** What an undo record is for: a whole field, or one key of it. The two kinds overlap. */
  datatype Location = Whole(owner: Owner, field: Field) | Item(owner: Owner, field: Field, token: int)

  type Cells = map<Cell, int>

  /** The data and, for each owner, the fields marked dirty. */
  datatype Memory = Memory(cells: Cells, dirty: map<Owner, set<Field>>)

  datatype Action =
    | UndoWrite(location: Location, saved: Cells)
    | RestoreDirty(owner: Owner, fields: set<Field>)

  predicate Covers(l: Location, c: Cell) {
    c.owner == l.owner && c.field == l.field && (l.Whole? || c.token == l.token)
  }

  function Lookup(cells: Cells, c: Cell): Option<int> {
    if c in cells then Some(cells[c]) else None
  }

  /** The cells of a location take their values from the second map, absent ones included; the others stay. */
  function Overlay(cells: Cells, l: Location, from: Cells): Cells {
    map c | c in cells.Keys + from.Keys && (if Covers(l, c) then c in from else c in cells) ::
      if Covers(l, c) then from[c] else cells[c]
  }

  lemma OverlayAt(cells: Cells, l: Location, from: Cells, c: Cell)
    ensures Lookup(Overlay(cells, l, from), c) == if Covers(l, c) then Lookup(from, c) else Lookup(cells, c)
  {}

  function Marked(dirty: map<Owner, set<Field>>, l: Location): map<Owner, set<Field>> {
    dirty[l.owner := (if l.owner in dirty then dirty[l.owner] else {}) + {l.field}]
  }

  /** Undoing a write goes through the same setters, so it marks the field dirty again. */
  function Apply(a: Action, m: Memory): Memory {
    match a
    case UndoWrite(l, saved) => Memory(Overlay(m.cells, l, saved), Marked(m.dirty, l))
    case RestoreDirty(o, fields) => m.(dirty := m.dirty[o := fields])
  }

  /** The log from its end to its start. */
  function Replay(log: seq<Action>, m: Memory): Memory {
    if log == [] then m else Replay(log[..|log| - 1], Apply(log[|log| - 1], m))
  }

  // ---- Transactions as values ----

  datatype Status = Open | Committed | RolledBack

  datatype TxError = TransactionClosed

  datatype Tx = Tx(status: Status, rollbacks: seq<Action>, undoKeys: set<Location>, commits: seq<nat>)

  const NEW_TX := Tx(Open, [], {}, [])

  function DeferRollback(tx: Tx, a: Action): Tx {
    if tx.status != Open then tx else tx.(rollbacks := tx.rollbacks + [a])
  }

  function RecordUndo(tx: Tx, a: Action): (Tx, Option<TxError>)
    requires a.UndoWrite?
  {
    if tx.status != Open then (tx, Some(TransactionClosed))
    else if a.location in tx.undoKeys then (tx, None)
    else (tx.(rollbacks := tx.rollbacks + [a], undoKeys := tx.undoKeys + {a.location}), None)
  }

  function AfterCommit(tx: Tx, hook: nat): Tx {
    if tx.status != Open then tx else tx.(commits := tx.commits + [hook])
  }

  /** A second rollback does nothing; a committed transaction cannot be rolled back. */
  function Rollback(tx: Tx, m: Memory): (Tx, Memory, Option<TxError>) {
    if tx.status == RolledBack then (tx, m, None)
    else if tx.status != Open then (tx, m, Some(TransactionClosed))
    else (tx.(status := RolledBack, commits := []), Replay(tx.rollbacks, m), None)
  }

  /** Committing forgets the log and releases the hooks. */
  function Commit(tx: Tx): (Tx, seq<nat>) {
    if tx.status != Open then (tx, [])
    else (tx.(status := Committed, rollbacks := [], undoKeys := {}), tx.commits)
  }

  function Abandon(tx: Tx): Tx {
    if tx.status != Open then tx else tx.(status := Committed, rollbacks := [], undoKeys := {}, commits := [])
  }

  // ---- A transaction's life: capture the dirty marks, then write ----

  /** Each owner's dirty marks are put into the log before anything is written. */
  function Capture(tx: Tx, owners: seq<Owner>, m: Memory): Tx {
    if owners == [] then tx
    else
      var before := Capture(tx, owners[..|owners| - 1], m);
      var o := owners[|owners| - 1];
      if o in m.dirty then DeferRollback(before, RestoreDirty(o, m.dirty[o])) else before
  }

  /** A write gives a location any new content; its old content is recorded first. */
  datatype Write = Write(location: Location, content: Cells)

  /** The current content of a location. */
  function Saved(cells: Cells, l: Location): Cells {
    map c | c in cells && Covers(l, c) :: cells[c]
  }

  function WriteStep(tx: Tx, m: Memory, w: Write): (Tx, Memory) {
    (RecordUndo(tx, UndoWrite(w.location, Saved(m.cells, w.location))).0,
     Memory(Overlay(m.cells, w.location, w.content), Marked(m.dirty, w.location)))
  }

  function WriteAll(tx: Tx, m: Memory, writes: seq<Write>): (Tx, Memory) {
    if writes == [] then (tx, m)
    else
      var (before, memory) := WriteAll(tx, m, writes[..|writes| - 1]);
      WriteStep(before, memory, writes[|writes| - 1])
  }

  // ---- Replaying restores the data ----

  /** Some record of the log covers the cell. */
  ghost predicate Recorded(log: seq<Action>, c: Cell) {
    exists i :: 0 <= i < |log| && log[i].UndoWrite? && Covers(log[i].location, c)
  }

  /** A replay forgets what the memory holds in recorded cells. */
  lemma {:induction false} ReplayForgets(log: seq<Action>, m: Memory, n: Memory, c: Cell)
    requires Recorded(log, c) || Lookup(m.cells, c) == Lookup(n.cells, c)
    ensures Lookup(Replay(log, m).cells, c) == Lookup(Replay(log, n).cells, c)
  {
    if log != [] {
      var rest, a := log[..|log| - 1], log[|log| - 1];
      if a.UndoWrite? {
        OverlayAt(m.cells, a.location, a.saved, c);
        OverlayAt(n.cells, a.location, a.saved, c);
      }
      if Recorded(log, c) && !(a.UndoWrite? && Covers(a.location, c)) {
        var i :| 0 <= i < |log| && log[i].UndoWrite? && Covers(log[i].location, c);
        assert rest[i] == log[i];
      }
      ReplayForgets(rest, Apply(a, m), Apply(a, n), c);
    }
  }

  lemma ReplayLast(log: seq<Action>, a: Action, m: Memory)
    ensures Replay(log + [a], m) == Replay(log, Apply(a, m))
  {}

  /** Every recorded location has a record in the log. */
  ghost predicate KeysLogged(tx: Tx) {
    forall l :: l in tx.undoKeys ==> exists i :: 0 <= i < |tx.rollbacks| && tx.rollbacks[i].UndoWrite? && tx.rollbacks[i].location == l
  }

  /** Rolling back from here restores the cell to its value in the given data. */
  ghost predicate Restores(tx: Tx, m: Memory, start: Cells, c: Cell) {
    Lookup(Replay(tx.rollbacks, m).cells, c) == Lookup(start, c)
  }

  lemma {:induction false} WriteRestores(tx: Tx, m: Memory, w: Write, start: Cells, c: Cell)
    requires tx.status == Open && KeysLogged(tx) && Restores(tx, m, start, c)
    ensures var (next, memory) := WriteStep(tx, m, w);
            next.status == Open && KeysLogged(next) && Restores(next, memory, start, c)
  {
    var (next, memory) := WriteStep(tx, m, w);
    OverlayAt(m.cells, w.location, w.content, c);
    if w.location in tx.undoKeys {
      if Covers(w.location, c) {
        var i :| 0 <= i < |tx.rollbacks| && tx.rollbacks[i].UndoWrite? && tx.rollbacks[i].location == w.location;
        assert Recorded(tx.rollbacks, c);
      }
      ReplayForgets(tx.rollbacks, memory, m, c);
    } else {
      var undo := UndoWrite(w.location, Saved(m.cells, w.location));
      NewKeyLogged(tx, undo);
      ReplayLast(tx.rollbacks, undo, memory);
      OverlayAt(memory.cells, w.location, undo.saved, c);
      ReplayForgets(tx.rollbacks, Apply(undo, memory), m, c);
    }
  }

  lemma {:induction false} NewKeyLogged(tx: Tx, undo: Action)
    requires KeysLogged(tx) && undo.UndoWrite?
    ensures KeysLogged(tx.(rollbacks := tx.rollbacks + [undo], undoKeys := tx.undoKeys + {undo.location}))
  {
    var log := tx.rollbacks + [undo];
    forall l | l in tx.undoKeys + {undo.location}
      ensures exists i :: 0 <= i < |log| && log[i].UndoWrite? && log[i].location == l
    {
      if l == undo.location { assert log[|tx.rollbacks|] == undo; }
      else {
        var i :| 0 <= i < |tx.rollbacks| && tx.rollbacks[i].UndoWrite? && tx.rollbacks[i].location == l;
        assert log[i] == tx.rollbacks[i];
      }
    }
  }

  lemma {:induction false} WritesRestore(tx: Tx, m: Memory, writes: seq<Write>, start: Cells, c: Cell)
    requires tx.status == Open && KeysLogged(tx) && Restores(tx, m, start, c)
    ensures var (next, memory) := WriteAll(tx, m, writes);
            next.status == Open && KeysLogged(next) && Restores(next, memory, start, c)
  {
    if writes != [] {
      WritesRestore(tx, m, writes[..|writes| - 1], start, c);
      var (before, memory) := WriteAll(tx, m, writes[..|writes| - 1]);
      WriteRestores(before, memory, writes[|writes| - 1], start, c);
    }
  }

  // ---- Replaying restores the dirty marks last ----

  /** The log so far only restores dirty marks, each to its value at the start. */
  ghost predicate OnlyDirty(log: seq<Action>, start: map<Owner, set<Field>>) {
    forall i :: 0 <= i < |log| ==> log[i].RestoreDirty? && log[i].owner in start && log[i].fields == start[log[i].owner]
  }

  /** The log restores the owner's marks. */
  ghost predicate HasMarks(log: seq<Action>, o: Owner) {
    exists i :: 0 <= i < |log| && log[i].RestoreDirty? && log[i].owner == o
  }

  /** The owner's marks are what they were at the start. */
  ghost predicate MarksAs(m: Memory, start: map<Owner, set<Field>>, o: Owner) {
    o in start && o in m.dirty && m.dirty[o] == start[o]
  }

  ghost predicate OnlyWrites(log: seq<Action>) {
    forall i :: 0 <= i < |log| ==> log[i].UndoWrite?
  }

  lemma {:induction false} CaptureLogs(owners: seq<Owner>, m: Memory)
    ensures var tx := Capture(NEW_TX, owners, m);
            && tx.status == Open && tx.undoKeys == {} && tx.commits == [] && OnlyDirty(tx.rollbacks, m.dirty)
            && forall o :: o in owners && o in m.dirty ==> HasMarks(tx.rollbacks, o)
  {
    if owners != [] {
      CaptureLogs(owners[..|owners| - 1], m);
      var before := Capture(NEW_TX, owners[..|owners| - 1], m).rollbacks;
      var log := Capture(NEW_TX, owners, m).rollbacks;
      forall o | o in owners && o in m.dirty ensures HasMarks(log, o) {
        if o == owners[|owners| - 1] { assert log[|log| - 1].RestoreDirty? && log[|log| - 1].owner == o; }
        else {
          assert o in owners[..|owners| - 1];
          var i :| 0 <= i < |before| && before[i].RestoreDirty? && before[i].owner == o;
          assert log[i] == before[i];
        }
      }
    }
  }

  lemma {:induction false} WritesAppend(tx: Tx, m: Memory, writes: seq<Write>) returns (undo: seq<Action>)
    requires tx.status == Open
    ensures var next := WriteAll(tx, m, writes).0;
            next.status == Open && next.rollbacks == tx.rollbacks + undo && OnlyWrites(undo) && next.commits == tx.commits
  {
    undo := [];
    if writes != [] {
      undo := WritesAppend(tx, m, writes[..|writes| - 1]);
      var (before, memory) := WriteAll(tx, m, writes[..|writes| - 1]);
      var next := WriteStep(before, memory, writes[|writes| - 1]).0;
      if next != before { undo := undo + [next.rollbacks[|next.rollbacks| - 1]]; }
    }
  }

  lemma {:induction false} ReplaySplit(first: seq<Action>, last: seq<Action>, m: Memory)
    ensures Replay(first + last, m) == Replay(first, Replay(last, m))
    decreases |last|
  {
    if last == [] {
      assert first + last == first;
    } else {
      var rest, a := last[..|last| - 1], last[|last| - 1];
      assert first + last == (first + rest) + [a];
      ReplayLast(first + rest, a, m);
      ReplaySplit(first, rest, Apply(a, m));
    }
  }

  /** Restoring marks leaves the data alone and ends with the marks of the start. */
  lemma {:induction false} DirtyReplay(log: seq<Action>, start: map<Owner, set<Field>>, m: Memory)
    requires OnlyDirty(log, start)
    ensures Replay(log, m).cells == m.cells
    ensures forall o :: o in start && (MarksAs(m, start, o) || HasMarks(log, o)) ==> MarksAs(Replay(log, m), start, o)
  {
    if log != [] {
      var rest, a := log[..|log| - 1], log[|log| - 1];
      DirtyReplay(rest, start, Apply(a, m));
      forall o | o in start && HasMarks(log, o) && o != a.owner ensures HasMarks(rest, o) {
        var i :| 0 <= i < |log| && log[i].RestoreDirty? && log[i].owner == o;
        assert rest[i] == log[i];
      }
    }
  }

  /**
   * Rolling back a transaction that captured its owners' dirty marks and then made any writes, to overlapping or equal
   * locations, restores the data of the start, and the captured dirty marks come out as they were.
   */
  lemma {:induction false} RollbackRestores(owners: seq<Owner>, m: Memory, writes: seq<Write>)
    ensures var (tx, memory) := WriteAll(Capture(NEW_TX, owners, m), m, writes);
            var (closed, back, e) := Rollback(tx, memory);
            && e.None? && closed.status == RolledBack && back.cells == m.cells
            && forall o :: o in owners && o in m.dirty ==> MarksAs(back, m.dirty, o)
  {
    var captured := Capture(NEW_TX, owners, m);
    CaptureLogs(owners, m);
    DirtyReplay(captured.rollbacks, m.dirty, m);
    var (tx, memory) := WriteAll(captured, m, writes);
    var undo := WritesAppend(captured, m, writes);
    var back := Replay(tx.rollbacks, memory);
    forall c: Cell ensures Lookup(back.cells, c) == Lookup(m.cells, c) { WritesRestore(captured, m, writes, m.cells, c); }
    SameCells(back.cells, m.cells);
    ReplaySplit(captured.rollbacks, undo, memory);
    DirtyReplay(captured.rollbacks, m.dirty, Replay(undo, memory));
  }

  lemma {:induction false} SameCells(a: Cells, b: Cells)
    requires forall c: Cell :: Lookup(a, c) == Lookup(b, c)
    ensures a == b
  {
    forall c: Cell ensures (c in a <==> c in b) && (c in a ==> a[c] == b[c]) { assert Lookup(a, c) == Lookup(b, c); }
  }

  function AfterAll(tx: Tx, hooks: seq<nat>): Tx {
    if hooks == [] then tx else AfterCommit(AfterAll(tx, hooks[..|hooks| - 1]), hooks[|hooks| - 1])
  }

  /** Committing releases the hooks in the order they were given. */
  lemma {:induction false} HooksInOrder(tx: Tx, hooks: seq<nat>)
    requires tx.status == Open
    ensures AfterAll(tx, hooks).status == Open && Commit(AfterAll(tx, hooks)).1 == tx.commits + hooks
  {
    if hooks != [] {
      HooksInOrder(tx, hooks[..|hooks| - 1]);
      assert hooks == hooks[..|hooks| - 1] + [hooks[|hooks| - 1]];
    }
  }

  /** A transaction ends once: after a rollback, a commit or being abandoned, nothing changes any more. */
  lemma {:induction false} EndsOnce(tx: Tx, m: Memory)
    requires tx.status == Open
    ensures var (back, memory, _) := Rollback(tx, m);
            Rollback(back, memory) == (back, memory, None) && Commit(back) == (back, []) && Abandon(back) == back
    ensures var (done, hooks) := Commit(tx);
            hooks == tx.commits && Rollback(done, m) == (done, m, Some(TransactionClosed)) && Commit(done) == (done, [])
    ensures var left := Abandon(tx); Rollback(left, m) == (left, m, Some(TransactionClosed)) && Commit(left) == (left, [])
  {}

  // ---- The transaction in place ----

  /** The data and marks that undo actions act on. */
  class Store {
    var memory: Memory

    constructor (memory: Memory)
      ensures this.memory == memory
    {
      this.memory := memory;
    }
  }

  class RollbackTx {
    var status: Status
    var rollbacks: seq<Action>
    var undoKeys: set<Location>
    var commits: seq<nat>

    ghost function View(): Tx
      reads this
    {
      Tx(status, rollbacks, undoKeys, commits)
    }

    constructor ()
      ensures View() == NEW_TX
    {
      status, rollbacks, undoKeys, commits := Open, [], {}, [];
    }

    method Defer(a: Action)
      modifies this
      ensures View() == DeferRollback(old(View()), a)
    {
      if status == Open {
        rollbacks := rollbacks + [a];
      }
    }

    method RecordUndoToken(a: Action) returns (e: Option<TxError>)
      requires a.UndoWrite?
      modifies this
      ensures (View(), e) == RecordUndo(old(View()), a)
    {
      if status != Open {
        return Some(TransactionClosed);
      }
      if a.location in undoKeys {
        return None;
      }
      undoKeys := undoKeys + {a.location};
      rollbacks := rollbacks + [a];
      return None;
    }

    method After(hook: nat)
      modifies this
      ensures View() == AfterCommit(old(View()), hook)
    {
      if status == Open {
        commits := commits + [hook];
      }
    }

    method RollbackAll(store: Store) returns (e: Option<TxError>)
      modifies this, store
      ensures (View(), store.memory, e) == Rollback(old(View()), old(store.memory))
    {
      if status == RolledBack {
        return None;
      }
      if status != Open {
        return Some(TransactionClosed);
      }
      status := RolledBack;
      var i := |rollbacks|;
      assert rollbacks[..i] == rollbacks;
      while i > 0
        invariant 0 <= i <= |rollbacks| && View() == old(View()).(status := RolledBack)
        invariant Replay(rollbacks[..i], store.memory) == Replay(rollbacks, old(store.memory))
      {
        i := i - 1;
        assert rollbacks[..i + 1][..i] == rollbacks[..i];
        store.memory := Apply(rollbacks[i], store.memory);
      }
      commits := [];
      return None;
    }

    method CommitAll() returns (hooks: seq<nat>)
      modifies this
      ensures (View(), hooks) == Commit(old(View()))
    {
      if status != Open {
        return [];
      }
      status, rollbacks, undoKeys := Committed, [], {};
      return commits;
    }

    method AbandonAll()
      modifies this
      ensures View() == Abandon(old(View()))
    {
      if status == Open {
        status, rollbacks, undoKeys, commits := Committed, [], {}, [];
      }
    }
  }
}
