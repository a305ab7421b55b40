/** The two idempotency stores of `skr_crypto/server/idempotency.py` and the simulation between them. */
module Idempotency {
  import opened Options

  type Key = string
  type Txid = string

  /** Sentinel the in-memory store keeps in place of a txid while a request is in flight. */
  const PENDING: string := "__PENDING__"

  datatype Status = Pending | Committed | Unknown

  /** One row of table `idempotency`; the diagnostic columns are not modelled. */
  datatype Row = Row(status: Status, txid: Txid, createdAt: real)

  type Table = map<Key, Row>

  /** State of `SqliteIdempotencyStore`: `open` is `_conn is not None`, `rows` the durable table. */
  datatype SqlState = SqlState(open: bool, rows: Table)

  /** State of `IdempotencyStore`. */
  type MemState = map<Key, string>

  datatype Reply =
    | Claimed                      // reserve returned None: the slot is the caller's
    | Duplicate(txid: Txid)        // reserve returned a committed txid
    | Unresolved(createdAt: real)  // UnresolvedIdempotency
    | Waiting                      // the key is in flight: the caller waits on the condition
    | Conflict                     // IdempotencyConflict: the wait timed out
    | Closed                       // AssertionError: used after close()
    | Rejected                     // ValueError from commit
    | Broken                       // a database error
    | Done
    | Peeked(found: Option<Txid>)
    | Counted(n: nat)

  datatype Outcome<S> = Outcome(reply: Reply, store: S)

  datatype Op =
    | Reserve(key: Key, now: real)
    | Commit(key: Key, txid: Txid)
    | Release(key: Key)
    | Peek(key: Key)
    | Count
    | Close

  predicate RealTxid(txid: Txid) {
    txid != "" && txid != PENDING
  }

  predicate HasStatus(rows: Table, key: Key, status: Status) {
    key in rows && rows[key].status == status
  }

  // The classes below are proved against these functions, one critical section of a store at a time.

  // ----- SqliteIdempotencyStore, one critical section at a time -------------------------------

  /** One pass of the loop in `reserve`, from taking the lock to returning, raising or waiting. */
  function SqlReserve(s: SqlState, key: Key, now: real): Outcome<SqlState> {
    if !s.open then Outcome(Closed, s)
    else if key !in s.rows then
      Outcome(Claimed, s.(rows := s.rows[key := Row(Pending, "", now)]))
    else match s.rows[key].status
      case Committed => Outcome(Duplicate(s.rows[key].txid), s)
      case Unknown => Outcome(Unresolved(s.rows[key].createdAt), s)
      case Pending => Outcome(Waiting, s)
  }

  /** A pass in which the database raises, before or after the INSERT took effect; nothing in `reserve`
      catches that. */
  function SqlReserveFails(s: SqlState, key: Key, now: real, applied: bool): Outcome<SqlState> {
    Outcome(Broken, if applied && key !in s.rows then s.(rows := s.rows[key := Row(Pending, "", now)]) else s)
  }

  /** `commit`: an UPDATE, so it changes nothing when the key has no row. */
  function SqlCommit(s: SqlState, key: Key, txid: Txid): Outcome<SqlState> {
    if !RealTxid(txid) then Outcome(Rejected, s)
    else if !s.open then Outcome(Closed, s)
    else if key !in s.rows then Outcome(Done, s)
    else Outcome(Done, s.(rows := s.rows[key := Row(Committed, txid, s.rows[key].createdAt)]))
  }

  function SqlRelease(s: SqlState, key: Key): Outcome<SqlState> {
    if !s.open then Outcome(Closed, s)
    else if HasStatus(s.rows, key, Pending) then Outcome(Done, s.(rows := s.rows - {key}))
    else Outcome(Done, s)
  }

  function SqlPeek(s: SqlState, key: Key): Reply {
    if !s.open then Closed
    else if HasStatus(s.rows, key, Committed) then Peeked(Some(s.rows[key].txid))
    else Peeked(None)
  }

  function SqlStep(s: SqlState, op: Op): Outcome<SqlState> {
    match op
    case Reserve(key, now) => SqlReserve(s, key, now)
    case Commit(key, txid) => SqlCommit(s, key, txid)
    case Release(key) => SqlRelease(s, key)
    case Peek(key) => Outcome(SqlPeek(s, key), s)
    case Count => Outcome(if s.open then Counted(|s.rows|) else Closed, s)
    case Close => Outcome(Done, s.(open := false))
  }

  /** `_recover_orphans`: every leftover pending row becomes unknown. */
  function Recovered(rows: Table): (r: Table)
    ensures r.Keys == rows.Keys
  {
    map k | k in rows :: if rows[k].status == Pending then rows[k].(status := Unknown) else rows[k]
  }

  /** Nothing is pending after recovery: what was is unknown, with its txid and time, and what was not
      is unchanged. */
  lemma RecoveryMeaning(rows: Table, key: Key)
    ensures key in Recovered(rows) <==> key in rows
    ensures !HasStatus(Recovered(rows), key, Pending)
    ensures HasStatus(rows, key, Pending) ==> Recovered(rows)[key] == rows[key].(status := Unknown)
    ensures key in rows && rows[key].status != Pending ==> Recovered(rows)[key] == rows[key]
  {}

  // ----- IdempotencyStore ---------------------------------------------------------------------

  function MemStep(m: MemState, op: Op): Outcome<MemState> {
    match op
    case Reserve(key, _) =>
      if key !in m then Outcome(Claimed, m[key := PENDING])
      else if m[key] != PENDING then Outcome(Duplicate(m[key]), m)
      else Outcome(Waiting, m)
    case Commit(key, txid) =>
      if !RealTxid(txid) then Outcome(Rejected, m) else Outcome(Done, m[key := txid])
    case Release(key) =>
      Outcome(Done, if key in m && m[key] == PENDING then m - {key} else m)
    case Peek(key) =>
      Outcome(Peeked(if key in m && m[key] != PENDING then Some(m[key]) else None), m)
    case Count => Outcome(Counted(|m|), m)
    case Close => Outcome(Done, m)
  }

  // ----- the SQLite store as an object --------------------------------------------------------

  /** What a thread finds when `_cond.wait` gives the lock back: whether it was notified, what the
      other threads have made of the store meanwhile, and whether the database raises in its next
      pass, after (true) or before the INSERT took effect. */
  datatype Wake = Wake(notified: bool, store: SqlState, now: real, fault: Option<bool>)

  /** The store a reserving thread sees on its i-th pass. */
  function Seen(s: SqlState, wakes: seq<Wake>, i: nat): SqlState
    requires i <= |wakes|
  {
    if i == 0 then s else wakes[i - 1].store
  }

  /** The database error of its i-th pass. */
  function FaultAt(first: Option<bool>, wakes: seq<Wake>, i: nat): Option<bool>
    requires i <= |wakes|
  {
    if i == 0 then first else wakes[i - 1].fault
  }

  /** What the pass of `reserve` does that ends the loop, or parks the thread. */
  function SqlPass(s: SqlState, key: Key, now: real, fault: Option<bool>): Outcome<SqlState> {
    if s.open && fault.Some? then SqlReserveFails(s, key, now, fault.value) else SqlReserve(s, key, now)
  }

  class SqliteIdempotencyStore {
    var open: bool
    var rows: Table

    function View(): SqlState
      reads this
    {
      SqlState(open, rows)
    }

    /** Opens a database file that holds `onDisk`: orphans of the previous run become unknown. */
    constructor (onDisk: Table)
      ensures View() == SqlState(true, Recovered(onDisk))
      ensures forall key :: key in rows ==> rows[key].status != Pending
    {
      open := true;
      rows := map k | k in onDisk ::
        if onDisk[k].status == Pending then onDisk[k].(status := Unknown) else onDisk[k];
    }

    /** `reserve` with its `while True` loop. `fault` and `wakes` are what the database and the other
        threads do at each pass; if `wakes` runs out the thread is still parked and the reply is
        `Waiting`. `rounds` counts waits. */
    method Reserve(key: Key, now: real, fault: Option<bool>, wakes: seq<Wake>) returns (reply: Reply, rounds: nat)
      modifies this
      ensures rounds <= |wakes|
      ensures forall i :: 0 <= i < rounds ==>
                var seen := Seen(old(View()), wakes, i);
                seen.open && HasStatus(seen.rows, key, Pending) && FaultAt(fault, wakes, i).None?
      ensures forall i :: 0 <= i < rounds - 1 ==> wakes[i].notified
      ensures reply == Conflict ==>
                rounds > 0 && !wakes[rounds - 1].notified && View() == wakes[rounds - 1].store
      ensures reply != Conflict ==>
                && (rounds > 0 ==> wakes[rounds - 1].notified)
                && var seen := Seen(old(View()), wakes, rounds);
                   var at := if rounds == 0 then now else wakes[rounds - 1].now;
                   Outcome(reply, View()) == SqlPass(seen, key, at, FaultAt(fault, wakes, rounds))
      ensures reply == Waiting ==> rounds == |wakes|
    {
      rounds := 0;
      var at, error := now, fault;
      while true
        invariant rounds <= |wakes|
        invariant View() == Seen(old(View()), wakes, rounds)
        invariant at == if rounds == 0 then now else wakes[rounds - 1].now
        invariant error == FaultAt(fault, wakes, rounds)
        invariant forall i :: 0 <= i < rounds ==>
                    var seen := Seen(old(View()), wakes, i);
                    seen.open && HasStatus(seen.rows, key, Pending) && FaultAt(fault, wakes, i).None?
        invariant forall i :: 0 <= i < rounds ==> wakes[i].notified
        decreases |wakes| - rounds
      {
        if !open { return Closed, rounds; }
        if error == Some(false) { return Broken, rounds; }
        if key !in rows {
          rows := rows[key := Row(Pending, "", at)];
          return if error.Some? then Broken else Claimed, rounds;
        }
        if error.Some? { return Broken, rounds; }
        var row := rows[key];
        if row.status == Committed { return Duplicate(row.txid), rounds; }
        if row.status == Unknown { return Unresolved(row.createdAt), rounds; }
        if rounds == |wakes| { return Waiting, rounds; }
        var wake := wakes[rounds];
        open, rows, at, error := wake.store.open, wake.store.rows, wake.now, wake.fault;
        rounds := rounds + 1;
        if !wake.notified { return Conflict, rounds; }
      }
    }

    method Commit(key: Key, txid: Txid) returns (reply: Reply)
      modifies this
      ensures Outcome(reply, View()) == SqlCommit(old(View()), key, txid)
      ensures txid == "" || txid == "__PENDING__" ==> reply == Rejected && View() == old(View())
    {
      if txid == "" || txid == PENDING { return Rejected; }
      if !open { return Closed; }
      if key in rows {
        rows := rows[key := rows[key].(status := Committed, txid := txid)];
      }
      reply := Done;
    }

    method Release(key: Key) returns (reply: Reply)
      modifies this
      ensures Outcome(reply, View()) == SqlRelease(old(View()), key)
    {
      if !open { return Closed; }
      if key in rows && rows[key].status == Pending { rows := rows - {key}; }
      reply := Done;
    }

    method Peek(key: Key) returns (reply: Reply)
      ensures reply == SqlPeek(View(), key)
    {
      if !open { return Closed; }
      if key !in rows { return Peeked(None); }
      reply := if rows[key].status == Committed then Peeked(Some(rows[key].txid)) else Peeked(None);
    }

    method Close()
      modifies this
      ensures View() == old(View()).(open := false)
    {
      open := false;
    }
  }

  class IdempotencyStore {
    var store: MemState

    constructor ()
      ensures store == map[]
    {
      store := map[];
    }

    /** One pass of the in-memory `reserve` loop. */
    method Reserve(key: Key) returns (reply: Reply)
      modifies this
      ensures forall now :: Outcome(reply, store) == MemStep(old(store), Op.Reserve(key, now))
    {
      if key !in store {
        store := store[key := PENDING];
        return Claimed;
      }
      if store[key] != PENDING { return Duplicate(store[key]); }
      reply := Waiting;
    }

    method Commit(key: Key, txid: Txid) returns (reply: Reply)
      modifies this
      ensures Outcome(reply, store) == MemStep(old(store), Op.Commit(key, txid))
      ensures txid == "" || txid == "__PENDING__" ==> reply == Rejected && store == old(store)
    {
      if txid == "" || txid == PENDING { return Rejected; }
      store := store[key := txid];
      reply := Done;
    }

    method Release(key: Key) returns (reply: Reply)
      modifies this
      ensures Outcome(reply, store) == MemStep(old(store), Op.Release(key))
    {
      if key in store && store[key] == PENDING { store := store - {key}; }
      reply := Done;
    }
  }

  // ----- simulation between the two stores ----------------------------------------------------

  /** The in-memory dictionary says the same as an open table without unknown rows. */
  ghost predicate Related(m: MemState, s: SqlState) {
    && s.open
    && m.Keys == s.rows.Keys
    && forall k :: k in m ==>
         match s.rows[k].status
         case Pending => m[k] == PENDING
         case Committed => m[k] == s.rows[k].txid && RealTxid(m[k])
         case Unknown => false
  }

  /** A commit that would take effect although nobody reserved the key. */
  predicate Stray(s: SqlState, op: Op) {
    op.Commit? && RealTxid(op.txid) && op.key !in s.rows
  }

  /** What drives the stores apart: a stray commit, or a close, which only the SQLite store minds. */
  predicate Parting(s: SqlState, op: Op) {
    Stray(s, op) || op.Close?
  }

  /** From related stores, the two agree on an operation and stay related exactly when it is no
      parting. */
  lemma StepSimulation(m: MemState, s: SqlState, op: Op)
    requires Related(m, s)
    ensures MemStep(m, op).reply == SqlStep(s, op).reply
    ensures Related(MemStep(m, op).store, SqlStep(s, op).store) <==> !Parting(s, op)
  {
    if op.Count? { assert |m| == |m.Keys| == |s.rows.Keys| == |s.rows|; }
    if Stray(s, op) {
      assert op.key in MemStep(m, op).store.Keys && op.key !in SqlStep(s, op).store.rows.Keys;
    }
  }

  function MemReplies(m: MemState, ops: seq<Op>): seq<Reply>
    decreases |ops|
  {
    if ops == [] then [] else [MemStep(m, ops[0]).reply] + MemReplies(MemStep(m, ops[0]).store, ops[1..])
  }

  function SqlReplies(s: SqlState, ops: seq<Op>): seq<Reply>
    decreases |ops|
  {
    if ops == [] then [] else [SqlStep(s, ops[0]).reply] + SqlReplies(SqlStep(s, ops[0]).store, ops[1..])
  }

  predicate NoParting(s: SqlState, ops: seq<Op>)
    decreases |ops|
  {
    ops == [] || (!Parting(s, ops[0]) && NoParting(SqlStep(s, ops[0]).store, ops[1..]))
  }

  /** Holder discipline of `_send_impl`: commit and release are called only on a key this history
      has claimed and not yet given up; it never closes the store. */
  predicate HoldersOnly(held: set<Key>, s: SqlState, ops: seq<Op>)
    decreases |ops|
  {
    ops == [] ||
    (var op := ops[0];
     var next := SqlStep(s, op);
     match op
     case Reserve(key, _) =>
       HoldersOnly(if next.reply == Claimed then held + {key} else held, next.store, ops[1..])
     case Commit(key, txid) =>
       key in held && HoldersOnly(if RealTxid(txid) then held - {key} else held, next.store, ops[1..])
     case Release(key) => key in held && HoldersOnly(held - {key}, next.store, ops[1..])
     case Close => false
     case _ => HoldersOnly(held, next.store, ops[1..]))
  }

  lemma {:induction false} HoldersNeverPart(held: set<Key>, s: SqlState, ops: seq<Op>)
    requires s.open && HoldersOnly(held, s, ops)
    requires forall k :: k in held ==> HasStatus(s.rows, k, Pending)
    ensures NoParting(s, ops)
    decreases |ops|
  {
    if ops != [] {
      var op, next := ops[0], SqlStep(s, ops[0]);
      match op
      case Reserve(key, _) =>
        HoldersNeverPart(if next.reply == Claimed then held + {key} else held, next.store, ops[1..]);
      case Commit(key, txid) =>
        HoldersNeverPart(if RealTxid(txid) then held - {key} else held, next.store, ops[1..]);
      case Release(key) => HoldersNeverPart(held - {key}, next.store, ops[1..]);
      case Close =>
      case _ => HoldersNeverPart(held, next.store, ops[1..]);
    }
  }

  lemma {:induction false} RepliesAgree(m: MemState, s: SqlState, ops: seq<Op>)
    requires Related(m, s) && NoParting(s, ops)
    ensures MemReplies(m, ops) == SqlReplies(s, ops)
    decreases |ops|
  {
    if ops != [] {
      StepSimulation(m, s, ops[0]);
      RepliesAgree(MemStep(m, ops[0]).store, SqlStep(s, ops[0]).store, ops[1..]);
    }
  }

  /** The histories a caller can use to tell the stores apart: `ops` up to some point, then a peek. */
  function Probe(ops: seq<Op>, i: nat, key: Key): seq<Op>
    requires i < |ops|
  {
    ops[..i + 1] + [Peek(key)]
  }

  ghost predicate TellsApart(m: MemState, s: SqlState, ops: seq<Op>, i: nat, key: Key)
    requires i < |ops|
  {
    MemReplies(m, Probe(ops, i, key)) != SqlReplies(s, Probe(ops, i, key))
  }

  lemma {:induction false} PartingShows(m: MemState, s: SqlState, ops: seq<Op>) returns (i: nat, key: Key)
    requires Related(m, s) && !NoParting(s, ops)
    ensures i < |ops| && TellsApart(m, s, ops, i, key)
    decreases |ops|
  {
    var op := ops[0];
    StepSimulation(m, s, op);
    var m', s' := MemStep(m, op).store, SqlStep(s, op).store;
    if Parting(s, op) {
      i, key := 0, if op.Commit? then op.key else "";
      var probe := Probe(ops, i, key);
      assert probe[0] == op && probe[1..] == [Peek(key)];
      assert MemReplies(m, probe) == [Done] + MemReplies(m', [Peek(key)]);
      assert SqlReplies(s, probe) == [Done] + SqlReplies(s', [Peek(key)]);
      assert MemReplies(m, probe)[1].Peeked? && (op.Commit? ==> MemReplies(m, probe)[1] == Peeked(Some(op.txid)));
      assert SqlReplies(s, probe)[1] == if op.Close? then Closed else Peeked(None);
    } else {
      var j, k := PartingShows(m', s', ops[1..]);
      i, key := j + 1, k;
      var probe := Probe(ops, i, key);
      assert probe[0] == op && probe[1..] == Probe(ops[1..], j, key);
      assert MemReplies(m, probe)[1..] == MemReplies(m', probe[1..]);
      assert SqlReplies(s, probe)[1..] == SqlReplies(s', probe[1..]);
    }
  }

  lemma {:induction false} NoPartingPrefix(s: SqlState, ops: seq<Op>, i: nat, key: Key)
    requires i < |ops| && NoParting(s, ops)
    ensures NoParting(s, Probe(ops, i, key))
    decreases |ops|
  {
    var probe := Probe(ops, i, key);
    assert probe[0] == ops[0];
    if i == 0 {
      assert probe[1..] == [Peek(key)];
      assert NoParting(SqlStep(s, ops[0]).store, [Peek(key)]);
    } else {
      assert probe[1..] == Probe(ops[1..], i - 1, key);
      NoPartingPrefix(SqlStep(s, ops[0]).store, ops[1..], i - 1, key);
    }
  }

  /** Starting from two fresh stores, no caller can tell them apart along a history, by its replies
      or by a peek at any point of it, if and only if the history has no stray commit and no close. */
  lemma StoresIndistinguishable(ops: seq<Op>)
    ensures NoParting(SqlState(true, map[]), ops) <==>
            && MemReplies(map[], ops) == SqlReplies(SqlState(true, map[]), ops)
            && forall i: nat, key :: i < |ops| ==> !TellsApart(map[], SqlState(true, map[]), ops, i, key)
  {
    var s0 := SqlState(true, map[]);
    if NoParting(s0, ops) {
      RepliesAgree(map[], s0, ops);
      forall i: nat, key | i < |ops|
        ensures !TellsApart(map[], s0, ops, i, key)
      {
        NoPartingPrefix(s0, ops, i, key);
        RepliesAgree(map[], s0, Probe(ops, i, key));
      }
    } else {
      var i, key := PartingShows(map[], s0, ops);
    }
  }

  /** The discipline the request handler keeps is enough. */
  lemma DisciplinedHistoriesAgree(ops: seq<Op>)
    requires HoldersOnly({}, SqlState(true, map[]), ops)
    ensures MemReplies(map[], ops) == SqlReplies(SqlState(true, map[]), ops)
  {
    HoldersNeverPart({}, SqlState(true, map[]), ops);
    RepliesAgree(map[], SqlState(true, map[]), ops);
  }
}
