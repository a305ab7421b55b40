/** `_send_impl` of `skr_crypto/server/routes.py` as it runs under `_send_lock`. */
module SendRoute {
  // Ordered effects on the store and the audit log, with the exception paths. Every run of the handler is a
  // schedule of the transition system.

  import opened Options
  import opened Idempotency
  import opened SendPipeline
  import SendGuarantees
  import Fees

  /** How `audit.record` behaves: it may raise AuditWriteError, the line written or not. */
  datatype AuditMode = Works | Raises(landed: bool)

  /** What the outside world does during one request. */
  datatype World = World(
    now: real,
    day: int,
    audit: AuditMode,
    readings: Option<Fees.Readings>,   // None: a preflight RPC raised
    broadcast: Option<Txid>,           // None: send_usdt raised
    reserveError: Option<bool>,        // a database error in reserve, after (true) or before its effect
    commitError: Option<bool>,         // the same in commit
    releaseError: Option<bool>,        // and in release
    closesMeanwhile: bool)             // the store is closed while this request waits in reserve

  datatype Response =
    | Ok(txid: Txid)
    | Repeat(txid: Txid)               // status "duplicate"
    | Unavailable(reply: Reply)        // reserve raised
    | Failed                           // an exception left the guarded block
    | NotAudited(txid: Txid)           // sent and committed, but SEND_SUCCESS could not be audited

  predicate WorldOk(w: World) {
    w.broadcast != Some("")            // send_usdt never returns an empty txid
  }

  /** The audit lines written when preflight stops: a refused write makes the handler of `except
      Exception` try SEND_FAILED. */
  function PreflightLog(rejected: bool, audit: AuditMode): seq<AuditKind> {
    match audit
    case Works => [if rejected then SendRejected else SendFailed]
    case Raises(false) => []
    case Raises(true) => if rejected then [SendRejected, SendFailed] else [SendFailed]
  }

  function FailureLog(audit: AuditMode): seq<AuditKind> {
    if audit == Raises(false) then [] else [SendFailed]
  }

  class SendService {
    const store: SqliteIdempotencyStore
    const config: Fees.Config
    var trail: seq<Event>
    ghost var threads: seq<Thread>

    constructor (store: SqliteIdempotencyStore, config: Fees.Config)
      ensures this.store == store && this.config == config && trail == [] && threads == []
    {
      this.store, this.config := store, config;
      trail, threads := [], [];
    }

    ghost function View(): State
      reads this, store
    {
      State(true, store.open, store.rows, threads, trail)
    }

    /** Thread `tid` serves `req` and stands at `pc`; nobody is parked, as `_send_lock` implies. */
    ghost predicate Serving(tid: nat, req: Request, pc: PC)
      reads this
    {
      && tid < |threads| && threads[tid] == Thread(req, pc)
      && forall t :: t in threads ==> t.pc != Parked
    }

    /** `idempotency.reserve`. With the lock held no other request moves while this thread waits, so
        a wait ends in the timeout, or in an AssertionError when the store is closed meanwhile. A
        database error goes straight to the caller. */
    method ReserveSlot(req: Request, w: World, ghost tid: nat) returns (reply: Reply, ghost steps: seq<Step>)
      requires Serving(tid, req, AtReserve)
      modifies this, store
      ensures View() == Run(old(View()), steps)
      ensures StepsOf(tid, steps)
      ensures var slot := Reserved(req, w, old(store.View()));
              reply == slot.reply && store.View() == slot.store && trail == old(trail) + [slot.record]
      ensures threads == old(threads)[tid := Thread(req, AfterReserve(reply))] && reply != Waiting
    {
      ghost var s0 := View();
      var rounds;
      var wake := [Wake(w.closesMeanwhile, SqlState(store.open && !w.closesMeanwhile, store.rows), w.now, None)];
      var free := req.key !in store.rows;
      ghost var before := store.View();
      reply, rounds := store.Reserve(req.key, w.now, w.reserveError, wake);
      assert Seen(before, wake, 0) == before && Seen(before, wake, 1) == wake[0].store;
      assert FaultAt(w.reserveError, wake, 0) == w.reserveError && FaultAt(w.reserveError, wake, 1) == None;
      assert rounds == if before.open && w.reserveError.None? && HasStatus(before.rows, req.key, Pending) then 1 else 0;
      trail := trail + [if reply == Broken then ReserveFault(req.key, w.reserveError.value && free) else Answered(req.key, reply)];
      threads := threads[tid := Thread(req, AfterReserve(reply))];
      if rounds == 0 {
        steps := [if reply == Broken then EnterRaises(tid, w.now, w.reserveError.value && free) else Enter(tid, w.now)];
        assert View() == Exec(s0, steps[0]);
        Once(s0, steps[0]);
      } else if w.closesMeanwhile {
        steps := [Enter(tid, w.now), Step.Close, Enter(tid, w.now)];
        WaitCut(s0, tid, req, w.now);
      } else {
        steps := [Enter(tid, w.now), TimeOut(tid)];
        WaitEnds(s0, tid, req, w.now);
      }
    }

    method LogFailures(kinds: seq<AuditKind>, req: Request, day: int)
      modifies `trail
      ensures trail == old(trail) + AuditLines(kinds, req, day)
    {
      trail := trail + AuditLines(kinds, req, day);
    }

    /** The guarded block up to the broadcast: None when an exception leaves it. */
    method Transfer(req: Request, w: World, ghost tid: nat) returns (txid: Option<Txid>, ghost step: Step)
      requires WorldOk(w) && Serving(tid, req, Holding)
      modifies this
      ensures View() == Exec(old(View()), step) && OfThread(step) && step.tid == tid
      ensures txid == if Admitted(config, req, w) then w.broadcast else None
      ensures txid.Some? ==> req.amount as real <= 1_000_000.0 * w.readings.value.usdt && config.reserve <= w.readings.value.trx
      ensures trail == old(trail) +
                if txid.Some? then [Broadcast(req.key, txid.value, req.amount)] else FailureRecords(config, req, w)
      ensures threads == old(threads)[tid := Thread(req, if txid.Some? then Sent(txid.value) else Releasing)]
      ensures step.BroadcastAccepted? <==> txid.Some?
      ensures step.BroadcastAccepted? || step.PreflightStops? || step.BroadcastFails?
    {
      if w.readings.None? {
        LogFailures(PreflightLog(false, w.audit), req, w.day);
        txid, step := None, PreflightStops(tid, PreflightLog(false, w.audit), w.day);
      } else {
        var verdict := Fees.Preflight(config, Usdt(req), w.readings.value);
        Fees.PreflightMeaning(config, Usdt(req), w.readings.value);
        if !verdict.Admit? {
          LogFailures(PreflightLog(true, w.audit), req, w.day);
          txid, step := None, PreflightStops(tid, PreflightLog(true, w.audit), w.day);
        } else if w.broadcast.None? {
          LogFailures(FailureLog(w.audit), req, w.day);
          txid, step := None, BroadcastFails(tid, FailureLog(w.audit), w.day);
        } else {
          txid, step := w.broadcast, BroadcastAccepted(tid, w.broadcast.value);
          trail := trail + [Broadcast(req.key, w.broadcast.value, req.amount)];
        }
      }
      threads := threads[tid := Thread(req, if txid.Some? then Sent(txid.value) else Releasing)];
    }

    /** `idempotency.commit` inside the guarded block. */
    method CommitSlot(req: Request, txid: Txid, w: World, ghost tid: nat) returns (ok: bool, ghost step: Step)
      requires Serving(tid, req, Sent(txid))
      modifies this, store
      ensures View() == Exec(old(View()), step) && OfThread(step) && step.tid == tid
      ensures ok <==> old(store.open) && RealTxid(txid) && w.commitError.None?
      ensures threads == old(threads)[tid := Thread(req, if ok then Recorded(txid) else Releasing)]
      ensures store.View() == if ok || (old(store.open) && w.commitError == Some(true))
                              then SqlCommit(old(store.View()), req.key, txid).store else old(store.View())
      ensures trail == old(trail) + CommitRecords(old(store.View()), req, txid, w)
      ensures step.Commit? || step.CommitRaises?
    {
      ghost var s0 := View();
      if w.commitError.Some? && store.open && RealTxid(txid) {
        if w.commitError.value { var _ := store.Commit(req.key, txid); }
        ok, step := false, CommitRaises(tid, w.commitError.value);
        trail := trail + [CommitFault(req.key, w.commitError.value)];
      } else {
        var reply := store.Commit(req.key, txid);
        ok, step := reply == Done, Step.Commit(tid);
        if !ok && store.open { trail := trail + [CommitFault(req.key, false)]; }
      }
      threads := threads[tid := Thread(req, if ok then Recorded(txid) else Releasing)];
    }

    /** `idempotency.release` on the exception path. */
    method ReleaseSlot(req: Request, w: World, ghost tid: nat) returns (ghost step: Step)
      requires Serving(tid, req, Releasing)
      modifies this, store
      ensures View() == Exec(old(View()), step) && OfThread(step) && step.tid == tid
      ensures threads == old(threads)[tid := Thread(req, Finished)]
      ensures store.View() == if w.releaseError == Some(false) then old(store.View())
                              else SqlRelease(old(store.View()), req.key).store
      ensures trail == old(trail) + ReleaseRecords(old(store.View()), req, w)
      ensures step.Release? || step.ReleaseRaises?
    {
      if w.releaseError.Some? && store.open {
        var applied := w.releaseError.value && req.key in store.rows && store.rows[req.key].status == Pending;
        if applied { var _ := store.Release(req.key); }
        step := ReleaseRaises(tid, applied);
        trail := trail + [ReleaseFault(req.key, applied)];
      } else {
        var _ := store.Release(req.key);
        step := Step.Release(tid);
      }
      threads := threads[tid := Thread(req, Finished)];
    }

    /** The final `audit.record` of a success or a duplicate. */
    method AuditOutcome(req: Request, kind: AuditKind, txid: Txid, w: World, ghost tid: nat)
      returns (ok: bool, ghost step: Step)
      requires kind == SendSuccess || kind == SendDuplicate
      requires Serving(tid, req, if kind == SendSuccess then Recorded(txid) else Repeating(txid))
      modifies this
      ensures View() == Exec(old(View()), step) && OfThread(step) && step.tid == tid
      ensures ok <==> w.audit.Works?
      ensures trail == old(trail) + OutcomeRecord(kind, req, txid, w)
      ensures threads == old(threads)[tid := Thread(req, Finished)]
      ensures step.Audit? || step.AuditRaises?
    {
      ok := w.audit.Works?;
      step := if w.audit.Works? then Audit(tid, w.day) else AuditRaises(tid, w.audit.landed, w.day);
      if w.audit != Raises(false) {
        trail := trail + [Audited(kind, req.key, txid, req.amount, w.day)];
      }
      threads := threads[tid := Thread(req, Finished)];
    }

    /** From an accepted broadcast on: commit, then the success record, or release. */
    method Settle(req: Request, txid: Txid, w: World, ghost tid: nat) returns (response: Response, ghost steps: seq<Step>)
      requires Serving(tid, req, Sent(txid))
      modifies this, store
      ensures View() == Run(old(View()), steps) && StepsOf(tid, steps)
      ensures threads == old(threads)[tid := Thread(req, Finished)]
      ensures var served := Settled(req, txid, w, old(store.View()));
              response == served.response && store.View() == served.store && trail == old(trail) + served.records
    {
      ghost var s0 := View();
      var committed;
      ghost var a, b;
      committed, a := CommitSlot(req, txid, w, tid);
      ghost var s1 := View();
      if committed {
        var audited;
        audited, b := AuditOutcome(req, SendSuccess, txid, w, tid);
        response := if audited then Ok(txid) else NotAudited(txid);
      } else {
        b := ReleaseSlot(req, w, tid);
        response := Failed;
      }
      Chain(s0, a, s1, b, View());
      steps := [a, b];
    }

    /** The guarded block and what follows it, for a thread whose reservation succeeded. */
    method Payout(req: Request, w: World, ghost tid: nat) returns (response: Response, ghost steps: seq<Step>)
      requires WorldOk(w) && Serving(tid, req, Holding)
      modifies this, store
      ensures View() == Run(old(View()), steps) && StepsOf(tid, steps)
      ensures threads == old(threads)[tid := Thread(req, Finished)]
      ensures var served := Paid(config, req, w, old(store.View()));
              response == served.response && store.View() == served.store && trail == old(trail) + served.records
    {
      ghost var s0 := View();
      var txid;
      ghost var a, rest;
      txid, a := Transfer(req, w, tid);
      ghost var s1 := View();
      if txid.None? {
        ghost var b := ReleaseSlot(req, w, tid);
        rest := [b];
        Once(s1, b);
        response := Failed;
      } else {
        Grown(old(trail), Broadcast(req.key, txid.value, req.amount), Settled(req, txid.value, w, store.View()).records);
        response, rest := Settle(req, txid.value, w, tid);
      }
      steps := [a] + rest;
      First(s0, a, rest);
    }

    /** The answer to a key that is already committed, with its audit record. */
    method Duplicate(req: Request, txid: Txid, w: World, ghost tid: nat) returns (response: Response, ghost steps: seq<Step>)
      requires Serving(tid, req, Repeating(txid))
      modifies this
      ensures View() == Run(old(View()), steps) && StepsOf(tid, steps)
      ensures threads == old(threads)[tid := Thread(req, Finished)]
      ensures response == if w.audit.Works? then Repeat(txid) else Failed
      ensures trail == old(trail) + OutcomeRecord(SendDuplicate, req, txid, w)
    {
      ghost var s0 := View();
      var audited;
      ghost var step;
      audited, step := AuditOutcome(req, SendDuplicate, txid, w, tid);
      Once(s0, step);
      steps := [step];
      response := if audited then Repeat(txid) else Failed;
    }

    /** What `_send_impl` does with the reply of `reserve`. */
    method Continue(req: Request, reply: Reply, w: World, ghost tid: nat) returns (response: Response, ghost steps: seq<Step>)
      requires WorldOk(w) && Serving(tid, req, AfterReserve(reply)) && reply != Waiting
      modifies this, store
      ensures View() == Run(old(View()), steps) && StepsOf(tid, steps)
      ensures threads == old(threads)[tid := Thread(req, Finished)]
      ensures var served := Continued(config, req, w, reply, old(store.View()));
              response == served.response && store.View() == served.store && trail == old(trail) + served.records
    {
      if reply == Claimed {
        response, steps := Payout(req, w, tid);
      } else if reply.Duplicate? {
        response, steps := Duplicate(req, reply.txid, w, tid);
      } else {
        steps := [];
        response := Unavailable(reply);
      }
    }

    /** `_send_impl` from `reserve` on. */
    method Serve(req: Request, w: World, ghost tid: nat) returns (response: Response, ghost steps: seq<Step>)
      requires WorldOk(w) && Serving(tid, req, AtReserve)
      modifies this, store
      ensures View() == Run(old(View()), steps) && StepsOf(tid, steps)
      ensures threads == old(threads)[tid := Thread(req, Finished)]
      ensures var served := Handled(config, req, w, old(store.View()));
              response == served.response && store.View() == served.store && trail == old(trail) + served.records
    {
      ghost var s0, before := View(), store.View();
      var reply;
      ghost var a, b;
      reply, a := ReserveSlot(req, w, tid);
      response, b := Continue(req, reply, w, tid);
      ghost var slot := Reserved(req, w, before);
      Grown(old(trail), slot.record, Continued(config, req, w, slot.reply, slot.store).records);
      SendGuarantees.RunConcat(s0, a, b);
      steps := a + b;
    }

    /** `POST /send` under `_send_lock`. `steps` is the schedule the request follows: it arrives as
        a new thread, and every later step is a step of that thread. */
    method Send(req: Request, w: World) returns (response: Response, ghost steps: seq<Step>)
      requires WorldOk(w) && forall t :: t in threads ==> t.pc != Parked
      modifies this, store
      ensures |steps| > 0 && steps[0] == Arrive(req) && StepsOf(|old(threads)|, steps[1..])
      ensures View() == Run(old(View()), steps)
      ensures threads == old(threads) + [Thread(req, Finished)]
      ensures var served := Handled(config, req, w, old(store.View()));
              && response == served.response && store.View() == served.store && trail == old(trail) + served.records
              && Promised(config, req, w, old(store.View()), served)
    {
      ghost var s0, rest := View(), [];
      PromisesKept(config, req, w, store.View());
      threads := threads + [Thread(req, AtReserve)];
      assert View() == Exec(s0, Arrive(req));
      response, rest := Serve(req, w, |threads| - 1);
      steps := [Arrive(req)] + rest;
      assert steps[1..] == rest;
    }
  }

  // ----- one request as a function of what it meets -------------------------------------------

  /** The response, the store it leaves, and what it adds to the history. */
  datatype Served = Served(response: Response, store: SqlState, records: seq<Event>)

  /** The amount in USDT, as the balance is read. */
  function Usdt(req: Request): real {
    req.amount as real / 1_000_000.0
  }

  /** No RPC of the preflight raises, and what they read can pay for the request. */
  predicate Admitted(config: Fees.Config, req: Request, w: World) {
    w.readings.Some? && Fees.Payable(config, Usdt(req), w.readings.value)
  }

  /** The record of a success or a duplicate. */
  function OutcomeRecord(kind: AuditKind, req: Request, txid: Txid, w: World): seq<Event> {
    if w.audit == Raises(false) then [] else [Audited(kind, req.key, txid, req.amount, w.day)]
  }

  /** The records of a payout that preflight refuses, or whose preflight or broadcast raises. */
  function FailureRecords(config: Fees.Config, req: Request, w: World): seq<Event> {
    var refused := w.readings.Some? && !Admitted(config, req, w);
    var rejected := Audited(SendRejected, req.key, "", req.amount, w.day);
    var failed := Audited(SendFailed, req.key, "", req.amount, w.day);
    match w.audit
    case Works => [if refused then rejected else failed]
    case Raises(true) => if refused then [rejected, failed] else [failed]
    case Raises(false) => []
  }

  function CommitRecords(store: SqlState, req: Request, txid: Txid, w: World): seq<Event> {
    if store.open && (!RealTxid(txid) || w.commitError.Some?)
    then [CommitFault(req.key, RealTxid(txid) && w.commitError == Some(true))] else []
  }

  function ReleaseRecords(store: SqlState, req: Request, w: World): seq<Event> {
    if store.open && w.releaseError.Some?
    then [ReleaseFault(req.key, w.releaseError.value && HasStatus(store.rows, req.key, Pending))] else []
  }

  function Released(store: SqlState, req: Request, w: World): SqlState {
    if w.releaseError == Some(false) then store else SqlRelease(store, req.key).store
  }

  /** From an accepted broadcast on. */
  function Settled(req: Request, txid: Txid, w: World, store: SqlState): Served {
    var committed := SqlCommit(store, req.key, txid).store;
    if store.open && RealTxid(txid) && w.commitError.None? then
      Served(if w.audit.Works? then Ok(txid) else NotAudited(txid), committed, OutcomeRecord(SendSuccess, req, txid, w))
    else
      var late := if store.open && w.commitError == Some(true) then committed else store;
      Served(Failed, Released(late, req, w), CommitRecords(store, req, txid, w) + ReleaseRecords(late, req, w))
  }

  /** By the holder of the key. */
  function Paid(config: Fees.Config, req: Request, w: World, store: SqlState): Served {
    if Admitted(config, req, w) && w.broadcast.Some? then
      var rest := Settled(req, w.broadcast.value, w, store);
      rest.(records := [Broadcast(req.key, w.broadcast.value, req.amount)] + rest.records)
    else Served(Failed, Released(store, req, w), FailureRecords(config, req, w) + ReleaseRecords(store, req, w))
  }

  /** What `reserve` replies, the store it leaves, and the event. */
  datatype Slot = Slot(reply: Reply, store: SqlState, record: Event)

  function Reserved(req: Request, w: World, store: SqlState): Slot {
    if store.open && w.reserveError.Some? then
      Slot(Broken, SqlReserveFails(store, req.key, w.now, w.reserveError.value).store,
           ReserveFault(req.key, w.reserveError.value && req.key !in store.rows))
    else if store.open && HasStatus(store.rows, req.key, Pending) then
      var reply := if w.closesMeanwhile then Closed else Conflict;
      Slot(reply, store.(open := !w.closesMeanwhile), Answered(req.key, reply))
    else
      var pass := SqlReserve(store, req.key, w.now);
      Slot(pass.reply, pass.store, Answered(req.key, pass.reply))
  }

  /** What follows the reply of `reserve`. */
  function Continued(config: Fees.Config, req: Request, w: World, reply: Reply, store: SqlState): Served {
    match reply
    case Claimed => Paid(config, req, w, store)
    case Duplicate(txid) =>
      Served(if w.audit.Works? then Repeat(txid) else Failed, store, OutcomeRecord(SendDuplicate, req, txid, w))
    case _ => Served(Unavailable(reply), store, [])
  }

  function Handled(config: Fees.Config, req: Request, w: World, store: SqlState): Served {
    var slot := Reserved(req, w, store);
    var rest := Continued(config, req, w, slot.reply, slot.store);
    rest.(records := [slot.record] + rest.records)
  }

  /** The reservation is the caller's. */
  predicate Free(store: SqlState, req: Request, w: World) {
    store.open && w.reserveError.None? && req.key !in store.rows
  }

  /** A response of success comes exactly when the key is free, the balances cover the request, the
      chain takes it and the commit works; then the row is committed and every record is there. */
  lemma PaidExactlyWhen(config: Fees.Config, req: Request, w: World, store: SqlState)
    ensures var served := Handled(config, req, w, store);
            && (served.response.Ok? || served.response.NotAudited? <==>
                  Free(store, req, w) && Admitted(config, req, w) && w.broadcast.Some? && RealTxid(w.broadcast.value)
                  && w.commitError.None?)
            && (served.response.Ok? ==> w.audit.Works?) && (served.response.NotAudited? ==> w.audit.Raises?)
            && (served.response.Ok? || served.response.NotAudited? ==>
                  var txid := served.response.txid;
                  var success := Audited(SendSuccess, req.key, txid, req.amount, w.day);
                  && w.broadcast == Some(txid)
                  && w.readings.Some? && req.amount as real <= 1_000_000.0 * w.readings.value.usdt
                  && config.reserve <= w.readings.value.trx
                  && served.store == store.(rows := store.rows[req.key := Row(Status.Committed, txid, w.now)])
                  && served.records == [Answered(req.key, Claimed), Broadcast(req.key, txid, req.amount)] +
                       if w.audit == Raises(false) then [] else [success])
  {
    var held := SqlReserve(store, req.key, w.now).store;
    if Free(store, req, w) && w.broadcast.Some? && RealTxid(w.broadcast.value) {
      assert SqlCommit(held, req.key, w.broadcast.value).store.rows
             == store.rows[req.key := Row(Status.Committed, w.broadcast.value, w.now)];
    }
  }

  /** A claimed request that preflight refuses, or whose preflight or broadcast raises, fails with
      exactly these audit records, and the key is free again unless release raises too early. */
  lemma FailureIsRecorded(config: Fees.Config, req: Request, w: World, store: SqlState)
    requires Free(store, req, w) && !(Admitted(config, req, w) && w.broadcast.Some?)
    ensures var served := Handled(config, req, w, store);
            var refused := w.readings.Some? && !Admitted(config, req, w);
            var rejected := Audited(SendRejected, req.key, "", req.amount, w.day);
            var failed := Audited(SendFailed, req.key, "", req.amount, w.day);
            var written := match w.audit
              case Works => [if refused then rejected else failed]
              case Raises(landed) => if !landed then [] else if refused then [rejected, failed] else [failed];
            && served.response == Failed
            && served.records == [Answered(req.key, Claimed)] + written +
                 (if w.releaseError.Some? then [ReleaseFault(req.key, w.releaseError.value)] else [])
            && served.store.rows
               == (if w.releaseError == Some(false) then store.rows[req.key := Row(Pending, "", w.now)] else store.rows)
  {
    assert store.rows[req.key := Row(Pending, "", w.now)] - {req.key} == store.rows;
  }

  /** A payout that the chain took but commit refused fails. The key is free to be paid once more when the
      commit had no effect and the release works; a commit that raised too late keeps its row. */
  lemma CommitFaultLeaves(config: Fees.Config, req: Request, w: World, store: SqlState)
    requires Free(store, req, w) && Admitted(config, req, w) && w.broadcast.Some?
    requires !RealTxid(w.broadcast.value) || w.commitError.Some?
    ensures var served, txid := Handled(config, req, w, store), w.broadcast.value;
            var late := RealTxid(txid) && w.commitError == Some(true);
            && served.response == Failed
            && (late ==> served.store.rows == store.rows[req.key := Row(Status.Committed, txid, w.now)])
            && (!late && w.releaseError != Some(false) ==> served.store == store)
            && (!late && w.releaseError == Some(false) ==> served.store.rows == store.rows[req.key := Row(Pending, "", w.now)])
            && served.records == [Answered(req.key, Claimed), Broadcast(req.key, txid, req.amount), CommitFault(req.key, late)] +
                 if w.releaseError.Some? then [ReleaseFault(req.key, w.releaseError.value && !late)] else []
  {
    var claimed, row := store.rows[req.key := Row(Pending, "", w.now)], Row(Status.Committed, w.broadcast.value, w.now);
    assert claimed - {req.key} == store.rows && claimed[req.key := row] == store.rows[req.key := row];
  }

  /** A committed key is never paid again: the response repeats its txid, unless that cannot be audited. */
  lemma CommittedIsRepeated(config: Fees.Config, req: Request, w: World, store: SqlState)
    ensures var served := Handled(config, req, w, store);
            && (served.response.Repeat? <==>
                  store.open && w.reserveError.None? && HasStatus(store.rows, req.key, Status.Committed) && w.audit.Works?)
            && (served.response.Repeat? ==>
                  && served.store == store && served.response.txid == store.rows[req.key].txid
                  && served.records == [Answered(req.key, Reply.Duplicate(store.rows[req.key].txid)),
                                        Audited(SendDuplicate, req.key, store.rows[req.key].txid, req.amount, w.day)])
  {}

  /** What a response means for the store: success only on a free key and after its row was
      committed, a repeat only of a committed txid; an error of reserve leaves at most a pending row, and
      any other failure every row as it was, unless commit raised or release raised too early. */
  predicate Answers(response: Response, before: SqlState, after: SqlState, req: Request, w: World) {
    match response
    case Repeat(txid) => CommittedRow(before.rows, req.key, txid) && after == before
    case Unavailable(reply) =>
      if reply == Broken then
        before.open && w.reserveError.Some? && after == SqlReserveFails(before, req.key, w.now, w.reserveError.value).store
      else
      && after.rows == before.rows && (reply == Conflict || reply == Closed || reply.Unresolved?)
      && (after.open == before.open || (w.closesMeanwhile && HasStatus(before.rows, req.key, Pending) && reply == Closed))
    case Failed => w.commitError.None? && w.releaseError != Some(false) ==> after == before
    case _ =>
      && before.open && req.key !in before.rows
      && after == before.(rows := before.rows[req.key := Row(Status.Committed, response.txid, w.now)])
  }

  lemma ResponsesAreTrue(config: Fees.Config, req: Request, w: World, store: SqlState)
    ensures Answers(Handled(config, req, w, store).response, store, Handled(config, req, w, store).store, req, w)
  {
    PaidExactlyWhen(config, req, w, store);
    var row := Row(Pending, "", w.now);
    assert req.key !in store.rows ==> store.rows[req.key := row] - {req.key} == store.rows;
  }

  /** What a caller and an auditor may rely on: the response is true of the store; nothing is paid out that
      the balances do not cover; and with a working audit a claimed request that preflight refuses, or whose
      preflight or broadcast raises, leaves exactly its one record. */
  predicate Promised(config: Fees.Config, req: Request, w: World, before: SqlState, served: Served) {
    var refused := w.readings.Some? && !Admitted(config, req, w);
    && Answers(served.response, before, served.store, req, w)
    && (served.response.Ok? || served.response.NotAudited? ==>
          w.readings.Some? && req.amount as real <= 1_000_000.0 * w.readings.value.usdt && config.reserve <= w.readings.value.trx)
    && (Free(before, req, w) && !(Admitted(config, req, w) && w.broadcast.Some?) && w.audit.Works? ==>
          && served.response == Failed
          && served.records == [Answered(req.key, Claimed),
                                Audited(if refused then SendRejected else SendFailed, req.key, "", req.amount, w.day)] +
               if w.releaseError.Some? then [ReleaseFault(req.key, w.releaseError.value)] else [])
  }

  lemma PromisesKept(config: Fees.Config, req: Request, w: World, store: SqlState)
    ensures Promised(config, req, w, store, Handled(config, req, w, store))
  {
    ResponsesAreTrue(config, req, w, store);
    PaidExactlyWhen(config, req, w, store);
    if Free(store, req, w) && !(Admitted(config, req, w) && w.broadcast.Some?) {
      FailureIsRecorded(config, req, w, store);
    }
  }

  /** The thread's own steps, and a close that cuts its wait short. */
  predicate StepsOf(tid: nat, steps: seq<Step>) {
    forall step :: step in steps ==> step.Close? || (OfThread(step) && step.tid == tid)
  }

  lemma Once(s: State, step: Step)
    ensures Run(s, [step]) == Exec(s, step)
  {
    assert [step][1..] == [];
  }

  lemma Grown(log: seq<Event>, e: Event, more: seq<Event>)
    ensures log + [e] + more == log + ([e] + more)
  {}

  lemma First(s: State, a: Step, rest: seq<Step>)
    ensures Run(s, [a] + rest) == Run(Exec(s, a), rest)
  {
    assert ([a] + rest)[1..] == rest;
  }

  lemma Chain(s0: State, a: Step, s1: State, b: Step, s2: State)
    requires s1 == Exec(s0, a) && s2 == Exec(s1, b)
    ensures s2 == Run(s0, [a, b])
  {
    assert [a, b][1..] == [b];
    Once(s1, b);
  }

  /** A wait that ends in its timeout. */
  lemma WaitEnds(s: State, tid: nat, req: Request, now: real)
    requires s.open && tid < |s.threads| && s.threads[tid] == Thread(req, AtReserve) && HasStatus(s.rows, req.key, Pending)
    ensures Run(s, [Enter(tid, now), TimeOut(tid)])
            == s.(threads := s.threads[tid := Thread(req, Finished)], trace := s.trace + [Answered(req.key, Conflict)])
  {
    var s1 := Exec(s, Enter(tid, now));
    var s2 := Exec(s1, TimeOut(tid));
    assert s1.threads == s.threads[tid := Thread(req, Parked)];
    assert s2.threads == s.threads[tid := Thread(req, Finished)];
    Chain(s, Enter(tid, now), s1, TimeOut(tid), s2);
  }

  /** A wait that a close cuts short: the woken thread finds the store closed. */
  lemma WaitCut(s: State, tid: nat, req: Request, now: real)
    requires s.open && tid < |s.threads| && s.threads[tid] == Thread(req, AtReserve) && HasStatus(s.rows, req.key, Pending)
    requires forall t :: t in s.threads ==> t.pc != Parked
    ensures Run(s, [Enter(tid, now), Step.Close, Enter(tid, now)])
            == s.(open := false, threads := s.threads[tid := Thread(req, Finished)], trace := s.trace + [Answered(req.key, Closed)])
  {
    var s1 := Exec(s, Enter(tid, now));
    var s2 := Exec(s1, Step.Close);
    var s3 := Exec(s2, Enter(tid, now));
    assert s1.threads == s.threads[tid := Thread(req, Parked)];
    assert s2.threads == s.threads[tid := Thread(req, Woken)];
    assert s3.threads == s.threads[tid := Thread(req, Finished)];
    Chain3(s, Enter(tid, now), s1, Step.Close, s2, Enter(tid, now), s3);
  }

  lemma Chain3(s0: State, a: Step, s1: State, b: Step, s2: State, c: Step, s3: State)
    requires s1 == Exec(s0, a) && s2 == Exec(s1, b) && s3 == Exec(s2, c)
    ensures s3 == Run(s0, [a, b, c])
  {
    assert [a, b, c][1..] == [b, c];
    Chain(s1, b, s2, c, s3);
  }
}
