/** The `/send` pipeline as a transition system: request threads over the SQLite idempotency store. */
module SendPipeline {
  import opened Options
  import opened Idempotency

  /** One `/send` body; the amount in 10^-6 USDT. */
  datatype Request = Request(key: Key, amount: nat)

  /** Where a request thread is. */
  datatype PC =
    | AtReserve               // about to take the condition's lock in reserve
    | Parked                  // inside `_cond.wait`
    | Woken                   // notified, about to look at the row again
    | Holding                 // reserve returned None: preflight, then broadcast
    | Sent(txid: Txid)        // send_usdt returned this txid, commit is next
    | Releasing               // an exception is on its way through the `except BaseException`
    | Recorded(txid: Txid)    // commit returned, SEND_SUCCESS is next
    | Repeating(txid: Txid)   // reserve returned a txid, SEND_DUPLICATE is next
    | Finished                // response or exception handed to the framework
    | Dead                    // the process went away

  datatype Thread = Thread(req: Request, pc: PC)

  datatype AuditKind = SendSuccess | SendRejected | SendFailed | SendDuplicate

  /** History: what the chain, the audit log and the callers have seen. */
  datatype Event =
    | Broadcast(key: Key, txid: Txid, amount: nat)     // an accepted broadcast
    | Audited(kind: AuditKind, key: Key, txid: Txid, amount: nat, day: int)
    | Answered(key: Key, reply: Reply)                 // what a reserve call gave its caller
    | CommitFault(key: Key, applied: bool)             // commit raised while the store was open
    | ReserveFault(key: Key, applied: bool)            // reserve raised a database error
    | ReleaseFault(key: Key, applied: bool)            // release raised while the store was open

  datatype State = State(
    up: bool,                // a process is running
    open: bool,              // its store is not closed
    rows: Table,             // durable
    threads: seq<Thread>,    // every request ever received; the index is the thread
    trace: seq<Event>)
  {
    function Store(): SqlState {
      SqlState(open, rows)
    }
  }

  const INIT := State(true, true, map[], [], [])

  /** What a thread, the process or the surroundings do next (`skr_crypto/server/routes.py` over
      `skr_crypto/server/idempotency.py`). Every finite sequence of steps is a schedule; a step that is
      not enabled leaves the state alone, so a statement about every schedule is a statement about
      every interleaving. */
  datatype Step =
    | Arrive(req: Request)
    | Enter(tid: nat, now: real)                   // one pass of the reserve loop
    | EnterRaises(tid: nat, now: real, applied: bool)  // database error in it, before or after the INSERT took effect
    | TimeOut(tid: nat)
    | PreflightStops(tid: nat, log: seq<AuditKind>, day: int)
    | BroadcastFails(tid: nat, log: seq<AuditKind>, day: int)
    | BroadcastAccepted(tid: nat, txid: Txid)
    | Commit(tid: nat)
    | CommitRaises(tid: nat, applied: bool)        // database error, before or after the UPDATE took effect
    | Release(tid: nat)
    | ReleaseRaises(tid: nat, applied: bool)       // database error, before or after the DELETE took effect
    | Audit(tid: nat, day: int)
    | AuditRaises(tid: nat, landed: bool, day: int)  // AuditWriteError, the line written or not
    | Close
    | Crash
    | Restart

  predicate Live(pc: PC) {
    pc != Finished && pc != Dead
  }

  /** The thread's reservation is its own: it must commit or release. */
  predicate Holds(pc: PC) {
    pc.Holding? || pc.Sent? || pc.Releasing?
  }

  predicate At(s: State, tid: nat, pc: PC) {
    tid < |s.threads| && s.threads[tid].pc == pc
  }

  predicate Enabled(s: State, step: Step) {
    match step
    case Arrive(_) => s.up
    case Enter(tid, _) => At(s, tid, AtReserve) || At(s, tid, Woken)
    case EnterRaises(tid, _, applied) =>
      s.open && (At(s, tid, AtReserve) || At(s, tid, Woken)) && (applied ==> s.threads[tid].req.key !in s.rows)
    case TimeOut(tid) => At(s, tid, Parked)
    case PreflightStops(tid, log, _) => At(s, tid, Holding) && SendSuccess !in log && SendDuplicate !in log
    case BroadcastFails(tid, log, _) => At(s, tid, Holding) && SendSuccess !in log && SendDuplicate !in log
    case BroadcastAccepted(tid, txid) => At(s, tid, Holding) && txid != ""
    case Commit(tid) => tid < |s.threads| && s.threads[tid].pc.Sent?
    case CommitRaises(tid, _) => s.open && tid < |s.threads| && s.threads[tid].pc.Sent? && RealTxid(s.threads[tid].pc.txid)
    case Release(tid) => At(s, tid, Releasing)
    case ReleaseRaises(tid, applied) =>
      s.open && At(s, tid, Releasing) && (applied ==> HasStatus(s.rows, s.threads[tid].req.key, Pending))
    case Audit(tid, _) => tid < |s.threads| && (s.threads[tid].pc.Recorded? || s.threads[tid].pc.Repeating?)
    case AuditRaises(tid, _, _) => tid < |s.threads| && (s.threads[tid].pc.Recorded? || s.threads[tid].pc.Repeating?)
    case Close => s.open
    case Crash => s.up
    case Restart => !s.up
  }

  // ----- effects ------------------------------------------------------------------------------

  /** `notify_all`. */
  function WokenAll(threads: seq<Thread>): (r: seq<Thread>)
    ensures |r| == |threads|
  {
    seq(|threads|, i requires 0 <= i < |threads| =>
      if threads[i].pc == Parked then threads[i].(pc := Woken) else threads[i])
  }

  function Killed(threads: seq<Thread>): (r: seq<Thread>)
    ensures |r| == |threads|
  {
    seq(|threads|, i requires 0 <= i < |threads| =>
      if Live(threads[i].pc) then threads[i].(pc := Dead) else threads[i])
  }

  function AuditLines(kinds: seq<AuditKind>, req: Request, day: int): seq<Event> {
    seq(|kinds|, i requires 0 <= i < |kinds| => Audited(kinds[i], req.key, "", req.amount, day))
  }

  function SuccessLine(t: Thread, day: int): Event
    requires t.pc.Recorded? || t.pc.Repeating?
  {
    Audited(if t.pc.Recorded? then SendSuccess else SendDuplicate, t.req.key, t.pc.txid, t.req.amount, day)
  }

  /** Where a pass of reserve leaves the thread. */
  function AfterReserve(reply: Reply): PC {
    match reply
    case Claimed => Holding
    case Duplicate(txid) => Repeating(txid)
    case Waiting => Parked
    case _ => Finished
  }

  /** Steps of one request thread, as against those of the process. */
  predicate OfThread(step: Step) {
    !step.Arrive? && !step.Close? && !step.Crash? && !step.Restart?
  }

  function Me(s: State, step: Step): Thread
    requires OfThread(step) && Enabled(s, step)
  {
    s.threads[step.tid]
  }

  /** The store operation the step performs, None if it performs none. */
  function StoreCall(s: State, step: Step): Option<Op>
    requires Enabled(s, step)
  {
    match step
    case Enter(_, now) => Some(Op.Reserve(Me(s, step).req.key, now))
    case EnterRaises(_, now, true) => Some(Op.Reserve(Me(s, step).req.key, now))
    case Commit(_) => Some(Op.Commit(Me(s, step).req.key, Me(s, step).pc.txid))
    case CommitRaises(_, true) => Some(Op.Commit(Me(s, step).req.key, Me(s, step).pc.txid))
    case Release(_) => Some(Op.Release(Me(s, step).req.key))
    case ReleaseRaises(_, true) => Some(Op.Release(Me(s, step).req.key))
    case _ => None
  }

  function Replied(s: State, step: Step): Reply
    requires Enabled(s, step) && StoreCall(s, step).Some?
  {
    SqlStep(s.Store(), StoreCall(s, step).value).reply
  }

  function RowsAfter(s: State, step: Step): Table
    requires Enabled(s, step)
  {
    if step.Restart? then Recovered(s.rows)
    else if StoreCall(s, step).Some? then SqlStep(s.Store(), StoreCall(s, step).value).store.rows
    else s.rows
  }

  function PcAfter(s: State, step: Step): PC
    requires OfThread(step) && Enabled(s, step)
  {
    match step
    case Enter(_, _) => AfterReserve(Replied(s, step))
    case PreflightStops(_, _, _) => Releasing
    case BroadcastFails(_, _, _) => Releasing
    case BroadcastAccepted(_, txid) => Sent(txid)
    case Commit(_) => if Replied(s, step) == Done then Recorded(Me(s, step).pc.txid) else Releasing
    case CommitRaises(_, _) => Releasing
    case _ => Finished
  }

  /** `notify_all` runs: a commit took effect, or a release deleted a row. */
  predicate Notifies(s: State, step: Step)
    requires OfThread(step) && Enabled(s, step)
  {
    || (step.Commit? && Replied(s, step) == Done)
    || (step.Release? && s.open && HasStatus(s.rows, Me(s, step).req.key, Pending))
  }

  function ThreadsAfter(s: State, step: Step): seq<Thread>
    requires Enabled(s, step)
  {
    match step
    case Arrive(req) => s.threads + [Thread(req, AtReserve)]
    case Close => WokenAll(s.threads)
    case Crash => Killed(s.threads)
    case Restart => s.threads
    case _ =>
      var moved := s.threads[step.tid := Me(s, step).(pc := PcAfter(s, step))];
      if Notifies(s, step) then WokenAll(moved) else moved
  }

  /** What the step adds to the history. */
  function Logged(s: State, step: Step): seq<Event>
    requires Enabled(s, step)
  {
    match step
    case Enter(_, _) => if Replied(s, step) == Waiting then [] else [Answered(Me(s, step).req.key, Replied(s, step))]
    case TimeOut(_) => [Answered(Me(s, step).req.key, Conflict)]
    case PreflightStops(_, log, day) => AuditLines(log, Me(s, step).req, day)
    case BroadcastFails(_, log, day) => AuditLines(log, Me(s, step).req, day)
    case BroadcastAccepted(_, txid) => [Broadcast(Me(s, step).req.key, txid, Me(s, step).req.amount)]
    case Commit(_) => if s.open && Replied(s, step) != Done then [CommitFault(Me(s, step).req.key, false)] else []
    case CommitRaises(_, applied) => [CommitFault(Me(s, step).req.key, applied)]
    case EnterRaises(_, _, applied) => [ReserveFault(Me(s, step).req.key, applied)]
    case ReleaseRaises(_, applied) => [ReleaseFault(Me(s, step).req.key, applied)]
    case Audit(_, day) => [SuccessLine(Me(s, step), day)]
    case AuditRaises(_, landed, day) => if landed then [SuccessLine(Me(s, step), day)] else []
    case _ => []
  }

  function Exec(s: State, step: Step): State {
    if !Enabled(s, step) then s else
      State(
        if step.Restart? then true else if step.Crash? then false else s.up,
        if step.Restart? then true else if step.Crash? || step.Close? then false else s.open,
        RowsAfter(s, step), ThreadsAfter(s, step), s.trace + Logged(s, step))
  }

  function Run(s: State, steps: seq<Step>): State
    decreases |steps|
  {
    if steps == [] then s else Run(Exec(s, steps[0]), steps[1..])
  }

  lemma OneStep(s: State, step: Step)
    ensures Run(s, [step]) == Exec(s, step)
  {
    assert [step][1..] == [];
  }

  // ----- counting -----------------------------------------------------------------------------

  function Broadcasts(trace: seq<Event>, key: Key): nat {
    if trace == [] then 0
    else
      var e := trace[|trace| - 1];
      Broadcasts(trace[..|trace| - 1], key) + (if e.Broadcast? && e.key == key then 1 else 0)
  }

  /** Commits on the key that failed before taking effect. */
  function LostCommits(trace: seq<Event>, key: Key): nat {
    if trace == [] then 0
    else
      var e := trace[|trace| - 1];
      LostCommits(trace[..|trace| - 1], key) + (if e.CommitFault? && e.key == key && !e.applied then 1 else 0)
  }

  lemma CountOne(trace: seq<Event>, e: Event)
    ensures forall k :: Broadcasts(trace + [e], k) ==
                        Broadcasts(trace, k) + (if e.Broadcast? && e.key == k then 1 else 0)
    ensures forall k :: LostCommits(trace + [e], k) ==
                        LostCommits(trace, k) + (if e.CommitFault? && e.key == k && !e.applied then 1 else 0)
  {
    assert (trace + [e])[..|trace|] == trace;
  }

  lemma {:induction false} CountQuiet(trace: seq<Event>, more: seq<Event>)
    requires forall e :: e in more ==> !e.Broadcast? && !e.CommitFault?
    ensures forall k :: Broadcasts(trace + more, k) == Broadcasts(trace, k)
    ensures forall k :: LostCommits(trace + more, k) == LostCommits(trace, k)
  {
    if more == [] {
      assert trace + more == trace;
    } else {
      var last := |more| - 1;
      assert trace + more == (trace + more[..last]) + [more[last]];
      CountQuiet(trace, more[..last]);
      CountOne(trace + more[..last], more[last]);
    }
  }

  /** A database error has left a pending row that nobody holds: reserve raised after its INSERT, or
      release raised before its DELETE. */
  ghost predicate Abandoned(trace: seq<Event>, key: Key) {
    ReserveFault(key, true) in trace || ReleaseFault(key, false) in trace
  }

  /** A database error has hit the key that can cost a wake-up: one that abandoned its row, or a
      commit or a release that raised after taking effect. */
  ghost predicate Faulted(trace: seq<Event>, key: Key) {
    Abandoned(trace, key) || CommitFault(key, true) in trace || ReleaseFault(key, true) in trace
  }

  // ----- the invariant ------------------------------------------------------------------------

  predicate IsHolder(s: State, i: nat, key: Key) {
    i < |s.threads| && Holds(s.threads[i].pc) && s.threads[i].req.key == key
  }

  ghost predicate HasHolder(s: State, key: Key) {
    exists i: nat :: IsHolder(s, i, key)
  }

  predicate CommittedRow(rows: Table, key: Key, txid: Txid) {
    HasStatus(rows, key, Status.Committed) && rows[key].txid == txid
  }

  /** A held row is pending or, in the hands of a thread whose own commit raised too late, committed. */
  predicate HeldRow(s: State, i: nat, key: Key)
    requires i < |s.threads|
  {
    || HasStatus(s.rows, key, Pending)
    || (s.threads[i].pc.Releasing? && HasStatus(s.rows, key, Status.Committed) && CommitFault(key, true) in s.trace)
  }

  /** Holders: no two on one key, and the row they hold is there. */
  ghost predicate HolderInv(s: State) {
    && (s.open ==> s.up)
    && (forall i: nat, k :: IsHolder(s, i, k) ==>
          HeldRow(s, i, k))
    && (forall i: nat, j: nat, k :: IsHolder(s, i, k) && IsHolder(s, j, k) ==> i == j)
    && (forall i: nat :: i < |s.threads| && Live(s.threads[i].pc) ==> s.up)
  }

  /** A pending row of an open store is held, unless it was abandoned; an abandoned row stays, and
      nobody ever holds it. */
  ghost predicate PendingInv(s: State) {
    && (forall k :: s.open && HasStatus(s.rows, k, Pending) ==> HasHolder(s, k) || Abandoned(s.trace, k))
    && (forall k :: Abandoned(s.trace, k) ==> k in s.rows && (HasStatus(s.rows, k, Pending) ==> !HasHolder(s, k)))
  }

  /** Waiters: the row they wait for is pending, unless a database error has hit the key. */
  ghost predicate WaiterInv(s: State) {
    forall i: nat :: i < |s.threads| ==> WaiterOk(s, s.threads[i])
  }

  ghost predicate WaiterOk(s: State, t: Thread) {
    && (t.pc.Parked? ==>
          && s.open && !HasStatus(s.rows, t.req.key, Unknown)
          && (HasStatus(s.rows, t.req.key, Pending) || Faulted(s.trace, t.req.key))
          && (t.req.key !in s.rows ==> ReleaseFault(t.req.key, true) in s.trace))
    && (t.pc.Woken? ==> !HasStatus(s.rows, t.req.key, Unknown))
  }

  /** No more accepted broadcasts on a key than lost commits, plus one the row accounts for. */
  ghost predicate CountInv(s: State) {
    && (forall k :: Broadcasts(s.trace, k) <= LostCommits(s.trace, k) + (if k in s.rows then 1 else 0))
    && (forall i: nat, k :: IsHolder(s, i, k) && Uncharged(s, s.threads[i]) ==>
          Broadcasts(s.trace, k) <= LostCommits(s.trace, k))
  }

  /** The holder has not broadcast, or its commit is known to be lost. */
  predicate Uncharged(s: State, t: Thread) {
    t.pc.Holding? || (t.pc.Releasing? && s.open && HasStatus(s.rows, t.req.key, Pending))
  }

  ghost predicate BroadcastOf(trace: seq<Event>, key: Key, txid: Txid) {
    exists amount :: Broadcast(key, txid, amount) in trace
  }

  /** A committed row carries the txid of an accepted broadcast. */
  ghost predicate RowTrail(s: State) {
    forall k :: HasStatus(s.rows, k, Status.Committed) ==> BroadcastOf(s.trace, k, s.rows[k].txid)
  }

  /** A txid a thread carries was broadcast, or is in its row. */
  ghost predicate ThreadTrail(s: State) {
    forall i: nat :: i < |s.threads| ==> TxidOk(s, s.threads[i])
  }

  ghost predicate TxidOk(s: State, t: Thread) {
    match t.pc
    case Sent(txid) => Broadcast(t.req.key, txid, t.req.amount) in s.trace
    case Recorded(txid) =>
      CommittedRow(s.rows, t.req.key, txid) && Broadcast(t.req.key, txid, t.req.amount) in s.trace
    case Repeating(txid) => CommittedRow(s.rows, t.req.key, txid)
    case _ => true
  }

  /** Audited successes and duplicate replies name the committed txid. */
  ghost predicate EventTrail(s: State) {
    forall e :: e in s.trace ==> EventOk(s, e)
  }

  ghost predicate EventOk(s: State, e: Event) {
    && (e.Audited? && e.kind == SendSuccess ==>
          CommittedRow(s.rows, e.key, e.txid) && Broadcast(e.key, e.txid, e.amount) in s.trace)
    && (e.Answered? && e.reply.Duplicate? ==> CommittedRow(s.rows, e.key, e.reply.txid))
  }

  ghost predicate Inv(s: State) {
    && HolderInv(s) && PendingInv(s) && WaiterInv(s) && CountInv(s)
    && RowTrail(s) && ThreadTrail(s) && EventTrail(s)
  }

  /** A step makes a holder only by claiming a key without a row. */
  lemma HolderOrigin(s: State, step: Step, i: nat, key: Key)
    requires IsHolder(Exec(s, step), i, key)
    ensures IsHolder(s, i, key) || (step.Enter? && step.tid == i && Claims(s, step))
  {
  }

  lemma MoverHolds(s: State, step: Step)
    ensures OfThread(step) && Enabled(s, step) && Holds(Me(s, step).pc) ==>
              IsHolder(s, step.tid, Me(s, step).req.key)
  {
  }

  /** Every call of commit or release, whatever comes of it, is by the only holder of its key; a
      commit finds its row pending, a release finds it pending or, after a commit that raised too
      late, committed. */
  lemma HolderMoves(s: State, step: Step)
    requires HolderInv(s) && Enabled(s, step)
    requires step.Commit? || step.CommitRaises? || step.Release? || step.ReleaseRaises?
    ensures var key := Me(s, step).req.key;
            && IsHolder(s, step.tid, key) && (forall j: nat :: IsHolder(s, j, key) ==> j == step.tid)
            && (StoreCall(s, step).Some? ==> StoreCall(s, step).value.key == key)
            && (HasStatus(s.rows, key, Pending)
                || ((step.Release? || step.ReleaseRaises?) && HasStatus(s.rows, key, Status.Committed)
                    && CommitFault(key, true) in s.trace))
  {
    assert IsHolder(s, step.tid, Me(s, step).req.key);
  }

  predicate Claims(s: State, step: Step)
    requires step.Enter?
  {
    Enabled(s, step) && s.open && s.threads[step.tid].req.key !in s.rows
  }

  lemma HolderKept(s: State, step: Step)
    requires HolderInv(s)
    ensures HolderInv(Exec(s, step))
  {
    var s' := Exec(s, step);
    forall i: nat, k | IsHolder(s', i, k)
      ensures IsHolder(s, i, k) || (step.Enter? && step.tid == i && Claims(s, step))
      ensures HeldRow(s', i, k)
    {
      HolderOrigin(s, step, i, k);
      HolderRow(s, step, i, k);
    }
    if step.Enter? && Claims(s, step) {
      assert forall i: nat :: !IsHolder(s, i, Me(s, step).req.key);
    }
  }

  lemma HolderRow(s: State, step: Step, i: nat, k: Key)
    requires HolderInv(s) && IsHolder(Exec(s, step), i, k)
    ensures HeldRow(Exec(s, step), i, k)
  {
    HolderOrigin(s, step, i, k);
    if IsHolder(s, i, k) { RowOfHolder(s, step, i, k); }
  }

  lemma RowOfHolder(s: State, step: Step, i: nat, k: Key)
    requires HolderInv(s) && IsHolder(s, i, k) && IsHolder(Exec(s, step), i, k)
    ensures HeldRow(Exec(s, step), i, k)
  {
    if Enabled(s, step) {
      ThreadMoves(s, step, i);
      if OfThread(step) && step.tid == i {
        OwnRow(s, step, k);
      } else {
        OthersRow(s, step, i, k);
      }
    }
  }

  lemma OwnRow(s: State, step: Step, k: Key)
    requires HolderInv(s) && OfThread(step) && Enabled(s, step)
    requires IsHolder(s, step.tid, k) && IsHolder(Exec(s, step), step.tid, k)
    ensures HeldRow(Exec(s, step), step.tid, k)
  {
    if step.CommitRaises? { assert CommitFault(k, step.applied) in Logged(s, step); }
  }

  lemma OthersRow(s: State, step: Step, i: nat, k: Key)
    requires HolderInv(s) && IsHolder(s, i, k) && IsHolder(Exec(s, step), i, k)
    requires Enabled(s, step) && !(OfThread(step) && step.tid == i)
    ensures Exec(s, step).threads[i] == s.threads[i] && HeldRow(Exec(s, step), i, k)
  {
    MoverHolds(s, step);
    ThreadMoves(s, step, i);
  }

  lemma PendingKept(s: State, step: Step)
    requires HolderInv(s) && PendingInv(s)
    ensures PendingInv(Exec(s, step))
  {
    var s' := Exec(s, step);
    forall k | s'.open && HasStatus(s'.rows, k, Pending)
      ensures HasHolder(s', k) || Abandoned(s'.trace, k)
    {
      if s.open && HasStatus(s.rows, k, Pending) {
        if !Abandoned(s.trace, k) {
          var i: nat :| IsHolder(s, i, k);
          HolderStays(s, step, i, k);
          assert IsHolder(s', i, k) || Abandoned(s'.trace, k);
        }
      } else {
        NewlyPending(s, step, k);
      }
    }
    forall k | Abandoned(s'.trace, k)
      ensures k in s'.rows && (HasStatus(s'.rows, k, Pending) ==> !HasHolder(s', k))
    {
      AbandonedStays(s, step, k);
    }
  }

  lemma AbandonedStays(s: State, step: Step, k: Key)
    requires HolderInv(s) && PendingInv(s) && Abandoned(Exec(s, step).trace, k)
    ensures k in Exec(s, step).rows && (HasStatus(Exec(s, step).rows, k, Pending) ==> !HasHolder(Exec(s, step), k))
  {
    var s' := Exec(s, step);
    MoverHolds(s, step);
    if !Abandoned(s.trace, k) { NewlyAbandoned(s, step, k); }
    forall i: nat ensures IsHolder(s', i, k) ==> IsHolder(s, i, k) || (step.Enter? && step.tid == i && Claims(s, step)) {
      if IsHolder(s', i, k) { HolderOrigin(s, step, i, k); }
    }
  }

  lemma NewlyAbandoned(s: State, step: Step, k: Key)
    requires Abandoned(Exec(s, step).trace, k) && !Abandoned(s.trace, k)
    ensures Enabled(s, step) && OfThread(step) && Me(s, step).req.key == k
    ensures (step.EnterRaises? && step.applied) || (step.ReleaseRaises? && !step.applied)
  {
    assert ReserveFault(k, true) in Logged(s, step) || ReleaseFault(k, false) in Logged(s, step);
  }

  lemma HolderStays(s: State, step: Step, i: nat, k: Key)
    requires HolderInv(s) && IsHolder(s, i, k)
    requires Exec(s, step).open && HasStatus(Exec(s, step).rows, k, Pending)
    ensures IsHolder(Exec(s, step), i, k) || Abandoned(Exec(s, step).trace, k)
  {
    if step.ReleaseRaises? && step.tid == i && Enabled(s, step) { assert ReleaseFault(k, step.applied) in Logged(s, step); }
  }

  lemma NewlyPending(s: State, step: Step, k: Key)
    requires Exec(s, step).open && HasStatus(Exec(s, step).rows, k, Pending)
    requires !(s.open && HasStatus(s.rows, k, Pending))
    ensures HasHolder(Exec(s, step), k) || Abandoned(Exec(s, step).trace, k)
  {
    if step.Enter? {
      assert IsHolder(Exec(s, step), step.tid, k);
    } else {
      assert ReserveFault(k, true) in Logged(s, step);
    }
  }

  /** A committed row never changes again. */
  lemma CommittedStays(s: State, step: Step, key: Key, txid: Txid)
    requires HolderInv(s) && CommittedRow(s.rows, key, txid)
    ensures CommittedRow(Exec(s, step).rows, key, txid)
  {
    MoverHolds(s, step);
  }

  /** An unknown row never changes again; in particular it never becomes free. */
  lemma UnknownStays(s: State, step: Step, key: Key)
    requires HolderInv(s) && HasStatus(s.rows, key, Unknown)
    ensures HasStatus(Exec(s, step).rows, key, Unknown) && Exec(s, step).rows[key] == s.rows[key]
  {
    MoverHolds(s, step);
  }

  /** `notify_all` runs in this step. */
  predicate WakesAll(s: State, step: Step)
    requires Enabled(s, step)
  {
    step.Close? || (OfThread(step) && Notifies(s, step))
  }

  /** A step moves its own thread; it wakes every parked thread if it notifies, kills every live one
      if it is a crash, and leaves all others alone. */
  lemma ThreadMoves(s: State, step: Step, i: nat)
    requires Enabled(s, step) && i < |Exec(s, step).threads|
    ensures var t' := Exec(s, step).threads[i];
            if i == |s.threads| then step.Arrive? && t' == Thread(step.req, AtReserve)
            else if OfThread(step) && i == step.tid then t' == Me(s, step).(pc := PcAfter(s, step))
            else if step.Crash? && Live(s.threads[i].pc) then t' == s.threads[i].(pc := Dead)
            else if WakesAll(s, step) && s.threads[i].pc == Parked then t' == s.threads[i].(pc := Woken)
            else t' == s.threads[i]
    ensures |Exec(s, step).threads| == |s.threads| + if step.Arrive? then 1 else 0
  {
  }

  /** A pending row goes away only when its waiters are woken, or by a commit or release that raises
      after taking effect. */
  lemma PendingLeaves(s: State, step: Step, key: Key)
    requires HolderInv(s) && HasStatus(s.rows, key, Pending) && s.up
    ensures var s' := Exec(s, step);
            || HasStatus(s'.rows, key, Pending)
            || (OfThread(step) && Enabled(s, step) && Notifies(s, step) && !HasStatus(s'.rows, key, Unknown))
            || (step.CommitRaises? && step.applied && HasStatus(s'.rows, key, Status.Committed) && CommitFault(key, true) in s'.trace)
            || (step.ReleaseRaises? && step.applied && key !in s'.rows && ReleaseFault(key, true) in s'.trace)
  {
    MoverHolds(s, step);
  }

  lemma WaiterKept(s: State, step: Step)
    requires HolderInv(s) && WaiterInv(s)
    ensures WaiterInv(Exec(s, step))
  {
    var s' := Exec(s, step);
    if Enabled(s, step) {
      forall i: nat | i < |s'.threads|
        ensures WaiterOk(s', s'.threads[i])
      {
        ThreadMoves(s, step, i);
        WaiterStep(s, step, i);
      }
    }
  }

  lemma WaiterStep(s: State, step: Step, i: nat)
    requires HolderInv(s) && Enabled(s, step) && i < |Exec(s, step).threads|
    requires i < |s.threads| ==> WaiterOk(s, s.threads[i])
    ensures WaiterOk(Exec(s, step), Exec(s, step).threads[i])
  {
    var s' := Exec(s, step);
    ThreadMoves(s, step, i);
    if i < |s.threads| && (s.threads[i].pc.Parked? || s.threads[i].pc.Woken?) {
      var key := s.threads[i].req.key;
      if HasStatus(s.rows, key, Pending) {
        PendingLeaves(s, step, key);
      } else if HasStatus(s.rows, key, Status.Committed) {
        CommittedStays(s, step, key, s.rows[key].txid);
      }
    }
  }

  lemma CountKept(s: State, step: Step)
    requires HolderInv(s) && CountInv(s)
    ensures CountInv(Exec(s, step))
  {
    var s' := Exec(s, step);
    CountStep(s, step);
    forall k ensures Broadcasts(s'.trace, k) <= LostCommits(s'.trace, k) + (if k in s'.rows then 1 else 0) {
      CountOfKey(s, step, k);
    }
    forall i: nat, k | IsHolder(s', i, k) && Uncharged(s', s'.threads[i])
      ensures Broadcasts(s'.trace, k) <= LostCommits(s'.trace, k)
    {
      CountOfHolder(s, step, i, k);
    }
  }

  lemma CountOfKey(s: State, step: Step, k: Key)
    requires HolderInv(s) && CountInv(s)
    ensures Broadcasts(Exec(s, step).trace, k) <=
            LostCommits(Exec(s, step).trace, k) + (if k in Exec(s, step).rows then 1 else 0)
  {
    CountStep(s, step);
    MoverHolds(s, step);
    if Broadcasting(s, step, k) {
      assert IsHolder(s, step.tid, k) && Uncharged(s, s.threads[step.tid]);
    } else if k in s.rows && k !in Exec(s, step).rows {
      assert IsHolder(s, step.tid, k) && Uncharged(s, s.threads[step.tid]);
    }
  }

  lemma CountOfHolder(s: State, step: Step, i: nat, k: Key)
    requires HolderInv(s) && CountInv(s)
    requires IsHolder(Exec(s, step), i, k) && Uncharged(Exec(s, step), Exec(s, step).threads[i])
    ensures Broadcasts(Exec(s, step).trace, k) <= LostCommits(Exec(s, step).trace, k)
  {
    CountStep(s, step);
    HolderOrigin(s, step, i, k);
    if IsHolder(s, i, k) { UnchargedBefore(s, step, i, k); }
  }

  lemma UnchargedBefore(s: State, step: Step, i: nat, k: Key)
    requires HolderInv(s) && IsHolder(s, i, k)
    requires IsHolder(Exec(s, step), i, k) && Uncharged(Exec(s, step), Exec(s, step).threads[i])
    ensures !Broadcasting(s, step, k)
    ensures Uncharged(s, s.threads[i]) || LosingCommit(s, step, k)
  {
    MoverHolds(s, step);
    if Enabled(s, step) {
      ThreadMoves(s, step, i);
      if !(OfThread(step) && step.tid == i) { OthersRow(s, step, i, k); }
    }
  }

  predicate Broadcasting(s: State, step: Step, key: Key) {
    step.BroadcastAccepted? && Enabled(s, step) && s.threads[step.tid].req.key == key
  }

  predicate LosingCommit(s: State, step: Step, key: Key) {
    && Enabled(s, step)
    && ((step.CommitRaises? && !step.applied && s.threads[step.tid].req.key == key)
        || (step.Commit? && s.open && s.threads[step.tid].req.key == key && !RealTxid(s.threads[step.tid].pc.txid)))
  }

  lemma CountStep(s: State, step: Step)
    ensures forall k :: Broadcasts(Exec(s, step).trace, k) ==
                        Broadcasts(s.trace, k) + (if Broadcasting(s, step, k) then 1 else 0)
    ensures forall k :: LostCommits(Exec(s, step).trace, k) ==
                        LostCommits(s.trace, k) + (if LosingCommit(s, step, k) then 1 else 0)
  {
    if Enabled(s, step) {
      var more := Logged(s, step);
      if step.PreflightStops? || step.BroadcastFails? || more == [] {
        CountQuiet(s.trace, more);
      } else {
        assert more == [more[0]];
        CountOne(s.trace, more[0]);
      }
    }
  }

  lemma RowTrailKept(s: State, step: Step)
    requires HolderInv(s) && RowTrail(s) && ThreadTrail(s)
    ensures RowTrail(Exec(s, step))
  {
    var s' := Exec(s, step);
    forall k | HasStatus(s'.rows, k, Status.Committed)
      ensures BroadcastOf(s'.trace, k, s'.rows[k].txid)
    {
      if HasStatus(s.rows, k, Status.Committed) {
        CommittedStays(s, step, k, s.rows[k].txid);
        var amount :| Broadcast(k, s.rows[k].txid, amount) in s.trace;
        assert Broadcast(k, s'.rows[k].txid, amount) in s'.trace;
      } else {
        assert TxidOk(s, Me(s, step));
        assert Broadcast(k, s'.rows[k].txid, Me(s, step).req.amount) in s'.trace;
      }
    }
  }

  lemma ThreadTrailKept(s: State, step: Step)
    requires HolderInv(s) && ThreadTrail(s)
    ensures ThreadTrail(Exec(s, step))
  {
    var s' := Exec(s, step);
    forall i: nat | i < |s'.threads|
      ensures TxidOk(s', s'.threads[i])
    {
      if Enabled(s, step) { TxidStep(s, step, i); }
    }
  }

  lemma TxidStep(s: State, step: Step, i: nat)
    requires HolderInv(s) && Enabled(s, step) && i < |Exec(s, step).threads|
    requires i < |s.threads| ==> TxidOk(s, s.threads[i])
    ensures TxidOk(Exec(s, step), Exec(s, step).threads[i])
  {
    ThreadMoves(s, step, i);
    if i < |s.threads| {
      MoverHolds(s, step);
      var t := s.threads[i];
      if t.pc.Recorded? || t.pc.Repeating? { CommittedStays(s, step, t.req.key, t.pc.txid); }
    }
  }

  lemma EventTrailKept(s: State, step: Step)
    requires HolderInv(s) && ThreadTrail(s) && EventTrail(s)
    ensures EventTrail(Exec(s, step))
  {
    var s' := Exec(s, step);
    forall e | e in s'.trace
      ensures EventOk(s', e)
    {
      if e in s.trace {
        if e.Audited? && e.kind == SendSuccess { CommittedStays(s, step, e.key, e.txid); }
        if e.Answered? && e.reply.Duplicate? { CommittedStays(s, step, e.key, e.reply.txid); }
      } else {
        assert e in Logged(s, step);
        NewEventOk(s, step, e);
      }
    }
  }

  lemma NewEventOk(s: State, step: Step, e: Event)
    requires HolderInv(s) && ThreadTrail(s) && Enabled(s, step) && e in Logged(s, step)
    ensures EventOk(Exec(s, step), e)
  {
    if OfThread(step) { assert TxidOk(s, Me(s, step)); }
  }

  lemma {:induction false} InvAlways(s: State, steps: seq<Step>)
    requires Inv(s)
    ensures Inv(Run(s, steps))
    decreases |steps|
  {
    if steps != [] {
      HolderKept(s, steps[0]);
      PendingKept(s, steps[0]);
      WaiterKept(s, steps[0]);
      CountKept(s, steps[0]);
      RowTrailKept(s, steps[0]);
      ThreadTrailKept(s, steps[0]);
      EventTrailKept(s, steps[0]);
      InvAlways(Exec(s, steps[0]), steps[1..]);
    }
  }

  // ----- what can happen ----------------------------------------------------------------------

  /** The moves of a thread, by where it is: nothing is left out of the schedules. */
  lemma ThreadCan(s: State, tid: nat, now: real, txid: Txid, day: int, b: bool)
    requires tid < |s.threads|
    ensures var key := s.threads[tid].req.key;
            match s.threads[tid].pc
            case AtReserve => Enabled(s, Enter(tid, now)) && (s.open ==> Enabled(s, EnterRaises(tid, now, b && key !in s.rows)))
            case Woken => Enabled(s, Enter(tid, now)) && (s.open ==> Enabled(s, EnterRaises(tid, now, b && key !in s.rows)))
            case Parked => Enabled(s, TimeOut(tid))
            case Holding =>
              && (forall log :: log in {[], [SendFailed], [SendRejected], [SendRejected, SendFailed]} ==>
                    Enabled(s, PreflightStops(tid, log, day)) && Enabled(s, BroadcastFails(tid, log, day)))
              && (txid != "" ==> Enabled(s, BroadcastAccepted(tid, txid)))
            case Sent(sent) => Enabled(s, Step.Commit(tid)) && (s.open && RealTxid(sent) ==> Enabled(s, CommitRaises(tid, b)))
            case Releasing =>
              Enabled(s, Step.Release(tid)) && (s.open ==> Enabled(s, ReleaseRaises(tid, b && HasStatus(s.rows, key, Pending))))
            case Recorded(_) => Enabled(s, Audit(tid, day)) && Enabled(s, AuditRaises(tid, b, day))
            case Repeating(_) => Enabled(s, Audit(tid, day)) && Enabled(s, AuditRaises(tid, b, day))
            case _ => forall step :: OfThread(step) && step.tid == tid ==> !Enabled(s, step)
  {}

  /** A process that runs takes requests and can die at any point, and one that does not can start; a store
      can be closed while it is open. What each does to the process and its store. */
  lemma ProcessCan(s: State, req: Request)
    ensures s.up ==>
              && Exec(s, Arrive(req)) == s.(threads := s.threads + [Thread(req, AtReserve)])
              && !Exec(s, Crash).up && !Exec(s, Crash).open && Exec(s, Crash).rows == s.rows
              && forall i :: 0 <= i < |s.threads| ==>
                   Exec(s, Crash).threads[i].pc == if s.threads[i].pc == Finished then Finished else Dead
    ensures !s.up ==> Exec(s, Restart).up && Exec(s, Restart).open && Exec(s, Restart).threads == s.threads
    ensures s.open ==> !Exec(s, Step.Close).open && Exec(s, Step.Close).rows == s.rows && Exec(s, Step.Close).up == s.up
  {}
}
