/** Crash-free runs of the `/send` pipeline whose commits work and whose audit lines land: the audit
    log, the store and the chain agree, and the period report totals what was sent. */
module SmoothRuns {
  import opened Options
  import opened Idempotency
  import opened SendPipeline
  import Reporting

  /** No close or crash, no commit that raises, no audit line that is lost, and no txid equal to the
      sentinel. Reserve and release may raise, and so may an audit write whose line has landed. */
  predicate Smooth(step: Step) {
    match step
    case Close => false
    case Crash => false
    case CommitRaises(_, _) => false
    case AuditRaises(_, landed, _) => landed
    case BroadcastAccepted(_, txid) => RealTxid(txid)
    case _ => true
  }

  predicate SmoothRun(steps: seq<Step>) {
    forall step :: step in steps ==> Smooth(step)
  }

  predicate Quiet(s: State) {
    forall t :: t in s.threads ==> !Live(t.pc)
  }

  // ----- amounts ------------------------------------------------------------------------------

  /** What one payout adds to a column of the report: itself, or its amount. */
  function Worth(amount: nat, f: Reporting.Field): int {
    match f
    case Successes => 1
    case Volume => amount
    case _ => 0
  }

  function SentWorth(e: Event, f: Reporting.Field): int {
    if e.Broadcast? then Worth(e.amount, f) else 0
  }

  function AuditedWorth(e: Event, f: Reporting.Field): int {
    if e.Audited? && e.kind == SendSuccess then Worth(e.amount, f) else 0
  }

  /** What the chain accepted. */
  function TotalSent(trace: seq<Event>, f: Reporting.Field): int {
    if trace == [] then 0 else TotalSent(trace[..|trace| - 1], f) + SentWorth(trace[|trace| - 1], f)
  }

  function TotalAudited(trace: seq<Event>, f: Reporting.Field): int {
    if trace == [] then 0 else TotalAudited(trace[..|trace| - 1], f) + AuditedWorth(trace[|trace| - 1], f)
  }

  function Due(t: Thread, f: Reporting.Field): int {
    if t.pc.Sent? || t.pc.Recorded? then Worth(t.req.amount, f) else 0
  }

  /** What has been sent but not yet audited. */
  function InFlight(threads: seq<Thread>, f: Reporting.Field): int {
    if threads == [] then 0 else InFlight(threads[..|threads| - 1], f) + Due(threads[|threads| - 1], f)
  }

  lemma TotalsGrow(trace: seq<Event>, e: Event, f: Reporting.Field)
    ensures TotalSent(trace + [e], f) == TotalSent(trace, f) + SentWorth(e, f)
    ensures TotalAudited(trace + [e], f) == TotalAudited(trace, f) + AuditedWorth(e, f)
  {
    assert (trace + [e])[..|trace|] == trace;
  }

  lemma {:induction false} TotalsSame(trace: seq<Event>, more: seq<Event>, f: Reporting.Field)
    requires forall e :: e in more ==> SentWorth(e, f) == 0 && AuditedWorth(e, f) == 0
    ensures TotalSent(trace + more, f) == TotalSent(trace, f)
    ensures TotalAudited(trace + more, f) == TotalAudited(trace, f)
  {
    if more == [] {
      assert trace + more == trace;
    } else {
      var last := |more| - 1;
      assert trace + more == (trace + more[..last]) + [more[last]];
      TotalsSame(trace, more[..last], f);
      TotalsGrow(trace + more[..last], more[last], f);
    }
  }

  lemma {:induction false} InFlightSame(a: seq<Thread>, b: seq<Thread>, f: Reporting.Field)
    requires |a| == |b| && forall i :: 0 <= i < |a| ==> Due(a[i], f) == Due(b[i], f)
    ensures InFlight(a, f) == InFlight(b, f)
  {
    if a != [] { InFlightSame(a[..|a| - 1], b[..|b| - 1], f); }
  }

  lemma {:induction false} InFlightUpdate(threads: seq<Thread>, i: nat, t: Thread, f: Reporting.Field)
    requires i < |threads|
    ensures InFlight(threads[i := t], f) == InFlight(threads, f) - Due(threads[i], f) + Due(t, f)
  {
    var last := |threads| - 1;
    if i == last {
      assert threads[i := t][..last] == threads[..last];
    } else {
      assert threads[i := t][..last] == threads[..last][i := t];
      InFlightUpdate(threads[..last], i, t, f);
    }
  }

  lemma {:induction false} NothingInFlight(threads: seq<Thread>, f: Reporting.Field)
    requires forall t :: t in threads ==> Due(t, f) == 0
    ensures InFlight(threads, f) == 0
  {
    if threads != [] { NothingInFlight(threads[..|threads| - 1], f); }
  }

  // ----- the invariant of smooth runs ---------------------------------------------------------

  ghost predicate Carries(s: State, i: nat, key: Key, txid: Txid) {
    i < |s.threads| && s.threads[i].req.key == key && s.threads[i].pc == Sent(txid)
  }

  ghost predicate Auditing(s: State, i: nat, key: Key, txid: Txid) {
    i < |s.threads| && s.threads[i].req.key == key && s.threads[i].pc == Recorded(txid)
  }

  ghost predicate AuditedAs(trace: seq<Event>, key: Key, txid: Txid) {
    exists amount, day :: Audited(SendSuccess, key, txid, amount, day) in trace
  }

  ghost predicate SmoothInv(s: State) {
    && s.up && s.open
    && (forall k :: k in s.rows ==> s.rows[k].status != Unknown)
    && (forall i: nat :: i < |s.threads| && s.threads[i].pc.Sent? ==> RealTxid(s.threads[i].pc.txid))
    && (forall key, txid, amount :: Broadcast(key, txid, amount) in s.trace ==> Accounted(s, key, txid))
    && (forall key :: HasStatus(s.rows, key, Status.Committed) ==> Reported(s, key, s.rows[key].txid))
  }

  /** An accepted broadcast is committed, or its thread is about to commit it. */
  ghost predicate Accounted(s: State, key: Key, txid: Txid) {
    CommittedRow(s.rows, key, txid) || exists i: nat :: Carries(s, i, key, txid)
  }

  /** A committed key is audited, or its thread is about to audit it. */
  ghost predicate Reported(s: State, key: Key, txid: Txid) {
    AuditedAs(s.trace, key, txid) || exists i: nat :: Auditing(s, i, key, txid)
  }

  lemma AccountedKept(s: State, step: Step, key: Key, txid: Txid)
    requires Inv(s) && SmoothInv(s) && Smooth(step) && Accounted(s, key, txid)
    ensures Accounted(Exec(s, step), key, txid)
  {
    var s' := Exec(s, step);
    if CommittedRow(s.rows, key, txid) {
      CommittedStays(s, step, key, txid);
    } else {
      var i: nat :| Carries(s, i, key, txid);
      CarrierStep(s, step, i, key, txid);
    }
  }

  lemma CarrierStep(s: State, step: Step, i: nat, key: Key, txid: Txid)
    requires Inv(s) && SmoothInv(s) && Smooth(step) && Carries(s, i, key, txid)
    ensures CommittedRow(Exec(s, step).rows, key, txid) || Carries(Exec(s, step), i, key, txid)
  {
    assert IsHolder(s, i, key);
    if step.Commit? && step.tid == i {
      assert CommittedRow(Exec(s, step).rows, key, txid);
    } else if Enabled(s, step) {
      assert i < |Exec(s, step).threads|;
      ThreadMoves(s, step, i);
    }
  }

  lemma ReportedKept(s: State, step: Step, key: Key, txid: Txid)
    requires Smooth(step) && Reported(s, key, txid)
    ensures Reported(Exec(s, step), key, txid)
  {
    var s' := Exec(s, step);
    if AuditedAs(s.trace, key, txid) {
      var amount, day :| Audited(SendSuccess, key, txid, amount, day) in s.trace;
      assert Audited(SendSuccess, key, txid, amount, day) in s'.trace;
    } else {
      var i: nat :| Auditing(s, i, key, txid);
      if (step.Audit? || step.AuditRaises?) && step.tid == i && Enabled(s, step) {
        assert Audited(SendSuccess, key, txid, s.threads[i].req.amount, step.day) in s'.trace;
      } else {
        assert Auditing(s', i, key, txid);
      }
    }
  }

  lemma NewlyAccounted(s: State, step: Step, key: Key, txid: Txid, amount: nat)
    requires Smooth(step) && Enabled(s, step) && Broadcast(key, txid, amount) in Logged(s, step)
    ensures Accounted(Exec(s, step), key, txid)
  {
    assert Carries(Exec(s, step), step.tid, key, txid);
  }

  lemma NewlyReported(s: State, step: Step, key: Key)
    requires SmoothInv(s) && Smooth(step) && HasStatus(Exec(s, step).rows, key, Status.Committed)
    requires !HasStatus(s.rows, key, Status.Committed)
    ensures Reported(Exec(s, step), key, Exec(s, step).rows[key].txid)
  {
    assert step.Commit?;
    assert Auditing(Exec(s, step), step.tid, key, Exec(s, step).rows[key].txid);
  }

  lemma BroadcastsAccounted(s: State, step: Step, key: Key, txid: Txid, amount: nat)
    requires Inv(s) && SmoothInv(s) && Smooth(step) && Enabled(s, step) && Broadcast(key, txid, amount) in Exec(s, step).trace
    ensures Accounted(Exec(s, step), key, txid)
  {
    if Broadcast(key, txid, amount) in s.trace {
      AccountedKept(s, step, key, txid);
    } else {
      NewlyAccounted(s, step, key, txid, amount);
    }
  }

  lemma CommitsReported(s: State, step: Step, key: Key)
    requires Inv(s) && SmoothInv(s) && Smooth(step) && Enabled(s, step) && HasStatus(Exec(s, step).rows, key, Status.Committed)
    ensures Reported(Exec(s, step), key, Exec(s, step).rows[key].txid)
  {
    if HasStatus(s.rows, key, Status.Committed) {
      CommittedStays(s, step, key, s.rows[key].txid);
      ReportedKept(s, step, key, s.rows[key].txid);
    } else {
      NewlyReported(s, step, key);
    }
  }

  lemma SmoothKept(s: State, step: Step)
    requires Inv(s) && SmoothInv(s) && Smooth(step)
    ensures SmoothInv(Exec(s, step))
  {
    var s' := Exec(s, step);
    if Enabled(s, step) {
      forall key, txid, amount | Broadcast(key, txid, amount) in s'.trace ensures Accounted(s', key, txid) {
        BroadcastsAccounted(s, step, key, txid, amount);
      }
      forall key | HasStatus(s'.rows, key, Status.Committed) ensures Reported(s', key, s'.rows[key].txid) {
        CommitsReported(s, step, key);
      }
      forall i: nat | i < |s'.threads| && s'.threads[i].pc.Sent? ensures RealTxid(s'.threads[i].pc.txid) {
        ThreadMoves(s, step, i);
      }
    }
  }

  /** Sent = audited + in flight, for the number of payouts and for their volume. */
  lemma BalanceKept(s: State, step: Step, f: Reporting.Field)
    requires SmoothInv(s) && Smooth(step) && Inv(s)
    requires TotalSent(s.trace, f) == TotalAudited(s.trace, f) + InFlight(s.threads, f)
    ensures var s' := Exec(s, step);
            TotalSent(s'.trace, f) == TotalAudited(s'.trace, f) + InFlight(s'.threads, f)
  {
    if Enabled(s, step) {
      LoggedBalance(s, step, f);
      FlightBalance(s, step, f);
    }
  }

  function SentBy(s: State, step: Step, f: Reporting.Field): int
    requires Enabled(s, step)
  {
    if step.BroadcastAccepted? then Worth(Me(s, step).req.amount, f) else 0
  }

  function AuditedBy(s: State, step: Step, f: Reporting.Field): int
    requires Enabled(s, step)
  {
    if (step.Audit? || step.AuditRaises?) && Me(s, step).pc.Recorded? then Worth(Me(s, step).req.amount, f) else 0
  }

  lemma LoggedOne(s: State, step: Step, f: Reporting.Field)
    requires Enabled(s, step) && Smooth(step) && (step.BroadcastAccepted? || step.Audit? || step.AuditRaises?)
    ensures |Logged(s, step)| == 1
    ensures SentWorth(Logged(s, step)[0], f) == SentBy(s, step, f) && AuditedWorth(Logged(s, step)[0], f) == AuditedBy(s, step, f)
  {}

  lemma LoggedBalance(s: State, step: Step, f: Reporting.Field)
    requires Enabled(s, step) && Smooth(step)
    ensures TotalSent(Exec(s, step).trace, f) == TotalSent(s.trace, f) + SentBy(s, step, f)
    ensures TotalAudited(Exec(s, step).trace, f) == TotalAudited(s.trace, f) + AuditedBy(s, step, f)
  {
    var more := Logged(s, step);
    if step.BroadcastAccepted? || step.Audit? || step.AuditRaises? {
      LoggedOne(s, step, f);
      assert more == [more[0]];
      TotalsGrow(s.trace, more[0], f);
    } else {
      LoggedQuietly(s, step, f);
      TotalsSame(s.trace, more, f);
    }
  }

  lemma LoggedQuietly(s: State, step: Step, f: Reporting.Field)
    requires Enabled(s, step) && !step.BroadcastAccepted? && !step.Audit? && !step.AuditRaises? && Smooth(step)
    ensures forall e :: e in Logged(s, step) ==> SentWorth(e, f) == 0 && AuditedWorth(e, f) == 0
  {}

  lemma DueStep(s: State, step: Step, f: Reporting.Field)
    requires OfThread(step) && Enabled(s, step) && Smooth(step) && SmoothInv(s) && Inv(s)
    ensures Due(Me(s, step).(pc := PcAfter(s, step)), f) ==
            Due(Me(s, step), f) + SentBy(s, step, f) - AuditedBy(s, step, f)
  {
    MoverHolds(s, step);
  }

  lemma WakingKeepsFlight(threads: seq<Thread>, f: Reporting.Field)
    ensures InFlight(WokenAll(threads), f) == InFlight(threads, f)
  {
    InFlightSame(WokenAll(threads), threads, f);
  }

  lemma FlightBalance(s: State, step: Step, f: Reporting.Field)
    requires Enabled(s, step) && Smooth(step) && SmoothInv(s) && Inv(s)
    ensures InFlight(Exec(s, step).threads, f) == InFlight(s.threads, f) + SentBy(s, step, f) - AuditedBy(s, step, f)
  {
    if step.Arrive? {
      assert Exec(s, step).threads[..|s.threads|] == s.threads;
    } else {
      var t := Me(s, step).(pc := PcAfter(s, step));
      DueStep(s, step, f);
      InFlightUpdate(s.threads, step.tid, t, f);
      WakingKeepsFlight(s.threads[step.tid := t], f);
    }
  }

  lemma {:induction false} SmoothAlways(s: State, steps: seq<Step>, f: Reporting.Field)
    requires Inv(s) && SmoothInv(s) && SmoothRun(steps)
    requires TotalSent(s.trace, f) == TotalAudited(s.trace, f) + InFlight(s.threads, f)
    ensures var s' := Run(s, steps);
            && Inv(s') && SmoothInv(s')
            && TotalSent(s'.trace, f) == TotalAudited(s'.trace, f) + InFlight(s'.threads, f)
    decreases |steps|
  {
    if steps != [] {
      InvAlways(s, [steps[0]]);
      OneStep(s, steps[0]);
      SmoothKept(s, steps[0]);
      BalanceKept(s, steps[0], f);
      SmoothAlways(Exec(s, steps[0]), steps[1..], f);
    }
  }

  lemma LedgersAtRest(s: State, key: Key, txid: Txid)
    requires Inv(s) && SmoothInv(s) && Quiet(s)
    ensures BroadcastOf(s.trace, key, txid) <==> CommittedRow(s.rows, key, txid)
    ensures CommittedRow(s.rows, key, txid) <==> AuditedAs(s.trace, key, txid)
  {
    assert forall i: nat :: !Carries(s, i, key, txid) && !Auditing(s, i, key, txid);
    if BroadcastOf(s.trace, key, txid) { assert Accounted(s, key, txid); }
    if CommittedRow(s.rows, key, txid) { assert Reported(s, key, txid); }
    if AuditedAs(s.trace, key, txid) {
      var amount, day :| Audited(SendSuccess, key, txid, amount, day) in s.trace;
      assert EventOk(s, Audited(SendSuccess, key, txid, amount, day));
    }
  }

  /** In a smooth run that has come to rest, a txid was accepted by the chain for a key exactly when
      it is the committed txid of the key, exactly when it is audited as SEND_SUCCESS. */
  lemma ThreeLedgersAgree(steps: seq<Step>, key: Key, txid: Txid)
    requires SmoothRun(steps) && Quiet(Run(INIT, steps))
    ensures var s := Run(INIT, steps);
            && (BroadcastOf(s.trace, key, txid) <==> CommittedRow(s.rows, key, txid))
            && (CommittedRow(s.rows, key, txid) <==> AuditedAs(s.trace, key, txid))
  {
    SmoothAlways(INIT, steps, Reporting.Volume);
    LedgersAtRest(Run(INIT, steps), key, txid);
  }

  // ----- the report ---------------------------------------------------------------------------

  function EventName(kind: AuditKind): string {
    match kind
    case SendSuccess => "SEND_SUCCESS"
    case SendRejected => "SEND_REJECTED"
    case SendFailed => "SEND_FAILED"
    case SendDuplicate => "SEND_DUPLICATE"
  }

  /** A line of the audit log, with the fields a report needs. */
  function LineOf(e: Event): Reporting.Record
    requires e.Audited?
  {
    Reporting.Record(Some(e.day), EventName(e.kind), e.amount, "", "", "")
  }

  /** The audit log file: the audited events in order. */
  function AuditLog(trace: seq<Event>): seq<Reporting.Record> {
    if trace == [] then []
    else
      var e := trace[|trace| - 1];
      AuditLog(trace[..|trace| - 1]) +
      (if e.Audited? then [LineOf(e)] else [])
  }

  predicate DatedIn(trace: seq<Event>, from: int, to: int) {
    forall e :: e in trace && e.Audited? ==> from <= e.day <= to
  }

  lemma {:induction false} ReportTotalsAudited(trace: seq<Event>, from: int, to: int, f: Reporting.Field)
    requires f == Reporting.Successes || f == Reporting.Volume
    requires DatedIn(trace, from, to)
    ensures Reporting.Sum(AuditLog(trace), from, to, f) == TotalAudited(trace, f)
  {
    if trace != [] {
      var before, e := trace[..|trace| - 1], trace[|trace| - 1];
      ReportTotalsAudited(before, from, to, f);
      if e.Audited? {
        Reporting.SumGrows(AuditLog(before), LineOf(e), from, to, f);
      } else {
        assert AuditLog(trace) == AuditLog(before);
      }
    }
  }

  /** The column of the report that counts this kind of record. */
  function ColumnOf(kind: AuditKind): Reporting.Field {
    match kind
    case SendSuccess => Reporting.Successes
    case SendRejected => Reporting.Rejected
    case SendFailed => Reporting.Failed
    case SendDuplicate => Reporting.Duplicates
  }

  function RecordsOf(trace: seq<Event>, kind: AuditKind): nat {
    if trace == [] then 0
    else RecordsOf(trace[..|trace| - 1], kind) + if trace[|trace| - 1].Audited? && trace[|trace| - 1].kind == kind then 1 else 0
  }

  lemma RecordsGrow(trace: seq<Event>, e: Event, kind: AuditKind)
    ensures RecordsOf(trace + [e], kind) == RecordsOf(trace, kind) + if e.Audited? && e.kind == kind then 1 else 0
  {
    assert (trace + [e])[..|trace|] == trace;
  }

  lemma LineWeighs(e: Event, from: int, to: int, kind: AuditKind)
    requires e.Audited? && from <= e.day <= to
    ensures Reporting.WeightIn(LineOf(e), from, to, ColumnOf(kind)) == if e.kind == kind then 1 else 0
  {}

  lemma LogGrows(trace: seq<Event>, e: Event)
    ensures AuditLog(trace + [e]) == AuditLog(trace) + if e.Audited? then [LineOf(e)] else []
  {
    assert (trace + [e])[..|trace|] == trace;
  }

  /** On any run, smooth or not, each column counts exactly the records of its kind. */
  lemma {:induction false} ReportCountsRecords(trace: seq<Event>, from: int, to: int, kind: AuditKind)
    requires DatedIn(trace, from, to)
    ensures Reporting.Sum(AuditLog(trace), from, to, ColumnOf(kind)) == RecordsOf(trace, kind)
  {
    if trace != [] {
      var before, e := trace[..|trace| - 1], trace[|trace| - 1];
      assert trace == before + [e];
      ReportCountsRecords(before, from, to, kind);
      RecordsGrow(before, e, kind);
      LogGrows(before, e);
      if e.Audited? {
        LineWeighs(e, from, to, kind);
        Reporting.SumGrows(AuditLog(before), LineOf(e), from, to, ColumnOf(kind));
      } else {
        assert AuditLog(trace) == AuditLog(before);
      }
    }
  }

  /** The period report over a range covering the log of such a run totals exactly the payouts the
      chain accepted, in number and in volume. */
  lemma ReportTotalsSent(steps: seq<Step>, from: int, to: int)
    requires SmoothRun(steps) && Quiet(Run(INIT, steps))
    requires from <= to && DatedIn(Run(INIT, steps).trace, from, to)
    ensures var trace := Run(INIT, steps).trace;
            var report := Reporting.PeriodSpec(AuditLog(trace), from, to);
            && report.totals.volume == TotalSent(trace, Reporting.Volume)
            && report.totals.successes == TotalSent(trace, Reporting.Successes)
  {
    AllSentIsAudited(steps, Reporting.Volume);
    AllSentIsAudited(steps, Reporting.Successes);
    ReportTotalsAudited(Run(INIT, steps).trace, from, to, Reporting.Volume);
    ReportTotalsAudited(Run(INIT, steps).trace, from, to, Reporting.Successes);
  }

  lemma AllSentIsAudited(steps: seq<Step>, f: Reporting.Field)
    requires SmoothRun(steps) && Quiet(Run(INIT, steps))
    ensures TotalSent(Run(INIT, steps).trace, f) == TotalAudited(Run(INIT, steps).trace, f)
  {
    SmoothAlways(INIT, steps, f);
    NothingInFlight(Run(INIT, steps).threads, f);
  }
}
