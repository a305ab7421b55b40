/** `audit.record` (`skr_crypto/server/audit.py`) called by several threads at once. */
module AuditInterleavings {
  import opened AuditFanout
  import opened Delivery
  import opened Options

  /** Where a call of `record` is. Request threads, the receipt poller and the webhook worker make such
      calls; one draws its number under one lock, writes under another and feeds the queues under none,
      so other calls can come in between. */
  datatype PC =
    | Called                        // about to draw a number
    | Numbered(n: nat)              // about to write
    | Written(n: nat, next: nat)    // about to insert for URL `next`
    | Fanned(n: nat)                // about to notify
    | Returned
    | Raised                        // AuditWriteError

  datatype Call = Call(event: string, amount: Option<real>, sanctions: bool, body: string, message: string, pc: PC)

  /** History: numbers drawn, and entries that reached the log. */
  datatype Mark = Drew(n: nat) | Wrote(n: nat)

  datatype State = State(sys: Sys, calls: seq<Call>, trace: seq<Mark>)

  const INIT := State(Sys(0, [], map[], 1, map[], 1), [], [])

  datatype Step =
    | Begin(event: string, amount: Option<real>, sanctions: bool, body: string, message: string)
    | Number(c: nat)
    | Write(c: nat, result: WriteResult)
    | FanOut(c: nat, works: bool, now: real)
    | Notify(c: nat, quiet: bool, works: bool, now: real)
    | PostWebhook(id: nat, x: Try)
    | PostAlert(id: nat, x: Try)

  function EntryOf(call: Call, n: nat): Entry {
    Entry(n, call.event, call.amount, call.sanctions)
  }

  function Moved(s: State, c: nat, pc: PC): seq<Call>
    requires c < |s.calls|
  {
    s.calls[c := s.calls[c].(pc := pc)]
  }

  /** The file lock is held for the whole write, so a write is one step; `_seq_lock` likewise. */
  function DoNumber(s: State, c: nat): State {
    if c < |s.calls| && s.calls[c].pc.Called? then
      var n := s.sys.seqNo + 1;
      State(s.sys.(seqNo := n), Moved(s, c, Numbered(n)), s.trace + [Drew(n)])
    else s
  }

  function DoWrite(s: State, c: nat, result: WriteResult): State {
    if c < |s.calls| && s.calls[c].pc.Numbered? then
      var n := s.calls[c].pc.n;
      if result.NoLine? then s.(calls := Moved(s, c, Raised))
      else State(s.sys.(log := s.sys.log + [EntryOf(s.calls[c], n)]),
                 Moved(s, c, if result.Durable? then Written(n, 0) else Raised), s.trace + [Wrote(n)])
    else s
  }

  /** One URL of `enqueue_event_for_delivery`, or its end. */
  function DoFanOut(cfg: Config, s: State, c: nat, works: bool, now: real): State {
    if c < |s.calls| && s.calls[c].pc.Written? then
      var call, n, i := s.calls[c], s.calls[c].pc.n, s.calls[c].pc.next;
      if call.event !in cfg.webhookEvents || i >= |cfg.urls| then s.(calls := Moved(s, c, Fanned(n)))
      else if works then
        s.(calls := Moved(s, c, Written(n, i + 1)),
           sys := s.sys.(webhooks := s.sys.webhooks[s.sys.webhookId := NewRow(n, call.event, cfg.urls[i], call.body, now)],
                         webhookId := s.sys.webhookId + 1))
      else s.(calls := Moved(s, c, Written(n, i + 1)))
    else s
  }

  function DoNotify(cfg: Config, s: State, c: nat, quiet: bool, works: bool, now: real): State {
    if c < |s.calls| && s.calls[c].pc.Fanned? then
      var call, n := s.calls[c], s.calls[c].pc.n;
      var e := EntryOf(call, n);
      if MatchesRule(cfg, e) && (quiet ==> BypassesQuietHours(e)) && works then
        s.(calls := Moved(s, c, Returned),
           sys := s.sys.(alerts := s.sys.alerts[s.sys.alertId := NewRow(n, call.event, cfg.chat, call.message, now)],
                         alertId := s.sys.alertId + 1))
      else s.(calls := Moved(s, c, Returned))
    else s
  }

  /** One step; a step that is not possible changes nothing. A give-up's record is a call like any
      other. */
  function Exec(cfg: Config, s: State, e: Step): State {
    match e
    case Begin(event, amount, sanctions, body, message) =>
      s.(calls := s.calls + [Call(event, amount, sanctions, body, message, Called)])
    case Number(c) => DoNumber(s, c)
    case Write(c, result) => DoWrite(s, c, result)
    case FanOut(c, works, now) => DoFanOut(cfg, s, c, works, now)
    case Notify(c, quiet, works, now) => DoNotify(cfg, s, c, quiet, works, now)
    case PostWebhook(id, x) =>
      if id in s.sys.webhooks
      then s.(sys := s.sys.(webhooks := AfterTry(s.sys.webhooks, cfg.webhookBackoff, id, s.sys.webhooks[id].attempts, x))) else s
    case PostAlert(id, x) =>
      if id in s.sys.alerts
      then s.(sys := s.sys.(alerts := AfterTry(s.sys.alerts, cfg.alertBackoff, id, s.sys.alerts[id].attempts, x))) else s
  }

  function Run(cfg: Config, s: State, steps: seq<Step>): State {
    if steps == [] then s else Exec(cfg, Run(cfg, s, steps[..|steps| - 1]), steps[|steps| - 1])
  }

  lemma RunSnoc(cfg: Config, s: State, steps: seq<Step>, e: Step)
    ensures Run(cfg, s, steps + [e]) == Exec(cfg, Run(cfg, s, steps), e)
  {
    assert (steps + [e])[..|steps|] == steps;
  }

  // ----- numbers ------------------------------------------------------------------------------

  predicate HasNumber(pc: PC) {
    pc.Numbered? || pc.Written? || pc.Fanned?
  }

  predicate InLog(log: seq<Entry>, e: Entry) {
    exists i :: 0 <= i < |log| && log[i] == e
  }

  predicate NumberFree(log: seq<Entry>, n: nat) {
    forall i :: 0 <= i < |log| ==> log[i].seq_ != n
  }

  predicate DistinctNumbers(log: seq<Entry>) {
    forall i, j :: 0 <= i < j < |log| ==> log[i].seq_ != log[j].seq_
  }

  predicate CallSound(s: State, call: Call) {
    && (HasNumber(call.pc) ==> call.pc.n <= s.sys.seqNo)
    && (call.pc.Numbered? ==> NumberFree(s.sys.log, call.pc.n))
    && (call.pc.Written? || call.pc.Fanned? ==> InLog(s.sys.log, EntryOf(call, call.pc.n)))
  }

  /** Numbers are drawn once, and a number is in the log at most once, with its own call's entry. */
  predicate NumbersSound(s: State) {
    && DistinctNumbers(s.sys.log)
    && (forall i :: 0 <= i < |s.sys.log| ==> s.sys.log[i].seq_ <= s.sys.seqNo)
    && (forall c :: 0 <= c < |s.calls| ==> CallSound(s, s.calls[c]))
    && (forall c, d :: 0 <= c < d < |s.calls| && HasNumber(s.calls[c].pc) && HasNumber(s.calls[d].pc) ==>
          s.calls[c].pc.n != s.calls[d].pc.n)
  }

  lemma InLogGrows(log: seq<Entry>, more: Entry, e: Entry)
    requires InLog(log, e)
    ensures InLog(log + [more], e)
  {
    var i :| 0 <= i < |log| && log[i] == e;
    assert (log + [more])[i] == e;
  }

  lemma WriteKeepsNumbers(s: State, c: nat, result: WriteResult)
    requires NumbersSound(s)
    ensures NumbersSound(DoWrite(s, c, result))
  {
    var s' := DoWrite(s, c, result);
    if c < |s.calls| && s.calls[c].pc.Numbered? && !result.NoLine? {
      var e := EntryOf(s.calls[c], s.calls[c].pc.n);
      assert CallSound(s, s.calls[c]);
      assert s'.sys.log[|s.sys.log|] == e;
      forall d | 0 <= d < |s'.calls| ensures CallSound(s', s'.calls[d]) {
        assert CallSound(s, s.calls[d]);
        if d != c && (s.calls[d].pc.Written? || s.calls[d].pc.Fanned?) {
          InLogGrows(s.sys.log, e, EntryOf(s.calls[d], s.calls[d].pc.n));
        }
      }
    }
  }

  lemma StepKeepsNumbers(cfg: Config, s: State, e: Step)
    requires NumbersSound(s)
    ensures NumbersSound(Exec(cfg, s, e))
  {
    match e
    case Write(c, result) => WriteKeepsNumbers(s, c, result);
    case Number(c) =>
      forall d | 0 <= d < |s.calls| ensures CallSound(s, s.calls[d]) {}
    case FanOut(c, works, now) => FanOutKeepsNumbers(cfg, s, c, works, now);
    case _ =>
  }

  lemma FanOutKeepsNumbers(cfg: Config, s: State, c: nat, works: bool, now: real)
    requires NumbersSound(s)
    ensures NumbersSound(DoFanOut(cfg, s, c, works, now))
  {
    if c < |s.calls| { assert CallSound(s, s.calls[c]); }
  }

  /** In every interleaving the numbers in the log are distinct. */
  lemma {:induction false} NumbersDistinct(cfg: Config, steps: seq<Step>)
    ensures NumbersSound(Run(cfg, INIT, steps)) && DistinctNumbers(Run(cfg, INIT, steps).sys.log)
  {
    if steps != [] {
      NumbersDistinct(cfg, steps[..|steps| - 1]);
      StepKeepsNumbers(cfg, Run(cfg, INIT, steps[..|steps| - 1]), steps[|steps| - 1]);
    }
  }

  // ----- deliveries ---------------------------------------------------------------------------

  /** No alert of this number yet. */
  predicate Unalerted(alerts: Rows, n: nat) {
    forall id :: id in alerts ==> alerts[id].auditId != n
  }

  /** Alerts are of drawn numbers, at most one of each, and none while its call has yet to notify. */
  predicate AlertsSound(s: State) {
    && (forall id :: id in s.sys.alerts ==> id < s.sys.alertId && s.sys.alerts[id].auditId <= s.sys.seqNo)
    && (forall id, other :: id in s.sys.alerts && other in s.sys.alerts && id != other ==>
          s.sys.alerts[id].auditId != s.sys.alerts[other].auditId)
    && (forall c :: 0 <= c < |s.calls| && HasNumber(s.calls[c].pc) ==> Unalerted(s.sys.alerts, s.calls[c].pc.n))
  }

  lemma StepKeepsAlerts(cfg: Config, s: State, e: Step)
    requires NumbersSound(s) && AlertsSound(s)
    ensures AlertsSound(Exec(cfg, s, e))
  {
    match e
    case Notify(c, quiet, works, now) => NotifyKeepsAlerts(cfg, s, c, quiet, works, now);
    case PostAlert(id, x) => PostKeepsAlerts(cfg, s, id, x);
    case _ => OthersKeepAlerts(cfg, s, e);
  }

  /** A step that leaves the alert queue alone. */
  lemma OthersKeepAlerts(cfg: Config, s: State, e: Step)
    requires AlertsSound(s) && !e.Notify? && !e.PostAlert?
    ensures AlertsSound(Exec(cfg, s, e))
  {
    var s' := Exec(cfg, s, e);
    assert s'.sys.alerts == s.sys.alerts && s'.sys.seqNo >= s.sys.seqNo;
    forall c | 0 <= c < |s'.calls| && HasNumber(s'.calls[c].pc) ensures Unalerted(s'.sys.alerts, s'.calls[c].pc.n) {
      if c < |s.calls| && HasNumber(s.calls[c].pc) { assert Unalerted(s.sys.alerts, s.calls[c].pc.n); }
    }
  }

  lemma PostKeepsAlerts(cfg: Config, s: State, id: nat, x: Try)
    requires AlertsSound(s)
    ensures AlertsSound(Exec(cfg, s, PostAlert(id, x)))
  {
    var s' := Exec(cfg, s, PostAlert(id, x));
    forall other ensures (other in s'.sys.alerts <==> other in s.sys.alerts) {}
    forall other | other in s.sys.alerts ensures s'.sys.alerts[other].auditId == s.sys.alerts[other].auditId {}
    forall c | 0 <= c < |s.calls| && HasNumber(s.calls[c].pc) ensures Unalerted(s'.sys.alerts, s.calls[c].pc.n) {
      assert Unalerted(s.sys.alerts, s.calls[c].pc.n);
    }
  }

  lemma NotifyKeepsAlerts(cfg: Config, s: State, c: nat, quiet: bool, works: bool, now: real)
    requires NumbersSound(s) && AlertsSound(s)
    ensures AlertsSound(DoNotify(cfg, s, c, quiet, works, now))
  {
    if c < |s.calls| && s.calls[c].pc.Fanned? {
      assert CallSound(s, s.calls[c]) && Unalerted(s.sys.alerts, s.calls[c].pc.n);
    }
  }

  lemma StepKeepsTraced(cfg: Config, s: State, e: Step)
    requires NumbersSound(s) && Traced(cfg, s.sys)
    ensures Traced(cfg, Exec(cfg, s, e).sys)
  {
    match e
    case Write(c, result) => WriteKeepsTraced(cfg, s, c, result);
    case FanOut(c, works, now) =>
      if c < |s.calls| && s.calls[c].pc.Written? { assert CallSound(s, s.calls[c]); }
    case Notify(c, quiet, works, now) =>
      if c < |s.calls| && s.calls[c].pc.Fanned? { assert CallSound(s, s.calls[c]); }
    case _ =>
  }

  lemma WriteKeepsTraced(cfg: Config, s: State, c: nat, result: WriteResult)
    requires Traced(cfg, s.sys)
    ensures Traced(cfg, DoWrite(s, c, result).sys)
  {
    if c < |s.calls| && s.calls[c].pc.Numbered? && !result.NoLine? {
      var e := EntryOf(s.calls[c], s.calls[c].pc.n);
      forall id | id in s.sys.webhooks ensures WebhookTraced(cfg, s.sys.log + [e], s.sys.webhooks[id]) {
        LoggedGrows(cfg, s.sys.log, e, s.sys.webhooks[id]);
      }
      forall id | id in s.sys.alerts ensures AlertTraced(cfg, s.sys.log + [e], s.sys.alerts[id]) {
        LoggedGrows(cfg, s.sys.log, e, s.sys.alerts[id]);
      }
    }
  }

  /** In every interleaving, each webhook and each alert goes back to an entry that was durably
      written before it and that its queue asks for; and no entry gets two alerts. */
  lemma {:induction false} DeliveriesAreLogged(cfg: Config, steps: seq<Step>)
    ensures Traced(cfg, Run(cfg, INIT, steps).sys) && AlertsSound(Run(cfg, INIT, steps))
  {
    if steps != [] {
      var cut, e := steps[..|steps| - 1], steps[|steps| - 1];
      DeliveriesAreLogged(cfg, cut);
      NumbersDistinct(cfg, cut);
      StepKeepsTraced(cfg, Run(cfg, INIT, cut), e);
      StepKeepsAlerts(cfg, Run(cfg, INIT, cut), e);
    }
  }

  // ----- order --------------------------------------------------------------------------------

  predicate InOrder(log: seq<Entry>) {
    forall i, j :: 0 <= i < j < |log| ==> log[i].seq_ < log[j].seq_
  }

  /** Between record m's number and its write, another record n is both numbered and written. */
  predicate OvertakenAt(trace: seq<Mark>, a: int, b: int, w: int, v: int) {
    && 0 <= a < b < w < v < |trace|
    && trace[a].Drew? && trace[b].Drew? && trace[w] == Wrote(trace[b].n) && trace[v] == Wrote(trace[a].n)
  }

  ghost predicate Overtaken(trace: seq<Mark>) {
    exists a, b, w, v :: OvertakenAt(trace, a, b, w, v)
  }

  function Draws(trace: seq<Mark>): nat {
    if trace == [] then 0 else Draws(trace[..|trace| - 1]) + if trace[|trace| - 1].Drew? then 1 else 0
  }

  /** The numbers written, in the order of their writes. */
  function WrittenNumbers(trace: seq<Mark>): seq<nat> {
    if trace == [] then []
    else WrittenNumbers(trace[..|trace| - 1]) + if trace[|trace| - 1].Wrote? then [trace[|trace| - 1].n] else []
  }

  function Numbers(log: seq<Entry>): (ns: seq<nat>)
    ensures |ns| == |log|
  {
    seq(|log|, i requires 0 <= i < |log| => log[i].seq_)
  }

  predicate DrawnBefore(trace: seq<Mark>, n: nat, v: nat)
    requires v <= |trace|
  {
    exists a :: 0 <= a < v && trace[a] == Drew(n)
  }

  /** Draws count up from one. */
  predicate DrawsCountUp(trace: seq<Mark>) {
    trace == [] ||
    var last := |trace| - 1;
    DrawsCountUp(trace[..last]) && (trace[last].Drew? ==> trace[last].n == Draws(trace[..last]) + 1)
  }

  /** What is written was drawn before. */
  predicate WritesDrawn(trace: seq<Mark>) {
    forall v :: 0 <= v < |trace| && trace[v].Wrote? ==> DrawnBefore(trace, trace[v].n, v)
  }

  predicate CallsDrawn(trace: seq<Mark>, calls: seq<Call>) {
    forall c :: 0 <= c < |calls| && calls[c].pc.Numbered? ==> DrawnBefore(trace, calls[c].pc.n, |trace|)
  }

  predicate TraceSound(s: State) {
    && Draws(s.trace) == s.sys.seqNo && DrawsCountUp(s.trace) && WritesDrawn(s.trace) && CallsDrawn(s.trace, s.calls)
    && WrittenNumbers(s.trace) == Numbers(s.sys.log)
  }

  lemma DrawnStays(trace: seq<Mark>, m: Mark, n: nat, v: nat)
    requires v <= |trace| && DrawnBefore(trace, n, v)
    ensures DrawnBefore(trace + [m], n, v)
  {
    var a :| 0 <= a < v && trace[a] == Drew(n);
    assert (trace + [m])[a] == Drew(n);
  }

  lemma DrawsSnoc(trace: seq<Mark>, m: Mark)
    requires DrawsCountUp(trace) && (m.Drew? ==> m.n == Draws(trace) + 1)
    ensures DrawsCountUp(trace + [m]) && Draws(trace + [m]) == Draws(trace) + if m.Drew? then 1 else 0
  {
    assert (trace + [m])[..|trace|] == trace;
  }

  lemma WritesSnoc(trace: seq<Mark>, m: Mark)
    requires WritesDrawn(trace) && (m.Wrote? ==> DrawnBefore(trace, m.n, |trace|))
    ensures WritesDrawn(trace + [m])
    ensures WrittenNumbers(trace + [m]) == WrittenNumbers(trace) + if m.Wrote? then [m.n] else []
  {
    var more := trace + [m];
    assert more[..|trace|] == trace;
    forall v | 0 <= v < |more| && more[v].Wrote? ensures DrawnBefore(more, more[v].n, v) {
      DrawnStays(trace, m, more[v].n, v);
    }
  }

  lemma CallsSnoc(trace: seq<Mark>, m: Mark, calls: seq<Call>)
    requires forall c :: 0 <= c < |calls| && calls[c].pc.Numbered? ==>
               m == Drew(calls[c].pc.n) || DrawnBefore(trace, calls[c].pc.n, |trace|)
    ensures CallsDrawn(trace + [m], calls)
  {
    var more := trace + [m];
    forall c | 0 <= c < |calls| && calls[c].pc.Numbered? ensures DrawnBefore(more, calls[c].pc.n, |more|) {
      if m == Drew(calls[c].pc.n) {
        assert more[|trace|] == m;
      } else {
        DrawnStays(trace, m, calls[c].pc.n, |trace|);
        assert DrawnBefore(more, calls[c].pc.n, |trace|);
      }
    }
  }

  lemma NumberedCalls(s: State, c: nat)
    requires CallsDrawn(s.trace, s.calls) && c < |s.calls|
    ensures var m, calls := Drew(s.sys.seqNo + 1), Moved(s, c, Numbered(s.sys.seqNo + 1));
            CallsDrawn(s.trace + [m], calls)
  {
    var m, calls := Drew(s.sys.seqNo + 1), Moved(s, c, Numbered(s.sys.seqNo + 1));
    forall d | 0 <= d < |calls| && calls[d].pc.Numbered?
      ensures m == Drew(calls[d].pc.n) || DrawnBefore(s.trace, calls[d].pc.n, |s.trace|)
    {
      if d != c { assert calls[d] == s.calls[d]; }
    }
    CallsSnoc(s.trace, m, calls);
  }

  /** A mark goes on the history: what it takes for the next state to be sound. */
  lemma Marked(s: State, s': State, m: Mark)
    requires TraceSound(s) && s'.trace == s.trace + [m] && CallsDrawn(s'.trace, s'.calls)
    requires m.Drew? ==> m.n == s.sys.seqNo + 1 && s'.sys.log == s.sys.log
    requires m.Wrote? ==> DrawnBefore(s.trace, m.n, |s.trace|) && Numbers(s'.sys.log) == Numbers(s.sys.log) + [m.n]
    requires s'.sys.seqNo == s.sys.seqNo + if m.Drew? then 1 else 0
    ensures TraceSound(s')
  {
    DrawsSnoc(s.trace, m);
    WritesSnoc(s.trace, m);
    assert WrittenNumbers(s.trace) + [] == WrittenNumbers(s.trace);
  }

  lemma NumberKeepsTrace(s: State, c: nat)
    requires TraceSound(s)
    ensures TraceSound(DoNumber(s, c))
  {
    if c < |s.calls| && s.calls[c].pc.Called? {
      NumberedCalls(s, c);
      Marked(s, DoNumber(s, c), Drew(s.sys.seqNo + 1));
    }
  }

  lemma WriteKeepsTrace(s: State, c: nat, result: WriteResult)
    requires TraceSound(s)
    ensures TraceSound(DoWrite(s, c, result))
  {
    if c < |s.calls| && s.calls[c].pc.Numbered? && !result.NoLine? {
      var m := Wrote(s.calls[c].pc.n);
      CallsSnoc(s.trace, m, DoWrite(s, c, result).calls);
      assert Numbers(DoWrite(s, c, result).sys.log) == Numbers(s.sys.log) + [m.n];
      Marked(s, DoWrite(s, c, result), m);
    }
  }

  lemma OthersKeepTrace(cfg: Config, s: State, e: Step)
    requires TraceSound(s) && !e.Number? && !e.Write?
    ensures TraceSound(Exec(cfg, s, e))
  {
    assert Exec(cfg, s, e).trace == s.trace;
  }

  lemma StepKeepsTrace(cfg: Config, s: State, e: Step)
    requires TraceSound(s)
    ensures TraceSound(Exec(cfg, s, e))
  {
    match e
    case Number(c) => NumberKeepsTrace(s, c);
    case Write(c, result) => WriteKeepsTrace(s, c, result);
    case _ => OthersKeepTrace(cfg, s, e);
  }

  lemma {:induction false} TraceAlways(cfg: Config, steps: seq<Step>)
    ensures TraceSound(Run(cfg, INIT, steps))
  {
    if steps != [] {
      TraceAlways(cfg, steps[..|steps| - 1]);
      StepKeepsTrace(cfg, Run(cfg, INIT, steps[..|steps| - 1]), steps[|steps| - 1]);
    }
  }

  lemma {:induction false} DrawAt(trace: seq<Mark>, a: nat)
    requires DrawsCountUp(trace) && a < |trace| && trace[a].Drew?
    ensures trace[a].n == Draws(trace[..a]) + 1
  {
    var cut := trace[..|trace| - 1];
    if a < |cut| {
      DrawAt(cut, a);
      assert cut[..a] == trace[..a];
    }
  }

  lemma {:induction false} DrawsGrow(trace: seq<Mark>, a: nat, b: nat)
    requires a <= b <= |trace|
    ensures Draws(trace[..a]) <= Draws(trace[..b])
    ensures a < b && trace[a].Drew? ==> Draws(trace[..a]) < Draws(trace[..b])
  {
    if a < b {
      assert trace[..b][..b - 1] == trace[..b - 1];
      DrawsGrow(trace, a, b - 1);
      if a == b - 1 { assert trace[..b][b - 1] == trace[a]; }
    }
  }

  /** Where the i-th write stands in the history. */
  lemma {:induction false} WritePosition(trace: seq<Mark>, i: nat) returns (w: nat)
    requires i < |WrittenNumbers(trace)|
    ensures w < |trace| && trace[w] == Wrote(WrittenNumbers(trace)[i]) && |WrittenNumbers(trace[..w])| == i
  {
    var cut := trace[..|trace| - 1];
    if i < |WrittenNumbers(cut)| {
      w := WritePosition(cut, i);
      assert trace[..w] == cut[..w];
    } else {
      w := |trace| - 1;
    }
  }

  lemma {:induction false} WritesGrow(trace: seq<Mark>, a: nat, b: nat)
    requires a <= b <= |trace|
    ensures WrittenNumbers(trace[..a]) <= WrittenNumbers(trace[..b])
    ensures a < b && trace[a].Wrote? ==>
              |WrittenNumbers(trace[..a])| < |WrittenNumbers(trace[..b])|
              && WrittenNumbers(trace[..b])[|WrittenNumbers(trace[..a])|] == trace[a].n
  {
    if a < b {
      assert trace[..b][..b - 1] == trace[..b - 1];
      WritesGrow(trace, a, b - 1);
      if a == b - 1 { assert trace[..b][b - 1] == trace[a]; }
    }
  }

  /** The log is in the order of its numbers if and only if no record is overtaken: none is both
      numbered and written between another's number and its write. */
  lemma OrderedIffNotOvertaken(cfg: Config, steps: seq<Step>)
    ensures InOrder(Run(cfg, INIT, steps).sys.log) <==> !Overtaken(Run(cfg, INIT, steps).trace)
  {
    TraceAlways(cfg, steps);
    NumbersDistinct(cfg, steps);
    var s := Run(cfg, INIT, steps);
    if Overtaken(s.trace) {
      var a, b, w, v :| OvertakenAt(s.trace, a, b, w, v);
      OvertakenMeansDisorder(s, a, b, w, v);
    }
    if !InOrder(s.sys.log) {
      var i, j :| 0 <= i < j < |s.sys.log| && s.sys.log[i].seq_ >= s.sys.log[j].seq_;
      DisorderMeansOvertaken(s, i, j);
    }
  }

  lemma OvertakenMeansDisorder(s: State, a: nat, b: nat, w: nat, v: nat)
    requires TraceSound(s) && OvertakenAt(s.trace, a, b, w, v)
    ensures !InOrder(s.sys.log)
  {
    DrawAt(s.trace, a);
    DrawAt(s.trace, b);
    DrawsGrow(s.trace, a, b);
    WritesGrow(s.trace, w, v);
    WritesGrow(s.trace, v, |s.trace|);
    WritesGrow(s.trace, w, |s.trace|);
    assert s.trace[..|s.trace|] == s.trace;
    var i, j := |WrittenNumbers(s.trace[..w])|, |WrittenNumbers(s.trace[..v])|;
    assert Numbers(s.sys.log)[i] == s.trace[b].n && Numbers(s.sys.log)[j] == s.trace[a].n;
  }

  lemma DisorderMeansOvertaken(s: State, i: nat, j: nat)
    requires TraceSound(s) && NumbersSound(s)
    requires i < j < |s.sys.log| && s.sys.log[i].seq_ >= s.sys.log[j].seq_
    ensures Overtaken(s.trace)
  {
    var n, m := s.sys.log[i].seq_, s.sys.log[j].seq_;
    assert Numbers(s.sys.log)[i] == n && Numbers(s.sys.log)[j] == m && m < n;
    var w := WritePosition(s.trace, i);
    var v := WritePosition(s.trace, j);
    if v <= w {
      WritesGrow(s.trace, v, w);
      assert false;
    }
    assert DrawnBefore(s.trace, n, w) && DrawnBefore(s.trace, m, v);
    var b :| 0 <= b < w && s.trace[b] == Drew(n);
    var a :| 0 <= a < v && s.trace[a] == Drew(m);
    if b <= a {
      DrawAt(s.trace, a);
      DrawAt(s.trace, b);
      DrawsGrow(s.trace, b, a);
      assert false;
    }
    assert OvertakenAt(s.trace, a, b, w, v);
  }

  /** It happens: a record numbered first and written second leaves the log out of order. */
  lemma OutOfOrderRun(cfg: Config, event: string) returns (steps: seq<Step>)
    ensures Numbers(Run(cfg, INIT, steps).sys.log) == [2, 1]
    ensures !InOrder(Run(cfg, INIT, steps).sys.log)
  {
    var begin := Begin(event, None, false, "", "");
    var call := Call(event, None, false, "", "", Called);
    RunSnoc(cfg, INIT, [], begin);
    steps := [] + [begin];
    RunSnoc(cfg, INIT, steps, begin);
    steps := steps + [begin];
    assert Run(cfg, INIT, steps).calls == [call, call];
    RunSnoc(cfg, INIT, steps, Number(0));
    steps := steps + [Number(0)];
    RunSnoc(cfg, INIT, steps, Number(1));
    steps := steps + [Number(1)];
    assert Run(cfg, INIT, steps).calls == [call.(pc := Numbered(1)), call.(pc := Numbered(2))];
    RunSnoc(cfg, INIT, steps, Write(1, Durable));
    steps := steps + [Write(1, Durable)];
    RunSnoc(cfg, INIT, steps, Write(0, Durable));
    steps := steps + [Write(0, Durable)];
    var log := Run(cfg, INIT, steps).sys.log;
    assert log == [EntryOf(call, 2), EntryOf(call, 1)];
    assert log[0].seq_ == 2 && log[1].seq_ == 1;
  }

  // ----- a call that runs alone ---------------------------------------------------------------

  /** A step of this call and of no other. */
  predicate OfCall(e: Step, c: nat) {
    match e
    case Number(d) => d == c
    case Write(d, _) => d == c
    case FanOut(d, _, _) => d == c
    case Notify(d, _, _, _) => d == c
    case _ => false
  }

  /** The call's number is e's, n URLs are done, and the webhook queue is as the atomic `record` has
      it at that point. */
  predicate FannedTo(cfg: Config, before: Sys, s: State, c: nat, e: Entry, luck: Luck, now: real, n: nat)
    requires n <= |cfg.urls|
  {
    && c < |s.calls| && s.calls[c] == Call(e.event, e.amount, e.sanctions, luck.body, luck.message, Written(e.seq_, n))
    && s.sys == before.(seqNo := e.seq_, log := before.log + [e],
                        webhooks := AuditFanout.Fanned(before.webhooks, before.webhookId, cfg, e, luck.body, now, luck.inserts, n),
                        webhookId := before.webhookId + Landed(luck.inserts, n))
  }

  lemma FanNext(cfg: Config, before: Sys, s: State, c: nat, e: Entry, luck: Luck, now: real, n: nat)
    requires n < |cfg.urls| && e.event in cfg.webhookEvents && FannedTo(cfg, before, s, c, e, luck, now, n)
    ensures FannedTo(cfg, before, Exec(cfg, s, FanOut(c, Works(luck.inserts, n), now)), c, e, luck, now, n + 1)
  {}

  lemma {:induction false} FanLoop(cfg: Config, before: Sys, s: State, c: nat, e: Entry, luck: Luck, now: real, n: nat)
    returns (steps: seq<Step>)
    requires n <= |cfg.urls| && (n > 0 ==> e.event in cfg.webhookEvents) && FannedTo(cfg, before, s, c, e, luck, now, 0)
    ensures FannedTo(cfg, before, Run(cfg, s, steps), c, e, luck, now, n)
    ensures forall e :: e in steps ==> OfCall(e, c)
  {
    if n == 0 {
      steps := [];
    } else {
      steps := FanLoop(cfg, before, s, c, e, luck, now, n - 1);
      var next := FanOut(c, Works(luck.inserts, n - 1), now);
      FanNext(cfg, before, Run(cfg, s, steps), c, e, luck, now, n - 1);
      RunSnoc(cfg, s, steps, next);
      steps := steps + [next];
    }
  }

  lemma {:induction false} RunAppend(cfg: Config, s: State, a: seq<Step>, b: seq<Step>)
    ensures Run(cfg, s, a + b) == Run(cfg, Run(cfg, s, a), b)
  {
    if b == [] {
      assert a + b == a;
    } else {
      assert (a + b)[..|a + b| - 1] == a + b[..|b| - 1];
      RunAppend(cfg, s, a, b[..|b| - 1]);
    }
  }

  lemma OneMore(cfg: Config, s: State, e: Step)
    ensures Run(cfg, s, [e]) == Exec(cfg, s, e)
  {
    assert [e][..0] == [];
  }

  /** What a step of call c leaves of all calls. */
  predicate OnlyMoves(a: seq<Call>, b: seq<Call>, c: nat) {
    && |a| == |b|
    && (forall d :: 0 <= d < |a| && d != c ==> b[d] == a[d])
    && (c < |a| ==> b[c].(pc := Called) == a[c].(pc := Called))
  }

  lemma StepMoves(cfg: Config, s: State, e: Step, c: nat)
    requires OfCall(e, c)
    ensures OnlyMoves(s.calls, Exec(cfg, s, e).calls, c)
  {}

  lemma {:induction false} OthersKept(cfg: Config, s: State, steps: seq<Step>, c: nat)
    requires forall e :: e in steps ==> OfCall(e, c)
    ensures OnlyMoves(s.calls, Run(cfg, s, steps).calls, c)
  {
    if steps != [] {
      var cut, e := steps[..|steps| - 1], steps[|steps| - 1];
      OthersKept(cfg, s, cut, c);
      StepMoves(cfg, Run(cfg, s, cut), e, c);
    }
  }

  /** The steps of a call after its durable write. */
  lemma AfterWrite(cfg: Config, s: State, c: nat, luck: Luck, now: real) returns (steps: seq<Step>)
    requires c < |s.calls| && s.calls[c].pc.Called? && luck.write.Durable?
    requires s.calls[c].body == luck.body && s.calls[c].message == luck.message
    ensures forall e :: e in steps ==> OfCall(e, c)
    ensures var call := s.calls[c]; var written := Exec(cfg, Exec(cfg, s, Number(c)), Write(c, luck.write));
            && Run(cfg, written, steps).sys == Recorded(cfg, s.sys, call.event, call.amount, call.sanctions, luck, now)
            && c < |Run(cfg, written, steps).calls| && Run(cfg, written, steps).calls[c].pc == Returned
  {
    var call := s.calls[c];
    var e := EntryOf(call, s.sys.seqNo + 1);
    var written := Exec(cfg, Exec(cfg, s, Number(c)), Write(c, luck.write));
    assert written.calls[c] == call.(pc := Written(e.seq_, 0));
    var n := if call.event in cfg.webhookEvents then |cfg.urls| else 0;
    var fan := FanLoop(cfg, s.sys, written, c, e, luck, now, n);
    var last, notify := FanOut(c, false, now), Notify(c, luck.quiet, luck.alertInsert, now);
    RunSnoc(cfg, written, fan, last);
    RunSnoc(cfg, written, fan + [last], notify);
    FinishAlone(cfg, s.sys, Run(cfg, written, fan), c, e, luck, now);
    steps := fan + [last] + [notify];
  }

  /** A call from its number on. */
  lemma AloneFrom(cfg: Config, s: State, c: nat, luck: Luck, now: real) returns (steps: seq<Step>)
    requires c < |s.calls| && s.calls[c].pc.Called?
    requires s.calls[c].body == luck.body && s.calls[c].message == luck.message
    ensures forall e :: e in steps ==> OfCall(e, c)
    ensures var call, s' := s.calls[c], Run(cfg, s, steps);
            && s'.sys == Recorded(cfg, s.sys, call.event, call.amount, call.sanctions, luck, now)
            && c < |s'.calls| && s'.calls[c].pc == if luck.write.Durable? then Returned else Raised
  {
    var number, write := Number(c), Write(c, luck.write);
    OneMore(cfg, s, number);
    RunSnoc(cfg, s, [number], write);
    steps := [number] + [write];
    if luck.write.Durable? {
      var rest := AfterWrite(cfg, s, c, luck, now);
      RunAppend(cfg, s, steps, rest);
      steps := steps + rest;
    }
  }

  /** A call that nobody disturbs does exactly what `AuditTrail.Record` does, by steps of its own: it
      returns, or raises if its write does, and leaves every other call where it was. */
  lemma AloneIsRecorded(cfg: Config, s: State, event: string, amount: Option<real>, sanctions: bool, luck: Luck, now: real)
    returns (steps: seq<Step>)
    ensures |steps| > 0 && steps[0] == Begin(event, amount, sanctions, luck.body, luck.message)
    ensures forall i :: 1 <= i < |steps| ==> OfCall(steps[i], |s.calls|)
    ensures Run(cfg, s, steps).sys == Recorded(cfg, s.sys, event, amount, sanctions, luck, now)
    ensures Run(cfg, s, steps).calls
            == s.calls + [Call(event, amount, sanctions, luck.body, luck.message, if luck.write.Durable? then Returned else Raised)]
  {
    var c, begin := |s.calls|, Begin(event, amount, sanctions, luck.body, luck.message);
    var begun := Exec(cfg, s, begin);
    OneMore(cfg, s, begin);
    var rest := AloneFrom(cfg, begun, c, luck, now);
    OthersKept(cfg, begun, rest, c);
    RunAppend(cfg, s, [begin], rest);
    steps := [begin] + rest;
  }

  /** A call has one kind of step at each place, and none once it has returned or raised. */
  lemma OneMove(cfg: Config, s: State, c: nat, e: Step)
    requires c < |s.calls| && OfCall(e, c)
    ensures Exec(cfg, s, e) != s ==>
              match s.calls[c].pc
              case Called => e.Number?
              case Numbered(_) => e.Write?
              case Written(_, _) => e.FanOut?
              case Fanned(_) => e.Notify?
              case _ => false
  {}

  /** A POST of either queue is one try of its row as it stands; the record of a give-up is a call of its
      own, which may come at any time. */
  lemma PostsAgree(cfg: Config, s: State, id: nat, x: Try, luck: Luck)
    ensures id in s.sys.webhooks ==>
              var posted := Exec(cfg, s, PostWebhook(id, x));
              && posted.calls == s.calls && posted.trace == s.trace
              && AfterWebhook(cfg, s.sys, id, x, luck)
                 == if GivesUp(cfg.webhookBackoff, s.sys.webhooks[id].attempts, x)
                    then Recorded(cfg, posted.sys, "WEBHOOK_GIVEUP", None, false, luck, x.done) else posted.sys
    ensures id in s.sys.alerts ==> Exec(cfg, s, PostAlert(id, x)) == s.(sys := AfterAlert(cfg, s.sys, id, x))
  {}

  /** The last two steps: the end of the URLs, and the alert. */
  lemma FinishAlone(cfg: Config, before: Sys, s: State, c: nat, e: Entry, luck: Luck, now: real)
    requires luck.write.Durable? && e.seq_ == before.seqNo + 1
    requires FannedTo(cfg, before, s, c, e, luck, now, if e.event in cfg.webhookEvents then |cfg.urls| else 0)
    ensures var s' := Exec(cfg, Exec(cfg, s, FanOut(c, false, now)), Notify(c, luck.quiet, luck.alertInsert, now));
            && s'.sys == Recorded(cfg, before, e.event, e.amount, e.sanctions, luck, now)
            && c < |s'.calls| && s'.calls[c].pc == Returned
  {
    var s1 := Exec(cfg, s, FanOut(c, false, now));
    assert s1.sys == s.sys && s1.calls[c] == s.calls[c].(pc := PC.Fanned(e.seq_));
    assert EntryOf(s1.calls[c], e.seq_) == e;
    assert Alerting(cfg, e, luck) <==> MatchesRule(cfg, e) && (luck.quiet ==> BypassesQuietHours(e)) && luck.alertInsert;
  }
}
