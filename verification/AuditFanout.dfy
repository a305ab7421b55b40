/** Audit records and the work they derive: `record` of `skr_crypto/server/audit.py`, which feeds the
    webhook queue and the alert queue, and the webhook give-up that writes a record in turn. */
module AuditFanout {
  import opened Delivery
  import opened Options

  const GIVEUP_EVENT := "WEBHOOK_GIVEUP"

  /** What the derived queues look at in an audit entry. `amount` is None when it does not parse,
      `sanctions` says that the details mention the sanctions check. */
  datatype Entry = Entry(seq_: nat, event: string, amount: Option<real>, sanctions: bool)

  /** `urls` is empty, or `alertsOn` false, when that subsystem is not initialised. */
  datatype Config = Config(
    urls: seq<string>, webhookEvents: set<string>, webhookBackoff: seq<real>,
    alertsOn: bool, chat: string, alertEvents: set<string>, threshold: Option<real>, sanctionsNotify: bool,
    alertBackoff: seq<real>)

  predicate SanctionsHit(e: Entry) {
    e.event == "SEND_REJECTED" && e.sanctions
  }

  predicate MeetsThreshold(cfg: Config, e: Entry) {
    cfg.threshold.Some? && e.event == "SEND_SUCCESS" && e.amount.Some? && e.amount.value >= cfg.threshold.value
  }

  predicate MatchesRule(cfg: Config, e: Entry) {
    cfg.alertsOn && (e.event in cfg.alertEvents || MeetsThreshold(cfg, e) || (cfg.sanctionsNotify && SanctionsHit(e)))
  }

  predicate BypassesQuietHours(e: Entry) {
    e.event == "SEND_FAILED" || SanctionsHit(e)
  }

  /** How the durable write ends: it returns, or it raises AuditWriteError with the line in the file
      or without. */
  datatype WriteResult = Durable | LineOnly | NoLine

  /** What the surroundings do to one `record` call: how the durable write ends, which of the
      webhook inserts work, whether the hour is quiet, whether the alert is built and inserted, and
      the texts the entry is rendered to. */
  datatype Luck = Luck(write: WriteResult, inserts: seq<bool>, quiet: bool, alertInsert: bool, body: string, message: string)

  /** The audit log and both queues. */
  datatype Sys = Sys(
    seqNo: nat, log: seq<Entry>, webhooks: Rows, webhookId: nat, alerts: Rows, alertId: nat)

  predicate Works(inserts: seq<bool>, i: nat) {
    i < |inserts| && inserts[i]
  }

  /** How many of the first n inserts work. */
  function Landed(inserts: seq<bool>, n: nat): (k: nat)
    ensures k <= n
  {
    if n == 0 then 0 else Landed(inserts, n - 1) + if Works(inserts, n - 1) then 1 else 0
  }

  /** The webhook rows after the inserts for the first n URLs. */
  function Fanned(rows: Rows, firstId: nat, cfg: Config, e: Entry, payload: string, now: real, inserts: seq<bool>, n: nat): Rows
    requires n <= |cfg.urls|
  {
    if n == 0 then rows
    else
      var before := Fanned(rows, firstId, cfg, e, payload, now, inserts, n - 1);
      if Works(inserts, n - 1)
      then before[firstId + Landed(inserts, n - 1) := NewRow(e.seq_, e.event, cfg.urls[n - 1], payload, now)]
      else before
  }

  predicate Alerting(cfg: Config, e: Entry, luck: Luck) {
    MatchesRule(cfg, e) && (luck.quiet ==> BypassesQuietHours(e)) && luck.alertInsert
  }

  /** The state after `record`: the number is used up in any case; a durable write that raises derives
      nothing, though its line may be there. */
  function Recorded(cfg: Config, s: Sys, event: string, amount: Option<real>, sanctions: bool, luck: Luck, now: real): Sys {
    var e := Entry(s.seqNo + 1, event, amount, sanctions);
    if luck.write.NoLine? then s.(seqNo := s.seqNo + 1)
    else if luck.write.LineOnly? then s.(seqNo := s.seqNo + 1, log := s.log + [e])
    else
      var fans := event in cfg.webhookEvents;
      Sys(s.seqNo + 1, s.log + [e],
          if fans then Fanned(s.webhooks, s.webhookId, cfg, e, luck.body, now, luck.inserts, |cfg.urls|) else s.webhooks,
          if fans then s.webhookId + Landed(luck.inserts, |cfg.urls|) else s.webhookId,
          if Alerting(cfg, e, luck) then s.alerts[s.alertId := NewRow(e.seq_, event, cfg.chat, luck.message, now)] else s.alerts,
          if Alerting(cfg, e, luck) then s.alertId + 1 else s.alertId)
  }

  class AuditTrail {
    const cfg: Config
    var seqNo: nat
    var log: seq<Entry>
    const webhooks: DeliveryStore
    const alerts: DeliveryStore

    constructor (cfg: Config, webhooks: DeliveryStore, alerts: DeliveryStore)
      requires webhooks != alerts
      ensures this.cfg == cfg && this.webhooks == webhooks && this.alerts == alerts
      ensures View() == Sys(0, [], webhooks.rows, webhooks.nextId, alerts.rows, alerts.nextId)
    {
      this.cfg, this.webhooks, this.alerts := cfg, webhooks, alerts;
      seqNo, log := 0, [];
    }

    ghost function View(): Sys
      reads this, webhooks, alerts
    {
      Sys(seqNo, log, webhooks.rows, webhooks.nextId, alerts.rows, alerts.nextId)
    }

    /** `_next_record_id`, within one process. */
    method NextRecordId() returns (id: nat)
      modifies this`seqNo
      ensures id == old(seqNo) + 1 && seqNo == id
    {
      seqNo := seqNo + 1;
      id := seqNo;
    }

    /** `enqueue_event_for_delivery`: one insert per URL; a failing one is logged and skipped. */
    method EnqueueEvent(e: Entry, body: string, now: real, inserts: seq<bool>)
      modifies webhooks
      ensures webhooks.rows == if e.event in cfg.webhookEvents
                               then Fanned(old(webhooks.rows), old(webhooks.nextId), cfg, e, body, now, inserts, |cfg.urls|)
                               else old(webhooks.rows)
      ensures webhooks.nextId == old(webhooks.nextId) + if e.event in cfg.webhookEvents then Landed(inserts, |cfg.urls|) else 0
    {
      if |cfg.urls| == 0 { return; }
      if e.event !in cfg.webhookEvents { return; }
      var i := 0;
      while i < |cfg.urls|
        invariant 0 <= i <= |cfg.urls|
        invariant webhooks.rows == Fanned(old(webhooks.rows), old(webhooks.nextId), cfg, e, body, now, inserts, i)
        invariant webhooks.nextId == old(webhooks.nextId) + Landed(inserts, i)
      {
        if Works(inserts, i) {
          var _ := webhooks.Enqueue(e.seq_, e.event, cfg.urls[i], body, now);
        }
        i := i + 1;
      }
    }

    /** `notify_event` */
    method NotifyEvent(e: Entry, message: string, now: real, quiet: bool, insertWorks: bool)
      modifies alerts
      ensures var notified := MatchesRule(cfg, e) && (quiet ==> BypassesQuietHours(e)) && insertWorks;
              && alerts.rows == (if notified then old(alerts.rows)[old(alerts.nextId) := NewRow(e.seq_, e.event, cfg.chat, message, now)]
                                 else old(alerts.rows))
              && alerts.nextId == old(alerts.nextId) + if notified then 1 else 0
    {
      if !cfg.alertsOn { return; }
      if !MatchesRule(cfg, e) { return; }
      if quiet && !BypassesQuietHours(e) { return; }
      if insertWorks {
        var _ := alerts.Enqueue(e.seq_, e.event, cfg.chat, message, now);
      }
    }

    /** `record`: number, durable write, then the two queues. False means AuditWriteError. */
    method Record(event: string, amount: Option<real>, sanctions: bool, luck: Luck, now: real) returns (ok: bool)
      requires webhooks != alerts
      modifies this, webhooks, alerts
      ensures View() == Recorded(cfg, old(View()), event, amount, sanctions, luck, now)
      ensures ok == luck.write.Durable?
    {
      var id := NextRecordId();
      var e := Entry(id, event, amount, sanctions);
      if luck.write.NoLine? { return false; }
      log := log + [e];
      if luck.write.LineOnly? { return false; }
      EnqueueEvent(e, luck.body, now, luck.inserts);
      NotifyEvent(e, luck.message, now, luck.quiet, luck.alertInsert);
      return true;
    }

    /** A webhook POST, with the WEBHOOK_GIVEUP record its give-up writes; an AuditWriteError is
        swallowed there. */
    method DeliverWebhook(worker: DeliveryWorker, id: nat, x: Try, luck: Luck) returns (gaveUp: bool)
      requires webhooks != alerts && worker.store == webhooks && worker.backoff == cfg.webhookBackoff
      requires id in webhooks.rows
      modifies this, webhooks, alerts
      ensures View() == AfterWebhook(cfg, old(View()), id, x, luck)
    {
      var saved;
      saved, gaveUp := worker.DeliverOne(id, webhooks.rows[id], x);
      if gaveUp {
        var _ := Record(GIVEUP_EVENT, None, false, luck, x.done);
      }
    }
  }

  /** A webhook POST for the row as it stands. */
  function AfterWebhook(cfg: Config, s: Sys, id: nat, x: Try, luck: Luck): Sys
    requires id in s.webhooks
  {
    var n := s.webhooks[id].attempts;
    var s' := s.(webhooks := AfterTry(s.webhooks, cfg.webhookBackoff, id, n, x));
    if GivesUp(cfg.webhookBackoff, n, x) then Recorded(cfg, s', GIVEUP_EVENT, None, false, luck, x.done) else s'
  }

  function AfterAlert(cfg: Config, s: Sys, id: nat, x: Try): Sys
    requires id in s.alerts
  {
    s.(alerts := AfterTry(s.alerts, cfg.alertBackoff, id, s.alerts[id].attempts, x))
  }

  /** An entry is alerted exactly when its write is durable, alerts are on, a rule asks for it and, in quiet
      hours, it is critical: one row with its event, number and text for the chat. */
  lemma AlertedExactly(cfg: Config, s: Sys, event: string, amount: Option<real>, sanctions: bool, luck: Luck, now: real)
    ensures var s' := Recorded(cfg, s, event, amount, sanctions, luck, now);
            var refused := event == "SEND_REJECTED" && sanctions;
            var large := event == "SEND_SUCCESS" && cfg.threshold.Some? && amount.Some? && cfg.threshold.value <= amount.value;
            var wanted := event in cfg.alertEvents || large || (refused && cfg.sanctionsNotify);
            var alerted := luck.write.Durable? && cfg.alertsOn && wanted && (luck.quiet ==> refused || event == "SEND_FAILED")
                           && luck.alertInsert;
            var row := Row(s.seqNo + 1, event, cfg.chat, luck.message, Pending, 0, now, None, None, now);
            && s'.alerts == (if alerted then s.alerts[s.alertId := row] else s.alerts)
            && s'.alertId == s.alertId + if alerted then 1 else 0
  {}

  /** The line of a record: whatever its event, it is in the log with the next number unless the write
      raised before it landed. */
  lemma LoggedExactly(cfg: Config, s: Sys, event: string, amount: Option<real>, sanctions: bool, luck: Luck, now: real)
    ensures var s' := Recorded(cfg, s, event, amount, sanctions, luck, now);
            && s'.seqNo == s.seqNo + 1
            && s'.log == s.log + (if luck.write.NoLine? then [] else [Entry(s.seqNo + 1, event, amount, sanctions)])
            && (!luck.write.Durable? ==> s'.webhooks == s.webhooks && s'.webhookId == s.webhookId)
  {}

  /** What the inserts leave: one pending row for each URL whose insert works, under consecutive
      ids, and nothing else. */
  lemma {:induction false} FanoutExact(
    rows: Rows, first: nat, cfg: Config, e: Entry, payload: string, now: real, inserts: seq<bool>, n: nat, id: nat)
    requires n <= |cfg.urls|
    ensures var rows' := Fanned(rows, first, cfg, e, payload, now, inserts, n);
            if first <= id < first + Landed(inserts, n)
            then exists i :: 0 <= i < n && i < |inserts| && inserts[i] && id == first + Landed(inserts, i)
                   && id in rows' && rows'[id] == NewRow(e.seq_, e.event, cfg.urls[i], payload, now)
            else (id in rows' <==> id in rows) && (id in rows ==> rows'[id] == rows[id])
  {
    if n > 0 {
      FanoutExact(rows, first, cfg, e, payload, now, inserts, n - 1, id);
      if Works(inserts, n - 1) && id == first + Landed(inserts, n - 1) {
        assert Works(inserts, n - 1);
      } else if first <= id < first + Landed(inserts, n - 1) {
        var i :| 0 <= i < n - 1 && Works(inserts, i) && id == first + Landed(inserts, i)
          && id in Fanned(rows, first, cfg, e, payload, now, inserts, n - 1)
          && Fanned(rows, first, cfg, e, payload, now, inserts, n - 1)[id] == NewRow(e.seq_, e.event, cfg.urls[i], payload, now);
        assert Works(inserts, i);
      }
    }
  }

  /** And every insert that works has its row. */
  lemma {:induction false} FanoutComplete(
    rows: Rows, first: nat, cfg: Config, e: Entry, payload: string, now: real, inserts: seq<bool>, n: nat, i: nat)
    requires i < n <= |cfg.urls| && i < |inserts| && inserts[i]
    ensures Landed(inserts, i) < Landed(inserts, n)
    ensures var rows', id := Fanned(rows, first, cfg, e, payload, now, inserts, n), first + Landed(inserts, i);
            id in rows' && rows'[id] == Row(e.seq_, e.event, cfg.urls[i], payload, Pending, 0, now, None, None, now)
  {
    if i < n - 1 { FanoutComplete(rows, first, cfg, e, payload, now, inserts, n - 1, i); }
  }

  /** A webhook POST writes a record exactly when the worker gives the delivery up: WEBHOOK_GIVEUP, with
      the next number, if its line lands. */
  lemma GiveupIsLogged(cfg: Config, s: Sys, id: nat, x: Try, luck: Luck)
    requires id in s.webhooks && s.webhooks[id].status == Pending
    ensures var s' := AfterWebhook(cfg, s, id, x, luck);
            var gaveUp := if x.closed then s.webhooks[id].attempts + 1 >= |cfg.webhookBackoff| && !Success(x.response)
                          else AfterTry(s.webhooks, cfg.webhookBackoff, id, s.webhooks[id].attempts, x)[id].status == GivingUp;
            && s'.seqNo == s.seqNo + (if gaveUp then 1 else 0)
            && s'.log == s.log + (if gaveUp && !luck.write.NoLine? then [Entry(s.seqNo + 1, "WEBHOOK_GIVEUP", None, false)] else [])
  {
    GiveUpMeaning(s.webhooks, cfg.webhookBackoff, id, x);
  }

  /** The log holds the entry a row was derived from. */
  predicate Logged(log: seq<Entry>, row: Row) {
    exists i :: 0 <= i < |log| && log[i].seq_ == row.auditId && log[i].event == row.event
  }

  predicate WebhookTraced(cfg: Config, log: seq<Entry>, row: Row) {
    Logged(log, row) && row.event in cfg.webhookEvents && row.target in cfg.urls
  }

  predicate AlertTraced(cfg: Config, log: seq<Entry>, row: Row) {
    exists i :: 0 <= i < |log| && log[i].seq_ == row.auditId && log[i].event == row.event && MatchesRule(cfg, log[i])
  }

  /** Durable first: every derived row goes back to an entry in the log that asked for it. */
  predicate Traced(cfg: Config, s: Sys) {
    && (forall id :: id in s.webhooks ==> WebhookTraced(cfg, s.log, s.webhooks[id]))
    && (forall id :: id in s.alerts ==> AlertTraced(cfg, s.log, s.alerts[id]))
  }

  lemma LoggedGrows(cfg: Config, log: seq<Entry>, e: Entry, row: Row)
    ensures WebhookTraced(cfg, log, row) ==> WebhookTraced(cfg, log + [e], row)
    ensures AlertTraced(cfg, log, row) ==> AlertTraced(cfg, log + [e], row)
  {
    var longer := log + [e];
    assert forall i :: 0 <= i < |log| ==> longer[i] == log[i];
  }
}
