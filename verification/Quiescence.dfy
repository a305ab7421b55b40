/** The feedback from failed webhooks to new audit records, and when it dies out. */
module Quiescence {
  import opened AuditFanout
  import opened Delivery
  import opened Options

  /** Everything that can happen after start-up, in any order and at any time; POSTs are recorded
      (no crash, no failing update) and nobody forces a retry. */
  datatype Step =
    | External(event: string, amount: Option<real>, sanctions: bool, luck: Luck, now: real)
    | PostWebhook(id: nat, x: Try, luck: Luck)
    | PostAlert(id: nat, x: Try)

  datatype Tally = Tally(sys: Sys, webhookPosts: nat, alertPosts: nat)

  predicate Open(rows: Rows, id: nat) {
    id in rows && rows[id].status == Pending
  }

  predicate OnRecord(x: Try) {
    x.saveSuccess && x.saveFailure && !x.closed
  }

  function Exec(cfg: Config, t: Tally, e: Step): Tally {
    match e
    case External(event, amount, sanctions, luck, now) => t.(sys := Recorded(cfg, t.sys, event, amount, sanctions, luck, now))
    case PostWebhook(id, x, luck) =>
      if Open(t.sys.webhooks, id) && OnRecord(x)
      then Tally(AfterWebhook(cfg, t.sys, id, x, luck), t.webhookPosts + 1, t.alertPosts) else t
    case PostAlert(id, x) =>
      if Open(t.sys.alerts, id) && OnRecord(x)
      then Tally(AfterAlert(cfg, t.sys, id, x), t.webhookPosts, t.alertPosts + 1) else t
  }

  function Run(cfg: Config, t: Tally, steps: seq<Step>): Tally {
    if steps == [] then t else Exec(cfg, Run(cfg, t, steps[..|steps| - 1]), steps[|steps| - 1])
  }

  /** A give-up record is itself delivered by webhook. */
  predicate Feeds(cfg: Config) {
    cfg.urls != [] && GIVEUP_EVENT in cfg.webhookEvents
  }

  // ----- the measure --------------------------------------------------------------------------

  /** The POSTs a row can still cause directly, plus a bonus for what its end may cause. */
  function Weight(row: Row, backoff: seq<real>, bonus: nat): nat {
    if row.status != Pending then 0
    else (if row.attempts < Allowed(backoff) then Allowed(backoff) - row.attempts else 1) + bonus
  }

  function RowWeight(rows: Rows, id: nat, backoff: seq<real>, bonus: nat): nat {
    if id in rows then Weight(rows[id], backoff, bonus) else 0
  }

  function Total(rows: Rows, n: nat, backoff: seq<real>, bonus: nat): nat {
    if n == 0 then 0 else Total(rows, n - 1, backoff, bonus) + RowWeight(rows, n - 1, backoff, bonus)
  }

  predicate IdsBelow(rows: Rows, n: nat) {
    forall id :: id in rows ==> id < n
  }

  predicate Sound(s: Sys) {
    IdsBelow(s.webhooks, s.webhookId) && IdsBelow(s.alerts, s.alertId)
  }

  /** What a webhook's end may cause in the alert queue. */
  function Bonus(cfg: Config): nat {
    if cfg.alertsOn && GIVEUP_EVENT in cfg.alertEvents then Allowed(cfg.alertBackoff) else 0
  }

  function WebhookEnergy(cfg: Config, s: Sys, bonus: nat): nat {
    Total(s.webhooks, s.webhookId, cfg.webhookBackoff, bonus)
  }

  function AlertEnergy(cfg: Config, s: Sys): nat {
    Total(s.alerts, s.alertId, cfg.alertBackoff, 0)
  }

  /** Over both queues: what all pending rows can still cause. */
  function Energy(cfg: Config, s: Sys): nat {
    WebhookEnergy(cfg, s, Bonus(cfg)) + AlertEnergy(cfg, s)
  }

  lemma {:induction false} TotalSame(a: Rows, b: Rows, n: nat, backoff: seq<real>, bonus: nat)
    requires forall id :: 0 <= id < n ==> RowWeight(a, id, backoff, bonus) == RowWeight(b, id, backoff, bonus)
    ensures Total(a, n, backoff, bonus) == Total(b, n, backoff, bonus)
  {
    if n > 0 { TotalSame(a, b, n - 1, backoff, bonus); }
  }

  lemma {:induction false} TotalUpdate(rows: Rows, id: nat, row: Row, n: nat, backoff: seq<real>, bonus: nat)
    requires id < n
    ensures Total(rows[id := row], n, backoff, bonus) + RowWeight(rows, id, backoff, bonus)
            == Total(rows, n, backoff, bonus) + Weight(row, backoff, bonus)
  {
    if id == n - 1 {
      TotalSame(rows[id := row], rows, n - 1, backoff, bonus);
    } else {
      TotalUpdate(rows, id, row, n - 1, backoff, bonus);
    }
  }

  lemma TotalInsert(rows: Rows, n: nat, row: Row, backoff: seq<real>, bonus: nat)
    requires IdsBelow(rows, n)
    ensures Total(rows[n := row], n + 1, backoff, bonus) == Total(rows, n, backoff, bonus) + Weight(row, backoff, bonus)
    ensures IdsBelow(rows[n := row], n + 1)
  {
    TotalSame(rows[n := row], rows, n, backoff, bonus);
  }

  lemma Distribute(a: nat, b: nat, unit: nat)
    ensures (a + b) * unit == a * unit + b * unit
  {}

  lemma {:induction false} FannedTotal(
    rows: Rows, first: nat, cfg: Config, e: Entry, payload: string, now: real, inserts: seq<bool>, n: nat, bonus: nat)
    requires n <= |cfg.urls| && IdsBelow(rows, first)
    ensures var rows' := Fanned(rows, first, cfg, e, payload, now, inserts, n);
            && IdsBelow(rows', first + Landed(inserts, n))
            && Total(rows', first + Landed(inserts, n), cfg.webhookBackoff, bonus)
               == Total(rows, first, cfg.webhookBackoff, bonus) + Landed(inserts, n) * (Allowed(cfg.webhookBackoff) + bonus)
  {
    if n > 0 {
      FannedTotal(rows, first, cfg, e, payload, now, inserts, n - 1, bonus);
      var k := Landed(inserts, n - 1);
      if Works(inserts, n - 1) {
        TotalInsert(Fanned(rows, first, cfg, e, payload, now, inserts, n - 1), first + k,
                    NewRow(e.seq_, e.event, cfg.urls[n - 1], payload, now), cfg.webhookBackoff, bonus);
        Distribute(k, 1, Allowed(cfg.webhookBackoff) + bonus);
      }
    }
  }

  /** A recorded POST of a pending row takes at least one off its weight, and all of it, bonus
      included, when the row ends. */
  lemma PostWeighs(rows: Rows, backoff: seq<real>, id: nat, n: nat, x: Try, bonus: nat)
    requires Open(rows, id) && OnRecord(x) && IdsBelow(rows, n)
    ensures var rows' := AfterTry(rows, backoff, id, rows[id].attempts, x);
            && IdsBelow(rows', n)
            && Total(rows', n, backoff, bonus) + 1 <= Total(rows, n, backoff, bonus)
            && (GivesUp(backoff, rows[id].attempts, x) ==> Total(rows', n, backoff, bonus) + 1 + bonus <= Total(rows, n, backoff, bonus))
  {
    var rows' := AfterTry(rows, backoff, id, rows[id].attempts, x);
    TotalUpdate(rows, id, rows'[id], n, backoff, bonus);
    assert rows[id := rows'[id]] == rows';
  }

  // ----- what a record adds -------------------------------------------------------------------

  /** The most that one audit record can add to the webhook queue, and to the alert queue. */
  function WebhookGrant(cfg: Config, event: string, bonus: nat): nat {
    if event in cfg.webhookEvents then |cfg.urls| * (Allowed(cfg.webhookBackoff) + bonus) else 0
  }

  function AlertGrant(cfg: Config, e: Entry): nat {
    if MatchesRule(cfg, e) then Allowed(cfg.alertBackoff) else 0
  }

  lemma RecordGrants(cfg: Config, s: Sys, event: string, amount: Option<real>, sanctions: bool, luck: Luck, now: real, bonus: nat)
    requires Sound(s)
    ensures var s' := Recorded(cfg, s, event, amount, sanctions, luck, now);
            && Sound(s')
            && WebhookEnergy(cfg, s', bonus) <= WebhookEnergy(cfg, s, bonus) + WebhookGrant(cfg, event, bonus)
            && AlertEnergy(cfg, s') <= AlertEnergy(cfg, s) + AlertGrant(cfg, Entry(s.seqNo + 1, event, amount, sanctions))
  {
    if luck.write.Durable? {
      var e := Entry(s.seqNo + 1, event, amount, sanctions);
      FannedTotal(s.webhooks, s.webhookId, cfg, e, luck.body, now, luck.inserts, |cfg.urls|, bonus);
      AtMost(Landed(luck.inserts, |cfg.urls|), |cfg.urls|, Allowed(cfg.webhookBackoff) + bonus);
      TotalInsert(s.alerts, s.alertId, NewRow(e.seq_, event, cfg.chat, luck.message, now), cfg.alertBackoff, 0);
    }
  }

  lemma AtMost(k: nat, n: nat, unit: nat)
    requires k <= n
    ensures k * unit <= n * unit
  {}

  // ----- without feedback: every POST burns energy --------------------------------------------

  lemma WebhookBurns(cfg: Config, s: Sys, id: nat, x: Try, luck: Luck)
    requires !Feeds(cfg) && Sound(s) && Open(s.webhooks, id) && OnRecord(x)
    ensures var s' := AfterWebhook(cfg, s, id, x, luck);
            && Sound(s') && Energy(cfg, s') < Energy(cfg, s)
            && WebhookEnergy(cfg, s', 0) < WebhookEnergy(cfg, s, 0)
  {
    var n := s.webhooks[id].attempts;
    PostWeighs(s.webhooks, cfg.webhookBackoff, id, s.webhookId, x, Bonus(cfg));
    PostWeighs(s.webhooks, cfg.webhookBackoff, id, s.webhookId, x, 0);
    var mid := s.(webhooks := AfterTry(s.webhooks, cfg.webhookBackoff, id, n, x));
    if GivesUp(cfg.webhookBackoff, n, x) {
      RecordGrants(cfg, mid, GIVEUP_EVENT, None, false, luck, x.done, Bonus(cfg));
      RecordGrants(cfg, mid, GIVEUP_EVENT, None, false, luck, x.done, 0);
    }
  }

  lemma AlertBurns(cfg: Config, s: Sys, id: nat, x: Try)
    requires Sound(s) && Open(s.alerts, id) && OnRecord(x)
    ensures var s' := AfterAlert(cfg, s, id, x);
            && Sound(s') && Energy(cfg, s') < Energy(cfg, s) && WebhookEnergy(cfg, s', 0) == WebhookEnergy(cfg, s, 0)
  {
    PostWeighs(s.alerts, cfg.alertBackoff, id, s.alertId, x, 0);
  }

  /** What the external records of a run may add, by their events alone. */
  function Granted(cfg: Config, steps: seq<Step>): nat {
    if steps == [] then 0
    else
      var e := steps[|steps| - 1];
      Granted(cfg, steps[..|steps| - 1]) +
      if e.External?
      then WebhookGrant(cfg, e.event, Bonus(cfg)) + AlertGrant(cfg, Entry(0, e.event, e.amount, e.sanctions)) else 0
  }

  /** How many external records of a run are of an event that webhooks deliver. */
  function Matching(cfg: Config, steps: seq<Step>): nat {
    if steps == [] then 0
    else
      var e := steps[|steps| - 1];
      Matching(cfg, steps[..|steps| - 1]) + if e.External? && e.event in cfg.webhookEvents then 1 else 0
  }

  /** POSTs made and the energy left, over both queues, and over the webhook queue alone. */
  function Spent(cfg: Config, t: Tally): nat {
    t.webhookPosts + t.alertPosts + Energy(cfg, t.sys)
  }

  function WebhookSpent(cfg: Config, t: Tally): nat {
    t.webhookPosts + WebhookEnergy(cfg, t.sys, 0)
  }

  /** The webhook POSTs one matching record can cause: URLs times max(1, schedule length). */
  function PerEvent(cfg: Config): nat {
    |cfg.urls| * Allowed(cfg.webhookBackoff)
  }

  lemma PostBurns(cfg: Config, t: Tally, e: Step)
    requires !Feeds(cfg) && Sound(t.sys) && !e.External?
    ensures var t' := Exec(cfg, t, e);
            Sound(t'.sys) && Spent(cfg, t') <= Spent(cfg, t) && WebhookSpent(cfg, t') <= WebhookSpent(cfg, t)
  {
    match e
    case PostWebhook(id, x, luck) =>
      if Open(t.sys.webhooks, id) && OnRecord(x) { WebhookBurns(cfg, t.sys, id, x, luck); }
    case PostAlert(id, x) =>
      if Open(t.sys.alerts, id) && OnRecord(x) { AlertBurns(cfg, t.sys, id, x); }
  }

  lemma ExternalPays(cfg: Config, t: Tally, e: Step)
    requires Sound(t.sys) && e.External?
    ensures var t' := Exec(cfg, t, e);
            && Sound(t'.sys) && Spent(cfg, t') <= Spent(cfg, t) + Granted(cfg, [e])
            && WebhookSpent(cfg, t') <= WebhookSpent(cfg, t) + Matching(cfg, [e]) * PerEvent(cfg)
  {
    assert [e][..0] == [];
    RecordGrants(cfg, t.sys, e.event, e.amount, e.sanctions, e.luck, e.now, Bonus(cfg));
    RecordGrants(cfg, t.sys, e.event, e.amount, e.sanctions, e.luck, e.now, 0);
  }

  lemma StepBurns(cfg: Config, t: Tally, e: Step)
    requires !Feeds(cfg) && Sound(t.sys)
    ensures var t' := Exec(cfg, t, e);
            && Sound(t'.sys) && Spent(cfg, t') <= Spent(cfg, t) + Granted(cfg, [e])
            && WebhookSpent(cfg, t') <= WebhookSpent(cfg, t) + Matching(cfg, [e]) * PerEvent(cfg)
  {
    if e.External? {
      ExternalPays(cfg, t, e);
    } else {
      PostBurns(cfg, t, e);
      assert [e][..0] == [];
    }
  }

  /** Quiescence: if give-ups are not fed back, a run makes at most as many POSTs as the pending
      rows at its start and its external records pay for; and no more webhook POSTs than, beside
      those pending, URLs times max(1, schedule length) per matching external record. */
  lemma {:induction false} PostsArePaidFor(cfg: Config, t: Tally, steps: seq<Step>)
    requires !Feeds(cfg) && Sound(t.sys)
    ensures var t' := Run(cfg, t, steps);
            && Sound(t'.sys)
            && Spent(cfg, t') <= Spent(cfg, t) + Granted(cfg, steps)
            && WebhookSpent(cfg, t') <= WebhookSpent(cfg, t) + Matching(cfg, steps) * PerEvent(cfg)
  {
    if steps != [] {
      var cut, e := steps[..|steps| - 1], steps[|steps| - 1];
      PostsArePaidFor(cfg, t, cut);
      StepBurns(cfg, Run(cfg, t, cut), e);
      SplitLast(cfg, cut, e);
      assert cut + [e] == steps;
    }
  }

  lemma SplitLast(cfg: Config, cut: seq<Step>, e: Step)
    ensures Granted(cfg, cut + [e]) == Granted(cfg, cut) + Granted(cfg, [e])
    ensures Matching(cfg, cut + [e]) == Matching(cfg, cut) + Matching(cfg, [e])
    ensures Matching(cfg, cut + [e]) * PerEvent(cfg)
            == Matching(cfg, cut) * PerEvent(cfg) + Matching(cfg, [e]) * PerEvent(cfg)
  {
    Distribute(Matching(cfg, cut), Matching(cfg, [e]), PerEvent(cfg));
  }

  /** After the last external record the system makes at most Energy more POSTs. */
  lemma QuiescesWithoutFeedback(cfg: Config, t: Tally, steps: seq<Step>)
    requires !Feeds(cfg) && Sound(t.sys)
    requires forall i :: 0 <= i < |steps| ==> !steps[i].External?
    ensures var t' := Run(cfg, t, steps);
            t'.webhookPosts + t'.alertPosts <= t.webhookPosts + t.alertPosts + Energy(cfg, t.sys)
  {
    PostsArePaidFor(cfg, t, steps);
    NothingGranted(cfg, steps);
  }

  lemma {:induction false} NothingGranted(cfg: Config, steps: seq<Step>)
    requires forall i :: 0 <= i < |steps| ==> !steps[i].External?
    ensures Granted(cfg, steps) == 0
  {
    if steps != [] { NothingGranted(cfg, steps[..|steps| - 1]); }
  }

  /** At most one alert per audit record, fed back or not. */
  lemma {:induction false} OneAlertPerRecord(cfg: Config, t: Tally, steps: seq<Step>)
    ensures var t' := Run(cfg, t, steps);
            |t.sys.log| <= |t'.sys.log| && t'.sys.alertId - t.sys.alertId <= |t'.sys.log| - |t.sys.log|
  {
    if steps != [] { OneAlertPerRecord(cfg, t, steps[..|steps| - 1]); }
  }
}
