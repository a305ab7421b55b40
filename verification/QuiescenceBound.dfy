/** The POSTs that `Quiescence` pays for can all happen. */
module QuiescenceBound {
  import opened AuditFanout
  import opened Delivery
  import opened Options
  import opened Quiescence

  /** A POST without an answer, put on record. */
  const FAILURE := Try(0.0, 0.0, NoAnswer, true, true, false)

  /** A record whose line lands, whose inserts all work, in an hour that is not quiet. */
  predicate Lucky(cfg: Config, luck: Luck) {
    luck.write.Durable? && !luck.quiet && luck.alertInsert && forall i :: 0 <= i < |cfg.urls| ==> Works(luck.inserts, i)
  }

  function LuckFor(cfg: Config): (luck: Luck)
    ensures Lucky(cfg, luck)
  {
    Luck(Durable, seq(|cfg.urls|, _ => true), false, true, "", "")
  }

  lemma {:induction false} AllLand(inserts: seq<bool>, n: nat)
    requires forall i :: 0 <= i < n ==> Works(inserts, i)
    ensures Landed(inserts, n) == n
  {
    if n > 0 { AllLand(inserts, n - 1); }
  }

  /** A lucky record adds its whole grant. */
  lemma LuckyGrants(cfg: Config, s: Sys, event: string, amount: Option<real>, sanctions: bool, luck: Luck, now: real, bonus: nat)
    requires Sound(s) && Lucky(cfg, luck)
    ensures var s' := Recorded(cfg, s, event, amount, sanctions, luck, now);
            && Sound(s')
            && WebhookEnergy(cfg, s', bonus) == WebhookEnergy(cfg, s, bonus) + WebhookGrant(cfg, event, bonus)
            && AlertEnergy(cfg, s') == AlertEnergy(cfg, s) + AlertGrant(cfg, Entry(s.seqNo + 1, event, amount, sanctions))
  {
    var e := Entry(s.seqNo + 1, event, amount, sanctions);
    AllLand(luck.inserts, |cfg.urls|);
    FannedTotal(s.webhooks, s.webhookId, cfg, e, luck.body, now, luck.inserts, |cfg.urls|, bonus);
    TotalInsert(s.alerts, s.alertId, NewRow(e.seq_, event, cfg.chat, luck.message, now), cfg.alertBackoff, 0);
  }

  /** A failing POST takes exactly one off its row's weight, and the bonus when the row ends. */
  lemma FailureWeighs(rows: Rows, backoff: seq<real>, id: nat, n: nat, bonus: nat)
    requires Open(rows, id) && IdsBelow(rows, n)
    ensures var rows' := AfterTry(rows, backoff, id, rows[id].attempts, FAILURE);
            && IdsBelow(rows', n)
            && Total(rows', n, backoff, bonus) + 1 + (if GivesUp(backoff, rows[id].attempts, FAILURE) then bonus else 0)
               == Total(rows, n, backoff, bonus)
  {
    var rows' := AfterTry(rows, backoff, id, rows[id].attempts, FAILURE);
    TotalUpdate(rows, id, rows'[id], n, backoff, bonus);
    assert rows[id := rows'[id]] == rows';
  }

  /** So a failing webhook POST burns exactly one, its give-up record and that record's alert included. */
  lemma WebhookBurnsOne(cfg: Config, s: Sys, id: nat)
    requires !Feeds(cfg) && Sound(s) && Open(s.webhooks, id)
    ensures var s' := AfterWebhook(cfg, s, id, FAILURE, LuckFor(cfg));
            && Sound(s') && Energy(cfg, s') + 1 == Energy(cfg, s)
            && WebhookEnergy(cfg, s', 0) + 1 == WebhookEnergy(cfg, s, 0)
  {
    var n := s.webhooks[id].attempts;
    FailureWeighs(s.webhooks, cfg.webhookBackoff, id, s.webhookId, Bonus(cfg));
    FailureWeighs(s.webhooks, cfg.webhookBackoff, id, s.webhookId, 0);
    var mid := s.(webhooks := AfterTry(s.webhooks, cfg.webhookBackoff, id, n, FAILURE));
    if GivesUp(cfg.webhookBackoff, n, FAILURE) {
      LuckyGrants(cfg, mid, GIVEUP_EVENT, None, false, LuckFor(cfg), FAILURE.done, Bonus(cfg));
      LuckyGrants(cfg, mid, GIVEUP_EVENT, None, false, LuckFor(cfg), FAILURE.done, 0);
    }
  }

  lemma AlertBurnsOne(cfg: Config, s: Sys, id: nat)
    requires Sound(s) && Open(s.alerts, id)
    ensures var s' := AfterAlert(cfg, s, id, FAILURE);
            && Sound(s') && Energy(cfg, s') + 1 == Energy(cfg, s) && WebhookEnergy(cfg, s', 0) == WebhookEnergy(cfg, s, 0)
  {
    FailureWeighs(s.alerts, cfg.alertBackoff, id, s.alertId, 0);
  }

  lemma {:induction false} OpenRow(rows: Rows, n: nat, backoff: seq<real>, bonus: nat) returns (id: nat)
    requires Total(rows, n, backoff, bonus) > 0
    ensures Open(rows, id)
  {
    if RowWeight(rows, n - 1, backoff, bonus) > 0 {
      id := n - 1;
    } else {
      id := OpenRow(rows, n - 1, backoff, bonus);
    }
  }

  /** The next failing POST. */
  lemma NextFailure(cfg: Config, t: Tally) returns (e: Step)
    requires !Feeds(cfg) && Sound(t.sys) && Energy(cfg, t.sys) > 0
    ensures !e.External?
    ensures var t' := Exec(cfg, t, e);
            && Sound(t'.sys) && Energy(cfg, t'.sys) + 1 == Energy(cfg, t.sys)
            && t'.webhookPosts + t'.alertPosts == t.webhookPosts + t.alertPosts + 1
            && WebhookSpent(cfg, t') == WebhookSpent(cfg, t)
  {
    if WebhookEnergy(cfg, t.sys, Bonus(cfg)) > 0 {
      var id := OpenRow(t.sys.webhooks, t.sys.webhookId, cfg.webhookBackoff, Bonus(cfg));
      e := PostWebhook(id, FAILURE, LuckFor(cfg));
      WebhookBurnsOne(cfg, t.sys, id);
    } else {
      var id := OpenRow(t.sys.alerts, t.sys.alertId, cfg.alertBackoff, 0);
      e := PostAlert(id, FAILURE);
      AlertBurnsOne(cfg, t.sys, id);
    }
  }

  lemma RunOne(cfg: Config, t: Tally, steps: seq<Step>, e: Step)
    ensures Run(cfg, t, steps + [e]) == Exec(cfg, Run(cfg, t, steps), e)
  {
    assert (steps + [e])[..|steps|] == steps;
  }

  lemma {:induction false} RunAll(cfg: Config, t: Tally, a: seq<Step>, b: seq<Step>)
    ensures Run(cfg, t, a + b) == Run(cfg, Run(cfg, t, a), b)
  {
    if b == [] {
      assert a + b == a;
    } else {
      assert (a + b)[..|a + b| - 1] == a + b[..|b| - 1];
      RunAll(cfg, t, a, b[..|b| - 1]);
    }
  }

  /** From every state there is a run without external records that makes as many POSTs as the measure
      says, over both queues and over the webhook queue alone, and ends at rest. */
  lemma {:induction false} MeasureIsUsedUp(cfg: Config, t: Tally) returns (steps: seq<Step>)
    requires !Feeds(cfg) && Sound(t.sys)
    ensures forall i :: 0 <= i < |steps| ==> !steps[i].External?
    ensures var t' := Run(cfg, t, steps);
            && Sound(t'.sys) && Energy(cfg, t'.sys) == 0
            && t'.webhookPosts + t'.alertPosts == t.webhookPosts + t.alertPosts + Energy(cfg, t.sys)
            && t'.webhookPosts == t.webhookPosts + WebhookEnergy(cfg, t.sys, 0)
    decreases Energy(cfg, t.sys)
  {
    if Energy(cfg, t.sys) == 0 {
      steps := [];
      NothingLeft(t.sys.webhooks, t.sys.webhookId, cfg.webhookBackoff, Bonus(cfg));
    } else {
      var e := NextFailure(cfg, t);
      RunOne(cfg, t, [], e);
      assert [] + [e] == [e];
      var rest := MeasureIsUsedUp(cfg, Exec(cfg, t, e));
      steps := [e] + rest;
      RunAll(cfg, t, [e], rest);
    }
  }

  lemma {:induction false} NothingLeft(rows: Rows, n: nat, backoff: seq<real>, bonus: nat)
    requires Total(rows, n, backoff, bonus) == 0
    ensures Total(rows, n, backoff, 0) == 0
  {
    if n > 0 { NothingLeft(rows, n - 1, backoff, bonus); }
  }

  /** Every step is an external record whose inserts all work. */
  predicate LuckyRecords(cfg: Config, steps: seq<Step>) {
    forall i :: 0 <= i < |steps| ==> steps[i].External? && Lucky(cfg, steps[i].luck)
  }

  lemma RecordGrantsAll(cfg: Config, t: Tally, e: Step)
    requires Sound(t.sys) && e.External? && Lucky(cfg, e.luck)
    ensures var t' := Exec(cfg, t, e);
            && Sound(t'.sys) && t'.webhookPosts == t.webhookPosts && t'.alertPosts == t.alertPosts
            && Energy(cfg, t'.sys) == Energy(cfg, t.sys) + Granted(cfg, [e])
            && WebhookEnergy(cfg, t'.sys, 0) == WebhookEnergy(cfg, t.sys, 0) + Matching(cfg, [e]) * PerEvent(cfg)
  {
    assert [e][..0] == [];
    LuckyGrants(cfg, t.sys, e.event, e.amount, e.sanctions, e.luck, e.now, Bonus(cfg));
    LuckyGrants(cfg, t.sys, e.event, e.amount, e.sanctions, e.luck, e.now, 0);
  }

  lemma {:induction false} RecordsGrant(cfg: Config, t: Tally, records: seq<Step>)
    requires Sound(t.sys) && LuckyRecords(cfg, records)
    ensures var t' := Run(cfg, t, records);
            && Sound(t'.sys) && t'.webhookPosts == t.webhookPosts && t'.alertPosts == t.alertPosts
            && Energy(cfg, t'.sys) == Energy(cfg, t.sys) + Granted(cfg, records)
            && WebhookEnergy(cfg, t'.sys, 0) == WebhookEnergy(cfg, t.sys, 0) + Matching(cfg, records) * PerEvent(cfg)
  {
    if records != [] {
      var cut, e := records[..|records| - 1], records[|records| - 1];
      RecordsGrant(cfg, t, cut);
      RecordGrantsAll(cfg, Run(cfg, t, cut), e);
      SplitLast(cfg, cut, e);
      assert cut + [e] == records;
    }
  }

  /** The bounds of `Quiescence.PostsArePaidFor` are reached: for any external records whose inserts work,
      from every state, there is a run with just these records that makes every POST they and the pending
      rows pay for, over both queues and over the webhook queue alone. */
  lemma EveryGrantIsUsed(cfg: Config, t: Tally, records: seq<Step>) returns (posts: seq<Step>)
    requires !Feeds(cfg) && Sound(t.sys) && LuckyRecords(cfg, records)
    ensures forall i :: 0 <= i < |posts| ==> !posts[i].External?
    ensures var t' := Run(cfg, t, records + posts);
            && t'.webhookPosts + t'.alertPosts == Spent(cfg, t) + Granted(cfg, records)
            && t'.webhookPosts == WebhookSpent(cfg, t) + Matching(cfg, records) * PerEvent(cfg)
  {
    RecordsGrant(cfg, t, records);
    posts := MeasureIsUsedUp(cfg, Run(cfg, t, records));
    RunAll(cfg, t, records, posts);
  }
}
