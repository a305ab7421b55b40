/** The webhook worker and the audit records its give-ups write, tick by tick and on the clock: when
    the feedback dies out. */
module FeedbackRuns {
  import opened AuditFanout
  import opened Delivery
  import opened OldestFirst
  import opened Options
  import Quiescence

  /** What is left of the current tick, the wall clock, and the POSTs made. */
  datatype State = State(sys: Sys, queue: seq<Job>, clock: real, posts: nat)

  datatype Step =
    | Take(now: real, ids: seq<nat>)
    | Deliver(x: Try, luck: Luck)

  /** One POST of a taken row, with the record a give-up writes. */
  function AfterJob(cfg: Config, s: Sys, job: Job, x: Try, luck: Luck): Sys {
    var s' := s.(webhooks := AfterTry(s.webhooks, cfg.webhookBackoff, job.id, job.row.attempts, x));
    if GivesUp(cfg.webhookBackoff, job.row.attempts, x)
    then Recorded(cfg, s', GIVEUP_EVENT, None, false, luck, x.done) else s'
  }

  /** One step of the worker; POSTs are recorded. What is not possible, or not yet due, changes
      nothing, and the clock never goes back. */
  function Exec(cfg: Config, s: State, e: Step): State {
    match e
    case Take(now, ids) =>
      if s.clock <= now && s.queue == [] && FirstOf(Due(s.sys.webhooks, now), TAKE_LIMIT, ids)
         && (forall m :: 0 <= m < |ids| ==> ids[m] in s.sys.webhooks)
      then s.(clock := now, queue := Jobs(s.sys.webhooks, ids)) else s
    case Deliver(x, luck) =>
      if s.queue != [] && s.clock <= x.start <= x.done && Quiescence.OnRecord(x)
      then State(AfterJob(cfg, s.sys, s.queue[0], x, luck), s.queue[1..], x.done, s.posts + 1) else s
  }

  function Run(cfg: Config, s: State, steps: seq<Step>): State {
    if steps == [] then s else Exec(cfg, Run(cfg, s, steps[..|steps| - 1]), steps[|steps| - 1])
  }

  /** The rest of a tick: different rows, as they stand in the table, pending and due. */
  predicate Sound(s: State) {
    && Quiescence.Sound(s.sys)
    && (forall m, n :: 0 <= m < n < |s.queue| ==> s.queue[m].id != s.queue[n].id)
    && (forall m :: 0 <= m < |s.queue| ==> Current(s, s.queue[m]))
  }

  predicate Current(s: State, job: Job) {
    && Quiescence.Open(s.sys.webhooks, job.id) && s.sys.webhooks[job.id] == job.row && job.row.nextAt <= s.clock
  }

  /** A record leaves the rows there are as they are. */
  lemma RecordSpares(cfg: Config, s: Sys, event: string, luck: Luck, now: real, id: nat)
    requires Quiescence.Sound(s) && id in s.webhooks
    ensures var s' := Recorded(cfg, s, event, None, false, luck, now);
            id in s'.webhooks && s'.webhooks[id] == s.webhooks[id]
  {
    var e := Entry(s.seqNo + 1, event, None, false);
    FanoutExact(s.webhooks, s.webhookId, cfg, e, luck.body, now, luck.inserts, |cfg.urls|, id);
  }

  lemma JobSpares(cfg: Config, s: Sys, job: Job, x: Try, luck: Luck, id: nat)
    requires Quiescence.Sound(s) && id in s.webhooks && id != job.id
    ensures var s' := AfterJob(cfg, s, job, x, luck);
            id in s'.webhooks && s'.webhooks[id] == s.webhooks[id]
  {
    var mid := s.(webhooks := AfterTry(s.webhooks, cfg.webhookBackoff, job.id, job.row.attempts, x));
    assert Quiescence.Sound(mid);
    RecordSpares(cfg, mid, GIVEUP_EVENT, luck, x.done, id);
  }

  lemma JobKeepsIds(cfg: Config, s: Sys, job: Job, x: Try, luck: Luck)
    requires Quiescence.Sound(s)
    ensures Quiescence.Sound(AfterJob(cfg, s, job, x, luck))
  {
    var mid := s.(webhooks := AfterTry(s.webhooks, cfg.webhookBackoff, job.id, job.row.attempts, x));
    assert Quiescence.Sound(mid);
    Quiescence.RecordGrants(cfg, mid, GIVEUP_EVENT, None, false, luck, x.done, 0);
  }

  lemma DeliverKeepsSound(cfg: Config, s: State, x: Try, luck: Luck)
    requires Sound(s)
    ensures Sound(Exec(cfg, s, Deliver(x, luck)))
  {
    var s' := Exec(cfg, s, Deliver(x, luck));
    if s' != s {
      JobKeepsIds(cfg, s.sys, s.queue[0], x, luck);
      forall m | 0 <= m < |s'.queue| ensures Current(s', s'.queue[m]) {
        assert Current(s, s.queue[m + 1]) && s.queue[0].id != s.queue[m + 1].id;
        JobSpares(cfg, s.sys, s.queue[0], x, luck, s.queue[m + 1].id);
      }
    }
  }

  lemma StepKeepsSound(cfg: Config, s: State, e: Step)
    requires Sound(s)
    ensures Sound(Exec(cfg, s, e))
  {
    if e.Deliver? { DeliverKeepsSound(cfg, s, e.x, e.luck); }
  }

  // ----- without feedback ---------------------------------------------------------------------

  function TallyOf(s: State): Quiescence.Tally {
    Quiescence.Tally(s.sys, s.posts, 0)
  }

  /** Every run of the worker is a run of the queue without ticks and clock, with the same POSTs. */
  lemma {:induction false} WorkerRunsAreRuns(cfg: Config, s: State, steps: seq<Step>) returns (plain: seq<Quiescence.Step>)
    requires Sound(s)
    ensures Sound(Run(cfg, s, steps))
    ensures Quiescence.Run(cfg, TallyOf(s), plain) == TallyOf(Run(cfg, s, steps))
    ensures forall i :: 0 <= i < |plain| ==> !plain[i].External?
  {
    if steps == [] {
      plain := [];
    } else {
      var cut, e := steps[..|steps| - 1], steps[|steps| - 1];
      var before := Run(cfg, s, cut);
      plain := WorkerRunsAreRuns(cfg, s, cut);
      StepKeepsSound(cfg, before, e);
      if e.Deliver? && Exec(cfg, before, e) != before {
        assert Current(before, before.queue[0]);
        var more := plain + [Quiescence.PostWebhook(before.queue[0].id, e.x, e.luck)];
        assert more[..|more| - 1] == plain;
        plain := more;
      } else if e.Deliver? {
      }
    }
  }

  // ----- with feedback ------------------------------------------------------------------------

  function FailingAt(now: real): Try {
    Try(now, now, NoAnswer, true, true, false)
  }

  /** The first URL's insert works. */
  const FANNING := Luck(Durable, [true], true, false, "", "")

  lemma {:induction false} FirstInsertLands(
    rows: Rows, first: nat, cfg: Config, e: Entry, payload: string, now: real, inserts: seq<bool>, n: nat)
    requires 0 < n <= |cfg.urls| && inserts == [true]
    ensures Landed(inserts, n) == 1
    ensures Quiescence.Open(Fanned(rows, first, cfg, e, payload, now, inserts, n), first)
  {
    if n > 1 {
      FirstInsertLands(rows, first, cfg, e, payload, now, inserts, n - 1);
    } else {
      assert Landed(inserts, 0) == 0;
    }
  }

  /** A POST that fails leaves a pending webhook: the same row, or the one its give-up feeds back. */
  lemma FailureFeeds(cfg: Config, s: Sys, job: Job, now: real) returns (next: nat)
    requires Quiescence.Feeds(cfg) && job.id in s.webhooks
    ensures Quiescence.Open(AfterJob(cfg, s, job, FailingAt(now), FANNING).webhooks, next)
  {
    if GivesUp(cfg.webhookBackoff, job.row.attempts, FailingAt(now)) {
      next := s.webhookId;
      var rows := AfterTry(s.webhooks, cfg.webhookBackoff, job.id, job.row.attempts, FailingAt(now));
      FirstInsertLands(rows, s.webhookId, cfg, Entry(s.seqNo + 1, GIVEUP_EVENT, None, false), FANNING.body, now,
                       FANNING.inserts, |cfg.urls|);
    } else {
      next := job.id;
    }
  }

  /** A worker at rest can always start a tick on a pending row, once its time has come. */
  lemma TickStarts(cfg: Config, s: State, id: nat) returns (e: Step)
    requires Sound(s) && s.queue == [] && Quiescence.Open(s.sys.webhooks, id)
    ensures e.Take? && Exec(cfg, s, e).queue != []
    ensures Exec(cfg, s, e).sys == s.sys && Exec(cfg, s, e).posts == s.posts
  {
    var due := s.sys.webhooks[id].nextAt;
    var now := if s.clock < due then due else s.clock;
    var ages := Due(s.sys.webhooks, now);
    assert id in ages;
    var ids := FirstExists(ages, TAKE_LIMIT);
    forall m | 0 <= m < |ids| ensures ids[m] in s.sys.webhooks { assert ids[m] in ages; }
    assert id in ages.Keys;
    e := Take(now, ids);
  }

  /** With feedback, one pending webhook is enough for any number of POSTs, each of a row that is
      due when its tick takes it, and without a single external record. */
  lemma {:induction false} EndlessWithFeedback(cfg: Config, s: State, id: nat, n: nat) returns (steps: seq<Step>, last: nat)
    requires Quiescence.Feeds(cfg) && Sound(s) && Quiescence.Open(s.sys.webhooks, id)
    ensures Sound(Run(cfg, s, steps)) && Quiescence.Open(Run(cfg, s, steps).sys.webhooks, last)
    ensures Run(cfg, s, steps).posts == s.posts + n
  {
    if n == 0 {
      steps, last := [], id;
    } else {
      steps, last := EndlessWithFeedback(cfg, s, id, n - 1);
      if Run(cfg, s, steps).queue == [] {
        var take := TickStarts(cfg, Run(cfg, s, steps), last);
        StepKeepsSound(cfg, Run(cfg, s, steps), take);
        RunSnoc(cfg, s, steps, take);
        steps := steps + [take];
      }
      var before := Run(cfg, s, steps);
      assert Current(before, before.queue[0]);
      last := FailureFeeds(cfg, before.sys, before.queue[0], before.clock);
      var e := Deliver(FailingAt(before.clock), FANNING);
      StepKeepsSound(cfg, before, e);
      RunSnoc(cfg, s, steps, e);
      steps := steps + [e];
    }
  }

  lemma RunSnoc(cfg: Config, s: State, steps: seq<Step>, e: Step)
    ensures Run(cfg, s, steps + [e]) == Exec(cfg, Run(cfg, s, steps), e)
  {
    assert (steps + [e])[..|steps|] == steps;
  }

  /** No run of the worker from here makes more POSTs in all than this. */
  ghost predicate Bounded(cfg: Config, s: State, bound: nat) {
    forall steps :: Run(cfg, s, steps).posts <= bound
  }

  /** The exact condition: with a webhook pending, the worker's POSTs are bounded if and only if
      give-ups are not fed back. */
  lemma QuiescentIff(cfg: Config, s: State, id: nat)
    requires Sound(s) && Quiescence.Open(s.sys.webhooks, id)
    ensures (exists bound: nat :: Bounded(cfg, s, bound)) <==> !Quiescence.Feeds(cfg)
  {
    if Quiescence.Feeds(cfg) {
      forall bound: nat ensures !Bounded(cfg, s, bound) {
        var steps, _ := EndlessWithFeedback(cfg, s, id, bound + 1);
        assert Run(cfg, s, steps).posts > bound;
      }
    } else {
      var bound := s.posts + Quiescence.Energy(cfg, s.sys);
      forall steps ensures Run(cfg, s, steps).posts <= bound {
        var plain := WorkerRunsAreRuns(cfg, s, steps);
        Quiescence.QuiescesWithoutFeedback(cfg, TallyOf(s), plain);
      }
      assert Bounded(cfg, s, bound);
    }
  }
}
