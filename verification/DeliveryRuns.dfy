/** Every run of a delivery queue with one worker, forced retries, crashes and restarts. The attempts a
    row shows are the POSTs made for it less the forgotten ones; the schedule and the forced retries
    bound them; a delivered row is final; and scheduled attempts keep their distance from the recorded
    failure before them. */
module DeliveryRuns {
  import opened Delivery
  import opened OldestFirst
  import opened Options

  /** One POST: its number among the row's attempts, when it was made, when its outcome was
      handled, and whether the row recorded it. */
  datatype Post = Post(id: nat, number: nat, start: real, done: real, saved: bool)

  /** The table, what is left of the current tick, the wall clock, all POSTs, all forced retries. */
  datatype State = State(rows: Rows, nextId: nat, queue: seq<Job>, clock: real, posts: seq<Post>, forced: seq<nat>)

  /** CutOff: the process dies after a POST and before its outcome is on record. */
  datatype Step =
    | Enqueue(auditId: nat, event: string, target: string, payload: string, now: real)
    | Take(now: real, ids: seq<nat>)
    | Deliver(x: Try)
    | CutOff(start: real)
    | ForceRetry(id: nat, now: real)
    | Restart

  const EMPTY := State(map[], 1, [], 0.0, [], [])

  function DoTake(s: State, now: real, ids: seq<nat>): State {
    if s.clock <= now && s.queue == [] && FirstOf(Due(s.rows, now), TAKE_LIMIT, ids)
       && (forall m :: 0 <= m < |ids| ==> ids[m] in s.rows)
    then s.(clock := now, queue := Jobs(s.rows, ids)) else s
  }

  function DoDeliver(backoff: seq<real>, s: State, x: Try): State {
    if s.queue != [] && s.clock <= x.start <= x.done then
      var d := s.queue[0];
      s.(rows := AfterTry(s.rows, backoff, d.id, d.row.attempts, x), clock := x.done,
         queue := if Saved(x) then s.queue[1..] else [],
         posts := s.posts + [Post(d.id, d.row.attempts + 1, x.start, x.done, Saved(x))])
    else s
  }

  function DoCutOff(s: State, start: real): State {
    if s.queue != [] && s.clock <= start then
      var d := s.queue[0];
      s.(clock := start, queue := [], posts := s.posts + [Post(d.id, d.row.attempts + 1, start, start, false)])
    else s
  }

  function DoForce(s: State, id: nat, now: real): State {
    if s.clock <= now && Retryable(s.rows, id)
    then s.(clock := now, rows := Forced(s.rows, id, now), forced := s.forced + [id]) else s
  }

  /** One step; a step that is not possible, or that would turn the clock back, changes nothing. */
  function Exec(backoff: seq<real>, s: State, e: Step): State {
    match e
    case Enqueue(auditId, event, target, payload, now) =>
      if s.clock <= now
      then s.(clock := now, rows := s.rows[s.nextId := NewRow(auditId, event, target, payload, now)], nextId := s.nextId + 1) else s
    case Take(now, ids) => DoTake(s, now, ids)
    case Deliver(x) => DoDeliver(backoff, s, x)
    case CutOff(start) => DoCutOff(s, start)
    case ForceRetry(id, now) => DoForce(s, id, now)
    case Restart => s.(queue := [])
  }

  function Run(backoff: seq<real>, s: State, steps: seq<Step>): State {
    if steps == [] then s else Exec(backoff, Run(backoff, s, steps[..|steps| - 1]), steps[|steps| - 1])
  }

  // ----- counting -----------------------------------------------------------------------------

  function PostsOf(posts: seq<Post>, id: nat): nat {
    if posts == [] then 0 else PostsOf(posts[..|posts| - 1], id) + if posts[|posts| - 1].id == id then 1 else 0
  }

  /** POSTs that were made but never recorded. */
  function LostOf(posts: seq<Post>, id: nat): nat {
    if posts == [] then 0
    else LostOf(posts[..|posts| - 1], id) + if posts[|posts| - 1].id == id && !posts[|posts| - 1].saved then 1 else 0
  }

  function RetriesOf(forced: seq<nat>, id: nat): nat {
    if forced == [] then 0 else RetriesOf(forced[..|forced| - 1], id) + if forced[|forced| - 1] == id then 1 else 0
  }

  lemma PostsSnoc(posts: seq<Post>, p: Post, id: nat)
    ensures PostsOf(posts + [p], id) == PostsOf(posts, id) + if p.id == id then 1 else 0
    ensures LostOf(posts + [p], id) == LostOf(posts, id) + if p.id == id && !p.saved then 1 else 0
  {
    assert (posts + [p])[..|posts|] == posts;
  }

  lemma RetriesSnoc(forced: seq<nat>, x: nat, id: nat)
    ensures RetriesOf(forced + [x], id) == RetriesOf(forced, id) + if x == id then 1 else 0
  {
    assert (forced + [x])[..|forced|] == forced;
  }

  // ----- the invariant ------------------------------------------------------------------------

  predicate IdsBelow(s: State) {
    forall id :: id in s.rows ==> id < s.nextId
  }

  /** The rest of a tick: different rows, as they stand in the table, pending and due. */
  predicate QueueSound(s: State) {
    && (forall m, n :: 0 <= m < n < |s.queue| ==> s.queue[m].id != s.queue[n].id)
    && (forall m :: 0 <= m < |s.queue| ==>
          && s.queue[m].id in s.rows && s.rows[s.queue[m].id] == s.queue[m].row
          && s.queue[m].row.status == Pending && s.queue[m].row.nextAt <= s.clock)
  }

  /** Every recorded POST is an attempt, and the attempts are the schedule's plus one per forced
      retry, exactly, once the row is not pending after such a retry. */
  predicate Accounted(backoff: seq<real>, row: Row, posts: nat, lost: nat, retries: nat) {
    && row.attempts + lost == posts
    && row.status != Failed
    && (row.status == Pending ==>
          if retries == 0 then row.attempts < Allowed(backoff) else row.attempts == Allowed(backoff) + retries - 1)
    && (row.status == GivingUp ==> row.attempts == Allowed(backoff) + retries)
    && (row.status == Delivered ==>
          && 1 <= row.attempts <= Allowed(backoff) + retries
          && (retries > 0 ==> row.attempts == Allowed(backoff) + retries))
  }

  predicate CountsSound(backoff: seq<real>, s: State, id: nat) {
    if id in s.rows
    then Accounted(backoff, s.rows[id], PostsOf(s.posts, id), LostOf(s.posts, id), RetriesOf(s.forced, id))
    else PostsOf(s.posts, id) == 0 && LostOf(s.posts, id) == 0 && RetriesOf(s.forced, id) == 0
  }

  /** POST q follows the recorded POST p of the same row as its next scheduled attempt. */
  predicate Follows(backoff: seq<real>, p: Post, q: Post) {
    p.id == q.id && p.saved && q.number == p.number + 1 && p.number < |backoff|
  }

  predicate SpacedBefore(backoff: seq<real>, posts: seq<Post>, q: Post) {
    forall i :: 0 <= i < |posts| && Follows(backoff, posts[i], q) ==>
      q.start >= posts[i].done + backoff[posts[i].number]
  }

  /** No scheduled attempt comes before the failure of the one before plus the schedule's wait. */
  predicate Spaced(backoff: seq<real>, posts: seq<Post>) {
    forall j :: 0 <= j < |posts| ==> SpacedBefore(backoff, posts[..j], posts[j])
  }

  /** What a recorded POST left in its row, for as long as it is the last one recorded. */
  predicate Left(backoff: seq<real>, s: State, p: Post) {
    && p.id in s.rows
    && (p.saved ==>
          && p.number <= s.rows[p.id].attempts
          && (p.number == s.rows[p.id].attempts && s.rows[p.id].status == Pending && p.number < |backoff| ==>
                s.rows[p.id].nextAt == p.done + backoff[p.number]))
  }

  predicate LeftAll(backoff: seq<real>, s: State) {
    forall i :: 0 <= i < |s.posts| ==> Left(backoff, s, s.posts[i])
  }

  predicate Shape(s: State) {
    IdsBelow(s) && QueueSound(s)
  }

  lemma TakeKeepsShape(s: State, now: real, ids: seq<nat>)
    requires Shape(s)
    ensures Shape(DoTake(s, now, ids))
  {
    var s' := DoTake(s, now, ids);
    if s' != s {
      forall m | 0 <= m < |ids| ensures s.rows[ids[m]].status == Pending && s.rows[ids[m]].nextAt <= now {
        assert ids[m] in Due(s.rows, now);
      }
      forall m, n | 0 <= m < n < |ids| ensures s'.queue[m].id != s'.queue[n].id {
        assert ids[m] != ids[n];
      }
    }
  }

  lemma DeliverKeepsShape(backoff: seq<real>, s: State, x: Try)
    requires Shape(s)
    ensures Shape(DoDeliver(backoff, s, x))
  {}

  lemma StepKeepsShape(backoff: seq<real>, s: State, e: Step)
    requires Shape(s)
    ensures Shape(Exec(backoff, s, e))
  {
    match e
    case Take(now, ids) => TakeKeepsShape(s, now, ids);
    case Deliver(x) => DeliverKeepsShape(backoff, s, x);
    case _ =>
  }

  /** One POST of a pending row, for the row itself and for every other. */
  lemma TryAccounted(backoff: seq<real>, rows: Rows, id: nat, x: Try, posts: nat, lost: nat, retries: nat)
    requires id in rows && rows[id].status == Pending && Accounted(backoff, rows[id], posts, lost, retries)
    ensures id in AfterTry(rows, backoff, id, rows[id].attempts, x)
    ensures Accounted(backoff, AfterTry(rows, backoff, id, rows[id].attempts, x)[id], posts + 1,
                      lost + if Saved(x) then 0 else 1, retries)
  {}

  lemma TrySpares(backoff: seq<real>, rows: Rows, id: nat, attempts: nat, x: Try, other: nat)
    requires id in rows && other != id
    ensures var rows' := AfterTry(rows, backoff, id, attempts, x);
            (other in rows' <==> other in rows) && (other in rows ==> rows'[other] == rows[other])
  {}

  lemma DeliverKeepsCounts(backoff: seq<real>, s: State, x: Try, id: nat)
    requires Shape(s) && CountsSound(backoff, s, id)
    ensures CountsSound(backoff, DoDeliver(backoff, s, x), id)
  {
    if s.queue != [] && s.clock <= x.start <= x.done {
      var d := s.queue[0];
      assert s.rows[d.id] == d.row && d.row.status == Pending;
      PostsSnoc(s.posts, Post(d.id, d.row.attempts + 1, x.start, x.done, Saved(x)), id);
      if id == d.id {
        TryAccounted(backoff, s.rows, id, x, PostsOf(s.posts, id), LostOf(s.posts, id), RetriesOf(s.forced, id));
      } else {
        TrySpares(backoff, s.rows, d.id, d.row.attempts, x, id);
      }
    }
  }

  lemma CutOffKeepsCounts(backoff: seq<real>, s: State, start: real, id: nat)
    requires Shape(s) && CountsSound(backoff, s, id)
    ensures CountsSound(backoff, DoCutOff(s, start), id)
  {
    if s.queue != [] && s.clock <= start {
      var d := s.queue[0];
      PostsSnoc(s.posts, Post(d.id, d.row.attempts + 1, start, start, false), id);
    }
  }

  lemma ForceKeepsCounts(backoff: seq<real>, s: State, target: nat, now: real, id: nat)
    requires Shape(s) && CountsSound(backoff, s, id)
    ensures CountsSound(backoff, DoForce(s, target, now), id)
  {
    RetriesSnoc(s.forced, target, id);
  }

  lemma StepKeepsCounts(backoff: seq<real>, s: State, e: Step, id: nat)
    requires Shape(s) && CountsSound(backoff, s, id)
    ensures CountsSound(backoff, Exec(backoff, s, e), id)
  {
    match e
    case Deliver(x) => DeliverKeepsCounts(backoff, s, x, id);
    case CutOff(start) => CutOffKeepsCounts(backoff, s, start, id);
    case ForceRetry(target, now) => ForceKeepsCounts(backoff, s, target, now, id);
    case _ =>
  }

  lemma {:induction false} ShapeAlways(backoff: seq<real>, steps: seq<Step>)
    ensures Shape(Run(backoff, EMPTY, steps))
  {
    if steps != [] {
      ShapeAlways(backoff, steps[..|steps| - 1]);
      StepKeepsShape(backoff, Run(backoff, EMPTY, steps[..|steps| - 1]), steps[|steps| - 1]);
    }
  }

  /** In every run a row's attempts are the POSTs made for it less those the process forgot; they
      are the schedule's, and each forced retry buys exactly one more. */
  lemma {:induction false} AttemptsAccounted(backoff: seq<real>, steps: seq<Step>, id: nat)
    ensures CountsSound(backoff, Run(backoff, EMPTY, steps), id)
  {
    if steps != [] {
      var before := Run(backoff, EMPTY, steps[..|steps| - 1]);
      AttemptsAccounted(backoff, steps[..|steps| - 1], id);
      ShapeAlways(backoff, steps[..|steps| - 1]);
      StepKeepsCounts(backoff, before, steps[|steps| - 1], id);
    }
  }

  /** The POSTs of one delivery are bounded by the schedule, the forced retries and the POSTs whose
      outcome was never recorded. */
  lemma PostsBounded(backoff: seq<real>, steps: seq<Step>, id: nat)
    ensures var s := Run(backoff, EMPTY, steps);
            PostsOf(s.posts, id) <= Allowed(backoff) + RetriesOf(s.forced, id) + LostOf(s.posts, id)
  {
    AttemptsAccounted(backoff, steps, id);
  }

  // ----- delivered is final -------------------------------------------------------------------

  lemma RunSnoc(backoff: seq<real>, s: State, steps: seq<Step>, e: Step)
    ensures Run(backoff, s, steps + [e]) == Exec(backoff, Run(backoff, s, steps), e)
  {
    assert (steps + [e])[..|steps|] == steps;
  }

  lemma StepKeepsDelivered(backoff: seq<real>, s: State, e: Step, id: nat)
    requires Shape(s) && id in s.rows && s.rows[id].status == Delivered
    ensures var s' := Exec(backoff, s, e);
            id in s'.rows && s'.rows[id] == s.rows[id] && PostsOf(s'.posts, id) == PostsOf(s.posts, id)
  {
    match e
    case Deliver(x) =>
      if s.queue != [] && s.clock <= x.start <= x.done {
        var d := s.queue[0];
        PostsSnoc(s.posts, Post(d.id, d.row.attempts + 1, x.start, x.done, Saved(x)), id);
      }
    case CutOff(start) =>
      if s.queue != [] && s.clock <= start {
        var d := s.queue[0];
        PostsSnoc(s.posts, Post(d.id, d.row.attempts + 1, start, start, false), id);
      }
    case _ =>
  }

  /** A delivered row is never posted again and never changes. */
  lemma {:induction false} DeliveredForEver(backoff: seq<real>, steps: seq<Step>, more: seq<Step>, id: nat)
    requires id in Run(backoff, EMPTY, steps).rows && Run(backoff, EMPTY, steps).rows[id].status == Delivered
    ensures var s, s' := Run(backoff, EMPTY, steps), Run(backoff, EMPTY, steps + more);
            id in s'.rows && s'.rows[id] == s.rows[id] && PostsOf(s'.posts, id) == PostsOf(s.posts, id)
  {
    if more == [] {
      assert steps + more == steps;
    } else {
      var cut, e := more[..|more| - 1], more[|more| - 1];
      DeliveredForEver(backoff, steps, cut, id);
      ShapeAlways(backoff, steps + cut);
      StepKeepsDelivered(backoff, Run(backoff, EMPTY, steps + cut), e, id);
      RunSnoc(backoff, EMPTY, steps + cut, e);
      assert steps + more == steps + cut + [e];
    }
  }

  // ----- spacing ------------------------------------------------------------------------------

  predicate Timed(backoff: seq<real>, s: State) {
    LeftAll(backoff, s) && Spaced(backoff, s.posts)
  }

  lemma SpacedSnoc(backoff: seq<real>, posts: seq<Post>, q: Post)
    requires Spaced(backoff, posts) && SpacedBefore(backoff, posts, q)
    ensures Spaced(backoff, posts + [q])
  {
    var all := posts + [q];
    forall j | 0 <= j < |all| ensures SpacedBefore(backoff, all[..j], all[j]) {
      if j < |posts| { assert all[..j] == posts[..j]; } else { assert all[..j] == posts; }
    }
  }

  /** The head of a tick is due, so a POST for it keeps its distance. */
  lemma HeadIsSpaced(backoff: seq<real>, s: State, start: real, done: real, saved: bool)
    requires Shape(s) && LeftAll(backoff, s) && s.queue != [] && s.clock <= start
    ensures var d := s.queue[0];
            SpacedBefore(backoff, s.posts, Post(d.id, d.row.attempts + 1, start, done, saved))
  {
    forall i | 0 <= i < |s.posts| && Follows(backoff, s.posts[i], Post(s.queue[0].id, s.queue[0].row.attempts + 1, start, done, saved))
      ensures start >= s.posts[i].done + backoff[s.posts[i].number]
    {
      assert Left(backoff, s, s.posts[i]);
    }
  }

  /** Rows only gain attempts, and a pending row's time changes only with its attempts or when the
      schedule is used up. */
  predicate Steady(backoff: seq<real>, before: Rows, after: Rows) {
    forall id :: id in before ==>
      && id in after && before[id].attempts <= after[id].attempts
      && (after[id].attempts == before[id].attempts && after[id].status == Pending && after[id].attempts < |backoff| ==>
            before[id].status == Pending && after[id].nextAt == before[id].nextAt)
  }

  lemma SteadyKeepsLeft(backoff: seq<real>, s: State, s': State)
    requires LeftAll(backoff, s) && Steady(backoff, s.rows, s'.rows) && s'.posts == s.posts
    ensures LeftAll(backoff, s')
  {
    forall i | 0 <= i < |s'.posts| ensures Left(backoff, s', s'.posts[i]) {
      assert Left(backoff, s, s.posts[i]);
    }
  }

  lemma DeliverIsSteady(backoff: seq<real>, s: State, x: Try)
    requires Shape(s)
    ensures Steady(backoff, s.rows, DoDeliver(backoff, s, x).rows)
  {}

  lemma PostKeepsTimed(backoff: seq<real>, s: State, s': State, q: Post)
    requires Timed(backoff, s) && Steady(backoff, s.rows, s'.rows)
    requires s'.posts == s.posts + [q] && SpacedBefore(backoff, s.posts, q) && Left(backoff, s', q)
    ensures Timed(backoff, s')
  {
    SpacedSnoc(backoff, s.posts, q);
    SteadyKeepsLeft(backoff, s, s'.(posts := s.posts));
    forall i | 0 <= i < |s'.posts| ensures Left(backoff, s', s'.posts[i]) {
      if i < |s.posts| { assert Left(backoff, s'.(posts := s.posts), s.posts[i]); }
    }
  }

  lemma DeliverKeepsTimed(backoff: seq<real>, s: State, x: Try)
    requires Shape(s) && Timed(backoff, s)
    ensures Timed(backoff, DoDeliver(backoff, s, x))
  {
    if s.queue != [] && s.clock <= x.start <= x.done {
      var d, s' := s.queue[0], DoDeliver(backoff, s, x);
      var q := Post(d.id, d.row.attempts + 1, x.start, x.done, Saved(x));
      HeadIsSpaced(backoff, s, x.start, x.done, Saved(x));
      DeliverIsSteady(backoff, s, x);
      PostKeepsTimed(backoff, s, s', q);
    }
  }

  lemma CutOffKeepsTimed(backoff: seq<real>, s: State, start: real)
    requires Shape(s) && Timed(backoff, s)
    ensures Timed(backoff, DoCutOff(s, start))
  {
    if s.queue != [] && s.clock <= start {
      var d := s.queue[0];
      HeadIsSpaced(backoff, s, start, start, false);
      PostKeepsTimed(backoff, s, DoCutOff(s, start), Post(d.id, d.row.attempts + 1, start, start, false));
    }
  }

  /** A forced retry needs a row whose schedule is used up. */
  lemma ForceKeepsTimed(backoff: seq<real>, s: State, id: nat, now: real)
    requires Timed(backoff, s) && CountsSound(backoff, s, id)
    ensures Timed(backoff, DoForce(s, id, now))
  {
    SteadyKeepsLeft(backoff, s, DoForce(s, id, now));
  }

  lemma OthersKeepTimed(backoff: seq<real>, s: State, e: Step)
    requires Shape(s) && Timed(backoff, s) && (e.Enqueue? || e.Take? || e.Restart?)
    ensures Timed(backoff, Exec(backoff, s, e))
  {
    SteadyKeepsLeft(backoff, s, Exec(backoff, s, e));
  }

  lemma StepKeepsTimed(backoff: seq<real>, s: State, e: Step)
    requires Shape(s) && Timed(backoff, s)
    requires e.ForceRetry? ==> CountsSound(backoff, s, e.id)
    ensures Timed(backoff, Exec(backoff, s, e))
  {
    match e
    case Deliver(x) => DeliverKeepsTimed(backoff, s, x);
    case CutOff(start) => CutOffKeepsTimed(backoff, s, start);
    case ForceRetry(id, now) => ForceKeepsTimed(backoff, s, id, now);
    case _ => OthersKeepTimed(backoff, s, e);
  }

  /** In every run, scheduled attempt n + 1 starts no earlier than the recorded failure of attempt
      n plus schedule[n]. */
  lemma {:induction false} AttemptsSpaced(backoff: seq<real>, steps: seq<Step>)
    ensures Timed(backoff, Run(backoff, EMPTY, steps))
  {
    if steps != [] {
      var cut := steps[..|steps| - 1];
      AttemptsSpaced(backoff, cut);
      ShapeAlways(backoff, cut);
      var e := steps[|steps| - 1];
      if e.ForceRetry? { AttemptsAccounted(backoff, cut, e.id); }
      StepKeepsTimed(backoff, Run(backoff, EMPTY, cut), e);
    }
  }

  // ----- the worker's loop is such a run ------------------------------------------------------

  function DeliverSteps(tries: seq<Try>, n: nat): seq<Step>
    requires n <= |tries|
  {
    if n == 0 then [] else DeliverSteps(tries, n - 1) + [Deliver(tries[n - 1])]
  }

  /** The clock runs through the POSTs of a tick. */
  predicate InTime(clock: real, tries: seq<Try>) {
    forall m :: 0 <= m < |tries| ==>
      (if m == 0 then clock else tries[m - 1].done) <= tries[m].start <= tries[m].done
  }

  /** The state after n of the tries: the table `DeliveryWorker.RunJobs` computes, and the rest of
      the queue unless the last update failed. */
  predicate Reached(backoff: seq<real>, s: State, tries: seq<Try>, n: nat, s': State)
    requires n <= |s.queue| && n <= |tries|
  {
    && s'.rows == AfterTries(s.rows, backoff, s.queue, tries, n)
    && |s'.posts| == |s.posts| + n
    && s'.clock == (if n == 0 then s.clock else tries[n - 1].done)
    && s'.queue == if n > 0 && !Saved(tries[n - 1]) then [] else s.queue[n..]
  }

  lemma NextReached(backoff: seq<real>, s: State, tries: seq<Try>, n: nat, s': State)
    requires n < |s.queue| && n < |tries| && InTime(s.clock, tries)
    requires Reached(backoff, s, tries, n, s') && (n > 0 ==> Saved(tries[n - 1]))
    ensures Reached(backoff, s, tries, n + 1, Exec(backoff, s', Deliver(tries[n])))
  {
    assert s'.queue == s.queue[n..];
    assert s'.queue[0] == s.queue[n] && s'.queue[1..] == s.queue[n + 1..];
    assert s'.clock <= tries[n].start <= tries[n].done;
    var next := DoDeliver(backoff, s', tries[n]);
    assert next.rows == AfterTry(s'.rows, backoff, s.queue[n].id, s.queue[n].row.attempts, tries[n]);
    assert AfterTries(s.rows, backoff, s.queue, tries, n + 1) == next.rows;
  }

  /** What `DeliveryWorker.RunJobs` computes is what the Deliver steps do to the table. */
  lemma {:induction false} LoopIsRun(backoff: seq<real>, s: State, tries: seq<Try>, n: nat)
    requires n <= |s.queue| && n <= |tries| && InTime(s.clock, tries)
    requires forall m :: 0 <= m < n - 1 ==> Saved(tries[m])
    ensures Reached(backoff, s, tries, n, Run(backoff, s, DeliverSteps(tries, n)))
  {
    if n > 0 {
      LoopIsRun(backoff, s, tries, n - 1);
      NextReached(backoff, s, tries, n - 1, Run(backoff, s, DeliverSteps(tries, n - 1)));
      RunSnoc(backoff, s, DeliverSteps(tries, n - 1), Deliver(tries[n - 1]));
    }
  }
}
