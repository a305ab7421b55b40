/** Forced retries of given-up deliveries. */
module DeliveryRetries {
  import opened Delivery
  import opened DeliveryRuns
  import opened OldestFirst
  import opened Options

  predicate GivenUp(s: State, id: nat) {
    id in s.rows && s.rows[id].status == GivingUp
  }

  // ----- given up until forced ----------------------------------------------------------------

  lemma PostSparesGivenUp(backoff: seq<real>, s: State, x: Try, id: nat)
    requires Shape(s) && GivenUp(s, id)
    ensures var s' := DoDeliver(backoff, s, x);
            id in s'.rows && s'.rows[id] == s.rows[id] && PostsOf(s'.posts, id) == PostsOf(s.posts, id)
  {
    if s.queue != [] && s.clock <= x.start <= x.done {
      var d := s.queue[0];
      TrySpares(backoff, s.rows, d.id, d.row.attempts, x, id);
      PostsSnoc(s.posts, Post(d.id, d.row.attempts + 1, x.start, x.done, Saved(x)), id);
    }
  }

  lemma CutOffSparesGivenUp(s: State, start: real, id: nat)
    requires Shape(s) && GivenUp(s, id)
    ensures DoCutOff(s, start).rows == s.rows && PostsOf(DoCutOff(s, start).posts, id) == PostsOf(s.posts, id)
  {
    if s.queue != [] && s.clock <= start {
      var d := s.queue[0];
      PostsSnoc(s.posts, Post(d.id, d.row.attempts + 1, start, start, false), id);
    }
  }

  lemma ForceSparesGivenUp(s: State, target: nat, now: real, id: nat)
    requires GivenUp(s, id) && RetriesOf(DoForce(s, target, now).forced, id) == RetriesOf(s.forced, id)
    ensures id in DoForce(s, target, now).rows && DoForce(s, target, now).rows[id] == s.rows[id]
  {
    RetriesSnoc(s.forced, target, id);
  }

  lemma StepKeepsGivenUp(backoff: seq<real>, s: State, e: Step, id: nat)
    requires Shape(s) && GivenUp(s, id) && RetriesOf(Exec(backoff, s, e).forced, id) == RetriesOf(s.forced, id)
    ensures var s' := Exec(backoff, s, e);
            id in s'.rows && s'.rows[id] == s.rows[id] && PostsOf(s'.posts, id) == PostsOf(s.posts, id)
  {
    match e
    case Deliver(x) => PostSparesGivenUp(backoff, s, x, id);
    case CutOff(start) => CutOffSparesGivenUp(s, start, id);
    case ForceRetry(target, now) => ForceSparesGivenUp(s, target, now, id);
    case _ =>
  }

  lemma StepGrowsRetries(backoff: seq<real>, s: State, e: Step, id: nat)
    ensures RetriesOf(s.forced, id) <= RetriesOf(Exec(backoff, s, e).forced, id)
  {
    if e.ForceRetry? { RetriesSnoc(s.forced, e.id, id); }
  }

  lemma {:induction false} RetriesGrow(backoff: seq<real>, s: State, more: seq<Step>, id: nat)
    ensures RetriesOf(s.forced, id) <= RetriesOf(Run(backoff, s, more).forced, id)
  {
    if more != [] {
      var cut := more[..|more| - 1];
      RetriesGrow(backoff, s, cut, id);
      StepGrowsRetries(backoff, Run(backoff, s, cut), more[|more| - 1], id);
    }
  }

  lemma {:induction false} RunConcat(backoff: seq<real>, s: State, a: seq<Step>, b: seq<Step>)
    ensures Run(backoff, s, a + b) == Run(backoff, Run(backoff, s, a), b)
  {
    if b == [] {
      assert a + b == a;
    } else {
      assert (a + b)[..|a + b| - 1] == a + b[..|b| - 1];
      RunConcat(backoff, s, a, b[..|b| - 1]);
    }
  }

  /** A given-up row is not posted again and does not change before somebody forces it. */
  lemma {:induction false} GivenUpUntilForced(backoff: seq<real>, steps: seq<Step>, more: seq<Step>, id: nat)
    requires GivenUp(Run(backoff, EMPTY, steps), id)
    requires RetriesOf(Run(backoff, EMPTY, steps + more).forced, id) == RetriesOf(Run(backoff, EMPTY, steps).forced, id)
    ensures var s, s' := Run(backoff, EMPTY, steps), Run(backoff, EMPTY, steps + more);
            id in s'.rows && s'.rows[id] == s.rows[id] && PostsOf(s'.posts, id) == PostsOf(s.posts, id)
  {
    if more == [] {
      assert steps + more == steps;
    } else {
      var cut, e := more[..|more| - 1], more[|more| - 1];
      assert (steps + more)[..|steps + more| - 1] == steps + cut;
      var s, mid := Run(backoff, EMPTY, steps), Run(backoff, EMPTY, steps + cut);
      RunConcat(backoff, EMPTY, steps, cut);
      RetriesGrow(backoff, s, cut, id);
      StepGrowsRetries(backoff, mid, e, id);
      GivenUpUntilForced(backoff, steps, cut, id);
      ShapeAlways(backoff, steps + cut);
      StepKeepsGivenUp(backoff, mid, e, id);
    }
  }

  // ----- forced -------------------------------------------------------------------------------

  /** In every reachable state a forced retry of a given-up row happens: it is counted, and the row is
      due at once with its attempts as they were. */
  lemma ForceRetryHappens(backoff: seq<real>, steps: seq<Step>, id: nat, now: real)
    requires var s := Run(backoff, EMPTY, steps); GivenUp(s, id) && s.clock <= now
    ensures var s, s' := Run(backoff, EMPTY, steps), Run(backoff, EMPTY, steps + [ForceRetry(id, now)]);
            && RetriesOf(s'.forced, id) == RetriesOf(s.forced, id) + 1
            && id in Due(s'.rows, now) && s'.rows[id] == s.rows[id].(status := Pending, nextAt := now)
            && s'.posts == s.posts && s'.queue == s.queue && s'.clock == now
  {
    var s := Run(backoff, EMPTY, steps);
    RunSnoc(backoff, EMPTY, steps, ForceRetry(id, now));
    ForcedMeaning(s.rows, id, now, id);
    RetriesSnoc(s.forced, id, id);
  }

  /** A POST whose answer arrives at once and is put on record. */
  function Answered(now: real, response: Response): Try {
    Try(now, now, response, true, true, false)
  }

  lemma RunThree(backoff: seq<real>, s: State, a: Step, b: Step, c: Step)
    ensures Run(backoff, s, [a, b, c]) == Exec(backoff, Exec(backoff, Exec(backoff, s, a), b), c)
  {
    assert [a, b, c][..2] == [a, b] && [a, b][..1] == [a] && [a][..0] == [];
    assert Run(backoff, s, [a]) == Exec(backoff, s, a);
    assert Run(backoff, s, [a, b]) == Exec(backoff, Run(backoff, s, [a]), b);
  }

  lemma Taken(s: State, now: real, ids: seq<nat>)
    requires s.queue == [] && s.clock <= now && FirstOf(Due(s.rows, now), TAKE_LIMIT, ids) && ids != []
    ensures forall m :: 0 <= m < |ids| ==> ids[m] in s.rows && s.rows[ids[m]].status == Pending
    ensures DoTake(s, now, ids) == s.(clock := now, queue := Jobs(s.rows, ids))
  {
    forall m | 0 <= m < |ids| ensures ids[m] in s.rows && s.rows[ids[m]].status == Pending { assert ids[m] in Due(s.rows, now); }
  }

  lemma HeadPosted(backoff: seq<real>, s: State, now: real, response: Response)
    requires s.queue != [] && s.clock == now
    ensures var d, x := s.queue[0], Answered(now, response);
            Exec(backoff, Exec(backoff, s, Deliver(x)), Restart)
            == s.(rows := AfterTry(s.rows, backoff, d.id, d.row.attempts, x), queue := [],
                  posts := s.posts + [Post(d.id, d.row.attempts + 1, now, now, true)])
  {
    assert Saved(Answered(now, response));
  }

  /** A worker at rest takes its batch and posts the first of it. */
  lemma OneRound(backoff: seq<real>, s: State, now: real, ids: seq<nat>, response: Response)
    requires s.queue == [] && s.clock <= now && FirstOf(Due(s.rows, now), TAKE_LIMIT, ids) && ids != []
    ensures ids[0] in s.rows && s.rows[ids[0]].status == Pending
    ensures var x := Answered(now, response);
            Run(backoff, s, [Take(now, ids), Deliver(x), Restart])
            == s.(rows := AfterTry(s.rows, backoff, ids[0], s.rows[ids[0]].attempts, x), clock := now,
                  posts := s.posts + [Post(ids[0], s.rows[ids[0]].attempts + 1, now, now, true)])
  {
    Taken(s, now, ids);
    var taken := s.(clock := now, queue := Jobs(s.rows, ids));
    assert taken.queue[0] == Job(ids[0], s.rows[ids[0]]);
    HeadPosted(backoff, taken, now, response);
    RunThree(backoff, s, Take(now, ids), Deliver(Answered(now, response)), Restart);
  }

  /** Nothing is due but rows that are already delivered or given up. */
  predicate Drained(s: State, now: real) {
    s.queue == [] && s.clock <= now && Due(s.rows, now) == map[]
  }

  /** What draining leaves of a given-up row. */
  predicate Spared(s: State, s': State, id: nat) {
    && id in s.rows && id in s'.rows && s'.rows[id] == s.rows[id]
    && PostsOf(s'.posts, id) == PostsOf(s.posts, id) && s'.forced == s.forced
  }

  /** The worker can deliver everything that is due. */
  lemma {:induction false} Drain(backoff: seq<real>, s: State, now: real, id: nat) returns (more: seq<Step>)
    requires Shape(s) && s.queue == [] && s.clock <= now && GivenUp(s, id)
    ensures Drained(Run(backoff, s, more), now) && Shape(Run(backoff, s, more)) && Spared(s, Run(backoff, s, more), id)
    decreases |Due(s.rows, now)|
  {
    var due := Due(s.rows, now);
    if due == map[] {
      more := [];
    } else {
      var ids := FirstExists(due, TAKE_LIMIT);
      OneRound(backoff, s, now, ids, Code(200));
      var round := [Take(now, ids), Deliver(Answered(now, Code(200))), Restart];
      var s' := Run(backoff, s, round);
      RoundKeepsShape(backoff, s, round[0], round[1], round[2]);
      PostsSnoc(s.posts, Post(ids[0], s.rows[ids[0]].attempts + 1, now, now, true), id);
      assert Due(s'.rows, now) == due - {ids[0]};
      assert ids[0] in due.Keys && (due - {ids[0]}).Keys == due.Keys - {ids[0]};
      var rest := Drain(backoff, s', now, id);
      more := round + rest;
      RunConcat(backoff, s, round, rest);
    }
  }

  lemma RoundKeepsShape(backoff: seq<real>, s: State, a: Step, b: Step, c: Step)
    requires Shape(s)
    ensures Shape(Run(backoff, s, [a, b, c]))
  {
    RunThree(backoff, s, a, b, c);
    StepKeepsShape(backoff, s, a);
    StepKeepsShape(backoff, Exec(backoff, s, a), b);
    StepKeepsShape(backoff, Exec(backoff, Exec(backoff, s, a), b), c);
  }

  /** The schedule of one forced retry: drained, forced, posted. */
  lemma ForcedPost(backoff: seq<real>, s: State, id: nat, now: real, response: Response)
    requires Shape(s) && Drained(s, now) && GivenUp(s, id)
    ensures var x := Answered(now, response);
            var row := s.rows[id].(status := Pending, nextAt := now);
            Run(backoff, s, [ForceRetry(id, now)] + [Take(now, [id]), Deliver(x), Restart])
            == s.(rows := AfterTry(s.rows[id := row], backoff, id, row.attempts, x), clock := now,
                  posts := s.posts + [Post(id, row.attempts + 1, now, now, true)], forced := s.forced + [id])
  {
    var forced := Exec(backoff, s, ForceRetry(id, now));
    RunSnoc(backoff, s, [], ForceRetry(id, now));
    assert [] + [ForceRetry(id, now)] == [ForceRetry(id, now)];
    StepKeepsShape(backoff, s, ForceRetry(id, now));
    assert Due(forced.rows, now) == map[id := now];
    OneRound(backoff, forced, now, [id], response);
    RunConcat(backoff, s, [ForceRetry(id, now)], [Take(now, [id]), Deliver(Answered(now, response)), Restart]);
  }

  /** From every reachable state a forced retry of a given-up row can be followed by exactly one POST
      of it, whatever the answer: a 2xx delivers the row, anything else gives it up again. */
  lemma RetryBuysOnePost(backoff: seq<real>, steps: seq<Step>, id: nat, now: real, response: Response)
    returns (more: seq<Step>)
    requires var s := Run(backoff, EMPTY, steps); GivenUp(s, id) && s.clock <= now
    ensures var s, s' := Run(backoff, EMPTY, steps), Run(backoff, EMPTY, steps + more);
            && RetriesOf(s'.forced, id) == RetriesOf(s.forced, id) + 1
            && PostsOf(s'.posts, id) == PostsOf(s.posts, id) + 1
            && id in s'.rows && s'.rows[id].attempts == s.rows[id].attempts + 1
            && s'.rows[id].status == (if Success(response) then Delivered else GivingUp)
  {
    var s := Run(backoff, EMPTY, steps);
    ShapeAlways(backoff, steps);
    AttemptsAccounted(backoff, steps, id);
    StepKeepsShape(backoff, s, Restart);
    var rested := Exec(backoff, s, Restart);
    RunSnoc(backoff, s, [], Restart);
    assert [] + [Restart] == [Restart];
    var drain := Drain(backoff, rested, now, id);
    var ready := Run(backoff, rested, drain);
    var x := Answered(now, response);
    var last := [ForceRetry(id, now)] + [Take(now, [id]), Deliver(x), Restart];
    ForcedPost(backoff, ready, id, now, response);
    RetriesSnoc(ready.forced, id, id);
    var row := ready.rows[id].(status := Pending, nextAt := now);
    PostsSnoc(ready.posts, Post(id, row.attempts + 1, now, now, true), id);
    PostMeaning(ready.rows[id := row], backoff, id, x);
    more := [Restart] + drain + last;
    RunConcat(backoff, s, [Restart], drain);
    RunConcat(backoff, s, [Restart] + drain, last);
    RunConcat(backoff, EMPTY, steps, more);
  }

  // ----- the bound on POSTs is reached --------------------------------------------------------

  /** The only row of the table, pending or given up, with these counts. */
  predicate Lone(backoff: seq<real>, s: State, id: nat, attempts: nat, retries: nat, lost: nat) {
    && s.queue == [] && s.rows.Keys == {id} && id < s.nextId && s.rows[id].attempts == attempts
    && s.rows[id].status == (if attempts < Allowed(backoff) + retries then Pending else GivingUp)
    && PostsOf(s.posts, id) == attempts + lost && RetriesOf(s.forced, id) == retries && LostOf(s.posts, id) == lost
  }

  lemma EnqueuedAlone(backoff: seq<real>, event: string, target: string, payload: string) returns (e: Step)
    ensures Lone(backoff, Run(backoff, EMPTY, [e]), 1, 0, 0, 0)
    ensures var row := Run(backoff, EMPTY, [e]).rows[1]; row.event == event && row.target == target && row.payload == payload
  {
    e := Enqueue(1, event, target, payload, 0.0);
    RunSnoc(backoff, EMPTY, [], e);
    assert [] + [e] == [e];
  }

  /** When the row's time has come. */
  function DueAt(s: State, id: nat): real
    requires id in s.rows
  {
    if s.clock < s.rows[id].nextAt then s.rows[id].nextAt else s.clock
  }

  lemma LoneIsDue(backoff: seq<real>, s: State, id: nat, attempts: nat, retries: nat, lost: nat)
    requires Lone(backoff, s, id, attempts, retries, lost) && attempts < Allowed(backoff) + retries
    ensures FirstOf(Due(s.rows, DueAt(s, id)), TAKE_LIMIT, [id])
  {
    assert Due(s.rows, DueAt(s, id)) == map[id := s.rows[id].nextAt];
  }

  lemma OneForgotten(backoff: seq<real>, s: State, now: real, id: nat)
    requires s.queue == [] && s.clock <= now && FirstOf(Due(s.rows, now), TAKE_LIMIT, [id])
    ensures id in s.rows
    ensures Run(backoff, s, [Take(now, [id]), CutOff(now), Restart])
            == s.(clock := now, posts := s.posts + [Post(id, s.rows[id].attempts + 1, now, now, false)])
  {
    Taken(s, now, [id]);
    assert [id][0] in s.rows;
    var taken := s.(clock := now, queue := Jobs(s.rows, [id]));
    assert taken.queue[0] == Job(id, s.rows[id]);
    RunThree(backoff, s, Take(now, [id]), CutOff(now), Restart);
  }

  /** A POST that the process forgets. */
  lemma LoneForgets(backoff: seq<real>, s: State, id: nat, attempts: nat, lost: nat) returns (steps: seq<Step>)
    requires Lone(backoff, s, id, attempts, 0, lost) && attempts < Allowed(backoff)
    ensures Lone(backoff, Run(backoff, s, steps), id, attempts, 0, lost + 1)
  {
    var now := DueAt(s, id);
    LoneIsDue(backoff, s, id, attempts, 0, lost);
    OneForgotten(backoff, s, now, id);
    steps := [Take(now, [id]), CutOff(now), Restart];
    PostsSnoc(s.posts, Post(id, attempts + 1, now, now, false), id);
  }

  lemma FailedRow(backoff: seq<real>, rows: Rows, id: nat, now: real)
    requires rows.Keys == {id} && rows[id].attempts < Allowed(backoff)
    ensures var rows' := AfterTry(rows, backoff, id, rows[id].attempts, Answered(now, NoAnswer));
            && rows'.Keys == {id} && rows'[id].attempts == rows[id].attempts + 1
            && rows'[id].status == if rows[id].attempts + 1 < Allowed(backoff) then Pending else GivingUp
  {}

  /** A POST that fails. */
  lemma LoneFails(backoff: seq<real>, s: State, id: nat, attempts: nat, lost: nat) returns (steps: seq<Step>)
    requires Lone(backoff, s, id, attempts, 0, lost) && attempts < Allowed(backoff)
    ensures Lone(backoff, Run(backoff, s, steps), id, attempts + 1, 0, lost)
  {
    var now := DueAt(s, id);
    LoneIsDue(backoff, s, id, attempts, 0, lost);
    OneRound(backoff, s, now, [id], NoAnswer);
    FailedRow(backoff, s.rows, id, now);
    steps := [Take(now, [id]), Deliver(Answered(now, NoAnswer)), Restart];
    PostsSnoc(s.posts, Post(id, attempts + 1, now, now, true), id);
  }

  /** A forced retry and its POST, which fails. */
  lemma LoneRetries(backoff: seq<real>, s: State, id: nat, retries: nat, lost: nat) returns (steps: seq<Step>)
    requires Lone(backoff, s, id, Allowed(backoff) + retries, retries, lost) && Shape(s)
    ensures Lone(backoff, Run(backoff, s, steps), id, Allowed(backoff) + retries + 1, retries + 1, lost)
  {
    var now := s.clock;
    NothingDue(s, id, now);
    ForcedPost(backoff, s, id, now, NoAnswer);
    RetriedRow(backoff, s.rows, id, now);
    steps := [ForceRetry(id, now)] + [Take(now, [id]), Deliver(Answered(now, NoAnswer)), Restart];
    PostsSnoc(s.posts, Post(id, s.rows[id].attempts + 1, now, now, true), id);
    RetriesSnoc(s.forced, id, id);
  }

  lemma NothingDue(s: State, id: nat, now: real)
    requires s.rows.Keys == {id} && s.rows[id].status == GivingUp
    ensures Due(s.rows, now) == map[]
  {
    assert forall i :: i in s.rows ==> i in s.rows.Keys;
  }

  lemma RetriedRow(backoff: seq<real>, rows: Rows, id: nat, now: real)
    requires rows.Keys == {id} && rows[id].attempts >= Allowed(backoff)
    ensures var row := rows[id].(status := Pending, nextAt := now);
            var rows' := AfterTry(rows[id := row], backoff, id, row.attempts, Answered(now, NoAnswer));
            rows'.Keys == {id} && rows'[id].attempts == rows[id].attempts + 1 && rows'[id].status == GivingUp
  {}

  /** The bound is reached: for every schedule and all numbers of forced retries and forgotten POSTs there
      is a run that makes every POST that `DeliveryRuns.PostsBounded` allows, and ends given up. */
  lemma {:induction false} BoundReached(backoff: seq<real>, attempts: nat, retries: nat, lost: nat) returns (steps: seq<Step>)
    requires if retries == 0 then attempts <= Allowed(backoff) else attempts == Allowed(backoff) + retries
    ensures Lone(backoff, Run(backoff, EMPTY, steps), 1, attempts, retries, lost)
    decreases retries, attempts, lost
  {
    if retries > 0 {
      steps := BoundReached(backoff, attempts - 1, retries - 1, lost);
      ShapeAlways(backoff, steps);
      var more := LoneRetries(backoff, Run(backoff, EMPTY, steps), 1, retries - 1, lost);
      RunConcat(backoff, EMPTY, steps, more);
      steps := steps + more;
    } else if attempts > 0 {
      steps := BoundReached(backoff, attempts - 1, 0, lost);
      var more := LoneFails(backoff, Run(backoff, EMPTY, steps), 1, attempts - 1, lost);
      RunConcat(backoff, EMPTY, steps, more);
      steps := steps + more;
    } else if lost > 0 {
      steps := BoundReached(backoff, 0, 0, lost - 1);
      var more := LoneForgets(backoff, Run(backoff, EMPTY, steps), 1, 0, lost - 1);
      RunConcat(backoff, EMPTY, steps, more);
      steps := steps + more;
    } else {
      var e := EnqueuedAlone(backoff, "", "", "");
      steps := [e];
    }
  }
}
