/** The durable rate limiter statement by statement: a check in `skr_crypto/server/rate_limit_bucket.py`
    is a SELECT and a write, and the sweeper's DELETE, from its own thread, may fall between them. */
module SweepRaces {
  import opened Options
  import opened RateLimit

  /** A check whose SELECT is done: what it found. */
  datatype Begun = Begun(key: BucketKey, now: real, found: Option<Bucket>)

  /** The rows, the check in progress, the time of the latest statement, and the checks so far that
      were admitted without being charged in a way that shows. */
  datatype State = State(rows: Table, begun: Option<Begun>, clock: real, lost: seq<BucketKey>)

  datatype Stmt = Select(key: BucketKey, now: real) | Write | Sweep(now: real)

  function Decided(policy: Policy, c: Begun): (bool, Bucket) {
    Decide(c.found, policy(c.key), c.now)
  }

  /** The write of this check finds its row gone. */
  predicate Misses(s: State, c: Begun) {
    c.found.Some? && c.key !in s.rows
  }

  /** It matters: the bucket it should have left would not be full again by now. */
  predicate Loses(policy: Policy, s: State, c: Begun) {
    Misses(s, c) && !Refilled(Decided(policy, c).1, policy(c.key), s.clock)
  }

  /** One statement. Checks come one at a time, so a SELECT waits for the write before it. */
  function Exec(policy: Policy, idle: real, s: State, e: Stmt): State {
    match e
    case Select(key, now) =>
      if s.begun.None? then s.(begun := Some(Begun(key, now, Find(s.rows, key))), clock := now) else s
    case Write =>
      if s.begun.Some? then
        var c := s.begun.value;
        s.(rows := Written(s.rows, c.key, c.found, Decided(policy, c).1), begun := None,
           lost := if Loses(policy, s, c) then s.lost + [c.key] else s.lost)
      else s
    case Sweep(now) => s.(rows := Swept(s.rows, now, idle), clock := now)
  }

  function Run(policy: Policy, idle: real, s: State, steps: seq<Stmt>): State {
    if steps == [] then s else Exec(policy, idle, Run(policy, idle, s, steps[..|steps| - 1]), steps[|steps| - 1])
  }

  function Reply(policy: Policy, s: State, e: Stmt): seq<bool> {
    if e.Write? && s.begun.Some? then [Decided(policy, s.begun.value).0] else []
  }

  /** The answers of the checks, in order. */
  function Replies(policy: Policy, idle: real, s: State, steps: seq<Stmt>): seq<bool> {
    if steps == [] then []
    else
      var before := steps[..|steps| - 1];
      Replies(policy, idle, s, before) + Reply(policy, Run(policy, idle, s, before), steps[|steps| - 1])
  }

  /** An empty table at time `clock`. */
  function Empty(clock: real): State {
    State(map[], None, clock, [])
  }

  predicate OnTime(s: State, e: Stmt) {
    e.Write? || s.clock <= e.now
  }

  /** Timestamps are in order. */
  predicate InTime(policy: Policy, idle: real, s: State, steps: seq<Stmt>) {
    steps == [] ||
    var before := steps[..|steps| - 1];
    InTime(policy, idle, s, before) && OnTime(Run(policy, idle, s, before), steps[|steps| - 1])
  }

  function Unswept(steps: seq<Stmt>): seq<Stmt> {
    if steps == [] then []
    else Unswept(steps[..|steps| - 1]) + if steps[|steps| - 1].Sweep? then [] else [steps[|steps| - 1]]
  }

  ghost predicate RefillsInTime(policy: Policy, idle: real) {
    forall k :: idle * policy(k).refill >= policy(k).capacity as real
  }

  // ----- the limiter's own check --------------------------------------------------------------

  function Sweeps(times: seq<real>): seq<Stmt> {
    if times == [] then [] else Sweeps(times[..|times| - 1]) + [Stmt.Sweep(times[|times| - 1])]
  }

  lemma {:induction false} RunConcat(policy: Policy, idle: real, s: State, a: seq<Stmt>, b: seq<Stmt>)
    ensures Run(policy, idle, s, a + b) == Run(policy, idle, Run(policy, idle, s, a), b)
    ensures Replies(policy, idle, s, a + b) == Replies(policy, idle, s, a) + Replies(policy, idle, Run(policy, idle, s, a), b)
    ensures InTime(policy, idle, s, a + b) <==> InTime(policy, idle, s, a) && InTime(policy, idle, Run(policy, idle, s, a), b)
  {
    if b == [] {
      assert a + b == a;
    } else {
      assert (a + b)[..|a + b| - 1] == a + b[..|b| - 1];
      RunConcat(policy, idle, s, a, b[..|b| - 1]);
    }
  }

  lemma RunOne(policy: Policy, idle: real, s: State, e: Stmt)
    ensures Run(policy, idle, s, [e]) == Exec(policy, idle, s, e)
    ensures Replies(policy, idle, s, [e]) == Reply(policy, s, e)
    ensures InTime(policy, idle, s, [e]) <==> OnTime(s, e)
  {
    assert [e][..0] == [];
    assert Run(policy, idle, s, []) == s && Replies(policy, idle, s, []) == [];
  }

  lemma {:induction false} SweepsRun(policy: Policy, idle: real, s: State, times: seq<real>)
    ensures var s' := Run(policy, idle, s, Sweeps(times));
            s'.rows == SweptBy(s.rows, times, idle) && s'.begun == s.begun && s'.lost == s.lost
    ensures Replies(policy, idle, s, Sweeps(times)) == []
  {
    if times != [] {
      var before := times[..|times| - 1];
      SweepsRun(policy, idle, s, before);
      assert Sweeps(times)[..|Sweeps(times)| - 1] == Sweeps(before);
    }
  }

  /** `TokenBucketLimiter.CheckSqlite` is such a run: its SELECT, the sweeps that fall in between, and
      its write. */
  lemma CheckIsRun(policy: Policy, idle: real, s: State, key: BucketKey, now: real, sweeps: seq<real>)
    requires s.begun.None?
    ensures var steps := [Select(key, now)] + Sweeps(sweeps) + [Write];
            var decided := Decide(Find(s.rows, key), policy(key), now);
            && Run(policy, idle, s, steps).rows == Written(SweptBy(s.rows, sweeps, idle), key, Find(s.rows, key), decided.1)
            && Replies(policy, idle, s, steps) == [decided.0]
  {
    var s1 := Exec(policy, idle, s, Select(key, now));
    RunOne(policy, idle, s, Select(key, now));
    SweepsRun(policy, idle, s1, sweeps);
    RunConcat(policy, idle, s, [Select(key, now)], Sweeps(sweeps));
    RunConcat(policy, idle, s, [Select(key, now)] + Sweeps(sweeps), [Write]);
    RunOne(policy, idle, Run(policy, idle, s1, Sweeps(sweeps)), Write);
  }

  // ----- when nothing is lost -----------------------------------------------------------------

  /** What every run in time keeps: no bucket is overdrawn or ahead of the clock, and a row that
      a check in progress found is there unchanged, or was stale and is gone. */
  predicate Sane(s: State, idle: real) {
    && (forall k :: k in s.rows ==> Settled(s.rows[k], s.clock))
    && (s.begun.Some? ==>
          var c := s.begun.value;
          && c.now <= s.clock && (c.key in s.rows ==> c.found == Some(s.rows[c.key]))
          && (c.found.Some? ==> Settled(c.found.value, c.now))
          && (Misses(s, c) ==> c.found.value.updatedAt < s.clock - idle))
  }

  lemma DecideSettled(b: Option<Bucket>, p: BucketParams, now: real)
    requires b.Some? ==> Settled(b.value, now)
    ensures Settled(Decide(b, p, now).1, now)
  {
    if b.Some? { Grows(Gain(b.value.updatedAt, now), p.refill); }
  }

  lemma Grows(x: real, y: real)
    requires x >= 0.0 && y > 0.0
    ensures x * y >= 0.0
  {}

  lemma SaneStep(policy: Policy, idle: real, s: State, e: Stmt)
    requires Sane(s, idle) && OnTime(s, e)
    ensures Sane(Exec(policy, idle, s, e), idle)
  {
    if e.Write? && s.begun.Some? {
      DecideSettled(s.begun.value.found, policy(s.begun.value.key), s.begun.value.now);
    }
  }

  lemma {:induction false} SaneAlways(policy: Policy, idle: real, s: State, steps: seq<Stmt>)
    requires Sane(s, idle) && InTime(policy, idle, s, steps)
    ensures Sane(Run(policy, idle, s, steps), idle)
  {
    if steps != [] {
      SaneAlways(policy, idle, s, steps[..|steps| - 1]);
      SaneStep(policy, idle, Run(policy, idle, s, steps[..|steps| - 1]), steps[|steps| - 1]);
    }
  }

  /** The swept run against the same run without sweeps: a missing bucket stands for a refilled one,
      and the checks in progress decide alike. */
  ghost predicate Matches(s: State, full: State, policy: Policy) {
    && Simulates(s.rows, full.rows, policy, s.clock)
    && (s.begun.Some? <==> full.begun.Some?)
    && (s.begun.Some? ==>
          var c, d := s.begun.value, full.begun.value;
          && c.key == d.key && c.now == d.now && Decided(policy, c) == Decided(policy, d)
          && d.found == Find(full.rows, d.key))
  }

  lemma SelectMatches(policy: Policy, idle: real, s: State, full: State, key: BucketKey, now: real)
    requires Matches(s, full, policy) && s.clock <= now
    ensures Matches(Exec(policy, idle, s, Select(key, now)), Exec(policy, idle, full, Select(key, now)), policy)
  {
    if s.begun.None? {
      Later(s.rows, full.rows, policy, s.clock, now);
      CheckSimulated(s.rows, full.rows, policy, key, now);
    }
  }

  lemma SweepMatches(policy: Policy, idle: real, s: State, full: State, now: real)
    requires Matches(s, full, policy) && s.clock <= now && RefillsInTime(policy, idle)
    ensures Matches(Exec(policy, idle, s, Stmt.Sweep(now)), full, policy)
  {
    Later(s.rows, full.rows, policy, s.clock, now);
    SweepSimulated(s.rows, full.rows, policy, idle, now);
  }

  /** The write keeps the match exactly when it does not lose the charge. */
  lemma WriteMatches(policy: Policy, idle: real, s: State, full: State)
    requires Matches(s, full, policy) && s.begun.Some? && Sane(s, idle)
    ensures Matches(Exec(policy, idle, s, Write), Exec(policy, idle, full, Write), policy)
            <==> !Loses(policy, s, s.begun.value)
    ensures Reply(policy, s, Write) == Reply(policy, full, Write)
  {
    var c := s.begun.value;
    var b := Decided(policy, c).1;
    DecideSettled(c.found, policy(c.key), c.now);
    var s', full' := Exec(policy, idle, s, Write), Exec(policy, idle, full, Write);
    assert full'.rows == full.rows[c.key := b];
    if Misses(s, c) {
      assert s'.rows == s.rows && c.key in full'.rows;
    } else {
      assert s'.rows == s.rows[c.key := b];
    }
  }

  lemma UnsweptSnoc(policy: Policy, idle: real, s: State, steps: seq<Stmt>)
    requires steps != []
    ensures var before, e := steps[..|steps| - 1], steps[|steps| - 1];
            var full := Run(policy, idle, s, Unswept(before));
            && Run(policy, idle, s, Unswept(steps)) == (if e.Sweep? then full else Exec(policy, idle, full, e))
            && Replies(policy, idle, s, Unswept(steps)) ==
               Replies(policy, idle, s, Unswept(before)) + if e.Sweep? then [] else Reply(policy, full, e)
  {
    var before, e := steps[..|steps| - 1], steps[|steps| - 1];
    if e.Sweep? {
      assert Unswept(steps) == Unswept(before);
    } else {
      assert Unswept(steps)[..|Unswept(steps)| - 1] == Unswept(before);
    }
  }

  /** While nothing is lost, sweeps change no answer. */
  lemma {:induction false} MatchesAlong(policy: Policy, idle: real, clock: real, steps: seq<Stmt>)
    requires InTime(policy, idle, Empty(clock), steps) && RefillsInTime(policy, idle)
    requires Run(policy, idle, Empty(clock), steps).lost == []
    ensures Matches(Run(policy, idle, Empty(clock), steps), Run(policy, idle, Empty(clock), Unswept(steps)), policy)
    ensures Replies(policy, idle, Empty(clock), steps) == Replies(policy, idle, Empty(clock), Unswept(steps))
  {
    if steps != [] {
      var before, e := steps[..|steps| - 1], steps[|steps| - 1];
      var s, full := Run(policy, idle, Empty(clock), before), Run(policy, idle, Empty(clock), Unswept(before));
      MatchesAlong(policy, idle, clock, before);
      SaneAlways(policy, idle, Empty(clock), before);
      UnsweptSnoc(policy, idle, Empty(clock), steps);
      match e
      case Select(key, now) => SelectMatches(policy, idle, s, full, key, now);
      case Write => if s.begun.Some? { WriteMatches(policy, idle, s, full); }
      case Sweep(now) => SweepMatches(policy, idle, s, full, now);
    }
  }

  // ----- a lost charge shows ------------------------------------------------------------------

  /** However the run goes on in time without losing another charge, sweeping changes no answer. */
  ghost predicate SweepsHidden(policy: Policy, idle: real, clock: real, steps: seq<Stmt>) {
    forall more :: Continues(policy, idle, clock, steps, more) ==>
      Replies(policy, idle, Empty(clock), steps + more) == Replies(policy, idle, Empty(clock), Unswept(steps + more))
  }

  predicate Continues(policy: Policy, idle: real, clock: real, steps: seq<Stmt>, more: seq<Stmt>) {
    && InTime(policy, idle, Empty(clock), steps + more)
    && Run(policy, idle, Empty(clock), steps + more).lost == Run(policy, idle, Empty(clock), steps).lost
  }

  function Burst(key: BucketKey, now: real, n: nat): seq<Stmt> {
    if n == 0 then [] else Burst(key, now, n - 1) + [Select(key, now), Write]
  }

  lemma {:induction false} UnsweptConcat(a: seq<Stmt>, b: seq<Stmt>)
    ensures Unswept(a + b) == Unswept(a) + Unswept(b)
  {
    if b == [] {
      assert a + b == a;
    } else {
      assert (a + b)[..|a + b| - 1] == a + b[..|b| - 1];
      UnsweptConcat(a, b[..|b| - 1]);
    }
  }

  lemma UnsweptCheck(key: BucketKey, now: real)
    ensures Unswept([Select(key, now), Write]) == [Select(key, now), Write]
  {
    assert [Select(key, now), Write][..1] == [Select(key, now)];
    assert Unswept([Select(key, now)]) == [] + [Select(key, now)];
  }

  lemma {:induction false} UnsweptBurst(key: BucketKey, now: real, n: nat)
    ensures Unswept(Burst(key, now, n)) == Burst(key, now, n)
  {
    if n > 0 {
      UnsweptBurst(key, now, n - 1);
      UnsweptConcat(Burst(key, now, n - 1), [Select(key, now), Write]);
      UnsweptCheck(key, now);
    }
  }

  /** One check with nothing in between. */
  lemma CheckAlone(policy: Policy, idle: real, s: State, key: BucketKey, now: real)
    requires s.begun.None?
    ensures var steps := [Select(key, now), Write];
            var decided := Decide(Find(s.rows, key), policy(key), now);
            && Run(policy, idle, s, steps) == State(s.rows[key := decided.1], None, now, s.lost)
            && Replies(policy, idle, s, steps) == [decided.0]
            && (InTime(policy, idle, s, steps) <==> s.clock <= now)
  {
    assert [Select(key, now), Write] == [Select(key, now)] + [Write];
    RunConcat(policy, idle, s, [Select(key, now)], [Write]);
    RunOne(policy, idle, s, Select(key, now));
    RunOne(policy, idle, Exec(policy, idle, s, Select(key, now)), Write);
  }

  lemma {:induction false} BurstRun(policy: Policy, idle: real, s: State, key: BucketKey, now: real, n: nat)
    requires s.begun.None?
    ensures var s' := Run(policy, idle, s, Burst(key, now, n));
            && Find(s'.rows, key) == BurstBucket(Find(s.rows, key), policy(key), now, n)
            && s'.begun.None? && s'.lost == s.lost && (n > 0 ==> s'.clock == now)
    ensures Replies(policy, idle, s, Burst(key, now, n)) == BurstAnswers(Find(s.rows, key), policy(key), now, n)
    ensures s.clock <= now ==> InTime(policy, idle, s, Burst(key, now, n))
  {
    if n > 0 {
      BurstRun(policy, idle, s, key, now, n - 1);
      RunConcat(policy, idle, s, Burst(key, now, n - 1), [Select(key, now), Write]);
      CheckAlone(policy, idle, Run(policy, idle, s, Burst(key, now, n - 1)), key, now);
    }
  }

  /** A bucket gives no more at one instant than its level. */
  lemma {:induction false} BurstNeedsLevel(b: Bucket, p: BucketParams, now: real, n: nat)
    requires BurstAnswers(Some(b), p, now, n) == AllTrue(n) && n > 0
    ensures n as real <= Level(Some(b), p, now)
    ensures BurstBucket(Some(b), p, now, n) == Some(Bucket(Level(Some(b), p, now) - n as real, now))
  {
    assert BurstAnswers(Some(b), p, now, n)[..n - 1] == BurstAnswers(Some(b), p, now, n - 1);
    assert AllTrue(n)[..n - 1] == AllTrue(n - 1) && AllTrue(n)[n - 1];
    if n > 1 { BurstNeedsLevel(b, p, now, n - 1); }
  }

  /** Where the match fails for the first time, a burst of the key's whole capacity tells. */
  lemma LossShows(policy: Policy, idle: real, clock: real, steps: seq<Stmt>)
    requires InTime(policy, idle, Empty(clock), steps) && RefillsInTime(policy, idle) && steps != []
    requires Run(policy, idle, Empty(clock), steps[..|steps| - 1]).lost == []
    requires Run(policy, idle, Empty(clock), steps).lost != []
    ensures !SweepsHidden(policy, idle, clock, steps)
  {
    var before := steps[..|steps| - 1];
    var s := Run(policy, idle, Empty(clock), before);
    var c := s.begun.value;
    MatchesAlong(policy, idle, clock, before);
    SaneAlways(policy, idle, Empty(clock), before);
    WriteMatches(policy, idle, s, Run(policy, idle, Empty(clock), Unswept(before)));
    UnsweptSnoc(policy, idle, Empty(clock), steps);
    BurstTells(policy, idle, clock, steps, c.key, s.clock);
  }

  lemma BurstTells(policy: Policy, idle: real, clock: real, steps: seq<Stmt>, key: BucketKey, now: real)
    requires var s := Run(policy, idle, Empty(clock), steps);
             InTime(policy, idle, Empty(clock), steps) && s.begun.None? && s.clock == now && key !in s.rows
    requires var full := Run(policy, idle, Empty(clock), Unswept(steps));
             full.begun.None? && key in full.rows && !Refilled(full.rows[key], policy(key), now)
    requires |Replies(policy, idle, Empty(clock), steps)| == |Replies(policy, idle, Empty(clock), Unswept(steps))|
    ensures !SweepsHidden(policy, idle, clock, steps)
  {
    var p := policy(key);
    var more := Burst(key, now, p.capacity);
    var s, full := Run(policy, idle, Empty(clock), steps), Run(policy, idle, Empty(clock), Unswept(steps));
    RunConcat(policy, idle, Empty(clock), steps, more);
    RunConcat(policy, idle, Empty(clock), Unswept(steps), more);
    UnsweptConcat(steps, more);
    UnsweptBurst(key, now, p.capacity);
    BurstRun(policy, idle, s, key, now, p.capacity);
    BurstRun(policy, idle, full, key, now, p.capacity);
    AnswersDiffer(full.rows[key], p, now);
    SuffixesDiffer(Replies(policy, idle, Empty(clock), steps), BurstAnswers(None, p, now, p.capacity),
                   Replies(policy, idle, Empty(clock), Unswept(steps)), BurstAnswers(Some(full.rows[key]), p, now, p.capacity));
    assert Continues(policy, idle, clock, steps, more);
  }

  lemma AnswersDiffer(b: Bucket, p: BucketParams, now: real)
    requires !Refilled(b, p, now)
    ensures BurstAnswers(None, p, now, p.capacity) != BurstAnswers(Some(b), p, now, p.capacity)
  {
    FreshBurst(p, p.capacity, now);
    if BurstAnswers(Some(b), p, now, p.capacity) == AllTrue(p.capacity) { BurstNeedsLevel(b, p, now, p.capacity); }
  }

  lemma SuffixesDiffer(a: seq<bool>, x: seq<bool>, b: seq<bool>, y: seq<bool>)
    requires |a| == |b| && x != y
    ensures a + x != b + y
  {
    assert (a + x)[|a|..] == x && (b + y)[|b|..] == y;
  }

  /** From every point of the run on, sweeping stays invisible. */
  ghost predicate HiddenAlong(policy: Policy, idle: real, clock: real, steps: seq<Stmt>) {
    SweepsHidden(policy, idle, clock, steps) && (steps != [] ==> HiddenAlong(policy, idle, clock, steps[..|steps| - 1]))
  }

  /** With timestamps in order and an idle threshold that lets every bucket refill: a durable run loses
      no charge to a sweep inside a check if and only if from every point of it on, sweeping is
      invisible however it goes on without such a loss. */
  lemma {:induction false} DurableTransparentIff(policy: Policy, idle: real, clock: real, steps: seq<Stmt>)
    requires InTime(policy, idle, Empty(clock), steps) && RefillsInTime(policy, idle)
    ensures Run(policy, idle, Empty(clock), steps).lost == [] <==> HiddenAlong(policy, idle, clock, steps)
  {
    if steps != [] {
      var before := steps[..|steps| - 1];
      DurableTransparentIff(policy, idle, clock, before);
      if Run(policy, idle, Empty(clock), before).lost == [] && Run(policy, idle, Empty(clock), steps).lost != [] {
        LossShows(policy, idle, clock, steps);
      }
    }
    if Run(policy, idle, Empty(clock), steps).lost == [] {
      forall more | Continues(policy, idle, clock, steps, more)
        ensures Replies(policy, idle, Empty(clock), steps + more) == Replies(policy, idle, Empty(clock), Unswept(steps + more))
      {
        MatchesAlong(policy, idle, clock, steps + more);
      }
    }
  }

  // ----- what a lost charge costs -------------------------------------------------------------

  /** The checks of this key that a run admits. */
  function AdmittedOf(policy: Policy, idle: real, s: State, steps: seq<Stmt>, key: BucketKey): nat {
    if steps == [] then 0
    else
      var before, e := steps[..|steps| - 1], steps[|steps| - 1];
      AdmittedOf(policy, idle, s, before, key) + AdmittedBy(policy, Run(policy, idle, s, before), e, key)
  }

  function AdmittedBy(policy: Policy, s: State, e: Stmt, key: BucketKey): nat {
    if e.Write? && s.begun.Some? && s.begun.value.key == key && Decided(policy, s.begun.value).0 then 1 else 0
  }

  function LostOf(s: State, key: BucketKey): nat {
    multiset(s.lost)[key]
  }

  /** What capacity and refill since `start` allow by time `now`, with `extra` checks on top. */
  function Allowed(p: BucketParams, start: real, now: real, extra: int): real {
    p.capacity as real + (now - start) * p.refill + extra as real
  }

  /** Admissions and tokens at hand stay within that. */
  predicate WithinBudget(p: BucketParams, start: real, extra: int, admitted: nat, s: State, key: BucketKey) {
    if s.begun.Some? && s.begun.value.key == key then
      admitted as real + Level(s.begun.value.found, p, s.begun.value.now) <= Allowed(p, start, s.begun.value.now, extra)
    else admitted as real + Level(Find(s.rows, key), p, s.clock) <= Allowed(p, start, s.clock, extra)
  }

  lemma LevelLater(b: Option<Bucket>, p: BucketParams, now: real, later: real)
    requires now <= later && (b.Some? ==> b.value.updatedAt <= now)
    ensures Level(b, p, later) <= Level(b, p, now) + (later - now) * p.refill
  {
    Product(later - now, p.refill);
    if b.Some? {
      var u := b.value.updatedAt;
      assert (later - u) * p.refill == (now - u) * p.refill + (later - now) * p.refill;
    }
  }

  lemma Product(x: real, y: real)
    requires x >= 0.0 && y > 0.0
    ensures x * y >= 0.0
  {}

  lemma AllowedLater(p: BucketParams, start: real, now: real, later: real, extra: int)
    ensures Allowed(p, start, later, extra) == Allowed(p, start, now, extra) + (later - now) * p.refill
  {
    assert (later - start) * p.refill == (now - start) * p.refill + (later - now) * p.refill;
  }

  /** A bucket stale enough to be swept is full by then. */
  lemma StaleIsFull(b: Bucket, p: BucketParams, now: real, clock: real, idle: real)
    requires Settled(b, now) && now <= clock && b.updatedAt < clock - idle && idle * p.refill >= p.capacity as real
    ensures Level(Some(b), p, now) + (clock - now) * p.refill >= p.capacity as real
  {
    var r, u := p.refill, b.updatedAt;
    assert (clock - u) * r == (now - u) * r + (clock - now) * r;
    Product(clock - u - idle, r);
    assert (clock - u - idle) * r == (clock - u) * r - idle * r;
    Product(clock - now, r);
  }

  lemma SelectInBudget(policy: Policy, idle: real, s: State, key: BucketKey, now: real, of: BucketKey, start: real, extra: int, admitted: nat)
    requires Sane(s, idle) && s.clock <= now && WithinBudget(policy(of), start, extra, admitted, s, of)
    ensures WithinBudget(policy(of), start, extra, admitted, Exec(policy, idle, s, Select(key, now)), of)
  {
    if s.begun.None? {
      LevelLater(Find(s.rows, of), policy(of), s.clock, now);
      AllowedLater(policy(of), start, s.clock, now, extra);
    }
  }

  lemma SweepInBudget(policy: Policy, idle: real, s: State, now: real, of: BucketKey, start: real, extra: int, admitted: nat)
    requires Sane(s, idle) && s.clock <= now && WithinBudget(policy(of), start, extra, admitted, s, of)
    requires idle * policy(of).refill >= policy(of).capacity as real
    ensures WithinBudget(policy(of), start, extra, admitted, Exec(policy, idle, s, Stmt.Sweep(now)), of)
  {
    var p := policy(of);
    LevelLater(Find(s.rows, of), p, s.clock, now);
    AllowedLater(p, start, s.clock, now, extra);
    if of in s.rows && s.rows[of].updatedAt < now - idle {
      StaleIsFull(s.rows[of], p, s.clock, now, idle);
      StaleLevel(s.rows[of], p, now, idle);
    }
  }

  lemma StaleLevel(b: Bucket, p: BucketParams, now: real, idle: real)
    requires Settled(b, now) && b.updatedAt < now - idle && idle * p.refill >= p.capacity as real
    ensures Level(Some(b), p, now) == p.capacity as real
  {
    StaleIsFull(b, p, now, now, idle);
  }

  /** The written bucket, by the time of the write. */
  lemma LandedLevel(b: Bucket, p: BucketParams, clock: real)
    requires b.updatedAt <= clock
    ensures Level(Some(b), p, clock) <= b.tokens + (clock - b.updatedAt) * p.refill
  {}

  lemma WriteLands(policy: Policy, idle: real, s: State, start: real, extra: int, admitted: nat)
    requires Sane(s, idle) && s.begun.Some? && !Misses(s, s.begun.value)
    requires WithinBudget(policy(s.begun.value.key), start, extra, admitted, s, s.begun.value.key)
    ensures var of := s.begun.value.key;
            WithinBudget(policy(of), start, extra, admitted + AdmittedBy(policy, s, Write, of), Exec(policy, idle, s, Write), of)
  {
    var c := s.begun.value;
    var p, b := policy(c.key), Decided(policy, c).1;
    assert Find(Exec(policy, idle, s, Write).rows, c.key) == Some(b);
    AllowedLater(p, start, c.now, s.clock, extra);
    LandedLevel(b, p, s.clock);
  }

  lemma WriteMisses(policy: Policy, idle: real, s: State, start: real, extra: int, admitted: nat)
    requires Sane(s, idle) && s.begun.Some? && Misses(s, s.begun.value)
    requires WithinBudget(policy(s.begun.value.key), start, extra, admitted, s, s.begun.value.key)
    requires idle * policy(s.begun.value.key).refill >= policy(s.begun.value.key).capacity as real
    ensures var of := s.begun.value.key;
            WithinBudget(policy(of), start, extra + if Loses(policy, s, s.begun.value) then 1 else 0,
                         admitted + AdmittedBy(policy, s, Write, of), Exec(policy, idle, s, Write), of)
  {
    var c := s.begun.value;
    var p := policy(c.key);
    assert Find(Exec(policy, idle, s, Write).rows, c.key) == None;
    AllowedLater(p, start, c.now, s.clock, extra);
    StaleIsFull(c.found.value, p, c.now, s.clock, idle);
  }

  lemma StepInBudget(policy: Policy, idle: real, s: State, e: Stmt, of: BucketKey, start: real, extra: int, admitted: nat)
    requires Sane(s, idle) && OnTime(s, e) && WithinBudget(policy(of), start, extra, admitted, s, of)
    requires idle * policy(of).refill >= policy(of).capacity as real
    ensures WithinBudget(policy(of), start, extra + LostOf(Exec(policy, idle, s, e), of) - LostOf(s, of),
                         admitted + AdmittedBy(policy, s, e, of), Exec(policy, idle, s, e), of)
  {
    match e
    case Select(key, now) => SelectInBudget(policy, idle, s, key, now, of, start, extra, admitted);
    case Sweep(now) => SweepInBudget(policy, idle, s, now, of, start, extra, admitted);
    case Write =>
      if s.begun.Some? && s.begun.value.key == of {
        if Misses(s, s.begun.value) {
          WriteMisses(policy, idle, s, start, extra, admitted);
        } else {
          WriteLands(policy, idle, s, start, extra, admitted);
        }
      }
  }

  lemma {:induction false} BudgetAlong(policy: Policy, idle: real, s: State, steps: seq<Stmt>, key: BucketKey)
    requires Sane(s, idle) && s.begun.None? && InTime(policy, idle, s, steps)
    requires idle * policy(key).refill >= policy(key).capacity as real
    ensures var s' := Run(policy, idle, s, steps);
            WithinBudget(policy(key), s.clock, LostOf(s', key) - LostOf(s, key), AdmittedOf(policy, idle, s, steps, key), s', key)
  {
    if steps == [] {
      assert Level(Find(s.rows, key), policy(key), s.clock) <= policy(key).capacity as real;
    } else {
      var before, e := steps[..|steps| - 1], steps[|steps| - 1];
      var s1 := Run(policy, idle, s, before);
      BudgetAlong(policy, idle, s, before, key);
      SaneAlways(policy, idle, s, before);
      StepInBudget(policy, idle, s1, e, key, s.clock, LostOf(s1, key) - LostOf(s, key), AdmittedOf(policy, idle, s, before, key));
    }
  }

  lemma LevelNotNegative(b: Option<Bucket>, p: BucketParams, now: real)
    requires b.Some? ==> Settled(b.value, now)
    ensures Level(b, p, now) >= 0.0
  {
    if b.Some? { Product(Gain(b.value.updatedAt, now), p.refill); }
  }

  lemma BudgetBounds(p: BucketParams, start: real, extra: int, admitted: nat, s: State, key: BucketKey, idle: real)
    requires Sane(s, idle) && WithinBudget(p, start, extra, admitted, s, key)
    ensures admitted as real <= Allowed(p, start, s.clock, extra)
  {
    if s.begun.Some? && s.begun.value.key == key {
      var c := s.begun.value;
      LevelNotNegative(c.found, p, c.now);
      AllowedLater(p, start, c.now, s.clock, extra);
      Product(s.clock - c.now, p.refill);
    } else {
      LevelNotNegative(Find(s.rows, key), p, s.clock);
    }
  }

  /** The rate bound of the durable limiter: from any point between two checks on, a key gets at most
      its capacity, the refill since then, and one check for every charge lost to a sweep. */
  lemma DurableRateBound(policy: Policy, idle: real, clock: real, steps: seq<Stmt>, more: seq<Stmt>, key: BucketKey)
    requires InTime(policy, idle, Empty(clock), steps + more) && Run(policy, idle, Empty(clock), steps).begun.None?
    requires idle * policy(key).refill >= policy(key).capacity as real
    ensures var s := Run(policy, idle, Empty(clock), steps);
            var s' := Run(policy, idle, s, more);
            AdmittedOf(policy, idle, s, more, key) as real
            <= Allowed(policy(key), s.clock, s'.clock, LostOf(s', key) - LostOf(s, key))
  {
    var s := Run(policy, idle, Empty(clock), steps);
    var s' := Run(policy, idle, s, more);
    RunConcat(policy, idle, Empty(clock), steps, more);
    SaneAlways(policy, idle, Empty(clock), steps);
    SaneAlways(policy, idle, s, more);
    BudgetAlong(policy, idle, s, more, key);
    BudgetBounds(policy(key), s.clock, LostOf(s', key) - LostOf(s, key), AdmittedOf(policy, idle, s, more, key), s', key, idle);
  }

  // ----- it happens, whatever the parameters --------------------------------------------------

  const FIRST_CHECK: seq<Stmt> := [Select(SOME_KEY, 0.0), Write]

  function CutOne(late: real): seq<Stmt> {
    [Select(SOME_KEY, late)] + Sweeps([late]) + [Write]
  }

  /** A check whose row is swept from under it, and a burst of the whole capacity at the same instant. */
  function CutAndBurst(p: BucketParams, late: real): seq<Stmt> {
    CutOne(late) + Burst(SOME_KEY, late, p.capacity)
  }

  /** For all parameters, and any idle threshold that refills a bucket: after one check and a pause, a
      sweep inside the next check lets the key have one check more than its capacity at one instant. */
  lemma CutCheckOvershoots(p: BucketParams, idle: real)
    requires idle >= 0.0 && idle * p.refill >= p.capacity as real
    ensures var policy, more := Everywhere(p), CutAndBurst(p, idle + 1.0);
            var s := Run(policy, idle, Empty(0.0), FIRST_CHECK);
            && InTime(policy, idle, Empty(0.0), FIRST_CHECK + more)
            && (forall e :: e in more && !e.Write? ==> e.now == idle + 1.0)
            && Replies(policy, idle, s, more) == [true] + AllTrue(p.capacity)
            && Run(policy, idle, s, more).lost == [SOME_KEY]
  {
    var policy, late := Everywhere(p), idle + 1.0;
    CheckAlone(policy, idle, Empty(0.0), SOME_KEY, 0.0);
    var s := Run(policy, idle, Empty(0.0), FIRST_CHECK);
    CutAlone(p, idle, s, late);
    RunConcat(policy, idle, s, CutOne(late), Burst(SOME_KEY, late, p.capacity));
    FreshRun(p, idle, late);
    RunConcat(policy, idle, Empty(0.0), FIRST_CHECK, CutAndBurst(p, late));
    AtOnce(p, late);
  }

  lemma FreshRun(p: BucketParams, idle: real, late: real)
    ensures var s := State(map[], None, late, [SOME_KEY]);
            && Replies(Everywhere(p), idle, s, Burst(SOME_KEY, late, p.capacity)) == AllTrue(p.capacity)
            && Run(Everywhere(p), idle, s, Burst(SOME_KEY, late, p.capacity)).lost == [SOME_KEY]
            && InTime(Everywhere(p), idle, s, Burst(SOME_KEY, late, p.capacity))
  {
    BurstRun(Everywhere(p), idle, State(map[], None, late, [SOME_KEY]), SOME_KEY, late, p.capacity);
    FreshBurst(p, p.capacity, late);
  }

  lemma AtOnce(p: BucketParams, late: real)
    ensures forall e :: e in CutAndBurst(p, late) && !e.Write? ==> e.now == late
  {
    BurstAtOnce(SOME_KEY, late, p.capacity);
    assert [late][..0] == [];
    assert Sweeps([late]) == [Stmt.Sweep(late)];
  }

  lemma {:induction false} BurstAtOnce(key: BucketKey, now: real, n: nat)
    ensures forall e :: e in Burst(key, now, n) && !e.Write? ==> e.now == now
  {
    if n > 0 { BurstAtOnce(key, now, n - 1); }
  }

  lemma CutAlone(p: BucketParams, idle: real, s: State, late: real)
    requires idle >= 0.0 && idle * p.refill >= p.capacity as real && late == idle + 1.0
    requires s == State(map[SOME_KEY := Bucket(p.capacity as real - 1.0, 0.0)], None, 0.0, [])
    ensures var s' := Run(Everywhere(p), idle, s, CutOne(late));
            && s' == State(map[], None, late, [SOME_KEY]) && InTime(Everywhere(p), idle, s, CutOne(late))
            && Replies(Everywhere(p), idle, s, CutOne(late)) == [true]
  {
    var policy, b := Everywhere(p), Bucket(p.capacity as real - 1.0, 0.0);
    var s1 := Exec(policy, idle, s, Select(SOME_KEY, late));
    var s2 := Exec(policy, idle, s1, Stmt.Sweep(late));
    assert [late][..0] == [];
    assert Sweeps([late]) == [Stmt.Sweep(late)];
    StaleLevel(b, p, late, idle);
    assert s2.rows == map[];
    RunConcat(policy, idle, s, [Select(SOME_KEY, late)], [Stmt.Sweep(late)]);
    RunConcat(policy, idle, s, [Select(SOME_KEY, late)] + [Stmt.Sweep(late)], [Write]);
    RunOne(policy, idle, s, Select(SOME_KEY, late));
    RunOne(policy, idle, s1, Stmt.Sweep(late));
    RunOne(policy, idle, s2, Write);
    assert Decided(policy, s2.begun.value) == (true, Bucket(p.capacity as real - 1.0, late));
  }
}
