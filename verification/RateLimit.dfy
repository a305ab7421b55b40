/** The token-bucket limiter and its sweeper: `skr_crypto/server/rate_limit_bucket.py`, over exact
    reals. */
module RateLimit {
  import opened Options

  datatype Params = Params(capacity: int, refill: real)

  /** `BucketParams.__post_init__` raises on anything else. */
  type BucketParams = p: Params | p.capacity >= 1 && p.refill > 0.0 witness Params(1, 1.0)

  datatype Bucket = Bucket(tokens: real, updatedAt: real)

  /** (key_type, key_value) */
  type BucketKey = (string, string)

  type Table = map<BucketKey, Bucket>

  function Min(a: real, b: real): real {
    if a < b then a else b
  }

  /** The positive part of a timestamp difference. */
  function Gain(last: real, now: real): real {
    if now > last then now - last else 0.0
  }

  /** Tokens at hand when a check at `now` decides; a missing bucket counts as full. */
  function Level(b: Option<Bucket>, p: BucketParams, now: real): real {
    match b
    case None => p.capacity as real
    case Some(b) => Min(p.capacity as real, b.tokens + Gain(b.updatedAt, now) * p.refill)
  }

  /** One check: the answer and the bucket it leaves. */
  function Decide(b: Option<Bucket>, p: BucketParams, now: real): (bool, Bucket) {
    var level := Level(b, p, now);
    if level < 1.0 then (false, Bucket(level, now)) else (true, Bucket(level - 1.0, now))
  }

  function Find(t: Table, key: BucketKey): Option<Bucket> {
    if key in t then Some(t[key]) else None
  }

  function Swept(t: Table, now: real, idle: real): Table {
    map k | k in t && !(t[k].updatedAt < now - idle) :: t[k]
  }

  /** The INSERT or UPDATE that ends a durable check which read `found`: an UPDATE that finds the row
      gone changes nothing. */
  function Written(t: Table, key: BucketKey, found: Option<Bucket>, b: Bucket): Table {
    if found.None? || key in t then t[key := b] else t
  }

  /** Sweeps at these times, one after the other. */
  function SweptBy(t: Table, sweeps: seq<real>, idle: real): Table {
    if sweeps == [] then t else Swept(SweptBy(t, sweeps[..|sweeps| - 1], idle), sweeps[|sweeps| - 1], idle)
  }

  class TokenBucketLimiter {
    const durable: bool    // a database is configured
    var buckets: Table     // `_memory`, or the rows of rate_limit_buckets

    constructor (durable: bool)
      ensures this.durable == durable && buckets == map[]
    {
      this.durable, buckets := durable, map[];
    }

    /** `check`. Checks come one at a time, from the middleware on the event loop; `sweeps` are the
        sweeper's DELETEs that fall between the two statements of a durable check. The lock keeps them
        out of a check in memory. */
    method Check(key: BucketKey, p: BucketParams, now: real, sweeps: seq<real>, idle: real) returns (ok: bool)
      modifies this
      ensures ok == Decide(Find(old(buckets), key), p, now).0
      ensures var b := Decide(Find(old(buckets), key), p, now).1;
              buckets == if durable then Written(SweptBy(old(buckets), sweeps, idle), key, Find(old(buckets), key), b)
                         else old(buckets)[key := b]
    {
      if durable {
        ok := CheckSqlite(key, p, now, sweeps, idle);
      } else {
        ok := CheckMemory(key, p, now);
      }
    }

    method CheckSqlite(key: BucketKey, p: BucketParams, now: real, sweeps: seq<real>, idle: real) returns (ok: bool)
      modifies this
      ensures ok == Decide(Find(old(buckets), key), p, now).0
      ensures buckets == Written(SweptBy(old(buckets), sweeps, idle), key, Find(old(buckets), key),
                                 Decide(Find(old(buckets), key), p, now).1)
    {
      if key !in buckets {
        Meanwhile(sweeps, idle);
        var tokens := p.capacity as real - 1.0;
        buckets := buckets[key := Bucket(if tokens > 0.0 then tokens else 0.0, now)];
        return tokens >= 0.0;
      }
      var row := buckets[key];
      Meanwhile(sweeps, idle);
      var elapsed := Gain(row.updatedAt, now);
      var current := Min(p.capacity as real, row.tokens + elapsed * p.refill);
      ok := current >= 1.0;
      if ok { current := current - 1.0; }
      assert Decide(Some(row), p, now) == (ok, Bucket(current, now));
      if key in buckets { buckets := buckets[key := Bucket(current, now)]; }
    }

    /** What the sweeper's thread does in the meantime. */
    method Meanwhile(sweeps: seq<real>, idle: real)
      modifies this
      ensures buckets == SweptBy(old(buckets), sweeps, idle)
    {
      for n := 0 to |sweeps|
        invariant buckets == SweptBy(old(buckets), sweeps[..n], idle)
      {
        assert sweeps[..n + 1][..n] == sweeps[..n];
        var _ := SweepIdle(sweeps[n], idle);
      }
      assert sweeps[..|sweeps|] == sweeps;
    }

    method CheckMemory(key: BucketKey, p: BucketParams, now: real) returns (ok: bool)
      modifies this
      ensures ok == Decide(Find(old(buckets), key), p, now).0
      ensures buckets == old(buckets)[key := Decide(Find(old(buckets), key), p, now).1]
    {
      if key !in buckets {
        buckets := buckets[key := Bucket(p.capacity as real - 1.0, now)];
        return true;
      }
      var rec := buckets[key];
      rec := rec.(tokens := Min(p.capacity as real, rec.tokens + Gain(rec.updatedAt, now) * p.refill));
      if rec.tokens < 1.0 {
        rec := rec.(updatedAt := now);
        buckets := buckets[key := rec];
        assert rec == Decide(Find(old(buckets), key), p, now).1;
        return false;
      }
      buckets := buckets[key := Bucket(rec.tokens - 1.0, now)];
      ok := true;
    }

    /** `sweep_idle`: deletes the stale buckets one by one and says how many. */
    method SweepIdle(now: real, idle: real) returns (n: nat)
      modifies this
      ensures buckets == Swept(old(buckets), now, idle)
      ensures n == |old(buckets)| - |buckets|
    {
      var stale := set k | k in buckets && buckets[k].updatedAt < now - idle;
      n := 0;
      while stale != {}
        invariant stale == set k | k in buckets && buckets[k].updatedAt < now - idle
        invariant Swept(buckets, now, idle) == Swept(old(buckets), now, idle)
        invariant n == |old(buckets)| - |buckets|
        decreases stale
      {
        var k :| k in stale;
        ghost var before := buckets;
        buckets := buckets - {k};
        assert buckets.Keys == before.Keys - {k};
        assert |buckets.Keys| == |before.Keys| - 1;
        stale := stale - {k};
        n := n + 1;
      }
      assert forall k :: k in buckets ==> k !in stale;
      assert Swept(buckets, now, idle) == buckets;
    }
  }

  // ----- a run of checks on one bucket --------------------------------------------------------

  /** Checks of one bucket, at timestamps in any order, from any stored bucket or from none. */
  datatype Run = Run(start: Option<Bucket>, params: BucketParams, times: seq<real>) {

    predicate Ok() {
      start.Some? ==> start.value.tokens >= 0.0
    }

    /** The bucket after the first n checks. */
    function After(n: nat): (b: Option<Bucket>)
      requires n <= |times|
    {
      if n == 0 then start else Some(Decide(After(n - 1), params, times[n - 1]).1)
    }

    /** Tokens at hand at check n. */
    function LevelAt(n: nat): real
      requires n < |times|
    {
      Level(After(n), params, times[n])
    }

    function Answer(n: nat): bool
      requires n < |times|
    {
      Decide(After(n), params, times[n]).0
    }

    function Answers(): (a: seq<bool>)
      ensures |a| == |times|
    {
      seq(|times|, i requires 0 <= i < |times| => Answer(i))
    }

    /** Tokens refilled between check j and check n - 1. */
    function Inflow(j: nat, n: nat): real
      requires n <= |times|
      decreases n
    {
      if n <= j + 1 then 0.0 else Inflow(j, n - 1) + Gain(times[n - 2], times[n - 1]) * params.refill
    }

    /** Tokens refilled from the stored bucket on, up to check n - 1. */
    function InflowFromStart(n: nat): real
      requires start.Some? && 0 < n <= |times|
    {
      Gain(start.value.updatedAt, times[0]) * params.refill + Inflow(0, n)
    }

    /** What is left for check n in the window of checks j to n: capacity plus refill minus
        admissions. */
    function Room(j: nat, n: nat): real
      requires j <= n < |times|
    {
      params.capacity as real + Inflow(j, n + 1) - Trues(Answers(), j, n) as real
    }

    /** What is left for check n of the tokens the bucket started with. */
    function StartRoom(n: nat): real
      requires start.Some? && n < |times|
    {
      start.value.tokens + InflowFromStart(n + 1) - Trues(Answers(), 0, n) as real
    }
  }

  /** Admissions among checks j to n - 1. */
  function Trues(answers: seq<bool>, j: nat, n: nat): nat
    requires n <= |answers|
    decreases n
  {
    if n <= j then 0 else Trues(answers, j, n - 1) + (if answers[n - 1] then 1 else 0)
  }

  lemma {:induction false} TruesSplit(answers: seq<bool>, i: nat, j: nat, n: nat)
    requires i <= j <= n <= |answers|
    ensures Trues(answers, i, n) == Trues(answers, i, j) + Trues(answers, j, n)
    decreases n
  {
    if j < n { TruesSplit(answers, i, j, n - 1); }
  }

  lemma TokensNeverNegative(r: Run, n: nat)
    requires r.Ok() && n <= |r.times|
    ensures r.After(n).Some? ==> r.After(n).value.tokens >= 0.0
  {
    if n > 0 { TokensNeverNegative(r, n - 1); }
  }

  /** What check n - 1 and the time since bring and take. */
  function Net(r: Run, n: nat): real
    requires 0 < n < |r.times|
  {
    Gain(r.times[n - 1], r.times[n]) * r.params.refill - (if r.Answer(n - 1) then 1.0 else 0.0)
  }

  lemma LevelStep(r: Run, n: nat)
    requires 0 < n < |r.times|
    ensures r.LevelAt(n) == Min(r.params.capacity as real, r.LevelAt(n - 1) + Net(r, n))
  {
    var paid := if r.Answer(n - 1) then 1.0 else 0.0;
    assert r.After(n) == Some(Bucket(r.LevelAt(n - 1) - paid, r.times[n - 1]));
  }

  lemma RoomStep(r: Run, j: nat, n: nat)
    requires j < n < |r.times|
    ensures r.Room(j, n) == r.Room(j, n - 1) + Net(r, n)
  {
    assert r.Answers()[n - 1] == r.Answer(n - 1);
  }

  /** The level is at most every room, and equals the one returned (None: the start's). */
  lemma {:induction false} TightWindow(r: Run, n: nat) returns (tight: Option<nat>)
    requires n < |r.times|
    ensures forall j :: 0 <= j <= n ==> r.LevelAt(n) <= r.Room(j, n)
    ensures r.start.Some? ==> r.LevelAt(n) <= r.StartRoom(n)
    ensures tight.Some? ==> tight.value <= n && r.LevelAt(n) == r.Room(tight.value, n)
    ensures tight.None? ==> r.start.Some? && r.LevelAt(n) == r.StartRoom(n)
  {
    assert r.Room(n, n) == r.params.capacity as real;
    if n == 0 {
      tight := if r.start.Some? && r.LevelAt(0) == r.StartRoom(0) then None else Some(0);
    } else {
      tight := TightWindow(r, n - 1);
      LevelStep(r, n);
      forall j | 0 <= j < n ensures r.LevelAt(n) <= r.Room(j, n) { RoomStep(r, j, n); }
      if tight.Some? { RoomStep(r, tight.value, n); }
      if r.LevelAt(n) == r.params.capacity as real { tight := Some(n); }
    }
  }

  /** Closed form: the level at check n is the least room over all windows ending there. */
  lemma LevelIsLeastRoom(r: Run, n: nat)
    requires n < |r.times|
    ensures forall j :: 0 <= j <= n ==> r.LevelAt(n) <= r.Room(j, n)
    ensures r.start.Some? ==> r.LevelAt(n) <= r.StartRoom(n)
    ensures (exists j :: 0 <= j <= n && r.LevelAt(n) == r.Room(j, n))
            || (r.start.Some? && r.LevelAt(n) == r.StartRoom(n))
  {
    var tight := TightWindow(r, n);
  }

  /** Over any contiguous run of checks, admissions are at most capacity plus refill. */
  lemma {:induction false} RateBound(r: Run, j: nat, n: nat)
    requires r.Ok() && j < n <= |r.times|
    ensures Trues(r.Answers(), j, n) as real <= r.params.capacity as real + r.Inflow(j, n)
  {
    LevelIsLeastRoom(r, n - 1);
    TokensNeverNegative(r, n - 1);
    assert r.LevelAt(n - 1) <= r.Room(j, n - 1);
  }

  function Elapsed(times: seq<real>, j: nat, n: nat): real
    requires n <= |times|
    decreases n
  {
    if n <= j + 1 then 0.0 else Elapsed(times, j, n - 1) + Gain(times[n - 2], times[n - 1])
  }

  lemma {:induction false} InflowIsElapsed(r: Run, j: nat, n: nat)
    requires n <= |r.times|
    ensures r.Inflow(j, n) == Elapsed(r.times, j, n) * r.params.refill
    decreases n
  {
    if n > j + 1 {
      InflowIsElapsed(r, j, n - 1);
      var a, b, rate := Elapsed(r.times, j, n - 1), Gain(r.times[n - 2], r.times[n - 1]), r.params.refill;
      assert (a + b) * rate == a * rate + b * rate;
    }
  }

  predicate Monotone(times: seq<real>) {
    forall i, j :: 0 <= i <= j < |times| ==> times[i] <= times[j]
  }

  lemma {:induction false} ElapsedTelescopes(times: seq<real>, j: nat, n: nat)
    requires Monotone(times) && j < n <= |times|
    ensures Elapsed(times, j, n) == times[n - 1] - times[j]
    decreases n
  {
    if n > j + 1 { ElapsedTelescopes(times, j, n - 1); }
  }

  lemma InflowInTime(r: Run, j: nat, n: nat)
    requires Monotone(r.times) && j < n <= |r.times|
    ensures r.Inflow(j, n) == (r.times[n - 1] - r.times[j]) * r.params.refill
  {
    InflowIsElapsed(r, j, n);
    ElapsedTelescopes(r.times, j, n);
  }

  /** With timestamps in order the refill is the rate times the length of the window. */
  lemma RateBoundInTime(r: Run, j: nat, n: nat)
    requires r.Ok() && Monotone(r.times) && j < n <= |r.times|
    ensures Trues(r.Answers(), j, n) as real
            <= r.params.capacity as real + (r.times[n - 1] - r.times[j]) * r.params.refill
  {
    RateBound(r, j, n);
    InflowInTime(r, j, n);
  }

  /** Admitting check n as well would overdraw the window of checks j to n. */
  predicate WouldBreak(r: Run, j: nat, n: nat)
    requires j <= n < |r.times|
  {
    Trues(r.Answers(), j, n) as real + 1.0 > r.params.capacity as real + r.Inflow(j, n + 1)
  }

  /** A check on a bucket that started full is refused exactly when admitting it would break the
      bound of some window ending with it. */
  lemma RefusedIffSomeWindowBreaks(r: Run, n: nat)
    requires r.start.None? && n < |r.times|
    ensures !r.Answer(n) <==> exists j :: 0 <= j <= n && WouldBreak(r, j, n)
  {
    LevelIsLeastRoom(r, n);
    assert r.Answer(n) <==> r.LevelAt(n) >= 1.0;
    if !r.Answer(n) {
      var j :| 0 <= j <= n && r.LevelAt(n) == r.Room(j, n);
      assert WouldBreak(r, j, n);
    } else {
      forall j | 0 <= j <= n ensures !WouldBreak(r, j, n) {
        assert r.LevelAt(n) <= r.Room(j, n);
      }
    }
  }

  /** A pattern of answers that keeps every window within capacity plus refill. */
  predicate Safe(r: Run, answers: seq<bool>)
    requires |answers| == |r.times|
  {
    forall j: nat, n: nat | j < n <= |r.times| ::
      Trues(answers, j, n) as real <= r.params.capacity as real + r.Inflow(j, n)
  }

  /** The limiter is the best of all safe ones: none admits more, up to any point. */
  lemma {:induction false} NoSafeLimiterAdmitsMore(r: Run, answers: seq<bool>, n: nat)
    requires r.start.None? && |answers| == |r.times| && n <= |r.times| && Safe(r, answers)
    ensures Safe(r, r.Answers())
    ensures Trues(answers, 0, n) <= Trues(r.Answers(), 0, n)
    decreases n
  {
    forall j: nat, m: nat | j < m <= |r.times|
      ensures Trues(r.Answers(), j, m) as real <= r.params.capacity as real + r.Inflow(j, m)
    {
      RateBound(r, j, m);
    }
    if n > 0 {
      NoSafeLimiterAdmitsMore(r, answers, n - 1);
      if !r.Answer(n - 1) {
        RefusedIffSomeWindowBreaks(r, n - 1);
        var j: nat :| j <= n - 1 && WouldBreak(r, j, n - 1);
        NoSafeLimiterAdmitsMore(r, answers, j);
        TruesSplit(answers, 0, j, n);
        TruesSplit(r.Answers(), 0, j, n);
        assert Trues(answers, j, n) <= Trues(r.Answers(), j, n);
      }
    }
  }

  // ----- sweeping -----------------------------------------------------------------------------

  /** What happens to a limiter whose keys each have fixed parameters. */
  datatype Op = Check(key: BucketKey, now: real) | Sweep(now: real)

  type Policy = BucketKey -> BucketParams

  function Step(t: Table, policy: Policy, idle: real, op: Op): Table {
    match op
    case Check(key, now) => t[key := Decide(Find(t, key), policy(key), now).1]
    case Sweep(now) => Swept(t, now, idle)
  }

  function TableAfter(policy: Policy, idle: real, ops: seq<Op>): Table {
    if ops == [] then map[] else Step(TableAfter(policy, idle, ops[..|ops| - 1]), policy, idle, ops[|ops| - 1])
  }

  /** The answers of the checks in `ops`, in order. */
  function Replies(policy: Policy, idle: real, ops: seq<Op>): seq<bool> {
    if ops == [] then []
    else
      var before, op := ops[..|ops| - 1], ops[|ops| - 1];
      Replies(policy, idle, before) +
      match op
      case Check(key, now) => [Decide(Find(TableAfter(policy, idle, before), key), policy(key), now).0]
      case Sweep(_) => []
  }

  function Unswept(ops: seq<Op>): seq<Op> {
    if ops == [] then []
    else Unswept(ops[..|ops| - 1]) + if ops[|ops| - 1].Check? then [ops[|ops| - 1]] else []
  }

  predicate InOrder(ops: seq<Op>) {
    forall i, j :: 0 <= i <= j < |ops| ==> ops[i].now <= ops[j].now
  }

  /** Sweeping is invisible in this run. */
  predicate Transparent(policy: Policy, idle: real, ops: seq<Op>) {
    Replies(policy, idle, ops) == Replies(policy, idle, Unswept(ops))
  }

  /** A bucket that is as good as full from `now` on. */
  predicate Refilled(b: Bucket, p: BucketParams, now: real) {
    b.tokens + Gain(b.updatedAt, now) * p.refill >= p.capacity as real
  }

  predicate Settled(b: Bucket, now: real) {
    b.tokens >= 0.0 && b.updatedAt <= now
  }

  /** The swept table agrees with the full one, a missing bucket standing for a refilled one. */
  ghost predicate Simulates(swept: Table, full: Table, policy: Policy, now: real) {
    && (forall k :: k in swept ==> k in full && swept[k] == full[k])
    && (forall k :: k in full ==> Settled(full[k], now) && (k in swept || Refilled(full[k], policy(k), now)))
  }

  lemma StaleIsRefilled(b: Bucket, p: BucketParams, now: real, idle: real)
    requires Settled(b, now) && b.updatedAt < now - idle && idle * p.refill >= p.capacity as real
    ensures Refilled(b, p, now)
  {
    var gain := Gain(b.updatedAt, now);
    assert (gain - idle) * p.refill == gain * p.refill - idle * p.refill;
  }

  /** Time passing keeps the simulation. */
  lemma Later(swept: Table, full: Table, policy: Policy, now: real, later: real)
    requires Simulates(swept, full, policy, now) && now <= later
    ensures Simulates(swept, full, policy, later)
  {
    forall k | k in full
      ensures Settled(full[k], later) && (k in swept || Refilled(full[k], policy(k), later))
    {
    }
  }

  lemma CheckSimulated(swept: Table, full: Table, policy: Policy, key: BucketKey, now: real)
    requires Simulates(swept, full, policy, now)
    ensures Decide(Find(swept, key), policy(key), now) == Decide(Find(full, key), policy(key), now)
    ensures var b := Decide(Find(full, key), policy(key), now).1;
            Simulates(swept[key := b], full[key := b], policy, now)
  {
    if key in full && key !in swept {
      assert Level(Some(full[key]), policy(key), now) == Level(None, policy(key), now);
    }
  }

  lemma SweepSimulated(swept: Table, full: Table, policy: Policy, idle: real, now: real)
    requires Simulates(swept, full, policy, now)
    requires forall k :: idle * policy(k).refill >= policy(k).capacity as real
    ensures Simulates(Swept(swept, now, idle), full, policy, now)
  {
    var kept := Swept(swept, now, idle);
    forall k | k in full ensures Settled(full[k], now) && (k in kept || Refilled(full[k], policy(k), now)) {
      if k in swept && k !in kept { StaleIsRefilled(full[k], policy(k), now, idle); }
    }
  }

  lemma {:induction false} SimulationRun(policy: Policy, idle: real, ops: seq<Op>)
    requires InOrder(ops)
    requires forall k :: idle * policy(k).refill >= policy(k).capacity as real
    ensures Transparent(policy, idle, ops)
    ensures ops != [] ==> Simulates(TableAfter(policy, idle, ops), TableAfter(policy, idle, Unswept(ops)), policy, ops[|ops| - 1].now)
  {
    if ops != [] {
      var before, op := ops[..|ops| - 1], ops[|ops| - 1];
      SimulationRun(policy, idle, before);
      var now := if before == [] then op.now else before[|before| - 1].now;
      var swept, full := TableAfter(policy, idle, before), TableAfter(policy, idle, Unswept(before));
      Later(swept, full, policy, now, op.now);
      if op.Check? {
        CheckSimulated(swept, full, policy, op.key, op.now);
        assert Unswept(ops)[..|Unswept(ops)| - 1] == Unswept(before);
      } else {
        SweepSimulated(swept, full, policy, idle, op.now);
        assert Unswept(ops) == Unswept(before);
      }
    }
  }

  /** With timestamps in order and an idle threshold that lets every bucket refill, sweeping
      anywhere in a run changes no answer. */
  lemma SweepTransparent(policy: Policy, idle: real, ops: seq<Op>)
    requires InOrder(ops)
    requires forall k :: idle * policy(k).refill >= policy(k).capacity as real
    ensures Replies(policy, idle, ops) == Replies(policy, idle, Unswept(ops))
  {
    SimulationRun(policy, idle, ops);
  }

  // ----- when sweeping shows ------------------------------------------------------------------

  const SOME_KEY: BucketKey := ("ip", "198.51.100.7")

  function Burst(n: nat, now: real): seq<Op> {
    if n == 0 then [] else Burst(n - 1, now) + [Check(SOME_KEY, now)]
  }

  function Everywhere(p: BucketParams): Policy {
    (key: BucketKey) => p
  }

  function AllTrue(n: nat): seq<bool> {
    seq(n, i => true)
  }

  /** What n checks at one instant do to a bucket, and what they answer. */
  function BurstBucket(b: Option<Bucket>, p: BucketParams, now: real, n: nat): Option<Bucket> {
    if n == 0 then b else Some(Decide(BurstBucket(b, p, now, n - 1), p, now).1)
  }

  function BurstAnswers(b: Option<Bucket>, p: BucketParams, now: real, n: nat): (answers: seq<bool>)
    ensures |answers| == n
  {
    if n == 0 then []
    else BurstAnswers(b, p, now, n - 1) + [Decide(BurstBucket(b, p, now, n - 1), p, now).0]
  }

  lemma {:induction false} BurstRun(p: BucketParams, idle: real, ops: seq<Op>, n: nat, now: real)
    ensures var b := Find(TableAfter(Everywhere(p), idle, ops), SOME_KEY);
            && Replies(Everywhere(p), idle, ops + Burst(n, now))
               == Replies(Everywhere(p), idle, ops) + BurstAnswers(b, p, now, n)
            && Find(TableAfter(Everywhere(p), idle, ops + Burst(n, now)), SOME_KEY) == BurstBucket(b, p, now, n)
  {
    var b := Find(TableAfter(Everywhere(p), idle, ops), SOME_KEY);
    if n == 0 {
      assert ops + Burst(0, now) == ops;
    } else {
      BurstRun(p, idle, ops, n - 1, now);
      BurstSnoc(ops, n, now);
      BurstTurn(p, idle, ops, ops + Burst(n - 1, now), ops + Burst(n, now), b, n, now);
    }
  }

  lemma BurstTurn(p: BucketParams, idle: real, ops: seq<Op>, before: seq<Op>, after: seq<Op>, b: Option<Bucket>, n: nat, now: real)
    requires n > 0 && after == before + [Check(SOME_KEY, now)]
    requires Replies(Everywhere(p), idle, before) == Replies(Everywhere(p), idle, ops) + BurstAnswers(b, p, now, n - 1)
    requires Find(TableAfter(Everywhere(p), idle, before), SOME_KEY) == BurstBucket(b, p, now, n - 1)
    ensures Replies(Everywhere(p), idle, after) == Replies(Everywhere(p), idle, ops) + BurstAnswers(b, p, now, n)
    ensures Find(TableAfter(Everywhere(p), idle, after), SOME_KEY) == BurstBucket(b, p, now, n)
  {
    OneMore(p, idle, before, after, now);
  }

  lemma BurstSnoc(ops: seq<Op>, n: nat, now: real)
    requires n > 0
    ensures ops + Burst(n, now) == ops + Burst(n - 1, now) + [Check(SOME_KEY, now)]
  {}

  lemma OneMore(p: BucketParams, idle: real, ops: seq<Op>, more: seq<Op>, now: real)
    requires more == ops + [Check(SOME_KEY, now)]
    ensures var decided := Decide(Find(TableAfter(Everywhere(p), idle, ops), SOME_KEY), p, now);
            && Replies(Everywhere(p), idle, more) == Replies(Everywhere(p), idle, ops) + [decided.0]
            && Find(TableAfter(Everywhere(p), idle, more), SOME_KEY) == Some(decided.1)
  {
    assert more[..|more| - 1] == ops;
  }

  /** A missing bucket gives its whole capacity at one instant. */
  lemma {:induction false} FreshBurst(p: BucketParams, n: nat, now: real)
    requires n <= p.capacity
    ensures BurstAnswers(None, p, now, n) == AllTrue(n)
    ensures n > 0 ==> BurstBucket(None, p, now, n) == Some(Bucket((p.capacity - n) as real, now))
  {
    if n > 0 {
      FreshBurst(p, n - 1, now);
      assert AllTrue(n) == AllTrue(n - 1) + [true];
    }
  }

  /** A drained bucket gives no more than what it has refilled. */
  lemma {:induction false} DrainedBurst(p: BucketParams, n: nat, now: real)
    requires now >= 0.0 && BurstAnswers(Some(Bucket(0.0, 0.0)), p, now, n) == AllTrue(n) && n > 0
    ensures var level := Min(p.capacity as real, now * p.refill);
            && n as real <= level
            && BurstBucket(Some(Bucket(0.0, 0.0)), p, now, n) == Some(Bucket(level - n as real, now))
  {
    var drained := Some(Bucket(0.0, 0.0));
    assert Gain(0.0, now) == now;
    assert BurstAnswers(drained, p, now, n)[..n - 1] == BurstAnswers(drained, p, now, n - 1);
    assert AllTrue(n)[..n - 1] == AllTrue(n - 1) && AllTrue(n)[n - 1];
    if n > 1 {
      DrainedBurst(p, n - 1, now);
    }
  }

  lemma {:induction false} BurstShape(n: nat, now: real)
    ensures |Burst(n, now)| == n && forall i :: 0 <= i < n ==> Burst(n, now)[i] == Check(SOME_KEY, now)
  {
    if n > 0 { BurstShape(n - 1, now); }
  }

  lemma {:induction false} UnsweptBurst(ops: seq<Op>, n: nat, now: real)
    ensures Unswept(ops + Burst(n, now)) == Unswept(ops) + Burst(n, now)
  {
    if n == 0 {
      assert ops + Burst(0, now) == ops;
    } else {
      UnsweptBurst(ops, n - 1, now);
      BurstSnoc(ops, n, now);
    }
  }

  /** Two bursts of a whole capacity, `gap` seconds apart, with a sweep in between. */
  function TwoBursts(p: BucketParams, sweep: real, gap: real): seq<Op> {
    Burst(p.capacity, 0.0) + [Sweep(sweep)] + Burst(p.capacity, gap)
  }

  /** A sweep late enough to delete the drained bucket shows, if the second burst comes too soon for
      the bucket to be full again. */
  lemma SweepShows(p: BucketParams, idle: real, sweep: real, gap: real)
    requires sweep > idle && gap >= 0.0 && gap * p.refill < p.capacity as real
    ensures !Transparent(Everywhere(p), idle, TwoBursts(p, sweep, gap))
  {
    UnsweptTwoBursts(p, sweep, gap);
    SweptReplies(p, idle, sweep, gap);
    UnsweptReplies(p, idle, gap);
  }

  lemma TwoBurstsInOrder(p: BucketParams, gap: real)
    requires gap >= 0.0
    ensures InOrder(TwoBursts(p, gap, gap))
  {
    BurstShape(p.capacity, 0.0);
    BurstShape(p.capacity, gap);
  }

  lemma UnsweptReplies(p: BucketParams, idle: real, gap: real)
    requires gap >= 0.0 && gap * p.refill < p.capacity as real
    ensures Replies(Everywhere(p), idle, Burst(p.capacity, 0.0) + Burst(p.capacity, gap))
            != AllTrue(p.capacity) + AllTrue(p.capacity)
  {
    var second := BurstAnswers(Some(Bucket(0.0, 0.0)), p, gap, p.capacity);
    AfterFirstBurst(p, idle);
    BurstRun(p, idle, Burst(p.capacity, 0.0), p.capacity, gap);
    if second == AllTrue(p.capacity) {
      DrainedBurst(p, p.capacity, gap);
      assert false;
    }
    assert (AllTrue(p.capacity) + second)[p.capacity..] == second;
    assert (AllTrue(p.capacity) + AllTrue(p.capacity))[p.capacity..] == AllTrue(p.capacity);
  }

  lemma UnsweptTwoBursts(p: BucketParams, sweep: real, gap: real)
    ensures Unswept(TwoBursts(p, sweep, gap)) == Burst(p.capacity, 0.0) + Burst(p.capacity, gap)
  {
    var first := Burst(p.capacity, 0.0);
    UnsweptBurst([], p.capacity, 0.0);
    assert [] + first == first;
    UnsweptSweep(first, sweep);
    UnsweptBurst(first + [Sweep(sweep)], p.capacity, gap);
  }

  lemma UnsweptSweep(ops: seq<Op>, now: real)
    ensures Unswept(ops + [Sweep(now)]) == Unswept(ops)
  {
    assert (ops + [Sweep(now)])[..|ops|] == ops;
  }

  lemma AfterFirstBurst(p: BucketParams, idle: real)
    ensures var first := Burst(p.capacity, 0.0);
            && Find(TableAfter(Everywhere(p), idle, first), SOME_KEY) == Some(Bucket(0.0, 0.0))
            && Replies(Everywhere(p), idle, first) == AllTrue(p.capacity)
  {
    assert [] + Burst(p.capacity, 0.0) == Burst(p.capacity, 0.0);
    BurstRun(p, idle, [], p.capacity, 0.0);
    FreshBurst(p, p.capacity, 0.0);
  }

  lemma SweptReplies(p: BucketParams, idle: real, sweep: real, gap: real)
    requires sweep > idle
    ensures Replies(Everywhere(p), idle, TwoBursts(p, sweep, gap)) == AllTrue(p.capacity) + AllTrue(p.capacity)
  {
    var first := Burst(p.capacity, 0.0);
    var cut := first + [Sweep(sweep)];
    AfterFirstBurst(p, idle);
    assert cut[..|cut| - 1] == first;
    assert Find(TableAfter(Everywhere(p), idle, cut), SOME_KEY) == None;
    BurstRun(p, idle, cut, p.capacity, gap);
    FreshBurst(p, p.capacity, gap);
  }

  /** Sweeping is invisible in every run with timestamps in order exactly when a bucket left alone
      for the idle threshold refills completely. */
  lemma SweepTransparentIff(p: BucketParams, idle: real)
    ensures (forall ops :: InOrder(ops) ==> Transparent(Everywhere(p), idle, ops))
            <==> idle * p.refill >= p.capacity as real
  {
    if idle * p.refill >= p.capacity as real {
      forall ops | InOrder(ops) ensures Transparent(Everywhere(p), idle, ops) {
        SimulationRun(Everywhere(p), idle, ops);
      }
    } else {
      var gap := if idle < 0.0 then 0.0 else (idle + p.capacity as real / p.refill) / 2.0;
      SweepShows(p, idle, gap, gap);
      TwoBurstsInOrder(p, gap);
    }
  }

  /** Order of timestamps matters: whatever the parameters and the threshold, a clock that has run
      ahead when the sweeper reads it, and is back when the next burst does, makes a sweep show. */
  lemma SweepShowsUnderClockSkew(p: BucketParams, idle: real, ahead: real)
    requires ahead > idle
    ensures !Transparent(Everywhere(p), idle, TwoBursts(p, ahead, 0.0))
  {
    assert 0.0 * p.refill < p.capacity as real;
    SweepShows(p, idle, ahead, 0.0);
  }
}
