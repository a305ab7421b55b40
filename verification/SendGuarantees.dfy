/** What the `/send` pipeline guarantees in every schedule of request threads, closes, crashes and
    restarts. */
module SendGuarantees {
  import opened Options
  import opened Idempotency
  import opened SendPipeline

  lemma Reachable(steps: seq<Step>)
    ensures Inv(Run(INIT, steps))
  {
    InvAlways(INIT, steps);
  }

  // ----- at most one broadcast ----------------------------------------------------------------

  /** A key has at most one accepted broadcast, plus one for every commit that failed on it before
      taking effect while its store was open. */
  lemma AtMostOneBroadcast(steps: seq<Step>, key: Key)
    ensures var trace := Run(INIT, steps).trace; Broadcasts(trace, key) <= 1 + LostCommits(trace, key)
  {
    Reachable(steps);
  }

  /** One request whose broadcast is accepted, whose commit is lost and whose release works. */
  function LostAttempt(tid: nat, key: Key): seq<Step> {
    [Arrive(Request(key, 1)), Enter(tid, 0.0), BroadcastAccepted(tid, "tx"), CommitRaises(tid, false), Step.Release(tid)]
  }

  function LostAttempts(n: nat, key: Key): seq<Step> {
    if n == 0 then [] else LostAttempts(n - 1, key) + LostAttempt(n - 1, key)
  }

  lemma {:induction false} RunConcat(s: State, a: seq<Step>, b: seq<Step>)
    ensures Run(s, a + b) == Run(Run(s, a), b)
    decreases |a|
  {
    if a == [] {
      assert a + b == b;
    } else {
      assert (a + b)[0] == a[0] && (a + b)[1..] == a[1..] + b;
      RunConcat(Exec(s, a[0]), a[1..], b);
    }
  }

  lemma LoseOnce(s: State, key: Key)
    requires s.up && s.open && key !in s.rows
    ensures var s' := Run(s, LostAttempt(|s.threads|, key));
            && s'.up && s'.open && key !in s'.rows && |s'.threads| == |s.threads| + 1
            && Broadcasts(s'.trace, key) == Broadcasts(s.trace, key) + 1
            && LostCommits(s'.trace, key) == LostCommits(s.trace, key) + 1
  {
    var tid := |s.threads|;
    var steps := LostAttempt(tid, key);
    var s1 := Exec(s, steps[0]);
    var s2 := Exec(s1, steps[1]);
    assert HasStatus(s2.rows, key, Pending) && s2.threads[tid] == Thread(Request(key, 1), Holding);
    LoseHeld(s2, tid, key);
    assert steps[1..][1..] == LostAttempt(tid, key)[2..];
    assert Run(s, steps) == Run(s1, steps[1..]) == Run(s2, steps[1..][1..]);
    CountStep(s, steps[0]);
    CountStep(s1, steps[1]);
  }

  lemma LoseHeld(s: State, tid: nat, key: Key)
    requires s.up && s.open && HasStatus(s.rows, key, Pending)
    requires tid < |s.threads| && s.threads[tid] == Thread(Request(key, 1), Holding)
    ensures var s' := Run(s, LostAttempt(tid, key)[2..]);
            && s'.up && s'.open && key !in s'.rows && |s'.threads| == |s.threads|
            && Broadcasts(s'.trace, key) == Broadcasts(s.trace, key) + 1
            && LostCommits(s'.trace, key) == LostCommits(s.trace, key) + 1
  {
    var steps := LostAttempt(tid, key)[2..];
    var s1 := Exec(s, BroadcastAccepted(tid, "tx"));
    var s2 := LoseSent(s, s1, tid, key);
    assert steps == [BroadcastAccepted(tid, "tx"), CommitRaises(tid, false), Step.Release(tid)];
    RunThree(s, BroadcastAccepted(tid, "tx"), CommitRaises(tid, false), Step.Release(tid));
    LoseReleased(s2, tid, key);
  }

  lemma LoseReleased(s: State, tid: nat, key: Key)
    requires s.up && s.open && HasStatus(s.rows, key, Pending)
    requires At(s, tid, Releasing) && s.threads[tid].req.key == key
    ensures var s' := Exec(s, Step.Release(tid));
            && s'.up && s'.open && key !in s'.rows && |s'.threads| == |s.threads|
            && Broadcasts(s'.trace, key) == Broadcasts(s.trace, key)
            && LostCommits(s'.trace, key) == LostCommits(s.trace, key)
  {
    CountStep(s, Step.Release(tid));
  }

  lemma RunThree(s: State, a: Step, b: Step, c: Step)
    ensures Run(s, [a, b, c]) == Exec(Exec(Exec(s, a), b), c)
  {
    assert [a, b, c][1..] == [b, c] && [b, c][1..] == [c] && [c][1..] == [];
    assert Run(Exec(s, a), [b, c]) == Run(Exec(Exec(s, a), b), [c]);
  }

  lemma LoseSent(s: State, s1: State, tid: nat, key: Key) returns (s2: State)
    requires s.up && s.open && HasStatus(s.rows, key, Pending)
    requires tid < |s.threads| && s.threads[tid] == Thread(Request(key, 1), Holding)
    requires s1 == Exec(s, BroadcastAccepted(tid, "tx"))
    ensures s2 == Exec(s1, CommitRaises(tid, false))
    ensures s2.up && s2.open && s2.rows == s.rows && |s2.threads| == |s.threads| && At(s2, tid, Releasing)
    ensures s2.threads[tid].req.key == key
    ensures Broadcasts(s2.trace, key) == Broadcasts(s.trace, key) + 1
    ensures LostCommits(s2.trace, key) == LostCommits(s.trace, key) + 1
  {
    assert s1.threads[tid] == Thread(Request(key, 1), Sent("tx"));
    s2 := Exec(s1, CommitRaises(tid, false));
    CountStep(s, BroadcastAccepted(tid, "tx"));
    CountStep(s1, CommitRaises(tid, false));
  }

  /** n lost commits, each with an accepted broadcast, and the key free again. */
  lemma {:induction false} LoseRepeatedly(n: nat, key: Key)
    ensures var s := Run(INIT, LostAttempts(n, key));
            && s.up && s.open && key !in s.rows && |s.threads| == n
            && Broadcasts(s.trace, key) == n == LostCommits(s.trace, key)
  {
    if n > 0 {
      LoseRepeatedly(n - 1, key);
      LoseOnce(Run(INIT, LostAttempts(n - 1, key)), key);
      RunConcat(INIT, LostAttempts(n - 1, key), LostAttempt(n - 1, key));
    }
  }

  /** One more request, up to its accepted broadcast. */
  function SentAttempt(tid: nat, key: Key): seq<Step> {
    [Arrive(Request(key, 1)), Enter(tid, 0.0), BroadcastAccepted(tid, "tx")]
  }

  lemma SendOnce(s: State, key: Key)
    requires s.up && s.open && key !in s.rows
    ensures var s' := Run(s, SentAttempt(|s.threads|, key));
            && Broadcasts(s'.trace, key) == Broadcasts(s.trace, key) + 1
            && LostCommits(s'.trace, key) == LostCommits(s.trace, key)
  {
    var tid := |s.threads|;
    var s2 := ClaimOnce(s, key);
    RunThree(s, Arrive(Request(key, 1)), Enter(tid, 0.0), BroadcastAccepted(tid, "tx"));
    BroadcastOnce(s2, tid, key);
  }

  lemma BroadcastOnce(s: State, tid: nat, key: Key)
    requires tid < |s.threads| && s.threads[tid] == Thread(Request(key, 1), Holding)
    ensures var s' := Exec(s, BroadcastAccepted(tid, "tx"));
            Broadcasts(s'.trace, key) == Broadcasts(s.trace, key) + 1 && LostCommits(s'.trace, key) == LostCommits(s.trace, key)
  {
    CountStep(s, BroadcastAccepted(tid, "tx"));
  }

  lemma ClaimOnce(s: State, key: Key) returns (s2: State)
    requires s.up && s.open && key !in s.rows
    ensures s2 == Exec(Exec(s, Arrive(Request(key, 1))), Enter(|s.threads|, 0.0))
    ensures |s2.threads| == |s.threads| + 1 && s2.threads[|s.threads|] == Thread(Request(key, 1), Holding)
    ensures Broadcasts(s2.trace, key) == Broadcasts(s.trace, key) && LostCommits(s2.trace, key) == LostCommits(s.trace, key)
  {
    var s1 := Exec(s, Arrive(Request(key, 1)));
    s2 := Exec(s1, Enter(|s.threads|, 0.0));
    CountStep(s, Arrive(Request(key, 1)));
    CountStep(s1, Enter(|s.threads|, 0.0));
  }

  /** The bound is met: after n lost commits a run reaches n + 1 accepted broadcasts. */
  lemma LostCommitsAllowRepeats(n: nat, key: Key)
    ensures var s := Run(INIT, LostAttempts(n, key) + SentAttempt(n, key));
            Broadcasts(s.trace, key) == n + 1 && LostCommits(s.trace, key) == n
  {
    LoseRepeatedly(n, key);
    SendOnce(Run(INIT, LostAttempts(n, key)), key);
    RunConcat(INIT, LostAttempts(n, key), SentAttempt(n, key));
  }

  // ----- committed and unknown keys -----------------------------------------------------------

  /** A key whose row is committed or unknown stays so, with the same row, and is never broadcast
      again. */
  lemma {:induction false} SettledForever(s: State, steps: seq<Step>, key: Key)
    requires Inv(s) && key in s.rows && s.rows[key].status != Pending
    ensures key in Run(s, steps).rows
    ensures Run(s, steps).rows[key].status == s.rows[key].status
    ensures Run(s, steps).rows[key].txid == s.rows[key].txid
    ensures Broadcasts(Run(s, steps).trace, key) == Broadcasts(s.trace, key)
    decreases |steps|
  {
    if steps != [] {
      InvAlways(s, [steps[0]]);
      OneStep(s, steps[0]);
      SettledStep(s, steps[0], key);
      SettledForever(Exec(s, steps[0]), steps[1..], key);
    }
  }

  lemma SettledStep(s: State, step: Step, key: Key)
    requires Inv(s) && key in s.rows && s.rows[key].status != Pending
    ensures var s' := Exec(s, step);
            && key in s'.rows && s'.rows[key].status == s.rows[key].status && s'.rows[key].txid == s.rows[key].txid
            && Broadcasts(s'.trace, key) == Broadcasts(s.trace, key)
  {
    if s.rows[key].status == Unknown {
      UnknownStays(s, step, key);
    } else {
      CommittedStays(s, step, key, s.rows[key].txid);
    }
    CountStep(s, step);
    MoverHolds(s, step);
  }

  /** Once a key is committed, through any further run every reserve on an open store returns that
      same txid; once it is unknown, every reserve raises UnresolvedIdempotency. */
  lemma ReserveAfterSettled(before: seq<Step>, after: seq<Step>, step: Step)
    requires var s := Run(INIT, before); var s' := Run(s, after);
             && step.Enter? && Enabled(s', step) && s'.open
             && Me(s', step).req.key in s.rows && s.rows[Me(s', step).req.key].status != Pending
    ensures var s := Run(INIT, before); var s' := Run(s, after); var key := Me(s', step).req.key;
            if s.rows[key].status == Status.Committed then Replied(s', step) == Duplicate(s.rows[key].txid)
            else Replied(s', step).Unresolved?
  {
    Reachable(before);
    var s := Run(INIT, before);
    SettledForever(s, after, Me(Run(s, after), step).req.key);
  }

  /** Every duplicate reply in the history of a key names one txid, the one in its row. */
  lemma DuplicatesAgree(steps: seq<Step>, key: Key, txid: Txid)
    requires Answered(key, Duplicate(txid)) in Run(INIT, steps).trace
    ensures CommittedRow(Run(INIT, steps).rows, key, txid)
    ensures BroadcastOf(Run(INIT, steps).trace, key, txid)
  {
    Reachable(steps);
    assert EventOk(Run(INIT, steps), Answered(key, Duplicate(txid)));
  }

  // ----- audit, rows and chain ----------------------------------------------------------------

  /** Audited successes are committed, committed keys were broadcast, with the same txid and amount. */
  lemma AuditedThenCommittedThenBroadcast(steps: seq<Step>)
    ensures var s := Run(INIT, steps);
            && (forall key, txid, amount, day :: Audited(SendSuccess, key, txid, amount, day) in s.trace ==>
                  CommittedRow(s.rows, key, txid) && Broadcast(key, txid, amount) in s.trace)
            && (forall key :: HasStatus(s.rows, key, Status.Committed) ==>
                  BroadcastOf(s.trace, key, s.rows[key].txid))
  {
    Reachable(steps);
    var s := Run(INIT, steps);
    forall key, txid, amount, day | Audited(SendSuccess, key, txid, amount, day) in s.trace
      ensures CommittedRow(s.rows, key, txid) && Broadcast(key, txid, amount) in s.trace
    {
      assert EventOk(s, Audited(SendSuccess, key, txid, amount, day));
    }
  }
}
