/** Wake-ups of threads parked in `reserve`: when they come, when they are lost, and why the send lock
    makes them rare. */
module SendWakeups {
  import opened Options
  import opened Idempotency
  import opened SendPipeline
  import opened SendGuarantees

  // ----- no lost wakeup -----------------------------------------------------------------------

  /** A parked thread that nobody is going to wake on behalf of its key: the row is not pending any
      more, or no live holder is left. */
  ghost predicate Stranded(s: State, i: nat) {
    At(s, i, Parked) && !(HasStatus(s.rows, s.threads[i].req.key, Pending) && HasHolder(s, s.threads[i].req.key))
  }

  /** A parked thread waits for a pending key of an open store with exactly one live holder, unless
      a database error of the kind that costs wake-ups has hit the key. */
  lemma NoLostWakeup(steps: seq<Step>, i: nat)
    requires At(Run(INIT, steps), i, Parked)
    requires !Faulted(Run(INIT, steps).trace, Run(INIT, steps).threads[i].req.key)
    ensures !Stranded(Run(INIT, steps), i)
    ensures var s := Run(INIT, steps); var key := s.threads[i].req.key;
            && s.up && s.open && HasStatus(s.rows, key, Pending)
            && exists j: nat :: IsHolder(s, j, key) && forall m: nat :: IsHolder(s, m, key) ==> m == j
  {
    Reachable(steps);
    var s := Run(INIT, steps);
    assert WaiterOk(s, s.threads[i]);
    assert HasHolder(s, s.threads[i].req.key);
  }

  /** The step at which thread i loses its wake-up: the holder of the key it is parked on has its
      commit raise after the UPDATE took effect, or its release raise; or the thread itself comes to
      wait for a row that a database error of reserve or release has abandoned. */
  ghost predicate LosesWakeup(s: State, step: Step, i: nat) {
    && i < |s.threads| && OfThread(step) && Enabled(s, step)
    && var key := s.threads[i].req.key;
       || (At(s, i, Parked) && ((step.CommitRaises? && step.applied) || step.ReleaseRaises?) && Me(s, step).req.key == key)
       || (step.Enter? && step.tid == i && s.open && HasStatus(s.rows, key, Pending) && Abandoned(s.trace, key))
  }

  /** Exactly there, in every reachable state. */
  lemma WakeupLostIff(steps: seq<Step>, step: Step, i: nat)
    requires !Stranded(Run(INIT, steps), i)
    ensures Stranded(Exec(Run(INIT, steps), step), i) <==> LosesWakeup(Run(INIT, steps), step, i)
  {
    Reachable(steps);
    var s := Run(INIT, steps);
    var s' := Exec(s, step);
    if Enabled(s, step) && i < |s.threads| {
      ThreadMoves(s, step, i);
      var key := s.threads[i].req.key;
      if At(s, i, Parked) {
        assert WaiterOk(s, s.threads[i]);
        StrandingMove(s, step, i);
      } else if step.Enter? && step.tid == i {
        StrandingEntry(s, step);
      }
    }
  }

  lemma StrandingMove(s: State, step: Step, i: nat)
    requires Inv(s) && At(s, i, Parked) && !Stranded(s, i) && Enabled(s, step)
    ensures Stranded(Exec(s, step), i) <==> LosesWakeup(s, step, i)
  {
    var key := s.threads[i].req.key;
    var j: nat :| IsHolder(s, j, key);
    assert WaiterOk(s, s.threads[i]);
    if OfThread(step) && step.tid == j {
      HolderLeaves(s, step, i, j, key);
    } else {
      OthersSpare(s, step, i, j, key);
    }
  }

  /** Nobody but the holder can strand a thread that is parked already. */
  lemma OthersSpare(s: State, step: Step, i: nat, j: nat, key: Key)
    requires Inv(s) && At(s, i, Parked) && s.threads[i].req.key == key && HasStatus(s.rows, key, Pending)
    requires IsHolder(s, j, key) && !(OfThread(step) && step.tid == j) && Enabled(s, step)
    ensures !Stranded(Exec(s, step), i) && !LosesWakeup(s, step, i)
  {
    var s' := Exec(s, step);
    ThreadMoves(s, step, i);
    ThreadMoves(s, step, j);
    MoverHolds(s, step);
    if At(s', i, Parked) {
      assert IsHolder(s', j, key);
      RowSpared(s, step, j, key);
    }
  }

  lemma RowSpared(s: State, step: Step, j: nat, key: Key)
    requires Inv(s) && HasStatus(s.rows, key, Pending) && IsHolder(s, j, key)
    requires Enabled(s, step) && !(OfThread(step) && step.tid == j) && !step.Restart?
    ensures HasStatus(Exec(s, step).rows, key, Pending)
  {
    MoverHolds(s, step);
  }

  /** What the holder's own step does to a thread parked on its key. */
  lemma HolderLeaves(s: State, step: Step, i: nat, j: nat, key: Key)
    requires Inv(s) && At(s, i, Parked) && s.threads[i].req.key == key && s.open && HasStatus(s.rows, key, Pending)
    requires IsHolder(s, j, key) && OfThread(step) && step.tid == j && Enabled(s, step)
    ensures Stranded(Exec(s, step), i) <==> (step.CommitRaises? && step.applied) || step.ReleaseRaises?
  {
    var s' := Exec(s, step);
    ThreadMoves(s, step, i);
    ThreadMoves(s, step, j);
    if step.ReleaseRaises? {
      forall m: nat ensures !IsHolder(s', m, key) {
        if IsHolder(s', m, key) { HolderOrigin(s, step, m, key); }
      }
    } else if step.PreflightStops? || step.BroadcastFails? || step.BroadcastAccepted? || (step.CommitRaises? && !step.applied) {
      assert IsHolder(s', j, key);
    } else if step.Commit? && Replied(s, step) != Done {
      assert IsHolder(s', j, key);
    }
  }

  lemma StrandingEntry(s: State, step: Step)
    requires Inv(s) && step.Enter? && Enabled(s, step)
    ensures Stranded(Exec(s, step), step.tid) <==> LosesWakeup(s, step, step.tid)
  {
    var s', key := Exec(s, step), Me(s, step).req.key;
    forall j: nat | j != step.tid ensures IsHolder(s', j, key) <==> IsHolder(s, j, key) {
      if j < |s.threads| { ThreadMoves(s, step, j); }
    }
    assert HasHolder(s, key) ==> exists j: nat :: j != step.tid && IsHolder(s, j, key);
    if Replied(s, step) == Waiting {
      assert !IsHolder(s', step.tid, key);
      if HasHolder(s, key) {
        var j: nat :| IsHolder(s, j, key);
        assert IsHolder(s', j, key);
      }
    }
  }

  /** A new request claims the key that thread i is parked on. */
  predicate Rescues(s: State, step: Step, i: nat) {
    && i < |s.threads| && step.Enter? && Claims(s, step) && Me(s, step).req.key == s.threads[i].req.key
  }

  /** A stranded thread that stays parked stays stranded, unless a new request claims its key, which
      takes a release that raised after its DELETE; nothing else brings the wake-up back. */
  lemma StrandedUntilClaimed(steps: seq<Step>, step: Step, i: nat)
    requires Stranded(Run(INIT, steps), i) && At(Exec(Run(INIT, steps), step), i, Parked)
    ensures Stranded(Exec(Run(INIT, steps), step), i) <==> !Rescues(Run(INIT, steps), step, i)
    ensures Rescues(Run(INIT, steps), step, i) ==>
              ReleaseFault(Run(INIT, steps).threads[i].req.key, true) in Run(INIT, steps).trace
  {
    Reachable(steps);
    var s := Run(INIT, steps);
    assert WaiterOk(s, s.threads[i]);
    var key := s.threads[i].req.key;
    if Enabled(s, step) { ThreadMoves(s, step, i); }
    if Rescues(s, step, i) {
      assert IsHolder(Exec(s, step), step.tid, key);
    } else if HasStatus(s.rows, key, Status.Committed) {
      CommittedStays(s, step, key, s.rows[key].txid);
    } else if key in s.rows {
      UnheldStays(s, step, key);
    } else {
      FreeStaysUnheld(s, step, key);
    }
  }

  /** Nobody becomes the holder of a free key without claiming it. */
  lemma FreeStaysUnheld(s: State, step: Step, key: Key)
    requires HolderInv(s) && key !in s.rows && !(step.Enter? && Claims(s, step) && Me(s, step).req.key == key)
    ensures !HasHolder(Exec(s, step), key)
  {
    forall j: nat ensures !IsHolder(Exec(s, step), j, key) {
      if IsHolder(Exec(s, step), j, key) { HolderOrigin(s, step, j, key); }
    }
  }

  /** Nobody becomes the holder of a key that has a row. */
  lemma UnheldStays(s: State, step: Step, key: Key)
    requires key in s.rows && !HasHolder(s, key)
    ensures !HasHolder(Exec(s, step), key)
  {
    forall j: nat ensures !IsHolder(Exec(s, step), j, key) {
      if IsHolder(Exec(s, step), j, key) { HolderOrigin(s, step, j, key); }
    }
  }

  /** Two requests for one key; the second waits for the first. */
  function TwoRequests(key: Key): seq<Step> {
    [Arrive(Request(key, 1)), Arrive(Request(key, 1)), Enter(0, 0.0), Enter(1, 0.0)]
  }

  lemma SecondWaits(key: Key)
    ensures var s := Run(INIT, TwoRequests(key));
            && s.up && s.open && s.threads == [Thread(Request(key, 1), Holding), Thread(Request(key, 1), Parked)]
            && s.rows == map[key := Row(Pending, "", 0.0)]
  {
    var r := Request(key, 1);
    var arrived := [Arrive(r), Arrive(r)];
    RunPair(INIT, Arrive(r), Arrive(r));
    assert Run(INIT, arrived).threads == [Thread(r, AtReserve), Thread(r, AtReserve)];
    RunPair(Run(INIT, arrived), Enter(0, 0.0), Enter(1, 0.0));
    RunConcat(INIT, arrived, [Enter(0, 0.0), Enter(1, 0.0)]);
    assert TwoRequests(key) == arrived + [Enter(0, 0.0), Enter(1, 0.0)];
    BothEnter(Run(INIT, arrived), r);
  }

  lemma BothEnter(s: State, r: Request)
    requires s.up && s.open && s.threads == [Thread(r, AtReserve), Thread(r, AtReserve)] && s.rows == map[]
    ensures var s' := Exec(Exec(s, Enter(0, 0.0)), Enter(1, 0.0));
            && s'.up && s'.open && s'.threads == [Thread(r, Holding), Thread(r, Parked)]
            && s'.rows == map[r.key := Row(Pending, "", 0.0)]
  {
    assert Exec(s, Enter(0, 0.0)).threads == [Thread(r, Holding), Thread(r, AtReserve)];
  }

  lemma RunPair(s: State, a: Step, b: Step)
    ensures Run(s, [a, b]) == Exec(Exec(s, a), b)
  {
    assert [a, b][1..] == [b] && [b][1..] == [];
    assert Run(Exec(s, a), [b]) == Run(Exec(Exec(s, a), b), []);
  }

  lemma NobodyHolds(s: State, key: Key)
    requires forall i :: 0 <= i < |s.threads| ==> !Holds(s.threads[i].pc)
    ensures !HasHolder(s, key)
  {}

  /** A commit that raises after its UPDATE took effect does lose the wake-up: the release then
      deletes nothing and notifies nobody, and the waiter sits on a committed key. */
  lemma LateCommitErrorLosesWakeup(key: Key)
    ensures var s := Run(INIT, TwoRequests(key) + [BroadcastAccepted(0, "tx"), CommitRaises(0, true), Step.Release(0)]);
            Stranded(s, 1) && CommittedRow(s.rows, key, "tx") && !HasHolder(s, key)
  {
    SecondWaits(key);
    var s := Run(INIT, TwoRequests(key));
    RunConcat(INIT, TwoRequests(key), [BroadcastAccepted(0, "tx"), CommitRaises(0, true), Step.Release(0)]);
    RunThree(s, BroadcastAccepted(0, "tx"), CommitRaises(0, true), Step.Release(0));
    LateCommitError(s, key);
  }

  lemma LateCommitError(s: State, key: Key)
    requires s.open && s.threads == [Thread(Request(key, 1), Holding), Thread(Request(key, 1), Parked)]
    requires HasStatus(s.rows, key, Pending)
    ensures var s' := Exec(Exec(Exec(s, BroadcastAccepted(0, "tx")), CommitRaises(0, true)), Step.Release(0));
            Stranded(s', 1) && CommittedRow(s'.rows, key, "tx") && !HasHolder(s', key)
  {
    var s1 := Exec(s, BroadcastAccepted(0, "tx"));
    assert s1.threads == [Thread(Request(key, 1), Sent("tx")), Thread(Request(key, 1), Parked)];
    var s2 := Exec(s1, CommitRaises(0, true));
    assert s2.threads == [Thread(Request(key, 1), Releasing), Thread(Request(key, 1), Parked)];
    var s3 := Exec(s2, Step.Release(0));
    assert s3.threads == [Thread(Request(key, 1), Finished), Thread(Request(key, 1), Parked)];
    NobodyHolds(s3, key);
  }

  /** So does a release that raises, before its DELETE, which leaves the row pending in nobody's
      hands, or after it, which leaves the key free and nobody notified. */
  lemma ReleaseErrorLosesWakeup(key: Key, applied: bool)
    ensures var s := Run(INIT, TwoRequests(key) + [PreflightStops(0, [], 0), ReleaseRaises(0, applied)]);
            && s.threads == [Thread(Request(key, 1), Finished), Thread(Request(key, 1), Parked)] && s.up && s.open
            && Stranded(s, 1) && !HasHolder(s, key) && if applied then key !in s.rows else HasStatus(s.rows, key, Pending)
  {
    SecondWaits(key);
    var s := Run(INIT, TwoRequests(key));
    RunConcat(INIT, TwoRequests(key), [PreflightStops(0, [], 0), ReleaseRaises(0, applied)]);
    RunPair(s, PreflightStops(0, [], 0), ReleaseRaises(0, applied));
    var s1 := Exec(s, PreflightStops(0, [], 0));
    assert s1.threads == [Thread(Request(key, 1), Releasing), Thread(Request(key, 1), Parked)];
    var s2 := Exec(s1, ReleaseRaises(0, applied));
    assert s2.threads == [Thread(Request(key, 1), Finished), Thread(Request(key, 1), Parked)];
    NobodyHolds(s2, key);
  }

  /** And a reserve that raises after its INSERT: the next request parks on a row nobody holds. */
  lemma ReserveErrorLosesWakeup(key: Key)
    ensures var r := Request(key, 1);
            var s := Run(INIT, [Arrive(r), Arrive(r)] + [EnterRaises(0, 0.0, true), Enter(1, 0.0)]);
            Stranded(s, 1) && HasStatus(s.rows, key, Pending) && !HasHolder(s, key)
  {
    var r := Request(key, 1);
    var arrived, entered := [Arrive(r), Arrive(r)], [EnterRaises(0, 0.0, true), Enter(1, 0.0)];
    RunPair(INIT, Arrive(r), Arrive(r));
    var s := Run(INIT, arrived);
    assert s.threads == [Thread(r, AtReserve), Thread(r, AtReserve)];
    RunPair(s, EnterRaises(0, 0.0, true), Enter(1, 0.0));
    RunConcat(INIT, arrived, entered);
    BothEnterAfterError(s, r);
  }

  lemma BothEnterAfterError(s: State, r: Request)
    requires s.up && s.open && s.threads == [Thread(r, AtReserve), Thread(r, AtReserve)] && s.rows == map[]
    ensures var s' := Exec(Exec(s, EnterRaises(0, 0.0, true)), Enter(1, 0.0));
            Stranded(s', 1) && HasStatus(s'.rows, r.key, Pending) && !HasHolder(s', r.key)
  {
    assert Exec(s, EnterRaises(0, 0.0, true)).threads == [Thread(r, Finished), Thread(r, AtReserve)];
    var s' := Exec(Exec(s, EnterRaises(0, 0.0, true)), Enter(1, 0.0));
    assert s'.threads == [Thread(r, Finished), Thread(r, Parked)];
    NobodyHolds(s', r.key);
  }

  /** The one way back: after a release that raised too late a third request claims the key, and its
      own release wakes the thread that was stranded. */
  lemma ClaimRescues(key: Key)
    ensures var s := Run(INIT, TwoRequests(key) + [PreflightStops(0, [], 0), ReleaseRaises(0, true)]);
            var s' := Run(s, [Arrive(Request(key, 1)), Enter(2, 0.0)]);
            && Stranded(s, 1) && At(s', 1, Parked) && !Stranded(s', 1)
            && At(Run(s', [PreflightStops(2, [], 0), Step.Release(2)]), 1, Woken)
  {
    ReleaseErrorLosesWakeup(key, true);
    var s := Run(INIT, TwoRequests(key) + [PreflightStops(0, [], 0), ReleaseRaises(0, true)]);
    Rescued(s, key);
  }

  lemma Rescued(s: State, key: Key)
    requires s.up && s.open && key !in s.rows
    requires s.threads == [Thread(Request(key, 1), Finished), Thread(Request(key, 1), Parked)]
    ensures var s' := Run(s, [Arrive(Request(key, 1)), Enter(2, 0.0)]);
            && At(s', 1, Parked) && !Stranded(s', 1)
            && At(Run(s', [PreflightStops(2, [], 0), Step.Release(2)]), 1, Woken)
  {
    var r := Request(key, 1);
    RunPair(s, Arrive(r), Enter(2, 0.0));
    assert Exec(s, Arrive(r)).threads == [Thread(r, Finished), Thread(r, Parked), Thread(r, AtReserve)];
    var s' := Run(s, [Arrive(r), Enter(2, 0.0)]);
    assert s'.threads == [Thread(r, Finished), Thread(r, Parked), Thread(r, Holding)];
    assert IsHolder(s', 2, key);
    RunPair(s', PreflightStops(2, [], 0), Step.Release(2));
    assert Exec(s', PreflightStops(2, [], 0)).threads == [Thread(r, Finished), Thread(r, Parked), Thread(r, Releasing)];
  }

  /** How far a holder is from giving its key up. */
  function Remaining(pc: PC): nat {
    match pc
    case Holding => 3
    case Sent(_) => 2
    case Releasing => 1
    case _ => 0
  }

  /** A holder can always move, and every move of it that is not a database error brings it closer
      to the end or wakes every thread parked on its key. */
  lemma HolderWakesWaiters(s: State, step: Step, i: nat, j: nat, key: Key)
    requires Inv(s) && At(s, i, Parked) && s.threads[i].req.key == key && IsHolder(s, j, key)
    requires s.open && HasStatus(s.rows, key, Pending)
    ensures Enabled(s, PreflightStops(j, [], 0)) || Enabled(s, Step.Commit(j)) || Enabled(s, Step.Release(j))
    ensures OfThread(step) && step.tid == j && Enabled(s, step) && !step.CommitRaises? && !step.ReleaseRaises? ==>
              var s' := Exec(s, step);
              || (s'.threads[i].pc == Woken && !IsHolder(s', j, key))
              || (s'.threads[i].pc == Parked && IsHolder(s', j, key)
                  && Remaining(s'.threads[j].pc) < Remaining(s.threads[j].pc))
  {
    if OfThread(step) && step.tid == j && Enabled(s, step) && !step.CommitRaises? && !step.ReleaseRaises? {
      HolderProgress(s, step, i, j, key);
    }
  }

  lemma HolderProgress(s: State, step: Step, i: nat, j: nat, key: Key)
    requires HolderInv(s) && At(s, i, Parked) && IsHolder(s, j, key) && s.open && HasStatus(s.rows, key, Pending)
    requires OfThread(step) && step.tid == j && Enabled(s, step) && !step.CommitRaises? && !step.ReleaseRaises?
    ensures var s' := Exec(s, step);
            || (s'.threads[i].pc == Woken && !IsHolder(s', j, key))
            || (s'.threads[i].pc == Parked && IsHolder(s', j, key)
                && Remaining(s'.threads[j].pc) < Remaining(s.threads[j].pc))
  {
    ThreadMoves(s, step, i);
    ThreadMoves(s, step, j);
  }

  /** What a woken thread of an open store finds: the committed txid, a free slot, or another holder
      to wait for; never an unknown key. */
  lemma WokenThreadSees(steps: seq<Step>, step: Step)
    requires var s := Run(INIT, steps);
             s.open && step.Enter? && Enabled(s, step) && Me(s, step).pc == Woken
    ensures var s := Run(INIT, steps); var key := Me(s, step).req.key;
            match Replied(s, step)
            case Claimed => key !in s.rows && IsHolder(Exec(s, step), step.tid, key)
            case Duplicate(txid) => CommittedRow(s.rows, key, txid) && BroadcastOf(s.trace, key, txid)
            case Waiting => HasHolder(s, key) || Abandoned(s.trace, key)
            case _ => false
  {
    Reachable(steps);
    var s := Run(INIT, steps);
    assert WaiterOk(s, Me(s, step));
  }

  // ----- the send lock ------------------------------------------------------------------------

  /** The thread is inside `_send_impl`, past the entry of `with _send_lock`. */
  predicate Inside(pc: PC) {
    Live(pc) && pc != AtReserve
  }

  /** Under `_send_lock` a thread starts reserve only when no other is inside. */
  predicate LockAllows(s: State, step: Step) {
    step.Enter? || step.EnterRaises? ==> forall i | 0 <= i < |s.threads| :: Inside(s.threads[i].pc) ==> i == step.tid
  }

  function RunLocked(s: State, steps: seq<Step>): State
    decreases |steps|
  {
    if steps == [] then s
    else RunLocked(if LockAllows(s, steps[0]) then Exec(s, steps[0]) else s, steps[1..])
  }

  ghost predicate LockInv(s: State) {
    && (forall i, j ::
          (0 <= i < |s.threads| && 0 <= j < |s.threads| && Inside(s.threads[i].pc) && Inside(s.threads[j].pc))
          ==> i == j)
    && (forall i :: 0 <= i < |s.threads| ==> WaitsOnFault(s, s.threads[i]))
    && (forall key :: Answered(key, Conflict) in s.trace ==> Abandoned(s.trace, key))
  }

  ghost predicate WaitsOnFault(s: State, t: Thread) {
    t.pc == Parked || t.pc == Woken ==> Abandoned(s.trace, t.req.key)
  }

  lemma LockKept(s: State, step: Step)
    requires Inv(s) && LockInv(s) && LockAllows(s, step)
    ensures LockInv(Exec(s, step))
  {
    var s' := Exec(s, step);
    if Enabled(s, step) {
      OneInside(s, step);
      forall i: nat | i < |s'.threads|
        ensures WaitsOnFault(s', s'.threads[i])
      {
        ThreadMoves(s, step, i);
        if step.Enter? && step.tid == i && Replied(s, step) == Waiting { NobodyElseHolds(s, step); }
      }
      forall key | Answered(key, Conflict) in s'.trace
        ensures Abandoned(s'.trace, key)
      {
        if Answered(key, Conflict) !in s.trace {
          assert Answered(key, Conflict) in Logged(s, step);
          assert step.TimeOut? && WaitsOnFault(s, Me(s, step));
        }
      }
    }
  }

  lemma NobodyElseHolds(s: State, step: Step)
    requires Inv(s) && LockInv(s) && LockAllows(s, step)
    requires step.Enter? && Enabled(s, step) && Replied(s, step) == Waiting
    ensures Abandoned(s.trace, Me(s, step).req.key)
  {
    var key := Me(s, step).req.key;
    assert HasStatus(s.rows, key, Pending);
    forall j: nat ensures IsHolder(s, j, key) ==> j == step.tid {
      if j < |s.threads| { assert Inside(s.threads[j].pc) ==> j == step.tid; }
    }
    assert !IsHolder(s, step.tid, key);
  }

  lemma OneInside(s: State, step: Step)
    requires LockInv(s) && LockAllows(s, step) && Enabled(s, step)
    ensures var s' := Exec(s, step);
            forall i, j ::
              (0 <= i < |s'.threads| && 0 <= j < |s'.threads| && Inside(s'.threads[i].pc) && Inside(s'.threads[j].pc))
              ==> i == j
  {
    var s' := Exec(s, step);
    forall i: nat | i < |s'.threads| && Inside(s'.threads[i].pc)
      ensures i < |s.threads| && (Inside(s.threads[i].pc) || (step.Enter? && step.tid == i))
    {
      ThreadMoves(s, step, i);
    }
  }

  lemma {:induction false} LockAlways(s: State, steps: seq<Step>)
    requires Inv(s) && LockInv(s)
    ensures Inv(RunLocked(s, steps)) && LockInv(RunLocked(s, steps))
    decreases |steps|
  {
    if steps != [] {
      var s' := if LockAllows(s, steps[0]) then Exec(s, steps[0]) else s;
      InvAlways(s, [steps[0]]);
      OneStep(s, steps[0]);
      if LockAllows(s, steps[0]) { LockKept(s, steps[0]); }
      LockAlways(s', steps[1..]);
    }
  }

  /** With the send lock the waiting branch of reserve is dead: no thread parks, and no caller gets
      IdempotencyConflict, except on a key whose row a database error of reserve or release abandoned. */
  lemma SendLockMeansNoWaiting(steps: seq<Step>, key: Key)
    requires !Abandoned(RunLocked(INIT, steps).trace, key)
    ensures var s := RunLocked(INIT, steps);
            && Answered(key, Conflict) !in s.trace
            && forall i :: 0 <= i < |s.threads| && s.threads[i].req.key == key ==> s.threads[i].pc != Parked
  {
    LockAlways(INIT, steps);
  }

  lemma {:induction false} LockedConcat(s: State, a: seq<Step>, b: seq<Step>)
    ensures RunLocked(s, a + b) == RunLocked(RunLocked(s, a), b)
    decreases |a|
  {
    if a == [] {
      assert a + b == b;
    } else {
      assert (a + b)[0] == a[0] && (a + b)[1..] == a[1..] + b;
      LockedConcat(if LockAllows(s, a[0]) then Exec(s, a[0]) else s, a[1..], b);
    }
  }

  lemma LockedSnoc(steps: seq<Step>, s: State, a: Step)
    requires RunLocked(INIT, steps) == s && LockAllows(s, a)
    ensures RunLocked(INIT, steps + [a]) == Exec(s, a)
  {
    LockedConcat(INIT, steps, [a]);
    assert RunLocked(Exec(s, a), [a][1..]) == Exec(s, a);
  }

  /** One request under the lock, holding its key. */
  lemma FirstHolds(key: Key) returns (steps: seq<Step>, s: State)
    ensures s == RunLocked(INIT, steps) && s.up && s.open
    ensures s.threads == [Thread(Request(key, 1), Holding)] && HasStatus(s.rows, key, Pending)
  {
    var r := Request(key, 1);
    var s0 := Exec(INIT, Arrive(r));
    LockedSnoc([], INIT, Arrive(r));
    assert s0.threads == [Thread(r, AtReserve)];
    s := Exec(s0, Enter(0, 0.0));
    LockedSnoc([] + [Arrive(r)], s0, Enter(0, 0.0));
    steps := [] + [Arrive(r)] + [Enter(0, 0.0)];
    assert s.threads == [Thread(r, Holding)];
  }

  /** Its preflight stops and its release raises. */
  lemma FailedRelease(key: Key) returns (steps: seq<Step>, s: State)
    ensures s == RunLocked(INIT, steps) && s.up && s.open
    ensures s.threads == [Thread(Request(key, 1), Finished)] && HasStatus(s.rows, key, Pending)
  {
    var held, s1 := FirstHolds(key);
    var s2 := Exec(s1, PreflightStops(0, [], 0));
    LockedSnoc(held, s1, PreflightStops(0, [], 0));
    steps := held + [PreflightStops(0, [], 0)];
    assert s2.threads == [Thread(Request(key, 1), Releasing)];
    s := Exec(s2, ReleaseRaises(0, false));
    LockedSnoc(steps, s2, ReleaseRaises(0, false));
    steps := steps + [ReleaseRaises(0, false)];
  }

  /** A reserve whose INSERT took effect before it raised. */
  lemma FailedReserve(key: Key) returns (steps: seq<Step>, s: State)
    ensures s == RunLocked(INIT, steps) && s.up && s.open
    ensures s.threads == [Thread(Request(key, 1), Finished)] && HasStatus(s.rows, key, Pending)
  {
    var r := Request(key, 1);
    var s0 := Exec(INIT, Arrive(r));
    LockedSnoc([], INIT, Arrive(r));
    assert s0.threads == [Thread(r, AtReserve)];
    s := Exec(s0, EnterRaises(0, 0.0, true));
    LockedSnoc([] + [Arrive(r)], s0, EnterRaises(0, 0.0, true));
    steps := [] + [Arrive(r)] + [EnterRaises(0, 0.0, true)];
    assert s.threads == [Thread(r, Finished)];
  }

  /** Both exceptions are real: after one reserve or release that abandons the row, the next request
      for the key parks under the lock and gets IdempotencyConflict when its wait times out. */
  lemma AbandonedMeansWaiting(key: Key, byReserve: bool) returns (parked: seq<Step>)
    ensures At(RunLocked(INIT, parked), 1, Parked) && RunLocked(INIT, parked).threads[1].req.key == key
    ensures Answered(key, Conflict) in RunLocked(INIT, parked + [TimeOut(1)]).trace
  {
    var steps, s;
    if byReserve { steps, s := FailedReserve(key); } else { steps, s := FailedRelease(key); }
    parked := NextParks(steps, s, key);
  }

  lemma NextParks(before: seq<Step>, s: State, key: Key) returns (parked: seq<Step>)
    requires s == RunLocked(INIT, before) && s.up && s.open
    requires s.threads == [Thread(Request(key, 1), Finished)] && HasStatus(s.rows, key, Pending)
    ensures At(RunLocked(INIT, parked), 1, Parked) && RunLocked(INIT, parked).threads[1].req.key == key
    ensures Answered(key, Conflict) in RunLocked(INIT, parked + [TimeOut(1)]).trace
  {
    var r := Request(key, 1);
    var s1 := Exec(s, Arrive(r));
    LockedSnoc(before, s, Arrive(r));
    var steps := before + [Arrive(r)];
    assert s1.threads == [Thread(r, Finished), Thread(r, AtReserve)];
    var s2 := Exec(s1, Enter(1, 0.0));
    LockedSnoc(steps, s1, Enter(1, 0.0));
    parked := steps + [Enter(1, 0.0)];
    assert s2.threads == [Thread(r, Finished), Thread(r, Parked)];
    LockedSnoc(parked, s2, TimeOut(1));
    assert Answered(key, Conflict) in Logged(s2, TimeOut(1));
  }
}
