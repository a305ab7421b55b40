/** The `/send` pipeline over the in-memory store: on runs without a crash, a close or a database error
    it cannot be told from the pipeline over SQLite, so the guarantees carry over. */
module SendInMemory {
  import opened Options
  import opened Idempotency
  import opened SendPipeline
  import opened SendGuarantees
  import opened SendWakeups

  /** A step that this store has too: it has no database to fail or to survive a crash, and its close
      does nothing. */
  predicate Calm(step: Step) {
    match step
    case EnterRaises(_, _, _) => false
    case CommitRaises(_, _) => false
    case ReleaseRaises(_, _) => false
    case Close => false
    case Crash => false
    case Restart => false
    case _ => true
  }

  predicate CalmRun(steps: seq<Step>) {
    forall step :: step in steps ==> Calm(step)
  }

  /** The dictionary after the store calls of the run, made on the in-memory store instead. */
  function Dictionary(s: State, m: MemState, steps: seq<Step>): MemState
    decreases |steps|
  {
    if steps == [] then m
    else
      var next := if Enabled(s, steps[0]) && StoreCall(s, steps[0]).Some?
                  then MemStep(m, StoreCall(s, steps[0]).value).store else m;
      Dictionary(Exec(s, steps[0]), next, steps[1..])
  }

  /** A step's store call gets the same reply from either store, and leaves them related. */
  lemma CalmStep(s: State, m: MemState, step: Step)
    requires Inv(s) && Related(m, s.Store()) && Calm(step) && Enabled(s, step)
    ensures StoreCall(s, step).Some? ==>
              && MemStep(m, StoreCall(s, step).value).reply == Replied(s, step)
              && Related(MemStep(m, StoreCall(s, step).value).store, Exec(s, step).Store())
    ensures StoreCall(s, step).None? ==> Related(m, Exec(s, step).Store())
  {
    if StoreCall(s, step).Some? {
      if step.Commit? { HolderMoves(s, step); }
      StepSimulation(m, s.Store(), StoreCall(s, step).value);
    }
  }

  lemma {:induction false} CalmAlways(s: State, m: MemState, steps: seq<Step>)
    requires Inv(s) && Related(m, s.Store()) && CalmRun(steps)
    ensures Related(Dictionary(s, m, steps), Run(s, steps).Store())
    decreases |steps|
  {
    if steps != [] {
      assert Calm(steps[0]);
      if Enabled(s, steps[0]) { CalmStep(s, m, steps[0]); }
      InvAlways(s, [steps[0]]);
      OneStep(s, steps[0]);
      var next := if Enabled(s, steps[0]) && StoreCall(s, steps[0]).Some?
                  then MemStep(m, StoreCall(s, steps[0]).value).store else m;
      CalmAlways(Exec(s, steps[0]), next, steps[1..]);
    }
  }

  /** Every reply along a calm run is the one the dictionary gives, so the same schedule is a run of
      the threads over either store. */
  lemma SameReplies(steps: seq<Step>, step: Step)
    requires CalmRun(steps) && Calm(step) && Enabled(Run(INIT, steps), step) && StoreCall(Run(INIT, steps), step).Some?
    ensures MemStep(Dictionary(INIT, map[], steps), StoreCall(Run(INIT, steps), step).value).reply == Replied(Run(INIT, steps), step)
  {
    Reachable(steps);
    CalmAlways(INIT, map[], steps);
    CalmStep(Run(INIT, steps), Dictionary(INIT, map[], steps), step);
  }

  lemma {:induction false} NoFaults(s: State, steps: seq<Step>, key: Key)
    requires CalmRun(steps) && !Faulted(s.trace, key)
    ensures !Faulted(Run(s, steps).trace, key)
    decreases |steps|
  {
    if steps != [] {
      assert Calm(steps[0]);
      NoNewFault(s, steps[0], key);
      NoFaults(Exec(s, steps[0]), steps[1..], key);
    }
  }

  lemma NoNewFault(s: State, step: Step, key: Key)
    requires Calm(step) && !Faulted(s.trace, key)
    ensures !Faulted(Exec(s, step).trace, key)
  {}

  /** No wake-up is ever lost on the in-memory store: whoever is parked waits for a sentinel that
      exactly one live holder will replace or delete. */
  lemma NoLostWakeupInMemory(steps: seq<Step>, i: nat)
    requires CalmRun(steps) && At(Run(INIT, steps), i, Parked)
    ensures var s := Run(INIT, steps); var key := s.threads[i].req.key; var m := Dictionary(INIT, map[], steps);
            && key in m && m[key] == PENDING
            && exists j: nat :: IsHolder(s, j, key) && forall n: nat :: IsHolder(s, n, key) ==> n == j
  {
    NoFaults(INIT, steps, Run(INIT, steps).threads[i].req.key);
    NoLostWakeup(steps, i);
    CalmAlways(INIT, map[], steps);
  }
}
