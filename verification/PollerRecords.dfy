/** When RECEIPT_RESOLVED is written more than once: `stop` in `skr_crypto/server/receipt_poller.py`
    waits five seconds, an RPC may take longer, and a poll that comes back to a closed connection still
    writes its record. */
module PollerRecords {
  import opened OldestFirst
  import opened Options
  import opened ReceiptPoller

  /** Every record about x, written or about to be, is the one its resolved row allows. */
  predicate Accounted(s: State, x: Txid) {
    Claims(s, x) <= if Resolved(s.table, x) then 1 else 0
  }

  /** The step is a stop that cuts off a poll of x with a terminal answer. */
  predicate CutsPoll(k: Settings, s: State, e: Step, x: Txid) {
    e.Stop? && s.asked.Some? && Verdict(k, s.asked.value).Some? && s.asked.value.c.txid == x
  }

  lemma {:induction false} CutOffReports(k: Settings, s: State, x: Txid)
    ensures Reports(CutOff(k, s), x) ==
            if s.asked.Some? && Verdict(k, s.asked.value).Some? && s.asked.value.c.txid == x then 1 else 0
  {
    var cut := CutOff(k, s);
    if cut != [] { assert Reports(cut[..0], x) == 0; }
  }

  /** Exactly there accounts go wrong. */
  lemma AccountedStep(k: Settings, s: State, e: Step, x: Txid)
    requires Sound(s) && Accounted(s, x)
    ensures Accounted(Exec(k, s, e), x) <==> !CutsPoll(k, s, e, x)
  {
    ClaimsStep(k, s, e, x);
    CutOffReports(k, s, x);
  }

  /** The polls of x that a stop has cut off so far. */
  lemma CutsCounted(k: Settings, s: State, e: Step, x: Txid)
    ensures Reports(Exec(k, s, e).cut, x) == Reports(s.cut, x) + if CutsPoll(k, s, e, x) then 1 else 0
  {
    ClaimsStep(k, s, e, x);
    CutOffReports(k, s, x);
  }

  lemma EarlierCommits(k: Settings, s: State, steps: seq<Step>)
    requires steps != [] && OneTxidPerKey(k, Run(k, s, steps).commits)
    ensures OneTxidPerKey(k, Run(k, s, steps[..|steps| - 1]).commits)
  {
    CommitsGrow(k, Run(k, s, steps[..|steps| - 1]), steps[|steps| - 1]);
  }

  /** A run that cuts no poll of x keeps its accounts. */
  lemma {:induction false} AccountedAlong(k: Settings, s: State, steps: seq<Step>, x: Txid)
    requires Sound(s) && Accounted(s, x) && OneTxidPerKey(k, Run(k, s, steps).commits)
    requires Reports(Run(k, s, steps).cut, x) == Reports(s.cut, x)
    ensures Accounted(Run(k, s, steps), x)
  {
    if steps != [] {
      var before, e := steps[..|steps| - 1], steps[|steps| - 1];
      EarlierCommits(k, s, steps);
      CutsOnlyGrow(k, s, before, x);
      CutsCounted(k, Run(k, s, before), e, x);
      AccountedAlong(k, s, before, x);
      SoundAlways(k, s, before);
      AccountedStep(k, Run(k, s, before), e, x);
    }
  }

  lemma {:induction false} CutsOnlyGrow(k: Settings, s: State, steps: seq<Step>, x: Txid)
    ensures Reports(Run(k, s, steps).cut, x) >= Reports(s.cut, x)
  {
    if steps != [] {
      CutsOnlyGrow(k, s, steps[..|steps| - 1], x);
      CutsCounted(k, Run(k, s, steps[..|steps| - 1]), steps[|steps| - 1], x);
    }
  }

  // ----- what goes wrong afterwards -----------------------------------------------------------

  /** The run goes on without a further cut of x, and without two keys getting one txid. */
  ghost predicate GoesOn(k: Settings, s: State, more: seq<Step>, x: Txid) {
    && OneTxidPerKey(k, Run(k, s, more).commits)
    && Reports(Run(k, s, more).cut, x) == Reports(s.cut, x)
  }

  /** However it goes on, x is reported at most once. */
  ghost predicate OnceForEver(k: Settings, s: State, x: Txid) {
    forall more :: GoesOn(k, s, more, x) ==> Reports(Run(k, s, more).emitted, x) <= 1
  }

  lemma RunCons(k: Settings, s: State, e: Step, rest: seq<Step>)
    ensures Run(k, s, [e] + rest) == Run(k, Exec(k, s, e), rest)
  {
    RunConcat(k, s, [e], rest);
    assert Run(k, s, [e]) == Exec(k, Run(k, s, []), e);
  }

  /** One record on its way is written. */
  lemma FlushOne(k: Settings, s: State, x: Txid) returns (e: Step)
    requires s.due.Some? || s.late != []
    ensures var s' := Exec(k, s, e);
            && s'.commits == s.commits && s'.table == s.table && s'.cut == s.cut
            && Claims(s', x) == Claims(s, x)
            && |s'.late| + |Listed(s'.due)| < |s.late| + |Listed(s.due)|
  {
    if s.due.Some? {
      e := Emit(true);
      ReportsConcat(s.emitted, [s.due.value], x);
    } else {
      e := LateEmit(0, true);
      ReportsWithout(s.late, 0, x);
      ReportsConcat(s.emitted, [s.late[0]], x);
    }
  }

  /** All records on their way are written. */
  lemma {:induction false} Flush(k: Settings, s: State, x: Txid) returns (steps: seq<Step>)
    ensures var s' := Run(k, s, steps);
            && s'.commits == s.commits && s'.table == s.table && s'.cut == s.cut
            && Reports(s'.emitted, x) == Claims(s, x)
    decreases |s.late| + |Listed(s.due)|
  {
    steps := [];
    if s.due.Some? || s.late != [] {
      var e := FlushOne(k, s, x);
      var rest := Flush(k, Exec(k, s, e), x);
      RunCons(k, s, e, rest);
      steps := [e] + rest;
    }
  }

  /** From any state an unresolved, committed txid can be reached by a poll with a terminal answer:
      other rows that come first resolve one by one. */
  lemma {:induction false} ReachAsk(k: Settings, s: State, i: nat, now: real) returns (steps: seq<Step>)
    requires k.batch > 0 && i < |s.commits| && !Resolved(s.table, s.commits[i].txid)
    ensures var s' := Run(k, s, steps);
            && s'.commits == s.commits && s'.emitted == s.emitted && s'.late == s.late && s'.cut == s.cut
            && s'.due.None? && !Resolved(s'.table, s.commits[i].txid)
            && s'.asked.Some? && s'.asked.value.c.txid == s.commits[i].txid && Verdict(k, s'.asked.value).Some?
    decreases |Candidates(s.commits, s.table, s.commits[i].committedAt)|
  {
    var x, cutoff := s.commits[i].txid, s.commits[i].committedAt;
    var all := Candidates(s.commits, s.table, cutoff);
    assert i in all;
    var sel := FirstExists(all, k.batch);
    assert |sel| > 0 && sel[0] in all;
    var p := Probe(now, Info("", Some(1)));
    steps := [Halt, Pick(cutoff, sel), Ask(p)];
    PickTakes(k, Exec(k, s, Halt), cutoff, sel);
    var s1 := AskHead(k, s, Pick(cutoff, sel), Snapshots(s.commits, s.table, sel), p);
    Succeeds(k, s1.asked.value);
    if s.commits[sel[0]].txid != x {
      var s2 := Exec(k, s1, Store);
      FewerCandidates(s.commits, s.table, s2.table, cutoff, sel[0]);
      var rest := ReachAsk(k, s2, i, now);
      RunConcat(k, s, steps, [Store]);
      assert Run(k, s1, [Store]) == Exec(k, Run(k, s1, []), Store);
      RunConcat(k, s, steps + [Store], rest);
      steps := steps + [Store] + rest;
    }
  }

  lemma PickTakes(k: Settings, s: State, cutoff: real, sel: seq<nat>)
    requires s.queue == [] && s.asked.None? && s.due.None?
    requires Within(s.commits, sel) && FirstOf(Candidates(s.commits, s.table, cutoff), k.batch, sel)
    ensures Exec(k, s, Pick(cutoff, sel)) == s.(queue := Snapshots(s.commits, s.table, sel))
  {}

  /** After a halt and a pick, the head of the batch is polled. */
  lemma AskHead(k: Settings, s: State, pick: Step, cands: seq<Candidate>, p: Probe) returns (s1: State)
    requires cands != [] && Exec(k, Exec(k, s, Halt), pick) == s.(queue := cands, asked := None, due := None)
    ensures s1 == Run(k, s, [Halt, pick, Ask(p)])
    ensures s1 == s.(queue := cands[1..], asked := Some(Asked(cands[0], p)), due := None)
  {
    RunThree(k, s, Halt, pick, Ask(p));
    s1 := Exec(k, s.(queue := cands, asked := None, due := None), Ask(p));
  }

  lemma Succeeds(k: Settings, a: Asked)
    requires a.probe.answer == Info("", Some(1))
    ensures Verdict(k, a).Some?
  {
    assert Classify(a.probe.answer) == ("SUCCESS", Some(1));
  }

  /** Resolving a row takes it out of the candidates. */
  lemma FewerCandidates(commits: seq<Commit>, t: Table, t': Table, cutoff: real, head: nat)
    requires head in Candidates(commits, t, cutoff) && Resolved(t', commits[head].txid)
    requires forall y :: Resolved(t, y) ==> Resolved(t', y)
    ensures |Candidates(commits, t', cutoff)| < |Candidates(commits, t, cutoff)|
  {
    var all, fewer := Candidates(commits, t, cutoff), Candidates(commits, t', cutoff);
    assert head !in fewer;
    assert fewer.Keys <= all.Keys - {head};
    SubsetCard(fewer.Keys, all.Keys - {head});
  }

  /** One more record, of a poll that nothing cuts. */
  lemma ReportAgain(k: Settings, s: State, i: nat) returns (steps: seq<Step>)
    requires k.batch > 0 && i < |s.commits| && !Resolved(s.table, s.commits[i].txid)
    ensures var s' := Run(k, s, steps);
            && s'.commits == s.commits && s'.cut == s.cut
            && Reports(s'.emitted, s.commits[i].txid) == Reports(s.emitted, s.commits[i].txid) + 1
  {
    var asks := ReachAsk(k, s, i, 0.0);
    var s1 := Run(k, s, asks);
    var s2 := Exec(k, s1, Store);
    steps := asks + [Store, Emit(true)];
    RunConcat(k, s, asks, [Store, Emit(true)]);
    assert [Store, Emit(true)][..1] == [Store];
    assert Run(k, s1, [Store]) == Exec(k, Run(k, s1, []), Store);
    ReportsConcat(s2.emitted, [s2.due.value], s.commits[i].txid);
    OneReport(s2.due.value);
  }

  lemma OneReport(e: Emission)
    ensures Reports([e], e.txid) == 1
  {
    assert [e][..0] == [];
  }

  lemma {:induction false} ReportFound(es: seq<Emission>, x: Txid) returns (e: Emission)
    requires Reports(es, x) > 0
    ensures e in es && e.txid == x
  {
    if es[|es| - 1].txid == x { e := es[|es| - 1]; } else { e := ReportFound(es[..|es| - 1], x); }
  }

  /** Nobody polls, and so nobody reports, with an empty batch. */
  ghost predicate Idle(s: State) {
    s.queue == [] && s.asked.None? && s.due.None? && s.late == [] && s.emitted == []
  }

  lemma {:induction false} EmptyBatchIsIdle(k: Settings, commits: seq<Commit>, steps: seq<Step>)
    requires k.batch == 0
    ensures Idle(Run(k, Fresh(commits), steps))
  {
    if steps != [] { EmptyBatchIsIdle(k, commits, steps[..|steps| - 1]); }
  }

  /** A txid with a record belongs to a commit. */
  lemma ReportedIsCommitted(s: State, x: Txid) returns (i: nat)
    requires AllPaired(s) && Claims(s, x) > 0
    ensures i < |s.commits| && s.commits[i].txid == x
  {
    var e: Emission;
    if Reports(s.emitted, x) > 0 {
      e := ReportFound(s.emitted, x);
    } else if Reports(s.late, x) > 0 {
      e := ReportFound(s.late, x);
    } else {
      e := ReportFound(Listed(s.due), x);
    }
    assert Paired(s.commits, e.txid, e.key);
    i :| 0 <= i < |s.commits| && s.commits[i].txid == e.txid && s.commits[i].key == e.key;
  }

  /** In every reachable state, accounts are right if and only if x is reported at most once however
      the run goes on without cutting a poll of x. */
  lemma AccountedIff(k: Settings, commits: seq<Commit>, steps: seq<Step>, x: Txid)
    requires OneTxidPerKey(k, Run(k, Fresh(commits), steps).commits)
    ensures Accounted(Run(k, Fresh(commits), steps), x) <==> OnceForEver(k, Run(k, Fresh(commits), steps), x)
  {
    var s := Run(k, Fresh(commits), steps);
    SoundAlways(k, Fresh(commits), steps);
    if Accounted(s, x) {
      forall more | GoesOn(k, s, more, x) ensures Reports(Run(k, s, more).emitted, x) <= 1 {
        AccountedAlong(k, s, more, x);
      }
    } else {
      var more := SecondReport(k, commits, steps, x);
      assert GoesOn(k, s, more, x);
    }
  }

  lemma SecondReport(k: Settings, commits: seq<Commit>, steps: seq<Step>, x: Txid) returns (more: seq<Step>)
    requires !Accounted(Run(k, Fresh(commits), steps), x)
    ensures var s := Run(k, Fresh(commits), steps);
            var s' := Run(k, s, more);
            s'.commits == s.commits && s'.cut == s.cut && Reports(s'.emitted, x) >= 2
  {
    var s := Run(k, Fresh(commits), steps);
    KeysBelong(k, commits, steps);
    if k.batch == 0 { EmptyBatchIsIdle(k, commits, steps); }
    var i := ReportedIsCommitted(s, x);
    more := Flush(k, s, x);
    var s1 := Run(k, s, more);
    if !Resolved(s.table, x) {
      var again := ReportAgain(k, s1, i);
      RunConcat(k, s, more, again);
      more := more + again;
    }
  }

  /** From every point of the run on, x is reported at most once however it goes on. */
  ghost predicate OnceAlong(k: Settings, commits: seq<Commit>, steps: seq<Step>, x: Txid) {
    && OnceForEver(k, Run(k, Fresh(commits), steps), x)
    && (steps != [] ==> OnceAlong(k, commits, steps[..|steps| - 1], x))
  }

  /** At most once, exactly: no stop of the run cuts off a poll of x with a terminal answer if and only
      if from every point of the run on, x is reported at most once however it goes on without such a
      cut. */
  lemma {:induction false} ReportedOnceIff(k: Settings, commits: seq<Commit>, steps: seq<Step>, x: Txid)
    requires OneTxidPerKey(k, Run(k, Fresh(commits), steps).commits)
    ensures Reports(Run(k, Fresh(commits), steps).cut, x) == 0 <==> OnceAlong(k, commits, steps, x)
  {
    AccountedIff(k, commits, steps, x);
    if steps != [] {
      var before, e := steps[..|steps| - 1], steps[|steps| - 1];
      EarlierCommits(k, Fresh(commits), steps);
      ReportedOnceIff(k, commits, before, x);
      AccountedIff(k, commits, before, x);
      SoundAlways(k, Fresh(commits), before);
      CutsCounted(k, Run(k, Fresh(commits), before), e, x);
      if Accounted(Run(k, Fresh(commits), before), x) { AccountedStep(k, Run(k, Fresh(commits), before), e, x); }
    }
  }

  // ----- it happens, for every txid -----------------------------------------------------------

  /** One poll of an unresolved txid, cut off by a stop, and its record written all the same. */
  lemma CutOnce(k: Settings, s: State, i: nat) returns (steps: seq<Step>)
    requires k.batch > 0 && i < |s.commits| && !Resolved(s.table, s.commits[i].txid) && s.late == []
    ensures var s' := Run(k, s, steps);
            && s'.commits == s.commits && s'.late == [] && !Resolved(s'.table, s.commits[i].txid)
            && Reports(s'.emitted, s.commits[i].txid) == Reports(s.emitted, s.commits[i].txid) + 1
            && Reports(s'.cut, s.commits[i].txid) == Reports(s.cut, s.commits[i].txid) + 1
  {
    var asks := ReachAsk(k, s, i, 0.0);
    var s1 := Run(k, s, asks);
    var s2 := Exec(k, s1, Stop);
    var e := Verdict(k, s1.asked.value).value;
    steps := asks + [Stop, LateEmit(0, true)];
    RunConcat(k, s, asks, [Stop, LateEmit(0, true)]);
    assert [Stop, LateEmit(0, true)][..1] == [Stop];
    assert Run(k, s1, [Stop]) == Exec(k, Run(k, s1, []), Stop);
    assert s2.late == [e] && s2.cut == s1.cut + [e];
    ReportsConcat(s2.emitted, [e], e.txid);
    ReportsConcat(s1.cut, [e], e.txid);
    OneReport(e);
  }

  lemma {:induction false} CutRepeatedly(k: Settings, commits: seq<Commit>, i: nat, n: nat) returns (steps: seq<Step>)
    requires k.batch > 0 && i < |commits|
    ensures var s := Run(k, Fresh(commits), steps);
            && s.commits == commits && s.late == [] && !Resolved(s.table, commits[i].txid)
            && Reports(s.emitted, commits[i].txid) == n == Reports(s.cut, commits[i].txid)
  {
    if n == 0 {
      steps := [];
    } else {
      var before := CutRepeatedly(k, commits, i, n - 1);
      var more := CutOnce(k, Run(k, Fresh(commits), before), i);
      RunConcat(k, Fresh(commits), before, more);
      steps := before + more;
    }
  }

  /** For every commit and every n there is a run with n cut polls and n + 1 records of its txid, however
      distinct the txids are: the bound of `ReceiptPoller.ResolvedOnce` is reached. */
  lemma CutsAllowRepeats(k: Settings, commits: seq<Commit>, i: nat, n: nat) returns (steps: seq<Step>)
    requires k.batch > 0 && i < |commits|
    ensures var s := Run(k, Fresh(commits), steps);
            s.commits == commits && Reports(s.cut, commits[i].txid) == n && Reports(s.emitted, commits[i].txid) == n + 1
  {
    var cuts := CutRepeatedly(k, commits, i, n);
    var last := ReportAgain(k, Run(k, Fresh(commits), cuts), i);
    RunConcat(k, Fresh(commits), cuts, last);
    steps := cuts + last;
  }

  // ----- records that are never written -------------------------------------------------------

  /** Once a txid is resolved, nothing but its pending record can report it. */
  lemma ClaimsShrinkStep(k: Settings, s: State, e: Step, x: Txid)
    requires Sound(s) && Resolved(s.table, x)
    ensures Claims(Exec(k, s, e), x) <= Claims(s, x) && Resolved(Exec(k, s, e).table, x)
  {
    ClaimsStep(k, s, e, x);
    RowStep(k, s, e, x);
    if s.asked.Some? && Verdict(k, s.asked.value).Some? { OtherReport(Verdict(k, s.asked.value).value, x); }
  }

  lemma OtherReport(e: Emission, x: Txid)
    ensures Reports([e], x) == if e.txid == x then 1 else 0
  {
    assert [e][..0] == [];
  }

  lemma {:induction false} ClaimsShrink(k: Settings, s: State, more: seq<Step>, x: Txid)
    requires Sound(s) && Resolved(s.table, x) && OneTxidPerKey(k, Run(k, s, more).commits)
    ensures Claims(Run(k, s, more), x) <= Claims(s, x) && Resolved(Run(k, s, more).table, x)
  {
    if more != [] {
      var cut, e := more[..|more| - 1], more[|more| - 1];
      var before := Run(k, s, cut);
      CommitsGrow(k, before, e);
      assert DistinctTxids(Run(k, s, more).commits) ==> DistinctTxids(before.commits);
      ClaimsShrink(k, s, cut, x);
      SoundAlways(k, s, cut);
      ClaimsShrinkStep(k, before, e, x);
    }
  }

  /** A record whose audit write fails is lost: in no reachable state does a failed write leave the next
      tick anything to try again with, however the run goes on. */
  lemma LostRecordStaysLost(k: Settings, commits: seq<Commit>, steps: seq<Step>, more: seq<Step>)
    requires OneTxidPerKey(k, Run(k, Fresh(commits), steps + [Emit(false)] + more).commits)
    requires Run(k, Fresh(commits), steps).due.Some? && Run(k, Fresh(commits), steps).cut == []
    ensures var x := Run(k, Fresh(commits), steps).due.value.txid;
            && Resolved(Run(k, Fresh(commits), steps).table, x)
            && Reports(Run(k, Fresh(commits), steps + [Emit(false)] + more).emitted, x) == 0
  {
    var s := Run(k, Fresh(commits), steps);
    var x, s' := s.due.value.txid, Exec(k, s, Emit(false));
    RunConcat(k, Fresh(commits), steps, [Emit(false)]);
    assert Run(k, s, [Emit(false)]) == Exec(k, Run(k, s, []), Emit(false));
    RunConcat(k, Fresh(commits), steps + [Emit(false)], more);
    CommitsOnlyGrow(k, s', more);
    assert DistinctTxids(Run(k, s', more).commits) ==> DistinctTxids(s'.commits);
    SoundAlways(k, Fresh(commits), steps);
    SoundAlways(k, Fresh(commits), steps + [Emit(false)]);
    OneReport(s.due.value);
    assert Stored(s.table, s.due.value);
    ClaimsShrink(k, s', more, x);
  }

  lemma {:induction false} CommitsOnlyGrow(k: Settings, s: State, steps: seq<Step>)
    ensures s.commits <= Run(k, s, steps).commits
  {
    if steps != [] {
      CommitsOnlyGrow(k, s, steps[..|steps| - 1]);
      CommitsGrow(k, Run(k, s, steps[..|steps| - 1]), steps[|steps| - 1]);
    }
  }

  /** And that can happen to every payout, from its commit on: it is resolved, and no run ever reports it. */
  lemma ResolvedUnreported(k: Settings, c: Commit, now: real) returns (steps: seq<Step>)
    requires k.batch > 0
    ensures |steps| > 0 && steps[0] == Recorded(c)
    ensures Resolved(Run(k, Fresh([]), steps).table, c.txid)
    ensures forall more :: OneTxidPerKey(k, Run(k, Fresh([]), steps + more).commits) ==>
              Reports(Run(k, Fresh([]), steps + more).emitted, c.txid) == 0
  {
    var s0 := Fresh([c]);
    var start := [Recorded(c)];
    assert Run(k, Fresh([]), start) == Exec(k, Run(k, Fresh([]), []), Recorded(c)) == s0;
    var asks := ReachAsk(k, s0, 0, now);
    var s1 := Run(k, s0, asks);
    var asked := start + asks;
    RunConcat(k, Fresh([]), start, asks);
    RunConcat(k, Fresh([]), asked, [Store]);
    assert Run(k, s1, [Store]) == Exec(k, Run(k, s1, []), Store);
    var stored := asked + [Store];
    steps := stored + [Emit(false)];
    RunConcat(k, Fresh([]), stored, [Emit(false)]);
    assert Run(k, Exec(k, s1, Store), [Emit(false)]) == Exec(k, Run(k, Exec(k, s1, Store), []), Emit(false));
    forall more | OneTxidPerKey(k, Run(k, Fresh([]), steps + more).commits)
      ensures Reports(Run(k, Fresh([]), steps + more).emitted, c.txid) == 0
    {
      LostRecordStaysLost(k, [], stored, more);
    }
  }
}
