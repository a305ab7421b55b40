/** Oldest-checked-first scheduling is fair: the ticks of `skr_crypto/server/receipt_poller.py`. */
module PollerFairness {
  import opened OldestFirst
  import opened Options
  import opened ReceiptPoller

  /** One tick: its lookback cutoff, the batch it took and the polls it made. A poll that raises ends
      the tick, so there may be fewer polls than rows. */
  datatype TickRun = TickRun(cutoff: real, sel: seq<nat>, probes: seq<Probe>)

  predicate Shaped(commits: seq<Commit>, tick: TickRun) {
    Within(commits, tick.sel) && |tick.probes| <= |tick.sel|
  }

  predicate LegalTick(commits: seq<Commit>, t: Table, batch: nat, tick: TickRun) {
    Shaped(commits, tick) && FirstOf(Candidates(commits, t, tick.cutoff), batch, tick.sel)
  }

  function AfterTick(commits: seq<Commit>, t: Table, giveup: real, tick: TickRun): Table
    requires Shaped(commits, tick)
  {
    AfterPolls(t, Snapshots(commits, t, tick.sel), tick.probes, giveup, |tick.probes|)
  }

  predicate Polls(commits: seq<Commit>, tick: TickRun, txid: Txid)
    requires Shaped(commits, tick)
  {
    exists m :: 0 <= m < |tick.probes| && commits[tick.sel[m]].txid == txid
  }

  /** The tick ends early only at a row that was checked after `bound`. */
  predicate CutPast(commits: seq<Commit>, t: Table, tick: TickRun, bound: real)
    requires Shaped(commits, tick)
  {
    |tick.probes| < |tick.sel| ==> Age(t, commits[tick.sel[|tick.probes|]].txid) > bound
  }

  predicate After(probes: seq<Probe>, start: real) {
    forall m :: 0 <= m < |probes| ==> probes[m].now > start
  }

  /** Polling stamps the polled txids after `start` ... */
  lemma {:induction false} PollsStamp(
    t: Table, batch: seq<Candidate>, probes: seq<Probe>, giveup: real, n: nat, start: real, i: nat)
    requires i < n <= |batch| && n <= |probes| && After(probes, start)
    ensures Age(AfterPolls(t, batch, probes, giveup, n), batch[i].txid) > start
  {
    if i < n - 1 { PollsStamp(t, batch, probes, giveup, n - 1, start, i); }
  }

  /** ... and touches nothing else. */
  lemma {:induction false} PollsSpare(t: Table, batch: seq<Candidate>, probes: seq<Probe>, giveup: real, n: nat, x: Txid)
    requires n <= |batch| && n <= |probes|
    requires forall i :: 0 <= i < n ==> batch[i].txid != x
    ensures var t' := AfterPolls(t, batch, probes, giveup, n);
            (x in t' <==> x in t) && (x in t ==> t'[x] == t[x])
  {
    if n > 0 { PollsSpare(t, batch, probes, giveup, n - 1, x); }
  }

  lemma TickStamps(commits: seq<Commit>, t: Table, giveup: real, tick: TickRun, start: real, x: Txid)
    requires Shaped(commits, tick) && After(tick.probes, start) && Polls(commits, tick, x)
    ensures Age(AfterTick(commits, t, giveup, tick), x) > start
  {
    var m :| 0 <= m < |tick.probes| && commits[tick.sel[m]].txid == x;
    PollsStamp(t, Snapshots(commits, t, tick.sel), tick.probes, giveup, |tick.probes|, start, m);
  }

  lemma TickSpares(commits: seq<Commit>, t: Table, giveup: real, tick: TickRun, x: Txid)
    requires Shaped(commits, tick) && !Polls(commits, tick, x)
    ensures var t' := AfterTick(commits, t, giveup, tick);
            (x in t' <==> x in t) && (x in t ==> t'[x] == t[x])
  {
    PollsSpare(t, Snapshots(commits, t, tick.sel), tick.probes, giveup, |tick.probes|, x);
  }

  // ----- one tick -----------------------------------------------------------------------------

  /** The candidates last checked no later than `bound`. */
  function Neglected(commits: seq<Commit>, t: Table, cutoff: real, bound: real): set<nat> {
    set i: nat | i < |commits| && IsCandidate(commits, t, cutoff, i) && Age(t, commits[i].txid) <= bound
  }

  function Served(tick: TickRun): set<nat>
    requires |tick.probes| <= |tick.sel|
  {
    Elements(tick.sel[..|tick.probes|])
  }

  /** Who is still neglected was so before and was not polled. */
  lemma StillNeglected(
    commits: seq<Commit>, t: Table, giveup: real, tick: TickRun, cutoff: real, start: real, bound: real, i: nat)
    requires Shaped(commits, tick) && tick.cutoff <= cutoff && After(tick.probes, start) && bound <= start
    requires i in Neglected(commits, AfterTick(commits, t, giveup, tick), cutoff, bound)
    ensures i in Neglected(commits, t, tick.cutoff, bound) && i !in Served(tick)
  {
    var x := commits[i].txid;
    if Polls(commits, tick, x) {
      TickStamps(commits, t, giveup, tick, start, x);
      assert false;
    }
    TickSpares(commits, t, giveup, tick, x);
  }

  /** When a neglected row is left unpolled, the tick is not cut and serves neglected rows only. */
  lemma ServesNeglected(commits: seq<Commit>, t: Table, batch: nat, tick: TickRun, bound: real, left: nat)
    requires LegalTick(commits, t, batch, tick) && CutPast(commits, t, tick, bound)
    requires left in Neglected(commits, t, tick.cutoff, bound) && left !in Served(tick)
    ensures Served(tick) <= Neglected(commits, t, tick.cutoff, bound) && |Served(tick)| == batch
  {
    var all, cut := Candidates(commits, t, tick.cutoff), |tick.probes|;
    forall m | 0 <= m < |tick.sel| ensures tick.sel[m] != left {
      if m < cut { assert tick.sel[..cut][m] in Served(tick); }
    }
    LeftOutMeansFull(all, batch, tick.sel, left);
    forall m | 0 <= m < |tick.sel| ensures tick.sel[m] in Neglected(commits, t, tick.cutoff, bound) {
      assert tick.sel[m] in all && all[tick.sel[m]] <= all[left];
    }
    assert cut == |tick.sel| && tick.sel[..cut] == tick.sel;
    ElementsCard(tick.sel);
  }

  /** One tick shrinks the neglected rows by a whole batch, or clears them. */
  lemma TickServes(
    commits: seq<Commit>, t: Table, batch: nat, giveup: real, tick: TickRun, cutoff: real, start: real, bound: real)
    requires LegalTick(commits, t, batch, tick) && CutPast(commits, t, tick, bound)
    requires tick.cutoff <= cutoff && After(tick.probes, start) && bound <= start
    ensures var before := Neglected(commits, t, tick.cutoff, bound);
            var after := Neglected(commits, AfterTick(commits, t, giveup, tick), cutoff, bound);
            after <= before && (|after| + batch <= |before| || after == {})
  {
    var before := Neglected(commits, t, tick.cutoff, bound);
    var after := Neglected(commits, AfterTick(commits, t, giveup, tick), cutoff, bound);
    var served := Served(tick);
    forall i | i in after ensures i in before && i !in served {
      StillNeglected(commits, t, giveup, tick, cutoff, start, bound, i);
    }
    if after != {} {
      var left :| left in after;
      ServesNeglected(commits, t, batch, tick, bound, left);
      SubsetCard(after + served, before);
      assert after !! served;
    }
  }

  // ----- a run of ticks -----------------------------------------------------------------------

  predicate AllShaped(commits: seq<Commit>, ticks: seq<TickRun>) {
    forall m :: 0 <= m < |ticks| ==> Shaped(commits, ticks[m])
  }

  /** A run of ticks without new commits: the table before tick k. */
  function TableAt(commits: seq<Commit>, t: Table, giveup: real, ticks: seq<TickRun>, k: nat): Table
    requires k <= |ticks| && AllShaped(commits, ticks)
  {
    if k == 0 then t else AfterTick(commits, TableAt(commits, t, giveup, ticks, k - 1), giveup, ticks[k - 1])
  }

  predicate LegalAt(
    commits: seq<Commit>, t: Table, batch: nat, giveup: real, ticks: seq<TickRun>, start: real, bound: real, m: nat)
    requires m < |ticks| && AllShaped(commits, ticks)
  {
    var before := TableAt(commits, t, giveup, ticks, m);
    LegalTick(commits, before, batch, ticks[m]) && CutPast(commits, before, ticks[m], bound) && After(ticks[m].probes, start)
  }

  predicate CutoffsAdvance(ticks: seq<TickRun>) {
    forall m, n :: 0 <= m <= n < |ticks| ==> ticks[m].cutoff <= ticks[n].cutoff
  }

  predicate CheckedBy(t: Table, start: real) {
    start >= 0.0 && forall x :: x in t ==> t[x].lastChecked <= start
  }

  /** Legal ticks under a clock that moves on from `start` and never turns the cutoff back. Polls of
      rows last checked by `bound` return; a poll of any other may raise. */
  predicate LegalRun(
    commits: seq<Commit>, t: Table, batch: nat, giveup: real, ticks: seq<TickRun>, start: real, bound: real)
  {
    && AllShaped(commits, ticks) && CutoffsAdvance(ticks) && CheckedBy(t, start) && bound <= start
    && (forall m :: 0 <= m < |ticks| ==> LegalAt(commits, t, batch, giveup, ticks, start, bound, m))
  }

  function CutoffAt(ticks: seq<TickRun>, k: nat): real
    requires |ticks| > 0 && k <= |ticks|
  {
    if k < |ticks| then ticks[k].cutoff else ticks[|ticks| - 1].cutoff
  }

  /** Neglected rows and the room the ticks offered so far stay within the candidates of the start. */
  predicate Bounded(left: set<nat>, room: nat, total: nat) {
    left == {} || |left| + room <= total
  }

  lemma TickOfRun(commits: seq<Commit>, t: Table, batch: nat, giveup: real, ticks: seq<TickRun>, start: real, bound: real, k: nat)
    requires LegalRun(commits, t, batch, giveup, ticks, start, bound) && k < |ticks|
    ensures LegalTick(commits, TableAt(commits, t, giveup, ticks, k), batch, ticks[k])
    ensures CutPast(commits, TableAt(commits, t, giveup, ticks, k), ticks[k], bound)
    ensures After(ticks[k].probes, start) && CutoffAt(ticks, k) <= CutoffAt(ticks, k + 1)
  {
    assert LegalAt(commits, t, batch, giveup, ticks, start, bound, k);
  }

  lemma OneMore(k: nat, batch: nat)
    ensures (k + 1) * batch == k * batch + batch
  {}

  function NeglectedAt(commits: seq<Commit>, t: Table, giveup: real, ticks: seq<TickRun>, bound: real, k: nat): set<nat>
    requires AllShaped(commits, ticks) && |ticks| > 0 && k <= |ticks|
  {
    Neglected(commits, TableAt(commits, t, giveup, ticks, k), CutoffAt(ticks, k), bound)
  }

  lemma NeglectStep(
    commits: seq<Commit>, t: Table, batch: nat, giveup: real, ticks: seq<TickRun>, start: real, bound: real, k: nat)
    requires LegalRun(commits, t, batch, giveup, ticks, start, bound) && k < |ticks|
    ensures var before := NeglectedAt(commits, t, giveup, ticks, bound, k);
            var after := NeglectedAt(commits, t, giveup, ticks, bound, k + 1);
            after <= before && (|after| + batch <= |before| || after == {})
  {
    TickOfRun(commits, t, batch, giveup, ticks, start, bound, k);
    TickServes(commits, TableAt(commits, t, giveup, ticks, k), batch, giveup, ticks[k], CutoffAt(ticks, k + 1), start, bound);
  }

  lemma {:induction false} NeglectShrinks(
    commits: seq<Commit>, t: Table, batch: nat, giveup: real, ticks: seq<TickRun>, start: real, bound: real, k: nat)
    requires LegalRun(commits, t, batch, giveup, ticks, start, bound) && |ticks| > 0 && k <= |ticks|
    ensures Bounded(NeglectedAt(commits, t, giveup, ticks, bound, k), k * batch, |NeglectedAt(commits, t, giveup, ticks, bound, 0)|)
  {
    if k > 0 {
      NeglectShrinks(commits, t, batch, giveup, ticks, start, bound, k - 1);
      NeglectStep(commits, t, batch, giveup, ticks, start, bound, k - 1);
      OneMore(k - 1, batch);
    }
  }

  lemma {:induction false} UnpolledUnchanged(
    commits: seq<Commit>, t: Table, giveup: real, ticks: seq<TickRun>, x: Txid, k: nat)
    requires AllShaped(commits, ticks) && k <= |ticks|
    requires forall m :: 0 <= m < k ==> !Polls(commits, ticks[m], x)
    ensures Age(TableAt(commits, t, giveup, ticks, k), x) == Age(t, x)
  {
    if k > 0 {
      UnpolledUnchanged(commits, t, giveup, ticks, x, k - 1);
      TickSpares(commits, TableAt(commits, t, giveup, ticks, k - 1), giveup, ticks[k - 1], x);
    }
  }

  predicate PolledBy(commits: seq<Commit>, ticks: seq<TickRun>, x: Txid)
    requires AllShaped(commits, ticks)
  {
    exists m :: 0 <= m < |ticks| && Polls(commits, ticks[m], x)
  }

  /** Fairness: once the ticks together could have served every candidate that was last checked by
      `bound`, each of these has been polled, or has left the candidate set, whatever happens to polls
      of rows checked later. With `bound` at the start this is every candidate. */
  lemma EveryCandidateIsPolled(
    commits: seq<Commit>, t: Table, batch: nat, giveup: real, ticks: seq<TickRun>, start: real, bound: real, i: nat)
    requires LegalRun(commits, t, batch, giveup, ticks, start, bound) && |ticks| > 0
    requires |ticks| * batch >= |Neglected(commits, t, ticks[0].cutoff, bound)|
    requires i in Candidates(commits, t, ticks[0].cutoff) && Age(t, commits[i].txid) <= bound
    ensures PolledBy(commits, ticks, commits[i].txid)
            || !IsCandidate(commits, TableAt(commits, t, giveup, ticks, |ticks|), CutoffAt(ticks, |ticks|), i)
    ensures bound == start ==> Neglected(commits, t, ticks[0].cutoff, bound) == Candidates(commits, t, ticks[0].cutoff).Keys
  {
    var t' := TableAt(commits, t, giveup, ticks, |ticks|);
    var left := NeglectedAt(commits, t, giveup, ticks, bound, |ticks|);
    NeglectShrinks(commits, t, batch, giveup, ticks, start, bound, |ticks|);
    assert left == {};
    assert i !in left;
    if !PolledBy(commits, ticks, commits[i].txid) {
      UnpolledUnchanged(commits, t, giveup, ticks, commits[i].txid, |ticks|);
    }
  }

  // ----- a poll that always raises ------------------------------------------------------------

  /** Row j is a candidate of the tick, and its poll raises: the tick makes none of j's txid, and ends
      there if it comes that far. */
  predicate BlockedBy(commits: seq<Commit>, t: Table, tick: TickRun, j: nat)
    requires Shaped(commits, tick)
  {
    && IsCandidate(commits, t, tick.cutoff, j) && !Polls(commits, tick, commits[j].txid)
    && (|tick.probes| < |tick.sel| ==> commits[tick.sel[|tick.probes|]].txid == commits[j].txid)
  }

  /** A tick polls nothing that was checked after such a row. */
  lemma BlockedTick(commits: seq<Commit>, t: Table, batch: nat, tick: TickRun, j: nat, y: Txid)
    requires LegalTick(commits, t, batch, tick) && BlockedBy(commits, t, tick, j)
    requires Age(t, commits[j].txid) < Age(t, y)
    ensures !Polls(commits, tick, y)
  {
    var all := Candidates(commits, t, tick.cutoff);
    assert j in all;
    forall m | 0 <= m < |tick.probes| ensures all[tick.sel[m]] <= all[j] {
      assert commits[tick.sel[m]].txid != commits[j].txid;
      if j in tick.sel { var n :| 0 <= n < |tick.sel| && tick.sel[n] == j; }
    }
  }

  predicate BlockedAt(commits: seq<Commit>, t: Table, batch: nat, giveup: real, ticks: seq<TickRun>, j: nat, m: nat)
    requires m < |ticks| && AllShaped(commits, ticks)
  {
    var before := TableAt(commits, t, giveup, ticks, m);
    LegalTick(commits, before, batch, ticks[m]) && BlockedBy(commits, before, ticks[m], j)
  }

  lemma {:induction false} BlockedAges(
    commits: seq<Commit>, t: Table, batch: nat, giveup: real, ticks: seq<TickRun>, j: nat, y: Txid, k: nat)
    requires AllShaped(commits, ticks) && k <= |ticks| && j < |commits| && Age(t, commits[j].txid) < Age(t, y)
    requires forall m :: 0 <= m < |ticks| ==> BlockedAt(commits, t, batch, giveup, ticks, j, m)
    ensures Age(TableAt(commits, t, giveup, ticks, k), commits[j].txid) == Age(t, commits[j].txid)
    ensures Age(TableAt(commits, t, giveup, ticks, k), y) == Age(t, y)
  {
    if k > 0 {
      BlockedAges(commits, t, batch, giveup, ticks, j, y, k - 1);
      BlockedNext(commits, t, batch, giveup, ticks, j, y, k - 1);
    }
  }

  /** Starvation: while the poll of a candidate raises whenever it is tried, nothing that was checked
      after it is ever polled, however many ticks there are. The rows before it are served all the
      same, by `EveryCandidateIsPolled`. */
  lemma RaisingPollBlocks(
    commits: seq<Commit>, t: Table, batch: nat, giveup: real, ticks: seq<TickRun>, j: nat, y: Txid)
    requires AllShaped(commits, ticks) && j < |commits| && Age(t, commits[j].txid) < Age(t, y)
    requires forall m :: 0 <= m < |ticks| ==> BlockedAt(commits, t, batch, giveup, ticks, j, m)
    ensures !PolledBy(commits, ticks, y)
  {
    forall m | 0 <= m < |ticks| ensures !Polls(commits, ticks[m], y) {
      BlockedAges(commits, t, batch, giveup, ticks, j, y, m);
      BlockedNext(commits, t, batch, giveup, ticks, j, y, m);
    }
  }

  lemma BlockedNext(
    commits: seq<Commit>, t: Table, batch: nat, giveup: real, ticks: seq<TickRun>, j: nat, y: Txid, k: nat)
    requires AllShaped(commits, ticks) && k < |ticks| && j < |commits| && BlockedAt(commits, t, batch, giveup, ticks, j, k)
    requires Age(TableAt(commits, t, giveup, ticks, k), commits[j].txid) < Age(TableAt(commits, t, giveup, ticks, k), y)
    ensures var x, before, after := commits[j].txid, TableAt(commits, t, giveup, ticks, k), TableAt(commits, t, giveup, ticks, k + 1);
            Age(after, x) == Age(before, x) && Age(after, y) == Age(before, y) && !Polls(commits, ticks[k], y)
  {
    BlockedStep(commits, TableAt(commits, t, giveup, ticks, k), batch, giveup, ticks[k], j, y);
  }

  lemma BlockedStep(commits: seq<Commit>, t: Table, batch: nat, giveup: real, tick: TickRun, j: nat, y: Txid)
    requires LegalTick(commits, t, batch, tick) && BlockedBy(commits, t, tick, j)
    requires Age(t, commits[j].txid) < Age(t, y)
    ensures var t' := AfterTick(commits, t, giveup, tick);
            Age(t', commits[j].txid) == Age(t, commits[j].txid) && Age(t', y) == Age(t, y) && !Polls(commits, tick, y)
  {
    BlockedTick(commits, t, batch, tick, j, y);
    TickSpares(commits, t, giveup, tick, y);
    TickSpares(commits, t, giveup, tick, commits[j].txid);
  }

  // ----- how many ticks it takes --------------------------------------------------------------

  /** The bound is met: while the ticks together serve fewer rows than there are candidates, some
      candidate is still unpolled. */
  lemma {:induction false} ServedAtMost(commits: seq<Commit>, ticks: seq<TickRun>, batch: nat) returns (served: set<nat>)
    requires AllShaped(commits, ticks) && forall m :: 0 <= m < |ticks| ==> |ticks[m].sel| <= batch
    ensures |served| <= |ticks| * batch
    ensures forall m, n :: 0 <= m < |ticks| && 0 <= n < |ticks[m].sel| ==> ticks[m].sel[n] in served
  {
    if ticks == [] {
      served := {};
    } else {
      var last := |ticks| - 1;
      var before := ServedAtMost(commits, ticks[..last], batch);
      served := before + Elements(ticks[last].sel);
      ElementsCard(ticks[last].sel);
      assert |served| <= |before| + |Elements(ticks[last].sel)|;
      assert |ticks| * batch == last * batch + batch;
      forall m, n | 0 <= m < |ticks| && 0 <= n < |ticks[m].sel| ensures ticks[m].sel[n] in served {
        if m < last { assert ticks[..last][m] == ticks[m]; }
      }
    }
  }

  /** ceil(N/B) ticks are also needed: with distinct txids, fewer leave a candidate unpolled. */
  lemma FewerTicksLeaveSomeone(commits: seq<Commit>, t: Table, batch: nat, giveup: real, ticks: seq<TickRun>, cutoff: real)
    returns (i: nat)
    requires AllShaped(commits, ticks) && DistinctTxids(commits)
    requires forall m :: 0 <= m < |ticks| ==> |ticks[m].sel| <= batch
    requires |ticks| * batch < |Candidates(commits, t, cutoff)|
    ensures i in Candidates(commits, t, cutoff) && !PolledBy(commits, ticks, commits[i].txid)
  {
    var all := Candidates(commits, t, cutoff);
    var served := ServedAtMost(commits, ticks, batch);
    if all.Keys <= served { SubsetCard(all.Keys, served); }
    i :| i in all && i !in served;
    forall m | 0 <= m < |ticks| ensures !Polls(commits, ticks[m], commits[i].txid) {
      forall n | 0 <= n < |ticks[m].sel| ensures commits[ticks[m].sel[n]].txid != commits[i].txid {
        assert ticks[m].sel[n] in served;
      }
    }
  }

  // ----- the give-up deadline, from fairness --------------------------------------------------

  /** Whatever this tick asks about x, the answer is NOT_FOUND. */
  predicate Misses(commits: seq<Commit>, tick: TickRun, x: Txid)
    requires Shaped(commits, tick)
  {
    forall m :: 0 <= m < |tick.probes| && commits[tick.sel[m]].txid == x ==> Classify(tick.probes[m].answer).0 == "NOT_FOUND"
  }

  /** x was first seen at f and is either unresolved or given up. */
  predicate OpenOrGivenUp(t: Table, x: Txid, f: real) {
    x in t && t[x].firstSeen == f && (t[x].resolvedAt.None? || t[x].status == Some("GIVEUP"))
  }

  /** Polling an overdue txid gives it up, however often the batch holds it. */
  lemma {:induction false} OverduePolled(
    t: Table, batch: seq<Candidate>, probes: seq<Probe>, giveup: real, n: nat, x: Txid, f: real, start: real)
    requires n <= |batch| && n <= |probes| && After(probes, start) && OpenOrGivenUp(t, x, f)
    requires f != 0.0 && (start - f) / SECONDS_PER_HOUR >= giveup
    requires forall i :: 0 <= i < n && batch[i].txid == x ==>
               batch[i].firstSeen == Some(f) && Classify(probes[i].answer).0 == "NOT_FOUND"
    ensures var t' := AfterPolls(t, batch, probes, giveup, n);
            && OpenOrGivenUp(t', x, f)
            && ((exists i :: 0 <= i < n && batch[i].txid == x) || Resolved(t, x) ==> Resolved(t', x))
  {
    if n > 0 {
      OverduePolled(t, batch, probes, giveup, n - 1, x, f, start);
      if batch[n - 1].txid == x { assert Late(batch[n - 1], probes[n - 1].now, giveup); }
    }
  }

  lemma OverdueTick(commits: seq<Commit>, t: Table, giveup: real, tick: TickRun, x: Txid, f: real, start: real)
    requires Shaped(commits, tick) && After(tick.probes, start) && Misses(commits, tick, x) && OpenOrGivenUp(t, x, f)
    requires f != 0.0 && (start - f) / SECONDS_PER_HOUR >= giveup
    ensures var t' := AfterTick(commits, t, giveup, tick);
            OpenOrGivenUp(t', x, f) && (Polls(commits, tick, x) || Resolved(t, x) ==> Resolved(t', x))
  {
    var cands := Snapshots(commits, t, tick.sel);
    forall i | 0 <= i < |tick.probes| && cands[i].txid == x
      ensures cands[i].firstSeen == Some(f) && Classify(tick.probes[i].answer).0 == "NOT_FOUND"
    {
      assert commits[tick.sel[i]].txid == x;
    }
    OverduePolled(t, cands, tick.probes, giveup, |tick.probes|, x, f, start);
    if Polls(commits, tick, x) {
      var m :| 0 <= m < |tick.probes| && commits[tick.sel[m]].txid == x;
      assert cands[m].txid == x;
    }
  }

  lemma {:induction false} OverdueRun(
    commits: seq<Commit>, t: Table, giveup: real, ticks: seq<TickRun>, x: Txid, f: real, start: real, k: nat)
    requires AllShaped(commits, ticks) && k <= |ticks| && OpenOrGivenUp(t, x, f)
    requires forall m :: 0 <= m < |ticks| ==> After(ticks[m].probes, start) && Misses(commits, ticks[m], x)
    requires f != 0.0 && (start - f) / SECONDS_PER_HOUR >= giveup
    ensures var t' := TableAt(commits, t, giveup, ticks, k);
            OpenOrGivenUp(t', x, f) && ((exists m :: 0 <= m < k && Polls(commits, ticks[m], x)) ==> Resolved(t', x))
  {
    if k > 0 {
      OverdueRun(commits, t, giveup, ticks, x, f, start, k - 1);
      OverdueTick(commits, TableAt(commits, t, giveup, ticks, k - 1), giveup, ticks[k - 1], x, f, start);
    }
  }

  /** The deadline from fairness alone: ticks with room for every candidate, begun when x is overdue
      and never finding it, end with x given up, or with its commit past the lookback window. */
  lemma OverdueIsGivenUp(
    commits: seq<Commit>, t: Table, batch: nat, giveup: real, ticks: seq<TickRun>, start: real, bound: real, i: nat)
    requires LegalRun(commits, t, batch, giveup, ticks, start, bound) && |ticks| > 0
    requires |ticks| * batch >= |Neglected(commits, t, ticks[0].cutoff, bound)|
    requires i in Neglected(commits, t, ticks[0].cutoff, bound) && commits[i].txid in t
    requires var f := t[commits[i].txid].firstSeen; f != 0.0 && (start - f) / SECONDS_PER_HOUR >= giveup
    requires forall m :: 0 <= m < |ticks| ==> Misses(commits, ticks[m], commits[i].txid)
    ensures var t' := TableAt(commits, t, giveup, ticks, |ticks|);
            || (Resolved(t', commits[i].txid) && t'[commits[i].txid].status == Some("GIVEUP"))
            || commits[i].committedAt < CutoffAt(ticks, |ticks|)
  {
    var x := commits[i].txid;
    forall m | 0 <= m < |ticks| ensures After(ticks[m].probes, start) {
      assert LegalAt(commits, t, batch, giveup, ticks, start, bound, m);
    }
    EveryCandidateIsPolled(commits, t, batch, giveup, ticks, start, bound, i);
    OverdueRun(commits, t, giveup, ticks, x, t[x].firstSeen, start, |ticks|);
  }
}
