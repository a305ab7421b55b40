/** The receipt poller with its SQLite table: `skr_crypto/server/receipt_poller.py`. */
module ReceiptPoller {
  import opened OldestFirst
  import opened Options

  type Txid = string

  const TERMINAL_STATUSES: set<string> := {
    "SUCCESS", "OUT_OF_ENERGY", "REVERT", "BAD_JUMP_DESTINATION", "OUT_OF_TIME", "STACK_TOO_SMALL",
    "STACK_TOO_LARGE", "ILLEGAL_OPERATION", "STACK_OVERFLOW", "JVM_STACK_OVER_FLOW", "TRANSFER_FAILED",
    "UNKNOWN", "GIVEUP"}

  const SECONDS_PER_HOUR: real := 3600.0

  // ----- classifying a receipt ----------------------------------------------------------------

  /** What `get_transaction_info` did: it raised, with or without "not found" in the exception, or
      it returned a document, of which the explicit result and the parsed block number matter. */
  datatype Answer =
    | Raised(notFound: bool)
    | NoInfo
    | Info(result: string, block: Option<int>)   // result is "" when absent

  function UpperChar(c: char): char {
    if 'a' <= c <= 'z' then c - 'a' + 'A' else c
  }

  function Upper(s: string): string {
    seq(|s|, i requires 0 <= i < |s| => UpperChar(s[i]))
  }

  /** Upper case changes the letters a to z and nothing else. */
  lemma UpperMeaning(s: string, i: nat)
    requires i < |s|
    ensures |Upper(s)| == |s|
    ensures 'a' <= s[i] <= 'z' ==> s[i] as int - Upper(s)[i] as int == 'a' as int - 'A' as int
    ensures !('a' <= s[i] <= 'z') ==> Upper(s)[i] == s[i]
  {}

  /** `_classify_receipt`. An explicit result outside both status sets is passed through. */
  function Classify(a: Answer): (string, Option<int>) {
    match a
    case Raised(notFound) => (if notFound then "NOT_FOUND" else "RPC_ERROR", None)
    case NoInfo => ("NOT_FOUND", None)
    case Info(result, block) =>
      if result != "" && result != "SUCCESS" then (Upper(result), block)
      else if block.Some? then ("SUCCESS", block)
      else ("PENDING", None)
  }

  // ----- table rows ---------------------------------------------------------------------------

  /** A committed row of the idempotency table. */
  datatype Commit = Commit(key: string, txid: Txid, committedAt: real)

  /** A row of table tx_status; `last_error` is diagnostic and not modelled. */
  datatype Rec = Rec(
    key: string, firstSeen: real, lastChecked: real, status: Option<string>, block: Option<int>,
    resolvedAt: Option<real>)

  type Table = map<Txid, Rec>

  /** A candidate as `_next_candidates` hands it out: a snapshot. */
  datatype Candidate = Candidate(txid: Txid, key: string, firstSeen: Option<real>)

  predicate Resolved(t: Table, txid: Txid) {
    txid in t && t[txid].resolvedAt.Some?
  }

  /** `cand.get("first_seen") or now` */
  function FirstSeen(c: Candidate, now: real): real {
    if c.firstSeen.Some? && c.firstSeen.value != 0.0 then c.firstSeen.value else now
  }

  predicate Late(c: Candidate, now: real, giveup: real) {
    (now - FirstSeen(c, now)) / SECONDS_PER_HOUR >= giveup
  }

  /** The status after the give-up rule. */
  function StatusOf(c: Candidate, now: real, a: Answer, giveup: real): string {
    if Classify(a).0 == "NOT_FOUND" && Late(c, now, giveup) then "GIVEUP" else Classify(a).0
  }

  predicate Ends(c: Candidate, now: real, a: Answer, giveup: real) {
    StatusOf(c, now, a, giveup) in TERMINAL_STATUSES
  }

  function PolledRec(c: Candidate, now: real, a: Answer, giveup: real): Rec {
    var status := StatusOf(c, now, a, giveup);
    var ends := Ends(c, now, a, giveup);
    Rec(c.key, FirstSeen(c, now), now, if ends then Some(status) else None, Classify(a).1,
        if ends then Some(now) else None)
  }

  /** The INSERT ... ON CONFLICT DO UPDATE of `_upsert`: key and first_seen of an old row stay. */
  function Upserted(t: Table, txid: Txid, rec: Rec): Table {
    t[txid := if txid in t then rec.(key := t[txid].key, firstSeen := t[txid].firstSeen) else rec]
  }

  function Polled(t: Table, c: Candidate, now: real, a: Answer, giveup: real): Table {
    Upserted(t, c.txid, PolledRec(c, now, a, giveup))
  }

  // ----- choosing a batch ---------------------------------------------------------------------

  /** COALESCE(last_checked, 0) */
  function Age(t: Table, txid: Txid): real {
    if txid in t then t[txid].lastChecked else 0.0
  }

  predicate IsCandidate(commits: seq<Commit>, t: Table, cutoff: real, i: nat) {
    i < |commits| && commits[i].committedAt >= cutoff && !Resolved(t, commits[i].txid)
  }

  /** The rows the candidate query joins and keeps, by position in the idempotency table, with the
      time they are ordered by. */
  function Candidates(commits: seq<Commit>, t: Table, cutoff: real): map<nat, real> {
    map i: nat | i < |commits| && IsCandidate(commits, t, cutoff, i) :: Age(t, commits[i].txid)
  }

  /** A committed payout is a candidate exactly when it was committed since the cutoff and no poll has
      resolved its txid; the least recently checked comes first, one never checked before all. */
  lemma CandidatesExact(commits: seq<Commit>, t: Table, cutoff: real, i: nat)
    ensures i in Candidates(commits, t, cutoff) <==>
              && i < |commits| && cutoff <= commits[i].committedAt
              && (commits[i].txid in t ==> t[commits[i].txid].resolvedAt.None?)
    ensures i in Candidates(commits, t, cutoff) ==>
              Candidates(commits, t, cutoff)[i] == if commits[i].txid in t then t[commits[i].txid].lastChecked else 0.0
  {}

  /** Every selected position is one of the idempotency table. */
  predicate Within(commits: seq<Commit>, sel: seq<nat>) {
    forall m :: 0 <= m < |sel| ==> sel[m] < |commits|
  }

  function Snapshot(commits: seq<Commit>, t: Table, i: nat): Candidate
    requires i < |commits|
  {
    var c := commits[i];
    Candidate(c.txid, c.key, if c.txid in t then Some(t[c.txid].firstSeen) else None)
  }

  function Snapshots(commits: seq<Commit>, t: Table, sel: seq<nat>): (cs: seq<Candidate>)
    requires Within(commits, sel)
    ensures |cs| == |sel|
  {
    seq(|sel|, i requires 0 <= i < |sel| => Snapshot(commits, t, sel[i]))
  }

  /** One RPC of a tick: when it was made and what came back. */
  datatype Probe = Probe(now: real, answer: Answer)

  /** The table after polling the first n candidates of a batch. */
  function AfterPolls(t: Table, batch: seq<Candidate>, probes: seq<Probe>, giveup: real, n: nat): Table
    requires n <= |batch| && n <= |probes|
  {
    if n == 0 then t
    else Polled(AfterPolls(t, batch, probes, giveup, n - 1), batch[n - 1], probes[n - 1].now, probes[n - 1].answer, giveup)
  }

  /** A RECEIPT_RESOLVED record; block and error text are not modelled. */
  datatype Emission = Emission(txid: Txid, key: string, status: string)

  /** The RECEIPT_RESOLVED records of the first n polls. */
  function Emissions(batch: seq<Candidate>, probes: seq<Probe>, giveup: real, n: nat): seq<Emission>
    requires n <= |batch| && n <= |probes|
  {
    if n == 0 then []
    else
      var c, p := batch[n - 1], probes[n - 1];
      Emissions(batch, probes, giveup, n - 1) +
      (if Ends(c, p.now, p.answer, giveup) then [Emission(c.txid, c.key, StatusOf(c, p.now, p.answer, giveup))] else [])
  }

  /** The record of a poll whose row is never stored. */
  function CutEmission(c: Candidate, p: Probe, giveup: real): seq<Emission> {
    if Ends(c, p.now, p.answer, giveup) then [Emission(c.txid, c.key, StatusOf(c, p.now, p.answer, giveup))] else []
  }

  class Poller {
    const batch: nat
    const giveup: real          // hours
    var attached: bool          // `_conn is not None`
    var table: Table            // tx_status
    var memory: Table           // `_memory`
    var emitted: seq<Emission>

    constructor (batch: nat, giveup: real, table: Table)
      ensures this.batch == batch && this.giveup == giveup && this.table == table
      ensures attached && memory == map[] && emitted == []
    {
      this.batch, this.giveup, this.table := batch, giveup, table;
      attached, memory, emitted := true, map[], [];
    }

    /** `_next_candidates_sqlite` */
    method NextCandidates(commits: seq<Commit>, cutoff: real) returns (sel: seq<nat>)
      ensures Within(commits, sel) && FirstOf(Candidates(commits, table, cutoff), batch, sel)
    {
      sel := Select(Candidates(commits, table, cutoff), batch);
    }

    /** `_upsert` */
    method Upsert(txid: Txid, rec: Rec)
      modifies `table, `memory
      ensures table == if attached then Upserted(old(table), txid, rec) else old(table)
      ensures memory == if attached then old(memory) else old(memory)[txid := rec]
    {
      if attached {
        table := table[txid := if txid in table then rec.(key := table[txid].key, firstSeen := table[txid].firstSeen) else rec];
      } else {
        memory := memory[txid := rec];
      }
    }

    /** `_poll_one`: RPC, classify, upsert, then the audit record, which may fail. `stopped`: a `stop`
        that gave up waiting has taken the connection away by the time the RPC returns. */
    method PollOne(c: Candidate, p: Probe, stopped: bool, auditWorks: bool)
      modifies this
      ensures attached == (old(attached) && !stopped)
      ensures table == if attached then Polled(old(table), c, p.now, p.answer, giveup) else old(table)
      ensures memory == if attached then old(memory) else old(memory)[c.txid := PolledRec(c, p.now, p.answer, giveup)]
      ensures emitted == old(emitted) +
                if auditWorks && Ends(c, p.now, p.answer, giveup)
                then [Emission(c.txid, c.key, StatusOf(c, p.now, p.answer, giveup))] else []
    {
      if stopped { attached := false; }
      var (status, block) := Classify(p.answer);
      var first := if c.firstSeen.Some? && c.firstSeen.value != 0.0 then c.firstSeen.value else p.now;
      if status == "NOT_FOUND" {
        var age := (p.now - first) / SECONDS_PER_HOUR;
        if age >= giveup { status := "GIVEUP"; }
      }
      var terminal := status in TERMINAL_STATUSES;
      Upsert(c.txid, Rec(c.key, first, p.now, if terminal then Some(status) else None, block,
                         if terminal then Some(p.now) else None));
      if terminal && auditWorks { emitted := emitted + [Emission(c.txid, c.key, status)]; }
    }

    /** The loop of `_tick`: poll a batch in order. A stop signal ends it when the probes run out, or
        during one more RPC, which is then `cut`. */
    method PollAll(cands: seq<Candidate>, probes: seq<Probe>, cut: Option<Probe>) returns (n: nat)
      requires attached
      modifies this
      ensures n == if |probes| < |cands| then |probes| else |cands|
      ensures attached == !(cut.Some? && n < |cands|)
      ensures table == AfterPolls(old(table), cands, probes, giveup, n)
      ensures emitted == old(emitted) + Emissions(cands, probes, giveup, n) +
                if attached then [] else CutEmission(cands[n], cut.value, giveup)
    {
      n := 0;
      while n < |cands| && n < |probes|
        invariant n <= |cands| && n <= |probes| && attached
        invariant table == AfterPolls(old(table), cands, probes, giveup, n)
        invariant emitted == old(emitted) + Emissions(cands, probes, giveup, n)
      {
        PollOne(cands[n], probes[n], false, true);
        n := n + 1;
      }
      if cut.Some? && n < |cands| { PollOne(cands[n], cut.value, true, true); }
    }

    method Tick(commits: seq<Commit>, cutoff: real, probes: seq<Probe>, cut: Option<Probe>) returns (sel: seq<nat>, n: nat)
      requires attached
      modifies this
      ensures Within(commits, sel) && FirstOf(Candidates(commits, old(table), cutoff), batch, sel)
      ensures n == if |probes| < |sel| then |probes| else |sel|
      ensures attached == !(cut.Some? && n < |sel|)
      ensures var cands := Snapshots(commits, old(table), sel);
              && table == AfterPolls(old(table), cands, probes, giveup, n)
              && emitted == old(emitted) + Emissions(cands, probes, giveup, n) +
                   if attached then [] else CutEmission(cands[n], cut.value, giveup)
    {
      sel := NextCandidates(commits, cutoff);
      n := PollAll(Snapshots(commits, table, sel), probes, cut);
    }
  }

  // ----- every run of the poller ---------------------------------------------------------------

  /** A poll whose RPC has answered and whose upsert is next. */
  datatype Asked = Asked(c: Candidate, probe: Probe)

  /** The idempotency rows, the status table, what is left of the current tick, the poll in progress,
      the audit record that is due, the records that stopped pollers are still about to write, the
      records written, and the polls that a stop has cut off from the table. */
  datatype State = State(
    commits: seq<Commit>, table: Table, queue: seq<Candidate>, asked: Option<Asked>, due: Option<Emission>,
    late: seq<Emission>, emitted: seq<Emission>, cut: seq<Emission>)

  /** Recorded: a payout commits. Pick: a tick takes its batch. Ask: one RPC. Store: its upsert. Emit:
      the audit write, which may fail. Stop: a `stop` that does not wait for the poll in progress; the
      old thread finishes it without a connection, in a memory nobody reads again, and still writes
      its record (LateEmit) or dies first. Halt: a clean stop, a crash, or an exception in a tick. A
      new poller may start after either. */
  datatype Step =
    | Recorded(commit: Commit)
    | Pick(cutoff: real, sel: seq<nat>)
    | Ask(probe: Probe)
    | Store
    | Emit(ok: bool)
    | Stop
    | LateEmit(m: nat, ok: bool)
    | Halt

  datatype Settings = Settings(batch: nat, giveup: real)

  /** The record that this poll calls for. */
  function Verdict(k: Settings, a: Asked): Option<Emission> {
    if Ends(a.c, a.probe.now, a.probe.answer, k.giveup)
    then Some(Emission(a.c.txid, a.c.key, StatusOf(a.c, a.probe.now, a.probe.answer, k.giveup))) else None
  }

  function Listed(e: Option<Emission>): seq<Emission> {
    if e.Some? then [e.value] else []
  }

  /** The terminal poll, if any, that a stop would cut off now. */
  function CutOff(k: Settings, s: State): seq<Emission> {
    if s.asked.Some? then Listed(Verdict(k, s.asked.value)) else []
  }

  /** One step; a step that is not possible leaves the state alone. */
  function Exec(k: Settings, s: State, e: Step): State {
    match e
    case Recorded(c) => s.(commits := s.commits + [c])
    case Pick(cutoff, sel) =>
      if s.queue == [] && s.asked.None? && s.due.None? && Within(s.commits, sel)
         && FirstOf(Candidates(s.commits, s.table, cutoff), k.batch, sel)
      then s.(queue := Snapshots(s.commits, s.table, sel)) else s
    case Ask(p) =>
      if s.queue != [] && s.asked.None? && s.due.None?
      then s.(queue := s.queue[1..], asked := Some(Asked(s.queue[0], p))) else s
    case Store =>
      if s.asked.Some? then
        var a := s.asked.value;
        s.(table := Polled(s.table, a.c, a.probe.now, a.probe.answer, k.giveup), asked := None, due := Verdict(k, a))
      else s
    case Emit(ok) =>
      if s.due.Some? then s.(due := None, emitted := if ok then s.emitted + [s.due.value] else s.emitted) else s
    case Stop =>
      s.(queue := [], asked := None, due := None, late := s.late + CutOff(k, s) + Listed(s.due), cut := s.cut + CutOff(k, s))
    case LateEmit(m, ok) =>
      if m < |s.late| then
        s.(late := s.late[..m] + s.late[m + 1..], emitted := if ok then s.emitted + [s.late[m]] else s.emitted)
      else s
    case Halt => s.(queue := [], asked := None, due := None)
  }

  function Run(k: Settings, s: State, steps: seq<Step>): State {
    if steps == [] then s else Exec(k, Run(k, s, steps[..|steps| - 1]), steps[|steps| - 1])
  }

  /** A first start: no status rows yet. */
  function Fresh(commits: seq<Commit>): State {
    State(commits, map[], [], None, None, [], [], [])
  }

  /** RECEIPT_RESOLVED records about x. */
  function Reports(es: seq<Emission>, x: Txid): nat {
    if es == [] then 0 else Reports(es[..|es| - 1], x) + if es[|es| - 1].txid == x then 1 else 0
  }

  /** Records about x that are written, or about to be. */
  function Claims(s: State, x: Txid): nat {
    Reports(s.emitted, x) + Reports(Listed(s.due), x) + Reports(s.late, x)
  }

  predicate DistinctTxids(commits: seq<Commit>) {
    forall i, j :: 0 <= i < j < |commits| ==> commits[i].txid != commits[j].txid
  }

  /** status and resolved_at go together, and only a terminal status is ever stored. */
  predicate RowsSound(t: Table) {
    forall x :: x in t ==>
      (t[x].status.Some? <==> t[x].resolvedAt.Some?) && (t[x].status.Some? ==> t[x].status.value in TERMINAL_STATUSES)
  }

  predicate UpToDate(t: Table, c: Candidate) {
    c.firstSeen == if c.txid in t then Some(t[c.txid].firstSeen) else None
  }

  /** Different, unresolved txids with up-to-date snapshots. */
  predicate AllOpen(t: Table, cands: seq<Candidate>) {
    && (forall i, j :: 0 <= i < j < |cands| ==> cands[i].txid != cands[j].txid)
    && (forall i :: 0 <= i < |cands| ==> !Resolved(t, cands[i].txid) && UpToDate(t, cands[i]))
  }

  /** So are the candidates of the current tick that are not stored yet. */
  predicate QueueSound(s: State) {
    && AllOpen(s.table, s.queue)
    && (s.asked.Some? ==>
          var c := s.asked.value.c;
          && !Resolved(s.table, c.txid) && UpToDate(s.table, c)
          && forall i :: 0 <= i < |s.queue| ==> s.queue[i].txid != c.txid)
  }

  /** The row of the record's txid holds its status. */
  predicate Stored(t: Table, e: Emission) {
    e.txid in t && t[e.txid].status == Some(e.status)
  }

  /** A txid has at most one record for its resolved row and one for each cut poll, and a record that
      is not of a cut poll has the status of its row. */
  ghost predicate ReportsSound(s: State) {
    && (forall x :: Claims(s, x) <= (if Resolved(s.table, x) then 1 else 0) + Reports(s.cut, x))
    && (forall e :: e in s.emitted || e in s.late || s.due == Some(e) ==> Stored(s.table, e) || e in s.cut)
  }

  ghost predicate Sound(s: State) {
    RowsSound(s.table) && QueueSound(s) && ReportsSound(s)
  }

  /** Rows are not polled twice in one tick: no two keys share a txid, or ticks poll one at a time. */
  predicate OneTxidPerKey(k: Settings, commits: seq<Commit>) {
    k.batch <= 1 || DistinctTxids(commits)
  }

  lemma PickKeepsQueue(k: Settings, s: State, cutoff: real, sel: seq<nat>)
    requires QueueSound(s) && OneTxidPerKey(k, s.commits)
    ensures QueueSound(Exec(k, s, Pick(cutoff, sel)))
  {
    var s' := Exec(k, s, Pick(cutoff, sel));
    if s' != s {
      forall i, j | 0 <= i < j < |s'.queue| ensures s'.queue[i].txid != s'.queue[j].txid {
        assert sel[i] != sel[j];
      }
      forall i | 0 <= i < |s'.queue| ensures !Resolved(s'.table, s'.queue[i].txid) && UpToDate(s'.table, s'.queue[i]) {
        assert sel[i] in Candidates(s.commits, s.table, cutoff);
      }
    }
  }

  /** Steps that touch neither table nor records. */
  lemma SameReports(s: State, s': State)
    requires ReportsSound(s) && s'.table == s.table && s'.due == s.due && s'.late == s.late
    requires s'.emitted == s.emitted && s'.cut == s.cut
    ensures ReportsSound(s')
  {
    forall x ensures Claims(s', x) == Claims(s, x) {}
  }

  lemma {:induction false} ReportsConcat(a: seq<Emission>, b: seq<Emission>, x: Txid)
    ensures Reports(a + b, x) == Reports(a, x) + Reports(b, x)
  {
    if b == [] {
      assert a + b == a;
    } else {
      assert (a + b)[..|a + b| - 1] == a + b[..|b| - 1];
      ReportsConcat(a, b[..|b| - 1], x);
    }
  }

  /** Taking one record out of a list. */
  lemma ReportsWithout(es: seq<Emission>, m: nat, x: Txid)
    requires m < |es|
    ensures Reports(es, x) == Reports(es[..m] + es[m + 1..], x) + Reports([es[m]], x)
  {
    assert es == es[..m] + [es[m]] + es[m + 1..];
    ReportsConcat(es[..m] + [es[m]], es[m + 1..], x);
    ReportsConcat(es[..m], [es[m]], x);
    ReportsConcat(es[..m], es[m + 1..], x);
  }

  /** No step but Store and a cutting Stop brings a new record. */
  lemma ClaimsStep(k: Settings, s: State, e: Step, x: Txid)
    ensures Claims(Exec(k, s, e), x) <= Claims(s, x) + match e
              case Store => Reports(CutOff(k, s), x)
              case Stop => Reports(CutOff(k, s), x)
              case _ => 0
    ensures e.Stop? ==> Claims(Exec(k, s, e), x) == Claims(s, x) + Reports(CutOff(k, s), x)
    ensures e.Store? && s.due.None? ==> Claims(Exec(k, s, e), x) == Claims(s, x) + Reports(CutOff(k, s), x)
    ensures Reports(Exec(k, s, e).cut, x) == Reports(s.cut, x) + if e.Stop? then Reports(CutOff(k, s), x) else 0
  {
    match e
    case Emit(ok) =>
      if s.due.Some? && ok { ReportsConcat(s.emitted, [s.due.value], x); }
    case Stop =>
      ReportsConcat(s.late + CutOff(k, s), Listed(s.due), x);
      ReportsConcat(s.late, CutOff(k, s), x);
      ReportsConcat(s.cut, CutOff(k, s), x);
    case LateEmit(m, ok) =>
      if m < |s.late| {
        ReportsWithout(s.late, m, x);
        if ok { ReportsConcat(s.emitted, [s.late[m]], x); }
      }
    case _ =>
  }

  lemma StoreKeepsQueue(k: Settings, s: State)
    requires QueueSound(s)
    ensures QueueSound(Exec(k, s, Store))
  {}

  lemma StoreKeepsReports(k: Settings, s: State)
    requires RowsSound(s.table) && ReportsSound(s)
    requires s.asked.Some? && !Resolved(s.table, s.asked.value.c.txid)
    ensures ReportsSound(Exec(k, s, Store))
  {
    var s' := Exec(k, s, Store);
    forall x ensures Claims(s', x) <= (if Resolved(s'.table, x) then 1 else 0) + Reports(s'.cut, x) {
      ClaimsStep(k, s, Store, x);
    }
    forall e | e in s'.emitted || e in s'.late || s'.due == Some(e) ensures Stored(s'.table, e) || e in s'.cut {
      if s'.due != Some(e) && e.txid == s.asked.value.c.txid { assert !Stored(s.table, e); }
    }
  }

  lemma StoreKeeps(k: Settings, s: State)
    requires Sound(s)
    ensures Sound(Exec(k, s, Store))
  {
    StoreKeepsQueue(k, s);
    if s.asked.Some? { StoreKeepsReports(k, s); }
  }

  lemma OthersKeep(k: Settings, s: State, e: Step)
    requires Sound(s) && (e.Recorded? || e.Emit? || e.Stop? || e.LateEmit? || e.Halt?)
    ensures Sound(Exec(k, s, e))
  {
    var s' := Exec(k, s, e);
    forall x ensures Claims(s', x) <= (if Resolved(s'.table, x) then 1 else 0) + Reports(s'.cut, x) {
      ClaimsStep(k, s, e, x);
    }
  }

  lemma StepKeeps(k: Settings, s: State, e: Step)
    requires Sound(s) && OneTxidPerKey(k, s.commits)
    ensures Sound(Exec(k, s, e))
  {
    match e
    case Pick(cutoff, sel) =>
      PickKeepsQueue(k, s, cutoff, sel);
      SameReports(s, Exec(k, s, e));
    case Ask(_) => SameReports(s, Exec(k, s, e));
    case Store => StoreKeeps(k, s);
    case _ => OthersKeep(k, s, e);
  }

  lemma CommitsGrow(k: Settings, s: State, e: Step)
    ensures s.commits <= Exec(k, s, e).commits
  {}

  lemma {:induction false} SoundAlways(k: Settings, s: State, steps: seq<Step>)
    requires Sound(s) && OneTxidPerKey(k, Run(k, s, steps).commits)
    ensures Sound(Run(k, s, steps))
  {
    if steps != [] {
      var before := Run(k, s, steps[..|steps| - 1]);
      CommitsGrow(k, before, steps[|steps| - 1]);
      assert DistinctTxids(Run(k, s, steps).commits) ==> DistinctTxids(before.commits);
      SoundAlways(k, s, steps[..|steps| - 1]);
      StepKeeps(k, before, steps[|steps| - 1]);
    }
  }

  /** In every run, with restarts anywhere: status is set exactly when resolved_at is, it is always
      terminal, and each txid is reported at most once, plus once for every terminal poll that a stop
      has cut off; a record of any other poll has the status its row holds. */
  lemma ResolvedOnce(k: Settings, commits: seq<Commit>, steps: seq<Step>)
    requires OneTxidPerKey(k, Run(k, Fresh(commits), steps).commits)
    ensures Sound(Run(k, Fresh(commits), steps))
    ensures forall x :: Reports(Run(k, Fresh(commits), steps).emitted, x) <= 1 + Reports(Run(k, Fresh(commits), steps).cut, x)
  {
    SoundAlways(k, Fresh(commits), steps);
  }

  /** The node says success: it names a block and no other result, or spells the result otherwise. */
  predicate SaysSuccess(a: Answer) {
    && a.Info?
    && (((a.result == "" || a.result == "SUCCESS") && a.block.Some?) || (a.result != "SUCCESS" && Upper(a.result) == "SUCCESS"))
  }

  /** The node names another result. */
  predicate SaysOther(a: Answer) {
    a.Info? && a.result != "" && a.result != "SUCCESS"
  }

  /** The node does not know the transaction, or names a result that reads so. */
  predicate NotFound(a: Answer) {
    a.NoInfo? || a == Raised(true) || (SaysOther(a) && Upper(a.result) == "NOT_FOUND")
  }

  /** A row that was first seen at this time is overdue; a time of zero counts as unset. */
  predicate Overdue(firstSeen: real, now: real, giveup: real) {
    firstSeen != 0.0 && (now - firstSeen) / SECONDS_PER_HOUR >= giveup
  }

  /** What a stored poll makes of a row, for each answer. The row stays unresolved when the RPC failed,
      when the transaction has no result and no block yet, when it is not found in time, and when the
      result is none of the final ones; otherwise it is a success, given up, or has the node's result. */
  predicate Settles(row: Rec, p: Probe, giveup: real) {
    var a := p.answer;
    && row.lastChecked == p.now
    && row.resolvedAt == (if row.status.Some? then Some(p.now) else None)
    && (row.status == Some("SUCCESS") <==> SaysSuccess(a))
    && (row.status == Some("GIVEUP") <==>
          (NotFound(a) && Overdue(row.firstSeen, p.now, giveup)) || (SaysOther(a) && Upper(a.result) == "GIVEUP"))
    && (row.status.None? <==>
          || a == Raised(false) || a == Info("", None) || a == Info("SUCCESS", None)
          || (NotFound(a) && !Overdue(row.firstSeen, p.now, giveup))
          || (SaysOther(a) && !NotFound(a) && Upper(a.result) !in TERMINAL_STATUSES))
    && (row.status.Some? && SaysOther(a) && !NotFound(a) ==> row.status == Some(Upper(a.result)))
    && row.block == (if SaysOther(a) || SaysSuccess(a) then a.block else None)
  }

  lemma PolledSettles(c: Candidate, p: Probe, giveup: real)
    requires giveup > 0.0
    ensures var rec := PolledRec(c, p.now, p.answer, giveup);
            Settles(rec.(firstSeen := if c.firstSeen.Some? then c.firstSeen.value else p.now), p, giveup)
  {
    assert "PENDING" !in TERMINAL_STATUSES && "RPC_ERROR" !in TERMINAL_STATUSES && "NOT_FOUND" !in TERMINAL_STATUSES;
    if p.answer.Info? {
      assert p.answer.result == "SUCCESS" ==> Upper(p.answer.result)[0] == 'S';
      assert p.answer.result == "" ==> Upper(p.answer.result) == "";
    }
  }

  /** The outcome of the poll in progress, in every reachable state. */
  lemma OutcomeExact(k: Settings, commits: seq<Commit>, steps: seq<Step>)
    requires OneTxidPerKey(k, Run(k, Fresh(commits), steps).commits) && k.giveup > 0.0
    requires Run(k, Fresh(commits), steps).asked.Some?
    ensures var s := Run(k, Fresh(commits), steps);
            var a := s.asked.value;
            var table := Exec(k, s, Store).table;
            && Settles(table[a.c.txid], a.probe, k.giveup)
            && forall x :: x in s.table && x != a.c.txid ==> x in table && table[x] == s.table[x]
  {
    ResolvedOnce(k, commits, steps);
    var a := Run(k, Fresh(commits), steps).asked.value;
    PolledSettles(a.c, a.probe, k.giveup);
  }

  // ----- the give-up deadline -----------------------------------------------------------------

  predicate PollsTxid(s: State, e: Step, x: Txid) {
    e.Ask? && s.queue != [] && s.asked.None? && s.due.None? && s.queue[0].txid == x
  }

  /** This poll does not find x, and comes at most `gap` after the one before. */
  predicate MissesInTime(t: Table, p: Probe, x: Txid, gap: real) {
    && Classify(p.answer).0 == "NOT_FOUND" && p.now > 0.0
    && (x in t ==> p.now <= t[x].lastChecked + gap)
  }

  /** Every poll of x in this run, between whatever else happens, misses in time. */
  predicate NeverFound(k: Settings, s: State, steps: seq<Step>, x: Txid, gap: real) {
    steps == [] ||
    var cut, e := steps[..|steps| - 1], steps[|steps| - 1];
    && NeverFound(k, s, cut, x, gap)
    && (PollsTxid(Run(k, s, cut), e, x) ==> MissesInTime(Run(k, s, cut).table, e.probe, x, gap))
  }

  /** Unresolved, a row was last checked before the threshold; resolved, it is given up, and no
      later than threshold plus gap after its first_seen. */
  predicate OnSchedule(k: Settings, t: Table, x: Txid, gap: real) {
    x in t ==>
      var r := t[x];
      && r.firstSeen > 0.0
      && (r.resolvedAt.None? ==> (r.lastChecked - r.firstSeen) / SECONDS_PER_HOUR < k.giveup)
      && (r.resolvedAt.Some? ==>
            && r.status == Some("GIVEUP") && r.resolvedAt.value <= r.firstSeen + k.giveup * SECONDS_PER_HOUR + gap
            && (r.resolvedAt.value - r.firstSeen) / SECONDS_PER_HOUR >= k.giveup)
  }

  /** A poll of x in progress is one that misses in time. */
  predicate AskedInTime(s: State, x: Txid, gap: real) {
    s.asked.Some? && s.asked.value.c.txid == x ==> MissesInTime(s.table, s.asked.value.probe, x, gap)
  }

  lemma StoreOnSchedule(k: Settings, s: State, x: Txid, gap: real)
    requires Sound(s) && OnSchedule(k, s.table, x, gap) && AskedInTime(s, x, gap) && k.giveup > 0.0
    ensures OnSchedule(k, Exec(k, s, Store).table, x, gap)
  {
    assert "NOT_FOUND" !in TERMINAL_STATUSES;
  }

  lemma StepOnSchedule(k: Settings, s: State, e: Step, x: Txid, gap: real)
    requires Sound(s) && OnSchedule(k, s.table, x, gap) && AskedInTime(s, x, gap) && k.giveup > 0.0
    requires PollsTxid(s, e, x) ==> MissesInTime(s.table, e.probe, x, gap)
    ensures OnSchedule(k, Exec(k, s, e).table, x, gap) && AskedInTime(Exec(k, s, e), x, gap)
  {
    if e.Store? { StoreOnSchedule(k, s, x, gap); }
  }

  lemma {:induction false} ScheduleKept(k: Settings, commits: seq<Commit>, steps: seq<Step>, x: Txid, gap: real)
    requires OneTxidPerKey(k, Run(k, Fresh(commits), steps).commits) && k.giveup > 0.0
    requires NeverFound(k, Fresh(commits), steps, x, gap)
    ensures OnSchedule(k, Run(k, Fresh(commits), steps).table, x, gap) && AskedInTime(Run(k, Fresh(commits), steps), x, gap)
  {
    if steps != [] {
      var cut, e := steps[..|steps| - 1], steps[|steps| - 1];
      var before := Run(k, Fresh(commits), cut);
      CommitsGrow(k, before, e);
      assert DistinctTxids(Run(k, Fresh(commits), steps).commits) ==> DistinctTxids(before.commits);
      ScheduleKept(k, commits, cut, x, gap);
      ResolvedOnce(k, commits, cut);
      StepOnSchedule(k, before, e, x, gap);
    }
  }

  /** The GIVEUP deadline, in every run with other rows, batches, stops and restarts in between: a
      txid that no poll finds, asked for at most `gap` after its last stored poll, is given up by
      first_seen plus threshold plus gap, not before first_seen plus threshold, and not otherwise
      resolved. */
  lemma GiveupDeadline(k: Settings, commits: seq<Commit>, steps: seq<Step>, x: Txid, gap: real)
    requires OneTxidPerKey(k, Run(k, Fresh(commits), steps).commits) && k.giveup > 0.0
    requires NeverFound(k, Fresh(commits), steps, x, gap)
    ensures OnSchedule(k, Run(k, Fresh(commits), steps).table, x, gap)
  {
    ScheduleKept(k, commits, steps, x, gap);
  }

  /** So once that deadline has passed, a row whose polls are still coming at such gaps is given up. */
  lemma PastTheDeadline(k: Settings, commits: seq<Commit>, steps: seq<Step>, x: Txid, gap: real, now: real)
    requires OneTxidPerKey(k, Run(k, Fresh(commits), steps).commits) && k.giveup > 0.0
    requires NeverFound(k, Fresh(commits), steps, x, gap)
    requires var t := Run(k, Fresh(commits), steps).table;
             && x in t && now >= t[x].firstSeen + k.giveup * SECONDS_PER_HOUR + gap
             && (t[x].resolvedAt.None? ==> now <= t[x].lastChecked + gap)
    ensures Run(k, Fresh(commits), steps).table[x].status == Some("GIVEUP")
  {
    GiveupDeadline(k, commits, steps, x, gap);
  }

  /** Key and txid of a row, a snapshot or a record are those of one commit. */
  predicate Paired(commits: seq<Commit>, txid: Txid, key: string) {
    exists i :: 0 <= i < |commits| && commits[i].txid == txid && commits[i].key == key
  }

  ghost predicate AllPaired(s: State) {
    && (forall x :: x in s.table ==> Paired(s.commits, x, s.table[x].key))
    && (forall i :: 0 <= i < |s.queue| ==> Paired(s.commits, s.queue[i].txid, s.queue[i].key))
    && (s.asked.Some? ==> Paired(s.commits, s.asked.value.c.txid, s.asked.value.c.key))
    && (forall e :: e in s.emitted || e in s.late || s.due == Some(e) ==> Paired(s.commits, e.txid, e.key))
  }

  lemma PairedGrows(commits: seq<Commit>, c: Commit, txid: Txid, key: string)
    requires Paired(commits, txid, key)
    ensures Paired(commits + [c], txid, key)
  {
    var i :| 0 <= i < |commits| && commits[i].txid == txid && commits[i].key == key;
    assert (commits + [c])[i] == commits[i];
  }

  lemma StepKeepsPaired(k: Settings, s: State, e: Step)
    requires AllPaired(s)
    ensures AllPaired(Exec(k, s, e))
  {
    match e
    case Recorded(c) =>
      forall txid, key | Paired(s.commits, txid, key) ensures Paired(s.commits + [c], txid, key) {
        PairedGrows(s.commits, c, txid, key);
      }
    case _ =>
  }

  /** Every row and every record carries the idempotency key of a commit with its txid. */
  lemma {:induction false} KeysBelong(k: Settings, commits: seq<Commit>, steps: seq<Step>)
    ensures AllPaired(Run(k, Fresh(commits), steps))
  {
    if steps != [] {
      KeysBelong(k, commits, steps[..|steps| - 1]);
      StepKeepsPaired(k, Run(k, Fresh(commits), steps[..|steps| - 1]), steps[|steps| - 1]);
    }
  }

  /** What a step leaves of a row: key and first_seen for ever, everything once it is resolved. */
  predicate RowKept(old': Table, new': Table, x: Txid) {
    x in old' ==>
      && x in new' && new'[x].key == old'[x].key && new'[x].firstSeen == old'[x].firstSeen
      && (old'[x].resolvedAt.Some? ==> new'[x] == old'[x])
  }

  lemma RowStep(k: Settings, s: State, e: Step, x: Txid)
    requires QueueSound(s)
    ensures RowKept(s.table, Exec(k, s, e).table, x)
  {
  }

  lemma {:induction false} ResolvedForEver(k: Settings, commits: seq<Commit>, steps: seq<Step>, more: seq<Step>, x: Txid)
    requires OneTxidPerKey(k, Run(k, Fresh(commits), steps + more).commits)
    ensures RowKept(Run(k, Fresh(commits), steps).table, Run(k, Fresh(commits), steps + more).table, x)
  {
    if more == [] {
      assert steps + more == steps;
    } else {
      var all, cut := steps + more, more[..|more| - 1];
      assert all[..|all| - 1] == steps + cut;
      var before := Run(k, Fresh(commits), steps + cut);
      CommitsGrow(k, before, more[|more| - 1]);
      assert DistinctTxids(Run(k, Fresh(commits), all).commits) ==> DistinctTxids(before.commits);
      ResolvedForEver(k, commits, steps, cut, x);
      ResolvedOnce(k, commits, steps + cut);
      RowStep(k, before, more[|more| - 1], x);
    }
  }

  /** first_seen never changes after the insert, whatever the commits share. */
  lemma {:induction false} FirstSeenFixed(k: Settings, s: State, steps: seq<Step>, x: Txid)
    requires x in s.table
    ensures x in Run(k, s, steps).table && Run(k, s, steps).table[x].firstSeen == s.table[x].firstSeen
  {
    if steps != [] { FirstSeenFixed(k, s, steps[..|steps| - 1], x); }
  }

  /** Any two rows can be polled by one tick of a first start. */
  lemma PickBoth(commits: seq<Commit>, batch: nat, i: nat, j: nat, cutoff: real) returns (sel: seq<nat>)
    requires i < j < |commits| && batch >= 2
    requires commits[i].committedAt >= cutoff && commits[j].committedAt >= cutoff
    ensures Within(commits, sel) && FirstOf(Candidates(commits, map[], cutoff), batch, sel)
    ensures |sel| >= 2 && sel[0] == i && sel[1] == j
  {
    var all := Candidates(commits, map[], cutoff);
    assert i in all && j in all;
    var others := all.Keys - {i} - {j};
    assert |others| == |all| - 2;
    var more := PickDistinct(others, (if |all| < batch then |all| else batch) - 2);
    sel := [i, j] + more;
  }

  lemma {:induction false} RunConcat(k: Settings, s: State, a: seq<Step>, b: seq<Step>)
    ensures Run(k, s, a + b) == Run(k, Run(k, s, a), b)
  {
    if b == [] {
      assert a + b == a;
    } else {
      assert (a + b)[..|a + b| - 1] == a + b[..|b| - 1];
      RunConcat(k, s, a, b[..|b| - 1]);
    }
  }

  function TickSteps(probes: seq<Probe>, n: nat): seq<Step>
    requires n <= |probes|
  {
    if n == 0 then [] else TickSteps(probes, n - 1) + [Ask(probes[n - 1]), Store, Emit(true)]
  }

  /** What `Poller.PollAll` leaves behind after n polls. */
  function AfterLoop(k: Settings, s: State, probes: seq<Probe>, n: nat): State
    requires n <= |s.queue| && n <= |probes|
  {
    s.(table := AfterPolls(s.table, s.queue, probes, k.giveup, n), queue := s.queue[n..],
       emitted := s.emitted + Emissions(s.queue, probes, k.giveup, n))
  }

  lemma OnePoll(k: Settings, s: State, probes: seq<Probe>, n: nat)
    requires s.due.None? && s.asked.None? && n < |s.queue| && n < |probes|
    ensures AfterLoop(k, s, probes, n + 1) == Exec(k, Exec(k, Exec(k, AfterLoop(k, s, probes, n), Ask(probes[n])), Store), Emit(true))
  {
    assert s.queue[n..][1..] == s.queue[n + 1..];
    var s2 := Exec(k, Exec(k, AfterLoop(k, s, probes, n), Ask(probes[n])), Store);
    assert s2.due == Verdict(k, Asked(s.queue[n], probes[n]));
  }

  lemma RunThree(k: Settings, s: State, a: Step, b: Step, c: Step)
    ensures Run(k, s, [a, b, c]) == Exec(k, Exec(k, Exec(k, s, a), b), c)
  {
    assert [a, b, c][..2] == [a, b] && [a, b][..1] == [a];
    assert Run(k, s, [a]) == Exec(k, Run(k, s, []), a);
  }

  /** One turn of the loop carries a run that has reached `AfterLoop` one turn further. */
  lemma LoopTurn(k: Settings, s: State, probes: seq<Probe>, n: nat, steps: seq<Step>)
    requires s.due.None? && s.asked.None? && n < |s.queue| && n < |probes| && Run(k, s, steps) == AfterLoop(k, s, probes, n)
    ensures Run(k, s, steps + [Ask(probes[n]), Store, Emit(true)]) == AfterLoop(k, s, probes, n + 1)
  {
    RunConcat(k, s, steps, [Ask(probes[n]), Store, Emit(true)]);
    RunThree(k, Run(k, s, steps), Ask(probes[n]), Store, Emit(true));
    OnePoll(k, s, probes, n);
  }

  /** The loop of a tick, as `Poller.PollAll` performs it, is a run of Ask, Store and Emit steps. */
  lemma {:induction false} TickIsRun(k: Settings, s: State, probes: seq<Probe>, n: nat)
    requires s.due.None? && s.asked.None? && n <= |s.queue| && n <= |probes|
    ensures Run(k, s, TickSteps(probes, n)) == AfterLoop(k, s, probes, n)
  {
    if n == 0 {
      assert s.queue[0..] == s.queue;
    } else {
      TickIsRun(k, s, probes, n - 1);
      LoopTurn(k, s, probes, n - 1, TickSteps(probes, n - 1));
    }
  }

  /** And a loop that a stop ends during one more RPC: the table misses that poll, the log does not. */
  lemma CutTickIsRun(k: Settings, s: State, probes: seq<Probe>, n: nat, p: Probe)
    requires s.due.None? && s.asked.None? && n < |s.queue| && n <= |probes|
    ensures var s' := Run(k, s, TickSteps(probes, n) + [Ask(p), Stop, LateEmit(|s.late|, true)]);
            && s'.table == AfterPolls(s.table, s.queue, probes, k.giveup, n) && s'.late == s.late && s'.queue == []
            && s'.emitted == s.emitted + Emissions(s.queue, probes, k.giveup, n) + CutEmission(s.queue[n], p, k.giveup)
  {
    TickIsRun(k, s, probes, n);
    RunConcat(k, s, TickSteps(probes, n), [Ask(p), Stop, LateEmit(|s.late|, true)]);
    CutPoll(k, AfterLoop(k, s, probes, n), p);
  }

  lemma CutPoll(k: Settings, s: State, p: Probe)
    requires s.queue != [] && s.due.None? && s.asked.None?
    ensures var s' := Run(k, s, [Ask(p), Stop, LateEmit(|s.late|, true)]);
            && s'.table == s.table && s'.late == s.late && s'.queue == [] && s'.commits == s.commits
            && s'.asked.None? && s'.due.None?
            && s'.emitted == s.emitted + CutEmission(s.queue[0], p, k.giveup)
            && s'.cut == s.cut + CutEmission(s.queue[0], p, k.giveup)
  {
    RunThree(k, s, Ask(p), Stop, LateEmit(|s.late|, true));
    var s2 := Exec(k, Exec(k, s, Ask(p)), Stop);
    assert s2.late == s.late + CutEmission(s.queue[0], p, k.giveup);
  }

  lemma SameTxidTwice(cands: seq<Candidate>, p: Probe, giveup: real)
    requires |cands| >= 2 && cands[0].txid == cands[1].txid && p.answer == Info("", Some(1))
    ensures Reports(Emissions(cands, [p, p], giveup, 2), cands[0].txid) == 2
  {
    var e, f := Emission(cands[0].txid, cands[0].key, "SUCCESS"), Emission(cands[1].txid, cands[1].key, "SUCCESS");
    assert Emissions(cands, [p, p], giveup, 1) == [] + [e];
    assert Emissions(cands, [p, p], giveup, 2) == [e] + [f];
    ReportsConcat([e], [f], e.txid);
  }

  /** The condition on txids is exact: two keys with one txid, and ticks that take both, report that
      txid twice, without any stop. */
  lemma SharedTxidReportedTwice(k: Settings, commits: seq<Commit>, now: real) returns (steps: seq<Step>, x: Txid)
    requires !OneTxidPerKey(k, commits)
    ensures var s := Run(k, Fresh(commits), steps);
            s.commits == commits && s.cut == [] && Reports(s.emitted, x) == 2
  {
    var i, j :| 0 <= i < j < |commits| && commits[i].txid == commits[j].txid;
    x := commits[i].txid;
    var ci, cj := commits[i].committedAt, commits[j].committedAt;
    var cutoff := if ci < cj then ci else cj;
    var sel := PickBoth(commits, k.batch, i, j, cutoff);
    var p := Probe(now, Info("", Some(1)));
    var s := Exec(k, Fresh(commits), Pick(cutoff, sel));
    steps := [Pick(cutoff, sel)] + TickSteps([p, p], 2);
    RunConcat(k, Fresh(commits), [Pick(cutoff, sel)], TickSteps([p, p], 2));
    assert Run(k, Fresh(commits), [Pick(cutoff, sel)]) == s;
    TickIsRun(k, s, [p, p], 2);
    SameTxidTwice(s.queue, p, k.giveup);
    assert s.emitted + Emissions(s.queue, [p, p], k.giveup, 2) == Emissions(s.queue, [p, p], k.giveup, 2);
  }
}
