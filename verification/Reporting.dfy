/** Period reporting over the audit log: `skr_crypto/server/reporting.py`. Days are proleptic
    ordinals, amounts whole numbers of 10^-6 USDT. The one-pass aggregator is proved against sums and
    sets over the records of a day, and its reports add up over logs and over ranges, whatever the
    order of the log; the calendar's months tile the days that can be reported. */
module Reporting {
  import opened Options

  /** What the aggregator reads of one audit line: `day` is None when the timestamp is missing or
      malformed, and `amount` is 0 where `_safe_decimal` falls back to zero. */
  datatype Record = Record(day: Option<int>, event: string, amount: int, to: string, wallet: string, result: string)

  /** The numeric columns of a day bucket. */
  datatype Field = Successes | Volume | Rejected | Failed | Duplicates | ReceiptsOk | ReceiptsBad

  /** One value for each column. */
  datatype Totals = Totals(
    successes: int, volume: int, rejected: int, failed: int, duplicates: int, receiptsOk: int, receiptsBad: int)
  {
    function Plus(that: Totals): Totals {
      Totals(successes + that.successes, volume + that.volume, rejected + that.rejected, failed + that.failed,
             duplicates + that.duplicates, receiptsOk + that.receiptsOk, receiptsBad + that.receiptsBad)
    }
  }

  const NONE := Totals(0, 0, 0, 0, 0, 0, 0)

  datatype DayBucket = DayBucket(day: int, totals: Totals, recipients: set<string>, wallets: set<string>)

  datatype PeriodSummary = PeriodSummary(
    from: int, to: int, buckets: seq<DayBucket>, totals: Totals,
    uniqueRecipients: nat, uniqueWallets: nat)

  const MAX_REPORT_DAYS := 366

  /** `date.max.toordinal()`: 9999-12-31. The day after it raises OverflowError. */
  const LAST_DAY: int := 3_652_059

  /** What `aggregate_period` returns, or the ValueError of `validate_range`, or that OverflowError. */
  datatype Aggregate = Summary(report: PeriodSummary) | BadRange | Overflow

  function LowerChar(c: char): char {
    if 'A' <= c <= 'Z' then c - 'A' + 'a' else c
  }

  function Lower(s: string): string {
    seq(|s|, i requires 0 <= i < |s| => LowerChar(s[i]))
  }

  // ----- declarative specification ------------------------------------------------------------

  /** What one record adds to a column. */
  function Weight(r: Record, f: Field): int {
    match f
    case Successes => if r.event == "SEND_SUCCESS" then 1 else 0
    case Volume => if r.event == "SEND_SUCCESS" then r.amount else 0
    case Rejected => if r.event == "SEND_REJECTED" then 1 else 0
    case Failed => if r.event == "SEND_FAILED" then 1 else 0
    case Duplicates => if r.event == "SEND_DUPLICATE" then 1 else 0
    case ReceiptsOk => if r.event == "RECEIPT_RESOLVED" && Lower(r.result) == "success" then 1 else 0
    case ReceiptsBad => if r.event == "RECEIPT_RESOLVED" && Lower(r.result) != "success" then 1 else 0
  }

  predicate InRange(r: Record, from: int, to: int) {
    r.day.Some? && from <= r.day.value <= to
  }

  function WeightIn(r: Record, from: int, to: int, f: Field): int {
    if InRange(r, from, to) then Weight(r, f) else 0
  }

  /** A column over all records dated `from` to `to`. */
  function Sum(log: seq<Record>, from: int, to: int, f: Field): int {
    if log == [] then 0 else Sum(log[..|log| - 1], from, to, f) + WeightIn(log[|log| - 1], from, to, f)
  }

  function Columns(log: seq<Record>, from: int, to: int): Totals {
    Totals(Sum(log, from, to, Successes), Sum(log, from, to, Volume), Sum(log, from, to, Rejected),
           Sum(log, from, to, Failed), Sum(log, from, to, Duplicates),
           Sum(log, from, to, ReceiptsOk), Sum(log, from, to, ReceiptsBad))
  }

  predicate SentIn(r: Record, from: int, to: int) {
    r.event == "SEND_SUCCESS" && InRange(r, from, to)
  }

  function Recipients(log: seq<Record>, from: int, to: int): set<string> {
    set r | r in log && SentIn(r, from, to) && r.to != "" :: r.to
  }

  function Wallets(log: seq<Record>, from: int, to: int): set<string> {
    set r | r in log && SentIn(r, from, to) && r.wallet != "" :: r.wallet
  }

  function DaySpec(log: seq<Record>, day: int): DayBucket {
    DayBucket(day, Columns(log, day, day), Recipients(log, day, day), Wallets(log, day, day))
  }

  function DaySpecs(log: seq<Record>, from: int, to: int): (bs: seq<DayBucket>)
    requires from <= to + 1
    ensures |bs| == to - from + 1
    ensures forall i :: 0 <= i < |bs| ==> bs[i] == DaySpec(log, from + i)
    decreases 1 + to - from
  {
    if to < from then [] else DaySpecs(log, from, to - 1) + [DaySpec(log, to)]
  }

  function PeriodSpec(log: seq<Record>, from: int, to: int): PeriodSummary
    requires from <= to
  {
    PeriodSummary(from, to, DaySpecs(log, from, to), Columns(log, from, to),
                  |Recipients(log, from, to)|, |Wallets(log, from, to)|)
  }

  // ----- what the columns mean ----------------------------------------------------------------

  /** A result reads "success" in any mixture of upper and lower case. */
  lemma SuccessMeaning(s: string)
    ensures Lower(s) == "success" <==>
              && |s| == 7 && s[0] in "sS" && s[1] in "uU" && s[2] in "cC" && s[3] in "cC" && s[4] in "eE" && s[5] in "sS"
              && s[6] in "sS"
  {
    if |s| == 7 {
      assert Lower(s) == [LowerChar(s[0]), LowerChar(s[1]), LowerChar(s[2]), LowerChar(s[3]), LowerChar(s[4]),
                          LowerChar(s[5]), LowerChar(s[6])];
    }
  }

  /** The record is dated in the range and of the kind that this column counts. */
  predicate Counted(r: Record, from: int, to: int, f: Field) {
    && r.day.Some? && from <= r.day.value && r.day.value <= to
    && match f
       case Successes => r.event == "SEND_SUCCESS"
       case Volume => r.event == "SEND_SUCCESS"
       case Rejected => r.event == "SEND_REJECTED"
       case Failed => r.event == "SEND_FAILED"
       case Duplicates => r.event == "SEND_DUPLICATE"
       case ReceiptsOk => r.event == "RECEIPT_RESOLVED" && Lower(r.result) == "success"
       case ReceiptsBad => r.event == "RECEIPT_RESOLVED" && Lower(r.result) != "success"
  }

  function CountedLines(log: seq<Record>, from: int, to: int, f: Field): set<nat> {
    set i: nat | i < |log| && Counted(log[i], from, to, f)
  }

  lemma LinesGrow(log: seq<Record>, r: Record, from: int, to: int, f: Field)
    ensures CountedLines(log + [r], from, to, f)
            == CountedLines(log, from, to, f) + if Counted(r, from, to, f) then {|log|} else {}
  {
    var all := log + [r];
    assert forall i :: 0 <= i < |log| ==> all[i] == log[i];
    assert all[|log|] == r;
  }

  lemma WeightOfLine(r: Record, from: int, to: int, f: Field)
    requires f != Volume
    ensures WeightIn(r, from, to, f) == if Counted(r, from, to, f) then 1 else 0
  {}

  /** Every column but the volume is the number of lines it counts. */
  lemma {:induction false} ColumnCounts(log: seq<Record>, from: int, to: int, f: Field)
    requires f != Volume
    ensures Sum(log, from, to, f) == |CountedLines(log, from, to, f)|
  {
    if log != [] {
      var cut, r := log[..|log| - 1], log[|log| - 1];
      assert log == cut + [r];
      ColumnCounts(cut, from, to, f);
      WeightOfLine(r, from, to, f);
      LinesGrow(cut, r, from, to, f);
    }
  }

  /** Recipients and wallets are those of the successful payouts of the range. */
  lemma PaidIn(log: seq<Record>, from: int, to: int, x: string)
    ensures x in Recipients(log, from, to) <==>
              x != "" && exists i :: 0 <= i < |log| && Counted(log[i], from, to, Successes) && log[i].to == x
    ensures x in Wallets(log, from, to) <==>
              x != "" && exists i :: 0 <= i < |log| && Counted(log[i], from, to, Successes) && log[i].wallet == x
  {}

  // ----- the one-pass aggregator --------------------------------------------------------------

  /** The update of one bucket by one record dated on its day. */
  function Bump(b: DayBucket, r: Record): DayBucket {
    var t := b.totals;
    if r.event == "SEND_SUCCESS" then
      b.(totals := t.(successes := t.successes + 1, volume := t.volume + r.amount),
         recipients := if r.to != "" then b.recipients + {r.to} else b.recipients,
         wallets := if r.wallet != "" then b.wallets + {r.wallet} else b.wallets)
    else if r.event == "SEND_REJECTED" then b.(totals := t.(rejected := t.rejected + 1))
    else if r.event == "SEND_FAILED" then b.(totals := t.(failed := t.failed + 1))
    else if r.event == "SEND_DUPLICATE" then b.(totals := t.(duplicates := t.duplicates + 1))
    else if r.event == "RECEIPT_RESOLVED" then
      if Lower(r.result) == "success" then b.(totals := t.(receiptsOk := t.receiptsOk + 1))
      else b.(totals := t.(receiptsBad := t.receiptsBad + 1))
    else b
  }

  lemma SumGrows(log: seq<Record>, r: Record, from: int, to: int, f: Field)
    ensures Sum(log + [r], from, to, f) == Sum(log, from, to, f) + WeightIn(r, from, to, f)
  {
    assert (log + [r])[..|log|] == log;
  }

  lemma DayGrows(log: seq<Record>, r: Record, day: int)
    ensures DaySpec(log + [r], day) == if r.day == Some(day) then Bump(DaySpec(log, day), r) else DaySpec(log, day)
  {
    SetGrows(log, r, day, day);
    forall f: Field ensures Sum(log + [r], day, day, f) == Sum(log, day, day, f) + WeightIn(r, day, day, f) {
      SumGrows(log, r, day, day, f);
    }
  }

  lemma SetGrows(log: seq<Record>, r: Record, from: int, to: int)
    ensures Recipients(log + [r], from, to) ==
            Recipients(log, from, to) + (if SentIn(r, from, to) && r.to != "" then {r.to} else {})
    ensures Wallets(log + [r], from, to) ==
            Wallets(log, from, to) + (if SentIn(r, from, to) && r.wallet != "" then {r.wallet} else {})
  {
    forall x | x in Recipients(log, from, to) ensures x in Recipients(log + [r], from, to) {
      var q :| q in log && SentIn(q, from, to) && q.to != "" && q.to == x;
      assert q in log + [r];
    }
    forall x | x in Wallets(log, from, to) ensures x in Wallets(log + [r], from, to) {
      var q :| q in log && SentIn(q, from, to) && q.wallet != "" && q.wallet == x;
      assert q in log + [r];
    }
    assert r in log + [r];
  }

  /** A column over a range is the sum of the two halves of the range. */
  lemma {:induction false} RangeCut(log: seq<Record>, from: int, mid: int, to: int, f: Field)
    requires from <= mid + 1 && mid <= to
    ensures Sum(log, from, to, f) == Sum(log, from, mid, f) + Sum(log, mid + 1, to, f)
  {
    if log != [] { RangeCut(log[..|log| - 1], from, mid, to, f); }
  }

  lemma RangeCutColumns(log: seq<Record>, from: int, mid: int, to: int)
    requires from <= mid + 1 && mid <= to
    ensures Columns(log, from, to) == Columns(log, from, mid).Plus(Columns(log, mid + 1, to))
  {
    forall f: Field
      ensures Sum(log, from, to, f) == Sum(log, from, mid, f) + Sum(log, mid + 1, to, f)
    {
      RangeCut(log, from, mid, to, f);
    }
  }

  lemma RangeCutSets(log: seq<Record>, from: int, mid: int, to: int)
    requires from <= mid + 1 && mid <= to
    ensures Recipients(log, from, to) == Recipients(log, from, mid) + Recipients(log, mid + 1, to)
    ensures Wallets(log, from, to) == Wallets(log, from, mid) + Wallets(log, mid + 1, to)
  {
    forall r | r in log
      ensures SentIn(r, from, to) <==> SentIn(r, from, mid) || SentIn(r, mid + 1, to)
    {
    }
  }

  lemma {:induction false} EmptyRange(log: seq<Record>, from: int, to: int)
    requires to < from
    ensures Columns(log, from, to) == NONE
    ensures Recipients(log, from, to) == {} && Wallets(log, from, to) == {}
  {
    if log != [] { EmptyRange(log[..|log| - 1], from, to); }
  }

  /** One empty bucket for each day of the range; None when stepping past the last day overflows. */
  method EmptyBuckets(from: int, to: int) returns (buckets: Option<map<int, DayBucket>>)
    requires from <= to <= LAST_DAY
    ensures buckets.Some? <==> to < LAST_DAY
    ensures buckets.Some? ==> forall d :: d in buckets.value <==> from <= d <= to
    ensures buckets.Some? ==> forall d :: d in buckets.value ==> buckets.value[d] == DaySpec([], d)
  {
    var empty: map<int, DayBucket> := map[];
    var day := from;
    while day <= to
      invariant from <= day <= to + 1 && day <= LAST_DAY
      invariant forall d :: d in empty <==> from <= d < day
      invariant forall d :: d in empty ==> empty[d] == DaySpec([], d)
    {
      empty := empty[day := DayBucket(day, NONE, {}, {})];
      if day == LAST_DAY { return None; }
      day := day + 1;
    }
    buckets := Some(empty);
  }

  /** The single pass over the log. */
  method Accumulate(log: seq<Record>, from: int, to: int, empty: map<int, DayBucket>) returns (buckets: map<int, DayBucket>)
    requires forall d :: d in empty <==> from <= d <= to
    requires forall d :: d in empty ==> empty[d] == DaySpec([], d)
    ensures forall d :: d in buckets <==> from <= d <= to
    ensures forall d :: d in buckets ==> buckets[d] == DaySpec(log, d)
  {
    buckets := empty;
    var n := 0;
    while n < |log|
      invariant n <= |log|
      invariant forall d :: d in buckets <==> from <= d <= to
      invariant forall d :: d in buckets ==> buckets[d] == DaySpec(log[..n], d)
    {
      var r := log[n];
      assert log[..n + 1] == log[..n] + [r];
      forall d | d in buckets
        ensures DaySpec(log[..n + 1], d) == if r.day == Some(d) then Bump(buckets[d], r) else buckets[d]
      {
        DayGrows(log[..n], r, d);
      }
      if r.day.Some? && from <= r.day.value <= to {
        buckets := buckets[r.day.value := Bump(buckets[r.day.value], r)];
      }
      n := n + 1;
    }
    assert log[..n] == log;
  }

  lemma FooterStep(log: seq<Record>, from: int, day: int)
    requires from <= day
    ensures var b := DaySpec(log, day);
            && Columns(log, from, day) == Columns(log, from, day - 1).Plus(b.totals)
            && Recipients(log, from, day) == Recipients(log, from, day - 1) + b.recipients
            && Wallets(log, from, day) == Wallets(log, from, day - 1) + b.wallets
  {
    RangeCutColumns(log, from, day - 1, day);
    RangeCutSets(log, from, day - 1, day);
  }

  function TotalOf(buckets: seq<DayBucket>): Totals {
    if buckets == [] then NONE else TotalOf(buckets[..|buckets| - 1]).Plus(buckets[|buckets| - 1].totals)
  }

  function RecipientsOf(buckets: seq<DayBucket>): set<string> {
    if buckets == [] then {} else RecipientsOf(buckets[..|buckets| - 1]) + buckets[|buckets| - 1].recipients
  }

  function WalletsOf(buckets: seq<DayBucket>): set<string> {
    if buckets == [] then {} else WalletsOf(buckets[..|buckets| - 1]) + buckets[|buckets| - 1].wallets
  }

  /** The TOTAL row: sums of the buckets' columns and unions of their sets. */
  method Footer(buckets: seq<DayBucket>) returns (totals: Totals, recipients: set<string>, wallets: set<string>)
    ensures totals == TotalOf(buckets)
    ensures recipients == RecipientsOf(buckets) && wallets == WalletsOf(buckets)
  {
    recipients, wallets, totals := {}, {}, NONE;
    for n := 0 to |buckets|
      invariant totals == TotalOf(buckets[..n])
      invariant recipients == RecipientsOf(buckets[..n]) && wallets == WalletsOf(buckets[..n])
    {
      assert buckets[..n + 1][..n] == buckets[..n];
      recipients := recipients + buckets[n].recipients;
      wallets := wallets + buckets[n].wallets;
      totals := totals.Plus(buckets[n].totals);
    }
    assert buckets[..|buckets|] == buckets;
  }

  /** The TOTAL row computed from the buckets is the declarative total over the range. */
  lemma {:induction false} FooterMeaning(log: seq<Record>, from: int, to: int)
    requires from <= to + 1
    ensures TotalOf(DaySpecs(log, from, to)) == Columns(log, from, to)
    ensures RecipientsOf(DaySpecs(log, from, to)) == Recipients(log, from, to)
    ensures WalletsOf(DaySpecs(log, from, to)) == Wallets(log, from, to)
    decreases 1 + to - from
  {
    if to < from {
      EmptyRange(log, from, to);
    } else {
      FooterMeaning(log, from, to - 1);
      FooterStep(log, from, to);
      var bs := DaySpecs(log, from, to);
      assert bs[..|bs| - 1] == DaySpecs(log, from, to - 1);
    }
  }

  lemma NextDay(log: seq<Record>, from: int, day: int)
    requires from <= day
    ensures DaySpecs(log, from, day) == DaySpecs(log, from, day - 1) + [DaySpec(log, day)]
  {}

  /** The buckets in the order of their days. */
  method Sorted(log: seq<Record>, from: int, to: int, buckets: map<int, DayBucket>) returns (sorted: seq<DayBucket>)
    requires from <= to && forall d :: from <= d <= to ==> d in buckets && buckets[d] == DaySpec(log, d)
    ensures sorted == DaySpecs(log, from, to)
  {
    sorted := [];
    var day := from;
    while day <= to
      invariant from <= day <= to + 1
      invariant sorted == DaySpecs(log, from, day - 1)
    {
      NextDay(log, from, day);
      sorted := sorted + [buckets[day]];
      day := day + 1;
    }
  }

  /** `aggregate_period`, on any two dates. */
  method AggregatePeriod(log: seq<Record>, from: int, to: int) returns (result: Aggregate)
    requires from <= LAST_DAY && to <= LAST_DAY
    ensures result == if to < from || to - from >= MAX_REPORT_DAYS then BadRange
                      else if to == LAST_DAY then Overflow
                      else Summary(PeriodSpec(log, from, to))
    ensures result.Summary? ==> result.report.from == from && result.report.to == to
  {
    if to < from { return BadRange; }
    if to - from + 1 > MAX_REPORT_DAYS { return BadRange; }
    var empty := EmptyBuckets(from, to);
    if empty.None? { return Overflow; }
    var buckets := Accumulate(log, from, to, empty.value);
    var sorted := Sorted(log, from, to, buckets);
    var totals, recipients, wallets := Footer(sorted);
    FooterMeaning(log, from, to);
    result := Summary(PeriodSummary(from, to, sorted, totals, |recipients|, |wallets|));
  }

  // ----- what the report means ----------------------------------------------------------------

  lemma {:induction false} SumConcat(a: seq<Record>, b: seq<Record>, from: int, to: int, f: Field)
    ensures Sum(a + b, from, to, f) == Sum(a, from, to, f) + Sum(b, from, to, f)
  {
    if b == [] {
      assert a + b == a;
    } else {
      assert (a + b)[..|a + b| - 1] == a + b[..|b| - 1];
      SumConcat(a, b[..|b| - 1], from, to, f);
    }
  }

  lemma ColumnsConcat(a: seq<Record>, b: seq<Record>, from: int, to: int)
    ensures Columns(a + b, from, to) == Columns(a, from, to).Plus(Columns(b, from, to))
  {
    forall f: Field ensures Sum(a + b, from, to, f) == Sum(a, from, to, f) + Sum(b, from, to, f) {
      SumConcat(a, b, from, to, f);
    }
  }

  lemma SetsConcat(a: seq<Record>, b: seq<Record>, from: int, to: int)
    ensures Recipients(a + b, from, to) == Recipients(a, from, to) + Recipients(b, from, to)
    ensures Wallets(a + b, from, to) == Wallets(a, from, to) + Wallets(b, from, to)
  {
    forall r ensures r in a + b <==> r in a || r in b {}
  }

  /** Bucket x holds what y and z hold together: counts and volume added, sets united. */
  predicate Together(x: DayBucket, y: DayBucket, z: DayBucket) {
    && x.day == y.day == z.day && x.totals == y.totals.Plus(z.totals)
    && x.recipients == y.recipients + z.recipients && x.wallets == y.wallets + z.wallets
  }

  lemma DaysTogether(a: seq<Record>, b: seq<Record>, day: int)
    ensures Together(DaySpec(a + b, day), DaySpec(a, day), DaySpec(b, day))
  {
    ColumnsConcat(a, b, day, day);
    SetsConcat(a, b, day, day);
  }

  /** Concatenating the log adds the report's columns and unites its sets, day by day and in total. */
  lemma ReportAdditiveInLog(a: seq<Record>, b: seq<Record>, from: int, to: int)
    requires from <= to
    ensures var all, x, y := PeriodSpec(a + b, from, to), PeriodSpec(a, from, to), PeriodSpec(b, from, to);
            && all.totals == x.totals.Plus(y.totals)
            && all.uniqueRecipients == |Recipients(a, from, to) + Recipients(b, from, to)|
            && all.uniqueWallets == |Wallets(a, from, to) + Wallets(b, from, to)|
            && forall i :: 0 <= i <= to - from ==> Together(all.buckets[i], x.buckets[i], y.buckets[i])
  {
    ColumnsConcat(a, b, from, to);
    SetsConcat(a, b, from, to);
    forall i | 0 <= i <= to - from
      ensures Together(PeriodSpec(a + b, from, to).buckets[i], PeriodSpec(a, from, to).buckets[i], PeriodSpec(b, from, to).buckets[i])
    {
      DaysTogether(a, b, from + i);
    }
  }

  lemma {:induction false} DaysCut(log: seq<Record>, from: int, mid: int, to: int)
    requires from <= mid <= to
    ensures DaySpecs(log, from, to) == DaySpecs(log, from, mid) + DaySpecs(log, mid + 1, to)
    decreases 1 + to - mid
  {
    if mid < to { DaysCut(log, from, mid, to - 1); }
  }

  /** Cutting the range in two cuts the bucket list in two and splits every total. */
  lemma ReportAdditiveInRange(log: seq<Record>, from: int, mid: int, to: int)
    requires from <= mid < to
    ensures PeriodSpec(log, from, to).buckets ==
            PeriodSpec(log, from, mid).buckets + PeriodSpec(log, mid + 1, to).buckets
    ensures PeriodSpec(log, from, to).totals ==
            PeriodSpec(log, from, mid).totals.Plus(PeriodSpec(log, mid + 1, to).totals)
    ensures PeriodSpec(log, from, to).uniqueRecipients == |Recipients(log, from, mid) + Recipients(log, mid + 1, to)|
    ensures PeriodSpec(log, from, to).uniqueWallets == |Wallets(log, from, mid) + Wallets(log, mid + 1, to)|
  {
    RangeCutColumns(log, from, mid, to);
    RangeCutSets(log, from, mid, to);
    DaysCut(log, from, mid, to);
  }

  function Without(log: seq<Record>, i: nat): seq<Record>
    requires i < |log|
  {
    log[..i] + log[i + 1..]
  }

  lemma SumWithout(log: seq<Record>, i: nat, from: int, to: int, f: Field)
    requires i < |log|
    ensures Sum(log, from, to, f) == Sum(Without(log, i), from, to, f) + WeightIn(log[i], from, to, f)
  {
    assert log == (log[..i] + [log[i]]) + log[i + 1..];
    SumConcat(log[..i] + [log[i]], log[i + 1..], from, to, f);
    SumConcat(log[..i], [log[i]], from, to, f);
    SumConcat(log[..i], log[i + 1..], from, to, f);
  }

  lemma {:induction false} SumPermuted(a: seq<Record>, b: seq<Record>, from: int, to: int, f: Field)
    requires multiset(a) == multiset(b)
    ensures Sum(a, from, to, f) == Sum(b, from, to, f)
    decreases |a|
  {
    assert |a| == |multiset(a)| == |multiset(b)| == |b|;
    if a != [] {
      var i := Occurrence(a, b);
      SumPermuted(a[..|a| - 1], Without(b, i), from, to, f);
      SumWithout(b, i, from, to, f);
    }
  }

  lemma Occurrence(a: seq<Record>, b: seq<Record>) returns (i: nat)
    requires a != [] && multiset(a) == multiset(b)
    ensures i < |b| && b[i] == a[|a| - 1] && multiset(a[..|a| - 1]) == multiset(Without(b, i))
  {
    assert a[|a| - 1] in multiset(b);
    i :| 0 <= i < |b| && b[i] == a[|a| - 1];
    MultisetWithout(a, |a| - 1);
    MultisetWithout(b, i);
    assert Without(a, |a| - 1) == a[..|a| - 1];
    assert multiset(Without(b, i)) == multiset(a) - multiset{a[|a| - 1]};
  }

  lemma MultisetWithout(s: seq<Record>, i: nat)
    requires i < |s|
    ensures multiset(Without(s, i)) == multiset(s) - multiset{s[i]}
  {
    assert s == s[..i] + [s[i]] + s[i + 1..];
    assert multiset(s) == multiset(s[..i]) + multiset{s[i]} + multiset(s[i + 1..]);
  }

  /** The report does not depend on the order of the log. */
  lemma ReportPermutationInvariant(a: seq<Record>, b: seq<Record>, from: int, to: int)
    requires from <= to && multiset(a) == multiset(b)
    ensures PeriodSpec(a, from, to) == PeriodSpec(b, from, to)
  {
    assert forall r :: r in a <==> r in multiset(a);
    assert forall r :: r in b <==> r in multiset(b);
    forall f: Field, x, y ensures Sum(a, x, y, f) == Sum(b, x, y, f) {
      SumPermuted(a, b, x, y, f);
    }
    forall x, y
      ensures Recipients(a, x, y) == Recipients(b, x, y) && Wallets(a, x, y) == Wallets(b, x, y)
    {
    }
    var xs, ys := DaySpecs(a, from, to), DaySpecs(b, from, to);
    forall i | 0 <= i < |xs| ensures xs[i] == ys[i] {
      assert DaySpec(a, from + i) == DaySpec(b, from + i);
    }
    assert xs == ys;
  }

  /** Exactly one bucket per day of the range, in ascending order. */
  lemma OneBucketPerDay(log: seq<Record>, from: int, to: int, day: int)
    requires from <= to
    ensures var bs := PeriodSpec(log, from, to).buckets;
            && |bs| == to - from + 1
            && (forall i, j :: 0 <= i < j < |bs| ==> bs[i].day < bs[j].day)
            && (from <= day <= to <==> exists i :: 0 <= i < |bs| && bs[i].day == day)
  {
    var bs := PeriodSpec(log, from, to).buckets;
    if from <= day <= to { assert bs[day - from].day == day; }
  }

  // ----- calendar months ----------------------------------------------------------------------

  predicate Leap(year: int) {
    year % 4 == 0 && (year % 100 != 0 || year % 400 == 0)
  }

  function DaysInMonth(year: int, month: int): int
    requires 1 <= month <= 12
  {
    if month == 2 then if Leap(year) then 29 else 28
    else if month in {4, 6, 9, 11} then 30 else 31
  }

  function DaysBeforeYear(year: int): int {
    var y := year - 1;
    y * 365 + y / 4 - y / 100 + y / 400
  }

  function DaysBeforeMonth(year: int, month: int): int
    requires 1 <= month <= 12
  {
    if month == 1 then 0 else DaysBeforeMonth(year, month - 1) + DaysInMonth(year, month - 1)
  }

  /** `date(year, month, day).toordinal()`. */
  function Ordinal(year: int, month: int, day: int): int
    requires 1 <= month <= 12
  {
    DaysBeforeYear(year) + DaysBeforeMonth(year, month) + day
  }

  /** `parse_period_yyyymm` after its two `int()` calls; None stands for the ValueErrors. */
  function ParsePeriod(year: int, month: int): Option<(int, int)> {
    if !(1 <= month <= 12) || !(1 <= year <= 9999) then None
    else Some((Ordinal(year, month, 1),
               if month == 12 then Ordinal(year, 12, 31) else Ordinal(year, month + 1, 1) - 1))
  }

  /** The i-th month of the calendar, counting January of year 1 as 0. */
  function Month(i: nat): (int, int)
    requires i < 12 * 9999
  {
    ParsePeriod(i / 12 + 1, i % 12 + 1).value
  }

  /** The first day of the month after this one. */
  function NextMonth(year: int, month: int): int
    requires 1 <= month <= 12
  {
    if month == 12 then Ordinal(year + 1, 1, 1) else Ordinal(year, month + 1, 1)
  }

  lemma Carry4(year: int)
    ensures year / 4 == (year - 1) / 4 + (if year % 4 == 0 then 1 else 0)
  {
  }

  lemma Carry100(year: int)
    ensures year / 100 == (year - 1) / 100 + (if year % 100 == 0 then 1 else 0)
  {
  }

  lemma Carry400(year: int)
    ensures year / 400 == (year - 1) / 400 + (if year % 400 == 0 then 1 else 0)
  {
  }

  lemma LeapDigits(year: int)
    ensures year % 400 == 0 ==> year % 100 == 0
    ensures year % 100 == 0 ==> year % 4 == 0
  {
  }

  lemma YearLength(year: int)
    ensures DaysBeforeYear(year + 1) == DaysBeforeYear(year) + (if Leap(year) then 366 else 365)
    ensures DaysBeforeMonth(year, 12) + 31 == if Leap(year) then 366 else 365
  {
    MonthsLength(year);
    Carry4(year);
    Carry100(year);
    Carry400(year);
    LeapDigits(year);
  }

  lemma MonthsLength(year: int)
    ensures DaysBeforeMonth(year, 12) + 31 == if Leap(year) then 366 else 365
  {
    assert DaysBeforeMonth(year, 2) == 31;
    assert DaysBeforeMonth(year, 3) == 31 + DaysInMonth(year, 2);
    assert DaysBeforeMonth(year, 5) == DaysBeforeMonth(year, 3) + 61;
    assert DaysBeforeMonth(year, 7) == DaysBeforeMonth(year, 5) + 61;
    assert DaysBeforeMonth(year, 9) == DaysBeforeMonth(year, 7) + 62;
    assert DaysBeforeMonth(year, 11) == DaysBeforeMonth(year, 9) + 61;
    assert DaysBeforeMonth(year, 12) == DaysBeforeMonth(year, 11) + 30;
  }

  lemma MonthLength(year: int, month: int)
    requires 1 <= month <= 12 && 1 <= year <= 9999
    ensures ParsePeriod(year, month).value.1 + 1 == NextMonth(year, month)
    ensures ParsePeriod(year, month).value.1 - ParsePeriod(year, month).value.0 + 1 == DaysInMonth(year, month)
  {
    YearLength(year);
  }

  lemma NextIndex(i: nat)
    ensures (i + 1) / 12 == i / 12 + (if i % 12 == 11 then 1 else 0)
    ensures (i + 1) % 12 == if i % 12 == 11 then 0 else i % 12 + 1
  {
  }

  /** A month has 28 to 31 days, fits a report, and the next one starts the day after it ends. */
  lemma MonthsAdjoin(i: nat)
    requires i < 12 * 9999
    ensures 28 <= Month(i).1 - Month(i).0 + 1 <= 31
    ensures Month(i).0 <= Month(i).1 && Month(i).1 - Month(i).0 < MAX_REPORT_DAYS
    ensures i + 1 < 12 * 9999 ==> Month(i + 1).0 == Month(i).1 + 1
  {
    MonthLength(i / 12 + 1, i % 12 + 1);
    NextIndex(i);
  }

  lemma {:induction false} MonthsOrdered(i: nat, j: nat)
    requires i < j < 12 * 9999
    ensures Month(i).1 < Month(j).0
    decreases j - i
  {
    MonthsAdjoin(j - 1);
    if i < j - 1 { MonthsOrdered(i, j - 1); }
  }

  lemma {:induction false} MonthOfDay(day: int, last: nat) returns (i: nat)
    requires last < 12 * 9999 && Month(0).0 <= day <= Month(last).1
    ensures i <= last && Month(i).0 <= day <= Month(i).1
    decreases last
  {
    MonthsAdjoin(last);
    if day >= Month(last).0 { return last; }
    MonthsAdjoin(last - 1);
    i := MonthOfDay(day, last - 1);
  }

  /** Every day of years 1 to 9999 lies in exactly one month period. */
  lemma MonthsTileTheCalendar(day: int)
    requires Ordinal(1, 1, 1) <= day <= Ordinal(9999, 12, 31)
    ensures exists i: nat :: i < 12 * 9999 && Month(i).0 <= day <= Month(i).1
    ensures forall i: nat, j: nat ::
              (&& i < 12 * 9999 && Month(i).0 <= day <= Month(i).1
               && j < 12 * 9999 && Month(j).0 <= day <= Month(j).1)
              ==> i == j
  {
    var i := MonthOfDay(day, 12 * 9999 - 1);
    forall i: nat, j: nat | i < j < 12 * 9999 { MonthsOrdered(i, j); }
  }

  lemma LastDay()
    ensures Ordinal(9999, 12, 31) == LAST_DAY
  {
    MonthsLength(9999);
  }

  /** Of all months exactly December 9999 cannot be reported: its range is valid, and its last day is
      the one that overflows. */
  lemma OnlyTheLastMonthOverflows(i: nat)
    requires i < 12 * 9999
    ensures Month(i).0 <= Month(i).1 <= LAST_DAY && Month(i).1 - Month(i).0 < MAX_REPORT_DAYS
    ensures Month(i).1 == LAST_DAY <==> Month(i) == (Ordinal(9999, 12, 1), Ordinal(9999, 12, 31))
    ensures Month(i).1 == LAST_DAY <==> i == 12 * 9999 - 1
  {
    LastDay();
    MonthsAdjoin(i);
    var last: nat := 12 * 9999 - 1;
    assert Month(last) == (Ordinal(9999, 12, 1), Ordinal(9999, 12, 31));
    if i < last { MonthsOrdered(i, last); MonthsAdjoin(last); }
  }
}
