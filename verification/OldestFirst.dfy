/** `ORDER BY age ASC LIMIT n` over rows known by number: what such a query may answer, and that
    answer found by repeated selection. */
module OldestFirst {
  predicate Distinct(sel: seq<nat>) {
    forall m, n :: 0 <= m < n < |sel| ==> sel[m] != sel[n]
  }

  /** At most `limit` of the rows, oldest first, ties in any order, and fewer than `limit` only
      when there are no more. */
  predicate FirstOf(ages: map<nat, real>, limit: nat, sel: seq<nat>) {
    && Distinct(sel)
    && (forall m :: 0 <= m < |sel| ==> sel[m] in ages)
    && |sel| == (if |ages| < limit then |ages| else limit)
    && (forall m, n :: 0 <= m < n < |sel| ==> ages[sel[m]] <= ages[sel[n]])
    && (forall m, j :: 0 <= m < |sel| && j in ages && j !in sel ==> ages[sel[m]] <= ages[j])
  }

  method Oldest(ages: map<nat, real>, rows: set<nat>) returns (m: nat)
    requires rows != {} && rows <= ages.Keys
    ensures m in rows && forall i :: i in rows ==> ages[m] <= ages[i]
  {
    m :| m in rows;
    var todo := rows - {m};
    while todo != {}
      invariant m in rows && todo <= rows
      invariant forall i :: i in rows - todo ==> ages[m] <= ages[i]
      decreases todo
    {
      var i :| i in todo;
      if ages[i] < ages[m] { m := i; }
      todo := todo - {i};
    }
  }

  method Select(ages: map<nat, real>, limit: nat) returns (sel: seq<nat>)
    ensures FirstOf(ages, limit, sel)
  {
    var rest := ages.Keys;
    sel := [];
    while |sel| < limit && rest != {}
      invariant Distinct(sel) && |sel| <= limit
      invariant forall j :: j in ages ==> j in rest || j in sel
      invariant forall m :: 0 <= m < |sel| ==> sel[m] in ages && sel[m] !in rest
      invariant rest <= ages.Keys && |sel| + |rest| == |ages|
      invariant forall m, j :: 0 <= m < |sel| && j in rest ==> ages[sel[m]] <= ages[j]
      invariant forall m, n :: 0 <= m < n < |sel| ==> ages[sel[m]] <= ages[sel[n]]
      decreases rest
    {
      var m := Oldest(ages, rest);
      sel := sel + [m];
      rest := rest - {m};
    }
  }

  function Elements(sel: seq<nat>): set<nat> {
    set m | 0 <= m < |sel| :: sel[m]
  }

  lemma {:induction false} SubsetCard(a: set<nat>, b: set<nat>)
    requires a <= b
    ensures |a| <= |b|
    decreases a
  {
    if a != {} {
      var x :| x in a;
      SubsetCard(a - {x}, b - {x});
    }
  }

  lemma ElementsIn(sel: seq<nat>, x: nat)
    ensures x in Elements(sel) <==> x in sel
  {}

  lemma ElementsSnoc(sel: seq<nat>)
    requires sel != []
    ensures Elements(sel) == Elements(sel[..|sel| - 1]) + {sel[|sel| - 1]}
  {
    var rest, last := sel[..|sel| - 1], sel[|sel| - 1];
    forall x | x in Elements(sel) ensures x in Elements(rest) + {last} {
      var m :| 0 <= m < |sel| && sel[m] == x;
      if m < |rest| { assert rest[m] == x; }
    }
    forall x | x in Elements(rest) ensures x in Elements(sel) {
      var m :| 0 <= m < |rest| && rest[m] == x;
      assert sel[m] == x;
    }
    assert sel[|sel| - 1] in Elements(sel);
  }

  lemma {:induction false} ElementsCard(sel: seq<nat>)
    ensures |Elements(sel)| <= |sel|
    ensures Distinct(sel) ==> |Elements(sel)| == |sel|
  {
    if sel != [] {
      var rest := sel[..|sel| - 1];
      ElementsSnoc(sel);
      ElementsCard(rest);
      SubsetCard(Elements(sel), Elements(rest) + {sel[|sel| - 1]});
      if Distinct(sel) {
        assert Distinct(rest);
        assert sel[|sel| - 1] !in Elements(rest);
      }
    }
  }

  /** A selection that leaves a row out is full. */
  lemma LeftOutMeansFull(ages: map<nat, real>, limit: nat, sel: seq<nat>, left: nat)
    requires FirstOf(ages, limit, sel) && left in ages && left !in sel
    ensures |sel| == limit
  {
    var served := Elements(sel);
    ElementsCard(sel);
    assert left !in served;
    SubsetCard(served + {left}, ages.Keys);
    assert |served + {left}| == |served| + 1;
  }

  lemma {:induction false} PickDistinct(pool: set<nat>, n: nat) returns (sel: seq<nat>)
    requires n <= |pool|
    ensures |sel| == n && Distinct(sel) && forall m :: 0 <= m < n ==> sel[m] in pool
  {
    if n == 0 {
      sel := [];
    } else {
      var x :| x in pool;
      var rest := PickDistinct(pool - {x}, n - 1);
      sel := rest + [x];
    }
  }

  lemma {:induction false} OldestExists(ages: map<nat, real>, rows: set<nat>) returns (m: nat)
    requires rows != {} && rows <= ages.Keys
    ensures m in rows && forall i :: i in rows ==> ages[m] <= ages[i]
    decreases rows
  {
    m :| m in rows;
    if rows != {m} {
      var n := OldestExists(ages, rows - {m});
      if ages[n] < ages[m] { m := n; }
    }
  }

  /** Every query has an answer. */
  lemma {:induction false} FirstExists(ages: map<nat, real>, limit: nat) returns (sel: seq<nat>)
    ensures FirstOf(ages, limit, sel)
  {
    sel := [];
    if limit > 0 {
      sel := FirstExists(ages, limit - 1);
      var rest := ages.Keys - Elements(sel);
      ElementsCard(sel);
      SubsetCard(Elements(sel), ages.Keys);
      assert |rest| == |ages| - |sel|;
      if rest != {} {
        var m := OldestExists(ages, rest);
        ElementsIn(sel, m);
        OneMoreFirst(ages, limit, sel, rest, m);
        sel := sel + [m];
      }
    }
  }

  lemma OneMoreFirst(ages: map<nat, real>, limit: nat, sel: seq<nat>, rest: set<nat>, m: nat)
    requires limit > 0 && FirstOf(ages, limit - 1, sel) && rest == ages.Keys - Elements(sel) && |rest| == |ages| - |sel|
    requires m in rest && m !in sel && forall i :: i in rest ==> ages[m] <= ages[i]
    ensures FirstOf(ages, limit, sel + [m])
  {
    var more := sel + [m];
    assert |rest| > 0;
    forall i | 0 <= i < |sel| ensures ages[sel[i]] <= ages[m] {}
    forall j | j in ages && j !in more ensures j !in sel && ages[m] <= ages[j] {
      assert more == sel + [m];
      ElementsIn(sel, j);
    }
    forall i, j | 0 <= i < |more| && j in ages && j !in more ensures ages[more[i]] <= ages[j] {
      assert j !in sel;
      if i < |sel| { assert more[i] == sel[i]; }
    }
  }
}
