/**
 The largest-remainder (Hamilton) allocator that splits a gross distribution over
 the holders of an ownership snapshot (src/platform/postgres-distributions.ts:71).
 The in-place method is specified by `IsAllocation`, which speaks of quotas,
 remainders and the total only. The lemmas below prove what that specification
 means: it leaves exactly one result, whatever the order of the holdings.
 */
module Allocation {
  import opened Sums

  datatype Holding = Holding(investor: int, balance: int)

  datatype Row = Row(investor: int, balance: int, gross: int, remainder: int)

  function BalanceOf(): Row -> int { (r: Row) => r.balance }
  function GrossOf(): Row -> int { (r: Row) => r.gross }
  function RemainderOf(): Row -> int { (r: Row) => r.remainder }
  function HeldUnits(): Holding -> int { (h: Holding) => h.balance }

  function HoldingOf(r: Row): Holding { Holding(r.investor, r.balance) }

  function HoldingsOf(rows: seq<Row>): seq<Holding>
  {
    seq(|rows|, i requires 0 <= i < |rows| => HoldingOf(rows[i]))
  }

  // What the snapshot guarantees (lines 45-49 and the GROUP BY at line 76): at least one holder,
  // positive balances, each investor once.
  ghost predicate ValidHoldings(holdings: seq<Holding>)
  {
    && holdings != []
    && (forall h :: h in holdings ==> h.balance > 0)
    && forall i, j :: 0 <= i < j < |holdings| ==> holdings[i].investor != holdings[j].investor
  }

  // The comparator of the first sort: larger remainder first, ties by investor id.
  predicate Precedes(a: Row, b: Row)
  {
    a.remainder > b.remainder || (a.remainder == b.remainder && a.investor < b.investor)
  }

  // The comparator of the second sort.
  predicate ComesFirst(a: Row, b: Row) { a.investor < b.investor }

  ghost predicate Bumped(gross: int, total: int, r: Row)
    requires total > 0
  {
    r.gross == gross * r.balance / total + 1
  }

  // Every row gets its quota rounded down or one unit more.
  ghost predicate Quota(gross: int, total: int, r: Row)
    requires total > 0
  {
    && r.balance > 0
    && r.remainder == gross * r.balance % total
    && (r.gross == gross * r.balance / total || Bumped(gross, total, r))
  }

  ghost predicate SortedByInvestor(rows: seq<Row>)
  {
    forall i, j :: 0 <= i < j < |rows| ==> rows[i].investor < rows[j].investor
  }

  // The units left after rounding down went to a set of rows that is closed under `Precedes`.
  ghost predicate BumpsFollowRemainders(gross: int, total: int, rows: seq<Row>)
    requires total > 0
  {
    forall a, b :: a in rows && b in rows && Bumped(gross, total, a) && !Bumped(gross, total, b) ==> Precedes(a, b)
  }

  /** The specification of `allocate`. */
  ghost predicate IsAllocation(gross: int, rows: seq<Row>)
  {
    var total := Sum(rows, BalanceOf());
    && gross >= 0
    && total > 0
    && (forall r :: r in rows ==> Quota(gross, total, r))
    && Sum(rows, GrossOf()) == gross
    && BumpsFollowRemainders(gross, total, rows)
    && SortedByInvestor(rows)
  }

  // ---------- sorting: the library sort, stable, as an insertion sort ----------

  function InsertBy(s: seq<Row>, r: Row, before: (Row, Row) -> bool): seq<Row>
  {
    if s == [] || !before(r, s[|s| - 1]) then s + [r]
    else InsertBy(s[..|s| - 1], r, before) + [s[|s| - 1]]
  }

  function SortBy(s: seq<Row>, before: (Row, Row) -> bool): seq<Row>
  {
    if s == [] then [] else InsertBy(SortBy(s[..|s| - 1], before), s[|s| - 1], before)
  }

  ghost predicate DistinctInvestors(rows: seq<Row>)
  {
    forall i, j :: 0 <= i < j < |rows| ==> rows[i].investor != rows[j].investor
  }

  ghost predicate InOrder(rows: seq<Row>, before: (Row, Row) -> bool)
  {
    forall i, j :: 0 <= i < j < |rows| ==> before(rows[i], rows[j])
  }

  // `before` orders any two rows of different investors, one way only, transitively.
  ghost predicate Orders(before: (Row, Row) -> bool)
  {
    && (forall a: Row, b: Row :: a.investor != b.investor ==> before(a, b) || before(b, a))
    && (forall a, b, c :: before(a, b) && before(b, c) ==> before(a, c))
  }

  lemma {:induction false} InsertKeeps(s: seq<Row>, r: Row, before: (Row, Row) -> bool, f: Row -> int)
    ensures |InsertBy(s, r, before)| == |s| + 1
    ensures forall x :: x in InsertBy(s, r, before) <==> x in s || x == r
    ensures Sum(InsertBy(s, r, before), f) == Sum(s, f) + f(r)
  {
    if s == [] || !before(r, s[|s| - 1]) {
      SumOfOneMore(s, r, f);
    } else {
      var n := |s| - 1;
      var t := InsertBy(s[..n], r, before);
      InsertKeeps(s[..n], r, before, f);
      SumOfOneMore(t, s[n], f);
      assert s == s[..n] + [s[n]];
    }
  }

  lemma OneMoreHolding(s: seq<Row>, r: Row)
    ensures multiset(HoldingsOf(s + [r])) == multiset(HoldingsOf(s)) + multiset{HoldingOf(r)}
  {
    assert HoldingsOf(s + [r]) == HoldingsOf(s) + [HoldingOf(r)];
  }

  lemma {:induction false} InsertKeepsHoldings(s: seq<Row>, r: Row, before: (Row, Row) -> bool)
    ensures multiset(HoldingsOf(InsertBy(s, r, before))) == multiset(HoldingsOf(s)) + multiset{HoldingOf(r)}
  {
    if s == [] || !before(r, s[|s| - 1]) {
      OneMoreHolding(s, r);
    } else {
      var n := |s| - 1;
      InsertKeepsHoldings(s[..n], r, before);
      OneMoreHolding(InsertBy(s[..n], r, before), s[n]);
      OneMoreHolding(s[..n], s[n]);
      assert s == s[..n] + [s[n]];
    }
  }

  lemma {:induction false} InsertInOrder(s: seq<Row>, r: Row, before: (Row, Row) -> bool)
    requires Orders(before) && InOrder(s, before) && DistinctInvestors(s)
    requires forall x :: x in s ==> x.investor != r.investor
    ensures InOrder(InsertBy(s, r, before), before) && DistinctInvestors(InsertBy(s, r, before))
  {
    if s != [] {
      var n := |s| - 1;
      if before(r, s[n]) {
        InsertInOrder(s[..n], r, before);
        InsertKeeps(s[..n], r, before, BalanceOf());
        var t := InsertBy(s[..n], r, before);
        forall i | 0 <= i < |t| ensures before(t[i], s[n]) && t[i].investor != s[n].investor {
          assert t[i] in s[..n] || t[i] == r;
        }
      } else {
        assert forall i :: 0 <= i < |s| ==> before(s[i], r);
      }
    }
  }

  lemma {:induction false} SortKeepsHoldings(s: seq<Row>, before: (Row, Row) -> bool)
    ensures multiset(HoldingsOf(SortBy(s, before))) == multiset(HoldingsOf(s))
  {
    if s != [] {
      var n := |s| - 1;
      SortKeepsHoldings(s[..n], before);
      InsertKeepsHoldings(SortBy(s[..n], before), s[n], before);
      OneMoreHolding(s[..n], s[n]);
      assert s == s[..n] + [s[n]];
    }
  }

  lemma {:induction false} SortKeeps(s: seq<Row>, before: (Row, Row) -> bool, f: Row -> int)
    ensures |SortBy(s, before)| == |s|
    ensures forall x :: x in SortBy(s, before) <==> x in s
    ensures Sum(SortBy(s, before), f) == Sum(s, f)
  {
    if s != [] {
      var n := |s| - 1;
      SortKeeps(s[..n], before, f);
      InsertKeeps(SortBy(s[..n], before), s[n], before, f);
      assert s == s[..n] + [s[n]];
    }
  }

  lemma {:induction false} SortInOrder(s: seq<Row>, before: (Row, Row) -> bool)
    requires Orders(before) && DistinctInvestors(s)
    ensures InOrder(SortBy(s, before), before) && DistinctInvestors(SortBy(s, before))
  {
    if s != [] {
      var n := |s| - 1;
      SortInOrder(s[..n], before);
      SortKeeps(s[..n], before, BalanceOf());
      InsertInOrder(SortBy(s[..n], before), s[n], before);
    }
  }

  // ---------- arithmetic of quotas ----------

  lemma QuotaParts(x: int, total: int)
    requires x >= 0 && total > 0
    ensures x == x / total * total + x % total && 0 <= x % total < total && x / total >= 0
  {
  }

  lemma Scale(k: int, a: int, b: int)
    requires k >= 0
    ensures a <= b ==> k * a <= k * b
    ensures k > 0 && a < b ==> k * a < k * b
  {
  }

  lemma FactorIsSmall(total: int, factor: int, n: int, s: int)
    requires total > 0 && n > 0 && s == total * factor && 0 <= s <= total * n - n
    ensures 0 <= factor < n
  {
    Scale(total, n, factor);
    Scale(total, factor, -1);
  }

  // What rounding down leaves of one row's quota.
  lemma RowRemainder(gross: int, total: int, r: Row)
    requires gross >= 0 && total > 0 && r.balance > 0
    requires r.gross == gross * r.balance / total && r.remainder == gross * r.balance % total
    ensures r.remainder == gross * r.balance + (-total) * r.gross && 0 <= r.remainder <= total - 1
  {
    QuotaParts(gross * r.balance, total);
  }

  lemma RemaindersAddUp(gross: int, rows: seq<Row>, total: int)
    requires gross >= 0 && total == Sum(rows, BalanceOf()) && total > 0
    requires Rounded(gross, total, rows)
    ensures Sum(rows, RemainderOf()) == gross * total + (-total) * Sum(rows, GrossOf())
    ensures 0 <= Sum(rows, RemainderOf()) <= (total - 1) * |rows|
  {
    forall r | r in rows
      ensures RemainderOf()(r) == gross * BalanceOf()(r) + (-total) * GrossOf()(r) && 0 <= r.remainder <= total - 1
    {
      RowRemainder(gross, total, r);
    }
    SumIsLinear(rows, BalanceOf(), GrossOf(), RemainderOf(), gross, -total);
    SumBounds(rows, RemainderOf(), 0, total - 1);
  }

  lemma Distribute(gross: int, total: int, shares: int, n: int)
    ensures gross * total + (-total) * shares == total * (gross - shares)
    ensures (total - 1) * n == total * n - n
  {
  }

  // Rounding down loses remainders that add up to a whole number of totals, fewer than there are rows.
  lemma ResidualIsSmall(gross: int, rows: seq<Row>, total: int)
    requires gross >= 0 && rows != [] && total == Sum(rows, BalanceOf()) && total > 0
    requires Rounded(gross, total, rows)
    ensures 0 <= gross - Sum(rows, GrossOf()) < |rows|
  {
    var shares := Sum(rows, GrossOf());
    RemaindersAddUp(gross, rows, total);
    Distribute(gross, total, shares, |rows|);
    FactorIsSmall(total, gross - shares, |rows|, Sum(rows, RemainderOf()));
  }

  lemma QuotientsInOrder(x: int, y: int, p: int, q: int, u: int, v: int, total: int)
    requires x <= y && total > 0 && x == total * p + u && y == total * q + v && 0 <= u < total && 0 <= v < total
    ensures p <= q && (p == q ==> v - u == y - x)
  {
    Scale(total, q + 1, p);
    assert total * (q + 1) == total * q + total;
  }

  // A larger numerator has a larger quotient, or the same quotient and a remainder larger by the difference.
  lemma DivisionIsMonotone(x: int, y: int, total: int)
    requires 0 <= x <= y && total > 0
    ensures x / total <= y / total
    ensures x / total == y / total ==> y % total - x % total == y - x
  {
    QuotaParts(x, total);
    QuotaParts(y, total);
    QuotientsInOrder(x, y, x / total, y / total, x % total, y % total, total);
  }

  // ---------- the method ----------

  ghost predicate Rounded(gross: int, total: int, rows: seq<Row>)
    requires total > 0
  {
    forall r :: r in rows ==>
                  r.balance > 0 && r.gross == gross * r.balance / total && r.remainder == gross * r.balance % total
  }

  /**
   Total, rounded quotas and residual come from reduce loops; the rows are then sorted in
   place by remainder, the first `residual` rows are bumped in place, and the rows are
   sorted in place by investor.
   */
  method Allocate(gross: int, holdings: seq<Holding>) returns (rows: array<Row>)
    requires gross >= 0 && ValidHoldings(holdings)
    ensures IsAllocation(gross, rows[..])
    ensures multiset(HoldingsOf(rows[..])) == multiset(holdings)
  {
    var total := TotalUnits(holdings);
    rows := FloorRows(gross, total, holdings);
    ghost var floors := rows[..];
    FloorsMatch(holdings, floors);
    ResidualIsSmall(gross, floors, total);
    var residual := Residual(gross, rows);
    ghost var ranked := SortBy(floors, Precedes);
    RankedFloors(floors);
    WriteBack(rows, SortBy(rows[..], Precedes));
    BumpRows(rows, residual);
    ghost var bumped := rows[..];
    BumpingIsFair(gross, total, ranked, residual);
    SortingKeepsFairness(gross, total, bumped);
    WriteBack(rows, SortBy(rows[..], ComesFirst));
  }

  method TotalUnits(holdings: seq<Holding>) returns (total: int)
    requires ValidHoldings(holdings)
    ensures total == Sum(holdings, HeldUnits()) && total > 0
  {
    total := 0;
    for i := 0 to |holdings|
      invariant total == Sum(holdings[..i], HeldUnits()) && total >= 0 && (i > 0 ==> total > 0)
    {
      assert holdings[..i + 1] == holdings[..i] + [holdings[i]];
      SumOfOneMore(holdings[..i], holdings[i], HeldUnits());
      total := total + holdings[i].balance;
    }
    assert holdings[..|holdings|] == holdings;
  }

  method FloorRows(gross: int, total: int, holdings: seq<Holding>) returns (rows: array<Row>)
    requires ValidHoldings(holdings) && total > 0
    ensures fresh(rows) && rows.Length == |holdings|
    ensures HoldingsOf(rows[..]) == holdings && Rounded(gross, total, rows[..])
  {
    rows := new Row[|holdings|](i requires 0 <= i < |holdings| && total > 0 =>
                                var share := gross * holdings[i].balance;
                                Row(holdings[i].investor, holdings[i].balance, share / total, share % total));
    forall i | 0 <= i < rows.Length ensures HoldingOf(rows[i]) == holdings[i] && rows[i].balance > 0 {
      assert holdings[i] in holdings;
    }
  }

  method Residual(gross: int, rows: array<Row>) returns (residual: int)
    ensures residual == gross - Sum(rows[..], GrossOf())
  {
    residual := gross;
    for i := 0 to rows.Length
      invariant residual == gross - Sum(rows[..i], GrossOf())
    {
      assert rows[..i + 1] == rows[..i] + [rows[i]];
      SumOfOneMore(rows[..i], rows[i], GrossOf());
      residual := residual - rows[i].gross;
    }
    assert rows[..rows.Length] == rows[..];
  }

  method BumpRows(rows: array<Row>, units: int)
    requires 0 <= units < rows.Length
    modifies rows
    ensures rows[..] == BumpFirst(old(rows[..]), units)
  {
    var residual, index := units, 0;
    while residual > 0
      invariant 0 <= index <= units && residual == units - index
      invariant rows[..] == BumpFirst(old(rows[..]), index)
      decreases residual
    {
      rows[index] := rows[index].(gross := rows[index].gross + 1);
      index := index + 1;
      residual := residual - 1;
    }
  }

  // Array.prototype.sort leaves the sorted values in the array it was called on.
  method WriteBack(a: array<Row>, values: seq<Row>)
    requires |values| == a.Length
    modifies a
    ensures a[..] == values
  {
    for i := 0 to a.Length
      invariant a[..i] == values[..i]
    {
      a[i] := values[i];
    }
  }

  ghost function BumpFirst(rows: seq<Row>, n: int): (r: seq<Row>)
    requires 0 <= n <= |rows|
    ensures |r| == |rows|
  {
    seq(|rows|, i requires 0 <= i < |rows| => if i < n then rows[i].(gross := rows[i].gross + 1) else rows[i])
  }

  lemma FloorsMatch(holdings: seq<Holding>, rows: seq<Row>)
    requires HoldingsOf(rows) == holdings && ValidHoldings(holdings)
    ensures Sum(rows, BalanceOf()) == Sum(holdings, HeldUnits()) && DistinctInvestors(rows)
  {
    assert forall i :: 0 <= i < |rows| ==> HoldingOf(rows[i]) == holdings[i];
    SumsAgree(rows, holdings, BalanceOf(), HeldUnits());
  }

  lemma RankedFloors(floors: seq<Row>)
    requires DistinctInvestors(floors)
    ensures var ranked := SortBy(floors, Precedes);
            |ranked| == |floors| && InOrder(ranked, Precedes) && DistinctInvestors(ranked)
            && (forall x :: x in ranked <==> x in floors)
            && Sum(ranked, BalanceOf()) == Sum(floors, BalanceOf())
            && Sum(ranked, GrossOf()) == Sum(floors, GrossOf())
            && multiset(HoldingsOf(ranked)) == multiset(HoldingsOf(floors))
  {
    SortKeepsHoldings(floors, Precedes);
    SortKeeps(floors, Precedes, BalanceOf());
    SortKeeps(floors, Precedes, GrossOf());
    SortInOrder(floors, Precedes);
  }

  lemma {:induction false} BumpAddsOneEach(rows: seq<Row>, n: int)
    requires 0 <= n <= |rows|
    ensures Sum(BumpFirst(rows, n), GrossOf()) == Sum(rows, GrossOf()) + n
    ensures Sum(BumpFirst(rows, n), BalanceOf()) == Sum(rows, BalanceOf())
  {
    if rows != [] {
      var m := |rows| - 1;
      if n == |rows| {
        BumpAddsOneEach(rows[..m], m);
        assert BumpFirst(rows, n)[..m] == BumpFirst(rows[..m], m);
      } else {
        BumpAddsOneEach(rows[..m], n);
        assert BumpFirst(rows, n)[..m] == BumpFirst(rows[..m], n);
      }
    }
  }

  lemma BumpedRow(gross: int, total: int, r: Row, bumped: Row, units: int)
    requires total > 0 && r.balance > 0 && r.gross == gross * r.balance / total
    requires r.remainder == gross * r.balance % total
    requires bumped == r.(gross := r.gross + units) && 0 <= units <= 1
    ensures Quota(gross, total, bumped) && (Bumped(gross, total, bumped) <==> units == 1)
  {
  }

  lemma BumpsAreRanked(gross: int, total: int, ranked: seq<Row>, bumped: seq<Row>, n: int)
    requires total > 0 && |bumped| == |ranked| && InOrder(ranked, Precedes)
    requires forall i :: 0 <= i < |ranked| ==>
                           bumped[i].remainder == ranked[i].remainder && bumped[i].investor == ranked[i].investor
    requires forall i :: 0 <= i < |ranked| ==> (Bumped(gross, total, bumped[i]) <==> i < n)
    ensures BumpsFollowRemainders(gross, total, bumped)
  {
    forall a, b | a in bumped && b in bumped && Bumped(gross, total, a) && !Bumped(gross, total, b)
      ensures Precedes(a, b)
    {
      var i :| 0 <= i < |bumped| && bumped[i] == a;
      var j :| 0 <= j < |bumped| && bumped[j] == b;
      assert Precedes(ranked[i], ranked[j]);
    }
  }

  lemma BumpingIsFair(gross: int, total: int, ranked: seq<Row>, n: int)
    requires gross >= 0 && total > 0 && total == Sum(ranked, BalanceOf())
    requires Rounded(gross, total, ranked)
    requires InOrder(ranked, Precedes) && DistinctInvestors(ranked)
    requires 0 <= n < |ranked| && n == gross - Sum(ranked, GrossOf())
    ensures var bumped := BumpFirst(ranked, n);
            && (forall r :: r in bumped ==> Quota(gross, total, r))
            && Sum(bumped, GrossOf()) == gross && Sum(bumped, BalanceOf()) == total
            && BumpsFollowRemainders(gross, total, bumped) && DistinctInvestors(bumped)
            && HoldingsOf(bumped) == HoldingsOf(ranked)
  {
    var bumped := BumpFirst(ranked, n);
    BumpAddsOneEach(ranked, n);
    forall i | 0 <= i < |bumped|
      ensures Quota(gross, total, bumped[i]) && (Bumped(gross, total, bumped[i]) <==> i < n)
    {
      assert ranked[i] in ranked;
      BumpedRow(gross, total, ranked[i], bumped[i], if i < n then 1 else 0);
    }
    BumpsAreRanked(gross, total, ranked, bumped, n);
  }

  lemma SortingKeepsFairness(gross: int, total: int, bumped: seq<Row>)
    requires gross >= 0 && total > 0 && total == Sum(bumped, BalanceOf()) && Sum(bumped, GrossOf()) == gross
    requires forall r :: r in bumped ==> Quota(gross, total, r)
    requires BumpsFollowRemainders(gross, total, bumped) && DistinctInvestors(bumped)
    ensures IsAllocation(gross, SortBy(bumped, ComesFirst))
    ensures multiset(HoldingsOf(SortBy(bumped, ComesFirst))) == multiset(HoldingsOf(bumped))
  {
    var rows := SortBy(bumped, ComesFirst);
    SortKeepsHoldings(bumped, ComesFirst);
    SortKeeps(bumped, ComesFirst, BalanceOf());
    SortKeeps(bumped, ComesFirst, GrossOf());
    SortInOrder(bumped, ComesFirst);
    forall i, j | 0 <= i < j < |rows| ensures rows[i].investor < rows[j].investor {
      assert ComesFirst(rows[i], rows[j]);
    }
  }

  // ---------- what the specification means ----------

  // How far a row's share lies above its exact quota, in units of one over the total.
  function Excess(gross: int, total: int): Row -> int { (r: Row) => total * r.gross - gross * r.balance }

  lemma ExcessesCancel(gross: int, rows: seq<Row>)
    requires IsAllocation(gross, rows)
    ensures Sum(rows, Excess(gross, Sum(rows, BalanceOf()))) == 0
  {
    var total := Sum(rows, BalanceOf());
    forall r | r in rows ensures Excess(gross, total)(r) == total * GrossOf()(r) + (-gross) * BalanceOf()(r) {
    }
    SumIsLinear(rows, GrossOf(), BalanceOf(), Excess(gross, total), total, -gross);
    assert total * gross + (-gross) * total == 0;
  }

  /** A holder whose quota is a whole number gets exactly that quota. */
  lemma ExactQuotaIsNeverBumped(gross: int, rows: seq<Row>, k: nat)
    requires IsAllocation(gross, rows) && k < |rows| && rows[k].remainder == 0
    ensures Excess(gross, Sum(rows, BalanceOf()))(rows[k]) == 0
    ensures !Bumped(gross, Sum(rows, BalanceOf()), rows[k])
  {
    var total := Sum(rows, BalanceOf());
    var zero := (r: Row) => 0;
    assert rows[k] in rows;
    ExcessSign(gross, total, rows[k]);
    ExcessesCancel(gross, rows);
    SumBounds(rows, zero, 0, 0);
    if Bumped(gross, total, rows[k]) {
      forall i | 0 <= i < |rows| ensures zero(rows[i]) <= Excess(gross, total)(rows[i]) {
        assert rows[i] in rows;
        ExcessSign(gross, total, rows[i]);
      }
      SumStrictlyLess(rows, rows, zero, Excess(gross, total), k);
    }
  }

  lemma ExcessSign(gross: int, total: int, r: Row)
    requires gross >= 0 && total > 0 && Quota(gross, total, r)
    ensures Excess(gross, total)(r) == (if Bumped(gross, total, r) then total else 0) - r.remainder
    ensures 0 <= r.remainder < total
  {
    var floor := gross * r.balance / total;
    QuotaParts(gross * r.balance, total);
    assert total * (floor + 1) == total * floor + total;
  }

  /** Every share is its exact quota rounded down or up: it is off by less than one unit either way. */
  lemma ShareIsQuotaRounded(gross: int, rows: seq<Row>, k: nat)
    requires IsAllocation(gross, rows) && k < |rows|
    ensures var total := Sum(rows, BalanceOf());
            -total < Excess(gross, total)(rows[k]) < total
  {
    assert rows[k] in rows;
    ExcessSign(gross, Sum(rows, BalanceOf()), rows[k]);
    if rows[k].remainder == 0 {
      ExactQuotaIsNeverBumped(gross, rows, k);
    }
  }

  /** A strictly larger balance never gets a smaller share. */
  lemma LargerBalanceNeverGetsLess(gross: int, rows: seq<Row>, a: Row, b: Row)
    requires IsAllocation(gross, rows) && a in rows && b in rows && a.balance > b.balance
    ensures a.gross >= b.gross
  {
    var total := Sum(rows, BalanceOf());
    Scale(gross, b.balance, a.balance);
    assert Quota(gross, total, a) && Quota(gross, total, b) && gross * b.balance >= 0;
    DivisionIsMonotone(gross * b.balance, gross * a.balance, total);
    assert Bumped(gross, total, b) && !Bumped(gross, total, a) ==> Precedes(b, a);
    if gross == 0 {
      NothingToShare(rows, a);
      NothingToShare(rows, b);
    }
  }

  lemma NothingToShare(rows: seq<Row>, a: Row)
    requires IsAllocation(0, rows) && a in rows
    ensures a.gross == 0
  {
    var k :| 0 <= k < |rows| && rows[k] == a;
    assert 0 * rows[k].balance == 0;
    ExactQuotaIsNeverBumped(0, rows, k);
  }

  /** Equal balances differ by at most one unit. */
  lemma EqualBalancesDifferByAtMostOne(gross: int, rows: seq<Row>, a: Row, b: Row)
    requires IsAllocation(gross, rows) && a in rows && b in rows && a.balance == b.balance
    ensures -1 <= a.gross - b.gross <= 1
  {
    assert Quota(gross, Sum(rows, BalanceOf()), a) && Quota(gross, Sum(rows, BalanceOf()), b);
  }

  // The row of the largest investor is last on both sides.
  lemma LastHoldingsAgree(a: seq<Row>, b: seq<Row>)
    requires SortedByInvestor(a) && SortedByInvestor(b) && a != [] && |a| == |b|
    requires forall h :: h in HoldingsOf(a) <==> h in HoldingsOf(b)
    ensures HoldingOf(a[|a| - 1]) == HoldingOf(b[|b| - 1])
  {
    var m := |a| - 1;
    var p, q := HoldingsOf(a), HoldingsOf(b);
    assert p[m] in p && q[m] in q;
    var i :| 0 <= i < |q| && q[i] == p[m];
    var j :| 0 <= j < |p| && p[j] == q[m];
    assert b[i].investor == a[m].investor && a[j].investor == b[m].investor;
  }

  lemma CancelOne(x: multiset<Holding>, y: multiset<Holding>, h: Holding)
    requires x + multiset{h} == y + multiset{h}
    ensures x == y
  {
    assert (x + multiset{h}) - multiset{h} == x && (y + multiset{h}) - multiset{h} == y;
  }

  lemma HoldingsOfOneMore(s: seq<Row>)
    requires s != []
    ensures var m := |s| - 1;
            && HoldingsOf(s) == HoldingsOf(s[..m]) + [HoldingOf(s[m])]
            && multiset(HoldingsOf(s)) == multiset(HoldingsOf(s[..m])) + multiset{HoldingOf(s[m])}
  {
    var m := |s| - 1;
    assert s == s[..m] + [s[m]];
    OneMoreHolding(s[..m], s[m]);
  }

  lemma SameMultisetSameMembers(p: seq<Holding>, q: seq<Holding>)
    requires multiset(p) == multiset(q)
    ensures |p| == |q| && forall h :: h in p <==> h in q
  {
    assert |multiset(p)| == |p| && |multiset(q)| == |q|;
    forall h ensures h in p <==> h in q { assert h in multiset(p) <==> h in multiset(q); }
  }

  lemma {:induction false} SortedHoldingsAreCanonical(a: seq<Row>, b: seq<Row>)
    requires SortedByInvestor(a) && SortedByInvestor(b)
    requires multiset(HoldingsOf(a)) == multiset(HoldingsOf(b))
    ensures |a| == |b| && HoldingsOf(a) == HoldingsOf(b)
  {
    SameMultisetSameMembers(HoldingsOf(a), HoldingsOf(b));
    if a != [] {
      var m := |a| - 1;
      LastHoldingsAgree(a, b);
      HoldingsOfOneMore(a);
      HoldingsOfOneMore(b);
      CancelOne(multiset(HoldingsOf(a[..m])), multiset(HoldingsOf(b[..m])), HoldingOf(a[m]));
      SortedHoldingsAreCanonical(a[..m], b[..m]);
    }
  }

  // Two allocations of the same holdings: neither bumps a row that the other leaves alone, because
  // then all its bumps would be bumps of the other and the sums would differ.
  lemma NoExtraBump(gross: int, a: seq<Row>, b: seq<Row>, k: nat)
    requires IsAllocation(gross, a) && IsAllocation(gross, b) && HoldingsOf(a) == HoldingsOf(b)
    requires |a| == |b| && k < |a| && Sum(a, BalanceOf()) == Sum(b, BalanceOf())
    ensures a[k].gross <= b[k].gross
  {
    var total := Sum(a, BalanceOf());
    if a[k].gross > b[k].gross {
      forall i | 0 <= i < |a| ensures b[i].gross <= a[i].gross {
        assert HoldingsOf(a)[i] == HoldingsOf(b)[i] && HoldingsOf(a)[k] == HoldingsOf(b)[k];
        assert a[i] in a && b[i] in b && a[k] in a && b[k] in b;
        assert Bumped(gross, total, b[i]) && !Bumped(gross, total, b[k]) ==> Precedes(b[i], b[k]);
        assert Bumped(gross, total, a[k]) && !Bumped(gross, total, a[i]) ==> Precedes(a[k], a[i]);
      }
      SumStrictlyLess(b, a, GrossOf(), GrossOf(), k);
    }
  }

  /**
   Order independence: any two runs over permutations of the same holdings return the same rows,
   so the result is a function of who holds what.
   */
  lemma AllocationIsUnique(gross: int, first: seq<Holding>, second: seq<Holding>, a: seq<Row>, b: seq<Row>)
    requires multiset(first) == multiset(second)
    requires IsAllocation(gross, a) && multiset(HoldingsOf(a)) == multiset(first)
    requires IsAllocation(gross, b) && multiset(HoldingsOf(b)) == multiset(second)
    ensures a == b
  {
    SortedHoldingsAreCanonical(a, b);
    assert Sum(a, BalanceOf()) == Sum(b, BalanceOf()) by {
      forall i | 0 <= i < |a| ensures a[i].balance == b[i].balance { assert HoldingsOf(a)[i] == HoldingsOf(b)[i]; }
      SumsAgree(a, b, BalanceOf(), BalanceOf());
    }
    forall i | 0 <= i < |a| ensures a[i] == b[i] {
      assert HoldingsOf(a)[i] == HoldingsOf(b)[i];
      assert a[i] in a && b[i] in b;
      NoExtraBump(gross, a, b, i);
      NoExtraBump(gross, b, a, i);
    }
  }
}
