/**
 From an ownership snapshot to a distribution declaration: wallets are reconciled to the
 supply and grouped by investor, the gross amount is allocated, and tax is withheld per
 investor (src/platform/postgres-distributions.ts:45-49, 71, 76).
 */
module Declarations {
  import opened Sums
  import opened Allocation

  const FULL_BPS := 10_000

  // ---------- snapshot ----------

  datatype WalletHolding = WalletHolding(wallet: int, investor: int, balance: int)

  function UnitsOf(investor: int): WalletHolding -> int
  {
    (w: WalletHolding) => if w.investor == investor then w.balance else 0
  }

  function AllUnits(): WalletHolding -> int { (w: WalletHolding) => w.balance }

  function BalanceHeld(investor: int): Holding -> int
  {
    (h: Holding) => if h.investor == investor then h.balance else 0
  }

  // The checks a submitted snapshot passes: 1 to 10,000 rows, positive balances, each wallet once, and
  // the balances add up to the supply.
  predicate Reconciles(wallets: seq<WalletHolding>, totalSupply: int)
  {
    && 1 <= |wallets| <= 10_000
    && (forall w :: w in wallets ==> w.balance > 0)
    && (forall i, j :: 0 <= i < j < |wallets| ==> wallets[i].wallet != wallets[j].wallet)
    && Sum(wallets, AllUnits()) == totalSupply
  }

  // SELECT investor, sum(balance) ... GROUP BY investor ORDER BY investor
  function AddUnits(holdings: seq<Holding>, investor: int, balance: int): seq<Holding>
  {
    if holdings == [] then [Holding(investor, balance)]
    else
      var n := |holdings| - 1;
      var last := holdings[n];
      if last.investor < investor then holdings + [Holding(investor, balance)]
      else if last.investor == investor then holdings[..n] + [Holding(investor, last.balance + balance)]
      else AddUnits(holdings[..n], investor, balance) + [last]
  }

  function GroupByInvestor(wallets: seq<WalletHolding>): seq<Holding>
  {
    if wallets == [] then []
    else
      var n := |wallets| - 1;
      AddUnits(GroupByInvestor(wallets[..n]), wallets[n].investor, wallets[n].balance)
  }

  ghost predicate Grouped(holdings: seq<Holding>)
  {
    && (forall h :: h in holdings ==> h.balance > 0)
    && forall i, j :: 0 <= i < j < |holdings| ==> holdings[i].investor < holdings[j].investor
  }

  lemma {:induction false} AddUnitsStaysGrouped(holdings: seq<Holding>, investor: int, balance: int, bound: int)
    requires Grouped(holdings) && balance > 0
    requires investor < bound && forall h :: h in holdings ==> h.investor < bound
    ensures Grouped(AddUnits(holdings, investor, balance)) && AddUnits(holdings, investor, balance) != []
    ensures forall h :: h in AddUnits(holdings, investor, balance) ==> h.investor < bound
  {
    if holdings != [] {
      var n := |holdings| - 1;
      var last := holdings[n];
      assert last in holdings;
      if last.investor > investor {
        AddUnitsStaysGrouped(holdings[..n], investor, balance, last.investor);
        var rest := AddUnits(holdings[..n], investor, balance);
        forall i | 0 <= i < |rest| ensures rest[i].investor < last.investor {
          assert rest[i] in rest;
        }
      }
    }
  }

  lemma {:induction false} AddUnitsAdds(holdings: seq<Holding>, investor: int, balance: int, who: int)
    ensures Sum(AddUnits(holdings, investor, balance), BalanceHeld(who))
         == Sum(holdings, BalanceHeld(who)) + if who == investor then balance else 0
    ensures Sum(AddUnits(holdings, investor, balance), HeldUnits()) == Sum(holdings, HeldUnits()) + balance
  {
    if holdings != [] {
      var n := |holdings| - 1;
      var last := holdings[n];
      if last.investor < investor {
        SumOfOneMore(holdings, Holding(investor, balance), BalanceHeld(who));
        SumOfOneMore(holdings, Holding(investor, balance), HeldUnits());
      } else if last.investor == investor {
        SumOfOneMore(holdings[..n], Holding(investor, last.balance + balance), BalanceHeld(who));
        SumOfOneMore(holdings[..n], Holding(investor, last.balance + balance), HeldUnits());
      } else {
        AddUnitsAdds(holdings[..n], investor, balance, who);
        SumOfOneMore(AddUnits(holdings[..n], investor, balance), last, BalanceHeld(who));
        SumOfOneMore(AddUnits(holdings[..n], investor, balance), last, HeldUnits());
      }
    }
  }

  lemma {:induction false} UpperBound(holdings: seq<Holding>, investor: int) returns (bound: int)
    ensures investor < bound && forall h :: h in holdings ==> h.investor < bound
  {
    if holdings == [] {
      bound := investor + 1;
    } else {
      var n := |holdings| - 1;
      bound := UpperBound(holdings[..n], investor);
      bound := if bound > holdings[n].investor then bound else holdings[n].investor + 1;
    }
  }

  /** Grouping lists each investor once, in order, with the sum of that investor's wallets. */
  lemma {:induction false} GroupingAddsUp(wallets: seq<WalletHolding>, who: int)
    requires forall w :: w in wallets ==> w.balance > 0
    ensures Grouped(GroupByInvestor(wallets)) && (wallets != [] ==> GroupByInvestor(wallets) != [])
    ensures Sum(GroupByInvestor(wallets), BalanceHeld(who)) == Sum(wallets, UnitsOf(who))
    ensures Sum(GroupByInvestor(wallets), HeldUnits()) == Sum(wallets, AllUnits())
  {
    if wallets != [] {
      var n := |wallets| - 1;
      GroupingAddsUp(wallets[..n], who);
      assert wallets[n] in wallets;
      var bound := UpperBound(GroupByInvestor(wallets[..n]), wallets[n].investor);
      AddUnitsStaysGrouped(GroupByInvestor(wallets[..n]), wallets[n].investor, wallets[n].balance, bound);
      AddUnitsAdds(GroupByInvestor(wallets[..n]), wallets[n].investor, wallets[n].balance, who);
    }
  }

  /** A reconciled snapshot always hands `allocate` what it needs, and the whole supply of it. */
  lemma SnapshotFeedsAllocator(wallets: seq<WalletHolding>, totalSupply: int)
    requires Reconciles(wallets, totalSupply)
    ensures ValidHoldings(GroupByInvestor(wallets))
    ensures Sum(GroupByInvestor(wallets), HeldUnits()) == totalSupply
  {
    GroupingAddsUp(wallets, 0);
  }

  lemma {:induction false} AbsentHoldsNothing(holdings: seq<Holding>, who: int)
    requires forall h :: h in holdings ==> h.investor != who
    ensures Sum(holdings, BalanceHeld(who)) == 0
  {
    if holdings != [] {
      AbsentHoldsNothing(holdings[..|holdings| - 1], who);
    }
  }

  lemma HeldByLast(holdings: seq<Holding>)
    requires Grouped(holdings) && holdings != []
    ensures Sum(holdings, BalanceHeld(holdings[|holdings| - 1].investor)) == holdings[|holdings| - 1].balance > 0
  {
    assert holdings[|holdings| - 1] in holdings;
    AbsentHoldsNothing(holdings[..|holdings| - 1], holdings[|holdings| - 1].investor);
  }

  lemma {:induction false} GroupsAreCanonical(a: seq<Holding>, b: seq<Holding>)
    requires Grouped(a) && Grouped(b)
    requires forall who :: Sum(a, BalanceHeld(who)) == Sum(b, BalanceHeld(who))
    ensures a == b
  {
    if a == [] || b == [] {
      if a != [] {
        HeldByLast(a);
      } else if b != [] {
        HeldByLast(b);
      }
    } else {
      var m, n := |a| - 1, |b| - 1;
      HeldByLast(a);
      HeldByLast(b);
      if a[m].investor > b[n].investor {
        AbsentHoldsNothing(b, a[m].investor);
      } else if b[n].investor > a[m].investor {
        AbsentHoldsNothing(a, b[n].investor);
      }
      assert a[m] == b[n];
      forall who ensures Sum(a[..m], BalanceHeld(who)) == Sum(b[..n], BalanceHeld(who)) {
        assert Sum(a, BalanceHeld(who)) == Sum(b, BalanceHeld(who));
      }
      GroupsAreCanonical(a[..m], b[..n]);
      assert a == a[..m] + [a[m]] && b == b[..n] + [b[n]];
    }
  }

  /**
   Entitlements depend only on what each investor holds: spreading a holding over more wallets, or
   listing the wallets in another order, changes no one's share.
   */
  lemma WalletsDoNotMatter(gross: int, first: seq<WalletHolding>, second: seq<WalletHolding>, a: seq<Row>, b: seq<Row>)
    requires forall w :: w in first + second ==> w.balance > 0
    requires forall who :: Sum(first, UnitsOf(who)) == Sum(second, UnitsOf(who))
    requires IsAllocation(gross, a) && multiset(HoldingsOf(a)) == multiset(GroupByInvestor(first))
    requires IsAllocation(gross, b) && multiset(HoldingsOf(b)) == multiset(GroupByInvestor(second))
    ensures a == b
  {
    forall who ensures Sum(GroupByInvestor(first), BalanceHeld(who)) == Sum(GroupByInvestor(second), BalanceHeld(who)) {
      GroupingAddsUp(first, who);
      GroupingAddsUp(second, who);
      assert Sum(first, UnitsOf(who)) == Sum(second, UnitsOf(who));
    }
    GroupingAddsUp(first, 0);
    GroupingAddsUp(second, 0);
    GroupsAreCanonical(GroupByInvestor(first), GroupByInvestor(second));
    AllocationIsUnique(gross, GroupByInvestor(first), GroupByInvestor(second), a, b);
  }

  // ---------- withholding ----------

  datatype Entitlement = Entitlement(investor: int, balance: int, gross: int, tax: int, net: int)

  function EntitledGross(): Entitlement -> int { (e: Entitlement) => e.gross }
  function Tax(): Entitlement -> int { (e: Entitlement) => e.tax }
  function Net(): Entitlement -> int { (e: Entitlement) => e.net }

  function Withhold(r: Row, bps: int): Entitlement
  {
    var tax := r.gross * bps / FULL_BPS;
    Entitlement(r.investor, r.balance, r.gross, tax, r.gross - tax)
  }

  function TaxSplit(rows: seq<Row>, bps: int): seq<Entitlement>
  {
    seq(|rows|, i requires 0 <= i < |rows| => Withhold(rows[i], bps))
  }

  predicate TaxOn(gross: int, bps: int, tax: int) { tax * FULL_BPS <= gross * bps < (tax + 1) * FULL_BPS }

  // The entitlements are the allocated rows one by one: the same investor, holding and share, less the tax on that
  // share rounded down.
  ghost predicate Entitles(rows: seq<Row>, bps: int, ents: seq<Entitlement>)
  {
    && |ents| == |rows|
    && forall i :: 0 <= i < |rows| ==>
                     && ents[i].investor == rows[i].investor && ents[i].balance == rows[i].balance
                     && ents[i].gross == rows[i].gross && TaxOn(ents[i].gross, bps, ents[i].tax)
                     && ents[i].tax + ents[i].net == ents[i].gross
  }

  ghost predicate Allotted(gross: int, bps: int, ents: seq<Entitlement>)
  {
    exists rows :: IsAllocation(gross, rows) && Entitles(rows, bps, ents)
  }

  lemma TaxSplitEntitles(rows: seq<Row>, bps: int)
    ensures Entitles(rows, bps, TaxSplit(rows, bps))
  {
  }

  // Every investor of the snapshot is listed once, in order, with all of that investor's units.
  ghost predicate ListsInvestors(wallets: seq<WalletHolding>, ents: seq<Entitlement>)
  {
    && (forall i, j :: 0 <= i < j < |ents| ==> ents[i].investor < ents[j].investor)
    && (forall e :: e in ents ==> e.balance == Sum(wallets, UnitsOf(e.investor)))
    && (forall w :: w in wallets ==> exists e :: e in ents && e.investor == w.investor)
  }

  lemma HeldByMember(holdings: seq<Holding>, i: nat)
    requires Grouped(holdings) && i < |holdings|
    ensures Sum(holdings, BalanceHeld(holdings[i].investor)) == holdings[i].balance
  {
    var who := holdings[i].investor;
    SplitAround(holdings, i);
    SumOfInsertion(holdings[..i], holdings[i], holdings[i + 1..], BalanceHeld(who));
    AbsentHoldsNothing(holdings[..i] + holdings[i + 1..], who);
  }

  lemma SomeoneHolds(wallets: seq<WalletHolding>, w: WalletHolding)
    requires w in wallets && forall x :: x in wallets ==> x.balance > 0
    ensures exists h :: h in GroupByInvestor(wallets) && h.investor == w.investor
  {
    var groups := GroupByInvestor(wallets);
    GroupingAddsUp(wallets, w.investor);
    var k :| 0 <= k < |wallets| && wallets[k] == w;
    PartAtMostSum(wallets, UnitsOf(w.investor), k);
    if forall h :: h in groups ==> h.investor != w.investor {
      AbsentHoldsNothing(groups, w.investor);
    }
  }

  /**
   Whose share an entitlement is: over an allocation of the snapshot's holdings, each investor of the snapshot is listed
   once, in order, with exactly that investor's units.
   */
  lemma EntitlementsFollowWallets(wallets: seq<WalletHolding>, gross: int, rows: seq<Row>, bps: int,
                                  ents: seq<Entitlement>)
    requires forall w :: w in wallets ==> w.balance > 0
    requires IsAllocation(gross, rows) && multiset(HoldingsOf(rows)) == multiset(GroupByInvestor(wallets))
    requires Entitles(rows, bps, ents)
    ensures ListsInvestors(wallets, ents)
  {
    var groups, held := GroupByInvestor(wallets), HoldingsOf(rows);
    GroupingAddsUp(wallets, 0);
    SameMultisetSameMembers(held, groups);
    forall e | e in ents ensures e.balance == Sum(wallets, UnitsOf(e.investor)) {
      var i :| 0 <= i < |ents| && ents[i] == e;
      assert held[i] == Holding(e.investor, e.balance) && held[i] in held;
      var k :| 0 <= k < |groups| && groups[k] == held[i];
      HeldByMember(groups, k);
      GroupingAddsUp(wallets, e.investor);
    }
    forall w | w in wallets ensures exists e :: e in ents && e.investor == w.investor {
      SomeoneHolds(wallets, w);
      var h :| h in groups && h.investor == w.investor;
      var i :| 0 <= i < |held| && held[i] == h;
      assert ents[i] in ents;
    }
  }

  // What a declaration stores about its money.
  ghost predicate Conserves(gross: int, bps: int, tax: int, net: int, entitlements: seq<Entitlement>)
  {
    && 0 <= bps <= FULL_BPS && gross > 0 && entitlements != []
    && Sum(entitlements, EntitledGross()) == gross
    && Sum(entitlements, Tax()) == tax && Sum(entitlements, Net()) == net && tax + net == gross
    && (forall e :: e in entitlements ==> e.tax >= 0 && e.net >= 0 && e.tax + e.net == e.gross)
    && (bps < FULL_BPS ==> forall e :: e in entitlements ==> e.net >= 1)
    && (bps == FULL_BPS ==> net == 0)
    && tax * FULL_BPS <= gross * bps < (tax + |entitlements|) * FULL_BPS
  }

  lemma WithholdRounds(r: Row, bps: int)
    requires r.gross > 0 && 0 <= bps <= FULL_BPS
    ensures var e := Withhold(r, bps);
            && e.tax >= 0 && e.net >= 0 && e.tax + e.net == e.gross == r.gross
            && FULL_BPS * e.tax <= bps * r.gross <= FULL_BPS * e.tax + (FULL_BPS - 1)
            && (bps < FULL_BPS ==> e.net >= 1) && (bps == FULL_BPS ==> e.net == 0)
  {
    Scale(r.gross, bps, FULL_BPS);
    Scale(r.gross, bps, FULL_BPS - 1);
    Scale(r.gross, 0, bps);
    assert bps * r.gross == r.gross * bps;
  }

  function TaxDefect(bps: int): Entitlement -> int { (e: Entitlement) => bps * e.gross - FULL_BPS * e.tax }

  // What one row's withholding guarantees.
  ghost predicate Withheld(r: Row, bps: int, e: Entitlement)
  {
    && e.tax >= 0 && e.net >= 0 && e.tax + e.net == e.gross == r.gross
    && 0 <= TaxDefect(bps)(e) <= FULL_BPS - 1
    && (bps < FULL_BPS ==> e.net >= 1) && (bps == FULL_BPS ==> e.net == 0)
  }

  lemma EveryRowIsWithheld(rows: seq<Row>, bps: int)
    requires 0 <= bps <= FULL_BPS && forall r :: r in rows ==> r.gross > 0
    ensures forall i :: 0 <= i < |rows| ==> Withheld(rows[i], bps, TaxSplit(rows, bps)[i])
  {
    forall i | 0 <= i < |rows| ensures Withheld(rows[i], bps, TaxSplit(rows, bps)[i]) {
      assert rows[i] in rows;
      WithholdRounds(rows[i], bps);
    }
  }

  lemma DefectSums(bps: int, ents: seq<Entitlement>)
    requires forall e :: e in ents ==> 0 <= TaxDefect(bps)(e) <= FULL_BPS - 1
    ensures 0 <= bps * Sum(ents, EntitledGross()) - FULL_BPS * Sum(ents, Tax()) <= (FULL_BPS - 1) * |ents|
  {
    SumIsLinear(ents, EntitledGross(), Tax(), TaxDefect(bps), bps, -FULL_BPS);
    SumBounds(ents, TaxDefect(bps), 0, FULL_BPS - 1);
  }

  // The sums over the entitlements: gross and net add up, and the rounding loss is less than one unit per row.
  lemma WithheldSums(rows: seq<Row>, bps: int, ents: seq<Entitlement>)
    requires |rows| == |ents| && forall i :: 0 <= i < |rows| ==> Withheld(rows[i], bps, ents[i])
    ensures Sum(ents, EntitledGross()) == Sum(rows, GrossOf())
    ensures Sum(ents, Net()) == Sum(ents, EntitledGross()) - Sum(ents, Tax())
    ensures 0 <= bps * Sum(ents, EntitledGross()) - FULL_BPS * Sum(ents, Tax()) <= (FULL_BPS - 1) * |ents|
  {
    SumsAgree(ents, rows, EntitledGross(), GrossOf());
    SumIsLinear(ents, EntitledGross(), Tax(), Net(), 1, -1);
    DefectSums(bps, ents);
  }

  /**
   For every accepted declaration the investor taxes and nets add up to the declared tax and net;
   rounding per investor loses less than one unit per holder against the tax on the whole; and every
   investor is paid something exactly when less than everything is withheld.
   */
  lemma TaxSplitConserves(gross: int, rows: seq<Row>, bps: int)
    requires IsAllocation(gross, rows) && 0 <= bps <= FULL_BPS && rows != []
    requires forall r :: r in rows ==> r.gross > 0
    ensures var ents := TaxSplit(rows, bps);
            Conserves(gross, bps, Sum(ents, Tax()), gross - Sum(ents, Tax()), ents)
  {
    var ents := TaxSplit(rows, bps);
    EveryRowIsWithheld(rows, bps);
    WithheldSums(rows, bps, ents);
    GrossIsPositive(gross, rows);
    if bps == FULL_BPS {
      SumBounds(ents, Net(), 0, 0);
    }
    assert bps * gross == gross * bps;
  }

  lemma GrossIsPositive(gross: int, rows: seq<Row>)
    requires IsAllocation(gross, rows) && rows != [] && forall r :: r in rows ==> r.gross > 0
    ensures gross > 0
  {
    assert rows[0] in rows;
    var zero := (r: Row) => 0;
    SumBounds(rows, zero, 0, 0);
    SumStrictlyLess(rows, rows, zero, GrossOf(), 0);
  }

  /** Withheld tax never exceeds the tax on the whole amount, and falls short of it by less than one unit per holder. */
  lemma WithholdingBounds(gross: int, bps: int, tax: int, net: int, ents: seq<Entitlement>)
    requires Conserves(gross, bps, tax, net, ents)
    ensures tax <= gross * bps / FULL_BPS < tax + |ents|
    ensures net > 0 <==> bps < FULL_BPS
  {
    if bps < FULL_BPS {
      SumBounds(ents, Net(), 1, gross) by {
        forall e | e in ents ensures 1 <= e.net <= gross {
          var k :| 0 <= k < |ents| && ents[k] == e;
          PartAtMostSum(ents, EntitledGross(), k);
        }
      }
    }
  }

  lemma {:induction false} PartAtMostSum<T>(s: seq<T>, f: T -> int, k: nat)
    requires k < |s| && forall x :: x in s ==> f(x) >= 0
    ensures f(s[k]) <= Sum(s, f)
  {
    var n := |s| - 1;
    assert s[n] in s;
    if k < n {
      PartAtMostSum(s[..n], f, k);
    } else {
      var zero := (x: T) => 0;
      SumAtMost(s[..n], s[..n], zero, f) by {
        forall i | 0 <= i < n ensures 0 <= f(s[..n][i]) { assert s[i] in s; }
      }
      SumBounds(s[..n], zero, 0, 0);
    }
  }
}
