/** What the two liability accounts stand for: exactly the entitlements, and the taxes, not yet discharged. */
module DistributionOutstanding {
  import opened Sums
  import opened Declarations
  import opened Journal
  import opened Distribution
  import opened DistributionInvariant
  import opened DistributionDischarge

  // ---------- entitlements ----------

  function ClaimsOfOne(d: nat, n: nat): seq<Claim> { seq(n, e requires 0 <= e < n => Claim(d, e)) }

  // Every entitlement of every declaration, once.
  function ClaimsOf(ds: seq<Declaration>): seq<Claim>
  {
    if ds == [] then [] else ClaimsOf(ds[..|ds| - 1]) + ClaimsOfOne(|ds| - 1, |ds[|ds| - 1].entitlements|)
  }

  predicate Holds(ds: seq<Declaration>, claim: Claim)
  {
    claim.declaration < |ds| && claim.entitlement < |ds[claim.declaration].entitlements|
  }

  function NetOf(ds: seq<Declaration>, org: int, currency: Currency): Claim -> int
  {
    (claim: Claim) =>
      if Holds(ds, claim) && DeclaredFor(ds[claim.declaration], org, currency)
      then ds[claim.declaration].entitlements[claim.entitlement].net else 0
  }

  predicate DeclaredFor(d: Declaration, org: int, currency: Currency)
  {
    d.status.Approved? && d.org == org && d.currency == currency
  }

  // The net of an approved entitlement that nothing has discharged.
  function Outstanding(db: Db, org: int, currency: Currency): Claim -> int
  {
    (claim: Claim) => if Discharges(db, claim) == 0 then NetOf(db.declarations, org, currency)(claim) else 0
  }

  lemma {:induction false} ClaimsAreListedOnce(ds: seq<Declaration>)
    ensures forall claim :: claim in ClaimsOf(ds) <==> Holds(ds, claim)
    ensures Distinct(ClaimsOf(ds))
  {
    if ds != [] {
      var n := |ds| - 1;
      var last := ClaimsOfOne(n, |ds[n].entitlements|);
      ClaimsAreListedOnce(ds[..n]);
      forall claim ensures claim in last <==> claim.declaration == n && claim.entitlement < |ds[n].entitlements| {
        if claim.declaration == n && claim.entitlement < |ds[n].entitlements| {
          assert last[claim.entitlement] == claim;
        }
      }
      assert forall i :: 0 <= i < |ClaimsOf(ds[..n])| ==> ClaimsOf(ds[..n])[i] in ClaimsOf(ds[..n]);
    }
  }

  lemma {:induction false} NetsAddUp(ds: seq<Declaration>, org: int, currency: Currency)
    requires DeclarationsOk(ds)
    ensures Sum(ds, DeclaredNet(org, currency)) == Sum(ClaimsOf(ds), NetOf(ds, org, currency))
  {
    if ds != [] {
      var n := |ds| - 1;
      var d := ds[n];
      assert d in ds;
      var earlier, last := ClaimsOf(ds[..n]), ClaimsOfOne(n, |d.entitlements|);
      NetsAddUp(ds[..n], org, currency);
      ClaimsAreListedOnce(ds[..n]);
      SumOfConcat(earlier, last, NetOf(ds, org, currency));
      SumsAgree(earlier, earlier, NetOf(ds, org, currency), NetOf(ds[..n], org, currency)) by {
        forall i | 0 <= i < |earlier|
          ensures NetOf(ds, org, currency)(earlier[i]) == NetOf(ds[..n], org, currency)(earlier[i])
        {
          assert earlier[i] in earlier;
        }
      }
      if DeclaredFor(d, org, currency) {
        SumsAgree(last, d.entitlements, NetOf(ds, org, currency), Net());
      } else {
        SumBounds(last, NetOf(ds, org, currency), 0, 0);
      }
    }
  }

  // ---------- what was paid, claim by claim ----------

  function ClaimFor(): Instruction -> Claim { (p: Instruction) => ClaimOf(p) }
  function CaseClaim(ps: seq<Instruction>): Case -> Claim { (c: Case) => ClaimCorrected(ps, c) }

  lemma PayoutOfClaim(db: Db, p: Instruction)
    requires TablesOk(db) && p in db.instructions
    ensures Holds(db.declarations, ClaimOf(p)) && DeclaredFor(db.declarations[p.declaration], p.org, p.currency)
    ensures NetOf(db.declarations, p.org, p.currency)(ClaimOf(p)) == p.amount
  {
    assert db.fundings[p.funding] in db.fundings;
  }

  lemma PaidPerClaim(db: Db, org: int, currency: Currency, claim: Claim)
    requires TablesOk(db)
    ensures PerLabel(db.instructions, Paid(org, currency), ClaimFor())(claim)
         == NetOf(db.declarations, org, currency)(claim) * Sum(db.instructions, ConfirmedFor(claim))
  {
    var net := NetOf(db.declarations, org, currency)(claim);
    var only := Only(Paid(org, currency), ClaimFor(), claim);
    forall p | p in db.instructions ensures only(p) == net * ConfirmedFor(claim)(p) + 0 * ConfirmedFor(claim)(p) {
      PayoutOfClaim(db, p);
    }
    SumIsLinear(db.instructions, ConfirmedFor(claim), ConfirmedFor(claim), only, net, 0);
  }

  lemma CorrectedPerClaim(db: Db, org: int, currency: Currency, claim: Claim)
    requires TablesOk(db)
    ensures PerLabel(db.cases, Corrected(org, currency), CaseClaim(db.instructions))(claim)
         == NetOf(db.declarations, org, currency)(claim) * Sum(db.cases, CorrectedFor(db.instructions, claim))
  {
    var net := NetOf(db.declarations, org, currency)(claim);
    var only := Only(Corrected(org, currency), CaseClaim(db.instructions), claim);
    var count := CorrectedFor(db.instructions, claim);
    forall c | c in db.cases ensures only(c) == net * count(c) + 0 * count(c) {
      PayoutOfClaim(db, db.instructions[c.payout]);
    }
    SumIsLinear(db.cases, count, count, only, net, 0);
  }

  lemma ClaimsCoverPayments(db: Db, org: int, currency: Currency)
    requires TablesOk(db)
    ensures var claims := ClaimsOf(db.declarations);
            && Sum(db.instructions, Paid(org, currency))
               == Sum(claims, PerLabel(db.instructions, Paid(org, currency), ClaimFor()))
            && Sum(db.cases, Corrected(org, currency))
               == Sum(claims, PerLabel(db.cases, Corrected(org, currency), CaseClaim(db.instructions)))
  {
    var claims := ClaimsOf(db.declarations);
    ClaimsAreListedOnce(db.declarations);
    forall p | p in db.instructions ensures ClaimOf(p) in claims { PayoutOfClaim(db, p); }
    forall c | c in db.cases
      ensures CaseClaim(db.instructions)(c) in claims
    {
      PayoutOfClaim(db, db.instructions[c.payout]);
    }
    SumByLabel(db.instructions, Paid(org, currency), ClaimFor(), claims);
    SumByLabel(db.cases, Corrected(org, currency), CaseClaim(db.instructions), claims);
  }

  function Less<T>(f: T -> int, g: T -> int): T -> int { x => f(x) - g(x) }

  lemma LeftOver(net: int, a: int, b: int)
    requires 0 <= a && 0 <= b && a + b <= 1
    ensures net - net * a - net * b == if a + b == 0 then net else 0
  {
  }

  lemma OutstandingPerClaim(db: Db, org: int, currency: Currency, claim: Claim)
    requires TablesOk(db) && Careful(db)
    ensures NetOf(db.declarations, org, currency)(claim)
            - PerLabel(db.instructions, Paid(org, currency), ClaimFor())(claim)
            - PerLabel(db.cases, Corrected(org, currency), CaseClaim(db.instructions))(claim)
         == Outstanding(db, org, currency)(claim)
  {
    PaidPerClaim(db, org, currency, claim);
    CorrectedPerClaim(db, org, currency, claim);
    ConfirmedOnce(db, claim);
    CorrectedOnce(db, claim);
    DischargedAtMostOnce(db, claim);
    LeftOver(NetOf(db.declarations, org, currency)(claim), Sum(db.instructions, ConfirmedFor(claim)),
             Sum(db.cases, CorrectedFor(db.instructions, claim)));
  }

  lemma NetIsNotNegative(ds: seq<Declaration>, org: int, currency: Currency, claim: Claim)
    requires DeclarationsOk(ds)
    ensures NetOf(ds, org, currency)(claim) >= 0
  {
    if Holds(ds, claim) {
      assert ds[claim.declaration] in ds;
      assert ds[claim.declaration].entitlements[claim.entitlement] in ds[claim.declaration].entitlements;
    }
  }

  /**
   In every guarded run the payable account of an organization is exactly the entitlements of its approved
   declarations that have not been discharged; it never goes negative, so no investor is paid with another's money.
   */
  lemma PayableIsWhatIsOutstanding(db: Db, org: int, currency: Currency)
    requires ReachablePrudently(db)
    ensures Balance(db.ledger.entries, org, DistributionsPayable(currency))
         == Sum(ClaimsOf(db.declarations), Outstanding(db, org, currency)) >= 0
  {
    PrudentRunsAreCareful(db);
    var claims := ClaimsOf(db.declarations);
    var net := NetOf(db.declarations, org, currency);
    var paid := PerLabel(db.instructions, Paid(org, currency), ClaimFor());
    var corrected := PerLabel(db.cases, Corrected(org, currency), CaseClaim(db.instructions));
    NetsAddUp(db.declarations, org, currency);
    ClaimsCoverPayments(db, org, currency);
    SumIsLinear(claims, net, paid, Less(net, paid), 1, -1);
    forall claim | claim in claims
      ensures Outstanding(db, org, currency)(claim) == 1 * Less(net, paid)(claim) + -1 * corrected(claim)
    {
      OutstandingPerClaim(db, org, currency, claim);
    }
    SumIsLinear(claims, Less(net, paid), corrected, Outstanding(db, org, currency), 1, -1);
    forall claim | claim in claims ensures Outstanding(db, org, currency)(claim) >= 0 {
      NetIsNotNegative(db.declarations, org, currency, claim);
    }
    SumNotNegative(claims, Outstanding(db, org, currency));
  }

  // ---------- withheld tax ----------

  function RemittedFor(d: nat): Remittance -> int
  {
    (r: Remittance) => if r.status.Remitted? && r.declaration == d then 1 else 0
  }

  function DeclarationOf(): Remittance -> nat { (r: Remittance) => r.declaration }

  function TaxOf(ds: seq<Declaration>, org: int, currency: Currency): nat -> int
  {
    (d: nat) => if d < |ds| && DeclaredFor(ds[d], org, currency) then ds[d].tax else 0
  }

  // The tax of an approved declaration with no remittance in force.
  function TaxOwed(db: Db, org: int, currency: Currency): nat -> int
  {
    (d: nat) => if Sum(db.remittances, RemittedFor(d)) == 0 then TaxOf(db.declarations, org, currency)(d) else 0
  }

  lemma RemittedOnce(db: Db, d: nat)
    requires TablesOk(db)
    ensures 0 <= Sum(db.remittances, RemittedFor(d)) <= 1
  {
    SumOfAtMostOne(db.remittances, RemittedFor(d));
  }

  lemma TaxOwedPerDeclaration(db: Db, org: int, currency: Currency, d: nat)
    requires TablesOk(db)
    ensures TaxOf(db.declarations, org, currency)(d)
            - PerLabel(db.remittances, RemittedTax(org, currency), DeclarationOf())(d)
         == TaxOwed(db, org, currency)(d)
  {
    RemittedOnce(db, d);
    var tax := TaxOf(db.declarations, org, currency)(d);
    var only := Only(RemittedTax(org, currency), DeclarationOf(), d);
    forall r | r in db.remittances ensures only(r) == tax * RemittedFor(d)(r) + 0 * RemittedFor(d)(r) {
      assert RemittanceOk(db.declarations, r);
    }
    SumIsLinear(db.remittances, RemittedFor(d), RemittedFor(d), only, tax, 0);
  }

  /**
   In every run the withholding account of an organization is exactly the tax of its approved declarations
   that is not currently remitted; a reversal brings the liability back, and it never goes negative.
   */
  lemma WithholdingIsWhatIsOwed(db: Db, org: int, currency: Currency)
    requires Reachable(db)
    ensures Balance(db.ledger.entries, org, WithholdingTax(currency))
         == Sum(Indices(|db.declarations|), TaxOwed(db, org, currency)) >= 0
  {
    ReachableKeeps(db);
    var ids := Indices(|db.declarations|);
    var tax := TaxOf(db.declarations, org, currency);
    var remitted := PerLabel(db.remittances, RemittedTax(org, currency), DeclarationOf());
    SumsAgree(db.declarations, ids, DeclaredTax(org, currency), tax);
    forall r | r in db.remittances ensures r.declaration in ids {
      assert ids[r.declaration] == r.declaration;
    }
    SumByLabel(db.remittances, RemittedTax(org, currency), DeclarationOf(), ids);
    forall d | d in ids
      ensures TaxOwed(db, org, currency)(d) == 1 * tax(d) + -1 * remitted(d) && TaxOwed(db, org, currency)(d) >= 0
    {
      TaxOwedPerDeclaration(db, org, currency, d);
      assert db.declarations[d] in db.declarations;
      TaxIsNotNegative(db.declarations[d]);
    }
    SumIsLinear(ids, tax, remitted, TaxOwed(db, org, currency), 1, -1);
    SumNotNegative(ids, TaxOwed(db, org, currency));
  }
}
