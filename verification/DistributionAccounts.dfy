/**
 What the other accounts of the pipeline stand for, in every run and stated over the tables alone: the expense is what
 was declared, the clearing accounts what was paid, settled by hand or remitted, and the release account what was
 written off.
 */
module DistributionAccounts {
  import opened Base
  import opened Sums
  import opened Declarations
  import opened Journal
  import opened Distribution
  import opened DistributionInvariant
  import opened DistributionTheorems
  import opened DistributionGuard
  import opened DistributionEffects

  function DeclaredGross(org: int, currency: Currency): Declaration -> int
  {
    (d: Declaration) => if d.status.Approved? && d.org == org && d.currency == currency then d.gross else 0
  }

  function ExecutedAs(resolution: Resolution, org: int, currency: Currency): Case -> int
  {
    (c: Case) =>
      if c.status.Executed? && c.resolution == Some(resolution) && c.org == org && c.currency == currency
      then c.amount else 0
  }

  ghost predicate AccountsAgree(db: Db, org: int, currency: Currency)
  {
    var l := db.ledger.entries;
    && Balance(l, org, DistributionExpense(currency)) == -Sum(db.declarations, DeclaredGross(org, currency))
    && Balance(l, org, PayoutClearing(currency)) == Sum(db.instructions, Paid(org, currency))
    && Balance(l, org, ManualSettlementClearing(currency))
       == Sum(db.cases, ExecutedAs(ManualSettlement, org, currency))
    && Balance(l, org, PayableRelease(currency)) == Sum(db.cases, ExecutedAs(WriteOff, org, currency))
    && Balance(l, org, TaxRemittanceClearing(currency)) == Sum(db.remittances, RemittedTax(org, currency))
  }

  // ---------- what is posted ----------

  predicate Approves(db: Db, c: Command)
  {
    && c.DecideDeclaration? && c.id < |db.declarations| && c.approve && db.declarations[c.id].status.Submitted?
    && c.actor != db.declarations[c.id].submitter && db.declarations[c.id].bps < FULL_BPS
  }

  predicate Confirms(db: Db, c: Command)
  {
    && c.RecordOutcome? && c.id < |db.instructions| && Matches(db.instructions[c.id], c) && c.outcome.Success?
    && UnderWay(db.instructions[c.id].status)
  }

  ghost predicate TakesBack(db: Db, c: Command)
  {
    && c.RecordOutcome? && c.id < |db.instructions| && Matches(db.instructions[c.id], c) && c.outcome.Reversal?
    && db.instructions[c.id].status.Confirmed? && db.instructions[c.id].settlement.Some?
    && !IsReversed(db.ledger.entries, db.instructions[c.id].settlement.value)
  }

  predicate Executes(db: Db, c: Command)
  {
    && c.ExecuteCase? && c.id < |db.cases| && db.cases[c.id].payout < |db.instructions|
    && var x := db.cases[c.id];
    && x.status.ResolutionApproved? && !x.held && c.actor != x.preparedBy && x.resolution.Some?
    && MayExecute(x.resolution.value, db.instructions[x.payout].status, c)
  }

  predicate Remits(db: Db, c: Command)
  {
    c.DecidePayment? && c.id < |db.remittances| && DecidesPayment(db, c, c.id) && c.approve && c.receipt
  }

  ghost predicate Unremits(db: Db, c: Command)
  {
    && c.DecideReversal? && c.id < |db.reversals| && DecidesReversal(db, c, c.id) && c.approve
    && StillStands(db, db.reversals[c.id].remittance)
  }

  // The journals a command appends.
  ghost predicate Appends(db: Db, c: Command, added: seq<Request>)
  {
    if Approves(db, c) then added == [DeclarationJournal(c.id, db.declarations[c.id])]
    else if Confirms(db, c) then added == [SettlementJournal(c.id, db.instructions[c.id], c.at)]
    else if TakesBack(db, c) then added == [ReversalJournal(c.id, db.instructions[c.id], c.at)]
    else if Executes(db, c) && Corrects(db.cases[c.id]) then
      var x := db.cases[c.id];
      added == [CorrectionJournal(c.id, x, x.resolution.value, db.instructions[x.payout], c.at)]
    else if Remits(db, c) then added == [RemittanceJournal(c.id, db.remittances[c.id], c.at)]
    else if Unremits(db, c) then
      var k := db.reversals[c.id].remittance;
      added == [RemittanceReversalJournal(k, db.remittances[k], c.at)]
    else if c.OtherPosting? then forall e :: e in added ==> Elsewhere(e)
    else added == []
  }

  lemma ApprovalPosted(db: Db, c: Command)
    requires Reachable(db) && Approves(db, c)
    ensures Next(db, c).ledger.entries == db.ledger.entries + [DeclarationJournal(c.id, db.declarations[c.id])]
  {
    ReachableKeeps(db);
    ApprovalSucceedsExactly(db, c.id, c.actor);
    FreshPost(db.ledger, DeclarationJournal(c.id, db.declarations[c.id]));
  }

  lemma ConfirmationPosted(db: Db, c: Command)
    requires Reachable(db) && Confirms(db, c)
    ensures Next(db, c).ledger.entries == db.ledger.entries + [SettlementJournal(c.id, db.instructions[c.id], c.at)]
  {
    ReachableKeeps(db);
    AmountsArePayable(db, c.id);
    SettlementPosts(db, c.id, c.at);
    FreshPost(db.ledger, SettlementJournal(c.id, db.instructions[c.id], c.at));
  }

  lemma TakingBackPosted(db: Db, c: Command)
    requires Reachable(db) && TakesBack(db, c)
    ensures Next(db, c).ledger.entries == db.ledger.entries + [ReversalJournal(c.id, db.instructions[c.id], c.at)]
  {
    ReachableKeeps(db);
    AmountsArePayable(db, c.id);
    PayoutReversalPosts(db, c.id, c.at);
    FreshPost(db.ledger, ReversalJournal(c.id, db.instructions[c.id], c.at));
  }

  lemma CorrectionPosted(db: Db, c: Command)
    requires Reachable(db) && Executes(db, c) && Corrects(db.cases[c.id])
    ensures var x := db.cases[c.id];
            Next(db, c).ledger.entries
            == db.ledger.entries + [CorrectionJournal(c.id, x, x.resolution.value, db.instructions[x.payout], c.at)]
  {
    var x := db.cases[c.id];
    ReachableKeeps(db);
    CorrectionPosts(db, c.id, c.at);
    FreshPost(db.ledger, CorrectionJournal(c.id, x, x.resolution.value, db.instructions[x.payout], c.at));
  }

  lemma RemittancePosted(db: Db, c: Command)
    requires Reachable(db) && Remits(db, c)
    ensures Next(db, c).ledger.entries == db.ledger.entries + [RemittanceJournal(c.id, db.remittances[c.id], c.at)]
  {
    ReachableKeeps(db);
    TaxIsPayable(db, c.id);
    RemittancePosts(db, c.id, c.at);
    assert db.remittances[c.id] in db.remittances && Absent(db.ledger, RemittanceKey(c.id));
    FreshPost(db.ledger, RemittanceJournal(c.id, db.remittances[c.id], c.at));
  }

  lemma UnremittancePosted(db: Db, c: Command)
    requires Reachable(db) && Unremits(db, c)
    ensures var k := db.reversals[c.id].remittance;
            Next(db, c).ledger.entries
            == db.ledger.entries + [RemittanceReversalJournal(k, db.remittances[k], c.at)]
  {
    var k := db.reversals[c.id].remittance;
    ReachableKeeps(db);
    RemittanceReversalPosts(db, k, c.at);
    FreshPost(db.ledger, RemittanceReversalJournal(k, db.remittances[k], c.at));
  }

  lemma OtherPostings(db: Db, req: Request) returns (added: seq<Request>)
    requires Inv(db)
    ensures Next(db, OtherPosting(req)).ledger.entries == db.ledger.entries + added
    ensures forall e :: e in added ==> Elsewhere(e)
  {
    added := [];
    if DoOtherPosting(db, req).Ok? {
      PostKeepsSound(db.ledger, req);
      if !Post(db.ledger, req).value.replayed {
        added := [req];
      }
    }
  }

  lemma QuietDecision(db: Db, c: Command)
    requires Reachable(db) && c.DecideDeclaration? && !Approves(db, c)
    ensures Next(db, c).ledger == db.ledger
  {
    if c.id < |db.declarations| && db.declarations[c.id].status.Submitted?
       && c.actor != db.declarations[c.id].submitter {
      ApprovalSucceedsExactly(db, c.id, c.actor);
    }
  }

  lemma QuietOutcome(db: Db, c: Command)
    requires Reachable(db) && c.RecordOutcome? && !Confirms(db, c) && !TakesBack(db, c)
    ensures Next(db, c).ledger == db.ledger
  {
    if c.id < |db.instructions| && db.instructions[c.id].status.Confirmed? {
      PayoutReversalPosts(db, c.id, c.at);
    }
  }

  lemma QuietExecution(db: Db, c: Command)
    requires Reachable(db) && c.ExecuteCase? && !(Executes(db, c) && Corrects(db.cases[c.id]))
    ensures Next(db, c).ledger == db.ledger
  {
  }

  lemma QuietReversal(db: Db, c: Command)
    requires Reachable(db) && c.DecideReversal? && !Unremits(db, c)
    ensures Next(db, c).ledger == db.ledger
  {
    if c.id < |db.reversals| && DecidesReversal(db, c, c.id) {
      RemittanceReversalPosts(db, db.reversals[c.id].remittance, c.at);
    }
  }

  lemma NobodyElsePosts(db: Db, c: Command)
    requires !c.DecideDeclaration? && !c.RecordOutcome? && !c.ExecuteCase? && !c.DecideReversal? && !c.OtherPosting?
    requires !Remits(db, c)
    ensures Next(db, c).ledger == db.ledger
  {
  }

  lemma Postings(db: Db, c: Command) returns (added: seq<Request>)
    requires Reachable(db)
    ensures Next(db, c).ledger.entries == db.ledger.entries + added && Appends(db, c, added)
  {
    added := [];
    if Approves(db, c) {
      ApprovalPosted(db, c);
      added := [DeclarationJournal(c.id, db.declarations[c.id])];
    } else if Confirms(db, c) {
      ConfirmationPosted(db, c);
      added := [SettlementJournal(c.id, db.instructions[c.id], c.at)];
    } else if TakesBack(db, c) {
      TakingBackPosted(db, c);
      added := [ReversalJournal(c.id, db.instructions[c.id], c.at)];
    } else if Executes(db, c) && Corrects(db.cases[c.id]) {
      var x := db.cases[c.id];
      CorrectionPosted(db, c);
      added := [CorrectionJournal(c.id, x, x.resolution.value, db.instructions[x.payout], c.at)];
    } else if Remits(db, c) {
      RemittancePosted(db, c);
      added := [RemittanceJournal(c.id, db.remittances[c.id], c.at)];
    } else if Unremits(db, c) {
      var k := db.reversals[c.id].remittance;
      UnremittancePosted(db, c);
      added := [RemittanceReversalJournal(k, db.remittances[k], c.at)];
    } else if c.OtherPosting? {
      ReachableKeeps(db);
      added := OtherPostings(db, c.req);
    } else {
      NothingPosted(db, c);
    }
  }

  lemma NothingPosted(db: Db, c: Command)
    requires Reachable(db) && Appends(db, c, []) && !c.OtherPosting?
    ensures Next(db, c).ledger == db.ledger
  {
    if c.DecideDeclaration? {
      QuietDecision(db, c);
    } else if c.RecordOutcome? {
      QuietOutcome(db, c);
    } else if c.ExecuteCase? {
      QuietExecution(db, c);
    } else if c.DecideReversal? {
      QuietReversal(db, c);
    } else {
      NobodyElsePosts(db, c);
    }
  }

  // ---------- how the tables move ----------

  function When(holds: bool, amount: int): int { if holds then amount else 0 }

  lemma GrossOfRow(db: Db, c: Command, org: int, currency: Currency, i: nat)
    requires Reachable(db) && i < |db.declarations|
    ensures var f, d := DeclaredGross(org, currency), db.declarations[i];
            i < |Next(db, c).declarations|
            && f(Next(db, c).declarations[i])
               == if Approves(db, c) && i == c.id then f(d.(status := Approved)) else f(d)
  {
    DeclarationsTurn(db, c, i);
  }

  lemma GrossChange(db: Db, c: Command, org: int, currency: Currency)
    requires Reachable(db)
    ensures var f := DeclaredGross(org, currency);
            Sum(Next(db, c).declarations, f) - Sum(db.declarations, f)
            == if Approves(db, c) then f(db.declarations[c.id].(status := Approved)) else 0
  {
    var ds, next, f := db.declarations, Next(db, c).declarations, DeclaredGross(org, currency);
    var k := if Approves(db, c) then c.id else |ds|;
    DeclarationsBegin(db, c);
    forall i | 0 <= i < |ds| ensures f(next[i]) == if i == k then f(ds[i].(status := Approved)) else f(ds[i]) {
      GrossOfRow(db, c, org, currency, i);
    }
    SumChangesAt(ds, next, f, k);
  }

  lemma PaidOfRow(db: Db, c: Command, org: int, currency: Currency, i: nat)
    requires Reachable(db) && i < |db.instructions|
    ensures var f := Paid(org, currency);
            var p := db.instructions[i];
            i < |Next(db, c).instructions|
            && f(Next(db, c).instructions[i]) == if Confirms(db, c) && i == c.id then f(p.(status := Confirmed))
                                                 else if TakesBack(db, c) && i == c.id then 0 else f(p)
  {
    PayoutsGetOutcomes(db, c, i);
    PayoutsAreDispatched(db, c, i);
  }

  lemma NewPayoutsAreUnpaid(db: Db, c: Command, org: int, currency: Currency)
    requires Reachable(db)
    ensures var next, n := Next(db, c).instructions, |db.instructions|;
            n <= |next| && forall i :: n <= i < |next| ==> Paid(org, currency)(next[i]) == 0
  {
    PayoutsBegin(db, c);
    var next, n := Next(db, c).instructions, |db.instructions|;
    forall i | n <= i < |next| ensures Paid(org, currency)(next[i]) == 0 { assert next[i] == next[n..][i - n]; }
  }

  lemma PaidChange(db: Db, c: Command, org: int, currency: Currency)
    requires Reachable(db)
    ensures var f := Paid(org, currency);
            Sum(Next(db, c).instructions, f) - Sum(db.instructions, f)
            == if Confirms(db, c) then f(db.instructions[c.id].(status := Confirmed))
            else if TakesBack(db, c) then -f(db.instructions[c.id]) else 0
  {
    var ps, next, f := db.instructions, Next(db, c).instructions, Paid(org, currency);
    var k := if Confirms(db, c) || TakesBack(db, c) then c.id else |ps|;
    NewPayoutsAreUnpaid(db, c, org, currency);
    forall i | 0 <= i < |ps|
      ensures f(next[i]) == if i != k then f(ps[i]) else if Confirms(db, c) then f(ps[i].(status := Confirmed)) else 0
    {
      PaidOfRow(db, c, org, currency, i);
    }
    SumChangesAt(ps, next, f, k);
  }

  lemma ExecutedOfRow(db: Db, c: Command, resolution: Resolution, org: int, currency: Currency, i: nat)
    requires Reachable(db) && i < |db.cases|
    ensures var f := ExecutedAs(resolution, org, currency);
            i < |Next(db, c).cases|
            && f(Next(db, c).cases[i]) == if Executes(db, c) && i == c.id then f(db.cases[i].(status := Executed))
                                          else f(db.cases[i])
  {
    ReachableKeeps(db);
    CasesTurn(db, c, i);
    CasesAreProposed(db, c, i);
    CasesAreExecuted(db, c, i);
  }

  lemma ExecutedChange(db: Db, c: Command, resolution: Resolution, org: int, currency: Currency)
    requires Reachable(db)
    ensures var f := ExecutedAs(resolution, org, currency);
            Sum(Next(db, c).cases, f) - Sum(db.cases, f)
            == if Executes(db, c) then f(db.cases[c.id].(status := Executed)) else 0
  {
    var cs, next, f := db.cases, Next(db, c).cases, ExecutedAs(resolution, org, currency);
    var k := if Executes(db, c) then c.id else |cs|;
    CasesBegin(db, c);
    forall i | 0 <= i < |cs| ensures f(next[i]) == if i == k then f(cs[i].(status := Executed)) else f(cs[i]) {
      ExecutedOfRow(db, c, resolution, org, currency, i);
    }
    SumChangesAt(cs, next, f, k);
  }

  // The remittance whose amount a command moves, if any.
  ghost function Moves(db: Db, c: Command): Option<nat>
  {
    if Remits(db, c) then Some(c.id) else if Unremits(db, c) then Some(db.reversals[c.id].remittance) else None
  }

  lemma UnremittedExactly(db: Db, c: Command, i: nat)
    requires Reachable(db) && i < |db.remittances|
    ensures i < |Next(db, c).remittances|
    ensures Turned(db.remittances[i].status, Next(db, c).remittances[i].status, RemittanceReversed)
       <==> Unremits(db, c) && db.reversals[c.id].remittance == i
  {
    Untouched(db, c);
    if c.DecideReversal? && c.id < |db.reversals| && DecidesReversal(db, c, c.id) {
      RemittanceReversalPosts(db, db.reversals[c.id].remittance, c.at);
    }
  }

  lemma BecomesRemitted(db: Db, c: Command, i: nat)
    requires Reachable(db) && i < |db.remittances|
    ensures i < |Next(db, c).remittances|
    ensures Turned(db.remittances[i].status, Next(db, c).remittances[i].status, Remitted)
       <==> Remits(db, c) && c.id == i
  {
    ReachableKeeps(db);
    RemittancesAreRemitted(db, c, i);
  }

  lemma LeavesRemitted(db: Db, c: Command, i: nat)
    requires i < |db.remittances| && db.remittances[i].status.Remitted?
    ensures i < |Next(db, c).remittances|
    ensures var status := Next(db, c).remittances[i].status; status.Remitted? || status.RemittanceReversed?
  {
    Untouched(db, c);
  }

  lemma RemittedStatus(db: Db, c: Command, i: nat)
    requires Reachable(db) && i < |db.remittances|
    ensures i < |Next(db, c).remittances|
    ensures Next(db, c).remittances[i].status.Remitted?
       <==> if Moves(db, c) == Some(i) then Remits(db, c) else db.remittances[i].status.Remitted?
  {
    BecomesRemitted(db, c, i);
    UnremittedExactly(db, c, i);
    if db.remittances[i].status.Remitted? {
      LeavesRemitted(db, c, i);
    }
  }

  lemma RemittedOfRow(db: Db, c: Command, org: int, currency: Currency, i: nat)
    requires Reachable(db) && i < |db.remittances|
    ensures var f := RemittedTax(org, currency);
            var r := db.remittances[i];
            i < |Next(db, c).remittances|
            && f(Next(db, c).remittances[i]) == if Moves(db, c) != Some(i) then f(r)
                                                else if Remits(db, c) then f(r.(status := Remitted)) else 0
  {
    RemittedStatus(db, c, i);
    RemittancesTurn(db, c, i);
  }

  lemma RemittedChange(db: Db, c: Command, org: int, currency: Currency)
    requires Reachable(db)
    ensures var f := RemittedTax(org, currency);
            Sum(Next(db, c).remittances, f) - Sum(db.remittances, f)
            == if Remits(db, c) then f(db.remittances[c.id].(status := Remitted))
            else if Unremits(db, c) then -f(db.remittances[db.reversals[c.id].remittance]) else 0
  {
    var rs, next, f := db.remittances, Next(db, c).remittances, RemittedTax(org, currency);
    var k := if Moves(db, c).Some? then Moves(db, c).value else |rs|;
    RemittancesBegin(db, c);
    forall i | 0 <= i < |rs|
      ensures f(next[i]) == if i != k then f(rs[i]) else if Remits(db, c) then f(rs[i].(status := Remitted)) else 0
    {
      RemittedOfRow(db, c, org, currency, i);
    }
    SumChangesAt(rs, next, f, k);
  }

  // ---------- the balances ----------

  lemma ExpenseEffect(org: int, code: Code, id: nat, d: Declaration)
    requires !code.DistributionsPayable? && !code.WithholdingTax?
    ensures Effect(org, code)(DeclarationJournal(id, d))
         == if d.org == org && code == DistributionExpense(d.currency) then -d.gross else 0
  {
    var ps := DeclarationJournal(id, d).postings;
    if d.tax > 0 {
      assert ps == [ps[0], ps[1], ps[2]];
      SumOfThree(ps[0], ps[1], ps[2], Signed(code));
    } else {
      assert ps == [ps[0], ps[1]];
      SumOfTwo(ps[0], ps[1], Signed(code));
    }
  }

  lemma ElsewhereMovesNothingHere(added: seq<Request>, org: int, code: Code)
    requires !code.OtherCode? && forall e :: e in added ==> Elsewhere(e)
    ensures Sum(added, Effect(org, code)) == 0
  {
    forall e | e in added ensures Effect(org, code)(e) == 0 {
      SumBounds(e.postings, Signed(code), 0, 0);
    }
    SumBounds(added, Effect(org, code), 0, 0);
  }

  predicate Contra(code: Code) { !code.DistributionsPayable? && !code.WithholdingTax? && !code.OtherCode? }

  function WhenCode(posted: Code, code: Code, sameOrg: bool, amount: int): int
  {
    if sameOrg && posted == code then amount else 0
  }

  // What a command does to an account other than the two liabilities, in terms of the rows it concerns.
  ghost function Movement(db: Db, c: Command, org: int, code: Code): int
  {
    if Approves(db, c) then
      var d := db.declarations[c.id];
      WhenCode(DistributionExpense(d.currency), code, d.org == org, -d.gross)
    else if Confirms(db, c) || TakesBack(db, c) then
      var p := db.instructions[c.id];
      WhenCode(PayoutClearing(p.currency), code, p.org == org, if Confirms(db, c) then p.amount else -p.amount)
    else if Executes(db, c) && Corrects(db.cases[c.id]) then
      var x := db.cases[c.id];
      var account := if x.resolution == Some(WriteOff) then PayableRelease(x.currency)
                     else ManualSettlementClearing(x.currency);
      WhenCode(account, code, x.org == org, x.amount)
    else if Moves(db, c).Some? && Moves(db, c).value < |db.remittances| then
      var r := db.remittances[Moves(db, c).value];
      WhenCode(TaxRemittanceClearing(r.currency), code, r.org == org, if Remits(db, c) then r.amount else -r.amount)
    else 0
  }

  lemma PayoutMoves(db: Db, c: Command, req: Request, org: int, code: Code)
    requires Contra(code) && (Confirms(db, c) || TakesBack(db, c))
    requires Confirms(db, c) ==> req == SettlementJournal(c.id, db.instructions[c.id], c.at)
    requires TakesBack(db, c) ==> req == ReversalJournal(c.id, db.instructions[c.id], c.at)
    ensures Effect(org, code)(req) == Movement(db, c, org, code)
  {
    var p := db.instructions[c.id];
    if Confirms(db, c) {
      TransferEffect(org, code, req, DistributionsPayable(p.currency), PayoutClearing(p.currency), p.amount);
    } else {
      TransferEffect(org, code, req, PayoutClearing(p.currency), DistributionsPayable(p.currency), p.amount);
    }
  }

  lemma RemittanceMoves(db: Db, c: Command, req: Request, org: int, code: Code)
    requires Contra(code) && Moves(db, c).Some? && Moves(db, c).value < |db.remittances|
    requires Remits(db, c) ==> req == RemittanceJournal(c.id, db.remittances[c.id], c.at)
    requires Unremits(db, c) ==>
               var k := db.reversals[c.id].remittance; req == RemittanceReversalJournal(k, db.remittances[k], c.at)
    ensures Effect(org, code)(req) == Movement(db, c, org, code)
  {
    var r := db.remittances[Moves(db, c).value];
    if Remits(db, c) {
      TransferEffect(org, code, req, WithholdingTax(r.currency), TaxRemittanceClearing(r.currency), r.amount);
    } else {
      TransferEffect(org, code, req, TaxRemittanceClearing(r.currency), WithholdingTax(r.currency), r.amount);
    }
  }

  // A single journal that moves the account as the rows say.
  lemma OneJournalMoves(db: Db, c: Command, req: Request, org: int, code: Code)
    requires Inv(db) && Appends(db, c, [req]) && Contra(code) && !c.OtherPosting?
    ensures Effect(org, code)(req) == Movement(db, c, org, code)
  {
    assert [req][0] == req;
    if Approves(db, c) {
      ExpenseEffect(org, code, c.id, db.declarations[c.id]);
    } else if Confirms(db, c) || TakesBack(db, c) {
      PayoutMoves(db, c, req, org, code);
    } else if Executes(db, c) && Corrects(db.cases[c.id]) {
      CorrectionMoves(db, c, req, org, code);
    } else {
      RemittanceMoves(db, c, req, org, code);
    }
  }

  lemma JournalsMoveAccounts(db: Db, c: Command, added: seq<Request>, org: int, code: Code)
    requires Inv(db) && Appends(db, c, added) && Contra(code)
    ensures Sum(added, Effect(org, code)) == Movement(db, c, org, code)
  {
    if c.OtherPosting? {
      ElsewhereMovesNothingHere(added, org, code);
    } else if added != [] {
      assert added == [added[0]];
      SumOfOneMore([], added[0], Effect(org, code));
      assert [] + [added[0]] == added;
      OneJournalMoves(db, c, added[0], org, code);
    }
  }

  lemma CorrectionMoves(db: Db, c: Command, req: Request, org: int, code: Code)
    requires Inv(db) && Executes(db, c) && Corrects(db.cases[c.id]) && Contra(code)
    requires var x := db.cases[c.id];
             req == CorrectionJournal(c.id, x, x.resolution.value, db.instructions[x.payout], c.at)
    ensures Effect(org, code)(req) == Movement(db, c, org, code)
  {
    var x := db.cases[c.id];
    assert x in db.cases;
    var p := db.instructions[x.payout];
    TransferEffect(org, code, req, DistributionsPayable(p.currency), CorrectionCode(x.resolution.value, p.currency),
                   p.amount);
  }

  lemma BalanceMoves(db: Db, c: Command, org: int, code: Code)
    requires Reachable(db) && Contra(code)
    ensures Balance(Next(db, c).ledger.entries, org, code)
         == Balance(db.ledger.entries, org, code) + Movement(db, c, org, code)
  {
    ReachableKeeps(db);
    var added := Postings(db, c);
    SumOfConcat(db.ledger.entries, added, Effect(org, code));
    JournalsMoveAccounts(db, c, added, org, code);
  }

  // The movements are the changes of what the tables hold.
  lemma ExpenseMovement(db: Db, c: Command, org: int, currency: Currency)
    ensures var f := DeclaredGross(org, currency);
            Movement(db, c, org, DistributionExpense(currency))
            == -(if Approves(db, c) then f(db.declarations[c.id].(status := Approved)) else 0)
  {
  }

  lemma PayoutMovement(db: Db, c: Command, org: int, currency: Currency)
    ensures var f := Paid(org, currency);
            Movement(db, c, org, PayoutClearing(currency))
            == if Confirms(db, c) then f(db.instructions[c.id].(status := Confirmed))
            else if TakesBack(db, c) then -f(db.instructions[c.id]) else 0
  {
  }

  lemma CorrectionMovement(db: Db, c: Command, org: int, currency: Currency)
    ensures var settled, released := ExecutedAs(ManualSettlement, org, currency), ExecutedAs(WriteOff, org, currency);
            && Movement(db, c, org, ManualSettlementClearing(currency))
               == (if Executes(db, c) then settled(db.cases[c.id].(status := Executed)) else 0)
            && Movement(db, c, org, PayableRelease(currency))
               == (if Executes(db, c) then released(db.cases[c.id].(status := Executed)) else 0)
  {
  }

  lemma RemittanceMovement(db: Db, c: Command, org: int, currency: Currency)
    ensures var f := RemittedTax(org, currency);
            Movement(db, c, org, TaxRemittanceClearing(currency))
            == if Remits(db, c) then f(db.remittances[c.id].(status := Remitted))
            else if Unremits(db, c) then -f(db.remittances[db.reversals[c.id].remittance]) else 0
  {
  }

  lemma ExpenseAgrees(db: Db, c: Command, org: int, currency: Currency)
    requires Reachable(db) && AccountsAgree(db, org, currency)
    ensures Balance(Next(db, c).ledger.entries, org, DistributionExpense(currency))
         == -Sum(Next(db, c).declarations, DeclaredGross(org, currency))
  {
    BalanceMoves(db, c, org, DistributionExpense(currency));
    ExpenseMovement(db, c, org, currency);
    GrossChange(db, c, org, currency);
  }

  lemma PayoutClearingAgrees(db: Db, c: Command, org: int, currency: Currency)
    requires Reachable(db) && AccountsAgree(db, org, currency)
    ensures Balance(Next(db, c).ledger.entries, org, PayoutClearing(currency))
         == Sum(Next(db, c).instructions, Paid(org, currency))
  {
    BalanceMoves(db, c, org, PayoutClearing(currency));
    PayoutMovement(db, c, org, currency);
    PaidChange(db, c, org, currency);
  }

  lemma CorrectionsAgree(db: Db, c: Command, org: int, currency: Currency)
    requires Reachable(db) && AccountsAgree(db, org, currency)
    ensures Balance(Next(db, c).ledger.entries, org, ManualSettlementClearing(currency))
         == Sum(Next(db, c).cases, ExecutedAs(ManualSettlement, org, currency))
    ensures Balance(Next(db, c).ledger.entries, org, PayableRelease(currency))
         == Sum(Next(db, c).cases, ExecutedAs(WriteOff, org, currency))
  {
    BalanceMoves(db, c, org, ManualSettlementClearing(currency));
    BalanceMoves(db, c, org, PayableRelease(currency));
    CorrectionMovement(db, c, org, currency);
    ExecutedChange(db, c, ManualSettlement, org, currency);
    ExecutedChange(db, c, WriteOff, org, currency);
  }

  lemma RemittanceClearingAgrees(db: Db, c: Command, org: int, currency: Currency)
    requires Reachable(db) && AccountsAgree(db, org, currency)
    ensures Balance(Next(db, c).ledger.entries, org, TaxRemittanceClearing(currency))
         == Sum(Next(db, c).remittances, RemittedTax(org, currency))
  {
    BalanceMoves(db, c, org, TaxRemittanceClearing(currency));
    RemittanceMovement(db, c, org, currency);
    RemittedChange(db, c, org, currency);
  }

  lemma {:induction false} EveryRunAgrees(commands: seq<Command>, org: int, currency: Currency)
    ensures AccountsAgree(After(EMPTY, commands), org, currency)
  {
    if commands != [] {
      var n := |commands| - 1;
      EveryRunAgrees(commands[..n], org, currency);
      var db := After(EMPTY, commands[..n]);
      ExpenseAgrees(db, commands[n], org, currency);
      PayoutClearingAgrees(db, commands[n], org, currency);
      CorrectionsAgree(db, commands[n], org, currency);
      RemittanceClearingAgrees(db, commands[n], org, currency);
    }
  }

  /**
   In every run, per organization and currency: the expense is the gross of the approved declarations, payout clearing
   the confirmed payouts, settlement clearing the executed manual settlements, payable release the executed write-offs,
   and remittance clearing the remittances in force.
   */
  lemma AccountsStandForTables(db: Db, org: int, currency: Currency)
    requires Reachable(db)
    ensures var l := db.ledger.entries;
            && Balance(l, org, DistributionExpense(currency)) == -Sum(db.declarations, DeclaredGross(org, currency))
            && Balance(l, org, PayoutClearing(currency)) == Sum(db.instructions, Paid(org, currency))
            && Balance(l, org, ManualSettlementClearing(currency))
               == Sum(db.cases, ExecutedAs(ManualSettlement, org, currency))
            && Balance(l, org, PayableRelease(currency)) == Sum(db.cases, ExecutedAs(WriteOff, org, currency))
            && Balance(l, org, TaxRemittanceClearing(currency)) == Sum(db.remittances, RemittedTax(org, currency))
  {
    var commands :| db == After(EMPTY, commands);
    EveryRunAgrees(commands, org, currency);
  }
}
