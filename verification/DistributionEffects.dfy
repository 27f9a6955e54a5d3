/**
 What each row of the pipeline turns into, and exactly when: for every reachable state and every command, a row changes
 its status if and only if the command is the one that may, from a state that lets it, by someone who may. Nothing here
 speaks of the step functions.
 */
module DistributionEffects {
  import opened Base
  import opened Sums
  import opened Allocation
  import opened Declarations
  import opened Journal
  import opened Distribution
  import opened DistributionInvariant
  import opened DistributionTheorems
  import opened DistributionGuard

  // ---------- journals that post ----------

  lemma SettlementPosts(db: Db, i: nat, at: int)
    requires Inv(db) && i < |db.instructions| && Settles(db.instructions[i].status)
    ensures var posted := EnsureAndPost(db.ledger, SettlementJournal(i, db.instructions[i], at));
            posted.Ok? && posted.value.journal == |db.ledger.entries|
  {
    var p := db.instructions[i];
    AmountsArePayable(db, i);
    assert Absent(db.ledger, SettlementKey(i));
    FreshTransferPosts(db.ledger, p.org, SettlementKey(i), p.currency, at, DistributionsPayable(p.currency),
                       PayoutClearing(p.currency), p.amount);
    FreshPost(db.ledger, SettlementJournal(i, p, at));
  }

  // A two-line journal under an absent key that reverses a stored one posts unless that one is reversed already.
  lemma ReversalPostsExactly(l: Ledger, org: int, key: Key, currency: Currency, at: int, of: nat, from: Code, to: Code,
                             amount: int)
    requires Sound(l) && Absent(l, key) && 0 < amount <= MAX_MINOR && of < |l.entries|
    ensures EnsureAndPost(l, Transfer(org, key, currency, at, Some(of), from, to, amount)).Ok?
       <==> !IsReversed(l.entries, of)
  {
    var req := Transfer(org, key, currency, at, Some(of), from, to, amount);
    SumOfTwo(req.postings[0], req.postings[1], DebitOf());
    SumOfTwo(req.postings[0], req.postings[1], CreditOf());
    assert Valid(req);
    FaultlessIsValid(req);
  }

  lemma PayoutReversalPosts(db: Db, i: nat, at: int)
    requires Reachable(db) && i < |db.instructions| && db.instructions[i].status.Confirmed?
    ensures var p := db.instructions[i];
            p.settlement.Some? && (EnsureAndPost(db.ledger, ReversalJournal(i, p, at)).Ok?
                                   <==> !IsReversed(db.ledger.entries, p.settlement.value))
  {
    var p := db.instructions[i];
    ReachableKeeps(db);
    ReachableLinks(db);
    AmountsArePayable(db, i);
    assert p in db.instructions && SettlementLinked(db.ledger.entries, i, p);
    assert Absent(db.ledger, ReversalKey(i));
    ReversalPostsExactly(db.ledger, p.org, ReversalKey(i), p.currency, at, p.settlement.value,
                         PayoutClearing(p.currency), DistributionsPayable(p.currency), p.amount);
  }

  lemma CorrectionPosts(db: Db, id: nat, at: int)
    requires Inv(db) && id < |db.cases| && db.cases[id].status.ResolutionApproved? && Corrects(db.cases[id])
    ensures var c := db.cases[id];
            c.payout < |db.instructions| && c.resolution.Some?
            && EnsureAndPost(db.ledger, CorrectionJournal(id, c, c.resolution.value, db.instructions[c.payout], at)).Ok?
  {
    var c := db.cases[id];
    assert c in db.cases;
    var p := db.instructions[c.payout];
    AmountsArePayable(db, c.payout);
    assert Absent(db.ledger, ExceptionKey(id));
    FreshTransferPosts(db.ledger, c.org, ExceptionKey(id), p.currency, at, DistributionsPayable(p.currency),
                       CorrectionCode(c.resolution.value, p.currency), p.amount);
  }

  lemma TaxIsPayable(db: Db, id: nat)
    requires TablesOk(db) && id < |db.remittances|
    ensures var r := db.remittances[id]; r.declaration < |db.declarations| && 0 < r.amount <= MAX_MINOR
  {
    var r := db.remittances[id];
    assert r in db.remittances;
    assert db.declarations[r.declaration] in db.declarations;
    TaxIsNotNegative(db.declarations[r.declaration]);
  }

  lemma RemittancePosts(db: Db, id: nat, at: int)
    requires Inv(db) && id < |db.remittances| && db.remittances[id].status.PaymentSubmitted?
    ensures var posted := EnsureAndPost(db.ledger, RemittanceJournal(id, db.remittances[id], at));
            posted.Ok? && posted.value.journal == |db.ledger.entries|
  {
    var r := db.remittances[id];
    TaxIsPayable(db, id);
    assert r in db.remittances && Absent(db.ledger, RemittanceKey(id));
    FreshTransferPosts(db.ledger, r.org, RemittanceKey(id), r.currency, at, WithholdingTax(r.currency),
                       TaxRemittanceClearing(r.currency), r.amount);
    FreshPost(db.ledger, RemittanceJournal(id, r, at));
  }

  lemma RemittanceReversalPosts(db: Db, id: nat, at: int)
    requires Reachable(db) && id < |db.remittances| && db.remittances[id].status.Remitted?
    ensures var r := db.remittances[id];
            r.journal.Some? && (EnsureAndPost(db.ledger, RemittanceReversalJournal(id, r, at)).Ok?
                                <==> !IsReversed(db.ledger.entries, r.journal.value))
  {
    var r := db.remittances[id];
    ReachableKeeps(db);
    ReachableLinks(db);
    TaxIsPayable(db, id);
    assert r in db.remittances && RemittanceLinked(db.ledger.entries, id, r);
    assert Absent(db.ledger, RemittanceReversalKey(id));
    ReversalPostsExactly(db.ledger, r.org, RemittanceReversalKey(id), r.currency, at, r.journal.value,
                         TaxRemittanceClearing(r.currency), WithholdingTax(r.currency), r.amount);
  }

  // ---------- separation of duties ----------

  // The command decides, or executes, something its own actor prepared and that waits for it.
  predicate DecidesOwn(db: Db, c: Command)
  {
    match c
    case DecideDeclaration(id, _, actor) =>
      id < |db.declarations| && db.declarations[id].status.Submitted? && db.declarations[id].submitter == actor
    case DecideFunding(id, _, _, _, actor) =>
      id < |db.fundings| && db.fundings[id].status.Submitted? && db.fundings[id].submitter == actor
    case DecideResolution(id, _, actor) =>
      id < |db.cases| && db.cases[id].status.DecisionPending? && db.cases[id].preparedBy == actor
    case DecideHold(id, _, actor) =>
      id < |db.holds| && db.holds[id].status.Submitted? && db.holds[id].preparedBy == actor
    case ExecuteCase(id, _, _, _, _, actor) =>
      && id < |db.cases| && db.cases[id].status.ResolutionApproved? && !db.cases[id].held
      && db.cases[id].resolution.Some? && db.cases[id].preparedBy == actor
    case DecideFiling(id, _, actor) =>
      id < |db.remittances| && db.remittances[id].status.Filed? && db.remittances[id].submitter == actor
    case DecidePayment(id, _, _, _, actor) =>
      && id < |db.remittances| && db.remittances[id].status.PaymentSubmitted?
      && db.remittances[id].paymentSubmitter == actor
    case DecideReversal(id, _, _, actor) =>
      && id < |db.reversals| && db.reversals[id].status.Submitted? && db.reversals[id].preparedBy == actor
      && db.reversals[id].remittance < |db.remittances| && db.remittances[db.reversals[id].remittance].status.Remitted?
    case _ => false
  }

  // A request for a declaration of another organization.
  predicate AsksForOthers(db: Db, c: Command)
  {
    && (c.SubmitFunding? || c.SubmitRemittance?) && c.declaration < |db.declarations|
    && db.declarations[c.declaration].org != c.org
  }

  lemma RowsOfDecisions(db: Db, c: Command)
    requires Reachable(db)
    ensures c.DecideHold? && c.id < |db.holds| ==> db.holds[c.id].case_ < |db.cases|
    ensures c.ExecuteCase? && c.id < |db.cases| ==> db.cases[c.id].payout < |db.instructions|
    ensures c.DecidePayment? && c.id < |db.remittances| ==> db.remittances[c.id].declaration < |db.declarations|
    ensures c.DecideReversal? && c.id < |db.reversals| && db.reversals[c.id].remittance < |db.remittances|
            && db.remittances[db.reversals[c.id].remittance].status.Remitted? ==>
              db.remittances[db.reversals[c.id].remittance].journal.Some?
  {
    ReachableKeeps(db);
    ReachableHolds(db);
    if c.DecideHold? && c.id < |db.holds| {
      assert db.holds[c.id] in db.holds;
    }
    if c.ExecuteCase? && c.id < |db.cases| {
      assert db.cases[c.id] in db.cases;
    }
    if c.DecidePayment? && c.id < |db.remittances| {
      assert db.remittances[c.id] in db.remittances;
    }
    if c.DecideReversal? && c.id < |db.reversals| && db.reversals[c.id].remittance < |db.remittances| {
      assert db.remittances[db.reversals[c.id].remittance] in db.remittances;
    }
  }

  lemma ForbiddenPayoutSteps(db: Db, c: Command)
    requires PayoutCommand(c)
    ensures Perform(db, c) == Err(Forbidden) <==> DecidesOwn(db, c) || AsksForOthers(db, c)
  {
  }

  lemma ForbiddenCaseSteps(db: Db, c: Command)
    requires Reachable(db) && CaseCommand(c)
    ensures Perform(db, c) == Err(Forbidden) <==> DecidesOwn(db, c) || AsksForOthers(db, c)
  {
    RowsOfDecisions(db, c);
  }

  lemma ForbiddenTaxSteps(db: Db, c: Command)
    requires Reachable(db) && TaxCommand(c)
    ensures Perform(db, c) == Err(Forbidden) <==> DecidesOwn(db, c) || AsksForOthers(db, c)
  {
    RowsOfDecisions(db, c);
  }

  /** A command is forbidden exactly when it decides what its own actor prepared, or asks for another organization. */
  lemma ForbiddenExactly(db: Db, c: Command)
    requires Reachable(db)
    ensures Perform(db, c) == Err(Forbidden) <==> DecidesOwn(db, c) || AsksForOthers(db, c)
  {
    if PayoutCommand(c) {
      ForbiddenPayoutSteps(db, c);
    } else if CaseCommand(c) {
      ForbiddenCaseSteps(db, c);
    } else {
      ForbiddenTaxSteps(db, c);
    }
  }

  // ---------- declarations ----------

  // Which tables a command leaves alone altogether.
  lemma Untouched(db: Db, c: Command)
    ensures var next := Next(db, c);
            && (!PayoutCommand(c) ==> next.declarations == db.declarations && next.fundings == db.fundings)
            && (!CaseCommand(c) ==> next.cases == db.cases && next.holds == db.holds)
            && (PayoutCommand(c) || CaseCommand(c) ==>
                  && next.remittances == db.remittances && next.reversals == db.reversals
                  && next.statements == db.statements)
  {
    if PayoutCommand(c) {
      PayoutCommandFrame(db, c);
    } else if CaseCommand(c) {
      CaseCommandFrame(db, c);
    } else {
      TaxCommandFrame(db, c);
    }
  }

  lemma DeclarationDecided(db: Db, id: nat, approve: bool, actor: int, i: nat)
    requires Reachable(db) && i < |db.declarations|
    ensures var c := DecideDeclaration(id, approve, actor);
            var d, e := db.declarations[i], Next(db, c).declarations[i];
            && |Next(db, c).declarations| == |db.declarations|
            && e == d.(status := e.status)
            && (Turned(d.status, e.status, Approved) <==>
                id == i && approve && d.status.Submitted? && actor != d.submitter && d.bps < FULL_BPS)
            && (Turned(d.status, e.status, Rejected) <==>
                id == i && !approve && d.status.Submitted? && actor != d.submitter)
            && !Turned(d.status, e.status, Submitted)
  {
    if id == i && db.declarations[i].status.Submitted? && actor != db.declarations[i].submitter {
      ApprovalSucceedsExactly(db, i, actor);
    }
  }

  /** A declaration is approved or rejected exactly by someone else's decision on it while it is submitted. */
  lemma DeclarationsTurn(db: Db, c: Command, i: nat)
    requires Reachable(db) && i < |db.declarations|
    ensures i < |Next(db, c).declarations|
    ensures var d, e := db.declarations[i], Next(db, c).declarations[i];
            && e == d.(status := e.status)
            && (Turned(d.status, e.status, Approved) <==>
                c.DecideDeclaration? && c.id == i && c.approve && d.status.Submitted? && c.actor != d.submitter
                && d.bps < FULL_BPS)
            && (Turned(d.status, e.status, Rejected) <==>
                c.DecideDeclaration? && c.id == i && !c.approve && d.status.Submitted? && c.actor != d.submitter)
            && !Turned(d.status, e.status, Submitted)
  {
    Untouched(db, c);
    if c.DecideDeclaration? {
      DeclarationDecided(db, c.id, c.approve, c.actor, i);
    }
  }

  ghost predicate Declares(c: Command)
  {
    && c.SubmitDeclaration? && 0 < c.gross <= MAX_MINOR && 0 <= c.bps <= FULL_BPS && c.rows != []
    && IsAllocation(c.gross, c.rows) && forall r :: r in c.rows ==> r.gross > 0
  }

  // The declaration records what was submitted, and its entitlements are the allocated rows less tax.
  ghost predicate RecordsDeclaration(d: Declaration, c: Command)
  {
    && c.SubmitDeclaration? && d.org == c.org && d.currency == c.currency && d.gross == c.gross && d.bps == c.bps
    && d.submitter == c.actor && d.status.Submitted? && Entitles(c.rows, c.bps, d.entitlements)
    && d.tax == Sum(d.entitlements, Tax()) && d.tax + d.net == c.gross
  }

  lemma SubmittedIsRecorded(org: int, currency: Currency, gross: int, bps: int, rows: seq<Row>, actor: int)
    ensures RecordsDeclaration(FullySubmitted(org, currency, gross, bps, rows, actor),
                               SubmitDeclaration(org, currency, gross, bps, rows, actor))
  {
    TaxSplitEntitles(rows, bps);
  }

  /**
   A declaration is stored exactly when the amount and the rate are in range and the rows are an allocation with a
   positive share for everyone.
   */
  lemma DeclarationsBegin(db: Db, c: Command)
    ensures var ds, n := Next(db, c).declarations, |db.declarations|;
            if Declares(c) then |ds| == n + 1 && RecordsDeclaration(ds[n], c) else |ds| == n
  {
    Untouched(db, c);
    if c.SubmitDeclaration? {
      SubmittedIsRecorded(c.org, c.currency, c.gross, c.bps, c.rows, c.actor);
    }
  }

  // ---------- funding ----------

  lemma FundingDecided(db: Db, id: nat, approve: bool, observed: int, destinations: bool, actor: int, i: nat)
    requires Reachable(db) && i < |db.fundings|
    ensures var c := DecideFunding(id, approve, observed, destinations, actor);
            var f, g := db.fundings[i], Next(db, c).fundings[i];
            && |Next(db, c).fundings| == |db.fundings|
            && g == f.(status := g.status)
            && (Turned(f.status, g.status, Approved) <==>
                id == i && approve && f.status.Submitted? && actor != f.submitter && destinations
                && f.amount + Sum(db.instructions, Reserved()) <= observed <= MAX_SAFE_INTEGER)
            && (Turned(f.status, g.status, Rejected) <==>
                id == i && !approve && f.status.Submitted? && actor != f.submitter)
            && !Turned(f.status, g.status, Submitted)
  {
    ReachableKeeps(db);
    var f := db.fundings[i];
    assert f in db.fundings && db.declarations[f.declaration] in db.declarations;
    TaxIsNotNegative(db.declarations[f.declaration]);
    ReservedIsNotNegative(db);
  }

  lemma ReservedIsNotNegative(db: Db)
    requires TablesOk(db)
    ensures Sum(db.instructions, Reserved()) >= 0
  {
    forall p | p in db.instructions ensures Reserved()(p) >= 0 {
      var k :| 0 <= k < |db.instructions| && db.instructions[k] == p;
      AmountsArePayable(db, k);
    }
    SumNotNegative(db.instructions, Reserved());
  }

  /**
   A funding request is approved exactly by someone else, while it is submitted, with a verified destination for
   everyone and an observed balance that covers it and everything unsettled.
   */
  lemma FundingsTurn(db: Db, c: Command, i: nat)
    requires Reachable(db) && i < |db.fundings|
    ensures i < |Next(db, c).fundings|
    ensures var f, g := db.fundings[i], Next(db, c).fundings[i];
            && g == f.(status := g.status)
            && (Turned(f.status, g.status, Approved) <==>
                c.DecideFunding? && c.id == i && c.approve && f.status.Submitted? && c.actor != f.submitter
                && c.destinations && f.amount + Sum(db.instructions, Reserved()) <= c.observed <= MAX_SAFE_INTEGER)
            && (Turned(f.status, g.status, Rejected) <==>
                c.DecideFunding? && c.id == i && !c.approve && f.status.Submitted? && c.actor != f.submitter)
            && !Turned(f.status, g.status, Submitted)
  {
    Untouched(db, c);
    if c.DecideFunding? {
      FundingDecided(db, c.id, c.approve, c.observed, c.destinations, c.actor, i);
    }
  }

  ghost predicate AsksFunding(db: Db, c: Command)
  {
    && c.SubmitFunding? && c.declaration < |db.declarations|
    && var d := db.declarations[c.declaration];
    && d.status.Approved? && d.org == c.org && d.currency == PAYOUT_CURRENCY
    && d.net <= c.observed <= MAX_SAFE_INTEGER
    && forall f :: f in db.fundings && f.declaration == c.declaration ==> f.status.Rejected?
  }

  /** Funding is requested exactly for an approved declaration of the organization, covered and not yet funded. */
  lemma FundingsBegin(db: Db, c: Command)
    requires Reachable(db)
    ensures var fs, n := Next(db, c).fundings, |db.fundings|;
            if !AsksFunding(db, c) then |fs| == n
            else
              && |fs| == n + 1
              && fs[n].org == c.org && fs[n].declaration == c.declaration && fs[n].submitter == c.actor
              && fs[n].amount == db.declarations[c.declaration].net && fs[n].status.Submitted?
  {
    Untouched(db, c);
    if c.SubmitFunding? && c.declaration < |db.declarations| {
      NetIsNotNegative(db, c.declaration);
    }
  }

  lemma NetIsNotNegative(db: Db, d: nat)
    requires Reachable(db) && d < |db.declarations|
    ensures db.declarations[d].net >= 0
  {
    ReachableKeeps(db);
    assert db.declarations[d] in db.declarations;
    TaxIsNotNegative(db.declarations[d]);
  }

  // ---------- payouts ----------

  // The provider speaks of this payout.
  predicate Matches(p: Instruction, c: Command)
  {
    && c.RecordOutcome? && c.amount == p.amount && c.currency == p.currency
    && (p.transferCode.None? || p.transferCode == Some(c.transferCode))
  }

  // The payout was handed to the provider and has no final outcome.
  predicate UnderWay(s: PayoutStatus) { s.Dispatching? || s.Sent? || s.Uncertain? }

  // Outcomes and dispatch steps concern one payout; no other command changes any.
  predicate Concerns(c: Command, i: nat)
  {
    (c.ClaimPayout? || c.MarkSent? || c.MarkUncertain? || c.RecordOutcome?) && c.id == i
  }

  lemma OthersLeavePayout(db: Db, c: Command, i: nat)
    requires i < |db.instructions| && !Concerns(c, i)
    ensures i < |Next(db, c).instructions| && Next(db, c).instructions[i] == db.instructions[i]
  {
    if CaseCommand(c) {
      CaseCommandFrame(db, c);
    } else if !PayoutCommand(c) {
      TaxCommandFrame(db, c);
    }
  }

  /** Dispatch: each step is taken exactly by the worker's own command on a payout in the state before it. */
  lemma PayoutsAreDispatched(db: Db, c: Command, i: nat)
    requires i < |db.instructions|
    ensures i < |Next(db, c).instructions|
    ensures var p, q := db.instructions[i], Next(db, c).instructions[i];
            && (Turned(p.status, q.status, Dispatching) <==> c == ClaimPayout(i) && p.status.Authorized?)
            && (Turned(p.status, q.status, Sent) <==> c.MarkSent? && c.id == i && p.status.Dispatching?)
            && (Turned(p.status, q.status, Sent) ==> q.transferCode == Some(c.transferCode))
            && (Turned(p.status, q.status, Uncertain) <==> c == MarkUncertain(i) && p.status.Dispatching?)
            && !Turned(p.status, q.status, Authorized)
            && q == p.(status := q.status, transferCode := q.transferCode, settlement := q.settlement)
            && (p.transferCode.Some? && !c.MarkSent? ==> q.transferCode == p.transferCode)
  {
    if !Concerns(c, i) {
      OthersLeavePayout(db, c, i);
    }
  }

  lemma FirstOutcomeCommits(db: Db, id: nat, outcome: Outcome, transferCode: int, amount: int, currency: Currency,
                            at: int)
    requires Inv(db) && id < |db.instructions| && UnderWay(db.instructions[id].status)
    ensures var done := DoRecordOutcome(db, id, outcome, transferCode, amount, currency, at);
            var p := db.instructions[id];
            && (done.Ok? <==>
                !outcome.Reversal? && Matches(p, RecordOutcome(id, outcome, transferCode, amount, currency, at)))
            && (done.Ok? ==>
                  && |done.value.instructions| == |db.instructions|
                  && var q := done.value.instructions[id];
                  && q.status == (if outcome.Success? then Confirmed else Failed)
                  && q.settlement == (if outcome.Success? then Some(|db.ledger.entries|) else p.settlement)
                  && q.transferCode == Some(transferCode))
  {
    AmountsArePayable(db, id);
    SettlementPosts(db, id, at);
  }

  // A report on a payout under way.
  lemma FirstOutcome(db: Db, c: Command, i: nat)
    requires Inv(db) && i < |db.instructions| && c.RecordOutcome? && c.id == i && UnderWay(db.instructions[i].status)
    ensures |Next(db, c).instructions| == |db.instructions|
    ensures var p, q := db.instructions[i], Next(db, c).instructions[i];
            if !Matches(p, c) || c.outcome.Reversal? then q == p
            else
              && q.status == (if c.outcome.Success? then Confirmed else Failed)
              && q.settlement == (if c.outcome.Success? then Some(|db.ledger.entries|) else p.settlement)
              && q.transferCode == Some(c.transferCode)
  {
    FirstOutcomeCommits(db, i, c.outcome, c.transferCode, c.amount, c.currency, c.at);
  }

  // A report on a confirmed payout.
  lemma SecondOutcome(db: Db, c: Command, i: nat)
    requires Reachable(db) && i < |db.instructions| && c.RecordOutcome? && c.id == i
    requires db.instructions[i].status.Confirmed?
    ensures |Next(db, c).instructions| == |db.instructions|
    ensures var p, q := db.instructions[i], Next(db, c).instructions[i];
            p.settlement.Some?
            && q == if Matches(p, c) && c.outcome.Reversal? && !IsReversed(db.ledger.entries, p.settlement.value)
                    then p.(status := Reversed) else p
  {
    ReachableKeeps(db);
    AmountsArePayable(db, i);
    PayoutReversalPosts(db, i, c.at);
  }

  // Reports on payouts not handed over, or dead, change nothing.
  lemma NoOutcome(db: Db, c: Command, i: nat)
    requires i < |db.instructions| && c.RecordOutcome? && c.id == i
    requires !UnderWay(db.instructions[i].status) && !db.instructions[i].status.Confirmed?
    ensures Next(db, c) == db
  {
  }

  lemma DispatchIsNoOutcome(db: Db, c: Command, i: nat)
    requires i < |db.instructions| && Concerns(c, i) && !c.RecordOutcome?
    ensures i < |Next(db, c).instructions|
    ensures var p, q := db.instructions[i], Next(db, c).instructions[i];
            q.settlement == p.settlement && (p.status != q.status ==> UnderWay(q.status))
  {
  }

  /**
   Outcomes: a payout is confirmed, failed or reversed exactly by a matching report, of a payout under way or, for a
   reversal, of a confirmed one whose settlement nobody has reversed.
   */
  lemma PayoutsGetOutcomes(db: Db, c: Command, i: nat)
    requires Reachable(db) && i < |db.instructions|
    ensures i < |Next(db, c).instructions|
    ensures var p, q := db.instructions[i], Next(db, c).instructions[i];
            && (Turned(p.status, q.status, Confirmed) <==>
                Matches(p, c) && c.id == i && c.outcome.Success? && UnderWay(p.status))
            && (Turned(p.status, q.status, Confirmed) ==> q.settlement == Some(|db.ledger.entries|))
            && (Turned(p.status, q.status, Confirmed) || Turned(p.status, q.status, Failed) ==>
                  q.transferCode == Some(c.transferCode))
            && (Turned(p.status, q.status, Failed) <==>
                Matches(p, c) && c.id == i && c.outcome.Failure? && UnderWay(p.status))
            && (Turned(p.status, q.status, Reversed) <==>
                Matches(p, c) && c.id == i && c.outcome.Reversal? && p.status.Confirmed? && p.settlement.Some?
                && !IsReversed(db.ledger.entries, p.settlement.value))
            && (!Turned(p.status, q.status, Confirmed) ==> q.settlement == p.settlement)
  {
    if !Concerns(c, i) {
      OthersLeavePayout(db, c, i);
    } else if !c.RecordOutcome? {
      DispatchIsNoOutcome(db, c, i);
    } else if UnderWay(db.instructions[i].status) {
      ReachableKeeps(db);
      FirstOutcome(db, c, i);
    } else if db.instructions[i].status.Confirmed? {
      SecondOutcome(db, c, i);
    } else {
      NoOutcome(db, c, i);
    }
  }

  // One instruction per entitlement of the funded declaration, in order, for its net.
  ghost predicate PaysEntitlements(ps: seq<Instruction>, funding: nat, f: Funding, ents: seq<Entitlement>)
  {
    && |ps| == |ents|
    && forall e :: 0 <= e < |ps| ==>
                     && ps[e].funding == funding && ps[e].declaration == f.declaration && ps[e].entitlement == e
                     && ps[e].org == f.org && ps[e].currency == PAYOUT_CURRENCY && ps[e].amount == ents[e].net
                     && ps[e].status.Authorized? && ps[e].transferCode.None? && ps[e].supersedes.None?
  }

  // The same claim again, as a new payout that names the one it replaces.
  predicate PaysAgain(q: Instruction, p: Instruction, payout: nat)
  {
    && q.funding == p.funding && q.declaration == p.declaration && q.entitlement == p.entitlement && q.org == p.org
    && q.currency == p.currency && q.amount == p.amount
    && q.status.Authorized? && q.transferCode.None? && q.supersedes == Some(payout)
  }

  predicate FundingApproved(db: Db, next: Db, id: nat)
  {
    && id < |db.fundings| <= |next.fundings| && Turned(db.fundings[id].status, next.fundings[id].status, Approved)
    && db.fundings[id].declaration < |db.declarations|
  }

  predicate PayoutReplaced(db: Db, next: Db, id: nat)
  {
    && id < |db.cases| <= |next.cases| && Turned(db.cases[id].status, next.cases[id].status, Executed)
    && db.cases[id].resolution == Some(ReplacementPayout) && db.cases[id].payout < |db.instructions|
  }

  lemma FundingPays(db: Db, c: Command)
    requires Inv(db) && c.DecideFunding?
    ensures var next, n := Next(db, c), |db.instructions|;
            && n <= |next.instructions|
            && if FundingApproved(db, next, c.id) then
                 PaysEntitlements(next.instructions[n..], c.id, db.fundings[c.id],
                                  db.declarations[db.fundings[c.id].declaration].entitlements)
               else next.instructions == db.instructions
  {
  }

  lemma ReplacementPays(db: Db, c: Command)
    requires c.ExecuteCase?
    ensures var next, n := Next(db, c), |db.instructions|;
            if PayoutReplaced(db, next, c.id) then
              && |next.instructions| == n + 1
              && PaysAgain(next.instructions[n], db.instructions[db.cases[c.id].payout], db.cases[c.id].payout)
            else next.instructions == db.instructions
  {
  }

  lemma NobodyElsePays(db: Db, c: Command)
    requires !c.DecideFunding? && !c.ExecuteCase?
    ensures |Next(db, c).instructions| == |db.instructions|
  {
    if !PayoutCommand(c) && !CaseCommand(c) {
      TaxCommandFrame(db, c);
    }
  }

  /** New payouts come exactly from an approved funding, one per entitlement, or from an executed replacement. */
  lemma PayoutsBegin(db: Db, c: Command)
    requires Reachable(db)
    ensures var next, n := Next(db, c), |db.instructions|;
            && n <= |next.instructions|
            && var added := next.instructions[n..];
            if c.DecideFunding? && FundingApproved(db, next, c.id) then
              PaysEntitlements(added, c.id, db.fundings[c.id],
                               db.declarations[db.fundings[c.id].declaration].entitlements)
            else if c.ExecuteCase? && PayoutReplaced(db, next, c.id) then
              |added| == 1 && PaysAgain(added[0], db.instructions[db.cases[c.id].payout], db.cases[c.id].payout)
            else added == []
  {
    if c.DecideFunding? {
      ReachableKeeps(db);
      FundingPays(db, c);
    } else if c.ExecuteCase? {
      ReplacementPays(db, c);
    } else {
      NobodyElsePays(db, c);
    }
  }

  // ---------- exception cases ----------

  predicate OpensCase(db: Db, c: Command)
  {
    && c.OpenCase? && c.payout < |db.instructions|
    && (db.instructions[c.payout].status.Uncertain? || Dead(db.instructions[c.payout].status))
    && forall x :: x in db.cases ==> x.payout != c.payout
  }

  /** A case is opened exactly for an uncertain, failed or reversed payout that has none. */
  lemma CasesBegin(db: Db, c: Command)
    ensures var cs, n := Next(db, c).cases, |db.cases|;
            if !OpensCase(db, c) then |cs| == n
            else
              var p := db.instructions[c.payout];
              && |cs| == n + 1
              && cs[n].payout == c.payout && cs[n].org == p.org && cs[n].currency == p.currency
              && cs[n].amount == p.amount && cs[n].status.Open? && cs[n].resolution.None? && !cs[n].held
  {
    Untouched(db, c);
  }

  // The guards on a proposal: a replacement needs a dead payout, a write-off one that is not uncertain.
  predicate MayPropose(resolution: Resolution, payout: PayoutStatus)
  {
    (resolution.ReplacementPayout? ==> Dead(payout)) && (resolution.WriteOff? ==> !payout.Uncertain?)
  }

  /** A case gets evidence, and then a proposal, exactly while it waits for them and the proposal is permitted. */
  lemma CasesAreProposed(db: Db, c: Command, i: nat)
    requires Inv(db) && i < |db.cases|
    ensures i < |Next(db, c).cases| && db.cases[i].payout < |db.instructions|
    ensures var x, y := db.cases[i], Next(db, c).cases[i];
            && (Turned(x.status, y.status, EvidenceSubmitted) <==> c == AddEvidence(i) && x.status.Open?)
            && (Turned(x.status, y.status, DecisionPending) <==>
                c.ProposeResolution? && c.id == i && x.status.EvidenceSubmitted?
                && MayPropose(c.resolution, db.instructions[x.payout].status))
            && (if Turned(x.status, y.status, DecisionPending)
                then y.resolution == Some(c.resolution) && y.preparedBy == c.actor
                else y.resolution == x.resolution && y.preparedBy == x.preparedBy)
  {
    assert db.cases[i] in db.cases;
    Untouched(db, c);
  }

  /** A proposal is decided exactly once, by someone other than who prepared it. */
  lemma CasesTurn(db: Db, c: Command, i: nat)
    requires i < |db.cases|
    ensures i < |Next(db, c).cases|
    ensures var x, y := db.cases[i], Next(db, c).cases[i];
            && (Turned(x.status, y.status, ResolutionApproved) <==>
                c.DecideResolution? && c.id == i && c.approve && x.status.DecisionPending? && c.actor != x.preparedBy)
            && (Turned(x.status, y.status, ResolutionRejected) <==>
                c.DecideResolution? && c.id == i && !c.approve && x.status.DecisionPending? && c.actor != x.preparedBy)
            && !Turned(x.status, y.status, Open)
            && y == x.(status := y.status, resolution := y.resolution, preparedBy := y.preparedBy, held := y.held)
  {
    Untouched(db, c);
  }

  // What executing a case needs beside the approval: a policy that covers it and, by resolution, a destination or
  // evidence.
  predicate MayExecute(resolution: Resolution, payout: PayoutStatus, c: Command)
    requires c.ExecuteCase?
  {
    match resolution
    case CloseNoAction => true
    case ReplacementPayout => c.covered && c.destination && Dead(payout)
    case _ => c.covered && c.evidence
  }

  lemma ExecutionSucceedsExactly(db: Db, c: Command)
    requires Inv(db) && c.ExecuteCase? && c.id < |db.cases|
    ensures db.cases[c.id].payout < |db.instructions|
    ensures var x := db.cases[c.id];
            Perform(db, c).Ok? <==>
            x.status.ResolutionApproved? && !x.held && c.actor != x.preparedBy && x.resolution.Some?
            && MayExecute(x.resolution.value, db.instructions[x.payout].status, c)
  {
    assert db.cases[c.id] in db.cases;
    if db.cases[c.id].status.ResolutionApproved? && Corrects(db.cases[c.id]) {
      CorrectionPosts(db, c.id, c.at);
    }
  }

  /** A case is executed exactly once it is approved and not on hold, by someone other than who prepared it. */
  lemma CasesAreExecuted(db: Db, c: Command, i: nat)
    requires Inv(db) && i < |db.cases|
    ensures i < |Next(db, c).cases| && db.cases[i].payout < |db.instructions|
    ensures var x, y := db.cases[i], Next(db, c).cases[i];
            Turned(x.status, y.status, Executed) <==>
            c.ExecuteCase? && c.id == i && x.status.ResolutionApproved? && !x.held && c.actor != x.preparedBy
            && x.resolution.Some? && MayExecute(x.resolution.value, db.instructions[x.payout].status, c)
  {
    assert db.cases[i] in db.cases;
    Untouched(db, c);
    if c.ExecuteCase? && c.id == i {
      ExecutionSucceedsExactly(db, c);
    }
  }

  // ---------- holds ----------

  predicate AsksHold(db: Db, c: Command)
  {
    && c.ProposeHold? && c.case_ < |db.cases| && c.place != db.cases[c.case_].held
    && !db.cases[c.case_].status.ResolutionRejected? && !db.cases[c.case_].status.Executed?
    && forall h :: h in db.holds && h.case_ == c.case_ ==> !h.status.Submitted?
  }

  /** A hold or its release is asked for exactly when it would change something and nothing is pending. */
  lemma HoldsBegin(db: Db, c: Command)
    ensures var hs, n := Next(db, c).holds, |db.holds|;
            if !AsksHold(db, c) then |hs| == n
            else |hs| == n + 1 && hs[n].case_ == c.case_ && hs[n].place == c.place && hs[n].preparedBy == c.actor
                 && hs[n].status.Submitted?
  {
    Untouched(db, c);
  }

  predicate DecidesHold(db: Db, c: Command, i: nat)
    requires i < |db.holds|
  {
    c.DecideHold? && c.id == i && db.holds[i].status.Submitted? && c.actor != db.holds[i].preparedBy
  }

  /** A hold request is decided exactly once, by someone else, and only its approval sets the hold, as asked. */
  lemma HoldsTurn(db: Db, c: Command, i: nat)
    requires Reachable(db) && i < |db.holds|
    ensures i < |Next(db, c).holds| && db.holds[i].case_ < |db.cases| <= |Next(db, c).cases|
    ensures var h, k := db.holds[i], Next(db, c).holds[i];
            && k == h.(status := k.status)
            && (Turned(h.status, k.status, Approved) <==> DecidesHold(db, c, i) && c.approve)
            && (Turned(h.status, k.status, Rejected) <==> DecidesHold(db, c, i) && !c.approve)
            && !Turned(h.status, k.status, Submitted)
            && (Turned(h.status, k.status, Approved) ==> Next(db, c).cases[h.case_].held == h.place)
  {
    ReachableHolds(db);
    assert db.holds[i] in db.holds;
    Untouched(db, c);
  }

  /** No other command puts a case on hold or releases it. */
  lemma HeldChangesByApprovalOnly(db: Db, c: Command, i: nat)
    requires Reachable(db) && i < |db.cases|
    ensures i < |Next(db, c).cases|
    ensures Next(db, c).cases[i].held != db.cases[i].held ==>
              c.DecideHold? && c.approve && c.id < |db.holds| && db.holds[c.id].case_ == i && DecidesHold(db, c, c.id)
  {
    Untouched(db, c);
  }

  // ---------- tax ----------

  predicate FilesRemittance(db: Db, c: Command)
  {
    && c.SubmitRemittance? && c.policy && c.declaration < |db.declarations|
    && db.declarations[c.declaration].status.Approved? && db.declarations[c.declaration].org == c.org
    && db.declarations[c.declaration].tax > 0
    && forall r :: r in db.remittances ==> r.declaration != c.declaration
  }

  /** A remittance is filed exactly for an approved declaration of the organization with tax and no filing yet. */
  lemma RemittancesBegin(db: Db, c: Command)
    ensures var rs, n := Next(db, c).remittances, |db.remittances|;
            if !FilesRemittance(db, c) then |rs| == n
            else
              var d := db.declarations[c.declaration];
              && |rs| == n + 1
              && rs[n].declaration == c.declaration && rs[n].org == d.org && rs[n].currency == d.currency
              && rs[n].amount == d.tax && rs[n].submitter == c.actor && rs[n].status.Filed? && rs[n].journal.None?
  {
    Untouched(db, c);
  }

  /** Filing and payment evidence are decided exactly once each, by someone other than who submitted them. */
  lemma RemittancesTurn(db: Db, c: Command, i: nat)
    requires i < |db.remittances|
    ensures i < |Next(db, c).remittances|
    ensures var r, q := db.remittances[i], Next(db, c).remittances[i];
            && (Turned(r.status, q.status, FilingApproved) <==>
                c.DecideFiling? && c.id == i && c.approve && r.status.Filed? && c.actor != r.submitter)
            && (Turned(r.status, q.status, FilingRejected) <==>
                c.DecideFiling? && c.id == i && !c.approve && r.status.Filed? && c.actor != r.submitter)
            && (Turned(r.status, q.status, PaymentSubmitted) <==>
                c.SubmitPayment? && c.id == i && r.status.FilingApproved?)
            && q.paymentSubmitter
               == (if Turned(r.status, q.status, PaymentSubmitted) then c.actor else r.paymentSubmitter)
            && !Turned(r.status, q.status, Filed)
            && q == r.(status := q.status, paymentSubmitter := q.paymentSubmitter, journal := q.journal)
  {
    Untouched(db, c);
  }

  predicate DecidesPayment(db: Db, c: Command, i: nat)
    requires i < |db.remittances|
  {
    c.DecidePayment? && c.id == i && db.remittances[i].status.PaymentSubmitted?
    && c.actor != db.remittances[i].paymentSubmitter
  }

  // One active statement per entitlement, in order, naming its investor and its tax.
  ghost predicate Issues(added: seq<Statement>, remittance: nat, ents: seq<Entitlement>)
  {
    && |added| == |ents|
    && forall e :: 0 <= e < |added| ==>
                     && added[e].remittance == remittance && added[e].investor == ents[e].investor
                     && added[e].withheld == ents[e].tax && added[e].active
  }

  /** Tax is remitted exactly by an approved payment with its receipt, which issues one statement per entitlement. */
  lemma RemittancesAreRemitted(db: Db, c: Command, i: nat)
    requires Inv(db) && i < |db.remittances|
    ensures i < |Next(db, c).remittances| && db.remittances[i].declaration < |db.declarations|
    ensures var next, n := Next(db, c), |db.statements|;
            var r, q := db.remittances[i], next.remittances[i];
            && (Turned(r.status, q.status, PaymentRejected) <==> DecidesPayment(db, c, i) && !c.approve)
            && (Turned(r.status, q.status, Remitted) <==> DecidesPayment(db, c, i) && c.approve && c.receipt)
            && (Turned(r.status, q.status, Remitted) ==>
                  && q.journal == Some(|db.ledger.entries|) && n <= |next.statements|
                  && next.statements[..n] == db.statements
                  && Issues(next.statements[n..], i, db.declarations[r.declaration].entitlements))
  {
    TaxIsPayable(db, i);
    Untouched(db, c);
    if DecidesPayment(db, c, i) {
      RemittancePosts(db, i, c.at);
    }
  }

  // ---------- reversals of remittances ----------

  predicate AsksReversal(db: Db, c: Command)
  {
    && c.ProposeReversal? && c.remittance < |db.remittances| && db.remittances[c.remittance].status.Remitted?
    && forall v :: v in db.reversals ==> v.remittance != c.remittance
  }

  /** A reversal is asked for exactly once, of a remittance in force. */
  lemma ReversalsBegin(db: Db, c: Command)
    requires Inv(db)
    ensures var vs, n := Next(db, c).reversals, |db.reversals|;
            if !AsksReversal(db, c) then |vs| == n
            else |vs| == n + 1 && vs[n].remittance == c.remittance && vs[n].preparedBy == c.actor
                 && vs[n].status.Submitted?
  {
    Untouched(db, c);
    if c.ProposeReversal? && c.remittance < |db.remittances| {
      assert db.remittances[c.remittance] in db.remittances;
    }
  }

  predicate DecidesReversal(db: Db, c: Command, i: nat)
    requires i < |db.reversals|
  {
    && c.DecideReversal? && c.id == i && db.reversals[i].status.Submitted? && c.actor != db.reversals[i].preparedBy
    && db.reversals[i].remittance < |db.remittances| && db.remittances[db.reversals[i].remittance].status.Remitted?
  }

  ghost predicate StillStands(db: Db, remittance: nat)
    requires remittance < |db.remittances|
  {
    db.remittances[remittance].journal.Some?
    && !IsReversed(db.ledger.entries, db.remittances[remittance].journal.value)
  }

  /**
   A reversal is approved exactly by someone else while the remittance is in force and its journal stands; then the
   remittance is reversed and exactly its statements are revoked.
   */
  lemma ReversalsTurn(db: Db, c: Command, i: nat)
    requires Reachable(db) && i < |db.reversals|
    ensures i < |Next(db, c).reversals|
    ensures var next := Next(db, c);
            var v, u := db.reversals[i], next.reversals[i];
            && u == v.(status := u.status)
            && (Turned(v.status, u.status, Approved) <==>
                DecidesReversal(db, c, i) && c.approve && StillStands(db, v.remittance))
            && (Turned(v.status, u.status, Rejected) <==> DecidesReversal(db, c, i) && !c.approve)
            && !Turned(v.status, u.status, Submitted)
            && (Turned(v.status, u.status, Approved) ==>
                  && v.remittance < |next.remittances| && next.remittances[v.remittance].status.RemittanceReversed?
                  && |next.statements| == |db.statements|
                  && forall k :: 0 <= k < |db.statements| ==>
                                   next.statements[k] == if db.statements[k].remittance == v.remittance
                                   then db.statements[k].(active := false) else db.statements[k])
  {
    Untouched(db, c);
    if DecidesReversal(db, c, i) {
      RemittanceReversalPosts(db, db.reversals[i].remittance, c.at);
    }
  }

  /** Nothing else reverses a remittance or touches a statement. */
  lemma StatementsChangeByDecisionOnly(db: Db, c: Command, i: nat)
    requires i < |db.remittances|
    ensures Next(db, c).statements != db.statements ==> (c.DecidePayment? || c.DecideReversal?) && c.approve
    ensures i < |Next(db, c).remittances|
    ensures Turned(db.remittances[i].status, Next(db, c).remittances[i].status, RemittanceReversed) ==>
              c.DecideReversal? && c.approve
  {
    Untouched(db, c);
  }
}
