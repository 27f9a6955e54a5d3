/**
 The distribution tables, updated in place: each method is one transaction body, proved to do to the
 tables exactly what its step function says, with nothing changed when it is refused. The class
 invariant is that some run reaches the tables, so every theorem about reachable states is one about
 these objects.
 */
module DistributionStore {
  import opened Base
  import opened Sums
  import opened Allocation
  import opened Declarations
  import opened Journal
  import opened Distribution
  import opened DistributionInvariant
  import opened DistributionTheorems
  import opened DistributionGuard
  import opened DistributionEffects
  import opened DistributionAccounts

  class Tables {
    const journal: JournalTables
    var declarations: seq<Declaration>
    var fundings: seq<Funding>
    var instructions: seq<Instruction>
    var cases: seq<Case>
    var holds: seq<HoldRequest>
    var remittances: seq<Remittance>
    var reversals: seq<ReversalRequest>
    var statements: seq<Statement>

    ghost function Snapshot(): Db
      reads this, journal
    {
      Db(journal.Contents(), declarations, fundings, instructions, cases, holds, remittances, reversals, statements)
    }

    ghost predicate Valid()
      reads this, journal
    {
      Reachable(Snapshot())
    }

    /** The tables of a valid object satisfy every invariant of the pipeline. */
    lemma ValidIsConsistent()
      requires Valid()
      ensures Inv(Snapshot()) && HoldsOk(Snapshot()) && LinksOk(Snapshot().ledger.entries, instructions, remittances)
      ensures forall org, currency :: AccountsAgree(Snapshot(), org, currency)
    {
      forall org, currency ensures AccountsAgree(Snapshot(), org, currency) {
        AccountsStandForTables(Snapshot(), org, currency);
      }
      ReachableKeeps(Snapshot());
      ReachableHolds(Snapshot());
      ReachableLinks(Snapshot());
    }

    constructor ()
      ensures Valid() && Snapshot() == EMPTY && fresh(journal)
    {
      journal := new JournalTables();
      declarations, fundings, instructions, cases := [], [], [], [];
      holds, remittances, reversals, statements := [], [], [], [];
      new;
      assert Snapshot() == After(EMPTY, []);
    }

    // ---------- ledger ----------

    method EnsurePostingAccounts(req: Request)
      modifies journal
      ensures journal.Contents() == EnsureAccounts(old(journal.Contents()), req.org,
                                                   set p | p in req.postings :: p.code)
    {
      var ps := req.postings;
      for i := 0 to |ps|
        invariant journal.entries == old(journal.entries)
        invariant journal.accounts == old(journal.accounts) + set p | p in ps[..i] :: (req.org, p.code)
      {
        assert ps[..i + 1] == ps[..i] + [ps[i]];
        assert (set p | p in ps[..i + 1] :: (req.org, p.code))
            == (set p | p in ps[..i] :: (req.org, p.code)) + {(req.org, ps[i].code)};
        journal.Ensure(req.org, ps[i].code);
      }
      assert ps[..|ps|] == ps;
      ghost var codes := set p | p in ps :: p.code;
      assert (set code | code in codes :: (req.org, code)) == set p | p in ps :: (req.org, p.code);
    }

    // Makes sure of the accounts, posts, and undoes the accounts if the post is refused.
    method EnsureAccountsAndPost(req: Request) returns (r: Result<nat, Error>)
      modifies journal
      ensures var step := EnsureAndPost(old(journal.Contents()), req);
              && (step.Ok? ==> r == Ok(step.value.journal) && journal.Contents() == step.value.ledger)
              && (step.Err? ==> r == Err(step.error) && journal.Contents() == old(journal.Contents()))
    {
      var saved := journal.accounts;
      EnsurePostingAccounts(req);
      if req.key.DeclarationKey? {
        journal.Ensure(req.org, WithholdingTax(req.currency));
      } else if req.key.ExceptionKey? {
        journal.Ensure(req.org, PayoutClearing(req.currency));
      }
      assert journal.Contents() == EnsureAccounts(old(journal.Contents()), req.org, AccountsFor(req));
      var posted := journal.PostInTransaction(req);
      if posted.Err? {
        journal.accounts := saved;
        return Err(posted.error);
      }
      return Ok(posted.value.0);
    }

    // ---------- declarations ----------

    /** Groups the snapshot by investor, allocates, withholds tax and records the declaration. */
    method SubmitDistributionDeclaration(org: int, currency: Currency, gross: int, bps: int,
                                         wallets: seq<WalletHolding>, totalSupply: int, actor: int)
      returns (refusal: Option<Refusal>, rows: seq<Row>)
      requires Valid() && Reconciles(wallets, totalSupply)
      modifies this
      ensures 0 <= gross ==>
                IsAllocation(gross, rows) && multiset(HoldingsOf(rows)) == multiset(GroupByInvestor(wallets))
      ensures Valid()
      ensures Commits(old(Snapshot()), Snapshot(), refusal,
                      DoSubmitDeclaration(old(Snapshot()), org, currency, gross, bps, rows, actor))
      ensures refusal.None? <==> 0 < gross <= MAX_MINOR && 0 <= bps <= FULL_BPS && forall r :: r in rows ==> r.gross > 0
      ensures refusal.None? ==>
                && |declarations| == |old(declarations)| + 1
                && var d := declarations[|old(declarations)|];
                && RecordsDeclaration(d, SubmitDeclaration(org, currency, gross, bps, rows, actor))
                && ListsInvestors(wallets, d.entitlements)
    {
      SnapshotFeedsAllocator(wallets, totalSupply);
      rows := [];
      if gross >= 0 {
        var shares := Allocate(gross, GroupByInvestor(wallets));
        rows := shares[..];
        assert Sum(rows, BalanceOf()) > 0 && rows != [];
      }
      refusal := StoreDeclaration(org, currency, gross, bps, rows, actor);
      if refusal.None? {
        SubmittedIsRecorded(org, currency, gross, bps, rows, actor);
        EntitlementsFollowWallets(wallets, gross, rows, bps, declarations[|declarations| - 1].entitlements);
      }
    }

    method StoreDeclaration(org: int, currency: Currency, gross: int, bps: int, rows: seq<Row>, actor: int)
      returns (refusal: Option<Refusal>)
      requires Valid() && (0 <= gross ==> IsAllocation(gross, rows) && rows != [])
      modifies this
      ensures Valid()
      ensures Commits(old(Snapshot()), Snapshot(), refusal,
                      DoSubmitDeclaration(old(Snapshot()), org, currency, gross, bps, rows, actor))
      ensures refusal.None? <==> 0 < gross <= MAX_MINOR && 0 <= bps <= FULL_BPS && forall r :: r in rows ==> r.gross > 0
      ensures refusal.None? ==>
                declarations == old(declarations) + [FullySubmitted(org, currency, gross, bps, rows, actor)]
    {
      StepStaysReachable(Snapshot(), SubmitDeclaration(org, currency, gross, bps, rows, actor));
      if !(0 < gross <= MAX_MINOR) || !(0 <= bps <= FULL_BPS) {
        return Some(InvalidInput);
      }
      if exists r :: r in rows && r.gross <= 0 {
        return Some(Conflict);
      }
      declarations := declarations + [FullySubmitted(org, currency, gross, bps, rows, actor)];
      refusal := None;
    }

    method DecideDistributionDeclaration(id: nat, approve: bool, actor: int) returns (refusal: Option<Refusal>)
      requires Valid()
      modifies this, journal
      ensures Valid()
      ensures Commits(old(Snapshot()), Snapshot(), refusal, DoDecideDeclaration(old(Snapshot()), id, approve, actor))
    {
      StepStaysReachable(Snapshot(), DecideDeclaration(id, approve, actor));
      if id >= |declarations| {
        return Some(NotFound);
      }
      var d := declarations[id];
      var desired := if approve then Approved else Rejected;
      if !d.status.Submitted? {
        return if d.status == desired then None else Some(Conflict);
      }
      if d.submitter == actor {
        return Some(Forbidden);
      }
      if approve {
        var posted := EnsureAccountsAndPost(DeclarationJournal(id, d));
        if posted.Err? {
          return Some(InvalidInput);
        }
      }
      declarations := declarations[id := d.(status := desired)];
      refusal := None;
    }

    // ---------- funding ----------

    method SubmitDistributionFundingRequest(declaration: nat, org: int, observed: int, actor: int)
      returns (refusal: Option<Refusal>)
      requires Valid()
      modifies this
      ensures Valid()
      ensures Commits(old(Snapshot()), Snapshot(), refusal,
                      DoSubmitFunding(old(Snapshot()), declaration, org, observed, actor))
    {
      StepStaysReachable(Snapshot(), SubmitFunding(declaration, org, observed, actor));
      if declaration >= |declarations| {
        return Some(NotFound);
      }
      var d := declarations[declaration];
      if d.org != org {
        return Some(Forbidden);
      }
      if !d.status.Approved? || d.currency != PAYOUT_CURRENCY {
        return Some(Conflict);
      }
      if !(0 <= observed <= MAX_SAFE_INTEGER) {
        return Some(ProviderUnavailable);
      }
      if observed < d.net || exists f :: f in fundings && ActiveFunding(f, declaration) {
        return Some(Conflict);
      }
      fundings := fundings + [Funding(org, declaration, d.net, actor, Submitted)];
      refusal := None;
    }

    /** On approval inserts one instruction per entitlement, in order. */
    method DecideDistributionFundingRequest(id: nat, approve: bool, observed: int, destinations: bool, actor: int)
      returns (refusal: Option<Refusal>)
      requires Valid()
      modifies this
      ensures Valid()
      ensures Commits(old(Snapshot()), Snapshot(), refusal,
                      DoDecideFunding(old(Snapshot()), id, approve, observed, destinations, actor))
      ensures refusal.None? && approve && old(fundings[id].status.Submitted?) ==>
                && Sum(instructions, Reserved()) <= observed
                && Sum(instructions, Reserved()) == old(Sum(instructions, Reserved()) + fundings[id].amount)
    {
      StepStaysReachable(Snapshot(), DecideFunding(id, approve, observed, destinations, actor));
      if id >= |fundings| {
        return Some(NotFound);
      }
      var f := fundings[id];
      var desired := if approve then Approved else Rejected;
      if !f.status.Submitted? {
        return if f.status == desired then None else Some(Conflict);
      }
      if f.submitter == actor {
        return Some(Forbidden);
      }
      if approve {
        if !(0 <= observed <= MAX_SAFE_INTEGER) {
          return Some(ProviderUnavailable);
        }
        if observed < f.amount + Sum(instructions, Reserved()) {
          return Some(Conflict);
        }
        if f.declaration >= |declarations| || declarations[f.declaration].entitlements == [] || !destinations {
          return Some(Conflict);
        }
        FundingIsCovered(Snapshot(), id, observed, destinations, actor);
        InsertInstructions(id, f, declarations[f.declaration].entitlements);
      }
      fundings := fundings[id := f.(status := desired)];
      refusal := None;
    }

    method InsertInstructions(id: nat, f: Funding, entitlements: seq<Entitlement>)
      modifies this`instructions
      ensures instructions == old(instructions) + NewInstructions(id, f, entitlements)
    {
      for e := 0 to |entitlements|
        invariant instructions == old(instructions) + NewInstructions(id, f, entitlements)[..e]
      {
        instructions := instructions + [NewInstruction(id, f, e, entitlements[e].net)];
      }
    }

    // ---------- dispatch ----------

    method ClaimDistributionPayout(id: nat) returns (refusal: Option<Refusal>)
      requires Valid()
      modifies this
      ensures Valid() && Commits(old(Snapshot()), Snapshot(), refusal, DoClaimPayout(old(Snapshot()), id))
    {
      StepStaysReachable(Snapshot(), ClaimPayout(id));
      if id >= |instructions| || !instructions[id].status.Authorized? {
        return Some(Conflict);
      }
      instructions := instructions[id := instructions[id].(status := Dispatching)];
      refusal := None;
    }

    method MarkDistributionPayoutSubmitted(id: nat, transferCode: int) returns (refusal: Option<Refusal>)
      requires Valid()
      modifies this
      ensures Valid() && Commits(old(Snapshot()), Snapshot(), refusal, DoMarkSent(old(Snapshot()), id, transferCode))
    {
      StepStaysReachable(Snapshot(), MarkSent(id, transferCode));
      if id >= |instructions| || !instructions[id].status.Dispatching? {
        return Some(Conflict);
      }
      instructions := instructions[id := instructions[id].(status := Sent, transferCode := Some(transferCode))];
      refusal := None;
    }

    method MarkDistributionPayoutUncertain(id: nat) returns (refusal: Option<Refusal>)
      requires Valid()
      modifies this
      ensures Valid() && Commits(old(Snapshot()), Snapshot(), refusal, DoMarkUncertain(old(Snapshot()), id))
    {
      StepStaysReachable(Snapshot(), MarkUncertain(id));
      if id >= |instructions| || !instructions[id].status.Dispatching? {
        return Some(Conflict);
      }
      instructions := instructions[id := instructions[id].(status := Uncertain)];
      refusal := None;
    }

    // ---------- provider outcomes ----------

    method RecordDistributionPayoutProviderOutcome(id: nat, outcome: Outcome, transferCode: int, amount: int,
                                                   currency: Currency, at: int)
      returns (refusal: Option<Refusal>)
      requires Valid()
      modifies this, journal
      ensures Valid()
      ensures Commits(old(Snapshot()), Snapshot(), refusal,
                      DoRecordOutcome(old(Snapshot()), id, outcome, transferCode, amount, currency, at))
    {
      StepStaysReachable(Snapshot(), RecordOutcome(id, outcome, transferCode, amount, currency, at));
      if !(0 < amount <= MAX_SAFE_INTEGER) {
        return Some(InvalidInput);
      }
      if id >= |instructions| {
        return None;
      }
      var p := instructions[id];
      if p.transferCode.Some? && p.transferCode.value != transferCode {
        return Some(Conflict);
      }
      if p.amount != amount || p.currency != currency {
        return Some(Conflict);
      }
      if Dead(p.status) || (p.status.Confirmed? && !outcome.Reversal?) {
        return None;
      }
      if p.status.Authorized? {
        return Some(Conflict);
      }
      var code := if p.transferCode.Some? then p.transferCode else Some(transferCode);
      if outcome.Success? {
        var posted := EnsureAccountsAndPost(SettlementJournal(id, p, at));
        if posted.Err? {
          return Some(Conflict);
        }
        var settled := p.(status := Confirmed, transferCode := code, settlement := Some(posted.value));
        instructions := instructions[id := settled];
      } else if outcome.Failure? {
        instructions := instructions[id := p.(status := Failed, transferCode := code)];
      } else {
        if !p.status.Confirmed? || p.settlement.None? {
          return Some(Conflict);
        }
        var posted := EnsureAccountsAndPost(ReversalJournal(id, p, at));
        if posted.Err? {
          return Some(Conflict);
        }
        instructions := instructions[id := p.(status := Reversed)];
      }
      refusal := None;
    }

    // ---------- exception cases ----------

    method OpenDistributionPayoutException(payout: nat, actor: int) returns (refusal: Option<Refusal>)
      requires Valid()
      modifies this
      ensures Valid() && Commits(old(Snapshot()), Snapshot(), refusal, DoOpenCase(old(Snapshot()), payout, actor))
    {
      StepStaysReachable(Snapshot(), OpenCase(payout, actor));
      if payout >= |instructions| {
        return Some(NotFound);
      }
      var p := instructions[payout];
      if !(p.status.Uncertain? || Dead(p.status)) {
        return Some(Conflict);
      }
      if !exists c :: c in cases && c.payout == payout {
        cases := cases + [Case(payout, p.org, p.currency, p.amount, Open, None, actor, false)];
      }
      refusal := None;
    }

    method AddDistributionPayoutExceptionEvidence(id: nat) returns (refusal: Option<Refusal>)
      requires Valid()
      modifies this
      ensures Valid() && Commits(old(Snapshot()), Snapshot(), refusal, DoAddEvidence(old(Snapshot()), id))
    {
      StepStaysReachable(Snapshot(), AddEvidence(id));
      if id >= |cases| {
        return Some(NotFound);
      }
      if !(cases[id].status.Open? || cases[id].status.EvidenceSubmitted?) {
        return Some(Conflict);
      }
      if cases[id].status.Open? {
        cases := cases[id := cases[id].(status := EvidenceSubmitted)];
      }
      assert cases == old(cases)[id := old(cases)[id].(status := EvidenceSubmitted)];
      refusal := None;
    }

    method ProposeDistributionPayoutExceptionResolution(id: nat, resolution: Resolution, actor: int)
      returns (refusal: Option<Refusal>)
      requires Valid()
      modifies this
      ensures Valid()
      ensures Commits(old(Snapshot()), Snapshot(), refusal, DoProposeResolution(old(Snapshot()), id, resolution, actor))
    {
      StepStaysReachable(Snapshot(), ProposeResolution(id, resolution, actor));
      if id >= |cases| || !cases[id].status.EvidenceSubmitted? || cases[id].payout >= |instructions| {
        return Some(Conflict);
      }
      var status := instructions[cases[id].payout].status;
      if resolution.ReplacementPayout? && !Dead(status) {
        return Some(Conflict);
      }
      if resolution.WriteOff? && status.Uncertain? {
        return Some(Conflict);
      }
      cases := cases[id := cases[id].(status := DecisionPending, resolution := Some(resolution), preparedBy := actor)];
      refusal := None;
    }

    method DecideDistributionPayoutExceptionResolution(id: nat, approve: bool, actor: int)
      returns (refusal: Option<Refusal>)
      requires Valid()
      modifies this
      ensures Valid()
      ensures Commits(old(Snapshot()), Snapshot(), refusal, DoDecideResolution(old(Snapshot()), id, approve, actor))
    {
      StepStaysReachable(Snapshot(), DecideResolution(id, approve, actor));
      if id >= |cases| || !cases[id].status.DecisionPending? {
        return Some(Conflict);
      }
      if cases[id].preparedBy == actor {
        return Some(Forbidden);
      }
      cases := cases[id := cases[id].(status := if approve then ResolutionApproved else ResolutionRejected)];
      refusal := None;
    }

    method ProposeDistributionPayoutExceptionHold(case_: nat, place: bool, actor: int)
      returns (refusal: Option<Refusal>)
      requires Valid()
      modifies this
      ensures Valid()
      ensures Commits(old(Snapshot()), Snapshot(), refusal, DoProposeHold(old(Snapshot()), case_, place, actor))
    {
      StepStaysReachable(Snapshot(), ProposeHold(case_, place, actor));
      if case_ >= |cases| || cases[case_].status.ResolutionRejected? || cases[case_].status.Executed? {
        return Some(Conflict);
      }
      if place == cases[case_].held || exists h :: h in holds && h.case_ == case_ && h.status.Submitted? {
        return Some(Conflict);
      }
      holds := holds + [HoldRequest(case_, place, actor, Submitted)];
      refusal := None;
    }

    method DecideDistributionPayoutExceptionHold(id: nat, approve: bool, actor: int) returns (refusal: Option<Refusal>)
      requires Valid()
      modifies this
      ensures Valid()
      ensures Commits(old(Snapshot()), Snapshot(), refusal, DoDecideHold(old(Snapshot()), id, approve, actor))
    {
      StepStaysReachable(Snapshot(), DecideHold(id, approve, actor));
      if id >= |holds| || !holds[id].status.Submitted? || holds[id].case_ >= |cases| {
        return Some(Conflict);
      }
      var h := holds[id];
      if h.preparedBy == actor {
        return Some(Forbidden);
      }
      holds := holds[id := h.(status := if approve then Approved else Rejected)];
      if approve {
        cases := cases[h.case_ := cases[h.case_].(held := h.place)];
      }
      refusal := None;
    }

    method ExecuteDistributionPayoutException(id: nat, covered: bool, evidence: bool, destination: bool, at: int,
                                              actor: int)
      returns (refusal: Option<Refusal>)
      requires Valid()
      modifies this, journal
      ensures Valid()
      ensures Commits(old(Snapshot()), Snapshot(), refusal,
                      DoExecuteCase(old(Snapshot()), id, covered, evidence, destination, at, actor))
      ensures OneLiveEach(instructions)
    {
      StepStaysReachable(Snapshot(), ExecuteCase(id, covered, evidence, destination, at, actor));
      ReachableIsOneLiveEach(Snapshot());
      ReachableIsOneLiveEach(Next(Snapshot(), ExecuteCase(id, covered, evidence, destination, at, actor)));
      if id >= |cases| || !cases[id].status.ResolutionApproved? || cases[id].held || cases[id].payout >= |instructions|
         || cases[id].resolution.None? {
        return Some(Conflict);
      }
      var c := cases[id];
      var p := instructions[c.payout];
      var resolution := c.resolution.value;
      if c.preparedBy == actor {
        return Some(Forbidden);
      }
      if !resolution.CloseNoAction? && !covered {
        return Some(Conflict);
      }
      if resolution.ReplacementPayout? {
        if !Dead(p.status) || !destination {
          return Some(Conflict);
        }
        instructions := instructions + [Replacement(c.payout, p)];
      } else if resolution.ManualSettlement? || resolution.WriteOff? {
        if !evidence {
          return Some(InvalidInput);
        }
        var posted := EnsureAccountsAndPost(CorrectionJournal(id, c, resolution, p, at));
        if posted.Err? {
          return Some(Conflict);
        }
      }
      cases := cases[id := c.(status := Executed)];
      refusal := None;
    }

    // ---------- withholding-tax remittance ----------

    method SubmitDistributionTaxRemittance(declaration: nat, org: int, policy: bool, actor: int)
      returns (refusal: Option<Refusal>)
      requires Valid()
      modifies this
      ensures Valid()
      ensures Commits(old(Snapshot()), Snapshot(), refusal,
                      DoSubmitRemittance(old(Snapshot()), declaration, org, policy, actor))
    {
      StepStaysReachable(Snapshot(), SubmitRemittance(declaration, org, policy, actor));
      if declaration >= |declarations| {
        return Some(NotFound);
      }
      var d := declarations[declaration];
      if d.org != org {
        return Some(Forbidden);
      }
      if !d.status.Approved? || d.tax <= 0 || !policy || exists r :: r in remittances && r.declaration == declaration {
        return Some(Conflict);
      }
      remittances := remittances + [Remittance(declaration, d.org, d.currency, d.tax, actor, actor, Filed, None)];
      refusal := None;
    }

    method DecideDistributionTaxFiling(id: nat, approve: bool, actor: int) returns (refusal: Option<Refusal>)
      requires Valid()
      modifies this
      ensures Valid()
      ensures Commits(old(Snapshot()), Snapshot(), refusal, DoDecideFiling(old(Snapshot()), id, approve, actor))
    {
      StepStaysReachable(Snapshot(), DecideFiling(id, approve, actor));
      if id >= |remittances| || !remittances[id].status.Filed? {
        return Some(Conflict);
      }
      if remittances[id].submitter == actor {
        return Some(Forbidden);
      }
      remittances := remittances[id := remittances[id].(status := if approve then FilingApproved else FilingRejected)];
      refusal := None;
    }

    method SubmitDistributionTaxPaymentEvidence(id: nat, actor: int) returns (refusal: Option<Refusal>)
      requires Valid()
      modifies this
      ensures Valid() && Commits(old(Snapshot()), Snapshot(), refusal, DoSubmitPayment(old(Snapshot()), id, actor))
    {
      StepStaysReachable(Snapshot(), SubmitPayment(id, actor));
      if id >= |remittances| || !remittances[id].status.FilingApproved? {
        return Some(Conflict);
      }
      remittances := remittances[id := remittances[id].(status := PaymentSubmitted, paymentSubmitter := actor)];
      refusal := None;
    }

    /** On approval posts the remittance and issues one statement per entitlement. */
    method DecideDistributionTaxPayment(id: nat, approve: bool, receipt: bool, at: int, actor: int)
      returns (refusal: Option<Refusal>)
      requires Valid()
      modifies this, journal
      ensures Valid()
      ensures Commits(old(Snapshot()), Snapshot(), refusal,
                      DoDecidePayment(old(Snapshot()), id, approve, receipt, at, actor))
    {
      StepStaysReachable(Snapshot(), DecidePayment(id, approve, receipt, at, actor));
      if id >= |remittances| || !remittances[id].status.PaymentSubmitted?
         || remittances[id].declaration >= |declarations| {
        return Some(Conflict);
      }
      var r := remittances[id];
      if r.paymentSubmitter == actor {
        return Some(Forbidden);
      }
      if !approve {
        remittances := remittances[id := r.(status := PaymentRejected)];
        return None;
      }
      if !receipt {
        return Some(InvalidInput);
      }
      var posted := EnsureAccountsAndPost(RemittanceJournal(id, r, at));
      if posted.Err? {
        return Some(Conflict);
      }
      remittances := remittances[id := r.(status := Remitted, journal := Some(posted.value))];
      InsertStatements(id, declarations[r.declaration].entitlements);
      refusal := None;
    }

    method InsertStatements(id: nat, entitlements: seq<Entitlement>)
      modifies this`statements
      ensures statements == old(statements) + NewStatements(id, entitlements)
    {
      for e := 0 to |entitlements|
        invariant statements == old(statements) + NewStatements(id, entitlements)[..e]
      {
        statements := statements + [Statement(id, entitlements[e].investor, entitlements[e].tax, true)];
      }
    }

    method ProposeDistributionTaxRemittanceReversal(remittance: nat, actor: int) returns (refusal: Option<Refusal>)
      requires Valid()
      modifies this
      ensures Valid()
      ensures Commits(old(Snapshot()), Snapshot(), refusal, DoProposeReversal(old(Snapshot()), remittance, actor))
    {
      StepStaysReachable(Snapshot(), ProposeReversal(remittance, actor));
      if remittance >= |remittances| || !remittances[remittance].status.Remitted?
         || remittances[remittance].journal.None? {
        return Some(Conflict);
      }
      if exists v :: v in reversals && v.remittance == remittance {
        return Some(Conflict);
      }
      reversals := reversals + [ReversalRequest(remittance, actor, Submitted)];
      refusal := None;
    }

    /** On approval posts the reversal, revokes every statement of the remittance and marks it reversed. */
    method DecideDistributionTaxRemittanceReversal(id: nat, approve: bool, at: int, actor: int)
      returns (refusal: Option<Refusal>)
      requires Valid()
      modifies this, journal
      ensures Valid()
      ensures Commits(old(Snapshot()), Snapshot(), refusal, DoDecideReversal(old(Snapshot()), id, approve, at, actor))
    {
      StepStaysReachable(Snapshot(), DecideReversal(id, approve, at, actor));
      if id >= |reversals| || !reversals[id].status.Submitted? || reversals[id].remittance >= |remittances| {
        return Some(Conflict);
      }
      var v := reversals[id];
      var r := remittances[v.remittance];
      if !r.status.Remitted? || r.journal.None? {
        return Some(Conflict);
      }
      if v.preparedBy == actor {
        return Some(Forbidden);
      }
      if !approve {
        reversals := reversals[id := v.(status := Rejected)];
        return None;
      }
      var posted := EnsureAccountsAndPost(RemittanceReversalJournal(v.remittance, r, at));
      if posted.Err? {
        return Some(Conflict);
      }
      reversals := reversals[id := v.(status := Approved)];
      statements := Revoke(statements, v.remittance);
      remittances := remittances[v.remittance := r.(status := RemittanceReversed)];
      refusal := None;
    }
  }
}
