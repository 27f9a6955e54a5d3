/**
 The distribution money pipeline as one state machine: declarations, funding, payout
 instructions, exception cases, and withholding-tax remittance, all posting to one ledger.
 Every command is one transaction body (src/platform/postgres-distributions.ts,
 postgres-distribution-payouts.ts, postgres-distribution-tax.ts). A row's id is its position
 in its table, so an INSERT with a fresh id is an append.
 */
module Distribution {
  import opened Base
  import opened Sums
  import opened Allocation
  import opened Declarations
  import opened Journal

  const PAYOUT_CURRENCY: Currency := "NGN"
  const MAX_SAFE_INTEGER := 9_007_199_254_740_991

  datatype Refusal = NotFound | Forbidden | Conflict | InvalidInput | ProviderUnavailable

  datatype Review = Submitted | Approved | Rejected

  datatype Declaration = Declaration(org: int, currency: Currency, gross: int, bps: int, tax: int, net: int,
                                     entitlements: seq<Entitlement>, submitter: int, status: Review)

  datatype Funding = Funding(org: int, declaration: nat, amount: int, submitter: int, status: Review)

  datatype PayoutStatus = Authorized | Dispatching | Sent | Uncertain | Confirmed | Failed | Reversed

  // `org` is the organization of the funding request, which the queries join in.
  datatype Instruction = Instruction(funding: nat, declaration: nat, entitlement: nat, org: int, currency: Currency,
                                     amount: int, status: PayoutStatus, transferCode: Option<int>,
                                     settlement: Option<nat>, supersedes: Option<nat>)

  datatype Resolution = ReplacementPayout | ManualSettlement | WriteOff | CloseNoAction

  datatype CaseStatus = Open | EvidenceSubmitted | DecisionPending | ResolutionApproved | ResolutionRejected | Executed

  // `currency` and `amount` are the payout's, which the queries join in.
  datatype Case = Case(payout: nat, org: int, currency: Currency, amount: int, status: CaseStatus,
                       resolution: Option<Resolution>, preparedBy: int, held: bool)

  datatype HoldRequest = HoldRequest(case_: nat, place: bool, preparedBy: int, status: Review)

  datatype RemittanceStatus =
    | Filed | FilingApproved | FilingRejected | PaymentSubmitted | PaymentRejected | Remitted | RemittanceReversed

  datatype Remittance = Remittance(declaration: nat, org: int, currency: Currency, amount: int, submitter: int,
                                   paymentSubmitter: int, status: RemittanceStatus, journal: Option<nat>)

  datatype ReversalRequest = ReversalRequest(remittance: nat, preparedBy: int, status: Review)

  datatype Statement = Statement(remittance: nat, investor: int, withheld: int, active: bool)

  datatype Db = Db(ledger: Ledger, declarations: seq<Declaration>, fundings: seq<Funding>,
                   instructions: seq<Instruction>, cases: seq<Case>, holds: seq<HoldRequest>,
                   remittances: seq<Remittance>, reversals: seq<ReversalRequest>, statements: seq<Statement>)

  const EMPTY := Db(Ledger([], {}), [], [], [], [], [], [], [], [])

  datatype Outcome = Success | Failure | Reversal

  datatype Command =
    | SubmitDeclaration(org: int, currency: Currency, gross: int, bps: int, rows: seq<Row>, actor: int)
    | DecideDeclaration(id: nat, approve: bool, actor: int)
    | SubmitFunding(declaration: nat, org: int, observed: int, actor: int)
    | DecideFunding(id: nat, approve: bool, observed: int, destinations: bool, actor: int)
    | ClaimPayout(id: nat)
    | MarkSent(id: nat, transferCode: int)
    | MarkUncertain(id: nat)
    | RecordOutcome(id: nat, outcome: Outcome, transferCode: int, amount: int, currency: Currency, at: int)
    | OpenCase(payout: nat, actor: int)
    | AddEvidence(id: nat)
    | ProposeResolution(id: nat, resolution: Resolution, actor: int)
    | DecideResolution(id: nat, approve: bool, actor: int)
    | ProposeHold(case_: nat, place: bool, actor: int)
    | DecideHold(id: nat, approve: bool, actor: int)
    | ExecuteCase(id: nat, covered: bool, evidence: bool, destination: bool, at: int, actor: int)
    | SubmitRemittance(declaration: nat, org: int, policy: bool, actor: int)
    | DecideFiling(id: nat, approve: bool, actor: int)
    | SubmitPayment(id: nat, actor: int)
    | DecidePayment(id: nat, approve: bool, receipt: bool, at: int, actor: int)
    | ProposeReversal(remittance: nat, actor: int)
    | DecideReversal(id: nat, approve: bool, at: int, actor: int)
    | OtherPosting(req: Request)

  // ---------- journals of the pipeline ----------

  function DeclarationJournal(id: nat, d: Declaration): Request
  {
    Request(d.org, d.org, DeclarationKey(id), d.currency, None, None, id,
            [Posting(DistributionExpense(d.currency), Debit, d.gross),
             Posting(DistributionsPayable(d.currency), Credit, d.net)]
            + if d.tax > 0 then [Posting(WithholdingTax(d.currency), Credit, d.tax)] else [])
  }

  function Transfer(org: int, key: Key, currency: Currency, at: int, reversalOf: Option<nat>, from: Code, to: Code,
                    amount: int): Request
  {
    Request(org, org, key, currency, Some(at), reversalOf, 0,
            [Posting(from, Debit, amount), Posting(to, Credit, amount)])
  }

  function SettlementJournal(id: nat, p: Instruction, at: int): Request
  {
    Transfer(p.org, SettlementKey(id), p.currency, at, None, DistributionsPayable(p.currency),
             PayoutClearing(p.currency), p.amount)
  }

  function ReversalJournal(id: nat, p: Instruction, at: int): Request
  {
    Transfer(p.org, ReversalKey(id), p.currency, at, p.settlement, PayoutClearing(p.currency),
             DistributionsPayable(p.currency), p.amount)
  }

  function CorrectionCode(resolution: Resolution, currency: Currency): Code
  {
    if resolution.ManualSettlement? then ManualSettlementClearing(currency) else PayableRelease(currency)
  }

  function CorrectionJournal(id: nat, c: Case, resolution: Resolution, p: Instruction, at: int): Request
  {
    Transfer(c.org, ExceptionKey(id), p.currency, at, None, DistributionsPayable(p.currency),
             CorrectionCode(resolution, p.currency), p.amount)
  }

  function RemittanceJournal(id: nat, r: Remittance, at: int): Request
  {
    Transfer(r.org, RemittanceKey(id), r.currency, at, None, WithholdingTax(r.currency),
             TaxRemittanceClearing(r.currency), r.amount)
  }

  function RemittanceReversalJournal(id: nat, r: Remittance, at: int): Request
  {
    Transfer(r.org, RemittanceReversalKey(id), r.currency, at, r.journal, TaxRemittanceClearing(r.currency),
             WithholdingTax(r.currency), r.amount)
  }

  // The accounts a transaction makes sure of before it posts: those it posts to, and one more that the
  // declaration and settlement helpers always include.
  function AccountsFor(req: Request): set<Code>
  {
    (set p | p in req.postings :: p.code)
    + if req.key.DeclarationKey? then {WithholdingTax(req.currency)}
    else if req.key.ExceptionKey? then {PayoutClearing(req.currency)} else {}
  }

  // ensureLedgerAccount for each account, then postJournalInTransaction.
  function EnsureAndPost(l: Ledger, req: Request): Result<Posted, Error>
  {
    Post(EnsureAccounts(l, req.org, AccountsFor(req)), req)
  }

  // ---------- declarations ----------

  function FullySubmitted(org: int, currency: Currency, gross: int, bps: int, rows: seq<Row>, actor: int): Declaration
  {
    var entitlements := TaxSplit(rows, bps);
    var tax := Sum(entitlements, Tax());
    Declaration(org, currency, gross, bps, tax, gross - tax, entitlements, actor, Submitted)
  }

  // `rows` is what `allocate` returned.
  ghost function DoSubmitDeclaration(db: Db, org: int, currency: Currency, gross: int, bps: int, rows: seq<Row>,
                                     actor: int)
    : Result<Db, Refusal>
  {
    if !(0 < gross <= MAX_MINOR) || !(0 <= bps <= FULL_BPS) then Err(InvalidInput)
    else if rows == [] || !IsAllocation(gross, rows) then Err(InvalidInput)
    else if exists r :: r in rows && r.gross <= 0 then Err(Conflict)
    else Ok(db.(declarations := db.declarations + [FullySubmitted(org, currency, gross, bps, rows, actor)]))
  }

  function DoDecideDeclaration(db: Db, id: nat, approve: bool, actor: int): Result<Db, Refusal>
  {
    if id >= |db.declarations| then Err(NotFound)
    else
      var d := db.declarations[id];
      var desired := if approve then Approved else Rejected;
      if !d.status.Submitted? then if d.status == desired then Ok(db) else Err(Conflict)
      else if d.submitter == actor then Err(Forbidden)
      else if !approve then Ok(db.(declarations := db.declarations[id := d.(status := Rejected)]))
      else
        var posted := EnsureAndPost(db.ledger, DeclarationJournal(id, d));
        if posted.Err? then Err(InvalidInput)
        else Ok(db.(ledger := posted.value.ledger, declarations := db.declarations[id := d.(status := Approved)]))
  }

  // ---------- funding ----------

  predicate ActiveFunding(f: Funding, declaration: nat) { f.declaration == declaration && !f.status.Rejected? }

  function DoSubmitFunding(db: Db, declaration: nat, org: int, observed: int, actor: int): Result<Db, Refusal>
  {
    if declaration >= |db.declarations| then Err(NotFound)
    else
      var d := db.declarations[declaration];
      if d.org != org then Err(Forbidden)
      else if !d.status.Approved? || d.currency != PAYOUT_CURRENCY then Err(Conflict)
      else if !(0 <= observed <= MAX_SAFE_INTEGER) then Err(ProviderUnavailable)
      else if observed < d.net then Err(Conflict)
      // unique index distribution_funding_one_active_idx
      else if exists f :: f in db.fundings && ActiveFunding(f, declaration) then Err(Conflict)
      else Ok(db.(fundings := db.fundings + [Funding(org, declaration, d.net, actor, Submitted)]))
  }

  predicate Unsettled(s: PayoutStatus) { s.Authorized? || s.Dispatching? || s.Sent? || s.Uncertain? }

  function Reserved(): Instruction -> int { (i: Instruction) => if Unsettled(i.status) then i.amount else 0 }

  function NewInstruction(f: nat, funding: Funding, entitlement: nat, amount: int): Instruction
  {
    Instruction(f, funding.declaration, entitlement, funding.org, PAYOUT_CURRENCY, amount, Authorized, None, None, None)
  }

  function NewInstructions(f: nat, funding: Funding, entitlements: seq<Entitlement>): seq<Instruction>
  {
    seq(|entitlements|, e requires 0 <= e < |entitlements| => NewInstruction(f, funding, e, entitlements[e].net))
  }

  function DoDecideFunding(db: Db, id: nat, approve: bool, observed: int, destinations: bool, actor: int)
    : Result<Db, Refusal>
  {
    if id >= |db.fundings| then Err(NotFound)
    else
      var f := db.fundings[id];
      var desired := if approve then Approved else Rejected;
      if !f.status.Submitted? then if f.status == desired then Ok(db) else Err(Conflict)
      else if f.submitter == actor then Err(Forbidden)
      else if !approve then Ok(db.(fundings := db.fundings[id := f.(status := Rejected)]))
      else if !(0 <= observed <= MAX_SAFE_INTEGER) then Err(ProviderUnavailable)
      else if observed < f.amount + Sum(db.instructions, Reserved()) then Err(Conflict)
      else if f.declaration >= |db.declarations| || db.declarations[f.declaration].entitlements == [] || !destinations
      then Err(Conflict)
      else Ok(db.(fundings := db.fundings[id := f.(status := Approved)],
              instructions := db.instructions
              + NewInstructions(id, f, db.declarations[f.declaration].entitlements)))
  }

  // ---------- dispatch (src/services/distribution-payout-worker.ts:12-43) ----------

  function SetStatus(db: Db, id: nat, status: PayoutStatus): Db
    requires id < |db.instructions|
  {
    db.(instructions := db.instructions[id := db.instructions[id].(status := status)])
  }

  function DoClaimPayout(db: Db, id: nat): Result<Db, Refusal>
  {
    if id >= |db.instructions| || !db.instructions[id].status.Authorized? then Err(Conflict)
    else Ok(SetStatus(db, id, Dispatching))
  }

  function DoMarkSent(db: Db, id: nat, transferCode: int): Result<Db, Refusal>
  {
    if id >= |db.instructions| || !db.instructions[id].status.Dispatching? then Err(Conflict)
    else Ok(db.(instructions := db.instructions[id :=
            db.instructions[id].(status := Sent, transferCode := Some(transferCode))]))
  }

  function DoMarkUncertain(db: Db, id: nat): Result<Db, Refusal>
  {
    if id >= |db.instructions| || !db.instructions[id].status.Dispatching? then Err(Conflict)
    else Ok(SetStatus(db, id, Uncertain))
  }

  // ---------- provider outcomes ----------

  predicate Dead(s: PayoutStatus) { s.Failed? || s.Reversed? }

  function DoRecordOutcome(db: Db, id: nat, outcome: Outcome, transferCode: int, amount: int, currency: Currency,
                           at: int)
    : Result<Db, Refusal>
  {
    if !(0 < amount <= MAX_SAFE_INTEGER) then Err(InvalidInput)
    else if id >= |db.instructions| then Ok(db)
    else
      var p := db.instructions[id];
      if p.transferCode.Some? && p.transferCode.value != transferCode then Err(Conflict)
      else if p.amount != amount || p.currency != currency then Err(Conflict)
      else if Dead(p.status) || (p.status.Confirmed? && !outcome.Reversal?) then Ok(db)
      else if p.status.Authorized? then Err(Conflict)
      else
        var code := if p.transferCode.Some? then p.transferCode else Some(transferCode);
        match outcome
        case Success =>
          var posted := EnsureAndPost(db.ledger, SettlementJournal(id, p, at));
          if posted.Err? then Err(Conflict)
          else Ok(db.(ledger := posted.value.ledger, instructions := db.instructions[id :=
                  p.(status := Confirmed, transferCode := code, settlement := Some(posted.value.journal))]))
        case Failure => Ok(db.(instructions := db.instructions[id := p.(status := Failed, transferCode := code)]))
        case Reversal =>
          if !p.status.Confirmed? || p.settlement.None? then Err(Conflict)
          else
            var posted := EnsureAndPost(db.ledger, ReversalJournal(id, p, at));
            if posted.Err? then Err(Conflict)
            else Ok(db.(ledger := posted.value.ledger, instructions := db.instructions[id := p.(status := Reversed)]))
  }

  // ---------- exception cases ----------

  function DoOpenCase(db: Db, payout: nat, actor: int): Result<Db, Refusal>
  {
    if payout >= |db.instructions| then Err(NotFound)
    else
      var p := db.instructions[payout];
      if !(p.status.Uncertain? || Dead(p.status)) then Err(Conflict)
      else if exists c :: c in db.cases && c.payout == payout then Ok(db)
      else Ok(db.(cases := db.cases + [Case(payout, p.org, p.currency, p.amount, Open, None, actor, false)]))
  }

  function DoAddEvidence(db: Db, id: nat): Result<Db, Refusal>
  {
    if id >= |db.cases| then Err(NotFound)
    else
      var c := db.cases[id];
      if !(c.status.Open? || c.status.EvidenceSubmitted?) then Err(Conflict)
      else Ok(db.(cases := db.cases[id := c.(status := EvidenceSubmitted)]))
  }

  function DoProposeResolution(db: Db, id: nat, resolution: Resolution, actor: int): Result<Db, Refusal>
  {
    if id >= |db.cases| || !db.cases[id].status.EvidenceSubmitted? || db.cases[id].payout >= |db.instructions|
    then Err(Conflict)
    else
      var c := db.cases[id];
      var status := db.instructions[c.payout].status;
      if resolution.ReplacementPayout? && !Dead(status) then Err(Conflict)
      else if resolution.WriteOff? && status.Uncertain? then Err(Conflict)
      else Ok(db.(cases := db.cases[id :=
              c.(status := DecisionPending, resolution := Some(resolution), preparedBy := actor)]))
  }

  function DoDecideResolution(db: Db, id: nat, approve: bool, actor: int): Result<Db, Refusal>
  {
    if id >= |db.cases| || !db.cases[id].status.DecisionPending? then Err(Conflict)
    else if db.cases[id].preparedBy == actor then Err(Forbidden)
    else Ok(db.(cases := db.cases[id :=
            db.cases[id].(status := if approve then ResolutionApproved else ResolutionRejected)]))
  }

  function DoProposeHold(db: Db, case_: nat, place: bool, actor: int): Result<Db, Refusal>
  {
    if case_ >= |db.cases| then Err(Conflict)
    else if db.cases[case_].status.ResolutionRejected? || db.cases[case_].status.Executed? then Err(Conflict)
    else if place == db.cases[case_].held then Err(Conflict)
    // unique index distribution_payout_exception_hold_pending_idx
    else if exists h :: h in db.holds && h.case_ == case_ && h.status.Submitted? then Err(Conflict)
    else Ok(db.(holds := db.holds + [HoldRequest(case_, place, actor, Submitted)]))
  }

  function DoDecideHold(db: Db, id: nat, approve: bool, actor: int): Result<Db, Refusal>
  {
    if id >= |db.holds| || !db.holds[id].status.Submitted? || db.holds[id].case_ >= |db.cases| then Err(Conflict)
    else
      var h := db.holds[id];
      if h.preparedBy == actor then Err(Forbidden)
      else
        var holds := db.holds[id := h.(status := if approve then Approved else Rejected)];
        if !approve then Ok(db.(holds := holds))
        else Ok(db.(holds := holds, cases := db.cases[h.case_ := db.cases[h.case_].(held := h.place)]))
  }

  function Replacement(payout: nat, p: Instruction): Instruction
  {
    p.(status := Authorized, transferCode := None, settlement := None, supersedes := Some(payout))
  }

  function DoExecuteCase(db: Db, id: nat, covered: bool, evidence: bool, destination: bool, at: int, actor: int)
    : Result<Db, Refusal>
  {
    if id >= |db.cases| || !db.cases[id].status.ResolutionApproved? || db.cases[id].held
       || db.cases[id].payout >= |db.instructions| || db.cases[id].resolution.None? then Err(Conflict)
    else
      var c := db.cases[id];
      var p := db.instructions[c.payout];
      var resolution := c.resolution.value;
      var cases := db.cases[id := c.(status := Executed)];
      if c.preparedBy == actor then Err(Forbidden)
      else if !resolution.CloseNoAction? && !covered then Err(Conflict)
      else match resolution
           case CloseNoAction => Ok(db.(cases := cases))
           case ReplacementPayout =>
             if !Dead(p.status) || !destination then Err(Conflict)
             else Ok(db.(cases := cases, instructions := db.instructions + [Replacement(c.payout, p)]))
           case _ =>
             if !evidence then Err(InvalidInput)
             else
               var posted := EnsureAndPost(db.ledger, CorrectionJournal(id, c, resolution, p, at));
               if posted.Err? then Err(Conflict)
               else Ok(db.(ledger := posted.value.ledger, cases := cases))
  }

  // ---------- withholding-tax remittance ----------

  function DoSubmitRemittance(db: Db, declaration: nat, org: int, policy: bool, actor: int): Result<Db, Refusal>
  {
    if declaration >= |db.declarations| then Err(NotFound)
    else
      var d := db.declarations[declaration];
      if d.org != org then Err(Forbidden)
      else if !d.status.Approved? || d.tax <= 0 || !policy then Err(Conflict)
      // UNIQUE (declaration_request_id)
      else if exists r :: r in db.remittances && r.declaration == declaration then Err(Conflict)
      else Ok(db.(remittances := db.remittances +
              [Remittance(declaration, d.org, d.currency, d.tax, actor, actor, Filed, None)]))
  }

  function SetRemittance(db: Db, id: nat, r: Remittance): Db
    requires id < |db.remittances|
  {
    db.(remittances := db.remittances[id := r])
  }

  function DoDecideFiling(db: Db, id: nat, approve: bool, actor: int): Result<Db, Refusal>
  {
    if id >= |db.remittances| || !db.remittances[id].status.Filed? then Err(Conflict)
    else if db.remittances[id].submitter == actor then Err(Forbidden)
    else Ok(SetRemittance(db, id, db.remittances[id].(status := if approve then FilingApproved else FilingRejected)))
  }

  function DoSubmitPayment(db: Db, id: nat, actor: int): Result<Db, Refusal>
  {
    if id >= |db.remittances| || !db.remittances[id].status.FilingApproved? then Err(Conflict)
    else Ok(SetRemittance(db, id, db.remittances[id].(status := PaymentSubmitted, paymentSubmitter := actor)))
  }

  function NewStatements(id: nat, entitlements: seq<Entitlement>): seq<Statement>
  {
    seq(|entitlements|, e requires 0 <= e < |entitlements| =>
      Statement(id, entitlements[e].investor, entitlements[e].tax, true))
  }

  function DoDecidePayment(db: Db, id: nat, approve: bool, receipt: bool, at: int, actor: int): Result<Db, Refusal>
  {
    if id >= |db.remittances| || !db.remittances[id].status.PaymentSubmitted?
       || db.remittances[id].declaration >= |db.declarations| then Err(Conflict)
    else
      var r := db.remittances[id];
      if r.paymentSubmitter == actor then Err(Forbidden)
      else if !approve then Ok(SetRemittance(db, id, r.(status := PaymentRejected)))
      else if !receipt then Err(InvalidInput)
      else
        var posted := EnsureAndPost(db.ledger, RemittanceJournal(id, r, at));
        if posted.Err? then Err(Conflict)
        else Ok(SetRemittance(db, id, r.(status := Remitted, journal := Some(posted.value.journal)))
                .(ledger := posted.value.ledger,
                statements := db.statements + NewStatements(id, db.declarations[r.declaration].entitlements)))
  }

  function DoProposeReversal(db: Db, remittance: nat, actor: int): Result<Db, Refusal>
  {
    if remittance >= |db.remittances| || !db.remittances[remittance].status.Remitted?
       || db.remittances[remittance].journal.None? then Err(Conflict)
    // UNIQUE (remittance_request_id)
    else if exists v :: v in db.reversals && v.remittance == remittance then Err(Conflict)
    else Ok(db.(reversals := db.reversals + [ReversalRequest(remittance, actor, Submitted)]))
  }

  function Revoke(statements: seq<Statement>, remittance: nat): seq<Statement>
  {
    seq(|statements|, i requires 0 <= i < |statements| =>
      if statements[i].remittance == remittance then statements[i].(active := false) else statements[i])
  }

  function DoDecideReversal(db: Db, id: nat, approve: bool, at: int, actor: int): Result<Db, Refusal>
  {
    if id >= |db.reversals| || !db.reversals[id].status.Submitted? || db.reversals[id].remittance >= |db.remittances|
    then Err(Conflict)
    else
      var v := db.reversals[id];
      var r := db.remittances[v.remittance];
      if !r.status.Remitted? || r.journal.None? then Err(Conflict)
      else if v.preparedBy == actor then Err(Forbidden)
      else if !approve then Ok(db.(reversals := db.reversals[id := v.(status := Rejected)]))
      else
        var posted := EnsureAndPost(db.ledger, RemittanceReversalJournal(v.remittance, r, at));
        if posted.Err? then Err(Conflict)
        else Ok(SetRemittance(db, v.remittance, r.(status := RemittanceReversed))
                .(ledger := posted.value.ledger, reversals := db.reversals[id := v.(status := Approved)],
                statements := Revoke(db.statements, v.remittance)))
  }

  // Whatever else posts to the same ledger: other keys, other accounts.
  predicate Elsewhere(req: Request)
  {
    req.key.OtherKey? && forall p :: p in req.postings ==> p.code.OtherCode?
  }

  function DoOtherPosting(db: Db, req: Request): Result<Db, Refusal>
  {
    if !Elsewhere(req) then Err(InvalidInput)
    else
      var posted := Post(db.ledger, req);
      if posted.Err? then Err(Conflict) else Ok(db.(ledger := posted.value.ledger))
  }

  // ---------- runs ----------

  ghost function Perform(db: Db, c: Command): Result<Db, Refusal>
  {
    match c
    case SubmitDeclaration(org, currency, gross, bps, rows, actor) =>
      DoSubmitDeclaration(db, org, currency, gross, bps, rows, actor)
    case DecideDeclaration(id, approve, actor) => DoDecideDeclaration(db, id, approve, actor)
    case SubmitFunding(declaration, org, observed, actor) => DoSubmitFunding(db, declaration, org, observed, actor)
    case DecideFunding(id, approve, observed, destinations, actor) =>
      DoDecideFunding(db, id, approve, observed, destinations, actor)
    case ClaimPayout(id) => DoClaimPayout(db, id)
    case MarkSent(id, transferCode) => DoMarkSent(db, id, transferCode)
    case MarkUncertain(id) => DoMarkUncertain(db, id)
    case RecordOutcome(id, outcome, transferCode, amount, currency, at) =>
      DoRecordOutcome(db, id, outcome, transferCode, amount, currency, at)
    case OpenCase(payout, actor) => DoOpenCase(db, payout, actor)
    case AddEvidence(id) => DoAddEvidence(db, id)
    case ProposeResolution(id, resolution, actor) => DoProposeResolution(db, id, resolution, actor)
    case DecideResolution(id, approve, actor) => DoDecideResolution(db, id, approve, actor)
    case ProposeHold(case_, place, actor) => DoProposeHold(db, case_, place, actor)
    case DecideHold(id, approve, actor) => DoDecideHold(db, id, approve, actor)
    case ExecuteCase(id, covered, evidence, destination, at, actor) =>
      DoExecuteCase(db, id, covered, evidence, destination, at, actor)
    case SubmitRemittance(declaration, org, policy, actor) => DoSubmitRemittance(db, declaration, org, policy, actor)
    case DecideFiling(id, approve, actor) => DoDecideFiling(db, id, approve, actor)
    case SubmitPayment(id, actor) => DoSubmitPayment(db, id, actor)
    case DecidePayment(id, approve, receipt, at, actor) => DoDecidePayment(db, id, approve, receipt, at, actor)
    case ProposeReversal(remittance, actor) => DoProposeReversal(db, remittance, actor)
    case DecideReversal(id, approve, at, actor) => DoDecideReversal(db, id, approve, at, actor)
    case OtherPosting(req) => DoOtherPosting(db, req)
  }

  ghost function Next(db: Db, c: Command): Db { Committed(db, Perform(db, c)) }

  ghost function After(db: Db, commands: seq<Command>): Db
  {
    if commands == [] then db else Next(After(db, commands[..|commands| - 1]), commands[|commands| - 1])
  }
}
