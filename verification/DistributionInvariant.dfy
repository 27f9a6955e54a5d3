/** What every command of the distribution pipeline keeps. */
module DistributionInvariant {
  import opened Base
  import opened Sums
  import opened Allocation
  import opened Declarations
  import opened Journal
  import opened Distribution

  // ---------- tables ----------

  ghost predicate DeclarationOk(d: Declaration)
  {
    && Conserves(d.gross, d.bps, d.tax, d.net, d.entitlements) && Allotted(d.gross, d.bps, d.entitlements)
    && d.gross <= MAX_MINOR
    && (d.status.Approved? ==> d.bps < FULL_BPS)
  }

  ghost predicate DeclarationsOk(ds: seq<Declaration>) { forall d :: d in ds ==> DeclarationOk(d) }

  // A funding request binds the net of an approved declaration, and a declaration has one that is not rejected.
  ghost predicate FundingOk(ds: seq<Declaration>, f: Funding)
  {
    && f.declaration < |ds|
    && ds[f.declaration].status.Approved? && ds[f.declaration].org == f.org
    && ds[f.declaration].currency == PAYOUT_CURRENCY
    && ds[f.declaration].net == f.amount <= MAX_SAFE_INTEGER
  }

  ghost predicate FundingsOk(ds: seq<Declaration>, fs: seq<Funding>)
  {
    && (forall f :: f in fs ==> FundingOk(ds, f))
    && forall i, j :: 0 <= i < j < |fs| && !fs[i].status.Rejected? && !fs[j].status.Rejected? ==>
                        fs[i].declaration != fs[j].declaration
  }

  ghost predicate InstructionOk(ds: seq<Declaration>, fs: seq<Funding>, p: Instruction)
  {
    && p.funding < |fs| && fs[p.funding].status.Approved?
    && p.declaration == fs[p.funding].declaration && p.org == fs[p.funding].org
    && p.declaration < |ds| && p.entitlement < |ds[p.declaration].entitlements|
    && p.amount == ds[p.declaration].entitlements[p.entitlement].net
    && p.currency == PAYOUT_CURRENCY
    && (p.settlement.Some? <==> p.status.Confirmed? || p.status.Reversed?)
  }

  ghost predicate InstructionsOk(ds: seq<Declaration>, fs: seq<Funding>, ps: seq<Instruction>)
  {
    forall p :: p in ps ==> InstructionOk(ds, fs, p)
  }

  ghost predicate CaseOk(ps: seq<Instruction>, c: Case)
  {
    && c.payout < |ps| && c.org == ps[c.payout].org && c.amount == ps[c.payout].amount
    && c.currency == ps[c.payout].currency
    && (c.status.Open? || c.status.EvidenceSubmitted? <==> c.resolution.None?)
    && (ps[c.payout].status.Uncertain? || ps[c.payout].status.Confirmed? || Dead(ps[c.payout].status))
  }

  // One case per payout: no code ever closes a case.
  ghost predicate CasesOk(ps: seq<Instruction>, cs: seq<Case>)
  {
    && (forall c :: c in cs ==> CaseOk(ps, c))
    && forall i, j :: 0 <= i < j < |cs| ==> cs[i].payout != cs[j].payout
  }

  // ---------- replacement chains ----------

  predicate SameChain(p: Instruction, q: Instruction) { p.funding == q.funding && p.entitlement == q.entitlement }

  ghost predicate ReplacedBy(c: Case, payout: nat)
  {
    c.payout == payout && c.status.Executed? && c.resolution == Some(ReplacementPayout)
  }

  ghost predicate Replaced(cs: seq<Case>, payout: nat) { exists c :: c in cs && ReplacedBy(c, payout) }

  // Only the newest instruction of a chain can be alive; each older one is dead and was replaced through its case.
  ghost predicate OlderAreDead(ps: seq<Instruction>, cs: seq<Case>)
  {
    forall i, j :: 0 <= i < j < |ps| && SameChain(ps[i], ps[j]) ==> Dead(ps[i].status) && Replaced(cs, i)
  }

  // A replacement names an earlier instruction of its own chain.
  ghost predicate ReplacesEarlier(ps: seq<Instruction>, j: nat)
    requires j < |ps|
  {
    ps[j].supersedes.Some? ==> ps[j].supersedes.value < j && SameChain(ps[ps[j].supersedes.value], ps[j])
  }

  ghost predicate ChainsOk(ps: seq<Instruction>, cs: seq<Case>)
  {
    OlderAreDead(ps, cs) && forall j :: 0 <= j < |ps| ==> ReplacesEarlier(ps, j)
  }

  // ---------- tax ----------

  function ActiveWithheld(remittance: nat): Statement -> int
  {
    (s: Statement) => if s.remittance == remittance && s.active then s.withheld else 0
  }

  ghost predicate RemittanceOk(ds: seq<Declaration>, r: Remittance)
  {
    && r.declaration < |ds| && ds[r.declaration].status.Approved?
    && r.org == ds[r.declaration].org && r.currency == ds[r.declaration].currency
    && r.amount == ds[r.declaration].tax > 0
    && (r.journal.Some? <==> r.status.Remitted? || r.status.RemittanceReversed?)
  }

  // Active statements exist only for remitted requests, and add up to what was remitted.
  ghost predicate TaxOk(ds: seq<Declaration>, rs: seq<Remittance>, ss: seq<Statement>)
  {
    && (forall r :: r in rs ==> RemittanceOk(ds, r))
    && (forall i, j :: 0 <= i < j < |rs| ==> rs[i].declaration != rs[j].declaration)
    && (forall s :: s in ss ==>
                      s.remittance < |rs| && rs[s.remittance].journal.Some?
                      && (s.active ==> rs[s.remittance].status.Remitted?))
    && forall r :: 0 <= r < |rs| && rs[r].status.Remitted? ==> Sum(ss, ActiveWithheld(r)) == rs[r].amount
  }

  // A statement certifies the tax of the investor it names.
  ghost predicate Certifies(ds: seq<Declaration>, rs: seq<Remittance>, s: Statement)
  {
    && s.remittance < |rs| && rs[s.remittance].declaration < |ds|
    && exists e :: e in ds[rs[s.remittance].declaration].entitlements && e.investor == s.investor && e.tax == s.withheld
  }

  ghost predicate StatementsOk(ds: seq<Declaration>, rs: seq<Remittance>, ss: seq<Statement>)
  {
    forall s :: s in ss ==> Certifies(ds, rs, s)
  }

  // ---------- ledger ----------

  // A pipeline key is in the ledger only once its row reached the state that posted it.
  ghost predicate Justified(db: Db, key: Key)
  {
    match key
    case DeclarationKey(d) => d < |db.declarations| && db.declarations[d].status.Approved?
    case SettlementKey(i) =>
      i < |db.instructions| && (db.instructions[i].status.Confirmed? || db.instructions[i].status.Reversed?)
    case ReversalKey(i) => i < |db.instructions| && db.instructions[i].status.Reversed?
    case ExceptionKey(c) => c < |db.cases| && db.cases[c].status.Executed?
    case RemittanceKey(r) => r < |db.remittances| && db.remittances[r].journal.Some?
    case RemittanceReversalKey(r) => r < |db.remittances| && db.remittances[r].status.RemittanceReversed?
    case OtherKey(_) => true
  }

  ghost predicate KeysOk(db: Db) { forall e :: e in db.ledger.entries ==> Justified(db, e.key) }

  function DeclaredNet(org: int, currency: Currency): Declaration -> int
  {
    (d: Declaration) => if d.status.Approved? && d.org == org && d.currency == currency then d.net else 0
  }

  function DeclaredTax(org: int, currency: Currency): Declaration -> int
  {
    (d: Declaration) => if d.status.Approved? && d.org == org && d.currency == currency then d.tax else 0
  }

  function Paid(org: int, currency: Currency): Instruction -> int
  {
    (p: Instruction) => if p.status.Confirmed? && p.org == org && p.currency == currency then p.amount else 0
  }

  predicate Corrects(c: Case) { c.resolution == Some(ManualSettlement) || c.resolution == Some(WriteOff) }

  function Corrected(org: int, currency: Currency): Case -> int
  {
    (c: Case) => if c.status.Executed? && Corrects(c) && c.org == org && c.currency == currency then c.amount else 0
  }

  function RemittedTax(org: int, currency: Currency): Remittance -> int
  {
    (r: Remittance) => if r.status.Remitted? && r.org == org && r.currency == currency then r.amount else 0
  }

  /** Payable = net of approved declarations - confirmed payouts - executed settlements and write-offs. */
  ghost predicate PayableOk(db: Db)
  {
    forall org, currency ::
      Balance(db.ledger.entries, org, DistributionsPayable(currency))
      == Sum(db.declarations, DeclaredNet(org, currency)) - Sum(db.instructions, Paid(org, currency))
      - Sum(db.cases, Corrected(org, currency))
  }

  /** Withholding liability = tax of approved declarations - amounts of requests currently remitted. */
  ghost predicate WithholdingOk(db: Db)
  {
    forall org, currency ::
      Balance(db.ledger.entries, org, WithholdingTax(currency))
      == Sum(db.declarations, DeclaredTax(org, currency)) - Sum(db.remittances, RemittedTax(org, currency))
  }

  ghost predicate TablesOk(db: Db)
  {
    && DeclarationsOk(db.declarations)
    && FundingsOk(db.declarations, db.fundings)
    && InstructionsOk(db.declarations, db.fundings, db.instructions)
    && CasesOk(db.instructions, db.cases)
    && ChainsOk(db.instructions, db.cases)
    && TaxOk(db.declarations, db.remittances, db.statements)
    && StatementsOk(db.declarations, db.remittances, db.statements)
  }

  ghost predicate LedgerOk(db: Db)
  {
    && Sound(db.ledger) && KeysOk(db) && PayableOk(db) && WithholdingOk(db)
  }

  ghost predicate Inv(db: Db) { TablesOk(db) && LedgerOk(db) }

  // ---------- posting ----------

  /** With a key not yet in the ledger, a successful post appends exactly its request. */
  lemma FreshPost(l: Ledger, req: Request)
    requires Sound(l) && EnsureAndPost(l, req).Ok? && forall e :: e in l.entries ==> e.key != req.key
    ensures var posted := EnsureAndPost(l, req).value;
            && !posted.replayed && posted.journal == |l.entries| && posted.ledger.entries == l.entries + [req]
            && Sound(posted.ledger) && Valid(req)
  {
    var ensured := EnsureAccounts(l, req.org, AccountsFor(req));
    assert Sound(ensured);
    PostKeepsSound(ensured, req);
    FaultlessIsValid(req);
  }

  lemma TransferEffect(org: int, code: Code, req: Request, from: Code, to: Code, amount: int)
    requires req.postings == [Posting(from, Debit, amount), Posting(to, Credit, amount)] && from != to
    ensures Effect(org, code)(req)
         == if req.org != org then 0 else if code == from then -amount else if code == to then amount else 0
  {
    SumOfTwo(req.postings[0], req.postings[1], Signed(code));
  }

  lemma DeclarationEffect(org: int, currency: Currency, id: nat, d: Declaration)
    requires d.tax >= 0
    ensures Effect(org, DistributionsPayable(currency))(DeclarationJournal(id, d))
         == if d.org == org && d.currency == currency then d.net else 0
    ensures Effect(org, WithholdingTax(currency))(DeclarationJournal(id, d))
         == if d.org == org && d.currency == currency then d.tax else 0
  {
    var ps := DeclarationJournal(id, d).postings;
    if d.tax > 0 {
      assert ps == [ps[0], ps[1], ps[2]];
      SumOfThree(ps[0], ps[1], ps[2], Signed(DistributionsPayable(currency)));
      SumOfThree(ps[0], ps[1], ps[2], Signed(WithholdingTax(currency)));
    } else {
      assert ps == [ps[0], ps[1]];
      SumOfTwo(ps[0], ps[1], Signed(DistributionsPayable(currency)));
      SumOfTwo(ps[0], ps[1], Signed(WithholdingTax(currency)));
    }
  }

  /** The approval journal always balances, and validates exactly when less than everything is withheld. */
  lemma ApprovalJournalValidates(id: nat, d: Declaration)
    requires Conserves(d.gross, d.bps, d.tax, d.net, d.entitlements) && d.gross <= MAX_MINOR
    ensures var ps := DeclarationJournal(id, d).postings; Sum(ps, DebitOf()) == Sum(ps, CreditOf())
    ensures Valid(DeclarationJournal(id, d)) <==> d.bps < FULL_BPS
  {
    WithholdingBounds(d.gross, d.bps, d.tax, d.net, d.entitlements);
    TaxIsNotNegative(d);
    var ps := DeclarationJournal(id, d).postings;
    if d.tax > 0 {
      assert ps == [ps[0], ps[1], ps[2]];
      SumOfThree(ps[0], ps[1], ps[2], DebitOf());
      SumOfThree(ps[0], ps[1], ps[2], CreditOf());
    } else {
      assert ps == [ps[0], ps[1]];
      SumOfTwo(ps[0], ps[1], DebitOf());
      SumOfTwo(ps[0], ps[1], CreditOf());
    }
    assert ps[1] in ps;
  }

  lemma TaxIsNotNegative(d: Declaration)
    requires Conserves(d.gross, d.bps, d.tax, d.net, d.entitlements)
    ensures 0 <= d.tax <= d.gross && 0 <= d.net
  {
    var zero := (e: Entitlement) => 0;
    SumBounds(d.entitlements, zero, 0, 0);
    forall i | 0 <= i < |d.entitlements| ensures 0 <= d.entitlements[i].tax && 0 <= d.entitlements[i].net {
      assert d.entitlements[i] in d.entitlements;
    }
    SumAtMost(d.entitlements, d.entitlements, zero, Tax());
    SumAtMost(d.entitlements, d.entitlements, zero, Net());
  }

  // Between two databases with the same ledger, balances stay explained if the four sums do.
  ghost predicate SumsUnchanged(db: Db, next: Db)
  {
    && (forall org, currency ::
          Sum(next.declarations, DeclaredNet(org, currency)) == Sum(db.declarations, DeclaredNet(org, currency)))
    && (forall org, currency ::
          Sum(next.declarations, DeclaredTax(org, currency)) == Sum(db.declarations, DeclaredTax(org, currency)))
    && (forall org, currency ::
          Sum(next.instructions, Paid(org, currency)) == Sum(db.instructions, Paid(org, currency)))
    && (forall org, currency :: Sum(next.cases, Corrected(org, currency)) == Sum(db.cases, Corrected(org, currency)))
    && (forall org, currency ::
          Sum(next.remittances, RemittedTax(org, currency)) == Sum(db.remittances, RemittedTax(org, currency)))
  }

  lemma LedgerStaysOk(db: Db, next: Db)
    requires LedgerOk(db) && next.ledger == db.ledger && SumsUnchanged(db, next)
    requires forall key :: Justified(db, key) ==> Justified(next, key)
    ensures LedgerOk(next)
  {
    forall org, currency
      ensures Balance(next.ledger.entries, org, DistributionsPayable(currency))
           == Sum(next.declarations, DeclaredNet(org, currency)) - Sum(next.instructions, Paid(org, currency))
              - Sum(next.cases, Corrected(org, currency))
    {
      assert Balance(db.ledger.entries, org, DistributionsPayable(currency))
          == Sum(db.declarations, DeclaredNet(org, currency)) - Sum(db.instructions, Paid(org, currency))
             - Sum(db.cases, Corrected(org, currency));
    }
    forall org, currency
      ensures Balance(next.ledger.entries, org, WithholdingTax(currency))
           == Sum(next.declarations, DeclaredTax(org, currency)) - Sum(next.remittances, RemittedTax(org, currency))
    {
      assert Balance(db.ledger.entries, org, WithholdingTax(currency))
          == Sum(db.declarations, DeclaredTax(org, currency)) - Sum(db.remittances, RemittedTax(org, currency));
    }
  }

  // The new entry moves the two liability accounts by exactly what the tables moved.
  ghost predicate Explains(db: Db, next: Db, req: Request, org: int, currency: Currency)
  {
    && Effect(org, DistributionsPayable(currency))(req)
       == (Sum(next.declarations, DeclaredNet(org, currency)) - Sum(db.declarations, DeclaredNet(org, currency)))
          - (Sum(next.instructions, Paid(org, currency)) - Sum(db.instructions, Paid(org, currency)))
          - (Sum(next.cases, Corrected(org, currency)) - Sum(db.cases, Corrected(org, currency)))
    && Effect(org, WithholdingTax(currency))(req)
       == (Sum(next.declarations, DeclaredTax(org, currency)) - Sum(db.declarations, DeclaredTax(org, currency)))
          - (Sum(next.remittances, RemittedTax(org, currency)) - Sum(db.remittances, RemittedTax(org, currency)))
  }

  lemma PostedLedgerOk(db: Db, next: Db, req: Request)
    requires LedgerOk(db) && Sound(next.ledger) && next.ledger.entries == db.ledger.entries + [req]
    requires Justified(next, req.key) && forall key :: Justified(db, key) ==> Justified(next, key)
    requires forall org, currency :: Explains(db, next, req, org, currency)
    ensures LedgerOk(next)
  {
    forall org, currency
      ensures Balance(next.ledger.entries, org, DistributionsPayable(currency))
           == Sum(next.declarations, DeclaredNet(org, currency)) - Sum(next.instructions, Paid(org, currency))
              - Sum(next.cases, Corrected(org, currency))
      ensures Balance(next.ledger.entries, org, WithholdingTax(currency))
           == Sum(next.declarations, DeclaredTax(org, currency)) - Sum(next.remittances, RemittedTax(org, currency))
    {
      assert Explains(db, next, req, org, currency);
      SumOfOneMore(db.ledger.entries, req, Effect(org, DistributionsPayable(currency)));
      SumOfOneMore(db.ledger.entries, req, Effect(org, WithholdingTax(currency)));
    }
    forall e | e in next.ledger.entries ensures Justified(next, e.key) {
      assert e == req || e in db.ledger.entries;
    }
  }

  // ---------- declarations ----------

  lemma SubmitDeclarationKeeps(db: Db, org: int, currency: Currency, gross: int, bps: int, rows: seq<Row>, actor: int)
    requires Inv(db) && DoSubmitDeclaration(db, org, currency, gross, bps, rows, actor).Ok?
    ensures Inv(DoSubmitDeclaration(db, org, currency, gross, bps, rows, actor).value)
  {
    var next := DoSubmitDeclaration(db, org, currency, gross, bps, rows, actor).value;
    var d := FullySubmitted(org, currency, gross, bps, rows, actor);
    TaxSplitConserves(gross, rows, bps);
    TaxSplitEntitles(rows, bps);
    assert DeclarationOk(d);
    forall o, c ensures Sum(next.declarations, DeclaredNet(o, c)) == Sum(db.declarations, DeclaredNet(o, c))
                        && Sum(next.declarations, DeclaredTax(o, c)) == Sum(db.declarations, DeclaredTax(o, c))
    {
      SumOfOneMore(db.declarations, d, DeclaredNet(o, c));
      SumOfOneMore(db.declarations, d, DeclaredTax(o, c));
    }
    LedgerStaysOk(db, next);
  }

  // Marking one declaration decided disturbs no other table.
  lemma DecidedDeclarationTables(db: Db, id: nat, status: Review)
    requires TablesOk(db) && id < |db.declarations| && db.declarations[id].status.Submitted?
    requires status.Approved? ==> db.declarations[id].bps < FULL_BPS
    ensures TablesOk(db.(declarations := db.declarations[id := db.declarations[id].(status := status)]))
  {
    var d := db.declarations[id];
    var ds := db.declarations[id := d.(status := status)];
    assert d in db.declarations;
    forall x | x in ds ensures DeclarationOk(x) {
      if x != d.(status := status) { assert x in db.declarations; }
    }
    forall f | f in db.fundings ensures FundingOk(ds, f) { assert f.declaration != id; }
    forall p | p in db.instructions
      ensures InstructionOk(ds, db.fundings, p)
    {
      assert db.fundings[p.funding] in db.fundings;
    }
    forall r | r in db.remittances ensures RemittanceOk(ds, r) { assert r.declaration != id; }
  }

  lemma ApproveDeclarationKeeps(db: Db, id: nat, ledger: Ledger)
    requires Inv(db) && id < |db.declarations| && db.declarations[id].status.Submitted?
    requires Sound(ledger) && ledger.entries == db.ledger.entries + [DeclarationJournal(id, db.declarations[id])]
    requires Valid(DeclarationJournal(id, db.declarations[id]))
    ensures Inv(db.(ledger := ledger, declarations := db.declarations[id := db.declarations[id].(status := Approved)]))
  {
    var d := db.declarations[id];
    var next := db.(ledger := ledger, declarations := db.declarations[id := d.(status := Approved)]);
    var req := DeclarationJournal(id, d);
    assert d in db.declarations;
    ApprovalJournalValidates(id, d);
    TaxIsNotNegative(d);
    DecidedDeclarationTables(db, id, Approved);
    forall org, currency ensures Explains(db, next, req, org, currency) {
      DeclarationEffect(org, currency, id, d);
      SumOfUpdate(db.declarations, id, d.(status := Approved), DeclaredNet(org, currency));
      SumOfUpdate(db.declarations, id, d.(status := Approved), DeclaredTax(org, currency));
    }
    PostedLedgerOk(db, next, req);
  }

  lemma DecideDeclarationKeeps(db: Db, id: nat, approve: bool, actor: int)
    requires Inv(db) && DoDecideDeclaration(db, id, approve, actor).Ok?
    ensures Inv(DoDecideDeclaration(db, id, approve, actor).value)
  {
    var next := DoDecideDeclaration(db, id, approve, actor).value;
    var d := db.declarations[id];
    if d.status.Submitted? && approve {
      FreshPost(db.ledger, DeclarationJournal(id, d));
      ApproveDeclarationKeeps(db, id, next.ledger);
    } else if d.status.Submitted? {
      DecidedDeclarationTables(db, id, Rejected);
      forall o, c ensures Sum(next.declarations, DeclaredNet(o, c)) == Sum(db.declarations, DeclaredNet(o, c))
                          && Sum(next.declarations, DeclaredTax(o, c)) == Sum(db.declarations, DeclaredTax(o, c))
      {
        SumOfUpdate(db.declarations, id, d.(status := Rejected), DeclaredNet(o, c));
        SumOfUpdate(db.declarations, id, d.(status := Rejected), DeclaredTax(o, c));
      }
      LedgerStaysOk(db, next);
    }
  }

  // ---------- funding ----------

  lemma SubmitFundingKeeps(db: Db, declaration: nat, org: int, observed: int, actor: int)
    requires Inv(db) && DoSubmitFunding(db, declaration, org, observed, actor).Ok?
    ensures Inv(DoSubmitFunding(db, declaration, org, observed, actor).value)
  {
    var next := DoSubmitFunding(db, declaration, org, observed, actor).value;
    forall i | 0 <= i < |db.fundings| && !db.fundings[i].status.Rejected?
      ensures db.fundings[i].declaration != declaration
    {
      assert db.fundings[i] in db.fundings;
      assert ActiveFunding(db.fundings[i], declaration) || db.fundings[i].declaration != declaration;
    }
    assert FundingsOk(next.declarations, next.fundings);
    forall p | p in db.instructions ensures InstructionOk(next.declarations, next.fundings, p) {
      assert next.fundings[p.funding] == db.fundings[p.funding];
    }
    LedgerStaysOk(db, next);
  }

  // Marking one funding request decided disturbs no other table.
  lemma DecidedFundingTables(db: Db, id: nat, status: Review)
    requires TablesOk(db) && id < |db.fundings| && db.fundings[id].status.Submitted?
    ensures TablesOk(db.(fundings := db.fundings[id := db.fundings[id].(status := status)]))
  {
    var f := db.fundings[id];
    var fs := db.fundings[id := f.(status := status)];
    assert f in db.fundings;
    forall x | x in fs ensures FundingOk(db.declarations, x) {
      assert x in db.fundings || x == fs[id];
    }
    forall p | p in db.instructions ensures InstructionOk(db.declarations, fs, p) {
      assert p.funding != id;
    }
  }

  lemma NewInstructionsAreOk(db: Db, id: nat)
    requires TablesOk(db) && id < |db.fundings| && db.fundings[id].declaration < |db.declarations|
    ensures var f := db.fundings[id];
            InstructionsOk(db.declarations, db.fundings[id := f.(status := Approved)],
                           NewInstructions(id, f, db.declarations[f.declaration].entitlements))
  {
    var f := db.fundings[id];
    assert f in db.fundings;
    var ents := db.declarations[f.declaration].entitlements;
    var added := NewInstructions(id, f, ents);
    forall p | p in added ensures InstructionOk(db.declarations, db.fundings[id := f.(status := Approved)], p) {
      var e :| 0 <= e < |ents| && p == added[e];
    }
  }

  lemma ApprovedFundingTables(db: Db, id: nat)
    requires TablesOk(db) && id < |db.fundings| && db.fundings[id].status.Submitted?
    requires db.fundings[id].declaration < |db.declarations|
    ensures var f := db.fundings[id];
            TablesOk(db.(fundings := db.fundings[id := f.(status := Approved)],
                     instructions := db.instructions
                     + NewInstructions(id, f, db.declarations[f.declaration].entitlements)))
  {
    DecidedFundingTables(db, id, Approved);
    NewInstructionsAreOk(db, id);
    var f := db.fundings[id];
    NewInstructionsKeepCases(db, id, NewInstructions(id, f, db.declarations[f.declaration].entitlements));
  }

  lemma ApproveFundingKeeps(db: Db, id: nat)
    requires Inv(db) && id < |db.fundings| && db.fundings[id].status.Submitted?
    requires db.fundings[id].declaration < |db.declarations|
    ensures var f := db.fundings[id];
            Inv(db.(fundings := db.fundings[id := f.(status := Approved)],
                instructions := db.instructions
                + NewInstructions(id, f, db.declarations[f.declaration].entitlements)))
  {
    var f := db.fundings[id];
    var added := NewInstructions(id, f, db.declarations[f.declaration].entitlements);
    var next := db.(fundings := db.fundings[id := f.(status := Approved)], instructions := db.instructions + added);
    ApprovedFundingTables(db, id);
    forall o, c ensures Sum(next.instructions, Paid(o, c)) == Sum(db.instructions, Paid(o, c)) {
      SumOfConcat(db.instructions, added, Paid(o, c));
      SumBounds(added, Paid(o, c), 0, 0);
    }
    LedgerStaysOk(db, next);
  }

  lemma DecideFundingKeeps(db: Db, id: nat, approve: bool, observed: int, destinations: bool, actor: int)
    requires Inv(db) && DoDecideFunding(db, id, approve, observed, destinations, actor).Ok?
    ensures Inv(DoDecideFunding(db, id, approve, observed, destinations, actor).value)
  {
    if db.fundings[id].status.Submitted? {
      if approve {
        ApproveFundingKeeps(db, id);
      } else {
        DecidedFundingTables(db, id, Rejected);
        LedgerStaysOk(db, DoDecideFunding(db, id, approve, observed, destinations, actor).value);
      }
    }
  }

  lemma NewInstructionsKeepCases(db: Db, id: nat, added: seq<Instruction>)
    requires TablesOk(db) && id < |db.fundings| && db.fundings[id].status.Submitted?
    requires forall e :: 0 <= e < |added| ==>
                           added[e].funding == id && added[e].entitlement == e && added[e].supersedes.None?
    ensures CasesOk(db.instructions + added, db.cases) && ChainsOk(db.instructions + added, db.cases)
  {
    var ps := db.instructions + added;
    forall c | c in db.cases ensures CaseOk(ps, c) {
      assert CaseOk(db.instructions, c);
    }
    forall i | 0 <= i < |db.instructions| ensures ps[i].funding != id && ReplacesEarlier(ps, i) {
      assert db.instructions[i] in db.instructions && ReplacesEarlier(db.instructions, i);
    }
  }

  // ---------- payouts ----------

  // Moves of one instruction that keep it in its chain and never wake a dead one.
  ghost predicate Progress(p: Instruction, q: Instruction)
  {
    && q == p.(status := q.status, transferCode := q.transferCode, settlement := q.settlement)
    && (q.settlement.Some? <==> q.status.Confirmed? || q.status.Reversed?)
    && (Dead(p.status) ==> Dead(q.status))
    && (p.status.Uncertain? || p.status.Confirmed? || Dead(p.status) ==>
          q.status.Uncertain? || q.status.Confirmed? || Dead(q.status))
  }

  lemma ProgressKeepsChains(ps: seq<Instruction>, cs: seq<Case>, id: nat, q: Instruction)
    requires ChainsOk(ps, cs) && id < |ps| && Progress(ps[id], q)
    ensures ChainsOk(ps[id := q], cs)
  {
    var next := ps[id := q];
    forall i, j | 0 <= i < j < |next| && SameChain(next[i], next[j]) ensures Dead(next[i].status) && Replaced(cs, i) {
      assert SameChain(ps[i], ps[j]);
    }
    forall j | 0 <= j < |next| ensures ReplacesEarlier(next, j) { assert ReplacesEarlier(ps, j); }
  }

  lemma ProgressKeepsTables(db: Db, id: nat, q: Instruction)
    requires TablesOk(db) && id < |db.instructions| && Progress(db.instructions[id], q)
    ensures TablesOk(db.(instructions := db.instructions[id := q]))
  {
    var ps := db.instructions[id := q];
    assert db.instructions[id] in db.instructions;
    forall p | p in ps ensures InstructionOk(db.declarations, db.fundings, p) {
      if p != q { assert p in db.instructions; }
    }
    forall c | c in db.cases ensures CaseOk(ps, c) {
      assert CaseOk(db.instructions, c);
    }
    ProgressKeepsChains(db.instructions, db.cases, id, q);
  }

  // A move that neither confirms nor undoes a confirmation leaves the ledger explained.
  lemma QuietProgressKeeps(db: Db, id: nat, q: Instruction)
    requires Inv(db) && id < |db.instructions| && Progress(db.instructions[id], q)
    requires !db.instructions[id].status.Confirmed? && !q.status.Confirmed? && !q.status.Reversed?
    requires !db.instructions[id].status.Reversed?
    ensures Inv(db.(instructions := db.instructions[id := q]))
  {
    var next := db.(instructions := db.instructions[id := q]);
    ProgressKeepsTables(db, id, q);
    forall o, c ensures Sum(next.instructions, Paid(o, c)) == Sum(db.instructions, Paid(o, c)) {
      SumOfUpdate(db.instructions, id, q, Paid(o, c));
    }
    LedgerStaysOk(db, next);
  }

  // A posted move between confirmed and not confirmed: the payable account follows the status.
  lemma PostedProgressKeeps(db: Db, id: nat, q: Instruction, req: Request, ledger: Ledger)
    requires Inv(db) && id < |db.instructions| && Progress(db.instructions[id], q)
    requires Sound(ledger) && ledger.entries == db.ledger.entries + [req]
    requires Justified(db.(instructions := db.instructions[id := q]), req.key)
    requires (db.instructions[id].status.Confirmed? || db.instructions[id].status.Reversed?) ==>
               (q.status.Confirmed? || q.status.Reversed?)
    requires db.instructions[id].status.Reversed? ==> q.status.Reversed?
    requires forall org, currency ::
               && Effect(org, DistributionsPayable(currency))(req)
                  == Paid(org, currency)(db.instructions[id]) - Paid(org, currency)(q)
               && Effect(org, WithholdingTax(currency))(req) == 0
    ensures Inv(db.(ledger := ledger, instructions := db.instructions[id := q]))
  {
    var next := db.(ledger := ledger, instructions := db.instructions[id := q]);
    ProgressKeepsTables(db, id, q);
    forall org, currency ensures Explains(db, next, req, org, currency) {
      SumOfUpdate(db.instructions, id, q, Paid(org, currency));
    }
    PostedLedgerOk(db, next, req);
  }

  lemma SettlementKeeps(db: Db, id: nat, q: Instruction, at: int)
    requires Inv(db) && id < |db.instructions| && !db.instructions[id].status.Confirmed?
    requires !Dead(db.instructions[id].status)
    requires EnsureAndPost(db.ledger, SettlementJournal(id, db.instructions[id], at)).Ok?
    requires q == db.instructions[id].(status := Confirmed, transferCode := q.transferCode, settlement := q.settlement)
    requires q.settlement.Some?
    ensures Inv(db.(ledger := EnsureAndPost(db.ledger, SettlementJournal(id, db.instructions[id], at)).value.ledger,
                instructions := db.instructions[id := q]))
  {
    var p := db.instructions[id];
    assert p in db.instructions;
    var req := SettlementJournal(id, p, at);
    FreshPost(db.ledger, req);
    forall org, c
      ensures Effect(org, DistributionsPayable(c))(req) == Paid(org, c)(p) - Paid(org, c)(q)
      ensures Effect(org, WithholdingTax(c))(req) == 0
    {
      TransferEffect(org, DistributionsPayable(c), req, DistributionsPayable(p.currency), PayoutClearing(p.currency),
                     p.amount);
      TransferEffect(org, WithholdingTax(c), req, DistributionsPayable(p.currency), PayoutClearing(p.currency),
                     p.amount);
    }
    PostedProgressKeeps(db, id, q, req, EnsureAndPost(db.ledger, req).value.ledger);
  }

  lemma PayoutReversalKeeps(db: Db, id: nat, at: int)
    requires Inv(db) && id < |db.instructions| && db.instructions[id].status.Confirmed?
    requires EnsureAndPost(db.ledger, ReversalJournal(id, db.instructions[id], at)).Ok?
    ensures Inv(db.(ledger := EnsureAndPost(db.ledger, ReversalJournal(id, db.instructions[id], at)).value.ledger,
                instructions := db.instructions[id := db.instructions[id].(status := Reversed)]))
  {
    var p := db.instructions[id];
    assert p in db.instructions;
    var q := p.(status := Reversed);
    var req := ReversalJournal(id, p, at);
    FreshPost(db.ledger, req);
    forall org, c
      ensures Effect(org, DistributionsPayable(c))(req) == Paid(org, c)(p) - Paid(org, c)(q)
      ensures Effect(org, WithholdingTax(c))(req) == 0
    {
      TransferEffect(org, DistributionsPayable(c), req, PayoutClearing(p.currency), DistributionsPayable(p.currency),
                     p.amount);
      TransferEffect(org, WithholdingTax(c), req, PayoutClearing(p.currency), DistributionsPayable(p.currency),
                     p.amount);
    }
    PostedProgressKeeps(db, id, q, req, EnsureAndPost(db.ledger, req).value.ledger);
  }

  lemma FailureKeeps(db: Db, id: nat, q: Instruction)
    requires Inv(db) && id < |db.instructions| && !db.instructions[id].status.Confirmed?
    requires !Dead(db.instructions[id].status)
    requires q == db.instructions[id].(status := Failed, transferCode := q.transferCode)
    ensures Inv(db.(instructions := db.instructions[id := q]))
  {
    assert db.instructions[id] in db.instructions;
    QuietProgressKeeps(db, id, q);
  }

  lemma RecordOutcomeKeeps(db: Db, id: nat, outcome: Outcome, transferCode: int, amount: int, currency: Currency,
                           at: int)
    requires Inv(db) && DoRecordOutcome(db, id, outcome, transferCode, amount, currency, at).Ok?
    ensures Inv(DoRecordOutcome(db, id, outcome, transferCode, amount, currency, at).value)
  {
    var next := DoRecordOutcome(db, id, outcome, transferCode, amount, currency, at).value;
    if next != db {
      match outcome
      case Success => SettlementKeeps(db, id, next.instructions[id], at);
      case Failure => FailureKeeps(db, id, next.instructions[id]);
      case Reversal => PayoutReversalKeeps(db, id, at);
    }
  }

  // ---------- cases ----------

  // A case moves on without its payout changing.
  ghost predicate CaseMoves(c: Case, d: Case)
  {
    && d == c.(status := d.status, resolution := d.resolution, preparedBy := d.preparedBy, held := d.held)
    && (d.status.Open? || d.status.EvidenceSubmitted? <==> d.resolution.None?)
    && (c.status.Executed? ==> d.status.Executed? && d.resolution == c.resolution)
  }

  lemma CaseMoveKeepsTables(db: Db, id: nat, d: Case)
    requires TablesOk(db) && id < |db.cases| && CaseMoves(db.cases[id], d)
    ensures TablesOk(db.(cases := db.cases[id := d]))
  {
    var cs := db.cases[id := d];
    assert db.cases[id] in db.cases;
    forall c | c in cs ensures CaseOk(db.instructions, c) {
      if c != d { assert c in db.cases; }
    }
    forall i | 0 <= i < |db.instructions| && Replaced(db.cases, i) ensures Replaced(cs, i) {
      ReplacedStays(db.cases, id, d, i);
    }
  }

  lemma ReplacedStays(cs: seq<Case>, id: nat, d: Case, payout: nat)
    requires id < |cs| && CaseMoves(cs[id], d) && Replaced(cs, payout)
    ensures Replaced(cs[id := d], payout)
  {
    var c :| c in cs && ReplacedBy(c, payout);
    var k :| 0 <= k < |cs| && cs[k] == c;
    assert ReplacedBy(cs[id := d][k], payout);
    assert cs[id := d][k] in cs[id := d];
  }

  lemma QuietCaseMoveKeeps(db: Db, id: nat, d: Case)
    requires Inv(db) && id < |db.cases| && CaseMoves(db.cases[id], d)
    requires d.status.Executed? && Corrects(d) ==> db.cases[id].status.Executed?
    ensures Inv(db.(cases := db.cases[id := d]))
  {
    var next := db.(cases := db.cases[id := d]);
    CaseMoveKeepsTables(db, id, d);
    forall o, c ensures Sum(next.cases, Corrected(o, c)) == Sum(db.cases, Corrected(o, c)) {
      SumOfUpdate(db.cases, id, d, Corrected(o, c));
    }
    LedgerStaysOk(db, next);
  }

  lemma OpenCaseKeeps(db: Db, payout: nat, actor: int)
    requires Inv(db) && DoOpenCase(db, payout, actor).Ok?
    ensures Inv(DoOpenCase(db, payout, actor).value)
  {
    var next := DoOpenCase(db, payout, actor).value;
    if next != db {
      var added := next.cases[|db.cases|];
      forall i | 0 <= i < |db.cases| ensures db.cases[i].payout != payout { assert db.cases[i] in db.cases; }
      assert CasesOk(next.instructions, next.cases);
      forall i | 0 <= i < |db.instructions| && Replaced(db.cases, i) ensures Replaced(next.cases, i) {
        var c :| c in db.cases && ReplacedBy(c, i);
        assert c in next.cases;
      }
      forall o, c ensures Sum(next.cases, Corrected(o, c)) == Sum(db.cases, Corrected(o, c)) {
        SumOfOneMore(db.cases, added, Corrected(o, c));
      }
      LedgerStaysOk(db, next);
    }
  }

  // Appending the replacement of a dead payout whose case has just been executed.
  lemma ReplacementKeepsChains(db: Db, id: nat)
    requires TablesOk(db) && id < |db.cases| && db.cases[id].status.ResolutionApproved?
    requires db.cases[id].resolution == Some(ReplacementPayout)
    requires db.cases[id].payout < |db.instructions| && Dead(db.instructions[db.cases[id].payout].status)
    ensures var c := db.cases[id];
            ChainsOk(db.instructions + [Replacement(c.payout, db.instructions[c.payout])],
                     db.cases[id := c.(status := Executed)])
  {
    var c := db.cases[id];
    var q := Replacement(c.payout, db.instructions[c.payout]);
    var cs := db.cases[id := c.(status := Executed)];
    CaseMoveKeepsTables(db, id, c.(status := Executed));
    forall i | 0 <= i < |db.instructions| && SameChain(db.instructions[i], q)
      ensures Dead(db.instructions[i].status) && Replaced(cs, i)
    {
      NewestOfChain(db, id, i);
      if i == c.payout {
        assert ReplacedBy(cs[id], i) && cs[id] in cs;
      } else {
        assert SameChain(db.instructions[i], db.instructions[c.payout]);
      }
    }
    forall j | 0 <= j <= |db.instructions| ensures ReplacesEarlier(db.instructions + [q], j) {
      assert j < |db.instructions| ==> ReplacesEarlier(db.instructions, j);
    }
  }

  lemma ReplacementKeeps(db: Db, id: nat)
    requires Inv(db) && id < |db.cases| && db.cases[id].status.ResolutionApproved?
    requires db.cases[id].resolution == Some(ReplacementPayout)
    requires db.cases[id].payout < |db.instructions| && Dead(db.instructions[db.cases[id].payout].status)
    ensures var c := db.cases[id];
            Inv(db.(cases := db.cases[id := c.(status := Executed)],
                instructions := db.instructions + [Replacement(c.payout, db.instructions[c.payout])]))
  {
    var c := db.cases[id];
    var p := db.instructions[c.payout];
    var mid := db.(cases := db.cases[id := c.(status := Executed)]);
    QuietCaseMoveKeeps(db, id, c.(status := Executed));
    var q := Replacement(c.payout, p);
    var next := mid.(instructions := mid.instructions + [q]);
    assert p in db.instructions;
    forall x | x in next.instructions ensures InstructionOk(next.declarations, next.fundings, x) {
      if x != q { assert x in db.instructions; }
    }
    forall x | x in next.cases ensures CaseOk(next.instructions, x) { assert CaseOk(mid.instructions, x); }
    ReplacementKeepsChains(db, id);
    forall o, cur ensures Sum(next.instructions, Paid(o, cur)) == Sum(mid.instructions, Paid(o, cur)) {
      SumOfOneMore(mid.instructions, q, Paid(o, cur));
    }
    LedgerStaysOk(mid, next);
  }

  // A payout whose only case is not executed has no successor in its chain.
  lemma NewestOfChain(db: Db, id: nat, i: nat)
    requires TablesOk(db) && id < |db.cases| && !db.cases[id].status.Executed? && i < |db.instructions|
    requires db.cases[id].payout < |db.instructions|
    requires SameChain(db.instructions[i], db.instructions[db.cases[id].payout])
    ensures i <= db.cases[id].payout
  {
    NotReplacedYet(db, id);
    var j := db.cases[id].payout;
    assert SameChain(db.instructions[j], db.instructions[i]);
  }

  lemma NotReplacedYet(db: Db, id: nat)
    requires TablesOk(db) && id < |db.cases| && !db.cases[id].status.Executed?
    ensures !Replaced(db.cases, db.cases[id].payout)
  {
    forall c | c in db.cases && c.payout == db.cases[id].payout ensures c == db.cases[id] {
      var k :| 0 <= k < |db.cases| && db.cases[k] == c;
    }
  }

  lemma CorrectionEffect(org: int, currency: Currency, id: nat, c: Case, p: Instruction, at: int)
    requires Corrects(c) && c.org == p.org && c.amount == p.amount && c.currency == p.currency
    ensures var req := CorrectionJournal(id, c, c.resolution.value, p, at);
            && Effect(org, DistributionsPayable(currency))(req) == -Corrected(org, currency)(c.(status := Executed))
            && Effect(org, WithholdingTax(currency))(req) == 0
  {
    var req := CorrectionJournal(id, c, c.resolution.value, p, at);
    var to := CorrectionCode(c.resolution.value, p.currency);
    TransferEffect(org, DistributionsPayable(currency), req, DistributionsPayable(p.currency), to, p.amount);
    TransferEffect(org, WithholdingTax(currency), req, DistributionsPayable(p.currency), to, p.amount);
  }

  lemma CorrectionKeeps(db: Db, id: nat, at: int, ledger: Ledger)
    requires Inv(db) && id < |db.cases| && db.cases[id].status.ResolutionApproved? && Corrects(db.cases[id])
    requires db.cases[id].payout < |db.instructions| && Sound(ledger)
    requires var c := db.cases[id];
             ledger.entries
             == db.ledger.entries + [CorrectionJournal(id, c, c.resolution.value, db.instructions[c.payout], at)]
    ensures Inv(db.(ledger := ledger, cases := db.cases[id := db.cases[id].(status := Executed)]))
  {
    var c := db.cases[id];
    var p := db.instructions[c.payout];
    var req := CorrectionJournal(id, c, c.resolution.value, p, at);
    var d := c.(status := Executed);
    assert c in db.cases && CaseOk(db.instructions, c);
    var next := db.(ledger := ledger, cases := db.cases[id := d]);
    CaseMoveKeepsTables(db, id, d);
    forall org, cur ensures Explains(db, next, req, org, cur) {
      SumOfUpdate(db.cases, id, d, Corrected(org, cur));
      CorrectionEffect(org, cur, id, c, p, at);
    }
    PostedLedgerOk(db, next, req);
  }

  lemma ExecutedCorrectionKeeps(db: Db, id: nat, at: int)
    requires Inv(db) && id < |db.cases| && db.cases[id].status.ResolutionApproved? && Corrects(db.cases[id])
    requires db.cases[id].payout < |db.instructions|
    requires var c := db.cases[id];
             EnsureAndPost(db.ledger, CorrectionJournal(id, c, c.resolution.value, db.instructions[c.payout], at)).Ok?
    ensures var c := db.cases[id];
            var posted := EnsureAndPost(db.ledger,
                                        CorrectionJournal(id, c, c.resolution.value, db.instructions[c.payout], at));
            Inv(db.(ledger := posted.value.ledger, cases := db.cases[id := c.(status := Executed)]))
  {
    var c := db.cases[id];
    var req := CorrectionJournal(id, c, c.resolution.value, db.instructions[c.payout], at);
    FreshPost(db.ledger, req);
    CorrectionKeeps(db, id, at, EnsureAndPost(db.ledger, req).value.ledger);
  }

  lemma ExecuteCaseKeeps(db: Db, id: nat, covered: bool, evidence: bool, destination: bool, at: int, actor: int)
    requires Inv(db) && DoExecuteCase(db, id, covered, evidence, destination, at, actor).Ok?
    ensures Inv(DoExecuteCase(db, id, covered, evidence, destination, at, actor).value)
  {
    match db.cases[id].resolution.value
    case CloseNoAction => QuietCaseMoveKeeps(db, id, db.cases[id].(status := Executed));
    case ReplacementPayout => ReplacementKeeps(db, id);
    case ManualSettlement => ExecutedCorrectionKeeps(db, id, at);
    case WriteOff => ExecutedCorrectionKeeps(db, id, at);
  }

  lemma DecideHoldKeeps(db: Db, id: nat, approve: bool, actor: int)
    requires Inv(db) && DoDecideHold(db, id, approve, actor).Ok?
    ensures Inv(DoDecideHold(db, id, approve, actor).value)
  {
    var next := DoDecideHold(db, id, approve, actor).value;
    var h := db.holds[id];
    if approve {
      assert db.cases[h.case_] in db.cases;
      var mid := db.(cases := db.cases[h.case_ := db.cases[h.case_].(held := h.place)]);
      QuietCaseMoveKeeps(db, h.case_, db.cases[h.case_].(held := h.place));
      LedgerStaysOk(mid, next);
    } else {
      LedgerStaysOk(db, next);
    }
  }

  // ---------- tax ----------

  lemma SubmitRemittanceKeeps(db: Db, declaration: nat, org: int, policy: bool, actor: int)
    requires Inv(db) && DoSubmitRemittance(db, declaration, org, policy, actor).Ok?
    ensures Inv(DoSubmitRemittance(db, declaration, org, policy, actor).value)
  {
    var next := DoSubmitRemittance(db, declaration, org, policy, actor).value;
    var r := next.remittances[|db.remittances|];
    forall i | 0 <= i < |db.remittances|
      ensures db.remittances[i].declaration != declaration
    {
      assert db.remittances[i] in db.remittances;
    }
    assert TaxOk(next.declarations, next.remittances, next.statements);
    forall o, c ensures Sum(next.remittances, RemittedTax(o, c)) == Sum(db.remittances, RemittedTax(o, c)) {
      SumOfOneMore(db.remittances, r, RemittedTax(o, c));
    }
    LedgerStaysOk(db, next);
  }

  lemma QuietRemittanceKeeps(db: Db, id: nat, r: Remittance)
    requires Inv(db) && id < |db.remittances| && db.remittances[id].journal.None? && r.journal.None?
    requires r == db.remittances[id].(status := r.status, paymentSubmitter := r.paymentSubmitter)
    requires !r.status.Remitted? && !r.status.RemittanceReversed?
    ensures Inv(SetRemittance(db, id, r))
  {
    var next := SetRemittance(db, id, r);
    assert db.remittances[id] in db.remittances;
    forall x | x in next.remittances ensures RemittanceOk(next.declarations, x) {
      if x != r { assert x in db.remittances; }
    }
    assert TaxOk(next.declarations, next.remittances, next.statements);
    forall o, c ensures Sum(next.remittances, RemittedTax(o, c)) == Sum(db.remittances, RemittedTax(o, c)) {
      SumOfUpdate(db.remittances, id, r, RemittedTax(o, c));
    }
    LedgerStaysOk(db, next);
  }

  // The ledger side of a remittance or its reversal: the liability follows the status.
  lemma PostedRemittanceKeeps(db: Db, next: Db, id: nat, r: Remittance, req: Request)
    requires LedgerOk(db) && id < |db.remittances|
    requires next == SetRemittance(db, id, r).(ledger := next.ledger, reversals := next.reversals,
                     statements := next.statements)
    requires Sound(next.ledger) && next.ledger.entries == db.ledger.entries + [req] && Justified(next, req.key)
    requires r.journal.Some?
    requires (db.remittances[id].status.RemittanceReversed? ==> r.status.RemittanceReversed?)
    requires forall org, currency ::
               && Effect(org, WithholdingTax(currency))(req)
                  == RemittedTax(org, currency)(db.remittances[id]) - RemittedTax(org, currency)(r)
               && Effect(org, DistributionsPayable(currency))(req) == 0
    ensures LedgerOk(next)
  {
    forall org, currency ensures Explains(db, next, req, org, currency) {
      SumOfUpdate(db.remittances, id, r, RemittedTax(org, currency));
    }
    PostedLedgerOk(db, next, req);
  }

  /** The statements issued with a remittance add up to its amount. */
  lemma StatementsAddUp(id: nat, d: Declaration, q: nat)
    requires DeclarationOk(d)
    ensures Sum(NewStatements(id, d.entitlements), ActiveWithheld(q)) == if q == id then d.tax else 0
  {
    var added := NewStatements(id, d.entitlements);
    if q == id {
      SumsAgree(added, d.entitlements, ActiveWithheld(q), Tax());
    } else {
      SumBounds(added, ActiveWithheld(q), 0, 0);
    }
  }

  lemma NoStatementsYet(rs: seq<Remittance>, ss: seq<Statement>, id: nat)
    requires id < |rs| && rs[id].journal.None?
    requires forall s :: s in ss ==> s.remittance < |rs| && rs[s.remittance].journal.Some?
    ensures Sum(ss, ActiveWithheld(id)) == 0
  {
    SumBounds(ss, ActiveWithheld(id), 0, 0);
  }

  lemma IssuedCertify(ds: seq<Declaration>, rs: seq<Remittance>, ss: seq<Statement>, id: nat, r: Remittance)
    requires StatementsOk(ds, rs, ss) && id < |rs| && r.declaration == rs[id].declaration < |ds|
    ensures StatementsOk(ds, rs[id := r], ss + NewStatements(id, ds[r.declaration].entitlements))
  {
    var ents := ds[r.declaration].entitlements;
    var added := NewStatements(id, ents);
    forall s | s in ss + added ensures Certifies(ds, rs[id := r], s) {
      if s in ss {
        assert Certifies(ds, rs, s);
      } else {
        var i :| 0 <= i < |added| && added[i] == s;
        assert ents[i] in ents;
      }
    }
  }

  lemma RemittedTables(db: Db, id: nat, journal: nat)
    requires TablesOk(db) && id < |db.remittances| && db.remittances[id].status.PaymentSubmitted?
    ensures var r := db.remittances[id];
            r.declaration < |db.declarations|
            && var rs := db.remittances[id := r.(status := Remitted, journal := Some(journal))];
            var ss := db.statements + NewStatements(id, db.declarations[r.declaration].entitlements);
            TaxOk(db.declarations, rs, ss) && StatementsOk(db.declarations, rs, ss)
  {
    var r := db.remittances[id];
    assert r in db.remittances;
    IssuedCertify(db.declarations, db.remittances, db.statements, id,
                  r.(status := Remitted, journal := Some(journal)));
    var d := db.declarations[r.declaration];
    assert d in db.declarations;
    var rs := db.remittances[id := r.(status := Remitted, journal := Some(journal))];
    var added := NewStatements(id, d.entitlements);
    forall x | x in rs ensures RemittanceOk(db.declarations, x) {
      if x != rs[id] { assert x in db.remittances; }
    }
    forall q | 0 <= q < |rs| && rs[q].status.Remitted?
      ensures Sum(db.statements + added, ActiveWithheld(q)) == rs[q].amount
    {
      SumOfConcat(db.statements, added, ActiveWithheld(q));
      StatementsAddUp(id, d, q);
      if q == id {
        NoStatementsYet(db.remittances, db.statements, id);
      }
    }
  }

  lemma DecidePaymentKeeps(db: Db, id: nat, approve: bool, receipt: bool, at: int, actor: int)
    requires Inv(db) && DoDecidePayment(db, id, approve, receipt, at, actor).Ok?
    ensures Inv(DoDecidePayment(db, id, approve, receipt, at, actor).value)
  {
    var next := DoDecidePayment(db, id, approve, receipt, at, actor).value;
    var r := db.remittances[id];
    assert r in db.remittances;
    if !approve {
      QuietRemittanceKeeps(db, id, r.(status := PaymentRejected));
    } else {
      var req := RemittanceJournal(id, r, at);
      FreshPost(db.ledger, req);
      RemittedTables(db, id, |db.ledger.entries|);
      var q := next.remittances[id];
      forall org, c
        ensures Effect(org, WithholdingTax(c))(req) == RemittedTax(org, c)(r) - RemittedTax(org, c)(q)
        ensures Effect(org, DistributionsPayable(c))(req) == 0
      {
        TransferEffect(org, WithholdingTax(c), req, WithholdingTax(r.currency), TaxRemittanceClearing(r.currency),
                       r.amount);
        TransferEffect(org, DistributionsPayable(c), req, WithholdingTax(r.currency), TaxRemittanceClearing(r.currency),
                       r.amount);
      }
      PostedRemittanceKeeps(db, next, id, q, req);
    }
  }

  lemma RevokedStillCertify(ds: seq<Declaration>, rs: seq<Remittance>, ss: seq<Statement>, id: nat, r: Remittance)
    requires StatementsOk(ds, rs, ss) && id < |rs| && r.declaration == rs[id].declaration
    ensures StatementsOk(ds, rs[id := r], Revoke(ss, id))
  {
    var revoked := Revoke(ss, id);
    forall s | s in revoked ensures Certifies(ds, rs[id := r], s) {
      var i :| 0 <= i < |revoked| && revoked[i] == s;
      assert ss[i] in ss && Certifies(ds, rs, ss[i]);
      assert rs[id := r][s.remittance].declaration == rs[s.remittance].declaration;
    }
  }

  lemma RevokedTables(db: Db, id: nat)
    requires TablesOk(db) && id < |db.remittances| && db.remittances[id].status.Remitted?
    ensures var rs := db.remittances[id := db.remittances[id].(status := RemittanceReversed)];
            && TaxOk(db.declarations, rs, Revoke(db.statements, id))
            && StatementsOk(db.declarations, rs, Revoke(db.statements, id))
  {
    RevokedStillCertify(db.declarations, db.remittances, db.statements, id,
                        db.remittances[id].(status := RemittanceReversed));
    var r := db.remittances[id];
    assert r in db.remittances;
    var rs := db.remittances[id := r.(status := RemittanceReversed)];
    var ss := Revoke(db.statements, id);
    forall x | x in rs ensures RemittanceOk(db.declarations, x) {
      if x != rs[id] { assert x in db.remittances; }
    }
    forall s | s in ss
      ensures s.remittance < |rs| && rs[s.remittance].journal.Some? && (s.active ==> rs[s.remittance].status.Remitted?)
    {
      var i :| 0 <= i < |ss| && ss[i] == s;
      assert db.statements[i] in db.statements;
    }
    forall q | 0 <= q < |rs| && rs[q].status.Remitted? ensures Sum(ss, ActiveWithheld(q)) == rs[q].amount {
      SumsAgree(ss, db.statements, ActiveWithheld(q), ActiveWithheld(q));
    }
  }

  lemma DecideReversalKeeps(db: Db, id: nat, approve: bool, at: int, actor: int)
    requires Inv(db) && DoDecideReversal(db, id, approve, at, actor).Ok?
    ensures Inv(DoDecideReversal(db, id, approve, at, actor).value)
  {
    var next := DoDecideReversal(db, id, approve, at, actor).value;
    if !approve {
      LedgerStaysOk(db, next);
    } else {
      var k := db.reversals[id].remittance;
      var r := db.remittances[k];
      var req := RemittanceReversalJournal(k, r, at);
      FreshPost(db.ledger, req);
      RevokedTables(db, k);
      var q := next.remittances[k];
      forall org, c
        ensures Effect(org, WithholdingTax(c))(req) == RemittedTax(org, c)(r) - RemittedTax(org, c)(q)
        ensures Effect(org, DistributionsPayable(c))(req) == 0
      {
        TransferEffect(org, WithholdingTax(c), req, TaxRemittanceClearing(r.currency), WithholdingTax(r.currency),
                       r.amount);
        TransferEffect(org, DistributionsPayable(c), req, TaxRemittanceClearing(r.currency), WithholdingTax(r.currency),
                       r.amount);
      }
      PostedRemittanceKeeps(db, next, k, q, req);
    }
  }

  // ---------- the rest of the ledger ----------

  lemma ElsewhereMovesNothing(req: Request, org: int, currency: Currency)
    requires Elsewhere(req)
    ensures Effect(org, DistributionsPayable(currency))(req) == 0 && Effect(org, WithholdingTax(currency))(req) == 0
  {
    SumBounds(req.postings, Signed(DistributionsPayable(currency)), 0, 0);
    SumBounds(req.postings, Signed(WithholdingTax(currency)), 0, 0);
  }

  lemma OtherPostingKeeps(db: Db, req: Request)
    requires Inv(db) && DoOtherPosting(db, req).Ok?
    ensures Inv(DoOtherPosting(db, req).value)
  {
    PostKeepsSound(db.ledger, req);
    if !Post(db.ledger, req).value.replayed {
      UnrelatedEntryKeeps(db, req, Post(db.ledger, req).value.ledger);
    }
  }

  lemma UnrelatedEntryKeeps(db: Db, req: Request, ledger: Ledger)
    requires Inv(db) && Elsewhere(req) && Sound(ledger) && ledger.entries == db.ledger.entries + [req]
    ensures Inv(db.(ledger := ledger))
  {
    var next := db.(ledger := ledger);
    forall org, c ensures Explains(db, next, req, org, c) { ElsewhereMovesNothing(req, org, c); }
    PostedLedgerOk(db, next, req);
  }

  // ---------- every command, every run ----------

  lemma DispatchKeeps(db: Db, id: nat, q: Instruction)
    requires Inv(db) && id < |db.instructions|
    requires var p := db.instructions[id]; p.status.Authorized? || p.status.Dispatching?
    requires q == db.instructions[id].(status := q.status, transferCode := q.transferCode)
    requires (q.status.Dispatching? || q.status.Sent? || q.status.Uncertain?)
    ensures Inv(db.(instructions := db.instructions[id := q]))
  {
    assert db.instructions[id] in db.instructions;
    QuietProgressKeeps(db, id, q);
  }

  lemma CaseStepKeeps(db: Db, id: nat, d: Case)
    requires Inv(db) && id < |db.cases| && !db.cases[id].status.Executed? && !d.status.Executed?
    requires d == db.cases[id].(status := d.status, resolution := d.resolution, preparedBy := d.preparedBy)
    requires d.status.Open? || d.status.EvidenceSubmitted? <==> d.resolution.None?
    ensures Inv(db.(cases := db.cases[id := d]))
  {
    QuietCaseMoveKeeps(db, id, d);
  }

  lemma AddEvidenceKeeps(db: Db, id: nat)
    requires Inv(db) && DoAddEvidence(db, id).Ok?
    ensures Inv(DoAddEvidence(db, id).value)
  {
    assert db.cases[id] in db.cases;
    CaseStepKeeps(db, id, db.cases[id].(status := EvidenceSubmitted));
  }

  lemma ProposeResolutionKeeps(db: Db, id: nat, resolution: Resolution, actor: int)
    requires Inv(db) && DoProposeResolution(db, id, resolution, actor).Ok?
    ensures Inv(DoProposeResolution(db, id, resolution, actor).value)
  {
    CaseStepKeeps(db, id,
                  db.cases[id].(status := DecisionPending, resolution := Some(resolution), preparedBy := actor));
  }

  lemma DecideResolutionKeeps(db: Db, id: nat, approve: bool, actor: int)
    requires Inv(db) && DoDecideResolution(db, id, approve, actor).Ok?
    ensures Inv(DoDecideResolution(db, id, approve, actor).value)
  {
    assert db.cases[id] in db.cases;
    CaseStepKeeps(db, id, db.cases[id].(status := if approve then ResolutionApproved else ResolutionRejected));
  }

  lemma FilingKeeps(db: Db, id: nat, r: Remittance)
    requires Inv(db) && id < |db.remittances|
    requires var s := db.remittances[id].status; s.Filed? || s.FilingApproved?
    requires r == db.remittances[id].(status := r.status, paymentSubmitter := r.paymentSubmitter)
    requires !r.status.Remitted? && !r.status.RemittanceReversed?
    ensures Inv(SetRemittance(db, id, r))
  {
    assert db.remittances[id] in db.remittances;
    QuietRemittanceKeeps(db, id, r);
  }

  lemma DecideFilingKeeps(db: Db, id: nat, approve: bool, actor: int)
    requires Inv(db) && DoDecideFiling(db, id, approve, actor).Ok?
    ensures Inv(DoDecideFiling(db, id, approve, actor).value)
  {
    FilingKeeps(db, id, db.remittances[id].(status := if approve then FilingApproved else FilingRejected));
  }

  lemma SubmitPaymentKeeps(db: Db, id: nat, actor: int)
    requires Inv(db) && DoSubmitPayment(db, id, actor).Ok?
    ensures Inv(DoSubmitPayment(db, id, actor).value)
  {
    FilingKeeps(db, id, db.remittances[id].(status := PaymentSubmitted, paymentSubmitter := actor));
  }

  lemma QueueKeeps(db: Db, next: Db)
    requires Inv(db) && next == db.(holds := next.holds, reversals := next.reversals)
    ensures Inv(next)
  {
    LedgerStaysOk(db, next);
  }

  // Declarations, funding, dispatch and provider outcomes.
  predicate PayoutCommand(c: Command)
  {
    c.SubmitDeclaration? || c.DecideDeclaration? || c.SubmitFunding? || c.DecideFunding? || c.ClaimPayout?
    || c.MarkSent? || c.MarkUncertain? || c.RecordOutcome?
  }

  lemma PayoutCommandKeeps(db: Db, c: Command)
    requires Inv(db) && PayoutCommand(c) && Perform(db, c).Ok?
    ensures Inv(Next(db, c))
  {
    match c
    case SubmitDeclaration(org, currency, gross, bps, rows, actor) =>
      SubmitDeclarationKeeps(db, org, currency, gross, bps, rows, actor);
    case DecideDeclaration(id, approve, actor) => DecideDeclarationKeeps(db, id, approve, actor);
    case SubmitFunding(declaration, org, observed, actor) => SubmitFundingKeeps(db, declaration, org, observed, actor);
    case DecideFunding(id, approve, observed, destinations, actor) =>
      DecideFundingKeeps(db, id, approve, observed, destinations, actor);
    case ClaimPayout(id) => DispatchKeeps(db, id, db.instructions[id].(status := Dispatching));
    case MarkSent(id, code) => DispatchKeeps(db, id, db.instructions[id].(status := Sent, transferCode := Some(code)));
    case MarkUncertain(id) => DispatchKeeps(db, id, db.instructions[id].(status := Uncertain));
    case RecordOutcome(id, outcome, transferCode, amount, currency, at) =>
      RecordOutcomeKeeps(db, id, outcome, transferCode, amount, currency, at);
  }

  // Exception cases and holds.
  predicate CaseCommand(c: Command)
  {
    c.OpenCase? || c.AddEvidence? || c.ProposeResolution? || c.DecideResolution? || c.ProposeHold? || c.DecideHold?
    || c.ExecuteCase?
  }

  lemma CaseCommandKeeps(db: Db, c: Command)
    requires Inv(db) && CaseCommand(c) && Perform(db, c).Ok?
    ensures Inv(Next(db, c))
  {
    match c
    case OpenCase(payout, actor) => OpenCaseKeeps(db, payout, actor);
    case AddEvidence(id) => AddEvidenceKeeps(db, id);
    case ProposeResolution(id, resolution, actor) => ProposeResolutionKeeps(db, id, resolution, actor);
    case DecideResolution(id, approve, actor) => DecideResolutionKeeps(db, id, approve, actor);
    case ProposeHold(_, _, _) => QueueKeeps(db, Next(db, c));
    case DecideHold(id, approve, actor) => DecideHoldKeeps(db, id, approve, actor);
    case ExecuteCase(id, covered, evidence, destination, at, actor) =>
      ExecuteCaseKeeps(db, id, covered, evidence, destination, at, actor);
  }

  // Tax remittance, and whatever else posts.
  predicate TaxCommand(c: Command)
  {
    c.SubmitRemittance? || c.DecideFiling? || c.SubmitPayment? || c.DecidePayment? || c.ProposeReversal?
    || c.DecideReversal? || c.OtherPosting?
  }

  lemma TaxCommandKeeps(db: Db, c: Command)
    requires Inv(db) && TaxCommand(c) && Perform(db, c).Ok?
    ensures Inv(Next(db, c))
  {
    match c
    case SubmitRemittance(declaration, org, policy, actor) =>
      SubmitRemittanceKeeps(db, declaration, org, policy, actor);
    case DecideFiling(id, approve, actor) => DecideFilingKeeps(db, id, approve, actor);
    case SubmitPayment(id, actor) => SubmitPaymentKeeps(db, id, actor);
    case DecidePayment(id, approve, receipt, at, actor) => DecidePaymentKeeps(db, id, approve, receipt, at, actor);
    case ProposeReversal(_, _) => QueueKeeps(db, Next(db, c));
    case DecideReversal(id, approve, at, actor) => DecideReversalKeeps(db, id, approve, at, actor);
    case OtherPosting(req) => OtherPostingKeeps(db, req);
  }

  // What each kind of command leaves alone.
  lemma PayoutCommandFrame(db: Db, c: Command)
    requires PayoutCommand(c)
    ensures var next := Next(db, c);
            && next.cases == db.cases && next.holds == db.holds && next.remittances == db.remittances
            && next.reversals == db.reversals && next.statements == db.statements
  {
  }

  lemma CaseCommandFrame(db: Db, c: Command)
    requires CaseCommand(c)
    ensures var next := Next(db, c);
            && db.instructions <= next.instructions && next.remittances == db.remittances
            && next.declarations == db.declarations && next.fundings == db.fundings
            && next.reversals == db.reversals && next.statements == db.statements
    ensures var next := Next(db, c);
            forall i :: |db.instructions| <= i < |next.instructions| ==> next.instructions[i].settlement.None?
  {
  }

  lemma TaxCommandFrame(db: Db, c: Command)
    requires !PayoutCommand(c) && !CaseCommand(c)
    ensures var next := Next(db, c);
            && next.instructions == db.instructions && next.cases == db.cases && next.holds == db.holds
            && next.declarations == db.declarations && next.fundings == db.fundings
  {
  }

  /** Every command keeps the invariant. */
  lemma PerformKeeps(db: Db, c: Command)
    requires Inv(db)
    ensures Inv(Next(db, c))
  {
    if Perform(db, c).Ok? {
      if PayoutCommand(c) {
        PayoutCommandKeeps(db, c);
      } else if CaseCommand(c) {
        CaseCommandKeeps(db, c);
      } else {
        TaxCommandKeeps(db, c);
      }
    }
  }

  lemma EmptyIsOk()
    ensures Inv(EMPTY)
  {
  }

  /** The invariant holds after every run. */
  lemma {:induction false} EveryRunKeeps(db: Db, commands: seq<Command>)
    requires Inv(db)
    ensures Inv(After(db, commands))
  {
    if commands != [] {
      EveryRunKeeps(db, commands[..|commands| - 1]);
      PerformKeeps(After(db, commands[..|commands| - 1]), commands[|commands| - 1]);
    }
  }

  ghost predicate Reachable(db: Db) { exists commands :: db == After(EMPTY, commands) }

  lemma ReachableKeeps(db: Db)
    requires Reachable(db)
    ensures Inv(db)
  {
    var commands :| db == After(EMPTY, commands);
    EmptyIsOk();
    EveryRunKeeps(EMPTY, commands);
  }

  lemma StepStaysReachable(db: Db, c: Command)
    requires Reachable(db)
    ensures Reachable(Next(db, c))
  {
    var commands :| db == After(EMPTY, commands);
    assert (commands + [c])[..|commands|] == commands;
    assert Next(db, c) == After(EMPTY, commands + [c]);
  }
}
