/** What holds in every run of the distribution pipeline. */
module DistributionTheorems {
  import opened Base
  import opened Sums
  import opened Declarations
  import opened Journal
  import opened Distribution
  import opened DistributionInvariant

  // ---------- conservation ----------

  /** Payable, per organization and currency: approved nets less confirmed payouts less executed corrections. */
  lemma PayableConservation(db: Db, org: int, currency: Currency)
    requires Reachable(db)
    ensures Balance(db.ledger.entries, org, DistributionsPayable(currency))
         == Sum(db.declarations, DeclaredNet(org, currency)) - Sum(db.instructions, Paid(org, currency))
            - Sum(db.cases, Corrected(org, currency))
  {
    ReachableKeeps(db);
  }

  /** Withholding liability, per organization and currency: approved tax less what is currently remitted. */
  lemma WithholdingConservation(db: Db, org: int, currency: Currency)
    requires Reachable(db)
    ensures Balance(db.ledger.entries, org, WithholdingTax(currency))
         == Sum(db.declarations, DeclaredTax(org, currency)) - Sum(db.remittances, RemittedTax(org, currency))
  {
    ReachableKeeps(db);
  }

  /** The pipeline's ledger is a ledger of balanced journals, one per key, debits equal to credits in every currency. */
  lemma PipelineLedgerBalances(db: Db, currency: Currency)
    requires Reachable(db)
    ensures var entries := db.ledger.entries;
            && (forall e :: e in entries ==> Valid(e))
            && Sum(entries, DebitsIn(currency)) == Sum(entries, CreditsIn(currency))
            && forall i, j :: 0 <= i < j < |entries| ==> !HasKey(entries[j], entries[i].scope, entries[i].key)
  {
    ReachableKeeps(db);
    SoundLedgerBalances(db.ledger.entries, currency);
  }

  // ---------- fresh keys ----------

  // A successful outcome posts a settlement in these states only.
  predicate Settles(s: PayoutStatus) { !s.Confirmed? && !Dead(s) }

  predicate Absent(l: Ledger, key: Key) { forall e :: e in l.entries ==> e.key != key }

  /**
   In every reachable state the status guards make the key of each journal the pipeline is about to post
   absent from the ledger, so no pipeline post is ever a replay or a key conflict.
   */
  lemma GuardsMakeKeysFresh(db: Db)
    requires Reachable(db)
    ensures forall d :: 0 <= d < |db.declarations| && db.declarations[d].status.Submitted? ==>
                          Absent(db.ledger, DeclarationKey(d))
    ensures forall p :: 0 <= p < |db.instructions| && Settles(db.instructions[p].status) ==>
                          Absent(db.ledger, SettlementKey(p))
    ensures forall p :: 0 <= p < |db.instructions| && db.instructions[p].status.Confirmed? ==>
                          Absent(db.ledger, ReversalKey(p))
    ensures forall c :: 0 <= c < |db.cases| && db.cases[c].status.ResolutionApproved? ==>
                          Absent(db.ledger, ExceptionKey(c))
    ensures forall r :: 0 <= r < |db.remittances| && db.remittances[r].status.PaymentSubmitted? ==>
                          Absent(db.ledger, RemittanceKey(r))
    ensures forall r :: 0 <= r < |db.remittances| && db.remittances[r].status.Remitted? ==>
                          Absent(db.ledger, RemittanceReversalKey(r))
  {
    ReachableKeeps(db);
    forall r | 0 <= r < |db.remittances| && db.remittances[r].status.PaymentSubmitted?
      ensures Absent(db.ledger, RemittanceKey(r))
    {
      assert db.remittances[r] in db.remittances;
    }
  }

  // A two-line journal under an absent key, reversing nothing, always posts.
  lemma FreshTransferPosts(l: Ledger, org: int, key: Key, currency: Currency, at: int, from: Code, to: Code,
                           amount: int)
    requires Sound(l) && Absent(l, key) && 0 < amount <= MAX_MINOR
    ensures EnsureAndPost(l, Transfer(org, key, currency, at, None, from, to, amount)).Ok?
  {
    var req := Transfer(org, key, currency, at, None, from, to, amount);
    SumOfTwo(req.postings[0], req.postings[1], DebitOf());
    SumOfTwo(req.postings[0], req.postings[1], CreditOf());
    assert Valid(req);
    FaultlessIsValid(req);
  }

  /** Approving a submitted declaration, by someone else, succeeds exactly when less than everything is withheld. */
  lemma ApprovalSucceedsExactly(db: Db, id: nat, actor: int)
    requires Reachable(db) && id < |db.declarations| && db.declarations[id].status.Submitted?
    requires db.declarations[id].submitter != actor
    ensures DoDecideDeclaration(db, id, true, actor).Ok? <==> db.declarations[id].bps < FULL_BPS
  {
    ReachableKeeps(db);
    GuardsMakeKeysFresh(db);
    var d := db.declarations[id];
    assert d in db.declarations;
    var req := DeclarationJournal(id, d);
    ApprovalJournalValidates(id, d);
    FaultlessIsValid(req);
    var ensured := EnsureAccounts(db.ledger, req.org, AccountsFor(req));
    assert Resolved(ensured, req);
  }

  // ---------- journal ids stored on rows ----------

  ghost predicate Moved(entries: seq<Request>, journal: nat, org: int, key: Key, from: Code, to: Code, amount: int)
  {
    && journal < |entries| && entries[journal].org == org && entries[journal].key == key
    && entries[journal].postings == [Posting(from, Debit, amount), Posting(to, Credit, amount)]
  }

  ghost predicate SettlementLinked(entries: seq<Request>, i: nat, p: Instruction)
  {
    p.settlement.Some? ==>
      Moved(entries, p.settlement.value, p.org, SettlementKey(i), DistributionsPayable(p.currency),
            PayoutClearing(p.currency), p.amount)
  }

  ghost predicate RemittanceLinked(entries: seq<Request>, i: nat, r: Remittance)
  {
    r.journal.Some? ==>
      Moved(entries, r.journal.value, r.org, RemittanceKey(i), WithholdingTax(r.currency),
            TaxRemittanceClearing(r.currency), r.amount)
  }

  ghost predicate PayoutsLinked(entries: seq<Request>, ps: seq<Instruction>)
  {
    forall i :: 0 <= i < |ps| ==> SettlementLinked(entries, i, ps[i])
  }

  ghost predicate RemittancesLinked(entries: seq<Request>, rs: seq<Remittance>)
  {
    forall i :: 0 <= i < |rs| ==> RemittanceLinked(entries, i, rs[i])
  }

  // The journal ids stored on payouts and remittances are those of their own journals.
  ghost predicate LinksOk(entries: seq<Request>, ps: seq<Instruction>, rs: seq<Remittance>)
  {
    PayoutsLinked(entries, ps) && RemittancesLinked(entries, rs)
  }

  lemma LinksSurvivePosting(entries: seq<Request>, later: seq<Request>, ps: seq<Instruction>, rs: seq<Remittance>)
    requires LinksOk(entries, ps, rs) && entries <= later
    ensures LinksOk(later, ps, rs)
  {
    forall i | 0 <= i < |ps| ensures SettlementLinked(later, i, ps[i]) { assert SettlementLinked(entries, i, ps[i]); }
    forall i | 0 <= i < |rs| ensures RemittanceLinked(later, i, rs[i]) { assert RemittanceLinked(entries, i, rs[i]); }
  }

  lemma PostOnlyGrows(l: Ledger, req: Request)
    ensures Post(l, req).Ok? ==> l.entries <= Post(l, req).value.ledger.entries
  {
  }

  lemma LedgerOnlyGrows(db: Db, c: Command)
    ensures db.ledger.entries <= Next(db, c).ledger.entries
  {
    forall l: Ledger, req | l.entries == db.ledger.entries
      ensures Post(l, req).Ok? ==> db.ledger.entries <= Post(l, req).value.ledger.entries
    {
      PostOnlyGrows(l, req);
    }
  }

  lemma LinksKept(db: Db, c: Command)
    requires Inv(db) && LinksOk(db.ledger.entries, db.instructions, db.remittances)
    ensures LinksOk(Next(db, c).ledger.entries, Next(db, c).instructions, Next(db, c).remittances)
  {
    LedgerOnlyGrows(db, c);
    var next := Next(db, c);
    LinksSurvivePosting(db.ledger.entries, next.ledger.entries, db.instructions, db.remittances);
    if PayoutCommand(c) {
      PayoutCommandFrame(db, c);
      PayoutsStayLinked(db, c);
    } else if CaseCommand(c) {
      CaseCommandFrame(db, c);
      UnsettledStayLinked(next.ledger.entries, db.instructions, next.instructions);
    } else {
      TaxCommandFrame(db, c);
      RemittancesStayLinked(db, c);
    }
  }

  lemma UnsettledStayLinked(entries: seq<Request>, ps: seq<Instruction>, more: seq<Instruction>)
    requires PayoutsLinked(entries, ps) && ps <= more && forall i :: |ps| <= i < |more| ==> more[i].settlement.None?
    ensures PayoutsLinked(entries, more)
  {
    forall i | 0 <= i < |more| ensures SettlementLinked(entries, i, more[i]) {
      assert i < |ps| ==> SettlementLinked(entries, i, ps[i]);
    }
  }

  lemma SettlementIsLinked(db: Db, id: nat, at: int)
    requires Inv(db) && id < |db.instructions| && !db.instructions[id].status.Confirmed?
    requires !Dead(db.instructions[id].status)
    requires EnsureAndPost(db.ledger, SettlementJournal(id, db.instructions[id], at)).Ok?
    ensures var posted := EnsureAndPost(db.ledger, SettlementJournal(id, db.instructions[id], at)).value;
            var p := db.instructions[id];
            Moved(posted.ledger.entries, posted.journal, p.org, SettlementKey(id), DistributionsPayable(p.currency),
                  PayoutClearing(p.currency), p.amount)
  {
    assert db.instructions[id] in db.instructions;
    FreshPost(db.ledger, SettlementJournal(id, db.instructions[id], at));
  }

  lemma OtherPayoutsUntouched(db: Db, c: Command)
    requires PayoutCommand(c) && !c.RecordOutcome?
    ensures var next := Next(db, c);
            && |db.instructions| <= |next.instructions|
            && (forall i :: 0 <= i < |db.instructions| ==>
                              var q := next.instructions[i];
                              q == db.instructions[i].(status := q.status, transferCode := q.transferCode))
            && (forall i :: |db.instructions| <= i < |next.instructions| ==> next.instructions[i].settlement.None?)
  {
  }

  lemma OutcomeStaysLinked(db: Db, c: Command)
    requires Inv(db) && c.RecordOutcome? && PayoutsLinked(Next(db, c).ledger.entries, db.instructions)
    ensures PayoutsLinked(Next(db, c).ledger.entries, Next(db, c).instructions)
  {
    var next := Next(db, c);
    if next != db {
      if c.outcome.Success? { SettlementIsLinked(db, c.id, c.at); }
      forall i | 0 <= i < |next.instructions| ensures SettlementLinked(next.ledger.entries, i, next.instructions[i]) {
        assert SettlementLinked(next.ledger.entries, i, db.instructions[i]);
      }
    }
  }

  lemma PayoutsStayLinked(db: Db, c: Command)
    requires Inv(db) && PayoutCommand(c) && PayoutsLinked(Next(db, c).ledger.entries, db.instructions)
    ensures PayoutsLinked(Next(db, c).ledger.entries, Next(db, c).instructions)
  {
    if c.RecordOutcome? {
      OutcomeStaysLinked(db, c);
    } else {
      OtherPayoutsUntouched(db, c);
      var next := Next(db, c);
      forall i | 0 <= i < |next.instructions| ensures SettlementLinked(next.ledger.entries, i, next.instructions[i]) {
        assert i < |db.instructions| ==> SettlementLinked(next.ledger.entries, i, db.instructions[i]);
      }
    }
  }

  lemma RemittanceIsLinked(db: Db, id: nat, at: int)
    requires Inv(db) && id < |db.remittances| && db.remittances[id].status.PaymentSubmitted?
    requires EnsureAndPost(db.ledger, RemittanceJournal(id, db.remittances[id], at)).Ok?
    ensures var posted := EnsureAndPost(db.ledger, RemittanceJournal(id, db.remittances[id], at)).value;
            var r := db.remittances[id];
            Moved(posted.ledger.entries, posted.journal, r.org, RemittanceKey(id), WithholdingTax(r.currency),
                  TaxRemittanceClearing(r.currency), r.amount)
  {
    assert db.remittances[id] in db.remittances;
    FreshPost(db.ledger, RemittanceJournal(id, db.remittances[id], at));
  }

  lemma RemittancesStayLinked(db: Db, c: Command)
    requires Inv(db) && !PayoutCommand(c) && !CaseCommand(c)
    requires RemittancesLinked(Next(db, c).ledger.entries, db.remittances)
    ensures RemittancesLinked(Next(db, c).ledger.entries, Next(db, c).remittances)
  {
    var next := Next(db, c);
    if c.DecidePayment? && c.approve && Perform(db, c).Ok? {
      RemittanceIsLinked(db, c.id, c.at);
    }
    forall i | 0 <= i < |next.remittances| ensures RemittanceLinked(next.ledger.entries, i, next.remittances[i]) {
      assert i < |db.remittances| ==> RemittanceLinked(next.ledger.entries, i, db.remittances[i]);
    }
  }

  lemma {:induction false} EveryRunLinks(commands: seq<Command>)
    ensures var db := After(EMPTY, commands); LinksOk(db.ledger.entries, db.instructions, db.remittances)
  {
    if commands != [] {
      var n := |commands| - 1;
      EveryRunLinks(commands[..n]);
      EmptyIsOk();
      EveryRunKeeps(EMPTY, commands[..n]);
      LinksKept(After(EMPTY, commands[..n]), commands[n]);
    }
  }

  lemma ReachableLinks(db: Db)
    requires Reachable(db)
    ensures LinksOk(db.ledger.entries, db.instructions, db.remittances)
  {
    var commands :| db == After(EMPTY, commands);
    EveryRunLinks(commands);
  }

  /**
   In every run a remittance has active investor statements only while it is remitted; what they certify as
   withheld then adds up to the amount its own journal took off the withholding account, and otherwise to nothing.
   */
  lemma StatementsFollowRemittances(db: Db, r: nat)
    requires Reachable(db) && r < |db.remittances|
    ensures var req := db.remittances[r];
            && (forall s :: s in db.statements && s.remittance == r && s.active ==> req.status.Remitted?)
            && (!req.status.Remitted? ==> Sum(db.statements, ActiveWithheld(r)) == 0)
            && (req.status.Remitted? ==>
                  && req.journal.Some?
                  && Moved(db.ledger.entries, req.journal.value, req.org, RemittanceKey(r),
                           WithholdingTax(req.currency), TaxRemittanceClearing(req.currency),
                           Sum(db.statements, ActiveWithheld(r))))
  {
    ReachableKeeps(db);
    ReachableLinks(db);
    assert db.remittances[r] in db.remittances;
    assert RemittanceLinked(db.ledger.entries, r, db.remittances[r]);
    if !db.remittances[r].status.Remitted? {
      SumBounds(db.statements, ActiveWithheld(r), 0, 0);
    }
  }

  // ---------- payout chains ----------

  // The instruction a chain of replacements starts from.
  function Root(ps: seq<Instruction>, i: nat): (r: nat)
    requires i < |ps|
    ensures r <= i
  {
    if ps[i].supersedes.Some? && ps[i].supersedes.value < i then Root(ps, ps[i].supersedes.value) else i
  }

  lemma {:induction false} RootsChain(ps: seq<Instruction>, i: nat)
    requires i < |ps| && forall j :: 0 <= j < |ps| ==> ReplacesEarlier(ps, j)
    ensures SameChain(ps[Root(ps, i)], ps[i])
  {
    assert ReplacesEarlier(ps, i);
    if ps[i].supersedes.Some? {
      RootsChain(ps, ps[i].supersedes.value);
    }
  }

  /** Within each chain of replacements at most one instruction is neither failed nor reversed, and it is the newest. */
  lemma OneLivePayoutPerChain(db: Db, i: nat, j: nat)
    requires Reachable(db) && i < j < |db.instructions| && Root(db.instructions, i) == Root(db.instructions, j)
    ensures Dead(db.instructions[i].status)
  {
    ReachableKeeps(db);
    RootsChain(db.instructions, i);
    RootsChain(db.instructions, j);
    assert SameChain(db.instructions[i], db.instructions[j]);
  }

  // With one active funding request per declaration, payouts of one entitlement are one chain.
  lemma EntitlementIsOneChain(db: Db, i: nat, j: nat)
    requires TablesOk(db) && i < |db.instructions| && j < |db.instructions|
    requires db.instructions[i].declaration == db.instructions[j].declaration
    requires db.instructions[i].entitlement == db.instructions[j].entitlement
    ensures SameChain(db.instructions[i], db.instructions[j])
  {
    assert db.instructions[i] in db.instructions && db.instructions[j] in db.instructions;
  }

  /** No investor's entitlement ever has two live payouts, whatever was funded, replaced or retried. */
  lemma OneLivePayoutPerEntitlement(db: Db, i: nat, j: nat)
    requires Reachable(db) && i < j < |db.instructions|
    requires var ps := db.instructions; ps[i].declaration == ps[j].declaration && ps[i].entitlement == ps[j].entitlement
    ensures Dead(db.instructions[i].status)
  {
    ReachableKeeps(db);
    EntitlementIsOneChain(db, i, j);
  }

  predicate SameEntitlement(p: Instruction, q: Instruction)
  {
    p.declaration == q.declaration && p.entitlement == q.entitlement
  }

  // Of the payouts of one entitlement only the last may be live.
  ghost predicate OneLiveEach(ps: seq<Instruction>)
  {
    forall i, j :: 0 <= i < j < |ps| && SameEntitlement(ps[i], ps[j]) ==> Dead(ps[i].status)
  }

  lemma ReachableIsOneLiveEach(db: Db)
    requires Reachable(db)
    ensures OneLiveEach(db.instructions)
  {
    var ps := db.instructions;
    forall i, j | 0 <= i < j < |ps| && SameEntitlement(ps[i], ps[j]) ensures Dead(ps[i].status) {
      OneLivePayoutPerEntitlement(db, i, j);
    }
  }

  lemma RowsPersist(db: Db, c: Command, i: nat)
    requires i < |db.instructions|
    ensures i < |Next(db, c).instructions|
    ensures var p, q := db.instructions[i], Next(db, c).instructions[i];
            q == if Dead(p.status) then p
            else p.(status := q.status, transferCode := q.transferCode, settlement := q.settlement)
  {
    if CaseCommand(c) {
      CaseCommandFrame(db, c);
    } else if !PayoutCommand(c) {
      TaxCommandFrame(db, c);
    }
  }

  /** Failed and reversed are final: such a payout is never touched again, in any continuation. */
  lemma {:induction false} DeadStaysDead(db: Db, commands: seq<Command>, i: nat)
    requires i < |db.instructions| && Dead(db.instructions[i].status)
    ensures i < |After(db, commands).instructions| && After(db, commands).instructions[i] == db.instructions[i]
  {
    if commands != [] {
      var n := |commands| - 1;
      DeadStaysDead(db, commands[..n], i);
      RowsPersist(After(db, commands[..n]), commands[n], i);
    }
  }

  // ---------- funding ----------

  /**
   When a funding request is approved, everything unsettled, the new instructions included, is covered by the
   provider balance that was observed; the new instructions pay out exactly the funded amount.
   */
  lemma FundingIsCovered(db: Db, id: nat, observed: int, destinations: bool, actor: int)
    requires Reachable(db) && id < |db.fundings| && db.fundings[id].status.Submitted?
    requires DoDecideFunding(db, id, true, observed, destinations, actor).Ok?
    ensures var next := DoDecideFunding(db, id, true, observed, destinations, actor).value;
            && Sum(next.instructions, Reserved()) <= observed
            && Sum(next.instructions, Reserved()) == Sum(db.instructions, Reserved()) + db.fundings[id].amount
  {
    ReachableKeeps(db);
    var f := db.fundings[id];
    assert f in db.fundings;
    var d := db.declarations[f.declaration];
    assert d in db.declarations;
    var added := NewInstructions(id, f, d.entitlements);
    SumOfConcat(db.instructions, added, Reserved());
    SumsAgree(added, d.entitlements, Reserved(), Net());
  }
}
