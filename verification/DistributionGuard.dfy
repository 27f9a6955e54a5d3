/**
 The guard on manual settlements and write-offs is exact: an accepted proposal can lead to a second
 discharge if and only if the payout was not dead when it was proposed.
 */
module DistributionGuard {
  import opened Sums
  import opened Allocation
  import opened Declarations
  import opened Journal
  import opened Distribution
  import opened DistributionInvariant
  import opened DistributionTheorems
  import opened DistributionDischarge

  // ---------- runs in parts ----------

  lemma {:induction false} RunsCompose(db: Db, a: seq<Command>, b: seq<Command>)
    ensures After(db, a + b) == After(After(db, a), b)
  {
    if b == [] {
      assert a + b == a;
    } else {
      var n := |b| - 1;
      RunsCompose(db, a, b[..n]);
      assert (a + b)[..|a + b| - 1] == a + b[..n];
    }
  }

  lemma {:induction false} GuardedRunsCompose(db: Db, a: seq<Command>, b: seq<Command>)
    requires Guarded(db, a) && Guarded(After(db, a), b)
    ensures Guarded(db, a + b)
  {
    if b == [] {
      assert a + b == a;
    } else {
      var n := |b| - 1;
      GuardedRunsCompose(db, a, b[..n]);
      RunsCompose(db, a, b[..n]);
      assert (a + b)[..|a + b| - 1] == a + b[..n];
    }
  }

  lemma OneStep(db: Db, c: Command)
    ensures After(db, [c]) == Next(db, c)
    ensures !c.ProposeResolution? ==> Guarded(db, [c])
  {
    assert [c][..0] == [];
  }

  lemma TwoSteps(db: Db, a: Command, b: Command)
    ensures After(db, [a, b]) == Next(Next(db, a), b)
  {
    OneStep(db, a);
    assert [a, b][..1] == [a];
  }

  lemma GuardedPair(db: Db, a: Command, b: Command)
    requires !a.ProposeResolution? && !b.ProposeResolution?
    ensures Guarded(db, [a, b])
  {
    OneStep(db, a);
    assert [a, b][..1] == [a];
  }

  // ---------- holds ----------

  // A pending hold request asks for a change, and a case has at most one.
  ghost predicate HoldsOk(db: Db)
  {
    && (forall h :: h in db.holds ==>
                      h.case_ < |db.cases| && (h.status.Submitted? ==> h.place != db.cases[h.case_].held))
    && forall i, j :: 0 <= i < j < |db.holds| && db.holds[i].status.Submitted? && db.holds[j].status.Submitted? ==>
                        db.holds[i].case_ != db.holds[j].case_
  }

  lemma HeldChangesByDecisionOnly(db: Db, c: Command, k: nat)
    requires k < |db.cases|
    ensures k < |Next(db, c).cases|
    ensures !c.DecideHold? ==> Next(db, c).cases[k].held == db.cases[k].held
  {
    if PayoutCommand(c) {
      PayoutCommandFrame(db, c);
    } else if !CaseCommand(c) {
      TaxCommandFrame(db, c);
    }
  }

  lemma HoldRequestsPersist(db: Db, c: Command)
    ensures !c.DecideHold? && !c.ProposeHold? ==> Next(db, c).holds == db.holds
  {
    if PayoutCommand(c) {
      PayoutCommandFrame(db, c);
    } else if !CaseCommand(c) {
      TaxCommandFrame(db, c);
    }
  }

  lemma ProposedHoldKept(db: Db, case_: nat, place: bool, actor: int)
    requires HoldsOk(db) && DoProposeHold(db, case_, place, actor).Ok?
    ensures HoldsOk(DoProposeHold(db, case_, place, actor).value)
  {
    forall i | 0 <= i < |db.holds| && db.holds[i].status.Submitted? ensures db.holds[i].case_ != case_ {
      assert db.holds[i] in db.holds;
    }
  }

  lemma DecidedHoldKept(db: Db, id: nat, approve: bool, actor: int)
    requires HoldsOk(db) && DoDecideHold(db, id, approve, actor).Ok?
    ensures HoldsOk(DoDecideHold(db, id, approve, actor).value)
  {
    var next := DoDecideHold(db, id, approve, actor).value;
    forall h | h in next.holds
      ensures h.case_ < |next.cases| && (h.status.Submitted? ==> h.place != next.cases[h.case_].held)
    {
      var k :| 0 <= k < |next.holds| && next.holds[k] == h;
      assert db.holds[k] in db.holds;
    }
  }

  lemma HoldsKept(db: Db, c: Command)
    requires HoldsOk(db)
    ensures HoldsOk(Next(db, c))
  {
    if c.ProposeHold? && Perform(db, c).Ok? {
      ProposedHoldKept(db, c.case_, c.place, c.actor);
    } else if c.DecideHold? && Perform(db, c).Ok? {
      DecidedHoldKept(db, c.id, c.approve, c.actor);
    } else {
      HoldRequestsPersist(db, c);
      forall h | h in db.holds
        ensures h.case_ < |Next(db, c).cases| && Next(db, c).cases[h.case_].held == db.cases[h.case_].held
      {
        HeldChangesByDecisionOnly(db, c, h.case_);
      }
    }
  }

  lemma {:induction false} EveryRunHolds(commands: seq<Command>)
    ensures HoldsOk(After(EMPTY, commands))
  {
    if commands != [] {
      EveryRunHolds(commands[..|commands| - 1]);
      HoldsKept(After(EMPTY, commands[..|commands| - 1]), commands[|commands| - 1]);
    }
  }

  lemma ReachableHolds(db: Db)
    requires Reachable(db)
    ensures HoldsOk(db)
  {
    var commands :| db == After(EMPTY, commands);
    EveryRunHolds(commands);
  }

  /** A hold can always be lifted: the pending request to release it is approved, or one is made and approved. */
  lemma LiftHold(db: Db, id: nat) returns (more: seq<Command>)
    requires HoldsOk(db) && id < |db.cases| && db.cases[id].status.ResolutionApproved?
    ensures Guarded(db, more)
    ensures After(db, more) == db.(holds := After(db, more).holds,
                               cases := db.cases[id := db.cases[id].(held := false)])
  {
    if !db.cases[id].held {
      more := [];
      assert db.cases == db.cases[id := db.cases[id].(held := false)];
    } else if h :| h in db.holds && h.case_ == id && h.status.Submitted? {
      var k :| 0 <= k < |db.holds| && db.holds[k] == h;
      var c := DecideHold(k, true, h.preparedBy + 1);
      more := [c];
      OneStep(db, c);
    } else {
      var a, b := ProposeHold(id, false, 0), DecideHold(|db.holds|, true, 1);
      more := [a, b];
      TwoSteps(db, a, b);
      GuardedPair(db, a, b);
    }
  }

  // ---------- a second discharge ----------

  lemma ConfirmedCounts(ps: seq<Instruction>, i: nat)
    requires i < |ps| && ps[i].status.Confirmed?
    ensures Sum(ps, ConfirmedFor(ClaimOf(ps[i]))) >= 1
  {
    PartAtMostSum(ps, ConfirmedFor(ClaimOf(ps[i])), i);
  }

  lemma CorrectionCounts(ps: seq<Instruction>, cs: seq<Case>, k: nat)
    requires k < |cs| && cs[k].status.Executed? && Corrects(cs[k]) && cs[k].payout < |ps|
    ensures Sum(cs, CorrectedFor(ps, ClaimOf(ps[cs[k].payout]))) >= 1
  {
    PartAtMostSum(cs, CorrectedFor(ps, ClaimOf(ps[cs[k].payout])), k);
  }

  // An approved correction that is not on hold can be executed.
  lemma CorrectionExecutes(db: Db, id: nat)
    requires Inv(db) && id < |db.cases| && db.cases[id].status.ResolutionApproved? && Corrects(db.cases[id])
    requires !db.cases[id].held
    ensures var next := Next(db, ExecuteCase(id, true, true, true, 0, db.cases[id].preparedBy + 1));
            next == db.(ledger := next.ledger, cases := db.cases[id := db.cases[id].(status := Executed)])
  {
    var c := db.cases[id];
    assert c in db.cases;
    var p := db.instructions[c.payout];
    assert p in db.instructions;
    AmountsArePayable(db, c.payout);
    assert Absent(db.ledger, ExceptionKey(id));
    FreshTransferPosts(db.ledger, c.org, ExceptionKey(id), p.currency, 0, DistributionsPayable(p.currency),
                       CorrectionCode(c.resolution.value, p.currency), p.amount);
  }

  lemma AmountsArePayable(db: Db, i: nat)
    requires TablesOk(db) && i < |db.instructions|
    ensures 0 < db.instructions[i].amount <= MAX_SAFE_INTEGER <= MAX_MINOR
  {
    var p := db.instructions[i];
    assert p in db.instructions;
    var f := db.fundings[p.funding];
    assert f in db.fundings;
    var d := db.declarations[f.declaration];
    assert d in db.declarations;
    assert d.entitlements[p.entitlement] in d.entitlements;
    PartAtMostSum(d.entitlements, Net(), p.entitlement);
  }

  // A provider can always report success for an uncertain payout.
  lemma UncertainSettles(db: Db, i: nat)
    requires Inv(db) && i < |db.instructions| && db.instructions[i].status.Uncertain?
    ensures EnsureAndPost(db.ledger, SettlementJournal(i, db.instructions[i], 0)).Ok?
    ensures 0 < db.instructions[i].amount <= MAX_SAFE_INTEGER
  {
    var p := db.instructions[i];
    AmountsArePayable(db, i);
    assert Absent(db.ledger, SettlementKey(i));
    FreshTransferPosts(db.ledger, p.org, SettlementKey(i), p.currency, 0, DistributionsPayable(p.currency),
                       PayoutClearing(p.currency), p.amount);
  }

  lemma UncertainConfirms(db: Db, i: nat) returns (c: Command)
    requires Inv(db) && i < |db.instructions| && db.instructions[i].status.Uncertain?
    ensures !c.ProposeResolution?
    ensures var next := Next(db, c);
            && next.cases == db.cases && |next.instructions| == |db.instructions|
            && next.instructions[i].status.Confirmed?
            && forall k :: 0 <= k < |db.instructions| ==> ClaimOf(next.instructions[k]) == ClaimOf(db.instructions[k])
  {
    var p := db.instructions[i];
    UncertainSettles(db, i);
    var code := if p.transferCode.Some? then p.transferCode.value else 0;
    c := RecordOutcome(i, Success, code, p.amount, p.currency, 0);
  }

  ghost predicate CanPayTwice(db: Db) { exists more :: Guarded(db, more) && !PaidOnce(After(db, more)) }

  lemma LaterIsEnough(db: Db, first: seq<Command>)
    requires Guarded(db, first) && CanPayTwice(After(db, first))
    ensures CanPayTwice(db)
  {
    var more :| Guarded(After(db, first), more) && !PaidOnce(After(After(db, first), more));
    GuardedRunsCompose(db, first, more);
    RunsCompose(db, first, more);
  }

  lemma PaidTwiceNow(db: Db, i: nat, k: nat)
    requires i < |db.instructions| && db.instructions[i].status.Confirmed?
    requires k < |db.cases| && db.cases[k].status.Executed? && Corrects(db.cases[k]) && db.cases[k].payout == i
    ensures CanPayTwice(db)
  {
    ConfirmedCounts(db.instructions, i);
    CorrectionCounts(db.instructions, db.cases, k);
    assert Discharges(db, ClaimOf(db.instructions[i])) >= 2;
    assert Guarded(db, []) && !PaidOnce(After(db, []));
  }

  lemma ExecutedPaysTwice(db: Db, id: nat)
    requires Inv(db) && id < |db.cases| && db.cases[id].status.Executed? && Corrects(db.cases[id])
    requires db.cases[id].payout < |db.instructions| && !Dead(db.instructions[db.cases[id].payout].status)
    ensures CanPayTwice(db)
  {
    var i := db.cases[id].payout;
    assert db.cases[id] in db.cases;
    if db.instructions[i].status.Confirmed? {
      PaidTwiceNow(db, i, id);
    } else {
      var settle := UncertainConfirms(db, i);
      OneStep(db, settle);
      PaidTwiceNow(Next(db, settle), i, id);
      LaterIsEnough(db, [settle]);
    }
  }

  lemma ApprovedPaysTwice(db: Db, id: nat)
    requires Inv(db) && id < |db.cases| && db.cases[id].status.ResolutionApproved? && Corrects(db.cases[id])
    requires !db.cases[id].held
    requires db.cases[id].payout < |db.instructions| && !Dead(db.instructions[db.cases[id].payout].status)
    ensures CanPayTwice(db)
  {
    var execute := ExecuteCase(id, true, true, true, 0, db.cases[id].preparedBy + 1);
    CorrectionExecutes(db, id);
    PerformKeeps(db, execute);
    OneStep(db, execute);
    ExecutedPaysTwice(Next(db, execute), id);
    LaterIsEnough(db, [execute]);
  }

  lemma HeldPaysTwice(db: Db, id: nat)
    requires Inv(db) && HoldsOk(db) && id < |db.cases| && db.cases[id].status.ResolutionApproved?
    requires Corrects(db.cases[id])
    requires db.cases[id].payout < |db.instructions| && !Dead(db.instructions[db.cases[id].payout].status)
    ensures CanPayTwice(db)
  {
    var lift := LiftHold(db, id);
    EveryRunKeeps(db, lift);
    ApprovedPaysTwice(After(db, lift), id);
    LaterIsEnough(db, lift);
  }

  /** A correction proposed while its payout may still succeed, or has, can be carried through to a second discharge. */
  lemma ProposedCorrectionPaysTwice(db: Db, id: nat)
    requires Inv(db) && HoldsOk(db) && id < |db.cases| && db.cases[id].status.DecisionPending? && Corrects(db.cases[id])
    requires db.cases[id].payout < |db.instructions| && !Dead(db.instructions[db.cases[id].payout].status)
    ensures CanPayTwice(db)
  {
    var decide := DecideResolution(id, true, db.cases[id].preparedBy + 1);
    OneStep(db, decide);
    PerformKeeps(db, decide);
    HoldsKept(db, decide);
    HeldPaysTwice(Next(db, decide), id);
    LaterIsEnough(db, [decide]);
  }

  lemma CarefulNeverPaysTwice(db: Db)
    requires Inv(db) && Careful(db)
    ensures !CanPayTwice(db)
  {
    forall more | Guarded(db, more) ensures PaidOnce(After(db, more)) {
      GuardedRunsStayCareful(db, more);
      forall claim ensures Discharges(After(db, more), claim) <= 1 { DischargedAtMostOnce(After(db, more), claim); }
    }
  }

  lemma PrudentRunsHold(db: Db)
    requires ReachablePrudently(db)
    ensures HoldsOk(db)
  {
    ReachableHolds(db);
  }

  /**
   From any state a guarded run reaches, the code's acceptance of a manual settlement or write-off opens a guarded
   continuation that discharges something twice exactly when the payout is neither failed nor reversed.
   */
  lemma GuardIsExact(db: Db, id: nat, resolution: Resolution, actor: int)
    requires ReachablePrudently(db) && Correcting(resolution) && DoProposeResolution(db, id, resolution, actor).Ok?
    ensures CanPayTwice(DoProposeResolution(db, id, resolution, actor).value)
       <==> !Dead(db.instructions[db.cases[id].payout].status)
  {
    PrudentRunsAreCareful(db);
    PrudentRunsHold(db);
    var propose := ProposeResolution(id, resolution, actor);
    PerformKeeps(db, propose);
    if Dead(db.instructions[db.cases[id].payout].status) {
      CarefulKept(db, propose);
      CarefulNeverPaysTwice(Next(db, propose));
    } else {
      HoldsKept(db, propose);
      ProposedCorrectionPaysTwice(Next(db, propose), id);
    }
  }

  // ---------- a run that needs the guard ----------

  // One investor, one payout whose outcome the provider never confirmed, and a manual settlement.
  const ONE_ROW := Row(7, 1, 100, 0)
  const SETUP: seq<Command> := [
    SubmitDeclaration(1, PAYOUT_CURRENCY, 100, 0, [ONE_ROW], 1), DecideDeclaration(0, true, 2),
    SubmitFunding(0, 1, 100, 1), DecideFunding(0, true, 100, true, 2),
    ClaimPayout(0), MarkUncertain(0), OpenCase(0, 1), AddEvidence(0)
  ]

  lemma OneRowIsAnAllocation()
    ensures IsAllocation(100, [ONE_ROW])
  {
    SumOfOneMore([], ONE_ROW, BalanceOf());
    SumOfOneMore([], ONE_ROW, GrossOf());
    assert [] + [ONE_ROW] == [ONE_ROW];
  }

  const ONE_ENTITLEMENT := Entitlement(7, 1, 100, 0, 100)

  lemma Declared(db: Db)
    requires db == Next(EMPTY, SETUP[0])
    ensures db == EMPTY.(declarations :=
                  [Declaration(1, PAYOUT_CURRENCY, 100, 0, 0, 100, [ONE_ENTITLEMENT], 1, Submitted)])
  {
    OneRowIsAnAllocation();
    assert TaxSplit([ONE_ROW], 0) == [ONE_ENTITLEMENT];
    SumOfOneMore([], ONE_ENTITLEMENT, Tax());
    assert [] + [ONE_ENTITLEMENT] == [ONE_ENTITLEMENT];
  }

  lemma DeclaredAndApproved(db: Db)
    requires db == After(EMPTY, SETUP[..2])
    ensures |db.declarations| == 1 && db.fundings == [] && db.instructions == [] && db.cases == []
    ensures var d := db.declarations[0];
            d.status.Approved? && d.org == 1 && d.currency == PAYOUT_CURRENCY && d.net == 100
            && d.entitlements == [ONE_ENTITLEMENT]
  {
    assert SETUP[..2] == [SETUP[0], SETUP[1]];
    TwoSteps(EMPTY, SETUP[0], SETUP[1]);
    var first := Next(EMPTY, SETUP[0]);
    Declared(first);
    OneStep(EMPTY, SETUP[0]);
    assert Reachable(first) by { assert first == After(EMPTY, [SETUP[0]]); }
    ApprovalSucceedsExactly(first, 0, 2);
  }

  lemma FundedAndApproved(db: Db, next: Db)
    requires |db.declarations| == 1 && db.fundings == [] && db.instructions == [] && db.cases == []
    requires var d := db.declarations[0];
             d.status.Approved? && d.org == 1 && d.currency == PAYOUT_CURRENCY && d.net == 100
             && d.entitlements == [ONE_ENTITLEMENT]
    requires next == After(db, SETUP[2..4])
    ensures |next.instructions| == 1 && next.instructions[0].status.Authorized? && next.cases == []
  {
    assert SETUP[2..4] == [SETUP[2], SETUP[3]];
    TwoSteps(db, SETUP[2], SETUP[3]);
    var first := Next(db, SETUP[2]);
    assert first.fundings == [Funding(1, 0, 100, 1, Submitted)];
  }

  lemma DispatchedAndLost(db: Db, next: Db)
    requires |db.instructions| == 1 && db.instructions[0].status.Authorized? && db.cases == []
    requires next == After(db, SETUP[4..6])
    ensures |next.instructions| == 1 && next.instructions[0].status.Uncertain? && next.cases == []
  {
    assert SETUP[4..6] == [SETUP[4], SETUP[5]];
    TwoSteps(db, SETUP[4], SETUP[5]);
  }

  lemma CaseOpened(db: Db, next: Db)
    requires |db.instructions| == 1 && db.instructions[0].status.Uncertain? && db.cases == []
    requires next == After(db, SETUP[6..])
    ensures next.instructions == db.instructions && |next.cases| == 1 && next.cases[0].status.EvidenceSubmitted?
    ensures next.cases[0].payout == 0
  {
    assert SETUP[6..] == [SETUP[6], SETUP[7]];
    TwoSteps(db, SETUP[6], SETUP[7]);
  }

  lemma SetupReachesUncertainCase(db: Db)
    requires db == After(EMPTY, SETUP)
    ensures |db.cases| == 1 && |db.instructions| == 1 && db.cases[0].status.EvidenceSubmitted?
    ensures db.cases[0].payout == 0 && db.instructions[0].status.Uncertain?
  {
    var declared := After(EMPTY, SETUP[..2]);
    var funded := After(declared, SETUP[2..4]);
    var lost := After(funded, SETUP[4..6]);
    DeclaredAndApproved(declared);
    FundedAndApproved(declared, funded);
    DispatchedAndLost(funded, lost);
    CaseOpened(lost, After(lost, SETUP[6..]));
    assert SETUP == SETUP[..2] + SETUP[2..4] + SETUP[4..6] + SETUP[6..];
    RunsCompose(EMPTY, SETUP[..2], SETUP[2..4]);
    RunsCompose(EMPTY, SETUP[..2] + SETUP[2..4], SETUP[4..6]);
    RunsCompose(EMPTY, SETUP[..2] + SETUP[2..4] + SETUP[4..6], SETUP[6..]);
  }

  lemma {:induction false} GuardedWithoutProposals(db: Db, commands: seq<Command>)
    requires forall c :: c in commands ==> !c.ProposeResolution?
    ensures Guarded(db, commands)
  {
    if commands != [] {
      GuardedWithoutProposals(db, commands[..|commands| - 1]);
      assert commands[|commands| - 1] in commands;
    }
  }

  lemma SetupCanPayTwice(db: Db)
    requires db == After(EMPTY, SETUP)
    ensures CanPayTwice(Next(db, ProposeResolution(0, ManualSettlement, 1)))
  {
    SetupReachesUncertainCase(db);
    GuardedWithoutProposals(EMPTY, SETUP);
    GuardIsExact(db, 0, ManualSettlement, 1);
  }

  /** As the code stands, some run discharges an entitlement twice. */
  lemma CodeAdmitsDoubleDischarge()
    ensures exists db :: Reachable(db) && !PaidOnce(db)
  {
    var db := After(EMPTY, SETUP);
    var propose := ProposeResolution(0, ManualSettlement, 1);
    SetupCanPayTwice(db);
    var next := Next(db, propose);
    var more :| Guarded(next, more) && !PaidOnce(After(next, more));
    OneStep(db, propose);
    RunsCompose(EMPTY, SETUP, [propose]);
    RunsCompose(EMPTY, SETUP + [propose], more);
    var paidTwice := After(EMPTY, SETUP + [propose] + more);
    assert Reachable(paidTwice);
  }
}
