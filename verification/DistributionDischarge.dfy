/**
 Who has been paid: an entitlement is discharged by a confirmed payout, a manual settlement or a
 write-off. The code checks that a payout is dead before replacing it, but lets a manual settlement
 be proposed for any case and a write-off for any case whose payout is not uncertain
 (src/platform/postgres-distribution-payouts.ts:256-266). With that check added, nothing is
 discharged twice; without it there are runs that discharge twice, and the check is exact.
 */
module DistributionDischarge {
  import opened Sums
  import opened Distribution
  import opened DistributionInvariant
  import opened DistributionTheorems

  // ---------- the missing guard ----------

  predicate Correcting(r: Resolution) { r.ManualSettlement? || r.WriteOff? }

  // Manual settlements and write-offs are proposed only for failed or reversed payouts.
  predicate Prudent(db: Db, c: Command)
  {
    c.ProposeResolution? && Correcting(c.resolution) && DoProposeResolution(db, c.id, c.resolution, c.actor).Ok?
    ==> Dead(db.instructions[db.cases[c.id].payout].status)
  }

  ghost predicate Guarded(db: Db, commands: seq<Command>)
  {
    commands == [] || (Guarded(db, commands[..|commands| - 1])
                       && Prudent(After(db, commands[..|commands| - 1]), commands[|commands| - 1]))
  }

  ghost predicate ReachablePrudently(db: Db)
  {
    exists commands :: Guarded(EMPTY, commands) && db == After(EMPTY, commands)
  }

  // Every correction, proposed or executed, is of a dead payout.
  ghost predicate Careful(db: Db)
  {
    forall c :: c in db.cases && Corrects(c) ==> c.payout < |db.instructions| && Dead(db.instructions[c.payout].status)
  }

  // ---------- discharges ----------

  datatype Claim = Claim(declaration: nat, entitlement: nat)

  function ClaimOf(p: Instruction): Claim { Claim(p.declaration, p.entitlement) }

  function ClaimCorrected(ps: seq<Instruction>, c: Case): Claim
  {
    if c.payout < |ps| then ClaimOf(ps[c.payout]) else Claim(0, 0)
  }

  function ConfirmedFor(claim: Claim): Instruction -> int
  {
    (p: Instruction) => if p.status.Confirmed? && ClaimOf(p) == claim then 1 else 0
  }

  function CorrectedFor(ps: seq<Instruction>, claim: Claim): Case -> int
  {
    (c: Case) => if c.status.Executed? && Corrects(c) && c.payout < |ps| && ClaimOf(ps[c.payout]) == claim then 1 else 0
  }

  // How many times an entitlement is discharged.
  function Discharges(db: Db, claim: Claim): int
  {
    Sum(db.instructions, ConfirmedFor(claim)) + Sum(db.cases, CorrectedFor(db.instructions, claim))
  }

  ghost predicate PaidOnce(db: Db) { forall claim :: Discharges(db, claim) <= 1 }

  // ---------- carefulness is kept ----------

  lemma CorrectionsComeFromProposals(db: Db, c: Command, k: nat)
    requires k < |Next(db, c).cases| && Corrects(Next(db, c).cases[k])
    requires !(c.ProposeResolution? && c.id == k)
    ensures k < |db.cases| && Corrects(db.cases[k]) && db.cases[k].payout == Next(db, c).cases[k].payout
  {
    if PayoutCommand(c) {
      PayoutCommandFrame(db, c);
    } else if !CaseCommand(c) {
      TaxCommandFrame(db, c);
    }
  }

  lemma CarefulKept(db: Db, c: Command)
    requires Inv(db) && Careful(db) && Prudent(db, c)
    ensures Careful(Next(db, c))
  {
    var next := Next(db, c);
    forall k | 0 <= k < |next.cases| && Corrects(next.cases[k])
      ensures next.cases[k].payout < |next.instructions| && Dead(next.instructions[next.cases[k].payout].status)
    {
      if c.ProposeResolution? && c.id == k && Perform(db, c).Ok? {
        RowsPersist(db, c, db.cases[k].payout);
      } else {
        if !(c.ProposeResolution? && c.id == k) { CorrectionsComeFromProposals(db, c, k); }
        assert db.cases[k] in db.cases;
        RowsPersist(db, c, db.cases[k].payout);
      }
    }
  }

  lemma {:induction false} GuardedRunsStayCareful(db: Db, commands: seq<Command>)
    requires Inv(db) && Careful(db) && Guarded(db, commands)
    ensures Inv(After(db, commands)) && Careful(After(db, commands))
  {
    if commands != [] {
      var n := |commands| - 1;
      GuardedRunsStayCareful(db, commands[..n]);
      PerformKeeps(After(db, commands[..n]), commands[n]);
      CarefulKept(After(db, commands[..n]), commands[n]);
    }
  }

  lemma PrudentRunsAreCareful(db: Db)
    requires ReachablePrudently(db)
    ensures Inv(db) && Careful(db)
  {
    var commands :| Guarded(EMPTY, commands) && db == After(EMPTY, commands);
    EmptyIsOk();
    GuardedRunsStayCareful(EMPTY, commands);
  }

  // ---------- at most once ----------

  lemma ReplacedIsNotCorrected(db: Db, k: nat)
    requires TablesOk(db) && k < |db.cases| && Corrects(db.cases[k])
    ensures !Replaced(db.cases, db.cases[k].payout)
  {
    forall c | c in db.cases && c.payout == db.cases[k].payout ensures c == db.cases[k] {
      var i :| 0 <= i < |db.cases| && db.cases[i] == c;
    }
  }

  lemma ConfirmedOnce(db: Db, claim: Claim)
    requires TablesOk(db)
    ensures var n := Sum(db.instructions, ConfirmedFor(claim));
            0 <= n <= 1 && (n == 1 <==> exists p :: p in db.instructions && ConfirmedFor(claim)(p) == 1)
  {
    forall i, j | 0 <= i < j < |db.instructions| && ConfirmedFor(claim)(db.instructions[i]) == 1
      ensures ConfirmedFor(claim)(db.instructions[j]) == 0
    {
      if ConfirmedFor(claim)(db.instructions[j]) == 1 {
        EntitlementIsOneChain(db, i, j);
      }
    }
    SumOfAtMostOne(db.instructions, ConfirmedFor(claim));
  }

  // A payout with a correcting case is the newest of its entitlement.
  lemma CorrectedIsNewest(db: Db, k: nat, j: nat)
    requires TablesOk(db) && k < |db.cases| && Corrects(db.cases[k])
    requires db.cases[k].payout < j < |db.instructions|
    ensures ClaimOf(db.instructions[db.cases[k].payout]) != ClaimOf(db.instructions[j])
  {
    ReplacedIsNotCorrected(db, k);
    if ClaimOf(db.instructions[db.cases[k].payout]) == ClaimOf(db.instructions[j]) {
      EntitlementIsOneChain(db, db.cases[k].payout, j);
    }
  }

  lemma CorrectedOnce(db: Db, claim: Claim)
    requires TablesOk(db)
    ensures var n := Sum(db.cases, CorrectedFor(db.instructions, claim));
            0 <= n <= 1 && (n == 1 <==> exists c :: c in db.cases && CorrectedFor(db.instructions, claim)(c) == 1)
  {
    var f := CorrectedFor(db.instructions, claim);
    forall a, b | 0 <= a < b < |db.cases| && f(db.cases[a]) == 1 ensures f(db.cases[b]) == 0 {
      if f(db.cases[b]) == 1 {
        if db.cases[a].payout < db.cases[b].payout {
          CorrectedIsNewest(db, a, db.cases[b].payout);
        } else {
          CorrectedIsNewest(db, b, db.cases[a].payout);
        }
      }
    }
    SumOfAtMostOne(db.cases, f);
  }

  lemma NotBoth(db: Db, claim: Claim, i: nat, k: nat)
    requires TablesOk(db) && Careful(db) && i < |db.instructions| && k < |db.cases|
    requires ConfirmedFor(claim)(db.instructions[i]) == 1
    ensures CorrectedFor(db.instructions, claim)(db.cases[k]) == 0
  {
    var c := db.cases[k];
    if CorrectedFor(db.instructions, claim)(c) == 1 {
      assert c in db.cases;
      if i < c.payout {
        EntitlementIsOneChain(db, i, c.payout);
      } else if c.payout < i {
        CorrectedIsNewest(db, k, i);
      }
    }
  }

  lemma DischargedAtMostOnce(db: Db, claim: Claim)
    requires TablesOk(db) && Careful(db)
    ensures 0 <= Discharges(db, claim) <= 1
  {
    ConfirmedOnce(db, claim);
    CorrectedOnce(db, claim);
    if Sum(db.instructions, ConfirmedFor(claim)) == 1 {
      var p :| p in db.instructions && ConfirmedFor(claim)(p) == 1;
      var i :| 0 <= i < |db.instructions| && db.instructions[i] == p;
      forall c | c in db.cases ensures CorrectedFor(db.instructions, claim)(c) != 1 {
        var k :| 0 <= k < |db.cases| && db.cases[k] == c;
        NotBoth(db, claim, i, k);
      }
    }
  }

  /** In every guarded run each entitlement is discharged at most once, however often its payout was replaced. */
  lemma NothingIsPaidTwice(db: Db)
    requires ReachablePrudently(db)
    ensures PaidOnce(db)
  {
    PrudentRunsAreCareful(db);
    forall claim ensures Discharges(db, claim) <= 1 {
      DischargedAtMostOnce(db, claim);
    }
  }
}
