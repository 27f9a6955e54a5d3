/**
 Governance while accounts of the older identity authority are still projected into the tables
 (src/platform/postgres-identities.ts:260-318). A projection writes role and status of its identity outside governance:
 it neither counts administrators nor revokes capabilities.
 */
module LegacyProjection {
  import opened Base
  import G = Governance
  import Theorems = GovernanceTheorems
  import Effects = GovernanceEffects

  // `legacy` gives the identity that an account of the older authority is bound to.
  datatype World = World(base: G.State, legacy: map<string, nat>)

  datatype Move =
    | Govern(op: G.Op)
    | Project(account: string, email: string, role: G.Role, status: G.Status)

  // ---------- steps ----------

  predicate Bound(w: World, account: string, id: nat) { account in w.legacy && w.legacy[account] == id }

  // The address belongs to an identity that is not bound to this account.
  predicate Taken(w: World, account: string, email: string)
  {
    exists i :: 0 <= i < |w.base.identities| && w.base.identities[i].email == email && !Bound(w, account, i)
  }

  // INSERT ... ON CONFLICT (legacy_mongo_id) DO UPDATE, then every other global role is revoked and this one inserted.
  function DoProject(w: World, account: string, email: string, role: G.Role, status: G.Status): Result<World, G.Refusal>
  {
    var s := w.base;
    var identity := G.Identity(email, status);
    if Taken(w, account, email) then Err(G.Conflict)
    else if account in w.legacy && w.legacy[account] < |s.identities| then
      var id := w.legacy[account];
      Ok(w.(base := s.(identities := s.identities[id := identity], assignments := G.SetRole(s.assignments, id, role))))
    else
      var id := |s.identities|;
      Ok(World(s.(identities := s.identities + [identity], assignments := s.assignments[(id, role) := true]),
               w.legacy[account := id]))
  }

  function Next(w: World, m: Move): World
  {
    match m
    case Govern(op) => w.(base := G.Next(w.base, op))
    case Project(account, email, role, status) => Committed(w, DoProject(w, account, email, role, status))
  }

  function After(w: World, moves: seq<Move>): World
  {
    if moves == [] then w else Next(After(w, moves[..|moves| - 1]), moves[|moves| - 1])
  }

  function Start(definitions: set<G.Capability>): World { World(G.Initial(definitions), map[]) }

  // The identity is the projected account: its address and status, the one role, and the capabilities it had.
  ghost predicate Projected(w: World, next: World, m: Move, id: nat)
  {
    && m.Project? && id < |next.base.identities| && Bound(next, m.account, id)
    && next.base.identities[id] == G.Identity(m.email, m.status) && G.ActiveRoles(next.base, id) == {m.role}
    && next.base.capabilities == w.base.capabilities
    && forall i :: 0 <= i < |w.base.identities| && i != id ==>
                     && i < |next.base.identities| && next.base.identities[i] == w.base.identities[i]
                     && G.ActiveRoles(next.base, i) == G.ActiveRoles(w.base, i)
  }

  /**
   A projection is refused exactly when the address belongs to another account's identity; otherwise the account's own
   identity, a new one if it has none, becomes what was projected, and no other changes.
   */
  lemma ProjectsExactly(w: World, m: Move)
    requires m.Project? && Theorems.RolesOk(w.base)
    ensures DoProject(w, m.account, m.email, m.role, m.status).Ok? <==> !Taken(w, m.account, m.email)
    ensures !Taken(w, m.account, m.email) ==>
              var n := |w.base.identities|;
              if m.account in w.legacy && w.legacy[m.account] < n then
                Projected(w, Next(w, m), m, w.legacy[m.account]) && |Next(w, m).base.identities| == n
              else Projected(w, Next(w, m), m, n) && |Next(w, m).base.identities| == n + 1
  {
    if !Taken(w, m.account, m.email) {
      var s, next := w.base, Next(w, m).base;
      if m.account in w.legacy && w.legacy[m.account] < |s.identities| {
        var moved := s.(assignments := next.assignments);
        forall i | 0 <= i < |s.identities|
          ensures G.ActiveRoles(next, i) == if i == w.legacy[m.account] then {m.role} else G.ActiveRoles(s, i)
        {
          Theorems.SetRoleLeavesOne(s, w.legacy[m.account], m.role, i);
          assert G.ActiveRoles(next, i) == G.ActiveRoles(moved, i);
        }
      } else {
        Effects.NewRole(s, next, m.role);
      }
    }
  }

  // ---------- what a projection may do ----------

  // The projection takes the role or the status of an active administrator away.
  predicate Demotes(w: World, m: Move)
  {
    && m.Project? && !Taken(w, m.account, m.email) && m.account in w.legacy
    && G.IsActiveAdministrator(w.base, w.legacy[m.account]) && (!m.role.Admin? || m.status.Disabled?)
  }

  // That administrator holds a capability, or governance needs it for its two.
  predicate Harms(w: World, m: Move)
  {
    && Demotes(w, m)
    && ((exists p :: p in w.base.capabilities && p.0 == w.legacy[m.account])
        || (w.base.isSealed && |G.Administrators(w.base)| <= 2))
  }

  lemma UpdatedIdentity(w: World, m: Move)
    requires Theorems.RolesOk(w.base) && m.Project? && !Taken(w, m.account, m.email)
    requires m.account in w.legacy && w.legacy[m.account] < |w.base.identities|
    ensures var s, next, id := w.base, Next(w, m).base, w.legacy[m.account];
            && Theorems.RolesOk(next) && |next.identities| == |s.identities|
            && (G.IsActiveAdministrator(next, id) <==> m.role.Admin? && m.status.Active?)
            && forall i :: i != id ==> (G.IsActiveAdministrator(next, i) <==> G.IsActiveAdministrator(s, i))
  {
    var s, next, id := w.base, Next(w, m).base, w.legacy[m.account];
    var moved := s.(assignments := next.assignments);
    forall i: nat
      ensures i < |s.identities| ==> |G.ActiveRoles(next, i)| == 1
      ensures i != id ==> (G.HoldsRole(next, i, G.Admin) <==> G.HoldsRole(s, i, G.Admin))
    {
      Theorems.SetRoleLeavesOne(s, id, m.role, i);
      assert G.ActiveRoles(next, i) == G.ActiveRoles(moved, i);
    }
    assert G.HoldsRole(next, id, G.Admin) <==> m.role.Admin?;
  }

  lemma ProjectionOfBoundAccount(w: World, m: Move)
    requires Theorems.Inv(w.base) && m.Project? && !Taken(w, m.account, m.email)
    requires m.account in w.legacy && w.legacy[m.account] < |w.base.identities|
    ensures Harms(w, m) ==> !Theorems.Operable(Next(w, m).base)
    ensures !Harms(w, m) ==> Theorems.Inv(Next(w, m).base)
  {
    UpdatedIdentity(w, m);
    var s, next, id := w.base, Next(w, m).base, w.legacy[m.account];
    if Demotes(w, m) {
      assert G.Administrators(next) == G.Administrators(s) - {id};
    } else {
      assert G.Administrators(s) <= G.Administrators(next);
      Theorems.SubsetIsSmaller(G.Administrators(s), G.Administrators(next));
    }
  }

  lemma ProjectionOfNewAccount(w: World, m: Move)
    requires Theorems.Inv(w.base) && m.Project? && !Taken(w, m.account, m.email)
    requires !(m.account in w.legacy && w.legacy[m.account] < |w.base.identities|)
    ensures Theorems.Inv(Next(w, m).base)
  {
    var s, next := w.base, Next(w, m).base;
    Theorems.NewIdentityHasOneRole(s, m.role, next);
    assert G.Administrators(s) <= G.Administrators(next);
    Theorems.SubsetIsSmaller(G.Administrators(s), G.Administrators(next));
  }

  lemma StepIsExact(w: World, m: Move)
    requires Theorems.Inv(w.base)
    ensures Harms(w, m) ==> !Theorems.Operable(Next(w, m).base)
    ensures !Harms(w, m) ==> Theorems.Inv(Next(w, m).base)
  {
    if m.Govern? {
      Theorems.PerformKeeps(w.base, m.op);
    } else if !Taken(w, m.account, m.email) {
      if m.account in w.legacy && w.legacy[m.account] < |w.base.identities| {
        ProjectionOfBoundAccount(w, m);
      } else {
        ProjectionOfNewAccount(w, m);
      }
    }
  }

  // ---------- runs ----------

  ghost predicate Guarded(w: World, moves: seq<Move>)
  {
    moves == [] || (Guarded(w, moves[..|moves| - 1]) && !Harms(After(w, moves[..|moves| - 1]), moves[|moves| - 1]))
  }

  ghost predicate AlwaysOperable(w: World, moves: seq<Move>)
  {
    Theorems.Operable(After(w, moves).base) && (moves == [] || AlwaysOperable(w, moves[..|moves| - 1]))
  }

  lemma {:induction false} GuardedRunsKeep(w: World, moves: seq<Move>)
    requires Theorems.Inv(w.base) && Guarded(w, moves)
    ensures Theorems.Inv(After(w, moves).base)
  {
    if moves != [] {
      var n := |moves| - 1;
      GuardedRunsKeep(w, moves[..n]);
      StepIsExact(After(w, moves[..n]), moves[n]);
    }
  }

  /**
   With projections in between, governance stays operable throughout a run if and only if no projection demotes an
   administrator who holds a capability or is one of the last two.
   */
  lemma {:induction false} ProjectionIsExact(definitions: set<G.Capability>, moves: seq<Move>)
    ensures AlwaysOperable(Start(definitions), moves) <==> Guarded(Start(definitions), moves)
  {
    var start := Start(definitions);
    if moves != [] {
      var n := |moves| - 1;
      ProjectionIsExact(definitions, moves[..n]);
      if Guarded(start, moves[..n]) {
        GuardedRunsKeep(start, moves[..n]);
        StepIsExact(After(start, moves[..n]), moves[n]);
      }
    }
  }

  /** In such runs a capability that two administrators hold never drops below two. */
  lemma {:induction false} QuorumSurvivesProjection(w: World, moves: seq<Move>, capability: G.Capability)
    requires Theorems.Inv(w.base) && Guarded(w, moves) && |G.Holders(w.base, capability)| >= 2
    ensures |G.Holders(After(w, moves).base, capability)| >= 2
    ensures G.Holders(After(w, moves).base, capability) <= G.Administrators(After(w, moves).base)
  {
    GuardedRunsKeep(w, moves);
    if moves != [] {
      var n := |moves| - 1;
      QuorumSurvivesProjection(w, moves[..n], capability);
      GuardedRunsKeep(w, moves[..n]);
      var last := After(w, moves[..n]);
      if moves[n].Govern? {
        Theorems.StepKeepsQuorum(last.base, moves[n].op, capability);
      } else {
        assert Next(last, moves[n]).base.capabilities == last.base.capabilities;
        assert G.Holders(Next(last, moves[n]).base, capability) == G.Holders(last.base, capability);
      }
    }
  }

  // ---------- a run that needs the guard ----------

  const INVESTOR := G.Other("investor")
  const PROMOTED := Project("7", "m", G.Admin, G.Active)
  const DEMOTED := Project("7", "m", INVESTOR, G.Active)

  predicate Uses(s: G.State, email: string) { exists i :: i in s.identities && i.email == email }

  lemma {:induction false} ProvisionAppends(s: G.State, emails: seq<string>, other: string)
    requires !Uses(s, other) && other !in emails
    ensures var next := G.Provision(s, emails); !Uses(next, other) && next.changes == s.changes
  {
    if emails != [] {
      ProvisionAppends(s, emails[..|emails| - 1], other);
    }
  }

  // So many administrators and nobody else; the address `m` is free or bound to the account, which lacks `x`.
  ghost predicate Ready(w: World, n: nat)
  {
    && Theorems.Inv(w.base) && |w.base.identities| == n && w.base.changes == [] && "x" in w.base.definitions
    && (forall i :: 0 <= i < n ==> G.IsActiveAdministrator(w.base, i))
    && !Taken(w, "7", "m") && (3, "x") !in w.base.capabilities
  }

  lemma CohortIsReady(s: G.State, emails: seq<string>)
    requires s == G.Initial({"x"}) && |emails| == 3 && "m" !in emails
    requires emails[0] != emails[1] && emails[0] != emails[2] && emails[1] != emails[2]
    ensures Ready(World(G.Next(s, G.Bootstrap(emails)), map[]), 3)
  {
    var cohort := G.Provision(s, emails);
    var next := G.Next(s, G.Bootstrap(emails));
    Theorems.ProvisionMakesCohort(s, emails);
    Theorems.BootstrapKeeps(s, emails);
    ProvisionAppends(s, emails, "m");
    forall i | 0 <= i < 3 ensures G.IsActiveAdministrator(next, i) && next.identities[i].email != "m" {
      assert G.IsActiveAdministrator(cohort, i) && cohort.identities[i] in cohort.identities;
    }
    assert !G.IsActiveAdministrator(next, 3);
  }

  lemma Promoted(w: World)
    requires Ready(w, 3) && w.legacy == map[]
    ensures var next := Next(w, PROMOTED); Ready(next, 4) && next.legacy == map["7" := 3]
  {
    var next := Next(w, PROMOTED);
    StepIsExact(w, PROMOTED);
    assert next.base.assignments == w.base.assignments[(3, G.Admin) := true];
    forall i | 0 <= i < 4 ensures G.IsActiveAdministrator(next.base, i) {
      assert i < 3 ==> G.IsActiveAdministrator(w.base, i);
    }
  }

  lemma Granted(w: World)
    requires Ready(w, 4) && w.legacy == map["7" := 3]
    ensures var next := Next(Next(w, Govern(G.CreateChange(0, 3, "x", true))), Govern(G.DecideChange(0, true, 1)));
            Theorems.Inv(next.base) && Harms(next, DEMOTED)
  {
    var asked := Next(w, Govern(G.CreateChange(0, 3, "x", true)));
    var request := G.CapabilityRequest(3, "x", true, false, 0, G.Pending);
    assert G.IsActiveAdministrator(w.base, 0) && G.IsActiveAdministrator(w.base, 1);
    assert G.IsActiveAdministrator(w.base, 3);
    assert asked == w.(base := w.base.(changes := [request]));
    var next := Next(asked, Govern(G.DecideChange(0, true, 1)));
    assert asked.base.changes[0] == request && !G.Enabled(asked.base, 3, "x");
    assert G.IsActiveAdministrator(asked.base, 0) && G.IsActiveAdministrator(asked.base, 1);
    assert G.IsActiveAdministrator(asked.base, 3);
    assert G.DoDecideChange(asked.base, 0, true, 1).Ok?;
    assert (3, "x") in next.base.capabilities && G.IsActiveAdministrator(next.base, 3);
    StepIsExact(w, Govern(G.CreateChange(0, 3, "x", true)));
    StepIsExact(asked, Govern(G.DecideChange(0, true, 1)));
  }

  lemma OneMore(w: World, moves: seq<Move>, m: Move)
    ensures After(w, moves + [m]) == Next(After(w, moves), m)
  {
    assert (moves + [m])[..|moves|] == moves;
  }

  lemma ThreeMore(w: World, moves: seq<Move>, a: Move, b: Move, c: Move)
    ensures After(w, moves + [a] + [b]) == Next(Next(After(w, moves), a), b)
    ensures After(w, moves + [a] + [b] + [c]) == Next(Next(Next(After(w, moves), a), b), c)
  {
    OneMore(w, moves, a);
    OneMore(w, moves + [a], b);
    OneMore(w, moves + [a] + [b], c);
  }

  lemma ReadyIsReached() returns (moves: seq<Move>)
    ensures var w := After(Start({"x"}), moves); Ready(w, 4) && w.legacy == map["7" := 3]
  {
    var start := Start({"x"});
    var emails := ["a", "b", "c"];
    CohortIsReady(start.base, emails);
    OneMore(start, [], Govern(G.Bootstrap(emails)));
    moves := [] + [Govern(G.Bootstrap(emails))];
    Promoted(After(start, moves));
    OneMore(start, moves, PROMOTED);
    moves := moves + [PROMOTED];
  }

  lemma ReadyBreaks(start: World, moves: seq<Move>)
    requires var w := After(start, moves); Ready(w, 4) && w.legacy == map["7" := 3]
    ensures exists run :: !Theorems.Operable(After(start, run).base)
  {
    var ask, grant := Govern(G.CreateChange(0, 3, "x", true)), Govern(G.DecideChange(0, true, 1));
    Granted(After(start, moves));
    ThreeMore(start, moves, ask, grant, DEMOTED);
    StepIsExact(After(start, moves + [ask] + [grant]), DEMOTED);
  }

  /** As the code stands, projecting an account again can leave a capability with someone who is no administrator. */
  lemma ProjectionBreaksGovernance()
    ensures exists definitions, moves :: !Theorems.Operable(After(Start(definitions), moves).base)
  {
    var moves := ReadyIsReached();
    ReadyBreaks(Start({"x"}), moves);
  }
}
