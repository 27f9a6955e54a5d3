/** What every run of administrator governance keeps, from bootstrap on. */
module GovernanceTheorems {
  import opened Base
  import opened Governance

  // ---------- invariant ----------

  // Every identity has exactly one active global role.
  ghost predicate RolesOk(s: State)
  {
    && (forall i :: 0 <= i < |s.identities| ==> |ActiveRoles(s, i)| == 1)
    && (forall k :: k in s.assignments ==> k.0 < |s.identities|)
  }

  // Capabilities are held by active administrators only.
  ghost predicate CapabilitiesOk(s: State) { forall p :: p in s.capabilities ==> IsActiveAdministrator(s, p.0) }

  // Requests were made by someone else, about a state they could change.
  ghost predicate AccessOk(s: State)
  {
    forall r :: r in s.access ==>
                  && r.requester != r.target && r.target < |s.identities|
                  && (r.change.ChangeRole? || r.change.Suspend? ==> r.priorStatus.Active?)
                  && (r.change.ChangeRole? ==> r.proposed.Some?)
  }

  // From bootstrap on there are at least two administrators.
  ghost predicate QuorumOk(s: State) { s.isSealed ==> |Administrators(s)| >= 2 }

  ghost predicate Inv(s: State) { RolesOk(s) && CapabilitiesOk(s) && AccessOk(s) && QuorumOk(s) }

  // ---------- sets ----------

  lemma {:induction false} SubsetIsSmaller<T>(a: set<T>, b: set<T>)
    requires a <= b
    ensures |a| <= |b|
  {
    if a != {} {
      var x :| x in a;
      SubsetIsSmaller(a - {x}, b - {x});
    }
  }

  lemma TwoAreTwo(s: set<nat>, a: nat, b: nat)
    requires a in s && b in s && a != b
    ensures |s| >= 2
  {
    SubsetIsSmaller({a, b}, s);
  }

  lemma ThreeAreThree(s: set<nat>, a: nat, b: nat, c: nat)
    requires a in s && b in s && c in s && a != b && a != c && b != c
    ensures |s| >= 3
  {
    SubsetIsSmaller({a, b, c}, s);
  }

  // ---------- roles ----------

  lemma RoleIsTheOne(s: State, id: nat)
    requires RolesOk(s) && id < |s.identities|
    ensures RoleOf(s, id).Ok? && ActiveRoles(s, id) == {RoleOf(s, id).value}
    ensures RoleOf(s, id).value.Admin? <==> HoldsRole(s, id, Admin)
  {
    var role := RoleOf(s, id).value;
    forall r | r in ActiveRoles(s, id) ensures r == role { OnlyOne(ActiveRoles(s, id), r, role); }
    assert HoldsRole(s, id, Admin) <==> Admin in ActiveRoles(s, id);
  }

  lemma SetRoleLeavesOne(s: State, id: nat, role: Role, other: nat)
    ensures var next := s.(assignments := SetRole(s.assignments, id, role));
            && ActiveRoles(next, id) == {role}
            && (other != id ==> ActiveRoles(next, other) == ActiveRoles(s, other))
            && (other != id ==> (HoldsRole(next, other, Admin) <==> HoldsRole(s, other, Admin)))
  {
    var next := s.(assignments := SetRole(s.assignments, id, role));
    assert (id, role) in next.assignments;
    forall r ensures r in ActiveRoles(next, id) <==> r == role {
      if r == role { assert ((id, role)).1 == role; }
    }
    if other != id {
      forall r ensures r in ActiveRoles(next, other) <==> r in ActiveRoles(s, other) {
        assert (other, r) in s.assignments <==> (other, r) in next.assignments;
      }
    }
  }

  lemma NewIdentityHasOneRole(s: State, role: Role, next: State)
    requires RolesOk(s) && next.assignments == s.assignments[(|s.identities|, role) := true]
    requires |next.identities| == |s.identities| + 1
    ensures RolesOk(next)
    ensures forall i :: 0 <= i < |s.identities| ==> (HoldsRole(next, i, Admin) <==> HoldsRole(s, i, Admin))
  {
    var n := |s.identities|;
    forall i | 0 <= i < |next.identities| ensures |ActiveRoles(next, i)| == 1 {
      if i == n {
        assert (n, role) in next.assignments;
        assert ActiveRoles(next, n) == {role};
      } else {
        forall r ensures r in ActiveRoles(next, i) <==> r in ActiveRoles(s, i) {
          assert (i, r) in s.assignments <==> (i, r) in next.assignments;
        }
        assert ActiveRoles(next, i) == ActiveRoles(s, i);
      }
    }
  }

  // ---------- access changes ----------

  /**
   Maker-checker makes the explicit count redundant: when a change that removes an administrator gets that far,
   requester, reviewer and target are three different active administrators.
   */
  lemma ThreeAdministratorsTakePart(s: State, id: nat, actor: nat)
    requires Inv(s) && id < |s.access| && s.access[id].status.Pending?
    requires IsActiveAdministrator(s, actor) && s.access[id].requester != actor && s.access[id].target != actor
    requires IsActiveAdministrator(s, s.access[id].requester)
    requires RoleOf(s, s.access[id].target).Ok? && s.identities[s.access[id].target].status == s.access[id].priorStatus
    requires RemovesAdministrator(s.access[id], RoleOf(s, s.access[id].target).value)
    ensures |Administrators(s)| >= 3 && IsActiveAdministrator(s, s.access[id].target)
  {
    var r := s.access[id];
    assert r in s.access;
    RoleIsTheOne(s, r.target);
    ThreeAreThree(Administrators(s), actor, r.requester, r.target);
  }

  lemma AppliedRoleKeeps(s: State, id: nat, actor: nat)
    requires Inv(s) && DoDecideAccess(s, id, true, actor).Ok? && s.access[id].change.ChangeRole?
    ensures var next := DoDecideAccess(s, id, true, actor).value; RolesOk(next) && CapabilitiesOk(next)
    ensures forall i :: 0 <= i < |s.identities| && i != s.access[id].target ==>
                          (IsActiveAdministrator(DoDecideAccess(s, id, true, actor).value, i)
                           <==> IsActiveAdministrator(s, i))
  {
    var next := DoDecideAccess(s, id, true, actor).value;
    var r := s.access[id];
    assert r in s.access;
    var role := r.proposed.value;
    SetRoleLeavesOne(s, r.target, role, r.target);
    assert next.assignments == SetRole(s.assignments, r.target, role);
    var moved := s.(assignments := next.assignments);
    forall i | 0 <= i < |s.identities| && i != r.target
      ensures ActiveRoles(next, i) == ActiveRoles(s, i) && (HoldsRole(next, i, Admin) <==> HoldsRole(s, i, Admin))
    {
      SetRoleLeavesOne(s, r.target, role, i);
      assert ActiveRoles(next, i) == ActiveRoles(moved, i);
    }
    assert ActiveRoles(next, r.target) == ActiveRoles(moved, r.target);
  }

  lemma AppliedStatusKeeps(s: State, id: nat, actor: nat)
    requires Inv(s) && DoDecideAccess(s, id, true, actor).Ok? && !s.access[id].change.ChangeRole?
    ensures var next := DoDecideAccess(s, id, true, actor).value; RolesOk(next) && CapabilitiesOk(next)
    ensures forall i :: 0 <= i < |s.identities| && i != s.access[id].target ==>
                          (IsActiveAdministrator(DoDecideAccess(s, id, true, actor).value, i)
                           <==> IsActiveAdministrator(s, i))
  {
    var next := DoDecideAccess(s, id, true, actor).value;
    assert s.access[id] in s.access;
    assert next.assignments == s.assignments;
    forall i | 0 <= i < |s.identities| ensures ActiveRoles(next, i) == ActiveRoles(s, i) {}
  }

  lemma DecideAccessKeeps(s: State, id: nat, approve: bool, actor: nat)
    requires Inv(s) && DoDecideAccess(s, id, approve, actor).Ok?
    ensures Inv(DoDecideAccess(s, id, approve, actor).value)
  {
    var next := DoDecideAccess(s, id, approve, actor).value;
    var r := s.access[id];
    assert r in s.access;
    if approve {
      if r.change.ChangeRole? { AppliedRoleKeeps(s, id, actor); } else { AppliedStatusKeeps(s, id, actor); }
      assert IsActiveAdministrator(next, actor) && IsActiveAdministrator(next, r.requester);
      TwoAreTwo(Administrators(next), actor, r.requester);
    } else {
      assert forall i :: 0 <= i < |s.identities| ==> ActiveRoles(next, i) == ActiveRoles(s, i);
      assert Administrators(next) == Administrators(s);
    }
    forall q | q in next.access ensures q.requester != q.target && q.target < |next.identities|
                                        && (q.change.ChangeRole? || q.change.Suspend? ==> q.priorStatus.Active?)
                                        && (q.change.ChangeRole? ==> q.proposed.Some?)
    {
      assert q in s.access || q == next.access[id];
    }
  }

  // ---------- the other operations ----------

  // Nothing but queues and capabilities moved: the administrators are the same.
  lemma SamePeople(s: State, next: State)
    requires Inv(s) && next.identities == s.identities && next.assignments == s.assignments
    requires next.isSealed == s.isSealed
    requires AccessOk(next) && forall p :: p in next.capabilities ==> IsActiveAdministrator(s, p.0)
    ensures Inv(next)
  {
    assert forall i :: 0 <= i < |s.identities| ==> ActiveRoles(next, i) == ActiveRoles(s, i);
    assert Administrators(next) == Administrators(s);
  }

  lemma RegisterKeeps(s: State, email: string, role: Role)
    requires Inv(s) && DoRegister(s, email, role).Ok?
    ensures Inv(DoRegister(s, email, role).value)
  {
    var next := DoRegister(s, email, role).value;
    NewIdentityHasOneRole(s, role, next);
    assert Administrators(s) <= Administrators(next);
    SubsetIsSmaller(Administrators(s), Administrators(next));
  }

  ghost predicate Cohort(s: State, first: nat)
  {
    && RolesOk(s) && CapabilitiesOk(s) && AccessOk(s)
    && (forall i :: first <= i < |s.identities| ==> IsActiveAdministrator(s, i))
    && (forall c, i :: c in s.definitions && first <= i < |s.identities| ==> (i, c) in s.capabilities)
  }

  lemma ProvisionOneExtends(s: State, email: string, first: nat)
    requires Cohort(s, first) && first <= |s.identities|
    ensures Cohort(ProvisionOne(s, email), first)
  {
    var next := ProvisionOne(s, email);
    NewIdentityHasOneRole(s, Admin, next);
    assert HoldsRole(next, |s.identities|, Admin);
    forall i | 0 <= i < |s.identities| && IsActiveAdministrator(s, i) ensures IsActiveAdministrator(next, i) {
      assert HoldsRole(next, i, Admin) <==> HoldsRole(s, i, Admin);
    }
  }

  lemma {:induction false} ProvisionMakesCohort(s: State, emails: seq<string>)
    requires RolesOk(s) && CapabilitiesOk(s) && AccessOk(s)
    ensures var next := Provision(s, emails);
            && Cohort(next, |s.identities|) && s.capabilities <= next.capabilities
            && |next.identities| == |s.identities| + |emails| && next.definitions == s.definitions
  {
    if emails != [] {
      var n := |emails| - 1;
      ProvisionMakesCohort(s, emails[..n]);
      ProvisionOneExtends(Provision(s, emails[..n]), emails[n], |s.identities|);
    }
  }

  lemma BootstrapKeeps(s: State, emails: seq<string>)
    requires Inv(s) && DoBootstrap(s, emails).Ok?
    ensures Inv(DoBootstrap(s, emails).value)
  {
    ProvisionMakesCohort(s, emails);
    var next := DoBootstrap(s, emails).value;
    var n := |s.identities|;
    var cohort := Provision(s, emails);
    assert forall i :: 0 <= i < |next.identities| ==> ActiveRoles(next, i) == ActiveRoles(cohort, i);
    assert forall i :: 0 <= i < |next.identities| ==>
                         (IsActiveAdministrator(next, i) <==> IsActiveAdministrator(cohort, i));
    TwoAreTwo(Administrators(next), n, n + 1);
  }

  lemma CreateAccessKeeps(s: State, actor: nat, target: nat, change: Change, proposed: Option<Role>)
    requires Inv(s) && DoCreateAccess(s, actor, target, change, proposed).Ok?
    ensures Inv(DoCreateAccess(s, actor, target, change, proposed).value)
  {
    SamePeople(s, DoCreateAccess(s, actor, target, change, proposed).value);
  }

  lemma DecideChangeKeeps(s: State, id: nat, approve: bool, actor: nat)
    requires Inv(s) && DoDecideChange(s, id, approve, actor).Ok?
    ensures Inv(DoDecideChange(s, id, approve, actor).value)
  {
    SamePeople(s, DoDecideChange(s, id, approve, actor).value);
  }

  lemma ApproveRecoveryKeeps(s: State, id: nat, approvedBy: string, key: string, now: int)
    requires Inv(s) && DoApproveRecovery(s, id, approvedBy, key, now).Ok?
    ensures Inv(DoApproveRecovery(s, id, approvedBy, key, now).value)
  {
    var next := DoApproveRecovery(s, id, approvedBy, key, now).value;
    var r := s.recoveries[id];
    if r.expiresAt <= now {
      SamePeople(s, next);
    } else {
      var moved := s.(assignments := next.assignments);
      forall i | 0 <= i < |s.identities|
        ensures |ActiveRoles(next, i)| == 1 && (IsActiveAdministrator(s, i) ==> IsActiveAdministrator(next, i))
      {
        SetRoleLeavesOne(s, r.target, Admin, i);
        assert ActiveRoles(next, i) == ActiveRoles(moved, i);
      }
      assert Administrators(s) <= Administrators(next);
      SubsetIsSmaller(Administrators(s), Administrators(next));
      forall q | q in next.access ensures q.requester != q.target && q.target < |next.identities|
                                          && (q.change.ChangeRole? || q.change.Suspend? ==> q.priorStatus.Active?)
                                          && (q.change.ChangeRole? ==> q.proposed.Some?)
      {
        var k :| 0 <= k < |next.access| && next.access[k] == q;
        assert s.access[k] in s.access;
      }
    }
  }

  lemma PerformKeeps(s: State, op: Op)
    requires Inv(s)
    ensures Inv(Next(s, op))
  {
    if Perform(s, op).Ok? {
      match op
      case Register(email, role) => RegisterKeeps(s, email, role);
      case Define(_) => SamePeople(s, Next(s, op));
      case Retire(_) => SamePeople(s, Next(s, op));
      case Bootstrap(emails) => BootstrapKeeps(s, emails);
      case CreateAccess(actor, target, change, proposed) => CreateAccessKeeps(s, actor, target, change, proposed);
      case DecideAccess(id, approve, actor) => DecideAccessKeeps(s, id, approve, actor);
      case CreateChange(_, _, _, _) => SamePeople(s, Next(s, op));
      case DecideChange(id, approve, actor) => DecideChangeKeeps(s, id, approve, actor);
      case CreateRecovery(_, _, _, _) => SamePeople(s, Next(s, op));
      case ApproveRecovery(id, approvedBy, key, now) => ApproveRecoveryKeeps(s, id, approvedBy, key, now);
    }
  }

  lemma {:induction false} EveryRunKeeps(s: State, ops: seq<Op>)
    requires Inv(s)
    ensures Inv(After(s, ops))
  {
    if ops != [] {
      EveryRunKeeps(s, ops[..|ops| - 1]);
      PerformKeeps(After(s, ops[..|ops| - 1]), ops[|ops| - 1]);
    }
  }

  // ---------- theorems ----------

  ghost predicate Reachable(s: State) { exists definitions, ops :: s == After(Initial(definitions), ops) }

  lemma ReachableKeeps(s: State)
    requires Reachable(s)
    ensures Inv(s)
  {
    var definitions, ops :| s == After(Initial(definitions), ops);
    EveryRunKeeps(Initial(definitions), ops);
  }

  // At least two active administrators from bootstrap on, exactly one active global role per identity, and capabilities
  // held by active administrators only.
  ghost predicate Operable(s: State)
  {
    && (s.isSealed ==> |Administrators(s)| >= 2)
    && (forall i :: 0 <= i < |s.identities| ==> |ActiveRoles(s, i)| == 1)
    && (forall p :: p in s.capabilities ==> p.0 in Administrators(s))
  }

  /** Governance stays operable in every run. */
  lemma GovernanceStaysOperable(s: State)
    requires Reachable(s)
    ensures Operable(s)
  {
    ReachableKeeps(s);
  }

  /** The "two or fewer administrators" rejection never happens. */
  lemma CountCheckNeverFires(s: State, id: nat, approve: bool, actor: nat)
    requires Reachable(s)
    ensures DoDecideAccess(s, id, approve, actor) != Err(TooFewAdministrators)
  {
    ReachableKeeps(s);
    if IsActiveAdministrator(s, actor) && id < |s.access| {
      var r := s.access[id];
      assert r in s.access;
      RoleIsTheOne(s, r.target);
      if r.status.Pending? && r.requester != actor && r.target != actor && IsActiveAdministrator(s, r.requester)
         && s.identities[r.target].status == r.priorStatus && RemovesAdministrator(r, RoleOf(s, r.target).value)
      {
        ThreeAdministratorsTakePart(s, id, actor);
      }
    }
  }

  lemma AccessChangeKeepsQuorum(s: State, id: nat, actor: nat, capability: Capability)
    requires Inv(s) && DoDecideAccess(s, id, true, actor).Ok? && |Holders(s, capability)| >= 2
    ensures |Holders(DoDecideAccess(s, id, true, actor).value, capability)| >= 2
  {
    var next := DoDecideAccess(s, id, true, actor).value;
    var r := s.access[id];
    assert r in s.access;
    RoleIsTheOne(s, r.target);
    if (r.target, capability) !in s.capabilities || next.capabilities == s.capabilities {
      forall i ensures i in Holders(s, capability) <==> i in Holders(next, capability) {
        assert (i, capability) in s.capabilities <==> (i, capability) in next.capabilities;
      }
      assert Holders(next, capability) == Holders(s, capability);
    } else {
      assert IsActiveAdministrator(s, r.target);
      assert RemovesAdministrator(r, RoleOf(s, r.target).value);
      var others := OtherHolders(s, capability, r.target);
      forall i | i in others ensures i in Holders(next, capability) { assert (i, capability) in next.capabilities; }
      SubsetIsSmaller(others, Holders(next, capability));
    }
  }

  lemma CapabilityChangeKeepsQuorum(s: State, id: nat, approve: bool, actor: nat, capability: Capability)
    requires DoDecideChange(s, id, approve, actor).Ok? && |Holders(s, capability)| >= 2
    ensures |Holders(DoDecideChange(s, id, approve, actor).value, capability)| >= 2
  {
    var next := DoDecideChange(s, id, approve, actor).value;
    var r := s.changes[id];
    if approve && !r.grant && r.capability == capability {
      var others := OtherHolders(s, capability, r.target);
      forall i | i in others ensures i in Holders(next, capability) { assert (i, capability) in next.capabilities; }
      SubsetIsSmaller(others, Holders(next, capability));
    } else {
      forall i | i in Holders(s, capability)
        ensures i in Holders(next, capability)
      {
        assert (i, capability) in next.capabilities;
      }
      SubsetIsSmaller(Holders(s, capability), Holders(next, capability));
    }
  }

  lemma StepKeepsQuorum(s: State, op: Op, capability: Capability)
    requires Inv(s) && |Holders(s, capability)| >= 2
    ensures |Holders(Next(s, op), capability)| >= 2
  {
    var next := Next(s, op);
    if op.DecideAccess? && op.approve && Perform(s, op).Ok? {
      AccessChangeKeepsQuorum(s, op.id, op.actor, capability);
    } else if op.DecideChange? && Perform(s, op).Ok? {
      CapabilityChangeKeepsQuorum(s, op.id, op.approve, op.actor, capability);
    } else {
      if op.Bootstrap? { ProvisionMakesCohort(s, op.emails); }
      assert s.capabilities <= next.capabilities;
      forall i | i in Holders(s, capability)
        ensures i in Holders(next, capability)
      {
        assert (i, capability) in next.capabilities;
      }
      SubsetIsSmaller(Holders(s, capability), Holders(next, capability));
    }
  }

  /** A capability that two administrators hold never drops below two again, whatever is changed or recovered. */
  lemma {:induction false} QuorumIsNeverLost(s: State, ops: seq<Op>, capability: Capability)
    requires Inv(s) && |Holders(s, capability)| >= 2
    ensures |Holders(After(s, ops), capability)| >= 2
  {
    if ops != [] {
      QuorumIsNeverLost(s, ops[..|ops| - 1], capability);
      EveryRunKeeps(s, ops[..|ops| - 1]);
      StepKeepsQuorum(After(s, ops[..|ops| - 1]), ops[|ops| - 1], capability);
    }
  }

  /** Every capability defined when the cohort is bootstrapped has its quorum then and ever after. */
  lemma BootstrapGivesLastingQuorum(s: State, emails: seq<string>, ops: seq<Op>, capability: Capability)
    requires Reachable(s) && DoBootstrap(s, emails).Ok? && capability in s.definitions
    ensures |Holders(After(DoBootstrap(s, emails).value, ops), capability)| >= 2
  {
    ReachableKeeps(s);
    ProvisionMakesCohort(s, emails);
    BootstrapKeeps(s, emails);
    var next := DoBootstrap(s, emails).value;
    var n := |s.identities|;
    assert (n, capability) in next.capabilities && (n + 1, capability) in next.capabilities;
    TwoAreTwo(Holders(next, capability), n, n + 1);
    QuorumIsNeverLost(next, ops, capability);
  }

  lemma StepKeepsSeal(s: State, op: Op)
    requires s.isSealed
    ensures Next(s, op).isSealed
  {
  }

  lemma {:induction false} SealIsPermanent(s: State, ops: seq<Op>)
    requires s.isSealed
    ensures After(s, ops).isSealed
  {
    if ops != [] {
      SealIsPermanent(s, ops[..|ops| - 1]);
      StepKeepsSeal(After(s, ops[..|ops| - 1]), ops[|ops| - 1]);
    }
  }

  /** The bootstrap happens at most once: after it, every further attempt is refused, in every continuation. */
  lemma BootstrapHappensOnce(s: State, emails: seq<string>, ops: seq<Op>, again: seq<string>)
    requires DoBootstrap(s, emails).Ok?
    ensures DoBootstrap(After(DoBootstrap(s, emails).value, ops), again).Err?
  {
    SealIsPermanent(DoBootstrap(s, emails).value, ops);
  }

  // ---------- the tables, updated in place ----------

  class GovernanceTables {
    var isSealed: bool
    var identities: seq<Identity>
    var assignments: map<(nat, Role), bool>
    var definitions: set<Capability>
    var retired: set<Capability>
    var capabilities: set<(nat, Capability)>
    var access: seq<AccessRequest>
    var changes: seq<CapabilityRequest>
    var recoveries: seq<Recovery>

    function Snapshot(): State
      reads this
    {
      State(isSealed, identities, assignments, definitions, retired, capabilities, access, changes, recoveries)
    }

    ghost predicate Valid()
      reads this
    {
      Inv(Snapshot())
    }

    constructor (definitions: set<Capability>)
      ensures Valid() && Snapshot() == Initial(definitions)
    {
      isSealed, identities, assignments, retired, capabilities := false, [], map[], {}, {};
      this.definitions := definitions;
      access, changes, recoveries := [], [], [];
    }

    /** Inserts each member with the administrator role and every active capability, and seals the path. */
    method BootstrapAdministratorCohort(emails: seq<string>) returns (refusal: Option<Refusal>)
      requires Valid()
      modifies this
      ensures Valid() && Commits(old(Snapshot()), Snapshot(), refusal, DoBootstrap(old(Snapshot()), emails))
    {
      PerformKeeps(Snapshot(), Bootstrap(emails));
      if !(3 <= |emails| <= 5) || exists i, j :: 0 <= i < j < |emails| && emails[i] == emails[j] {
        return Some(InvalidInput);
      }
      if isSealed || exists k :: k in assignments && k.1.Admin? {
        return Some(AlreadySealed);
      }
      if exists i :: i in identities && i.email in emails {
        return Some(Conflict);
      }
      ProvisionMembers(emails);
      isSealed := true;
      refusal := None;
    }

    method ProvisionMembers(emails: seq<string>)
      modifies this
      ensures Snapshot() == Provision(old(Snapshot()), emails)
    {
      for n := 0 to |emails|
        invariant Snapshot() == Provision(old(Snapshot()), emails[..n])
      {
        assert emails[..n + 1][..n] == emails[..n];
        var id := |identities|;
        identities := identities + [Identity(emails[n], Active)];
        assignments := assignments[(id, Admin) := true];
        capabilities := capabilities + set c | c in definitions :: (id, c);
      }
      assert emails[..|emails|] == emails;
    }

    method CreateIdentityAccessChangeRequest(actor: nat, target: nat, change: Change, proposed: Option<Role>)
      returns (refusal: Option<Refusal>)
      requires Valid()
      modifies this
      ensures Valid()
      ensures Commits(old(Snapshot()), Snapshot(), refusal,
                      DoCreateAccess(old(Snapshot()), actor, target, change, proposed))
    {
      PerformKeeps(Snapshot(), CreateAccess(actor, target, change, proposed));
      if !IsActiveAdministrator(Snapshot(), actor) || actor == target {
        return Some(Forbidden);
      }
      var role := RoleOf(Snapshot(), target);
      if role.Err? {
        return Some(role.error);
      }
      var status := identities[target].status;
      if change.ChangeRole? {
        if !status.Active? || proposed.None? || proposed == Some(role.value) {
          return Some(InvalidState);
        }
      } else if proposed.Some? || (change.Suspend? && !status.Active?) || (change.Restore? && !status.Disabled?) {
        return Some(InvalidState);
      }
      if exists r :: r in access && r.target == target && r.status.Pending? {
        return Some(Conflict);
      }
      access := access + [AccessRequest(target, change, role.value, proposed, status, actor, Pending)];
      refusal := None;
    }

    /** Revokes or grants roles, status and capabilities in place once both administrators and the quorums allow it. */
    method DecideIdentityAccessChangeRequest(id: nat, approve: bool, actor: nat) returns (refusal: Option<Refusal>)
      requires Valid()
      modifies this
      ensures Valid()
      ensures Commits(old(Snapshot()), Snapshot(), refusal, DoDecideAccess(old(Snapshot()), id, approve, actor))
    {
      PerformKeeps(Snapshot(), DecideAccess(id, approve, actor));
      if !IsActiveAdministrator(Snapshot(), actor) {
        return Some(Forbidden);
      }
      if id >= |access| {
        return Some(NotFound);
      }
      var r := access[id];
      if !r.status.Pending? {
        return Some(Conflict);
      }
      if r.requester == actor || r.target == actor {
        return Some(Forbidden);
      }
      if !IsActiveAdministrator(Snapshot(), r.requester) {
        return Some(Conflict);
      }
      if !approve {
        access := access[id := r.(status := Rejected)];
        return None;
      }
      var role := RoleOf(Snapshot(), r.target);
      if role.Err? {
        return Some(role.error);
      }
      if identities[r.target].status != r.priorStatus || role.value != r.priorRole {
        return Some(Conflict);
      }
      if RemovesAdministrator(r, role.value) {
        if |Administrators(Snapshot())| <= 2 {
          return Some(TooFewAdministrators);
        }
        if exists p :: p in capabilities && p.0 == r.target && |OtherHolders(Snapshot(), p.1, r.target)| < 2 {
          return Some(TooFewCapable);
        }
      }
      var missing := ApplyChange(r);
      if missing.Some? {
        return missing;
      }
      access := access[id := r.(status := Applied)];
      refusal := None;
    }

    method ApplyChange(r: AccessRequest) returns (refusal: Option<Refusal>)
      requires r.target < |identities|
      modifies this
      ensures Commits(old(Snapshot()), Snapshot(), refusal, ApplyAccess(old(Snapshot()), r))
    {
      match r.change {
        case ChangeRole =>
          if r.proposed.None? {
            return Some(InvalidState);
          }
          assignments := SetRole(assignments, r.target, r.proposed.value);
          if !r.proposed.value.Admin? {
            capabilities := RevokeAll(capabilities, r.target);
          }
        case Suspend =>
          identities := identities[r.target := identities[r.target].(status := Disabled)];
          capabilities := RevokeAll(capabilities, r.target);
        case Restore =>
          identities := identities[r.target := identities[r.target].(status := Active)];
      }
      refusal := None;
    }

    method CreateAdministratorCapabilityChangeRequest(actor: nat, target: nat, capability: Capability, grant: bool)
      returns (refusal: Option<Refusal>)
      requires Valid()
      modifies this
      ensures Valid()
      ensures Commits(old(Snapshot()), Snapshot(), refusal,
                      DoCreateChange(old(Snapshot()), actor, target, capability, grant))
    {
      PerformKeeps(Snapshot(), CreateChange(actor, target, capability, grant));
      if !IsActiveAdministrator(Snapshot(), actor) || actor == target || !IsActiveAdministrator(Snapshot(), target) {
        return Some(Forbidden);
      }
      if capability !in definitions {
        return Some(if capability in retired then InvalidState else NotFound);
      }
      var enabled := Enabled(Snapshot(), target, capability);
      if grant == enabled {
        return Some(InvalidState);
      }
      if exists r :: r in changes && r.target == target && r.capability == capability && r.status.Pending? {
        return Some(Conflict);
      }
      changes := changes + [CapabilityRequest(target, capability, grant, enabled, actor, Pending)];
      refusal := None;
    }

    method DecideAdministratorCapabilityChangeRequest(id: nat, approve: bool, actor: nat)
      returns (refusal: Option<Refusal>)
      requires Valid()
      modifies this
      ensures Valid()
      ensures Commits(old(Snapshot()), Snapshot(), refusal, DoDecideChange(old(Snapshot()), id, approve, actor))
    {
      PerformKeeps(Snapshot(), DecideChange(id, approve, actor));
      if !IsActiveAdministrator(Snapshot(), actor) {
        return Some(Forbidden);
      }
      if id >= |changes| {
        return Some(NotFound);
      }
      var r := changes[id];
      if !r.status.Pending? {
        return Some(Conflict);
      }
      if r.requester == actor || r.target == actor || !IsActiveAdministrator(Snapshot(), r.requester)
         || !IsActiveAdministrator(Snapshot(), r.target) {
        return Some(Forbidden);
      }
      if !approve {
        changes := changes[id := r.(status := Rejected)];
        return None;
      }
      if Enabled(Snapshot(), r.target, r.capability) != r.priorEnabled {
        return Some(Conflict);
      }
      if r.grant {
        if (r.target, r.capability) in capabilities {
          return Some(Conflict);
        }
        capabilities := capabilities + {(r.target, r.capability)};
      } else {
        if |OtherHolders(Snapshot(), r.capability, r.target)| < 2 {
          return Some(TooFewCapable);
        }
        capabilities := capabilities - {(r.target, r.capability)};
      }
      changes := changes[id := r.(status := Applied)];
      refusal := None;
    }

    method CreateAdministratorRecoveryRequest(target: nat, requestedBy: string, key: string, now: int)
      returns (refusal: Option<Refusal>)
      requires Valid()
      modifies this
      ensures Valid()
      ensures Commits(old(Snapshot()), Snapshot(), refusal,
                      DoCreateRecovery(old(Snapshot()), target, requestedBy, key, now))
    {
      PerformKeeps(Snapshot(), CreateRecovery(target, requestedBy, key, now));
      var current := ExpireStale(recoveries, now);
      if !Historical(Snapshot(), target) {
        return Some(NotFound);
      }
      if exists r :: r in current && r.target == target && r.status.Pending? {
        return Some(Conflict);
      }
      recoveries := current + [Recovery(target, requestedBy, key, now + RECOVERY_WINDOW, Pending)];
      refusal := None;
    }

    /** Cancels pending access changes, makes administrator the one active role, and reactivates the identity. */
    method ApproveAdministratorRecoveryRequest(id: nat, approvedBy: string, key: string, now: int)
      returns (refusal: Option<Refusal>)
      requires Valid()
      modifies this
      ensures Valid()
      ensures Commits(old(Snapshot()), Snapshot(), refusal,
                      DoApproveRecovery(old(Snapshot()), id, approvedBy, key, now))
    {
      PerformKeeps(Snapshot(), ApproveRecovery(id, approvedBy, key, now));
      if id >= |recoveries| {
        return Some(NotFound);
      }
      var r := recoveries[id];
      if !r.status.Pending? {
        return Some(Conflict);
      }
      if r.expiresAt <= now {
        recoveries := recoveries[id := r.(status := Expired)];
        return None;
      }
      if approvedBy == r.requestedBy || key == r.key || !Historical(Snapshot(), r.target) {
        return Some(Forbidden);
      }
      access := CancelPending(access, r.target);
      assignments := SetRole(assignments, r.target, Admin);
      identities := identities[r.target := identities[r.target].(status := Active)];
      recoveries := recoveries[id := r.(status := Applied)];
      refusal := None;
    }
  }
}
