/**
 What each step of governance does to identities, roles and capabilities, and exactly when it may: stated of the state
 before and after, for every identity, without the functions that compute it.
 */
module GovernanceEffects {
  import opened Base
  import opened Governance
  import opened GovernanceTheorems

  // ---------- what stays ----------

  predicate Holds(s: State, id: nat, capability: Capability) { (id, capability) in s.capabilities }

  // Nothing about an identity changed: its row, its roles, its capabilities.
  ghost predicate SameIdentity(s: State, next: State, i: nat)
  {
    && i < |s.identities| <= |next.identities| && next.identities[i] == s.identities[i]
    && ActiveRoles(next, i) == ActiveRoles(s, i)
    && forall c :: Holds(next, i, c) <==> Holds(s, i, c)
  }

  ghost predicate OthersStay(s: State, next: State, target: nat)
  {
    && |next.identities| == |s.identities|
    && forall i :: 0 <= i < |s.identities| && i != target ==> SameIdentity(s, next, i)
  }

  // ---------- access changes ----------

  // The target is what the request asked for.
  ghost predicate AsAsked(s: State, next: State, r: AccessRequest)
    requires r.target < |s.identities| && r.target < |next.identities|
  {
    var before, after := s.identities[r.target], next.identities[r.target];
    match r.change
    case ChangeRole =>
      && r.proposed.Some? && ActiveRoles(next, r.target) == {r.proposed.value} && after == before
      && (forall c :: Holds(next, r.target, c) <==> Holds(s, r.target, c) && r.proposed == Some(Admin))
    case Suspend =>
      && after == before.(status := Disabled) && ActiveRoles(next, r.target) == ActiveRoles(s, r.target)
      && (forall c :: !Holds(next, r.target, c))
    case Restore =>
      && after == before.(status := Active) && ActiveRoles(next, r.target) == ActiveRoles(s, r.target)
      && (forall c :: Holds(next, r.target, c) <==> Holds(s, r.target, c))
  }

  lemma AppliedRole(s: State, id: nat, actor: nat)
    requires Inv(s) && DoDecideAccess(s, id, true, actor).Ok? && s.access[id].change.ChangeRole?
    ensures var next, r := DoDecideAccess(s, id, true, actor).value, s.access[id];
            r.target < |s.identities| && OthersStay(s, next, r.target) && AsAsked(s, next, r)
  {
    var next, r := DoDecideAccess(s, id, true, actor).value, s.access[id];
    assert r in s.access;
    var moved := s.(assignments := SetRole(s.assignments, r.target, r.proposed.value));
    forall i | 0 <= i < |s.identities|
      ensures ActiveRoles(next, i) == if i == r.target then {r.proposed.value} else ActiveRoles(s, i)
    {
      SetRoleLeavesOne(s, r.target, r.proposed.value, i);
      assert ActiveRoles(next, i) == ActiveRoles(moved, i);
    }
  }

  lemma AppliedStatus(s: State, id: nat, actor: nat)
    requires Inv(s) && DoDecideAccess(s, id, true, actor).Ok? && !s.access[id].change.ChangeRole?
    ensures var next, r := DoDecideAccess(s, id, true, actor).value, s.access[id];
            r.target < |s.identities| && OthersStay(s, next, r.target) && AsAsked(s, next, r)
  {
    var next, r := DoDecideAccess(s, id, true, actor).value, s.access[id];
    assert r in s.access;
    forall i ensures ActiveRoles(next, i) == ActiveRoles(s, i) {}
  }

  /**
   An applied change does to its target exactly what was asked, to nobody else anything, and to the other tables nothing
   but marking the request.
   */
  lemma AppliedChangeIsAsAsked(s: State, id: nat, actor: nat)
    requires Inv(s) && DoDecideAccess(s, id, true, actor).Ok?
    ensures var next, r := DoDecideAccess(s, id, true, actor).value, s.access[id];
            && r.target < |s.identities| && OthersStay(s, next, r.target) && AsAsked(s, next, r)
            && next.access == s.access[id := r.(status := Applied)] && next.changes == s.changes
            && next.recoveries == s.recoveries && next.definitions == s.definitions && next.isSealed == s.isSealed
  {
    if s.access[id].change.ChangeRole? {
      AppliedRole(s, id, actor);
    } else {
      AppliedStatus(s, id, actor);
    }
  }

  // Who may decide: an active administrator who neither asked for it nor is its target, while the one who asked is one.
  predicate MayDecide(s: State, requester: nat, target: nat, actor: nat)
  {
    IsActiveAdministrator(s, actor) && actor != requester && actor != target && IsActiveAdministrator(s, requester)
  }

  // Two others hold every capability that the target would lose.
  ghost predicate LeavesQuorums(s: State, target: nat)
  {
    forall p :: p in s.capabilities && p.0 == target ==> |OtherHolders(s, p.1, target)| >= 2
  }

  /** An access request is applied exactly if someone may decide it, nothing changed meanwhile and quorums are left. */
  lemma AccessDecidedExactly(s: State, id: nat, actor: nat)
    requires Reachable(s) && id < |s.access|
    ensures var r := s.access[id];
            && r.target < |s.identities|
            && (DoDecideAccess(s, id, true, actor).Ok? <==>
                && r.status.Pending? && MayDecide(s, r.requester, r.target, actor)
                && s.identities[r.target].status == r.priorStatus && ActiveRoles(s, r.target) == {r.priorRole}
                && (RemovesAdministrator(r, r.priorRole) ==> LeavesQuorums(s, r.target)))
            && (DoDecideAccess(s, id, false, actor).Ok? <==>
                r.status.Pending? && MayDecide(s, r.requester, r.target, actor))
            && (DoDecideAccess(s, id, false, actor).Ok? ==>
                  DoDecideAccess(s, id, false, actor).value == s.(access := s.access[id := r.(status := Rejected)]))
  {
    ReachableKeeps(s);
    var r := s.access[id];
    assert r in s.access;
    RoleIsTheOne(s, r.target);
    CountCheckNeverFires(s, id, true, actor);
    assert ActiveRoles(s, r.target) == {r.priorRole} <==> RoleOf(s, r.target).value == r.priorRole by {
      assert RoleOf(s, r.target).value in ActiveRoles(s, r.target);
    }
  }

  // The state a change applies to.
  ghost predicate Applicable(s: State, target: nat, change: Change, proposed: Option<Role>)
    requires target < |s.identities|
  {
    match change
    case ChangeRole =>
      s.identities[target].status.Active? && proposed.Some? && ActiveRoles(s, target) != {proposed.value}
    case Suspend => s.identities[target].status.Active? && proposed.None?
    case Restore => s.identities[target].status.Disabled? && proposed.None?
  }

  /**
   A request is stored exactly when an active administrator asks for a change of someone else that applies and none is
   pending for that identity; it records who asked and what the identity was.
   */
  lemma AccessAskedExactly(s: State, actor: nat, target: nat, change: Change, proposed: Option<Role>)
    requires Reachable(s)
    ensures var asked := DoCreateAccess(s, actor, target, change, proposed);
            && (asked.Ok? <==>
                && IsActiveAdministrator(s, actor) && actor != target && target < |s.identities|
                && Applicable(s, target, change, proposed)
                && forall r :: r in s.access && r.target == target ==> !r.status.Pending?)
            && (asked.Ok? ==>
                  && asked.value == s.(access := asked.value.access) && |asked.value.access| == |s.access| + 1
                  && asked.value.access[..|s.access|] == s.access
                  && var r := asked.value.access[|s.access|];
                  && r.target == target && r.change == change && r.proposed == proposed && r.requester == actor
                  && r.status.Pending? && r.priorStatus == s.identities[target].status
                  && ActiveRoles(s, target) == {r.priorRole})
  {
    ReachableKeeps(s);
    if target < |s.identities| {
      RoleIsTheOne(s, target);
      if proposed.Some? {
        assert ActiveRoles(s, target) == {proposed.value} <==> RoleOf(s, target).value == proposed.value by {
          assert RoleOf(s, target).value in ActiveRoles(s, target);
        }
      }
    }
  }

  // ---------- capability changes ----------

  /** A capability is granted or taken exactly if someone may decide it, nothing changed and two others keep it. */
  lemma CapabilityDecidedExactly(s: State, id: nat, actor: nat)
    requires Inv(s) && id < |s.changes|
    ensures var r, done := s.changes[id], DoDecideChange(s, id, true, actor);
            && (done.Ok? <==>
                && r.status.Pending? && MayDecide(s, r.requester, r.target, actor) && IsActiveAdministrator(s, r.target)
                && Enabled(s, r.target, r.capability) == r.priorEnabled
                && (if r.grant then !Holds(s, r.target, r.capability)
                    else |OtherHolders(s, r.capability, r.target)| >= 2))
            && (done.Ok? ==>
                  && done.value == s.(changes := s.changes[id := r.(status := Applied)],
                                   capabilities := done.value.capabilities)
                  && forall i: nat, c :: Holds(done.value, i, c) <==> if (i, c) == (r.target, r.capability) then r.grant
                                                                      else Holds(s, i, c))
  {
    var r, done := s.changes[id], DoDecideChange(s, id, true, actor);
    if done.Ok? {
      forall i: nat, c
        ensures Holds(done.value, i, c) <==> if (i, c) == (r.target, r.capability) then r.grant else Holds(s, i, c)
      {
      }
    }
  }

  lemma CapabilityRejectedExactly(s: State, id: nat, actor: nat)
    requires id < |s.changes|
    ensures var r, done := s.changes[id], DoDecideChange(s, id, false, actor);
            && (done.Ok? <==>
                r.status.Pending? && MayDecide(s, r.requester, r.target, actor) && IsActiveAdministrator(s, r.target))
            && (done.Ok? ==> done.value == s.(changes := s.changes[id := r.(status := Rejected)]))
  {
  }

  /** A capability change is asked for exactly by one active administrator about another, where it changes something. */
  lemma CapabilityAskedExactly(s: State, actor: nat, target: nat, capability: Capability, grant: bool)
    ensures var asked := DoCreateChange(s, actor, target, capability, grant);
            && (asked.Ok? <==>
                && IsActiveAdministrator(s, actor) && IsActiveAdministrator(s, target) && actor != target
                && capability in s.definitions && grant != Holds(s, target, capability)
                && forall r :: r in s.changes && r.target == target && r.capability == capability ==>
                                 !r.status.Pending?)
            && (asked.Ok? ==>
                  && asked.value == s.(changes := asked.value.changes) && |asked.value.changes| == |s.changes| + 1
                  && asked.value.changes[..|s.changes|] == s.changes
                  && var r := asked.value.changes[|s.changes|];
                  && r.target == target && r.capability == capability && r.grant == grant && r.requester == actor
                  && r.status.Pending? && r.priorEnabled == !grant)
  {
  }

  // ---------- recovery ----------

  // A recovery request counts until it is decided or its half hour is over.
  predicate Outstanding(r: Recovery, target: nat, now: int)
  {
    r.target == target && r.status.Pending? && now < r.expiresAt
  }

  /** A recovery is asked for exactly for a historical administrator with none outstanding, for half an hour. */
  lemma RecoveryAskedExactly(s: State, target: nat, who: string, key: string, now: int)
    ensures var asked := DoCreateRecovery(s, target, who, key, now);
            && (asked.Ok? <==>
                && target < |s.identities| && (target, Admin) in s.assignments
                && forall r :: r in s.recoveries ==> !Outstanding(r, target, now))
            && (asked.Ok? ==>
                  && asked.value == s.(recoveries := asked.value.recoveries)
                  && |asked.value.recoveries| == |s.recoveries| + 1
                  && asked.value.recoveries[|s.recoveries|] == Recovery(target, who, key, now + 1800, Pending)
                  && forall i :: 0 <= i < |s.recoveries| ==>
                                   var r := s.recoveries[i];
                                   asked.value.recoveries[i]
                                   == if r.status.Pending? && r.expiresAt <= now then r.(status := Expired) else r)
  {
    var stale := ExpireStale(s.recoveries, now);
    if exists r :: r in stale && r.target == target && r.status.Pending? {
      var r :| r in stale && r.target == target && r.status.Pending?;
      var i :| 0 <= i < |stale| && stale[i] == r;
      assert s.recoveries[i] in s.recoveries && Outstanding(s.recoveries[i], target, now);
    }
    if exists r :: r in s.recoveries && Outstanding(r, target, now) {
      var r :| r in s.recoveries && Outstanding(r, target, now);
      var i :| 0 <= i < |stale| && s.recoveries[i] == r;
      assert stale[i] in stale;
    }
  }

  // The recovered identity is an active administrator and nothing else; its pending access requests are cancelled.
  ghost predicate Recovered(s: State, next: State, target: nat)
  {
    && target < |s.identities| && OthersStay(s, next, target)
    && next.identities[target] == s.identities[target].(status := Active) && ActiveRoles(next, target) == {Admin}
    && (forall c :: Holds(next, target, c) <==> Holds(s, target, c))
    && |next.access| == |s.access|
    && forall i :: 0 <= i < |s.access| ==>
                     var r := s.access[i];
                     next.access[i] == if r.target == target && r.status.Pending? then r.(status := Cancelled) else r
  }

  lemma RecoveryEffect(s: State, next: State, target: nat)
    requires RolesOk(s) && target < |s.identities| && next.capabilities == s.capabilities
    requires next.assignments == SetRole(s.assignments, target, Admin)
    requires next.identities == s.identities[target := s.identities[target].(status := Active)]
    requires next.access == CancelPending(s.access, target)
    ensures Recovered(s, next, target)
  {
    var moved := s.(assignments := next.assignments);
    forall i | 0 <= i < |s.identities|
      ensures ActiveRoles(next, i) == if i == target then {Admin} else ActiveRoles(s, i)
    {
      SetRoleLeavesOne(s, target, Admin, i);
      assert ActiveRoles(next, i) == ActiveRoles(moved, i);
    }
  }

  /** A recovery is applied exactly by a second operator with another key before it expires; expired ones are marked. */
  lemma RecoveryDecidedExactly(s: State, id: nat, who: string, key: string, now: int)
    requires Inv(s) && id < |s.recoveries|
    ensures var r, done := s.recoveries[id], DoApproveRecovery(s, id, who, key, now);
            && (r.status.Pending? && r.expiresAt <= now ==>
                  done == Ok(s.(recoveries := s.recoveries[id := r.(status := Expired)])))
            && (done.Ok? && now < r.expiresAt <==>
                && r.status.Pending? && now < r.expiresAt && who != r.requestedBy && key != r.key
                && r.target < |s.identities| && (r.target, Admin) in s.assignments)
            && (done.Ok? && now < r.expiresAt ==>
                  && Recovered(s, done.value, r.target)
                  && done.value.recoveries == s.recoveries[id := r.(status := Applied)])
  {
    var r, done := s.recoveries[id], DoApproveRecovery(s, id, who, key, now);
    if done.Ok? && now < r.expiresAt {
      RecoveryEffect(s, done.value, r.target);
    }
  }

  // ---------- registration and bootstrap ----------

  /** Registration adds one active identity with the given role, which is never administrator, and no capability. */
  lemma RegisteredExactly(s: State, email: string, role: Role)
    requires Inv(s)
    ensures var n, done := |s.identities|, DoRegister(s, email, role);
            && (done.Ok? <==> !role.Admin? && forall i :: i in s.identities ==> i.email != email)
            && (done.Ok? ==>
                  && done.value.identities == s.identities + [Identity(email, Active)]
                  && ActiveRoles(done.value, n) == {role} && (forall c :: !Holds(done.value, n, c))
                  && forall i :: 0 <= i < n ==> SameIdentity(s, done.value, i))
  {
    var n, done := |s.identities|, DoRegister(s, email, role);
    if done.Ok? {
      NewRole(s, done.value, role);
      assert !IsActiveAdministrator(s, n);
    }
  }

  lemma NewRole(s: State, next: State, role: Role)
    requires RolesOk(s) && next.assignments == s.assignments[(|s.identities|, role) := true]
    ensures ActiveRoles(next, |s.identities|) == {role}
    ensures forall i :: 0 <= i < |s.identities| ==> ActiveRoles(next, i) == ActiveRoles(s, i)
  {
    var n := |s.identities|;
    assert (n, role) in next.assignments;
    forall r ensures r in ActiveRoles(next, n) <==> r == role {
      if r == role { assert ((n, role)).1 == role; }
    }
    forall i | 0 <= i < n ensures ActiveRoles(next, i) == ActiveRoles(s, i) {
      forall r ensures r in ActiveRoles(next, i) <==> r in ActiveRoles(s, i) {
        assert (i, r) in s.assignments <==> (i, r) in next.assignments;
      }
    }
  }

  // The members, in order, as active administrators with every active capability; everyone else as before.
  ghost predicate Joined(s: State, next: State, emails: seq<string>)
  {
    var n := |s.identities|;
    && |next.identities| == n + |emails|
    && (forall i :: 0 <= i < n ==> SameIdentity(s, next, i))
    && forall k :: 0 <= k < |emails| ==>
                     && next.identities[n + k] == Identity(emails[k], Active) && ActiveRoles(next, n + k) == {Admin}
                     && forall c :: Holds(next, n + k, c) <==> c in s.definitions
  }

  lemma OneJoins(s: State, email: string)
    requires RolesOk(s) && CapabilitiesOk(s)
    ensures Joined(s, ProvisionOne(s, email), [email])
  {
    var next, n := ProvisionOne(s, email), |s.identities|;
    NewRole(s, next, Admin);
    assert !IsActiveAdministrator(s, n);
    forall c ensures Holds(next, n, c) <==> c in s.definitions {
      assert (n, c) !in s.capabilities;
    }
    forall i | 0 <= i < n ensures SameIdentity(s, next, i) {
      assert forall c :: Holds(next, i, c) <==> Holds(s, i, c);
    }
    assert n + 0 == n && [email][0] == email;
  }

  lemma JoinedThenOne(s: State, middle: State, next: State, emails: seq<string>, email: string)
    requires Joined(s, middle, emails) && Joined(middle, next, [email]) && middle.definitions == s.definitions
    ensures Joined(s, next, emails + [email])
  {
    var n := |s.identities|;
    forall i | 0 <= i < n ensures SameIdentity(s, next, i) {
      assert SameIdentity(s, middle, i) && SameIdentity(middle, next, i);
    }
    forall k | 0 <= k < |emails + [email]|
      ensures next.identities[n + k] == Identity((emails + [email])[k], Active) && ActiveRoles(next, n + k) == {Admin}
      ensures forall c :: Holds(next, n + k, c) <==> c in s.definitions
    {
      if k < |emails| {
        assert SameIdentity(middle, next, n + k);
      } else {
        assert n + k == |middle.identities| + 0 && [email][0] == email;
      }
    }
  }

  lemma {:induction false} AllJoin(s: State, emails: seq<string>)
    requires RolesOk(s) && CapabilitiesOk(s) && AccessOk(s)
    ensures Joined(s, Provision(s, emails), emails)
  {
    if emails != [] {
      var n := |emails| - 1;
      AllJoin(s, emails[..n]);
      ProvisionMakesCohort(s, emails[..n]);
      OneJoins(Provision(s, emails[..n]), emails[n]);
      JoinedThenOne(s, Provision(s, emails[..n]), Provision(s, emails), emails[..n], emails[n]);
      assert emails[..n] + [emails[n]] == emails;
    }
  }

  /** The bootstrap succeeds exactly once, for three to five new and different members, who join as administrators. */
  lemma BootstrappedExactly(s: State, emails: seq<string>)
    requires Inv(s)
    ensures var done := DoBootstrap(s, emails);
            && (done.Ok? <==>
                && 3 <= |emails| <= 5 && (forall i, j :: 0 <= i < j < |emails| ==> emails[i] != emails[j])
                && !s.isSealed && (forall k :: k in s.assignments ==> !k.1.Admin?)
                && forall i :: i in s.identities ==> i.email !in emails)
            && (done.Ok? ==> Joined(s, done.value, emails) && done.value.isSealed)
  {
    var done := DoBootstrap(s, emails);
    if done.Ok? {
      AllJoin(s, emails);
      var joined := Provision(s, emails);
      assert forall i :: ActiveRoles(done.value, i) == ActiveRoles(joined, i);
      forall i | 0 <= i < |s.identities| ensures SameIdentity(s, done.value, i) { assert SameIdentity(s, joined, i); }
    }
  }
}
