/**
 Administrator governance: access changes, capability changes, the one-time bootstrap and
 break-glass recovery (src/platform/postgres-identity-access-governance.ts,
 postgres-administrator-capabilities.ts, postgres-administrator-operations.ts). Only roles, statuses and
 capabilities are kept. An identity's id is its row number.
 */
module Governance {
  import opened Base

  datatype Role = Admin | Other(name: string)

  datatype Status = Active | Disabled

  datatype Change = ChangeRole | Suspend | Restore

  datatype Review = Pending | Rejected | Applied | Cancelled | Expired

  type Capability = string

  datatype Identity = Identity(email: string, status: Status)

  datatype AccessRequest = AccessRequest(target: nat, change: Change, priorRole: Role, proposed: Option<Role>,
                                         priorStatus: Status, requester: nat, status: Review)

  datatype CapabilityRequest = CapabilityRequest(target: nat, capability: Capability, grant: bool, priorEnabled: bool,
                                                 requester: nat, status: Review)

  datatype Recovery = Recovery(target: nat, requestedBy: string, key: string, expiresAt: int, status: Review)

  // `assignments` holds one row per (identity, global role), active or revoked: the conflict target of every insert.
  // `definitions` holds the active capability definitions, `retired` the others; `capabilities` the assignments that
  // are not revoked.
  datatype State = State(isSealed: bool, identities: seq<Identity>, assignments: map<(nat, Role), bool>,
                         definitions: set<Capability>, retired: set<Capability>, capabilities: set<(nat, Capability)>,
                         access: seq<AccessRequest>, changes: seq<CapabilityRequest>, recoveries: seq<Recovery>)

  datatype Refusal =
    | NotFound | Forbidden | Conflict | InvalidState | InvalidInput | AlreadySealed
    | TooFewAdministrators | TooFewCapable

  // 30 minutes, in seconds.
  const RECOVERY_WINDOW := 1800

  // ---------- reading ----------

  predicate HoldsRole(s: State, id: nat, role: Role) { (id, role) in s.assignments && s.assignments[(id, role)] }

  function ActiveRoles(s: State, id: nat): set<Role>
  {
    set k | k in s.assignments && k.0 == id && s.assignments[k] :: k.1
  }

  predicate IsActiveAdministrator(s: State, id: nat)
  {
    id < |s.identities| && s.identities[id].status.Active? && HoldsRole(s, id, Admin)
  }

  function Administrators(s: State): set<nat> { set i | 0 <= i < |s.identities| && IsActiveAdministrator(s, i) }

  function Holders(s: State, capability: Capability): set<nat>
  {
    set p | p in s.capabilities && p.1 == capability :: p.0
  }

  // Active administrators with the capability, other than the one it would be taken from.
  function OtherHolders(s: State, capability: Capability, but: nat): set<nat>
  {
    set p | p in s.capabilities && p.1 == capability && p.0 != but && IsActiveAdministrator(s, p.0) :: p.0
  }

  predicate Enabled(s: State, id: nat, capability: Capability)
  {
    capability in s.definitions && (id, capability) in s.capabilities
  }

  lemma OnlyOne<T>(one: set<T>, a: T, b: T)
    requires |one| == 1 && a in one && b in one
    ensures a == b
  {
    assert |one - {a}| == 0;
    assert b == a || b in one - {a};
  }

  // lockIdentityState: the role of an identity that has exactly one active global role.
  function RoleOf(s: State, id: nat): Result<Role, Refusal>
  {
    if id >= |s.identities| then Err(NotFound)
    else if |ActiveRoles(s, id)| != 1 then Err(InvalidState)
    else
      assert forall a, b :: a in ActiveRoles(s, id) && b in ActiveRoles(s, id) ==> a == b by {
        forall a, b | a in ActiveRoles(s, id) && b in ActiveRoles(s, id)
          ensures a == b
        {
          OnlyOne(ActiveRoles(s, id), a, b);
        }
      }
      var role :| role in ActiveRoles(s, id);
      Ok(role)
  }

  // ---------- writing ----------

  // Revoke every active global role, then insert the role or bring its revoked row back.
  function SetRole(assignments: map<(nat, Role), bool>, id: nat, role: Role): map<(nat, Role), bool>
  {
    (map k | k in assignments :: if k.0 == id then false else assignments[k])[(id, role) := true]
  }

  function SetStatus(s: State, id: nat, status: Status): State
    requires id < |s.identities|
  {
    s.(identities := s.identities[id := s.identities[id].(status := status)])
  }

  function RevokeAll(capabilities: set<(nat, Capability)>, id: nat): set<(nat, Capability)>
  {
    set p | p in capabilities && p.0 != id
  }

  // ---------- identities ----------

  // Registration: an active identity with one role, never administrator.
  function DoRegister(s: State, email: string, role: Role): Result<State, Refusal>
  {
    if role.Admin? then Err(InvalidInput)
    else if exists i :: i in s.identities && i.email == email then Err(Conflict)
    else Ok(s.(identities := s.identities + [Identity(email, Active)],
            assignments := s.assignments[(|s.identities|, role) := true]))
  }

  function ProvisionOne(s: State, email: string): State
  {
    var id := |s.identities|;
    s.(identities := s.identities + [Identity(email, Active)], assignments := s.assignments[(id, Admin) := true],
      capabilities := s.capabilities + set c | c in s.definitions :: (id, c))
  }

  function Provision(s: State, emails: seq<string>): State
  {
    if emails == [] then s else ProvisionOne(Provision(s, emails[..|emails| - 1]), emails[|emails| - 1])
  }

  function DoBootstrap(s: State, emails: seq<string>): Result<State, Refusal>
  {
    if !(3 <= |emails| <= 5) then Err(InvalidInput)
    else if exists i, j :: 0 <= i < j < |emails| && emails[i] == emails[j] then Err(InvalidInput)
    else if s.isSealed || exists k :: k in s.assignments && k.1.Admin? then Err(AlreadySealed)
    else if exists i :: i in s.identities && i.email in emails then Err(Conflict)
    else Ok(Provision(s, emails).(isSealed := true))
  }

  // ---------- access changes ----------

  function DoCreateAccess(s: State, actor: nat, target: nat, change: Change, proposed: Option<Role>)
    : Result<State, Refusal>
  {
    if !IsActiveAdministrator(s, actor) || actor == target then Err(Forbidden)
    else
      var role := RoleOf(s, target);
      if role.Err? then Err(role.error)
      else
        var status := s.identities[target].status;
        var sameRole := proposed.None? || proposed == Some(role.value);
        var request := AccessRequest(target, change, role.value, proposed, status, actor, Pending);
        if change.ChangeRole? && (!status.Active? || sameRole) then Err(InvalidState)
        else if !change.ChangeRole? && proposed.Some? then Err(InvalidState)
        else if change.Suspend? && !status.Active? then Err(InvalidState)
        else if change.Restore? && !status.Disabled? then Err(InvalidState)
        // unique index identity_access_change_target_pending_unique_idx
        else if exists r :: r in s.access && r.target == target && r.status.Pending? then Err(Conflict)
        else Ok(s.(access := s.access + [request]))
  }

  predicate RemovesAdministrator(r: AccessRequest, role: Role)
  {
    role.Admin? && (r.change.Suspend? || (r.change.ChangeRole? && r.proposed != Some(Admin)))
  }

  function ApplyAccess(s: State, r: AccessRequest): Result<State, Refusal>
    requires r.target < |s.identities|
  {
    match r.change
    case ChangeRole =>
      if r.proposed.None? then Err(InvalidState)
      else Ok(s.(assignments := SetRole(s.assignments, r.target, r.proposed.value),
              capabilities := if r.proposed.value.Admin? then s.capabilities
              else RevokeAll(s.capabilities, r.target)))
    case Suspend => Ok(SetStatus(s, r.target, Disabled).(capabilities := RevokeAll(s.capabilities, r.target)))
    case Restore => Ok(SetStatus(s, r.target, Active))
  }

  function DoDecideAccess(s: State, id: nat, approve: bool, actor: nat): Result<State, Refusal>
  {
    if !IsActiveAdministrator(s, actor) then Err(Forbidden)
    else if id >= |s.access| then Err(NotFound)
    else
      var r := s.access[id];
      if !r.status.Pending? then Err(Conflict)
      else if r.requester == actor || r.target == actor then Err(Forbidden)
      else if !IsActiveAdministrator(s, r.requester) then Err(Conflict)
      else if !approve then Ok(s.(access := s.access[id := r.(status := Rejected)]))
      else
        var role := RoleOf(s, r.target);
        if role.Err? then Err(role.error)
        else if s.identities[r.target].status != r.priorStatus || role.value != r.priorRole then Err(Conflict)
        else if RemovesAdministrator(r, role.value) && |Administrators(s)| <= 2 then Err(TooFewAdministrators)
        else if RemovesAdministrator(r, role.value) && exists p ::
                  p in s.capabilities && p.0 == r.target && |OtherHolders(s, p.1, r.target)| < 2
        then Err(TooFewCapable)
        else
          var next := ApplyAccess(s, r);
          if next.Err? then next else Ok(next.value.(access := s.access[id := r.(status := Applied)]))
  }

  // ---------- capability changes ----------

  function DoCreateChange(s: State, actor: nat, target: nat, capability: Capability, grant: bool)
    : Result<State, Refusal>
  {
    if !IsActiveAdministrator(s, actor) || actor == target || !IsActiveAdministrator(s, target) then Err(Forbidden)
    else if capability !in s.definitions then Err(if capability in s.retired then InvalidState else NotFound)
    else if grant == Enabled(s, target, capability) then Err(InvalidState)
    // unique index administrator_capability_change_pending_unique_idx
    else if exists r :: r in s.changes && r.target == target && r.capability == capability && r.status.Pending?
    then Err(Conflict)
    else
      var request := CapabilityRequest(target, capability, grant, Enabled(s, target, capability), actor, Pending);
      Ok(s.(changes := s.changes + [request]))
  }

  function DoDecideChange(s: State, id: nat, approve: bool, actor: nat): Result<State, Refusal>
  {
    if !IsActiveAdministrator(s, actor) then Err(Forbidden)
    else if id >= |s.changes| then Err(NotFound)
    else
      var r := s.changes[id];
      if !r.status.Pending? then Err(Conflict)
      else if r.requester == actor || r.target == actor then Err(Forbidden)
      else if !IsActiveAdministrator(s, r.requester) || !IsActiveAdministrator(s, r.target) then Err(Forbidden)
      else if !approve then Ok(s.(changes := s.changes[id := r.(status := Rejected)]))
      else if Enabled(s, r.target, r.capability) != r.priorEnabled then Err(Conflict)
      else if !r.grant && |OtherHolders(s, r.capability, r.target)| < 2 then Err(TooFewCapable)
      // one active assignment per identity and capability (unique index)
      else if r.grant && (r.target, r.capability) in s.capabilities then Err(Conflict)
      else Ok(s.(changes := s.changes[id := r.(status := Applied)],
              capabilities := if r.grant then s.capabilities + {(r.target, r.capability)}
              else s.capabilities - {(r.target, r.capability)}))
  }

  // ---------- recovery ----------

  function ExpireStale(recoveries: seq<Recovery>, now: int): seq<Recovery>
  {
    seq(|recoveries|, i requires 0 <= i < |recoveries| =>
      if recoveries[i].status.Pending? && recoveries[i].expiresAt <= now then recoveries[i].(status := Expired)
      else recoveries[i])
  }

  predicate Historical(s: State, id: nat) { id < |s.identities| && (id, Admin) in s.assignments }

  function DoCreateRecovery(s: State, target: nat, requestedBy: string, key: string, now: int): Result<State, Refusal>
  {
    var recoveries := ExpireStale(s.recoveries, now);
    if !Historical(s, target) then Err(NotFound)
    else if exists r :: r in recoveries && r.target == target && r.status.Pending? then Err(Conflict)
    else Ok(s.(recoveries := recoveries + [Recovery(target, requestedBy, key, now + RECOVERY_WINDOW, Pending)]))
  }

  function CancelPending(access: seq<AccessRequest>, target: nat): seq<AccessRequest>
  {
    seq(|access|, i requires 0 <= i < |access| =>
      if access[i].target == target && access[i].status.Pending? then access[i].(status := Cancelled) else access[i])
  }

  // An expired request is marked so and that commits; the caller is told afterwards.
  function DoApproveRecovery(s: State, id: nat, approvedBy: string, key: string, now: int): Result<State, Refusal>
  {
    if id >= |s.recoveries| then Err(NotFound)
    else
      var r := s.recoveries[id];
      if !r.status.Pending? then Err(Conflict)
      else if r.expiresAt <= now then Ok(s.(recoveries := s.recoveries[id := r.(status := Expired)]))
      else if approvedBy == r.requestedBy || key == r.key then Err(Forbidden)
      else if !Historical(s, r.target) then Err(Forbidden)
      else Ok(SetStatus(s, r.target, Active).(access := CancelPending(s.access, r.target),
              assignments := SetRole(s.assignments, r.target, Admin),
              recoveries := s.recoveries[id := r.(status := Applied)]))
  }

  // ---------- runs ----------

  datatype Op =
    | Register(email: string, role: Role)
    | Define(capability: Capability)
    | Retire(capability: Capability)
    | Bootstrap(emails: seq<string>)
    | CreateAccess(actor: nat, target: nat, change: Change, proposed: Option<Role>)
    | DecideAccess(id: nat, approve: bool, actor: nat)
    | CreateChange(actor: nat, target: nat, capability: Capability, grant: bool)
    | DecideChange(id: nat, approve: bool, actor: nat)
    | CreateRecovery(target: nat, requestedBy: string, key: string, now: int)
    | ApproveRecovery(id: nat, approvedBy: string, key: string, now: int)

  function Perform(s: State, op: Op): Result<State, Refusal>
  {
    match op
    case Register(email, role) => DoRegister(s, email, role)
    case Define(capability) => Ok(s.(definitions := s.definitions + {capability}, retired := s.retired - {capability}))
    case Retire(capability) =>
      if capability !in s.definitions then Err(NotFound)
      else Ok(s.(definitions := s.definitions - {capability}, retired := s.retired + {capability}))
    case Bootstrap(emails) => DoBootstrap(s, emails)
    case CreateAccess(actor, target, change, proposed) => DoCreateAccess(s, actor, target, change, proposed)
    case DecideAccess(id, approve, actor) => DoDecideAccess(s, id, approve, actor)
    case CreateChange(actor, target, capability, grant) => DoCreateChange(s, actor, target, capability, grant)
    case DecideChange(id, approve, actor) => DoDecideChange(s, id, approve, actor)
    case CreateRecovery(target, requestedBy, key, now) => DoCreateRecovery(s, target, requestedBy, key, now)
    case ApproveRecovery(id, approvedBy, key, now) => DoApproveRecovery(s, id, approvedBy, key, now)
  }

  function Next(s: State, op: Op): State { Committed(s, Perform(s, op)) }

  function After(s: State, ops: seq<Op>): State
  {
    if ops == [] then s else Next(After(s, ops[..|ops| - 1]), ops[|ops| - 1])
  }

  // Before bootstrap: no identities, any capability definitions.
  function Initial(definitions: set<Capability>): State { State(false, [], map[], definitions, {}, {}, [], [], []) }
}
