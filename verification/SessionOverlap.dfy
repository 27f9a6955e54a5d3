/**
 Session transactions that overlap. A rotation locks the presented row, inserts its replacement and commits
 (src/platform/auth-sessions.ts:196-267). A family-wide or subject-wide revocation (lines 213-222, 362-384 and 391-414)
 is one UPDATE at the default isolation level (src/db/postgres.ts:45-60): it waits for rows that a rotation has
 locked, but changes only rows that were committed when it started. Here both are two steps, the start and the end,
 with every other transaction in between.
 */
module SessionOverlap {
  import opened Base
  import S = Sessions

  datatype Rotation = Rotation(token: nat, replacement: S.Session)

  datatype Scope = Family(family: nat) | Subject(subject: string, why: string) | Identity(identity: string, why: string)

  // A revocation under way and how many rows it saw.
  datatype Sweep = Sweep(scope: Scope, bound: nat)

  datatype World = World(sessions: seq<S.Session>, rotations: map<int, Rotation>, sweeps: map<int, Sweep>)

  const START := World([], map[], map[])

  datatype Move =
    | Login(subject: string, lookup: S.Lookup, expiresAt: int)
    | Logout(id: nat, subject: string, why: string)
    | Present(worker: int, token: nat, now: int, lookup: S.Lookup, expiresAt: int)
    | RevokeAll(worker: int, scope: Scope)
    | Finish(worker: int)
    | Drop(worker: int)

  // ---------- steps ----------

  predicate InScope(scope: Scope, x: S.Session)
  {
    match scope
    case Family(family) => x.family == family
    case Subject(subject, _) => x.subject == subject
    case Identity(identity, _) => x.identity == Some(identity) || x.subject == identity
  }

  function Strike(scope: Scope, x: S.Session): S.Session
  {
    match scope
    case Family(_) => S.KillOne(x)
    case Subject(_, why) => S.RevokeOne(x, why)
    case Identity(_, why) => S.RevokeOne(x, why)
  }

  // The rows of the scope that the revocation saw, in the version that is committed when it gets to them.
  function Swept(s: seq<S.Session>, sweep: Sweep): seq<S.Session>
  {
    seq(|s|, i requires 0 <= i < |s| =>
      if i < sweep.bound && InScope(sweep.scope, s[i]) then Strike(sweep.scope, s[i]) else s[i])
  }

  predicate Idle(w: World, worker: int) { worker !in w.rotations && worker !in w.sweeps }

  predicate Locked(w: World, id: nat) { exists v :: v in w.rotations && w.rotations[v].token == id }

  // A rotation holds a row that the revocation must change.
  predicate Waits(w: World, sweep: Sweep)
  {
    exists v :: && v in w.rotations && w.rotations[v].token < |w.sessions| && w.rotations[v].token < sweep.bound
                && InScope(sweep.scope, w.sessions[w.rotations[v].token])
  }

  function DoPresent(w: World, worker: int, token: nat, now: int, lookup: S.Lookup, expiresAt: int): World
  {
    var outcome := S.DoRotate(w.sessions, token, now, lookup, expiresAt);
    if !Idle(w, worker) || Locked(w, token) then w
    else if outcome.1.None? && |outcome.0| > |w.sessions| then
      w.(rotations := w.rotations[worker := Rotation(token, outcome.0[|w.sessions|])])
    else if outcome.1 == Some(S.ReuseOfRotated) && token < |w.sessions| then
      w.(sweeps := w.sweeps[worker := Sweep(Family(w.sessions[token].family), |w.sessions|)])
    else w
  }

  function ReplaceToken(s: seq<S.Session>, r: Rotation): seq<S.Session>
    requires r.token < |s|
  {
    (s + [r.replacement])[r.token := s[r.token].(revoked := Some(S.Rotated), replacedBy := Some(|s|))]
  }

  function DoFinish(w: World, worker: int): World
  {
    if worker in w.rotations && w.rotations[worker].token < |w.sessions| then
      World(ReplaceToken(w.sessions, w.rotations[worker]), w.rotations - {worker}, w.sweeps)
    else if worker in w.sweeps && !Waits(w, w.sweeps[worker]) then
      World(Swept(w.sessions, w.sweeps[worker]), w.rotations, w.sweeps - {worker})
    else w
  }

  function Next(w: World, m: Move): World
  {
    match m
    case Login(subject, lookup, expiresAt) =>
      w.(sessions := Committed(w.sessions, S.DoCreate(w.sessions, subject, lookup, expiresAt)))
    case Logout(id, subject, why) =>
      if Locked(w, id) then w else w.(sessions := S.DoRevoke(w.sessions, id, subject, why))
    case Present(worker, token, now, lookup, expiresAt) => DoPresent(w, worker, token, now, lookup, expiresAt)
    case RevokeAll(worker, scope) =>
      if !Idle(w, worker) || scope.Family? then w else w.(sweeps := w.sweeps[worker := Sweep(scope, |w.sessions|)])
    case Finish(worker) => DoFinish(w, worker)
    case Drop(worker) => w.(rotations := w.rotations - {worker}, sweeps := w.sweeps - {worker})
  }

  function After(w: World, moves: seq<Move>): World
  {
    if moves == [] then w else Next(After(w, moves[..|moves| - 1]), moves[|moves| - 1])
  }

  /** A presentation, or a revocation of a subject or an identity, that nothing overlaps is the atomic one. */
  lemma AloneIsAtomic(w: World, worker: int, token: nat, now: int, lookup: S.Lookup, expiresAt: int, who: string,
                      why: string)
    requires w.rotations == map[] && w.sweeps == map[]
    ensures Next(Next(w, Present(worker, token, now, lookup, expiresAt)), Finish(worker)).sessions
         == S.DoRotate(w.sessions, token, now, lookup, expiresAt).0
    ensures Next(Next(w, RevokeAll(worker, Subject(who, why))), Finish(worker)).sessions
         == S.RevokeWhere(w.sessions, S.OfSubject(who), why)
    ensures Next(Next(w, RevokeAll(worker, Identity(who, why))), Finish(worker)).sessions
         == S.RevokeWhere(w.sessions, S.OfIdentity(who), why)
  {
    var n := |w.sessions|;
    if S.DoRotate(w.sessions, token, now, lookup, expiresAt).1 == Some(S.ReuseOfRotated) {
      var family := w.sessions[token].family;
      assert Swept(w.sessions, Sweep(Family(family), n)) == S.KillFamily(w.sessions, family);
    }
    assert Swept(w.sessions, Sweep(Subject(who, why), n)) == S.RevokeWhere(w.sessions, S.OfSubject(who), why);
    assert Swept(w.sessions, Sweep(Identity(who, why), n)) == S.RevokeWhere(w.sessions, S.OfIdentity(who), why);
  }

  // ---------- what overlapping keeps ----------

  ghost predicate RotationOk(s: seq<S.Session>, r: Rotation)
  {
    && r.token < |s| && s[r.token].revoked.None?
    && r.replacement.family == s[r.token].family && r.replacement.revoked.None? && r.replacement.replacedBy.None?
  }

  ghost predicate WorldOk(w: World)
  {
    && S.Inv(w.sessions)
    && (forall v :: v in w.rotations ==> RotationOk(w.sessions, w.rotations[v]))
    && (forall u, v :: u in w.rotations && v in w.rotations && u != v ==> w.rotations[u].token != w.rotations[v].token)
  }

  // Rows change only in being revoked, and those a rotation holds do not change at all.
  lemma UntouchedRotations(w: World, sessions: seq<S.Session>)
    requires WorldOk(w) && |w.sessions| <= |sessions|
    requires forall v :: v in w.rotations ==> sessions[w.rotations[v].token] == w.sessions[w.rotations[v].token]
    requires S.Inv(sessions)
    ensures WorldOk(w.(sessions := sessions))
  {
  }

  lemma LoginKeeps(w: World, subject: string, lookup: S.Lookup, expiresAt: int)
    requires WorldOk(w)
    ensures WorldOk(Next(w, Login(subject, lookup, expiresAt)))
  {
    S.NextKeeps(w.sessions, S.Create(subject, lookup, expiresAt));
    UntouchedRotations(w, Next(w, Login(subject, lookup, expiresAt)).sessions);
  }

  lemma LogoutKeeps(w: World, id: nat, subject: string, why: string)
    requires WorldOk(w)
    ensures WorldOk(Next(w, Logout(id, subject, why)))
  {
    if !Locked(w, id) {
      S.NextKeeps(w.sessions, S.Revoke(id, subject, why));
      UntouchedRotations(w, S.DoRevoke(w.sessions, id, subject, why));
    }
  }

  lemma RotationCommitKeeps(w: World, worker: int)
    requires WorldOk(w) && worker in w.rotations
    ensures WorldOk(DoFinish(w, worker))
  {
    var r := w.rotations[worker];
    S.RotateKeeps(w.sessions, r.token, r.replacement);
    UntouchedRotations(w.(rotations := w.rotations - {worker}), ReplaceToken(w.sessions, r));
  }

  lemma SweepRevokesOnly(s: seq<S.Session>, sweep: Sweep)
    ensures S.OnlyRevokes(s, Swept(s, sweep))
  {
  }

  lemma SweepKeeps(w: World, worker: int)
    requires WorldOk(w) && worker !in w.rotations && worker in w.sweeps && !Waits(w, w.sweeps[worker])
    ensures WorldOk(DoFinish(w, worker))
  {
    SweepRevokesOnly(w.sessions, w.sweeps[worker]);
    S.RevokingKeeps(w.sessions, Swept(w.sessions, w.sweeps[worker]));
    UntouchedRotations(w, Swept(w.sessions, w.sweeps[worker]));
  }

  lemma NextKeeps(w: World, m: Move)
    requires WorldOk(w)
    ensures WorldOk(Next(w, m))
  {
    match m
    case Login(subject, lookup, expiresAt) => LoginKeeps(w, subject, lookup, expiresAt);
    case Logout(id, subject, why) => LogoutKeeps(w, id, subject, why);
    case Present(_, _, _, _, _) =>
    case RevokeAll(_, _) =>
    case Finish(worker) =>
      if worker in w.rotations {
        RotationCommitKeeps(w, worker);
      } else if worker in w.sweeps && !Waits(w, w.sweeps[worker]) {
        SweepKeeps(w, worker);
      }
    case Drop(_) =>
  }

  lemma {:induction false} EveryRunKeeps(w: World, moves: seq<Move>)
    requires WorldOk(w)
    ensures WorldOk(After(w, moves))
  {
    if moves != [] {
      EveryRunKeeps(w, moves[..|moves| - 1]);
      NextKeeps(After(w, moves[..|moves| - 1]), moves[|moves| - 1]);
    }
  }

  /** However transactions overlap, a family has at most one unrevoked session, at the end of its replaced-by chain. */
  lemma OneLiveSessionUnderOverlap(moves: seq<Move>, k: nat, i: nat)
    requires var s := After(START, moves).sessions; k < |s| && i < |s| && S.Related(s, i, k) && s[k].revoked.None?
    ensures var s := After(START, moves).sessions; S.Tail(s, i) == k && (s[i].revoked.None? ==> i == k)
  {
    EveryRunKeeps(START, moves);
    S.LiveIsTail(After(START, moves).sessions, k, i);
  }

  // ---------- what a revocation leaves ----------

  ghost predicate Survives(s: seq<S.Session>, scope: Scope)
  {
    exists i :: 0 <= i < |s| && InScope(scope, s[i]) && s[i].revoked.None?
  }

  function Started(w: World, worker: int, scope: Scope): World
  {
    w.(sweeps := w.sweeps[worker := Sweep(scope, |w.sessions|)])
  }

  // The transaction that revokes does nothing else: it only ends, by committing.
  predicate OnlyEnds(m: Move, worker: int) { m.Present? || m.RevokeAll? || m.Drop? ==> m.worker != worker }

  ghost predicate Undisturbed(moves: seq<Move>, worker: int) { forall m :: m in moves ==> OnlyEnds(m, worker) }

  // Scopes speak of columns that no step changes.
  lemma ScopeIsFixed(w: World, m: Move, scope: Scope, i: nat)
    requires i < |w.sessions|
    ensures var s := Next(w, m).sessions;
            i < |s| && (InScope(scope, s[i]) <==> InScope(scope, w.sessions[i]))
            && (s[i].revoked.None? ==> w.sessions[i].revoked.None?)
  {
  }

  // Until the revocation ends it remembers what it saw; once it has ended nothing it saw is left.
  ghost predicate Behind(w: World, worker: int, scope: Scope, bound: nat)
  {
    && worker !in w.rotations && bound <= |w.sessions|
    && (worker in w.sweeps ==> w.sweeps[worker] == Sweep(scope, bound))
    && (worker !in w.sweeps ==>
          forall i :: 0 <= i < bound && InScope(scope, w.sessions[i]) ==> w.sessions[i].revoked.Some?)
  }

  lemma StepStaysBehind(w: World, m: Move, worker: int, scope: Scope, bound: nat)
    requires Behind(w, worker, scope, bound) && OnlyEnds(m, worker)
    ensures Behind(Next(w, m), worker, scope, bound)
  {
    var next := Next(w, m);
    forall i | 0 <= i < |w.sessions|
      ensures i < |next.sessions| && (InScope(scope, next.sessions[i]) <==> InScope(scope, w.sessions[i]))
      ensures next.sessions[i].revoked.None? ==> w.sessions[i].revoked.None?
    {
      ScopeIsFixed(w, m, scope, i);
    }
    if worker in w.sweeps && worker !in next.sweeps {
      assert next.sessions == Swept(w.sessions, Sweep(scope, bound));
    }
  }

  // A step other than the end of this revocation revokes the session.
  predicate Revokes(w: World, m: Move, worker: int, i: nat)
  {
    && m != Finish(worker) && i < |w.sessions| <= |Next(w, m).sessions|
    && w.sessions[i].revoked.None? && Next(w, m).sessions[i].revoked.Some?
  }

  ghost predicate RevokedOtherwise(w: World, moves: seq<Move>, worker: int, i: nat)
  {
    if moves == [] then false
    else
      var n := |moves| - 1;
      RevokedOtherwise(w, moves[..n], worker, i) || Revokes(After(w, moves[..n]), moves[n], worker, i)
  }

  // A rotation that committed inserted the session.
  ghost predicate CameByRotation(w: World, moves: seq<Move>, i: nat)
  {
    if moves == [] then false
    else
      var n := |moves| - 1;
      var last := After(w, moves[..n]);
      || CameByRotation(w, moves[..n], i)
      || (moves[n].Finish? && moves[n].worker in last.rotations
          && |last.sessions| == i < |Next(last, moves[n]).sessions|)
  }

  // Sessions committed since the revocation started, and what it does to them: nothing.
  lemma NewerStep(w: World, m: Move, worker: int, scope: Scope, bound: nat, i: nat)
    requires WorldOk(w) && Behind(w, worker, scope, bound) && bound <= i < |Next(w, m).sessions|
    ensures Next(w, m).sessions[i].revoked.None?
       <==> (i < |w.sessions| ==> w.sessions[i].revoked.None?) && !Revokes(w, m, worker, i)
  {
    if i < |w.sessions| {
      ScopeIsFixed(w, m, scope, i);
    }
  }

  lemma NewRow(w: World, m: Move, i: nat)
    requires i < |Next(w, m).sessions|
    ensures i < |w.sessions| ==> Next(w, m).sessions[i].family == w.sessions[i].family
    ensures i >= |w.sessions| ==> i == |w.sessions| && (m.Login? || (m.Finish? && m.worker in w.rotations))
    ensures i >= |w.sessions| && m.Login? ==> Next(w, m).sessions[i].family == i
  {
  }

  lemma {:induction false} NewerAreLeftAlone(w: World, worker: int, scope: Scope, moves: seq<Move>, i: nat)
    requires WorldOk(w) && Idle(w, worker) && Undisturbed(moves, worker)
    requires |w.sessions| <= i < |After(Started(w, worker, scope), moves).sessions|
    ensures var start := Started(w, worker, scope);
            After(start, moves).sessions[i].revoked.None? <==> !RevokedOtherwise(start, moves, worker, i)
  {
    if moves != [] {
      var n := |moves| - 1;
      var start := Started(w, worker, scope);
      var last := After(start, moves[..n]);
      EveryRunKeeps(start, moves[..n]);
      RunsStayBehind(w, worker, scope, moves[..n]);
      NewerStep(last, moves[n], worker, scope, |w.sessions|, i);
      if i < |last.sessions| {
        NewerAreLeftAlone(w, worker, scope, moves[..n], i);
      } else {
        NotYetRevoked(start, moves[..n], worker, i);
      }
    }
  }

  lemma {:induction false} NewerOfOldFamilyIsRotated(w: World, worker: int, scope: Scope, moves: seq<Move>, i: nat)
    requires |w.sessions| <= i < |After(Started(w, worker, scope), moves).sessions|
    requires After(Started(w, worker, scope), moves).sessions[i].family < |w.sessions|
    ensures CameByRotation(Started(w, worker, scope), moves, i)
  {
    if moves != [] {
      var n := |moves| - 1;
      var start := Started(w, worker, scope);
      var last := After(start, moves[..n]);
      NewRow(last, moves[n], i);
      if i < |last.sessions| {
        NewerOfOldFamilyIsRotated(w, worker, scope, moves[..n], i);
      }
    }
  }

  lemma {:induction false} NotYetRevoked(w: World, moves: seq<Move>, worker: int, i: nat)
    requires |After(w, moves).sessions| <= i
    ensures !RevokedOtherwise(w, moves, worker, i)
  {
    if moves != [] {
      var n := |moves| - 1;
      var last := After(w, moves[..n]);
      if i < |last.sessions| {
        ScopeIsFixed(last, moves[n], Family(0), i);
      }
      NotYetRevoked(w, moves[..n], worker, i);
    }
  }

  lemma {:induction false} RunsStayBehind(w: World, worker: int, scope: Scope, moves: seq<Move>)
    requires Idle(w, worker) && Undisturbed(moves, worker)
    ensures Behind(After(Started(w, worker, scope), moves), worker, scope, |w.sessions|)
  {
    if moves != [] {
      var n := |moves| - 1;
      assert moves[n] in moves;
      RunsStayBehind(w, worker, scope, moves[..n]);
      StepStaysBehind(After(Started(w, worker, scope), moves[..n]), moves[n], worker, scope, |w.sessions|);
    }
  }

  /**
   Whatever overlaps: once a revocation has ended, a session of its scope is unrevoked if and only if it was committed
   after the revocation started and no other step has revoked it. In a family such a session comes from a rotation that
   committed meanwhile.
   */
  lemma OnlyNewerSessionsSurvive(before: seq<Move>, worker: int, scope: Scope, moves: seq<Move>, i: nat)
    requires Idle(After(START, before), worker) && Undisturbed(moves, worker)
    requires var last := After(Started(After(START, before), worker, scope), moves);
             worker !in last.sweeps && i < |last.sessions| && InScope(scope, last.sessions[i])
    ensures var w := After(START, before);
            var start := Started(w, worker, scope);
            && (After(start, moves).sessions[i].revoked.None?
                <==> i >= |w.sessions| && !RevokedOtherwise(start, moves, worker, i))
            && (scope.Family? && scope.family < |w.sessions| <= i ==> CameByRotation(start, moves, i))
  {
    EveryRunKeeps(START, before);
    var w := After(START, before);
    RunsStayBehind(w, worker, scope, moves);
    if i >= |w.sessions| {
      NewerAreLeftAlone(w, worker, scope, moves, i);
      if scope.Family? && scope.family < |w.sessions| {
        NewerOfOldFamilyIsRotated(w, worker, scope, moves, i);
      }
    }
  }

  // ---------- when a revocation can miss a session ----------

  // A rotation under way whose replacement belongs to the scope.
  ghost predicate Rotating(w: World, scope: Scope)
  {
    exists v :: v in w.rotations && InScope(scope, w.rotations[v].replacement)
  }

  // An unrevoked session of the scope whose token can still be presented.
  ghost predicate Usable(w: World, scope: Scope, now: int)
  {
    exists i :: 0 <= i < |w.sessions| && InScope(scope, w.sessions[i]) && w.sessions[i].revoked.None?
                && now < w.sessions[i].expiresAt
  }

  // After the revocation has started, no session of its scope begins.
  ghost predicate Calm(w: World, m: Move, worker: int, scope: Scope)
  {
    var next := Next(w, m);
    && (forall v :: v in next.rotations && v !in w.rotations ==> !InScope(scope, next.rotations[v].replacement))
    && (m.Login? && |w.sessions| < |next.sessions| ==> !InScope(scope, next.sessions[|w.sessions|]))
    && OnlyEnds(m, worker)
  }

  ghost predicate AllCalm(w: World, moves: seq<Move>, worker: int, scope: Scope)
  {
    moves == [] || (AllCalm(w, moves[..|moves| - 1], worker, scope)
                    && Calm(After(w, moves[..|moves| - 1]), moves[|moves| - 1], worker, scope))
  }

  // No clock runs back. Nobody logs in to the subject or identity again, and no lookup moves a session of another one
  // there; a family asks for nothing of the kind.
  ghost predicate Continues(w: World, m: Move, worker: int, scope: Scope, now: int)
  {
    var next := Next(w, m);
    && OnlyEnds(m, worker) && (m.Present? ==> now <= m.now)
    && (scope.Family? || (m.Login? && |w.sessions| < |next.sessions| ==> !InScope(scope, next.sessions[|w.sessions|])))
    && (scope.Family? || (m.Present? && m.worker in next.rotations && m.worker !in w.rotations
                          && InScope(scope, next.rotations[m.worker].replacement)
                          ==> m.token < |w.sessions| && InScope(scope, w.sessions[m.token])))
  }

  ghost predicate AllContinue(w: World, moves: seq<Move>, worker: int, scope: Scope, now: int)
  {
    moves == [] || (AllContinue(w, moves[..|moves| - 1], worker, scope, now)
                    && Continues(After(w, moves[..|moves| - 1]), moves[|moves| - 1], worker, scope, now))
  }

  // The revocation can end and leave a session of its scope unrevoked.
  ghost predicate CanMiss(w: World, worker: int, scope: Scope, now: int)
  {
    exists moves :: AllContinue(w, moves, worker, scope, now) && worker !in After(w, moves).sweeps
                    && Survives(After(w, moves).sessions, scope)
  }

  // The same although no session of the scope begins.
  ghost predicate CanMissCalmly(w: World, worker: int, scope: Scope)
  {
    exists moves :: AllCalm(w, moves, worker, scope) && worker !in After(w, moves).sweeps
                    && Survives(After(w, moves).sessions, scope)
  }

  // Nothing of the scope is beyond what the revocation saw.
  ghost predicate Contained(w: World, worker: int, scope: Scope, bound: nat)
  {
    && Behind(w, worker, scope, bound) && !Rotating(w, scope)
    && forall i :: bound <= i < |w.sessions| ==> !InScope(scope, w.sessions[i])
  }

  lemma NewSessionsAreOutside(w: World, m: Move, worker: int, scope: Scope)
    requires !Rotating(w, scope) && Calm(w, m, worker, scope)
    ensures var s := Next(w, m).sessions; forall i :: |w.sessions| <= i < |s| ==> !InScope(scope, s[i])
    ensures !Rotating(Next(w, m), scope)
  {
  }

  lemma CalmKeepsContained(w: World, m: Move, worker: int, scope: Scope, bound: nat)
    requires Contained(w, worker, scope, bound) && Calm(w, m, worker, scope)
    ensures Contained(Next(w, m), worker, scope, bound)
  {
    StepStaysBehind(w, m, worker, scope, bound);
    NewSessionsAreOutside(w, m, worker, scope);
    forall i | bound <= i < |w.sessions| ensures !InScope(scope, Next(w, m).sessions[i]) {
      ScopeIsFixed(w, m, scope, i);
    }
  }

  lemma {:induction false} CalmRunsStayContained(w: World, moves: seq<Move>, worker: int, scope: Scope, bound: nat)
    requires Contained(w, worker, scope, bound) && AllCalm(w, moves, worker, scope)
    ensures Contained(After(w, moves), worker, scope, bound)
  {
    if moves != [] {
      var n := |moves| - 1;
      CalmRunsStayContained(w, moves[..n], worker, scope, bound);
      CalmKeepsContained(After(w, moves[..n]), moves[n], worker, scope, bound);
    }
  }

  // With nothing usable left, no rotation into the scope can begin any more.
  lemma SpentStepIsCalm(w: World, m: Move, worker: int, scope: Scope, now: int)
    requires WorldOk(w) && !Rotating(w, scope) && !Usable(w, scope, now) && Continues(w, m, worker, scope, now)
    requires scope.Family? ==> scope.family < |w.sessions|
    ensures Calm(w, m, worker, scope) && !Usable(Next(w, m), scope, now) && |w.sessions| <= |Next(w, m).sessions|
  {
    var next := Next(w, m);
    forall v | v in next.rotations && v !in w.rotations ensures !InScope(scope, next.rotations[v].replacement) {
      assert m.Present? && v == m.worker && next.rotations[v].replacement.family == w.sessions[m.token].family;
    }
    NewSessionsAreOutside(w, m, worker, scope);
    forall i | 0 <= i < |w.sessions|
      ensures i < |next.sessions| && (InScope(scope, next.sessions[i]) <==> InScope(scope, w.sessions[i]))
      ensures next.sessions[i].expiresAt == w.sessions[i].expiresAt
      ensures next.sessions[i].revoked.None? ==> w.sessions[i].revoked.None?
    {
      ScopeIsFixed(w, m, scope, i);
    }
  }

  lemma {:induction false} SpentRunsAreCalm(w: World, moves: seq<Move>, worker: int, scope: Scope, now: int, bound: nat)
    requires WorldOk(w) && Contained(w, worker, scope, bound) && !Usable(w, scope, now)
    requires scope.Family? ==> scope.family < |w.sessions|
    requires AllContinue(w, moves, worker, scope, now)
    ensures Contained(After(w, moves), worker, scope, bound) && !Usable(After(w, moves), scope, now)
    ensures |w.sessions| <= |After(w, moves).sessions|
  {
    if moves != [] {
      var n := |moves| - 1;
      SpentRunsAreCalm(w, moves[..n], worker, scope, now, bound);
      EveryRunKeeps(w, moves[..n]);
      SpentStepIsCalm(After(w, moves[..n]), moves[n], worker, scope, now);
      CalmKeepsContained(After(w, moves[..n]), moves[n], worker, scope, bound);
    }
  }

  // ---------- the escapes ----------

  // Both kinds of run grow by a step that fits.
  lemma OneMore(w: World, moves: seq<Move>, m: Move, worker: int, scope: Scope, now: int)
    ensures After(w, moves + [m]) == Next(After(w, moves), m)
    ensures AllCalm(w, moves, worker, scope) && Calm(After(w, moves), m, worker, scope) ==>
              AllCalm(w, moves + [m], worker, scope)
    ensures AllContinue(w, moves, worker, scope, now) && Continues(After(w, moves), m, worker, scope, now) ==>
              AllContinue(w, moves + [m], worker, scope, now)
  {
    assert (moves + [m])[..|moves|] == moves;
  }

  // Every rotation under way may roll back.
  lemma {:induction false} AllDrop(w: World, moves: seq<Move>, worker: int, scope: Scope, now: int)
    returns (more: seq<Move>)
    requires worker !in After(w, moves).rotations && Separate(After(w, moves))
    ensures AllCalm(w, moves, worker, scope) ==> AllCalm(w, more, worker, scope)
    ensures AllContinue(w, moves, worker, scope, now) ==> AllContinue(w, more, worker, scope, now)
    ensures var last := After(w, more);
            last == After(w, moves).(rotations := last.rotations) && forall v :: v !in last.rotations
    decreases After(w, moves).rotations.Keys
  {
    var last := After(w, moves);
    if v :| v in last.rotations {
      OneMore(w, moves, Drop(v), worker, scope, now);
      assert last.sweeps - {v} == last.sweeps;
      assert last.rotations.Keys - {v} < last.rotations.Keys;
      more := AllDrop(w, moves + [Drop(v)], worker, scope, now);
    } else {
      more := moves;
    }
  }

  // Rotations and revocations are different transactions.
  ghost predicate Separate(w: World) { forall v :: v in w.rotations ==> v !in w.sweeps }

  // With no rotation under way the revocation ends, and misses what was committed since it started.
  lemma EndsAndMisses(w: World, moves: seq<Move>, worker: int, scope: Scope, now: int, bound: nat)
    requires var last := After(w, moves);
             && (forall v :: v !in last.rotations)
             && worker in last.sweeps && last.sweeps[worker] == Sweep(scope, bound)
             && bound < |last.sessions| && InScope(scope, last.sessions[bound]) && last.sessions[bound].revoked.None?
    ensures AllContinue(w, moves, worker, scope, now) ==> CanMiss(w, worker, scope, now)
    ensures AllCalm(w, moves, worker, scope) ==> CanMissCalmly(w, worker, scope)
  {
    OneMore(w, moves, Finish(worker), worker, scope, now);
    var ended := After(w, moves + [Finish(worker)]);
    assert ended.sessions[bound] == After(w, moves).sessions[bound];
    assert Survives(ended.sessions, scope);
  }

  lemma RotationUnderWayEscapes(w: World, worker: int, scope: Scope, now: int, v: int)
    requires WorldOk(w) && Separate(w) && Idle(w, worker) && v in w.rotations
    requires InScope(scope, w.rotations[v].replacement)
    ensures CanMiss(Started(w, worker, scope), worker, scope, now)
    ensures CanMissCalmly(Started(w, worker, scope), worker, scope)
  {
    var start := Started(w, worker, scope);
    OneMore(start, [], Finish(v), worker, scope, now);
    assert [] + [Finish(v)] == [Finish(v)];
    assert After(start, [Finish(v)]).sessions == ReplaceToken(w.sessions, w.rotations[v]);
    var moves := AllDrop(start, [Finish(v)], worker, scope, now);
    EndsAndMisses(start, moves, worker, scope, now, |w.sessions|);
  }

  lemma {:induction false} FreshWorker(used: set<int>) returns (v: int)
    ensures forall u :: u in used ==> u < v
  {
    if u :| u in used {
      var rest := FreshWorker(used - {u});
      assert forall x :: x in used ==> x == u || x in used - {u};
      v := if u < rest then rest else u + 1;
    } else {
      v := 0;
    }
  }

  // The session of the same subject and identity that a rotation at this time inserts.
  function Renewed(x: S.Session, now: int): S.Session
  {
    S.Session(x.family, x.subject, x.identity, now + 1, None, None)
  }

  lemma UsableRotates(w: World, v: int, i: nat, now: int)
    requires (forall u :: u !in w.rotations) && v !in w.sweeps && i < |w.sessions|
    requires w.sessions[i].revoked.None? && now < w.sessions[i].expiresAt
    ensures var x := w.sessions[i];
            var open := Next(w, Present(v, i, now, S.Lookup(false, x.identity), now + 1));
            var done := Next(open, Finish(v));
            && open == w.(rotations := w.rotations[v := Rotation(i, Renewed(x, now))])
            && done.sessions == ReplaceToken(w.sessions, Rotation(i, Renewed(x, now)))
            && done.sweeps == w.sweeps && forall u :: u !in done.rotations
  {
  }

  // A usable session can still be rotated after the revocation has started.
  lemma LateRotationEscapes(w: World, worker: int, scope: Scope, now: int, i: nat)
    requires Separate(w) && Idle(w, worker) && i < |w.sessions| && InScope(scope, w.sessions[i])
    requires w.sessions[i].revoked.None? && now < w.sessions[i].expiresAt
    ensures CanMiss(Started(w, worker, scope), worker, scope, now)
  {
    var start := Started(w, worker, scope);
    var moves := AllDrop(start, [], worker, scope, now);
    var v := FreshWorker(start.sweeps.Keys);
    var present := Present(v, i, now, S.Lookup(false, w.sessions[i].identity), now + 1);
    UsableRotates(After(start, moves), v, i, now);
    OneMore(start, moves, present, worker, scope, now);
    OneMore(start, moves + [present], Finish(v), worker, scope, now);
    EndsAndMisses(start, moves + [present] + [Finish(v)], worker, scope, now, |w.sessions|);
  }

  lemma RevocationIsExact(w: World, worker: int, scope: Scope, now: int)
    requires WorldOk(w) && Separate(w) && Idle(w, worker) && (scope.Family? ==> scope.family < |w.sessions|)
    ensures CanMiss(Started(w, worker, scope), worker, scope, now) <==> Usable(w, scope, now) || Rotating(w, scope)
    ensures CanMissCalmly(Started(w, worker, scope), worker, scope) <==> Rotating(w, scope)
  {
    var start := Started(w, worker, scope);
    if Rotating(w, scope) {
      var v :| v in w.rotations && InScope(scope, w.rotations[v].replacement);
      RotationUnderWayEscapes(w, worker, scope, now, v);
    } else {
      assert Contained(start, worker, scope, |w.sessions|);
      forall moves | AllCalm(start, moves, worker, scope)
        ensures worker in After(start, moves).sweeps || !Survives(After(start, moves).sessions, scope)
      {
        CalmRunsStayContained(start, moves, worker, scope, |w.sessions|);
      }
      if Usable(w, scope, now) {
        var i :| 0 <= i < |w.sessions| && InScope(scope, w.sessions[i]) && w.sessions[i].revoked.None?
                 && now < w.sessions[i].expiresAt;
        LateRotationEscapes(w, worker, scope, now, i);
      } else {
        forall moves | AllContinue(start, moves, worker, scope, now)
          ensures worker in After(start, moves).sweeps || !Survives(After(start, moves).sessions, scope)
        {
          SpentRunsAreCalm(start, moves, worker, scope, now, |w.sessions|);
        }
      }
    }
  }

  lemma {:induction false} EveryRunSeparates(w: World, moves: seq<Move>)
    requires Separate(w)
    ensures Separate(After(w, moves))
  {
    if moves != [] {
      EveryRunSeparates(w, moves[..|moves| - 1]);
    }
  }

  /**
   For reuse detection. After any interleaving, presenting an unexpired rotated token can leave its family with an
   unrevoked session if and only if the family still has an unrevoked and unexpired session or a rotation under way;
   although no rotation of the family begins later, if and only if one is under way.
   */
  lemma ReuseIsExact(moves: seq<Move>, worker: int, token: nat, now: int, lookup: S.Lookup, expiresAt: int)
    requires var w := After(START, moves);
             && Idle(w, worker) && token < |w.sessions| && w.sessions[token].revoked == Some(S.Rotated)
             && now < w.sessions[token].expiresAt
    ensures var w := After(START, moves);
            var family := Family(w.sessions[token].family);
            var start := Next(w, Present(worker, token, now, lookup, expiresAt));
            && start == Started(w, worker, family)
            && (CanMiss(start, worker, family, now) <==> Usable(w, family, now) || Rotating(w, family))
            && (CanMissCalmly(start, worker, family) <==> Rotating(w, family))
  {
    EveryRunKeeps(START, moves);
    EveryRunSeparates(START, moves);
    var w := After(START, moves);
    assert !Locked(w, token);
    RevocationIsExact(w, worker, Family(w.sessions[token].family), now);
  }

  /** The same for revoking all sessions of a subject or an identity. */
  lemma RevokeAllIsExact(moves: seq<Move>, worker: int, scope: Scope, now: int)
    requires Idle(After(START, moves), worker) && !scope.Family?
    ensures var w := After(START, moves);
            var start := Next(w, RevokeAll(worker, scope));
            && start == Started(w, worker, scope)
            && (CanMiss(start, worker, scope, now) <==> Usable(w, scope, now) || Rotating(w, scope))
            && (CanMissCalmly(start, worker, scope) <==> Rotating(w, scope))
  {
    EveryRunKeeps(START, moves);
    EveryRunSeparates(START, moves);
    RevocationIsExact(After(START, moves), worker, scope, now);
  }

  // ---------- runs that need it ----------

  const ANY := S.Lookup(false, None)

  function Live(subject: string): S.Session { S.Session(0, subject, None, 100, None, None) }

  function Dead(why: S.Reason, next: nat): S.Session { S.Session(0, "u", None, 100, Some(why), Some(next)) }

  const ESCAPED := [Dead(S.ReuseDetected, 1), Dead(S.ReuseDetected, 2), Live("u")]

  lemma LoginThenRotate() returns (moves: seq<Move>)
    ensures After(START, moves) == World([Dead(S.Rotated, 1), Live("u")], map[], map[])
  {
    moves := [Login("u", ANY, 100)];
    Steps(START, [], moves[0]);
    assert After(START, moves).sessions == [Live("u")];
    Steps(START, moves, Present(1, 0, 0, ANY, 100));
    moves := moves + [Present(1, 0, 0, ANY, 100)];
    assert After(START, moves).rotations == map[1 := Rotation(0, Live("u"))];
    Steps(START, moves, Finish(1));
    moves := moves + [Finish(1)];
  }

  // The live session is being rotated when the rotated token is presented again.
  lemma RotationOverlapsReuse(w: World)
    requires w == World([Dead(S.Rotated, 1), Live("u")], map[], map[])
    ensures var open := Next(Next(w, Present(1, 1, 0, ANY, 100)), Present(2, 0, 0, ANY, 100));
            Next(Next(open, Finish(1)), Finish(2)).sessions == ESCAPED
  {
    var one := Next(w, Present(1, 1, 0, ANY, 100));
    assert one.rotations == map[1 := Rotation(1, Live("u"))] && one.sweeps == map[];
    var two := Next(one, Present(2, 0, 0, ANY, 100));
    assert two.sweeps == map[2 := Sweep(Family(0), 2)];
    var three := Next(two, Finish(1));
    assert three.sessions == [Dead(S.Rotated, 1), Dead(S.Rotated, 2), Live("u")] && three.rotations == map[];
  }

  // The rotated token is presented again first, and the live session before that revocation ends.
  lemma LateRotationOverlapsReuse(w: World)
    requires w == World([Dead(S.Rotated, 1), Live("u")], map[], map[])
    ensures var open := Next(Next(w, Present(2, 0, 0, ANY, 100)), Present(1, 1, 0, ANY, 100));
            Next(Next(open, Finish(1)), Finish(2)).sessions == ESCAPED
  {
    var one := Next(w, Present(2, 0, 0, ANY, 100));
    assert one.sweeps == map[2 := Sweep(Family(0), 2)] && one.rotations == map[];
    var two := Next(one, Present(1, 1, 0, ANY, 100));
    assert two.rotations == map[1 := Rotation(1, Live("u"))];
    var three := Next(two, Finish(1));
    assert three.sessions == [Dead(S.Rotated, 1), Dead(S.Rotated, 2), Live("u")] && three.rotations == map[];
  }

  lemma Steps(w: World, moves: seq<Move>, m: Move)
    ensures After(w, moves + [m]) == Next(After(w, moves), m)
  {
    assert (moves + [m])[..|moves|] == moves;
  }

  lemma FourSteps(w: World, moves: seq<Move>, a: Move, b: Move, c: Move, d: Move)
    ensures After(w, moves + [a] + [b] + [c] + [d]) == Next(Next(Next(Next(After(w, moves), a), b), c), d)
  {
    Steps(w, moves, a);
    Steps(w, moves + [a], b);
    Steps(w, moves + [a] + [b], c);
    Steps(w, moves + [a] + [b] + [c], d);
  }

  /** As the code stands, a session can survive the detected reuse of its family's rotated token. */
  lemma SessionSurvivesReuse()
    ensures exists moves :: After(START, moves).sessions == ESCAPED
  {
    var moves := LoginThenRotate();
    RotationOverlapsReuse(After(START, moves));
    FourSteps(START, moves, Present(1, 1, 0, ANY, 100), Present(2, 0, 0, ANY, 100), Finish(1), Finish(2));
  }

  /** So it can when no rotation of the family is under way and one begins only after the revocation has started. */
  lemma LateRotationSurvivesReuse()
    ensures exists moves ::
              var w := After(START, moves);
              var start := Next(w, Present(2, 0, 0, ANY, 100));
              !Rotating(w, Family(0)) && start == Started(w, 2, Family(0))
              && After(start, [Present(1, 1, 0, ANY, 100), Finish(1), Finish(2)]).sessions == ESCAPED
  {
    var moves := LoginThenRotate();
    LateRotationOverlapsReuse(After(START, moves));
    var start := Next(After(START, moves), Present(2, 0, 0, ANY, 100));
    var run := [Present(1, 1, 0, ANY, 100), Finish(1), Finish(2)];
    assert run[..2] == [run[0], run[1]] && run[..2][..1] == [run[0]] && run[..2][..1][..0] == [];
    assert After(start, run[..2][..1]) == Next(start, run[0]);
    assert After(start, run[..2]) == Next(Next(start, run[0]), run[1]);
    assert After(start, run) == Next(After(start, run[..2]), run[2]);
  }

  /** As the code stands, a session can survive the revocation of all sessions of its subject. */
  lemma SessionSurvivesRevokeAll()
    ensures exists moves :: Survives(After(START, moves + [Finish(1), Finish(2)]).sessions, Subject("u", "logout"))
                            && 2 in After(START, moves).sweeps
                            && After(START, moves).sweeps[2].scope == Subject("u", "logout")
  {
    var scope := Subject("u", "logout");
    var moves := [];
    Steps(START, moves, Login("u", ANY, 100));
    moves := moves + [Login("u", ANY, 100)];
    Steps(START, moves, Present(1, 0, 0, ANY, 100));
    moves := moves + [Present(1, 0, 0, ANY, 100)];
    Steps(START, moves, RevokeAll(2, scope));
    moves := moves + [RevokeAll(2, scope)];
    var w := After(START, moves);
    assert w == World([Live("u")], map[1 := Rotation(0, Live("u"))], map[2 := Sweep(scope, 1)]);
    Steps(START, moves, Finish(1));
    Steps(START, moves + [Finish(1)], Finish(2));
    assert moves + [Finish(1)] + [Finish(2)] == moves + [Finish(1), Finish(2)];
    var last := Next(Next(w, Finish(1)), Finish(2));
    assert last.sessions == [Dead(S.Rotated, 1), Live("u")];
    assert InScope(scope, last.sessions[1]);
  }

  // ---------- extinction ----------

  lemma QuietStep(w: World, m: Move, family: nat)
    requires S.Extinct(w.sessions, family) && family < |w.sessions| && !Rotating(w, Family(family))
    ensures var next := Next(w, m);
            S.Extinct(next.sessions, family) && |w.sessions| <= |next.sessions| && !Rotating(next, Family(family))
  {
  }

  /** A family with no unrevoked session and no rotation under way never gains one again, however things overlap. */
  lemma {:induction false} QuietExtinctionIsForever(w: World, moves: seq<Move>, family: nat)
    requires S.Extinct(w.sessions, family) && family < |w.sessions| && !Rotating(w, Family(family))
    ensures var last := After(w, moves);
            S.Extinct(last.sessions, family) && |w.sessions| <= |last.sessions| && !Rotating(last, Family(family))
  {
    if moves != [] {
      QuietExtinctionIsForever(w, moves[..|moves| - 1], family);
      QuietStep(After(w, moves[..|moves| - 1]), moves[|moves| - 1], family);
    }
  }
}
