/**
 Rotating refresh-token families (src/platform/auth-sessions.ts): a refresh token is used once, and
 presenting one that was already rotated away revokes its whole family. A session's id, its token and,
 for the first session, its family are the row number: all are fresh random values in the code.
 */
module Sessions {
  import opened Base

  datatype Reason = Rotated | ReuseDetected | Because(text: string)

  datatype Session = Session(family: nat, subject: string, identity: Option<string>, expiresAt: int,
                             revoked: Option<Reason>, replacedBy: Option<nat>)

  datatype Refusal = NoIdentity | InvalidOrExpired | NotMapped | ReuseOfRotated | NoLongerValid

  // What the identity lookup of a subject found, and whether PostgreSQL is the identity authority.
  datatype Lookup = Lookup(native: bool, identity: Option<string>)

  datatype Op =
    | Create(subject: string, lookup: Lookup, expiresAt: int)
    | Rotate(token: nat, now: int, lookup: Lookup, expiresAt: int)
    | Revoke(id: nat, subject: string, why: string)
    | RevokeSubject(subject: string, why: string)
    | RevokeIdentity(identity: string, why: string)

  // ---------- steps ----------

  // insertSession
  function Insert(s: seq<Session>, family: nat, subject: string, lookup: Lookup, expiresAt: int)
    : Result<seq<Session>, Refusal>
  {
    if lookup.native && lookup.identity.None? then Err(NoIdentity)
    else Ok(s + [Session(family, subject, lookup.identity, expiresAt, None, None)])
  }

  function DoCreate(s: seq<Session>, subject: string, lookup: Lookup, expiresAt: int): Result<seq<Session>, Refusal>
  {
    Insert(s, |s|, subject, lookup, expiresAt)
  }

  function KillOne(x: Session): Session
  {
    x.(revoked := if x.revoked.None? || x.revoked.value.Rotated? then Some(ReuseDetected) else x.revoked)
  }

  function KillFamily(s: seq<Session>, family: nat): seq<Session>
  {
    seq(|s|, i requires 0 <= i < |s| => if s[i].family == family then KillOne(s[i]) else s[i])
  }

  // The outcome is the new table, which commits, and what the caller is told afterwards.
  function DoRotate(s: seq<Session>, token: nat, now: int, lookup: Lookup, expiresAt: int)
    : (seq<Session>, Option<Refusal>)
  {
    if token >= |s| || s[token].expiresAt <= now then (s, Some(InvalidOrExpired))
    else
      var current := s[token];
      if current.revoked == Some(Rotated) then (KillFamily(s, current.family), Some(ReuseOfRotated))
      else if current.revoked.Some? then (s, Some(NoLongerValid))
      else
        var subject := if lookup.native then current.identity else Some(current.subject);
        if subject.None? then (s, Some(NotMapped))
        else
          var inserted := Insert(s, current.family, subject.value, lookup, expiresAt);
          if inserted.Err? then (s, Some(inserted.error))
          else (inserted.value[token := current.(revoked := Some(Rotated), replacedBy := Some(|s|))], None)
  }

  function RevokeOne(x: Session, why: string): Session
  {
    if x.revoked.None? then x.(revoked := Some(Because(why))) else x
  }

  function DoRevoke(s: seq<Session>, id: nat, subject: string, why: string): seq<Session>
  {
    if id < |s| && s[id].subject == subject then s[id := RevokeOne(s[id], why)] else s
  }

  function RevokeWhere(s: seq<Session>, which: Session -> bool, why: string): seq<Session>
  {
    seq(|s|, i requires 0 <= i < |s| => if which(s[i]) then RevokeOne(s[i], why) else s[i])
  }

  function OfSubject(subject: string): Session -> bool { (x: Session) => x.subject == subject }

  function OfIdentity(identity: string): Session -> bool
  {
    (x: Session) => x.identity == Some(identity) || x.subject == identity
  }

  function Next(s: seq<Session>, op: Op): seq<Session>
  {
    match op
    case Create(subject, lookup, expiresAt) => Committed(s, DoCreate(s, subject, lookup, expiresAt))
    case Rotate(token, now, lookup, expiresAt) => DoRotate(s, token, now, lookup, expiresAt).0
    case Revoke(id, subject, why) => DoRevoke(s, id, subject, why)
    case RevokeSubject(subject, why) => RevokeWhere(s, OfSubject(subject), why)
    case RevokeIdentity(identity, why) => RevokeWhere(s, OfIdentity(identity), why)
  }

  function After(s: seq<Session>, ops: seq<Op>): seq<Session>
  {
    if ops == [] then s else Next(After(s, ops[..|ops| - 1]), ops[|ops| - 1])
  }

  // validateAuthSession
  predicate Validates(s: seq<Session>, id: nat, subject: string, now: int)
  {
    id < |s| && s[id].subject == subject && s[id].revoked.None? && s[id].expiresAt > now
  }

  // ---------- families ----------

  predicate Related(s: seq<Session>, i: nat, j: nat)
    requires i < |s| && j < |s|
  {
    s[i].family == s[j].family
  }

  // A replacement is a later session of the same family with none of the family between them.
  ghost predicate Replaces(s: seq<Session>, i: nat, j: nat)
    requires i < |s|
  {
    i < j < |s| && Related(s, i, j) && forall k :: i < k < j ==> !Related(s, i, k)
  }

  // A family is one chain of replacements: every session but the last is revoked and replaced by the next one.
  ghost predicate Inv(s: seq<Session>)
  {
    && (forall i :: 0 <= i < |s| ==> s[i].family <= i)
    && (forall i :: 0 <= i < |s| && s[i].replacedBy.Some? ==> Replaces(s, i, s[i].replacedBy.value))
    && (forall i, j :: 0 <= i < j < |s| && Related(s, i, j) ==> s[i].revoked.Some? && s[i].replacedBy.Some?)
    && (forall i :: 0 <= i < |s| && s[i].replacedBy.Some? ==>
                      s[i].revoked == Some(Rotated) || s[i].revoked == Some(ReuseDetected))
    && (forall i :: 0 <= i < |s| && s[i].revoked == Some(Rotated) ==> s[i].replacedBy.Some?)
  }

  // Same rows with some revoked: nothing about the chains moves.
  ghost predicate OnlyRevokes(s: seq<Session>, t: seq<Session>)
  {
    && |t| == |s|
    && forall i :: 0 <= i < |s| ==>
                     && t[i] == s[i].(revoked := t[i].revoked)
                     && (s[i].revoked.Some? ==>
                           t[i].revoked == s[i].revoked
                           || (s[i].revoked == Some(Rotated) && t[i].revoked == Some(ReuseDetected)))
                     && (s[i].revoked.None? ==> t[i].revoked != Some(Rotated))
  }

  lemma ReplacesCarriesOver(s: seq<Session>, t: seq<Session>, i: nat, j: nat)
    requires i < |s| <= |t| && Replaces(s, i, j) && forall k :: 0 <= k < |s| ==> t[k].family == s[k].family
    ensures Replaces(t, i, j)
  {
    forall k | i < k < j ensures !Related(t, i, k) { assert !Related(s, i, k); }
  }

  lemma RevokingKeeps(s: seq<Session>, t: seq<Session>)
    requires Inv(s) && OnlyRevokes(s, t)
    ensures Inv(t)
  {
    forall i | 0 <= i < |t| && t[i].replacedBy.Some? ensures Replaces(t, i, t[i].replacedBy.value) {
      ReplacesCarriesOver(s, t, i, s[i].replacedBy.value);
    }
    forall i, j | 0 <= i < j < |t| && Related(t, i, j) ensures t[i].revoked.Some? && t[i].replacedBy.Some? {
      assert Related(s, i, j);
    }
  }

  lemma CreateKeeps(s: seq<Session>, x: Session)
    requires Inv(s) && x.family == |s| && x.replacedBy.None? && x.revoked.None?
    ensures Inv(s + [x])
  {
    var t := s + [x];
    forall i | 0 <= i < |t| && t[i].replacedBy.Some? ensures Replaces(t, i, t[i].replacedBy.value) {
      ReplacesCarriesOver(s, t, i, s[i].replacedBy.value);
    }
    forall i, j | 0 <= i < j < |t| && Related(t, i, j) ensures t[i].revoked.Some? && t[i].replacedBy.Some? {
      assert j < |s| ==> Related(s, i, j);
    }
  }

  // An unrevoked session is the last of its family.
  lemma LiveIsLast(s: seq<Session>, k: nat, i: nat)
    requires Inv(s) && k < |s| && s[k].revoked.None? && i < |s| && Related(s, i, k)
    ensures i <= k
  {
    if k < i {
      assert Related(s, k, i);
    }
  }

  lemma RotateKeeps(s: seq<Session>, token: nat, x: Session)
    requires Inv(s) && token < |s| && s[token].revoked.None? && x.family == s[token].family && x.revoked.None?
    requires x.replacedBy.None?
    ensures Inv((s + [x])[token := s[token].(revoked := Some(Rotated), replacedBy := Some(|s|))])
  {
    var t := (s + [x])[token := s[token].(revoked := Some(Rotated), replacedBy := Some(|s|))];
    forall i | 0 <= i < |t| && t[i].replacedBy.Some? ensures Replaces(t, i, t[i].replacedBy.value) {
      if i == token {
        forall k | token < k < |s| ensures !Related(t, token, k) {
          if Related(s, k, token) { LiveIsLast(s, token, k); }
        }
      } else {
        ReplacesCarriesOver(s, t, i, s[i].replacedBy.value);
      }
    }
    forall i, j | 0 <= i < j < |t| && Related(t, i, j) ensures t[i].revoked.Some? && t[i].replacedBy.Some? {
      if i != token {
        if j < |s| { assert Related(s, i, j); } else { assert Related(s, i, token); LiveIsLast(s, token, i); }
      }
    }
  }

  lemma NextKeeps(s: seq<Session>, op: Op)
    requires Inv(s)
    ensures Inv(Next(s, op))
  {
    match op
    case Create(subject, lookup, expiresAt) =>
      if DoCreate(s, subject, lookup, expiresAt).Ok? {
        CreateKeeps(s, Next(s, op)[|s|]);
      }
    case Rotate(token, now, lookup, expiresAt) =>
      if DoRotate(s, token, now, lookup, expiresAt).1 == Some(ReuseOfRotated) {
        RevokingKeeps(s, Next(s, op));
      } else if DoRotate(s, token, now, lookup, expiresAt).1.None? {
        RotateKeeps(s, token, Next(s, op)[|s|]);
      }
    case Revoke(id, subject, why) => RevokingKeeps(s, Next(s, op));
    case RevokeSubject(subject, why) => RevokingKeeps(s, Next(s, op));
    case RevokeIdentity(identity, why) => RevokingKeeps(s, Next(s, op));
  }

  lemma {:induction false} EveryRunKeeps(s: seq<Session>, ops: seq<Op>)
    requires Inv(s)
    ensures Inv(After(s, ops))
  {
    if ops != [] {
      EveryRunKeeps(s, ops[..|ops| - 1]);
      NextKeeps(After(s, ops[..|ops| - 1]), ops[|ops| - 1]);
    }
  }

  // ---------- theorems ----------

  // Where following replaced-by links from a session ends.
  function Tail(s: seq<Session>, i: nat): (k: nat)
    requires i < |s|
    ensures i <= k < |s|
    decreases |s| - i
  {
    if s[i].replacedBy.Some? && i < s[i].replacedBy.value < |s| then Tail(s, s[i].replacedBy.value) else i
  }

  lemma {:induction false} TailIsLastOfFamily(s: seq<Session>, i: nat, j: nat)
    requires Inv(s) && i < |s| && j < |s| && Related(s, i, j)
    ensures Related(s, i, Tail(s, i)) && j <= Tail(s, i)
    decreases |s| - i
  {
    if s[i].replacedBy.Some? {
      var n := s[i].replacedBy.value;
      assert Replaces(s, i, n);
      TailIsLastOfFamily(s, n, j);
    }
  }

  ghost predicate Extinct(s: seq<Session>, family: nat)
  {
    forall i :: 0 <= i < |s| && s[i].family == family ==> s[i].revoked.Some?
  }

  lemma LiveIsTail(s: seq<Session>, k: nat, i: nat)
    requires Inv(s) && k < |s| && i < |s| && Related(s, i, k) && s[k].revoked.None?
    ensures Tail(s, i) == k && (s[i].revoked.None? ==> i == k)
  {
    TailIsLastOfFamily(s, i, k);
    LiveIsLast(s, k, Tail(s, i));
    LiveIsLast(s, k, i);
  }

  /**
   In every reachable state a family has at most one unrevoked session, and following the replaced-by links from any
   session of the family leads to it.
   */
  lemma OneLiveSessionPerFamily(ops: seq<Op>, k: nat, i: nat)
    requires var s := After([], ops); k < |s| && i < |s| && Related(s, i, k) && s[k].revoked.None?
    ensures var s := After([], ops); Tail(s, i) == k && (s[i].revoked.None? ==> i == k)
  {
    EveryRunKeeps([], ops);
    LiveIsTail(After([], ops), k, i);
  }

  /**
   Presenting a token that was rotated away leaves its family without an unrevoked session exactly when the token has
   not expired, or nothing of the family was left to revoke.
   */
  lemma ReuseEndsTheFamily(s: seq<Session>, token: nat, now: int, lookup: Lookup, expiresAt: int)
    requires token < |s| && s[token].revoked == Some(Rotated)
    ensures Extinct(Next(s, Rotate(token, now, lookup, expiresAt)), s[token].family)
       <==> now < s[token].expiresAt || Extinct(s, s[token].family)
  {
  }

  // No step revives a session, and new sessions join a family only by replacing a live one.
  lemma ExtinctionIsKept(s: seq<Session>, op: Op, family: nat)
    requires Extinct(s, family) && family < |s|
    ensures Extinct(Next(s, op), family) && |s| <= |Next(s, op)|
  {
  }

  /** A family without an unrevoked session never gains one again. */
  lemma {:induction false} ExtinctionIsForever(s: seq<Session>, ops: seq<Op>, family: nat)
    requires Extinct(s, family) && family < |s|
    ensures Extinct(After(s, ops), family) && |s| <= |After(s, ops)|
  {
    if ops != [] {
      ExtinctionIsForever(s, ops[..|ops| - 1], family);
      ExtinctionIsKept(After(s, ops[..|ops| - 1]), ops[|ops| - 1], family);
    }
  }

  /**
   Once a stolen token is used, whoever uses the other copy first: if an unexpired rotated token is presented, then in
   every continuation no session of its family ever validates again.
   */
  lemma ReuseLocksEveryoneOut(ops: seq<Op>, token: nat, now: int, lookup: Lookup, expiresAt: int, more: seq<Op>,
                              id: nat, subject: string, later: int)
    requires var s := After([], ops); token < |s| && s[token].revoked == Some(Rotated) && now < s[token].expiresAt
    ensures var s := After([], ops);
            var t := After(Next(s, Rotate(token, now, lookup, expiresAt)), more);
            id < |t| && t[id].family == s[token].family ==> !Validates(t, id, subject, later)
  {
    EveryRunKeeps([], ops);
    var s := After([], ops);
    ReuseEndsTheFamily(s, token, now, lookup, expiresAt);
    ExtinctionIsForever(Next(s, Rotate(token, now, lookup, expiresAt)), more, s[token].family);
  }

  // ---------- exactly what each step does ----------

  // A token that can be rotated, for an identity that is found.
  predicate Rotates(s: seq<Session>, op: Op)
  {
    && op.Rotate? && op.token < |s| && op.now < s[op.token].expiresAt && s[op.token].revoked.None?
    && (op.lookup.native ==> s[op.token].identity.Some? && op.lookup.identity.Some?)
  }

  predicate Reuses(s: seq<Session>, op: Op)
  {
    op.Rotate? && op.token < |s| && op.now < s[op.token].expiresAt && s[op.token].revoked == Some(Rotated)
  }

  predicate SignsIn(op: Op) { op.Create? && (op.lookup.native ==> op.lookup.identity.Some?) }

  /**
   A session begins exactly by signing in, as a family of its own, or by rotating a live token, in its family and for
   the same person; it is unrevoked and expires as asked.
   */
  lemma SessionsBegin(s: seq<Session>, op: Op)
    ensures var t, n := Next(s, op), |s|;
            if SignsIn(op) then
              && |t| == n + 1 && t[n].family == n && t[n].subject == op.subject && t[n].identity == op.lookup.identity
              && t[n].expiresAt == op.expiresAt && t[n].revoked.None? && t[n].replacedBy.None?
            else if Rotates(s, op) then
              var x := s[op.token];
              && |t| == n + 1 && t[n].family == x.family && t[n].identity == op.lookup.identity
              && Some(t[n].subject) == (if op.lookup.native then x.identity else Some(x.subject))
              && t[n].expiresAt == op.expiresAt && t[n].revoked.None? && t[n].replacedBy.None?
            else |t| == n
  {
  }

  // The step revokes this session for a stated reason.
  predicate RevokesFor(op: Op, i: nat, x: Session)
  {
    || (op.Revoke? && op.id == i && op.subject == x.subject)
    || (op.RevokeSubject? && op.subject == x.subject)
    || (op.RevokeIdentity? && (x.identity == Some(op.identity) || x.subject == op.identity))
  }

  /**
   A session changes exactly by being rotated, to its replacement; by reuse of its family's token, if it was not revoked
   for another reason; or, while unrevoked, by a revocation that names it, its subject or its identity.
   */
  lemma SessionsChange(s: seq<Session>, op: Op, i: nat)
    requires i < |s|
    ensures i < |Next(s, op)|
    ensures var x, y := s[i], Next(s, op)[i];
            if Rotates(s, op) && op.token == i then y == x.(revoked := Some(Rotated), replacedBy := Some(|s|))
            else if Reuses(s, op) && s[op.token].family == x.family && (x.revoked.None? || x.revoked == Some(Rotated))
            then
              y == x.(revoked := Some(ReuseDetected))
            else if RevokesFor(op, i, x) && x.revoked.None? then y == x.(revoked := Some(Because(op.why)))
              else y == x
  {
  }

  // ---------- the table, updated in place ----------

  class SessionTable {
    var sessions: seq<Session>

    ghost predicate Valid()
      reads this
    {
      Inv(sessions)
    }

    constructor ()
      ensures Valid() && sessions == []
    {
      sessions := [];
    }

    method CreateAuthSession(subject: string, lookup: Lookup, expiresAt: int) returns (refusal: Option<Refusal>)
      requires Valid()
      modifies this
      ensures Valid() && Commits(old(sessions), sessions, refusal, DoCreate(old(sessions), subject, lookup, expiresAt))
    {
      NextKeeps(sessions, Create(subject, lookup, expiresAt));
      if lookup.native && lookup.identity.None? {
        return Some(NoIdentity);
      }
      sessions := sessions + [Session(|sessions|, subject, lookup.identity, expiresAt, None, None)];
      refusal := None;
    }

    /** Rotates a live token; on reuse the family's revocation commits and the caller is refused. */
    method RotateAuthSession(token: nat, now: int, lookup: Lookup, expiresAt: int) returns (refusal: Option<Refusal>)
      requires Valid()
      modifies this
      ensures Valid() && (sessions, refusal) == DoRotate(old(sessions), token, now, lookup, expiresAt)
    {
      NextKeeps(sessions, Rotate(token, now, lookup, expiresAt));
      if token >= |sessions| || sessions[token].expiresAt <= now {
        return Some(InvalidOrExpired);
      }
      var current := sessions[token];
      if current.revoked.Some? {
        if current.revoked.value.Rotated? {
          sessions := KillFamily(sessions, current.family);
          return Some(ReuseOfRotated);
        }
        return Some(NoLongerValid);
      }
      var subject := if lookup.native then current.identity else Some(current.subject);
      if subject.None? {
        return Some(NotMapped);
      }
      if lookup.native && lookup.identity.None? {
        return Some(NoIdentity);
      }
      var replacement := |sessions|;
      sessions := sessions + [Session(current.family, subject.value, lookup.identity, expiresAt, None, None)];
      sessions := sessions[token := current.(revoked := Some(Rotated), replacedBy := Some(replacement))];
      refusal := None;
    }

    method RevokeAuthSession(id: nat, subject: string, why: string) returns (revoked: bool)
      requires Valid()
      modifies this
      ensures Valid() && sessions == DoRevoke(old(sessions), id, subject, why)
      ensures revoked <==> sessions != old(sessions)
    {
      NextKeeps(sessions, Revoke(id, subject, why));
      revoked := id < |sessions| && sessions[id].subject == subject && sessions[id].revoked.None?;
      if revoked {
        sessions := sessions[id := sessions[id].(revoked := Some(Because(why)))];
        assert sessions[id] != old(sessions)[id];
      } else {
        assert DoRevoke(sessions, id, subject, why) == sessions;
      }
    }

    method RevokeAllAuthSessionsForSubject(subject: string, why: string)
      requires Valid()
      modifies this
      ensures Valid() && sessions == RevokeWhere(old(sessions), OfSubject(subject), why)
      ensures forall i :: 0 <= i < |sessions| && sessions[i].subject == subject ==> sessions[i].revoked.Some?
    {
      NextKeeps(sessions, RevokeSubject(subject, why));
      sessions := RevokeWhere(sessions, OfSubject(subject), why);
    }

    method RevokeAllAuthSessionsForIdentity(identity: string, why: string)
      requires Valid()
      modifies this
      ensures Valid() && sessions == RevokeWhere(old(sessions), OfIdentity(identity), why)
      ensures forall i :: 0 <= i < |sessions| && OfIdentity(identity)(sessions[i]) ==> sessions[i].revoked.Some?
    {
      NextKeeps(sessions, RevokeIdentity(identity, why));
      sessions := RevokeWhere(sessions, OfIdentity(identity), why);
    }
  }
}
