/**
 Leased event queues: the provider inbox (src/platform/postgres-inbox.ts) and the outbox
 (src/platform/postgres-outbox.ts). Both use the same columns; the outbox never marks an event failed, so
 it is the inbox with `terminal` always false, and "processed" reads "published". A worker that crashed
 simply takes no further step: its claim lapses and another worker may take the event over.
 */
module Leases {
  import opened Base
  import opened Sums

  datatype Event = Event(source: string, external: string, payload: int, attempts: nat, nextAttemptAt: int,
                         claimedAt: int, claimedBy: Option<string>, processed: bool, failed: bool)

  datatype Refusal = PayloadConflict | NotClaimed

  // ---------- receipt ----------

  predicate SameEvent(e: Event, source: string, external: string) { e.source == source && e.external == external }

  // INSERT ... ON CONFLICT (provider, external_event_id) DO NOTHING, then the payload comparison.
  function DoReceive(q: seq<Event>, source: string, external: string, payload: int, at: int)
    : Result<seq<Event>, Refusal>
  {
    if exists e :: e in q && SameEvent(e, source, external) && e.payload != payload then Err(PayloadConflict)
    else if exists e :: e in q && SameEvent(e, source, external) then Ok(q)
    else Ok(q + [Event(source, external, payload, 0, at, 0, None, false, false)])
  }

  // ---------- claims ----------

  predicate Claimable(e: Event, timeout: nat, now: int)
  {
    !e.processed && !e.failed && e.nextAttemptAt <= now && (e.claimedBy.None? || e.claimedAt < now - timeout)
  }

  function Claimed(e: Event, worker: string, now: int): Event
  {
    e.(claimedBy := Some(worker), claimedAt := now, attempts := e.attempts + 1)
  }

  // The events among the first `n` that a claim takes: of its sources, claimable, not locked by another claim, at most
  // `limit`.
  function Candidates(q: seq<Event>, n: nat, sources: set<string>, limit: nat, timeout: nat, now: int, locked: set<nat>)
    : seq<nat>
    requires n <= |q|
  {
    if n == 0 then []
    else
      var before := Candidates(q, n - 1, sources, limit, timeout, now, locked);
      if |before| < limit && q[n - 1].source in sources && (n - 1) !in locked && Claimable(q[n - 1], timeout, now)
      then before + [n - 1] else before
  }

  function DoClaim(q: seq<Event>, worker: string, sources: set<string>, limit: nat, timeout: nat, now: int,
                   locked: set<nat>)
    : seq<Event>
  {
    var taken := Candidates(q, |q|, sources, limit, timeout, now, locked);
    seq(|q|, i requires 0 <= i < |q| => if i in taken then Claimed(q[i], worker, now) else q[i])
  }

  // ---------- completion ----------

  predicate HeldBy(q: seq<Event>, id: nat, worker: string)
  {
    id < |q| && q[id].claimedBy == Some(worker) && !q[id].processed
  }

  function Unclaimed(e: Event): Event { e.(claimedBy := None, claimedAt := 0) }

  function DoComplete(q: seq<Event>, id: nat, worker: string): Result<seq<Event>, Refusal>
  {
    if !HeldBy(q, id, worker) then Err(NotClaimed) else Ok(q[id := Unclaimed(q[id]).(processed := true)])
  }

  function DoRetry(q: seq<Event>, id: nat, worker: string, retryAt: int, terminal: bool): Result<seq<Event>, Refusal>
  {
    if !HeldBy(q, id, worker) then Err(NotClaimed)
    else Ok(q[id :=
            Unclaimed(q[id]).(nextAttemptAt := if terminal then q[id].nextAttemptAt else retryAt, failed := terminal)])
  }

  // ---------- runs ----------

  datatype Op =
    | Receive(source: string, external: string, payload: int, at: int)
    | Claim(worker: string, sources: set<string>, limit: nat, timeout: nat, now: int, locked: set<nat>)
    | Complete(id: nat, worker: string)
    | Retry(id: nat, worker: string, retryAt: int, terminal: bool)

  function Perform(q: seq<Event>, op: Op): Result<seq<Event>, Refusal>
  {
    match op
    case Receive(source, external, payload, at) => DoReceive(q, source, external, payload, at)
    case Claim(worker, sources, limit, timeout, now, locked) =>
      Ok(DoClaim(q, worker, sources, limit, timeout, now, locked))
    case Complete(id, worker) => DoComplete(q, id, worker)
    case Retry(id, worker, retryAt, terminal) => DoRetry(q, id, worker, retryAt, terminal)
  }

  function Next(q: seq<Event>, op: Op): seq<Event> { Committed(q, Perform(q, op)) }

  function After(q: seq<Event>, ops: seq<Op>): seq<Event>
  {
    if ops == [] then q else Next(After(q, ops[..|ops| - 1]), ops[|ops| - 1])
  }

  // The ids whose completion committed during a run, in order: each stands for one event's side effects.
  function Completions(q: seq<Event>, ops: seq<Op>): seq<nat>
  {
    if ops == [] then []
    else
      var n := |ops| - 1;
      var op := ops[n];
      Completions(q, ops[..n])
      + if op.Complete? && DoComplete(After(q, ops[..n]), op.id, op.worker).Ok? then [op.id] else []
  }

  // ---------- invariant ----------

  ghost predicate EventOk(e: Event) { !(e.processed && e.failed) && (e.processed || e.failed ==> e.claimedBy.None?) }

  ghost predicate Inv(q: seq<Event>)
  {
    && (forall e :: e in q ==> EventOk(e))
    && forall i, j :: 0 <= i < j < |q| ==> !SameEvent(q[j], q[i].source, q[i].external)
  }

  lemma {:induction false} CandidatesAre(q: seq<Event>, n: nat, sources: set<string>, limit: nat, timeout: nat,
                                         now: int, locked: set<nat>)
    requires n <= |q|
    ensures var taken := Candidates(q, n, sources, limit, timeout, now, locked);
            && |taken| <= limit
            && forall k :: k in taken ==>
                             k < n && q[k].source in sources && k !in locked && Claimable(q[k], timeout, now)
  {
    if n > 0 {
      CandidatesAre(q, n - 1, sources, limit, timeout, now, locked);
    }
  }

  // Every step keeps each event's identity, and never touches one that is processed or failed.
  ghost predicate Moves(q: seq<Event>, r: seq<Event>)
  {
    && |q| <= |r|
    && forall i :: 0 <= i < |q| ==>
                     && SameEvent(r[i], q[i].source, q[i].external) && r[i].payload == q[i].payload
                     && (q[i].processed || q[i].failed ==> r[i] == q[i])
  }

  lemma NextMoves(q: seq<Event>, op: Op)
    requires Inv(q)
    ensures Moves(q, Next(q, op))
  {
    if op.Claim? {
      CandidatesAre(q, |q|, op.sources, op.limit, op.timeout, op.now, op.locked);
    } else if op.Complete? && op.id < |q| {
      assert q[op.id] in q;
    } else if op.Retry? && op.id < |q| {
      assert q[op.id] in q;
    }
  }

  lemma NextKeeps(q: seq<Event>, op: Op)
    requires Inv(q)
    ensures Inv(Next(q, op))
  {
    var r := Next(q, op);
    NextMoves(q, op);
    if op.Receive? {
      forall i | 0 <= i < |q| ensures q[i] in q {}
    } else {
      forall e | e in r ensures EventOk(e) {
        var k :| 0 <= k < |r| && r[k] == e;
        assert q[k] in q;
        if op.Claim? { CandidatesAre(q, |q|, op.sources, op.limit, op.timeout, op.now, op.locked); }
      }
    }
  }

  lemma {:induction false} EveryRunKeeps(q: seq<Event>, ops: seq<Op>)
    requires Inv(q)
    ensures Inv(After(q, ops))
  {
    if ops != [] {
      EveryRunKeeps(q, ops[..|ops| - 1]);
      NextKeeps(After(q, ops[..|ops| - 1]), ops[|ops| - 1]);
    }
  }

  // ---------- theorems ----------

  /** Processed and terminally failed exclude each other and are final: such an event never changes again. */
  lemma {:induction false} TerminalIsFinal(q: seq<Event>, ops: seq<Op>, i: nat)
    requires Inv(q) && i < |q| && (q[i].processed || q[i].failed)
    ensures !(q[i].processed && q[i].failed)
    ensures i < |After(q, ops)| && After(q, ops)[i] == q[i]
  {
    assert q[i] in q;
    if ops != [] {
      var n := |ops| - 1;
      TerminalIsFinal(q, ops[..n], i);
      EveryRunKeeps(q, ops[..n]);
      NextMoves(After(q, ops[..n]), ops[n]);
    }
  }

  /** The same provider event is stored once, with its first payload. */
  lemma EventsAreStoredOnce(ops: seq<Op>, i: nat, j: nat)
    requires var q := After([], ops); i < |q| && j < |q| && SameEvent(q[j], q[i].source, q[i].external)
    ensures i == j
  {
    EveryRunKeeps([], ops);
    var q := After([], ops);
    if i > j { assert SameEvent(q[i], q[j].source, q[j].external); }
  }

  function Is(id: nat): nat -> int { (k: nat) => if k == id then 1 else 0 }

  lemma ProcessedChangesByCompletion(q: seq<Event>, op: Op, id: nat)
    requires Inv(q)
    ensures var before := id < |q| && q[id].processed;
            var after := id < |Next(q, op)| && Next(q, op)[id].processed;
            after <==> before || (op == Complete(id, if op.Complete? then op.worker else "") && Perform(q, op).Ok?)
    ensures op.Complete? && Perform(q, op).Ok? ==> op.id < |q| && !q[op.id].processed
  {
    if op.Claim? {
      CandidatesAre(q, |q|, op.sources, op.limit, op.timeout, op.now, op.locked);
    }
  }

  /** In every run an event's completion, with its side effects, commits at most once: exactly once if processed. */
  lemma {:induction false} CompletionCommitsAtMostOnce(ops: seq<Op>, id: nat)
    ensures var q := After([], ops);
            Sum(Completions([], ops), Is(id)) == if id < |q| && q[id].processed then 1 else 0
  {
    if ops != [] {
      var n := |ops| - 1;
      CompletionCommitsAtMostOnce(ops[..n], id);
      EveryRunKeeps([], ops[..n]);
      var q := After([], ops[..n]);
      ProcessedChangesByCompletion(q, ops[n], id);
      if ops[n].Complete? && Perform(q, ops[n]).Ok? {
        SumOfOneMore(Completions([], ops[..n]), ops[n].id, Is(id));
      } else {
        assert Completions([], ops) == Completions([], ops[..n]);
      }
    }
  }

  // ---------- takeover ----------

  ghost predicate NeverClaims(ops: seq<Op>, worker: string)
  {
    forall op :: op in ops && op.Claim? ==> op.worker != worker
  }

  lemma StepGivesNoClaim(q: seq<Event>, op: Op, id: nat, worker: string)
    requires Inv(q) && !HeldBy(q, id, worker) && (op.Claim? ==> op.worker != worker)
    ensures !HeldBy(Next(q, op), id, worker)
  {
    if op.Claim? {
      CandidatesAre(q, |q|, op.sources, op.limit, op.timeout, op.now, op.locked);
    }
  }

  lemma {:induction false} LostClaimStaysLost(q: seq<Event>, ops: seq<Op>, id: nat, worker: string)
    requires Inv(q) && !HeldBy(q, id, worker) && NeverClaims(ops, worker)
    ensures !HeldBy(After(q, ops), id, worker)
  {
    if ops != [] {
      var n := |ops| - 1;
      assert ops[n] in ops;
      LostClaimStaysLost(q, ops[..n], id, worker);
      EveryRunKeeps(q, ops[..n]);
      StepGivesNoClaim(After(q, ops[..n]), ops[n], id, worker);
    }
  }

  /**
   A worker whose claim another one took over can neither complete nor fail the event, whatever happens next, until it
   claims again.
   */
  lemma TakenOverWorkerCannotComplete(q: seq<Event>, ops: seq<Op>, id: nat, worker: string, other: string, retryAt: int,
                                      terminal: bool)
    requires Inv(q) && id < |q| && q[id].claimedBy == Some(other) && other != worker && NeverClaims(ops, worker)
    ensures DoComplete(After(q, ops), id, worker).Err? && DoRetry(After(q, ops), id, worker, retryAt, terminal).Err?
  {
    LostClaimStaysLost(q, ops, id, worker);
  }

  // No claim comes after the lease of a claim made at `since` has run out.
  ghost predicate WithinLease(ops: seq<Op>, since: int)
  {
    forall op :: op in ops && op.Claim? ==> op.now <= since + op.timeout
  }

  // The holder neither completes nor releases the event.
  ghost predicate HolderIdle(ops: seq<Op>, id: nat, holder: string)
  {
    forall op :: op in ops ==>
                   !((op.Complete? || op.Retry?) && op.id == id && op.worker == holder)
  }

  lemma StepWithinLease(q: seq<Event>, op: Op, id: nat, holder: string)
    requires id < |q| && q[id].claimedBy == Some(holder)
    requires WithinLease([op], q[id].claimedAt) && HolderIdle([op], id, holder)
    ensures id < |Next(q, op)| && Next(q, op)[id] == q[id]
  {
    assert op in [op];
    if op.Claim? {
      CandidatesAre(q, |q|, op.sources, op.limit, op.timeout, op.now, op.locked);
    }
  }

  /**
   While every claim comes within the lease, whatever other workers do, the event stays exactly as its holder claimed it
   until the holder itself completes or releases it.
   */
  lemma {:induction false} LeaseIsExclusive(q: seq<Event>, ops: seq<Op>, id: nat, holder: string)
    requires id < |q| && q[id].claimedBy == Some(holder)
    requires WithinLease(ops, q[id].claimedAt) && HolderIdle(ops, id, holder)
    ensures id < |After(q, ops)| && After(q, ops)[id] == q[id]
  {
    if ops != [] {
      var n := |ops| - 1;
      assert ops[n] in ops;
      LeaseIsExclusive(q, ops[..n], id, holder);
      StepWithinLease(After(q, ops[..n]), ops[n], id, holder);
    }
  }

  // ---------- exactly what each step does ----------

  // Due, unfinished, not claimed or no longer, of the sources asked for and not locked by a claim at the same moment.
  predicate Due(e: Event, i: nat, op: Op)
    requires op.Claim?
  {
    && e.source in op.sources && i !in op.locked && !e.processed && !e.failed && e.nextAttemptAt <= op.now
    && (e.claimedBy.None? || e.claimedAt + op.timeout < op.now)
  }

  function DueBefore(q: seq<Event>, n: nat, op: Op): nat
    requires op.Claim? && n <= |q|
  {
    if n == 0 then 0 else DueBefore(q, n - 1, op) + if Due(q[n - 1], n - 1, op) then 1 else 0
  }

  lemma {:induction false} CandidatesAreTheFirstDue(q: seq<Event>, n: nat, op: Op, i: nat)
    requires op.Claim? && i < n <= |q|
    ensures var taken := Candidates(q, n, op.sources, op.limit, op.timeout, op.now, op.locked);
            && (i in taken <==> Due(q[i], i, op) && DueBefore(q, i, op) < op.limit)
  {
    CandidatesAre(q, n - 1, op.sources, op.limit, op.timeout, op.now, op.locked);
    TakenAreCounted(q, n - 1, op);
    if i < n - 1 {
      CandidatesAreTheFirstDue(q, n - 1, op, i);
    }
  }

  lemma {:induction false} TakenAreCounted(q: seq<Event>, n: nat, op: Op)
    requires op.Claim? && n <= |q|
    ensures var taken := Candidates(q, n, op.sources, op.limit, op.timeout, op.now, op.locked);
            var due := DueBefore(q, n, op);
            |taken| == if due < op.limit then due else op.limit
  {
    if n > 0 {
      TakenAreCounted(q, n - 1, op);
    }
  }

  /** A claim takes exactly the first due events up to its limit, marks them, and leaves every other one alone. */
  lemma ClaimsExactly(q: seq<Event>, op: Op, i: nat)
    requires op.Claim? && i < |q|
    ensures |Next(q, op)| == |q|
    ensures var e, f := q[i], Next(q, op)[i];
            if Due(e, i, op) && DueBefore(q, i, op) < op.limit then
              && f.claimedBy == Some(op.worker) && f.claimedAt == op.now && f.attempts == e.attempts + 1
              && f == e.(claimedBy := f.claimedBy, claimedAt := f.claimedAt, attempts := f.attempts)
            else f == e
  {
    CandidatesAreTheFirstDue(q, |q|, op, i);
  }

  /** An event is finished, failed or put back exactly by its holder, and waits until the time it was put back for. */
  lemma EndsExactly(q: seq<Event>, op: Op, i: nat)
    requires i < |q| && !op.Claim?
    ensures i < |Next(q, op)|
    ensures var e, f := q[i], Next(q, op)[i];
            var held := (op.Complete? || op.Retry?) && op.id == i && e.claimedBy == Some(op.worker) && !e.processed;
            if !held then f == e
            else
              && f.claimedBy.None? && f.processed == op.Complete?
              && f.failed == (if op.Complete? then e.failed else op.terminal)
              && f.nextAttemptAt == (if op.Retry? && !op.terminal then op.retryAt else e.nextAttemptAt)
              && f == e.(claimedBy := None, claimedAt := f.claimedAt, processed := f.processed, failed := f.failed,
                      nextAttemptAt := f.nextAttemptAt)
  {
  }

  /** An event is stored exactly when its id is new; the same id with another payload is refused. */
  lemma ReceivesExactly(q: seq<Event>, op: Op)
    ensures var n := |q|;
            if op.Receive? && forall e :: e in q ==> !SameEvent(e, op.source, op.external) then
              && |Next(q, op)| == n + 1
              && Next(q, op)[n] == Event(op.source, op.external, op.payload, 0, op.at, 0, None, false, false)
            else |Next(q, op)| == n
    ensures op.Receive? ==>
              (Perform(q, op) == Err(PayloadConflict) <==>
               exists e :: e in q && SameEvent(e, op.source, op.external) && e.payload != op.payload)
  {
  }

  // ---------- the table, updated in place ----------

  class EventQueue {
    var events: seq<Event>

    ghost predicate Valid()
      reads this
    {
      Inv(events)
    }

    constructor ()
      ensures Valid() && events == []
    {
      events := [];
    }

    method ReceiveEvent(source: string, external: string, payload: int, at: int) returns (refusal: Option<Refusal>)
      requires Valid()
      modifies this
      ensures Valid() && Commits(old(events), events, refusal, DoReceive(old(events), source, external, payload, at))
    {
      NextKeeps(events, Receive(source, external, payload, at));
      if exists e :: e in events && SameEvent(e, source, external) && e.payload != payload {
        return Some(PayloadConflict);
      }
      if !exists e :: e in events && SameEvent(e, source, external) {
        events := events + [Event(source, external, payload, 0, at, 0, None, false, false)];
      }
      refusal := None;
    }

    /** Takes the first claimable events that no concurrent claim has locked, up to the limit. */
    method ClaimEvents(worker: string, sources: set<string>, limit: nat, timeout: nat, now: int, locked: set<nat>)
      returns (taken: seq<nat>)
      requires Valid()
      modifies this
      ensures Valid() && events == DoClaim(old(events), worker, sources, limit, timeout, now, locked)
      ensures taken == Candidates(old(events), |old(events)|, sources, limit, timeout, now, locked) && |taken| <= limit
    {
      NextKeeps(events, Claim(worker, sources, limit, timeout, now, locked));
      CandidatesAre(events, |events|, sources, limit, timeout, now, locked);
      taken := Candidates(events, |events|, sources, limit, timeout, now, locked);
      events := DoClaim(events, worker, sources, limit, timeout, now, locked);
    }

    method MarkProcessed(id: nat, worker: string) returns (refusal: Option<Refusal>)
      requires Valid()
      modifies this
      ensures Valid() && Commits(old(events), events, refusal, DoComplete(old(events), id, worker))
    {
      NextKeeps(events, Complete(id, worker));
      if !HeldBy(events, id, worker) {
        return Some(NotClaimed);
      }
      events := events[id := events[id].(processed := true, claimedBy := None, claimedAt := 0)];
      refusal := None;
    }

    method MarkForRetry(id: nat, worker: string, retryAt: int, terminal: bool) returns (refusal: Option<Refusal>)
      requires Valid()
      modifies this
      ensures Valid() && Commits(old(events), events, refusal, DoRetry(old(events), id, worker, retryAt, terminal))
    {
      NextKeeps(events, Retry(id, worker, retryAt, terminal));
      if !HeldBy(events, id, worker) {
        return Some(NotClaimed);
      }
      var e := events[id].(claimedBy := None, claimedAt := 0, failed := terminal);
      if !terminal {
        e := e.(nextAttemptAt := retryAt);
      }
      events := events[id := e];
      refusal := None;
    }
  }
}
