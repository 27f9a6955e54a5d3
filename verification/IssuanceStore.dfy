/**
 The issuance tables, updated in place; each method is one transaction body, processed at a time that never runs back.
 The class invariant is that some run reaches the tables, so every theorem about reachable states is one about these
 objects.
 */
module IssuanceStore {
  import opened Base
  import opened Sums
  import opened Issuance
  import opened IssuanceTheorems
  import opened IssuanceEffects

  // The tables became what the step makes of them, and the caller is told its refusal, if any.
  ghost predicate Processed(before: State, after: State, refusal: Option<Refusal>, at: int, op: Op)
    requires before.clock <= at
  {
    var step := Perform(before, op, at);
    after == Next(before, Event(at - before.clock, op)) && refusal == if step.Ok? then None else Some(step.error)
  }

  class Tables {
    var clock: int
    var offerings: seq<Offering>
    var reservations: seq<Reservation>
    var terms: seq<Terms>
    var requests: seq<AllocationRequest>
    var operations: seq<Operation>

    ghost function Snapshot(): State
      reads this
    {
      State(clock, offerings, reservations, terms, requests, operations)
    }

    ghost predicate Valid()
      reads this
    {
      Reachable(Snapshot())
    }

    /** The tables of a valid object satisfy every invariant of the issuance machine. */
    lemma ValidIsConsistent()
      requires Valid()
      ensures Inv(Snapshot())
    {
      ReachableKeeps(Snapshot());
    }

    constructor ()
      ensures Valid() && Snapshot() == EMPTY
    {
      clock, offerings, reservations, terms, requests, operations := 0, [], [], [], [], [];
      new;
      assert Snapshot() == After(EMPTY, []);
    }

    method PublishOffering(capacity: int, opens: int, closes: int, at: int) returns (refusal: Option<Refusal>)
      requires Valid() && clock <= at
      modifies this
      ensures Valid() && Processed(old(Snapshot()), Snapshot(), refusal, at, Publish(capacity, opens, closes))
    {
      StepStaysReachable(Snapshot(), Event(at - clock, Publish(capacity, opens, closes)));
      clock := at;
      if capacity <= 0 || opens >= closes {
        return Some(InvalidInput);
      }
      offerings := offerings + [Offering(capacity, opens, closes, true, 0)];
      refusal := None;
    }

    method RepublishOffering(offering: nat, at: int) returns (refusal: Option<Refusal>)
      requires Valid() && clock <= at
      modifies this
      ensures Valid() && Processed(old(Snapshot()), Snapshot(), refusal, at, Republish(offering))
    {
      StepStaysReachable(Snapshot(), Event(at - clock, Republish(offering)));
      clock := at;
      if offering >= |offerings| {
        return Some(NotFound);
      }
      offerings := offerings[offering := offerings[offering].(version := offerings[offering].version + 1)];
      refusal := None;
    }

    method CloseOffering(offering: nat, at: int) returns (refusal: Option<Refusal>)
      requires Valid() && clock <= at
      modifies this
      ensures Valid() && Processed(old(Snapshot()), Snapshot(), refusal, at, Close(offering))
    {
      StepStaysReachable(Snapshot(), Event(at - clock, Close(offering)));
      clock := at;
      if offering >= |offerings| {
        return Some(NotFound);
      }
      offerings := offerings[offering := offerings[offering].(published := false)];
      refusal := None;
    }

    /** Window, replay, eligibility, agreement, then capacity under the offering's lock. */
    method CreateCheckout(offering: nat, investor: int, key: Option<string>, amount: int, expiresAt: int,
                          eligible: bool, agreed: bool, at: int)
      returns (refusal: Option<Refusal>)
      requires Valid() && clock <= at
      modifies this
      ensures Valid()
      ensures Processed(old(Snapshot()), Snapshot(), refusal, at,
                        Checkout(offering, investor, key, amount, expiresAt, eligible, agreed))
      ensures var op := Checkout(offering, investor, key, amount, expiresAt, eligible, agreed);
              if Reserves(old(Snapshot()), op, at) then
                && refusal.None? && |reservations| == |old(reservations)| + 1
                && reservations[..|old(reservations)|] == old(reservations)
                && RecordsOrder(old(Snapshot()), op, reservations[|old(reservations)|])
              else reservations == old(reservations)
    {
      StepStaysReachable(Snapshot(),
                         Event(at - clock, Checkout(offering, investor, key, amount, expiresAt, eligible, agreed)));
      refusal := Reserve(offering, investor, key, amount, expiresAt, eligible, agreed, at);
    }

    method Reserve(offering: nat, investor: int, key: Option<string>, amount: int, expiresAt: int,
                   eligible: bool, agreed: bool, at: int)
      returns (refusal: Option<Refusal>)
      requires clock <= at
      modifies this
      ensures Processed(old(Snapshot()), Snapshot(), refusal, at,
                        Checkout(offering, investor, key, amount, expiresAt, eligible, agreed))
      ensures var op := Checkout(offering, investor, key, amount, expiresAt, eligible, agreed);
              if Reserves(old(Snapshot()), op, at) then
                && refusal.None? && |reservations| == |old(reservations)| + 1
                && reservations[..|old(reservations)|] == old(reservations)
                && RecordsOrder(old(Snapshot()), op, reservations[|old(reservations)|])
              else reservations == old(reservations)
    {
      clock := at;
      if amount <= 0 {
        return Some(InvalidInput);
      }
      if offering >= |offerings| || !offerings[offering].published || at < offerings[offering].opens
         || at >= offerings[offering].closes {
        return Some(NotOpen);
      }
      var o := offerings[offering];
      if expiresAt <= at || expiresAt > o.closes {
        return Some(OutsideWindow);
      }
      if exists r :: r in reservations && Replays(r, offering, investor, key) {
        return None;
      }
      if !eligible {
        return Some(Ineligible);
      }
      if !agreed {
        return Some(InvalidInput);
      }
      if Sum(reservations, Held(offering, at)) + amount > o.capacity {
        return Some(NoCapacity);
      }
      reservations := reservations + [Reservation(offering, o.version, investor, key, amount, expiresAt,
                                                  PendingPayment)];
      refusal := None;
    }

    method RecordProviderPaymentReceipt(id: nat, amount: int, sameCurrency: bool, receivedAt: int, at: int)
      returns (refusal: Option<Refusal>)
      requires Valid() && clock <= at
      modifies this
      ensures Valid()
      ensures Processed(old(Snapshot()), Snapshot(), refusal, at, Receipt(id, amount, sameCurrency, receivedAt))
    {
      StepStaysReachable(Snapshot(), Event(at - clock, Receipt(id, amount, sameCurrency, receivedAt)));
      clock := at;
      if id >= |reservations| {
        return Some(NotFound);
      }
      var r := reservations[id];
      if !r.status.PendingPayment? {
        return Some(Conflict);
      }
      var expired := r.expiresAt <= receivedAt;
      var status := if !expired && r.amount == amount && sameCurrency then Confirmed else Released;
      reservations := reservations[id := r.(status := status)];
      refusal := None;
    }

    method ExpirePendingPaymentIntent(id: nat, at: int) returns (refusal: Option<Refusal>)
      requires Valid() && clock <= at
      modifies this
      ensures Valid() && Processed(old(Snapshot()), Snapshot(), refusal, at, Expire(id))
    {
      StepStaysReachable(Snapshot(), Event(at - clock, Expire(id)));
      clock := at;
      if id >= |reservations| || !reservations[id].status.PendingPayment? || reservations[id].expiresAt > at {
        return Some(Conflict);
      }
      reservations := reservations[id := reservations[id].(status := Expired)];
      refusal := None;
    }

    method SubmitOfferingIssuanceTerms(offering: nat, price: int, supply: int, evidence: bool, actor: int, at: int)
      returns (refusal: Option<Refusal>)
      requires Valid() && clock <= at
      modifies this
      ensures Valid()
      ensures Processed(old(Snapshot()), Snapshot(), refusal, at, SubmitTerms(offering, price, supply, evidence, actor))
    {
      StepStaysReachable(Snapshot(), Event(at - clock, SubmitTerms(offering, price, supply, evidence, actor)));
      clock := at;
      if price <= 0 || supply <= 0 {
        return Some(InvalidInput);
      }
      if offering >= |offerings| || !offerings[offering].published {
        return Some(NotFound);
      }
      if price * supply > offerings[offering].capacity {
        return Some(NoCapacity);
      }
      if !evidence {
        return Some(InvalidInput);
      }
      if exists t :: t in terms && ActiveTerms(t, offering) {
        return Some(Conflict);
      }
      terms := terms + [Terms(offering, offerings[offering].version, price, supply, actor, Submitted)];
      refusal := None;
    }

    method DecideOfferingIssuanceTerms(id: nat, approve: bool, actor: int, at: int) returns (refusal: Option<Refusal>)
      requires Valid() && clock <= at
      modifies this
      ensures Valid() && Processed(old(Snapshot()), Snapshot(), refusal, at, DecideTerms(id, approve, actor))
    {
      StepStaysReachable(Snapshot(), Event(at - clock, DecideTerms(id, approve, actor)));
      clock := at;
      if id >= |terms| {
        return Some(NotFound);
      }
      if !terms[id].status.Submitted? {
        return Some(Conflict);
      }
      if terms[id].submitter == actor {
        return Some(Forbidden);
      }
      terms := terms[id := terms[id].(status := if approve then Approved else Rejected)];
      refusal := None;
    }

    /** Derives the token amount by exact division and takes it from the unreserved supply. */
    method SubmitInvestmentAllocation(term: nat, reservation: nat, cleared: bool, actor: int, at: int)
      returns (refusal: Option<Refusal>)
      requires Valid() && clock <= at
      modifies this
      ensures Valid()
      ensures Processed(old(Snapshot()), Snapshot(), refusal, at, SubmitAllocation(term, reservation, cleared, actor))
      ensures refusal.None? ==>
                && |requests| == |old(requests)| + 1 && term < |terms| && reservation < |reservations|
                && Exact(requests[|old(requests)|], terms[term], reservations[reservation])
                && Sum(requests, ReservedTokens(term)) <= terms[term].supply
    {
      StepStaysReachable(Snapshot(), Event(at - clock, SubmitAllocation(term, reservation, cleared, actor)));
      clock := at;
      if reservation >= |reservations| || !reservations[reservation].status.Confirmed? {
        return Some(Conflict);
      }
      var r := reservations[reservation];
      if term >= |terms| || !terms[term].status.Approved? {
        return Some(Conflict);
      }
      var t := terms[term];
      if t.offering != r.offering || t.version != r.version || !cleared || t.price <= 0 {
        return Some(Conflict);
      }
      if r.amount % t.price != 0 {
        return Some(Conflict);
      }
      var tokens := r.amount / t.price;
      if tokens <= 0 {
        return Some(Conflict);
      }
      if Sum(requests, ReservedTokens(term)) + tokens > t.supply {
        return Some(NoCapacity);
      }
      if exists q :: q in requests && q.reservation == reservation && Live(q) {
        return Some(Conflict);
      }
      SubmissionIsExact(Snapshot(), term, reservation, cleared, actor);
      requests := requests + [AllocationRequest(term, reservation, r.amount, t.price, tokens, actor, Submitted)];
      refusal := None;
    }

    method DecideInvestmentAllocation(id: nat, approve: bool, actor: int, at: int) returns (refusal: Option<Refusal>)
      requires Valid() && clock <= at
      modifies this
      ensures Valid() && Processed(old(Snapshot()), Snapshot(), refusal, at, DecideAllocation(id, approve, actor))
    {
      StepStaysReachable(Snapshot(), Event(at - clock, DecideAllocation(id, approve, actor)));
      clock := at;
      if id >= |requests| {
        return Some(NotFound);
      }
      if !requests[id].status.Submitted? {
        return Some(Conflict);
      }
      if requests[id].submitter == actor {
        return Some(Forbidden);
      }
      requests := requests[id := requests[id].(status := if approve then Approved else Rejected)];
      refusal := None;
    }

    /** Inserts a whitelist operation for each selected allocation, at most `limit` of them. */
    method MaterializeAllocationChainOperations(deployed: set<nat>, limit: nat, at: int) returns (count: nat)
      requires Valid() && clock <= at
      modifies this
      ensures Valid() && Processed(old(Snapshot()), Snapshot(), None, at, Materialize(deployed, limit))
      ensures count == |operations| - |old(operations)| <= limit
    {
      StepStaysReachable(Snapshot(), Event(at - clock, Materialize(deployed, limit)));
      count := InsertWhitelists(deployed, limit);
      clock := at;
    }

    method InsertWhitelists(deployed: set<nat>, limit: nat) returns (count: nat)
      modifies this`operations
      ensures operations == old(operations) + NewWhitelists(old(Snapshot()), deployed, |requests|, limit)
      ensures count == |operations| - |old(operations)| <= limit
    {
      var before := operations;
      count := 0;
      for n := 0 to |requests|
        invariant operations == before + NewWhitelists(old(Snapshot()), deployed, n, limit)
        invariant count == |operations| - |before| <= limit
      {
        if count < limit && requests[n].status.Approved? && requests[n].terms in deployed
           && !HasOperation(before, n, Whitelist) {
          operations := operations + [Operation(n, requests[n].tokens, Whitelist, Ready)];
          count := count + 1;
        }
      }
    }

    method ReleaseMintOperation(whitelist: nat, at: int) returns (refusal: Option<Refusal>)
      requires Valid() && clock <= at
      modifies this
      ensures Valid() && Processed(old(Snapshot()), Snapshot(), refusal, at, ReleaseMint(whitelist))
    {
      StepStaysReachable(Snapshot(), Event(at - clock, ReleaseMint(whitelist)));
      clock := at;
      if whitelist >= |operations| || !operations[whitelist].kind.Whitelist? || !operations[whitelist].status.Done? {
        return Some(Conflict);
      }
      var o := operations[whitelist];
      if !HasOperation(operations, o.allocation, Mint) {
        operations := operations + [Operation(o.allocation, o.tokens, Mint, Ready)];
      }
      refusal := None;
    }

    /** What the chain executor reports, once. */
    method SettleChainOperation(id: nat, ok: bool, at: int) returns (refusal: Option<Refusal>)
      requires Valid() && clock <= at
      modifies this
      ensures Valid() && Processed(old(Snapshot()), Snapshot(), refusal, at, SettleOperation(id, ok))
    {
      StepStaysReachable(Snapshot(), Event(at - clock, SettleOperation(id, ok)));
      clock := at;
      if id >= |operations| || !operations[id].status.Ready? {
        return Some(Conflict);
      }
      operations := operations[id := operations[id].(status := if ok then Done else Broken)];
      refusal := None;
    }
  }
}
