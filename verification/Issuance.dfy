/**
 From checkout to minted tokens: reservations against an offering's capacity
 (src/platform/postgres-offering-checkout.ts), payment receipts and expiry
 (src/platform/postgres-payments.ts, src/services/payment-expiry-worker.ts), issuance terms
 (src/platform/postgres-offering-issuance-terms.ts), exact-division allocations
 (src/platform/postgres-investment-allocations.ts) and whitelist-then-mint chain operations
 (src/platform/postgres-allocation-chain-operations.ts). A row's id is its position in its table.
 Eligibility, agreement hashes, wallets and compliance profiles are inputs.
 */
module Issuance {
  import opened Base
  import opened Sums

  datatype Refusal = NotFound | NotOpen | OutsideWindow | Ineligible | NoCapacity | InvalidInput | Conflict | Forbidden

  datatype Review = Submitted | Approved | Rejected

  datatype Offering = Offering(capacity: int, opens: int, closes: int, published: bool, version: nat)

  datatype ReservationStatus = PendingPayment | Confirmed | Released | Expired

  // A reservation with its payment commitment and intent, which change status together.
  datatype Reservation = Reservation(offering: nat, version: nat, investor: int, key: Option<string>, amount: int,
                                     expiresAt: int, status: ReservationStatus)

  datatype Terms = Terms(offering: nat, version: nat, price: int, supply: int, submitter: int, status: Review)

  datatype AllocationRequest = AllocationRequest(terms: nat, reservation: nat, invested: int, price: int, tokens: int,
                                                 submitter: int, status: Review)

  datatype OperationKind = Whitelist | Mint

  datatype OperationStatus = Ready | Done | Broken

  datatype Operation = Operation(allocation: nat, tokens: int, kind: OperationKind, status: OperationStatus)

  // `clock` is the latest time any command was processed at.
  datatype State = State(clock: int, offerings: seq<Offering>, reservations: seq<Reservation>, terms: seq<Terms>,
                         requests: seq<AllocationRequest>, operations: seq<Operation>)

  const EMPTY := State(0, [], [], [], [], [])

  // ---------- reservations ----------

  // Counts against capacity at a moment: paid for, or still within its payment window.
  predicate Holding(r: Reservation, offering: nat, at: int)
  {
    r.offering == offering && (r.status.Confirmed? || (r.status.PendingPayment? && r.expiresAt > at))
  }

  function Held(offering: nat, at: int): Reservation -> int
  {
    (r: Reservation) => if Holding(r, offering, at) then r.amount else 0
  }

  function Active(s: State, offering: nat, at: int): int { Sum(s.reservations, Held(offering, at)) }

  // The command key that an earlier checkout of the same investor and offering used.
  predicate Replays(r: Reservation, offering: nat, investor: int, key: Option<string>)
  {
    key.Some? && r.offering == offering && r.investor == investor && r.key == key
  }

  function DoCheckout(s: State, offering: nat, investor: int, key: Option<string>, amount: int, expiresAt: int,
                      eligible: bool, agreed: bool, at: int): Result<State, Refusal>
  {
    if amount <= 0 then Err(InvalidInput)
    else if offering >= |s.offerings| || !s.offerings[offering].published then Err(NotOpen)
    else
      var o := s.offerings[offering];
      if at < o.opens || at >= o.closes then Err(NotOpen)
      else if expiresAt <= at || expiresAt > o.closes then Err(OutsideWindow)
      else if exists r :: r in s.reservations && Replays(r, offering, investor, key) then Ok(s)
      else if !eligible then Err(Ineligible)
      else if !agreed then Err(InvalidInput)
      else if Active(s, offering, at) + amount > o.capacity then Err(NoCapacity)
      else Ok(s.(reservations := s.reservations + [Reservation(offering, o.version, investor, key, amount, expiresAt,
                                                               PendingPayment)]))
  }

  function SetReservation(s: State, id: nat, status: ReservationStatus): State
    requires id < |s.reservations|
  {
    s.(reservations := s.reservations[id := s.reservations[id].(status := status)])
  }

  // `receivedAt` is the provider's time of payment, which may lie before the time the receipt is processed.
  function DoReceipt(s: State, id: nat, amount: int, sameCurrency: bool, receivedAt: int): Result<State, Refusal>
  {
    if id >= |s.reservations| then Err(NotFound)
    else if !s.reservations[id].status.PendingPayment? then Err(Conflict)
    else if s.reservations[id].expiresAt > receivedAt && s.reservations[id].amount == amount && sameCurrency
    then Ok(SetReservation(s, id, Confirmed))
    else Ok(SetReservation(s, id, Released))
  }

  function DoExpire(s: State, id: nat, at: int): Result<State, Refusal>
  {
    if id >= |s.reservations| || !s.reservations[id].status.PendingPayment? || s.reservations[id].expiresAt > at
    then Err(Conflict)
    else Ok(SetReservation(s, id, Expired))
  }

  // ---------- terms ----------

  predicate ActiveTerms(t: Terms, offering: nat) { t.offering == offering && !t.status.Rejected? }

  function DoSubmitTerms(s: State, offering: nat, price: int, supply: int, evidence: bool, actor: int)
    : Result<State, Refusal>
  {
    if price <= 0 || supply <= 0 then Err(InvalidInput)
    else if offering >= |s.offerings| || !s.offerings[offering].published then Err(NotFound)
    else if price * supply > s.offerings[offering].capacity then Err(NoCapacity)
    else if !evidence then Err(InvalidInput)
    // unique index offering_issuance_terms_one_active_idx
    else if exists t :: t in s.terms && ActiveTerms(t, offering) then Err(Conflict)
    else Ok(s.(terms := s.terms + [Terms(offering, s.offerings[offering].version, price, supply, actor, Submitted)]))
  }

  function DoDecideTerms(s: State, id: nat, approve: bool, actor: int): Result<State, Refusal>
  {
    if id >= |s.terms| then Err(NotFound)
    else if !s.terms[id].status.Submitted? then Err(Conflict)
    else if s.terms[id].submitter == actor then Err(Forbidden)
    else Ok(s.(terms := s.terms[id := s.terms[id].(status := if approve then Approved else Rejected)]))
  }

  // ---------- allocations ----------

  predicate Live(q: AllocationRequest) { !q.status.Rejected? }

  function ReservedTokens(terms: nat): AllocationRequest -> int
  {
    (q: AllocationRequest) => if q.terms == terms && Live(q) then q.tokens else 0
  }

  function NewRequest(s: State, terms: nat, reservation: nat, actor: int): AllocationRequest
    requires terms < |s.terms| && reservation < |s.reservations| && s.terms[terms].price > 0
  {
    var invested, price := s.reservations[reservation].amount, s.terms[terms].price;
    AllocationRequest(terms, reservation, invested, price, invested / price, actor, Submitted)
  }

  function DoSubmitAllocation(s: State, terms: nat, reservation: nat, cleared: bool, actor: int): Result<State, Refusal>
  {
    if reservation >= |s.reservations| || !s.reservations[reservation].status.Confirmed? then Err(Conflict)
    else if terms >= |s.terms| || !s.terms[terms].status.Approved? then Err(Conflict)
    else
      var r := s.reservations[reservation];
      var t := s.terms[terms];
      // a price of zero would throw in the division
      if t.offering != r.offering || t.version != r.version || !cleared || t.price <= 0 then Err(Conflict)
      else if r.amount % t.price != 0 then Err(Conflict)
      else
        var tokens := r.amount / t.price;
        if tokens <= 0 then Err(Conflict)
        else if Sum(s.requests, ReservedTokens(terms)) + tokens > t.supply then Err(NoCapacity)
        // unique index investment_allocations_one_active_reservation_idx
        else if exists q :: q in s.requests && q.reservation == reservation && Live(q) then Err(Conflict)
        else Ok(s.(requests := s.requests + [NewRequest(s, terms, reservation, actor)]))
  }

  function DoDecideAllocation(s: State, id: nat, approve: bool, actor: int): Result<State, Refusal>
  {
    if id >= |s.requests| then Err(NotFound)
    else if !s.requests[id].status.Submitted? then Err(Conflict)
    else if s.requests[id].submitter == actor then Err(Forbidden)
    else Ok(s.(requests := s.requests[id := s.requests[id].(status := if approve then Approved else Rejected)]))
  }

  // ---------- chain operations ----------

  predicate HasOperation(ops: seq<Operation>, allocation: nat, kind: OperationKind)
  {
    exists o :: o in ops && o.allocation == allocation && o.kind == kind
  }

  // Approved allocations under deployed terms that have no whitelist operation yet.
  predicate Wanting(s: State, deployed: set<nat>, id: nat)
    requires id < |s.requests|
  {
    s.requests[id].status.Approved? && s.requests[id].terms in deployed && !HasOperation(s.operations, id, Whitelist)
  }

  // Whitelist operations for the first `n` requests, at most `limit` of them.
  function NewWhitelists(s: State, deployed: set<nat>, n: nat, limit: nat): seq<Operation>
    requires n <= |s.requests|
  {
    if n == 0 then []
    else
      var before := NewWhitelists(s, deployed, n - 1, limit);
      if |before| < limit && Wanting(s, deployed, n - 1)
      then before + [Operation(n - 1, s.requests[n - 1].tokens, Whitelist, Ready)] else before
  }

  function DoMaterialize(s: State, deployed: set<nat>, limit: nat): State
  {
    s.(operations := s.operations + NewWhitelists(s, deployed, |s.requests|, limit))
  }

  function DoReleaseMint(s: State, whitelist: nat): Result<State, Refusal>
  {
    if whitelist >= |s.operations| || !s.operations[whitelist].kind.Whitelist? || !s.operations[whitelist].status.Done?
    then Err(Conflict)
    else
      var o := s.operations[whitelist];
      if HasOperation(s.operations, o.allocation, Mint) then Ok(s)
      else Ok(s.(operations := s.operations + [Operation(o.allocation, o.tokens, Mint, Ready)]))
  }

  // What the chain executor reports.
  function DoSettleOperation(s: State, id: nat, ok: bool): Result<State, Refusal>
  {
    if id >= |s.operations| || !s.operations[id].status.Ready? then Err(Conflict)
    else Ok(s.(operations := s.operations[id := s.operations[id].(status := if ok then Done else Broken)]))
  }

  // ---------- runs ----------

  // No code republishes or closes an offering; the theorems allow for both.
  datatype Op =
    | Publish(capacity: int, opens: int, closes: int)
    | Republish(offering: nat)
    | Close(offering: nat)
    | Checkout(offering: nat, investor: int, key: Option<string>, amount: int, expiresAt: int, eligible: bool,
               agreed: bool)
    | Receipt(id: nat, amount: int, sameCurrency: bool, receivedAt: int)
    | Expire(id: nat)
    | SubmitTerms(offering: nat, price: int, supply: int, evidence: bool, actor: int)
    | DecideTerms(id: nat, approve: bool, actor: int)
    | SubmitAllocation(terms: nat, reservation: nat, cleared: bool, actor: int)
    | DecideAllocation(id: nat, approve: bool, actor: int)
    | Materialize(deployed: set<nat>, limit: nat)
    | ReleaseMint(whitelist: nat)
    | SettleOperation(id: nat, ok: bool)

  function Perform(s: State, op: Op, at: int): Result<State, Refusal>
  {
    match op
    case Publish(capacity, opens, closes) =>
      if capacity <= 0 || opens >= closes then Err(InvalidInput)
      else Ok(s.(offerings := s.offerings + [Offering(capacity, opens, closes, true, 0)]))
    case Republish(o) =>
      if o >= |s.offerings| then Err(NotFound)
      else Ok(s.(offerings := s.offerings[o := s.offerings[o].(version := s.offerings[o].version + 1)]))
    case Close(o) =>
      if o >= |s.offerings| then Err(NotFound)
      else Ok(s.(offerings := s.offerings[o := s.offerings[o].(published := false)]))
    case Checkout(offering, investor, key, amount, expiresAt, eligible, agreed) =>
      DoCheckout(s, offering, investor, key, amount, expiresAt, eligible, agreed, at)
    case Receipt(id, amount, sameCurrency, receivedAt) => DoReceipt(s, id, amount, sameCurrency, receivedAt)
    case Expire(id) => DoExpire(s, id, at)
    case SubmitTerms(offering, price, supply, evidence, actor) =>
      DoSubmitTerms(s, offering, price, supply, evidence, actor)
    case DecideTerms(id, approve, actor) => DoDecideTerms(s, id, approve, actor)
    case SubmitAllocation(terms, reservation, cleared, actor) =>
      DoSubmitAllocation(s, terms, reservation, cleared, actor)
    case DecideAllocation(id, approve, actor) => DoDecideAllocation(s, id, approve, actor)
    case Materialize(deployed, limit) => Ok(DoMaterialize(s, deployed, limit))
    case ReleaseMint(whitelist) => DoReleaseMint(s, whitelist)
    case SettleOperation(id, ok) => DoSettleOperation(s, id, ok)
  }

  // A command processed after some waiting; the clock never runs back.
  datatype Event = Event(waited: nat, op: Op)

  function Next(s: State, e: Event): State
  {
    Committed(s, Perform(s, e.op, s.clock + e.waited)).(clock := s.clock + e.waited)
  }

  function After(s: State, events: seq<Event>): State
  {
    if events == [] then s else Next(After(s, events[..|events| - 1]), events[|events| - 1])
  }
}
