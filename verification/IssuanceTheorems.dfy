/** What bounds everything an offering ever sells and mints. */
module IssuanceTheorems {
  import opened Base
  import opened Sums
  import opened Issuance

  // ---------- invariant ----------

  ghost predicate ReservationsOk(s: State)
  {
    forall r :: r in s.reservations ==> r.amount > 0 && r.offering < |s.offerings|
  }

  ghost predicate TermOk(offerings: seq<Offering>, t: Terms)
  {
    t.offering < |offerings| && t.price > 0 && t.supply > 0 && t.price * t.supply <= offerings[t.offering].capacity
  }

  ghost predicate TermsOk(s: State)
  {
    && (forall t :: t in s.terms ==> TermOk(s.offerings, t))
    && forall i, j :: 0 <= i < j < |s.terms| && !s.terms[i].status.Rejected? && !s.terms[j].status.Rejected? ==>
                        s.terms[i].offering != s.terms[j].offering
  }

  // A request divides a confirmed reservation of its terms' offering exactly into tokens at the terms' price.
  ghost predicate RequestOk(terms: seq<Terms>, reservations: seq<Reservation>, q: AllocationRequest)
  {
    && q.terms < |terms| && terms[q.terms].status.Approved?
    && q.reservation < |reservations| && reservations[q.reservation].status.Confirmed?
    && reservations[q.reservation].offering == terms[q.terms].offering
    && q.price == terms[q.terms].price && q.invested == reservations[q.reservation].amount
    && q.tokens > 0 && q.tokens * q.price == q.invested
  }

  ghost predicate RequestsOk(s: State)
  {
    && (forall q :: q in s.requests ==> RequestOk(s.terms, s.reservations, q))
    && forall i, j :: 0 <= i < j < |s.requests| && Live(s.requests[i]) && Live(s.requests[j]) ==>
                        s.requests[i].reservation != s.requests[j].reservation
  }

  // What is reserved under some terms stays within their supply.
  ghost predicate SupplyOk(s: State)
  {
    forall t :: 0 <= t < |s.terms| ==> Sum(s.requests, ReservedTokens(t)) <= s.terms[t].supply
  }

  ghost predicate Whitelisted(ops: seq<Operation>, allocation: nat)
  {
    exists o :: o in ops && o.allocation == allocation && o.kind.Whitelist? && o.status.Done?
  }

  ghost predicate OperationOk(s: State, o: Operation)
  {
    && o.allocation < |s.requests| && s.requests[o.allocation].status.Approved?
    && o.tokens == s.requests[o.allocation].tokens
    && (o.kind.Mint? ==> Whitelisted(s.operations, o.allocation))
  }

  // One operation of each kind per allocation.
  ghost predicate OperationsOk(s: State)
  {
    && (forall o :: o in s.operations ==> OperationOk(s, o))
    && forall i, j :: 0 <= i < j < |s.operations| && s.operations[i].allocation == s.operations[j].allocation ==>
                        s.operations[i].kind != s.operations[j].kind
  }

  // Everything but the supply, which rests on submissions not overlapping.
  ghost predicate Core(s: State) { ReservationsOk(s) && TermsOk(s) && RequestsOk(s) && OperationsOk(s) }

  ghost predicate Inv(s: State) { Core(s) && SupplyOk(s) }

  // ---------- steps ----------

  // Offerings gained or changed in everything but capacity.
  lemma OfferingsMoveKeeps(s: State, next: State)
    requires Core(s) && next == s.(offerings := next.offerings) && |s.offerings| <= |next.offerings|
    requires forall o :: 0 <= o < |s.offerings| ==> next.offerings[o].capacity == s.offerings[o].capacity
    ensures Core(next)
  {
    forall t | t in next.terms ensures TermOk(next.offerings, t) { assert TermOk(s.offerings, t); }
    forall o | o in next.operations ensures OperationOk(next, o) { assert OperationOk(s, o); }
  }

  // Reservations gained or moved, the confirmed ones untouched.
  lemma ReservationsMoveKeeps(s: State, next: State)
    requires Core(s) && next == s.(reservations := next.reservations) && |s.reservations| <= |next.reservations|
    requires forall i :: 0 <= i < |s.reservations| && s.reservations[i].status.Confirmed? ==>
                           next.reservations[i] == s.reservations[i]
    requires ReservationsOk(next)
    ensures Core(next)
  {
    forall q | q in next.requests
      ensures RequestOk(next.terms, next.reservations, q)
    {
      assert RequestOk(s.terms, s.reservations, q);
    }
    forall o | o in next.operations ensures OperationOk(next, o) { assert OperationOk(s, o); }
  }

  lemma SetReservationKeeps(s: State, id: nat, status: ReservationStatus)
    requires Core(s) && id < |s.reservations| && s.reservations[id].status.PendingPayment?
    ensures Core(SetReservation(s, id, status))
  {
    var next := SetReservation(s, id, status);
    forall r | r in next.reservations ensures r.amount > 0 && r.offering < |next.offerings| {
      assert r in s.reservations || (r == next.reservations[id] && s.reservations[id] in s.reservations);
    }
    ReservationsMoveKeeps(s, next);
  }

  lemma SubmitTermsKeeps(s: State, offering: nat, price: int, supply: int, evidence: bool, actor: int)
    requires Core(s) && DoSubmitTerms(s, offering, price, supply, evidence, actor).Ok?
    ensures Core(DoSubmitTerms(s, offering, price, supply, evidence, actor).value)
  {
    var next := DoSubmitTerms(s, offering, price, supply, evidence, actor).value;
    forall i | 0 <= i < |s.terms| && !s.terms[i].status.Rejected? ensures s.terms[i].offering != offering {
      assert s.terms[i] in s.terms && (ActiveTerms(s.terms[i], offering) || s.terms[i].offering != offering);
    }
    forall q | q in next.requests
      ensures RequestOk(next.terms, next.reservations, q)
    {
      assert RequestOk(s.terms, s.reservations, q);
    }
    forall o | o in next.operations ensures OperationOk(next, o) { assert OperationOk(s, o); }
  }

  lemma DecideTermsKeeps(s: State, id: nat, approve: bool, actor: int)
    requires Core(s) && DoDecideTerms(s, id, approve, actor).Ok?
    ensures Core(DoDecideTerms(s, id, approve, actor).value)
  {
    var next := DoDecideTerms(s, id, approve, actor).value;
    assert s.terms[id] in s.terms;
    forall t | t in next.terms ensures TermOk(next.offerings, t) { assert t in s.terms || t == next.terms[id]; }
    forall q | q in next.requests
      ensures RequestOk(next.terms, next.reservations, q)
    {
      assert RequestOk(s.terms, s.reservations, q);
    }
    forall o | o in next.operations ensures OperationOk(next, o) { assert OperationOk(s, o); }
  }

  // A request that divides a confirmed reservation exactly, for which no live request exists yet, may be stored.
  lemma NewRequestKeeps(s: State, q: AllocationRequest)
    requires Core(s) && RequestOk(s.terms, s.reservations, q)
    requires forall x :: x in s.requests && Live(x) ==> x.reservation != q.reservation
    ensures Core(s.(requests := s.requests + [q]))
  {
    var next := s.(requests := s.requests + [q]);
    forall i | 0 <= i < |s.requests| && Live(s.requests[i]) ensures s.requests[i].reservation != q.reservation {
      assert s.requests[i] in s.requests;
    }
    forall o | o in next.operations ensures OperationOk(next, o) { assert OperationOk(s, o); }
  }

  lemma SubmittedRequestIsOk(s: State, terms: nat, reservation: nat, cleared: bool, actor: int)
    requires Core(s) && DoSubmitAllocation(s, terms, reservation, cleared, actor).Ok?
    ensures var q := NewRequest(s, terms, reservation, actor);
            && DoSubmitAllocation(s, terms, reservation, cleared, actor).value == s.(requests := s.requests + [q])
            && RequestOk(s.terms, s.reservations, q)
  {
    ExactDivision(s.reservations[reservation].amount, s.terms[terms].price);
  }

  lemma SubmitAllocationKeeps(s: State, terms: nat, reservation: nat, cleared: bool, actor: int)
    requires Core(s) && DoSubmitAllocation(s, terms, reservation, cleared, actor).Ok?
    ensures Core(DoSubmitAllocation(s, terms, reservation, cleared, actor).value)
  {
    SubmittedRequestIsOk(s, terms, reservation, cleared, actor);
    NewRequestKeeps(s, NewRequest(s, terms, reservation, actor));
  }

  lemma ExactDivision(x: int, y: int)
    requires y > 0 && x % y == 0
    ensures x / y * y == x
  {
  }

  lemma DecideAllocationKeeps(s: State, id: nat, approve: bool, actor: int)
    requires Core(s) && DoDecideAllocation(s, id, approve, actor).Ok?
    ensures Core(DoDecideAllocation(s, id, approve, actor).value)
  {
    var next := DoDecideAllocation(s, id, approve, actor).value;
    var q := next.requests[id];
    assert s.requests[id] in s.requests;
    forall x | x in next.requests
      ensures RequestOk(next.terms, next.reservations, x)
    {
      assert x in s.requests || x == q;
    }
    forall o | o in next.operations ensures OperationOk(next, o) { assert OperationOk(s, o); }
  }

  lemma {:induction false} NewWhitelistsAre(s: State, deployed: set<nat>, n: nat, limit: nat)
    requires n <= |s.requests|
    ensures var added := NewWhitelists(s, deployed, n, limit);
            && |added| <= limit
            && (forall i :: 0 <= i < |added| ==> added[i].allocation < n && Wanting(s, deployed, added[i].allocation))
            && (forall i :: 0 <= i < |added| ==>
                              var a := added[i].allocation;
                              added[i] == Operation(a, s.requests[a].tokens, Whitelist, Ready))
            && (forall i, j :: 0 <= i < j < |added| ==> added[i].allocation < added[j].allocation)
  {
    if n > 0 {
      NewWhitelistsAre(s, deployed, n - 1, limit);
    }
  }

  lemma MaterializeKeeps(s: State, deployed: set<nat>, limit: nat)
    requires Core(s)
    ensures Core(DoMaterialize(s, deployed, limit))
  {
    var next := DoMaterialize(s, deployed, limit);
    var added := NewWhitelists(s, deployed, |s.requests|, limit);
    NewWhitelistsAre(s, deployed, |s.requests|, limit);
    forall o | o in next.operations ensures OperationOk(next, o) {
      if o in s.operations {
        assert OperationOk(s, o);
        if o.kind.Mint? {
          var w :| w in s.operations && w.allocation == o.allocation && w.kind.Whitelist? && w.status.Done?;
          assert w in next.operations;
        }
      }
    }
    forall i, j | 0 <= i < j < |next.operations| && next.operations[i].allocation == next.operations[j].allocation
      ensures next.operations[i].kind != next.operations[j].kind
    {
      if i < |s.operations| <= j {
        assert Wanting(s, deployed, added[j - |s.operations|].allocation) && s.operations[i] in s.operations;
      }
    }
  }

  lemma ReleaseMintKeeps(s: State, whitelist: nat)
    requires Core(s) && DoReleaseMint(s, whitelist).Ok?
    ensures Core(DoReleaseMint(s, whitelist).value)
  {
    var next := DoReleaseMint(s, whitelist).value;
    var w := s.operations[whitelist];
    assert w in s.operations && OperationOk(s, w);
    if next != s {
      assert w in next.operations;
      forall o | o in next.operations ensures OperationOk(next, o) {
        if o in s.operations {
          assert OperationOk(s, o);
          if o.kind.Mint? {
            var v :| v in s.operations && v.allocation == o.allocation && v.kind.Whitelist? && v.status.Done?;
            assert v in next.operations;
          }
        }
      }
      forall i | 0 <= i < |s.operations| && s.operations[i].allocation == w.allocation
        ensures !s.operations[i].kind.Mint?
      {
        assert s.operations[i] in s.operations;
      }
    }
  }

  lemma SettleOperationKeeps(s: State, id: nat, ok: bool)
    requires Core(s) && DoSettleOperation(s, id, ok).Ok?
    ensures Core(DoSettleOperation(s, id, ok).value)
  {
    var next := DoSettleOperation(s, id, ok).value;
    assert s.operations[id] in s.operations;
    forall a | Whitelisted(s.operations, a) ensures Whitelisted(next.operations, a) {
      var w :| w in s.operations && w.allocation == a && w.kind.Whitelist? && w.status.Done?;
      var k :| 0 <= k < |s.operations| && s.operations[k] == w;
      assert next.operations[k] == w;
    }
    forall o | o in next.operations ensures OperationOk(next, o) {
      assert o in s.operations || o == next.operations[id];
      assert OperationOk(s, s.operations[id]);
    }
  }

  lemma PerformKeepsCore(s: State, op: Op, at: int)
    requires Core(s) && Perform(s, op, at).Ok?
    ensures Core(Perform(s, op, at).value)
  {
    var next := Perform(s, op, at).value;
    match op
    case Publish(_, _, _) => OfferingsMoveKeeps(s, next);
    case Republish(_) => OfferingsMoveKeeps(s, next);
    case Close(_) => OfferingsMoveKeeps(s, next);
    case Checkout(_, _, _, _, _, _, _) => ReservationsMoveKeeps(s, next);
    case Receipt(id, _, _, _) => SetReservationKeeps(s, id, next.reservations[id].status);
    case Expire(id) => SetReservationKeeps(s, id, Expired);
    case SubmitTerms(offering, price, supply, evidence, actor) =>
      SubmitTermsKeeps(s, offering, price, supply, evidence, actor);
    case DecideTerms(id, approve, actor) => DecideTermsKeeps(s, id, approve, actor);
    case SubmitAllocation(terms, reservation, cleared, actor) =>
      SubmitAllocationKeeps(s, terms, reservation, cleared, actor);
    case DecideAllocation(id, approve, actor) => DecideAllocationKeeps(s, id, approve, actor);
    case Materialize(deployed, limit) => MaterializeKeeps(s, deployed, limit);
    case ReleaseMint(whitelist) => ReleaseMintKeeps(s, whitelist);
    case SettleOperation(id, ok) => SettleOperationKeeps(s, id, ok);
  }

  // ---------- supply ----------

  lemma NewTermsHaveNothingReserved(s: State)
    requires Core(s)
    ensures Sum(s.requests, ReservedTokens(|s.terms|)) == 0
  {
    SumBounds(s.requests, ReservedTokens(|s.terms|), 0, 0) by {
      forall q | q in s.requests
        ensures ReservedTokens(|s.terms|)(q) == 0
      {
        assert RequestOk(s.terms, s.reservations, q);
      }
    }
  }

  // Only a submission reserves tokens; a rejection gives them back.
  lemma OnlySubmissionsReserve(s: State, op: Op, at: int, t: nat)
    requires Core(s) && Perform(s, op, at).Ok? && !op.SubmitAllocation? && t < |Perform(s, op, at).value.terms|
    ensures var next := Perform(s, op, at).value;
            && Sum(next.requests, ReservedTokens(t)) <= Sum(s.requests, ReservedTokens(t))
            && (t < |s.terms| ==> next.terms[t].supply == s.terms[t].supply)
  {
    if op.DecideAllocation? {
      assert s.requests[op.id] in s.requests && RequestOk(s.terms, s.reservations, s.requests[op.id]);
      SumOfUpdate(s.requests, op.id, Perform(s, op, at).value.requests[op.id], ReservedTokens(t));
    }
  }

  lemma PerformKeepsSupply(s: State, op: Op, at: int)
    requires Inv(s) && Perform(s, op, at).Ok?
    ensures SupplyOk(Perform(s, op, at).value)
  {
    var next := Perform(s, op, at).value;
    if op.SubmitAllocation? {
      SubmittedRequestIsOk(s, op.terms, op.reservation, op.cleared, op.actor);
      forall t | 0 <= t < |s.terms| ensures Sum(next.requests, ReservedTokens(t)) <= s.terms[t].supply {
        SumOfOneMore(s.requests, NewRequest(s, op.terms, op.reservation, op.actor), ReservedTokens(t));
      }
    } else {
      PerformKeepsCore(s, op, at);
      forall t | 0 <= t < |next.terms| ensures Sum(next.requests, ReservedTokens(t)) <= next.terms[t].supply {
        OnlySubmissionsReserve(s, op, at, t);
        if t >= |s.terms| {
          NewTermsHaveNothingReserved(s);
          assert next.terms[t] in next.terms;
        }
      }
    }
  }

  lemma PerformKeeps(s: State, op: Op, at: int)
    requires Inv(s) && Perform(s, op, at).Ok?
    ensures Inv(Perform(s, op, at).value)
  {
    PerformKeepsCore(s, op, at);
    PerformKeepsSupply(s, op, at);
  }

  lemma CommittedKeepsCore(s: State, outcome: Result<State, Refusal>, clock: int)
    requires Core(s) && (outcome.Ok? ==> Core(outcome.value))
    ensures Core(Committed(s, outcome).(clock := clock))
  {
    var committed := Committed(s, outcome);
    forall o | o in committed.operations
      ensures OperationOk(committed.(clock := clock), o)
    {
      assert OperationOk(committed, o);
    }
  }

  lemma NextKeepsCore(s: State, e: Event)
    requires Core(s)
    ensures Core(Next(s, e))
  {
    var outcome := Perform(s, e.op, s.clock + e.waited);
    if outcome.Ok? {
      PerformKeepsCore(s, e.op, s.clock + e.waited);
    }
    CommittedKeepsCore(s, outcome, s.clock + e.waited);
  }

  lemma NextKeeps(s: State, e: Event)
    requires Inv(s)
    ensures Inv(Next(s, e))
  {
    NextKeepsCore(s, e);
    if Perform(s, e.op, s.clock + e.waited).Ok? {
      PerformKeepsSupply(s, e.op, s.clock + e.waited);
    }
  }

  lemma {:induction false} EveryRunKeeps(events: seq<Event>)
    ensures Inv(After(EMPTY, events))
  {
    if events != [] {
      EveryRunKeeps(events[..|events| - 1]);
      NextKeeps(After(EMPTY, events[..|events| - 1]), events[|events| - 1]);
    }
  }

  ghost predicate Reachable(s: State) { exists events :: s == After(EMPTY, events) }

  lemma ReachableKeeps(s: State)
    requires Reachable(s)
    ensures Inv(s)
  {
    var events :| s == After(EMPTY, events);
    EveryRunKeeps(events);
  }

  lemma StepStaysReachable(s: State, e: Event)
    requires Reachable(s)
    ensures Reachable(Next(s, e))
  {
    var events :| s == After(EMPTY, events);
    assert (events + [e])[..|events|] == events;
    assert Next(s, e) == After(EMPTY, events + [e]);
  }

  // ---------- capacity ----------

  // From the clock on, what is held of every offering stays within its capacity.
  ghost predicate Within(s: State)
  {
    forall o, t :: 0 <= o < |s.offerings| && t >= s.clock ==> Active(s, o, t) <= s.offerings[o].capacity
  }

  predicate HasRoom(s: State, offering: nat, at: int, amount: int)
  {
    offering < |s.offerings| && Active(s, offering, at) + amount <= s.offerings[offering].capacity
  }

  // A receipt that confirms a reservation finds it still held, or the offering with room for it again.
  predicate Fits(s: State, e: Event)
  {
    e.op.Receipt? && e.op.id < |s.reservations| && s.reservations[e.op.id].status.PendingPayment? ==>
      var r, at := s.reservations[e.op.id], s.clock + e.waited;
      e.op.receivedAt < r.expiresAt && e.op.amount == r.amount && e.op.sameCurrency ==>
        at < r.expiresAt || HasRoom(s, r.offering, at, r.amount)
  }

  ghost predicate AllFit(s: State, events: seq<Event>)
  {
    events == [] || (AllFit(s, events[..|events| - 1])
                     && Fits(After(s, events[..|events| - 1]), events[|events| - 1]))
  }

  ghost predicate AlwaysWithin(s: State, events: seq<Event>)
  {
    Within(After(s, events)) && (events == [] || AlwaysWithin(s, events[..|events| - 1]))
  }

  lemma ActiveShrinks(s: State, o: nat, t: int, later: int)
    requires ReservationsOk(s) && t <= later
    ensures Active(s, o, later) <= Active(s, o, t)
  {
    forall i | 0 <= i < |s.reservations| ensures Held(o, later)(s.reservations[i]) <= Held(o, t)(s.reservations[i]) {
      assert s.reservations[i] in s.reservations;
    }
    SumAtMost(s.reservations, s.reservations, Held(o, later), Held(o, t));
  }

  lemma WithinFromClock(s: State)
    requires ReservationsOk(s)
    requires forall o :: 0 <= o < |s.offerings| ==> Active(s, o, s.clock) <= s.offerings[o].capacity
    ensures Within(s)
  {
    forall o, t | 0 <= o < |s.offerings| && t >= s.clock ensures Active(s, o, t) <= s.offerings[o].capacity {
      ActiveShrinks(s, o, s.clock, t);
    }
  }

  /**
   A receipt for a reservation the provider says was paid in time keeps every offering within capacity exactly when the
   reservation is still held when the receipt is processed, or the offering has room for it again.
   */
  lemma LateReceiptFitsExactly(s: State, id: nat, receivedAt: int, waited: nat)
    requires Core(s) && Within(s) && id < |s.reservations| && s.reservations[id].status.PendingPayment?
    requires receivedAt < s.reservations[id].expiresAt
    ensures var r := s.reservations[id];
            var at := s.clock + waited;
            Within(Next(s, Event(waited, Receipt(id, r.amount, true, receivedAt))))
            <==> (at < r.expiresAt || HasRoom(s, r.offering, at, r.amount))
  {
    var r := s.reservations[id];
    assert r in s.reservations;
    var at := s.clock + waited;
    var next := Next(s, Event(waited, Receipt(id, r.amount, true, receivedAt)));
    SetReservationKeeps(s, id, Confirmed);
    assert next == SetReservation(s, id, Confirmed).(clock := at);
    forall o
      ensures Active(next, o, at) == Active(s, o, at) + if o == r.offering && r.expiresAt <= at then r.amount else 0
    {
      SumOfUpdate(s.reservations, id, r.(status := Confirmed), Held(o, at));
    }
    if at < r.expiresAt || Active(s, r.offering, at) + r.amount <= s.offerings[r.offering].capacity {
      WithinFromClock(next);
    }
  }

  lemma CheckoutStaysWithin(s: State, e: Event)
    requires Core(s) && Within(s) && e.op.Checkout? && Perform(s, e.op, s.clock + e.waited).Ok?
    ensures Within(Next(s, e))
  {
    var next, at := Next(s, e), s.clock + e.waited;
    NextKeepsCore(s, e);
    forall o | 0 <= o < |s.offerings| ensures Active(next, o, at) <= s.offerings[o].capacity {
      assert Active(s, o, at) <= s.offerings[o].capacity;
      if next.reservations != s.reservations {
        SumOfOneMore(s.reservations, next.reservations[|s.reservations|], Held(o, at));
      }
    }
    WithinFromClock(next);
  }

  lemma ExpiryStaysWithin(s: State, id: nat, at: int, status: ReservationStatus)
    requires Core(s) && Within(s) && id < |s.reservations| && s.reservations[id].status.PendingPayment? && at >= s.clock
    requires !status.Confirmed? && !status.PendingPayment?
    ensures Within(SetReservation(s, id, status).(clock := at))
  {
    SetReservationKeeps(s, id, status);
    var next := SetReservation(s, id, status).(clock := at);
    assert s.reservations[id] in s.reservations;
    forall o | 0 <= o < |s.offerings| ensures Active(next, o, at) <= s.offerings[o].capacity {
      assert Active(s, o, at) <= s.offerings[o].capacity;
      SumOfUpdate(s.reservations, id, s.reservations[id].(status := status), Held(o, at));
    }
    WithinFromClock(next);
  }

  lemma OtherStepsStayWithin(s: State, e: Event)
    requires Core(s) && Within(s) && !e.op.Checkout? && !e.op.Receipt? && !e.op.Expire?
    ensures Within(Next(s, e))
  {
    var next := Next(s, e);
    assert next.reservations == s.reservations;
    NextKeepsCore(s, e);
    forall o | 0 <= o < |next.offerings| ensures Active(next, o, next.clock) <= next.offerings[o].capacity {
      if o < |s.offerings| {
        assert Active(s, o, next.clock) <= s.offerings[o].capacity;
      } else {
        SumBounds(s.reservations, Held(o, next.clock), 0, 0);
      }
    }
    WithinFromClock(next);
  }

  lemma WaitingStaysWithin(s: State, at: int)
    requires Within(s) && at >= s.clock
    ensures Within(s.(clock := at))
  {
    forall o, t | 0 <= o < |s.offerings| && t >= at ensures Active(s.(clock := at), o, t) <= s.offerings[o].capacity {
      assert Active(s, o, t) <= s.offerings[o].capacity;
    }
  }

  lemma StepStaysWithin(s: State, e: Event)
    requires Core(s) && Within(s)
    ensures Within(Next(s, e)) <==> Fits(s, e)
  {
    var at := s.clock + e.waited;
    if Perform(s, e.op, at).Err? {
      WaitingStaysWithin(s, at);
    } else if e.op.Checkout? {
      CheckoutStaysWithin(s, e);
    } else if e.op.Receipt? {
      if Next(s, e).reservations[e.op.id].status.Confirmed? {
        LateReceiptFitsExactly(s, e.op.id, e.op.receivedAt, e.waited);
      } else {
        ExpiryStaysWithin(s, e.op.id, at, Released);
      }
    } else if e.op.Expire? {
      ExpiryStaysWithin(s, e.op.id, at, Expired);
    } else {
      OtherStepsStayWithin(s, e);
    }
  }

  /**
   A run never holds more of an offering than its capacity, at any moment, if and only if each receipt that confirms
   finds its reservation still held or the offering with room for it.
   */
  lemma {:induction false} CapacityIsNeverExceeded(events: seq<Event>)
    ensures AlwaysWithin(EMPTY, events) <==> AllFit(EMPTY, events)
  {
    if events != [] {
      var n := |events| - 1;
      CapacityIsNeverExceeded(events[..n]);
      EveryRunKeeps(events[..n]);
      if AlwaysWithin(EMPTY, events[..n]) {
        StepStaysWithin(After(EMPTY, events[..n]), events[n]);
      }
    }
  }

  // ---------- a run that needs receipts to fit ----------

  // One investor's window closes, a second one buys everything, then the first one's earlier payment is processed.
  lemma LateReceiptOversells()
    ensures exists s :: Reachable(s) && !Within(s)
  {
    var published := Event(0, Publish(100, 0, 1000));
    var first := Event(1, Checkout(0, 1, None, 100, 10, true, true));
    var second := Event(10, Checkout(0, 2, None, 100, 50, true, true));
    var late := Event(1, Receipt(0, 100, true, 9));
    var s1 := Next(EMPTY, published);
    var s2 := Next(s1, first);
    assert s2.reservations == [Reservation(0, 0, 1, None, 100, 10, PendingPayment)];
    var a := s2.reservations[0];
    SumOfOneMore([], a, Held(0, 11));
    assert [] + [a] == [a];
    var s3 := Next(s2, second);
    var b := Reservation(0, 0, 2, None, 100, 50, PendingPayment);
    assert s3.reservations == [a, b];
    var s4 := Next(s3, late);
    assert s4.reservations == [a.(status := Confirmed), b];
    SumOfTwo(a.(status := Confirmed), b, Held(0, 12));
    assert Active(s4, 0, 12) == 200;
    RunOfFour(published, first, second, late);
    assert Reachable(s4);
  }

  lemma RunOfFour(a: Event, b: Event, c: Event, d: Event)
    ensures After(EMPTY, [a, b, c, d]) == Next(Next(Next(Next(EMPTY, a), b), c), d)
  {
    assert [a][..0] == [] && After(EMPTY, [a]) == Next(EMPTY, a);
    assert [a, b][..1] == [a] && After(EMPTY, [a, b]) == Next(After(EMPTY, [a]), b);
    assert [a, b, c][..2] == [a, b] && After(EMPTY, [a, b, c]) == Next(After(EMPTY, [a, b]), c);
    assert [a, b, c, d][..3] == [a, b, c];
  }

  // ---------- tokens ----------

  // The tokens at the unit price are the money paid for the reservation.
  predicate Exact(q: AllocationRequest, t: Terms, r: Reservation) { q.tokens * t.price == r.amount }

  lemma SubmissionIsExact(s: State, terms: nat, reservation: nat, cleared: bool, actor: int)
    requires DoSubmitAllocation(s, terms, reservation, cleared, actor).Ok?
    ensures var next := DoSubmitAllocation(s, terms, reservation, cleared, actor).value;
            && |next.requests| == |s.requests| + 1
            && Exact(next.requests[|s.requests|], s.terms[terms], s.reservations[reservation])
            && Sum(next.requests, ReservedTokens(terms)) <= s.terms[terms].supply
  {
    SumOfOneMore(s.requests, NewRequest(s, terms, reservation, actor), ReservedTokens(terms));
  }

  /** For approved terms, allocated tokens at the unit price are the invested money exactly. */
  lemma AllocationsAreExact(s: State, q: AllocationRequest)
    requires Reachable(s) && q in s.requests
    ensures q.terms < |s.terms| && q.reservation < |s.reservations|
    ensures Exact(q, s.terms[q.terms], s.reservations[q.reservation])
    ensures s.reservations[q.reservation].status.Confirmed?
  {
    ReachableKeeps(s);
    assert RequestOk(s.terms, s.reservations, q);
  }

  /** Each allocation mints at most once, and only after its whitelist operation was confirmed. */
  lemma MintsFollowWhitelists(s: State, i: nat)
    requires Reachable(s) && i < |s.operations| && s.operations[i].kind.Mint?
    ensures Whitelisted(s.operations, s.operations[i].allocation)
    ensures forall j :: 0 <= j < |s.operations| && s.operations[j].kind.Mint? && j != i ==>
                          s.operations[j].allocation != s.operations[i].allocation
  {
    ReachableKeeps(s);
    assert s.operations[i] in s.operations;
  }

  predicate UnderTerms(s: State, o: Operation, terms: nat)
  {
    o.allocation < |s.requests| && s.requests[o.allocation].terms == terms
  }

  // Tokens of every mint operation released under some terms, whatever became of it on chain.
  function MintedUnder(s: State, terms: nat): Operation -> int
  {
    (o: Operation) => if o.kind.Mint? && UnderTerms(s, o, terms) then o.tokens else 0
  }

  function Minted(s: State, terms: nat): int { Sum(s.operations, MintedUnder(s, terms)) }

  function AllocationOf(): Operation -> nat { (o: Operation) => o.allocation }

  function MintsOf(allocation: nat): Operation -> int
  {
    (o: Operation) => if o.kind.Mint? && o.allocation == allocation then 1 else 0
  }

  function TokensUnder(s: State, terms: nat, a: nat): int
  {
    if a < |s.requests| && s.requests[a].terms == terms then s.requests[a].tokens else 0
  }

  lemma MintedIsCounted(s: State, terms: nat, a: nat)
    requires Core(s)
    ensures PerLabel(s.operations, MintedUnder(s, terms), AllocationOf())(a)
         == TokensUnder(s, terms, a) * Sum(s.operations, MintsOf(a))
  {
    var only := Only(MintedUnder(s, terms), AllocationOf(), a);
    var tokens := TokensUnder(s, terms, a);
    forall o | o in s.operations
      ensures only(o) == tokens * MintsOf(a)(o) + 0 * MintsOf(a)(o)
    {
      assert OperationOk(s, o);
    }
    SumIsLinear(s.operations, MintsOf(a), MintsOf(a), only, tokens, 0);
  }

  lemma MintedPerAllocation(s: State, terms: nat, a: nat)
    requires Core(s) && a < |s.requests|
    ensures PerLabel(s.operations, MintedUnder(s, terms), AllocationOf())(a) <= ReservedTokens(terms)(s.requests[a])
  {
    var q := s.requests[a];
    assert q in s.requests && RequestOk(s.terms, s.reservations, q);
    MintedIsCounted(s, terms, a);
    SumOfAtMostOne(s.operations, MintsOf(a));
    var count := Sum(s.operations, MintsOf(a));
    if count == 1 {
      var o :| o in s.operations && MintsOf(a)(o) == 1;
      assert OperationOk(s, o);
    } else {
      assert TokensUnder(s, terms, a) * count == 0;
    }
  }

  lemma MintedIsReserved(s: State, terms: nat)
    requires Core(s)
    ensures Minted(s, terms) <= Sum(s.requests, ReservedTokens(terms))
  {
    var ids := Indices(|s.requests|);
    forall o | o in s.operations ensures o.allocation in ids {
      assert OperationOk(s, o) && ids[o.allocation] == o.allocation;
    }
    SumByLabel(s.operations, MintedUnder(s, terms), AllocationOf(), ids);
    var minted := PerLabel(s.operations, MintedUnder(s, terms), AllocationOf());
    forall i | 0 <= i < |ids|
      ensures minted(ids[i]) <= ReservedTokens(terms)(s.requests[i])
    {
      MintedPerAllocation(s, terms, i);
    }
    SumAtMost(ids, s.requests, minted, ReservedTokens(terms));
  }

  // ---------- money behind the tokens ----------

  function InvestedUnder(terms: nat): AllocationRequest -> int
  {
    (q: AllocationRequest) => if q.terms == terms && Live(q) then q.invested else 0
  }

  function ReservationOf(): AllocationRequest -> nat { (q: AllocationRequest) => q.reservation }

  function Paid(offering: nat): Reservation -> int
  {
    (r: Reservation) => if r.offering == offering && r.status.Confirmed? then r.amount else 0
  }

  function LiveFor(terms: nat, reservation: nat): AllocationRequest -> int
  {
    (q: AllocationRequest) => if q.terms == terms && q.reservation == reservation && Live(q) then 1 else 0
  }

  lemma InvestedPerReservation(s: State, terms: nat, r: nat)
    requires Core(s) && terms < |s.terms| && r < |s.reservations|
    ensures PerLabel(s.requests, InvestedUnder(terms), ReservationOf())(r)
         <= Paid(s.terms[terms].offering)(s.reservations[r])
  {
    var only := Only(InvestedUnder(terms), ReservationOf(), r);
    var amount := s.reservations[r].amount;
    forall q | q in s.requests ensures only(q) == amount * LiveFor(terms, r)(q) + 0 * LiveFor(terms, r)(q) {
      assert RequestOk(s.terms, s.reservations, q);
    }
    SumIsLinear(s.requests, LiveFor(terms, r), LiveFor(terms, r), only, amount, 0);
    SumOfAtMostOne(s.requests, LiveFor(terms, r));
    assert s.reservations[r] in s.reservations;
    if Sum(s.requests, LiveFor(terms, r)) == 1 {
      var q :| q in s.requests && LiveFor(terms, r)(q) == 1;
      assert RequestOk(s.terms, s.reservations, q);
    }
  }

  lemma InvestedIsPaid(s: State, terms: nat)
    requires Core(s) && terms < |s.terms|
    ensures s.terms[terms].price * Sum(s.requests, ReservedTokens(terms))
         == Sum(s.requests, InvestedUnder(terms))
         <= Sum(s.reservations, Paid(s.terms[terms].offering))
  {
    var price := s.terms[terms].price;
    forall q | q in s.requests
      ensures InvestedUnder(terms)(q) == price * ReservedTokens(terms)(q) + 0 * ReservedTokens(terms)(q)
    {
      assert RequestOk(s.terms, s.reservations, q);
    }
    SumIsLinear(s.requests, ReservedTokens(terms), ReservedTokens(terms), InvestedUnder(terms), price, 0);
    var ids := Indices(|s.reservations|);
    forall q | q in s.requests ensures q.reservation in ids {
      assert RequestOk(s.terms, s.reservations, q) && ids[q.reservation] == q.reservation;
    }
    SumByLabel(s.requests, InvestedUnder(terms), ReservationOf(), ids);
    var invested := PerLabel(s.requests, InvestedUnder(terms), ReservationOf());
    forall i | 0 <= i < |ids|
      ensures invested(ids[i]) <= Paid(s.terms[terms].offering)(s.reservations[i])
    {
      InvestedPerReservation(s, terms, i);
    }
    SumAtMost(ids, s.reservations, invested, Paid(s.terms[terms].offering));
  }

  lemma ScaleUp(price: int, a: int, b: int)
    requires price > 0 && a <= b
    ensures price * a <= price * b
  {
  }

  /**
   In every run, what is ever minted under some terms stays within their maximum supply; at the unit price it is worth
   no more than the confirmed investments of the offering, and no more than the offering's capacity.
   */
  lemma MintingIsBounded(s: State, terms: nat)
    requires Reachable(s) && terms < |s.terms|
    ensures var t := s.terms[terms];
            && Minted(s, terms) <= t.supply
            && t.price * Minted(s, terms) <= Sum(s.reservations, Paid(t.offering))
            && t.offering < |s.offerings| && t.price * Minted(s, terms) <= s.offerings[t.offering].capacity
  {
    ReachableKeeps(s);
    var t := s.terms[terms];
    assert t in s.terms && TermOk(s.offerings, t);
    MintedIsReserved(s, terms);
    InvestedIsPaid(s, terms);
    ScaleUp(t.price, Minted(s, terms), Sum(s.requests, ReservedTokens(terms)));
    ScaleUp(t.price, Sum(s.requests, ReservedTokens(terms)), t.supply);
  }

  /** An offering's tokens all come from one set of approved terms, so the bounds above are bounds on the offering. */
  lemma OneSetOfTermsPerOffering(s: State, i: nat, j: nat)
    requires Reachable(s) && i < |s.requests| && j < |s.requests|
    requires s.requests[i].terms < |s.terms| && s.requests[j].terms < |s.terms|
    requires s.terms[s.requests[i].terms].offering == s.terms[s.requests[j].terms].offering
    ensures s.requests[i].terms == s.requests[j].terms
  {
    ReachableKeeps(s);
    assert s.requests[i] in s.requests && s.requests[j] in s.requests;
  }
}
