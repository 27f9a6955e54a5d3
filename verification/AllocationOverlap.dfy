/**
 Allocation submissions that overlap. A submission locks its reservation FOR UPDATE but its terms only FOR SHARE
 (src/platform/postgres-investment-allocations.ts:41-53), reads the reserved supply and inserts; transactions run at the
 default isolation level (src/db/postgres.ts:45-60). So two submissions for different reservations under the same
 terms can both read the supply before either commits. Here a submission is two steps, the checks and the commit, with
 every other command in between.
 */
module AllocationOverlap {
  import opened Base
  import opened Sums
  import I = Issuance
  import Theorems = IssuanceTheorems

  // `open` holds the inserts of the transactions that have passed the checks and not ended.
  datatype World = World(base: I.State, open: seq<I.AllocationRequest>)

  datatype Move =
    | Other(event: I.Event)
    | Begin(terms: nat, reservation: nat, cleared: bool, actor: int)
    | Finish(k: nat)
    | Drop(k: nat)

  // ---------- steps ----------

  // The reservation row is locked until the transaction that submitted it ends.
  predicate Locked(w: World, reservation: nat) { exists q :: q in w.open && q.reservation == reservation }

  predicate Begins(w: World, m: Move)
  {
    m.Begin? && !Locked(w, m.reservation)
    && I.DoSubmitAllocation(w.base, m.terms, m.reservation, m.cleared, m.actor).Ok?
  }

  function Without(open: seq<I.AllocationRequest>, k: nat): seq<I.AllocationRequest>
    requires k < |open|
  {
    open[..k] + open[k + 1..]
  }

  function Next(w: World, m: Move): World
  {
    match m
    case Other(event) => if event.op.SubmitAllocation? then w else w.(base := I.Next(w.base, event))
    case Begin(terms, reservation, _, actor) =>
      if Begins(w, m) then w.(open := w.open + [I.NewRequest(w.base, terms, reservation, actor)]) else w
    case Finish(k) =>
      if k >= |w.open| then w else World(w.base.(requests := w.base.requests + [w.open[k]]), Without(w.open, k))
    case Drop(k) => if k >= |w.open| then w else w.(open := Without(w.open, k))
  }

  function After(w: World, moves: seq<Move>): World
  {
    if moves == [] then w else Next(After(w, moves[..|moves| - 1]), moves[|moves| - 1])
  }

  const START := World(I.EMPTY, [])

  /** A submission that nothing overlaps is the atomic one. */
  lemma AloneIsAtomic(w: World, m: Move)
    requires w.open == [] && Begins(w, m)
    ensures Next(Next(w, m), Finish(0))
         == World(I.DoSubmitAllocation(w.base, m.terms, m.reservation, m.cleared, m.actor).value, [])
  {
  }

  // ---------- what overlapping keeps ----------

  ghost predicate OpenOk(w: World, q: I.AllocationRequest)
  {
    && Theorems.RequestOk(w.base.terms, w.base.reservations, q) && I.Live(q)
    && forall x :: x in w.base.requests && I.Live(x) ==> x.reservation != q.reservation
  }

  ghost predicate WorldOk(w: World)
  {
    && Theorems.Core(w.base)
    && (forall q :: q in w.open ==> OpenOk(w, q))
    && forall i, j :: 0 <= i < j < |w.open| ==> w.open[i].reservation != w.open[j].reservation
  }

  // Approved terms and confirmed reservations are final, and no other command stores a request.
  lemma OtherKeepsOpen(s: I.State, e: I.Event, q: I.AllocationRequest)
    requires Theorems.Core(s) && !e.op.SubmitAllocation? && Theorems.RequestOk(s.terms, s.reservations, q)
    ensures var next := I.Next(s, e); Theorems.RequestOk(next.terms, next.reservations, q)
  {
  }

  lemma OtherStoresNoRequest(s: I.State, e: I.Event, x: I.AllocationRequest)
    requires !e.op.SubmitAllocation? && x in I.Next(s, e).requests && I.Live(x)
    ensures exists y :: y in s.requests && I.Live(y) && y.reservation == x.reservation
  {
    var next := I.Next(s, e);
    var i :| 0 <= i < |next.requests| && next.requests[i] == x;
    assert s.requests[i] in s.requests && I.Live(s.requests[i]) && s.requests[i].reservation == x.reservation;
  }

  lemma OtherKeeps(w: World, e: I.Event)
    requires WorldOk(w) && !e.op.SubmitAllocation?
    ensures WorldOk(Next(w, Other(e)))
  {
    var next := Next(w, Other(e));
    Theorems.NextKeepsCore(w.base, e);
    forall q | q in w.open ensures OpenOk(next, q) {
      OtherKeepsOpen(w.base, e, q);
      forall x | x in next.base.requests && I.Live(x) ensures x.reservation != q.reservation {
        OtherStoresNoRequest(w.base, e, x);
      }
    }
  }

  lemma BeginKeeps(w: World, m: Move)
    requires WorldOk(w) && Begins(w, m)
    ensures WorldOk(Next(w, m))
  {
    Theorems.SubmittedRequestIsOk(w.base, m.terms, m.reservation, m.cleared, m.actor);
    forall i | 0 <= i < |w.open| ensures w.open[i].reservation != m.reservation { assert w.open[i] in w.open; }
  }

  lemma WithoutKeeps(w: World, k: nat)
    requires WorldOk(w) && k < |w.open|
    ensures WorldOk(w.(open := Without(w.open, k)))
    ensures forall q :: q in Without(w.open, k) ==> q.reservation != w.open[k].reservation
  {
    var rest := Without(w.open, k);
    forall i | 0 <= i < |rest| ensures rest[i] in w.open && rest[i].reservation != w.open[k].reservation {
      assert rest[i] == w.open[if i < k then i else i + 1];
    }
  }

  lemma FinishKeeps(w: World, k: nat)
    requires WorldOk(w) && k < |w.open|
    ensures WorldOk(Next(w, Finish(k)))
  {
    assert w.open[k] in w.open;
    Theorems.NewRequestKeeps(w.base, w.open[k]);
    WithoutKeeps(w, k);
    var next := Next(w, Finish(k));
    forall q | q in next.open ensures OpenOk(next, q) { assert OpenOk(w.(open := Without(w.open, k)), q); }
  }

  lemma NextKeeps(w: World, m: Move)
    requires WorldOk(w)
    ensures WorldOk(Next(w, m))
  {
    match m
    case Other(e) => if !e.op.SubmitAllocation? { OtherKeeps(w, e); }
    case Begin(_, _, _, _) => if Begins(w, m) { BeginKeeps(w, m); }
    case Finish(k) => if k < |w.open| { FinishKeeps(w, k); }
    case Drop(k) => if k < |w.open| { WithoutKeeps(w, k); }
  }

  lemma {:induction false} EveryRunKeeps(w: World, moves: seq<Move>)
    requires WorldOk(w)
    ensures WorldOk(After(w, moves))
  {
    if moves != [] {
      EveryRunKeeps(w, moves[..|moves| - 1]);
      NextKeeps(After(w, moves[..|moves| - 1]), moves[|moves| - 1]);
    }
  }

  /**
   However submissions overlap, what is minted at the unit price never exceeds the confirmed investments of the
   offering: tokens are always paid for.
   */
  lemma OverlapMintsOnlyPaidTokens(moves: seq<Move>, terms: nat)
    requires terms < |After(START, moves).base.terms|
    ensures var s := After(START, moves).base;
            s.terms[terms].price * Theorems.Minted(s, terms)
            <= Sum(s.reservations, Theorems.Paid(s.terms[terms].offering))
  {
    EveryRunKeeps(START, moves);
    var s := After(START, moves).base;
    assert s.terms[terms] in s.terms && Theorems.TermOk(s.offerings, s.terms[terms]);
    Theorems.MintedIsReserved(s, terms);
    Theorems.InvestedIsPaid(s, terms);
    Theorems.ScaleUp(s.terms[terms].price, Theorems.Minted(s, terms), Sum(s.requests, I.ReservedTokens(terms)));
  }

  predicate ReceiptFits(w: World, m: Move) { m.Other? ==> Theorems.Fits(w.base, m.event) }

  ghost predicate AllReceiptsFit(w: World, moves: seq<Move>)
  {
    moves == [] || (AllReceiptsFit(w, moves[..|moves| - 1])
                    && ReceiptFits(After(w, moves[..|moves| - 1]), moves[|moves| - 1]))
  }

  lemma RequestsHoldNothing(s: I.State, requests: seq<I.AllocationRequest>)
    requires Theorems.Within(s)
    ensures Theorems.Within(s.(requests := requests))
  {
    forall o, t | 0 <= o < |s.offerings| && t >= s.clock
      ensures I.Active(s.(requests := requests), o, t) <= s.offerings[o].capacity
    {
      assert I.Active(s, o, t) <= s.offerings[o].capacity;
    }
  }

  lemma {:induction false} FittingRunsStayWithin(w: World, moves: seq<Move>)
    requires WorldOk(w) && Theorems.Within(w.base) && AllReceiptsFit(w, moves)
    ensures Theorems.Within(After(w, moves).base)
  {
    if moves != [] {
      var n := |moves| - 1;
      FittingRunsStayWithin(w, moves[..n]);
      EveryRunKeeps(w, moves[..n]);
      var before := After(w, moves[..n]);
      if moves[n].Other? {
        Theorems.StepStaysWithin(before.base, moves[n].event);
      } else {
        RequestsHoldNothing(before.base, After(w, moves).base.requests);
      }
    }
  }

  lemma PaidIsHeld(s: I.State, o: nat)
    requires Theorems.ReservationsOk(s)
    ensures Sum(s.reservations, Theorems.Paid(o)) <= I.Active(s, o, s.clock)
  {
    forall i | 0 <= i < |s.reservations|
      ensures Theorems.Paid(o)(s.reservations[i]) <= I.Held(o, s.clock)(s.reservations[i])
    {
      assert s.reservations[i] in s.reservations;
    }
    SumAtMost(s.reservations, s.reservations, Theorems.Paid(o), I.Held(o, s.clock));
  }

  /** When its receipts fit it never exceeds the offering's capacity either, even when it exceeds the maximum supply. */
  lemma OverlapMintsWithinCapacity(moves: seq<Move>, terms: nat)
    requires AllReceiptsFit(START, moves) && terms < |After(START, moves).base.terms|
    ensures var s := After(START, moves).base;
            var t := s.terms[terms];
            t.offering < |s.offerings| && t.price * Theorems.Minted(s, terms) <= s.offerings[t.offering].capacity
  {
    EveryRunKeeps(START, moves);
    FittingRunsStayWithin(START, moves);
    OverlapMintsOnlyPaidTokens(moves, terms);
    var s := After(START, moves).base;
    assert s.terms[terms] in s.terms && Theorems.TermOk(s.offerings, s.terms[terms]);
    PaidIsHeld(s, s.terms[terms].offering);
    assert I.Active(s, s.terms[terms].offering, s.clock) <= s.offerings[s.terms[terms].offering].capacity;
  }

  // ---------- the supply, and the exact guard it needs ----------

  function Promised(w: World, t: nat): int
  {
    Sum(w.base.requests, I.ReservedTokens(t)) + Sum(w.open, I.ReservedTokens(t))
  }

  // What is reserved and what is about to be stay within every supply.
  ghost predicate Fits(w: World) { forall t :: 0 <= t < |w.base.terms| ==> Promised(w, t) <= w.base.terms[t].supply }

  // A submission leaves room for the ones already under way with the same terms.
  predicate LeavesRoom(w: World, m: Move)
  {
    Begins(w, m) ==>
      var q := I.NewRequest(w.base, m.terms, m.reservation, m.actor);
      Promised(w, m.terms) + q.tokens <= w.base.terms[m.terms].supply
  }

  ghost predicate Guarded(w: World, moves: seq<Move>)
  {
    moves == [] || (Guarded(w, moves[..|moves| - 1]) && LeavesRoom(After(w, moves[..|moves| - 1]), moves[|moves| - 1]))
  }

  /** Nothing else under way with the same terms is enough: the code's own check then leaves room. */
  lemma NoOverlapLeavesRoom(w: World, m: Move)
    requires forall q :: q in w.open ==> !m.Begin? || q.terms != m.terms
    ensures LeavesRoom(w, m)
  {
    if Begins(w, m) {
      SumBounds(w.open, I.ReservedTokens(m.terms), 0, 0);
    }
  }

  lemma OtherKeepsFit(w: World, e: I.Event)
    requires WorldOk(w) && Fits(w) && !e.op.SubmitAllocation?
    ensures Fits(Next(w, Other(e)))
  {
    var next := Next(w, Other(e));
    var outcome := I.Perform(w.base, e.op, w.base.clock + e.waited);
    if outcome.Ok? {
      Theorems.PerformKeepsCore(w.base, e.op, w.base.clock + e.waited);
      forall t | 0 <= t < |next.base.terms| ensures Promised(next, t) <= next.base.terms[t].supply {
        Theorems.OnlySubmissionsReserve(w.base, e.op, w.base.clock + e.waited, t);
        if t < |w.base.terms| {
          assert Promised(w, t) <= w.base.terms[t].supply;
        } else {
          NewTermsHaveNothingPromised(w, t);
          assert next.base.terms[t] in next.base.terms;
        }
      }
    } else {
      assert forall t :: Promised(next, t) == Promised(w, t);
    }
  }

  lemma NewTermsHaveNothingPromised(w: World, t: nat)
    requires WorldOk(w) && t >= |w.base.terms|
    ensures Promised(w, t) == 0
  {
    forall q | q in w.base.requests
      ensures I.ReservedTokens(t)(q) == 0
    {
      assert Theorems.RequestOk(w.base.terms, w.base.reservations, q);
    }
    SumBounds(w.base.requests, I.ReservedTokens(t), 0, 0);
    forall q | q in w.open ensures I.ReservedTokens(t)(q) == 0 { assert OpenOk(w, q); }
    SumBounds(w.open, I.ReservedTokens(t), 0, 0);
  }

  lemma BeginPromises(w: World, m: Move, t: nat)
    requires Begins(w, m)
    ensures var q := I.NewRequest(w.base, m.terms, m.reservation, m.actor);
            Promised(Next(w, m), t) == Promised(w, t) + if t == m.terms then q.tokens else 0
  {
    SumOfOneMore(w.open, I.NewRequest(w.base, m.terms, m.reservation, m.actor), I.ReservedTokens(t));
  }

  lemma EndingPromises(w: World, k: nat, t: nat)
    requires WorldOk(w) && k < |w.open|
    ensures Promised(Next(w, Finish(k)), t) == Promised(w, t) && Promised(Next(w, Drop(k)), t) <= Promised(w, t)
  {
    assert w.open[k] in w.open && OpenOk(w, w.open[k]);
    SumOfRemoval(w.open, k, I.ReservedTokens(t));
    SumOfOneMore(w.base.requests, w.open[k], I.ReservedTokens(t));
  }

  lemma NextKeepsFit(w: World, m: Move)
    requires WorldOk(w) && Fits(w) && LeavesRoom(w, m)
    ensures Fits(Next(w, m))
  {
    match m
    case Other(e) => if !e.op.SubmitAllocation? { OtherKeepsFit(w, e); }
    case Begin(_, _, _, _) =>
      if Begins(w, m) {
        forall t | 0 <= t < |w.base.terms|
          ensures Promised(Next(w, m), t) <= w.base.terms[t].supply
        {
          BeginPromises(w, m, t);
        }
      }
    case Finish(k) =>
      if k < |w.open| {
        forall t | 0 <= t < |w.base.terms|
          ensures Promised(Next(w, m), t) <= w.base.terms[t].supply
        {
          EndingPromises(w, k, t);
        }
      }
    case Drop(k) =>
      if k < |w.open| {
        forall t | 0 <= t < |w.base.terms|
          ensures Promised(Next(w, m), t) <= w.base.terms[t].supply
        {
          EndingPromises(w, k, t);
        }
      }
  }

  lemma {:induction false} GuardedRunsFit(w: World, moves: seq<Move>)
    requires WorldOk(w) && Fits(w) && Guarded(w, moves)
    ensures WorldOk(After(w, moves)) && Fits(After(w, moves))
  {
    if moves != [] {
      var n := |moves| - 1;
      GuardedRunsFit(w, moves[..n]);
      NextKeeps(After(w, moves[..n]), moves[n]);
      NextKeepsFit(After(w, moves[..n]), moves[n]);
    }
  }

  lemma FittingIsWithinSupply(w: World)
    requires WorldOk(w) && Fits(w)
    ensures Theorems.SupplyOk(w.base)
  {
    forall t | 0 <= t < |w.base.terms| ensures Sum(w.base.requests, I.ReservedTokens(t)) <= w.base.terms[t].supply {
      assert Promised(w, t) <= w.base.terms[t].supply;
      forall q | q in w.open ensures I.ReservedTokens(t)(q) >= 0 { assert OpenOk(w, q); }
      SumNotNegative(w.open, I.ReservedTokens(t));
    }
  }

  ghost predicate ReachableWithRoom(w: World) { exists moves :: Guarded(START, moves) && w == After(START, moves) }

  lemma RoomKeepsSupply(w: World)
    requires ReachableWithRoom(w)
    ensures WorldOk(w) && Fits(w) && Theorems.SupplyOk(w.base)
  {
    var moves :| Guarded(START, moves) && w == After(START, moves);
    GuardedRunsFit(START, moves);
    FittingIsWithinSupply(w);
  }

  /**
   In every run whose submissions leave room for the ones under way with the same terms, what is reserved and what is
   minted stay within the maximum supply.
   */
  lemma SupplyHoldsWithRoom(w: World, terms: nat)
    requires ReachableWithRoom(w) && terms < |w.base.terms|
    ensures Theorems.Minted(w.base, terms) <= Sum(w.base.requests, I.ReservedTokens(terms))
         <= w.base.terms[terms].supply
  {
    RoomKeepsSupply(w);
    Theorems.MintedIsReserved(w.base, terms);
  }

  lemma FinishFirst(w: World)
    requires w.open != []
    ensures var next := Next(w, Finish(0));
            && next == World(w.base.(requests := w.base.requests + [w.open[0]]), w.open[1..])
            && next.base.requests + next.open == w.base.requests + w.open
  {
    assert Without(w.open, 0) == w.open[1..];
    FirstMovesOver(w.base.requests, w.open);
  }

  lemma FirstMovesOver<T>(a: seq<T>, b: seq<T>)
    requires b != []
    ensures (a + [b[0]]) + b[1..] == a + b
  {
  }

  // Every submission under way can still commit.
  lemma {:induction false} AllFinish(w: World) returns (moves: seq<Move>)
    ensures Guarded(w, moves) && After(w, moves).base == w.base.(requests := w.base.requests + w.open)
    decreases |w.open|
  {
    if w.open == [] {
      moves := [];
      assert w.base.requests + w.open == w.base.requests;
    } else {
      FinishFirst(w);
      var more := AllFinish(Next(w, Finish(0)));
      moves := [Finish(0)] + more;
      Prepend(w, Finish(0), more);
    }
  }

  lemma {:induction false} Prepend(w: World, m: Move, more: seq<Move>)
    requires LeavesRoom(w, m) && Guarded(Next(w, m), more)
    ensures Guarded(w, [m] + more) && After(w, [m] + more) == After(Next(w, m), more)
  {
    if more == [] {
      assert [m] + more == [m] && [m][..0] == [];
      assert After(w, []) == w;
    } else {
      var n := |more| - 1;
      Prepend(w, m, more[..n]);
      assert ([m] + more)[..|[m] + more| - 1] == [m] + more[..n];
    }
  }

  ghost predicate CanOversell(w: World)
  {
    exists moves :: Guarded(w, moves) && !Theorems.SupplyOk(After(w, moves).base)
  }

  /**
   From any state such a run reaches, a submission the code accepts opens a continuation that exceeds a maximum
   supply if and only if it does not leave room for the submissions already under way with the same terms.
   */
  lemma RoomIsExact(w: World, m: Move)
    requires ReachableWithRoom(w) && Begins(w, m)
    ensures CanOversell(Next(w, m)) <==> !LeavesRoom(w, m)
  {
    RoomKeepsSupply(w);
    var next := Next(w, m);
    NextKeeps(w, m);
    if LeavesRoom(w, m) {
      NextKeepsFit(w, m);
      forall moves | Guarded(next, moves) ensures Theorems.SupplyOk(After(next, moves).base) {
        GuardedRunsFit(next, moves);
        FittingIsWithinSupply(After(next, moves));
      }
    } else {
      BeginPromises(w, m, m.terms);
      var moves := AllFinish(next);
      var last := After(next, moves).base;
      SumOfConcat(next.base.requests, next.open, I.ReservedTokens(m.terms));
      assert Sum(last.requests, I.ReservedTokens(m.terms)) > last.terms[m.terms].supply;
    }
  }

  // ---------- a run that needs the guard ----------

  // Two confirmed investments of 100 and terms for a single token at that price.
  const PENDING_FIRST := I.Reservation(0, 0, 1, None, 100, 50, I.PendingPayment)
  const PENDING_SECOND := I.Reservation(0, 0, 2, None, 100, 50, I.PendingPayment)
  const FIRST := PENDING_FIRST.(status := I.Confirmed)
  const SECOND := PENDING_SECOND.(status := I.Confirmed)
  const ONE_TOKEN := I.Terms(0, 0, 100, 1, 1, I.Approved)

  function Published(reservations: seq<I.Reservation>, terms: seq<I.Terms>): I.State
  {
    I.State(0, [I.Offering(200, 0, 1000, true, 0)], reservations, terms, [], [])
  }

  const READY := Published([FIRST, SECOND], [ONE_TOKEN])

  lemma CheckoutsPass()
    ensures I.Next(I.EMPTY, I.Event(0, I.Publish(200, 0, 1000))) == Published([], [])
    ensures I.Next(Published([], []), I.Event(0, I.Checkout(0, 1, None, 100, 50, true, true)))
         == Published([PENDING_FIRST], [])
  {
  }

  lemma SecondCheckoutPasses()
    ensures I.Next(Published([PENDING_FIRST], []), I.Event(0, I.Checkout(0, 2, None, 100, 50, true, true)))
         == Published([PENDING_FIRST, PENDING_SECOND], [])
  {
    SumOfOneMore([], PENDING_FIRST, I.Held(0, 0));
    assert [] + [PENDING_FIRST] == [PENDING_FIRST];
  }

  lemma ReceiptsConfirm()
    ensures I.Next(Published([PENDING_FIRST, PENDING_SECOND], []), I.Event(0, I.Receipt(0, 100, true, 0)))
         == Published([FIRST, PENDING_SECOND], [])
    ensures I.Next(Published([FIRST, PENDING_SECOND], []), I.Event(0, I.Receipt(1, 100, true, 0)))
         == Published([FIRST, SECOND], [])
  {
  }

  lemma TermsAreApproved()
    ensures I.Next(Published([FIRST, SECOND], []), I.Event(0, I.SubmitTerms(0, 100, 1, true, 1)))
         == Published([FIRST, SECOND], [ONE_TOKEN.(status := I.Submitted)])
    ensures I.Next(Published([FIRST, SECOND], [ONE_TOKEN.(status := I.Submitted)]),
                   I.Event(0, I.DecideTerms(0, true, 2))) == READY
  {
  }

  lemma OneMoreEvent(events: seq<I.Event>, e: I.Event)
    ensures I.After(I.EMPTY, events + [e]) == I.Next(I.After(I.EMPTY, events), e)
  {
    assert (events + [e])[..|events|] == events;
  }

  lemma ReadyIsReached() returns (events: seq<I.Event>)
    ensures I.After(I.EMPTY, events) == READY && forall e :: e in events ==> !e.op.SubmitAllocation?
  {
    CheckoutsPass();
    SecondCheckoutPasses();
    ReceiptsConfirm();
    TermsAreApproved();
    events := [];
    OneMoreEvent(events, I.Event(0, I.Publish(200, 0, 1000)));
    events := events + [I.Event(0, I.Publish(200, 0, 1000))];
    OneMoreEvent(events, I.Event(0, I.Checkout(0, 1, None, 100, 50, true, true)));
    events := events + [I.Event(0, I.Checkout(0, 1, None, 100, 50, true, true))];
    OneMoreEvent(events, I.Event(0, I.Checkout(0, 2, None, 100, 50, true, true)));
    events := events + [I.Event(0, I.Checkout(0, 2, None, 100, 50, true, true))];
    OneMoreEvent(events, I.Event(0, I.Receipt(0, 100, true, 0)));
    events := events + [I.Event(0, I.Receipt(0, 100, true, 0))];
    OneMoreEvent(events, I.Event(0, I.Receipt(1, 100, true, 0)));
    events := events + [I.Event(0, I.Receipt(1, 100, true, 0))];
    OneMoreEvent(events, I.Event(0, I.SubmitTerms(0, 100, 1, true, 1)));
    events := events + [I.Event(0, I.SubmitTerms(0, 100, 1, true, 1))];
    OneMoreEvent(events, I.Event(0, I.DecideTerms(0, true, 2)));
    events := events + [I.Event(0, I.DecideTerms(0, true, 2))];
  }

  function Others(events: seq<I.Event>): seq<Move> { seq(|events|, i requires 0 <= i < |events| => Other(events[i])) }

  lemma {:induction false} OthersRun(events: seq<I.Event>)
    requires forall e :: e in events ==> !e.op.SubmitAllocation?
    ensures Guarded(START, Others(events)) && After(START, Others(events)) == World(I.After(I.EMPTY, events), [])
  {
    if events != [] {
      var n := |events| - 1;
      assert events[n] in events;
      OthersRun(events[..n]);
      assert Others(events)[..n] == Others(events[..n]);
    }
  }

  lemma ReadyWithOneUnderWay(w: World)
    requires w == Next(World(READY, []), Begin(0, 0, true, 1))
    ensures w == World(READY, [I.AllocationRequest(0, 0, 100, 100, 1, 1, I.Submitted)])
    ensures LeavesRoom(World(READY, []), Begin(0, 0, true, 1))
    ensures Begins(w, Begin(0, 1, true, 1)) && !LeavesRoom(w, Begin(0, 1, true, 1))
  {
    var q := I.AllocationRequest(0, 0, 100, 100, 1, 1, I.Submitted);
    SumOfOneMore([], q, I.ReservedTokens(0));
    assert [] + [q] == [q];
  }

  lemma OneMoreMove(w: World, moves: seq<Move>, m: Move)
    ensures After(w, moves + [m]) == Next(After(w, moves), m)
    ensures Guarded(w, moves) && LeavesRoom(After(w, moves), m) ==> Guarded(w, moves + [m])
  {
    assert (moves + [m])[..|moves|] == moves;
  }

  lemma OneUnderWayIsReached() returns (moves: seq<Move>)
    ensures Guarded(START, moves) && After(START, moves) == Next(World(READY, []), Begin(0, 0, true, 1))
  {
    ReadyWithOneUnderWay(Next(World(READY, []), Begin(0, 0, true, 1)));
    var events := ReadyIsReached();
    OthersRun(events);
    OneMoreMove(START, Others(events), Begin(0, 0, true, 1));
    moves := Others(events) + [Begin(0, 0, true, 1)];
  }

  lemma OversellingIsReached(moves: seq<Move>, m: Move)
    requires CanOversell(Next(After(START, moves), m))
    ensures exists run :: !Theorems.SupplyOk(After(START, run).base)
  {
    var next := Next(After(START, moves), m);
    var more :| Guarded(next, more) && !Theorems.SupplyOk(After(next, more).base);
    OneMoreMove(START, moves, m);
    RunsCompose(START, moves + [m], more);
  }

  /** As the code stands, two overlapping submissions exceed the maximum supply. */
  lemma OverlapOversells()
    ensures exists moves :: !Theorems.SupplyOk(After(START, moves).base)
  {
    var moves := OneUnderWayIsReached();
    ReadyWithOneUnderWay(After(START, moves));
    RoomIsExact(After(START, moves), Begin(0, 1, true, 1));
    OversellingIsReached(moves, Begin(0, 1, true, 1));
  }

  lemma {:induction false} RunsCompose(w: World, a: seq<Move>, b: seq<Move>)
    ensures After(w, a + b) == After(After(w, a), b)
  {
    if b == [] {
      assert a + b == a;
    } else {
      var n := |b| - 1;
      RunsCompose(w, a, b[..n]);
      assert (a + b)[..|a + b| - 1] == a + b[..n];
    }
  }
}
