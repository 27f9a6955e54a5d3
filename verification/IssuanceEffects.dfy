/**
 What each row of the issuance tables turns into, and exactly when: for every state and every command, a row is added or
 changes its status if and only if the command is the one that may, at a time and in a state that let it. Nothing here
 speaks of the step functions.
 */
module IssuanceEffects {
  import opened Base
  import opened Sums
  import opened Issuance
  import opened IssuanceTheorems

  // ---------- offerings ----------

  /** An offering is published exactly with a positive capacity and a window; its capacity and window never change. */
  lemma OfferingsChange(s: State, e: Event, i: nat)
    ensures var os, n := Next(s, e).offerings, |s.offerings|;
            && (if e.op.Publish? && e.op.capacity > 0 && e.op.opens < e.op.closes then
                  |os| == n + 1 && os[n] == Offering(e.op.capacity, e.op.opens, e.op.closes, true, 0)
                else |os| == n)
            && (i < n ==>
                  && os[i] == s.offerings[i].(published := os[i].published, version := os[i].version)
                  && (os[i].published <==> s.offerings[i].published && e.op != Close(i))
                  && os[i].version == s.offerings[i].version + if e.op == Republish(i) then 1 else 0)
  {
  }

  // ---------- reservations ----------

  // A checkout that reserves: in the window, paid for within it, allowed, agreed, not a repeat, and there is room.
  predicate Reserves(s: State, op: Op, at: int)
  {
    && op.Checkout? && op.amount > 0 && op.offering < |s.offerings|
    && var o := s.offerings[op.offering];
    && o.published && o.opens <= at < o.closes && at < op.expiresAt <= o.closes && op.eligible && op.agreed
    && (op.key.Some? ==>
          forall r :: r in s.reservations && r.offering == op.offering && r.investor == op.investor ==> r.key != op.key)
    && HasRoom(s, op.offering, at, op.amount)
  }

  // The reservation records what was ordered, under the version that is published.
  predicate RecordsOrder(s: State, op: Op, r: Reservation)
  {
    && op.Checkout? && op.offering < |s.offerings|
    && r.offering == op.offering && r.version == s.offerings[op.offering].version && r.investor == op.investor
    && r.key == op.key && r.amount == op.amount && r.expiresAt == op.expiresAt && r.status.PendingPayment?
  }

  /**
   A reservation is stored exactly by a checkout inside the offering's window whose payment falls within it, by an
   eligible investor who agreed and has not used the key, while the offering has room; and it is exactly that order.
   */
  lemma ReservationsBegin(s: State, e: Event)
    ensures var rs, n := Next(s, e).reservations, |s.reservations|;
            if Reserves(s, e.op, s.clock + e.waited) then
              && |rs| == n + 1 && rs[..n] == s.reservations && RecordsOrder(s, e.op, rs[n])
              && Perform(s, e.op, s.clock + e.waited).Ok?
            else |rs| == n && (e.op.Checkout? ==> rs == s.reservations)
  {
  }

  predicate PaidInFull(r: Reservation, op: Op)
  {
    op.Receipt? && op.receivedAt < r.expiresAt && op.amount == r.amount && op.sameCurrency
  }

  /**
   A pending reservation is confirmed exactly by a receipt for its amount and currency paid before it expired, released
   exactly by any other receipt, and expired exactly after its time; no other reservation ever changes.
   */
  lemma ReservationsTurn(s: State, e: Event, i: nat)
    requires i < |s.reservations|
    ensures i < |Next(s, e).reservations|
    ensures var r, q := s.reservations[i], Next(s, e).reservations[i];
            var received := e.op.Receipt? && e.op.id == i && r.status.PendingPayment?;
            && q == r.(status := q.status)
            && (Turned(r.status, q.status, Confirmed) <==> received && PaidInFull(r, e.op))
            && (Turned(r.status, q.status, Released) <==> received && !PaidInFull(r, e.op))
            && (Turned(r.status, q.status, Expired) <==>
                e.op == Expire(i) && r.status.PendingPayment? && r.expiresAt <= s.clock + e.waited)
            && !Turned(r.status, q.status, PendingPayment)
  {
  }

  // ---------- terms ----------

  predicate ProposesTerms(s: State, op: Op)
  {
    && op.SubmitTerms? && op.price > 0 && op.supply > 0 && op.evidence && op.offering < |s.offerings|
    && s.offerings[op.offering].published && op.price * op.supply <= s.offerings[op.offering].capacity
    && forall t :: t in s.terms && t.offering == op.offering ==> t.status.Rejected?
  }

  /** Terms are stored exactly for a published offering without live ones, with evidence, and within its capacity. */
  lemma TermsBegin(s: State, e: Event)
    ensures var ts, n := Next(s, e).terms, |s.terms|;
            if !ProposesTerms(s, e.op) then |ts| == n
            else
              && |ts| == n + 1 && ts[n].offering == e.op.offering && ts[n].version == s.offerings[e.op.offering].version
              && ts[n].price == e.op.price && ts[n].supply == e.op.supply && ts[n].submitter == e.op.actor
              && ts[n].status.Submitted?
  {
  }

  /** Terms are decided exactly once, by someone other than who submitted them, and never change otherwise. */
  lemma TermsTurn(s: State, e: Event, i: nat)
    requires i < |s.terms|
    ensures i < |Next(s, e).terms|
    ensures var t, u := s.terms[i], Next(s, e).terms[i];
            var decided := e.op.DecideTerms? && e.op.id == i && t.status.Submitted? && e.op.actor != t.submitter;
            && u == t.(status := u.status) && !Turned(t.status, u.status, Submitted)
            && (Turned(t.status, u.status, Approved) <==> decided && e.op.approve)
            && (Turned(t.status, u.status, Rejected) <==> decided && !e.op.approve)
  {
  }

  // ---------- allocations ----------

  // Enough tokens are left for this many more.
  predicate SupplyLeft(s: State, terms: nat, tokens: int)
    requires terms < |s.terms|
  {
    Sum(s.requests, ReservedTokens(terms)) + tokens <= s.terms[terms].supply
  }

  ghost predicate Allocates(s: State, op: Op)
  {
    && op.SubmitAllocation? && op.cleared && op.reservation < |s.reservations| && op.terms < |s.terms|
    && var r, t := s.reservations[op.reservation], s.terms[op.terms];
    && r.status.Confirmed? && t.status.Approved? && r.offering == t.offering && r.version == t.version
    && t.price > 0 && (exists k :: k > 0 && Divides(t.price, r.amount, k) && SupplyLeft(s, op.terms, k))
    && forall q :: q in s.requests && q.reservation == op.reservation ==> q.status.Rejected?
  }

  predicate Divides(price: int, amount: int, tokens: int) { tokens * price == amount }

  lemma NotNegative(k: int, price: int)
    requires k >= 0 && price > 0
    ensures k * price >= 0
  {
  }

  lemma QuotientIsUnique(price: int, amount: int, tokens: int)
    requires price > 0
    ensures Divides(price, amount, tokens) <==> amount % price == 0 && amount / price == tokens
  {
    var q := amount / price;
    assert amount == q * price + amount % price;
    if Divides(price, amount, tokens) {
      if tokens > q {
        NotNegative(tokens - q - 1, price);
      } else if tokens < q {
        NotNegative(q - tokens - 1, price);
      }
    }
  }

  lemma AllocationAcceptedExactly(s: State, op: Op)
    requires op.SubmitAllocation?
    ensures DoSubmitAllocation(s, op.terms, op.reservation, op.cleared, op.actor).Ok? <==> Allocates(s, op)
  {
    if op.reservation < |s.reservations| && op.terms < |s.terms| && s.terms[op.terms].price > 0 {
      var r, t := s.reservations[op.reservation], s.terms[op.terms];
      var tokens := r.amount / t.price;
      QuotientIsUnique(t.price, r.amount, tokens);
      if Allocates(s, op) {
        var k :| k > 0 && Divides(t.price, r.amount, k) && SupplyLeft(s, op.terms, k);
        QuotientIsUnique(t.price, r.amount, k);
      } else if r.amount % t.price == 0 {
        assert Divides(t.price, r.amount, tokens);
        assert tokens > 0 && SupplyLeft(s, op.terms, tokens) ==> Divides(t.price, r.amount, tokens);
      }
    }
  }

  /**
   An allocation is stored exactly for a cleared, confirmed reservation of the terms' own offering and version whose
   amount is a whole number of tokens still left, and that has no live one; it is for exactly that many.
   */
  lemma AllocationsBegin(s: State, e: Event)
    ensures var qs, n := Next(s, e).requests, |s.requests|;
            if !Allocates(s, e.op) then |qs| == n
            else
              && |qs| == n + 1 && qs[n].terms == e.op.terms && qs[n].reservation == e.op.reservation
              && qs[n].invested == s.reservations[e.op.reservation].amount && qs[n].price == s.terms[e.op.terms].price
              && Divides(qs[n].price, qs[n].invested, qs[n].tokens) && qs[n].submitter == e.op.actor
              && qs[n].status.Submitted?
  {
    if e.op.SubmitAllocation? {
      AllocationAcceptedExactly(s, e.op);
      if Allocates(s, e.op) {
        var q := NewRequest(s, e.op.terms, e.op.reservation, e.op.actor);
        QuotientIsUnique(q.price, q.invested, q.tokens);
      }
    }
  }

  /** An allocation is decided exactly once, by someone other than who submitted it, and never changes otherwise. */
  lemma AllocationsTurn(s: State, e: Event, i: nat)
    requires i < |s.requests|
    ensures i < |Next(s, e).requests|
    ensures var q, p := s.requests[i], Next(s, e).requests[i];
            var decided := e.op.DecideAllocation? && e.op.id == i && q.status.Submitted? && e.op.actor != q.submitter;
            && p == q.(status := p.status) && !Turned(q.status, p.status, Submitted)
            && (Turned(q.status, p.status, Approved) <==> decided && e.op.approve)
            && (Turned(q.status, p.status, Rejected) <==> decided && !e.op.approve)
  {
  }

  /** A decision is forbidden exactly to whoever submitted what it decides. */
  lemma ForbiddenExactly(s: State, op: Op, at: int)
    ensures Perform(s, op, at) == Err(Forbidden) <==>
            || (op.DecideTerms? && op.id < |s.terms| && s.terms[op.id].status.Submitted?
                && s.terms[op.id].submitter == op.actor)
            || (op.DecideAllocation? && op.id < |s.requests| && s.requests[op.id].status.Submitted?
                && s.requests[op.id].submitter == op.actor)
  {
  }

  // ---------- chain operations ----------

  ghost predicate AllWanting(s: State, deployed: set<nat>, added: seq<Operation>)
  {
    && (forall i :: 0 <= i < |added| ==>
                      var a := added[i].allocation;
                      && a < |s.requests| && Wanting(s, deployed, a)
                      && added[i].tokens == s.requests[a].tokens && added[i].kind.Whitelist? && added[i].status.Ready?)
    && forall i, j :: 0 <= i < j < |added| ==> added[i].allocation < added[j].allocation
  }

  // Nobody who wants one is passed over.
  ghost predicate NobodyPassedOver(s: State, deployed: set<nat>, added: seq<Operation>, n: nat, limit: nat)
    requires n <= |s.requests|
  {
    forall a :: 0 <= a < n && Wanting(s, deployed, a) ==>
                  || (exists i :: 0 <= i < |added| && added[i].allocation == a)
                  || (|added| == limit && forall i :: 0 <= i < |added| ==> added[i].allocation < a)
  }

  lemma {:induction false} FirstComeFirstServed(s: State, deployed: set<nat>, n: nat, limit: nat)
    requires n <= |s.requests|
    ensures NobodyPassedOver(s, deployed, NewWhitelists(s, deployed, n, limit), n, limit)
  {
    if n > 0 {
      FirstComeFirstServed(s, deployed, n - 1, limit);
      NewWhitelistsAre(s, deployed, n - 1, limit);
      var before, added := NewWhitelists(s, deployed, n - 1, limit), NewWhitelists(s, deployed, n, limit);
      forall a | 0 <= a < n && Wanting(s, deployed, a)
        ensures || (exists i :: 0 <= i < |added| && added[i].allocation == a)
                || (|added| == limit && forall i :: 0 <= i < |added| ==> added[i].allocation < a)
      {
        if a < n - 1 && exists i :: 0 <= i < |before| && before[i].allocation == a {
          var i :| 0 <= i < |before| && before[i].allocation == a;
          assert added[i].allocation == a;
        } else if a == n - 1 && |before| < limit {
          assert added[|before|].allocation == a;
        }
      }
    }
  }

  predicate ReleasesMint(s: State, op: Op)
  {
    && op.ReleaseMint? && op.whitelist < |s.operations| && s.operations[op.whitelist].kind.Whitelist?
    && s.operations[op.whitelist].status.Done?
    && !HasOperation(s.operations, s.operations[op.whitelist].allocation, Mint)
  }

  /**
   Whitelist operations are added exactly for the first approved, deployed allocations without one, up to the limit; a
   mint exactly for an allocation whose whitelist operation is confirmed and that has none.
   */
  lemma OperationsBegin(s: State, e: Event)
    ensures var os, n := Next(s, e).operations, |s.operations|;
            && n <= |os|
            && var added := os[n..];
            if e.op.Materialize? then
              && |added| <= e.op.limit && AllWanting(s, e.op.deployed, added)
              && NobodyPassedOver(s, e.op.deployed, added, |s.requests|, e.op.limit)
            else if ReleasesMint(s, e.op) then
              var o := s.operations[e.op.whitelist];
              added == [Operation(o.allocation, o.tokens, Mint, Ready)]
            else added == []
  {
    if e.op.Materialize? {
      NewWhitelistsAre(s, e.op.deployed, |s.requests|, e.op.limit);
      FirstComeFirstServed(s, e.op.deployed, |s.requests|, e.op.limit);
      assert Next(s, e).operations[|s.operations|..] == NewWhitelists(s, e.op.deployed, |s.requests|, e.op.limit);
    }
  }

  /** An operation ends exactly once, as the executor reports. */
  lemma OperationsTurn(s: State, e: Event, i: nat)
    requires i < |s.operations|
    ensures i < |Next(s, e).operations|
    ensures var o, p := s.operations[i], Next(s, e).operations[i];
            var settled := e.op.SettleOperation? && e.op.id == i && o.status.Ready?;
            && p == o.(status := p.status) && !Turned(o.status, p.status, Ready)
            && (Turned(o.status, p.status, Done) <==> settled && e.op.ok)
            && (Turned(o.status, p.status, Broken) <==> settled && !e.op.ok)
  {
  }
}
