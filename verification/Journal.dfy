/**
 The double-entry journal (src/platform/postgres-journal.ts). A journal entry is stored as the
 request that made it: the request hash covers every field, and hashes are taken to be injective,
 so comparing hashes is comparing requests. Free text (narrative, external reference, metadata)
 is the opaque field `details`.
 */
module Journal {
  import opened Base
  import opened Sums

  const MAX_MINOR := 9_223_372_036_854_775_807

  type Currency = string

  datatype Direction = Debit | Credit

  // Ledger account codes; the distribution codes end in the currency.
  datatype Code =
    | DistributionExpense(currency: Currency)
    | DistributionsPayable(currency: Currency)
    | WithholdingTax(currency: Currency)
    | PayoutClearing(currency: Currency)
    | ManualSettlementClearing(currency: Currency)
    | PayableRelease(currency: Currency)
    | TaxRemittanceClearing(currency: Currency)
    | OtherCode(text: string)

  // Idempotency keys: a purpose and the id of the row it is about.
  datatype Key =
    | DeclarationKey(id: nat)
    | SettlementKey(id: nat)
    | ReversalKey(id: nat)
    | ExceptionKey(id: nat)
    | RemittanceKey(id: nat)
    | RemittanceReversalKey(id: nat)
    | OtherKey(text: string)

  datatype Posting = Posting(code: Code, direction: Direction, amount: int)

  datatype Request = Request(scope: int, org: int, key: Key, currency: Currency, effectiveAt: Option<int>,
                             reversalOf: Option<nat>, details: int, postings: seq<Posting>)

  datatype Ledger = Ledger(entries: seq<Request>, accounts: set<(int, Code)>)

  datatype Error =
    | TooFewPostings | BadAmount | Unbalanced | KeyConflict | UnknownAccount | UnknownJournal | AlreadyReversed

  datatype Posted = Posted(ledger: Ledger, journal: nat, replayed: bool)

  // ---------- validation ----------

  function DebitOf(): Posting -> int { (p: Posting) => if p.direction.Debit? then p.amount else 0 }
  function CreditOf(): Posting -> int { (p: Posting) => if p.direction.Credit? then p.amount else 0 }

  predicate AmountOk(p: Posting) { 0 < p.amount <= MAX_MINOR }

  predicate Valid(req: Request)
  {
    && |req.postings| >= 2
    && (forall p :: p in req.postings ==> AmountOk(p))
    && Sum(req.postings, DebitOf()) == Sum(req.postings, CreditOf())
  }

  // The first check that fails, in the order the code makes them.
  function FirstFault(req: Request): Option<Error>
  {
    if |req.postings| < 2 then Some(TooFewPostings)
    else if exists p :: p in req.postings && !AmountOk(p) then Some(BadAmount)
    else if Sum(req.postings, DebitOf()) != Sum(req.postings, CreditOf()) then Some(Unbalanced)
    else None
  }

  /** Accumulates debits and credits over the postings. */
  method ValidateJournal(req: Request) returns (fault: Option<Error>)
    ensures fault == FirstFault(req)
    ensures fault.None? <==> Valid(req)
  {
    var ps := req.postings;
    if |ps| < 2 {
      return Some(TooFewPostings);
    }
    var debits, credits := 0, 0;
    for i := 0 to |ps|
      invariant forall j :: 0 <= j < i ==> AmountOk(ps[j])
      invariant debits == Sum(ps[..i], DebitOf()) && credits == Sum(ps[..i], CreditOf())
    {
      if !AmountOk(ps[i]) {
        assert ps[i] in ps;
        return Some(BadAmount);
      }
      assert ps[..i + 1] == ps[..i] + [ps[i]];
      SumOfOneMore(ps[..i], ps[i], DebitOf());
      SumOfOneMore(ps[..i], ps[i], CreditOf());
      if ps[i].direction.Debit? {
        debits := debits + ps[i].amount;
      } else {
        credits := credits + ps[i].amount;
      }
    }
    assert ps[..|ps|] == ps;
    if debits != credits {
      return Some(Unbalanced);
    }
    return None;
  }

  // ---------- posting ----------

  predicate HasKey(entry: Request, scope: int, key: Key) { entry.scope == scope && entry.key == key }

  function Find(entries: seq<Request>, scope: int, key: Key): (i: Option<nat>)
    ensures i.Some? ==> i.value < |entries| && HasKey(entries[i.value], scope, key)
    ensures i.None? ==> forall e :: e in entries ==> !HasKey(e, scope, key)
  {
    if entries == [] then None
    else
      var n := |entries| - 1;
      if HasKey(entries[n], scope, key) then Some(n) else Find(entries[..n], scope, key)
  }

  predicate IsReversed(entries: seq<Request>, journal: nat)
  {
    exists e :: e in entries && e.reversalOf == Some(journal)
  }

  predicate Resolved(l: Ledger, req: Request)
  {
    forall p :: p in req.postings ==> (req.org, p.code) in l.accounts
  }

  // INSERT ... ON CONFLICT (scope_key, idempotency_key) DO NOTHING, the replay check, the foreign key and
  // unique index on reversal_of, then account resolution.
  function Post(l: Ledger, req: Request): Result<Posted, Error>
  {
    if FirstFault(req).Some? then Err(FirstFault(req).value)
    else
      var existing := Find(l.entries, req.scope, req.key);
      if existing.Some? then
        if l.entries[existing.value] == req then Ok(Posted(l, existing.value, true)) else Err(KeyConflict)
      else if req.reversalOf.Some? && req.reversalOf.value >= |l.entries| then Err(UnknownJournal)
      else if req.reversalOf.Some? && IsReversed(l.entries, req.reversalOf.value) then Err(AlreadyReversed)
      else if !Resolved(l, req) then Err(UnknownAccount)
      else Ok(Posted(l.(entries := l.entries + [req]), |l.entries|, false))
  }

  function EnsureAccount(l: Ledger, org: int, code: Code): Ledger
  {
    l.(accounts := l.accounts + {(org, code)})
  }

  function EnsureAccounts(l: Ledger, org: int, codes: set<Code>): Ledger
  {
    l.(accounts := l.accounts + set code | code in codes :: (org, code))
  }

  // ---------- reversal ----------

  datatype ReverseInput = ReverseInput(scope: int, org: int, key: Key, effectiveAt: Option<int>, details: int)

  function Flip(p: Posting): Posting
  {
    p.(direction := if p.direction.Debit? then Credit else Debit)
  }

  function FlipAll(ps: seq<Posting>): seq<Posting>
  {
    seq(|ps|, i requires 0 <= i < |ps| => Flip(ps[i]))
  }

  function ReverseRequest(l: Ledger, original: nat, input: ReverseInput): Request
    requires original < |l.entries|
  {
    Request(input.scope, input.org, input.key, l.entries[original].currency, input.effectiveAt, Some(original),
            input.details, FlipAll(l.entries[original].postings))
  }

  function Reverse(l: Ledger, original: nat, input: ReverseInput): Result<Posted, Error>
  {
    if original >= |l.entries| then Err(UnknownJournal)
    else if |l.entries[original].postings| < 2 then Err(TooFewPostings)
    else Post(l, ReverseRequest(l, original, input))
  }

  // The same lines the other way round.
  ghost predicate Mirrors(ps: seq<Posting>, qs: seq<Posting>)
  {
    && |ps| == |qs|
    && forall i :: 0 <= i < |ps| ==>
                     ps[i].code == qs[i].code && ps[i].amount == qs[i].amount && ps[i].direction != qs[i].direction
  }

  /** A reversal is posted as asked, in the original's currency, naming the original and mirroring its lines. */
  lemma ReversalMirrors(l: Ledger, original: nat, input: ReverseInput)
    requires original < |l.entries|
    ensures var req := ReverseRequest(l, original, input);
            && req.scope == input.scope && req.org == input.org && req.key == input.key
            && req.effectiveAt == input.effectiveAt && req.details == input.details
            && req.currency == l.entries[original].currency && req.reversalOf == Some(original)
            && Mirrors(req.postings, l.entries[original].postings)
  {
  }

  // ---------- what an account holds ----------

  // Credits count up, debits count down.
  function Signed(code: Code): Posting -> int
  {
    (p: Posting) => if p.code != code then 0 else if p.direction.Credit? then p.amount else -p.amount
  }

  function Effect(org: int, code: Code): Request -> int
  {
    (e: Request) => if e.org == org then Sum(e.postings, Signed(code)) else 0
  }

  function Balance(entries: seq<Request>, org: int, code: Code): int
  {
    Sum(entries, Effect(org, code))
  }

  function DebitsIn(currency: Currency): Request -> int
  {
    (e: Request) => if e.currency == currency then Sum(e.postings, DebitOf()) else 0
  }

  function CreditsIn(currency: Currency): Request -> int
  {
    (e: Request) => if e.currency == currency then Sum(e.postings, CreditOf()) else 0
  }

  // ---------- invariant ----------

  ghost predicate Sound(l: Ledger)
  {
    && (forall e :: e in l.entries ==> Valid(e))
    && (forall i, j :: 0 <= i < j < |l.entries| ==> !HasKey(l.entries[j], l.entries[i].scope, l.entries[i].key))
    && (forall i, j :: 0 <= i < j < |l.entries| && l.entries[i].reversalOf.Some? ==>
                         l.entries[j].reversalOf != l.entries[i].reversalOf)
    && (forall i :: 0 <= i < |l.entries| && l.entries[i].reversalOf.Some? ==> l.entries[i].reversalOf.value < i)
  }

  lemma FaultlessIsValid(req: Request)
    ensures FirstFault(req).None? <==> Valid(req)
  {
  }

  /** Posting keeps the ledger sound; a replay changes nothing and names the entry that the key first made. */
  lemma PostKeepsSound(l: Ledger, req: Request)
    requires Sound(l)
    ensures var r := Post(l, req);
            r.Ok? ==> && Sound(r.value.ledger)
                      && r.value.journal < |r.value.ledger.entries| && r.value.ledger.entries[r.value.journal] == req
                      && (r.value.replayed ==> r.value.ledger == l)
                      && (!r.value.replayed ==> r.value.ledger.entries == l.entries + [req])
  {
    FaultlessIsValid(req);
    var r := Post(l, req);
    if r.Ok? && !r.value.replayed {
      var entries := l.entries + [req];
      forall i | 0 <= i < |l.entries|
        ensures !HasKey(req, l.entries[i].scope, l.entries[i].key)
        ensures req.reversalOf.Some? ==> l.entries[i].reversalOf != req.reversalOf
      {
        assert l.entries[i] in l.entries;
      }
      assert r.value.ledger.entries == entries;
    }
  }

  // Another journal holds the key, or the one to reverse is missing or reversed already.
  ghost predicate Clashes(l: Ledger, req: Request)
  {
    || (exists e :: e in l.entries && HasKey(e, req.scope, req.key))
    || (req.reversalOf.Some? && (req.reversalOf.value >= |l.entries| || IsReversed(l.entries, req.reversalOf.value)))
  }

  /**
   A journal is posted afresh exactly when it is valid, clashes with nothing and all its accounts exist; it is replayed
   exactly when it is stored already, to the letter; and another journal under a used key is a conflict.
   */
  lemma PostsExactly(l: Ledger, req: Request)
    requires Sound(l)
    ensures var r := Post(l, req);
            && (r.Ok? && !r.value.replayed <==> Valid(req) && !Clashes(l, req) && Resolved(l, req))
            && (r.Ok? && r.value.replayed <==> req in l.entries)
            && (r == Err(KeyConflict) <==>
                Valid(req) && req !in l.entries && exists e :: e in l.entries && HasKey(e, req.scope, req.key))
  {
    FaultlessIsValid(req);
    var existing := Find(l.entries, req.scope, req.key);
    if req in l.entries {
      var i :| 0 <= i < |l.entries| && l.entries[i] == req;
      assert HasKey(l.entries[i], req.scope, req.key);
      assert existing.Some? && existing.value == i;
    }
    if existing.Some? {
      assert l.entries[existing.value] in l.entries;
    }
  }

  // ---------- runs ----------

  datatype Op = PostOp(req: Request) | EnsureOp(org: int, code: Code) | ReverseOp(original: nat, input: ReverseInput)

  function Step(l: Ledger, op: Op): Ledger
  {
    match op
    case PostOp(req) => if Post(l, req).Ok? then Post(l, req).value.ledger else l
    case EnsureOp(org, code) => EnsureAccount(l, org, code)
    case ReverseOp(original, input) =>
      if Reverse(l, original, input).Ok? then Reverse(l, original, input).value.ledger else l
  }

  function Run(ops: seq<Op>): Ledger
  {
    if ops == [] then Ledger([], {}) else Step(Run(ops[..|ops| - 1]), ops[|ops| - 1])
  }

  lemma {:induction false} EveryRunIsSound(ops: seq<Op>)
    ensures Sound(Run(ops))
  {
    if ops != [] {
      var l := Run(ops[..|ops| - 1]);
      EveryRunIsSound(ops[..|ops| - 1]);
      match ops[|ops| - 1]
      case PostOp(req) => PostKeepsSound(l, req);
      case EnsureOp(_, _) =>
      case ReverseOp(original, input) =>
        if original < |l.entries| {
          PostKeepsSound(l, ReverseRequest(l, original, input));
        }
    }
  }

  lemma {:induction false} SoundLedgerBalances(entries: seq<Request>, currency: Currency)
    requires forall e :: e in entries ==> Valid(e)
    ensures Sum(entries, DebitsIn(currency)) == Sum(entries, CreditsIn(currency))
  {
    forall i | 0 <= i < |entries| ensures DebitsIn(currency)(entries[i]) == CreditsIn(currency)(entries[i]) {
      assert entries[i] in entries;
    }
    SumsAgree(entries, entries, DebitsIn(currency), CreditsIn(currency));
  }

  /**
   Every reachable ledger: each journal balances, debits equal credits in every currency, and each
   (scope, key) made at most one entry.
   */
  lemma EveryRunBalances(ops: seq<Op>, currency: Currency)
    ensures var entries := Run(ops).entries;
            && (forall e :: e in entries ==> Sum(e.postings, DebitOf()) == Sum(e.postings, CreditOf()))
            && Sum(entries, DebitsIn(currency)) == Sum(entries, CreditsIn(currency))
            && forall i, j :: 0 <= i < |entries| && 0 <= j < |entries| && i != j ==>
                                !HasKey(entries[j], entries[i].scope, entries[i].key)
  {
    EveryRunIsSound(ops);
    var entries := Run(ops).entries;
    SoundLedgerBalances(entries, currency);
    forall i, j | 0 <= i < |entries| && 0 <= j < |entries| && HasKey(entries[j], entries[i].scope, entries[i].key)
      ensures i == j
    {
      assert HasKey(entries[i], entries[j].scope, entries[j].key);
    }
  }

  // ---------- reversals ----------

  lemma {:induction false} FlipSwaps(ps: seq<Posting>, code: Code)
    ensures Sum(FlipAll(ps), DebitOf()) == Sum(ps, CreditOf())
    ensures Sum(FlipAll(ps), CreditOf()) == Sum(ps, DebitOf())
    ensures Sum(FlipAll(ps), Signed(code)) == -Sum(ps, Signed(code))
  {
    if ps != [] {
      FlipSwaps(ps[..|ps| - 1], code);
      assert FlipAll(ps)[..|ps| - 1] == FlipAll(ps[..|ps| - 1]);
    }
  }

  /** A reversal request of a stored journal always passes validation, whatever its postings repeat. */
  lemma ReversalValidates(l: Ledger, original: nat, input: ReverseInput)
    requires Sound(l) && original < |l.entries|
    ensures Valid(ReverseRequest(l, original, input))
  {
    var e := l.entries[original];
    assert e in l.entries;
    FlipSwaps(e.postings, OtherCode(""));
    forall p | p in FlipAll(e.postings) ensures AmountOk(p) {
      var i :| 0 <= i < |e.postings| && p == Flip(e.postings[i]);
      assert e.postings[i] in e.postings;
    }
  }

  ghost predicate MovesNothing(e: Request)
  {
    forall code :: Sum(e.postings, Signed(code)) == 0
  }

  /**
   A fresh reversal cancels its original on every account of every organization exactly when it is
   posted for the original's organization, unless the original moved nothing to begin with.
   */
  lemma ReversalCancels(l: Ledger, original: nat, input: ReverseInput)
    requires Sound(l) && original < |l.entries|
    requires Reverse(l, original, input).Ok? && !Reverse(l, original, input).value.replayed
    ensures var l' := Reverse(l, original, input).value.ledger;
            (forall org, code ::
               Balance(l'.entries, org, code)
               == Balance(l.entries, org, code) - Effect(org, code)(l.entries[original]))
            <==> input.org == l.entries[original].org || MovesNothing(l.entries[original])
  {
    var e := l.entries[original];
    var reversal := ReverseRequest(l, original, input);
    var l' := Reverse(l, original, input).value.ledger;
    assert l'.entries == l.entries + [reversal];
    forall org, code
      ensures Balance(l'.entries, org, code)
           == Balance(l.entries, org, code) - (if org == input.org then Sum(e.postings, Signed(code)) else 0)
    {
      SumOfOneMore(l.entries, reversal, Effect(org, code));
      FlipSwaps(e.postings, code);
    }
    if input.org != e.org && !MovesNothing(e) {
      var code :| Sum(e.postings, Signed(code)) != 0;
      assert Balance(l'.entries, e.org, code) == Balance(l.entries, e.org, code);
    }
  }

  const ORIGINAL := Request(1, 1, OtherKey("a"), "NGN", None, None, 0,
                            [Posting(OtherCode("A"), Debit, 5), Posting(OtherCode("B"), Credit, 5)])
  const ELSEWHERE := ReverseInput(2, 2, OtherKey("r"), None, 0)
  const TWO_ORGANIZATIONS: seq<Op> := [
    EnsureOp(1, OtherCode("A")), EnsureOp(1, OtherCode("B")), EnsureOp(2, OtherCode("A")), EnsureOp(2, OtherCode("B")),
    PostOp(ORIGINAL)
  ]

  lemma {:induction false} EnsuringOnly(ops: seq<Op>)
    requires forall op :: op in ops ==> op.EnsureOp?
    ensures Run(ops).entries == [] && forall op :: op in ops ==> (op.org, op.code) in Run(ops).accounts
  {
    if ops != [] {
      assert ops[|ops| - 1] in ops;
      EnsuringOnly(ops[..|ops| - 1]);
    }
  }

  ghost predicate HoldsOriginal(l: Ledger)
  {
    l.entries == [ORIGINAL]
    && forall org :: org == 1 || org == 2 ==> (org, OtherCode("A")) in l.accounts && (org, OtherCode("B")) in l.accounts
  }

  lemma TwoOrganizationsLedger()
    ensures HoldsOriginal(Run(TWO_ORGANIZATIONS))
  {
    var ensured := TWO_ORGANIZATIONS[..4];
    EnsuringOnly(ensured);
    assert TWO_ORGANIZATIONS[0] in ensured && TWO_ORGANIZATIONS[1] in ensured && TWO_ORGANIZATIONS[2] in ensured;
    assert TWO_ORGANIZATIONS[3] in ensured;
    SumOfTwo(ORIGINAL.postings[0], ORIGINAL.postings[1], DebitOf());
    SumOfTwo(ORIGINAL.postings[0], ORIGINAL.postings[1], CreditOf());
    FaultlessIsValid(ORIGINAL);
  }

  lemma OriginalBalance()
    ensures Balance([ORIGINAL], 1, OtherCode("B")) == 5
  {
    SumOfOneMore([], ORIGINAL, Effect(1, OtherCode("B")));
    assert [] + [ORIGINAL] == [ORIGINAL];
    SumOfTwo(ORIGINAL.postings[0], ORIGINAL.postings[1], Signed(OtherCode("B")));
  }

  lemma ReversalElsewhereIsPosted(l: Ledger)
    requires Sound(l) && HoldsOriginal(l)
    ensures var posted := Reverse(l, 0, ELSEWHERE);
            && posted.Ok? && !posted.value.replayed
            && posted.value.ledger.entries == l.entries + [ReverseRequest(l, 0, ELSEWHERE)]
  {
    ReversalValidates(l, 0, ELSEWHERE);
    FaultlessIsValid(ReverseRequest(l, 0, ELSEWHERE));
  }

  /** A reachable ledger and an accepted reversal, for another organization, that leaves the original standing. */
  lemma ReversalElsewhereDoesNotCancel()
    ensures var l := Run(TWO_ORGANIZATIONS);
            var posted := Reverse(l, 0, ELSEWHERE);
            && posted.Ok? && !posted.value.replayed
            && Balance(posted.value.ledger.entries, 1, OtherCode("B")) == Balance(l.entries, 1, OtherCode("B")) == 5
  {
    var l := Run(TWO_ORGANIZATIONS);
    TwoOrganizationsLedger();
    EveryRunIsSound(TWO_ORGANIZATIONS);
    ReversalElsewhereIsPosted(l);
    OriginalBalance();
    SumOfOneMore(l.entries, ReverseRequest(l, 0, ELSEWHERE), Effect(1, OtherCode("B")));
  }

  /** A posting that a replay repeats, or that fails, leaves every balance as it was. */
  lemma OnlyFreshPostsMoveBalances(l: Ledger, req: Request, org: int, code: Code)
    requires Sound(l)
    ensures var l' := Step(l, PostOp(req));
            Balance(l'.entries, org, code) ==
            Balance(l.entries, org, code) + if Post(l, req).Ok? && !Post(l, req).value.replayed
            then Effect(org, code)(req) else 0
  {
    SumOfOneMore(l.entries, req, Effect(org, code));
  }

  // ---------- the tables, updated in place ----------

  class JournalTables {
    var entries: seq<Request>
    var accounts: set<(int, Code)>

    constructor ()
      ensures Contents() == Ledger([], {})
    {
      entries, accounts := [], {};
    }

    ghost function Contents(): Ledger
      reads this
    {
      Ledger(entries, accounts)
    }

    method Ensure(org: int, code: Code)
      modifies this
      ensures Contents() == EnsureAccount(old(Contents()), org, code)
    {
      accounts := accounts + {(org, code)};
    }

    method PostInTransaction(req: Request) returns (r: Result<(nat, bool), Error>)
      modifies this
      ensures var spec := Post(old(Contents()), req);
              && (spec.Ok? ==> r == Ok((spec.value.journal, spec.value.replayed)) && Contents() == spec.value.ledger)
              && (spec.Err? ==> r == Err(spec.error) && Contents() == old(Contents()))
    {
      var fault := ValidateJournal(req);
      if fault.Some? {
        return Err(fault.value);
      }
      var existing := Find(entries, req.scope, req.key);
      if existing.Some? {
        if entries[existing.value] != req {
          return Err(KeyConflict);
        }
        return Ok((existing.value, true));
      }
      if req.reversalOf.Some? {
        if req.reversalOf.value >= |entries| {
          return Err(UnknownJournal);
        }
        if IsReversed(entries, req.reversalOf.value) {
          return Err(AlreadyReversed);
        }
      }
      for i := 0 to |req.postings|
        invariant Contents() == old(Contents())
        invariant forall j :: 0 <= j < i ==> (req.org, req.postings[j].code) in accounts
      {
        if (req.org, req.postings[i].code) !in accounts {
          assert req.postings[i] in req.postings;
          return Err(UnknownAccount);
        }
      }
      entries := entries + [req];
      return Ok((|entries| - 1, false));
    }

    method ReverseJournal(original: nat, input: ReverseInput) returns (r: Result<(nat, bool), Error>)
      modifies this
      ensures var spec := Reverse(old(Contents()), original, input);
              && (spec.Ok? ==> r == Ok((spec.value.journal, spec.value.replayed)) && Contents() == spec.value.ledger)
              && (spec.Err? ==> r == Err(spec.error) && Contents() == old(Contents()))
    {
      if original >= |entries| {
        return Err(UnknownJournal);
      }
      var e := entries[original];
      if |e.postings| < 2 {
        return Err(TooFewPostings);
      }
      r := PostInTransaction(Request(input.scope, input.org, input.key, e.currency, input.effectiveAt, Some(original),
                                     input.details, FlipAll(e.postings)));
    }
  }
}
