/**
 The per-scope audit hash chain (src/platform/postgres-audit.ts) and its independent verifier
 (src/platform/postgres-audit-verification.ts). The digest is any function of the hashed content;
 only tamper evidence needs it to be injective. Transactions of several workers interleave: an append
 takes the lock on its scope's head until its transaction commits or rolls back, and sequence
 numbers that a rolled-back transaction drew are never reused.
 */
module AuditChain {
  import opened Base

  // 64 hexadecimal digits, read as a number; the genesis hash is 64 zeros.
  type Hash = nat
  type Scope = string

  const GENESIS: Hash := 0

  // `body` stands for the remaining hashed fields: id, organization, actor, action, entity, reason, payload, time.
  datatype Content = Content(scope: Scope, body: int, parent: Hash)

  datatype Row = Row(scope: Scope, body: int, parent: Hash, hash: Hash)

  datatype Head = Head(sequence: nat, hash: Hash)

  // What an open transaction has written: its rows, by sequence, and the heads it holds locked.
  datatype Tx = Tx(rows: map<nat, Row>, heads: map<Scope, Head>)

  datatype Db = Db(next: nat, rows: map<nat, Row>, heads: map<Scope, Head>, open: map<int, Tx>)

  const EMPTY := Db(1, map[], map[], map[])

  datatype Op = Append(worker: int, scope: Scope, body: int) | Commit(worker: int) | Abort(worker: int)

  type Digest = Content -> Hash

  // ---------- the writer ----------

  predicate Locked(db: Db, worker: int, scope: Scope)
  {
    exists w :: w in db.open && w != worker && scope in db.open[w].heads
  }

  function OpenTx(db: Db, worker: int): Tx { if worker in db.open then db.open[worker] else Tx(map[], map[]) }

  // The head a transaction reads: its own, else the committed one, else the one it inserts.
  function HeadSeen(db: Db, worker: int, scope: Scope): Head
  {
    var tx := OpenTx(db, worker);
    if scope in tx.heads then tx.heads[scope] else if scope in db.heads then db.heads[scope] else Head(0, GENESIS)
  }

  function NewRow(digest: Digest, scope: Scope, body: int, parent: Hash): Row
  {
    Row(scope, body, parent, digest(Content(scope, body, parent)))
  }

  // Waiting for a lock is not a step.
  function DoAppend(digest: Digest, db: Db, worker: int, scope: Scope, body: int): Db
  {
    if Locked(db, worker, scope) then db
    else
      var tx := OpenTx(db, worker);
      var row := NewRow(digest, scope, body, HeadSeen(db, worker, scope).hash);
      db.(next := db.next + 1,
      open := db.open[worker := Tx(tx.rows[db.next := row], tx.heads[scope := Head(db.next, row.hash)])])
  }

  function DoCommit(db: Db, worker: int): Db
  {
    var tx := OpenTx(db, worker);
    db.(rows := db.rows + tx.rows, heads := db.heads + tx.heads, open := db.open - {worker})
  }

  function DoAbort(db: Db, worker: int): Db { db.(open := db.open - {worker}) }

  function Step(digest: Digest, db: Db, op: Op): Db
  {
    match op
    case Append(worker, scope, body) => DoAppend(digest, db, worker, scope, body)
    case Commit(worker) => DoCommit(db, worker)
    case Abort(worker) => DoAbort(db, worker)
  }

  function After(digest: Digest, db: Db, ops: seq<Op>): Db
  {
    if ops == [] then db else Step(digest, After(digest, db, ops[..|ops| - 1]), ops[|ops| - 1])
  }

  // ---------- the verifier ----------

  // SELECT ... WHERE scope_key = $1 ORDER BY sequence
  function Select(rows: map<nat, Row>, scope: Scope, n: nat): seq<(nat, Row)>
  {
    if n == 0 then []
    else Select(rows, scope, n - 1) + if n - 1 in rows && rows[n - 1].scope == scope then [(n - 1, rows[n - 1])] else []
  }

  // Where a chain of rows ends, if every row links to the one before it and carries its own digest.
  function ChainEnd(digest: Digest, scope: Scope, rows: seq<(nat, Row)>): Option<Hash>
  {
    if rows == [] then Some(GENESIS)
    else
      var row := rows[|rows| - 1].1;
      var before := ChainEnd(digest, scope, rows[..|rows| - 1]);
      if before == Some(row.parent) && row.hash == digest(Content(scope, row.body, row.parent))
      then Some(row.hash) else None
  }

  // What the head must be for a list of rows.
  function HeadOf(rows: seq<(nat, Row)>): Option<Head>
  {
    if rows == [] then None else Some(Head(rows[|rows| - 1].0, rows[|rows| - 1].1.hash))
  }

  ghost predicate Accepts(digest: Digest, scope: Scope, rows: seq<(nat, Row)>, head: Option<Head>)
  {
    ChainEnd(digest, scope, rows).Some? && head == HeadOf(rows)
  }

  datatype Fault = ScopeRequired | ParentMismatch(at: nat) | HashMismatch(at: nat) | HeadWithoutEvents | HeadMismatch

  datatype Verification = Verification(scope: Scope, events: nat, head: Option<Head>)

  lemma {:induction false} BrokenStaysBroken(digest: Digest, scope: Scope, rows: seq<(nat, Row)>, n: nat)
    requires n <= |rows| && ChainEnd(digest, scope, rows[..n]).None?
    ensures ChainEnd(digest, scope, rows).None?
  {
    if n == |rows| {
      assert rows[..n] == rows;
    } else {
      assert rows[..|rows| - 1][..n] == rows[..n];
      BrokenStaysBroken(digest, scope, rows[..|rows| - 1], n);
    }
  }

  /** The verifier's loop over the stored rows of a (trimmed) scope, then the comparison with the stored head. */
  method VerifyRows(digest: Digest, scope: Scope, rows: seq<(nat, Row)>, head: Option<Head>)
    returns (r: Result<Verification, Fault>)
    ensures r.Ok? <==> Accepts(digest, scope, rows, head)
    ensures r.Ok? ==> r.value == Verification(scope, |rows|, HeadOf(rows))
  {
    var parent := GENESIS;
    var sequence := 0;
    for i := 0 to |rows|
      invariant ChainEnd(digest, scope, rows[..i]) == Some(parent)
      invariant i > 0 ==> HeadOf(rows[..i]) == Some(Head(sequence, parent))
    {
      var (at, row) := rows[i];
      assert rows[..i + 1][..i] == rows[..i];
      if row.parent != parent {
        BrokenStaysBroken(digest, scope, rows, i + 1);
        return Err(ParentMismatch(at));
      }
      if row.hash != digest(Content(scope, row.body, parent)) {
        BrokenStaysBroken(digest, scope, rows, i + 1);
        return Err(HashMismatch(at));
      }
      parent, sequence := row.hash, at;
    }
    assert rows[..|rows|] == rows;
    if |rows| == 0 {
      if head.Some? {
        return Err(HeadWithoutEvents);
      }
      return Ok(Verification(scope, 0, None));
    }
    if head != Some(Head(sequence, parent)) {
      return Err(HeadMismatch);
    }
    return Ok(Verification(scope, |rows|, Some(Head(sequence, parent))));
  }

  // ---------- the writer refines the verifier ----------

  function StoredHead(heads: map<Scope, Head>, scope: Scope): Option<Head>
  {
    if scope in heads then Some(heads[scope]) else None
  }

  // The rows below `n` of a table form a chain that ends at the given head.
  ghost predicate ViewOk(digest: Digest, rows: map<nat, Row>, scope: Scope, n: nat, head: Option<Head>)
  {
    Accepts(digest, scope, Select(rows, scope, n), head)
  }

  // What a transaction adds to a scope comes after what is committed.
  ghost predicate Extends(rows: map<nat, Row>, more: map<nat, Row>, scope: Scope, n: nat)
  {
    Select(rows, scope, n) <= Select(rows + more, scope, n)
  }

  ghost predicate TxOk(digest: Digest, db: Db, tx: Tx)
  {
    && (forall scope :: scope in tx.heads ==> Extends(db.rows, tx.rows, scope, db.next))
    && (forall i :: i in tx.rows ==> i < db.next && i !in db.rows && tx.rows[i].scope in tx.heads)
    && forall scope :: scope in tx.heads ==> ViewOk(digest, db.rows + tx.rows, scope, db.next, Some(tx.heads[scope]))
  }

  ghost predicate CommittedOk(digest: Digest, db: Db)
  {
    && (forall i :: i in db.rows ==> i < db.next)
    && (forall scope :: ViewOk(digest, db.rows, scope, db.next, StoredHead(db.heads, scope)))
  }

  // Open transactions hold different locks and have drawn different numbers.
  ghost predicate Apart(open: map<int, Tx>)
  {
    && (forall v, w :: v in open && w in open && v != w ==> open[v].heads.Keys !! open[w].heads.Keys)
    && (forall v, w :: v in open && w in open && v != w ==> open[v].rows.Keys !! open[w].rows.Keys)
  }

  ghost predicate Inv(digest: Digest, db: Db)
  {
    && CommittedOk(digest, db)
    && (forall w :: w in db.open ==> TxOk(digest, db, db.open[w]))
    && Apart(db.open)
  }

  // A scope's rows depend only on the rows of that scope below the bound.
  lemma {:induction false} SelectAgrees(a: map<nat, Row>, b: map<nat, Row>, scope: Scope, n: nat)
    requires forall i :: 0 <= i < n ==> (i in a && a[i].scope == scope <==> i in b && b[i].scope == scope)
    requires forall i :: 0 <= i < n && i in a && i in b && a[i].scope == scope ==> a[i] == b[i]
    ensures Select(a, scope, n) == Select(b, scope, n)
  {
    if n > 0 {
      SelectAgrees(a, b, scope, n - 1);
    }
  }

  // Rows of other scopes, at fresh sequence numbers, do not show.
  lemma OtherScopesDoNotShow(rows: map<nat, Row>, more: map<nat, Row>, scope: Scope, n: nat)
    requires forall i :: i in more ==> i !in rows && more[i].scope != scope
    ensures Select(rows + more, scope, n) == Select(rows, scope, n)
  {
    SelectAgrees(rows + more, rows, scope, n);
  }

  lemma AppendedRowShows(rows: map<nat, Row>, scope: Scope, n: nat, row: Row)
    requires n !in rows && row.scope == scope
    ensures Select(rows[n := row], scope, n + 1) == Select(rows, scope, n) + [(n, row)]
  {
    SelectAgrees(rows[n := row], rows, scope, n);
  }

  lemma ChainExtends(digest: Digest, scope: Scope, chain: seq<(nat, Row)>, n: nat, row: Row)
    requires ChainEnd(digest, scope, chain) == Some(row.parent)
    requires row.hash == digest(Content(scope, row.body, row.parent))
    ensures Accepts(digest, scope, chain + [(n, row)], Some(Head(n, row.hash)))
  {
    assert (chain + [(n, row)])[..|chain|] == chain;
  }

  function EndHash(head: Option<Head>): Hash { if head.Some? then head.value.hash else GENESIS }

  lemma ChainEndsAtHead(digest: Digest, scope: Scope, rows: seq<(nat, Row)>)
    requires ChainEnd(digest, scope, rows).Some?
    ensures ChainEnd(digest, scope, rows) == Some(EndHash(HeadOf(rows)))
  {
  }

  lemma AppendedRowExtends(digest: Digest, rows: map<nat, Row>, scope: Scope, n: nat, body: int, head: Option<Head>)
    requires n !in rows && ViewOk(digest, rows, scope, n, head)
    ensures var row := NewRow(digest, scope, body, EndHash(head));
            ViewOk(digest, rows[n := row], scope, n + 1, Some(Head(n, row.hash)))
  {
    var row := NewRow(digest, scope, body, EndHash(head));
    ChainEndsAtHead(digest, scope, Select(rows, scope, n));
    ChainExtends(digest, scope, Select(rows, scope, n), n, row);
    AppendedRowShows(rows, scope, n, row);
  }

  // A sequence number no row uses adds nothing.
  lemma EmptySlot(digest: Digest, rows: map<nat, Row>, scope: Scope, n: nat, head: Option<Head>)
    requires (n in rows ==> rows[n].scope != scope) && ViewOk(digest, rows, scope, n, head)
    ensures ViewOk(digest, rows, scope, n + 1, head)
  {
    assert Select(rows, scope, n + 1) == Select(rows, scope, n);
  }

  function TxHead(db: Db, tx: Tx, scope: Scope): Option<Head>
  {
    if scope in tx.heads then Some(tx.heads[scope]) else StoredHead(db.heads, scope)
  }

  // What a transaction sees of a scope is a chain, whether or not it has written to it.
  lemma SeenIsChain(digest: Digest, db: Db, tx: Tx, scope: Scope)
    requires CommittedOk(digest, db) && TxOk(digest, db, tx)
    ensures ViewOk(digest, db.rows + tx.rows, scope, db.next, TxHead(db, tx, scope))
    ensures Extends(db.rows, tx.rows, scope, db.next)
  {
    if scope !in tx.heads {
      OtherScopesDoNotShow(db.rows, tx.rows, scope, db.next);
      assert ViewOk(digest, db.rows, scope, db.next, StoredHead(db.heads, scope));
    }
  }

  lemma UpdateAfterUnion(rows: map<nat, Row>, more: map<nat, Row>, n: nat, row: Row)
    ensures rows + more[n := row] == (rows + more)[n := row]
  {
  }

  lemma UnusedNumberShowsNothing(rows: map<nat, Row>, scope: Scope, n: nat)
    requires n !in rows
    ensures Select(rows, scope, n + 1) == Select(rows, scope, n)
  {
  }

  lemma OwnScopeGrows(digest: Digest, db: Db, tx: Tx, scope: Scope, body: int)
    requires CommittedOk(digest, db) && TxOk(digest, db, tx)
    ensures var row := NewRow(digest, scope, body, EndHash(TxHead(db, tx, scope)));
            && ViewOk(digest, db.rows + tx.rows[db.next := row], scope, db.next + 1, Some(Head(db.next, row.hash)))
            && Extends(db.rows, tx.rows[db.next := row], scope, db.next + 1)
  {
    var row := NewRow(digest, scope, body, EndHash(TxHead(db, tx, scope)));
    var view := db.rows + tx.rows;
    UpdateAfterUnion(db.rows, tx.rows, db.next, row);
    SeenIsChain(digest, db, tx, scope);
    AppendedRowExtends(digest, view, scope, db.next, body, TxHead(db, tx, scope));
    AppendedRowShows(view, scope, db.next, row);
    UnusedNumberShowsNothing(db.rows, scope, db.next);
  }

  lemma RowOfOtherScopeIsSkipped(rows: map<nat, Row>, s: Scope, n: nat, row: Row)
    requires n !in rows && row.scope != s
    ensures Select(rows[n := row], s, n + 1) == Select(rows, s, n) == Select(rows, s, n + 1)
  {
    SelectAgrees(rows[n := row], rows, s, n);
  }

  lemma OtherScopeStays(digest: Digest, db: Db, tx: Tx, row: Row, s: Scope)
    requires CommittedOk(digest, db) && TxOk(digest, db, tx) && s in tx.heads && row.scope != s
    ensures ViewOk(digest, db.rows + tx.rows[db.next := row], s, db.next + 1, Some(tx.heads[s]))
    ensures Extends(db.rows, tx.rows[db.next := row], s, db.next + 1)
  {
    var view := db.rows + tx.rows;
    UpdateAfterUnion(db.rows, tx.rows, db.next, row);
    RowOfOtherScopeIsSkipped(view, s, db.next, row);
    RowOfOtherScopeIsSkipped(db.rows, s, db.next, row);
    assert ViewOk(digest, view, s, db.next, Some(tx.heads[s])) && Extends(db.rows, tx.rows, s, db.next);
  }

  lemma AppendKeepsOwnTx(digest: Digest, db: Db, tx: Tx, scope: Scope, body: int)
    requires CommittedOk(digest, db) && TxOk(digest, db, tx)
    ensures var row := NewRow(digest, scope, body, EndHash(TxHead(db, tx, scope)));
            TxOk(digest, db.(next := db.next + 1),
                 Tx(tx.rows[db.next := row], tx.heads[scope := Head(db.next, row.hash)]))
  {
    var row := NewRow(digest, scope, body, EndHash(TxHead(db, tx, scope)));
    var heads := tx.heads[scope := Head(db.next, row.hash)];
    forall s | s in heads
      ensures ViewOk(digest, db.rows + tx.rows[db.next := row], s, db.next + 1, Some(heads[s]))
      ensures Extends(db.rows, tx.rows[db.next := row], s, db.next + 1)
    {
      if s == scope {
        OwnScopeGrows(digest, db, tx, scope, body);
      } else {
        OtherScopeStays(digest, db, tx, row, s);
      }
    }
  }

  lemma AppendKeepsOther(digest: Digest, db: Db, tx: Tx)
    requires (forall i :: i in db.rows ==> i < db.next) && TxOk(digest, db, tx)
    ensures TxOk(digest, db.(next := db.next + 1), tx)
  {
    forall s | s in tx.heads
      ensures ViewOk(digest, db.rows + tx.rows, s, db.next + 1, Some(tx.heads[s]))
      ensures Extends(db.rows, tx.rows, s, db.next + 1)
    {
      EmptySlot(digest, db.rows + tx.rows, s, db.next, Some(tx.heads[s]));
      assert Select(db.rows, s, db.next + 1) == Select(db.rows, s, db.next);
      assert Select(db.rows + tx.rows, s, db.next + 1) == Select(db.rows + tx.rows, s, db.next);
    }
  }

  lemma DrawnNumberChangesNothing(digest: Digest, db: Db)
    requires CommittedOk(digest, db)
    ensures CommittedOk(digest, db.(next := db.next + 1))
  {
    forall s ensures ViewOk(digest, db.rows, s, db.next + 1, StoredHead(db.heads, s)) {
      assert ViewOk(digest, db.rows, s, db.next, StoredHead(db.heads, s));
      EmptySlot(digest, db.rows, s, db.next, StoredHead(db.heads, s));
    }
  }

  lemma TxDependsOnRowsOnly(digest: Digest, a: Db, b: Db, tx: Tx)
    requires TxOk(digest, a, tx) && a.next == b.next && a.rows == b.rows
    ensures TxOk(digest, b, tx)
  {
  }

  lemma AppendKeeps(digest: Digest, db: Db, worker: int, scope: Scope, body: int)
    requires Inv(digest, db)
    ensures Inv(digest, DoAppend(digest, db, worker, scope, body))
  {
    var next := DoAppend(digest, db, worker, scope, body);
    if !Locked(db, worker, scope) {
      DrawnNumberChangesNothing(digest, db);
      var drawn := db.(next := db.next + 1);
      forall w | w in next.open ensures TxOk(digest, next, next.open[w]) {
        if w == worker {
          assert TxOk(digest, db, OpenTx(db, worker));
          assert HeadSeen(db, worker, scope).hash == EndHash(TxHead(db, OpenTx(db, worker), scope));
          AppendKeepsOwnTx(digest, db, OpenTx(db, worker), scope, body);
        } else {
          AppendKeepsOther(digest, db, db.open[w]);
        }
        TxDependsOnRowsOnly(digest, drawn, next, next.open[w]);
      }
      AppendKeepsApart(digest, db, worker, scope, body);
      assert CommittedOk(digest, next);
    }
  }

  lemma AppendKeepsApart(digest: Digest, db: Db, worker: int, scope: Scope, body: int)
    requires Apart(db.open) && !Locked(db, worker, scope)
    requires forall w, i :: w in db.open && i in db.open[w].rows ==> i < db.next
    ensures Apart(DoAppend(digest, db, worker, scope, body).open)
  {
  }

  lemma OtherCommitsDoNotShow(rows: map<nat, Row>, mine: map<nat, Row>, theirs: map<nat, Row>, scope: Scope, n: nat)
    requires forall i :: i in theirs ==> i !in rows && i !in mine && theirs[i].scope != scope
    ensures Select((rows + theirs) + mine, scope, n) == Select(rows + mine, scope, n)
  {
    SelectAgrees((rows + theirs) + mine, rows + mine, scope, n);
  }

  lemma CommitKeepsOther(digest: Digest, db: Db, worker: int, w: int)
    requires Inv(digest, db) && worker in db.open && w in db.open && w != worker
    ensures TxOk(digest, DoCommit(db, worker), db.open[w])
  {
    var tx, other := db.open[worker], db.open[w];
    assert TxOk(digest, db, tx) && TxOk(digest, db, other);
    assert tx.heads.Keys !! other.heads.Keys && tx.rows.Keys !! other.rows.Keys;
    forall s | s in other.heads
      ensures ViewOk(digest, (db.rows + tx.rows) + other.rows, s, db.next, Some(other.heads[s]))
      ensures Extends(db.rows + tx.rows, other.rows, s, db.next)
    {
      assert s !in tx.heads;
      OtherScopesDoNotShow(db.rows, tx.rows, s, db.next);
      assert Extends(db.rows, other.rows, s, db.next);
      OtherCommitsDoNotShow(db.rows, other.rows, tx.rows, s, db.next);
      assert ViewOk(digest, db.rows + other.rows, s, db.next, Some(other.heads[s]));
    }
  }

  lemma CommitKeeps(digest: Digest, db: Db, worker: int)
    requires Inv(digest, db)
    ensures Inv(digest, DoCommit(db, worker))
  {
    var next := DoCommit(db, worker);
    if worker in db.open {
      var tx := db.open[worker];
      assert TxOk(digest, db, tx);
      forall s ensures ViewOk(digest, next.rows, s, next.next, StoredHead(next.heads, s)) {
        assert ViewOk(digest, db.rows, s, db.next, StoredHead(db.heads, s));
        if s !in tx.heads {
          OtherScopesDoNotShow(db.rows, tx.rows, s, db.next);
        }
      }
      forall w | w in next.open ensures TxOk(digest, next, next.open[w]) {
        CommitKeepsOther(digest, db, worker, w);
      }
    } else {
      assert next == db;
    }
  }

  lemma EmptyIsOk(digest: Digest)
    ensures Inv(digest, EMPTY)
  {
    forall scope ensures ViewOk(digest, EMPTY.rows, scope, EMPTY.next, StoredHead(EMPTY.heads, scope)) {
      assert Select(map[], scope, 1) == Select(map[], scope, 0) == [];
    }
  }

  lemma {:induction false} EveryRunKeeps(digest: Digest, ops: seq<Op>)
    ensures Inv(digest, After(digest, EMPTY, ops))
  {
    if ops == [] {
      EmptyIsOk(digest);
    } else {
      var before := After(digest, EMPTY, ops[..|ops| - 1]);
      EveryRunKeeps(digest, ops[..|ops| - 1]);
      match ops[|ops| - 1]
      case Append(worker, scope, body) => AppendKeeps(digest, before, worker, scope, body);
      case Commit(worker) => CommitKeeps(digest, before, worker);
      case Abort(worker) =>
    }
  }

  /** After any interleaving of appends, commits and rollbacks, on any scopes, every scope verifies. */
  lemma EveryScopeVerifies(digest: Digest, ops: seq<Op>, scope: Scope)
    ensures var db := After(digest, EMPTY, ops);
            Accepts(digest, scope, Select(db.rows, scope, db.next), StoredHead(db.heads, scope))
  {
    EveryRunKeeps(digest, ops);
    var db := After(digest, EMPTY, ops);
    assert ViewOk(digest, db.rows, scope, db.next, StoredHead(db.heads, scope));
  }

  // ---------- reading rows and head separately ----------

  lemma {:induction false} SelectAscends(rows: map<nat, Row>, scope: Scope, n: nat)
    ensures forall i :: 0 <= i < |Select(rows, scope, n)| ==> Select(rows, scope, n)[i].0 < n
    ensures forall i, j ::
              0 <= i < j < |Select(rows, scope, n)| ==> Select(rows, scope, n)[i].0 < Select(rows, scope, n)[j].0
  {
    if n > 0 {
      SelectAscends(rows, scope, n - 1);
    }
  }

  lemma StepOnlyAdds(digest: Digest, db: Db, op: Op, scope: Scope)
    requires Inv(digest, db)
    ensures Select(db.rows, scope, db.next) <= Select(Step(digest, db, op).rows, scope, Step(digest, db, op).next)
  {
    if op.Append? {
      assert Select(db.rows, scope, db.next + 1) == Select(db.rows, scope, db.next);
    } else if op.Commit? {
      var tx := OpenTx(db, op.worker);
      assert TxOk(digest, db, tx);
      if scope !in tx.heads {
        OtherScopesDoNotShow(db.rows, tx.rows, scope, db.next);
      } else {
        assert Extends(db.rows, tx.rows, scope, db.next);
      }
    }
  }

  lemma {:induction false} RunsOnlyAdd(digest: Digest, db: Db, more: seq<Op>, scope: Scope)
    requires Inv(digest, db)
    ensures var later := After(digest, db, more);
            Inv(digest, later) && Select(db.rows, scope, db.next) <= Select(later.rows, scope, later.next)
  {
    if more != [] {
      var n := |more| - 1;
      RunsOnlyAdd(digest, db, more[..n], scope);
      var before := After(digest, db, more[..n]);
      StepOnlyAdds(digest, before, more[n], scope);
      match more[n]
      case Append(worker, s, body) => AppendKeeps(digest, before, worker, s, body);
      case Commit(worker) => CommitKeeps(digest, before, worker);
      case Abort(worker) =>
    }
  }

  /**
   The verifier reads the rows first and the head later, in two statements. Between them it accepts an untampered
   scope exactly when no transaction committed an event to that scope.
   */
  lemma TwoReadsAgreeExactly(digest: Digest, ops: seq<Op>, more: seq<Op>, scope: Scope)
    ensures var first := After(digest, EMPTY, ops);
            var second := After(digest, first, more);
            Accepts(digest, scope, Select(first.rows, scope, first.next), StoredHead(second.heads, scope))
            <==> Select(second.rows, scope, second.next) == Select(first.rows, scope, first.next)
  {
    EveryRunKeeps(digest, ops);
    var first := After(digest, EMPTY, ops);
    RunsOnlyAdd(digest, first, more, scope);
    var second := After(digest, first, more);
    assert ViewOk(digest, first.rows, scope, first.next, StoredHead(first.heads, scope));
    assert ViewOk(digest, second.rows, scope, second.next, StoredHead(second.heads, scope));
    SelectAscends(second.rows, scope, second.next);
  }

  /** An event that commits between the two reads of an empty scope makes the verifier reject it. */
  lemma CommitBetweenReadsIsRejected(digest: Digest)
    ensures exists ops, more ::
              var first := After(digest, EMPTY, ops);
              var second := After(digest, first, more);
              !Accepts(digest, "x", Select(first.rows, "x", first.next), StoredHead(second.heads, "x"))
  {
    var more := [Append(0, "x", 1), Commit(0)];
    assert more[..1] == [more[0]] && more[..1][..0] == [];
    assert After(digest, EMPTY, more[..1]) == Step(digest, EMPTY, more[0]);
    assert After(digest, EMPTY, more) == Step(digest, After(digest, EMPTY, more[..1]), more[1]);
    var first := After(digest, EMPTY, []);
    assert Select(first.rows, "x", 1) == Select(first.rows, "x", 0) == [];
    var second := After(digest, first, more);
    assert !Accepts(digest, "x", Select(first.rows, "x", first.next), StoredHead(second.heads, "x"));
  }

  // ---------- tamper evidence ----------

  ghost predicate Injective(digest: Digest) { forall a, b :: digest(a) == digest(b) ==> a == b }

  ghost predicate NeverGenesis(digest: Digest) { forall a :: digest(a) != GENESIS }

  function Contents(rows: seq<(nat, Row)>): seq<Row> { seq(|rows|, i requires 0 <= i < |rows| => rows[i].1) }

  lemma EndIsGenesisOnlyWhenEmpty(digest: Digest, scope: Scope, rows: seq<(nat, Row)>)
    requires NeverGenesis(digest)
    ensures ChainEnd(digest, scope, rows) == Some(GENESIS) <==> rows == []
  {
  }

  lemma {:induction false} SameEndSameChain(digest: Digest, s: Scope, t: Scope, a: seq<(nat, Row)>, b: seq<(nat, Row)>)
    requires Injective(digest) && NeverGenesis(digest)
    requires ChainEnd(digest, s, a).Some? && ChainEnd(digest, s, a) == ChainEnd(digest, t, b)
    ensures |a| == |b|
    ensures forall i :: 0 <= i < |a| ==>
                          a[i].1.body == b[i].1.body && a[i].1.parent == b[i].1.parent && a[i].1.hash == b[i].1.hash
    ensures a != [] ==> s == t
  {
    EndIsGenesisOnlyWhenEmpty(digest, s, a);
    EndIsGenesisOnlyWhenEmpty(digest, t, b);
    if a != [] {
      var x, y := a[|a| - 1].1, b[|b| - 1].1;
      assert digest(Content(s, x.body, x.parent)) == digest(Content(t, y.body, y.parent));
      SameEndSameChain(digest, s, t, a[..|a| - 1], b[..|b| - 1]);
    }
  }

  /**
   A head hash pins down the whole history: two lists of rows of a scope that the verifier accepts with the same
   head hash have the same length and the same content, row by row.
   */
  lemma HeadPinsHistory(digest: Digest, scope: Scope, a: seq<(nat, Row)>, b: seq<(nat, Row)>, h: Head, k: Head)
    requires Injective(digest) && NeverGenesis(digest)
    requires Accepts(digest, scope, a, Some(h)) && Accepts(digest, scope, b, Some(k)) && h.hash == k.hash
    requires (forall i :: 0 <= i < |a| ==> a[i].1.scope == scope)
    requires (forall i :: 0 <= i < |b| ==> b[i].1.scope == scope)
    ensures Contents(a) == Contents(b)
  {
    SameEndSameChain(digest, scope, scope, a, b);
  }

  // ---------- scope keys are trimmed by the verifier only ----------

  // White space and line terminators of ECMAScript's String.prototype.trim.
  predicate IsSpace(c: char)
  {
    var u := c as int;
    9 <= u <= 13 || u == 0x20 || u == 0xA0 || u == 0x1680 || 0x2000 <= u <= 0x200A || u == 0x2028 || u == 0x2029
    || u == 0x202F || u == 0x205F || u == 0x3000 || u == 0xFEFF
  }

  function TrimStart(s: string): string { if s != [] && IsSpace(s[0]) then TrimStart(s[1..]) else s }

  function TrimEnd(s: string): string { if s != [] && IsSpace(s[|s| - 1]) then TrimEnd(s[..|s| - 1]) else s }

  function Trim(s: string): string { TrimEnd(TrimStart(s)) }

  predicate Bare(s: string) { s == [] || (!IsSpace(s[0]) && !IsSpace(s[|s| - 1])) }

  lemma {:induction false} TrimStartBares(s: string)
    ensures TrimStart(s) == [] || !IsSpace(TrimStart(s)[0])
  {
    if s != [] && IsSpace(s[0]) { TrimStartBares(s[1..]); }
  }

  lemma {:induction false} TrimEndBares(s: string)
    ensures TrimEnd(s) <= s && (TrimEnd(s) == [] || !IsSpace(TrimEnd(s)[|TrimEnd(s)| - 1]))
  {
    if s != [] && IsSpace(s[|s| - 1]) { TrimEndBares(s[..|s| - 1]); }
  }

  lemma TrimmedIsBare(asked: string)
    ensures Bare(Trim(asked)) && (Bare(asked) ==> Trim(asked) == asked)
  {
    TrimStartBares(asked);
    TrimEndBares(TrimStart(asked));
  }

  // What verification of an asked scope answers, on any tables.
  ghost predicate Verifies(digest: Digest, rows: map<nat, Row>, heads: map<Scope, Head>, next: nat, asked: string)
  {
    Trim(asked) != [] && Accepts(digest, Trim(asked), Select(rows, Trim(asked), next), StoredHead(heads, Trim(asked)))
  }

  ghost predicate OfOther(rows: map<nat, Row>, s: Scope, i: nat) { i in rows && rows[i].scope != s }

  // Two tables that agree on everything but the rows and the head of one scope.
  ghost predicate DifferOnlyIn(s: Scope, rows: map<nat, Row>, heads: map<Scope, Head>,
                               rows': map<nat, Row>, heads': map<Scope, Head>)
  {
    && (forall i :: OfOther(rows, s, i) <==> OfOther(rows', s, i))
    && (forall i :: OfOther(rows, s, i) ==> rows[i] == rows'[i])
    && (forall t :: t != s ==> StoredHead(heads, t) == StoredHead(heads', t))
  }

  // No verification, of any asked scope, ever depends on the rows or the head of this one.
  ghost predicate NeverRead(digest: Digest, s: Scope)
  {
    forall rows, heads, rows', heads', next, asked ::
      DifferOnlyIn(s, rows, heads, rows', heads') ==>
        (Verifies(digest, rows, heads, next, asked) <==> Verifies(digest, rows', heads', next, asked))
  }

  lemma OtherScopeVerifiesAlike(digest: Digest, s: Scope, rows: map<nat, Row>, heads: map<Scope, Head>,
                                rows': map<nat, Row>, heads': map<Scope, Head>, next: nat, asked: string)
    requires DifferOnlyIn(s, rows, heads, rows', heads') && Trim(asked) != s
    ensures Verifies(digest, rows, heads, next, asked) <==> Verifies(digest, rows', heads', next, asked)
  {
    forall i | 0 <= i < next
      ensures i in rows && rows[i].scope == Trim(asked) <==> i in rows' && rows'[i].scope == Trim(asked)
    {
      assert OfOther(rows, s, i) <==> OfOther(rows', s, i);
    }
    SelectAgrees(rows, rows', Trim(asked), next);
  }

  /**
   Writers store the scope key as given and only the verifier trims. So the rows and the head of a scope are never read,
   whatever was done to them and whatever scope is asked for, if and only if its key is blank or has white space
   at an end.
   */
  lemma PaddedScopesAreNeverRead(digest: Digest, s: Scope)
    ensures NeverRead(digest, s) <==> s == [] || !Bare(s)
  {
    if s == [] || !Bare(s) {
      forall rows, heads, rows', heads', next, asked | DifferOnlyIn(s, rows, heads, rows', heads')
        ensures Verifies(digest, rows, heads, next, asked) <==> Verifies(digest, rows', heads', next, asked)
      {
        TrimmedIsBare(asked);
        if Trim(asked) != [] {
          OtherScopeVerifiesAlike(digest, s, rows, heads, rows', heads', next, asked);
        }
      }
    } else {
      TrimmedIsBare(s);
      var none: map<Scope, Head> := map[];
      assert Verifies(digest, map[], none, 0, s) && !Verifies(digest, map[], none[s := Head(0, GENESIS)], 0, s);
      assert DifferOnlyIn(s, map[], none, map[], none[s := Head(0, GENESIS)]);
    }
  }

  ghost predicate PassesEverywhere(digest: Digest, rows: map<nat, Row>, heads: map<Scope, Head>, next: nat)
  {
    forall asked :: Trim(asked) != [] ==> Verifies(digest, rows, heads, next, asked)
  }

  const BROKEN := Row(" x", 1, GENESIS + 1, 0)

  lemma BrokenChain(digest: Digest)
    ensures ChainEnd(digest, " x", Select(map[1 := BROKEN], " x", 2)).None?
  {
    assert Select(map[1 := BROKEN], " x", 1) == Select(map[1 := BROKEN], " x", 0) == [];
    assert Select(map[1 := BROKEN], " x", 2) == [(1, BROKEN)];
    assert [(1, BROKEN)][..0] == [] && ChainEnd(digest, " x", []) == Some(GENESIS);
  }

  /** A broken chain under a padded key that verification of every non-blank scope still passes over. */
  lemma BrokenPaddedScopePasses(digest: Digest)
    ensures exists rows, heads ::
              PassesEverywhere(digest, rows, heads, 2) && ChainEnd(digest, " x", Select(rows, " x", 2)).None?
  {
    var rows := map[1 := BROKEN];
    BrokenChain(digest);
    forall asked | Trim(asked) != [] ensures Verifies(digest, rows, map[], 2, asked) {
      var scope := Trim(asked);
      TrimmedIsBare(asked);
      assert scope != " x";
      assert Select(rows, scope, 2) == Select(rows, scope, 1) == Select(rows, scope, 0) == [];
    }
    assert PassesEverywhere(digest, rows, map[], 2);
  }

  // ---------- the tables, updated in place ----------

  class AuditTables {
    const digest: Digest
    var next: nat
    var rows: map<nat, Row>
    var heads: map<Scope, Head>
    var open: map<int, Tx>

    ghost function State(): Db
      reads this
    {
      Db(next, rows, heads, open)
    }

    ghost predicate Valid()
      reads this
    {
      Inv(digest, State())
    }

    constructor (digest: Digest)
      ensures State() == EMPTY && Valid() && this.digest == digest
    {
      this.digest := digest;
      next, rows, heads, open := 1, map[], map[], map[];
      new;
      EmptyIsOk(digest);
    }

    /** Locks the head, reading or inserting it, then inserts the row and overwrites the head. */
    method AppendEvent(worker: int, scope: Scope, body: int) returns (sequence: Option<nat>)
      requires Valid()
      modifies this
      ensures Valid() && State() == DoAppend(digest, old(State()), worker, scope, body)
      ensures sequence == if Locked(old(State()), worker, scope) then None else Some(old(next))
      ensures sequence.Some? ==>
                && worker in open && sequence.value in open[worker].rows
                && open[worker].rows[sequence.value].scope == scope && open[worker].rows[sequence.value].body == body
    {
      AppendKeeps(digest, State(), worker, scope, body);
      if exists w :: w in open && w != worker && scope in open[w].heads {
        return None;
      }
      var tx := if worker in open then open[worker] else Tx(map[], map[]);
      var head := if scope in tx.heads then tx.heads[scope]
      else if scope in heads then heads[scope] else Head(0, GENESIS);
      var row := Row(scope, body, head.hash, digest(Content(scope, body, head.hash)));
      open := open[worker := Tx(tx.rows[next := row], tx.heads[scope := Head(next, row.hash)])];
      sequence := Some(next);
      next := next + 1;
    }

    method CommitTransaction(worker: int)
      requires Valid()
      modifies this
      ensures Valid() && State() == DoCommit(old(State()), worker)
    {
      CommitKeeps(digest, State(), worker);
      if worker in open {
        rows, heads := rows + open[worker].rows, heads + open[worker].heads;
      }
      open := open - {worker};
    }

    method RollBack(worker: int)
      requires Valid()
      modifies this
      ensures Valid() && State() == DoAbort(old(State()), worker)
    {
      open := open - {worker};
    }

    /** Verifies stored rows and head; on tables only the writer has touched it succeeds for every non-blank scope. */
    method VerifyScope(asked: string) returns (r: Result<Verification, Fault>)
      ensures r.Ok? <==> Verifies(digest, rows, heads, next, asked)
      ensures r.Ok? ==> r.value == Verification(Trim(asked), |Select(rows, Trim(asked), next)|,
                                                StoredHead(heads, Trim(asked)))
      ensures Valid() ==> (r.Err? <==> Trim(asked) == [])
    {
      var scope := Trim(asked);
      if scope == [] {
        return Err(ScopeRequired);
      }
      var head := if scope in heads then Some(heads[scope]) else None;
      r := VerifyRows(digest, scope, Select(rows, scope, next), head);
      assert Valid() ==> ViewOk(digest, rows, scope, next, StoredHead(heads, scope));
    }
  }
}
