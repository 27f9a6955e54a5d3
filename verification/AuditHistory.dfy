/**
 What the audit log contains: a plain account of a scope's events, kept beside the chain and without hashes, heads or
 sequence numbers, and the proof that the stored chain lists exactly those events in that order.
 */
module AuditHistory {
  import opened AuditChain

  // The events of one scope: those that are committed, and those each open transaction has added.
  datatype Log = Log(committed: seq<int>, pending: map<int, seq<int>>)

  predicate HeldByAnother(log: Log, worker: int) { exists w :: w in log.pending && w != worker }

  function Pending(log: Log, worker: int): seq<int> { if worker in log.pending then log.pending[worker] else [] }

  function Entered(log: Log, scope: Scope, op: Op): Log
  {
    match op
    case Append(worker, to, body) =>
      if to != scope || HeldByAnother(log, worker) then log
      else log.(pending := log.pending[worker := Pending(log, worker) + [body]])
    case Commit(worker) => Log(log.committed + Pending(log, worker), log.pending - {worker})
    case Abort(worker) => log.(pending := log.pending - {worker})
  }

  function History(scope: Scope, ops: seq<Op>): Log
  {
    if ops == [] then Log([], map[]) else Entered(History(scope, ops[..|ops| - 1]), scope, ops[|ops| - 1])
  }

  function Bodies(rows: seq<(nat, Row)>): seq<int> { seq(|rows|, i requires 0 <= i < |rows| => rows[i].1.body) }

  // The chain shows the log, to everyone and to each transaction that has added to it.
  ghost predicate Shows(db: Db, scope: Scope, log: Log)
  {
    && Bodies(Select(db.rows, scope, db.next)) == log.committed
    && (forall w :: w in log.pending <==> w in db.open && scope in db.open[w].heads)
    && forall w :: w in log.pending ==>
                     Bodies(Select(db.rows + db.open[w].rows, scope, db.next)) == log.committed + log.pending[w]
  }

  lemma BodiesOfOneMore(rows: seq<(nat, Row)>, n: nat, row: Row)
    ensures Bodies(rows + [(n, row)]) == Bodies(rows) + [row.body]
  {
  }

  // Drawing a number changes no one's view.
  lemma ViewsStay(digest: Digest, db: Db, scope: Scope)
    requires Inv(digest, db)
    ensures Select(db.rows, scope, db.next + 1) == Select(db.rows, scope, db.next)
    ensures forall w :: w in db.open ==>
                          Select(db.rows + db.open[w].rows, scope, db.next + 1)
                          == Select(db.rows + db.open[w].rows, scope, db.next)
  {
    UnusedNumberShowsNothing(db.rows, scope, db.next);
    forall w | w in db.open
      ensures Select(db.rows + db.open[w].rows, scope, db.next + 1) == Select(db.rows + db.open[w].rows, scope, db.next)
    {
      assert TxOk(digest, db, db.open[w]);
      UnusedNumberShowsNothing(db.rows + db.open[w].rows, scope, db.next);
    }
  }

  lemma OwnView(digest: Digest, db: Db, worker: int, scope: Scope, log: Log)
    requires Inv(digest, db) && Shows(db, scope, log)
    ensures Bodies(Select(db.rows + OpenTx(db, worker).rows, scope, db.next)) == log.committed + Pending(log, worker)
  {
    var tx := OpenTx(db, worker);
    assert TxOk(digest, db, tx);
    if worker !in log.pending {
      OtherScopesDoNotShow(db.rows, tx.rows, scope, db.next);
    }
  }

  lemma LockedIsHeld(db: Db, scope: Scope, log: Log, worker: int)
    requires Shows(db, scope, log)
    ensures Locked(db, worker, scope) <==> HeldByAnother(log, worker)
  {
    if Locked(db, worker, scope) {
      var w :| w in db.open && w != worker && scope in db.open[w].heads;
      assert w in log.pending;
    }
    if HeldByAnother(log, worker) {
      var w :| w in log.pending && w != worker;
      assert w in db.open && scope in db.open[w].heads;
    }
  }

  // What an append makes of the views: its own scope gains the event, every other view stays.
  lemma AppendedView(digest: Digest, db: Db, worker: int, to: Scope, body: int, scope: Scope, log: Log)
    requires Inv(digest, db) && Shows(db, scope, log) && !Locked(db, worker, to)
    ensures var next := DoAppend(digest, db, worker, to, body);
            worker in next.open
            && Bodies(Select(next.rows + next.open[worker].rows, scope, next.next))
               == log.committed + Pending(log, worker) + if to == scope then [body] else []
  {
    var next, tx := DoAppend(digest, db, worker, to, body), OpenTx(db, worker);
    assert TxOk(digest, db, tx);
    var view, row := db.rows + tx.rows, next.open[worker].rows[db.next];
    UpdateAfterUnion(db.rows, tx.rows, db.next, row);
    OwnView(digest, db, worker, scope, log);
    if to == scope {
      AppendedRowShows(view, scope, db.next, row);
      BodiesOfOneMore(Select(view, scope, db.next), db.next, row);
    } else {
      RowOfOtherScopeIsSkipped(view, scope, db.next, row);
    }
  }

  lemma AppendShows(digest: Digest, db: Db, worker: int, to: Scope, body: int, scope: Scope, log: Log)
    requires Inv(digest, db) && Shows(db, scope, log) && !Locked(db, worker, to)
    ensures Shows(DoAppend(digest, db, worker, to, body), scope, Entered(log, scope, Append(worker, to, body)))
  {
    var next, after := DoAppend(digest, db, worker, to, body), Entered(log, scope, Append(worker, to, body));
    if to == scope {
      LockedIsHeld(db, scope, log, worker);
    }
    ViewsStay(digest, db, scope);
    AppendedView(digest, db, worker, to, body, scope, log);
    forall w | w in after.pending
      ensures Bodies(Select(next.rows + next.open[w].rows, scope, next.next)) == after.committed + after.pending[w]
    {
      if w == worker {
        assert after.committed + after.pending[w]
            == log.committed + Pending(log, worker) + if to == scope then [body] else [];
      } else {
        assert w in log.pending && next.open[w] == db.open[w];
      }
    }
  }

  // Who still holds the scope.
  lemma StillHolding(db: Db, worker: int, scope: Scope, log: Log)
    requires Shows(db, scope, log)
    ensures var next, after := DoCommit(db, worker), Entered(log, scope, Commit(worker));
            forall w :: w in after.pending <==> w in next.open && scope in next.open[w].heads
  {
  }

  lemma CommittedView(digest: Digest, db: Db, worker: int, scope: Scope, log: Log)
    requires Inv(digest, db) && Shows(db, scope, log)
    ensures var next, after := DoCommit(db, worker), Entered(log, scope, Commit(worker));
            Bodies(Select(next.rows, scope, next.next)) == after.committed
  {
    OwnView(digest, db, worker, scope, log);
  }

  // Whoever commits while someone else holds the scope has written nothing to it.
  lemma NothingToShow(digest: Digest, db: Db, worker: int, scope: Scope, w: int)
    requires Inv(digest, db) && w in db.open && scope in db.open[w].heads && w != worker
    ensures var theirs, mine := OpenTx(db, worker), db.open[w];
            && scope !in theirs.heads
            && forall i :: i in theirs.rows ==> i !in db.rows && i !in mine.rows && theirs.rows[i].scope != scope
  {
    if worker in db.open {
      var theirs, mine := db.open[worker], db.open[w];
      assert TxOk(digest, db, theirs);
      assert theirs.heads.Keys !! mine.heads.Keys && theirs.rows.Keys !! mine.rows.Keys;
      assert scope in mine.heads.Keys;
      forall i | i in theirs.rows ensures i !in db.rows && i !in mine.rows && theirs.rows[i].scope != scope {
        assert i in theirs.rows.Keys && theirs.rows[i].scope in theirs.heads.Keys;
      }
    }
  }

  // A commit by someone else leaves what a transaction sees of a scope it holds.
  lemma OtherView(db: Db, worker: int, scope: Scope, w: int)
    requires w in db.open && w != worker
    requires forall i :: i in OpenTx(db, worker).rows ==>
                           && i !in db.rows && i !in db.open[w].rows && OpenTx(db, worker).rows[i].scope != scope
    ensures var next := DoCommit(db, worker);
            && w in next.open && next.open[w] == db.open[w]
            && Select(next.rows + next.open[w].rows, scope, next.next)
               == Select(db.rows + db.open[w].rows, scope, db.next)
  {
    OtherCommitsDoNotShow(db.rows, db.open[w].rows, OpenTx(db, worker).rows, scope, db.next);
  }

  lemma OtherViewShows(digest: Digest, db: Db, worker: int, scope: Scope, log: Log, w: int)
    requires Inv(digest, db) && Shows(db, scope, log) && w in log.pending && w != worker
    ensures var next, after := DoCommit(db, worker), Entered(log, scope, Commit(worker));
            w in next.open && w in after.pending
            && Bodies(Select(next.rows + next.open[w].rows, scope, next.next)) == after.committed + after.pending[w]
  {
    NothingToShow(digest, db, worker, scope, w);
    OtherView(db, worker, scope, w);
    assert Pending(log, worker) == [] && log.committed + [] == log.committed;
  }

  lemma OtherViews(digest: Digest, db: Db, worker: int, scope: Scope, log: Log)
    requires Inv(digest, db) && Shows(db, scope, log)
    ensures var next, after := DoCommit(db, worker), Entered(log, scope, Commit(worker));
            forall w :: w in after.pending ==>
                          w in next.open
                          && Bodies(Select(next.rows + next.open[w].rows, scope, next.next))
                             == after.committed + after.pending[w]
  {
    var next, after := DoCommit(db, worker), Entered(log, scope, Commit(worker));
    forall w | w in after.pending
      ensures w in next.open
      ensures Bodies(Select(next.rows + next.open[w].rows, scope, next.next)) == after.committed + after.pending[w]
    {
      OtherViewShows(digest, db, worker, scope, log, w);
    }
  }

  lemma CommitShows(digest: Digest, db: Db, worker: int, scope: Scope, log: Log)
    requires Inv(digest, db) && Shows(db, scope, log)
    ensures Shows(DoCommit(db, worker), scope, Entered(log, scope, Commit(worker)))
  {
    StillHolding(db, worker, scope, log);
    CommittedView(digest, db, worker, scope, log);
    OtherViews(digest, db, worker, scope, log);
  }

  lemma {:induction false} EveryRunShows(digest: Digest, ops: seq<Op>, scope: Scope)
    ensures Shows(After(digest, EMPTY, ops), scope, History(scope, ops))
  {
    if ops == [] {
      assert Select(map[], scope, 1) == Select(map[], scope, 0) == [];
    } else {
      var n := |ops| - 1;
      var db, log := After(digest, EMPTY, ops[..n]), History(scope, ops[..n]);
      EveryRunShows(digest, ops[..n], scope);
      EveryRunKeeps(digest, ops[..n]);
      match ops[n]
      case Append(worker, to, body) =>
        LockedIsHeld(db, scope, log, worker);
        if !Locked(db, worker, to) {
          AppendShows(digest, db, worker, to, body, scope, log);
        }
      case Commit(worker) => CommitShows(digest, db, worker, scope, log);
      case Abort(worker) =>
    }
  }

  /**
   After any interleaving, the rows stored for a scope are, in order, exactly the events appended to it by transactions
   that committed: none is missing, altered, repeated or out of order, and rolled-back ones leave nothing.
   */
  lemma ChainIsTheHistory(digest: Digest, ops: seq<Op>, scope: Scope)
    ensures var db := After(digest, EMPTY, ops);
            Bodies(Select(db.rows, scope, db.next)) == History(scope, ops).committed
  {
    EveryRunShows(digest, ops, scope);
  }
}
