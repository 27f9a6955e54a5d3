/**
 Idempotent commands (src/platform/postgres-idempotency.ts) under interleaved workers and crashes.
 A worker's transaction inserts the command record, runs the business write, stores the response and
 commits all three together. An insert of a key that another open transaction has inserted waits for it.
 Request hashes are taken to be injective, so a record holds the request.
 */
module Idempotency {
  import opened Base
  import opened Sums

  datatype Key = Key(scope: string, route: string, command: string)

  // Actors are trimmed. `actor` is absent on legacy rows; `body` is absent when the command answered null.
  datatype Record = Record(actor: Option<string>, request: int, body: Option<int>, status: Option<int>)

  datatype Answer = Answer(body: Option<int>, status: int)

  datatype Tx = Tx(key: Option<Key>, actor: string, request: int, answer: Option<Answer>)

  // A committed business write, the command key it ran under, and what it answered.
  datatype Effect = Effect(key: Option<Key>, request: int, answer: Answer)

  datatype State = State(rows: map<Key, Record>, open: map<int, Tx>, effects: seq<Effect>)

  datatype Refusal = NoActor | KeyReused | Incomplete

  datatype Op =
    | Begin(worker: int, actor: string, key: Option<Key>, request: int)
    | Execute(worker: int, answer: Answer)
    | Commit(worker: int)
    | Crash(worker: int)

  // ---------- steps ----------

  predicate Inserted(s: State, worker: int, key: Key)
  {
    exists w :: w in s.open && w != worker && s.open[w].key == Some(key)
  }

  // What a command is told when its key already has a record.
  function Replay(row: Record, actor: string, request: int): Result<Answer, Refusal>
  {
    if row.actor.None? || row.actor.value != actor then Err(KeyReused)
    else if row.request != request then Err(KeyReused)
    else if row.body.None? || row.status.None? then Err(Incomplete)
    else Ok(Answer(row.body, row.status.value))
  }

  // Opens a transaction only when there is a business write to run.
  function DoBegin(s: State, worker: int, actor: string, key: Option<Key>, request: int): State
  {
    if worker in s.open then s
    else if key.None? then s.(open := s.open[worker := Tx(None, actor, request, None)])
    else if actor == "" || Inserted(s, worker, key.value) || key.value in s.rows then s
    else s.(open := s.open[worker := Tx(key, actor, request, None)])
  }

  function DoExecute(s: State, worker: int, answer: Answer): State
  {
    if worker !in s.open || s.open[worker].answer.Some? then s
    else s.(open := s.open[worker := s.open[worker].(answer := Some(answer))])
  }

  function DoCommit(s: State, worker: int): State
  {
    if worker !in s.open || s.open[worker].answer.None? then s
    else
      var tx := s.open[worker];
      var effects := s.effects + [Effect(tx.key, tx.request, tx.answer.value)];
      if tx.key.None? then s.(open := s.open - {worker}, effects := effects)
      else s.(rows := s.rows[tx.key.value :=
           Record(Some(tx.actor), tx.request, tx.answer.value.body, Some(tx.answer.value.status))],
           open := s.open - {worker}, effects := effects)
  }

  function Next(s: State, op: Op): State
  {
    match op
    case Begin(worker, actor, key, request) => DoBegin(s, worker, actor, key, request)
    case Execute(worker, answer) => DoExecute(s, worker, answer)
    case Commit(worker) => DoCommit(s, worker)
    case Crash(worker) => s.(open := s.open - {worker})
  }

  function After(s: State, ops: seq<Op>): State
  {
    if ops == [] then s else Next(After(s, ops[..|ops| - 1]), ops[|ops| - 1])
  }

  // Only legacy rows, no transaction, nothing run.
  ghost predicate Initial(s: State)
  {
    s.open == map[] && s.effects == [] && forall k :: k in s.rows ==> s.rows[k].actor.None?
  }

  // ---------- invariant ----------

  function Under(key: Key): Effect -> int { (e: Effect) => if e.key == Some(key) then 1 else 0 }

  function Runs(s: State, key: Key): int { Sum(s.effects, Under(key)) }

  // The record holds the request and the answer of the write that committed under its key.
  ghost predicate Recorded(s: State, k: Key)
    requires k in s.rows
  {
    var row := s.rows[k];
    row.status.Some? && Effect(Some(k), row.request, Answer(row.body, row.status.value)) in s.effects
  }

  ghost predicate RowsOk(s: State)
  {
    forall k :: k in s.rows ==>
                  if s.rows[k].actor.None? then Runs(s, k) == 0 else Runs(s, k) == 1 && Recorded(s, k)
  }

  ghost predicate Inv(s: State)
  {
    && RowsOk(s)
    && (forall k :: k !in s.rows ==> Runs(s, k) == 0)
    && (forall w :: w in s.open && s.open[w].key.Some? ==> s.open[w].key.value !in s.rows)
    && (forall v, w :: v in s.open && w in s.open && v != w && s.open[v].key.Some? ==> s.open[w].key != s.open[v].key)
  }

  lemma CommitKeeps(s: State, worker: int)
    requires Inv(s)
    ensures Inv(DoCommit(s, worker))
  {
    var next := DoCommit(s, worker);
    if next != s {
      var e := Effect(s.open[worker].key, s.open[worker].request, s.open[worker].answer.value);
      forall k ensures Runs(next, k) == Runs(s, k) + Under(k)(e) { SumOfOneMore(s.effects, e, Under(k)); }
      assert e in next.effects;
      assert forall x :: x in s.effects ==> x in next.effects;
    }
  }

  lemma NextKeeps(s: State, op: Op)
    requires Inv(s)
    ensures Inv(Next(s, op))
  {
    if op.Commit? {
      CommitKeeps(s, op.worker);
    } else {
      assert Next(s, op).effects == s.effects && Next(s, op).rows == s.rows;
    }
  }

  lemma InitialIsOk(s: State)
    requires Initial(s)
    ensures Inv(s)
  {
  }

  lemma {:induction false} EveryRunKeeps(s: State, ops: seq<Op>)
    requires Inv(s)
    ensures Inv(After(s, ops))
  {
    if ops != [] {
      EveryRunKeeps(s, ops[..|ops| - 1]);
      NextKeeps(After(s, ops[..|ops| - 1]), ops[|ops| - 1]);
    }
  }

  // ---------- theorems ----------

  /**
   Under any interleaving of workers and crashes, the business write of a command key commits at most once. It has
   committed exactly when an attributed record of the key exists, and that record holds its request and its answer.
   */
  lemma EffectCommitsAtMostOnce(s: State, ops: seq<Op>, key: Key)
    requires Initial(s)
    ensures var t := After(s, ops);
            && 0 <= Runs(t, key) <= 1
            && (Runs(t, key) == 1 <==> key in t.rows && t.rows[key].actor.Some?)
            && (Runs(t, key) == 1 ==> Recorded(t, key))
  {
    InitialIsOk(s);
    EveryRunKeeps(s, ops);
  }

  lemma StepKeepsRecord(s: State, op: Op, key: Key)
    requires Inv(s) && key in s.rows
    ensures key in Next(s, op).rows && Next(s, op).rows[key] == s.rows[key]
  {
  }

  /** A stored record never changes, so every later command with the key is told what the first one stored. */
  lemma {:induction false} ReplaysReturnTheFirstAnswer(s: State, ops: seq<Op>, key: Key, actor: string, request: int)
    requires Inv(s) && key in s.rows
    ensures key in After(s, ops).rows
    ensures Replay(After(s, ops).rows[key], actor, request) == Replay(s.rows[key], actor, request)
    ensures After(s, ops).rows[key] == s.rows[key]
  {
    if ops != [] {
      var n := |ops| - 1;
      ReplaysReturnTheFirstAnswer(s, ops[..n], key, actor, request);
      EveryRunKeeps(s, ops[..n]);
      StepKeepsRecord(After(s, ops[..n]), ops[n], key);
    }
  }

  /** The committing worker's own answer is the one replayed to its actor and request, if it is not null. */
  lemma CommittedAnswerIsReplayed(s: State, worker: int, key: Key)
    requires worker in s.open && s.open[worker].key == Some(key) && s.open[worker].answer.Some?
    ensures var tx := s.open[worker];
            var row := DoCommit(s, worker).rows[key];
            Replay(row, tx.actor, tx.request)
            == if tx.answer.value.body.Some? then Ok(tx.answer.value) else Err(Incomplete)
  {
  }

  // No command answered null.
  ghost predicate AnswersHaveBodies(ops: seq<Op>) { forall op :: op in ops && op.Execute? ==> op.answer.body.Some? }

  ghost predicate BodiesOk(s: State)
  {
    && (forall k :: k in s.rows && s.rows[k].actor.Some? ==> s.rows[k].body.Some? && s.rows[k].status.Some?)
    && forall w :: w in s.open && s.open[w].answer.Some? ==> s.open[w].answer.value.body.Some?
  }

  lemma {:induction false} BodiesStay(s: State, ops: seq<Op>)
    requires BodiesOk(s) && AnswersHaveBodies(ops)
    ensures BodiesOk(After(s, ops))
  {
    if ops != [] {
      assert ops[|ops| - 1] in ops;
      BodiesStay(s, ops[..|ops| - 1]);
    }
  }

  /** The "no completed response" branch is unreachable as long as no command answers null. */
  lemma NoIncompleteAnswers(s: State, ops: seq<Op>, key: Key, actor: string, request: int)
    requires Initial(s) && AnswersHaveBodies(ops) && key in After(s, ops).rows
    ensures Replay(After(s, ops).rows[key], actor, request) != Err(Incomplete)
  {
    BodiesStay(s, ops);
  }

  lemma {:induction false} OneRunOneEffect(effects: seq<Effect>, key: Key, a: Effect, b: Effect)
    requires Sum(effects, Under(key)) <= 1 && a in effects && b in effects && a.key == b.key == Some(key)
    ensures a == b
  {
    var n := |effects| - 1;
    SumOfCounts(effects[..n], key);
    if a in effects[..n] && b in effects[..n] {
      OneRunOneEffect(effects[..n], key, a, b);
    } else if a in effects[..n] {
      RanAtLeastOnce(effects[..n], key, a);
    } else if b in effects[..n] {
      RanAtLeastOnce(effects[..n], key, b);
    }
  }

  lemma {:induction false} SumOfCounts(effects: seq<Effect>, key: Key)
    ensures Sum(effects, Under(key)) >= 0
  {
    if effects != [] {
      SumOfCounts(effects[..|effects| - 1], key);
    }
  }

  lemma {:induction false} RanAtLeastOnce(effects: seq<Effect>, key: Key, e: Effect)
    requires e in effects && e.key == Some(key)
    ensures Sum(effects, Under(key)) >= 1
  {
    var n := |effects| - 1;
    SumOfCounts(effects[..n], key);
    if e in effects[..n] {
      RanAtLeastOnce(effects[..n], key, e);
    }
  }

  ghost predicate AnsweredNull(s: State, key: Key)
  {
    exists e :: e in s.effects && e.key == Some(key) && e.answer.body.None?
  }

  /**
   In every run, some replay of a key is told that no completed response exists if and only if the one write that
   committed under the key answered null.
   */
  lemma IncompleteExactlyAfterNull(s: State, ops: seq<Op>, key: Key)
    requires Initial(s) && key in After(s, ops).rows
    ensures var t := After(s, ops);
            (exists actor, request :: Replay(t.rows[key], actor, request) == Err(Incomplete)) <==> AnsweredNull(t, key)
  {
    InitialIsOk(s);
    EveryRunKeeps(s, ops);
    var t := After(s, ops);
    var row := t.rows[key];
    if AnsweredNull(t, key) {
      var e :| e in t.effects && e.key == Some(key) && e.answer.body.None?;
      RanAtLeastOnce(t.effects, key, e);
      OneRunOneEffect(t.effects, key, e, Effect(Some(key), row.request, Answer(row.body, row.status.value)));
      assert Replay(row, row.actor.value, row.request) == Err(Incomplete);
    }
  }

  lemma {:induction false} AnswersComeFromCommands(s: State, ops: seq<Op>)
    requires Initial(s)
    ensures forall e :: e in After(s, ops).effects ==> exists op :: op in ops && op.Execute? && op.answer == e.answer
    ensures forall w :: w in After(s, ops).open && After(s, ops).open[w].answer.Some? ==>
                          exists op :: op in ops && op.Execute? && op.answer == After(s, ops).open[w].answer.value
  {
    if ops != [] {
      var n := |ops| - 1;
      AnswersComeFromCommands(s, ops[..n]);
      var before, after := After(s, ops[..n]), After(s, ops);
      forall e | e in after.effects ensures exists op :: op in ops && op.Execute? && op.answer == e.answer {
        if e in before.effects {
          var op :| op in ops[..n] && op.Execute? && op.answer == e.answer;
          assert op in ops;
        } else {
          var op :| op in ops[..n] && op.Execute? && op.answer == before.open[ops[n].worker].answer.value;
          assert op in ops;
        }
      }
      forall w | w in after.open && after.open[w].answer.Some?
        ensures exists op :: op in ops && op.Execute? && op.answer == after.open[w].answer.value
      {
        if w in before.open && before.open[w] == after.open[w] {
          var op :| op in ops[..n] && op.Execute? && op.answer == before.open[w].answer.value;
          assert op in ops;
        } else {
          assert ops[n] in ops && ops[n].Execute?;
        }
      }
    }
  }

  /**
   Seen from the commit: whatever runs afterwards, the actor who repeats the command is told that no completed response
   exists if and only if the answer about to be committed is null.
   */
  lemma NullAnswerIsNeverReplayed(s: State, worker: int, key: Key, more: seq<Op>)
    requires Inv(s) && worker in s.open && s.open[worker].key == Some(key) && s.open[worker].answer.Some?
    ensures var tx := s.open[worker];
            var t := After(DoCommit(s, worker), more);
            key in t.rows && (Replay(t.rows[key], tx.actor, tx.request) == Err(Incomplete)
                              <==> tx.answer.value.body.None?)
  {
    CommitKeeps(s, worker);
    ReplaysReturnTheFirstAnswer(DoCommit(s, worker), more, key, s.open[worker].actor, s.open[worker].request);
  }

  /**
   Whom the committed answer is for: in every continuation, whoever repeats the key is given that answer if and only if
   it is the same actor with the same request and the answer was not null; anyone or anything else is refused as reuse.
   */
  lemma OnlyTheSameCommandIsAnswered(s: State, worker: int, key: Key, more: seq<Op>, actor: string, request: int)
    requires Inv(s) && worker in s.open && s.open[worker].key == Some(key) && s.open[worker].answer.Some?
    ensures var tx := s.open[worker];
            var t := After(DoCommit(s, worker), more);
            var same := actor == tx.actor && request == tx.request;
            && key in t.rows
            && var told := Replay(t.rows[key], actor, request);
            && (told.Ok? <==> same && tx.answer.value.body.Some?)
            && (told.Ok? ==> told.value == tx.answer.value)
            && (told == Err(KeyReused) <==> !same)
  {
    CommitKeeps(s, worker);
    ReplaysReturnTheFirstAnswer(DoCommit(s, worker), more, key, actor, request);
  }

  // A worker that starts on a command: one without a key, or an attributed one whose key nobody has used or is using.
  predicate Starts(s: State, op: Op)
  {
    && op.Begin? && op.worker !in s.open
    && (op.key.Some? ==>
          && op.actor != "" && op.key.value !in s.rows
          && forall w :: w in s.open && w != op.worker ==> s.open[w].key != op.key)
  }

  /** A transaction starts exactly on a command that may run, and carries its key, actor and request. */
  lemma CommandsStart(s: State, op: Op, worker: int)
    requires worker !in s.open
    ensures worker in Next(s, op).open <==> Starts(s, op) && op.worker == worker
    ensures Starts(s, op) && op.worker == worker ==> Next(s, op).open[worker] == Tx(op.key, op.actor, op.request, None)
  {
  }

  // A worker that has run its command and commits.
  predicate Finishes(s: State, op: Op) { op.Commit? && op.worker in s.open && s.open[op.worker].answer.Some? }

  /** A write and its record appear exactly when a transaction that has run its command commits, as it ran it. */
  lemma WritesCommitExactly(s: State, op: Op)
    ensures if !Finishes(s, op) then Next(s, op).effects == s.effects && Next(s, op).rows == s.rows
            else
              var tx, next := s.open[op.worker], Next(s, op);
              && next.effects == s.effects + [Effect(tx.key, tx.request, tx.answer.value)]
              && (tx.key.None? ==> next.rows == s.rows)
              && (tx.key.Some? ==>
                    && tx.key.value in next.rows && next.rows - {tx.key.value} == s.rows - {tx.key.value}
                    && var row := next.rows[tx.key.value];
                    && row.actor == Some(tx.actor) && row.request == tx.request
                    && row.body == tx.answer.value.body && row.status == Some(tx.answer.value.status))
  {
  }

  const SOME_KEY := Key("identity:1", "POST:/v1", "k")
  const NULL_RUN: seq<Op> := [Begin(0, "1", Some(SOME_KEY), 7), Execute(0, Answer(None, 204)), Commit(0)]

  /** A run of three steps after which the repeated command is told that no completed response exists. */
  lemma NullAnswerLeavesIncomplete()
    ensures exists s, ops ::
              Initial(s) && SOME_KEY in After(s, ops).rows
              && Replay(After(s, ops).rows[SOME_KEY], "1", 7) == Err(Incomplete)
  {
    var s := State(map[], map[], []);
    assert NULL_RUN[..2][..1] == NULL_RUN[..1] && NULL_RUN[..1][..0] == [];
    assert After(s, NULL_RUN[..1]) == Next(s, NULL_RUN[0]);
    assert After(s, NULL_RUN[..2]) == Next(After(s, NULL_RUN[..1]), NULL_RUN[1]);
    assert After(s, NULL_RUN) == Next(After(s, NULL_RUN[..2]), NULL_RUN[2]);
    assert Initial(s);
  }

  // ---------- the table, updated in place ----------

  class CommandTable {
    var rows: map<Key, Record>
    var open: map<int, Tx>
    ghost var effects: seq<Effect>

    ghost function Contents(): State
      reads this
    {
      State(rows, open, effects)
    }

    ghost predicate Valid()
      reads this
    {
      Inv(Contents())
    }

    constructor ()
      ensures Valid() && Initial(Contents())
    {
      rows, open, effects := map[], map[], [];
    }

    /**
     The insert, or the conflict path: `None` when the command must run its write (or wait), otherwise what its caller
     is told without anything being written.
     */
    method BeginCommand(worker: int, actor: string, key: Option<Key>, request: int)
      returns (told: Option<Result<Answer, Refusal>>)
      requires Valid() && worker !in open
      modifies this
      ensures Valid() && Contents() == DoBegin(old(Contents()), worker, actor, key, request)
      ensures told.Some? ==> Contents() == old(Contents())
      ensures key.Some? && actor != "" && key.value in old(rows) && !Inserted(old(Contents()), worker, key.value)
              ==> told == Some(Replay(old(rows)[key.value], actor, request))
    {
      NextKeeps(Contents(), Begin(worker, actor, key, request));
      if key.None? {
        open := open[worker := Tx(None, actor, request, None)];
        return None;
      }
      if actor == "" {
        return Some(Err(NoActor));
      }
      if exists w :: w in open && w != worker && open[w].key == key {
        return None;
      }
      if key.value in rows {
        return Some(Replay(rows[key.value], actor, request));
      }
      open := open[worker := Tx(key, actor, request, None)];
      told := None;
    }

    method ExecuteCommand(worker: int, answer: Answer)
      requires Valid()
      modifies this
      ensures Valid() && Contents() == DoExecute(old(Contents()), worker, answer)
    {
      NextKeeps(Contents(), Execute(worker, answer));
      if worker in open && open[worker].answer.None? {
        open := open[worker := open[worker].(answer := Some(answer))];
      }
    }

    /** Stores the response in the command's record and commits it with the business write. */
    method CommitCommand(worker: int) returns (answer: Option<Answer>)
      requires Valid()
      modifies this
      ensures Valid() && Contents() == DoCommit(old(Contents()), worker)
      ensures answer == if worker in old(open) then old(open)[worker].answer else None
    {
      CommitKeeps(Contents(), worker);
      if worker !in open || open[worker].answer.None? {
        return None;
      }
      var tx := open[worker];
      effects := effects + [Effect(tx.key, tx.request, tx.answer.value)];
      if tx.key.Some? {
        rows := rows[tx.key.value :=
        Record(Some(tx.actor), tx.request, tx.answer.value.body, Some(tx.answer.value.status))];
      }
      open := open - {worker};
      answer := tx.answer;
    }

    method CrashWorker(worker: int)
      requires Valid()
      modifies this
      ensures Valid() && Contents() == Next(old(Contents()), Crash(worker))
    {
      open := open - {worker};
    }
  }
}
