/**
 The database as the route handlers see it through a pooled client: a
 fault-injecting oracle that decides which round trips fail, the trace
 of events a handler produces, and which statements a trace makes
 durable under PostgreSQL's transaction rules.
 */
module Database {
  import opened Lists
  import opened JsValues
  import opened Payloads

  /** The statements the handlers issue; SQL text is abstracted to the
      values bound to it. */
  datatype Stmt =
    | Begin
    | Commit
    | Rollback
    | InsertRecipe(recipeName: JsValue, instructions: JsValue, dateCreated: string)
    | InsertRecipeItem(recipeId: int, item: RecipeItemPayload)
    | UpdateRecipeTotal(totalCost: real, recipeId: int)
      /** `placeholders` is the number of `$n` markers in the SQL text. */
    | InsertIngredient(placeholders: nat, params: seq<JsValue>)

  /** What a handler does to the pool and the borrowed client, in order;
      a statement that was issued but failed is `ExecFailed`. */
  datatype Event =
    | Connect
    | ConnectFailed
    | Exec(stmt: Stmt)
    | ExecFailed(stmt: Stmt)
    | Release

  /** What a route handler yields: the HTTP status, the id in a 201 body,
      and the database events. */
  datatype HandlerResult = HandlerResult(status: int, createdId: Option<int>, trace: seq<Event>)

  /** The oracle: whether `pool.connect()` succeeds, which queries on the
      borrowed client fail (by position, the first query being 0), and the
      id that a successful insert generates. */
  datatype Db = Db(connectOk: bool, failing: set<nat>, newId: int)

  /** PostgreSQL rejects a statement whose bound parameters do not match
      its placeholders; the recipe statements bind exactly as many values
      as they mark (3, 5 and 2), so only the ingredient insert can differ. */
  predicate WellFormed(s: Stmt)
  {
    match s
    case InsertIngredient(placeholders, params) => placeholders == |params|
    case _ => true
  }

  predicate Succeeds(db: Db, ordinal: nat, s: Stmt)
  {
    ordinal !in db.failing && WellFormed(s)
  }

  /** The event for a query, given its outcome. */
  function Issue(db: Db, ordinal: nat, s: Stmt): (e: Event)
    ensures e == Exec(s) <==> Succeeds(db, ordinal, s)
    ensures e == ExecFailed(s) <==> !Succeeds(db, ordinal, s)
  {
    if Succeeds(db, ordinal, s) then Exec(s) else ExecFailed(s)
  }

  function Execs(stmts: seq<Stmt>): (r: seq<Event>)
    ensures |r| == |stmts|
    ensures forall i :: 0 <= i < |stmts| ==> r[i] == Exec(stmts[i])
  {
    seq(|stmts|, i requires 0 <= i < |stmts| => Exec(stmts[i]))
  }

  lemma ExecsConcat(a: seq<Stmt>, b: seq<Stmt>, c: seq<Stmt>)
    ensures Execs(a + b) == Execs(a) + Execs(b)
    ensures Execs(a + b + c) == Execs(a) + Execs(b) + Execs(c)
  {
    assert Execs(a + b + c) == Execs(a + b) + Execs(c);
  }

  /** Which statement failed (its position), and the events. */
  datatype RunResult = RunResult(failedAt: Option<nat>, trace: seq<Event>)

  /** Awaiting `stmts[k..]` one after another on a client whose first query
      is `stmts[0]`, so that a statement's position is its query ordinal;
      the first failure throws and ends the run. */
  function Run(db: Db, stmts: seq<Stmt>, k: nat): (r: RunResult)
    requires k <= |stmts|
    ensures r.failedAt.None? <==> forall j :: k <= j < |stmts| ==> Succeeds(db, j, stmts[j])
    ensures r.failedAt.None? ==> r.trace == Execs(stmts[k..])
    ensures r.failedAt.Some? ==>
      var f := r.failedAt.value;
      && k <= f < |stmts|
      && !Succeeds(db, f, stmts[f])
      && (forall j :: k <= j < f ==> Succeeds(db, j, stmts[j]))
      && r.trace == Execs(stmts[k..f]) + [ExecFailed(stmts[f])]
    decreases |stmts| - k
  {
    if k == |stmts| then RunResult(None, [])
    else if !Succeeds(db, k, stmts[k]) then RunResult(Some(k), [ExecFailed(stmts[k])])
    else
      var rest := Run(db, stmts, k + 1);
      var m := if rest.failedAt.Some? then rest.failedAt.value else |stmts|;
      ExecsCons(stmts, k, m);
      RunResult(rest.failedAt, [Exec(stmts[k])] + rest.trace)
  }

  lemma ExecsCons(stmts: seq<Stmt>, k: nat, m: nat)
    requires k < m <= |stmts|
    ensures Execs(stmts[k..m]) == [Exec(stmts[k])] + Execs(stmts[k + 1..m])
  {
    assert stmts[k..m] == [stmts[k]] + stmts[k + 1..m];
    ExecsConcat([stmts[k]], stmts[k + 1..m], []);
  }

  /** Every event of a run is the outcome of one of its statements. */
  lemma RunEventsAreStatements(db: Db, stmts: seq<Stmt>)
    ensures forall e :: e in Run(db, stmts, 0).trace ==> (e.Exec? || e.ExecFailed?) && e.stmt in stmts
  {
    var r := Run(db, stmts, 0);
    if r.failedAt.Some? {
      var f := r.failedAt.value;
      assert forall i :: 0 <= i < f ==> stmts[..f][i] == stmts[i];
    } else {
      assert stmts[0..] == stmts;
    }
  }

  // ---------------------------------------------------------------------
  // Durability

  /** The session's transaction state: no transaction, an open one with
      the statements it has run so far, or one aborted by a failure. */
  datatype TxState = Idle | Open(pending: seq<Stmt>) | Aborted

  /** A statement that neither opens nor closes a transaction. */
  predicate Plain(s: Stmt)
  {
    !s.Begin? && !s.Commit? && !s.Rollback?
  }

  /** One event's effect: the statements it makes durable and the next
      state. Outside a transaction a statement commits on its own; inside
      one it waits for COMMIT; a failure aborts the transaction, and a
      COMMIT of an aborted transaction, a failed COMMIT and any ROLLBACK
      discard it. */
  function Step(st: TxState, e: Event): (seq<Stmt>, TxState)
  {
    match e
    case Exec(s) =>
      if s.Begin? then ([], if st.Idle? then Open([]) else st)
      else if s.Commit? then (if st.Open? then (st.pending, Idle) else ([], Idle))
      else if s.Rollback? then ([], Idle)
      else if st.Open? then ([], Open(st.pending + [s]))
      else if st.Idle? then ([s], Idle)
      else ([], Aborted)
    case ExecFailed(s) =>
      if s.Commit? || s.Rollback? then ([], Idle)
      else if st.Open? then ([], Aborted)
      else ([], st)
    case _ => ([], st)
  }

  /** The statements a trace makes durable, starting in state `st`; a
      transaction still open when the trace ends never commits. */
  function DurableFrom(trace: seq<Event>, st: TxState): seq<Stmt>
    decreases |trace|
  {
    if |trace| == 0 then []
    else
      var (emitted, next) := Step(st, trace[0]);
      emitted + DurableFrom(trace[1..], next)
  }

  function Durable(trace: seq<Event>): seq<Stmt>
  {
    DurableFrom(trace, Idle)
  }

  /** One event, then the rest of the trace. */
  lemma DurableFromCons(e: Event, rest: seq<Event>, st: TxState)
    ensures DurableFrom([e] + rest, st) == Step(st, e).0 + DurableFrom(rest, Step(st, e).1)
  {
    assert ([e] + rest)[1..] == rest;
  }

  /** Plain statements run inside an open transaction only accumulate. */
  lemma {:induction false} DurableThroughOpen(xs: seq<Stmt>, rest: seq<Event>, pending: seq<Stmt>)
    requires forall i :: 0 <= i < |xs| ==> Plain(xs[i])
    ensures DurableFrom(Execs(xs) + rest, Open(pending)) == DurableFrom(rest, Open(pending + xs))
    decreases |xs|
  {
    if |xs| == 0 {
      assert Execs(xs) + rest == rest;
      assert pending + xs == pending;
    } else {
      var trace := Execs(xs) + rest;
      assert trace[0] == Exec(xs[0]);
      assert trace[1..] == Execs(xs[1..]) + rest;
      DurableThroughOpen(xs[1..], rest, pending + [xs[0]]);
      assert pending + [xs[0]] + xs[1..] == pending + xs;
    }
  }

  /** Ending with a ROLLBACK (whether it succeeds or not) and a release
      makes nothing durable, whatever the state. */
  lemma RollbackThenReleaseDiscards(rollback: Event, st: TxState)
    requires rollback == Exec(Rollback) || rollback == ExecFailed(Rollback)
    ensures DurableFrom([rollback, Release], st) == []
  {
    assert [rollback, Release][1..] == [Release];
    assert [Release][1..] == [];
  }

  /** A connect event changes no durable state. */
  lemma DurableSkipsConnect(trace: seq<Event>)
    ensures Durable([Connect] + trace) == Durable(trace)
  {
    assert ([Connect] + trace)[1..] == trace;
  }

  /** A well-formed transaction: BEGIN, plain statements, COMMIT. */
  predicate Transaction(stmts: seq<Stmt>)
  {
    && |stmts| >= 2
    && stmts[0] == Begin
    && stmts[|stmts| - 1] == Commit
    && forall i :: 0 < i < |stmts| - 1 ==> Plain(stmts[i])
  }

  /** A transaction that fails at `f` has not completed its COMMIT. */
  lemma NoCommitBeforeFailure(stmts: seq<Stmt>, f: nat)
    requires Transaction(stmts)
    requires f < |stmts|
    ensures Exec(Commit) !in Execs(stmts[..f]) + [ExecFailed(stmts[f])]
  {
    var events := Execs(stmts[..f]) + [ExecFailed(stmts[f])];
    forall i | 0 <= i < |events|
      ensures events[i] != Exec(Commit)
    {
      if i < f {
        assert events[i] == Exec(stmts[i]);
      }
    }
  }

  /** The events of a transaction whose every statement succeeded. */
  lemma ExecsOfTransaction(stmts: seq<Stmt>, after: seq<Event>)
    requires Transaction(stmts)
    ensures Execs(stmts) + after == [Exec(Begin)] + (Execs(stmts[1..|stmts| - 1]) + ([Exec(Commit)] + after))
  {
    var body := stmts[1..|stmts| - 1];
    var lhs := Execs(stmts) + after;
    var rhs := [Exec(Begin)] + (Execs(body) + ([Exec(Commit)] + after));
    assert |lhs| == |rhs|;
    forall i | 0 <= i < |lhs|
      ensures lhs[i] == rhs[i]
    {
      if i == 0 {
      } else if i < |stmts| - 1 {
        assert rhs[i] == Execs(body)[i - 1];
      } else if i == |stmts| - 1 {
      } else {
      }
    }
  }

  /** A transaction whose every statement succeeds makes exactly the
      statements between BEGIN and COMMIT durable. */
  lemma CommittedTransaction(stmts: seq<Stmt>, after: seq<Event>)
    requires Transaction(stmts)
    requires DurableFrom(after, Idle) == []
    ensures DurableFrom(Execs(stmts) + after, Idle) == stmts[1..|stmts| - 1]
  {
    var body := stmts[1..|stmts| - 1];
    var closing := [Exec(Commit)] + after;
    ExecsOfTransaction(stmts, after);
    assert forall i :: 0 <= i < |body| ==> body[i] == stmts[i + 1];
    DurableFromCons(Exec(Begin), Execs(body) + closing, Idle);
    DurableThroughOpen(body, closing, []);
    DurableFromCons(Exec(Commit), after, Open([] + body));
    assert [] + body == body;
  }

  /** A run whose every statement succeeded, between a connect and a
      release, position by position. */
  lemma CommittedRunTrace(db: Db, stmts: seq<Stmt>)
    requires Run(db, stmts, 0).failedAt.None?
    ensures var t := [Connect] + Run(db, stmts, 0).trace + [Release];
      && |t| == |stmts| + 2
      && t[0] == Connect
      && t[|t| - 1] == Release
      && forall i :: 0 <= i < |stmts| ==> t[i + 1] == Exec(stmts[i])
  {
    assert stmts[0..] == stmts;
  }

  /** A run between a connect and a closing sequence that releases once
      holds exactly one release. */
  lemma RunReleasedOnce(db: Db, stmts: seq<Stmt>, closing: seq<Event>)
    requires multiset(closing)[Release] == 1
    ensures multiset([Connect] + Run(db, stmts, 0).trace + closing)[Release] == 1
  {
    RunEventsAreStatements(db, stmts);
    var run := Run(db, stmts, 0);
    assert Release !in run.trace;
    assert multiset(run.trace)[Release] == 0;
    assert multiset([Connect] + run.trace + closing) == multiset([Connect]) + multiset(run.trace) + multiset(closing);
  }

  /** A transaction run on a borrowed client whose every statement
      succeeds, closed by a release, makes its body durable. */
  lemma RunCommits(db: Db, stmts: seq<Stmt>)
    requires Transaction(stmts)
    requires Run(db, stmts, 0).failedAt.None?
    ensures Durable([Connect] + Run(db, stmts, 0).trace + [Release]) == stmts[1..|stmts| - 1]
  {
    var trace := Run(db, stmts, 0).trace;
    assert stmts[0..] == stmts;
    assert trace == Execs(stmts);
    assert [Connect] + trace + [Release] == [Connect] + (Execs(stmts) + [Release]);
    DurableSkipsConnect(Execs(stmts) + [Release]);
    DurableFromCons(Release, [], Idle);
    assert [Release] == [Release] + [];
    CommittedTransaction(stmts, [Release]);
  }

  /** A transaction run that fails, closed by a ROLLBACK (succeeding or
      not) and a release, makes nothing durable. */
  lemma RunRollsBack(db: Db, stmts: seq<Stmt>, rollback: Event)
    requires Transaction(stmts)
    requires Run(db, stmts, 0).failedAt.Some?
    requires rollback == Exec(Rollback) || rollback == ExecFailed(Rollback)
    ensures Durable([Connect] + Run(db, stmts, 0).trace + [rollback, Release]) == []
  {
    var run := Run(db, stmts, 0);
    var f := run.failedAt.value;
    var after := Execs(stmts[..f]) + [ExecFailed(stmts[f]), rollback, Release];
    assert stmts[0..f] == stmts[..f];
    assert [Connect] + run.trace + [rollback, Release] == [Connect] + after;
    DurableSkipsConnect(after);
    FailedTransaction(stmts, f, rollback);
  }

  /** A plain statement alone on a borrowed client, then a release, is
      durable exactly when it succeeds. */
  lemma SingleStatement(s: Stmt)
    requires Plain(s)
    ensures Durable([Connect, Exec(s), Release]) == [s]
    ensures Durable([Connect, ExecFailed(s), Release]) == []
  {
    DurableFromCons(Release, [], Idle);
    assert [Release] == [Release] + [];
    DurableFromCons(Exec(s), [Release], Idle);
    DurableFromCons(ExecFailed(s), [Release], Idle);
    DurableFromCons(Connect, [Exec(s), Release], Idle);
    DurableFromCons(Connect, [ExecFailed(s), Release], Idle);
    assert [Connect, Exec(s), Release] == [Connect] + [Exec(s), Release];
    assert [Connect, ExecFailed(s), Release] == [Connect] + [ExecFailed(s), Release];
    assert [Exec(s), Release] == [Exec(s)] + [Release];
    assert [ExecFailed(s), Release] == [ExecFailed(s)] + [Release];
  }

  /** A transaction in which the statement at `f` fails (BEGIN, a plain
      statement or the COMMIT itself) and that then rolls back and releases
      makes nothing durable. */
  lemma FailedTransaction(stmts: seq<Stmt>, f: nat, rollback: Event)
    requires Transaction(stmts)
    requires f < |stmts|
    requires rollback == Exec(Rollback) || rollback == ExecFailed(Rollback)
    ensures DurableFrom(Execs(stmts[..f]) + [ExecFailed(stmts[f]), rollback, Release], Idle) == []
  {
    var tail := [ExecFailed(stmts[f]), rollback, Release];
    assert tail[1..] == [rollback, Release];
    if f == 0 {
      assert Execs(stmts[..f]) + tail == tail;
      RollbackThenReleaseDiscards(rollback, Idle);
    } else {
      var done := stmts[1..f];
      assert stmts[..f] == [Begin] + done;
      ExecsConcat([Begin], done, []);
      var trace := Execs(stmts[..f]) + tail;
      assert trace[0] == Exec(Begin);
      assert trace[1..] == Execs(done) + tail;
      DurableThroughOpen(done, tail, []);
      RollbackThenReleaseDiscards(rollback, Aborted);
      RollbackThenReleaseDiscards(rollback, Idle);
    }
  }
}
