/**
 The POST handler of the recipes route: validate the body, borrow a
 client, insert the recipe and its lines and back-fill the total inside
 one transaction, roll back on any failure, and release the client in a
 `finally`.
 */
module RecipesApi {
  import opened Lists
  import opened JsValues
  import opened Payloads
  import opened Database

  /** The `ingredients` field: an array of lines, or anything else. */
  datatype IngredientsField = Items(items: seq<RecipeItemPayload>) | NotArray(value: JsValue)

  datatype RecipeBody = RecipeBody(recipeName: JsValue, instructions: JsValue, ingredients: IngredientsField)

  /** Passes `!recipe_name || !instructions || !ingredients ||
      !Array.isArray(ingredients) || ingredients.length === 0`. */
  predicate ValidRecipeBody(b: RecipeBody)
  {
    && Truthy(b.recipeName)
    && Truthy(b.instructions)
    && b.ingredients.Items?
    && |b.ingredients.items| > 0
  }

  /** The stored total: the sum of the prices the caller sent. */
  function TotalCost(items: seq<RecipeItemPayload>): real
  {
    Sum(Map(items, PayloadPrice))
  }

  /** One insert per line, in input order, all under `recipeId`. */
  function ItemInserts(recipeId: int, items: seq<RecipeItemPayload>): (r: seq<Stmt>)
    ensures |r| == |items|
    ensures forall i :: 0 <= i < |items| ==> r[i] == InsertRecipeItem(recipeId, items[i])
  {
    seq(|items|, i requires 0 <= i < |items| => InsertRecipeItem(recipeId, items[i]))
  }

  /** The statements between BEGIN and COMMIT. */
  function TransactionBody(b: RecipeBody, recipeId: int, today: string): seq<Stmt>
    requires b.ingredients.Items?
  {
    [InsertRecipe(b.recipeName, b.instructions, today)]
    + ItemInserts(recipeId, b.ingredients.items)
    + [UpdateRecipeTotal(TotalCost(b.ingredients.items), recipeId)]
  }

  /** Every query awaited on the client, in order. */
  function TransactionStatements(b: RecipeBody, recipeId: int, today: string): seq<Stmt>
    requires b.ingredients.Items?
  {
    [Begin] + TransactionBody(b, recipeId, today) + [Commit]
  }

  /** The handler gets as far as holding a client. */
  predicate Connected(request: Option<RecipeBody>, db: Db)
  {
    request.Some? && ValidRecipeBody(request.value) && db.connectOk
  }

  /** The part of the handler after `pool.connect()` succeeded: the
      transaction, ROLLBACK on the first failure, release in `finally`. */
  function Transact(b: RecipeBody, db: Db, today: string): (r: HandlerResult)
    requires b.ingredients.Items?
    ensures r.status == 201 || r.status == 500
    ensures r.createdId.Some? <==> r.status == 201
    ensures |r.trace| >= 2 && r.trace[0] == Connect && r.trace[|r.trace| - 1] == Release
  {
    var run := Run(db, TransactionStatements(b, db.newId, today), 0);
    if run.failedAt.None? then
      HandlerResult(201, Some(db.newId), [Connect] + run.trace + [Release])
    else
      var rollback := Issue(db, run.failedAt.value + 1, Rollback);
      HandlerResult(500, None, [Connect] + run.trace + [rollback, Release])
  }

  /** The recipe id comes from the oracle (the row RETURNING gives back);
      `today` is the date stamp. A body that does not parse is `None`. */
  function PostRecipe(request: Option<RecipeBody>, db: Db, today: string): (r: HandlerResult)
    ensures request.None? ==> r == HandlerResult(500, None, [])
    ensures request.Some? && !ValidRecipeBody(request.value) ==> r == HandlerResult(400, None, [])
    ensures request.Some? && ValidRecipeBody(request.value) && !db.connectOk ==>
      r == HandlerResult(500, None, [ConnectFailed])
    ensures Connected(request, db) ==> r == Transact(request.value, db, today)
    ensures r.status == 201 || r.status == 400 || r.status == 500
    ensures r.createdId.Some? <==> r.status == 201
  {
    if request.None? then HandlerResult(500, None, [])
    else
      var b := request.value;
      if !ValidRecipeBody(b) then HandlerResult(400, None, [])
      else if !db.connectOk then HandlerResult(500, None, [ConnectFailed])
      else Transact(b, db, today)
  }

  /** A body that parses to a number, string, boolean or array destructures
      to absent fields, and is refused before any database work. */
  lemma NonObjectBodyRefused(db: Db, today: string)
    ensures PostRecipe(Some(RecipeBody(Undefined, Undefined, NotArray(Undefined))), db, today) == HandlerResult(400, None, [])
  {
  }

  /** Where BEGIN, COMMIT and the id- and total-carrying statements sit
      in the transaction. */
  lemma TransactionStatementsShape(b: RecipeBody, recipeId: int, today: string)
    requires b.ingredients.Items?
    ensures var stmts := TransactionStatements(b, recipeId, today);
      var items := b.ingredients.items;
      && Transaction(stmts)
      && |stmts| == |items| + 4
      && stmts[1] == InsertRecipe(b.recipeName, b.instructions, today)
      && (forall i :: 0 <= i < |items| ==> stmts[i + 2] == InsertRecipeItem(recipeId, items[i]))
      && stmts[|items| + 2] == UpdateRecipeTotal(TotalCost(items), recipeId)
      && stmts[1..|stmts| - 1] == TransactionBody(b, recipeId, today)
  {
  }

  /** Every statement that carries a recipe id carries `recipeId`, and the
      total update carries the sum of the supplied prices. */
  lemma TransactionStatementsIds(b: RecipeBody, recipeId: int, today: string)
    requires b.ingredients.Items?
    ensures var stmts := TransactionStatements(b, recipeId, today);
      forall s :: s in stmts ==>
        && (s.InsertRecipeItem? ==> s.recipeId == recipeId)
        && (s.UpdateRecipeTotal? ==> s.recipeId == recipeId && s.totalCost == TotalCost(b.ingredients.items))
  {
    var inserts := ItemInserts(recipeId, b.ingredients.items);
    assert forall s :: s in inserts ==> s.InsertRecipeItem? && s.recipeId == recipeId;
  }

  /** The trace of a handler that holds a client, in terms of the run. */
  lemma TransactRun(b: RecipeBody, db: Db, today: string)
    requires b.ingredients.Items?
    ensures var r := Transact(b, db, today);
      var run := Run(db, TransactionStatements(b, db.newId, today), 0);
      if run.failedAt.None? then
        r.status == 201 && r.createdId == Some(db.newId) && r.trace == [Connect] + run.trace + [Release]
      else
        r.status == 500 && r.trace == [Connect] + run.trace + [Issue(db, run.failedAt.value + 1, Rollback), Release]
  {
  }

  /** A handler that holds a client runs the transaction's queries in
      order. When all succeed it answers 201 with the returned id, between
      connect and release. When the query at `f` is the first to fail, the
      earlier ones completed, ROLLBACK is issued as query `f + 1`, the
      client is released, and it answers 500. */
  lemma TransactTrace(b: RecipeBody, db: Db, today: string)
    requires b.ingredients.Items?
    ensures var r := Transact(b, db, today);
      var stmts := TransactionStatements(b, db.newId, today);
      (forall j :: 0 <= j < |stmts| ==> Succeeds(db, j, stmts[j])) ==>
        && r.status == 201 && r.createdId == Some(db.newId)
        && r.trace == [Connect] + Execs(stmts) + [Release]
    ensures var r := Transact(b, db, today);
      var stmts := TransactionStatements(b, db.newId, today);
      forall f :: 0 <= f < |stmts| && !Succeeds(db, f, stmts[f]) && (forall j :: 0 <= j < f ==> Succeeds(db, j, stmts[j])) ==>
        && r.status == 500 && r.createdId == None
        && r.trace == [Connect] + Execs(stmts[..f]) + [ExecFailed(stmts[f]), Issue(db, f + 1, Rollback), Release]
  {
    var stmts := TransactionStatements(b, db.newId, today);
    var run := Run(db, stmts, 0);
    assert stmts[0..] == stmts;
    if run.failedAt.Some? {
      var g := run.failedAt.value;
      assert stmts[0..g] == stmts[..g];
      forall f | 0 <= f < |stmts| && !Succeeds(db, f, stmts[f]) && (forall j :: 0 <= j < f ==> Succeeds(db, j, stmts[j]))
        ensures f == g
      {
      }
    }
  }

  /** The recipe is created exactly when the handler connects and every
      query of the transaction succeeds. */
  lemma CreatedIffEveryQuerySucceeds(request: Option<RecipeBody>, db: Db, today: string)
    ensures var r := PostRecipe(request, db, today);
      r.status == 201 <==>
        && Connected(request, db)
        && var stmts := TransactionStatements(request.value, db.newId, today);
           forall j :: 0 <= j < |stmts| ==> Succeeds(db, j, stmts[j])
  {
    if Connected(request, db) {
      TransactRun(request.value, db, today);
    }
  }

  /** A created recipe's trace is exactly: connect, BEGIN, the recipe
      insert, one insert per line in input order, the total update,
      COMMIT, release; and the reply carries the returned id. */
  lemma CreatedTraceIsTheFullTransaction(request: Option<RecipeBody>, db: Db, today: string)
    ensures var r := PostRecipe(request, db, today);
      r.status == 201 ==>
        var b := request.value;
        var items := b.ingredients.items;
        && r.createdId == Some(db.newId)
        && |r.trace| == |items| + 6
        && r.trace[0] == Connect
        && r.trace[1] == Exec(Begin)
        && r.trace[2] == Exec(InsertRecipe(b.recipeName, b.instructions, today))
        && (forall i :: 0 <= i < |items| ==> r.trace[i + 3] == Exec(InsertRecipeItem(db.newId, items[i])))
        && r.trace[|items| + 3] == Exec(UpdateRecipeTotal(TotalCost(items), db.newId))
        && r.trace[|items| + 4] == Exec(Commit)
        && r.trace[|items| + 5] == Release
  {
    var r := PostRecipe(request, db, today);
    if r.status == 201 {
      var b := request.value;
      TransactRun(b, db, today);
      var stmts := TransactionStatements(b, db.newId, today);
      TransactionStatementsShape(b, db.newId, today);
      CommittedRunTrace(db, stmts);
    }
  }

  /** Every line insert and the total update use the id the recipe insert
      returned, and the stored total is the sum of the supplied prices. */
  lemma StatementsUseReturnedIdAndSuppliedTotal(request: Option<RecipeBody>, db: Db, today: string)
    ensures var r := PostRecipe(request, db, today);
      forall e :: e in r.trace && (e.Exec? || e.ExecFailed?) && e.stmt.InsertRecipeItem? ==>
        e.stmt.recipeId == db.newId
    ensures var r := PostRecipe(request, db, today);
      forall e :: e in r.trace && (e.Exec? || e.ExecFailed?) && e.stmt.UpdateRecipeTotal? ==>
        e.stmt.recipeId == db.newId && e.stmt.totalCost == TotalCost(request.value.ingredients.items)
  {
    if Connected(request, db) {
      var b := request.value;
      TransactRun(b, db, today);
      var stmts := TransactionStatements(b, db.newId, today);
      TransactionStatementsIds(b, db.newId, today);
      RunEventsAreStatements(db, stmts);
    }
  }

  /** A failed transaction issues ROLLBACK and has completed no COMMIT. */
  lemma TransactFailureRollsBack(b: RecipeBody, db: Db, today: string)
    requires b.ingredients.Items?
    ensures var r := Transact(b, db, today);
      r.status != 201 ==>
        && (Exec(Rollback) in r.trace || ExecFailed(Rollback) in r.trace)
        && Exec(Commit) !in r.trace
  {
    TransactRun(b, db, today);
    var stmts := TransactionStatements(b, db.newId, today);
    var run := Run(db, stmts, 0);
    if run.failedAt.Some? {
      var f := run.failedAt.value;
      TransactionStatementsShape(b, db.newId, today);
      assert stmts[0..f] == stmts[..f];
      NoCommitBeforeFailure(stmts, f);
    }
  }

  /** Once connected, any failure answers 500, issues ROLLBACK and never
      completes a COMMIT. */
  lemma FailureRollsBackAndNeverCommits(request: Option<RecipeBody>, db: Db, today: string)
    requires Connected(request, db)
    ensures var r := PostRecipe(request, db, today);
      r.status != 201 ==>
        && r.status == 500
        && (Exec(Rollback) in r.trace || ExecFailed(Rollback) in r.trace)
        && Exec(Commit) !in r.trace
  {
    TransactFailureRollsBack(request.value, db, today);
  }

  /** The transaction releases its client once, as the last event. */
  lemma TransactReleasesOnce(b: RecipeBody, db: Db, today: string)
    requires b.ingredients.Items?
    ensures multiset(Transact(b, db, today).trace)[Release] == 1
  {
    TransactRun(b, db, today);
    var stmts := TransactionStatements(b, db.newId, today);
    var run := Run(db, stmts, 0);
    if run.failedAt.None? {
      RunReleasedOnce(db, stmts, [Release]);
    } else {
      var rollback := Issue(db, run.failedAt.value + 1, Rollback);
      assert multiset([rollback, Release])[Release] == 1;
      RunReleasedOnce(db, stmts, [rollback, Release]);
    }
  }

  /** Once connected, the client is released exactly once, as the last
      event; otherwise there is no transaction and no release. */
  lemma ReleasedExactlyOnceLast(request: Option<RecipeBody>, db: Db, today: string)
    ensures var r := PostRecipe(request, db, today);
      Connected(request, db) ==>
        multiset(r.trace)[Release] == 1 && r.trace[|r.trace| - 1] == Release
    ensures var r := PostRecipe(request, db, today);
      !Connected(request, db) ==> Release !in r.trace && Exec(Begin) !in r.trace
  {
    if Connected(request, db) {
      TransactReleasesOnce(request.value, db, today);
    }
  }

  /** The transaction makes its body durable when it answers 201 and
      nothing otherwise. */
  lemma TransactIsAtomic(b: RecipeBody, db: Db, today: string)
    requires b.ingredients.Items?
    ensures var r := Transact(b, db, today);
      Durable(r.trace) == if r.status == 201 then TransactionBody(b, db.newId, today) else []
  {
    TransactRun(b, db, today);
    var stmts := TransactionStatements(b, db.newId, today);
    TransactionStatementsShape(b, db.newId, today);
    var run := Run(db, stmts, 0);
    if run.failedAt.None? {
      RunCommits(db, stmts);
    } else {
      RunRollsBack(db, stmts, Issue(db, run.failedAt.value + 1, Rollback));
    }
  }

  /** All or nothing: a created recipe leaves exactly the recipe row, one
      row per line and the total update durable; any other outcome leaves
      nothing. */
  lemma CreationIsAtomic(request: Option<RecipeBody>, db: Db, today: string)
    ensures var r := PostRecipe(request, db, today);
      Durable(r.trace) == if r.status == 201 then TransactionBody(request.value, db.newId, today) else []
  {
    if Connected(request, db) {
      TransactIsAtomic(request.value, db, today);
    }
  }
}
