/**
 The POST handler of the ingredients route: validate four required
 fields, borrow a client, run one INSERT and release the client.

 As written the handler releases the client only after a successful
 insert, and its INSERT text marks five placeholders for six bound
 values. `PostIngredient` models it as written; `PostIngredientCorrected`
 is the evidently intended handler (six placeholders, release on every
 path once connected).
 */
module IngredientsApi {
  import opened Lists
  import opened JsValues
  import opened Database

  datatype IngredientBody = IngredientBody(
    name: JsValue,
    price: JsValue,
    store: JsValue,
    measurementValue: JsValue,
    measurementType: JsValue,
    description: JsValue)

  /** The JSON body of a response: `message` on 201, `error` otherwise; a
      key the handler does not send reads as "". */
  datatype ResponseBody = ResponseBody(message: string, error: string)

  function BodyFor(status: int): (b: ResponseBody)
    ensures status == 201 <==> b.message != ""
    ensures status == 201 <==> b.error == ""
    ensures status == 400 <==> b.error == "Missing required fields"
  {
    if status == 201 then ResponseBody("Ingredient added successfully!", "")
    else if status == 400 then ResponseBody("", "Missing required fields")
    else ResponseBody("", "Internal Server Error")
  }

  /** Passes `!name || !price || !measurement_value || !measurement_type`;
      `store` and `description` are not looked at. */
  predicate ValidIngredientBody(b: IngredientBody)
  {
    Truthy(b.name) && Truthy(b.price) && Truthy(b.measurementValue) && Truthy(b.measurementType)
  }

  /** The `$n` markers in the handler's INSERT text. */
  const WrittenPlaceholders: nat := 5

  /** The INSERT with `placeholders` markers, binding the six columns. */
  function InsertFor(b: IngredientBody, placeholders: nat): (s: Stmt)
    ensures s.InsertIngredient? && s.placeholders == placeholders
    ensures s.params == [b.name, b.price, b.store, b.measurementValue, b.measurementType, b.description]
  {
    InsertIngredient(placeholders, [b.name, b.price, b.store, b.measurementValue, b.measurementType, b.description])
  }

  /** The handler as written. A body that does not parse is `None`. */
  function PostIngredient(request: Option<IngredientBody>, db: Db): (r: HandlerResult)
    ensures request.None? ==> r == HandlerResult(500, None, [])
    ensures request.Some? && !ValidIngredientBody(request.value) ==> r == HandlerResult(400, None, [])
    ensures request.Some? && ValidIngredientBody(request.value) && !db.connectOk ==>
      r == HandlerResult(500, None, [ConnectFailed])
    ensures r.status == 201 <==>
      request.Some? && ValidIngredientBody(request.value) && db.connectOk
      && Succeeds(db, 0, InsertFor(request.value, WrittenPlaceholders))
    ensures r.status == 201 ==>
      r.createdId == Some(db.newId) && r.trace == [Connect, Exec(InsertFor(request.value, WrittenPlaceholders)), Release]
    ensures request.Some? && ValidIngredientBody(request.value) && db.connectOk && r.status != 201 ==>
      r == HandlerResult(500, None, [Connect, ExecFailed(InsertFor(request.value, WrittenPlaceholders))])
  {
    if request.None? then HandlerResult(500, None, [])
    else
      var b := request.value;
      if !ValidIngredientBody(b) then HandlerResult(400, None, [])
      else if !db.connectOk then HandlerResult(500, None, [ConnectFailed])
      else
        var insert := InsertFor(b, WrittenPlaceholders);
        if Succeeds(db, 0, insert) then HandlerResult(201, Some(db.newId), [Connect, Exec(insert), Release])
        else HandlerResult(500, None, [Connect, ExecFailed(insert)])
  }

  /** A body that parses to a number, string, boolean or array destructures
      to absent fields, and is refused before any database work. */
  lemma NonObjectBodyRefused(db: Db)
    ensures PostIngredient(Some(IngredientBody(Undefined, Undefined, Undefined, Undefined, Undefined, Undefined)), db)
      == HandlerResult(400, None, [])
  {
  }

  /** A falsy required field is refused, so a price or measurement value
      of 0 answers 400; `store` and `description` never cause a 400. */
  lemma RequiredFieldsOnly(b: IngredientBody, db: Db)
    ensures PostIngredient(Some(b), db).status == 400 <==>
      !Truthy(b.name) || !Truthy(b.price) || !Truthy(b.measurementValue) || !Truthy(b.measurementType)
    ensures PostIngredient(Some(b.(price := Num(0.0))), db).status == 400
    ensures PostIngredient(Some(b.(measurementValue := Num(0.0))), db).status == 400
    ensures forall store, description ::
      PostIngredient(Some(b.(store := store, description := description)), db).status == 400 <==>
      PostIngredient(Some(b), db).status == 400
  {
  }

  /** As written, no request creates an ingredient: PostgreSQL refuses an
      INSERT binding six values to five placeholders. */
  lemma InsertNeverSucceedsAsWritten(request: Option<IngredientBody>, db: Db)
    ensures PostIngredient(request, db).status != 201
    ensures request.Some? && ValidIngredientBody(request.value) && db.connectOk ==>
      PostIngredient(request, db).trace ==
        [Connect, ExecFailed(InsertIngredient(5, [request.value.name, request.value.price, request.value.store,
          request.value.measurementValue, request.value.measurementType, request.value.description]))]
  {
  }

  /** As written, a failed insert answers 500 and never releases the
      client it borrowed. */
  lemma InsertFailureLeaksConnection(request: Option<IngredientBody>, db: Db)
    requires request.Some? && ValidIngredientBody(request.value) && db.connectOk
    ensures var r := PostIngredient(request, db);
      r.status == 500 && Connect in r.trace && Release !in r.trace
  {
    InsertNeverSucceedsAsWritten(request, db);
  }

  /** The evidently intended handler: one placeholder per bound value, and
      the client released in a `finally` once it has been borrowed. */
  function PostIngredientCorrected(request: Option<IngredientBody>, db: Db): (r: HandlerResult)
    ensures request.None? ==> r == HandlerResult(500, None, [])
    ensures request.Some? && !ValidIngredientBody(request.value) ==> r == HandlerResult(400, None, [])
    ensures request.Some? && ValidIngredientBody(request.value) && !db.connectOk ==>
      r == HandlerResult(500, None, [ConnectFailed])
  {
    if request.None? then HandlerResult(500, None, [])
    else
      var b := request.value;
      if !ValidIngredientBody(b) then HandlerResult(400, None, [])
      else if !db.connectOk then HandlerResult(500, None, [ConnectFailed])
      else
        var insert := InsertFor(b, 6);
        if Succeeds(db, 0, insert) then HandlerResult(201, Some(db.newId), [Connect, Exec(insert), Release])
        else HandlerResult(500, None, [Connect, ExecFailed(insert), Release])
  }

  /** Corrected, a valid request creates the ingredient exactly when the
      connect and the insert succeed, with trace connect, insert, release,
      and the row is durable. */
  lemma CorrectedCreatesWhenDbSucceeds(request: Option<IngredientBody>, db: Db)
    ensures var r := PostIngredientCorrected(request, db);
      r.status == 201 <==> request.Some? && ValidIngredientBody(request.value) && db.connectOk && 0 !in db.failing
    ensures var r := PostIngredientCorrected(request, db);
      r.status == 201 ==>
        && r.createdId == Some(db.newId)
        && r.trace == [Connect, Exec(InsertFor(request.value, 6)), Release]
        && Durable(r.trace) == [InsertFor(request.value, 6)]
  {
    if request.Some? {
      SingleStatement(InsertFor(request.value, 6));
    }
  }

  /** Corrected, every path that borrowed a client releases it exactly
      once, as its last event; a failed insert leaves nothing durable. */
  lemma CorrectedReleasesExactlyOnce(request: Option<IngredientBody>, db: Db)
    ensures var r := PostIngredientCorrected(request, db);
      Connect in r.trace ==> multiset(r.trace)[Release] == 1 && r.trace[|r.trace| - 1] == Release
    ensures var r := PostIngredientCorrected(request, db);
      Connect !in r.trace ==> Release !in r.trace
    ensures var r := PostIngredientCorrected(request, db);
      r.status != 201 ==> Durable(r.trace) == []
  {
    if request.Some? {
      SingleStatement(InsertFor(request.value, 6));
    }
  }
}
