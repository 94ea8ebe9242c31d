/**
 The pages and the routes together: what the recipe page posts is what
 the recipes route stores, and what the ingredient page shows for each
 answer of the ingredients route.
 */
module EndToEnd {
  import opened Lists
  import opened JsValues
  import opened Payloads
  import opened Database
  import RecipeForm
  import RecipesApi
  import IngredientForm
  import IngredientsApi

  /** The body the recipe page posts, as the route parses it. */
  function RecipeRequest(d: RecipeForm.RecipeDraft): (b: RecipesApi.RecipeBody)
    ensures b.recipeName == Str(d.recipeName) && b.instructions == Str(d.instructions)
    ensures b.ingredients == RecipesApi.Items(RecipeForm.BuildRecipeData(d).ingredients)
  {
    var data := RecipeForm.BuildRecipeData(d);
    RecipesApi.RecipeBody(Str(data.recipeName), Str(data.instructions), RecipesApi.Items(data.ingredients))
  }

  /** The page checks nothing before posting; the route refuses a recipe
      with an empty name, empty instructions or no lines. */
  lemma RouteRefusesIncompleteDraft(d: RecipeForm.RecipeDraft, db: Db, today: string)
    ensures RecipesApi.PostRecipe(Some(RecipeRequest(d)), db, today).status == 400 <==>
      d.recipeName == "" || d.instructions == "" || d.selected == []
  {
  }

  /** The total the route stores is the total the page showed. */
  lemma StoredTotalIsPageTotal(d: RecipeForm.RecipeDraft, db: Db, today: string)
    ensures var r := RecipesApi.PostRecipe(Some(RecipeRequest(d)), db, today);
      forall e :: e in r.trace && (e.Exec? || e.ExecFailed?) && e.stmt.UpdateRecipeTotal? ==>
        e.stmt.totalCost == RecipeForm.LinesTotal(d.selected)
  {
    var request := Some(RecipeRequest(d));
    RecipesApi.StatementsUseReturnedIdAndSuppliedTotal(request, db, today);
    RecipeForm.PayloadTotalIsLinesTotal(d);
  }

  /** `response.ok`: a status in the 200 range. */
  predicate ResponseOk(status: int)
  {
    200 <= status < 300
  }

  /** What the page sees of a route answer. */
  function Answer(status: int): (outcome: IngredientForm.FetchOutcome)
    ensures outcome.Responded? && (outcome.ok <==> ResponseOk(status))
    ensures outcome.error == "" <==> status == 201
  {
    var body := IngredientsApi.BodyFor(status);
    IngredientForm.Responded(ResponseOk(status), body.message, body.error)
  }

  /** The route's view of a request the page sends; `price` and
      `measurementValue` are what `parseFloat` made of the two fields. */
  function IngredientRequestBody(req: IngredientForm.IngredientRequest, price: JsValue, measurementValue: JsValue): (b: IngredientsApi.IngredientBody)
    ensures b.name == Str(req.name) && b.measurementType == Str(req.measurementType)
    ensures b.price == price && b.measurementValue == measurementValue
    ensures b.store == Str(req.store) && b.description == Str(req.description)
  {
    IngredientsApi.IngredientBody(Str(req.name), price, Str(req.store), measurementValue,
      Str(req.measurementType), Str(req.description))
  }

  /** The page starts with an empty measurement type rather than the
      "Select measurement" text, so a submit before touching the select
      is sent, the route refuses it, and the page shows the route's
      message as an error. */
  lemma UntouchedSelectReachesTheRoute(f: IngredientForm.FormData, price: JsValue, measurementValue: JsValue, db: Db)
    requires f.measurementType == IngredientForm.InitialForm.measurementType
    ensures var s := IngredientForm.SubmitIngredient(f, Answer(400));
      && s.sent.Some?
      && IngredientsApi.PostIngredient(Some(IngredientRequestBody(s.sent.value, price, measurementValue)), db).status == 400
      && s.status == IngredientForm.Status(false, "Missing required fields", true)
      && s.form == f
  {
  }

  /** As written, every request the page sends that passes the route's
      checks ends with the page showing "Internal Server Error", and the
      form is kept. */
  lemma ValidSubmissionShowsServerError(f: IngredientForm.FormData, price: JsValue, measurementValue: JsValue, db: Db)
    requires f.measurementType != IngredientForm.SelectMeasurement
    requires var req := IngredientForm.RequestFrom(f);
      IngredientsApi.ValidIngredientBody(IngredientRequestBody(req, price, measurementValue))
    ensures var req := IngredientForm.RequestFrom(f);
      var r := IngredientsApi.PostIngredient(Some(IngredientRequestBody(req, price, measurementValue)), db);
      var s := IngredientForm.SubmitIngredient(f, Answer(r.status));
      && r.status == 500
      && s.status == IngredientForm.Status(false, "Internal Server Error", true)
      && s.form == f
  {
    var req := IngredientForm.RequestFrom(f);
    IngredientsApi.InsertNeverSucceedsAsWritten(Some(IngredientRequestBody(req, price, measurementValue)), db);
  }

  /** With the corrected route, a valid request against a database that
      accepts it shows the success message and resets the form. */
  lemma CorrectedSubmissionSucceeds(f: IngredientForm.FormData, price: JsValue, measurementValue: JsValue, db: Db)
    requires f.measurementType != IngredientForm.SelectMeasurement
    requires var req := IngredientForm.RequestFrom(f);
      IngredientsApi.ValidIngredientBody(IngredientRequestBody(req, price, measurementValue))
    requires db.connectOk && 0 !in db.failing
    ensures var req := IngredientForm.RequestFrom(f);
      var r := IngredientsApi.PostIngredientCorrected(Some(IngredientRequestBody(req, price, measurementValue)), db);
      var s := IngredientForm.SubmitIngredient(f, Answer(r.status));
      && r.status == 201
      && s.status == IngredientForm.Status(false, "Ingredient added successfully!", false)
      && s.form == IngredientForm.ResetForm
  {
    var req := IngredientForm.RequestFrom(f);
    IngredientsApi.CorrectedCreatesWhenDbSucceeds(Some(IngredientRequestBody(req, price, measurementValue)), db);
  }
}
