# Cake calculator: a Dafny model of its costing, forms and write paths

Cake calculator is a small web application for costing bakery work. The
model covers five parts of it:

- **The recipe page.** A baker composes a recipe from ingredient lines. Each
  line is costed from the ingredient's bulk price and bulk quantity. The page
  shows the running total and posts the recipe to the recipes route.
- **The order page.** A baker builds an order from ingredients and recipes.
  The page quotes subtotal + labor cost + subtotal × profit margin and logs
  the order it would submit.
- **The recipes route (`POST`).** It validates the body and borrows a pooled
  database client. Inside one transaction it inserts the recipe, inserts one
  row per line under the returned recipe id, and back-fills the total. It
  rolls back on any failure and releases the client in a `finally`.
- **The ingredients route (`POST`).** It validates four required fields,
  borrows a client, runs one INSERT and releases the client.
- **The ingredient page.** Its form has a single-field change handler and a
  submit handler guarded by the "Select measurement" placeholder. It renders
  a quantity with a readable unit label.

Money and quantities are `real`, and every total is stated before the page
rounds it for display. The handlers are pure functions from the old state to
the new one.

The database is a fault-injecting oracle with three parts:

- whether `pool.connect()` succeeds;
- which queries on the borrowed client fail, by ordinal;
- the id an insert returns.

PostgreSQL also refuses a statement whose bound values do not match its `$n`
placeholders, and the oracle applies that rule.

A route handler yields a status, the created id and a trace of events:
connect, each statement executed or failed, and release. `Database.Durable`
is an independent account of PostgreSQL's transaction rules. It says which
statements a trace makes durable, and the atomicity lemmas are stated against
it.

Modules, one per file: `Lists` (the array methods the pages use), `JsValues`
(parsed JSON scalars and truthiness), `Payloads`, `RecipeForm`, `OrderForm`,
`IngredientForm`, `Database`, `RecipesApi`, `IngredientsApi`, and `EndToEnd`
(the pages and the routes together).

Three facts about the ingredients route that the model follows:

- It has no duplicate-name check and never answers 409.
- It releases the client only after a successful insert (see "## Findings").
- Its 201 body is `{ingredient_id, name, message}`. The model keeps only the
  `message` and `error` keys, which are what the ingredient page reads.

## Model

| member | source | states |
|---|---|---|
| Lists.Find | app/recipes/page.tsx:65 | `find` yields the first element of the list that satisfies the predicate, and yields nothing exactly when no element does |
| Lists.SpliceOne | app/recipes/page.tsx:86-87 | `splice(start, 1)` on a copy removes position `start`; a negative start counts from the end, and a start at or beyond the length removes nothing |
| Lists.WithoutIndex | app/orders/page.tsx:272 | `filter((_, i) => i !== index)` drops exactly position `index` when it is valid and otherwise returns the list unchanged |
| Lists.SpliceAgreesWithFilter | app/recipes/page.tsx:87 | for a valid index, the two pages' removals agree: both drop that one element, keep the rest in order and shorten the list by one |
| Lists.RemovalDropsOneOccurrence | app/orders/page.tsx:272 | removal by index is a permutation of the rest: the multiset loses exactly one copy of the removed element |
| Lists.SpliceAndFilterDifferOnMinusOne | app/recipes/page.tsx:87 | on index -1 the two removals differ: `splice` drops the last element, `filter` keeps every element |
| Lists.SumRemove | app/recipes/page.tsx:93 | the `reduce` sum of a list without position i is the full sum minus the element at i |
| Lists.SumNonNegative | app/orders/page.tsx:131 | a sum of non-negative prices is non-negative |
| JsValues.Truthy | app/api/recipes/route.ts:17 | the definition of JavaScript truthiness that the `!field` checks use; `JsValues.FalsyValues` states which values fail it |
| JsValues.FalsyValues | app/api/recipes/route.ts:17 | a JSON value fails a `!field` check exactly when it is undefined, null, false, 0 or "" |
| RecipeForm.FindIngredient | app/recipes/page.tsx:65 | the ingredient found is the first available one carrying the selected id; nothing is found exactly when no available ingredient has that id |
| RecipeForm.AddIngredientToRecipe | app/recipes/page.tsx:62-82 | no effect for a falsy id, a quantity <= 0 or an unknown id. Otherwise exactly one line is appended and earlier lines are unchanged. The line's cost times the bulk quantity equals the bulk price times the chosen quantity. The unit is the chosen one if non-empty, else the ingredient's. The selection resets to null, 1 and "" |
| RecipeForm.RemoveIngredient | app/recipes/page.tsx:85-89 | a valid index drops exactly that line and keeps the others in order; a too-large index changes nothing; a negative index counts from the end, and one below minus the length removes the first line; an empty list stays empty for every index; nothing else in the draft changes |
| RecipeForm.LinesTotal | app/recipes/page.tsx:93 | the definition of the recipe total as the sum of the line prices; `RecipeForm.CalculateTotalCost`, `AddRaisesTotal` and `RemoveLowersTotal` state its properties |
| RecipeForm.CalculateTotalCost | app/recipes/page.tsx:92-94 | the left fold of the line prices equals their sum, is 0 for no lines and is non-negative when every price is |
| RecipeForm.AddRaisesTotal | app/recipes/page.tsx:68-76 | a successful add raises the total by exactly the new line's cost |
| RecipeForm.RemoveLowersTotal | app/recipes/page.tsx:85-93 | removing a valid line lowers the total by exactly that line's cost |
| RecipeForm.BuildRecipeData | app/recipes/page.tsx:101-110 | the posted body has the draft's name and instructions, and one element per line in order, copying inventory id, quantity, unit and price |
| RecipeForm.PayloadTotalIsLinesTotal | app/recipes/page.tsx:92-110 | the prices posted add up to the total the page shows |
| RecipeForm.SubmitRecipe | app/recipes/page.tsx:97-142 | the posted body is the draft's; an ok response clears name, instructions and lines and keeps the rest; an error keeps the draft |
| OrderForm.InitialDraft | app/orders/page.tsx:37-53 | an order starts with an empty name and notes, today's date, the loaded catalogue, no lines, labor cost 0, margin 0.4, type ingredient, no selection and quantity 1 |
| OrderForm.FindSelectable | app/orders/page.tsx:111-116 | the catalogue entry is the first with the id in the ingredient list priced at the ingredient's price, or from the recipe list priced at the recipe's total cost, per the selected type; none exactly when that list lacks the id |
| OrderForm.AddItemToOrder | app/orders/page.tsx:109-129 | no effect for a falsy id, a quantity <= 0 or an unknown id. Otherwise one item is appended after the unchanged earlier items. Its price is unit price × quantity, and its unit price and name are those of the first catalogue entry with the id, as `FindSelectable` gives it. The selection resets |
| OrderForm.RemoveOrderItem | app/orders/page.tsx:272 | a valid index drops exactly that item and keeps the rest in order; any other index changes nothing; nothing else in the draft changes |
| OrderForm.TotalWithLaborAndProfit | app/orders/page.tsx:132-135 | the quote less the labor cost is the subtotal marked up by the margin |
| OrderForm.EmptyOrderQuotesLabor | app/orders/page.tsx:131-134 | an empty order has subtotal 0 and is quoted at its labor cost |
| OrderForm.DefaultsQuoteFortyPercentMarkup | app/orders/page.tsx:42-43 | with the initial labor cost and margin the quote is 1.4 × subtotal |
| OrderForm.WorkedQuote | app/orders/page.tsx:132-135 | subtotal 100, labor 20 and margin 0.4 quote 160 |
| OrderForm.AddRaisesQuote | app/orders/page.tsx:109-134 | adding an item raises the subtotal by its price and the quote by its price × (1 + margin) |
| OrderForm.Subtotal | app/orders/page.tsx:131 | the definition of the order subtotal as the sum of the item prices; `OrderForm.AddRaisesQuote`, `RemoveLowersSubtotal` and `QuoteCoversCost` state its properties |
| OrderForm.RemoveLowersSubtotal | app/orders/page.tsx:131 | removing a valid item lowers the subtotal by exactly its price |
| OrderForm.QuoteCoversCost | app/orders/page.tsx:131-134 | with non-negative prices and margin the subtotal is non-negative and the quote is at least subtotal plus labor |
| OrderForm.BuildOrderData | app/orders/page.tsx:139-152 | the logged order copies name, date, notes, labor and margin; one item per line in order, copying id, type, quantity and price; its total reconciles with subtotal, labor and margin |
| OrderForm.OrderDataReconciles | app/orders/page.tsx:139-152 | the logged total is recomputable from the logged item prices, labor cost and margin alone |
| Database.Run | app/api/recipes/route.ts:26-54 | awaiting the statements in order runs all of them exactly when every one succeeds. Otherwise the run stops at the first failure, after executing the ones before it |
| Database.RunEventsAreStatements | app/api/recipes/route.ts:26-54 | every event of a run is the outcome of one of its statements |
| Database.NoCommitBeforeFailure | app/api/recipes/route.ts:54 | a transaction that fails at any point has not completed its COMMIT |
| Database.CommittedTransaction | app/api/recipes/route.ts:26-54 | BEGIN, plain statements and COMMIT, all succeeding, make exactly the plain statements durable |
| Database.FailedTransaction | app/api/recipes/route.ts:66-69 | a transaction that fails at any statement, then issues ROLLBACK (succeeding or not) and releases, makes nothing durable |
| Database.RunReleasedOnce | app/api/recipes/route.ts:70-73 | a run between a connect and a closing that releases once holds exactly one release |
| RecipesApi.ItemInserts | app/api/recipes/route.ts:38-42 | one insert per line, in input order, each under the recipe id |
| RecipesApi.Transact | app/api/recipes/route.ts:24-73 | once connected, the answer is 201 with an id or 500 without one; the trace starts with the connect and ends with the release |
| RecipesApi.ValidRecipeBody | app/api/recipes/route.ts:17 | the definition of the route's validation: truthy name and instructions and a non-empty array of lines; `EndToEnd.RouteRefusesIncompleteDraft` and `RecipesApi.NonObjectBodyRefused` state what it refuses |
| RecipesApi.TotalCost | app/api/recipes/route.ts:45 | the definition of the stored total as the sum of the supplied prices; `RecipesApi.StatementsUseReturnedIdAndSuppliedTotal` and `EndToEnd.StoredTotalIsPageTotal` state its properties |
| RecipesApi.PostRecipe | app/api/recipes/route.ts:5-79 | an unparsable body answers 500 and an invalid one 400, both with no database event. A failed connect answers 500 with no transaction. Otherwise the answer is the transaction's. Only 201 carries an id |
| RecipesApi.NonObjectBodyRefused | app/api/recipes/route.ts:10-19 | a body parsing to a number, string, boolean or array has only absent fields and answers 400 with no database event |
| RecipesApi.TransactionStatementsShape | app/api/recipes/route.ts:26-54 | the statements are BEGIN, the recipe insert, the line inserts in order, the total update, COMMIT |
| RecipesApi.TransactionStatementsIds | app/api/recipes/route.ts:35-51 | every line insert and the update carry the recipe id, and the update carries the sum of the supplied prices |
| RecipesApi.TransactTrace | app/api/recipes/route.ts:24-73 | when every query succeeds: 201 with the returned id, and connect, every query, release. When query f is the first to fail: 500, and connect, the queries before f, the failed query f, ROLLBACK as query f + 1, release |
| RecipesApi.CreatedIffEveryQuerySucceeds | app/api/recipes/route.ts:22-65 | the route answers 201 exactly when the body is valid, the connect succeeds and every query of the transaction succeeds |
| RecipesApi.CreatedTraceIsTheFullTransaction | app/api/recipes/route.ts:22-65 | a 201 carries the returned id. Its trace is, position by position: connect, BEGIN, the recipe insert, one insert per line in order, the total update, COMMIT, release |
| RecipesApi.StatementsUseReturnedIdAndSuppliedTotal | app/api/recipes/route.ts:35-51 | every line insert and the update issued use the id the recipe insert returned; the stored total is the sum of the caller's prices |
| RecipesApi.TransactFailureRollsBack | app/api/recipes/route.ts:66-69 | a failed transaction issues ROLLBACK and completes no COMMIT |
| RecipesApi.FailureRollsBackAndNeverCommits | app/api/recipes/route.ts:66-77 | once connected, any failure answers 500, issues ROLLBACK and completes no COMMIT |
| RecipesApi.TransactReleasesOnce | app/api/recipes/route.ts:70-73 | the transaction releases its client exactly once |
| RecipesApi.ReleasedExactlyOnceLast | app/api/recipes/route.ts:17-73 | once connected, the client is released exactly once, as the last event; otherwise no release and no BEGIN |
| RecipesApi.TransactIsAtomic | app/api/recipes/route.ts:24-73 | the transaction leaves its recipe, line and total statements durable when it answers 201 and nothing otherwise |
| RecipesApi.CreationIsAtomic | app/api/recipes/route.ts:5-79 | every request leaves all of its rows durable when it answers 201 and nothing on any other answer |
| IngredientsApi.BodyFor | app/api/ingredients/route.ts:20-48 | a 201 carries a message and no error, a 400 the error "Missing required fields", any other answer an error |
| IngredientsApi.InsertFor | app/api/ingredients/route.ts:28-30 | the insert binds the six columns in order, with the given number of placeholders |
| IngredientsApi.PostIngredient | app/api/ingredients/route.ts:5-50 | as written: 500 for an unparsable body and 400 for a falsy required field, both with no database event. A failed connect answers 500. It answers 201 exactly when the insert succeeds, with trace connect, insert, release. A failed insert answers 500 with trace connect, failed insert and no release |
| IngredientsApi.NonObjectBodyRefused | app/api/ingredients/route.ts:10-22 | a body parsing to a number, string, boolean or array has only absent fields and answers 400 with no database event |
| IngredientsApi.ValidIngredientBody | app/api/ingredients/route.ts:20 | the definition of the route's validation: truthy name, price, measurement value and measurement type; `IngredientsApi.RequiredFieldsOnly` states its property |
| IngredientsApi.RequiredFieldsOnly | app/api/ingredients/route.ts:20-22 | 400 exactly when name, price, measurement value or measurement type is falsy, so a price or measurement value of 0 is refused; store and description never affect it |
| IngredientsApi.InsertNeverSucceedsAsWritten | app/api/ingredients/route.ts:28-30 | as written, no request answers 201: the INSERT binds six values to five placeholders |
| IngredientsApi.InsertFailureLeaksConnection | app/api/ingredients/route.ts:25-48 | as written, a valid request on a working pool answers 500 having borrowed a client it never releases |
| IngredientsApi.PostIngredientCorrected | app/api/ingredients/route.ts:5-50 | the intended handler answers an unparsable, an invalid and an unconnectable request as written |
| IngredientsApi.CorrectedCreatesWhenDbSucceeds | app/api/ingredients/route.ts:25-43 | corrected, a valid request answers 201 exactly when the connect and the insert succeed; it carries the new id, its trace is connect, insert, release, and the row is durable |
| IngredientsApi.CorrectedReleasesExactlyOnce | app/api/ingredients/route.ts:25-48 | corrected, every path that borrowed a client releases it exactly once, last; no other path releases; a failure leaves nothing durable |
| IngredientForm.HandleChange | app/ingredients/page.tsx:57-63 | the named field takes the new value and every other field is unchanged |
| IngredientForm.LastChangeWins | app/ingredients/page.tsx:57-63 | two changes to one field leave only the second |
| IngredientForm.ChangesCommute | app/ingredients/page.tsx:57-63 | changes to different fields commute |
| IngredientForm.ChangeToSameIsIdentity | app/ingredients/page.tsx:57-63 | re-entering a field's current text changes nothing |
| IngredientForm.RequestFrom | app/ingredients/page.tsx:83-90 | the request copies each of the six fields |
| IngredientForm.SubmitIngredient | app/ingredients/page.tsx:65-124 | a request is sent exactly when the measurement type is not the placeholder; otherwise the form is kept with the error "Please select a measurement type". Success resets the text fields to "" and the select to its placeholder, with the route's message or a default. A refused response or a thrown error keeps the form and shows the error, or a default. Submitting always ends |
| IngredientForm.SubmitAlwaysReports | app/ingredients/page.tsx:104-121 | every submit ends with a non-empty message |
| IngredientForm.ResetForm | app/ingredients/page.tsx:96-103 | the definition of the form after a success: every text field "" and the select on its placeholder; `IngredientForm.SubmitIngredient` and `ResetFormIsGuarded` state its use |
| IngredientForm.ResetFormIsGuarded | app/ingredients/page.tsx:69-103 | after a success the text fields are "" and the select shows the placeholder, so an immediate resubmit sends nothing |
| IngredientForm.MeasurementLabels | app/ingredients/page.tsx:127-142 | the definition of the fourteen unit codes and their labels; `IngredientForm.LabelPassesThroughExactlyUnknown` and `LabelsDistinguishCodes` state its properties |
| IngredientForm.Label | app/ingredients/page.tsx:127-144 | each of the fourteen codes shows its fixed label and any other code shows itself |
| IngredientForm.LabelPassesThroughExactlyUnknown | app/ingredients/page.tsx:127-144 | a code shows as itself exactly when it is not one of the fourteen |
| IngredientForm.LabelsDistinguishCodes | app/ingredients/page.tsx:127-142 | distinct known codes show distinct labels |
| IngredientForm.FormatMeasurement | app/ingredients/page.tsx:145 | the text is the quantity, one space and the label |
| IngredientForm.FormatThenParse | app/ingredients/page.tsx:126-146 | for a quantity without spaces, splitting the text at its first space gives back the quantity and the label |
| EndToEnd.RecipeRequest | app/recipes/page.tsx:101-119 | the route receives the draft's name and instructions as strings and the page's payload as the ingredients array |
| EndToEnd.RouteRefusesIncompleteDraft | app/api/recipes/route.ts:17-19 | a draft the page posts is refused with 400 exactly when its name or instructions are empty or it has no lines |
| EndToEnd.StoredTotalIsPageTotal | app/api/recipes/route.ts:45-51 | the total the route stores is the total the recipe page showed |
| EndToEnd.Answer | app/ingredients/page.tsx:93-113 | the page sees `ok` for a 2xx answer and an error key on every answer but 201 |
| EndToEnd.IngredientRequestBody | app/ingredients/page.tsx:83-90 | the route sees name, store, measurement type and description as the form's strings and the two parsed numbers as given |
| EndToEnd.UntouchedSelectReachesTheRoute | app/ingredients/page.tsx:18-25 | the form starts with an empty measurement type, not the placeholder. A submit before touching the select is therefore sent, refused with 400, and shown as the error "Missing required fields" |
| EndToEnd.ValidSubmissionShowsServerError | app/api/ingredients/route.ts:28-48 | as written, every submission that passes the route's checks ends with the page showing "Internal Server Error" and keeping the form |
| EndToEnd.CorrectedSubmissionSucceeds | app/ingredients/page.tsx:95-108 | with the corrected route and a database that accepts it, a valid submission shows the success message and resets the form |

## Left out

- RecipeForm.AddIngredientToRecipe: requires that, when the add has an effect, the ingredient it finds has a bulk quantity other than 0. The page divides by that quantity, and JavaScript's Infinity and NaN are not modelled. The line cost is stated as cost × bulk quantity = bulk price × quantity.
- OrderForm.BuildOrderData: `total_price` is stated before `toFixed(2)` and `parseFloat`, because rounding of binary floating point is not modelled. The same holds for every displayed total.
- `toFixed`, `parseFloat`, `formatPrice` and NaN: all money is exact `real` arithmetic. The two numbers the ingredient page parses are parameters of `EndToEnd.IngredientRequestBody`.
- `Number(...)` coercions: the recipes route sums `Number(ingredient.price)`. The model types each array element as the page builds it, so the coercion is the identity. Non-numeric prices and a non-object array element are not modelled.
- IngredientForm.FormatMeasurement: the quantity is taken as text already rendered; JavaScript's number-to-string conversion is not modelled.
- IngredientForm.Label: the label map is a plain map. Keys inherited from `Object.prototype` (such as "constructor") are not modelled.
- IngredientForm.HandleChange: only the six named inputs are modelled. A change event from an element with another `name` would add a key to the form object.
- IngredientForm.SubmitIngredient: the `message` and `error` keys of a response body are strings ("" when absent). A non-string value there is not modelled. The intermediate "submitting" status and the refresh of the ingredient list after a success are not modelled.
- RecipesApi.PostRecipe and IngredientsApi.PostIngredient: only a body that fails to parse, or that parses to `null` (destructuring it throws), is `None` and answers 500. A number, string, boolean or array body destructures to absent fields; it is `Some` of a body whose fields are all `Undefined`, and it answers 400. Which of these `request.json()` produces is not modelled.
- A failing ROLLBACK replaces the error that caused it, which only changes what is logged; the status, trace and release are modelled.
- db.ts is not part of this model: pool construction, its configuration and `process.exit` on a pool error are I/O plumbing.
- The `GET` loading of ingredients and recipes, the mock catalogue of the order page, React state hooks, rendering and the 15-second reset timer are not modelled. Nor are the current date and `toISOString`, which become the `today` parameter.
- Order page recipes: their ingredient lists play no part in pricing and are not carried.

## Findings

| source | as written | input that shows it | evidently intended | confidence | as-written member | corrected member |
|---|---|---|---|---|---|---|
| app/api/ingredients/route.ts:28-30 | the INSERT text marks five placeholders (`$1`…`$5`) for six columns and six bound values, which PostgreSQL refuses | any valid body, e.g. name "Flour", price 3, measurement value 5, measurement type "lb", on a working pool | six placeholders, so a valid request against a working database creates the ingredient (201) | not executed | IngredientsApi.InsertNeverSucceedsAsWritten | IngredientsApi.CorrectedCreatesWhenDbSucceeds |
| app/api/ingredients/route.ts:25-48 | `client.release()` runs only after a successful insert; a failed insert jumps to the catch and never releases the borrowed client | the same valid body: its insert fails (see the row above), so every such request leaks a pooled client | release in a `finally` once connected, as the recipes route does | not executed | IngredientsApi.InsertFailureLeaksConnection | IngredientsApi.CorrectedReleasesExactlyOnce |
