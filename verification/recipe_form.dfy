/**
 The recipe page: composing a list of ingredient lines, each costed from
 the ingredient's bulk price, totalling them, and building the request
 body posted to the recipes route.
 */
module RecipeForm {
  import opened Lists
  import opened Payloads

  /** An ingredient row as loaded from the ingredients route. */
  datatype Ingredient = Ingredient(
    id: int,
    itemName: string,
    price: real,
    store: string,
    quantity: real,
    measurementType: string)

  /** One line of the recipe being composed. */
  datatype RecipeIngredient = RecipeIngredient(
    inventoryId: int,
    quantity: real,
    measurementType: string,
    price: real,
    name: string)

  /** The page's state. `current` is the selected ingredient id: null before
      any choice, otherwise `Number(value)` of the select element. */
  datatype RecipeDraft = RecipeDraft(
    recipeName: string,
    instructions: string,
    available: seq<Ingredient>,
    selected: seq<RecipeIngredient>,
    current: Option<int>,
    quantity: real,
    measurementType: string)

  /** `!currentIngredient`: null and 0 are both falsy. */
  predicate NoSelection(current: Option<int>)
  {
    current.None? || current.value == 0
  }

  function FindIngredient(available: seq<Ingredient>, id: int): (r: Option<Ingredient>)
    ensures r.Some? ==> r.value in available && r.value.id == id
    ensures r.Some? ==>
      exists i :: 0 <= i < |available| && available[i] == r.value && forall j :: 0 <= j < i ==> available[j].id != id
    ensures r.None? <==> forall ing :: ing in available ==> ing.id != id
  {
    Find(available, (ing: Ingredient) => ing.id == id)
  }

  /** The add button has an effect: a non-falsy id, a positive quantity and
      an available ingredient carrying that id. */
  predicate CanAdd(d: RecipeDraft)
  {
    && !NoSelection(d.current)
    && d.quantity > 0.0
    && exists ing :: ing in d.available && ing.id == d.current.value
  }

  /** When the add has an effect, the ingredient it costs the line from
      has a bulk quantity other than zero, so that its per-unit price is a
      number. */
  predicate CostableSelection(d: RecipeDraft)
  {
    CanAdd(d) ==> FindIngredient(d.available, d.current.value).value.quantity != 0.0
  }

  function AddIngredientToRecipe(d: RecipeDraft): (d': RecipeDraft)
    requires CostableSelection(d)
    ensures !CanAdd(d) ==> d' == d
    ensures CanAdd(d) ==>
      && |d'.selected| == |d.selected| + 1
      && d'.selected[..|d.selected|] == d.selected
      && d'.recipeName == d.recipeName
      && d'.instructions == d.instructions
      && d'.available == d.available
      && d'.current == None && d'.quantity == 1.0 && d'.measurementType == ""
    ensures CanAdd(d) ==>
      var ing := FindIngredient(d.available, d.current.value).value;
      var line := d'.selected[|d.selected|];
      && line.inventoryId == d.current.value
      && line.name == ing.itemName
      && line.quantity == d.quantity
      && line.measurementType == (if d.measurementType != "" then d.measurementType else ing.measurementType)
      && line.price * ing.quantity == ing.price * d.quantity
  {
    if NoSelection(d.current) || d.quantity <= 0.0 then d
    else
      var found := FindIngredient(d.available, d.current.value);
      if found.None? then d
      else
        var ing := found.value;
        var line := RecipeIngredient(
          ing.id,
          d.quantity,
          if d.measurementType != "" then d.measurementType else ing.measurementType,
          (ing.price / ing.quantity) * d.quantity,
          ing.itemName);
        d.(selected := d.selected + [line], current := None, quantity := 1.0, measurementType := "")
  }

  /** `splice(index, 1)` on a copy of the selected lines. */
  function RemoveIngredient(d: RecipeDraft, index: int): (d': RecipeDraft)
    ensures d'.(selected := d.selected) == d
    ensures 0 <= index < |d.selected| ==> d'.selected == d.selected[..index] + d.selected[index + 1..]
    ensures index >= |d.selected| ==> d'.selected == d.selected
    ensures index < 0 && |d.selected| + index < 0 && |d.selected| > 0 ==> d'.selected == d.selected[1..]
    ensures d.selected == [] ==> d'.selected == []
    ensures index < 0 && |d.selected| + index >= 0 ==>
      var k := |d.selected| + index;
      d'.selected == d.selected[..k] + d.selected[k + 1..]
  {
    d.(selected := SpliceOne(d.selected, index))
  }

  function LinePrice(line: RecipeIngredient): real
  {
    line.price
  }

  /** The recipe total before `toFixed(2)`. */
  function LinesTotal(lines: seq<RecipeIngredient>): real
  {
    Sum(Map(lines, LinePrice))
  }

  /** `calculateTotalCost`, accumulating as `reduce` does. */
  method CalculateTotalCost(lines: seq<RecipeIngredient>) returns (total: real)
    ensures total == LinesTotal(lines)
    ensures |lines| == 0 ==> total == 0.0
    ensures (forall i :: 0 <= i < |lines| ==> lines[i].price >= 0.0) ==> total >= 0.0
  {
    total := 0.0;
    var k := 0;
    while k < |lines|
      invariant 0 <= k <= |lines|
      invariant total == Sum(Map(lines, LinePrice)[..k])
    {
      assert Map(lines, LinePrice)[..k + 1] == Map(lines, LinePrice)[..k] + [lines[k].price];
      SumAppend(Map(lines, LinePrice)[..k], lines[k].price);
      total := total + lines[k].price;
      k := k + 1;
    }
    assert Map(lines, LinePrice)[..k] == Map(lines, LinePrice);
    if forall i :: 0 <= i < |lines| ==> lines[i].price >= 0.0 {
      SumNonNegative(Map(lines, LinePrice));
    }
  }

  /** A successful add raises the total by exactly the new line's cost. */
  lemma AddRaisesTotal(d: RecipeDraft)
    requires CostableSelection(d)
    requires CanAdd(d)
    ensures var d' := AddIngredientToRecipe(d);
      LinesTotal(d'.selected) == LinesTotal(d.selected) + d'.selected[|d.selected|].price
  {
    var d' := AddIngredientToRecipe(d);
    var line := d'.selected[|d.selected|];
    assert d'.selected == d.selected + [line];
    assert Map(d'.selected, LinePrice) == Map(d.selected, LinePrice) + [line.price];
    SumAppend(Map(d.selected, LinePrice), line.price);
  }

  /** Removing a valid line lowers the total by exactly that line's cost. */
  lemma RemoveLowersTotal(d: RecipeDraft, index: int)
    requires 0 <= index < |d.selected|
    ensures LinesTotal(RemoveIngredient(d, index).selected) == LinesTotal(d.selected) - d.selected[index].price
  {
    var s := d.selected;
    var ps := Map(s, LinePrice);
    assert Map(s[..index] + s[index + 1..], LinePrice) == ps[..index] + ps[index + 1..];
    SumRemove(ps, index);
  }

  /** The body of the POST issued by `handleSubmit`. */
  datatype RecipeData = RecipeData(
    recipeName: string,
    instructions: string,
    ingredients: seq<RecipeItemPayload>)

  function BuildRecipeData(d: RecipeDraft): (r: RecipeData)
    ensures r.recipeName == d.recipeName && r.instructions == d.instructions
    ensures |r.ingredients| == |d.selected|
    ensures forall i :: 0 <= i < |d.selected| ==>
      && r.ingredients[i].inventoryId == d.selected[i].inventoryId
      && r.ingredients[i].quantity == d.selected[i].quantity
      && r.ingredients[i].measurementType == d.selected[i].measurementType
      && r.ingredients[i].price == d.selected[i].price
  {
    RecipeData(
      d.recipeName,
      d.instructions,
      seq(|d.selected|, i requires 0 <= i < |d.selected| =>
        RecipeItemPayload(d.selected[i].inventoryId, d.selected[i].quantity, d.selected[i].measurementType, d.selected[i].price)))
  }

  /** The prices sent to the server add up to the total the page shows. */
  lemma {:induction false} PayloadTotalIsLinesTotal(d: RecipeDraft)
    ensures Sum(Map(BuildRecipeData(d).ingredients, PayloadPrice)) == LinesTotal(d.selected)
  {
    assert Map(BuildRecipeData(d).ingredients, PayloadPrice) == Map(d.selected, LinePrice);
  }

  /** After the POST: on an ok response name, instructions and lines are
      cleared; on an error the draft is kept. */
  function SubmitRecipe(d: RecipeDraft, responseOk: bool): (r: (RecipeData, RecipeDraft))
    ensures r.0 == BuildRecipeData(d)
    ensures responseOk ==> r.1 == d.(recipeName := "", instructions := "", selected := [])
    ensures !responseOk ==> r.1 == d
  {
    var data := BuildRecipeData(d);
    if responseOk then (data, d.(recipeName := "", instructions := "", selected := []))
    else (data, d)
  }
}
