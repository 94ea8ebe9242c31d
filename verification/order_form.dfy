/**
 The order page: order lines drawn from ingredients or recipes, their
 subtotal, and the quoted total with labor cost and profit margin.
 */
module OrderForm {
  import opened Lists

  /** An ingredient as the order page lists it. */
  datatype OrderIngredient = OrderIngredient(
    id: int,
    name: string,
    price: real,
    store: string,
    measurementValue: real,
    measurementType: string)

  /** A recipe as the order page lists it; its ingredient list plays no
      part in pricing and is not carried. */
  datatype Recipe = Recipe(id: int, name: string, totalCost: real)

  datatype ItemType = RecipeType | IngredientType

  datatype OrderItem = OrderItem(
    id: int,
    name: string,
    itemType: ItemType,
    quantity: real,
    price: real,
    unitPrice: real)

  datatype OrderDraft = OrderDraft(
    orderName: string,
    orderDate: string,
    notes: string,
    laborCost: real,
    profitMargin: real,
    ingredients: seq<OrderIngredient>,
    recipes: seq<Recipe>,
    items: seq<OrderItem>,
    selectedType: ItemType,
    selectedItemId: Option<int>,
    selectedQuantity: real)

  const DefaultLaborCost: real := 0.0
  const DefaultProfitMargin: real := 0.4

  /** The state the page starts in, on date `today`. */
  function InitialDraft(today: string, ingredients: seq<OrderIngredient>, recipes: seq<Recipe>): (d: OrderDraft)
    ensures d.orderName == "" && d.orderDate == today && d.notes == ""
    ensures d.ingredients == ingredients && d.recipes == recipes
    ensures d.items == [] && d.laborCost == 0.0 && d.profitMargin == 0.4
    ensures d.selectedType == IngredientType && d.selectedItemId == None && d.selectedQuantity == 1.0
  {
    OrderDraft("", today, "", DefaultLaborCost, DefaultProfitMargin, ingredients, recipes, [],
      IngredientType, None, 1.0)
  }

  /** The catalogue entry an order line would be made from. */
  datatype Selectable = Selectable(id: int, name: string, unitPrice: real)

  /** The `find` over the list matching the selected type; the unit price is
      the ingredient's price or the recipe's total cost. */
  function FindSelectable(d: OrderDraft, id: int): (r: Option<Selectable>)
    ensures d.selectedType == IngredientType ==>
      (r.None? <==> forall ing :: ing in d.ingredients ==> ing.id != id)
    ensures d.selectedType == IngredientType && r.Some? ==>
      exists i :: 0 <= i < |d.ingredients| && d.ingredients[i].id == id
        && r.value == Selectable(id, d.ingredients[i].name, d.ingredients[i].price)
        && forall j :: 0 <= j < i ==> d.ingredients[j].id != id
    ensures d.selectedType == RecipeType ==>
      (r.None? <==> forall rec :: rec in d.recipes ==> rec.id != id)
    ensures d.selectedType == RecipeType && r.Some? ==>
      exists i :: 0 <= i < |d.recipes| && d.recipes[i].id == id
        && r.value == Selectable(id, d.recipes[i].name, d.recipes[i].totalCost)
        && forall j :: 0 <= j < i ==> d.recipes[j].id != id
  {
    match d.selectedType
    case IngredientType =>
      var found := Find(d.ingredients, (ing: OrderIngredient) => ing.id == id);
      if found.Some? then Some(Selectable(found.value.id, found.value.name, found.value.price)) else None
    case RecipeType =>
      var found := Find(d.recipes, (rec: Recipe) => rec.id == id);
      if found.Some? then Some(Selectable(found.value.id, found.value.name, found.value.totalCost)) else None
  }

  /** The add button has an effect. */
  predicate CanAddItem(d: OrderDraft)
  {
    && d.selectedItemId.Some? && d.selectedItemId.value != 0
    && d.selectedQuantity > 0.0
    && FindSelectable(d, d.selectedItemId.value).Some?
  }

  function AddItemToOrder(d: OrderDraft): (d': OrderDraft)
    ensures !CanAddItem(d) ==> d' == d
    ensures CanAddItem(d) ==>
      && |d'.items| == |d.items| + 1
      && d'.items[..|d.items|] == d.items
      && d' == d.(items := d'.items, selectedItemId := None, selectedQuantity := 1.0)
    ensures CanAddItem(d) ==>
      var item := d'.items[|d.items|];
      && item.id == d.selectedItemId.value
      && item.itemType == d.selectedType
      && item.quantity == d.selectedQuantity
      && item.price == item.unitPrice * item.quantity
      && var entry := FindSelectable(d, d.selectedItemId.value).value;
         item.unitPrice == entry.unitPrice && item.name == entry.name
  {
    if d.selectedItemId.None? || d.selectedItemId.value == 0 || d.selectedQuantity <= 0.0 then d
    else
      var found := FindSelectable(d, d.selectedItemId.value);
      if found.None? then d
      else
        var unitPrice := found.value.unitPrice;
        var item := OrderItem(found.value.id, found.value.name, d.selectedType, d.selectedQuantity,
          unitPrice * d.selectedQuantity, unitPrice);
        d.(items := d.items + [item], selectedItemId := None, selectedQuantity := 1.0)
  }

  /** The Remove button of row `index`: `filter((_, i) => i !== index)`. */
  function RemoveOrderItem(d: OrderDraft, index: int): (d': OrderDraft)
    ensures d'.(items := d.items) == d
    ensures 0 <= index < |d.items| ==>
      && |d'.items| == |d.items| - 1
      && (forall j :: 0 <= j < index ==> d'.items[j] == d.items[j])
      && (forall j :: index <= j < |d'.items| ==> d'.items[j] == d.items[j + 1])
    ensures !(0 <= index < |d.items|) ==> d'.items == d.items
  {
    d.(items := WithoutIndex(d.items, index))
  }

  function ItemPrice(item: OrderItem): real
  {
    item.price
  }

  /** `calculateSubtotal`: the sum of the line prices. */
  function Subtotal(items: seq<OrderItem>): real
  {
    Sum(Map(items, ItemPrice))
  }

  /** `calculateTotalWithLaborAndProfit` before `toFixed(2)`. */
  function TotalWithLaborAndProfit(d: OrderDraft): (r: real)
    ensures r - d.laborCost == (1.0 + d.profitMargin) * Subtotal(d.items)
  {
    var subtotal := Subtotal(d.items);
    subtotal + d.laborCost + subtotal * d.profitMargin
  }

  /** An empty order is quoted at its labor cost alone. */
  lemma EmptyOrderQuotesLabor(d: OrderDraft)
    requires d.items == []
    ensures Subtotal(d.items) == 0.0
    ensures TotalWithLaborAndProfit(d) == d.laborCost
  {
  }

  /** With the page's defaults the quote is 1.4 times the subtotal. */
  lemma DefaultsQuoteFortyPercentMarkup(today: string, ingredients: seq<OrderIngredient>, recipes: seq<Recipe>, items: seq<OrderItem>)
    ensures var d := InitialDraft(today, ingredients, recipes).(items := items);
      TotalWithLaborAndProfit(d) == 1.4 * Subtotal(items)
  {
  }

  /** Subtotal 100, labor 20 and margin 0.4 quote 160. */
  lemma WorkedQuote(d: OrderDraft)
    requires Subtotal(d.items) == 100.0 && d.laborCost == 20.0 && d.profitMargin == 0.4
    ensures TotalWithLaborAndProfit(d) == 160.0
  {
  }

  /** Adding a line raises the subtotal by the line's price and the quote
      by that price marked up by the margin. */
  lemma AddRaisesQuote(d: OrderDraft)
    requires CanAddItem(d)
    ensures var d' := AddItemToOrder(d);
      var item := d'.items[|d.items|];
      && Subtotal(d'.items) == Subtotal(d.items) + item.price
      && TotalWithLaborAndProfit(d') == TotalWithLaborAndProfit(d) + item.price * (1.0 + d.profitMargin)
  {
    var d' := AddItemToOrder(d);
    var item := d'.items[|d.items|];
    assert d'.items == d.items + [item];
    assert Map(d'.items, ItemPrice) == Map(d.items, ItemPrice) + [item.price];
    SumAppend(Map(d.items, ItemPrice), item.price);
  }

  /** Removing a line lowers the subtotal by exactly that line's price. */
  lemma RemoveLowersSubtotal(d: OrderDraft, index: int)
    requires 0 <= index < |d.items|
    ensures Subtotal(RemoveOrderItem(d, index).items) == Subtotal(d.items) - d.items[index].price
  {
    var s := d.items;
    var ps := Map(s, ItemPrice);
    assert Map(s[..index] + s[index + 1..], ItemPrice) == ps[..index] + ps[index + 1..];
    SumRemove(ps, index);
  }

  /** The subtotal of lines with non-negative prices is non-negative, and
      then a non-negative margin never quotes below subtotal plus labor. */
  lemma QuoteCoversCost(d: OrderDraft)
    requires forall i :: 0 <= i < |d.items| ==> d.items[i].price >= 0.0
    requires d.profitMargin >= 0.0
    ensures Subtotal(d.items) >= 0.0
    ensures TotalWithLaborAndProfit(d) >= Subtotal(d.items) + d.laborCost
  {
    SumNonNegative(Map(d.items, ItemPrice));
  }

  datatype OrderItemPayload = OrderItemPayload(itemId: int, itemType: ItemType, quantity: real, price: real)

  /** The object `handleSubmit` logs; `totalPrice` is the quote before
      rounding. */
  datatype OrderData = OrderData(
    orderName: string,
    orderDate: string,
    notes: string,
    laborCost: real,
    profitMargin: real,
    items: seq<OrderItemPayload>,
    totalPrice: real)

  function BuildOrderData(d: OrderDraft): (r: OrderData)
    ensures r.orderName == d.orderName && r.orderDate == d.orderDate && r.notes == d.notes
    ensures r.laborCost == d.laborCost && r.profitMargin == d.profitMargin
    ensures |r.items| == |d.items|
    ensures forall i :: 0 <= i < |d.items| ==>
      && r.items[i].itemId == d.items[i].id
      && r.items[i].itemType == d.items[i].itemType
      && r.items[i].quantity == d.items[i].quantity
      && r.items[i].price == d.items[i].price
    ensures r.totalPrice - r.laborCost == (1.0 + r.profitMargin) * Subtotal(d.items)
  {
    OrderData(
      d.orderName, d.orderDate, d.notes, d.laborCost, d.profitMargin,
      seq(|d.items|, i requires 0 <= i < |d.items| =>
        OrderItemPayload(d.items[i].id, d.items[i].itemType, d.items[i].quantity, d.items[i].price)),
      TotalWithLaborAndProfit(d))
  }

  /** The logged order reconciles: its total is recomputable from its own
      item prices, labor cost and margin. */
  lemma OrderDataReconciles(d: OrderDraft)
    ensures var r := BuildOrderData(d);
      var ps := seq(|r.items|, i requires 0 <= i < |r.items| => r.items[i].price);
      r.totalPrice == Sum(ps) + r.laborCost + Sum(ps) * r.profitMargin
  {
    var r := BuildOrderData(d);
    var ps := seq(|r.items|, i requires 0 <= i < |r.items| => r.items[i].price);
    assert ps == Map(d.items, ItemPrice);
  }
}
