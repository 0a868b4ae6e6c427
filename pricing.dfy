/** Money arithmetic: sanitised prices, line and order totals with their
    modifier surcharges, the ingredient cost of a sale and the gross profit. */
module Pricing {
  import opened Common
  import opened Store
  import Stock

  /** `safePrice`: the value as a number, 0 when it is not one. */
  function SafePrice(v: JsValue): (r: real)
    ensures ToNumber(v).NaN? ==> r == 0.0
    ensures ToNumber(v).Num? ==> r == ToNumber(v).r
  {
    match ToNumber(v)
    case NaN => 0.0
    case Num(x) => x
  }

  /** Absent, `null` and empty text price at 0. */
  lemma SafePriceOfMissing()
    ensures SafePrice(Undefined) == 0.0
    ensures SafePrice(Null) == 0.0
    ensures SafePrice(Text("")) == 0.0
  {
  }

  /** Text holding a character that belongs to no JavaScript numeric
      string, such as the comma of "12,50" or the sign of "$5", prices at 0.
      ASCII letters are excluded since exponents, radix prefixes and
      `Infinity` use them. */
  lemma SafePriceOfWord(s: string, k: nat)
    requires k < |s| && !NumberChar(s[k]) && !('a' <= s[k] <= 'z' || 'A' <= s[k] <= 'Z')
    ensures SafePrice(Text(s)) == 0.0
  {
    ForeignCharIsNaN(s, ScanStart, k);
  }

  // ===== calculateItemTotal / calculateOrderTotal =====

  /** Sum of the modifiers' `price_adjustment`, each sanitised. */
  function ModifiersCost(list: seq<Modifier>): real
  {
    if list == [] then 0.0 else ModifiersCost(list[..|list| - 1]) + SafePrice(list[|list| - 1].priceAdjustment)
  }

  /** The surcharge list: a line's modifiers parsed as an array, else none. */
  function Surcharge(modifiers: ModifiersField): real
  {
    match modifiers
    case Mods(list) => ModifiersCost(list)
    case _ => 0.0
  }

  /** `(unit price + modifier surcharges) × quantity`, all sanitised. */
  function ItemTotal(unitPrice: JsValue, quantity: JsValue, modifiers: ModifiersField): (r: real)
    ensures !modifiers.Mods? ==> r == SafePrice(unitPrice) * SafePrice(quantity)
    ensures ToNumber(quantity).NaN? ==> r == 0.0
  {
    (SafePrice(unitPrice) + Surcharge(modifiers)) * SafePrice(quantity)
  }

  /** A sale line as the totals read it. */
  datatype PricedLine = PricedLine(unitPrice: JsValue, quantity: JsValue, modifiers: ModifiersField)

  function LinesTotal(lines: seq<PricedLine>): real
  {
    if lines == [] then 0.0
    else
      var l := lines[|lines| - 1];
      LinesTotal(lines[..|lines| - 1]) + ItemTotal(l.unitPrice, l.quantity, l.modifiers)
  }

  /** `calculateOrderTotal`: 0 when the argument is not an array. */
  function OrderTotal(items: Option<seq<PricedLine>>): (r: real)
    ensures items.None? ==> r == 0.0
    ensures items.Some? && items.value == [] ==> r == 0.0
  {
    match items
    case None => 0.0
    case Some(lines) => LinesTotal(lines)
  }

  /** Without a parsable modifier list a line costs unit price × quantity. */
  lemma ItemTotalWithoutModifiers(unitPrice: JsValue, quantity: JsValue, modifiers: ModifiersField)
    requires !modifiers.Mods?
    ensures ItemTotal(unitPrice, quantity, modifiers) == SafePrice(unitPrice) * SafePrice(quantity)
  {
    Distribute(SafePrice(unitPrice), Surcharge(modifiers), 0.0, 0.0, SafePrice(quantity));
  }

  /** Each extra modifier adds its adjustment once per unit. */
  lemma ItemTotalAddModifier(unitPrice: JsValue, quantity: JsValue, list: seq<Modifier>, m: Modifier)
    ensures ItemTotal(unitPrice, quantity, Mods(list + [m]))
            == ItemTotal(unitPrice, quantity, Mods(list)) + SafePrice(m.priceAdjustment) * SafePrice(quantity)
  {
    SurchargeAppend(list, m);
    Distribute(SafePrice(unitPrice), Surcharge(Mods(list + [m])), Surcharge(Mods(list)),
               SafePrice(m.priceAdjustment), SafePrice(quantity));
  }

  lemma SurchargeAppend(list: seq<Modifier>, m: Modifier)
    ensures Surcharge(Mods(list + [m])) == Surcharge(Mods(list)) + SafePrice(m.priceAdjustment)
  {
    var longer := list + [m];
    assert longer[..|list|] == list && longer[|longer| - 1] == m;
  }

  lemma Distribute(p: real, after: real, before: real, a: real, q: real)
    requires after == before + a
    ensures (p + after) * q == (p + before) * q + a * q
  {
  }

  /** The order total is additive over its lines. */
  lemma {:induction false} LinesTotalAppend(xs: seq<PricedLine>, ys: seq<PricedLine>)
    ensures LinesTotal(xs + ys) == LinesTotal(xs) + LinesTotal(ys)
  {
    if ys == [] {
      assert xs + ys == xs;
    } else {
      assert (xs + ys)[..|xs + ys| - 1] == xs + ys[..|ys| - 1];
      LinesTotalAppend(xs, ys[..|ys| - 1]);
    }
  }

  // ===== calculateSaleCost =====

  /** A sale line as the cost calculation reads it. */
  datatype CostLine = CostLine(productId: Id, quantity: JsValue, modifiers: ModifiersField)

  /** The line as the stock engine sees it, with its quantity sanitised. */
  function AsStockLine(l: CostLine): Stock.LineItem
  {
    Stock.LineItem(l.productId, SafePrice(l.quantity), l.modifiers)
  }

  /** Cost of the recipe rows of one line: each ingredient's `cost_unit` times
      the stock units the row takes (portions divided by the yield). */
  function RecipeCost(products: map<Id, Product>, rs: seq<Recipe>, item: Stock.LineItem): real
  {
    if rs == [] then 0.0
    else
      var recipe := rs[|rs| - 1];
      RecipeCost(products, rs[..|rs| - 1], item)
      + (if Stock.ModifierMultiplier(item.modifiers, recipe.ingredientId) == 0.0 || recipe.ingredientId !in products
         then 0.0
         else products[recipe.ingredientId].costUnit
              * Stock.StockUnits(Stock.Need(recipe, item), Stock.YieldOf(products[recipe.ingredientId])))
  }

  /** Cost of one line: unknown products cost nothing, stock-managed products
      cost `cost_unit × quantity`, the others the cost of their recipe. */
  function LineCost(products: map<Id, Product>, recipes: seq<Recipe>, l: CostLine): real
  {
    if l.productId !in products then 0.0
    else if products[l.productId].manageStock then products[l.productId].costUnit * SafePrice(l.quantity)
    else RecipeCost(products, Stock.RecipesOf(recipes, l.productId), AsStockLine(l))
  }

  function LinesCost(products: map<Id, Product>, recipes: seq<Recipe>, lines: seq<CostLine>): real
  {
    if lines == [] then 0.0
    else LinesCost(products, recipes, lines[..|lines| - 1]) + LineCost(products, recipes, lines[|lines| - 1])
  }

  /** `calculateSaleCost`: 0 for a non-array. */
  function SaleCost(products: map<Id, Product>, recipes: seq<Recipe>, items: Option<seq<CostLine>>): (r: real)
    ensures items.None? ==> r == 0.0
    ensures items == Some([]) ==> r == 0.0
  {
    match items
    case None => 0.0
    case Some(lines) => LinesCost(products, recipes, lines)
  }

  /** The multiplier as `calculateSaleCost` computes it inline: a search for
      the first entry naming the ingredient. It is the multiplier the stock
      engine uses. */
  method CostMultiplier(modifiers: ModifiersField, ingredientId: Id) returns (m: real)
    ensures m == Stock.ModifierMultiplier(modifiers, ingredientId)
  {
    m := 1.0;
    if modifiers.Mods? {
      var list := modifiers.list;
      var k := 0;
      while k < |list| && list[k].ingredientId != Some(ingredientId)
        invariant 0 <= k <= |list|
        invariant forall j :: 0 <= j < k ==> list[j].ingredientId != Some(ingredientId)
      {
        k := k + 1;
      }
      Stock.FindModifierSpec(list, ingredientId);
      if k < |list| {
        var found := list[k];
        if found.kind.Excluded? {
          m := 0.0;
        } else if found.kind.Extra? {
          m := 1.0 + NumberOr(found.extraCount, 1.0);
        }
      }
    }
  }

  method RecipeRowsCost(db: Db, rs: seq<Recipe>, item: Stock.LineItem) returns (cost: real)
    ensures cost == RecipeCost(db.products, rs, item)
  {
    cost := 0.0;
    var j := 0;
    while j < |rs|
      invariant 0 <= j <= |rs|
      invariant cost == RecipeCost(db.products, rs[..j], item)
    {
      var recipe := rs[j];
      assert rs[..j + 1][..j] == rs[..j];
      var m := CostMultiplier(item.modifiers, recipe.ingredientId);
      if m != 0.0 && recipe.ingredientId in db.products {
        var ingredient := db.products[recipe.ingredientId];
        var y := Stock.YieldOf(ingredient);
        var ingredientQuantity := recipe.quantityRequired * item.quantity * m;
        assert ingredientQuantity == Stock.Need(recipe, item);
        if y > 1.0 {
          ingredientQuantity := ingredientQuantity / y;
        }
        cost := cost + ingredient.costUnit * ingredientQuantity;
      }
      j := j + 1;
    }
    assert rs[..|rs|] == rs;
  }

  method CalculateSaleCost(db: Db, items: Option<seq<CostLine>>) returns (totalCost: real)
    ensures totalCost == SaleCost(db.products, db.recipes, items)
  {
    if items.None? || |items.value| == 0 {
      return 0.0;
    }
    var lines := items.value;
    totalCost := 0.0;
    var i := 0;
    while i < |lines|
      invariant 0 <= i <= |lines|
      invariant totalCost == LinesCost(db.products, db.recipes, lines[..i])
    {
      var l := lines[i];
      assert lines[..i + 1][..i] == lines[..i];
      var safeQuantity := SafePrice(l.quantity);
      if l.productId in db.products {
        var product := db.products[l.productId];
        if product.manageStock {
          totalCost := totalCost + product.costUnit * safeQuantity;
        } else {
          var c := RecipeRowsCost(db, Stock.RecipesOf(db.recipes, l.productId), AsStockLine(l));
          totalCost := totalCost + c;
        }
      }
      i := i + 1;
    }
    assert lines[..|lines|] == lines;
  }

  /** The sale cost is additive over its lines. */
  lemma {:induction false} LinesCostAppend(products: map<Id, Product>, recipes: seq<Recipe>, xs: seq<CostLine>, ys: seq<CostLine>)
    ensures LinesCost(products, recipes, xs + ys) == LinesCost(products, recipes, xs) + LinesCost(products, recipes, ys)
  {
    if ys == [] {
      assert xs + ys == xs;
    } else {
      assert (xs + ys)[..|xs + ys| - 1] == xs + ys[..|ys| - 1];
      LinesCostAppend(products, recipes, xs, ys[..|ys| - 1]);
    }
  }

  /** A recipe line whose rows all use one ingredient costs that ingredient's
      `cost_unit` times exactly the stock units the deduction takes from it. */
  lemma {:induction false} RecipeCostPricesDeduction(products: map<Id, Product>, rs: seq<Recipe>, item: Stock.LineItem, id: Id)
    requires id in products
    requires forall j :: 0 <= j < |rs| ==> rs[j].ingredientId == id
    ensures RecipeCost(products, rs, item)
            == products[id].costUnit * Stock.RecipeDeduction(Stock.YieldOf(products[id]), rs, item, id)
  {
    if rs != [] {
      var init := rs[..|rs| - 1];
      RecipeCostPricesDeduction(products, init, item, id);
      var c := products[id].costUnit;
      var a := Stock.RecipeDeduction(Stock.YieldOf(products[id]), init, item, id);
      var d := if Stock.ModifierMultiplier(item.modifiers, id) == 0.0 then 0.0
               else Stock.StockUnits(Stock.Need(rs[|rs| - 1], item), Stock.YieldOf(products[id]));
      assert c * (a + d) == c * a + c * d;
    }
  }

  /** Non-negative costs and needs give a non-negative sale cost. */
  lemma {:induction false} RecipeCostNonNegative(products: map<Id, Product>, rs: seq<Recipe>, item: Stock.LineItem)
    requires forall id :: id in products ==> products[id].costUnit >= 0.0
    requires forall j :: 0 <= j < |rs| ==> Stock.Need(rs[j], item) >= 0.0
    ensures RecipeCost(products, rs, item) >= 0.0
  {
    if rs != [] {
      RecipeCostNonNegative(products, rs[..|rs| - 1], item);
      var recipe := rs[|rs| - 1];
      if Stock.ModifierMultiplier(item.modifiers, recipe.ingredientId) != 0.0 && recipe.ingredientId in products {
        var y := Stock.YieldOf(products[recipe.ingredientId]);
        Stock.StockUnitsNonNegative(Stock.Need(recipe, item), y);
        var u := Stock.StockUnits(Stock.Need(recipe, item), y);
        var c := products[recipe.ingredientId].costUnit;
        assert c * u >= 0.0;
      }
    }
  }

  // ===== calculateGrossProfit =====

  /** `calculateGrossProfit`: sanitised total minus sanitised cost (may be negative). */
  function GrossProfit(total: JsValue, cost: JsValue): (r: real)
    ensures r + SafePrice(cost) == SafePrice(total)
  {
    SafePrice(total) - SafePrice(cost)
  }

  /** Profit plus cost gives the total back; a non-numeric total counts as 0. */
  lemma GrossProfitProperties(total: JsValue, cost: JsValue)
    ensures GrossProfit(total, cost) + SafePrice(cost) == SafePrice(total)
    ensures ToNumber(total).NaN? ==> GrossProfit(total, cost) == -SafePrice(cost)
    ensures ToNumber(cost).NaN? ==> GrossProfit(total, cost) == SafePrice(total)
  {
  }

}
