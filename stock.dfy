/** The stock engine: how a batch of sale lines turns into stock requirements
    (directly for stock-managed products, through the recipe for the others),
    the sufficiency check over the whole batch, and the floor-at-zero deduction. */
module Stock {
  import opened Common
  import opened Store

  /** A sale line as the stock engine reads it. */
  datatype LineItem = LineItem(productId: Id, quantity: real, modifiers: ModifiersField)

  // ===== modifier multiplier =====

  /** Index of the first entry of `list` that names `ingredientId` (`Array.find`). */
  function FindModifier(list: seq<Modifier>, ingredientId: Id): (r: Option<nat>)
    ensures r.Some? ==> r.value < |list|
  {
    if list == [] then None
    else if list[0].ingredientId == Some(ingredientId) then Some(0)
    else match FindModifier(list[1..], ingredientId)
      case None => None
      case Some(k) => Some(k + 1)
  }

  /** The search finds the first matching entry, and finds none only when no
      entry matches. */
  lemma {:induction false} FindModifierSpec(list: seq<Modifier>, ingredientId: Id)
    ensures var r := FindModifier(list, ingredientId);
            && (r.Some? ==> r.value < |list| && list[r.value].ingredientId == Some(ingredientId))
            && (r.Some? ==> forall j :: 0 <= j < r.value ==> list[j].ingredientId != Some(ingredientId))
            && (r.None? <==> forall j :: 0 <= j < |list| ==> list[j].ingredientId != Some(ingredientId))
  {
    if list != [] && list[0].ingredientId != Some(ingredientId) {
      FindModifierSpec(list[1..], ingredientId);
      assert forall j :: 1 <= j < |list| ==> list[j] == list[1..][j - 1];
    }
  }

  /** The multiplier one modifier entry stands for: excluded is 0, extra is
      1 + extra_count (a missing, zero or non-numeric count counts as 1),
      any other kind leaves the quantity as it is. */
  function KindMultiplier(m: Modifier): real
  {
    match m.kind
    case Excluded => 0.0
    case Extra => 1.0 + NumberOr(m.extraCount, 1.0)
    case OtherKind(_) => 1.0
  }

  /** Multiplier of one recipe ingredient under a line's modifiers. */
  function ModifierMultiplier(modifiers: ModifiersField, ingredientId: Id): (r: real)
    ensures !(modifiers.Mods? && FindModifier(modifiers.list, ingredientId).Some?) ==> r == 1.0
    ensures (modifiers.Mods? && FindModifier(modifiers.list, ingredientId).Some?
             && modifiers.list[FindModifier(modifiers.list, ingredientId).value].kind == Excluded) ==> r == 0.0
  {
    match modifiers
    case Mods(list) =>
      (match FindModifier(list, ingredientId)
       case None => 1.0
       case Some(k) => KindMultiplier(list[k]))
    case _ => 1.0
  }

  /** Absent, unparseable and non-array modifiers leave every ingredient at 1. */
  lemma MultiplierWithoutList(modifiers: ModifiersField, ingredientId: Id)
    requires !modifiers.Mods?
    ensures ModifierMultiplier(modifiers, ingredientId) == 1.0
  {
  }

  /** The first entry naming the ingredient decides; later entries are ignored. */
  lemma {:induction false} MultiplierFirstMatchWins(pre: seq<Modifier>, m: Modifier, post: seq<Modifier>, ingredientId: Id)
    requires forall j :: 0 <= j < |pre| ==> pre[j].ingredientId != Some(ingredientId)
    requires m.ingredientId == Some(ingredientId)
    ensures ModifierMultiplier(Mods(pre + [m] + post), ingredientId) == KindMultiplier(m)
  {
    var list := pre + [m] + post;
    FindModifierSpec(list, ingredientId);
    assert list[|pre|] == m;
    assert forall j :: 0 <= j < |pre| ==> list[j] == pre[j];
  }

  /** A list without an entry for the ingredient leaves it at 1. */
  lemma MultiplierNoEntry(list: seq<Modifier>, ingredientId: Id)
    requires forall j :: 0 <= j < |list| ==> list[j].ingredientId != Some(ingredientId)
    ensures ModifierMultiplier(Mods(list), ingredientId) == 1.0
  {
    FindModifierSpec(list, ingredientId);
  }

  /** The documented values: extra with extra_count = 1 doubles the ingredient,
      extra without a usable count also doubles it, excluded zeroes it. */
  lemma MultiplierExamples(ingredientId: Id)
    ensures ModifierMultiplier(Mods([Modifier(Some(ingredientId), Extra, Number(Num(1.0)), Undefined)]), ingredientId) == 2.0
    ensures ModifierMultiplier(Mods([Modifier(Some(ingredientId), Extra, Undefined, Undefined)]), ingredientId) == 2.0
    ensures ModifierMultiplier(Mods([Modifier(Some(ingredientId), Extra, Number(Num(0.0)), Undefined)]), ingredientId) == 2.0
    ensures ModifierMultiplier(Mods([Modifier(Some(ingredientId), Excluded, Undefined, Undefined)]), ingredientId) == 0.0
  {
  }

  // ===== recipe expansion and unit conversion =====

  /** `Number(yield_per_unit) || 1`. */
  function YieldOf(p: Product): real
  {
    match p.yieldPerUnit
    case None => 1.0
    case Some(y) => if y == 0.0 then 1.0 else y
  }

  /** Portions converted to stock units: divided by the yield when it exceeds 1. */
  function StockUnits(portions: real, yieldPerUnit: real): real
  {
    if yieldPerUnit > 1.0 then portions / yieldPerUnit else portions
  }

  /** Converting back: stock units times the yield give the portions again. */
  lemma StockUnitsRoundTrip(portions: real, yieldPerUnit: real)
    requires yieldPerUnit > 1.0
    ensures StockUnits(portions, yieldPerUnit) * yieldPerUnit == portions
  {
  }

  lemma StockUnitsNonNegative(portions: real, yieldPerUnit: real)
    requires portions >= 0.0
    ensures StockUnits(portions, yieldPerUnit) >= 0.0
  {
  }

  /** Whole portions a stock level yields: `Math.floor(stock * yield)`. */
  function WholePortions(stock: real, yieldPerUnit: real): real
  {
    (stock * yieldPerUnit).Floor as real
  }

  /** `unit || 'unid'`. */
  function UnitOr(unit: string): string
  {
    if unit == "" then "unid" else unit
  }

  /** The recipe rows of a product, in table order (`SELECT … WHERE product_id = ?`). */
  function RecipesOf(recipes: seq<Recipe>, productId: Id): (r: seq<Recipe>)
    ensures |r| <= |recipes|
    ensures forall k :: 0 <= k < |r| ==> r[k].productId == productId && r[k] in recipes
  {
    RowsWith(recipes, (r: Recipe) => r.productId, productId)
  }

  lemma {:induction false} RecipesOfComplete(recipes: seq<Recipe>, productId: Id, r: Recipe)
    requires r in recipes && r.productId == productId
    ensures r in RecipesOf(recipes, productId)
  {
    RowsWithComplete(recipes, (r: Recipe) => r.productId, productId, r);
  }

  // ===== requirement accumulation (validateStockForItems, first pass) =====

  /** Accumulated portions of one ingredient and the products that need it
      (a set kept in insertion order). */
  datatype Requirement = Requirement(quantity: real, productNames: seq<string>)

  /** The `ingredientRequirements` map: entries and their insertion order. */
  datatype Requirements = Requirements(order: seq<Id>, table: map<Id, Requirement>)

  /** The insertion order lists each key of the table exactly once. */
  ghost predicate WellFormed(acc: Requirements)
  {
    && (forall k :: 0 <= k < |acc.order| ==> acc.order[k] in acc.table)
    && (forall id :: id in acc.table ==> id in acc.order)
    && (forall j, k :: 0 <= j < k < |acc.order| ==> acc.order[j] != acc.order[k])
  }

  function AddName(names: seq<string>, name: string): seq<string>
  {
    if name in names then names else names + [name]
  }

  /** Adds `q` portions of `ingredientId`, needed by product `name`. */
  function AddPortions(acc: Requirements, ingredientId: Id, q: real, name: string): (r: Requirements)
    requires WellFormed(acc)
    ensures WellFormed(r)
  {
    if ingredientId in acc.table then
      var e := acc.table[ingredientId];
      Requirements(acc.order, acc.table[ingredientId := Requirement(e.quantity + q, AddName(e.productNames, name))])
    else
      Requirements(acc.order + [ingredientId], acc.table[ingredientId := Requirement(q, [name])])
  }

  /** Portions one recipe row asks for on one line: quantity required ×
      line quantity × modifier multiplier. */
  function Need(recipe: Recipe, item: LineItem): real
  {
    recipe.quantityRequired * item.quantity * ModifierMultiplier(item.modifiers, recipe.ingredientId)
  }

  /** Folds the recipe rows of one line into the requirements. */
  function AddRecipeNeeds(acc: Requirements, rs: seq<Recipe>, item: LineItem, name: string): (r: Requirements)
    requires WellFormed(acc)
    ensures WellFormed(r)
  {
    if rs == [] then acc
    else
      var a := AddRecipeNeeds(acc, rs[..|rs| - 1], item, name);
      var recipe := rs[|rs| - 1];
      var m := ModifierMultiplier(item.modifiers, recipe.ingredientId);
      if m == 0.0 then a
      else AddPortions(a, recipe.ingredientId, Need(recipe, item), name)
  }

  /** One line: unknown and stock-managed products add no ingredient need. */
  function AddLineNeeds(acc: Requirements, products: map<Id, Product>, recipes: seq<Recipe>, item: LineItem): (r: Requirements)
    requires WellFormed(acc)
    ensures WellFormed(r)
  {
    if item.productId !in products || products[item.productId].manageStock then acc
    else AddRecipeNeeds(acc, RecipesOf(recipes, item.productId), item, products[item.productId].name)
  }

  /** The requirements accumulated over the whole batch. */
  function Accumulate(products: map<Id, Product>, recipes: seq<Recipe>, items: seq<LineItem>): (r: Requirements)
    ensures WellFormed(r)
  {
    if items == [] then Requirements([], map[])
    else AddLineNeeds(Accumulate(products, recipes, items[..|items| - 1]), products, recipes, items[|items| - 1])
  }

  /** Portions of an ingredient held in the requirements (0 when absent). */
  function Needed(acc: Requirements, ingredientId: Id): real
  {
    if ingredientId in acc.table then acc.table[ingredientId].quantity else 0.0
  }

  // Independent reference: the portions a batch needs, summed line by line.

  function RecipePortions(rs: seq<Recipe>, item: LineItem, ingredientId: Id): real
  {
    if rs == [] then 0.0
    else
      var recipe := rs[|rs| - 1];
      RecipePortions(rs[..|rs| - 1], item, ingredientId)
      + (if recipe.ingredientId == ingredientId then Need(recipe, item) else 0.0)
  }

  function LinePortions(products: map<Id, Product>, recipes: seq<Recipe>, item: LineItem, ingredientId: Id): real
  {
    if item.productId !in products || products[item.productId].manageStock then 0.0
    else RecipePortions(RecipesOf(recipes, item.productId), item, ingredientId)
  }

  /** Total portions of an ingredient that the batch's recipe lines need. */
  function Portions(products: map<Id, Product>, recipes: seq<Recipe>, items: seq<LineItem>, ingredientId: Id): real
  {
    if items == [] then 0.0
    else Portions(products, recipes, items[..|items| - 1], ingredientId)
         + LinePortions(products, recipes, items[|items| - 1], ingredientId)
  }

  lemma AddPortionsNeeded(acc: Requirements, ingredientId: Id, q: real, name: string, id: Id)
    requires WellFormed(acc)
    ensures Needed(AddPortions(acc, ingredientId, q, name), id)
         == Needed(acc, id) + (if ingredientId == id then q else 0.0)
  {
  }

  lemma {:induction false} AddRecipeNeedsPortions(acc: Requirements, rs: seq<Recipe>, item: LineItem, name: string, ingredientId: Id)
    requires WellFormed(acc)
    ensures Needed(AddRecipeNeeds(acc, rs, item, name), ingredientId)
         == Needed(acc, ingredientId) + RecipePortions(rs, item, ingredientId)
  {
    if rs != [] {
      var init := rs[..|rs| - 1];
      AddRecipeNeedsPortions(acc, init, item, name, ingredientId);
      var a := AddRecipeNeeds(acc, init, item, name);
      var recipe := rs[|rs| - 1];
      var m := ModifierMultiplier(item.modifiers, recipe.ingredientId);
      if m != 0.0 {
        AddPortionsNeeded(a, recipe.ingredientId, Need(recipe, item), name, ingredientId);
      }
    }
  }

  /** Requirements are summed per ingredient across the whole batch: the
      accumulated amount is the line-by-line total. */
  lemma {:induction false} AccumulatePortions(products: map<Id, Product>, recipes: seq<Recipe>, items: seq<LineItem>, ingredientId: Id)
    ensures Needed(Accumulate(products, recipes, items), ingredientId) == Portions(products, recipes, items, ingredientId)
  {
    if items != [] {
      var prefix := items[..|items| - 1];
      AccumulatePortions(products, recipes, prefix, ingredientId);
      var item := items[|items| - 1];
      if item.productId in products && !products[item.productId].manageStock {
        AddRecipeNeedsPortions(Accumulate(products, recipes, prefix), RecipesOf(recipes, item.productId),
          item, products[item.productId].name, ingredientId);
      }
    }
  }

  // ===== shortage errors =====

  datatype StockError = StockError(
    productName: string,
    ingredientName: Option<string>,
    required: real,
    available: real,
    unit: string)

  /** The error of a stock-managed line whose quantity exceeds`stock_current`. */
  function DirectError(products: map<Id, Product>, item: LineItem): Option<StockError>
  {
    if item.productId in products && products[item.productId].manageStock
       && products[item.productId].stockCurrent < item.quantity
    then
      var p := products[item.productId];
      Some(StockError(p.name, None, item.quantity, p.stockCurrent, UnitOr(p.unit)))
    else None
  }

  function DirectErrors(products: map<Id, Product>, items: seq<LineItem>): seq<StockError>
  {
    if items == [] then []
    else
      var last := items[|items| - 1];
      DirectErrors(products, items[..|items| - 1])
      + (match DirectError(products, last) case Some(e) => [e] case None => [])
  }

  /** The error of an accumulated ingredient need that the ingredient's stock
      does not cover. With a yield above 1 the error speaks in portions: the
      portions needed and the whole portions the stock still yields. */
  function IngredientError(products: map<Id, Product>, ingredientId: Id, req: Requirement): Option<StockError>
  {
    if ingredientId !in products then None
    else
      var ing := products[ingredientId];
      if !ing.manageStock then None
      else
        var y := YieldOf(ing);
        var need := StockUnits(req.quantity, y);
        if ing.stockCurrent < need then
          Some(StockError(
            Join(req.productNames, ", "),
            Some(ing.name),
            if y > 1.0 then req.quantity else need,
            if y > 1.0 then WholePortions(ing.stockCurrent, y) else ing.stockCurrent,
            if y > 1.0 then "porciones" else UnitOr(ing.unit)))
        else None
  }

  /** An ingredient is reported exactly when it is stock-managed and its stock
      is below the need in stock units; with a yield above 1 the report is
      in portions. */
  lemma IngredientErrorShape(products: map<Id, Product>, ingredientId: Id, req: Requirement)
    ensures var r := IngredientError(products, ingredientId, req);
      && (r.Some? <==> ingredientId in products && products[ingredientId].manageStock
                       && products[ingredientId].stockCurrent < StockUnits(req.quantity, YieldOf(products[ingredientId])))
      && (r.Some? && YieldOf(products[ingredientId]) > 1.0 ==>
            && r.value.required == req.quantity
            && r.value.available == WholePortions(products[ingredientId].stockCurrent, YieldOf(products[ingredientId]))
            && r.value.unit == "porciones")
      && (r.Some? && YieldOf(products[ingredientId]) <= 1.0 ==>
            r.value.required == req.quantity && r.value.available == products[ingredientId].stockCurrent
            && r.value.unit == UnitOr(products[ingredientId].unit))
      && (r.Some? ==> r.value.ingredientName == Some(products[ingredientId].name)
                      && r.value.productName == Join(req.productNames, ", "))
  {
  }

  function IngredientErrors(products: map<Id, Product>, table: map<Id, Requirement>, order: seq<Id>): seq<StockError>
    requires forall k :: 0 <= k < |order| ==> order[k] in table
  {
    if order == [] then []
    else
      var id := order[|order| - 1];
      IngredientErrors(products, table, order[..|order| - 1])
      + (match IngredientError(products, id, table[id]) case Some(e) => [e] case None => [])
  }

  /** The error list `validateStockForItems` returns: line errors for
      stock-managed products in line order, then one check per accumulated
      ingredient in first-use order. */
  function ValidationErrors(products: map<Id, Product>, recipes: seq<Recipe>, items: seq<LineItem>): (r: seq<StockError>)
    ensures |DirectErrors(products, items)| <= |r|
    ensures r[..|DirectErrors(products, items)|] == DirectErrors(products, items)
    ensures items == [] ==> r == []
  {
    var acc := Accumulate(products, recipes, items);
    DirectErrors(products, items) + IngredientErrors(products, acc.table, acc.order)
  }

  /** Sufficiency stated independently of the accumulation: every
      stock-managed line is covered by its product's stock, and every
      stock-managed ingredient covers the batch's total need in stock units. */
  ghost predicate Sufficient(products: map<Id, Product>, recipes: seq<Recipe>, items: seq<LineItem>)
  {
    && (forall k :: 0 <= k < |items| && items[k].productId in products && products[items[k].productId].manageStock
          ==> items[k].quantity <= products[items[k].productId].stockCurrent)
    && (forall id :: id in products && products[id].manageStock
          ==> StockUnits(Portions(products, recipes, items, id), YieldOf(products[id])) <= products[id].stockCurrent)
  }

  lemma {:induction false} DirectErrorsEmpty(products: map<Id, Product>, items: seq<LineItem>)
    ensures DirectErrors(products, items) == [] <==>
      forall k :: 0 <= k < |items| && items[k].productId in products && products[items[k].productId].manageStock
        ==> items[k].quantity <= products[items[k].productId].stockCurrent
  {
    if items != [] {
      var prefix := items[..|items| - 1];
      DirectErrorsEmpty(products, prefix);
      assert forall k :: 0 <= k < |prefix| ==> prefix[k] == items[k];
    }
  }

  lemma {:induction false} IngredientErrorsEmpty(products: map<Id, Product>, table: map<Id, Requirement>, order: seq<Id>)
    requires forall k :: 0 <= k < |order| ==> order[k] in table
    ensures IngredientErrors(products, table, order) == [] <==>
      forall k :: 0 <= k < |order| ==> IngredientError(products, order[k], table[order[k]]).None?
  {
    if order != [] {
      var prefix := order[..|order| - 1];
      IngredientErrorsEmpty(products, table, prefix);
      assert forall k :: 0 <= k < |prefix| ==> prefix[k] == order[k];
    }
  }

  /** One stock-managed ingredient: covered by its stock exactly when its
      accumulated requirement (if any) draws no error. */
  lemma IngredientCovered(products: map<Id, Product>, recipes: seq<Recipe>, items: seq<LineItem>, id: Id)
    requires StockNonNegative(products)
    requires id in products && products[id].manageStock
    ensures var acc := Accumulate(products, recipes, items);
            StockUnits(Portions(products, recipes, items, id), YieldOf(products[id])) <= products[id].stockCurrent
            <==> (id in acc.table ==> IngredientError(products, id, acc.table[id]).None?)
  {
    var acc := Accumulate(products, recipes, items);
    AccumulatePortions(products, recipes, items, id);
    if id in acc.table {
      IngredientErrorShape(products, id, acc.table[id]);
    } else {
      assert Portions(products, recipes, items, id) == 0.0;
      assert StockUnits(0.0, YieldOf(products[id])) == 0.0;
    }
  }

  /** Checking the requirements in insertion order is checking every
      stock-managed ingredient in the table. */
  lemma IngredientErrorsNoneIff(products: map<Id, Product>, acc: Requirements)
    requires WellFormed(acc)
    ensures (forall k :: 0 <= k < |acc.order| ==> IngredientError(products, acc.order[k], acc.table[acc.order[k]]).None?)
            <==> (forall id :: id in acc.table && id in products && products[id].manageStock
                    ==> IngredientError(products, id, acc.table[id]).None?)
  {
    if forall k :: 0 <= k < |acc.order| ==> IngredientError(products, acc.order[k], acc.table[acc.order[k]]).None? {
      forall id | id in acc.table && id in products && products[id].manageStock
        ensures IngredientError(products, id, acc.table[id]).None?
      {
        var k :| 0 <= k < |acc.order| && acc.order[k] == id;
      }
    }
  }

  /** isValid holds exactly when the batch is sufficient (the datastore's
      stock being non-negative, as deductions keep it). */
  lemma ValidIffSufficient(products: map<Id, Product>, recipes: seq<Recipe>, items: seq<LineItem>)
    requires StockNonNegative(products)
    ensures ValidationErrors(products, recipes, items) == [] <==> Sufficient(products, recipes, items)
  {
    var acc := Accumulate(products, recipes, items);
    DirectErrorsEmpty(products, items);
    IngredientErrorsEmpty(products, acc.table, acc.order);
    IngredientErrorsNoneIff(products, acc);
    forall id | id in products && products[id].manageStock
      ensures StockUnits(Portions(products, recipes, items, id), YieldOf(products[id])) <= products[id].stockCurrent
              <==> (id in acc.table ==> IngredientError(products, id, acc.table[id]).None?)
    {
      IngredientCovered(products, recipes, items, id);
    }
  }

  /** A line whose product is not in the table changes nothing. */
  lemma UnknownProductLineIgnored(products: map<Id, Product>, recipes: seq<Recipe>, items: seq<LineItem>, item: LineItem)
    requires item.productId !in products
    ensures ValidationErrors(products, recipes, items + [item]) == ValidationErrors(products, recipes, items)
  {
    assert (items + [item])[..|items|] == items;
  }

  // ===== validateStockForItems =====

  datatype Validation = Validation(isValid: bool, errors: seq<StockError>)

  /** The recipe rows of one line folded into the running requirements
      (the inner loop of the first pass). */
  method AccumulateRecipeRows(acc0: Requirements, rs: seq<Recipe>, item: LineItem, name: string) returns (acc: Requirements)
    requires WellFormed(acc0)
    ensures acc == AddRecipeNeeds(acc0, rs, item, name)
  {
    acc := acc0;
    var j := 0;
    while j < |rs|
      invariant 0 <= j <= |rs|
      invariant acc == AddRecipeNeeds(acc0, rs[..j], item, name)
    {
      var recipe := rs[j];
      assert rs[..j + 1][..j] == rs[..j];
      var m := ModifierMultiplier(item.modifiers, recipe.ingredientId);
      if m != 0.0 {
        var q := recipe.quantityRequired * item.quantity * m;
        assert q == Need(recipe, item);
        acc := AddPortions(acc, recipe.ingredientId, q, name);
      }
      j := j + 1;
    }
    assert rs[..|rs|] == rs;
  }

  /** The check of one accumulated requirement against its ingredient's row. */
  method IngredientReport(db: Db, ingredientId: Id, requirement: Requirement) returns (report: Option<StockError>)
    ensures report == IngredientError(db.products, ingredientId, requirement)
  {
    report := None;
    if ingredientId in db.products {
      var ingredient := db.products[ingredientId];
      if ingredient.manageStock {
        var y := YieldOf(ingredient);
        var requiredInStockUnits := if y > 1.0 then requirement.quantity / y else requirement.quantity;
        if ingredient.stockCurrent < requiredInStockUnits {
          var requiredDisplay := if y > 1.0 then requirement.quantity else requiredInStockUnits;
          var availableDisplay := if y > 1.0 then WholePortions(ingredient.stockCurrent, y) else ingredient.stockCurrent;
          var unitDisplay := if y > 1.0 then "porciones" else UnitOr(ingredient.unit);
          report := Some(StockError(Join(requirement.productNames, ", "), Some(ingredient.name),
                                    requiredDisplay, availableDisplay, unitDisplay));
        }
      }
    }
  }

  /** The second pass: one check per accumulated ingredient, in first-use order. */
  method CheckIngredients(db: Db, acc: Requirements) returns (errors: seq<StockError>)
    requires WellFormed(acc)
    ensures errors == IngredientErrors(db.products, acc.table, acc.order)
  {
    errors := [];
    var k := 0;
    while k < |acc.order|
      invariant 0 <= k <= |acc.order|
      invariant errors == IngredientErrors(db.products, acc.table, acc.order[..k])
    {
      var ingredientId := acc.order[k];
      assert acc.order[..k + 1][..k] == acc.order[..k];
      var report := IngredientReport(db, ingredientId, acc.table[ingredientId]);
      if report.Some? {
        errors := errors + [report.value];
      }
      k := k + 1;
    }
    assert acc.order[..|acc.order|] == acc.order;
  }

  method ValidateStockForItems(db: Db, items: seq<LineItem>) returns (v: Validation)
    ensures v.errors == ValidationErrors(db.products, db.recipes, items)
    ensures v.isValid <==> v.errors == []
  {
    var errors: seq<StockError> := [];
    var acc := Requirements([], map[]);
    var i := 0;
    while i < |items|
      invariant 0 <= i <= |items|
      invariant acc == Accumulate(db.products, db.recipes, items[..i])
      invariant errors == DirectErrors(db.products, items[..i])
    {
      var item := items[i];
      assert items[..i + 1][..i] == items[..i];
      if item.productId in db.products {
        var product := db.products[item.productId];
        if product.manageStock {
          if product.stockCurrent < item.quantity {
            errors := errors + [StockError(product.name, None, item.quantity, product.stockCurrent, UnitOr(product.unit))];
          }
        } else {
          var rs := RecipesOf(db.recipes, item.productId);
          acc := AccumulateRecipeRows(acc, rs, item, product.name);
        }
      }
      i := i + 1;
    }
    assert items[..|items|] == items;
    var ingredientErrors := CheckIngredients(db, acc);
    errors := errors + ingredientErrors;
    v := Validation(|errors| == 0, errors);
  }

  // ===== deductStockForItems =====

  /** `UPDATE products SET stock_current = GREATEST(0, stock_current - delta)`;
      a missing row is left alone. */
  function DeductRow(products: map<Id, Product>, id: Id, delta: real): (r: map<Id, Product>)
    ensures r.Keys == products.Keys
    ensures id in products ==> r[id] == products[id].(stockCurrent := Max0(products[id].stockCurrent - delta))
    ensures forall other :: other in products && other != id ==> r[other] == products[other]
  {
    if id in products then products[id := products[id].(stockCurrent := Max0(products[id].stockCurrent - delta))]
    else products
  }

  function DeductRecipes(products: map<Id, Product>, rs: seq<Recipe>, item: LineItem): map<Id, Product>
  {
    if rs == [] then products
    else
      var p := DeductRecipes(products, rs[..|rs| - 1], item);
      var recipe := rs[|rs| - 1];
      var m := ModifierMultiplier(item.modifiers, recipe.ingredientId);
      if m == 0.0 || recipe.ingredientId !in p then p
      else DeductRow(p, recipe.ingredientId, StockUnits(Need(recipe, item), YieldOf(p[recipe.ingredientId])))
  }

  function DeductLine(products: map<Id, Product>, recipes: seq<Recipe>, item: LineItem): map<Id, Product>
  {
    if item.productId !in products then products
    else if products[item.productId].manageStock then DeductRow(products, item.productId, item.quantity)
    else DeductRecipes(products, RecipesOf(recipes, item.productId), item)
  }

  /** The product table after `deductStockForItems(items)`. */
  function DeductAll(products: map<Id, Product>, recipes: seq<Recipe>, items: seq<LineItem>): (r: map<Id, Product>)
    ensures SameRowsButStock(products, r)
  {
    if items == [] then products
    else
      var mid := DeductAll(products, recipes, items[..|items| - 1]);
      var item := items[|items| - 1];
      DeductLineShape(mid, recipes, item);
      SameRowsTransitive(products, mid, DeductLine(mid, recipes, item));
      DeductLine(mid, recipes, item)
  }

  /** The recipe rows of one line deducted from their ingredients (the
      inner loop of the deduction). */
  method DeductRecipeRows(db: Db, rs: seq<Recipe>, item: LineItem)
    modifies db`products
    ensures db.products == DeductRecipes(old(db.products), rs, item)
  {
    var j := 0;
    while j < |rs|
      invariant 0 <= j <= |rs|
      invariant db.products == DeductRecipes(old(db.products), rs[..j], item)
    {
      var recipe := rs[j];
      assert rs[..j + 1][..j] == rs[..j];
      var m := ModifierMultiplier(item.modifiers, recipe.ingredientId);
      if m != 0.0 {
        var totalToDeduct := recipe.quantityRequired * item.quantity * m;
        assert totalToDeduct == Need(recipe, item);
        if recipe.ingredientId in db.products {
          var ingredient := db.products[recipe.ingredientId];
          var y := YieldOf(ingredient);
          var deduction := if y > 1.0 then totalToDeduct / y else totalToDeduct;
          assert deduction == StockUnits(Need(recipe, item), y);
          db.products := DeductRow(db.products, recipe.ingredientId, deduction);
        }
      }
      assert rs[..j + 1][j] == recipe;
      j := j + 1;
    }
    assert rs[..|rs|] == rs;
  }

  method DeductStockForItems(db: Db, items: seq<LineItem>)
    modifies db`products
    ensures db.products == DeductAll(old(db.products), db.recipes, items)
  {
    var i := 0;
    while i < |items|
      invariant 0 <= i <= |items|
      invariant db.products == DeductAll(old(db.products), db.recipes, items[..i])
    {
      var item := items[i];
      assert items[..i + 1][..i] == items[..i];
      if item.productId in db.products {
        var product := db.products[item.productId];
        if product.manageStock {
          db.products := db.products[item.productId :=
                           product.(stockCurrent := Max0(product.stockCurrent - item.quantity))];
        } else {
          DeductRecipeRows(db, RecipesOf(db.recipes, item.productId), item);
        }
      }
      i := i + 1;
    }
    assert items[..|items|] == items;
  }

  // ----- properties of the deduction -----

  /** Only `stock_current` changes, and no row appears or disappears. */
  ghost predicate SameRowsButStock(before: map<Id, Product>, after: map<Id, Product>)
  {
    after.Keys == before.Keys
    && forall id :: id in before ==> after[id] == before[id].(stockCurrent := after[id].stockCurrent)
  }

  lemma SameRowsTransitive(a: map<Id, Product>, b: map<Id, Product>, c: map<Id, Product>)
    requires SameRowsButStock(a, b) && SameRowsButStock(b, c)
    ensures SameRowsButStock(a, c)
  {
  }

  lemma DeductLineShape(products: map<Id, Product>, recipes: seq<Recipe>, item: LineItem)
    ensures SameRowsButStock(products, DeductLine(products, recipes, item))
  {
    DeductRecipesShape(products, RecipesOf(recipes, item.productId), item);
  }

  lemma {:induction false} DeductRecipesShape(products: map<Id, Product>, rs: seq<Recipe>, item: LineItem)
    ensures SameRowsButStock(products, DeductRecipes(products, rs, item))
  {
    if rs != [] {
      DeductRecipesShape(products, rs[..|rs| - 1], item);
    }
  }

  lemma {:induction false} DeductRecipesNonNegative(products: map<Id, Product>, rs: seq<Recipe>, item: LineItem)
    requires StockNonNegative(products)
    ensures StockNonNegative(DeductRecipes(products, rs, item))
  {
    if rs != [] {
      DeductRecipesNonNegative(products, rs[..|rs| - 1], item);
    }
  }

  /** Stock never goes negative: a deduction pass keeps every row at or above 0. */
  lemma {:induction false} DeductAllNonNegative(products: map<Id, Product>, recipes: seq<Recipe>, items: seq<LineItem>)
    requires StockNonNegative(products)
    ensures StockNonNegative(DeductAll(products, recipes, items))
  {
    if items != [] {
      DeductAllNonNegative(products, recipes, items[..|items| - 1]);
      var mid := DeductAll(products, recipes, items[..|items| - 1]);
      var item := items[|items| - 1];
      if item.productId in mid && !mid[item.productId].manageStock {
        DeductRecipesNonNegative(mid, RecipesOf(recipes, item.productId), item);
      }
    }
  }

  /** Some recipe row links product `productId` to ingredient `ingredientId`. */
  ghost predicate RecipeLinks(recipes: seq<Recipe>, productId: Id, ingredientId: Id)
  {
    exists r :: r in recipes && r.productId == productId && r.ingredientId == ingredientId
  }

  /** `id` is named by the batch: a line's product or an ingredient of its recipe. */
  ghost predicate NamedBy(recipes: seq<Recipe>, items: seq<LineItem>, id: Id)
  {
    items != []
    && (NamedBy(recipes, items[..|items| - 1], id)
        || items[|items| - 1].productId == id
        || RecipeLinks(recipes, items[|items| - 1].productId, id))
  }

  lemma {:induction false} DeductRecipesUntouched(products: map<Id, Product>, rs: seq<Recipe>, item: LineItem, id: Id)
    requires id in products
    requires forall j :: 0 <= j < |rs| ==> rs[j].ingredientId != id
    ensures id in DeductRecipes(products, rs, item) && DeductRecipes(products, rs, item)[id] == products[id]
  {
    DeductRecipesShape(products, rs, item);
    if rs != [] {
      DeductRecipesUntouched(products, rs[..|rs| - 1], item, id);
    }
  }

  /** Rows that no line and no recipe of a line's product names keep their stock. */
  lemma {:induction false} DeductAllUntouched(products: map<Id, Product>, recipes: seq<Recipe>, items: seq<LineItem>, id: Id)
    requires id in products
    requires !NamedBy(recipes, items, id)
    ensures id in DeductAll(products, recipes, items) && DeductAll(products, recipes, items)[id] == products[id]
  {
    if items != [] {
      var prefix := items[..|items| - 1];
      var item := items[|items| - 1];
      DeductAllUntouched(products, recipes, prefix, id);
      var mid := DeductAll(products, recipes, prefix);
      if item.productId in mid && !mid[item.productId].manageStock {
        var rs := RecipesOf(recipes, item.productId);
        forall j | 0 <= j < |rs| ensures rs[j].ingredientId != id {
          assert rs[j] in recipes && rs[j].productId == item.productId;
        }
        DeductRecipesUntouched(mid, rs, item, id);
      }
    }
  }

  // The floor applies once: with non-negative needs, a whole batch lowers a
  // row exactly as one floored subtraction of the batch's total would.

  /** Stock units the recipe rows of one line take from `id`, whose yield is `y`. */
  function RecipeDeduction(y: real, rs: seq<Recipe>, item: LineItem, id: Id): real
  {
    if rs == [] then 0.0
    else
      var recipe := rs[|rs| - 1];
      RecipeDeduction(y, rs[..|rs| - 1], item, id)
      + (if recipe.ingredientId == id && ModifierMultiplier(item.modifiers, id) != 0.0
         then StockUnits(Need(recipe, item), y)
         else 0.0)
  }

  function LineDeduction(products: map<Id, Product>, recipes: seq<Recipe>, item: LineItem, id: Id): real
    requires id in products
  {
    if item.productId !in products then 0.0
    else if products[item.productId].manageStock then (if item.productId == id then item.quantity else 0.0)
    else RecipeDeduction(YieldOf(products[id]), RecipesOf(recipes, item.productId), item, id)
  }

  /** Stock units the whole batch takes from `id`, before any flooring. */
  function TotalDeduction(products: map<Id, Product>, recipes: seq<Recipe>, items: seq<LineItem>, id: Id): real
    requires id in products
  {
    if items == [] then 0.0
    else TotalDeduction(products, recipes, items[..|items| - 1], id) + LineDeduction(products, recipes, items[|items| - 1], id)
  }

  /** Every deduction the batch asks for is non-negative. */
  ghost predicate NonNegativeNeeds(recipes: seq<Recipe>, items: seq<LineItem>)
  {
    && (forall k :: 0 <= k < |items| ==> items[k].quantity >= 0.0)
    && (forall k, r :: 0 <= k < |items| && r in recipes ==> Need(r, items[k]) >= 0.0)
  }

  lemma FloorCompose(s: real, a: real, d: real)
    requires d >= 0.0
    ensures Max0(Max0(s - a) - d) == Max0(s - (a + d))
  {
  }

  lemma {:induction false} DeductRecipesFloor(products: map<Id, Product>, rs: seq<Recipe>, item: LineItem,
                                              id: Id, s: real, a: real)
    requires id in products
    requires forall j :: 0 <= j < |rs| ==> Need(rs[j], item) >= 0.0
    requires products[id].stockCurrent == Max0(s - a)
    ensures id in DeductRecipes(products, rs, item)
    ensures YieldOf(DeductRecipes(products, rs, item)[id]) == YieldOf(products[id])
    ensures DeductRecipes(products, rs, item)[id].stockCurrent
            == Max0(s - (a + RecipeDeduction(YieldOf(products[id]), rs, item, id)))
  {
    if rs != [] {
      var init := rs[..|rs| - 1];
      DeductRecipesFloor(products, init, item, id, s, a);
      var p := DeductRecipes(products, init, item);
      var recipe := rs[|rs| - 1];
      var after := DeductRecipes(products, rs, item);
      if recipe.ingredientId == id && ModifierMultiplier(item.modifiers, id) != 0.0 {
        var y := YieldOf(products[id]);
        StockUnitsNonNegative(Need(recipe, item), y);
        FloorCompose(s, a + RecipeDeduction(y, init, item, id), StockUnits(Need(recipe, item), y));
        assert after[id] == p[id].(stockCurrent := Max0(p[id].stockCurrent - StockUnits(Need(recipe, item), y)));
      } else {
        assert after[id] == p[id];
      }
    }
  }

  /** One line of the batch lowers row `id` by its line deduction, floored once. */
  lemma DeductLineFloor(products: map<Id, Product>, mid: map<Id, Product>, recipes: seq<Recipe>, item: LineItem,
                        id: Id, a: real)
    requires id in products && SameRowsButStock(products, mid)
    requires item.quantity >= 0.0
    requires forall r :: r in recipes ==> Need(r, item) >= 0.0
    requires mid[id].stockCurrent == Max0(products[id].stockCurrent - a)
    ensures id in DeductLine(mid, recipes, item)
    ensures DeductLine(mid, recipes, item)[id].stockCurrent
            == Max0(products[id].stockCurrent - (a + LineDeduction(products, recipes, item, id)))
  {
    if item.productId in mid {
      if mid[item.productId].manageStock {
        if item.productId == id {
          FloorCompose(products[id].stockCurrent, a, item.quantity);
        }
      } else {
        var rs := RecipesOf(recipes, item.productId);
        assert YieldOf(mid[id]) == YieldOf(products[id]);
        DeductRecipesFloor(mid, rs, item, id, products[id].stockCurrent, a);
      }
    }
  }

  /** With non-negative stock and needs, each row ends at
      max(0, old stock − the batch's total deduction from it). */
  lemma {:induction false} DeductAllFloor(products: map<Id, Product>, recipes: seq<Recipe>, items: seq<LineItem>, id: Id)
    requires id in products
    requires StockNonNegative(products)
    requires NonNegativeNeeds(recipes, items)
    ensures id in DeductAll(products, recipes, items)
    ensures DeductAll(products, recipes, items)[id].stockCurrent
            == Max0(products[id].stockCurrent - TotalDeduction(products, recipes, items, id))
  {
    if items != [] {
      var prefix := items[..|items| - 1];
      var item := items[|items| - 1];
      assert forall k :: 0 <= k < |prefix| ==> prefix[k] == items[k];
      DeductAllFloor(products, recipes, prefix, id);
      var mid := DeductAll(products, recipes, prefix);
      DeductLineFloor(products, mid, recipes, item, id, TotalDeduction(products, recipes, prefix, id));
      assert DeductAll(products, recipes, items) == DeductLine(mid, recipes, item);
      assert TotalDeduction(products, recipes, items, id)
             == TotalDeduction(products, recipes, prefix, id) + LineDeduction(products, recipes, item, id);
    }
  }

  /** Direct-stock lines are checked one by one, not summed: two lines of one
      unit each pass against a stock of 1, and the deduction then floors at 0. */
  lemma DirectLinesCheckedOneByOne()
    ensures var p := Product("p", "Gaseosa", "c", 0.0, 0.0, true, 1.0, "", None, None, true);
            var items := [LineItem("p", 1.0, NoModifiers), LineItem("p", 1.0, NoModifiers)];
            && ValidationErrors(map["p" := p], [], items) == []
            && TotalDeduction(map["p" := p], [], items, "p") == 2.0
            && "p" in DeductAll(map["p" := p], [], items)
            && DeductAll(map["p" := p], [], items)["p"].stockCurrent == 0.0
  {
    var p := Product("p", "Gaseosa", "c", 0.0, 0.0, true, 1.0, "", None, None, true);
    var products := map["p" := p];
    var line := LineItem("p", 1.0, NoModifiers);
    var items := [line, line];
    assert items[..1] == [line];
    assert [line][..0] == [];
    assert DirectErrors(products, [line]) == [];
    assert DirectErrors(products, items) == [];
    assert Accumulate(products, [], [line]) == Requirements([], map[]);
    assert Accumulate(products, [], items) == Requirements([], map[]);
    var once := DeductAll(products, [], [line]);
    assert DeductAll(products, [], []) == products;
    assert once == DeductRow(products, "p", 1.0);
    assert once == map["p" := p.(stockCurrent := 0.0)];
    assert DeductAll(products, [], items) == map["p" := p.(stockCurrent := 0.0)];
    assert TotalDeduction(products, [], [line], "p") == 1.0;
  }

  // ===== formatValidationErrors =====

  const Header: string := "Stock insuficiente:\n"

  /** One message line; `show` renders a number as the template literal does. */
  function ErrorLine(e: StockError, show: real -> string): (r: string)
    ensures Truthy(e.ingredientName) ==> StartsWith(r, e.ingredientName.value + ": necesitas ")
    ensures !Truthy(e.ingredientName) ==> StartsWith(r, e.productName + ": necesitas ")
  {
    var amounts := show(e.required) + " " + e.unit + ", solo hay " + show(e.available) + " " + e.unit;
    if Truthy(e.ingredientName) then
      var r := e.ingredientName.value + ": necesitas " + amounts + " (para " + e.productName + ")";
      assert r[..|e.ingredientName.value + ": necesitas "|] == e.ingredientName.value + ": necesitas ";
      r
    else
      var r := e.productName + ": necesitas " + amounts;
      assert r[..|e.productName + ": necesitas "|] == e.productName + ": necesitas ";
      r
  }

  /** The ingredient form of a line ends by naming the products that need it. */
  lemma IngredientLineNamesProduct(e: StockError, show: real -> string)
    requires Truthy(e.ingredientName)
    ensures var r := ErrorLine(e, show);
            var tail := " (para " + e.productName + ")";
            |tail| <= |r| && r[|r| - |tail|..] == tail
  {
  }

  function ErrorLines(errors: seq<StockError>, show: real -> string): (r: seq<string>)
    ensures |r| == |errors|
    ensures forall k :: 0 <= k < |errors| ==> r[k] == ErrorLine(errors[k], show)
  {
    if errors == [] then [] else ErrorLines(errors[..|errors| - 1], show) + [ErrorLine(errors[|errors| - 1], show)]
  }

  function FormatValidationErrors(errors: seq<StockError>, show: real -> string): (r: string)
    ensures r == "" <==> errors == []
    ensures errors != [] ==> StartsWith(r, Header)
    ensures |errors| == 1 ==> r == Header + ErrorLine(errors[0], show)
  {
    if errors == [] then ""
    else
      var r := Header + Join(ErrorLines(errors, show), "\n");
      assert r[..|Header|] == Header;
      r
  }

  /** One more error adds exactly one more line at the end of the message. */
  lemma FormatAppend(errors: seq<StockError>, e: StockError, show: real -> string)
    requires errors != []
    ensures FormatValidationErrors(errors + [e], show)
            == FormatValidationErrors(errors, show) + "\n" + ErrorLine(e, show)
  {
    var before, line := ErrorLines(errors, show), ErrorLine(e, show);
    assert ErrorLines(errors + [e], show) == before + [line];
    JoinAppend(before, line, "\n");
    var j := Join(before, "\n");
    ConcatAssoc(Header, j + "\n", line);
    ConcatAssoc(Header, j, "\n");
  }

  // ===== validateAndDeductStock =====

  datatype StockOutcome = StockOutcome(success: bool, error: string, errors: seq<StockError>)

  /** Validates the batch; deducts only when the validation passed. */
  method ValidateAndDeductStock(db: Db, items: seq<LineItem>, show: real -> string) returns (outcome: StockOutcome)
    modifies db`products
    ensures outcome.success <==> ValidationErrors(old(db.products), db.recipes, items) == []
    ensures !outcome.success ==> db.products == old(db.products)
                                 && outcome.errors == ValidationErrors(old(db.products), db.recipes, items)
                                 && outcome.error == FormatValidationErrors(outcome.errors, show)
    ensures outcome.success ==> db.products == DeductAll(old(db.products), db.recipes, items)
  {
    var validation := ValidateStockForItems(db, items);
    if !validation.isValid {
      return StockOutcome(false, FormatValidationErrors(validation.errors, show), validation.errors);
    }
    DeductStockForItems(db, items);
    outcome := StockOutcome(true, "", []);
  }
}
