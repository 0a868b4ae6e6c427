/** The catalog tables (categories, products, recipes, café tables): the
    admin upserts with their defaults and events, the delete guards that keep
    references intact, the table-status switch, and the bulk catalog sync. */
module Catalog {
  import opened Common
  import opened Store
  import Sync

  const DefaultColor := "#6B7280"
  const DefaultUnit := "unid"
  const FreeStatus := "free"
  const OccupiedStatus := "occupied"
  const PendingStatus := "pending"

  const CreateAction := "create"
  const UpdateAction := "update"
  const DeleteAction := "delete"

  const CategoryEntity := "category"
  const ProductEntity := "product"
  const RecipeEntity := "recipe"
  const TableEntity := "table"

  const InitialStock := "initial_stock"
  const AdminUpdate := "admin_update"

  const IdAndNameRequired := "Se requiere id y name"
  const CategorySaved := "Categoría guardada"
  const CategoryInUseError := "No se puede eliminar: hay productos usando esta categoría"
  const CategoryDeleted := "Categoría eliminada"
  const ProductFieldsRequired := "Se requiere id, name y category_id"
  const ProductSaved := "Producto guardado"
  const ProductSoldError := "No se puede eliminar: hay ventas con este producto"
  const ProductDeleted := "Producto eliminado"
  const RecipeFieldsRequired := "Se requiere id, product_id e ingredient_id"
  const RecipeSaved := "Receta guardada"
  const RecipeDeleted := "Receta eliminada"
  const TableSaved := "Mesa guardada"
  const InvalidTableStatus := "Se requiere status válido (free | occupied)"
  const TableNotFound := "Mesa no encontrada"
  const TablePendingError := "No se puede eliminar: hay ventas pendientes en esta mesa"
  const TableDeleted := "Mesa eliminada"

  /** The `action` of a catalog event after an upsert. */
  function ActionFor(existed: bool): (a: string)
    ensures a == UpdateAction <==> existed
    ensures a == CreateAction <==> !existed
  {
    if existed then UpdateAction else CreateAction
  }

  // ===== categories =====

  /** The row the category upsert writes: `color || '#6B7280'`. */
  function CategoryRow(id: Id, name: string, color: Option<string>): (c: Category)
    ensures c.id == id && c.name == name && c.isSynced
    ensures Truthy(color) ==> c.color == color.value
    ensures !Truthy(color) ==> c.color == DefaultColor
  {
    Category(id, name, TextOr(color, DefaultColor), true)
  }

  method UpsertCategory(db: Db, id: Option<Id>, name: Option<string>, color: Option<string>)
    returns (r: Reply)
    modifies db`categories, db`events
    ensures r.Failure? <==> !Truthy(id) || !Truthy(name)
    ensures r.Failure? ==>
      r == Failure(400, IdAndNameRequired) && db.categories == old(db.categories) && db.events == old(db.events)
    ensures r.Success? ==>
      var row := CategoryRow(id.value, name.value, color);
      && r == Success(CategorySaved)
      && db.categories == old(db.categories)[id.value := row]
      && db.events == old(db.events)
         + [CatalogUpdate(CategoryEntity, ActionFor(id.value in old(db.categories)), id.value, CategoryData(row))]
  {
    if !Truthy(id) || !Truthy(name) {
      return Failure(400, IdAndNameRequired);
    }
    var action := ActionFor(id.value in db.categories);
    var row := CategoryRow(id.value, name.value, color);
    db.categories := db.categories[id.value := row];
    db.events := db.events + [CatalogUpdate(CategoryEntity, action, id.value, CategoryData(row))];
    r := Success(CategorySaved);
  }

  /** `SELECT COUNT(*) FROM products WHERE category_id = ?` is positive. */
  predicate CategoryInUse(products: map<Id, Product>, categoryId: Id)
  {
    exists p :: p in products && products[p].categoryId == categoryId
  }

  /** Every product's category exists. */
  ghost predicate CategoriesResolve(products: map<Id, Product>, categories: map<Id, Category>)
  {
    forall p :: p in products ==> products[p].categoryId in categories
  }

  method DeleteCategory(db: Db, id: Id) returns (r: Reply)
    modifies db`categories, db`events
    ensures r.Failure? <==> CategoryInUse(db.products, id)
    ensures r.Failure? ==>
      r == Failure(400, CategoryInUseError) && db.categories == old(db.categories) && db.events == old(db.events)
    ensures r.Success? ==>
      && r == Success(CategoryDeleted)
      && db.categories == old(db.categories) - {id}
      && db.events == old(db.events) + [CatalogUpdate(CategoryEntity, DeleteAction, id, NoData)]
  {
    if CategoryInUse(db.products, id) {
      return Failure(400, CategoryInUseError);
    }
    db.categories := db.categories - {id};
    db.events := db.events + [CatalogUpdate(CategoryEntity, DeleteAction, id, NoData)];
    r := Success(CategoryDeleted);
  }

  /** The guard keeps every product's category in place: a category that
      passes it is used by no product, and upserting a category only adds
      or rewrites rows. */
  lemma CategoryGuardKeepsReferences(products: map<Id, Product>, categories: map<Id, Category>, id: Id, row: Category)
    requires CategoriesResolve(products, categories)
    ensures !CategoryInUse(products, id) ==> CategoriesResolve(products, categories - {id})
    ensures CategoriesResolve(products, categories[row.id := row])
  {
  }

  // ===== products =====

  /** The fields of a product body besides its keys; each is absent when the
      body leaves it out. */
  datatype ProductFields = ProductFields(
    price: Option<real>,
    costUnit: Option<real>,
    manageStock: JsValue,
    stockCurrent: Option<real>,
    unit: Option<string>,
    yieldPerUnit: Option<real>,
    portionName: Option<string>)

  /** The row the product upsert writes, every column from the body with its default. */
  function ProductRow(id: Id, name: string, categoryId: Id, f: ProductFields): (p: Product)
    ensures p.id == id && p.name == name && p.categoryId == categoryId && p.isSynced
    ensures (f.price.None? || f.price.value == 0.0) ==> p.price == 0.0
    ensures f.price.Some? ==> p.price == f.price.value
    ensures (f.costUnit.None? || f.costUnit.value == 0.0) ==> p.costUnit == 0.0
    ensures f.costUnit.Some? ==> p.costUnit == f.costUnit.value
    ensures p.manageStock <==> JsTruthy(f.manageStock)
    ensures f.stockCurrent.None? ==> p.stockCurrent == 0.0
    ensures f.stockCurrent.Some? ==> p.stockCurrent == f.stockCurrent.value
    ensures Truthy(f.unit) ==> p.unit == f.unit.value
    ensures !Truthy(f.unit) ==> p.unit == DefaultUnit
    ensures p.yieldPerUnit.Some? <==> f.yieldPerUnit.Some? && f.yieldPerUnit.value != 0.0
    ensures p.yieldPerUnit.Some? ==> p.yieldPerUnit == f.yieldPerUnit
    ensures p.portionName.Some? <==> Truthy(f.portionName)
    ensures p.portionName.Some? ==> p.portionName == f.portionName
  {
    Product(id, name, categoryId, NumOr(f.price, 0.0), NumOr(f.costUnit, 0.0), JsTruthy(f.manageStock),
            NumOr(f.stockCurrent, 0.0), TextOr(f.unit, DefaultUnit), NumOrNull(f.yieldPerUnit),
            TextOrNull(f.portionName), true)
  }

  /** The stock before the upsert: the stored row's, or 0 for a new product. */
  function PreviousStock(existing: Option<Product>): real
  {
    if existing.Some? then existing.value.stockCurrent else 0.0
  }

  /** The stock-change event that follows a product upsert, if any. */
  function StockEvents(existing: Option<Product>, row: Product): seq<Event>
  {
    if row.manageStock && PreviousStock(existing) != row.stockCurrent then
      [StockChange(row.id, if existing.Some? then existing.value.name else row.name,
                   PreviousStock(existing), row.stockCurrent,
                   if existing.Some? then AdminUpdate else InitialStock)]
    else []
  }

  /** A stock change is announced exactly when the product is stock-managed
      and its stock differs from the stored one (0 for a new product); it
      names the previous name, and its reason tells creation from update. */
  lemma StockEventRule(existing: Option<Product>, row: Product)
    ensures var es := StockEvents(existing, row);
      && |es| <= 1
      && (|es| == 1 <==>
            row.manageStock
            && (existing.None? ==> row.stockCurrent != 0.0)
            && (existing.Some? ==> row.stockCurrent != existing.value.stockCurrent))
      && (|es| == 1 ==>
            && es[0].StockChange?
            && es[0].productId == row.id && es[0].newStock == row.stockCurrent
            && (existing.None? ==> es[0].productName == row.name && es[0].previousStock == 0.0)
            && (existing.Some? ==> es[0].productName == existing.value.name
                                   && es[0].previousStock == existing.value.stockCurrent)
            && (es[0].reason == InitialStock <==> existing.None?)
            && (es[0].reason == AdminUpdate <==> existing.Some?))
  {
  }

  method UpsertProduct(db: Db, id: Option<Id>, name: Option<string>, categoryId: Option<Id>, f: ProductFields)
    returns (r: Reply)
    modifies db`products, db`events
    ensures r.Failure? <==> !Truthy(id) || !Truthy(name) || !Truthy(categoryId)
    ensures r.Failure? ==>
      r == Failure(400, ProductFieldsRequired) && db.products == old(db.products) && db.events == old(db.events)
    ensures r.Success? ==>
      var existing := RowById(old(db.products), id.value);
      var row := ProductRow(id.value, name.value, categoryId.value, f);
      && r == Success(ProductSaved)
      && db.products == old(db.products)[id.value := row]
      && db.events == old(db.events)
         + [CatalogUpdate(ProductEntity, ActionFor(existing.Some?), id.value, ProductData(row))]
         + StockEvents(existing, row)
  {
    if !Truthy(id) || !Truthy(name) || !Truthy(categoryId) {
      return Failure(400, ProductFieldsRequired);
    }
    var existing := RowById(db.products, id.value);
    var row := ProductRow(id.value, name.value, categoryId.value, f);
    db.products := db.products[id.value := row];
    db.events := db.events + [CatalogUpdate(ProductEntity, ActionFor(existing.Some?), id.value, ProductData(row))];
    db.events := db.events + StockEvents(existing, row);
    r := Success(ProductSaved);
  }

  /** `SELECT COUNT(*) FROM sale_items WHERE product_id = ?` is positive. */
  predicate Sold(items: seq<SaleItem>, productId: Id)
  {
    exists k :: 0 <= k < |items| && items[k].productId == productId
  }

  // ----- recipe filters -----

  /** The rows a recipe `DELETE` removes: those naming a product as either
      side, or the one with an id. */
  datatype RecipeSelector = UsingProduct(productId: Id) | WithId(recipeId: Id)

  predicate Selected(sel: RecipeSelector, r: Recipe)
  {
    match sel
    case UsingProduct(p) => r.productId == p || r.ingredientId == p
    case WithId(i) => r.id == i
  }

  /** The recipes left after the `DELETE`, in table order. */
  function RecipesExcept(rs: seq<Recipe>, sel: RecipeSelector): (r: seq<Recipe>)
    ensures |r| <= |rs|
    ensures forall k :: 0 <= k < |r| ==> r[k] in rs && !Selected(sel, r[k])
  {
    if rs == [] then []
    else
      var last := rs[|rs| - 1];
      RecipesExcept(rs[..|rs| - 1], sel) + (if Selected(sel, last) then [] else [last])
  }

  /** Every recipe the selector does not name survives the delete. */
  lemma {:induction false} RecipesExceptKeeps(rs: seq<Recipe>, sel: RecipeSelector)
    ensures forall k :: 0 <= k < |rs| && !Selected(sel, rs[k]) ==> rs[k] in RecipesExcept(rs, sel)
  {
    if rs != [] {
      var n := |rs| - 1;
      RecipesExceptKeeps(rs[..n], sel);
      forall k | 0 <= k < |rs| && !Selected(sel, rs[k]) ensures rs[k] in RecipesExcept(rs, sel) {
        if k < n {
          assert rs[..n][k] == rs[k];
        }
      }
    }
  }

  /** A recipe survives the delete exactly when the selector does not name it. */
  lemma RecipesExceptSpec(rs: seq<Recipe>, sel: RecipeSelector, x: Recipe)
    ensures x in RecipesExcept(rs, sel) <==> x in rs && !Selected(sel, x)
  {
    RecipesExceptKeeps(rs, sel);
    var after := RecipesExcept(rs, sel);
    if x in after {
      var k :| 0 <= k < |after| && after[k] == x;
    }
  }

  /** Every recipe's product and ingredient exist. */
  ghost predicate RecipesResolve(recipes: seq<Recipe>, products: map<Id, Product>)
  {
    forall k :: 0 <= k < |recipes| ==> recipes[k].productId in products && recipes[k].ingredientId in products
  }

  method DeleteProduct(db: Db, id: Id) returns (r: Reply)
    modifies db`recipes, db`products, db`events
    ensures r.Failure? <==> Sold(db.saleItems, id)
    ensures r.Failure? ==>
      && r == Failure(400, ProductSoldError)
      && db.recipes == old(db.recipes) && db.products == old(db.products) && db.events == old(db.events)
    ensures r.Success? ==>
      && r == Success(ProductDeleted)
      && db.recipes == RecipesExcept(old(db.recipes), UsingProduct(id))
      && db.products == old(db.products) - {id}
      && db.events == old(db.events) + [CatalogUpdate(ProductEntity, DeleteAction, id, NoData)]
  {
    if Sold(db.saleItems, id) {
      return Failure(400, ProductSoldError);
    }
    db.recipes := RecipesExcept(db.recipes, UsingProduct(id));
    db.products := db.products - {id};
    db.events := db.events + [CatalogUpdate(ProductEntity, DeleteAction, id, NoData)];
    r := Success(ProductDeleted);
  }

  /** The cascade keeps recipes resolvable: once the recipes naming the
      product are gone, removing the product leaves no dangling recipe. */
  lemma ProductDeleteKeepsRecipesResolved(recipes: seq<Recipe>, products: map<Id, Product>, id: Id)
    requires RecipesResolve(recipes, products)
    ensures RecipesResolve(RecipesExcept(recipes, UsingProduct(id)), products - {id})
  {
    var after := RecipesExcept(recipes, UsingProduct(id));
    forall k | 0 <= k < |after|
      ensures after[k].productId in products - {id} && after[k].ingredientId in products - {id}
    {
      var j :| 0 <= j < |recipes| && recipes[j] == after[k];
    }
  }

  // ===== recipes =====

  /** The row the recipe upsert writes: `quantity_required || 0`. */
  function RecipeRow(id: Id, productId: Id, ingredientId: Id, quantity: Option<real>): (r: Recipe)
    ensures r.id == id && r.productId == productId && r.ingredientId == ingredientId && r.isSynced
    ensures quantity.Some? ==> r.quantityRequired == quantity.value
    ensures quantity.None? ==> r.quantityRequired == 0.0
  {
    Recipe(id, productId, ingredientId, NumOr(quantity, 0.0), true)
  }

  /** The position of the first recipe with the id, or `|rs|`. */
  function RecipeIndex(rs: seq<Recipe>, id: Id): (k: nat)
    ensures k <= |rs|
    ensures k < |rs| ==> rs[k].id == id
    ensures forall j :: 0 <= j < k ==> rs[j].id != id
  {
    IndexOf(rs, (r: Recipe) => r.id, id)
  }

  /** `INSERT … ON DUPLICATE KEY UPDATE` on the recipes table. */
  function UpsertRecipeRow(rs: seq<Recipe>, row: Recipe): seq<Recipe>
  {
    var k := RecipeIndex(rs, row.id);
    if k < |rs| then rs[k := row] else rs + [row]
  }

  /** No two recipes share an id. */
  ghost predicate UniqueRecipeIds(rs: seq<Recipe>)
  {
    forall i, j :: 0 <= i < j < |rs| ==> rs[i].id != rs[j].id
  }

  /** The upsert stores the row, keeps every recipe with another id, grows
      the table only for a new id, and keeps ids unique; repeating it changes
      nothing. */
  lemma RecipeUpserted(rs: seq<Recipe>, row: Recipe)
    ensures var after := UpsertRecipeRow(rs, row);
      && row in after
      && (forall j :: 0 <= j < |rs| && rs[j].id != row.id ==> rs[j] in after)
      && (|after| == |rs| + 1 <==> forall j :: 0 <= j < |rs| ==> rs[j].id != row.id)
      && (UniqueRecipeIds(rs) ==> UniqueRecipeIds(after))
      && (UniqueRecipeIds(rs) ==> forall j :: 0 <= j < |after| && after[j].id == row.id ==> after[j] == row)
  {
    var k := RecipeIndex(rs, row.id);
    var after := UpsertRecipeRow(rs, row);
    if k < |rs| {
      assert after[k] == row && rs[k].id == row.id;
      forall j | 0 <= j < |rs| && j != k ensures after[j] == rs[j] {
      }
      if UniqueRecipeIds(rs) {
        forall i, j | 0 <= i < j < |after| ensures after[i].id != after[j].id {
          assert after[i].id == rs[i].id && after[j].id == rs[j].id;
        }
      }
    } else {
      assert after[|rs|] == row;
      assert after[..|rs|] == rs;
    }
  }

  /** Upserting the same recipe twice is the same as once. */
  lemma RecipeUpsertIdempotent(rs: seq<Recipe>, row: Recipe)
    requires UniqueRecipeIds(rs)
    ensures UpsertRecipeRow(UpsertRecipeRow(rs, row), row) == UpsertRecipeRow(rs, row)
  {
    var k := RecipeIndex(rs, row.id);
    var after := UpsertRecipeRow(rs, row);
    RecipeUpserted(rs, row);
    var k2 := RecipeIndex(after, row.id);
    assert k2 < |after| by {
      if k < |rs| { assert after[k].id == row.id; } else { assert after[|rs|].id == row.id; }
    }
  }

  method UpsertRecipe(db: Db, id: Option<Id>, productId: Option<Id>, ingredientId: Option<Id>, quantity: Option<real>)
    returns (r: Reply)
    modifies db`recipes, db`events
    ensures r.Failure? <==> !Truthy(id) || !Truthy(productId) || !Truthy(ingredientId)
    ensures r.Failure? ==>
      r == Failure(400, RecipeFieldsRequired) && db.recipes == old(db.recipes) && db.events == old(db.events)
    ensures r.Success? ==>
      var row := RecipeRow(id.value, productId.value, ingredientId.value, quantity);
      && r == Success(RecipeSaved)
      && db.recipes == UpsertRecipeRow(old(db.recipes), row)
      && db.events == old(db.events)
         + [CatalogUpdate(RecipeEntity, ActionFor(RecipeIndex(old(db.recipes), id.value) < |old(db.recipes)|),
                          id.value, RecipeData(row))]
  {
    if !Truthy(id) || !Truthy(productId) || !Truthy(ingredientId) {
      return Failure(400, RecipeFieldsRequired);
    }
    var action := ActionFor(RecipeIndex(db.recipes, id.value) < |db.recipes|);
    var row := RecipeRow(id.value, productId.value, ingredientId.value, quantity);
    db.recipes := UpsertRecipeRow(db.recipes, row);
    db.events := db.events + [CatalogUpdate(RecipeEntity, action, id.value, RecipeData(row))];
    r := Success(RecipeSaved);
  }

  /** Deleting a recipe by id always succeeds, even for an unknown id. */
  method DeleteRecipe(db: Db, id: Id) returns (r: Reply)
    modifies db`recipes, db`events
    ensures r == Success(RecipeDeleted)
    ensures db.recipes == RecipesExcept(old(db.recipes), WithId(id))
    ensures db.events == old(db.events) + [CatalogUpdate(RecipeEntity, DeleteAction, id, NoData)]
  {
    db.recipes := RecipesExcept(db.recipes, WithId(id));
    db.events := db.events + [CatalogUpdate(RecipeEntity, DeleteAction, id, NoData)];
    r := Success(RecipeDeleted);
  }

  // ===== café tables =====

  /** The row the table upsert writes: `status || 'free'`. */
  function TableRow(id: Id, name: string, status: Option<string>): (t: CafeTable)
    ensures t.id == id && t.name == name && t.isSynced
    ensures Truthy(status) ==> t.status == status.value
    ensures !Truthy(status) ==> t.status == FreeStatus
  {
    CafeTable(id, name, TextOr(status, FreeStatus), true)
  }

  /** The stored status before the upsert, or null for a new table. */
  function PreviousStatus(tables: map<Id, CafeTable>, id: Id): (s: Option<string>)
    ensures s.Some? <==> id in tables
    ensures s.Some? ==> s.value == tables[id].status
  {
    if id in tables then Some(tables[id].status) else None
  }

  /** The events of a table upsert: a status change when the status differs
      from the stored one, then the catalog update, whose action is `update`
      only when the stored status was non-empty. */
  function TableEvents(previous: Option<string>, row: CafeTable): seq<Event>
  {
    (if previous != Some(row.status) then [TableStatusChange(row.id, row.name, row.status, None)] else [])
    + [CatalogUpdate(TableEntity, if Truthy(previous) then UpdateAction else CreateAction, row.id, TableData(row))]
  }

  /** A status change is announced exactly when the table is new or its
      status changes; the catalog update always follows it. */
  lemma TableEventRule(tables: map<Id, CafeTable>, row: CafeTable)
    ensures var es := TableEvents(PreviousStatus(tables, row.id), row);
      && (|es| == 2 <==> row.id !in tables || tables[row.id].status != row.status)
      && |es| >= 1 && es[|es| - 1].CatalogUpdate? && es[|es| - 1].data == TableData(row)
      && (|es| == 2 ==> es[0] == TableStatusChange(row.id, row.name, row.status, None))
      && (row.id !in tables ==> es[|es| - 1].action == CreateAction)
  {
  }

  method UpsertTable(db: Db, id: Option<Id>, name: Option<string>, status: Option<string>)
    returns (r: Reply)
    modifies db`tables, db`events
    ensures r.Failure? <==> !Truthy(id) || !Truthy(name)
    ensures r.Failure? ==>
      r == Failure(400, IdAndNameRequired) && db.tables == old(db.tables) && db.events == old(db.events)
    ensures r.Success? ==>
      var row := TableRow(id.value, name.value, status);
      && r == Success(TableSaved)
      && db.tables == old(db.tables)[id.value := row]
      && db.events == old(db.events) + TableEvents(PreviousStatus(old(db.tables), id.value), row)
  {
    if !Truthy(id) || !Truthy(name) {
      return Failure(400, IdAndNameRequired);
    }
    var previous := PreviousStatus(db.tables, id.value);
    var row := TableRow(id.value, name.value, status);
    db.tables := db.tables[id.value := row];
    db.events := db.events + TableEvents(previous, row);
    r := Success(TableSaved);
  }

  /** `status` is `'free'` or `'occupied'` (a strict `includes`). */
  predicate ValidTableStatus(status: JsValue)
  {
    status == Text(FreeStatus) || status == Text(OccupiedStatus)
  }

  datatype TableStatusReply =
    | StatusRejected(status: nat, error: string)
    | StatusChanged(message: string, id: Id, name: string, tableStatus: string)

  function StatusMessage(name: string, status: string): string
  {
    "Mesa " + name + " ahora está " + (if status == FreeStatus then "disponible" else "ocupada")
  }

  /** `SET status = ?, is_synced = 1`. */
  function WithTableStatus(t: CafeTable, status: string): CafeTable
  {
    t.(status := status, isSynced := true)
  }

  method UpdateTableStatus(db: Db, id: Id, status: JsValue, currentSaleId: Option<Id>)
    returns (r: TableStatusReply)
    modifies db`tables, db`events
    ensures !ValidTableStatus(status) ==>
      r == StatusRejected(400, InvalidTableStatus) && db.tables == old(db.tables) && db.events == old(db.events)
    ensures ValidTableStatus(status) && id !in old(db.tables) ==>
      r == StatusRejected(404, TableNotFound) && db.tables == old(db.tables) && db.events == old(db.events)
    ensures r.StatusChanged? <==> ValidTableStatus(status) && id in old(db.tables)
    ensures r.StatusChanged? ==>
      var t := old(db.tables)[id];
      && db.tables == old(db.tables)[id := WithTableStatus(t, status.s)]
      && db.tables[id].status in {FreeStatus, OccupiedStatus}
      && db.events == old(db.events) + [TableStatusChange(id, t.name, status.s, currentSaleId)]
      && r == StatusChanged(StatusMessage(t.name, status.s), id, t.name, status.s)
  {
    if !ValidTableStatus(status) {
      return StatusRejected(400, InvalidTableStatus);
    }
    if id !in db.tables {
      return StatusRejected(404, TableNotFound);
    }
    var t := db.tables[id];
    db.tables := db.tables[id := WithTableStatus(t, status.s)];
    db.events := db.events + [TableStatusChange(id, t.name, status.s, currentSaleId)];
    r := StatusChanged(StatusMessage(t.name, status.s), id, t.name, status.s);
  }

  /** `SELECT COUNT(*) FROM sales WHERE table_id = ? AND status = 'pending'` is positive. */
  predicate HasPendingSale(sales: map<Id, Sale>, tableId: Id)
  {
    exists s :: s in sales && sales[s].tableId == Some(tableId) && sales[s].status == PendingStatus
  }

  /** Every pending sale's table exists. */
  ghost predicate PendingTablesExist(sales: map<Id, Sale>, tables: map<Id, CafeTable>)
  {
    forall s :: s in sales && sales[s].status == PendingStatus && sales[s].tableId.Some? ==>
      sales[s].tableId.value in tables
  }

  /** Deleting a table announces nothing. */
  method DeleteTable(db: Db, id: Id) returns (r: Reply)
    modifies db`tables
    ensures r.Failure? <==> HasPendingSale(db.sales, id)
    ensures r.Failure? ==> r == Failure(400, TablePendingError) && db.tables == old(db.tables)
    ensures r.Success? ==> r == Success(TableDeleted) && db.tables == old(db.tables) - {id}
  {
    if HasPendingSale(db.sales, id) {
      return Failure(400, TablePendingError);
    }
    db.tables := db.tables - {id};
    r := Success(TableDeleted);
  }

  /** The guard keeps every pending sale's table in place. */
  lemma TableGuardKeepsPendingSales(sales: map<Id, Sale>, tables: map<Id, CafeTable>, id: Id)
    requires PendingTablesExist(sales, tables)
    requires !HasPendingSale(sales, id)
    ensures PendingTablesExist(sales, tables - {id})
  {
  }

  // ===== syncCatalog =====

  datatype CategoryRecord = CategoryRecord(id: Id, name: string, color: Option<string>)
  datatype ProductRecord = ProductRecord(id: Id, name: string, categoryId: Id, fields: ProductFields)
  datatype RecipeRecord = RecipeRecord(id: Id, productId: Id, ingredientId: Id, quantityRequired: Option<real>)
  datatype TableRecord = TableRecord(id: Id, name: string, status: Option<string>)

  function CategoryKey(r: CategoryRecord): Id { r.id }
  function ProductKey(r: ProductRecord): Id { r.id }
  function RecipeKey(r: RecipeRecord): Id { r.id }
  function TableKey(r: TableRecord): Id { r.id }

  /** The sync writes the same rows, with the same defaults, as the admin upserts. */
  function SyncedCategory(t: map<Id, Category>, r: CategoryRecord): map<Id, Category>
  {
    t[r.id := CategoryRow(r.id, r.name, r.color)]
  }

  function SyncedProduct(t: map<Id, Product>, r: ProductRecord): map<Id, Product>
  {
    t[r.id := ProductRow(r.id, r.name, r.categoryId, r.fields)]
  }

  function SyncedRecipe(t: seq<Recipe>, r: RecipeRecord): seq<Recipe>
  {
    UpsertRecipeRow(t, RecipeRow(r.id, r.productId, r.ingredientId, r.quantityRequired))
  }

  function SyncedTable(t: map<Id, CafeTable>, r: TableRecord): map<Id, CafeTable>
  {
    t[r.id := TableRow(r.id, r.name, r.status)]
  }

  /** Which records of each list the datastore refuses, by position. */
  datatype CatalogRefusals = CatalogRefusals(
    categories: nat -> bool, products: nat -> bool, recipes: nat -> bool, tables: nat -> bool)

  datatype CatalogResults = CatalogResults(
    categories: EntityResult, products: EntityResult, recipes: EntityResult, tables: EntityResult)

  method CategoryBatch(db: Db, recs: seq<CategoryRecord>, fails: nat -> bool) returns (res: EntityResult)
    modifies db`categories
    ensures db.categories == Sync.Batch(old(db.categories), recs, SyncedCategory, fails)
    ensures res == Sync.Outcome(recs, CategoryKey, fails)
  {
    res := EntityResult(0, []);
    var i := 0;
    while i < |recs|
      invariant 0 <= i <= |recs|
      invariant db.categories == Sync.Batch(old(db.categories), recs[..i], SyncedCategory, fails)
      invariant res == Sync.Outcome(recs[..i], CategoryKey, fails)
    {
      Sync.BatchStep(old(db.categories), recs, i, SyncedCategory, CategoryKey, fails);
      if fails(i) {
        res := res.(errors := res.errors + [RecordError(recs[i].id)]);
      } else {
        db.categories := SyncedCategory(db.categories, recs[i]);
        res := res.(synced := res.synced + 1);
      }
      i := i + 1;
    }
    assert recs[..|recs|] == recs;
  }

  method ProductBatch(db: Db, recs: seq<ProductRecord>, fails: nat -> bool) returns (res: EntityResult)
    modifies db`products
    ensures db.products == Sync.Batch(old(db.products), recs, SyncedProduct, fails)
    ensures res == Sync.Outcome(recs, ProductKey, fails)
  {
    res := EntityResult(0, []);
    var i := 0;
    while i < |recs|
      invariant 0 <= i <= |recs|
      invariant db.products == Sync.Batch(old(db.products), recs[..i], SyncedProduct, fails)
      invariant res == Sync.Outcome(recs[..i], ProductKey, fails)
    {
      Sync.BatchStep(old(db.products), recs, i, SyncedProduct, ProductKey, fails);
      if fails(i) {
        res := res.(errors := res.errors + [RecordError(recs[i].id)]);
      } else {
        db.products := SyncedProduct(db.products, recs[i]);
        res := res.(synced := res.synced + 1);
      }
      i := i + 1;
    }
    assert recs[..|recs|] == recs;
  }

  method RecipeBatch(db: Db, recs: seq<RecipeRecord>, fails: nat -> bool) returns (res: EntityResult)
    modifies db`recipes
    ensures db.recipes == Sync.Batch(old(db.recipes), recs, SyncedRecipe, fails)
    ensures res == Sync.Outcome(recs, RecipeKey, fails)
  {
    res := EntityResult(0, []);
    var i := 0;
    while i < |recs|
      invariant 0 <= i <= |recs|
      invariant db.recipes == Sync.Batch(old(db.recipes), recs[..i], SyncedRecipe, fails)
      invariant res == Sync.Outcome(recs[..i], RecipeKey, fails)
    {
      Sync.BatchStep(old(db.recipes), recs, i, SyncedRecipe, RecipeKey, fails);
      if fails(i) {
        res := res.(errors := res.errors + [RecordError(recs[i].id)]);
      } else {
        db.recipes := SyncedRecipe(db.recipes, recs[i]);
        res := res.(synced := res.synced + 1);
      }
      i := i + 1;
    }
    assert recs[..|recs|] == recs;
  }

  method TableBatch(db: Db, recs: seq<TableRecord>, fails: nat -> bool) returns (res: EntityResult)
    modifies db`tables
    ensures db.tables == Sync.Batch(old(db.tables), recs, SyncedTable, fails)
    ensures res == Sync.Outcome(recs, TableKey, fails)
  {
    res := EntityResult(0, []);
    var i := 0;
    while i < |recs|
      invariant 0 <= i <= |recs|
      invariant db.tables == Sync.Batch(old(db.tables), recs[..i], SyncedTable, fails)
      invariant res == Sync.Outcome(recs[..i], TableKey, fails)
    {
      Sync.BatchStep(old(db.tables), recs, i, SyncedTable, TableKey, fails);
      if fails(i) {
        res := res.(errors := res.errors + [RecordError(recs[i].id)]);
      } else {
        db.tables := SyncedTable(db.tables, recs[i]);
        res := res.(synced := res.synced + 1);
      }
      i := i + 1;
    }
    assert recs[..|recs|] == recs;
  }

  /** Categories, then products, then recipes, then tables; a refused record
      is reported and the rest go on. No event is broadcast. */
  method SyncCatalog(db: Db, categories: seq<CategoryRecord>, products: seq<ProductRecord>,
                     recipes: seq<RecipeRecord>, tables: seq<TableRecord>, no: CatalogRefusals)
    returns (res: CatalogResults)
    modifies db`categories, db`products, db`recipes, db`tables
    ensures db.categories == Sync.Batch(old(db.categories), categories, SyncedCategory, no.categories)
    ensures db.products == Sync.Batch(old(db.products), products, SyncedProduct, no.products)
    ensures db.recipes == Sync.Batch(old(db.recipes), recipes, SyncedRecipe, no.recipes)
    ensures db.tables == Sync.Batch(old(db.tables), tables, SyncedTable, no.tables)
    ensures res == CatalogResults(Sync.Outcome(categories, CategoryKey, no.categories),
                                  Sync.Outcome(products, ProductKey, no.products),
                                  Sync.Outcome(recipes, RecipeKey, no.recipes),
                                  Sync.Outcome(tables, TableKey, no.tables))
  {
    var c := CategoryBatch(db, categories, no.categories);
    var p := ProductBatch(db, products, no.products);
    var rc := RecipeBatch(db, recipes, no.recipes);
    var t := TableBatch(db, tables, no.tables);
    res := CatalogResults(c, p, rc, t);
  }

  /** A recipe sync keeps recipe ids unique, whichever records are refused. */
  lemma {:induction false} RecipeBatchKeepsIdsUnique(rs: seq<Recipe>, recs: seq<RecipeRecord>, fails: nat -> bool)
    requires UniqueRecipeIds(rs)
    ensures UniqueRecipeIds(Sync.Batch(rs, recs, SyncedRecipe, fails))
  {
    if recs != [] {
      var n := |recs| - 1;
      RecipeBatchKeepsIdsUnique(rs, recs[..n], fails);
      var before := Sync.Batch(rs, recs[..n], SyncedRecipe, fails);
      var r := recs[n];
      RecipeUpserted(before, RecipeRow(r.id, r.productId, r.ingredientId, r.quantityRequired));
    }
  }
}
