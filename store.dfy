/** The café's datastore: one row type per table, the events broadcast to the
    devices, and the `Db` object whose fields are the tables. Tables keyed by
    primary key are maps; tables whose row order the handlers observe are
    sequences in insertion order. */
module Store {
  import opened Common

  type Id = string

  /** `SELECT … WHERE id = ?` on a table keyed by id: the row stored under
      `id`, if any. */
  function RowById<V>(table: map<Id, V>, id: Id): (r: Option<V>)
    ensures r.Some? <==> id in table
    ensures r.Some? ==> r.value == table[id]
  {
    if id in table then Some(table[id]) else None
  }

  // ----- sale-line modifiers (JSON column `modifiers`) -----

  datatype ModKind = Excluded | Extra | OtherKind(name: string)

  /** One entry of a line's modifier list. */
  datatype Modifier = Modifier(
    ingredientId: Option<Id>,
    kind: ModKind,
    extraCount: JsValue,
    priceAdjustment: JsValue)

  /** The `modifiers` field of a sale line, after the boundary's `JSON.parse`:
      absent or falsy, text that does not parse, a parsed non-array, or a list. */
  datatype ModifiersField = NoModifiers | Unparseable | NotAnArray | Mods(list: seq<Modifier>)

  // ----- catalog -----

  datatype Product = Product(
    id: Id,
    name: string,
    categoryId: Id,
    price: real,
    costUnit: real,
    manageStock: bool,
    stockCurrent: real,
    unit: string,                 // "" stands for NULL
    yieldPerUnit: Option<real>,
    portionName: Option<string>,
    isSynced: bool)

  datatype Recipe = Recipe(id: Id, productId: Id, ingredientId: Id, quantityRequired: real, isSynced: bool)

  datatype Category = Category(id: Id, name: string, color: string, isSynced: bool)

  datatype CafeTable = CafeTable(id: Id, name: string, status: string, isSynced: bool)

  // ----- sales, shifts, cash movements -----

  datatype Sale = Sale(
    id: Id,
    total: real,
    paymentMethod: string,
    status: string,
    observation: Option<string>,
    unpaidAuthorizedById: Option<Id>,
    shiftId: Option<Id>,
    tableId: Option<Id>,
    printCount: int,
    isSynced: bool,
    createdAt: int)

  datatype SaleItem = SaleItem(
    id: Id,
    saleId: Id,
    productId: Id,
    productName: string,
    quantity: real,
    unitPrice: real,
    modifiers: ModifiersField,
    preparationStatus: Option<string>,   // None: the column default
    isSynced: bool)

  datatype Shift = Shift(
    id: Id,
    openedById: Id,
    openedByName: string,
    closedById: Option<Id>,
    closedByName: Option<string>,
    startTime: Option<int>,
    endTime: Option<int>,
    initialCash: real,
    finalCashReported: Option<real>,
    cashDifference: Option<real>,
    status: string,
    isSynced: bool)

  datatype Movement = Movement(
    id: Id,
    kind: string,
    amount: real,
    description: Option<string>,
    shiftId: Option<Id>,
    isSynced: bool,
    createdAt: int)

  // ----- credit accounts -----

  datatype Customer = Customer(
    id: Id,
    name: string,
    phone: Option<string>,
    address: Option<string>,
    identification: Option<string>,
    email: Option<string>,
    creditLimit: real,
    currentDebt: real,
    isActive: bool)

  datatype TxKind = OpeningBalance | Charge | Payment

  datatype CreditTx = CreditTx(
    id: Id,
    customerId: Id,
    kind: TxKind,
    amount: real,
    remaining: real,
    relatedChargeId: Option<Id>,
    movementId: Option<Id>,
    shiftId: Option<Id>,
    description: string,
    createdById: Option<Id>,
    createdByName: Option<string>)

  // ----- users and sync bookkeeping -----

  datatype User = User(id: Id, name: string, username: string, pinCode: string, role: string, isActive: bool)

  /** An uploaded record that the datastore refused, with its id. */
  datatype RecordError = RecordError(id: Id)

  datatype EntityResult = EntityResult(synced: nat, errors: seq<RecordError>)

  datatype SyncResults = SyncResults(
    sales: EntityResult,
    saleItems: EntityResult,
    movements: EntityResult,
    shifts: EntityResult,
    inventory: EntityResult)

  datatype SyncLogEntry = SyncLogEntry(
    deviceId: string,
    syncType: string,
    tableName: string,
    recordsCount: nat,
    status: string,
    errorDetail: Option<SyncResults>)

  // ----- broadcast events -----

  /** A sale line as the `order:update` payload lists it. */
  datatype ItemPayload = ItemPayload(
    id: Id, saleId: Id, productId: Id, productName: string,
    quantity: real, unitPrice: real, modifiers: ModifiersField)

  datatype CatalogData =
    | NoData
    | CategoryData(category: Category)
    | ProductData(product: Product)
    | RecipeData(recipe: Recipe)
    | TableData(table: CafeTable)

  datatype Event =
    | OrderUpdate(tableId: Option<Id>, saleId: Id, items: seq<ItemPayload>, status: string)
    | StockChange(productId: Id, productName: string, previousStock: real, newStock: real, reason: string)
    | TableStatusChange(changedTableId: Id, tableName: string, tableStatus: string, currentSaleId: Option<Id>)
    | CatalogUpdate(entity: string, action: string, entityId: Id, data: CatalogData)
    | ShiftChange(shiftId: Id, shiftStatus: string, userName: string)
    | CreditPayment(customerId: Id, amount: real, payments: seq<CreditTx>, updated: Option<Customer>)
    | CustomerUpdate(customer: Option<Customer>)
    | KitchenUpdate(kitchenSaleId: Id, itemId: Id, preparationStatus: string, kitchenTableId: Option<Id>, itemName: string)
    | TableCleaned(cleanedTableId: Id)

  /** The datastore and the broadcast log. */
  class Db {
    var products: map<Id, Product>
    var recipes: seq<Recipe>
    var categories: map<Id, Category>
    var tables: map<Id, CafeTable>
    var sales: map<Id, Sale>
    var saleItems: seq<SaleItem>
    var shifts: map<Id, Shift>
    var movements: map<Id, Movement>
    var customers: map<Id, Customer>
    var creditTxs: seq<CreditTx>
    var users: map<Id, User>
    var syncLog: seq<SyncLogEntry>
    var events: seq<Event>

    constructor ()
      ensures products == map[] && recipes == [] && categories == map[] && tables == map[]
      ensures sales == map[] && saleItems == [] && shifts == map[] && movements == map[]
      ensures customers == map[] && creditTxs == [] && users == map[]
      ensures syncLog == [] && events == []
    {
      products, recipes, categories, tables := map[], [], map[], map[];
      sales, saleItems, shifts, movements := map[], [], map[], map[];
      customers, creditTxs, users := map[], [], map[];
      syncLog, events := [], [];
    }
  }

  /** `SELECT … WHERE column = ?` on a table kept in row order: the rows
      whose `key` column holds `id`, in table order. */
  function RowsWith<T(==)>(rows: seq<T>, key: T -> Id, id: Id): (r: seq<T>)
    ensures |r| <= |rows|
    ensures forall k :: 0 <= k < |r| ==> key(r[k]) == id && r[k] in rows
  {
    if rows == [] then []
    else
      var last := rows[|rows| - 1];
      RowsWith(rows[..|rows| - 1], key, id) + (if key(last) == id then [last] else [])
  }

  /** Every row whose key is `id` is selected. */
  lemma {:induction false} RowsWithComplete<T>(rows: seq<T>, key: T -> Id, id: Id, x: T)
    requires x in rows && key(x) == id
    ensures x in RowsWith(rows, key, id)
  {
    var n := |rows| - 1;
    if rows[n] != x {
      assert x in rows[..n];
      RowsWithComplete(rows[..n], key, id, x);
    }
  }

  /** The position of the first row whose `key` column holds `id`, or
      `|rows|` when there is none: the row a write keyed by `id` finds. */
  function IndexOf<T>(rows: seq<T>, key: T -> Id, id: Id): (k: nat)
    ensures k <= |rows|
    ensures k < |rows| ==> key(rows[k]) == id
    ensures forall j :: 0 <= j < k ==> key(rows[j]) != id
  {
    if rows == [] then 0
    else if key(rows[0]) == id then 0
    else 1 + IndexOf(rows[1..], key, id)
  }

  /** The first row with the key is the one `IndexOf` finds. */
  lemma {:induction false} IndexOfAt<T>(rows: seq<T>, key: T -> Id, id: Id, k: nat)
    requires k < |rows| && key(rows[k]) == id
    requires forall j :: 0 <= j < k ==> key(rows[j]) != id
    ensures IndexOf(rows, key, id) == k
  {
    if k > 0 {
      assert key(rows[0]) != id;
      IndexOfAt(rows[1..], key, id, k - 1);
    }
  }

  /** The lines of a sale, in table order (`SELECT … FROM sale_items WHERE sale_id = ?`). */
  function ItemsOfSale(items: seq<SaleItem>, saleId: Id): (r: seq<SaleItem>)
    ensures |r| <= |items|
    ensures forall k :: 0 <= k < |r| ==> r[k].saleId == saleId && r[k] in items
  {
    RowsWith(items, (it: SaleItem) => it.saleId, saleId)
  }

  /** No product row holds negative stock. */
  ghost predicate StockNonNegative(products: map<Id, Product>)
  {
    forall id :: id in products ==> products[id].stockCurrent >= 0.0
  }

  /** Every row of a map-shaped table is stored under its own id. */
  ghost predicate KeyedShifts(shifts: map<Id, Shift>)
  {
    forall id :: id in shifts ==> shifts[id].id == id
  }
}
