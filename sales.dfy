/** Order mutations: deleting one line of a sale, setting a line's kitchen
    status, and cancelling a whole sale. */
module Sales {
  import opened Common
  import opened Store

  const ItemNotInSale := "Item no encontrado en la venta"
  const ItemDeleted := "Item eliminado"
  const InvalidStatus := "Estado inválido"
  const ItemNotFound := "Item no encontrado"
  const InternalError := "Error interno"
  const SaleNotFound := "Venta no encontrada"
  const SaleCancelled := "Venta anulada"
  const CancelError := "Error anulando venta"
  const Cancelled := "cancelled"

  // ===== deleteSaleItem =====

  /** `WHERE sale_id = ? AND id = ?`. */
  predicate Matches(it: SaleItem, saleId: Id, itemId: Id)
  {
    it.saleId == saleId && it.id == itemId
  }

  /** `affectedRows` of a statement restricted to the matching lines. */
  function Affected(items: seq<SaleItem>, saleId: Id, itemId: Id): (n: nat)
    ensures n <= |items|
  {
    if items == [] then 0
    else Affected(items[..|items| - 1], saleId, itemId) + (if Matches(items[|items| - 1], saleId, itemId) then 1 else 0)
  }

  /** The table after `DELETE FROM sale_items WHERE sale_id = ? AND id = ?`. */
  function Without(items: seq<SaleItem>, saleId: Id, itemId: Id): (r: seq<SaleItem>)
    ensures forall k :: 0 <= k < |r| ==> !Matches(r[k], saleId, itemId) && r[k] in items
  {
    if items == [] then []
    else
      var last := items[|items| - 1];
      Without(items[..|items| - 1], saleId, itemId) + (if Matches(last, saleId, itemId) then [] else [last])
  }

  /** The delete removes as many lines as it reports. */
  lemma {:induction false} WithoutCount(items: seq<SaleItem>, saleId: Id, itemId: Id)
    ensures |Without(items, saleId, itemId)| + Affected(items, saleId, itemId) == |items|
  {
    if items != [] {
      WithoutCount(items[..|items| - 1], saleId, itemId);
    }
  }

  /** Every line that does not match survives the delete. */
  lemma {:induction false} WithoutKeeps(items: seq<SaleItem>, saleId: Id, itemId: Id)
    ensures forall k :: 0 <= k < |items| && !Matches(items[k], saleId, itemId) ==> items[k] in Without(items, saleId, itemId)
  {
    if items != [] {
      var n := |items| - 1;
      WithoutKeeps(items[..n], saleId, itemId);
      forall k | 0 <= k < n ensures items[..n][k] == items[k] {
      }
    }
  }

  /** Nothing is reported exactly when no line matches, and then nothing changes. */
  lemma {:induction false} NoneAffected(items: seq<SaleItem>, saleId: Id, itemId: Id)
    ensures Affected(items, saleId, itemId) == 0 <==> forall k :: 0 <= k < |items| ==> !Matches(items[k], saleId, itemId)
    ensures Affected(items, saleId, itemId) == 0 ==> Without(items, saleId, itemId) == items
  {
    if items != [] {
      var n := |items| - 1;
      NoneAffected(items[..n], saleId, itemId);
      forall k | 0 <= k < n ensures items[..n][k] == items[k] {
      }
      assert items[..n] + [items[n]] == items;
    }
  }

  /** `modifiers` as the `order:update` payload sends it: text that does not
      parse becomes the empty list. */
  function PayloadModifiers(m: ModifiersField): ModifiersField
  {
    if m.Unparseable? then Mods([]) else m
  }

  function ToPayload(it: SaleItem): ItemPayload
  {
    ItemPayload(it.id, it.saleId, it.productId, it.productName, it.quantity, it.unitPrice, PayloadModifiers(it.modifiers))
  }

  /** `remainingItems.map(…)`. */
  function Payloads(items: seq<SaleItem>): (r: seq<ItemPayload>)
    ensures |r| == |items|
    ensures forall k :: 0 <= k < |items| ==> r[k] == ToPayload(items[k])
  {
    if items == [] then [] else Payloads(items[..|items| - 1]) + [ToPayload(items[|items| - 1])]
  }

  /** Every line of the sale is listed by `ItemsOfSale`. */
  lemma {:induction false} ItemsOfSaleComplete(items: seq<SaleItem>, saleId: Id, it: SaleItem)
    requires it in items && it.saleId == saleId
    ensures it in ItemsOfSale(items, saleId)
  {
    RowsWithComplete(items, (it: SaleItem) => it.saleId, saleId, it);
  }

  /** The `order:update` after a deletion lists exactly the sale's remaining
      lines: none from another sale, not the deleted one, and every other
      line of the sale. */
  lemma DeletionPayload(items: seq<SaleItem>, saleId: Id, itemId: Id)
    ensures var listed := Payloads(ItemsOfSale(Without(items, saleId, itemId), saleId));
      && (forall k :: 0 <= k < |listed| ==> listed[k].saleId == saleId && listed[k].id != itemId)
      && (forall it :: it in items && it.saleId == saleId && it.id != itemId ==> ToPayload(it) in listed)
  {
    var rest := Without(items, saleId, itemId);
    var lines := ItemsOfSale(rest, saleId);
    var listed := Payloads(lines);
    forall k | 0 <= k < |listed| ensures listed[k].saleId == saleId && listed[k].id != itemId {
      assert lines[k] in rest;
    }
    forall it | it in items && it.saleId == saleId && it.id != itemId ensures ToPayload(it) in listed {
      WithoutKeeps(items, saleId, itemId);
      var k :| 0 <= k < |items| && items[k] == it;
      assert it in rest;
      ItemsOfSaleComplete(rest, saleId, it);
      var j :| 0 <= j < |lines| && lines[j] == it;
      assert listed[j] == ToPayload(it);
    }
  }

  /** The event of a deletion, sent only when the sale exists. */
  function DeletionEvents(sales: map<Id, Sale>, items: seq<SaleItem>, saleId: Id): seq<Event>
  {
    if saleId in sales
    then [OrderUpdate(sales[saleId].tableId, saleId, Payloads(ItemsOfSale(items, saleId)), sales[saleId].status)]
    else []
  }

  method DeleteSaleItem(db: Db, saleId: Id, itemId: Id) returns (r: Reply)
    modifies db`saleItems, db`events
    ensures Affected(old(db.saleItems), saleId, itemId) == 0 ==>
      r == Failure(404, ItemNotInSale) && db.saleItems == old(db.saleItems) && db.events == old(db.events)
    ensures Affected(old(db.saleItems), saleId, itemId) > 0 ==>
      && r == Success(ItemDeleted)
      && db.saleItems == Without(old(db.saleItems), saleId, itemId)
      && db.events == old(db.events) + DeletionEvents(db.sales, db.saleItems, saleId)
  {
    if Affected(db.saleItems, saleId, itemId) == 0 {
      return Failure(404, ItemNotInSale);
    }
    db.saleItems := Without(db.saleItems, saleId, itemId);
    var remaining := ItemsOfSale(db.saleItems, saleId);
    if saleId in db.sales {
      var sale := db.sales[saleId];
      db.events := db.events + [OrderUpdate(sale.tableId, saleId, Payloads(remaining), sale.status)];
    }
    r := Success(ItemDeleted);
  }

  // ===== updateItemStatus =====

  /** The kitchen states a line may take. */
  predicate ValidPreparation(status: JsValue)
  {
    status.Text? && status.s in {"pending", "preparing", "ready", "delivered"}
  }

  function Prepared(it: SaleItem, status: string): SaleItem
  {
    it.(preparationStatus := Some(status))
  }

  /** The table after `UPDATE sale_items SET preparation_status = ? WHERE id = ? AND sale_id = ?`. */
  function WithStatus(items: seq<SaleItem>, saleId: Id, itemId: Id, status: string): (r: seq<SaleItem>)
    ensures |r| == |items|
    ensures forall k :: 0 <= k < |items| ==> r[k] == if Matches(items[k], saleId, itemId) then Prepared(items[k], status) else items[k]
  {
    if items == [] then []
    else
      var last := items[|items| - 1];
      WithStatus(items[..|items| - 1], saleId, itemId, status) + [if Matches(last, saleId, itemId) then Prepared(last, status) else last]
  }

  /** Only the preparation status of the matching line changes. */
  lemma WithStatusChangesOnlyStatus(items: seq<SaleItem>, saleId: Id, itemId: Id, status: string)
    ensures var r := WithStatus(items, saleId, itemId, status);
      forall k :: 0 <= k < |items| ==>
        && r[k] == items[k].(preparationStatus := r[k].preparationStatus)
        && (Matches(items[k], saleId, itemId) ==> r[k].preparationStatus == Some(status))
        && (!Matches(items[k], saleId, itemId) ==> r[k] == items[k])
  {
  }

  /** The kitchen-event query joins the line with its sale: it returns a row
      when some line with the id belongs to a recorded sale. */
  predicate Joined(items: seq<SaleItem>, sales: map<Id, Sale>, itemId: Id)
  {
    exists k :: 0 <= k < |items| && items[k].id == itemId && items[k].saleId in sales
  }

  /** Returns the reply; the kitchen event is the one the source reaches for
      through `emitKitchenUpdate`, a function the events module does not
      define, so the call throws after the write and the handler answers 500. */
  method UpdateItemStatus(db: Db, saleId: Id, itemId: Id, status: JsValue) returns (r: Reply)
    modifies db`saleItems
    ensures !ValidPreparation(status) ==> r == Failure(400, InvalidStatus) && db.saleItems == old(db.saleItems)
    ensures ValidPreparation(status) && Affected(old(db.saleItems), saleId, itemId) == 0 ==>
      r == Failure(404, ItemNotFound) && db.saleItems == old(db.saleItems)
    ensures ValidPreparation(status) && Affected(old(db.saleItems), saleId, itemId) > 0 ==>
      && db.saleItems == WithStatus(old(db.saleItems), saleId, itemId, status.s)
      && r == (if Joined(db.saleItems, db.sales, itemId) then Failure(500, InternalError) else Success(status.s))
  {
    if !ValidPreparation(status) {
      return Failure(400, InvalidStatus);
    }
    if Affected(db.saleItems, saleId, itemId) == 0 {
      return Failure(404, ItemNotFound);
    }
    db.saleItems := WithStatus(db.saleItems, saleId, itemId, status.s);
    if Joined(db.saleItems, db.sales, itemId) {
      // socketEvents.emitKitchenUpdate is undefined: the TypeError reaches the catch.
      return Failure(500, InternalError);
    }
    r := Success(status.s);
  }

  /** The kitchen event as intended: the line's product name and its sale's table. */
  function KitchenEvent(items: seq<SaleItem>, sales: map<Id, Sale>, saleId: Id, itemId: Id, status: string): seq<Event>
  {
    var k := FirstMatch(items, saleId, itemId);
    if k < |items| && saleId in sales
    then [KitchenUpdate(saleId, itemId, status, sales[saleId].tableId, items[k].productName)]
    else []
  }

  /** Position of the first matching line, or `|items|`. */
  function FirstMatch(items: seq<SaleItem>, saleId: Id, itemId: Id): (k: nat)
    ensures k <= |items|
    ensures k < |items| ==> Matches(items[k], saleId, itemId)
    ensures forall j :: 0 <= j < k ==> !Matches(items[j], saleId, itemId)
  {
    if items == [] then 0
    else if Matches(items[0], saleId, itemId) then 0
    else 1 + FirstMatch(items[1..], saleId, itemId)
  }

  /** `updateItemStatus` with the kitchen event sent: a stored status is
      always answered with success. */
  method UpdateItemStatusIntended(db: Db, saleId: Id, itemId: Id, status: JsValue) returns (r: Reply)
    modifies db`saleItems, db`events
    ensures !ValidPreparation(status) ==>
      r == Failure(400, InvalidStatus) && db.saleItems == old(db.saleItems) && db.events == old(db.events)
    ensures ValidPreparation(status) && Affected(old(db.saleItems), saleId, itemId) == 0 ==>
      r == Failure(404, ItemNotFound) && db.saleItems == old(db.saleItems) && db.events == old(db.events)
    ensures ValidPreparation(status) && Affected(old(db.saleItems), saleId, itemId) > 0 ==>
      && db.saleItems == WithStatus(old(db.saleItems), saleId, itemId, status.s)
      && db.events == old(db.events) + KitchenEvent(db.saleItems, db.sales, saleId, itemId, status.s)
      && r == Success(status.s)
  {
    if !ValidPreparation(status) {
      return Failure(400, InvalidStatus);
    }
    if Affected(db.saleItems, saleId, itemId) == 0 {
      return Failure(404, ItemNotFound);
    }
    db.saleItems := WithStatus(db.saleItems, saleId, itemId, status.s);
    db.events := db.events + KitchenEvent(db.saleItems, db.sales, saleId, itemId, status.s);
    r := Success(status.s);
  }

  /** An input that shows the discrepancy: the line of a recorded sale gets
      its new status stored, and the join the kitchen event needs finds it,
      so the handler as written answers 500 for a change it made. */
  lemma StatusStoredYetReported500()
    ensures var items := [SaleItem("i1", "s1", "p1", "Café", 1.0, 2.0, NoModifiers, None, true)];
      var sales := map["s1" := Sale("s1", 2.0, "efectivo", "pending", None, None, None, None, 0, true, 0)];
      var after := WithStatus(items, "s1", "i1", "ready");
      && ValidPreparation(Text("ready")) && Affected(items, "s1", "i1") == 1
      && after[0].preparationStatus == Some("ready")
      && Joined(after, sales, "i1")
  {
    var items := [SaleItem("i1", "s1", "p1", "Café", 1.0, 2.0, NoModifiers, None, true)];
    var sales := map["s1" := Sale("s1", 2.0, "efectivo", "pending", None, None, None, None, 0, true, 0)];
    var after := WithStatus(items, "s1", "i1", "ready");
    assert items[..0] == [];
    assert after[0].id == "i1" && after[0].saleId == "s1";
  }

  // ===== cancelSale =====

  /** The table after `DELETE FROM sale_items WHERE sale_id = ?`. */
  function OtherSalesItems(items: seq<SaleItem>, saleId: Id): (r: seq<SaleItem>)
    ensures forall k :: 0 <= k < |r| ==> r[k].saleId != saleId && r[k] in items
  {
    if items == [] then []
    else
      var last := items[|items| - 1];
      OtherSalesItems(items[..|items| - 1], saleId) + (if last.saleId == saleId then [] else [last])
  }

  /** Deleting the lines of a sale removes exactly as many lines as the sale has. */
  lemma {:induction false} OtherSalesItemsCount(items: seq<SaleItem>, saleId: Id)
    ensures |OtherSalesItems(items, saleId)| + |ItemsOfSale(items, saleId)| == |items|
  {
    if items != [] {
      OtherSalesItemsCount(items[..|items| - 1], saleId);
    }
  }

  /** Every line of another sale survives. */
  lemma {:induction false} OtherSalesItemsKeeps(items: seq<SaleItem>, saleId: Id)
    ensures forall k :: 0 <= k < |items| && items[k].saleId != saleId ==> items[k] in OtherSalesItems(items, saleId)
  {
    if items != [] {
      var n := |items| - 1;
      var before := items[..n];
      OtherSalesItemsKeeps(before, saleId);
      var prev := OtherSalesItems(before, saleId);
      assert OtherSalesItems(items, saleId) == prev + (if items[n].saleId == saleId then [] else [items[n]]);
      forall k | 0 <= k < n && items[k].saleId != saleId ensures items[k] in prev {
        assert before[k] == items[k];
      }
    }
  }

  function CancelledSale(s: Sale): Sale
  {
    s.(status := Cancelled, isSynced := true)
  }

  /** Cancels the sale as written: with a table, the `order:update` goes out
      and the call to the undefined `emitTableCleaned` then throws, so the
      handler answers 500 after the change. */
  method CancelSale(db: Db, saleId: Id) returns (r: Reply)
    modifies db`saleItems, db`sales, db`events
    ensures saleId !in old(db.sales) ==>
      && r == Failure(404, SaleNotFound)
      && db.saleItems == old(db.saleItems) && db.sales == old(db.sales) && db.events == old(db.events)
    ensures saleId in old(db.sales) ==>
      var tableId := old(db.sales)[saleId].tableId;
      && db.saleItems == OtherSalesItems(old(db.saleItems), saleId)
      && db.sales == old(db.sales)[saleId := CancelledSale(old(db.sales)[saleId])]
      && (Truthy(tableId) ==>
            db.events == old(db.events) + [OrderUpdate(tableId, saleId, [], Cancelled)] && r == Failure(500, CancelError))
      && (!Truthy(tableId) ==> db.events == old(db.events) && r == Success(SaleCancelled))
  {
    if saleId !in db.sales {
      return Failure(404, SaleNotFound);
    }
    var tableId := db.sales[saleId].tableId;
    db.saleItems := OtherSalesItems(db.saleItems, saleId);
    db.sales := db.sales[saleId := CancelledSale(db.sales[saleId])];
    if Truthy(tableId) {
      db.events := db.events + [OrderUpdate(tableId, saleId, [], Cancelled)];
      // socketEvents.emitTableCleaned is undefined: the TypeError reaches the catch.
      return Failure(500, CancelError);
    }
    r := Success(SaleCancelled);
  }

  /** `cancelSale` with the table-cleaning event sent: a cancelled sale is
      always answered with success, and the events go out only for a sale
      with a table. */
  method CancelSaleIntended(db: Db, saleId: Id) returns (r: Reply)
    modifies db`saleItems, db`sales, db`events
    ensures saleId !in old(db.sales) ==>
      && r == Failure(404, SaleNotFound)
      && db.saleItems == old(db.saleItems) && db.sales == old(db.sales) && db.events == old(db.events)
    ensures saleId in old(db.sales) ==>
      var tableId := old(db.sales)[saleId].tableId;
      && db.saleItems == OtherSalesItems(old(db.saleItems), saleId)
      && db.sales == old(db.sales)[saleId := CancelledSale(old(db.sales)[saleId])]
      && r == Success(SaleCancelled)
      && (Truthy(tableId) ==>
            db.events == old(db.events) + [OrderUpdate(tableId, saleId, [], Cancelled), TableCleaned(tableId.value)])
      && (!Truthy(tableId) ==> db.events == old(db.events))
  {
    if saleId !in db.sales {
      return Failure(404, SaleNotFound);
    }
    var tableId := db.sales[saleId].tableId;
    db.saleItems := OtherSalesItems(db.saleItems, saleId);
    db.sales := db.sales[saleId := CancelledSale(db.sales[saleId])];
    if Truthy(tableId) {
      db.events := db.events + [OrderUpdate(tableId, saleId, [], Cancelled), TableCleaned(tableId.value)];
    }
    r := Success(SaleCancelled);
  }

  /** After a cancellation the sale has no line left, its status is
      cancelled, and every other sale and line is untouched. */
  lemma CancellationEffect(items: seq<SaleItem>, sales: map<Id, Sale>, saleId: Id)
    requires saleId in sales
    ensures ItemsOfSale(OtherSalesItems(items, saleId), saleId) == []
    ensures var after := sales[saleId := CancelledSale(sales[saleId])];
      && after[saleId].status == Cancelled
      && after[saleId] == sales[saleId].(status := Cancelled, isSynced := true)
      && (forall id :: id in sales && id != saleId ==> after[id] == sales[id])
    ensures forall k :: 0 <= k < |items| && items[k].saleId != saleId ==> items[k] in OtherSalesItems(items, saleId)
  {
    OtherSalesItemsKeeps(items, saleId);
    NoLinesLeft(OtherSalesItems(items, saleId), saleId);
  }

  lemma {:induction false} NoLinesLeft(items: seq<SaleItem>, saleId: Id)
    requires forall k :: 0 <= k < |items| ==> items[k].saleId != saleId
    ensures ItemsOfSale(items, saleId) == []
  {
    if items != [] {
      NoLinesLeft(items[..|items| - 1], saleId);
    }
  }

  /** An input that shows the discrepancy: a store holding sale `s1` at
      table `t1` with one line. Cancelling it removes the line, marks the sale
      cancelled and emits its order update, and the client is still answered
      with 500. */
  method CancelWithTableReported500() returns (r: Reply, sale: Sale, lines: seq<SaleItem>, events: seq<Event>)
    ensures r == Failure(500, CancelError)
    ensures sale.status == Cancelled
    ensures lines == []
    ensures events == [OrderUpdate(Some("t1"), "s1", [], Cancelled)]
  {
    var db := new Db();
    db.sales := map["s1" := Sale("s1", 2.0, "efectivo", "pending", None, None, None, Some("t1"), 0, true, 0)];
    db.saleItems := [SaleItem("i1", "s1", "p1", "Café", 1.0, 2.0, NoModifiers, None, true)];
    r := CancelSale(db, "s1");
    sale := db.sales["s1"];
    lines := ItemsOfSale(db.saleItems, "s1");
    events := db.events;
  }
}
