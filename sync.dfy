/** The device sync reconciler: records uploaded by an offline device are
    upserted one by one (a record the datastore refuses is reported and the
    batch goes on), the run is logged, and the older inventory pass lowers
    stock for a synced sale. */
module Sync {
  import opened Common
  import opened Store
  import Stock

  // ===== uploaded records =====

  /** A shift as the device sends it; times are abstract instants. */
  datatype ShiftRecord = ShiftRecord(
    id: Id,
    openedById: Id,
    openedByName: string,
    closedById: Option<Id>,
    closedByName: Option<string>,
    startTime: int,
    endTime: Option<int>,           // None: absent or falsy
    initialCash: real,
    finalCashReported: Option<real>,
    cashDifference: Option<real>,
    status: string)

  datatype SaleRecord = SaleRecord(
    id: Id,
    total: real,
    paymentMethod: string,
    status: string,
    observation: Option<string>,
    unpaidAuthorizedById: Option<Id>,
    shiftId: Option<Id>,
    tableId: Option<Id>,
    printCount: Option<int>,
    createdAt: int)

  datatype ItemRecord = ItemRecord(
    id: Id,
    saleId: Id,
    productId: Id,
    productName: string,
    quantity: real,
    unitPrice: real)

  datatype MovementRecord = MovementRecord(
    id: Id,
    kind: string,
    amount: real,
    description: Option<string>,
    shiftId: Option<Id>,
    createdAt: int)

  function ShiftKey(r: ShiftRecord): Id { r.id }
  function SaleKey(r: SaleRecord): Id { r.id }
  function ItemKey(r: ItemRecord): Id { r.id }
  function MovementKey(r: MovementRecord): Id { r.id }

  // ===== syncShift =====

  /** The row the insert branch writes. */
  function NewShift(r: ShiftRecord): Shift
  {
    Shift(r.id, r.openedById, r.openedByName, TextOrNull(r.closedById), TextOrNull(r.closedByName),
          Some(r.startTime), r.endTime, r.initialCash,
          NumOrNull(r.finalCashReported), NumOrNull(r.cashDifference), r.status, true)
  }

  /** The duplicate-key branch: only the closing columns and the status are overwritten. */
  function ResyncedShift(s: Shift, r: ShiftRecord): Shift
  {
    s.(closedById := TextOrNull(r.closedById), closedByName := TextOrNull(r.closedByName),
       endTime := r.endTime, finalCashReported := NumOrNull(r.finalCashReported),
       cashDifference := NumOrNull(r.cashDifference), status := r.status, isSynced := true)
  }

  /** `INSERT INTO shifts … ON DUPLICATE KEY UPDATE …`. */
  function UpsertShift(shifts: map<Id, Shift>, r: ShiftRecord): (after: map<Id, Shift>)
    ensures after.Keys == shifts.Keys + {r.id}
    ensures forall id :: id in shifts && id != r.id ==> after[id] == shifts[id]
    ensures after[r.id].isSynced
  {
    if r.id in shifts then shifts[r.id := ResyncedShift(shifts[r.id], r)]
    else shifts[r.id := NewShift(r)]
  }

  /** A shift seen for the first time is stored as sent, except that the
      closing fields drop to null when falsy (a reported cash or difference
      of 0 included). */
  lemma ShiftInserted(shifts: map<Id, Shift>, r: ShiftRecord)
    requires r.id !in shifts
    ensures var s := UpsertShift(shifts, r)[r.id];
      && s.id == r.id && s.openedById == r.openedById && s.openedByName == r.openedByName
      && s.startTime == Some(r.startTime) && s.endTime == r.endTime
      && s.initialCash == r.initialCash && s.status == r.status && s.isSynced
      && (s.closedById.Some? <==> Truthy(r.closedById))
      && (s.finalCashReported.Some? <==> r.finalCashReported.Some? && r.finalCashReported.value != 0.0)
      && (s.cashDifference.Some? <==> r.cashDifference.Some? && r.cashDifference.value != 0.0)
  {
  }

  /** Re-syncing a known shift overwrites the closing columns and the status;
      the opener, the start time and the initial cash keep their first values,
      and no other shift changes. */
  lemma ShiftResynced(shifts: map<Id, Shift>, r: ShiftRecord)
    requires r.id in shifts
    ensures var after := UpsertShift(shifts, r);
      var s, t := shifts[r.id], after[r.id];
      && after.Keys == shifts.Keys
      && (forall id :: id in shifts && id != r.id ==> after[id] == shifts[id])
      && t.id == s.id && t.openedById == s.openedById && t.openedByName == s.openedByName
      && t.startTime == s.startTime && t.initialCash == s.initialCash
      && t.closedById == TextOrNull(r.closedById) && t.closedByName == TextOrNull(r.closedByName)
      && t.endTime == r.endTime && t.finalCashReported == NumOrNull(r.finalCashReported)
      && t.cashDifference == NumOrNull(r.cashDifference) && t.status == r.status && t.isSynced
  {
  }

  /** Applying the same shift record twice leaves what applying it once left. */
  lemma ShiftIdempotent(shifts: map<Id, Shift>, r: ShiftRecord)
    ensures UpsertShift(UpsertShift(shifts, r), r) == UpsertShift(shifts, r)
  {
    var once := UpsertShift(shifts, r);
    if r.id in shifts {
      assert ResyncedShift(ResyncedShift(shifts[r.id], r), r) == ResyncedShift(shifts[r.id], r);
    } else {
      assert ResyncedShift(NewShift(r), r) == NewShift(r);
    }
    assert once[r.id := ResyncedShift(once[r.id], r)] == once;
  }

  method SyncShift(db: Db, r: ShiftRecord)
    modifies db`shifts
    ensures db.shifts == UpsertShift(old(db.shifts), r)
  {
    if r.id in db.shifts {
      db.shifts := db.shifts[r.id := ResyncedShift(db.shifts[r.id], r)];
    } else {
      db.shifts := db.shifts[r.id := NewShift(r)];
    }
  }

  // ===== syncSale =====

  /** `print_count || 0`. */
  function CountOr0(o: Option<int>): int
  {
    if o.Some? then o.value else 0
  }

  function NewSale(r: SaleRecord): Sale
  {
    Sale(r.id, r.total, r.paymentMethod, r.status, TextOrNull(r.observation),
         TextOrNull(r.unpaidAuthorizedById), TextOrNull(r.shiftId), TextOrNull(r.tableId),
         CountOr0(r.printCount), true, r.createdAt)
  }

  /** The duplicate-key branch: shift, table and creation time are not in the update list. */
  function ResyncedSale(s: Sale, r: SaleRecord): Sale
  {
    s.(total := r.total, paymentMethod := r.paymentMethod, status := r.status,
       observation := TextOrNull(r.observation), unpaidAuthorizedById := TextOrNull(r.unpaidAuthorizedById),
       printCount := CountOr0(r.printCount), isSynced := true)
  }

  function UpsertSale(sales: map<Id, Sale>, r: SaleRecord): (after: map<Id, Sale>)
    ensures after.Keys == sales.Keys + {r.id}
    ensures forall id :: id in sales && id != r.id ==> after[id] == sales[id]
    ensures after[r.id].isSynced
  {
    if r.id in sales then sales[r.id := ResyncedSale(sales[r.id], r)]
    else sales[r.id := NewSale(r)]
  }

  /** Re-syncing a known sale never moves it to another shift or table and
      keeps its creation time; the other sales are untouched. */
  lemma SaleResynced(sales: map<Id, Sale>, r: SaleRecord)
    requires r.id in sales
    ensures var after := UpsertSale(sales, r);
      var s, t := sales[r.id], after[r.id];
      && after.Keys == sales.Keys
      && (forall id :: id in sales && id != r.id ==> after[id] == sales[id])
      && t.id == s.id && t.shiftId == s.shiftId && t.tableId == s.tableId && t.createdAt == s.createdAt
      && t.total == r.total && t.paymentMethod == r.paymentMethod && t.status == r.status
      && t.observation == TextOrNull(r.observation)
      && t.unpaidAuthorizedById == TextOrNull(r.unpaidAuthorizedById)
      && t.printCount == CountOr0(r.printCount) && t.isSynced
  {
  }

  /** A new sale is stored with the record's shift, table and creation time. */
  lemma SaleInserted(sales: map<Id, Sale>, r: SaleRecord)
    requires r.id !in sales
    ensures var t := UpsertSale(sales, r)[r.id];
      && t.id == r.id && t.total == r.total && t.status == r.status && t.createdAt == r.createdAt
      && t.shiftId == TextOrNull(r.shiftId) && t.tableId == TextOrNull(r.tableId)
      && (r.printCount.None? ==> t.printCount == 0) && t.isSynced
  {
  }

  lemma SaleIdempotent(sales: map<Id, Sale>, r: SaleRecord)
    ensures UpsertSale(UpsertSale(sales, r), r) == UpsertSale(sales, r)
  {
    var once := UpsertSale(sales, r);
    if r.id in sales {
      assert ResyncedSale(ResyncedSale(sales[r.id], r), r) == ResyncedSale(sales[r.id], r);
    } else {
      assert ResyncedSale(NewSale(r), r) == NewSale(r);
    }
    assert once[r.id := ResyncedSale(once[r.id], r)] == once;
  }

  /** `syncSale`: upserts the sale and says whether it was new. */
  method SyncSale(db: Db, r: SaleRecord) returns (isNew: bool)
    modifies db`sales
    ensures isNew <==> r.id !in old(db.sales)
    ensures db.sales == UpsertSale(old(db.sales), r)
  {
    isNew := r.id !in db.sales;
    if isNew {
      db.sales := db.sales[r.id := NewSale(r)];
    } else {
      db.sales := db.sales[r.id := ResyncedSale(db.sales[r.id], r)];
    }
  }

  // ===== syncSaleItem =====

  /** Position of the first line with id `id`, or `|items|` when there is none. */
  function ItemIndex(items: seq<SaleItem>, id: Id): (k: nat)
    ensures k <= |items|
    ensures k < |items| ==> items[k].id == id
    ensures forall j :: 0 <= j < k ==> items[j].id != id
  {
    IndexOf(items, (it: SaleItem) => it.id, id)
  }

  /** The insert names no modifiers and no preparation status, so both take
      the column defaults. */
  function NewItem(r: ItemRecord): SaleItem
  {
    SaleItem(r.id, r.saleId, r.productId, r.productName, r.quantity, r.unitPrice, NoModifiers, None, true)
  }

  function ResyncedItem(s: SaleItem, r: ItemRecord): SaleItem
  {
    s.(quantity := r.quantity, unitPrice := r.unitPrice, isSynced := true)
  }

  function UpsertItem(items: seq<SaleItem>, r: ItemRecord): (after: seq<SaleItem>)
    ensures |items| <= |after| <= |items| + 1
    ensures forall j :: 0 <= j < |items| && items[j].id != r.id ==> after[j] == items[j]
    ensures ItemIndex(after, r.id) < |after| && after[ItemIndex(after, r.id)].isSynced
  {
    var k := ItemIndex(items, r.id);
    var after := if k < |items| then items[k := ResyncedItem(items[k], r)] else items + [NewItem(r)];
    assert after[k].id == r.id && forall j :: 0 <= j < k ==> after[j] == items[j];
    assert ItemIndex(after, r.id) == k;
    after
  }

  /** Re-syncing a known line changes only its quantity and unit price; every
      other line stays where and as it was. */
  lemma ItemResynced(items: seq<SaleItem>, r: ItemRecord)
    requires ItemIndex(items, r.id) < |items|
    ensures var k, after := ItemIndex(items, r.id), UpsertItem(items, r);
      && |after| == |items|
      && (forall j :: 0 <= j < |items| && j != k ==> after[j] == items[j])
      && after[k].id == items[k].id && after[k].saleId == items[k].saleId
      && after[k].productId == items[k].productId && after[k].productName == items[k].productName
      && after[k].modifiers == items[k].modifiers && after[k].preparationStatus == items[k].preparationStatus
      && after[k].quantity == r.quantity && after[k].unitPrice == r.unitPrice && after[k].isSynced
  {
  }

  /** An unknown line is appended, with the defaults for the columns the record lacks. */
  lemma ItemInserted(items: seq<SaleItem>, r: ItemRecord)
    requires forall j :: 0 <= j < |items| ==> items[j].id != r.id
    ensures var after := UpsertItem(items, r);
      && after[..|items|] == items && |after| == |items| + 1
      && after[|items|].id == r.id && after[|items|].saleId == r.saleId
      && after[|items|].quantity == r.quantity && after[|items|].modifiers == NoModifiers
      && after[|items|].preparationStatus.None?
  {
    var k := ItemIndex(items, r.id);
    assert k == |items|;
    assert (items + [NewItem(r)])[..|items|] == items;
  }

  lemma ItemIdempotent(items: seq<SaleItem>, r: ItemRecord)
    ensures UpsertItem(UpsertItem(items, r), r) == UpsertItem(items, r)
  {
    var k := ItemIndex(items, r.id);
    var once := UpsertItem(items, r);
    if k < |items| {
      assert ItemIndex(once, r.id) == k by {
        ItemIndexAt(once, r.id, k);
      }
      assert ResyncedItem(ResyncedItem(items[k], r), r) == ResyncedItem(items[k], r);
      assert once[k := ResyncedItem(once[k], r)] == once;
    } else {
      assert ItemIndex(once, r.id) == k by {
        ItemIndexAt(once, r.id, k);
      }
      assert ResyncedItem(NewItem(r), r) == NewItem(r);
      assert once[k := ResyncedItem(once[k], r)] == once;
    }
  }

  /** The first line with the id is the one `ItemIndex` finds. */
  lemma {:induction false} ItemIndexAt(items: seq<SaleItem>, id: Id, k: nat)
    requires k < |items| && items[k].id == id
    requires forall j :: 0 <= j < k ==> items[j].id != id
    ensures ItemIndex(items, id) == k
  {
    IndexOfAt(items, (it: SaleItem) => it.id, id, k);
  }

  method SyncSaleItem(db: Db, r: ItemRecord)
    modifies db`saleItems
    ensures db.saleItems == UpsertItem(old(db.saleItems), r)
  {
    var k := ItemIndex(db.saleItems, r.id);
    if k < |db.saleItems| {
      db.saleItems := db.saleItems[k := ResyncedItem(db.saleItems[k], r)];
    } else {
      db.saleItems := db.saleItems + [NewItem(r)];
    }
  }

  // ===== syncMovement =====

  /** The description is stored as sent; only the shift goes through `|| null`. */
  function NewMovement(r: MovementRecord): Movement
  {
    Movement(r.id, r.kind, r.amount, r.description, TextOrNull(r.shiftId), true, r.createdAt)
  }

  function ResyncedMovement(m: Movement, r: MovementRecord): Movement
  {
    m.(amount := r.amount, description := r.description, isSynced := true)
  }

  function UpsertMovement(movements: map<Id, Movement>, r: MovementRecord): (after: map<Id, Movement>)
    ensures after.Keys == movements.Keys + {r.id}
    ensures forall id :: id in movements && id != r.id ==> after[id] == movements[id]
    ensures after[r.id].isSynced
  {
    if r.id in movements then movements[r.id := ResyncedMovement(movements[r.id], r)]
    else movements[r.id := NewMovement(r)]
  }

  /** Re-syncing a known movement changes only its amount and description. */
  lemma MovementResynced(movements: map<Id, Movement>, r: MovementRecord)
    requires r.id in movements
    ensures var after := UpsertMovement(movements, r);
      var m, t := movements[r.id], after[r.id];
      && after.Keys == movements.Keys
      && (forall id :: id in movements && id != r.id ==> after[id] == movements[id])
      && t.id == m.id && t.kind == m.kind && t.shiftId == m.shiftId && t.createdAt == m.createdAt
      && t.amount == r.amount && t.description == r.description && t.isSynced
  {
  }

  lemma MovementIdempotent(movements: map<Id, Movement>, r: MovementRecord)
    ensures UpsertMovement(UpsertMovement(movements, r), r) == UpsertMovement(movements, r)
  {
    var once := UpsertMovement(movements, r);
    if r.id in movements {
      assert ResyncedMovement(ResyncedMovement(movements[r.id], r), r) == ResyncedMovement(movements[r.id], r);
    } else {
      assert ResyncedMovement(NewMovement(r), r) == NewMovement(r);
    }
    assert once[r.id := ResyncedMovement(once[r.id], r)] == once;
  }

  method SyncMovement(db: Db, r: MovementRecord)
    modifies db`movements
    ensures db.movements == UpsertMovement(old(db.movements), r)
  {
    if r.id in db.movements {
      db.movements := db.movements[r.id := ResyncedMovement(db.movements[r.id], r)];
    } else {
      db.movements := db.movements[r.id := NewMovement(r)];
    }
  }

  // ===== the batch loops of syncFromDevice =====

  /** The table after a batch: record `k` is upserted unless the datastore
      refuses it (`fails(k)`), in which case it leaves no trace. */
  function Batch<T, R>(t: T, recs: seq<R>, upsert: (T, R) -> T, fails: nat -> bool): T
  {
    if recs == [] then t
    else
      var n := |recs| - 1;
      var before := Batch(t, recs[..n], upsert, fails);
      if fails(n) then before else upsert(before, recs[n])
  }

  /** The counters of a batch: one `synced` per accepted record, one error
      carrying the id per refused one. */
  function Outcome<R>(recs: seq<R>, key: R -> Id, fails: nat -> bool): (r: EntityResult)
  {
    if recs == [] then EntityResult(0, [])
    else
      var n := |recs| - 1;
      var before := Outcome(recs[..n], key, fails);
      if fails(n) then before.(errors := before.errors + [RecordError(key(recs[n]))])
      else before.(synced := before.synced + 1)
  }

  /** Positions below `n` that the datastore refuses, in batch order. */
  function Refused(n: nat, fails: nat -> bool): (r: seq<nat>)
    ensures forall j :: 0 <= j < |r| ==> r[j] < n && fails(r[j])
  {
    if n == 0 then []
    else Refused(n - 1, fails) + (if fails(n - 1) then [n - 1] else [])
  }

  /** The refused positions are increasing and complete. */
  lemma {:induction false} RefusedSpec(n: nat, fails: nat -> bool)
    ensures var r := Refused(n, fails);
      && (forall j, l :: 0 <= j < l < |r| ==> r[j] < r[l])
      && (forall k :: 0 <= k < n && fails(k) ==> k in r)
  {
    if n > 0 {
      RefusedSpec(n - 1, fails);
    }
  }

  /** Error isolation: every record is either synced or reported, the errors
      name exactly the refused records in batch order, and a batch nobody
      refuses reports no error. */
  lemma {:induction false} OutcomeSpec<R>(recs: seq<R>, key: R -> Id, fails: nat -> bool)
    ensures var r, bad := Outcome(recs, key, fails), Refused(|recs|, fails);
      && r.synced + |r.errors| == |recs|
      && |r.errors| == |bad|
      && (forall j :: 0 <= j < |bad| ==> r.errors[j].id == key(recs[bad[j]]))
  {
    if recs != [] {
      var n := |recs| - 1;
      OutcomeSpec(recs[..n], key, fails);
      var bad := Refused(n, fails);
      forall j | 0 <= j < |bad| ensures recs[..n][bad[j]] == recs[bad[j]] {
      }
    }
  }

  /** No error is reported exactly when no record of the batch is refused. */
  lemma NoErrorsIffNoneRefused<R>(recs: seq<R>, key: R -> Id, fails: nat -> bool)
    ensures |Outcome(recs, key, fails).errors| == 0 <==> forall k :: 0 <= k < |recs| ==> !fails(k)
    ensures (forall k :: 0 <= k < |recs| ==> fails(k)) ==> Outcome(recs, key, fails).synced == 0
  {
    OutcomeSpec(recs, key, fails);
    RefusedSpec(|recs|, fails);
    var bad := Refused(|recs|, fails);
    if forall k :: 0 <= k < |recs| ==> fails(k) {
      AllRefused(|recs|, fails);
    }
  }

  lemma {:induction false} AllRefused(n: nat, fails: nat -> bool)
    requires forall k :: 0 <= k < n ==> fails(k)
    ensures |Refused(n, fails)| == n
  {
    if n > 0 {
      AllRefused(n - 1, fails);
    }
  }

  /** A batch whose every record is refused leaves the table as it was. */
  lemma {:induction false} BatchAllRefused<T, R>(t: T, recs: seq<R>, upsert: (T, R) -> T, fails: nat -> bool)
    requires forall k :: 0 <= k < |recs| ==> fails(k)
    ensures Batch(t, recs, upsert, fails) == t
  {
    if recs != [] {
      BatchAllRefused(t, recs[..|recs| - 1], upsert, fails);
    }
  }

  /** One more record of the batch. */
  lemma BatchStep<T, R>(t: T, recs: seq<R>, i: nat, upsert: (T, R) -> T, key: R -> Id, fails: nat -> bool)
    requires i < |recs|
    ensures Batch(t, recs[..i + 1], upsert, fails)
      == if fails(i) then Batch(t, recs[..i], upsert, fails) else upsert(Batch(t, recs[..i], upsert, fails), recs[i])
    ensures Outcome(recs[..i + 1], key, fails)
      == if fails(i) then Outcome(recs[..i], key, fails).(errors := Outcome(recs[..i], key, fails).errors + [RecordError(key(recs[i]))])
         else Outcome(recs[..i], key, fails).(synced := Outcome(recs[..i], key, fails).synced + 1)
  {
    assert recs[..i + 1][..i] == recs[..i];
  }

  method ShiftBatch(db: Db, recs: seq<ShiftRecord>, fails: nat -> bool) returns (res: EntityResult)
    modifies db`shifts
    ensures db.shifts == Batch(old(db.shifts), recs, UpsertShift, fails)
    ensures res == Outcome(recs, ShiftKey, fails)
  {
    res := EntityResult(0, []);
    var i := 0;
    while i < |recs|
      invariant 0 <= i <= |recs|
      invariant db.shifts == Batch(old(db.shifts), recs[..i], UpsertShift, fails)
      invariant res == Outcome(recs[..i], ShiftKey, fails)
    {
      BatchStep(old(db.shifts), recs, i, UpsertShift, ShiftKey, fails);
      if fails(i) {
        res := res.(errors := res.errors + [RecordError(recs[i].id)]);
      } else {
        SyncShift(db, recs[i]);
        res := res.(synced := res.synced + 1);
      }
      i := i + 1;
    }
    assert recs[..|recs|] == recs;
  }

  method SaleBatch(db: Db, recs: seq<SaleRecord>, fails: nat -> bool) returns (res: EntityResult)
    modifies db`sales
    ensures db.sales == Batch(old(db.sales), recs, UpsertSale, fails)
    ensures res == Outcome(recs, SaleKey, fails)
  {
    res := EntityResult(0, []);
    var i := 0;
    while i < |recs|
      invariant 0 <= i <= |recs|
      invariant db.sales == Batch(old(db.sales), recs[..i], UpsertSale, fails)
      invariant res == Outcome(recs[..i], SaleKey, fails)
    {
      BatchStep(old(db.sales), recs, i, UpsertSale, SaleKey, fails);
      if fails(i) {
        res := res.(errors := res.errors + [RecordError(recs[i].id)]);
      } else {
        var _ := SyncSale(db, recs[i]);
        res := res.(synced := res.synced + 1);
      }
      i := i + 1;
    }
    assert recs[..|recs|] == recs;
  }

  method ItemBatch(db: Db, recs: seq<ItemRecord>, fails: nat -> bool) returns (res: EntityResult)
    modifies db`saleItems
    ensures db.saleItems == Batch(old(db.saleItems), recs, UpsertItem, fails)
    ensures res == Outcome(recs, ItemKey, fails)
  {
    res := EntityResult(0, []);
    var i := 0;
    while i < |recs|
      invariant 0 <= i <= |recs|
      invariant db.saleItems == Batch(old(db.saleItems), recs[..i], UpsertItem, fails)
      invariant res == Outcome(recs[..i], ItemKey, fails)
    {
      BatchStep(old(db.saleItems), recs, i, UpsertItem, ItemKey, fails);
      if fails(i) {
        res := res.(errors := res.errors + [RecordError(recs[i].id)]);
      } else {
        SyncSaleItem(db, recs[i]);
        res := res.(synced := res.synced + 1);
      }
      i := i + 1;
    }
    assert recs[..|recs|] == recs;
  }

  method MovementBatch(db: Db, recs: seq<MovementRecord>, fails: nat -> bool) returns (res: EntityResult)
    modifies db`movements
    ensures db.movements == Batch(old(db.movements), recs, UpsertMovement, fails)
    ensures res == Outcome(recs, MovementKey, fails)
  {
    res := EntityResult(0, []);
    var i := 0;
    while i < |recs|
      invariant 0 <= i <= |recs|
      invariant db.movements == Batch(old(db.movements), recs[..i], UpsertMovement, fails)
      invariant res == Outcome(recs[..i], MovementKey, fails)
    {
      BatchStep(old(db.movements), recs, i, UpsertMovement, MovementKey, fails);
      if fails(i) {
        res := res.(errors := res.errors + [RecordError(recs[i].id)]);
      } else {
        SyncMovement(db, recs[i]);
        res := res.(synced := res.synced + 1);
      }
      i := i + 1;
    }
    assert recs[..|recs|] == recs;
  }

  // ===== logSync =====

  /** `req.headers['x-device-id'] || 'unknown'`. */
  function DeviceId(header: Option<string>): string
  {
    TextOr(header, "unknown")
  }

  function TotalRecords(r: SyncResults): nat
  {
    r.sales.synced + r.saleItems.synced + r.movements.synced + r.shifts.synced
  }

  function TotalErrors(r: SyncResults): nat
  {
    |r.sales.errors| + |r.saleItems.errors| + |r.movements.errors| + |r.shifts.errors| + |r.inventory.errors|
  }

  function LogStatus(totalRecords: nat, totalErrors: nat): (r: string)
    ensures r == "success" <==> totalErrors == 0
    ensures r == "failed" <==> totalErrors > 0 && totalRecords == 0
  {
    if totalErrors == 0 then "success" else if totalRecords > 0 then "partial" else "failed"
  }

  /** The three outcomes of a run and when each is logged. */
  lemma LogStatusCases(totalRecords: nat, totalErrors: nat)
    ensures LogStatus(totalRecords, totalErrors) == "success" <==> totalErrors == 0
    ensures LogStatus(totalRecords, totalErrors) == "partial" <==> totalErrors > 0 && totalRecords > 0
    ensures LogStatus(totalRecords, totalErrors) == "failed" <==> totalErrors > 0 && totalRecords == 0
  {
  }

  /** The `sync_log` row of a whole run; the results go along only when something failed. */
  function LogRow(deviceId: string, syncType: string, r: SyncResults): SyncLogEntry
  {
    SyncLogEntry(deviceId, syncType, "all", TotalRecords(r), LogStatus(TotalRecords(r), TotalErrors(r)),
                 if TotalErrors(r) > 0 then Some(r) else None)
  }

  method LogSync(db: Db, deviceId: string, syncType: string, r: SyncResults)
    modifies db`syncLog
    ensures db.syncLog == old(db.syncLog) + [LogRow(deviceId, syncType, r)]
  {
    var totalRecords := r.sales.synced + r.saleItems.synced + r.movements.synced + r.shifts.synced;
    var totalErrors := |r.sales.errors| + |r.saleItems.errors| + |r.movements.errors|
                       + |r.shifts.errors| + |r.inventory.errors|;
    var status := if totalErrors == 0 then "success" else if totalRecords > 0 then "partial" else "failed";
    db.syncLog := db.syncLog + [SyncLogEntry(deviceId, syncType, "all", totalRecords, status,
                                             if totalErrors > 0 then Some(r) else None)];
  }

  // ===== syncFromDevice =====

  /** Which uploaded records the datastore refuses, by position in each batch. */
  datatype Refusals = Refusals(
    shifts: nat -> bool, sales: nat -> bool, saleItems: nat -> bool, movements: nat -> bool)

  /** The `results` object of a run; the inventory counters stay at zero. */
  function DeviceResults(shifts: seq<ShiftRecord>, sales: seq<SaleRecord>, items: seq<ItemRecord>,
                         movements: seq<MovementRecord>, no: Refusals): SyncResults
  {
    SyncResults(Outcome(sales, SaleKey, no.sales), Outcome(items, ItemKey, no.saleItems),
                Outcome(movements, MovementKey, no.movements), Outcome(shifts, ShiftKey, no.shifts),
                EntityResult(0, []))
  }

  /** Shifts first, then sales, lines and movements, each record on its own;
      the run is logged once at the end. */
  method SyncFromDevice(db: Db, header: Option<string>, shifts: seq<ShiftRecord>, sales: seq<SaleRecord>,
                        items: seq<ItemRecord>, movements: seq<MovementRecord>, no: Refusals)
    returns (results: SyncResults)
    modifies db`shifts, db`sales, db`saleItems, db`movements, db`syncLog
    ensures db.shifts == Batch(old(db.shifts), shifts, UpsertShift, no.shifts)
    ensures db.sales == Batch(old(db.sales), sales, UpsertSale, no.sales)
    ensures db.saleItems == Batch(old(db.saleItems), items, UpsertItem, no.saleItems)
    ensures db.movements == Batch(old(db.movements), movements, UpsertMovement, no.movements)
    ensures results == DeviceResults(shifts, sales, items, movements, no)
    ensures db.syncLog == old(db.syncLog) + [LogRow(DeviceId(header), "upload", results)]
  {
    var deviceId := DeviceId(header);
    var shiftRes := ShiftBatch(db, shifts, no.shifts);
    var saleRes := SaleBatch(db, sales, no.sales);
    var itemRes := ItemBatch(db, items, no.saleItems);
    var movementRes := MovementBatch(db, movements, no.movements);
    results := SyncResults(saleRes, itemRes, movementRes, shiftRes, EntityResult(0, []));
    LogSync(db, deviceId, "upload", results);
  }

  /** Every record is counted once, and the run is logged `success` exactly
      when no record was refused and `failed` exactly when some were and no
      record at all got through. */
  lemma DeviceRunLogged(header: Option<string>, shifts: seq<ShiftRecord>, sales: seq<SaleRecord>,
                        items: seq<ItemRecord>, movements: seq<MovementRecord>, no: Refusals)
    ensures var r := DeviceResults(shifts, sales, items, movements, no);
      var row := LogRow(DeviceId(header), "upload", r);
      && TotalRecords(r) + TotalErrors(r) == |shifts| + |sales| + |items| + |movements|
      && (row.status == "success" <==>
            (forall k :: 0 <= k < |shifts| ==> !no.shifts(k)) && (forall k :: 0 <= k < |sales| ==> !no.sales(k))
            && (forall k :: 0 <= k < |items| ==> !no.saleItems(k))
            && (forall k :: 0 <= k < |movements| ==> !no.movements(k)))
      && (row.status == "failed" ==> TotalRecords(r) == 0)
      && (row.errorDetail.Some? <==> row.status != "success")
  {
    var r := DeviceResults(shifts, sales, items, movements, no);
    OutcomeSpec(shifts, ShiftKey, no.shifts);
    OutcomeSpec(sales, SaleKey, no.sales);
    OutcomeSpec(items, ItemKey, no.saleItems);
    OutcomeSpec(movements, MovementKey, no.movements);
    NoErrorsIffNoneRefused(shifts, ShiftKey, no.shifts);
    NoErrorsIffNoneRefused(sales, SaleKey, no.sales);
    NoErrorsIffNoneRefused(items, ItemKey, no.saleItems);
    NoErrorsIffNoneRefused(movements, MovementKey, no.movements);
    LogStatusCases(TotalRecords(r), TotalErrors(r));
  }

  // ===== syncSales and syncMovements =====

  /** The log row of `syncSales`: only the sales count, and the line errors
      play no part in the status. */
  function SalesLogRow(deviceId: string, sales: EntityResult): SyncLogEntry
  {
    SyncLogEntry(deviceId, "upload", "sales", sales.synced,
                 if |sales.errors| == 0 then "success" else "partial", None)
  }

  function MovementsLogRow(deviceId: string, movements: EntityResult): SyncLogEntry
  {
    SyncLogEntry(deviceId, "upload", "movements", movements.synced,
                 if |movements.errors| == 0 then "success" else "partial", None)
  }

  method SyncSales(db: Db, header: Option<string>, sales: seq<SaleRecord>, items: seq<ItemRecord>, no: Refusals)
    returns (saleRes: EntityResult, itemRes: EntityResult)
    modifies db`sales, db`saleItems, db`syncLog
    ensures db.sales == Batch(old(db.sales), sales, UpsertSale, no.sales)
    ensures db.saleItems == Batch(old(db.saleItems), items, UpsertItem, no.saleItems)
    ensures saleRes == Outcome(sales, SaleKey, no.sales) && itemRes == Outcome(items, ItemKey, no.saleItems)
    ensures db.syncLog == old(db.syncLog) + [SalesLogRow(DeviceId(header), saleRes)]
  {
    var deviceId := DeviceId(header);
    saleRes := SaleBatch(db, sales, no.sales);
    itemRes := ItemBatch(db, items, no.saleItems);
    db.syncLog := db.syncLog + [SyncLogEntry(deviceId, "upload", "sales", saleRes.synced,
                                             if |saleRes.errors| == 0 then "success" else "partial", None)];
  }

  method SyncMovements(db: Db, header: Option<string>, movements: seq<MovementRecord>, no: Refusals)
    returns (res: EntityResult)
    modifies db`movements, db`syncLog
    ensures db.movements == Batch(old(db.movements), movements, UpsertMovement, no.movements)
    ensures res == Outcome(movements, MovementKey, no.movements)
    ensures db.syncLog == old(db.syncLog) + [MovementsLogRow(DeviceId(header), res)]
  {
    var deviceId := DeviceId(header);
    res := MovementBatch(db, movements, no.movements);
    db.syncLog := db.syncLog + [SyncLogEntry(deviceId, "upload", "movements", res.synced,
                                             if |res.errors| == 0 then "success" else "partial", None)];
  }

  /** `syncSales` logs `success` exactly when no sale was refused, and never
      `failed`; refused lines do not show. */
  lemma SalesLogStatus(deviceId: string, sales: seq<SaleRecord>, no: Refusals)
    ensures var row := SalesLogRow(deviceId, Outcome(sales, SaleKey, no.sales));
      && (row.status == "success" <==> forall k :: 0 <= k < |sales| ==> !no.sales(k))
      && row.status != "failed"
  {
    NoErrorsIffNoneRefused(sales, SaleKey, no.sales);
  }

  /** `syncMovements` logs `success` exactly when no movement was refused, and never `failed`. */
  lemma MovementsLogStatus(deviceId: string, movements: seq<MovementRecord>, no: Refusals)
    ensures var row := MovementsLogRow(deviceId, Outcome(movements, MovementKey, no.movements));
      && (row.status == "success" <==> forall k :: 0 <= k < |movements| ==> !no.movements(k))
      && row.status != "failed"
  {
    NoErrorsIffNoneRefused(movements, MovementKey, no.movements);
  }

  // ===== processInventoryDeduction =====

  /** What one recipe row takes for `quantity` sold: no yield, no modifiers. */
  function RowNeed(recipe: Recipe, quantity: real): real
  {
    quantity * recipe.quantityRequired
  }

  /** Each recipe row takes its need from its ingredient, floored at 0; a
      missing ingredient row is left alone. */
  function IngredientsDeducted(products: map<Id, Product>, rs: seq<Recipe>, quantity: real): map<Id, Product>
  {
    if rs == [] then products
    else
      var n := |rs| - 1;
      Stock.DeductRow(IngredientsDeducted(products, rs[..n], quantity), rs[n].ingredientId, RowNeed(rs[n], quantity))
  }

  /** One line: an unknown product is skipped, a stock-managed one loses the
      quantity, any other one its recipe's ingredients. */
  function InventoryLine(products: map<Id, Product>, recipes: seq<Recipe>, line: SaleItem): map<Id, Product>
  {
    if line.productId !in products then products
    else if products[line.productId].manageStock then Stock.DeductRow(products, line.productId, line.quantity)
    else IngredientsDeducted(products, Stock.RecipesOf(recipes, line.productId), line.quantity)
  }

  function InventoryAfter(products: map<Id, Product>, recipes: seq<Recipe>, lines: seq<SaleItem>): map<Id, Product>
  {
    if lines == [] then products
    else InventoryLine(InventoryAfter(products, recipes, lines[..|lines| - 1]), recipes, lines[|lines| - 1])
  }

  method DeductIngredients(db: Db, rs: seq<Recipe>, quantity: real)
    modifies db`products
    ensures db.products == IngredientsDeducted(old(db.products), rs, quantity)
  {
    var j := 0;
    while j < |rs|
      invariant 0 <= j <= |rs|
      invariant db.products == IngredientsDeducted(old(db.products), rs[..j], quantity)
    {
      assert rs[..j + 1][..j] == rs[..j];
      var totalToDeduct := quantity * rs[j].quantityRequired;
      assert totalToDeduct == RowNeed(rs[j], quantity);
      db.products := Stock.DeductRow(db.products, rs[j].ingredientId, totalToDeduct);
      j := j + 1;
    }
    assert rs[..|rs|] == rs;
  }

  /** `processInventoryDeduction(saleId)`: a sale without lines changes nothing. */
  method ProcessInventoryDeduction(db: Db, saleId: Id)
    modifies db`products
    ensures db.products == InventoryAfter(old(db.products), db.recipes, ItemsOfSale(db.saleItems, saleId))
    ensures ItemsOfSale(db.saleItems, saleId) == [] ==> db.products == old(db.products)
  {
    var lines := ItemsOfSale(db.saleItems, saleId);
    if |lines| == 0 {
      return;
    }
    var i := 0;
    while i < |lines|
      invariant 0 <= i <= |lines|
      invariant db.products == InventoryAfter(old(db.products), db.recipes, lines[..i])
    {
      var line := lines[i];
      assert lines[..i + 1][..i] == lines[..i];
      if line.productId in db.products {
        var product := db.products[line.productId];
        if product.manageStock {
          db.products := db.products[line.productId :=
                           product.(stockCurrent := Max0(product.stockCurrent - line.quantity))];
        } else {
          DeductIngredients(db, Stock.RecipesOf(db.recipes, line.productId), line.quantity);
        }
      }
      i := i + 1;
    }
    assert lines[..|lines|] == lines;
  }

  // ----- properties of the inventory pass -----

  lemma {:induction false} IngredientsShape(products: map<Id, Product>, rs: seq<Recipe>, quantity: real)
    ensures Stock.SameRowsButStock(products, IngredientsDeducted(products, rs, quantity))
  {
    if rs != [] {
      IngredientsShape(products, rs[..|rs| - 1], quantity);
    }
  }

  lemma {:induction false} IngredientsNonNegative(products: map<Id, Product>, rs: seq<Recipe>, quantity: real)
    requires StockNonNegative(products)
    ensures StockNonNegative(IngredientsDeducted(products, rs, quantity))
  {
    if rs != [] {
      IngredientsNonNegative(products, rs[..|rs| - 1], quantity);
    }
  }

  /** The pass changes only stock, adds and removes no row, and leaves no
      stock negative. */
  lemma {:induction false} InventoryNonNegative(products: map<Id, Product>, recipes: seq<Recipe>, lines: seq<SaleItem>)
    requires StockNonNegative(products)
    ensures StockNonNegative(InventoryAfter(products, recipes, lines))
    ensures Stock.SameRowsButStock(products, InventoryAfter(products, recipes, lines))
  {
    if lines != [] {
      var prefix := lines[..|lines| - 1];
      var line := lines[|lines| - 1];
      InventoryNonNegative(products, recipes, prefix);
      var mid := InventoryAfter(products, recipes, prefix);
      if line.productId in mid && !mid[line.productId].manageStock {
        IngredientsNonNegative(mid, Stock.RecipesOf(recipes, line.productId), line.quantity);
        IngredientsShape(mid, Stock.RecipesOf(recipes, line.productId), line.quantity);
      }
    }
  }

  /** No yield above 1 anywhere in the catalog. */
  ghost predicate NoYield(products: map<Id, Product>)
  {
    forall id :: id in products ==> Stock.YieldOf(products[id]) <= 1.0
  }

  /** A sale line read as a line of the newer deduction, without modifiers. */
  function AsLineItem(line: SaleItem): Stock.LineItem
  {
    Stock.LineItem(line.productId, line.quantity, NoModifiers)
  }

  function AsLineItems(lines: seq<SaleItem>): (r: seq<Stock.LineItem>)
    ensures |r| == |lines|
  {
    if lines == [] then [] else AsLineItems(lines[..|lines| - 1]) + [AsLineItem(lines[|lines| - 1])]
  }

  lemma NoYieldKept(before: map<Id, Product>, after: map<Id, Product>)
    requires NoYield(before) && Stock.SameRowsButStock(before, after)
    ensures NoYield(after)
  {
    forall id | id in after ensures Stock.YieldOf(after[id]) <= 1.0 {
      assert after[id].yieldPerUnit == before[id].yieldPerUnit;
    }
  }

  lemma {:induction false} IngredientsAgree(products: map<Id, Product>, rs: seq<Recipe>, line: SaleItem)
    requires NoYield(products)
    ensures IngredientsDeducted(products, rs, line.quantity) == Stock.DeductRecipes(products, rs, AsLineItem(line))
  {
    if rs != [] {
      var n := |rs| - 1;
      var item := AsLineItem(line);
      IngredientsAgree(products, rs[..n], line);
      var mid := Stock.DeductRecipes(products, rs[..n], item);
      Stock.DeductRecipesShape(products, rs[..n], item);
      NoYieldKept(products, mid);
      AgreeStep(mid, rs[n], line);
    }
  }

  /** One recipe row: without modifiers the multiplier is 1, and without a
      yield the stock units are the portions. */
  lemma AgreeStep(mid: map<Id, Product>, recipe: Recipe, line: SaleItem)
    requires NoYield(mid)
    ensures Stock.DeductRow(mid, recipe.ingredientId, RowNeed(recipe, line.quantity))
      == (if Stock.ModifierMultiplier(NoModifiers, recipe.ingredientId) == 0.0 || recipe.ingredientId !in mid then mid
          else Stock.DeductRow(mid, recipe.ingredientId,
                               Stock.StockUnits(Stock.Need(recipe, AsLineItem(line)), Stock.YieldOf(mid[recipe.ingredientId]))))
  {
    var ing := recipe.ingredientId;
    Stock.MultiplierWithoutList(NoModifiers, ing);
    var need := Stock.Need(recipe, AsLineItem(line));
    assert need == RowNeed(recipe, line.quantity);
    if ing in mid {
      assert Stock.YieldOf(mid[ing]) <= 1.0;
    }
  }

  /** The older pass is the newer deduction with modifiers ignored and every
      yield taken as 1: on a catalog without yields the two agree. */
  lemma {:induction false} InventoryIsDeductionWithoutModifiers(products: map<Id, Product>, recipes: seq<Recipe>,
                                                                lines: seq<SaleItem>)
    requires NoYield(products)
    ensures InventoryAfter(products, recipes, lines) == Stock.DeductAll(products, recipes, AsLineItems(lines))
  {
    if lines != [] {
      var prefix := lines[..|lines| - 1];
      var line := lines[|lines| - 1];
      InventoryIsDeductionWithoutModifiers(products, recipes, prefix);
      assert AsLineItems(lines)[..|lines| - 1] == AsLineItems(prefix);
      var mid := InventoryAfter(products, recipes, prefix);
      NoYieldKept(products, mid);
      if line.productId in mid && !mid[line.productId].manageStock {
        IngredientsAgree(mid, Stock.RecipesOf(recipes, line.productId), line);
      }
    }
  }
}
