/** The credit ledger: FIFO allocation of a customer's payment over the
    outstanding charges, opening balances, and the customer field update. */
module Credit {
  import opened Common
  import opened Store

  // ===== outstanding charges, oldest first =====

  /** A charge or opening balance of the customer that still has something to pay. */
  predicate IsOpenCharge(t: CreditTx, customerId: Id)
  {
    t.customerId == customerId && (t.kind.Charge? || t.kind.OpeningBalance?) && t.remaining > 0.0
  }

  /** Positions of the customer's open charges in the ledger, oldest first
      (the ledger is kept in `created_at` order). */
  function OpenCharges(txs: seq<CreditTx>, customerId: Id): (r: seq<nat>)
    ensures forall k :: 0 <= k < |r| ==> r[k] < |txs| && IsOpenCharge(txs[r[k]], customerId)
  {
    if txs == [] then []
    else
      var n := |txs| - 1;
      OpenCharges(txs[..n], customerId) + (if IsOpenCharge(txs[n], customerId) then [n] else [])
  }

  /** The selection is in ledger order and misses no open charge. */
  lemma {:induction false} OpenChargesSpec(txs: seq<CreditTx>, customerId: Id)
    ensures var r := OpenCharges(txs, customerId);
      && (forall k, l :: 0 <= k < l < |r| ==> r[k] < r[l])
      && (forall j :: 0 <= j < |txs| && IsOpenCharge(txs[j], customerId) ==> j in r)
  {
    if txs != [] {
      var n := |txs| - 1;
      OpenChargesSpec(txs[..n], customerId);
      forall j | 0 <= j < n && IsOpenCharge(txs[j], customerId) ensures j in OpenCharges(txs[..n], customerId) {
        assert txs[..n][j] == txs[j];
      }
    }
  }

  /** Positions of ledger rows that still owe something. */
  predicate OpenPositions(txs: seq<CreditTx>, charges: seq<nat>)
  {
    forall k :: 0 <= k < |charges| ==> charges[k] < |txs| && txs[charges[k]].remaining > 0.0
  }

  /** What is still owed on each open charge, in FIFO order. */
  function Remainings(txs: seq<CreditTx>, charges: seq<nat>): (r: seq<real>)
    requires forall k :: 0 <= k < |charges| ==> charges[k] < |txs|
    ensures |r| == |charges|
    ensures forall k :: 0 <= k < |charges| ==> r[k] == txs[charges[k]].remaining
  {
    seq(|charges|, k requires 0 <= k < |charges| => txs[charges[k]].remaining)
  }

  // ===== greedy allocation =====

  /** What is left of a payment after the allocations so far. */
  function Unpaid(allocs: seq<real>, amount: real): real
  {
    amount - Sum(allocs)
  }

  /** The amounts a payment of `amount` puts on charges owing `rems`, taken in
      order: each gets what is left of the payment, at most what it owes, and
      allocation stops once the payment is used up. */
  function Allocate(rems: seq<real>, amount: real): (r: seq<real>)
    ensures amount <= 0.0 ==> r == []
  {
    if rems == [] then []
    else
      var a := Allocate(rems[..|rems| - 1], amount);
      var left := Unpaid(a, amount);
      if left <= 0.0 then a else a + [Min(left, rems[|rems| - 1])]
  }

  ghost predicate AllPositive(xs: seq<real>)
  {
    forall k :: 0 <= k < |xs| ==> xs[k] > 0.0
  }

  lemma SumSnoc(xs: seq<real>, x: real)
    ensures Sum(xs + [x]) == Sum(xs) + x
  {
    assert (xs + [x])[..|xs|] == xs;
  }

  /** The allocation total: never more than the payment, all of the payment
      or all of the debt on these charges, whichever is smaller, and short of
      the payment only when every charge is paid in full. */
  lemma {:induction false} AllocateTotal(rems: seq<real>, amount: real)
    requires amount > 0.0 && AllPositive(rems)
    ensures var a := Allocate(rems, amount);
      && Sum(a) <= amount
      && (Sum(a) < amount ==> a == rems)
      && Sum(a) == Min(amount, Sum(rems))
  {
    if rems != [] {
      var init := rems[..|rems| - 1];
      var r := rems[|rems| - 1];
      assert AllPositive(init) by {
        forall k | 0 <= k < |init| ensures init[k] > 0.0 { assert init[k] == rems[k]; }
      }
      AllocateTotal(init, amount);
      var a0 := Allocate(init, amount);
      assert Sum(rems) == Sum(init) + r by { assert rems == init + [r]; SumSnoc(init, r); }
      AllocateUnfold(rems, amount);
      if Unpaid(a0, amount) > 0.0 {
        assert a0 == init;
        var x := Min(Unpaid(a0, amount), r);
        SumSnoc(a0, x);
        if x < r {
          assert Sum(a0 + [x]) == amount;
        } else {
          assert a0 + [x] == rems;
        }
      } else {
        assert Sum(init) >= amount;
      }
    }
  }

  lemma AllocateUnfold(rems: seq<real>, amount: real)
    requires rems != []
    ensures var a0 := Allocate(rems[..|rems| - 1], amount);
            Allocate(rems, amount) == if Unpaid(a0, amount) <= 0.0 then a0 else a0 + [Min(Unpaid(a0, amount), rems[|rems| - 1])]
  {
  }

  /** The allocations run over the charges from the oldest on: all but the
      last equal what their charge owes, and the last is positive and at most
      what its charge owes. */
  lemma {:induction false} AllocatePrefix(rems: seq<real>, amount: real)
    requires amount > 0.0 && AllPositive(rems)
    ensures var a := Allocate(rems, amount);
      && |a| <= |rems|
      && (|a| > 0 ==> a[..|a| - 1] == rems[..|a| - 1] && 0.0 < a[|a| - 1] <= rems[|a| - 1])
  {
    if rems != [] {
      var init := rems[..|rems| - 1];
      assert AllPositive(init) by {
        forall k | 0 <= k < |init| ensures init[k] > 0.0 { assert init[k] == rems[k]; }
      }
      AllocatePrefix(init, amount);
      AllocateUnfold(rems, amount);
      var a0 := Allocate(init, amount);
      if Unpaid(a0, amount) > 0.0 {
        AllocateTotal(init, amount);
        assert a0 == init;
        var x := Min(Unpaid(a0, amount), rems[|rems| - 1]);
        assert Allocate(rems, amount) == init + [x];
        assert (init + [x])[..|init|] == init;
      } else if |a0| > 0 {
        assert init[..|a0| - 1] == rems[..|a0| - 1];
        assert init[|a0| - 1] == rems[|a0| - 1];
      }
    }
  }

  /** The allocation shape: one amount per charge from the oldest on, each
      positive and at most what its charge owes, and every charge but the
      last one touched paid in full. */
  lemma AllocateShape(rems: seq<real>, amount: real)
    requires amount > 0.0 && AllPositive(rems)
    ensures var a := Allocate(rems, amount);
      && |a| <= |rems|
      && (forall k :: 0 <= k < |a| ==> 0.0 < a[k] <= rems[k])
      && (forall k :: 0 <= k < |a| - 1 ==> a[k] == rems[k])
      && (|a| < |rems| ==> Sum(a) == amount)
  {
    AllocateTotal(rems, amount);
    AllocatePrefix(rems, amount);
    var a := Allocate(rems, amount);
    forall k | 0 <= k < |a| - 1 ensures a[k] == rems[k] {
      assert a[k] == a[..|a| - 1][k];
      assert rems[k] == rems[..|a| - 1][k];
    }
  }

  /** While some of the payment is left, the next charge takes the smaller
      of that and what it owes. */
  lemma AllocateNext(rems: seq<real>, i: nat, amount: real)
    requires i < |rems|
    requires Unpaid(Allocate(rems[..i], amount), amount) > 0.0
    ensures Allocate(rems[..i + 1], amount)
            == Allocate(rems[..i], amount) + [Min(Unpaid(Allocate(rems[..i], amount), amount), rems[i])]
  {
    assert rems[..i + 1][..i] == rems[..i];
  }

  /** Once the payment is used up, further charges receive nothing. */
  lemma {:induction false} AllocateStops(rems: seq<real>, n: nat, amount: real)
    requires n <= |rems|
    requires Unpaid(Allocate(rems[..n], amount), amount) <= 0.0
    ensures Allocate(rems, amount) == Allocate(rems[..n], amount)
  {
    if n < |rems| {
      assert rems[..|rems| - 1][..n] == rems[..n];
      AllocateStops(rems[..|rems| - 1], n, amount);
    } else {
      assert rems[..n] == rems;
    }
  }

  // ===== the ledger after a payment =====

  /** Lowers the `remaining` of the first |allocs| open charges by their allocations. */
  function Settle(txs: seq<CreditTx>, charges: seq<nat>, allocs: seq<real>): (r: seq<CreditTx>)
    requires |allocs| <= |charges|
    requires forall k :: 0 <= k < |charges| ==> charges[k] < |txs|
    ensures |r| == |txs|
  {
    if allocs == [] then txs
    else
      var n := |allocs| - 1;
      var t := Settle(txs, charges, allocs[..n]);
      t[charges[n] := Lowered(t[charges[n]], allocs[n])]
  }

  /** The charge after `remaining = remaining - amount`. */
  function Lowered(t: CreditTx, amount: real): (r: CreditTx)
    ensures r.remaining == t.remaining - amount
  {
    t.(remaining := t.remaining - amount)
  }

  /** Description of the payment transaction on a charge. */
  function PaymentDescription(charge: CreditTx): string
  {
    if charge.kind.OpeningBalance? then "Pago a Saldo Inicial" else "Pago a Venta"
  }

  /** The payment transaction for allocation `k`, of `amount`, on its charge. */
  function PaymentTx(charge: CreditTx, k: nat, amount: real, customerId: Id,
                     movementId: Id, shiftId: Id, freshId: nat -> Id): CreditTx
  {
    CreditTx(freshId(k + 1), customerId, Payment, amount, 0.0, Some(charge.id),
             Some(movementId), Some(shiftId), PaymentDescription(charge), None, None)
  }

  /** One payment transaction per allocation, in allocation order. */
  function PaymentTxs(txs: seq<CreditTx>, charges: seq<nat>, allocs: seq<real>, customerId: Id,
                      movementId: Id, shiftId: Id, freshId: nat -> Id): (r: seq<CreditTx>)
    requires |allocs| <= |charges|
    requires forall k :: 0 <= k < |charges| ==> charges[k] < |txs|
    ensures |r| == |allocs|
  {
    if allocs == [] then []
    else
      var n := |allocs| - 1;
      PaymentTxs(txs, charges, allocs[..n], customerId, movementId, shiftId, freshId)
      + [PaymentTx(txs[charges[n]], n, allocs[n], customerId, movementId, shiftId, freshId)]
  }

  /** Payment k is of allocation k, linked to charge k and to the movement. */
  lemma {:induction false} PaymentTxsLinked(txs: seq<CreditTx>, charges: seq<nat>, allocs: seq<real>, customerId: Id,
                                            movementId: Id, shiftId: Id, freshId: nat -> Id)
    requires |allocs| <= |charges|
    requires forall k :: 0 <= k < |charges| ==> charges[k] < |txs|
    ensures var r := PaymentTxs(txs, charges, allocs, customerId, movementId, shiftId, freshId);
      forall k :: 0 <= k < |allocs| ==>
        && r[k].kind == Payment && r[k].amount == allocs[k] && r[k].customerId == customerId
        && r[k].relatedChargeId == Some(txs[charges[k]].id)
        && r[k].movementId == Some(movementId) && r[k].shiftId == Some(shiftId)
  {
    if allocs != [] {
      var n := |allocs| - 1;
      PaymentTxsLinked(txs, charges, allocs[..n], customerId, movementId, shiftId, freshId);
    }
  }

  function Amounts(ps: seq<CreditTx>): (r: seq<real>)
    ensures |r| == |ps|
  {
    if ps == [] then [] else Amounts(ps[..|ps| - 1]) + [ps[|ps| - 1].amount]
  }

  lemma {:induction false} AmountsOfPayments(txs: seq<CreditTx>, charges: seq<nat>, allocs: seq<real>, customerId: Id,
                                             movementId: Id, shiftId: Id, freshId: nat -> Id)
    requires |allocs| <= |charges|
    requires forall k :: 0 <= k < |charges| ==> charges[k] < |txs|
    ensures Amounts(PaymentTxs(txs, charges, allocs, customerId, movementId, shiftId, freshId)) == allocs
  {
    if allocs != [] {
      var n := |allocs| - 1;
      AmountsOfPayments(txs, charges, allocs[..n], customerId, movementId, shiftId, freshId);
      var r := PaymentTxs(txs, charges, allocs, customerId, movementId, shiftId, freshId);
      assert r[..n] == PaymentTxs(txs, charges, allocs[..n], customerId, movementId, shiftId, freshId);
      assert allocs == allocs[..n] + [allocs[n]];
    }
  }

  /** Settling touches only the allocated charges, each lowered exactly once
      by its allocation. */
  lemma {:induction false} SettleEffect(txs: seq<CreditTx>, charges: seq<nat>, allocs: seq<real>, j: nat)
    requires |allocs| <= |charges|
    requires forall k :: 0 <= k < |charges| ==> charges[k] < |txs|
    requires forall k, l :: 0 <= k < l < |charges| ==> charges[k] < charges[l]
    requires j < |txs|
    ensures var s := Settle(txs, charges, allocs);
      && (forall k :: 0 <= k < |allocs| && charges[k] == j ==> s[j] == Lowered(txs[j], allocs[k]))
      && ((forall k :: 0 <= k < |allocs| ==> charges[k] != j) ==> s[j] == txs[j])
  {
    if allocs != [] {
      SettleEffect(txs, charges, allocs[..|allocs| - 1], j);
    }
  }

  // ===== registerPayment =====

  datatype PaymentReply =
    | PaymentRejected(status: int, error: string)
    | PaymentDone(customer: Customer, payments: seq<CreditTx>)

  /** `!customer_id || !amount || amount <= 0 || !shift_id`. */
  predicate ValidPayment(customerId: Option<Id>, amount: Option<real>, shiftId: Option<Id>)
  {
    Truthy(customerId) && amount.Some? && amount.value > 0.0 && Truthy(shiftId)
  }

  /** The cash movement type of a customer payment. */
  const Abono := "abono"

  /** The movement's description: the one given, or one naming the customer. */
  function AbonoDescription(description: Option<string>, customerName: string): string
  {
    TextOr(description, "Abono cliente " + customerName)
  }

  /** The ledger after the FIFO settlement of `amount` over `charges`: the
      allocated charges lowered and one payment transaction per allocation
      appended. */
  ghost predicate LedgerSettled(txs0: seq<CreditTx>, charges: seq<nat>, txs: seq<CreditTx>, amount: real,
                                customerId: Id, movementId: Id, shiftId: Id, freshId: nat -> Id,
                                payments: seq<CreditTx>)
    requires forall k :: 0 <= k < |charges| ==> charges[k] < |txs0|
  {
    var allocs := Allocate(Remainings(txs0, charges), amount);
    && |allocs| <= |charges|
    && payments == PaymentTxs(txs0, charges, allocs, customerId, movementId, shiftId, freshId)
    && txs == Settle(txs0, charges, allocs) + payments
  }

  /** The `abono` cash movement of a payment. */
  function AbonoMovement(id: Id, amount: real, description: Option<string>, customerName: string,
                         shiftId: Id, now: int): (r: Movement)
    ensures r.id == id && r.kind == Abono && r.amount == amount && r.shiftId == Some(shiftId)
  {
    Movement(id, Abono, amount, Some(AbonoDescription(description, customerName)), Some(shiftId), false, now)
  }

  /** `hasIo` says whether the request carries a Socket.io server (`req.io`);
      the handlers broadcast only then. */
  method RegisterPayment(db: Db, customerId: Option<Id>, amount: Option<real>, shiftId: Option<Id>,
                         description: Option<string>, freshId: nat -> Id, now: int, hasIo: bool)
    returns (reply: PaymentReply)
    modifies db`creditTxs, db`movements, db`customers, db`events
    ensures !ValidPayment(customerId, amount, shiftId) ==>
              reply == PaymentRejected(400, "Invalid payment data")
              && unchanged(db`creditTxs, db`movements, db`customers, db`events)
    ensures ValidPayment(customerId, amount, shiftId) && customerId.value !in old(db.customers) ==>
              reply == PaymentRejected(500, "Customer not found")
              && unchanged(db`creditTxs, db`movements, db`customers, db`events)
    ensures ValidPayment(customerId, amount, shiftId) && customerId.value in old(db.customers) ==>
              var cid := customerId.value;
              var customer := old(db.customers)[cid];
              && reply.PaymentDone?
              && LedgerSettled(old(db.creditTxs), OpenCharges(old(db.creditTxs), cid), db.creditTxs, amount.value,
                               cid, freshId(0), shiftId.value, freshId, reply.payments)
              && db.movements == old(db.movements)[freshId(0) := AbonoMovement(freshId(0), amount.value, description,
                                                                              customer.name, shiftId.value, now)]
              && db.customers == old(db.customers)[cid := Debited(customer, amount.value)]
              && reply.customer == db.customers[cid]
              && db.events == old(db.events) + (if hasIo then [CreditPayment(cid, amount.value, reply.payments, Some(reply.customer)),
                                                               CustomerUpdate(Some(reply.customer))] else [])
  {
    if !ValidPayment(customerId, amount, shiftId) {
      return PaymentRejected(400, "Invalid payment data");
    }
    var cid, pay, sid := customerId.value, amount.value, shiftId.value;
    if cid !in db.customers {
      return PaymentRejected(500, "Customer not found");
    }
    reply := ApplyPayment(db, cid, pay, sid, description, freshId, now, hasIo);
  }

  /** The transaction of a valid payment by a known customer: the `abono`
      movement, the FIFO settlement, the lower debt and the two broadcasts. */
  method ApplyPayment(db: Db, cid: Id, pay: real, sid: Id, description: Option<string>, freshId: nat -> Id, now: int,
                      hasIo: bool)
    returns (reply: PaymentReply)
    requires pay > 0.0 && cid in db.customers
    modifies db`creditTxs, db`movements, db`customers, db`events
    ensures var customer := old(db.customers)[cid];
            && reply.PaymentDone?
            && LedgerSettled(old(db.creditTxs), OpenCharges(old(db.creditTxs), cid), db.creditTxs, pay,
                             cid, freshId(0), sid, freshId, reply.payments)
            && db.movements == old(db.movements)[freshId(0) := AbonoMovement(freshId(0), pay, description,
                                                                            customer.name, sid, now)]
            && db.customers == old(db.customers)[cid := Debited(customer, pay)]
            && reply.customer == db.customers[cid]
            && db.events == old(db.events) + (if hasIo then [CreditPayment(cid, pay, reply.payments, Some(reply.customer)),
                                                             CustomerUpdate(Some(reply.customer))] else [])
  {
    var customer := db.customers[cid];
    var charges := OpenCharges(db.creditTxs, cid);
    assert OpenPositions(db.creditTxs, charges);
    var movementId := freshId(0);
    RecordAbono(db, AbonoMovement(movementId, pay, description, customer.name, sid, now));
    var payments := SettleCharges(db, charges, pay, cid, movementId, sid, freshId);
    var updated := LowerDebt(db, cid, pay);
    if hasIo {
      db.events := db.events + [CreditPayment(cid, pay, payments, Some(updated)), CustomerUpdate(Some(updated))];
    }
    reply := PaymentDone(updated, payments);
  }

  /** The customer with `current_debt` lowered by `amount` (raised, for a negative one). */
  function Debited(c: Customer, amount: real): (r: Customer)
    ensures r.currentDebt == c.currentDebt - amount
    ensures r.(currentDebt := c.currentDebt) == c
  {
    c.(currentDebt := c.currentDebt - amount)
  }

  /** `INSERT INTO movements …`. */
  method RecordAbono(db: Db, m: Movement)
    modifies db`movements
    ensures db.movements == old(db.movements)[m.id := m]
  {
    db.movements := db.movements[m.id := m];
  }

  /** `UPDATE customers SET current_debt = current_debt - ? WHERE id = ?`. */
  method LowerDebt(db: Db, cid: Id, amount: real) returns (updated: Customer)
    requires cid in db.customers
    modifies db`customers
    ensures updated == Debited(old(db.customers)[cid], amount)
    ensures db.customers == old(db.customers)[cid := updated]
  {
    updated := Debited(db.customers[cid], amount);
    db.customers := db.customers[cid := updated];
  }

  /** The FIFO loop: each open charge in turn takes what is left of the
      payment, at most what it owes, and is linked to a payment transaction,
      until the payment is used up. */
  method SettleCharges(db: Db, charges: seq<nat>, pay: real, customerId: Id, movementId: Id, shiftId: Id,
                       freshId: nat -> Id) returns (payments: seq<CreditTx>)
    requires pay > 0.0 && OpenPositions(db.creditTxs, charges)
    modifies db`creditTxs
    ensures LedgerSettled(old(db.creditTxs), charges, db.creditTxs, pay, customerId, movementId, shiftId, freshId, payments)
  {
    var txs0 := db.creditTxs;
    ghost var rems := Remainings(txs0, charges);
    assert AllPositive(rems);
    var remainingPayment := pay;
    payments := [];
    var i := 0;
    while i < |charges| && remainingPayment > 0.0
      invariant 0 <= i <= |charges|
      invariant |Allocate(rems[..i], pay)| == i
      invariant remainingPayment == Unpaid(Allocate(rems[..i], pay), pay)
      invariant payments == PaymentTxs(txs0, charges, Allocate(rems[..i], pay), customerId, movementId, shiftId, freshId)
      invariant db.creditTxs == Settle(txs0, charges, Allocate(rems[..i], pay)) + payments
    {
      var charge := txs0[charges[i]];
      var paymentAmount := Min(remainingPayment, charge.remaining);
      var row := db.creditTxs[charges[i]];
      var paymentTx := PaymentTx(charge, i, paymentAmount, customerId, movementId, shiftId, freshId);
      SettleStep(txs0, charges, i, pay, db.creditTxs, payments, customerId, movementId, shiftId, freshId);
      db.creditTxs := db.creditTxs[charges[i] := Lowered(row, paymentAmount)];
      db.creditTxs := db.creditTxs + [paymentTx];
      payments := payments + [paymentTx];
      remainingPayment := remainingPayment - paymentAmount;
      i := i + 1;
    }
    if i < |charges| {
      AllocateStops(rems, i, pay);
    } else {
      assert rems[..i] == rems;
    }
    AllocateShape(rems, pay);
  }

  /** One round of the loop keeps the ledger, the payments and the unpaid
      amount in step with the allocation of one more charge. */
  lemma SettleStep(txs0: seq<CreditTx>, charges: seq<nat>, i: nat, pay: real, ledger: seq<CreditTx>,
                   payments: seq<CreditTx>, customerId: Id, movementId: Id, shiftId: Id, freshId: nat -> Id)
    requires i < |charges|
    requires forall k :: 0 <= k < |charges| ==> charges[k] < |txs0|
    requires var before := Allocate(Remainings(txs0, charges)[..i], pay);
      && |before| == i && Unpaid(before, pay) > 0.0
      && payments == PaymentTxs(txs0, charges, before, customerId, movementId, shiftId, freshId)
      && ledger == Settle(txs0, charges, before) + payments
    ensures var rems := Remainings(txs0, charges);
      var before := Allocate(rems[..i], pay);
      var charge := txs0[charges[i]];
      var x := Min(Unpaid(before, pay), charge.remaining);
      var tx := PaymentTx(charge, i, x, customerId, movementId, shiftId, freshId);
      var after := Allocate(rems[..i + 1], pay);
      && |after| == i + 1
      && Unpaid(after, pay) == Unpaid(before, pay) - x
      && payments + [tx] == PaymentTxs(txs0, charges, after, customerId, movementId, shiftId, freshId)
      && ledger[charges[i] := Lowered(ledger[charges[i]], x)] + [tx] == Settle(txs0, charges, after) + (payments + [tx])
  {
    var rems := Remainings(txs0, charges);
    var before := Allocate(rems[..i], pay);
    var charge := txs0[charges[i]];
    var x := Min(Unpaid(before, pay), charge.remaining);
    assert rems[i] == charge.remaining;
    AllocateNext(rems, i, pay);
    var after := before + [x];
    assert Allocate(rems[..i + 1], pay) == after;
    SumSnoc(before, x);
    var settled := Settle(txs0, charges, before);
    UpdateBeforeAppend(settled, payments, charges[i], Lowered(settled[charges[i]], x));
    SettleSnoc(txs0, charges, before, x);
    PaymentTxsSnoc(txs0, charges, before, x, customerId, movementId, shiftId, freshId);
  }

  lemma UpdateBeforeAppend<T>(s: seq<T>, p: seq<T>, j: nat, v: T)
    requires j < |s|
    ensures (s + p)[j] == s[j]
    ensures (s + p)[j := v] == s[j := v] + p
  {
  }

  lemma SettleSnoc(txs: seq<CreditTx>, charges: seq<nat>, allocs: seq<real>, x: real)
    requires |allocs| < |charges|
    requires forall k :: 0 <= k < |charges| ==> charges[k] < |txs|
    ensures var t := Settle(txs, charges, allocs); var c := charges[|allocs|];
            Settle(txs, charges, allocs + [x]) == t[c := Lowered(t[c], x)]
  {
    assert (allocs + [x])[..|allocs|] == allocs;
  }

  lemma PaymentTxsSnoc(txs: seq<CreditTx>, charges: seq<nat>, allocs: seq<real>, x: real, customerId: Id,
                       movementId: Id, shiftId: Id, freshId: nat -> Id)
    requires |allocs| < |charges|
    requires forall k :: 0 <= k < |charges| ==> charges[k] < |txs|
    ensures PaymentTxs(txs, charges, allocs + [x], customerId, movementId, shiftId, freshId)
            == PaymentTxs(txs, charges, allocs, customerId, movementId, shiftId, freshId)
               + [PaymentTx(txs[charges[|allocs|]], |allocs|, x, customerId, movementId, shiftId, freshId)]
  {
    assert (allocs + [x])[..|allocs|] == allocs;
  }

  /** The payments of a settlement add up to the smaller of the amount paid
      and everything the open charges owe. */
  lemma PaymentTotal(txs0: seq<CreditTx>, txs: seq<CreditTx>, customerId: Id, amount: real,
                     movementId: Id, shiftId: Id, freshId: nat -> Id, payments: seq<CreditTx>)
    requires amount > 0.0
    requires LedgerSettled(txs0, OpenCharges(txs0, customerId), txs, amount, customerId, movementId, shiftId, freshId, payments)
    ensures var charges := OpenCharges(txs0, customerId);
      && |payments| <= |charges| && |txs| == |txs0| + |payments|
      && Sum(Amounts(payments)) == Min(amount, Sum(Remainings(txs0, charges)))
  {
    var charges := OpenCharges(txs0, customerId);
    var rems := Remainings(txs0, charges);
    AllocateTotal(rems, amount);
    AmountsOfPayments(txs0, charges, Allocate(rems, amount), customerId, movementId, shiftId, freshId);
  }

  /** Payment k is a positive amount linked to the k-th open charge. */
  lemma PaymentsLinked(txs0: seq<CreditTx>, txs: seq<CreditTx>, customerId: Id, amount: real,
                       movementId: Id, shiftId: Id, freshId: nat -> Id, payments: seq<CreditTx>)
    requires amount > 0.0
    requires LedgerSettled(txs0, OpenCharges(txs0, customerId), txs, amount, customerId, movementId, shiftId, freshId, payments)
    ensures var charges := OpenCharges(txs0, customerId);
      && |payments| <= |charges|
      && forall k :: 0 <= k < |payments| ==>
           payments[k].relatedChargeId == Some(txs0[charges[k]].id) && payments[k].amount > 0.0
  {
    var charges := OpenCharges(txs0, customerId);
    var rems := Remainings(txs0, charges);
    AllocateShape(rems, amount);
    PaymentTxsLinked(txs0, charges, Allocate(rems, amount), customerId, movementId, shiftId, freshId);
  }

  /** Every charge a settlement reaches but the last is paid off, and none
      goes below zero. */
  lemma ChargesPaidOldestFirst(txs0: seq<CreditTx>, txs: seq<CreditTx>, customerId: Id, amount: real,
                               movementId: Id, shiftId: Id, freshId: nat -> Id, payments: seq<CreditTx>)
    requires amount > 0.0
    requires LedgerSettled(txs0, OpenCharges(txs0, customerId), txs, amount, customerId, movementId, shiftId, freshId, payments)
    ensures var charges := OpenCharges(txs0, customerId);
      && |payments| <= |charges|
      && (forall k :: 0 <= k < |payments| ==> txs[charges[k]].remaining >= 0.0)
      && (forall k :: 0 <= k < |payments| - 1 ==> txs[charges[k]].remaining == 0.0)
  {
    var charges := OpenCharges(txs0, customerId);
    var rems := Remainings(txs0, charges);
    var allocs := Allocate(rems, amount);
    AllocateShape(rems, amount);
    OpenChargesSpec(txs0, customerId);
    var settled := Settle(txs0, charges, allocs);
    forall k | 0 <= k < |payments| ensures txs[charges[k]].remaining == rems[k] - allocs[k] {
      SettleEffect(txs0, charges, allocs, charges[k]);
      assert txs[charges[k]] == settled[charges[k]];
    }
  }

  /** A settlement leaves every row it does not reach as it was. */
  lemma SettlementFrame(txs0: seq<CreditTx>, txs: seq<CreditTx>, customerId: Id, amount: real,
                        movementId: Id, shiftId: Id, freshId: nat -> Id, payments: seq<CreditTx>)
    requires LedgerSettled(txs0, OpenCharges(txs0, customerId), txs, amount, customerId, movementId, shiftId, freshId, payments)
    ensures var charges := OpenCharges(txs0, customerId);
      && |payments| <= |charges| && |txs0| <= |txs|
      && forall j :: 0 <= j < |txs0| && j !in charges[..|payments|] ==> txs[j] == txs0[j]
  {
    var charges := OpenCharges(txs0, customerId);
    var allocs := Allocate(Remainings(txs0, charges), amount);
    OpenChargesSpec(txs0, customerId);
    forall j | 0 <= j < |txs0| && j !in charges[..|payments|] ensures txs[j] == txs0[j] {
      SettleEffect(txs0, charges, allocs, j);
      forall k | 0 <= k < |allocs| ensures charges[k] != j {
        assert charges[k] == charges[..|payments|][k];
      }
    }
  }

  // ===== createOpeningBalance =====

  datatype BalanceReply =
    | BalanceRejected(status: int, error: string)
    | BalanceDone(customer: Option<Customer>)

  method CreateOpeningBalance(db: Db, customerId: Option<Id>, amount: Option<real>, description: Option<string>,
                              createdById: Option<Id>, createdByName: Option<string>, freshId: nat -> Id, hasIo: bool)
    returns (reply: BalanceReply)
    modifies db`creditTxs, db`customers, db`events
    ensures !(Truthy(customerId) && amount.Some? && amount.value > 0.0) ==>
              reply == BalanceRejected(400, "Invalid opening balance data")
              && unchanged(db`creditTxs, db`customers, db`events)
    ensures Truthy(customerId) && amount.Some? && amount.value > 0.0 ==>
              var cid := customerId.value;
              && db.creditTxs == old(db.creditTxs) + [CreditTx(freshId(0), cid, OpeningBalance, amount.value, amount.value,
                                                           None, None, None, TextOr(description, "Saldo Inicial"),
                                                           createdById, createdByName)]
              && db.customers == (if cid in old(db.customers)
                                  then old(db.customers)[cid := Debited(old(db.customers)[cid], -amount.value)]
                                  else old(db.customers))
              && reply == BalanceDone(if cid in db.customers then Some(db.customers[cid]) else None)
              && db.events == old(db.events) + (if hasIo then [CustomerUpdate(reply.customer)] else [])
  {
    if !(Truthy(customerId) && amount.Some? && amount.value > 0.0) {
      return BalanceRejected(400, "Invalid opening balance data");
    }
    var cid, value := customerId.value, amount.value;
    db.creditTxs := db.creditTxs + [CreditTx(freshId(0), cid, OpeningBalance, value, value, None, None, None,
                                             TextOr(description, "Saldo Inicial"), createdById, createdByName)];
    if cid in db.customers {
      db.customers := db.customers[cid := Debited(db.customers[cid], -value)];
    }
    var updated := if cid in db.customers then Some(db.customers[cid]) else None;
    if hasIo {
      db.events := db.events + [CustomerUpdate(updated)];
    }
    reply := BalanceDone(updated);
  }

  /** A new opening balance is the newest open charge of its customer: a later
      payment reaches it only after every older charge. */
  lemma OpeningBalanceIsLast(txs: seq<CreditTx>, t: CreditTx)
    requires IsOpenCharge(t, t.customerId)
    ensures var r := OpenCharges(txs + [t], t.customerId);
            |r| > 0 && r[|r| - 1] == |txs| && r[..|r| - 1] == OpenCharges(txs, t.customerId)
  {
    assert (txs + [t])[..|txs|] == txs;
  }

  // ===== updateCustomer =====

  const UpdateCustomerFailed := "Error updating customer"

  /** The body fields of an update. `None` is a field the request leaves out
      and `Some(None)` one it sends as `null`; `!== undefined` counts both
      kinds as sent. */
  datatype CustomerPatch = CustomerPatch(
    name: Option<Option<string>>,
    phone: Option<Option<string>>,
    address: Option<Option<string>>,
    identification: Option<Option<string>>,
    email: Option<Option<string>>,
    creditLimit: Option<Option<real>>,
    isActive: Option<Option<bool>>)

  /** One `column = ?` assignment of the UPDATE; `None` binds SQL `NULL`. */
  datatype Assignment =
    | SetName(name: Option<string>)
    | SetPhone(phone: Option<string>)
    | SetAddress(address: Option<string>)
    | SetIdentification(identification: Option<string>)
    | SetEmail(email: Option<string>)
    | SetCreditLimit(creditLimit: Option<real>)
    | SetActive(isActive: Option<bool>)

  /** An assignment of `NULL` to a column every customer row holds: the
      name, the credit limit or the active flag. */
  predicate ClearsRequired(a: Assignment)
  {
    (a.SetName? && a.name.None?) || (a.SetCreditLimit? && a.creditLimit.None?) || (a.SetActive? && a.isActive.None?)
  }

  /** The database refuses an UPDATE of a row that sets one of those
      columns to `NULL`. */
  predicate Refused(updates: seq<Assignment>)
  {
    exists k :: 0 <= k < |updates| && ClearsRequired(updates[k])
  }

  /** The effect of one assignment on the row. A `NULL` for a required
      column leaves it as it is; an UPDATE holding one is `Refused`. */
  function Assign(c: Customer, a: Assignment): Customer
  {
    match a
    case SetName(v) => c.(name := Pick(v, c.name))
    case SetPhone(v) => c.(phone := v)
    case SetAddress(v) => c.(address := v)
    case SetIdentification(v) => c.(identification := v)
    case SetEmail(v) => c.(email := v)
    case SetCreditLimit(v) => c.(creditLimit := Pick(v, c.creditLimit))
    case SetActive(v) => c.(isActive := Pick(v, c.isActive))
  }

  /** The row after `UPDATE … SET <assignments>`. */
  function AssignAll(c: Customer, updates: seq<Assignment>): Customer
  {
    if updates == [] then c else Assign(AssignAll(c, updates[..|updates| - 1]), updates[|updates| - 1])
  }

  predicate NoFields(p: CustomerPatch)
  {
    p.name.None? && p.phone.None? && p.address.None? && p.identification.None?
    && p.email.None? && p.creditLimit.None? && p.isActive.None?
  }

  /** The provided value, or the current one. */
  function Pick<T>(o: Option<T>, current: T): T
  {
    if o.Some? then o.value else current
  }

  /** The body sends `null` for the name, the credit limit or the active flag. */
  predicate SendsRequiredNull(p: CustomerPatch)
  {
    SentNull(p.name) || SentNull(p.creditLimit) || SentNull(p.isActive)
  }

  /** Field-by-field reading of the update: provided fields take the new value,
      the others keep theirs. */
  function Patched(c: Customer, p: CustomerPatch): (r: Customer)
    ensures r.id == c.id && r.currentDebt == c.currentDebt
    ensures NoFields(p) ==> r == c
  {
    Customer(c.id, Pick(SentValue(p.name), c.name), Pick(p.phone, c.phone), Pick(p.address, c.address),
             Pick(p.identification, c.identification), Pick(p.email, c.email),
             Pick(SentValue(p.creditLimit), c.creditLimit), c.currentDebt, Pick(SentValue(p.isActive), c.isActive))
  }

  /** The update never touches the id or the debt, and applying it twice is
      applying it once. */
  lemma PatchedProperties(c: Customer, p: CustomerPatch)
    ensures Patched(c, p).id == c.id && Patched(c, p).currentDebt == c.currentDebt
    ensures Patched(Patched(c, p), p) == Patched(c, p)
    ensures NoFields(p) ==> Patched(c, p) == c
  {
  }

  datatype CustomerReply =
    | CustomerRejected(status: int, error: string)
    | CustomerUpdated(customer: Option<Customer>)

  /** `if (field !== undefined) { updates.push(…) }`. */
  function Push(updates: seq<Assignment>, a: Option<Assignment>): (r: seq<Assignment>)
    ensures |r| == |updates| + (if a.Some? then 1 else 0)
  {
    if a.Some? then updates + [a.value] else updates
  }

  /** The assignment for the k-th body field, in the handler's order. */
  function FieldAssignment(p: CustomerPatch, k: nat): Option<Assignment>
    requires k < 7
  {
    match k
    case 0 => if p.name.Some? then Some(SetName(p.name.value)) else None
    case 1 => if p.phone.Some? then Some(SetPhone(p.phone.value)) else None
    case 2 => if p.address.Some? then Some(SetAddress(p.address.value)) else None
    case 3 => if p.identification.Some? then Some(SetIdentification(p.identification.value)) else None
    case 4 => if p.email.Some? then Some(SetEmail(p.email.value)) else None
    case 5 => if p.creditLimit.Some? then Some(SetCreditLimit(p.creditLimit.value)) else None
    case 6 => if p.isActive.Some? then Some(SetActive(p.isActive.value)) else None
  }

  /** The assignments pushed for the first k body fields. */
  function Pushed(p: CustomerPatch, k: nat): seq<Assignment>
    requires k <= 7
  {
    if k == 0 then [] else Push(Pushed(p, k - 1), FieldAssignment(p, k - 1))
  }

  function PatchAssignments(p: CustomerPatch): seq<Assignment>
  {
    Pushed(p, 7)
  }

  /** The patch restricted to its first k fields. */
  function Upto(p: CustomerPatch, k: nat): CustomerPatch
  {
    CustomerPatch(if k > 0 then p.name else None, if k > 1 then p.phone else None,
                  if k > 2 then p.address else None, if k > 3 then p.identification else None,
                  if k > 4 then p.email else None, if k > 5 then p.creditLimit else None,
                  if k > 6 then p.isActive else None)
  }

  lemma AssignPush(c: Customer, updates: seq<Assignment>, a: Option<Assignment>)
    ensures AssignAll(c, Push(updates, a)) == if a.Some? then Assign(AssignAll(c, updates), a.value) else AssignAll(c, updates)
  {
    if a.Some? {
      assert (updates + [a.value])[..|updates|] == updates;
    }
  }

  lemma RefusedPush(updates: seq<Assignment>, a: Option<Assignment>)
    ensures Refused(Push(updates, a)) <==> Refused(updates) || (a.Some? && ClearsRequired(a.value))
  {
    if a.Some? {
      var r := updates + [a.value];
      if ClearsRequired(a.value) {
        assert r[|updates|] == a.value;
      }
      if Refused(updates) {
        var k :| 0 <= k < |updates| && ClearsRequired(updates[k]);
        assert r[k] == updates[k];
      }
    }
  }

  lemma PushedStep(c: Customer, p: CustomerPatch, k: nat)
    requires k < 7
    requires AssignAll(c, Pushed(p, k)) == Patched(c, Upto(p, k))
    ensures AssignAll(c, Pushed(p, k + 1)) == Patched(c, Upto(p, k + 1))
  {
    AssignPush(c, Pushed(p, k), FieldAssignment(p, k));
  }

  lemma PushedRefusedStep(p: CustomerPatch, k: nat)
    requires k < 7
    requires Refused(Pushed(p, k)) <==> SendsRequiredNull(Upto(p, k))
    ensures Refused(Pushed(p, k + 1)) <==> SendsRequiredNull(Upto(p, k + 1))
  {
    RefusedPush(Pushed(p, k), FieldAssignment(p, k));
  }

  /** Running the pushed assignments is the field-by-field update; the list
      is empty exactly when the request names no field, a `null` counting as
      named, and the database refuses it exactly when the body sends `null`
      for the name, the credit limit or the active flag. */
  lemma {:induction false} AssignmentsPatch(c: Customer, p: CustomerPatch)
    ensures AssignAll(c, PatchAssignments(p)) == Patched(c, p)
    ensures |PatchAssignments(p)| == 0 <==> NoFields(p)
    ensures Refused(PatchAssignments(p)) <==> SendsRequiredNull(p)
  {
    assert Upto(p, 0) == CustomerPatch(None, None, None, None, None, None, None);
    var k := 0;
    while k < 7
      invariant k <= 7
      invariant AssignAll(c, Pushed(p, k)) == Patched(c, Upto(p, k))
      invariant |Pushed(p, k)| == 0 <==> NoFields(Upto(p, k))
      invariant Refused(Pushed(p, k)) <==> SendsRequiredNull(Upto(p, k))
    {
      PushedStep(c, p, k);
      PushedRefusedStep(p, k);
      k := k + 1;
    }
    assert Upto(p, 7) == p;
  }

  method UpdateCustomer(db: Db, id: Id, patch: CustomerPatch, hasIo: bool) returns (reply: CustomerReply)
    modifies db`customers, db`events
    ensures NoFields(patch) ==> reply == CustomerRejected(400, "No fields to update")
                                && unchanged(db`customers, db`events)
    ensures !NoFields(patch) && id in old(db.customers) && SendsRequiredNull(patch) ==>
              reply == CustomerRejected(500, UpdateCustomerFailed) && unchanged(db`customers, db`events)
    ensures !NoFields(patch) && !(id in old(db.customers) && SendsRequiredNull(patch)) ==>
              && db.customers == (if id in old(db.customers) then old(db.customers)[id := Patched(old(db.customers)[id], patch)]
                                  else old(db.customers))
              && reply == CustomerUpdated(if id in db.customers then Some(db.customers[id]) else None)
              && db.events == old(db.events) + (if hasIo then [CustomerUpdate(reply.customer)] else [])
  {
    var updates := PatchAssignments(patch);
    if |updates| == 0 {
      AssignmentsPatch(Customer(id, "", None, None, None, None, 0.0, 0.0, false), patch);
      return CustomerRejected(400, "No fields to update");
    }
    if id in db.customers {
      var row := db.customers[id];
      AssignmentsPatch(row, patch);
      if Refused(updates) {
        // MySQL in strict mode: "Column cannot be null", caught by the handler.
        return CustomerRejected(500, UpdateCustomerFailed);
      }
      db.customers := db.customers[id := AssignAll(row, updates)];
    } else {
      AssignmentsPatch(Customer(id, "", None, None, None, None, 0.0, 0.0, false), patch);
    }
    var updated := if id in db.customers then Some(db.customers[id]) else None;
    if hasIo {
      db.events := db.events + [CustomerUpdate(updated)];
    }
    reply := CustomerUpdated(updated);
  }
}
