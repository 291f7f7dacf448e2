/**
  Order payments: references, the attempt ledger, settlement and its callers.
  Webhooks, buyer verification and admin reconciliation are built from the
  primitive steps of `Op`, so a run of steps is any interleaving of handlers.
 */
module Payments {
  import opened Basics
  import opened Text
  import Money

  type OrderId = string
  type Reference = string
  type Product = int
  type Time = nat

  datatype Status = Pending | Paid | Shipped | Delivered | Completed | Cancelled

  datatype Order = Order(
    status: Status, amount: real, platformFee: real, currency: string, sellerManaged: bool,
    items: seq<(Product, nat)>, txRef: Reference, transaction: string, paidAt: Option<Time>)

  datatype PaymentStatus = AwaitingCheckout | Processing | Succeeded | Failed
  datatype Payment = Payment(order: OrderId, transaction: Option<string>, status: PaymentStatus, paidAt: Option<Time>)

  datatype LedgerRow = LedgerRow(order: OrderId, eventKey: string, currency: string, gross: real, fee: real, net: real)

  datatype ReceiptKey = ByParts(text: string) | ByPayload(payload: string)
  datatype Receipt = ReceiptProcessing | ReceiptProcessed | ReceiptIgnored | ReceiptFailed

  datatype Db = Db(
    orders: map<OrderId, Order>,
    payments: map<Reference, Payment>,      // (provider, idempotency_key) is UNIQUE
    sold: map<Product, int>,
    ledger: seq<LedgerRow>,                 // event_key is UNIQUE
    receipts: map<ReceiptKey, Receipt>)

  // ----- references -----

  const PREFIX := "ACROSS-"

  function NewPaymentReference(order: string, suffix: string): Reference { PREFIX + order + "-" + suffix }

  function ParseOrderId(txRef: Reference): Option<string> {
    if !(PREFIX <= txRef) then None
    else
      var rest := txRef[|PREFIX|..];
      if |rest| < 37 || rest[36] != '-' then None
      else if !IsUuid(rest[..36]) then None
      else Some(rest[..36])
  }

  /** Parsing undoes building exactly for order ids that are UUIDs. */
  lemma ParseUndoesNew(order: string, suffix: string)
    ensures ParseOrderId(NewPaymentReference(order, suffix)) == Some(order) <==> IsUuid(order)
  {
    var txRef := NewPaymentReference(order, suffix);
    assert txRef == PREFIX + (order + "-" + suffix);
    assert txRef[|PREFIX|..] == order + "-" + suffix;
    if |order| == 36 { assert (order + "-" + suffix)[..36] == order; }
  }

  /** A reference parses to an order id exactly when it was built from that id. */
  lemma ParsedMeansBuilt(txRef: Reference, order: string)
    ensures ParseOrderId(txRef) == Some(order)
       <==> IsUuid(order) && exists suffix :: txRef == NewPaymentReference(order, suffix)
  {
    if ParseOrderId(txRef) == Some(order) {
      var rest := txRef[|PREFIX|..];
      assert rest == rest[..36] + "-" + rest[37..];
      assert txRef == PREFIX + rest;
      assert txRef == NewPaymentReference(order, rest[37..]);
    }
    if IsUuid(order) && exists suffix :: txRef == NewPaymentReference(order, suffix) {
      var suffix :| txRef == NewPaymentReference(order, suffix);
      ParseUndoesNew(order, suffix);
    }
  }

  // ----- the attempt ledger -----

  /** The unique index on non-empty provider transaction ids, as the update would leave it. */
  predicate TransactionFree(payments: map<Reference, Payment>, txRef: Reference, transaction: string) {
    transaction != "" ==> forall r <- payments | r != txRef :: payments[r].transaction != Some(transaction)
  }

  /** settlePaymentLedger: None when no row matches or an index refuses the update. */
  function SettleAttempt(payments: map<Reference, Payment>, txRef: Reference, transaction: string, now: Time)
    : Option<map<Reference, Payment>>
  {
    if txRef !in payments then None
    else
      var p := payments[txRef];
      if p.transaction.Some? && p.transaction.value != transaction then None
      else if p.transaction.None? && !TransactionFree(payments, txRef, transaction) then None
      else
        Some(payments[txRef := p.(
          transaction := if p.transaction.None? && transaction != "" then Some(transaction) else p.transaction,
          status := Succeeded,
          paidAt := if p.paidAt.Some? then p.paidAt else Some(now))])
  }

  // ----- settlement -----

  function QuantityOf(items: seq<(Product, nat)>, p: Product): nat {
    if items == [] then 0
    else (if items[0].0 == p then items[0].1 else 0) + QuantityOf(items[1..], p)
  }

  function AddSold(sold: map<Product, int>, items: seq<(Product, nat)>): map<Product, int> {
    map p <- sold :: sold[p] + QuantityOf(items, p)
  }

  function LedgerKey(order: string): string { "order-paid:" + order }

  predicate KeyUsed(ledger: seq<LedgerRow>, key: string) { exists i | 0 <= i < |ledger| :: ledger[i].eventKey == key }

  /** INSERT ... ON CONFLICT(event_key) DO NOTHING. */
  function Credit(ledger: seq<LedgerRow>, row: LedgerRow): seq<LedgerRow> {
    if KeyUsed(ledger, row.eventKey) then ledger else ledger + [row]
  }

  /** The money side of a gateway answer: it covers the order, in its currency. */
  predicate Covers(row: Order, paid: real, currency: string) {
    EqualFold(row.currency, TrimSpace(currency)) && paid + 0.001 >= row.amount
  }

  predicate WasPaid(s: Status) { s in {Paid, Shipped, Delivered, Completed} }

  /** The rows written when a pending order is settled; `text` is its id as the reference spells it. */
  function FirstSettlement(db: Db, text: string, txRef: Reference, transaction: string, now: Time,
                           payments: map<Reference, Payment>): Db
    requires Lower(text) in db.orders
  {
    var o := Lower(text);
    var row := db.orders[o];
    db.(payments := payments,
        orders := db.orders[o := row.(status := Paid, txRef := txRef, transaction := transaction,
                                      paidAt := if row.paidAt.Some? then row.paidAt else Some(now))],
        sold := AddSold(db.sold, row.items),
        ledger := Credit(db.ledger, LedgerRow(o, LedgerKey(text), row.currency, row.amount, row.platformFee,
                                              Money.SellerNet(row.amount, row.platformFee))))
  }

  /** A gateway answer that names a reference, a transaction, an amount and a currency. */
  datatype Charge = Charge(txRef: Reference, transaction: string, paid: real, currency: string)

  /** settleOrderPayment for the order id `text`; `fault` is any statement failing, which rolls back. */
  function Settle(db: Db, text: string, c: Charge, now: Time, fault: bool): (Db, bool) {
    var o := Lower(text);
    if o !in db.orders then (db, false)
    else
      var row := db.orders[o];
      var attempt := SettleAttempt(db.payments, c.txRef, c.transaction, now);
      if !Covers(row, c.paid, c.currency) then (db, false)
      else if row.status != Pending then
        if row.txRef == c.txRef && WasPaid(row.status) && attempt.Some? && !fault
        then (db.(payments := attempt.value), true) else (db, false)
      else if attempt.None? || !row.sellerManaged || fault then (db, false)
      else (FirstSettlement(db, text, c.txRef, c.transaction, now, attempt.value), true)
  }

  // ----- primitive steps -----

  datatype Op =
    | Place(id: OrderId, order: Order)
    | Attempt(text: string, suffix: string)
    | Bind(text: string, suffix: string)
    | MarkReady(txRef: Reference)
    | MarkFailed(txRef: Reference)
    | SettleStep(charge: Charge, now: Time, fault: bool)
    | Receive(key: ReceiptKey)
    | Finish(key: ReceiptKey, receipt: Receipt)
    | Move(id: OrderId, to: Status)

  function Mark(db: Db, txRef: Reference, status: PaymentStatus): Db {
    if txRef in db.payments then db.(payments := db.payments[txRef := db.payments[txRef].(status := status)]) else db
  }

  function Apply(db: Db, op: Op): Db {
    match op
    case Place(id, order) =>
      if id in db.orders || Lower(id) != id then db
      else db.(orders := db.orders[id := order.(status := Pending, txRef := "", transaction := "", paidAt := None)])
    case Attempt(text, suffix) =>
      var txRef := NewPaymentReference(text, suffix);
      if !IsUuid(text) || Lower(text) !in db.orders || db.orders[Lower(text)].status != Pending || txRef in db.payments
      then db
      else db.(payments := db.payments[txRef := Payment(Lower(text), None, AwaitingCheckout, None)])
    case Bind(text, suffix) =>
      if Lower(text) !in db.orders || db.orders[Lower(text)].status != Pending then db
      else db.(orders := db.orders[Lower(text) := db.orders[Lower(text)].(txRef := NewPaymentReference(text, suffix))])
    case MarkReady(txRef) => Mark(db, txRef, Processing)
    case MarkFailed(txRef) => Mark(db, txRef, Failed)
    case SettleStep(charge, now, fault) =>
      var text := ParseOrderId(charge.txRef);
      if text.None? then db else Settle(db, text.value, charge, now, fault).0
    case Receive(key) =>
      db.(receipts := db.receipts[key :=
        if key in db.receipts && db.receipts[key] != ReceiptFailed then db.receipts[key] else ReceiptProcessing])
    case Finish(key, receipt) =>
      if key in db.receipts then db.(receipts := db.receipts[key := receipt]) else db
    case Move(id, to) =>
      if id !in db.orders || to == Pending || (WasPaid(to) && !WasPaid(db.orders[id].status)) then db
      else db.(orders := db.orders[id := db.orders[id].(status := to)])
  }

  function Run(db: Db, ops: seq<Op>): Db
    decreases |ops|
  {
    if ops == [] then db else Run(Apply(db, ops[0]), ops[1..])
  }

  /** A shop before its first order; `base` holds the sold counts so far. */
  function Start(base: map<Product, int>): Db { Db(map[], map[], base, [], map[]) }

  // ----- the invariant -----

  ghost predicate AttemptsOk(db: Db) {
    && (forall r <- db.payments :: ParseOrderId(r).Some? && Lower(ParseOrderId(r).value) == db.payments[r].order)
    && (forall r, s | r in db.payments && s in db.payments && r != s && db.payments[r].transaction.Some? ::
          db.payments[r].transaction != db.payments[s].transaction)
    && (forall r <- db.payments | db.payments[r].transaction.Some? :: db.payments[r].transaction.value != "")
  }

  /** Paid orders are backed by a paid attempt of their own. */
  ghost predicate OrderOk(row: Order, o: OrderId, payments: map<Reference, Payment>) {
    && (row.status == Pending ==> row.paidAt.None?)
    && (WasPaid(row.status) ==> row.paidAt.Some?)
    && (row.paidAt.Some? ==> (
          && row.txRef in payments && payments[row.txRef].order == o && payments[row.txRef].paidAt.Some?
          && (row.transaction != "" ==> payments[row.txRef].transaction == Some(row.transaction))))
  }

  ghost predicate OrdersOk(db: Db) {
    forall o <- db.orders :: Lower(o) == o && OrderOk(db.orders[o], o, db.payments)
  }

  ghost predicate RowOk(row: LedgerRow, orders: map<OrderId, Order>) {
    && row.order in orders && orders[row.order].paidAt.Some?
    && row.gross == orders[row.order].amount && row.fee == orders[row.order].platformFee
    && row.net == Money.SellerNet(row.gross, row.fee)
    && (exists text :: row.eventKey == LedgerKey(text) && Lower(text) == row.order)
  }

  /** One ledger row for each paid order and none for any other. */
  ghost predicate LedgerOk(db: Db) {
    && (forall i | 0 <= i < |db.ledger| :: RowOk(db.ledger[i], db.orders))
    && (forall i, j | 0 <= i < j < |db.ledger| :: db.ledger[i].order != db.ledger[j].order)
    && (forall o <- db.orders | db.orders[o].paidAt.Some? :: exists i | 0 <= i < |db.ledger| :: db.ledger[i].order == o)
  }

  /** Units of a product in the orders credited so far. */
  ghost function CreditedUnits(ledger: seq<LedgerRow>, orders: map<OrderId, Order>, p: Product): int {
    if ledger == [] then 0
    else
      var last := ledger[|ledger| - 1];
      CreditedUnits(ledger[..|ledger| - 1], orders, p)
      + if last.order in orders then QuantityOf(orders[last.order].items, p) else 0
  }

  ghost predicate SoldOk(db: Db, base: map<Product, int>) {
    && db.sold.Keys == base.Keys
    && forall p <- base :: db.sold[p] == base[p] + CreditedUnits(db.ledger, db.orders, p)
  }

  ghost predicate Inv(db: Db, base: map<Product, int>) {
    AttemptsOk(db) && OrdersOk(db) && LedgerOk(db) && SoldOk(db, base)
  }

  /** What never changes once written. */
  ghost predicate OrderKept(row: Order, later: Order) {
    && later.items == row.items && later.amount == row.amount && later.platformFee == row.platformFee
    && later.currency == row.currency
    && (row.status != Pending ==> (
          && later.status != Pending && later.paidAt == row.paidAt
          && later.txRef == row.txRef && later.transaction == row.transaction))
  }

  ghost predicate PaymentKept(p: Payment, later: Payment) {
    && later.order == p.order
    && (p.transaction.Some? ==> later.transaction == p.transaction)
    && (p.paidAt.Some? ==> later.paidAt == p.paidAt)
  }

  ghost predicate Kept(db: Db, later: Db) {
    && (forall o <- db.orders :: o in later.orders && OrderKept(db.orders[o], later.orders[o]))
    && (forall r <- db.payments :: r in later.payments && PaymentKept(db.payments[r], later.payments[r]))
    && db.ledger <= later.ledger
  }

  // ----- attempts -----

  lemma SettleAttemptKeeps(payments: map<Reference, Payment>, txRef: Reference, transaction: string, now: Time)
    requires SettleAttempt(payments, txRef, transaction, now).Some?
    ensures var next := SettleAttempt(payments, txRef, transaction, now).value;
            && next.Keys == payments.Keys && txRef in payments
            && (forall r <- payments | r != txRef :: next[r] == payments[r])
            && PaymentKept(payments[txRef], next[txRef]) && next[txRef].paidAt.Some?
            && (transaction != "" ==> next[txRef].transaction == Some(transaction))
  {}

  lemma SettleAttemptKeepsOk(db: Db, txRef: Reference, transaction: string, now: Time)
    requires AttemptsOk(db) && SettleAttempt(db.payments, txRef, transaction, now).Some?
    ensures AttemptsOk(db.(payments := SettleAttempt(db.payments, txRef, transaction, now).value))
  {}

  // ----- the ledger -----

  lemma {:induction false} CreditedSame(ledger: seq<LedgerRow>, orders: map<OrderId, Order>, later: map<OrderId, Order>,
                                        p: Product)
    requires forall i | 0 <= i < |ledger| ::
      ledger[i].order in orders && ledger[i].order in later
          && later[ledger[i].order].items == orders[ledger[i].order].items
    ensures CreditedUnits(ledger, later, p) == CreditedUnits(ledger, orders, p)
  {
    if ledger != [] { CreditedSame(ledger[..|ledger| - 1], orders, later, p); }
  }

  /** Rows and sold counts carry over when orders keep their money, items and payment time. */
  lemma LedgerCarriesOver(db: Db, orders: map<OrderId, Order>, base: map<Product, int>)
    requires LedgerOk(db) && SoldOk(db, base)
    requires forall o <- db.orders ::
      o in orders && OrderKept(db.orders[o], orders[o]) && orders[o].paidAt == db.orders[o].paidAt
    requires forall o <- orders | orders[o].paidAt.Some? :: o in db.orders
    ensures LedgerOk(db.(orders := orders)) && SoldOk(db.(orders := orders), base)
  {
    forall i | 0 <= i < |db.ledger| ensures RowOk(db.ledger[i], orders) {
      assert RowOk(db.ledger[i], db.orders);
    }
    forall p <- base ensures CreditedUnits(db.ledger, orders, p) == CreditedUnits(db.ledger, db.orders, p) {
      forall i | 0 <= i < |db.ledger| ensures db.ledger[i].order in db.orders { assert RowOk(db.ledger[i], db.orders); }
      CreditedSame(db.ledger, db.orders, orders, p);
    }
  }

  /** A pending order has no ledger row, so its key is free whatever its spelling. */
  lemma PendingHasNoRow(db: Db, text: string)
    requires OrdersOk(db) && LedgerOk(db) && Lower(text) in db.orders && db.orders[Lower(text)].status == Pending
    ensures forall i | 0 <= i < |db.ledger| :: db.ledger[i].order != Lower(text)
    ensures !KeyUsed(db.ledger, LedgerKey(text))
  {
    var o := Lower(text);
    assert OrderOk(db.orders[o], o, db.payments);
    forall i | 0 <= i < |db.ledger| ensures db.ledger[i].order != o && db.ledger[i].eventKey != LedgerKey(text) {
      assert RowOk(db.ledger[i], db.orders);
      var other :| db.ledger[i].eventKey == LedgerKey(other) && Lower(other) == db.ledger[i].order;
      assert other != text;
      assert LedgerKey(other)[|"order-paid:"|..] == other && LedgerKey(text)[|"order-paid:"|..] == text;
    }
  }

  // ----- the first settlement -----

  lemma FirstSettlementLedger(db: Db, text: string, txRef: Reference, transaction: string, now: Time,
                              payments: map<Reference, Payment>)
    requires OrdersOk(db) && LedgerOk(db) && Lower(text) in db.orders && db.orders[Lower(text)].status == Pending
    ensures var next := FirstSettlement(db, text, txRef, transaction, now, payments);
            LedgerOk(next) && |next.ledger| == |db.ledger| + 1 && db.ledger <= next.ledger
            && next.ledger[|db.ledger|].order == Lower(text)
  {
    var next := FirstSettlement(db, text, txRef, transaction, now, payments);
    var o := Lower(text);
    PendingHasNoRow(db, text);
    assert OrderOk(db.orders[o], o, db.payments);
    forall i | 0 <= i < |next.ledger| ensures RowOk(next.ledger[i], next.orders) {
      if i < |db.ledger| { assert RowOk(db.ledger[i], db.orders); }
    }
    forall p <- next.orders | next.orders[p].paidAt.Some?
      ensures exists i | 0 <= i < |next.ledger| :: next.ledger[i].order == p
    {
      if p == o {
        assert next.ledger[|db.ledger|].order == p;
      } else {
        var i :| 0 <= i < |db.ledger| && db.ledger[i].order == p;
        assert next.ledger[i].order == p;
      }
    }
  }

  lemma FirstSettlementSold(db: Db, base: map<Product, int>, text: string, txRef: Reference, transaction: string,
                            now: Time, payments: map<Reference, Payment>)
    requires OrdersOk(db) && LedgerOk(db) && SoldOk(db, base)
    requires Lower(text) in db.orders && db.orders[Lower(text)].status == Pending
    ensures SoldOk(FirstSettlement(db, text, txRef, transaction, now, payments), base)
  {
    var next := FirstSettlement(db, text, txRef, transaction, now, payments);
    FirstSettlementLedger(db, text, txRef, transaction, now, payments);
    assert next.ledger[..|next.ledger| - 1] == db.ledger;
    forall p <- base ensures next.sold[p] == base[p] + CreditedUnits(next.ledger, next.orders, p) {
      forall i | 0 <= i < |db.ledger| ensures db.ledger[i].order in db.orders { assert RowOk(db.ledger[i], db.orders); }
      CreditedSame(db.ledger, db.orders, next.orders, p);
    }
  }

  lemma FirstSettlementOrders(db: Db, text: string, txRef: Reference, transaction: string, now: Time)
    requires OrdersOk(db) && Lower(text) in db.orders && db.orders[Lower(text)].status == Pending
    requires SettleAttempt(db.payments, txRef, transaction, now).Some?
    requires db.payments[txRef].order == Lower(text)
    ensures var payments := SettleAttempt(db.payments, txRef, transaction, now).value;
            OrdersOk(FirstSettlement(db, text, txRef, transaction, now, payments))
  {}

  lemma FirstSettlementKeeps(db: Db, base: map<Product, int>, text: string, txRef: Reference, transaction: string,
                             now: Time)
    requires Inv(db, base) && ParseOrderId(txRef) == Some(text)
    requires Lower(text) in db.orders && db.orders[Lower(text)].status == Pending
    requires SettleAttempt(db.payments, txRef, transaction, now).Some?
    ensures var payments := SettleAttempt(db.payments, txRef, transaction, now).value;
            var next := FirstSettlement(db, text, txRef, transaction, now, payments);
            Inv(next, base) && Kept(db, next)
  {
    var payments := SettleAttempt(db.payments, txRef, transaction, now).value;
    var next := FirstSettlement(db, text, txRef, transaction, now, payments);
    SettleAttemptKeeps(db.payments, txRef, transaction, now);
    FirstSettlementLedger(db, text, txRef, transaction, now, payments);
    FirstSettlementSold(db, base, text, txRef, transaction, now, payments);
    FirstSettlementOrders(db, text, txRef, transaction, now);
    assert AttemptsOk(next) by {
      SettleAttemptKeepsOk(db, txRef, transaction, now);
      assert next.payments == payments;
    }
  }

  /** A step that only fills in attempts. */
  lemma PaymentsOnlyKeeps(db: Db, base: map<Product, int>, payments: map<Reference, Payment>)
    requires Inv(db, base) && AttemptsOk(db.(payments := payments))
    requires forall r <- db.payments :: r in payments && PaymentKept(db.payments[r], payments[r])
    ensures Inv(db.(payments := payments), base) && Kept(db, db.(payments := payments))
  {}

  /** A step that only touches orders, and not their payment. */
  lemma OrdersOnlyKeeps(db: Db, base: map<Product, int>, orders: map<OrderId, Order>)
    requires Inv(db, base) && OrdersOk(db.(orders := orders))
    requires forall o <- db.orders ::
      o in orders && OrderKept(db.orders[o], orders[o]) && orders[o].paidAt == db.orders[o].paidAt
    requires forall o <- orders | orders[o].paidAt.Some? :: o in db.orders
    ensures Inv(db.(orders := orders), base) && Kept(db, db.(orders := orders))
  {
    LedgerCarriesOver(db, orders, base);
  }

  lemma SettleKeeps(db: Db, base: map<Product, int>, text: string, c: Charge, now: Time, fault: bool)
    requires Inv(db, base) && ParseOrderId(c.txRef) == Some(text)
    ensures Inv(Settle(db, text, c, now, fault).0, base) && Kept(db, Settle(db, text, c, now, fault).0)
  {
    if !Settle(db, text, c, now, fault).1 {
    } else if db.orders[Lower(text)].status == Pending {
      FirstSettlementKeeps(db, base, text, c.txRef, c.transaction, now);
    } else {
      SettleAttemptKeeps(db.payments, c.txRef, c.transaction, now);
      SettleAttemptKeepsOk(db, c.txRef, c.transaction, now);
      PaymentsOnlyKeeps(db, base, SettleAttempt(db.payments, c.txRef, c.transaction, now).value);
    }
  }

  // ----- the other steps -----

  lemma MarkAttemptsOk(db: Db, txRef: Reference, status: PaymentStatus)
    requires AttemptsOk(db)
    ensures AttemptsOk(Mark(db, txRef, status))
  {}

  lemma MarkKeeps(db: Db, base: map<Product, int>, txRef: Reference, status: PaymentStatus)
    requires Inv(db, base)
    ensures Inv(Mark(db, txRef, status), base) && Kept(db, Mark(db, txRef, status))
  {
    var next := Mark(db, txRef, status);
    MarkAttemptsOk(db, txRef, status);
    assert next == db.(payments := next.payments);
    PaymentsOnlyKeeps(db, base, next.payments);
  }

  lemma AttemptKeeps(db: Db, base: map<Product, int>, text: string, suffix: string)
    requires Inv(db, base)
    ensures Inv(Apply(db, Attempt(text, suffix)), base) && Kept(db, Apply(db, Attempt(text, suffix)))
  {
    ParseUndoesNew(text, suffix);
    PaymentsOnlyKeeps(db, base, Apply(db, Attempt(text, suffix)).payments);
  }

  /** Changing or adding one order that stays backed leaves the others backed. */
  lemma OneOrderOk(db: Db, o: OrderId, row: Order)
    requires OrdersOk(db) && Lower(o) == o && OrderOk(row, o, db.payments)
    ensures OrdersOk(db.(orders := db.orders[o := row]))
  {}

  lemma PlaceKeeps(db: Db, base: map<Product, int>, id: OrderId, order: Order)
    requires Inv(db, base)
    ensures Inv(Apply(db, Place(id, order)), base) && Kept(db, Apply(db, Place(id, order)))
  {
    if id !in db.orders && Lower(id) == id {
      var row := order.(status := Pending, txRef := "", transaction := "", paidAt := None);
      OneOrderOk(db, id, row);
      OrdersOnlyKeeps(db, base, db.orders[id := row]);
    } else {
      ReceiptsKeep(db, base, db.receipts);
    }
  }

  lemma BindKeeps(db: Db, base: map<Product, int>, text: string, suffix: string)
    requires Inv(db, base)
    ensures Inv(Apply(db, Bind(text, suffix)), base) && Kept(db, Apply(db, Bind(text, suffix)))
  {
    var o := Lower(text);
    if o in db.orders && db.orders[o].status == Pending {
      assert OrderOk(db.orders[o], o, db.payments);
      var row := db.orders[o].(txRef := NewPaymentReference(text, suffix));
      OneOrderOk(db, o, row);
      OrdersOnlyKeeps(db, base, db.orders[o := row]);
    }
  }

  lemma MoveKeeps(db: Db, base: map<Product, int>, id: OrderId, to: Status)
    requires Inv(db, base)
    ensures Inv(Apply(db, Move(id, to)), base) && Kept(db, Apply(db, Move(id, to)))
  {
    if id in db.orders && to != Pending && (WasPaid(to) ==> WasPaid(db.orders[id].status)) {
      assert OrderOk(db.orders[id], id, db.payments);
      var row := db.orders[id].(status := to);
      OneOrderOk(db, id, row);
      OrdersOnlyKeeps(db, base, db.orders[id := row]);
    }
  }

  lemma ReceiptsKeep(db: Db, base: map<Product, int>, receipts: map<ReceiptKey, Receipt>)
    requires Inv(db, base)
    ensures Inv(db.(receipts := receipts), base) && Kept(db, db.(receipts := receipts))
  {
    LedgerCarriesOver(db, db.orders, base);
  }

  lemma StepKeeps(db: Db, base: map<Product, int>, op: Op)
    requires Inv(db, base)
    ensures Inv(Apply(db, op), base) && Kept(db, Apply(db, op))
  {
    match op
    case Place(id, order) => PlaceKeeps(db, base, id, order);
    case Attempt(text, suffix) => AttemptKeeps(db, base, text, suffix);
    case Bind(text, suffix) => BindKeeps(db, base, text, suffix);
    case MarkReady(txRef) => MarkKeeps(db, base, txRef, Processing);
    case MarkFailed(txRef) => MarkKeeps(db, base, txRef, Failed);
    case SettleStep(charge, now, fault) =>
      var text := ParseOrderId(charge.txRef);
      if text.Some? { SettleKeeps(db, base, text.value, charge, now, fault); }
    case Receive(key) => ReceiptsKeep(db, base, Apply(db, op).receipts);
    case Finish(key, receipt) => ReceiptsKeep(db, base, Apply(db, op).receipts);
    case Move(id, to) => MoveKeeps(db, base, id, to);
  }

  lemma {:induction false} RunKeeps(db: Db, base: map<Product, int>, ops: seq<Op>)
    requires Inv(db, base)
    ensures Inv(Run(db, ops), base) && Kept(db, Run(db, ops))
    decreases |ops|
  {
    if ops != [] {
      var next := Apply(db, ops[0]);
      StepKeeps(db, base, ops[0]);
      RunKeeps(next, base, ops[1..]);
      KeptTwice(db, next, Run(next, ops[1..]));
    }
  }

  lemma KeptTwice(a: Db, b: Db, c: Db)
    requires Kept(a, b) && Kept(b, c)
    ensures Kept(a, c)
  {}

  lemma {:induction false} RunSplits(db: Db, before: seq<Op>, after: seq<Op>)
    ensures Run(db, before + after) == Run(Run(db, before), after)
    decreases |before|
  {
    if before == [] {
      assert before + after == after;
    } else {
      RunSplits(Apply(db, before[0]), before[1..], after);
      assert (before + after)[1..] == before[1..] + after;
    }
  }

  lemma StartIsOk(base: map<Product, int>)
    ensures Inv(Start(base), base)
  {}

  // ----- main results -----

  /**
    After any history: exactly the paid orders have a ledger row, each has one,
    its amounts are the order's, and sold counts grew by those orders' quantities.
   */
  lemma PaidExactlyOnce(base: map<Product, int>, ops: seq<Op>)
    ensures var db := Run(Start(base), ops);
            && (forall o <- db.orders ::
                  db.orders[o].paidAt.Some? <==> exists i | 0 <= i < |db.ledger| :: db.ledger[i].order == o)
            && (forall i, j | 0 <= i < j < |db.ledger| :: db.ledger[i].order != db.ledger[j].order)
            && (forall i | 0 <= i < |db.ledger| :: RowOk(db.ledger[i], db.orders))
            && (forall p <- base :: p in db.sold && db.sold[p] == base[p] + CreditedUnits(db.ledger, db.orders, p))
  {
    StartIsOk(base);
    RunKeeps(Start(base), base, ops);
    var db := Run(Start(base), ops);
    forall i | 0 <= i < |db.ledger| ensures RowOk(db.ledger[i], db.orders) {}
  }

  lemma BothEndsOk(base: map<Product, int>, before: seq<Op>, after: seq<Op>)
    ensures var early, late := Run(Start(base), before), Run(Start(base), before + after);
            Inv(early, base) && Inv(late, base) && Kept(early, late)
  {
    StartIsOk(base);
    RunKeeps(Start(base), base, before);
    RunSplits(Start(base), before, after);
    RunKeeps(Run(Start(base), before), base, after);
  }

  /** An order leaves pending once; its payment time, reference and transaction are then fixed. */
  lemma PaymentIsFinal(base: map<Product, int>, before: seq<Op>, after: seq<Op>, o: OrderId)
    requires o in Run(Start(base), before).orders && Run(Start(base), before).orders[o].status != Pending
    ensures var early, late := Run(Start(base), before), Run(Start(base), before + after);
            && o in late.orders && late.orders[o].status != Pending
            && late.orders[o].paidAt == early.orders[o].paidAt
            && late.orders[o].txRef == early.orders[o].txRef
            && late.orders[o].transaction == early.orders[o].transaction
            && early.ledger <= late.ledger
  {
    BothEndsOk(base, before, after);
    var early, late := Run(Start(base), before), Run(Start(base), before + after);
    assert OrderKept(early.orders[o], late.orders[o]);
  }

  /** A provider transaction id, once recorded on an attempt, and its payment time never change. */
  lemma AttemptIsFinal(base: map<Product, int>, before: seq<Op>, after: seq<Op>, r: Reference)
    requires r in Run(Start(base), before).payments
    ensures var early, late := Run(Start(base), before), Run(Start(base), before + after);
            && r in late.payments && late.payments[r].order == early.payments[r].order
            && (early.payments[r].transaction.Some? ==> late.payments[r].transaction == early.payments[r].transaction)
            && (early.payments[r].paidAt.Some? ==> late.payments[r].paidAt == early.payments[r].paidAt)
  {
    BothEndsOk(base, before, after);
    var early, late := Run(Start(base), before), Run(Start(base), before + after);
    assert PaymentKept(early.payments[r], late.payments[r]);
  }

  lemma PaidIsNotPending(base: map<Product, int>, ops: seq<Op>, o: OrderId)
    requires o in Run(Start(base), ops).orders && Run(Start(base), ops).orders[o].paidAt.Some?
    ensures Run(Start(base), ops).orders[o].status != Pending
  {
    StartIsOk(base);
    RunKeeps(Start(base), base, ops);
    assert OrderOk(Run(Start(base), ops).orders[o], o, Run(Start(base), ops).payments);
  }

  /** However much later, a success under another reference of a paid order changes nothing. */
  lemma OtherReferenceChangesNothing(base: map<Product, int>, before: seq<Op>, after: seq<Op>, o: OrderId,
                                     c: Charge, now: Time, fault: bool)
    requires o in Run(Start(base), before).orders && Run(Start(base), before).orders[o].paidAt.Some?
    requires ParseOrderId(c.txRef).Some? && Lower(ParseOrderId(c.txRef).value) == o
    requires c.txRef != Run(Start(base), before).orders[o].txRef
    ensures var late := Run(Start(base), before + after); Apply(late, SettleStep(c, now, fault)) == late
  {
    PaidIsNotPending(base, before, o);
    PaymentIsFinal(base, before, after, o);
  }

  lemma SettledOrderOnlyFillsAttempts(db: Db, c: Charge, now: Time, fault: bool)
    requires ParseOrderId(c.txRef).Some? && Lower(ParseOrderId(c.txRef).value) in db.orders
    requires db.orders[Lower(ParseOrderId(c.txRef).value)].status != Pending
    ensures var next := Apply(db, SettleStep(c, now, fault));
            && next.orders == db.orders && next.sold == db.sold && next.ledger == db.ledger
            && next.payments.Keys == db.payments.Keys
            && forall r <- db.payments :: PaymentKept(db.payments[r], next.payments[r])
  {}

  /** Delivering any success again for an order no longer pending leaves orders, stock counts and ledger alone. */
  lemma RedeliveryChangesNoOrder(base: map<Product, int>, before: seq<Op>, after: seq<Op>, o: OrderId,
                                 c: Charge, now: Time, fault: bool)
    requires o in Run(Start(base), before).orders && Run(Start(base), before).orders[o].status != Pending
    requires ParseOrderId(c.txRef).Some? && Lower(ParseOrderId(c.txRef).value) == o
    ensures var late := Run(Start(base), before + after);
            var next := Apply(late, SettleStep(c, now, fault));
            && next.orders == late.orders && next.sold == late.sold && next.ledger == late.ledger
            && next.payments.Keys == late.payments.Keys
            && forall r <- late.payments :: PaymentKept(late.payments[r], next.payments[r])
  {
    PaymentIsFinal(base, before, after, o);
    SettledOrderOnlyFillsAttempts(Run(Start(base), before + after), c, now, fault);
  }

  /** No provider transaction pays for two orders. */
  lemma TransactionPaysOneOrder(base: map<Product, int>, ops: seq<Op>, o: OrderId, other: OrderId)
    requires var db := Run(Start(base), ops); o in db.orders && other in db.orders && o != other
    requires var db := Run(Start(base), ops); db.orders[o].paidAt.Some? && db.orders[other].paidAt.Some?
    requires Run(Start(base), ops).orders[o].transaction != ""
    ensures var db := Run(Start(base), ops); db.orders[o].transaction != db.orders[other].transaction
  {
    StartIsOk(base);
    RunKeeps(Start(base), base, ops);
    var db := Run(Start(base), ops);
    assert OrderOk(db.orders[o], o, db.payments) && OrderOk(db.orders[other], other, db.payments);
    assert db.payments[db.orders[o].txRef].order != db.payments[db.orders[other].txRef].order;
  }

  ghost predicate CoveredBy(op: Op, o: OrderId, row: Order) {
    && op.SettleStep? && op.charge.txRef == row.txRef && op.charge.transaction == row.transaction
    && ParseOrderId(op.charge.txRef).Some? && Lower(ParseOrderId(op.charge.txRef).value) == o
    && Covers(row, op.charge.paid, op.charge.currency)
  }

  lemma StepPaysByCover(db: Db, op: Op, o: OrderId)
    requires o in db.orders ==> db.orders[o].paidAt.None?
    requires o in Apply(db, op).orders && Apply(db, op).orders[o].paidAt.Some?
    ensures CoveredBy(op, o, Apply(db, op).orders[o])
  {}

  /** Only a verified charge that covers the order makes it paid. */
  lemma {:induction false} PaidByACoveringCharge(db: Db, base: map<Product, int>, ops: seq<Op>, o: OrderId)
    requires Inv(db, base) && (o in db.orders ==> db.orders[o].paidAt.None?)
    requires o in Run(db, ops).orders && Run(db, ops).orders[o].paidAt.Some?
    ensures exists i | 0 <= i < |ops| :: CoveredBy(ops[i], o, Run(db, ops).orders[o])
    decreases |ops|
  {
    assert ops != [];
    var next := Apply(db, ops[0]);
    StepKeeps(db, base, ops[0]);
    if o in next.orders && next.orders[o].paidAt.Some? {
      StepPaysByCover(db, ops[0], o);
      CoverLasts(next, base, ops[1..], o, ops[0]);
    } else {
      PaidByACoveringCharge(next, base, ops[1..], o);
      var i :| 0 <= i < |ops[1..]| && CoveredBy(ops[1..][i], o, Run(next, ops[1..]).orders[o]);
      assert ops[i + 1] == ops[1..][i];
    }
  }

  lemma CoverLasts(db: Db, base: map<Product, int>, ops: seq<Op>, o: OrderId, op: Op)
    requires Inv(db, base) && o in db.orders && db.orders[o].paidAt.Some? && CoveredBy(op, o, db.orders[o])
    ensures o in Run(db, ops).orders && CoveredBy(op, o, Run(db, ops).orders[o])
  {
    RunKeeps(db, base, ops);
    assert OrderOk(db.orders[o], o, db.payments);
    assert OrderKept(db.orders[o], Run(db, ops).orders[o]);
  }

  /**
    The row a settlement writes is found under the order's own key exactly when
    the reference spelt the id in lower case.
   */
  lemma LedgerKeyFoundIff(db: Db, base: map<Product, int>, text: string, c: Charge, now: Time)
    requires Inv(db, base) && Lower(text) in db.orders && db.orders[Lower(text)].status == Pending
    requires Settle(db, text, c, now, false).1
    ensures KeyUsed(Settle(db, text, c, now, false).0.ledger, LedgerKey(Lower(text))) <==> text == Lower(text)
  {
    var o := Lower(text);
    LowerTwice(text);
    PendingHasNoRow(db, text);
    PendingHasNoRow(db, o);
    var next := Settle(db, text, c, now, false).0;
    var row := LedgerRow(o, LedgerKey(text), db.orders[o].currency, db.orders[o].amount, db.orders[o].platformFee,
                         Money.SellerNet(db.orders[o].amount, db.orders[o].platformFee));
    assert next.ledger == db.ledger + [row];
    assert next.ledger[|db.ledger|].eventKey == LedgerKey(text);
    assert LedgerKey(o)[|"order-paid:"|..] == o && LedgerKey(text)[|"order-paid:"|..] == text;
  }

  function SpeltCharge(order: Order, text: string, suffix: string, transaction: string): Charge {
    Charge(NewPaymentReference(text, suffix), transaction, order.amount, order.currency)
  }

  /** The shop after an order was placed and a payment was begun whose reference spells the order id as `text`. */
  function BegunPayment(base: map<Product, int>, order: Order, text: string, suffix: string): Db {
    var row := order.(status := Pending, txRef := "", transaction := "", paidAt := None);
    Start(base).(orders := map[Lower(text) := row],
                 payments := map[NewPaymentReference(text, suffix) :=
                   Payment(Lower(text), None, AwaitingCheckout, None)])
  }

  lemma PaymentBegins(base: map<Product, int>, order: Order, text: string, suffix: string)
    requires IsUuid(text)
    ensures Run(Start(base), [Place(Lower(text), order), Attempt(text, suffix)])
        == BegunPayment(base, order, text, suffix)
  {
    LowerTwice(text);
    var placed := Apply(Start(base), Place(Lower(text), order));
    assert Apply(placed, Attempt(text, suffix)) == BegunPayment(base, order, text, suffix);
    RunSplits(Start(base), [Place(Lower(text), order)], [Attempt(text, suffix)]);
    RunOne(Start(base), Place(Lower(text), order));
    RunOne(placed, Attempt(text, suffix));
    assert [Place(Lower(text), order)] + [Attempt(text, suffix)] == [Place(Lower(text), order), Attempt(text, suffix)];
  }

  lemma BegunPaymentSettles(base: map<Product, int>, order: Order, text: string, suffix: string, transaction: string,
                            now: Time)
    requires order.sellerManaged && Trimmed(order.currency)
    ensures var (db, done) := Settle(BegunPayment(base, order, text, suffix), text,
                                     SpeltCharge(order, text, suffix, transaction), now, false);
            done && Lower(text) in db.orders && db.orders[Lower(text)].paidAt == Some(now)
  {
    FoldedIsTrimmed(order.currency, order.currency);
  }

  /**
    From an empty shop, one order and one payment are enough: the order is paid,
    and its own key is found only if the reference spelt it so.
   */
  lemma SpellingDecidesKey(base: map<Product, int>, order: Order, text: string, suffix: string, transaction: string,
                           now: Time)
    requires IsUuid(text) && order.sellerManaged && Trimmed(order.currency)
    ensures var charge := SpeltCharge(order, text, suffix, transaction);
            var db := Run(Start(base),
                          [Place(Lower(text), order), Attempt(text, suffix)] + [SettleStep(charge, now, false)]);
            && Lower(text) in db.orders && db.orders[Lower(text)].paidAt == Some(now)
            && (KeyUsed(db.ledger, LedgerKey(Lower(text))) <==> text == Lower(text))
  {
    var charge := SpeltCharge(order, text, suffix, transaction);
    var begun := BegunPayment(base, order, text, suffix);
    var before := [Place(Lower(text), order), Attempt(text, suffix)];
    PaymentBegins(base, order, text, suffix);
    RunSplits(Start(base), before, [SettleStep(charge, now, false)]);
    RunOne(begun, SettleStep(charge, now, false));
    ParseUndoesNew(text, suffix);
    StartIsOk(base);
    RunKeeps(Start(base), base, before);
    BegunPaymentSettles(base, order, text, suffix, transaction, now);
    LedgerKeyFoundIff(begun, base, text, charge, now);
  }

  /** A late checkout failure can relabel a paid attempt, but not unpay it or its order. */
  lemma LateFailureOnlyRelabels(base: map<Product, int>, ops: seq<Op>, o: OrderId)
    requires o in Run(Start(base), ops).orders && Run(Start(base), ops).orders[o].paidAt.Some?
    ensures var db := Run(Start(base), ops);
            var next := Apply(db, MarkFailed(db.orders[o].txRef));
            && next.orders == db.orders && next.ledger == db.ledger && next.sold == db.sold
            && db.orders[o].txRef in next.payments
            && next.payments[db.orders[o].txRef].status == Failed && next.payments[db.orders[o].txRef].paidAt.Some?
  {
    StartIsOk(base);
    RunKeeps(Start(base), base, ops);
    var db := Run(Start(base), ops);
    assert OrderOk(db.orders[o], o, db.payments);
  }

  /** When an order carries the totals of its quote, the ledger credits exactly items plus delivery. */
  lemma LedgerNetMatchesQuote(base: map<Product, int>, ops: seq<Op>, i: nat,
                              itemsSum: real, deliverySum: real, redeemed: nat, days: int)
    requires i < |Run(Start(base), ops).ledger| && itemsSum >= 0.0 && deliverySum >= 0.0
    requires redeemed as real <= Money.Fee(Money.RoundMoney(itemsSum), Money.RoundMoney(deliverySum))
    requires var db := Run(Start(base), ops);
             var t := Money.TotalsOf(itemsSum, deliverySum, redeemed, days);
             db.ledger[i].order in db.orders && db.orders[db.ledger[i].order].amount == t.grand
             && db.orders[db.ledger[i].order].platformFee == t.fee
    ensures Run(Start(base), ops).ledger[i].net == Money.RoundMoney(itemsSum) + Money.RoundMoney(deliverySum)
  {
    PaidExactlyOnce(base, ops);
    Money.SellerNetsItemsAndDelivery(itemsSum, deliverySum, redeemed, days);
  }

  // ----- the handlers as sequences of steps -----

  /** What the payment provider says about a transaction. */
  datatype Answer = GatewayDown | Answered(transaction: string, txRef: string, status: string, amount: Option<real>,
                                           currency: string)

  /** Outcomes decided outside this model. */
  datatype Weather = Weather(now: Time, fault: bool, notifyFails: bool, subscriptionSettles: bool)

  datatype WebhookEvent = WebhookEvent(kind: string, status: string, transaction: string, reference: string,
                                       payload: string)

  datatype Reply = Settled | AcceptedOnly | AlreadyDone | BadRequest | NotFound | Conflict | BadGateway

  predicate Successful(status: string) {
    Lower(TrimSpace(status)) == "successful" || Lower(TrimSpace(status)) == "succeeded"
  }

  function TrimColons(s: string): string
    decreases |s|
  {
    if s == "" then ""
    else if s[0] == ':' then TrimColons(s[1..])
    else if s[|s| - 1] == ':' then TrimColons(s[..|s| - 1])
    else s
  }

  function EventKey(e: WebhookEvent): ReceiptKey {
    var parts := e.kind + ":" + e.transaction + ":" + e.reference;
    if TrimColons(parts) == "" then ByPayload(e.payload) else ByParts(parts)
  }

  predicate DoneWith(db: Db, key: ReceiptKey) {
    key in db.receipts && db.receipts[key] in {ReceiptProcessed, ReceiptIgnored}
  }

  /** settleAndNotify: settle, then load the row to notify about. */
  function NotifySteps(db: Db, c: Charge, w: Weather): (seq<Op>, bool)
    requires ParseOrderId(c.txRef).Some?
  {
    ([SettleStep(c, w.now, w.fault)], Settle(db, ParseOrderId(c.txRef).value, c, w.now, w.fault).1 && !w.notifyFails)
  }

  /** The webhook's work once its receipt is open: steps, closing receipt and reply. */
  function WebhookWork(db: Db, e: WebhookEvent, answer: Answer, w: Weather): (seq<Op>, Receipt, Reply) {
    if e.kind != "charge.completed" || !Successful(e.status) then ([], ReceiptIgnored, AcceptedOnly)
    else if answer.GatewayDown? then ([], ReceiptFailed, BadGateway)
    else if !Successful(answer.status) then ([], ReceiptIgnored, AcceptedOnly)
    else
      var txRef := TrimSpace(answer.txRef);
      if "PROVIDER-" <= txRef then
        if answer.amount.None? then ([], ReceiptFailed, BadGateway)
        else if w.subscriptionSettles then ([], ReceiptProcessed, Settled)
        else ([], ReceiptFailed, Conflict)
      else if ParseOrderId(txRef).None? then ([], ReceiptFailed, BadRequest)
      else if answer.amount.None? then ([], ReceiptFailed, BadGateway)
      else
        var (steps, done) :=
            NotifySteps(db, Charge(txRef, answer.transaction, answer.amount.value, answer.currency), w);
        if done then (steps, ReceiptProcessed, Settled) else (steps, ReceiptFailed, Conflict)
  }

  function WebhookSteps(db: Db, e: WebhookEvent, answer: Answer, w: Weather): (seq<Op>, Reply) {
    var key := EventKey(e);
    var open := Apply(db, Receive(key));
    if DoneWith(open, key) then ([Receive(key)], AlreadyDone)
    else
      var (steps, receipt, reply) := WebhookWork(open, e, answer, w);
      ([Receive(key)] + steps + [Finish(key, receipt)], reply)
  }

  /** The shared tail of buyer verification and admin reconciliation. */
  function SettleAnswer(db: Db, requested: string, answer: Answer, w: Weather): (seq<Op>, Reply) {
    if answer.GatewayDown? then ([], BadGateway)
    else if !Successful(answer.status) then ([], AcceptedOnly)
    else
      var txRef := TrimSpace(answer.txRef);
      if ParseOrderId(txRef) != Some(requested) then ([], Conflict)
      else if answer.amount.None? then ([], BadGateway)
      else
        var (steps, done) :=
            NotifySteps(db, Charge(txRef, answer.transaction, answer.amount.value, answer.currency), w);
        (steps, if done then Settled else Conflict)
  }

  function VerifySteps(db: Db, requested: string, owned: bool, answer: Answer, w: Weather): (seq<Op>, Reply) {
    if TrimSpace(requested) == "" then ([], BadRequest)
    else if !owned || Lower(requested) !in db.orders then ([], NotFound)
    else SettleAnswer(db, requested, answer, w)
  }

  function ReconcileSteps(db: Db, orderId: string, reference: string, transaction: string, answer: Answer, w: Weather)
    : (seq<Op>, Reply)
  {
    var requested, txRef := TrimSpace(orderId), TrimSpace(reference);
    if requested == "" || (txRef == "" && TrimSpace(transaction) == "") then ([], BadRequest)
    else if Lower(requested) !in db.orders then ([], NotFound)
    else
      var stored := db.orders[Lower(requested)].txRef;
      if stored != "" && txRef != "" && stored != txRef then ([], Conflict)
      else SettleAnswer(db, requested, answer, w)
  }

  // ----- the controller -----

  /** The payment tables, with the handlers that write them. */
  class PaymentController {
    var orders: map<OrderId, Order>
    var payments: map<Reference, Payment>
    var sold: map<Product, int>
    var ledger: seq<LedgerRow>
    var receipts: map<ReceiptKey, Receipt>

    ghost function View(): Db
      reads this
    {
      Db(orders, payments, sold, ledger, receipts)
    }

    method RecordAttempt(text: string, suffix: string) returns (txRef: Option<Reference>)
      modifies this
      ensures View() == Apply(old(View()), Attempt(text, suffix))
      ensures txRef.Some? ==> txRef.value == NewPaymentReference(text, suffix) && txRef.value in payments
      ensures txRef.None? ==> View() == old(View())
    {
      if !IsUuid(text) || Lower(text) !in orders || orders[Lower(text)].status != Pending { return None; }
      var reference := "ACROSS-" + text + "-" + suffix;
      if reference in payments { return None; }
      payments := payments[reference := Payment(Lower(text), None, AwaitingCheckout, None)];
      txRef := Some(reference);
    }

    /** settlePaymentLedger on a transaction's copy of the attempts. */
    static method SettleLedger(tx: map<Reference, Payment>, txRef: Reference, transaction: string, now: Time)
      returns (settled: Option<map<Reference, Payment>>)
      ensures settled == SettleAttempt(tx, txRef, transaction, now)
    {
      if txRef !in tx { return None; }
      var p := tx[txRef];
      if p.transaction.Some? && p.transaction.value != transaction { return None; }
      if p.transaction.None? && transaction != "" {
        if exists r <- tx :: r != txRef && tx[r].transaction == Some(transaction) { return None; }
        p := p.(transaction := Some(transaction));
      }
      p := p.(status := Succeeded);
      if p.paidAt.None? { p := p.(paidAt := Some(now)); }
      settled := Some(tx[txRef := p]);
    }

    method SettleOrderPayment(text: string, c: Charge, now: Time, fault: bool) returns (done: bool)
      modifies this
      ensures (View(), done) == Settle(old(View()), text, c, now, fault)
    {
      var o := Lower(text);
      if o !in orders { return false; }
      var row := orders[o];
      if !EqualFold(row.currency, TrimSpace(c.currency)) || c.paid + 0.001 < row.amount { return false; }
      if row.status != Pending {
        if row.txRef == c.txRef
           && (row.status == Paid || row.status == Shipped || row.status == Delivered || row.status == Completed) {
          var again := SettleLedger(payments, c.txRef, c.transaction, now);
          if again.None? || fault { return false; }
          payments := again.value;
          return true;
        }
        return false;
      }
      var attempts := SettleLedger(payments, c.txRef, c.transaction, now);
      if attempts.None? || !row.sellerManaged || fault { return false; }
      var paidAt := if row.paidAt.Some? then row.paidAt else Some(now);
      var sellerAmount := Money.RoundMoney(row.amount - row.platformFee);
      var credit := LedgerRow(o, "order-paid:" + text, row.currency, row.amount, row.platformFee, sellerAmount);
      payments := attempts.value;
      orders := orders[o := row.(status := Paid, txRef := c.txRef, transaction := c.transaction, paidAt := paidAt)];
      sold := map p <- sold :: sold[p] + QuantityOf(row.items, p);
      if forall i | 0 <= i < |ledger| :: ledger[i].eventKey != credit.eventKey { ledger := ledger + [credit]; }
      done := true;
    }

    method SettleAndNotify(c: Charge, w: Weather) returns (done: bool)
      requires ParseOrderId(c.txRef).Some?
      modifies this
      ensures View() == Apply(old(View()), SettleStep(c, w.now, w.fault))
      ensures done == NotifySteps(old(View()), c, w).1
    {
      done := SettleOrderPayment(ParseOrderId(c.txRef).value, c, w.now, w.fault);
      done := done && !w.notifyFails;
    }

    method BeginWebhook(key: ReceiptKey) returns (done: bool)
      modifies this
      ensures View() == Apply(old(View()), Receive(key))
      ensures key in receipts && done == DoneWith(View(), key)
    {
      if key !in receipts || receipts[key] == ReceiptFailed { receipts := receipts[key := ReceiptProcessing]; }
      done := receipts[key] == ReceiptProcessed || receipts[key] == ReceiptIgnored;
      assert receipts[key := receipts[key]] == receipts;
    }

    method FinishWebhook(key: ReceiptKey, receipt: Receipt)
      modifies this
      ensures View() == Apply(old(View()), Finish(key, receipt))
    {
      if key in receipts { receipts := receipts[key := receipt]; }
    }

    /** The part of the webhook between opening and closing its receipt. */
    method HandleEvent(e: WebhookEvent, answer: Answer, w: Weather) returns (receipt: Receipt, reply: Reply)
      modifies this
      ensures var work := WebhookWork(old(View()), e, answer, w);
              View() == Run(old(View()), work.0) && receipt == work.1 && reply == work.2
    {
      if e.kind != "charge.completed" || !Successful(e.status) { return ReceiptIgnored, AcceptedOnly; }
      if answer.GatewayDown? { return ReceiptFailed, BadGateway; }
      if !Successful(answer.status) { return ReceiptIgnored, AcceptedOnly; }
      var txRef := TrimSpace(answer.txRef);
      if "PROVIDER-" <= txRef {
        if answer.amount.None? { return ReceiptFailed, BadGateway; }
        if !w.subscriptionSettles { return ReceiptFailed, Conflict; }
        return ReceiptProcessed, Settled;
      }
      if ParseOrderId(txRef).None? { return ReceiptFailed, BadRequest; }
      if answer.amount.None? { return ReceiptFailed, BadGateway; }
      var c := Charge(txRef, answer.transaction, answer.amount.value, answer.currency);
      var done := SettleAndNotify(c, w);
      assert Run(old(View()), [SettleStep(c, w.now, w.fault)]) == Apply(old(View()), SettleStep(c, w.now, w.fault)) by {
        assert [SettleStep(c, w.now, w.fault)][1..] == [];
      }
      if !done { return ReceiptFailed, Conflict; }
      return ReceiptProcessed, Settled;
    }

    method FlutterwaveWebhook(e: WebhookEvent, answer: Answer, w: Weather) returns (reply: Reply)
      modifies this
      ensures View() == Run(old(View()), WebhookSteps(old(View()), e, answer, w).0)
      ensures reply == WebhookSteps(old(View()), e, answer, w).1
    {
      var key := EventKey(e);
      ghost var start := View();
      var closed := BeginWebhook(key);
      ghost var open := View();
      RunOne(start, Receive(key));
      if closed { return AlreadyDone; }
      var receipt;
      receipt, reply := HandleEvent(e, answer, w);
      ghost var worked := View();
      FinishWebhook(key, receipt);
      ghost var steps := WebhookWork(open, e, answer, w).0;
      RunOne(worked, Finish(key, receipt));
      RunSplits(start, [Receive(key)], steps + [Finish(key, receipt)]);
      RunSplits(open, steps, [Finish(key, receipt)]);
      assert [Receive(key)] + steps + [Finish(key, receipt)] == [Receive(key)] + (steps + [Finish(key, receipt)]);
    }

    /** The shared tail of the two synchronous endpoints. */
    method SettleVerified(requested: string, answer: Answer, w: Weather) returns (reply: Reply)
      modifies this
      ensures View() == Run(old(View()), SettleAnswer(old(View()), requested, answer, w).0)
      ensures reply == SettleAnswer(old(View()), requested, answer, w).1
    {
      if answer.GatewayDown? { return BadGateway; }
      if !Successful(answer.status) { return AcceptedOnly; }
      var txRef := TrimSpace(answer.txRef);
      if ParseOrderId(txRef) != Some(requested) { return Conflict; }
      if answer.amount.None? { return BadGateway; }
      var c := Charge(txRef, answer.transaction, answer.amount.value, answer.currency);
      ghost var start := View();
      var done := SettleAndNotify(c, w);
      RunOne(start, SettleStep(c, w.now, w.fault));
      reply := if done then Settled else Conflict;
    }

    method VerifyFlutterwavePayment(requested: string, owned: bool, answer: Answer, w: Weather) returns (reply: Reply)
      modifies this
      ensures View() == Run(old(View()), VerifySteps(old(View()), requested, owned, answer, w).0)
      ensures reply == VerifySteps(old(View()), requested, owned, answer, w).1
    {
      if TrimSpace(requested) == "" { return BadRequest; }
      if !owned || Lower(requested) !in orders { return NotFound; }
      reply := SettleVerified(requested, answer, w);
    }

    method AdminReconcile(orderId: string, reference: string, transaction: string, answer: Answer, w: Weather)
      returns (reply: Reply)
      modifies this
      ensures View() == Run(old(View()), ReconcileSteps(old(View()), orderId, reference, transaction, answer, w).0)
      ensures reply == ReconcileSteps(old(View()), orderId, reference, transaction, answer, w).1
    {
      var requested, txRef := TrimSpace(orderId), TrimSpace(reference);
      if requested == "" || (txRef == "" && TrimSpace(transaction) == "") { return BadRequest; }
      if Lower(requested) !in orders { return NotFound; }
      var stored := orders[Lower(requested)].txRef;
      if stored != "" && txRef != "" && stored != txRef { return Conflict; }
      reply := SettleVerified(requested, answer, w);
    }
  }

  lemma RunOne(db: Db, op: Op)
    ensures Run(db, [op]) == Apply(db, op)
  {
    assert [op][1..] == [];
  }
}
