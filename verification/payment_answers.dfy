/**
  What the payment endpoints do with what the gateway says, on the texts and rows
  themselves: settlement and its effect, and for each answer of the gateway the
  tables, the receipt and the reply.
 */
module PaymentAnswers {
  import opened Basics
  import opened Text
  import opened Payments
  import Money

  // ----- one settlement -----

  /** The attempt exists, and no other transaction id stands in the way. */
  predicate AttemptAccepts(payments: map<Reference, Payment>, txRef: Reference, transaction: string) {
    && txRef in payments
    && (payments[txRef].transaction.Some? ==> payments[txRef].transaction == Some(transaction))
    && (payments[txRef].transaction.None? && transaction != "" ==>
          forall r <- payments | r != txRef :: payments[r].transaction != Some(transaction))
  }

  /** The attempt afterwards: succeeded, with its first transaction id and its first payment time. */
  ghost predicate AttemptSettled(was: map<Reference, Payment>, now: map<Reference, Payment>, txRef: Reference,
                                 transaction: string, time: Time)
    requires txRef in was
  {
    var p := was[txRef];
    now == was[txRef := Payment(p.order,
      if p.transaction.None? && transaction != "" then Some(transaction) else p.transaction,
      Succeeded, if p.paidAt.None? then Some(time) else p.paidAt)]
  }

  predicate Covering(row: Order, paid: real, currency: string) {
    Lower(row.currency) == Lower(TrimSpace(currency)) && row.amount <= paid + 0.001
  }

  /** A settlement works for a pending seller-managed order, or again for the reference that paid it. */
  predicate Settleable(db: Db, text: string, c: Charge) {
    && Lower(text) in db.orders && Covering(db.orders[Lower(text)], c.paid, c.currency)
    && AttemptAccepts(db.payments, c.txRef, c.transaction)
    && var row := db.orders[Lower(text)];
       if row.status == Pending then row.sellerManaged
       else row.txRef == c.txRef
            && (row.status == Paid || row.status == Shipped || row.status == Delivered || row.status == Completed)
  }

  ghost predicate OrderPaid(was: Order, now: Order, c: Charge, time: Time) {
    now == Order(Paid, was.amount, was.platformFee, was.currency, was.sellerManaged, was.items, c.txRef, c.transaction,
                 if was.paidAt.None? then Some(time) else was.paidAt)
  }

  /** Units of a product over all positions of an order. */
  ghost function UnitsUpTo(items: seq<(Product, nat)>, p: Product, n: nat): nat
    requires n <= |items|
  {
    if n == 0 then 0 else UnitsUpTo(items, p, n - 1) + if items[n - 1].0 == p then items[n - 1].1 else 0
  }

  lemma {:induction false} UnitsOfTail(items: seq<(Product, nat)>, p: Product, n: nat)
    requires items != [] && 1 <= n <= |items|
    ensures UnitsUpTo(items, p, n) == (if items[0].0 == p then items[0].1 else 0) + UnitsUpTo(items[1..], p, n - 1)
  {
    if n > 1 { UnitsOfTail(items, p, n - 1); }
  }

  lemma {:induction false} QuantityIsUnits(items: seq<(Product, nat)>, p: Product)
    ensures QuantityOf(items, p) == UnitsUpTo(items, p, |items|)
  {
    if items != [] {
      QuantityIsUnits(items[1..], p);
      UnitsOfTail(items, p, |items|);
    }
  }

  /** The first settlement of an order: paid, its units sold, and one ledger row for what the seller is owed. */
  ghost predicate FirstEffect(db: Db, next: Db, text: string, c: Charge, time: Time)
    requires Lower(text) in db.orders
  {
    var o := Lower(text);
    var row := db.orders[o];
    && o in next.orders && OrderPaid(row, next.orders[o], c, time) && next.orders == db.orders[o := next.orders[o]]
    && next.sold.Keys == db.sold.Keys
    && (forall p <- db.sold :: next.sold[p] == db.sold[p] + UnitsUpTo(row.items, p, |row.items|))
    && (if exists i | 0 <= i < |db.ledger| :: db.ledger[i].eventKey == "order-paid:" + text
        then next.ledger == db.ledger
        else next.ledger == db.ledger + [LedgerRow(o, "order-paid:" + text, row.currency, row.amount, row.platformFee,
                                                   Money.RoundMoney(row.amount - row.platformFee))])
  }

  /**
    A charge is settled exactly when nothing fails and the order and its attempt allow
    it. The attempt then succeeds; a pending order is paid with all that follows, and
    an order that was paid before keeps everything. Otherwise nothing changes.
   */
  lemma SettleAnswers(db: Db, text: string, c: Charge, time: Time, fault: bool)
    ensures var (next, done) := Settle(db, text, c, time, fault);
            && (done <==> !fault && Settleable(db, text, c))
            && (!done ==> next == db)
            && (done ==>
                  && AttemptSettled(db.payments, next.payments, c.txRef, c.transaction, time)
                  && next.receipts == db.receipts
                  && if db.orders[Lower(text)].status == Pending then FirstEffect(db, next, text, c, time)
                     else next.orders == db.orders && next.sold == db.sold && next.ledger == db.ledger)
  {
    var o := Lower(text);
    if o in db.orders {
      forall p: Product
        ensures QuantityOf(db.orders[o].items, p) == UnitsUpTo(db.orders[o].items, p, |db.orders[o].items|)
      {
        QuantityIsUnits(db.orders[o].items, p);
      }
    }
  }

  // ----- what the gateway says -----

  /** The gateway answered, and its verdict is a success. */
  predicate SaysPaid(answer: Answer) {
    && answer.Answered?
    && (Lower(TrimSpace(answer.status)) == "successful" || Lower(TrimSpace(answer.status)) == "succeeded")
  }

  predicate SameMoney(was: Db, now: Db) {
    now.orders == was.orders && now.payments == was.payments && now.sold == was.sold && now.ledger == was.ledger
  }

  /** The gateway's reference was built for this order id. */
  ghost predicate BuiltFor(answer: Answer, text: string)
    requires answer.Answered?
  {
    IsUuid(text) && exists suffix :: TrimSpace(answer.txRef) == NewPaymentReference(text, suffix)
  }

  /** The gateway gives an amount and a reference that was built for this order id. */
  ghost predicate NamesOrder(answer: Answer, text: string) {
    answer.Answered? && answer.amount.Some? && BuiltFor(answer, text)
  }

  lemma NamedIsParsed(answer: Answer, text: string)
    requires answer.Answered? && answer.amount.Some?
    ensures NamesOrder(answer, text) <==> ParseOrderId(TrimSpace(answer.txRef)) == Some(text)
  {
    ParsedMeansBuilt(TrimSpace(answer.txRef), text);
  }

  function ChargeOf(answer: Answer): Charge
    requires answer.Answered? && answer.amount.Some?
  {
    Charge(TrimSpace(answer.txRef), answer.transaction, answer.amount.value, answer.currency)
  }

  /** The confirmed charge is settled and its order can be notified. */
  ghost predicate GoesThrough(db: Db, answer: Answer, text: string, w: Weather) {
    NamesOrder(answer, text) && !w.fault && Settleable(db, text, ChargeOf(answer)) && !w.notifyFails
  }

  /** The tables after the settlement the answer asks for. */
  ghost predicate SettledBy(db: Db, next: Db, answer: Answer, text: string, w: Weather)
    requires answer.Answered? && answer.amount.Some?
  {
    next == Settle(db, text, ChargeOf(answer), w.now, w.fault).0
  }

  // ----- buyer verification and reconciliation -----

  lemma SettleReplyIs(db: Db, requested: string, answer: Answer, w: Weather)
    requires SaysPaid(answer)
    ensures var (steps, reply) := SettleAnswer(db, requested, answer, w);
            if NamesOrder(answer, requested) then
              && steps == [SettleStep(ChargeOf(answer), w.now, w.fault)]
              && reply == (if Settle(db, requested, ChargeOf(answer), w.now, w.fault).1 && !w.notifyFails then Settled
                           else Conflict)
            else steps == [] && reply == if BuiltFor(answer, requested) then BadGateway else Conflict
  {
    ParsedMeansBuilt(TrimSpace(answer.txRef), requested);
  }

  lemma SettleAnswerIs(db: Db, requested: string, answer: Answer, w: Weather)
    ensures var (steps, reply) := SettleAnswer(db, requested, answer, w);
            var next := Run(db, steps);
            && (answer.GatewayDown? ==> next == db && reply == BadGateway)
            && (answer.Answered? && !SaysPaid(answer) ==> next == db && reply == AcceptedOnly)
            && (SaysPaid(answer) ==>
                  && (reply == Settled <==> GoesThrough(db, answer, requested, w))
                  && (next != db ==> NamesOrder(answer, requested))
                  && (NamesOrder(answer, requested) ==> SettledBy(db, next, answer, requested, w))
                  && (reply != Settled ==>
                        reply == if BuiltFor(answer, requested) && answer.amount.None? then BadGateway else Conflict))
  {
    if SaysPaid(answer) {
      SettleReplyIs(db, requested, answer, w);
      if NamesOrder(answer, requested) {
        NamedIsParsed(answer, requested);
        RunOne(db, SettleStep(ChargeOf(answer), w.now, w.fault));
        SettleAnswers(db, requested, ChargeOf(answer), w.now, w.fault);
      }
    }
  }

  /**
    Buyer verification touches the tables only for an order of the caller, when the
    gateway itself says the charge succeeded and names that order; any other answered
    status is only acknowledged.
   */
  lemma VerificationAnswers(db: Db, requested: string, owned: bool, answer: Answer, w: Weather)
    ensures var (steps, reply) := VerifySteps(db, requested, owned, answer, w);
            var next := Run(db, steps);
            var known := TrimSpace(requested) != "" && owned && Lower(requested) in db.orders;
            && (next != db ==> known && SaysPaid(answer) && NamesOrder(answer, requested))
            && (reply == Settled <==> known && SaysPaid(answer) && GoesThrough(db, answer, requested, w))
            && (known && answer.Answered? && !SaysPaid(answer) ==> next == db && reply == AcceptedOnly)
            && (known && SaysPaid(answer) && NamesOrder(answer, requested)
                ==> SettledBy(db, next, answer, requested, w))
            && (known && answer.GatewayDown? ==> reply == BadGateway)
            && (known && SaysPaid(answer) && reply != Settled ==>
                  reply == if BuiltFor(answer, requested) && answer.amount.None? then BadGateway else Conflict)
            && (TrimSpace(requested) == "" ==> reply == BadRequest)
            && (TrimSpace(requested) != "" && !known ==> reply == NotFound)
  {
    SettleAnswerIs(db, requested, answer, w);
  }

  /** Reconciliation also needs a reference or transaction, and refuses one the order was not checked out with. */
  lemma ReconciliationAnswers(db: Db, orderId: string, reference: string, transaction: string, answer: Answer,
                              w: Weather)
    ensures var (steps, reply) := ReconcileSteps(db, orderId, reference, transaction, answer, w);
            var next := Run(db, steps);
            var requested, txRef := TrimSpace(orderId), TrimSpace(reference);
            var asked := requested != "" && (txRef != "" || TrimSpace(transaction) != "");
            var known := asked && Lower(requested) in db.orders;
            var other := known && db.orders[Lower(requested)].txRef != "" && txRef != ""
                         && txRef != db.orders[Lower(requested)].txRef;
            && (next != db ==> known && !other && SaysPaid(answer) && NamesOrder(answer, requested))
            && (reply == Settled <==> known && !other && SaysPaid(answer) && GoesThrough(db, answer, requested, w))
            && (known && !other && answer.Answered? && !SaysPaid(answer) ==> next == db && reply == AcceptedOnly)
            && (known && !other && SaysPaid(answer) && NamesOrder(answer, requested)
                ==> SettledBy(db, next, answer, requested, w))
            && (known && !other && answer.GatewayDown? ==> reply == BadGateway)
            && (known && !other && SaysPaid(answer) && reply != Settled ==>
                  reply == if BuiltFor(answer, requested) && answer.amount.None? then BadGateway else Conflict)
            && (!asked ==> reply == BadRequest) && (asked && !known ==> reply == NotFound)
            && (other ==> reply == Conflict)
  {
    SettleAnswerIs(db, TrimSpace(orderId), answer, w);
  }

  // ----- the webhook -----

  predicate ReportsPaid(e: WebhookEvent) {
    && e.kind == "charge.completed"
    && (Lower(TrimSpace(e.status)) == "successful" || Lower(TrimSpace(e.status)) == "succeeded")
  }

  /** The receipt is closed: processed or ignored before. */
  predicate Closed(db: Db, key: ReceiptKey) {
    key in db.receipts && (db.receipts[key] == ReceiptProcessed || db.receipts[key] == ReceiptIgnored)
  }

  predicate ForSubscription(answer: Answer) { answer.Answered? && "PROVIDER-" <= TrimSpace(answer.txRef) }

  /** The reply to a paid charge that is not settled: for a reference of no order, a missing amount, or a refusal. */
  function UnsettledReply(answer: Answer): Reply
    requires answer.Answered?
  {
    if !ForSubscription(answer) && ParseOrderId(TrimSpace(answer.txRef)).None? then BadRequest
    else if answer.amount.None? then BadGateway
    else Conflict
  }

  lemma QuietWork(db: Db, e: WebhookEvent, answer: Answer, w: Weather)
    requires !ReportsPaid(e) || !SaysPaid(answer) || ForSubscription(answer)
    ensures var (steps, receipt, reply) := WebhookWork(db, e, answer, w);
            && steps == []
            && (!ReportsPaid(e) ==> receipt == ReceiptIgnored && reply == AcceptedOnly)
            && (ReportsPaid(e) && answer.GatewayDown? ==> receipt == ReceiptFailed && reply == BadGateway)
            && (ReportsPaid(e) && answer.Answered? && !SaysPaid(answer) ==>
                  receipt == ReceiptIgnored && reply == AcceptedOnly)
            && (ReportsPaid(e) && SaysPaid(answer) ==>
                  && (reply == Settled <==> answer.amount.Some? && w.subscriptionSettles)
                  && (reply != Settled ==> reply == UnsettledReply(answer))
                  && receipt == if reply == Settled then ReceiptProcessed else ReceiptFailed)
  {}

  lemma ChargeWork(db: Db, e: WebhookEvent, answer: Answer, w: Weather)
    requires ReportsPaid(e) && SaysPaid(answer) && !ForSubscription(answer)
    ensures var (steps, receipt, reply) := WebhookWork(db, e, answer, w);
            var parsed := ParseOrderId(TrimSpace(answer.txRef));
            && receipt == (if reply == Settled then ReceiptProcessed else ReceiptFailed)
            && (reply != Settled ==> reply == UnsettledReply(answer))
            && (if parsed.None? || answer.amount.None? then steps == [] && reply != Settled
                else
                  && steps == [SettleStep(ChargeOf(answer), w.now, w.fault)]
                  && (reply == Settled
                      <==> Settle(db, parsed.value, ChargeOf(answer), w.now, w.fault).1 && !w.notifyFails))
  {}

  lemma ChargeWorkSettles(db: Db, e: WebhookEvent, answer: Answer, w: Weather)
    requires ReportsPaid(e) && SaysPaid(answer) && !ForSubscription(answer)
    ensures var (steps, receipt, reply) := WebhookWork(db, e, answer, w);
            var next := Run(db, steps);
            && (reply == Settled <==> exists text | NamesOrder(answer, text) :: GoesThrough(db, answer, text, w))
            && (forall text | NamesOrder(answer, text) :: SettledBy(db, next, answer, text, w))
            && ((forall text :: !NamesOrder(answer, text)) ==> next == db)
  {
    ChargeWork(db, e, answer, w);
    var parsed := ParseOrderId(TrimSpace(answer.txRef));
    if answer.amount.Some? {
      forall text ensures NamesOrder(answer, text) <==> parsed == Some(text) { NamedIsParsed(answer, text); }
      if parsed.Some? {
        assert NamesOrder(answer, parsed.value);
        RunOne(db, SettleStep(ChargeOf(answer), w.now, w.fault));
        SettleAnswers(db, parsed.value, ChargeOf(answer), w.now, w.fault);
      }
    }
  }

  /** A webhook is its work between opening and closing its receipt. */
  lemma WebhookIs(db: Db, e: WebhookEvent, answer: Answer, w: Weather)
    ensures var key := EventKey(e);
            var (steps, reply) := WebhookSteps(db, e, answer, w);
            var open := db.(receipts := db.receipts[key := ReceiptProcessing]);
            if Closed(db, key) then Run(db, steps) == db && reply == AlreadyDone
            else
              var (work, receipt, answered) := WebhookWork(open, e, answer, w);
              && reply == answered
              && Run(db, steps) == Run(open, work).(receipts := Run(open, work).receipts[key := receipt])
              && Run(open, work).receipts == open.receipts
  {
    var key := EventKey(e);
    var begun := Apply(db, Receive(key));
    RunOne(db, Receive(key));
    if Closed(db, key) {
      assert begun == db;
    } else {
      var open := db.(receipts := db.receipts[key := ReceiptProcessing]);
      assert begun == open by {
        if key in db.receipts && db.receipts[key] == ReceiptProcessing {
          assert db.receipts[key := ReceiptProcessing] == db.receipts;
        }
      }
      var (work, receipt, answered) := WebhookWork(open, e, answer, w);
      var worked := Run(open, work);
      WorkKeepsReceipts(open, e, answer, w);
      RunOne(worked, Finish(key, receipt));
      RunSplits(db, [Receive(key)], work + [Finish(key, receipt)]);
      RunSplits(open, work, [Finish(key, receipt)]);
      assert [Receive(key)] + work + [Finish(key, receipt)] == [Receive(key)] + (work + [Finish(key, receipt)]);
    }
  }

  lemma WorkKeepsReceipts(db: Db, e: WebhookEvent, answer: Answer, w: Weather)
    ensures Run(db, WebhookWork(db, e, answer, w).0).receipts == db.receipts
  {
    var work := WebhookWork(db, e, answer, w).0;
    if work != [] {
      assert work == [work[0]];
      RunOne(db, work[0]);
    }
  }

  /**
    A webhook whose receipt is not closed moves money only when its event reports a
    completed charge and the gateway itself says so; the receipt it leaves and the
    reply tell which of them failed. A closed receipt changes nothing at all.
   */
  lemma WebhookAnswers(db: Db, e: WebhookEvent, answer: Answer, w: Weather)
    ensures var key := EventKey(e);
            var (steps, reply) := WebhookSteps(db, e, answer, w);
            var next := Run(db, steps);
            && (Closed(db, key) ==> next == db && reply == AlreadyDone)
            && (!SameMoney(db, next) ==>
                  !Closed(db, key) && ReportsPaid(e) && SaysPaid(answer) && !ForSubscription(answer))
            && (!Closed(db, key) ==>
                  && key in next.receipts && next.receipts == db.receipts[key := next.receipts[key]]
                  && (!ReportsPaid(e) ==> next.receipts[key] == ReceiptIgnored && reply == AcceptedOnly)
                  && (ReportsPaid(e) && answer.GatewayDown? ==>
                        next.receipts[key] == ReceiptFailed && reply == BadGateway)
                  && (ReportsPaid(e) && answer.Answered? && !SaysPaid(answer) ==>
                        next.receipts[key] == ReceiptIgnored && reply == AcceptedOnly)
                  && (ReportsPaid(e) && SaysPaid(answer) ==>
                        && (reply != Settled ==> reply == UnsettledReply(answer))
                        && next.receipts[key] == if reply == Settled then ReceiptProcessed else ReceiptFailed))
  {
    WebhookIs(db, e, answer, w);
    var open := db.(receipts := db.receipts[EventKey(e) := ReceiptProcessing]);
    if !ReportsPaid(e) || !SaysPaid(answer) || ForSubscription(answer) {
      QuietWork(open, e, answer, w);
    } else {
      ChargeWork(open, e, answer, w);
    }
  }

  /**
    It is answered as settled exactly when the named order is settled, and then
    does to the tables what a settlement does.
   */
  lemma WebhookSettles(db: Db, e: WebhookEvent, answer: Answer, w: Weather)
    requires !Closed(db, EventKey(e)) && ReportsPaid(e) && SaysPaid(answer) && !ForSubscription(answer)
    ensures var (steps, reply) := WebhookSteps(db, e, answer, w);
            var next := Run(db, steps);
            var open := db.(receipts := db.receipts[EventKey(e) := ReceiptProcessing]);
            && (reply == Settled <==> exists text | NamesOrder(answer, text) :: GoesThrough(open, answer, text, w))
            && (forall text | NamesOrder(answer, text) ::
                  SameMoney(Settle(open, text, ChargeOf(answer), w.now, w.fault).0, next))
            && ((forall text :: !NamesOrder(answer, text)) ==> SameMoney(db, next))
  {
    WebhookIs(db, e, answer, w);
    ChargeWorkSettles(db.(receipts := db.receipts[EventKey(e) := ReceiptProcessing]), e, answer, w);
  }

  // ----- the steps between placing an order and settling it -----

  /** All but the attempts, the orders or the receipts stays. */
  ghost predicate OnlyPayments(db: Db, next: Db) { next == db.(payments := next.payments) }
  ghost predicate OnlyOrders(db: Db, next: Db) { next == db.(orders := next.orders) }
  ghost predicate OnlyReceipts(db: Db, next: Db) { next == db.(receipts := next.receipts) }

  /** An attempt adds one waiting row, for a pending order and a new reference only; no other row changes. */
  lemma AttemptAnswers(db: Db, text: string, suffix: string)
    ensures var (next, txRef) := (Apply(db, Attempt(text, suffix)), NewPaymentReference(text, suffix));
            var may := IsUuid(text) && Lower(text) in db.orders && db.orders[Lower(text)].status == Pending
                       && txRef !in db.payments;
            && OnlyPayments(db, next) && next.payments.Keys == db.payments.Keys + (if may then {txRef} else {})
            && (forall r <- db.payments :: next.payments[r] == db.payments[r])
            && (may ==> next.payments[txRef] == Payment(Lower(text), None, AwaitingCheckout, None))
  {}

  /** The checkout's reference is noted on the order while it is pending, and on no other. */
  lemma BindAnswers(db: Db, text: string, suffix: string)
    ensures var next := Apply(db, Bind(text, suffix));
            && OnlyOrders(db, next) && next.orders.Keys == db.orders.Keys
            && forall o <- db.orders ::
                 next.orders[o] == if o == Lower(text) && db.orders[o].status == Pending
                                   then db.orders[o].(txRef := NewPaymentReference(text, suffix)) else db.orders[o]
  {}

  /** A mark changes the status of its attempt and nothing else. */
  lemma MarksAnswer(db: Db, txRef: Reference)
    ensures var (ready, failed) := (Apply(db, MarkReady(txRef)), Apply(db, MarkFailed(txRef)));
            && OnlyPayments(db, ready) && OnlyPayments(db, failed)
            && ready.payments.Keys == db.payments.Keys && failed.payments.Keys == db.payments.Keys
            && (forall r <- db.payments | r != txRef ::
                  ready.payments[r] == db.payments[r] && failed.payments[r] == db.payments[r])
            && (txRef in db.payments ==>
                  var p := db.payments[txRef];
                  && ready.payments[txRef] == Payment(p.order, p.transaction, Processing, p.paidAt)
                  && failed.payments[txRef] == Payment(p.order, p.transaction, Failed, p.paidAt))
  {}

  /** A new order is pending and unpaid, and changes no other. */
  lemma PlaceAnswers(db: Db, id: OrderId, order: Order)
    ensures var next := Apply(db, Place(id, order));
            && OnlyOrders(db, next) && (forall o <- db.orders :: o in next.orders && next.orders[o] == db.orders[o])
            && next.orders.Keys == db.orders.Keys + (if Lower(id) == id then {id} else {})
            && (id in next.orders && id !in db.orders ==>
                  next.orders[id] ==
                    Order(Pending, order.amount, order.platformFee, order.currency, order.sellerManaged, order.items,
                          "", "", None))
  {}

  /** A move changes the status of its order only, and never makes it paid or pending. */
  lemma MoveAnswers(db: Db, id: OrderId, to: Status)
    ensures var next := Apply(db, Move(id, to));
            && OnlyOrders(db, next) && next.orders.Keys == db.orders.Keys
            && forall o <- db.orders ::
                 var unpaid := db.orders[o].status == Pending || db.orders[o].status == Cancelled;
                 next.orders[o] == if o == id && (to == Cancelled || (to != Pending && !unpaid))
                                   then db.orders[o].(status := to) else db.orders[o]
  {}

  /** Receiving an event opens its receipt if it is new or failed; finishing closes one that is there. */
  lemma ReceiptsAnswer(db: Db, key: ReceiptKey, receipt: Receipt)
    ensures var next := Apply(db, Receive(key));
            && OnlyReceipts(db, next) && next.receipts.Keys == db.receipts.Keys + {key}
            && forall k <- next.receipts ::
                 next.receipts[k] == if k in db.receipts && (k != key || db.receipts[k] != ReceiptFailed)
                                     then db.receipts[k] else ReceiptProcessing
    ensures var next := Apply(db, Finish(key, receipt));
            && OnlyReceipts(db, next) && next.receipts.Keys == db.receipts.Keys
            && forall k <- db.receipts :: next.receipts[k] == if k == key then receipt else db.receipts[k]
  {}

  // ----- event keys -----

  predicate AllColons(s: string) { forall i | 0 <= i < |s| :: s[i] == ':' }

  lemma {:induction false} NothingButColons(s: string)
    ensures TrimColons(s) == "" <==> AllColons(s)
    decreases |s|
  {
    if s == "" {
    } else if s[0] == ':' {
      NothingButColons(s[1..]);
      assert forall i | 0 < i < |s| :: s[i] == s[1..][i - 1];
    } else if s[|s| - 1] == ':' {
      NothingButColons(s[..|s| - 1]);
    }
  }

  /** An event is known by its three parts, or by its payload when they hold nothing but colons. */
  lemma EventKeyIs(e: WebhookEvent)
    ensures EventKey(e) ==
              if AllColons(e.kind) && AllColons(e.transaction) && AllColons(e.reference) then ByPayload(e.payload)
              else ByParts(e.kind + ":" + e.transaction + ":" + e.reference)
  {
    var parts := e.kind + ":" + e.transaction + ":" + e.reference;
    NothingButColons(parts);
    var k, t := |e.kind|, |e.kind| + 1 + |e.transaction|;
    assert forall i | 0 <= i < k :: parts[i] == e.kind[i];
    assert forall i | 0 <= i < |e.transaction| :: parts[k + 1 + i] == e.transaction[i];
    assert forall i | 0 <= i < |e.reference| :: parts[t + 1 + i] == e.reference[i];
    assert parts[k] == ':' && parts[t] == ':';
    if AllColons(e.kind) && AllColons(e.transaction) && AllColons(e.reference) {
      forall i | 0 <= i < |parts| ensures parts[i] == ':' {
        if k < i < t { assert parts[i] == e.transaction[i - k - 1]; }
        if t < i { assert parts[i] == e.reference[i - t - 1]; }
      }
    }
  }
}
