/**
  What the merchant endpoints answer, on the rows themselves: when an order moves,
  when a request is refused, and that a cross-border order moves only after its
  settlement is released.
 */
module FulfillmentAnswers {
  import opened Basics
  import opened Fulfillment
  import Text

  // ----- the roads -----

  const LOCAL_ROAD: set<(Status, Status)> := {
    (Pending, Accepted), (Accepted, Packed), (Packed, ReadyForPickup), (Packed, OutForDelivery),
    (ReadyForPickup, Delivered), (OutForDelivery, Delivered)}

  const CROSS_BORDER_ROAD: set<(Status, Status)> := {
    (Pending, Accepted), (Accepted, Processing), (Processing, DispatchedFromOrigin),
    (DispatchedFromOrigin, InternationalTransit), (InternationalTransit, CustomsClearance),
    (InternationalTransit, LocalHub),
    (CustomsClearance, LocalHub), (LocalHub, ReadyForPickup), (LocalHub, OutForDelivery),
    (ReadyForPickup, Delivered), (OutForDelivery, Delivered)}

  predicate OnRoad(route: Route, from: Status, to: Status) {
    match route
    case MerchantLocal => (from, to) in LOCAL_ROAD
    case MerchantCrossBorder => (from, to) in CROSS_BORDER_ROAD
    case AtlanticImport => false
  }

  lemma RoadIff(route: Route, from: Status, to: Status)
    ensures ValidTransition(route, Merchant, from, to) <==> OnRoad(route, from, to)
  {}

  /** The tracking stage and order status of each step of a road. */
  ghost predicate Shown(route: Route, to: Status, stage: Stage, status: OrderStatus) {
    && (stage == StageDelivered <==> to == Delivered) && (stage == StageOutForDelivery <==> to == OutForDelivery)
    && (stage == AtLocalHub <==> to in {LocalHub, ReadyForPickup})
    && (stage == InTransitInternationally <==> to in {InternationalTransit, CustomsClearance})
    && (stage == AtInternationalHub <==>
          to in {Processing, DispatchedFromOrigin} || (to in {Accepted, Packed} && route != MerchantLocal))
    && status == if to == Delivered then OrderDelivered
                 else if to in {InternationalTransit, CustomsClearance, LocalHub, ReadyForPickup, OutForDelivery}
                 then Shipped
                 else Paid
  }

  // ----- one call -----

  /** The order is paid for and this seller's to work on; a cross-border one is settled. */
  predicate Workable(db: Db, o: OrderId, provider: Provider) {
    && o in db.fulfilments && o in db.orders && db.orders[o].paid
    && db.fulfilments[o].provider == provider && db.fulfilments[o].owner == Merchant
    && (db.fulfilments[o].route == MerchantCrossBorder ==> db.orders[o].settled)
  }

  predicate KeyUsed(events: seq<FulfillmentEvent>, key: string) {
    exists i | 0 <= i < |events| :: events[i].key == key
  }

  predicate WellAsked(to: Status, expected: nat, key: string) {
    to != Unknown("") && 1 <= expected && key != "" && |key| <= 160
  }

  /** The one order after a move, with everything else as it was. */
  ghost predicate MovedTo(db: Db, next: Db, o: OrderId, to: Status, key: string)
    requires o in db.fulfilments && o in db.orders
  {
    var f := db.fulfilments[o];
    && next.fulfilments == db.fulfilments[o :=
         Fulfilment(f.provider, f.route, f.owner, to, f.version + 1, f.events + [FulfillmentEvent(f.status, to, key)])]
    && o in next.orders && Shown(f.route, to, next.orders[o].stage, next.orders[o].status)
    && next.orders == db.orders[o := db.orders[o].(stage := next.orders[o].stage, status := next.orders[o].status)]
    && next.manifests == db.manifests && next.members == db.members
  }

  /**
    A single call moves its order exactly when the request is well formed, the order
    is workable, the key is new, the version is current and the road leads there; it
    replays a used key, and otherwise refuses. Only a move changes anything.
   */
  lemma SingleAnswers(db: Db, o: OrderId, provider: Provider, to: Status, expected: nat, key: string)
    ensures var (next, reply) := Single(db, o, provider, to, expected, key);
            && (reply.Moved? <==>
                  && WellAsked(to, expected, key) && Workable(db, o, provider)
                  && !KeyUsed(db.fulfilments[o].events, key)
                  && db.fulfilments[o].version == expected
                  && OnRoad(db.fulfilments[o].route, db.fulfilments[o].status, to))
            && (reply.Moved? ==> MovedTo(db, next, o, to, key) && reply.version == next.fulfilments[o].version)
            && (reply.Replayed? <==>
                  WellAsked(to, expected, key) && Workable(db, o, provider) && KeyUsed(db.fulfilments[o].events, key))
            && (reply.Replayed? ==> reply.version == db.fulfilments[o].version)
            && (reply.Replayed? ==> exists i | 0 <= i < |db.fulfilments[o].events| ::
                  db.fulfilments[o].events[i].key == key && db.fulfilments[o].events[i].status == reply.status)
            && (!reply.Moved? ==> next == db)
  {
    SingleReplies(db, o, provider, to, expected, key);
    if Single(db, o, provider, to, expected, key).1.Moved? {
      SingleMoves(db, o, provider, to, expected, key);
    } else if Workable(db, o, provider) {
      FoundByKey(db.fulfilments[o].events, key);
    }
  }

  lemma SingleReplies(db: Db, o: OrderId, provider: Provider, to: Status, expected: nat, key: string)
    ensures var reply := Single(db, o, provider, to, expected, key).1;
            && (reply.Moved? <==>
                  && WellAsked(to, expected, key) && Workable(db, o, provider)
                  && !KeyUsed(db.fulfilments[o].events, key)
                  && db.fulfilments[o].version == expected
                  && OnRoad(db.fulfilments[o].route, db.fulfilments[o].status, to))
            && (reply.Replayed? <==>
                  WellAsked(to, expected, key) && Workable(db, o, provider) && KeyUsed(db.fulfilments[o].events, key))
  {
    if Workable(db, o, provider) {
      var f := db.fulfilments[o];
      NoneMeansUnused(f.events, key);
      FoundByKey(f.events, key);
      RoadIff(f.route, f.status, to);
    }
  }

  lemma SingleMoves(db: Db, o: OrderId, provider: Provider, to: Status, expected: nat, key: string)
    requires Single(db, o, provider, to, expected, key).1.Moved?
    ensures var (next, reply) := Single(db, o, provider, to, expected, key);
            MovedTo(db, next, o, to, key) && reply.version == next.fulfilments[o].version
  {
    RoadIff(db.fulfilments[o].route, db.fulfilments[o].status, to);
    ShownIs(db.fulfilments[o].route, db.fulfilments[o].status, to);
  }

  lemma {:induction false} FoundByKey(events: seq<FulfillmentEvent>, key: string)
    ensures EventWith(events, key).Some? ==>
              exists i | 0 <= i < |events| :: events[i].key == key && events[i] == EventWith(events, key).value
  {
    if events != [] && events[0].key != key {
      FoundByKey(events[1..], key);
      if EventWith(events[1..], key).Some? {
        var i :| 0 <= i < |events[1..]| && events[1..][i].key == key
            && events[1..][i] == EventWith(events[1..], key).value;
        assert events[i + 1] == events[1..][i];
      }
    }
  }

  // ----- one bulk call -----

  /** 1 to 200 items for distinct orders named by UUIDs, a known status, a key and versions from 1. */
  predicate BulkAsked(to: Status, key: string, items: seq<Item>) {
    && 0 < |items| < 201 && to != Unknown("") && key != "" && |key| < 101
    && (forall i, j | 0 <= i < |items| && 0 <= j < |items| && items[i].order == items[j].order :: i == j)
    && forall item <- items :: Text.IsUuid(item.order) && item.expected != 0
  }

  predicate ItemMoves(db: Db, provider: Provider, to: Status, key: string, item: Item) {
    && Workable(db, item.order, provider) && !KeyUsed(db.fulfilments[item.order].events, key + ":" + item.order)
    && db.fulfilments[item.order].version == item.expected
    && OnRoad(db.fulfilments[item.order].route, db.fulfilments[item.order].status, to)
  }

  /** The order's rows after a move with this event key. */
  ghost predicate RowMoved(db: Db, next: Db, o: OrderId, to: Status, key: string)
    requires o in db.fulfilments && o in db.orders && o in next.fulfilments && o in next.orders
  {
    var f := db.fulfilments[o];
    && next.fulfilments[o] ==
         Fulfilment(f.provider, f.route, f.owner, to, f.version + 1, f.events + [FulfillmentEvent(f.status, to, key)])
    && Shown(f.route, to, next.orders[o].stage, next.orders[o].status)
    && next.orders[o] == db.orders[o].(stage := next.orders[o].stage, status := next.orders[o].status)
  }

  lemma ItemMovesIff(db: Db, provider: Provider, to: Status, key: string, item: Item)
    ensures CanMove(db, provider, to, key, item) <==> ItemMoves(db, provider, to, key, item)
  {
    if Workable(db, item.order, provider) {
      var f := db.fulfilments[item.order];
      NoneMeansUnused(f.events, ItemKey(key, item.order));
      FoundByKey(f.events, ItemKey(key, item.order));
      RoadIff(f.route, f.status, to);
    }
  }

  lemma AskedIff(to: Status, key: string, items: seq<Item>)
    ensures BulkAccepts(to, key, items) <==> BulkAsked(to, key, items)
  {
    if BulkAccepts(to, key, items) {
      forall item <- items ensures Text.IsUuid(item.order) && item.expected != 0 {
        var k :| 0 <= k < |items| && items[k] == item;
      }
    }
  }

  lemma DoneIff(db: Db, provider: Provider, to: Status, key: string, items: seq<Item>)
    ensures var (next, done) := Bulk(db, provider, to, key, items);
            && (done <==> BulkAsked(to, key, items) && forall item <- items :: ItemMoves(db, provider, to, key, item))
            && next == if done then MoveSet(db, OrdersOf(items), to, key) else db
  {
    AskedIff(to, key, items);
    forall item <- items ensures CanMove(db, provider, to, key, item) <==> ItemMoves(db, provider, to, key, item) {
      ItemMovesIff(db, provider, to, key, item);
    }
    if BulkAsked(to, key, items) { BulkMovesTheSet(db, provider, to, key, items); }
  }

  /** These rows move, under their own keys, and all else stays. */
  ghost predicate SetMoved(db: Db, next: Db, moved: set<OrderId>, to: Status, key: string) {
    && next.fulfilments.Keys == db.fulfilments.Keys && next.orders.Keys == db.orders.Keys
    && next.manifests == db.manifests && next.members == db.members
    && (forall o <- moved | o in db.fulfilments && o in db.orders && o in next.fulfilments && o in next.orders ::
          RowMoved(db, next, o, to, key + ":" + o))
    && (forall o <- db.fulfilments | o !in moved :: o in next.fulfilments && next.fulfilments[o] == db.fulfilments[o])
    && (forall o <- db.orders | o !in moved :: o in next.orders && next.orders[o] == db.orders[o])
  }

  lemma ShownIs(route: Route, from: Status, to: Status)
    requires OnRoad(route, from, to)
    ensures Shown(route, to, LegacyStage(route, to).0, LegacyStage(route, to).1)
  {}

  lemma OneOfSetMoves(db: Db, moved: set<OrderId>, to: Status, key: string, o: OrderId)
    requires o in moved && o in db.fulfilments && o in db.orders
    requires OnRoad(db.fulfilments[o].route, db.fulfilments[o].status, to)
    ensures RowMoved(db, MoveSet(db, moved, to, key), o, to, key + ":" + o)
  {
    ShownIs(db.fulfilments[o].route, db.fulfilments[o].status, to);
  }

  lemma MoveSetMoves(db: Db, moved: set<OrderId>, to: Status, key: string)
    requires forall o <- moved :: o in db.fulfilments && OnRoad(db.fulfilments[o].route, db.fulfilments[o].status, to)
    ensures SetMoved(db, MoveSet(db, moved, to, key), moved, to, key)
  {
    forall o <- moved | o in db.orders ensures RowMoved(db, MoveSet(db, moved, to, key), o, to, key + ":" + o) {
      OneOfSetMoves(db, moved, to, key, o);
    }
  }

  /**
    A bulk call goes through exactly when it is well formed and every one of its
    items moves, each under its own event key; then those rows and no others have
    moved, and otherwise nothing has.
   */
  lemma BulkAnswers(db: Db, provider: Provider, to: Status, key: string, items: seq<Item>)
    ensures var (next, done) := Bulk(db, provider, to, key, items);
            && (done <==> BulkAsked(to, key, items) && forall item <- items :: ItemMoves(db, provider, to, key, item))
            && (!done ==> next == db)
            && (done ==> SetMoved(db, next, set item <- items :: item.order, to, key))
  {
    DoneIff(db, provider, to, key, items);
    if Bulk(db, provider, to, key, items).1 {
      var moved := set item <- items :: item.order;
      assert moved == OrdersOf(items);
      forall o <- moved
        ensures o in db.fulfilments && OnRoad(db.fulfilments[o].route, db.fulfilments[o].status, to)
      {
        var item :| item in items && item.order == o;
        assert ItemMoves(db, provider, to, key, item);
      }
      MoveSetMoves(db, moved, to, key);
    }
  }

  // ----- unsettled orders -----

  /** A cross-border order whose settlement is not released refuses every single call and every bulk call with it. */
  lemma UnsettledIsRefused(db: Db, o: OrderId, provider: Provider, to: Status, expected: nat, key: string,
                           items: seq<Item>)
    requires o in db.fulfilments && o in db.orders
    requires db.fulfilments[o].route == MerchantCrossBorder && !db.orders[o].settled
    ensures Single(db, o, provider, to, expected, key) == (db, Refused)
    ensures (exists i <- items :: i.order == o) ==> Bulk(db, provider, to, key, items) == (db, false)
  {
    if i :| i in items && i.order == o {
      if BulkAccepts(to, key, items) { BulkMovesTheSet(db, provider, to, key, items); }
    }
  }

  // ----- growth of a log, over every operation -----

  ghost predicate Released(db: Db, o: OrderId)
    requires o in db.fulfilments
  {
    o in db.orders && db.orders[o].paid && (db.fulfilments[o].route == MerchantCrossBorder ==> db.orders[o].settled)
  }

  lemma BulkGrowsReleased(db: Db, provider: Provider, to: Status, key: string, items: seq<Item>, o: OrderId)
    requires o in db.fulfilments && BulkAccepts(to, key, items)
    ensures var next := Bulk(db, provider, to, key, items).0;
            o in next.fulfilments && (next.fulfilments[o] != db.fulfilments[o] ==> Released(db, o))
  {
    BulkMovesTheSet(db, provider, to, key, items);
    if AllCanMove(db, provider, to, key, items) && o in OrdersOf(items) {
      var i :| i in items && i.order == o;
      assert CanMove(db, provider, to, key, i);
    }
  }

  lemma AdvanceGrowsReleased(db: Db, id: ManifestId, provider: Provider, to: ManifestStatus, expected: nat, key: string,
                             o: OrderId)
    requires Inv(db) && o in db.fulfilments
    ensures var next := AdvanceManifest(db, id, provider, to, expected, key).0;
            o in next.fulfilments && (next.fulfilments[o] != db.fulfilments[o] ==> Released(db, o))
  {
    assert FulfilmentOk(db.fulfilments[o]) && RowOk(db.fulfilments[o], db.orders[o]);
  }

  lemma StepGrowsReleased(db: Db, op: Op, o: OrderId)
    requires Inv(db) && o in db.fulfilments
    ensures o in Apply(db, op).fulfilments && (Apply(db, op).fulfilments[o] != db.fulfilments[o] ==> Released(db, o))
  {
    match op
    case MoveOne(p, seller, to, expected, key) => SingleAnswers(db, p, seller, to, expected, key);
    case MoveMany(seller, to, key, items) =>
      if BulkAccepts(to, key, items) { BulkGrowsReleased(db, seller, to, key, items, o); }
    case MoveManifest(id, seller, target, expected, key) =>
      AdvanceGrowsReleased(db, id, seller, target, expected, key, o);
    case NewManifest(id, seller, orders) =>
      var started := db.(manifests := db.manifests[id := Manifest(seller, Open, 1, [])]);
      JoinTxLeavesRows(started, id, seller, orders);
    case _ =>
  }

  lemma {:induction false} JoinTxLeavesRows(db: Db, id: ManifestId, provider: Provider, orders: seq<OrderId>)
    ensures var done := JoinTx(db, id, provider, orders);
            done.Some? ==> done.value.fulfilments == db.fulfilments && done.value.orders == db.orders
                           && done.value.manifests == db.manifests
    decreases |orders|
  {
    if orders != [] && Manifestable(db, orders[0], provider) {
      JoinTxLeavesRows(db.(members := db.members[orders[0] := id]), id, provider, orders[1..]);
    }
  }

  /** In any history, an operation that moves a cross-border order finds it paid and its settlement released. */
  lemma MovesOnlyWhenSettled(before: seq<Op>, op: Op, o: OrderId)
    requires var db := Run(EMPTY, before);
             o in db.fulfilments && o in Apply(db, op).fulfilments && Apply(db, op).fulfilments[o] != db.fulfilments[o]
    ensures var db := Run(EMPTY, before);
            && o in db.orders && db.orders[o].paid
            && (db.fulfilments[o].route == MerchantCrossBorder ==> db.orders[o].settled)
  {
    RunKeepsInv(EMPTY, before);
    StepGrowsReleased(Run(EMPTY, before), op, o);
  }

  // ----- manifests -----

  /** What a manifest asks of an order it takes in. */
  predicate Joinable(db: Db, o: OrderId, provider: Provider) {
    && o in db.fulfilments && o in db.orders && db.orders[o].paid && db.orders[o].canonical && db.orders[o].settled
    && db.fulfilments[o].provider == provider && db.fulfilments[o].owner == Merchant
    && db.fulfilments[o].route == MerchantCrossBorder
    && (db.fulfilments[o].status == Pending || db.fulfilments[o].status == Accepted
        || db.fulfilments[o].status == Processing)
    && o !in db.members
  }

  predicate AllDistinct(orders: seq<OrderId>) { forall i, j | 0 <= i < j < |orders| :: orders[i] != orders[j] }

  ghost predicate Joined(db: Db, next: Db, id: ManifestId, orders: seq<OrderId>) {
    && (forall o <- orders :: o in next.members && next.members[o] == id)
    && (forall o | o !in orders ::
          (o in next.members <==> o in db.members) && (o in db.members ==> next.members[o] == db.members[o]))
  }

  lemma {:induction false} JoinTxIff(db: Db, id: ManifestId, provider: Provider, orders: seq<OrderId>)
    requires AllDistinct(orders)
    ensures var done := JoinTx(db, id, provider, orders);
            && (done.Some? <==> forall k | 0 <= k < |orders| :: Joinable(db, orders[k], provider))
            && (done.Some? ==> Joined(db, done.value, id, orders))
    decreases |orders|
  {
    if orders != [] && Manifestable(db, orders[0], provider) {
      var next := db.(members := db.members[orders[0] := id]);
      var rest := orders[1..];
      assert forall k | 0 <= k < |rest| :: rest[k] == orders[k + 1];
      forall k | 0 <= k < |rest| ensures Joinable(next, rest[k], provider) == Joinable(db, rest[k], provider) {}
      JoinTxIff(next, id, provider, rest);
      assert (forall k | 0 <= k < |orders| :: Joinable(db, orders[k], provider)) <==>
             (forall k | 0 <= k < |rest| :: Joinable(db, rest[k], provider)) by {
        if forall k | 0 <= k < |orders| :: Joinable(db, orders[k], provider) {
          forall k | 0 <= k < |rest| ensures Joinable(db, rest[k], provider) {
            assert Joinable(db, orders[k + 1], provider);
          }
        }
        if forall k | 0 <= k < |rest| :: Joinable(db, rest[k], provider) {
          forall k | 0 <= k < |orders| ensures Joinable(db, orders[k], provider) {
            if k > 0 { assert Joinable(db, rest[k - 1], provider); }
          }
        }
      }
      assert forall o :: o in orders <==> o == orders[0] || o in rest;
    }
  }

  /** A manifest is created exactly for 1 to 500 distinct UUIDs that are all joinable; it then holds exactly those. */
  lemma CreateAnswers(db: Db, id: ManifestId, provider: Provider, orders: seq<OrderId>)
    requires id !in db.manifests
    ensures var (next, done) := Create(db, id, provider, orders);
            && (done <==>
                  && 1 <= |orders| <= 500 && AllDistinct(orders)
                  && forall k | 0 <= k < |orders| :: Text.IsUuid(orders[k]) && Joinable(db, orders[k], provider))
            && (!done ==> next == db)
            && (done ==>
                  && next.manifests == db.manifests[id := Manifest(provider, Open, 1, [])]
                  && Joined(db, next, id, orders)
                  && next.fulfilments == db.fulfilments && next.orders == db.orders)
  {
    var started := db.(manifests := db.manifests[id := Manifest(provider, Open, 1, [])]);
    if ManifestAccepts(orders) {
      JoinTxIff(started, id, provider, orders);
      JoinTxLeavesRows(started, id, provider, orders);
      forall k | 0 <= k < |orders|
        ensures Joinable(started, orders[k], provider) == Joinable(db, orders[k], provider)
      {}
    }
  }

  /** A member that stands ready for its manifest's dispatch. */
  predicate Standing(db: Db, id: ManifestId, o: OrderId) {
    && o in db.fulfilments && o in db.orders
    && db.fulfilments[o].status == Processing && db.orders[o].canonical && db.orders[o].settled
    && !KeyUsed(db.fulfilments[o].events, "manifest-dispatch:" + id + ":" + o)
  }

  predicate ManifestKeyUsed(events: seq<ManifestEvent>, key: string) {
    exists i | 0 <= i < |events| :: events[i].key == key
  }

  /** From open to closed or cancelled, from closed to dispatched or cancelled, from dispatched to completed. */
  predicate ManifestEdge(from: ManifestStatus, to: ManifestStatus) {
    || (from == Open && (to == ManifestClosed || to == Cancelled))
    || (from == ManifestClosed && (to == Dispatched || to == Cancelled))
    || (from == Dispatched && to == Completed)
  }

  /** The status that the call with this key moved the manifest to. */
  predicate Reached(events: seq<ManifestEvent>, key: string, status: ManifestStatus) {
    exists i | 0 <= i < |events| :: events[i].key == key && events[i].status == status
  }

  lemma {:induction false} ManifestKeyFound(events: seq<ManifestEvent>, key: string)
    ensures var found := ManifestEventWith(events, key);
            && (found.Some? <==> ManifestKeyUsed(events, key))
            && (found.Some? ==> Reached(events, key, found.value.status))
  {
    if events != [] {
      ManifestKeyFound(events[1..], key);
      var found := ManifestEventWith(events[1..], key);
      if found.Some? {
        var i :| 0 <= i < |events[1..]| && events[1..][i].key == key && events[1..][i].status == found.value.status;
        assert events[i + 1].key == key && events[i + 1].status == found.value.status;
      }
      if i :| 0 <= i < |events[1..]| && events[1..][i].key == key { assert events[i + 1].key == key; }
      if i :| 0 <= i < |events| && events[i].key == key && events[0].key != key {
        assert events[1..][i - 1].key == key;
      }
    }
  }

  /** Every member is dispatched under the manifest's event key, and no other row changes. */
  ghost predicate MembersSent(db: Db, next: Db, id: ManifestId) {
    && next.fulfilments.Keys == db.fulfilments.Keys && next.orders.Keys == db.orders.Keys
    && (forall o <- db.fulfilments | o in db.orders && o in next.fulfilments && o in next.orders ::
          if o in db.members && db.members[o] == id then
            var f := db.fulfilments[o];
            && next.fulfilments[o] == f.(status := DispatchedFromOrigin, version := f.version + 1,
                 events := f.events + [FulfillmentEvent(f.status, DispatchedFromOrigin,
                                                        "manifest-dispatch:" + id + ":" + o)])
            && next.orders[o] == db.orders[o].(stage := AtInternationalHub, status := Paid)
          else next.fulfilments[o] == db.fulfilments[o] && next.orders[o] == db.orders[o])
  }

  ghost predicate AllStanding(db: Db, id: ManifestId) {
    forall o <- db.members | db.members[o] == id :: Standing(db, id, o)
  }

  ghost predicate HasMember(db: Db, id: ManifestId) { exists o <- db.members :: db.members[o] == id }

  lemma RowsAreMembers(db: Db, id: ManifestId)
    requires Inv(db) && id in db.manifests
    ensures forall o :: o in DispatchRows(db, id, db.manifests[id].provider) <==> o in db.members && db.members[o] == id
  {
    forall o <- db.members | db.members[o] == id ensures o in DispatchRows(db, id, db.manifests[id].provider) {
      assert MemberOk(db.fulfilments[o], db.manifests[id]);
    }
  }

  lemma DispatchableIff(db: Db, id: ManifestId)
    requires Inv(db) && id in db.manifests
    ensures Dispatchable(db, id, db.manifests[id].provider) <==> HasMember(db, id) && AllStanding(db, id)
  {
    RowsAreMembers(db, id);
    var rows := DispatchRows(db, id, db.manifests[id].provider);
    forall o <- rows
      ensures Standing(db, id, o) <==>
              db.fulfilments[o].status == Processing && KeyedSettled(db.orders[o])
              && EventWith(db.fulfilments[o].events, DispatchKey(id, o)).None?
    {
      NoneMeansUnused(db.fulfilments[o].events, DispatchKey(id, o));
    }
    if HasMember(db, id) { var o :| o in db.members && db.members[o] == id; assert o in rows; }
    if rows != {} { var o :| o in rows; assert db.members[o] == id; }
  }

  /** A request for one of the seller's own manifests. */
  predicate OwnManifest(db: Db, id: ManifestId, provider: Provider, to: ManifestStatus, expected: nat, key: string) {
    && to != UnknownStatus("") && expected >= 1 && key != ""
    && id in db.manifests && db.manifests[id].provider == provider
  }

  lemma AdvanceIff(db: Db, id: ManifestId, provider: Provider, to: ManifestStatus, expected: nat, key: string)
    ensures var (next, reply) := AdvanceManifest(db, id, provider, to, expected, key);
            var mine := OwnManifest(db, id, provider, to, expected, key);
            && (reply.Advanced? <==>
                  && mine && !ManifestKeyUsed(db.manifests[id].events, key) && db.manifests[id].version == expected
                  && ManifestEdge(db.manifests[id].status, to) && (to == Dispatched ==> Dispatchable(db, id, provider)))
            && (reply.Repeated? <==> mine && ManifestKeyUsed(db.manifests[id].events, key))
            && (reply.Repeated? ==> Reached(db.manifests[id].events, key, reply.status))
            && (!reply.Advanced? ==> next == db)
            && (!reply.Rejected? ==> reply.version == next.manifests[id].version)
  {
    if id in db.manifests { ManifestKeyFound(db.manifests[id].events, key); }
  }

  /**
    A manifest call advances exactly for its own seller, a new key, the current version
    and an allowed edge, and for a dispatch only when every member stands ready; it
    repeats a used key, and otherwise rejects. Only an advance changes anything.
   */
  lemma AdvanceAnswers(db: Db, id: ManifestId, provider: Provider, to: ManifestStatus, expected: nat, key: string)
    requires Inv(db)
    ensures var (next, reply) := AdvanceManifest(db, id, provider, to, expected, key);
            var mine := OwnManifest(db, id, provider, to, expected, key);
            && (reply.Advanced? <==>
                  && mine && !ManifestKeyUsed(db.manifests[id].events, key) && db.manifests[id].version == expected
                  && ManifestEdge(db.manifests[id].status, to)
                  && (to == Dispatched ==> HasMember(db, id) && AllStanding(db, id)))
            && (reply.Repeated? <==> mine && ManifestKeyUsed(db.manifests[id].events, key))
            && (reply.Repeated? ==> Reached(db.manifests[id].events, key, reply.status))
            && (!reply.Advanced? ==> next == db)
            && (!reply.Rejected? ==> id in next.manifests && reply.version == next.manifests[id].version)
  {
    AdvanceIff(db, id, provider, to, expected, key);
    if id in db.manifests { DispatchableIff(db, id); }
  }

  lemma AdvanceEffect(db: Db, id: ManifestId, provider: Provider, to: ManifestStatus, expected: nat, key: string)
    requires Inv(db) && AdvanceManifest(db, id, provider, to, expected, key).1.Advanced?
    ensures var next := AdvanceManifest(db, id, provider, to, expected, key).0;
            var m := db.manifests[id];
            && next.manifests == db.manifests[id :=
                 Manifest(m.provider, to, m.version + 1, m.events + [ManifestEvent(m.status, to, key)])]
            && next.members == db.members
            && (if to == Dispatched then MembersSent(db, next, id)
                else next.fulfilments == db.fulfilments && next.orders == db.orders)
  {
    AdvancedIs(db, id, provider, to, expected, key);
    if to == Dispatched { MembersWereReady(db, id, provider, expected, key); }
  }

  lemma AdvancedIs(db: Db, id: ManifestId, provider: Provider, to: ManifestStatus, expected: nat, key: string)
    requires AdvanceManifest(db, id, provider, to, expected, key).1.Advanced?
    ensures id in db.manifests
    ensures var m := db.manifests[id];
            var shipped := if to == Dispatched then DispatchAll(db, id, DispatchRows(db, id, provider)) else db;
            AdvanceManifest(db, id, provider, to, expected, key).0 == shipped.(manifests := db.manifests[id :=
              Manifest(m.provider, to, m.version + 1, m.events + [ManifestEvent(m.status, to, key)])])
  {}

  lemma MembersWereReady(db: Db, id: ManifestId, provider: Provider, expected: nat, key: string)
    requires Inv(db) && AdvanceManifest(db, id, provider, Dispatched, expected, key).1.Advanced?
    ensures MembersSent(db, DispatchAll(db, id, DispatchRows(db, id, provider)), id)
  {
    RowsAreMembers(db, id);
    forall o <- db.fulfilments | o in db.members && db.members[o] == id
      ensures o in DispatchRows(db, id, provider) && db.fulfilments[o].status == Processing
    {
    }
    SentIs(db, id, DispatchRows(db, id, provider));
  }

  lemma SentIs(db: Db, id: ManifestId, rows: set<OrderId>)
    requires forall o :: o in rows <==> o in db.members && db.members[o] == id
    requires forall o <- rows :: o in db.fulfilments && db.fulfilments[o].status == Processing
    ensures MembersSent(db, DispatchAll(db, id, rows), id)
  {}
}
