/**
  Merchant fulfilment: versioned order state machines with event logs and
  idempotency keys, bulk transitions, and manifests over cross-border orders.
  A handler works on a local copy of the tables and assigns it when it commits.
 */
module Fulfillment {
  import opened Basics
  import Text

  type OrderId = string
  type ManifestId = string
  type Provider = int

  datatype Route = MerchantLocal | MerchantCrossBorder | AtlanticImport
  datatype Owner = Merchant | Atlantic | AtlanticLastMile

  datatype Status =
    | Pending | Accepted | Packed | Processing | DispatchedFromOrigin | InternationalTransit
    | CustomsClearance | LocalHub | ReadyForPickup | OutForDelivery | Delivered
    | Unknown(text: string)

  datatype Stage =
    OrderPlaced | AtInternationalHub | InTransitInternationally | AtLocalHub | StageOutForDelivery | StageDelivered
  datatype OrderStatus = AwaitingPayment | Paid | Shipped | OrderDelivered

  datatype FulfillmentEvent = FulfillmentEvent(previous: Status, status: Status, key: string)

  datatype Fulfilment = Fulfilment(
    provider: Provider, route: Route, owner: Owner, status: Status, version: nat, events: seq<FulfillmentEvent>)

  /**
    An order with the settlement of its one ledger row; `canonical` says whether
    the row's event key spells the order id the way the database prints it.
   */
  datatype OrderRow = OrderRow(paid: bool, canonical: bool, settled: bool, stage: Stage, status: OrderStatus)

  datatype ManifestStatus = Open | ManifestClosed | Dispatched | Completed | Cancelled | UnknownStatus(text: string)
  datatype ManifestEvent = ManifestEvent(previous: ManifestStatus, status: ManifestStatus, key: string)
  datatype Manifest = Manifest(provider: Provider, status: ManifestStatus, version: nat, events: seq<ManifestEvent>)

  datatype Db = Db(
    fulfilments: map<OrderId, Fulfilment>,
    orders: map<OrderId, OrderRow>,
    manifests: map<ManifestId, Manifest>,
    members: map<OrderId, ManifestId>)   // order_id is UNIQUE in merchant_manifest_orders

  datatype Reply = Moved(version: nat) | Replayed(status: Status, version: nat) | Refused
  datatype ManifestReply = Advanced(version: nat) | Repeated(status: ManifestStatus, version: nat) | Rejected

  // ----- the transition graphs -----

  function LocalNext(from: Status): set<Status> {
    match from
    case Pending => {Accepted}
    case Accepted => {Packed}
    case Packed => {ReadyForPickup, OutForDelivery}
    case ReadyForPickup => {Delivered}
    case OutForDelivery => {Delivered}
    case _ => {}
  }

  function CrossBorderNext(from: Status): set<Status> {
    match from
    case Pending => {Accepted}
    case Accepted => {Processing}
    case Processing => {DispatchedFromOrigin}
    case DispatchedFromOrigin => {InternationalTransit}
    case InternationalTransit => {CustomsClearance, LocalHub}
    case CustomsClearance => {LocalHub}
    case LocalHub => {ReadyForPickup, OutForDelivery}
    case ReadyForPickup => {Delivered}
    case OutForDelivery => {Delivered}
    case _ => {}
  }

  predicate ValidTransition(route: Route, owner: Owner, from: Status, to: Status) {
    owner == Merchant &&
    match route
    case MerchantLocal => to in LocalNext(from)
    case MerchantCrossBorder => to in CrossBorderNext(from)
    case AtlanticImport => false
  }

  function LegacyStage(route: Route, status: Status): (Stage, OrderStatus) {
    match status
    case InternationalTransit => (InTransitInternationally, Shipped)
    case CustomsClearance => (InTransitInternationally, Shipped)
    case LocalHub => (AtLocalHub, Shipped)
    case ReadyForPickup => (AtLocalHub, Shipped)
    case OutForDelivery => (StageOutForDelivery, Shipped)
    case Delivered => (StageDelivered, OrderDelivered)
    case Accepted => (if route == MerchantLocal then OrderPlaced else AtInternationalHub, Paid)
    case Packed => (if route == MerchantLocal then OrderPlaced else AtInternationalHub, Paid)
    case Processing => (AtInternationalHub, Paid)
    case DispatchedFromOrigin => (AtInternationalHub, Paid)
    case _ => (OrderPlaced, Paid)
  }

  function StageRank(s: Stage): nat {
    match s
    case OrderPlaced => 0 case AtInternationalHub => 1 case InTransitInternationally => 2
    case AtLocalHub => 3 case StageOutForDelivery => 4 case StageDelivered => 5
  }

  function OrderRank(s: OrderStatus): nat {
    match s case AwaitingPayment => 0 case Paid => 1 case Shipped => 2 case OrderDelivered => 3
  }

  /** Position on the cross-border road; dispatched_from_origin is 3. */
  function Progress(s: Status): nat {
    match s
    case Pending => 0 case Accepted => 1 case Packed => 2 case Processing => 2
    case DispatchedFromOrigin => 3 case InternationalTransit => 4 case CustomsClearance => 5
    case LocalHub => 6 case ReadyForPickup => 7 case OutForDelivery => 7 case Delivered => 8
    case Unknown(_) => 0
  }

  // ----- one order -----

  /** The row both single and bulk transitions select, lock and may act on. */
  predicate Selected(db: Db, o: OrderId, provider: Provider) {
    && o in db.fulfilments && o in db.orders && db.orders[o].paid
    && db.fulfilments[o].provider == provider && db.fulfilments[o].owner == Merchant
  }

  predicate Released(db: Db, o: OrderId)
    requires o in db.fulfilments && o in db.orders
  {
    db.fulfilments[o].route == MerchantCrossBorder ==> db.orders[o].settled
  }

  /** The settlement as manifests read it, by the ledger row's event key. */
  predicate KeyedSettled(row: OrderRow) { row.canonical && row.settled }

  /** The event stored under this key; (fulfillment_id, idempotency_key) is UNIQUE. */
  function EventWith(events: seq<FulfillmentEvent>, key: string): Option<FulfillmentEvent> {
    if events == [] then None
    else if events[0].key == key then Some(events[0])
    else EventWith(events[1..], key)
  }

  function MoveFulfilment(f: Fulfilment, to: Status, key: string): Fulfilment {
    f.(status := to, version := f.version + 1, events := f.events + [FulfillmentEvent(f.status, to, key)])
  }

  function MoveRow(row: OrderRow, route: Route, to: Status): OrderRow {
    row.(stage := LegacyStage(route, to).0, status := LegacyStage(route, to).1)
  }

  function MoveOrder(db: Db, o: OrderId, to: Status, key: string): Db
    requires o in db.fulfilments && o in db.orders
  {
    var f := db.fulfilments[o];
    db.(fulfilments := db.fulfilments[o := MoveFulfilment(f, to, key)],
        orders := db.orders[o := MoveRow(db.orders[o], f.route, to)])
  }

  predicate MayMove(db: Db, o: OrderId, provider: Provider, to: Status, expected: nat) {
    && Selected(db, o, provider) && Released(db, o)
    && db.fulfilments[o].version == expected
    && ValidTransition(db.fulfilments[o].route, db.fulfilments[o].owner, db.fulfilments[o].status, to)
  }

  function Transition(db: Db, o: OrderId, provider: Provider, to: Status, expected: nat, key: string): (Db, Reply) {
    if !Selected(db, o, provider) || !Released(db, o) then (db, Refused)
    else
      var replay := EventWith(db.fulfilments[o].events, key);
      if replay.Some? then (db, Replayed(replay.value.status, db.fulfilments[o].version))
      else if !MayMove(db, o, provider, to, expected) then (db, Refused)
      else (MoveOrder(db, o, to, key), Moved(expected + 1))
  }

  /** The checks on a single request before its transaction begins. */
  predicate SingleAccepts(to: Status, expected: nat, key: string) {
    to != Unknown("") && expected >= 1 && 1 <= |key| <= 160
  }

  function Single(db: Db, o: OrderId, provider: Provider, to: Status, expected: nat, key: string): (Db, Reply) {
    if !SingleAccepts(to, expected, key) then (db, Refused) else Transition(db, o, provider, to, expected, key)
  }

  // ----- bulk -----

  datatype Item = Item(order: OrderId, expected: nat)

  function ItemKey(key: string, o: OrderId): string { key + ":" + o }

  predicate Distinct(items: seq<Item>) {
    forall i, j | 0 <= i < j < |items| :: items[i].order != items[j].order
  }

  /** The item goes through: its transition is allowed and its event key is free. */
  predicate CanMove(db: Db, provider: Provider, to: Status, key: string, item: Item) {
    && MayMove(db, item.order, provider, to, item.expected)
    && EventWith(db.fulfilments[item.order].events, ItemKey(key, item.order)).None?
  }

  /** The transaction of a bulk call; None when it rolls back. */
  function BulkTx(db: Db, provider: Provider, to: Status, key: string, items: seq<Item>): Option<Db>
    decreases |items|
  {
    if items == [] then Some(db)
    else if !CanMove(db, provider, to, key, items[0]) then None
    else BulkTx(MoveOrder(db, items[0].order, to, ItemKey(key, items[0].order)), provider, to, key, items[1..])
  }

  predicate BulkAccepts(to: Status, key: string, items: seq<Item>) {
    && 1 <= |items| <= 200 && to != Unknown("") && 1 <= |key| <= 100 && Distinct(items)
    && forall k | 0 <= k < |items| :: Text.IsUuid(items[k].order) && items[k].expected >= 1
  }

  function Bulk(db: Db, provider: Provider, to: Status, key: string, items: seq<Item>): (Db, bool) {
    var done := if BulkAccepts(to, key, items) then BulkTx(db, provider, to, key, items) else None;
    if done.Some? then (done.value, true) else (db, false)
  }

  // ----- manifests -----

  predicate Manifestable(db: Db, o: OrderId, provider: Provider) {
    && Selected(db, o, provider)
    && db.fulfilments[o].route == MerchantCrossBorder
    && db.fulfilments[o].status in {Pending, Accepted, Processing}
    && KeyedSettled(db.orders[o])
    && o !in db.members
  }

  function JoinTx(db: Db, id: ManifestId, provider: Provider, orders: seq<OrderId>): Option<Db>
    decreases |orders|
  {
    if orders == [] then Some(db)
    else if !Manifestable(db, orders[0], provider) then None
    else JoinTx(db.(members := db.members[orders[0] := id]), id, provider, orders[1..])
  }

  predicate ManifestAccepts(orders: seq<OrderId>) {
    && 1 <= |orders| <= 500 && (forall k | 0 <= k < |orders| :: Text.IsUuid(orders[k]))
    && (forall i, j | 0 <= i < j < |orders| :: orders[i] != orders[j])
  }

  function Create(db: Db, id: ManifestId, provider: Provider, orders: seq<OrderId>): (Db, bool) {
    var started := db.(manifests := db.manifests[id := Manifest(provider, Open, 1, [])]);
    var done := if ManifestAccepts(orders) then JoinTx(started, id, provider, orders) else None;
    if done.Some? then (done.value, true) else (db, false)
  }

  function ManifestNext(from: ManifestStatus): set<ManifestStatus> {
    match from
    case Open => {ManifestClosed, Cancelled}
    case ManifestClosed => {Dispatched, Cancelled}
    case Dispatched => {Completed}
    case _ => {}
  }

  function ManifestEventWith(events: seq<ManifestEvent>, key: string): Option<ManifestEvent> {
    if events == [] then None
    else if events[0].key == key then Some(events[0])
    else ManifestEventWith(events[1..], key)
  }

  /** The rows the dispatch query joins and locks. */
  function DispatchRows(db: Db, id: ManifestId, provider: Provider): set<OrderId> {
    set o <- db.members | db.members[o] == id && o in db.fulfilments && o in db.orders
      && db.fulfilments[o].provider == provider && db.fulfilments[o].route == MerchantCrossBorder
      && db.fulfilments[o].owner == Merchant
  }

  function DispatchKey(id: ManifestId, o: OrderId): string { "manifest-dispatch:" + id + ":" + o }

  predicate Dispatchable(db: Db, id: ManifestId, provider: Provider) {
    var rows := DispatchRows(db, id, provider);
    && rows != {}
    && forall o <- rows ::
         && db.fulfilments[o].status == Processing && KeyedSettled(db.orders[o])
         && EventWith(db.fulfilments[o].events, DispatchKey(id, o)).None?
  }

  function DispatchAll(db: Db, id: ManifestId, rows: set<OrderId>): Db {
    db.(fulfilments := map o <- db.fulfilments ::
          if o in rows then MoveFulfilment(db.fulfilments[o], DispatchedFromOrigin, DispatchKey(id, o))
          else db.fulfilments[o],
        orders := map o <- db.orders ::
          if o in rows then MoveRow(db.orders[o], MerchantCrossBorder, DispatchedFromOrigin) else db.orders[o])
  }

  function MoveManifestRow(db: Db, id: ManifestId, to: ManifestStatus, key: string): Db
    requires id in db.manifests
  {
    var m := db.manifests[id];
    db.(manifests := db.manifests[id :=
      m.(status := to, version := m.version + 1, events := m.events + [ManifestEvent(m.status, to, key)])])
  }

  function AdvanceManifest(db: Db, id: ManifestId, provider: Provider, to: ManifestStatus, expected: nat, key: string)
    : (Db, ManifestReply)
  {
    if to == UnknownStatus("") || expected < 1 || key == "" then (db, Rejected)
    else if id !in db.manifests || db.manifests[id].provider != provider then (db, Rejected)
    else
      var m := db.manifests[id];
      var replay := ManifestEventWith(m.events, key);
      if replay.Some? then (db, Repeated(replay.value.status, m.version))
      else if m.version != expected || to !in ManifestNext(m.status) then (db, Rejected)
      else if to == Dispatched && !Dispatchable(db, id, provider) then (db, Rejected)
      else
        var shipped := if to == Dispatched then DispatchAll(db, id, DispatchRows(db, id, provider)) else db;
        (MoveManifestRow(shipped, id, to, key), Advanced(expected + 1))
  }

  // ----- runs -----

  datatype Op =
    | NewOrder(id: OrderId, seller: Provider, route: Route)
    | Pay(id: OrderId, canonical: bool)   // settlement writes the order's ledger row
    | Settle(id: OrderId, settled: bool)   // the settlement import may release or revoke
    | MoveOne(id: OrderId, seller: Provider, to: Status, expected: nat, key: string)
    | MoveMany(seller: Provider, to: Status, key: string, items: seq<Item>)
    | NewManifest(manifest: ManifestId, seller: Provider, orders: seq<OrderId>)
    | MoveManifest(manifest: ManifestId, seller: Provider, target: ManifestStatus, expected: nat, key: string)

  function Apply(db: Db, op: Op): Db {
    match op
    case NewOrder(o, seller, route) =>
      if o in db.orders || o in db.fulfilments then db
      else db.(fulfilments := db.fulfilments[o := Fulfilment(seller, route, Merchant, Pending, 1, [])],
               orders := db.orders[o := OrderRow(false, false, false, OrderPlaced, AwaitingPayment)])
    case Pay(o, canonical) =>
      if o in db.orders && !db.orders[o].paid
      then db.(orders := db.orders[o := db.orders[o].(paid := true, canonical := canonical, status := Paid)])
      else db
    case Settle(o, settled) =>
      if o in db.orders && db.orders[o].paid then db.(orders := db.orders[o := db.orders[o].(settled := settled)])
      else db
    case MoveOne(o, seller, to, expected, key) => Single(db, o, seller, to, expected, key).0
    case MoveMany(seller, to, key, items) => Bulk(db, seller, to, key, items).0
    case NewManifest(id, seller, orders) => if id in db.manifests then db else Create(db, id, seller, orders).0
    case MoveManifest(id, seller, target, expected, key) => AdvanceManifest(db, id, seller, target, expected, key).0
  }

  function Run(db: Db, ops: seq<Op>): Db
    decreases |ops|
  {
    if ops == [] then db else Run(Apply(db, ops[0]), ops[1..])
  }

  const EMPTY := Db(map[], map[], map[], map[])

  // ----- the invariant -----

  /** The events lead from `from` to `to` along edges of the route graph without a gap. */
  ghost predicate Path(route: Route, owner: Owner, from: Status, events: seq<FulfillmentEvent>, to: Status)
    decreases |events|
  {
    if events == [] then from == to
    else
      && events[0].previous == from
      && ValidTransition(route, owner, from, events[0].status)
      && Path(route, owner, events[0].status, events[1..], to)
  }

  ghost predicate FulfilmentOk(f: Fulfilment) {
    && Path(f.route, f.owner, Pending, f.events, f.status)
    && f.version == 1 + |f.events|
    && (forall i, j | 0 <= i < j < |f.events| :: f.events[i].key != f.events[j].key)
  }

  ghost predicate RowOk(f: Fulfilment, row: OrderRow) {
    && row.stage == LegacyStage(f.route, f.status).0
    && (row.paid ==> row.status == LegacyStage(f.route, f.status).1)
    && (!row.paid ==> row.status == AwaitingPayment && f.events == [])
  }

  /** A member belongs to its manifest's seller, and is on the road once the manifest is. */
  ghost predicate MemberOk(f: Fulfilment, m: Manifest) {
    && f.provider == m.provider && f.route == MerchantCrossBorder && f.owner == Merchant
    && (m.status in {Dispatched, Completed} ==> Progress(f.status) >= 3)
  }

  ghost predicate RowsOk(db: Db) {
    && db.fulfilments.Keys == db.orders.Keys
    && (forall o <- db.fulfilments :: FulfilmentOk(db.fulfilments[o]) && RowOk(db.fulfilments[o], db.orders[o]))
  }

  ghost predicate MembersOk(db: Db) {
    forall o <- db.members ::
      && o in db.fulfilments && db.members[o] in db.manifests
      && MemberOk(db.fulfilments[o], db.manifests[db.members[o]])
  }

  ghost predicate Inv(db: Db) { RowsOk(db) && MembersOk(db) }

  /** What time does to one order: its log is extended and nothing goes back. */
  ghost predicate OrderGrew(f: Fulfilment, row: OrderRow, later: Fulfilment, laterRow: OrderRow) {
    && later.provider == f.provider && later.route == f.route && later.owner == f.owner
    && f.events <= later.events
    && (row.paid ==> laterRow.paid && laterRow.canonical == row.canonical)
    && StageRank(row.stage) <= StageRank(laterRow.stage)
    && OrderRank(row.status) <= OrderRank(laterRow.status)
    && Progress(f.status) <= Progress(later.status)
  }

  ghost predicate RowsGrew(db: Db, later: Db) {
    forall o <- db.fulfilments | o in db.orders ::
      && o in later.fulfilments && o in later.orders
      && OrderGrew(db.fulfilments[o], db.orders[o], later.fulfilments[o], later.orders[o])
  }

  ghost predicate ManifestsGrew(db: Db, later: Db) {
    && (forall o <- db.members :: o in later.members && later.members[o] == db.members[o])
    && (forall id <- db.manifests :: id in later.manifests
          && later.manifests[id].provider == db.manifests[id].provider
          && db.manifests[id].events <= later.manifests[id].events)
  }

  ghost predicate Kept(db: Db, next: Db) { Inv(next) && RowsGrew(db, next) && ManifestsGrew(db, next) }

  // ----- one order -----

  lemma {:induction false} PathGrows(route: Route, owner: Owner, from: Status, events: seq<FulfillmentEvent>,
                                     mid: Status, e: FulfillmentEvent)
    requires Path(route, owner, from, events, mid)
    requires e.previous == mid && ValidTransition(route, owner, mid, e.status)
    ensures Path(route, owner, from, events + [e], e.status)
    decreases |events|
  {
    if events == [] {
      assert events + [e] == [e];
      assert Path(route, owner, e.status, [e][1..], e.status);
    } else {
      PathGrows(route, owner, events[0].status, events[1..], mid, e);
      assert (events + [e])[1..] == events[1..] + [e];
    }
  }

  lemma {:induction false} NoneMeansUnused(events: seq<FulfillmentEvent>, key: string)
    ensures EventWith(events, key).None? <==> forall i | 0 <= i < |events| :: events[i].key != key
  {
    if events != [] {
      NoneMeansUnused(events[1..], key);
      if EventWith(events[1..], key).None? && events[0].key != key {
        forall i | 0 <= i < |events| ensures events[i].key != key {
          if i > 0 { assert events[i] == events[1..][i - 1]; }
        }
      } else if events[0].key != key {
        var i :| 0 <= i < |events[1..]| && events[1..][i].key == key;
        assert events[i + 1].key == key;
      }
    }
  }

  lemma EdgeGoesForward(route: Route, owner: Owner, from: Status, to: Status)
    requires ValidTransition(route, owner, from, to)
    ensures Progress(from) < Progress(to)
    ensures StageRank(LegacyStage(route, from).0) <= StageRank(LegacyStage(route, to).0)
    ensures OrderRank(LegacyStage(route, from).1) <= OrderRank(LegacyStage(route, to).1)
  {
    if route == MerchantLocal { assert to in LocalNext(from); } else { assert to in CrossBorderNext(from); }
  }

  lemma MoveKeeps(f: Fulfilment, row: OrderRow, to: Status, key: string)
    requires FulfilmentOk(f) && RowOk(f, row) && row.paid
    requires ValidTransition(f.route, f.owner, f.status, to)
    requires EventWith(f.events, key).None?
    ensures FulfilmentOk(MoveFulfilment(f, to, key)) && RowOk(MoveFulfilment(f, to, key), MoveRow(row, f.route, to))
    ensures OrderGrew(f, row, MoveFulfilment(f, to, key), MoveRow(row, f.route, to))
    ensures Progress(f.status) < Progress(to)
  {
    PathGrows(f.route, f.owner, Pending, f.events, f.status, FulfillmentEvent(f.status, to, key));
    NoneMeansUnused(f.events, key);
    EdgeGoesForward(f.route, f.owner, f.status, to);
  }

  // ----- steps keep the invariant -----

  /** Replacing one order by a grown one keeps everything else. */
  lemma ReplaceKeeps(db: Db, o: OrderId, f: Fulfilment, row: OrderRow)
    requires Inv(db) && o in db.fulfilments && FulfilmentOk(f) && RowOk(f, row)
    requires OrderGrew(db.fulfilments[o], db.orders[o], f, row)
    ensures Kept(db, db.(fulfilments := db.fulfilments[o := f], orders := db.orders[o := row]))
  {}

  lemma MoveOrderKeeps(db: Db, o: OrderId, to: Status, key: string)
    requires Inv(db) && o in db.fulfilments && db.orders[o].paid
    requires ValidTransition(db.fulfilments[o].route, db.fulfilments[o].owner, db.fulfilments[o].status, to)
    requires EventWith(db.fulfilments[o].events, key).None?
    ensures Kept(db, MoveOrder(db, o, to, key))
  {
    var f, row := db.fulfilments[o], db.orders[o];
    MoveKeeps(f, row, to, key);
    ReplaceKeeps(db, o, MoveFulfilment(f, to, key), MoveRow(row, f.route, to));
  }

  lemma TransitionKeeps(db: Db, o: OrderId, seller: Provider, to: Status, expected: nat, key: string)
    requires Inv(db)
    ensures Kept(db, Transition(db, o, seller, to, expected, key).0)
  {
    if Transition(db, o, seller, to, expected, key).1.Moved? { MoveOrderKeeps(db, o, to, key); }
  }

  lemma KeptTwice(a: Db, b: Db, c: Db)
    requires Kept(a, b) && Kept(b, c)
    ensures Kept(a, c)
  {}

  lemma {:induction false} BulkTxLeavesManifests(db: Db, provider: Provider, to: Status, key: string, items: seq<Item>)
    ensures var done := BulkTx(db, provider, to, key, items);
            done.Some? ==> done.value.members == db.members && done.value.manifests == db.manifests
    decreases |items|
  {
    if items != [] && CanMove(db, provider, to, key, items[0]) {
      BulkTxLeavesManifests(MoveOrder(db, items[0].order, to, ItemKey(key, items[0].order)), provider, to, key,
                            items[1..]);
    }
  }

  lemma {:induction false} BulkTxKeeps(db: Db, provider: Provider, to: Status, key: string, items: seq<Item>, after: Db)
    requires Inv(db) && BulkTx(db, provider, to, key, items) == Some(after)
    ensures Kept(db, after)
    decreases |items|
  {
    if items != [] {
      var o := items[0].order;
      var next := MoveOrder(db, o, to, ItemKey(key, o));
      MoveOrderKeeps(db, o, to, ItemKey(key, o));
      BulkTxKeeps(next, provider, to, key, items[1..], after);
      KeptTwice(db, next, after);
    }
  }

  lemma BulkKeeps(db: Db, provider: Provider, to: Status, key: string, items: seq<Item>)
    requires Inv(db)
    ensures Kept(db, Bulk(db, provider, to, key, items).0)
  {
    if Bulk(db, provider, to, key, items).1 {
      BulkTxKeeps(db, provider, to, key, items, BulkTx(db, provider, to, key, items).value);
    }
  }

  lemma {:induction false} JoinTxKeeps(db: Db, id: ManifestId, provider: Provider, orders: seq<OrderId>)
    requires Inv(db) && id in db.manifests
    requires db.manifests[id].provider == provider && db.manifests[id].status == Open
    ensures var done := JoinTx(db, id, provider, orders);
            done.Some? ==> (
              && Inv(done.value) && done.value.manifests == db.manifests
              && done.value.fulfilments == db.fulfilments && done.value.orders == db.orders
              && forall o <- db.members :: o in done.value.members && done.value.members[o] == db.members[o])
    decreases |orders|
  {
    if orders != [] && Manifestable(db, orders[0], provider) {
      var next := db.(members := db.members[orders[0] := id]);
      assert MembersOk(next);
      JoinTxKeeps(next, id, provider, orders[1..]);
    }
  }

  /** One member row of a dispatch. */
  lemma DispatchRowKeeps(db: Db, id: ManifestId, o: OrderId)
    requires Inv(db) && id in db.manifests && Dispatchable(db, id, db.manifests[id].provider)
    requires o in DispatchRows(db, id, db.manifests[id].provider)
    ensures var f, row := db.fulfilments[o], db.orders[o];
            var g := MoveFulfilment(f, DispatchedFromOrigin, DispatchKey(id, o));
            var after := MoveRow(row, MerchantCrossBorder, DispatchedFromOrigin);
            FulfilmentOk(g) && RowOk(g, after) && OrderGrew(f, row, g, after)
  {
    var f, row := db.fulfilments[o], db.orders[o];
    assert FulfilmentOk(f) && RowOk(f, row);
    assert f.status == Processing && f.route == MerchantCrossBorder && f.owner == Merchant;
    assert row.paid;
    assert DispatchedFromOrigin in CrossBorderNext(Processing);
    MoveKeeps(f, row, DispatchedFromOrigin, DispatchKey(id, o));
  }

  lemma DispatchKeeps(db: Db, id: ManifestId)
    requires Inv(db) && id in db.manifests && Dispatchable(db, id, db.manifests[id].provider)
    ensures var next := DispatchAll(db, id, DispatchRows(db, id, db.manifests[id].provider));
            RowsOk(next) && RowsGrew(db, next)
  {
    var rows := DispatchRows(db, id, db.manifests[id].provider);
    var next := DispatchAll(db, id, rows);
    forall o <- db.fulfilments
      ensures FulfilmentOk(next.fulfilments[o]) && RowOk(next.fulfilments[o], next.orders[o])
      ensures OrderGrew(db.fulfilments[o], db.orders[o], next.fulfilments[o], next.orders[o])
    {
      if o in rows {
        DispatchRowKeeps(db, id, o);
      } else {
        assert FulfilmentOk(db.fulfilments[o]) && RowOk(db.fulfilments[o], db.orders[o]);
      }
    }
    assert next.fulfilments.Keys == db.fulfilments.Keys == next.orders.Keys;
  }

  lemma DispatchReachesAll(db: Db, id: ManifestId)
    requires Inv(db) && id in db.manifests
    ensures var next := DispatchAll(db, id, DispatchRows(db, id, db.manifests[id].provider));
            forall o <- db.members | db.members[o] == id :: next.fulfilments[o].status == DispatchedFromOrigin
  {}

  /** With the rows settled, a manifest's own change keeps the member rule if its members are far enough. */
  lemma ManifestMoveKeeps(db: Db, mid: Db, id: ManifestId, to: ManifestStatus, key: string)
    requires Inv(db) && id in db.manifests && RowsOk(mid) && RowsGrew(db, mid)
    requires mid.members == db.members && mid.manifests == db.manifests
    requires to in {Dispatched, Completed} ==>
      forall o <- db.members | db.members[o] == id :: o in mid.fulfilments && Progress(mid.fulfilments[o].status) >= 3
    ensures Kept(db, MoveManifestRow(mid, id, to, key))
  {}

  lemma DispatchAdvanceKeeps(db: Db, id: ManifestId, key: string)
    requires Inv(db) && id in db.manifests && Dispatchable(db, id, db.manifests[id].provider)
    ensures var shipped := DispatchAll(db, id, DispatchRows(db, id, db.manifests[id].provider));
            Kept(db, MoveManifestRow(shipped, id, Dispatched, key))
  {
    DispatchKeeps(db, id);
    DispatchReachesAll(db, id);
    ManifestMoveKeeps(db, DispatchAll(db, id, DispatchRows(db, id, db.manifests[id].provider)), id, Dispatched, key);
  }

  lemma PlainAdvanceKeeps(db: Db, id: ManifestId, to: ManifestStatus, key: string)
    requires Inv(db) && id in db.manifests && to in ManifestNext(db.manifests[id].status) && to != Dispatched
    ensures Kept(db, MoveManifestRow(db, id, to, key))
  {}

  lemma AdvanceKeeps(db: Db, id: ManifestId, provider: Provider, to: ManifestStatus, expected: nat, key: string)
    requires Inv(db)
    ensures Kept(db, AdvanceManifest(db, id, provider, to, expected, key).0)
  {
    if !AdvanceManifest(db, id, provider, to, expected, key).1.Advanced? {
    } else if to == Dispatched {
      DispatchAdvanceKeeps(db, id, key);
    } else {
      PlainAdvanceKeeps(db, id, to, key);
    }
  }

  /** Adding an order nobody refers to yet. */
  lemma AddRowKeeps(db: Db, o: OrderId, f: Fulfilment, row: OrderRow)
    requires RowsOk(db) && o !in db.fulfilments && FulfilmentOk(f) && RowOk(f, row)
    ensures var next := db.(fulfilments := db.fulfilments[o := f], orders := db.orders[o := row]);
            RowsOk(next) && RowsGrew(db, next)
  {}

  lemma NewOrderKeeps(db: Db, o: OrderId, seller: Provider, route: Route)
    requires Inv(db)
    ensures Kept(db, Apply(db, NewOrder(o, seller, route)))
  {
    if o !in db.fulfilments && o !in db.orders {
      var f, row := Fulfilment(seller, route, Merchant, Pending, 1, []),
          OrderRow(false, false, false, OrderPlaced, AwaitingPayment);
      AddRowKeeps(db, o, f, row);
      var next := Apply(db, NewOrder(o, seller, route));
      forall p <- next.members
        ensures p in next.fulfilments && next.members[p] in next.manifests
        ensures MemberOk(next.fulfilments[p], next.manifests[next.members[p]])
      {
        assert MemberOk(db.fulfilments[p], db.manifests[db.members[p]]);
      }
      assert MembersOk(next);
    }
  }

  lemma PayKeeps(db: Db, o: OrderId, canonical: bool)
    requires Inv(db)
    ensures Kept(db, Apply(db, Pay(o, canonical)))
  {
    if o in db.orders && !db.orders[o].paid {
      var f, row := db.fulfilments[o], db.orders[o];
      assert FulfilmentOk(f) && RowOk(f, row);
      assert f.status == Pending;
      ReplaceKeeps(db, o, f, row.(paid := true, canonical := canonical, status := Paid));
      assert db.fulfilments[o := f] == db.fulfilments;
    }
  }

  lemma SettleKeeps(db: Db, o: OrderId, settled: bool)
    requires Inv(db)
    ensures Kept(db, Apply(db, Settle(o, settled)))
  {
    if o in db.orders && db.orders[o].paid {
      var f, row := db.fulfilments[o], db.orders[o];
      assert FulfilmentOk(f) && RowOk(f, row);
      ReplaceKeeps(db, o, f, row.(settled := settled));
      assert db.fulfilments[o := f] == db.fulfilments;
    }
  }

  lemma CreateKeeps(db: Db, id: ManifestId, seller: Provider, orders: seq<OrderId>)
    requires Inv(db) && id !in db.manifests
    ensures var next := Create(db, id, seller, orders).0;
            Kept(db, next) && forall m <- db.manifests :: next.manifests[m] == db.manifests[m]
  {
    var started := db.(manifests := db.manifests[id := Manifest(seller, Open, 1, [])]);
    assert RowsOk(started);
    assert MembersOk(started);
    JoinTxKeeps(started, id, seller, orders);
  }

  /** Every step keeps the invariant, only extends logs and never moves an order back. */
  lemma StepKeepsInv(db: Db, op: Op)
    requires Inv(db)
    ensures Kept(db, Apply(db, op))
  {
    match op
    case NewOrder(o, seller, route) => NewOrderKeeps(db, o, seller, route);
    case Pay(o, canonical) => PayKeeps(db, o, canonical);
    case Settle(o, settled) => SettleKeeps(db, o, settled);
    case MoveOne(o, seller, to, expected, key) => TransitionKeeps(db, o, seller, to, expected, key);
    case MoveMany(seller, to, key, items) => BulkKeeps(db, seller, to, key, items);
    case NewManifest(id, seller, orders) => if id !in db.manifests { CreateKeeps(db, id, seller, orders); }
    case MoveManifest(id, seller, target, expected, key) => AdvanceKeeps(db, id, seller, target, expected, key);
  }

  lemma {:induction false} RunKeepsInv(db: Db, ops: seq<Op>)
    requires Inv(db)
    ensures Kept(db, Run(db, ops))
    decreases |ops|
  {
    if ops != [] {
      var next := Apply(db, ops[0]);
      StepKeepsInv(db, ops[0]);
      RunKeepsInv(next, ops[1..]);
      KeptTwice(db, next, Run(next, ops[1..]));
    }
  }

  // ----- main results -----

  /** Over any history, each log is an unbroken path from pending in its route graph and the version counts it. */
  lemma LogsOverAnyRun(ops: seq<Op>, o: OrderId)
    requires o in Run(EMPTY, ops).fulfilments
    ensures var f := Run(EMPTY, ops).fulfilments[o];
            && Path(f.route, f.owner, Pending, f.events, f.status)
            && f.version == 1 + |f.events|
            && forall i, j | 0 <= i < j < |f.events| :: f.events[i].key != f.events[j].key
  {
    RunKeepsInv(EMPTY, ops);
    assert FulfilmentOk(Run(EMPTY, ops).fulfilments[o]);
  }

  lemma {:induction false} RunSplits(db: Db, before: seq<Op>, after: seq<Op>)
    ensures Run(db, before + after) == Run(Run(db, before), after)
    decreases |before|
  {
    if before == [] {
      assert before + after == after;
    } else {
      RunSplits(Apply(db, before[0]), before[1..], after);
      assert (before + after)[1..] == before[1..] + after;
    }
  }

  /**
    Between any two moments of a history the version grows by the number of new
    events and the stage never goes back.
   */
  lemma StageNeverGoesBack(before: seq<Op>, after: seq<Op>, o: OrderId)
    requires o in Run(EMPTY, before).fulfilments
    ensures var early, late := Run(EMPTY, before), Run(EMPTY, before + after);
            && o in early.orders && o in late.fulfilments && o in late.orders
            && early.fulfilments[o].events <= late.fulfilments[o].events
            && late.fulfilments[o].version - early.fulfilments[o].version
               == |late.fulfilments[o].events| - |early.fulfilments[o].events|
            && StageRank(early.orders[o].stage) <= StageRank(late.orders[o].stage)
            && OrderRank(early.orders[o].status) <= OrderRank(late.orders[o].status)
            && (early.fulfilments[o].events < late.fulfilments[o].events ==>
                  Progress(early.fulfilments[o].status) < Progress(late.fulfilments[o].status))
  {
    var early := Run(EMPTY, before);
    RunKeepsInv(EMPTY, before);
    RunSplits(EMPTY, before, after);
    RunKeepsInv(early, after);
    var late := Run(early, after);
    var f, g := early.fulfilments[o], late.fulfilments[o];
    assert OrderGrew(f, early.orders[o], g, late.orders[o]);
    assert FulfilmentOk(f) && FulfilmentOk(g);
    if f.events < g.events {
      assert g.events == f.events + g.events[|f.events|..];
      PathSplits(f.route, f.owner, Pending, f.events, f.status, g.events[|f.events|..], g.status);
      PathRises(f.route, f.owner, f.status, g.events[|f.events|..], g.status);
    }
  }

  lemma {:induction false} PathSplits(route: Route, owner: Owner, from: Status, head: seq<FulfillmentEvent>,
                                      mid: Status, tail: seq<FulfillmentEvent>, to: Status)
    requires Path(route, owner, from, head, mid) && Path(route, owner, from, head + tail, to)
    ensures Path(route, owner, mid, tail, to)
    decreases |head|
  {
    if head == [] {
      assert head + tail == tail;
    } else {
      assert (head + tail)[1..] == head[1..] + tail;
      PathSplits(route, owner, head[0].status, head[1..], mid, tail, to);
    }
  }

  lemma {:induction false} PathRises(route: Route, owner: Owner, from: Status, events: seq<FulfillmentEvent>,
                                     to: Status)
    requires Path(route, owner, from, events, to)
    ensures Progress(from) + |events| <= Progress(to)
    decreases |events|
  {
    if events != [] {
      EdgeGoesForward(route, owner, from, events[0].status);
      PathRises(route, owner, events[0].status, events[1..], to);
    }
  }

  /** In any history the buyer-facing order status of a paid order says exactly how far its fulfilment is. */
  lemma OrderStatusFollowsProgress(ops: seq<Op>, o: OrderId)
    requires o in Run(EMPTY, ops).orders && Run(EMPTY, ops).orders[o].paid
    ensures var db := Run(EMPTY, ops);
            && o in db.fulfilments
            && (db.orders[o].status == Shipped <==> 4 <= Progress(db.fulfilments[o].status) <= 7)
            && (db.orders[o].status == OrderDelivered <==> db.fulfilments[o].status == Delivered)
            && (db.orders[o].stage == StageDelivered <==> db.fulfilments[o].status == Delivered)
            && (db.orders[o].stage == StageOutForDelivery <==> db.fulfilments[o].status == OutForDelivery)
            && (db.orders[o].stage == InTransitInternationally <==> 4 <= Progress(db.fulfilments[o].status) <= 5)
  {
    RunKeepsInv(EMPTY, ops);
    RowFollowsProgress(Run(EMPTY, ops).fulfilments[o], Run(EMPTY, ops).orders[o]);
  }

  lemma RowFollowsProgress(f: Fulfilment, row: OrderRow)
    requires RowOk(f, row) && row.paid
    ensures row.status == Shipped <==> 4 <= Progress(f.status) <= 7
    ensures row.status == OrderDelivered <==> f.status == Delivered
    ensures row.stage == StageDelivered <==> f.status == Delivered
    ensures row.stage == StageOutForDelivery <==> f.status == OutForDelivery
    ensures row.stage == InTransitInternationally <==> 4 <= Progress(f.status) <= 5
  {}

  /** In any history, the members of a dispatched or completed manifest are at or past dispatched_from_origin. */
  lemma DispatchedMembersAreOnTheRoad(ops: seq<Op>, o: OrderId)
    requires var db := Run(EMPTY, ops); o in db.members && db.members[o] in db.manifests
    requires var db := Run(EMPTY, ops); db.manifests[db.members[o]].status in {Dispatched, Completed}
    ensures var db := Run(EMPTY, ops);
            o in db.fulfilments && Progress(db.fulfilments[o].status) >= Progress(DispatchedFromOrigin)
  {
    RunKeepsInv(EMPTY, ops);
    var db := Run(EMPTY, ops);
    assert MemberOk(db.fulfilments[o], db.manifests[db.members[o]]);
  }

  /** Once an order is in a manifest it stays in that one and joins no other. */
  lemma OneManifestPerOrder(before: seq<Op>, after: seq<Op>, o: OrderId)
    requires o in Run(EMPTY, before).members
    ensures var late := Run(EMPTY, before + after);
            o in late.members && late.members[o] == Run(EMPTY, before).members[o]
  {
    RunKeepsInv(EMPTY, before);
    RunSplits(EMPTY, before, after);
    RunKeepsInv(Run(EMPTY, before), after);
  }

  // ----- a bulk transition equals its single transitions -----

  /** The same items as single calls in one transaction, each of which must move its order. */
  function SinglesTx(db: Db, provider: Provider, to: Status, key: string, items: seq<Item>): Option<Db>
    decreases |items|
  {
    if items == [] then Some(db)
    else
      var step := Single(db, items[0].order, provider, to, items[0].expected, ItemKey(key, items[0].order));
      if step.1.Moved? then SinglesTx(step.0, provider, to, key, items[1..]) else None
  }

  ghost function OrdersOf(items: seq<Item>): set<OrderId> { set i <- items :: i.order }

  /** All the orders moved at once, each from its own row. */
  ghost function MoveSet(db: Db, orders: set<OrderId>, to: Status, key: string): Db {
    db.(fulfilments := map o <- db.fulfilments ::
          if o in orders then MoveFulfilment(db.fulfilments[o], to, ItemKey(key, o)) else db.fulfilments[o],
        orders := map o <- db.orders ::
          if o in orders && o in db.fulfilments then MoveRow(db.orders[o], db.fulfilments[o].route, to)
          else db.orders[o])
  }

  ghost predicate AllCanMove(db: Db, provider: Provider, to: Status, key: string, items: seq<Item>) {
    forall i <- items :: CanMove(db, provider, to, key, i)
  }

  lemma OthersStillCanMove(db: Db, provider: Provider, to: Status, key: string, head: Item, item: Item)
    requires CanMove(db, provider, to, key, head) && item.order != head.order
    ensures CanMove(MoveOrder(db, head.order, to, ItemKey(key, head.order)), provider, to, key, item)
       <==> CanMove(db, provider, to, key, item)
  {}

  lemma TailIsDistinct(items: seq<Item>)
    requires items != [] && Distinct(items)
    ensures Distinct(items[1..]) && items[0].order !in OrdersOf(items[1..])
    ensures OrdersOf(items) == {items[0].order} + OrdersOf(items[1..])
  {}

  lemma MoveHeadThenTail(db: Db, to: Status, key: string, o: OrderId, rest: set<OrderId>)
    requires o in db.fulfilments && o in db.orders && o !in rest
    ensures MoveSet(MoveOrder(db, o, to, ItemKey(key, o)), rest, to, key) == MoveSet(db, {o} + rest, to, key)
  {}

  lemma TailCanMove(db: Db, provider: Provider, to: Status, key: string, items: seq<Item>)
    requires items != [] && Distinct(items) && CanMove(db, provider, to, key, items[0])
    ensures var next := MoveOrder(db, items[0].order, to, ItemKey(key, items[0].order));
            AllCanMove(next, provider, to, key, items[1..]) <==> AllCanMove(db, provider, to, key, items)
  {
    var next := MoveOrder(db, items[0].order, to, ItemKey(key, items[0].order));
    TailIsDistinct(items);
    forall i <- items[1..]
      ensures CanMove(next, provider, to, key, i) <==> CanMove(db, provider, to, key, i)
    {
      assert i.order in OrdersOf(items[1..]);
      OthersStillCanMove(db, provider, to, key, items[0], i);
    }
    assert items == [items[0]] + items[1..];
  }

  /** Every item also passes the request check of a single call under its own event key. */
  ghost predicate SinglesAccepted(to: Status, key: string, items: seq<Item>) {
    forall k | 0 <= k < |items| :: SingleAccepts(to, items[k].expected, ItemKey(key, items[k].order))
  }

  lemma {:induction false} BulkIsSinglesInOrder(db: Db, provider: Provider, to: Status, key: string, items: seq<Item>)
    requires SinglesAccepted(to, key, items)
    ensures BulkTx(db, provider, to, key, items) == SinglesTx(db, provider, to, key, items)
    decreases |items|
  {
    if items != [] && CanMove(db, provider, to, key, items[0]) {
      assert forall k | 0 <= k < |items[1..]| :: items[1..][k] == items[k + 1];
      BulkIsSinglesInOrder(MoveOrder(db, items[0].order, to, ItemKey(key, items[0].order)), provider, to, key,
                           items[1..]);
    }
  }

  lemma {:induction false} BulkMovesTheSet(db: Db, provider: Provider, to: Status, key: string, items: seq<Item>)
    requires Distinct(items)
    ensures BulkTx(db, provider, to, key, items)
         == if AllCanMove(db, provider, to, key, items) then Some(MoveSet(db, OrdersOf(items), to, key)) else None
    decreases |items|
  {
    if items == [] {
      assert MoveSet(db, {}, to, key) == db;
      assert OrdersOf(items) == {};
    } else if CanMove(db, provider, to, key, items[0]) {
      TailCanMove(db, provider, to, key, items);
      TailIsDistinct(items);
      MoveHeadThenTail(db, to, key, items[0].order, OrdersOf(items[1..]));
      BulkMovesTheSet(MoveOrder(db, items[0].order, to, ItemKey(key, items[0].order)), provider, to, key, items[1..]);
    } else {
      assert items[0] in items;
    }
  }

  /**
    A bulk call over distinct orders ends exactly as the single calls do in any
    order, fails exactly when one of them would, and then changes nothing.
   */
  lemma BulkIsSinglesInAnyOrder(db: Db, provider: Provider, to: Status, key: string, items: seq<Item>,
                                shuffled: seq<Item>)
    requires BulkAccepts(to, key, items) && Distinct(shuffled)
    requires forall i :: i in items <==> i in shuffled
    ensures var singles := SinglesTx(db, provider, to, key, shuffled);
            Bulk(db, provider, to, key, items) == if singles.Some? then (singles.value, true) else (db, false)
    ensures Bulk(db, provider, to, key, items).1 <==> forall i <- items :: CanMove(db, provider, to, key, i)
  {
    forall i <- items ensures SingleAccepts(to, i.expected, ItemKey(key, i.order)) {
      var k :| 0 <= k < |items| && items[k] == i;
    }
    BulkMovesTheSet(db, provider, to, key, items);
    BulkMovesTheSet(db, provider, to, key, shuffled);
    BulkIsSinglesInOrder(db, provider, to, key, shuffled);
    assert OrdersOf(items) == OrdersOf(shuffled);
    assert AllCanMove(db, provider, to, key, items) <==> AllCanMove(db, provider, to, key, shuffled);
  }

  // ----- the controller -----

  /** The tables the merchant endpoints read and write. */
  class MerchantDesk {
    var fulfilments: map<OrderId, Fulfilment>
    var orders: map<OrderId, OrderRow>
    var manifests: map<ManifestId, Manifest>
    var members: map<OrderId, ManifestId>

    ghost function View(): Db
      reads this
    {
      Db(fulfilments, orders, manifests, members)
    }

    method TransitionOrder(o: OrderId, provider: Provider, to: Status, expected: nat, key: string)
      returns (reply: Reply)
      modifies this
      ensures (View(), reply) == Transition(old(View()), o, provider, to, expected, key)
    {
      if o !in fulfilments || o !in orders || !orders[o].paid { return Refused; }
      var f := fulfilments[o];
      if f.provider != provider || f.owner != Merchant { return Refused; }
      if f.route == MerchantCrossBorder && !orders[o].settled { return Refused; }
      var existing := EventWith(f.events, key);
      if existing.Some? { return Replayed(existing.value.status, f.version); }
      if f.version != expected { return Refused; }
      if !ValidTransition(f.route, f.owner, f.status, to) { return Refused; }
      var (stage, orderStatus) := LegacyStage(f.route, to);
      fulfilments := fulfilments[o := Fulfilment(f.provider, f.route, f.owner, to, f.version + 1,
                                                 f.events + [FulfillmentEvent(f.status, to, key)])];
      orders := orders[o := orders[o].(stage := stage, status := orderStatus)];
      reply := Moved(f.version + 1);
    }

    /** The single endpoint: the request check, then the transition. */
    method TransitionMerchantOrder(o: OrderId, provider: Provider, to: Status, expected: nat, key: string)
      returns (reply: Reply)
      modifies this
      ensures (View(), reply) == Single(old(View()), o, provider, to, expected, key)
    {
      if to == Unknown("") || expected < 1 || key == "" || |key| > 160 { return Refused; }
      reply := TransitionOrder(o, provider, to, expected, key);
    }

    /** The checks on a bulk request before its transaction begins. */
    static method CheckBulk(to: Status, key: string, items: seq<Item>) returns (ok: bool)
      ensures ok == BulkAccepts(to, key, items)
    {
      if |items| < 1 || |items| > 200 || to == Unknown("") || key == "" || |key| > 100 { return false; }
      var seen: set<OrderId> := {};
      for i := 0 to |items|
        invariant forall k | 0 <= k < i ::
          Text.IsUuid(items[k].order) && items[k].expected >= 1 && items[k].order in seen
        invariant forall o <- seen :: exists k | 0 <= k < i :: items[k].order == o
        invariant forall j, k | 0 <= j < k < i :: items[j].order != items[k].order
      {
        if !Text.IsUuid(items[i].order) || items[i].expected < 1 || items[i].order in seen { return false; }
        seen := seen + {items[i].order};
      }
      ok := true;
    }

    /** The statements for one order inside the bulk transaction; None aborts it. */
    static method MoveItem(tx: Db, provider: Provider, to: Status, key: string, item: Item) returns (moved: Option<Db>)
      ensures moved == if CanMove(tx, provider, to, key, item)
                       then Some(MoveOrder(tx, item.order, to, ItemKey(key, item.order))) else None
    {
      var o := item.order;
      if o !in tx.fulfilments || o !in tx.orders || !tx.orders[o].paid { return None; }
      var f := tx.fulfilments[o];
      if f.provider != provider || f.owner != Merchant { return None; }
      if f.route == MerchantCrossBorder && !tx.orders[o].settled { return None; }
      if f.version != item.expected || !ValidTransition(f.route, f.owner, f.status, to) { return None; }
      var (stage, orderStatus) := LegacyStage(f.route, to);
      var itemKey := key + ":" + o;
      if EventWith(f.events, itemKey).Some? { return None; }
      var after := Fulfilment(f.provider, f.route, f.owner, to, f.version + 1,
                              f.events + [FulfillmentEvent(f.status, to, itemKey)]);
      moved := Some(tx.(fulfilments := tx.fulfilments[o := after],
                        orders := tx.orders[o := tx.orders[o].(stage := stage, status := orderStatus)]));
    }

    method BulkTransition(provider: Provider, to: Status, key: string, items: seq<Item>) returns (done: bool)
      modifies this
      ensures (View(), done) == Bulk(old(View()), provider, to, key, items)
    {
      var ok := CheckBulk(to, key, items);
      if !ok { return false; }
      var tx := Db(fulfilments, orders, manifests, members);
      ghost var start := View();
      for i := 0 to |items|
        invariant View() == start
        invariant BulkTx(start, provider, to, key, items) == BulkTx(tx, provider, to, key, items[i..])
        invariant tx.manifests == manifests && tx.members == members
      {
        assert items[i..][0] == items[i] && items[i..][1..] == items[i + 1..];
        var moved := MoveItem(tx, provider, to, key, items[i]);
        if moved.None? {
          assert BulkTx(tx, provider, to, key, items[i..]).None?;
          return false;
        }
        tx := moved.value;
      }
      assert items[|items|..] == [];
      fulfilments, orders := tx.fulfilments, tx.orders;
      done := true;
    }

    method CreateManifest(id: ManifestId, provider: Provider, requested: seq<OrderId>) returns (done: bool)
      requires id !in manifests
      modifies this
      ensures (View(), done) == Create(old(View()), id, provider, requested)
    {
      if |requested| == 0 || |requested| > 500 { return false; }
      var seen: set<OrderId> := {};
      for i := 0 to |requested|
        invariant forall k | 0 <= k < i :: Text.IsUuid(requested[k]) && requested[k] in seen
        invariant forall o <- seen :: exists k | 0 <= k < i :: requested[k] == o
        invariant forall j, k | 0 <= j < k < i :: requested[j] != requested[k]
      {
        if !Text.IsUuid(requested[i]) || requested[i] in seen { return false; }
        seen := seen + {requested[i]};
      }
      var txManifests := manifests[id := Manifest(provider, Open, 1, [])];
      var txMembers := members;
      for i := 0 to |requested|
        invariant JoinTx(Db(fulfilments, orders, txManifests, members), id, provider, requested)
               == JoinTx(Db(fulfilments, orders, txManifests, txMembers), id, provider, requested[i..])
      {
        var o := requested[i];
        assert requested[i..][0] == o && requested[i..][1..] == requested[i + 1..];
        if o !in fulfilments || o !in orders || o in txMembers { return false; }
        var f, row := fulfilments[o], orders[o];
        if !row.paid || !(row.canonical && row.settled) || f.provider != provider || f.owner != Merchant
           || f.route != MerchantCrossBorder {
          return false;
        }
        if f.status != Pending && f.status != Accepted && f.status != Processing { return false; }
        txMembers := txMembers[o := id];
      }
      assert requested[|requested|..] == [];
      manifests, members := txManifests, txMembers;
      done := true;
    }

    /** Reads the member rows of a dispatch; stops at the first one that is not ready. */
    static method AllReady(tx: Db, rows: set<OrderId>) returns (ready: bool)
      requires forall o <- rows :: o in tx.fulfilments && o in tx.orders
      ensures ready <==> forall o <- rows :: tx.fulfilments[o].status == Processing && KeyedSettled(tx.orders[o])
    {
      var unread := rows;
      while unread != {}
        invariant unread <= rows
        invariant forall o <- rows - unread :: tx.fulfilments[o].status == Processing && KeyedSettled(tx.orders[o])
      {
        var o :| o in unread;
        if tx.fulfilments[o].status != Processing || !(tx.orders[o].canonical && tx.orders[o].settled) { return false; }
        unread := unread - {o};
      }
      ready := true;
    }

    /** Updates the member rows of a dispatch one by one; a taken event key aborts the transaction. */
    static method MoveMembers(tx: Db, id: ManifestId, rows: set<OrderId>) returns (moved: Option<Db>)
      requires forall o <- rows :: o in tx.fulfilments && o in tx.orders
      ensures moved == if forall o <- rows :: EventWith(tx.fulfilments[o].events, DispatchKey(id, o)).None?
                       then Some(DispatchAll(tx, id, rows)) else None
    {
      var db := tx;
      var todo := rows;
      while todo != {}
        invariant todo <= rows
        invariant forall o <- rows - todo :: EventWith(tx.fulfilments[o].events, DispatchKey(id, o)).None?
        invariant db == DispatchAll(tx, id, rows - todo)
      {
        var o :| o in todo;
        var f, row := db.fulfilments[o], db.orders[o];
        assert f == tx.fulfilments[o] && row == tx.orders[o];
        var eventKey := "manifest-dispatch:" + id + ":" + o;
        if EventWith(f.events, eventKey).Some? {
          assert eventKey == DispatchKey(id, o);
          return None;
        }
        var after := f.(status := DispatchedFromOrigin, version := f.version + 1,
                        events := f.events + [FulfillmentEvent(f.status, DispatchedFromOrigin, eventKey)]);
        assert after == MoveFulfilment(tx.fulfilments[o], DispatchedFromOrigin, DispatchKey(id, o));
        db := db.(fulfilments := db.fulfilments[o := after],
                  orders := db.orders[o := row.(stage := AtInternationalHub, status := Paid)]);
        todo := todo - {o};
        assert db.fulfilments == DispatchAll(tx, id, rows - todo).fulfilments;
        assert db.orders == DispatchAll(tx, id, rows - todo).orders;
      }
      assert rows - todo == rows;
      moved := Some(db);
    }

    method TransitionManifest(id: ManifestId, provider: Provider, to: ManifestStatus, expected: nat, key: string)
      returns (reply: ManifestReply)
      modifies this
      ensures (View(), reply) == AdvanceManifest(old(View()), id, provider, to, expected, key)
    {
      if to == UnknownStatus("") || expected < 1 || key == "" { return Rejected; }
      if id !in manifests || manifests[id].provider != provider { return Rejected; }
      var m := manifests[id];
      var replay := ManifestEventWith(m.events, key);
      if replay.Some? { return Repeated(replay.value.status, m.version); }
      if m.version != expected || to !in ManifestNext(m.status) { return Rejected; }
      var tx := Db(fulfilments, orders, manifests, members);
      if to == Dispatched {
        var rows := DispatchRows(tx, id, provider);
        var ready := AllReady(tx, rows);
        if !ready || rows == {} { return Rejected; }
        var moved := MoveMembers(tx, id, rows);
        if moved.None? { return Rejected; }
        tx := moved.value;
      }
      fulfilments, orders := tx.fulfilments, tx.orders;
      manifests := manifests[id := m.(status := to, version := m.version + 1,
                                      events := m.events + [ManifestEvent(m.status, to, key)])];
      reply := Advanced(m.version + 1);
    }
  }
}
