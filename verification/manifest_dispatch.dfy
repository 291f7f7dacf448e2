/**
  Which manifests can still be dispatched. A member that was sent on its way by
  itself, or whose log already uses the manifest's own event key for it, keeps
  the manifest back for ever; nothing else does.
 */
module ManifestDispatch {
  import opened Basics
  import opened Fulfillment
  import Text

  predicate MemberOf(db: Db, id: ManifestId, o: OrderId) {
    o in db.members && db.members[o] == id && o in db.fulfilments && o in db.orders
  }

  /** This member rules out the manifest's dispatch. */
  predicate Held(db: Db, id: ManifestId, o: OrderId) {
    MemberOf(db, id, o)
    && (Progress(db.fulfilments[o].status) >= 3 || EventWith(db.fulfilments[o].events, DispatchKey(id, o)).Some?)
  }

  predicate Waiting(db: Db, id: ManifestId) { id in db.manifests && db.manifests[id].status in {Open, ManifestClosed} }

  ghost predicate NotSent(db: Db, id: ManifestId) {
    id in db.manifests && db.manifests[id].status !in {Dispatched, Completed}
  }

  // ----- a held manifest is never dispatched -----

  lemma UsedKeyStays(events: seq<FulfillmentEvent>, later: seq<FulfillmentEvent>, key: string)
    requires events <= later && EventWith(events, key).Some?
    ensures EventWith(later, key).Some?
  {
    NoneMeansUnused(events, key);
    NoneMeansUnused(later, key);
    var i :| 0 <= i < |events| && events[i].key == key;
    assert later[i] == events[i];
  }

  lemma HeldBlocksAdvance(db: Db, id: ManifestId, o: OrderId,
                          moved: ManifestId, seller: Provider, to: ManifestStatus, expected: nat, key: string)
    requires Inv(db) && Held(db, id, o) && NotSent(db, id)
    ensures NotSent(AdvanceManifest(db, moved, seller, to, expected, key).0, id)
  {
    assert MemberOk(db.fulfilments[o], db.manifests[id]);
    if moved == id && seller == db.manifests[id].provider { assert o in DispatchRows(db, id, seller); }
  }

  lemma OnlyMoveManifestMoves(db: Db, op: Op, id: ManifestId)
    requires Inv(db) && id in db.manifests && !op.MoveManifest?
    ensures id in Apply(db, op).manifests && Apply(db, op).manifests[id] == db.manifests[id]
  {
    match op
    case MoveMany(seller, to, key, items) => BulkTxLeavesManifests(db, seller, to, key, items);
    case NewManifest(m, seller, orders) => if m !in db.manifests { CreateKeeps(db, m, seller, orders); }
    case _ =>
  }

  lemma GrownStaysHeld(db: Db, next: Db, id: ManifestId, o: OrderId)
    requires Held(db, id, o) && Kept(db, next)
    ensures Held(next, id, o)
  {
    assert OrderGrew(db.fulfilments[o], db.orders[o], next.fulfilments[o], next.orders[o]);
    if EventWith(db.fulfilments[o].events, DispatchKey(id, o)).Some? {
      UsedKeyStays(db.fulfilments[o].events, next.fulfilments[o].events, DispatchKey(id, o));
    }
  }

  lemma StepStaysHeld(db: Db, op: Op, id: ManifestId, o: OrderId)
    requires Inv(db) && Held(db, id, o) && NotSent(db, id)
    ensures Held(Apply(db, op), id, o) && NotSent(Apply(db, op), id)
  {
    StepKeepsInv(db, op);
    GrownStaysHeld(db, Apply(db, op), id, o);
    if op.MoveManifest? {
      HeldBlocksAdvance(db, id, o, op.manifest, op.seller, op.target, op.expected, op.key);
    } else {
      OnlyMoveManifestMoves(db, op, id);
    }
  }

  lemma {:induction false} HeldNeverSent(db: Db, ops: seq<Op>, id: ManifestId, o: OrderId)
    requires Inv(db) && Held(db, id, o) && NotSent(db, id)
    ensures NotSent(Run(db, ops), id)
    decreases |ops|
  {
    if ops != [] {
      StepKeepsInv(db, ops[0]);
      StepStaysHeld(db, ops[0], id, o);
      HeldNeverSent(Apply(db, ops[0]), ops[1..], id, o);
    }
  }

  // ----- what joining a manifest guarantees -----

  /** Members are paid under their canonical ledger key, and every manifest has a member. */
  ghost predicate Joined(db: Db) {
    && (forall o <- db.members :: o in db.orders && db.orders[o].paid && db.orders[o].canonical)
    && (forall id <- db.manifests :: db.manifests[id].version >= 1 && exists o <- db.members :: db.members[o] == id)
  }

  lemma {:induction false} JoinTxJoins(db: Db, id: ManifestId, provider: Provider, orders: seq<OrderId>)
    ensures var done := JoinTx(db, id, provider, orders);
            done.Some? ==> (
              && done.value.orders == db.orders && done.value.manifests == db.manifests
              && (forall o <- db.members :: o in done.value.members && done.value.members[o] == db.members[o])
              && (forall o <- orders :: o in done.value.members && done.value.members[o] == id)
              && (forall o <- done.value.members | o !in db.members ::
                    o in db.orders && db.orders[o].paid && db.orders[o].canonical))
    decreases |orders|
  {
    if orders != [] && Manifestable(db, orders[0], provider) {
      JoinTxJoins(db.(members := db.members[orders[0] := id]), id, provider, orders[1..]);
      assert orders == [orders[0]] + orders[1..];
    }
  }

  lemma CreateJoins(db: Db, id: ManifestId, provider: Provider, orders: seq<OrderId>)
    requires Joined(db) && id !in db.manifests
    ensures Joined(Create(db, id, provider, orders).0)
  {
    if Create(db, id, provider, orders).1 {
      var started := db.(manifests := db.manifests[id := Manifest(provider, Open, 1, [])]);
      JoinTxJoins(started, id, provider, orders);
      var next := Create(db, id, provider, orders).0;
      assert orders[0] in orders;
      forall m <- next.manifests ensures exists o <- next.members :: next.members[o] == m {
        if m == id {
          assert next.members[orders[0]] == id;
        } else {
          var o :| o in db.members && db.members[o] == m;
          assert next.members[o] == m;
        }
      }
    }
  }

  lemma AdvanceAddsNone(db: Db, id: ManifestId, provider: Provider, to: ManifestStatus, expected: nat, key: string)
    ensures SameMembers(db, AdvanceManifest(db, id, provider, to, expected, key).0)
  {}

  ghost predicate SameMembers(db: Db, next: Db) {
    && next.members == db.members && next.manifests.Keys == db.manifests.Keys
    && forall id <- db.manifests :: next.manifests[id].version >= db.manifests[id].version
  }

  /** Only a new manifest adds members. */
  lemma OthersAddNone(db: Db, op: Op)
    requires !op.NewManifest?
    ensures SameMembers(db, Apply(db, op))
  {
    match op
    case MoveManifest(id, seller, target, expected, key) => AdvanceAddsNone(db, id, seller, target, expected, key);
    case MoveMany(seller, to, key, items) => BulkTxLeavesManifests(db, seller, to, key, items);
    case _ =>
  }

  lemma SameMembersStayJoined(db: Db, next: Db)
    requires Inv(db) && Joined(db) && Kept(db, next) && SameMembers(db, next)
    ensures Joined(next)
  {
    forall o <- next.members ensures o in next.orders && next.orders[o].paid && next.orders[o].canonical {
      assert o in db.fulfilments;
      assert OrderGrew(db.fulfilments[o], db.orders[o], next.fulfilments[o], next.orders[o]);
    }
  }

  lemma StepKeepsJoined(db: Db, op: Op)
    requires Inv(db) && Joined(db)
    ensures Joined(Apply(db, op))
  {
    if op.NewManifest? {
      if op.manifest !in db.manifests { CreateJoins(db, op.manifest, op.seller, op.orders); }
    } else {
      StepKeepsInv(db, op);
      OthersAddNone(db, op);
      SameMembersStayJoined(db, Apply(db, op));
    }
  }

  lemma {:induction false} RunKeepsJoined(db: Db, ops: seq<Op>)
    requires Inv(db) && Joined(db)
    ensures Inv(Run(db, ops)) && Joined(Run(db, ops))
    decreases |ops|
  {
    if ops != [] {
      StepKeepsInv(db, ops[0]);
      StepKeepsJoined(db, ops[0]);
      RunKeepsJoined(Apply(db, ops[0]), ops[1..]);
    }
  }

  // ----- a manifest that is not held can be dispatched -----

  /** Neither on the road nor holding the manifest's own event key. */
  predicate Free(db: Db, id: ManifestId, o: OrderId)
    requires o in db.fulfilments
  {
    Progress(db.fulfilments[o].status) <= 2 && EventWith(db.fulfilments[o].events, DispatchKey(id, o)).None?
  }

  /** All that the dispatch asks of this member. */
  predicate Ready(db: Db, id: ManifestId, o: OrderId) {
    && MemberOf(db, id, o) && db.fulfilments[o].status == Processing && KeyedSettled(db.orders[o])
    && EventWith(db.fulfilments[o].events, DispatchKey(id, o)).None?
  }

  /** Only this order's rows differ. */
  ghost predicate OnlyTouched(db: Db, next: Db, o: OrderId) {
    && next.members == db.members && next.manifests == db.manifests
    && next.fulfilments.Keys == db.fulfilments.Keys && next.orders.Keys == db.orders.Keys
    && (forall p <- db.fulfilments | p != o :: next.fulfilments[p] == db.fulfilments[p])
    && (forall p <- db.orders | p != o :: next.orders[p] == db.orders[p])
  }

  lemma {:induction false} CrossBorderStatuses(owner: Owner, from: Status, events: seq<FulfillmentEvent>, to: Status)
    requires Path(MerchantCrossBorder, owner, from, events, to) && from != Packed && !from.Unknown?
    ensures to != Packed && !to.Unknown?
    decreases |events|
  {
    if events != [] { CrossBorderStatuses(owner, events[0].status, events[1..], to); }
  }

  /** A free member has at most two events and stands at pending, accepted or processing. */
  lemma FreeMemberIsEarly(db: Db, id: ManifestId, o: OrderId)
    requires Inv(db) && MemberOf(db, id, o) && Free(db, id, o)
    ensures db.fulfilments[o].status in {Pending, Accepted, Processing} && |db.fulfilments[o].events| <= 2
  {
    var f := db.fulfilments[o];
    assert FulfilmentOk(f) && MemberOk(f, db.manifests[id]);
    CrossBorderStatuses(f.owner, Pending, f.events, f.status);
    PathRises(f.route, f.owner, Pending, f.events, f.status);
  }

  lemma UnusedLetter(events: seq<FulfillmentEvent>) returns (key: string)
    requires |events| <= 2
    ensures |key| == 1 && EventWith(events, key).None?
  {
    key :| key in {"a", "b", "c"} && forall i | 0 <= i < |events| :: events[i].key != key;
    NoneMeansUnused(events, key);
  }

  /** One event under another key leaves the dispatch key free. */
  lemma OtherKeyLeavesFree(events: seq<FulfillmentEvent>, e: FulfillmentEvent, key: string)
    requires EventWith(events, key).None? && e.key != key
    ensures EventWith(events + [e], key).None?
  {
    NoneMeansUnused(events, key);
    NoneMeansUnused(events + [e], key);
  }

  /** A free member whose order is released to its seller and to manifests. */
  ghost predicate Workable(db: Db, id: ManifestId, o: OrderId) {
    Inv(db) && MemberOf(db, id, o) && Free(db, id, o) && db.orders[o].paid && KeyedSettled(db.orders[o])
  }

  lemma RunStep(db: Db, op: Op, rest: seq<Op>)
    ensures Run(db, [op] + rest) == Run(Apply(db, op), rest)
  {}

  lemma TouchedTwice(a: Db, b: Db, c: Db, o: OrderId)
    requires OnlyTouched(a, b, o) && OnlyTouched(b, c, o)
    ensures OnlyTouched(a, c, o)
  {}

  /** An accepted single call of a workable member. */
  lemma SingleMoves(db: Db, o: OrderId, to: Status, key: string)
    requires o in db.fulfilments && o in db.orders && db.orders[o].paid && db.orders[o].settled
    requires ValidTransition(db.fulfilments[o].route, db.fulfilments[o].owner, db.fulfilments[o].status, to)
    requires EventWith(db.fulfilments[o].events, key).None? && 1 <= |key| <= 160 && to != Unknown("")
    requires db.fulfilments[o].version >= 1
    ensures Apply(db, MoveOne(o, db.fulfilments[o].provider, to, db.fulfilments[o].version, key))
        == MoveOrder(db, o, to, key)
  {}

  lemma MoveStaysClear(db: Db, id: ManifestId, o: OrderId, to: Status, key: string)
    requires MemberOf(db, id, o) && |key| == 1
    requires EventWith(db.fulfilments[o].events, DispatchKey(id, o)).None?
    ensures var next := MoveOrder(db, o, to, key);
            && OnlyTouched(db, next, o) && MemberOf(next, id, o) && next.fulfilments[o].status == to
            && EventWith(next.fulfilments[o].events, DispatchKey(id, o)).None?
            && next.orders[o].paid == db.orders[o].paid && KeyedSettled(next.orders[o]) == KeyedSettled(db.orders[o])
  {
    OtherKeyLeavesFree(db.fulfilments[o].events, FulfillmentEvent(db.fulfilments[o].status, to, key),
                       DispatchKey(id, o));
  }

  lemma NextOnTheRoad(db: Db, id: ManifestId, o: OrderId) returns (to: Status)
    requires Inv(db) && MemberOf(db, id, o) && Free(db, id, o) && db.fulfilments[o].status != Processing
    ensures ValidTransition(db.fulfilments[o].route, db.fulfilments[o].owner, db.fulfilments[o].status, to)
    ensures to in {Accepted, Processing} && db.fulfilments[o].version >= 1 && |db.fulfilments[o].events| <= 2
    ensures Progress(db.fulfilments[o].status) < Progress(to)
  {
    FreeMemberIsEarly(db, id, o);
    assert FulfilmentOk(db.fulfilments[o]) && MemberOk(db.fulfilments[o], db.manifests[id]);
    to := if db.fulfilments[o].status == Pending then Accepted else Processing;
  }

  /** One accepted single call brings a workable member one step on. */
  lemma Nudge(db: Db, id: ManifestId, o: OrderId) returns (op: Op, next: Db)
    requires Workable(db, id, o) && db.fulfilments[o].status != Processing
    ensures next == Apply(db, op) && OnlyTouched(db, next, o) && Workable(next, id, o)
    ensures Progress(db.fulfilments[o].status) < Progress(next.fulfilments[o].status)
  {
    var to := NextOnTheRoad(db, id, o);
    var key := UnusedLetter(db.fulfilments[o].events);
    op := MoveOne(o, db.fulfilments[o].provider, to, db.fulfilments[o].version, key);
    SingleMoves(db, o, to, key);
    MoveOrderKeeps(db, o, to, key);
    MoveStaysClear(db, id, o, to, key);
    next := MoveOrder(db, o, to, key);
  }

  lemma {:induction false} WalkToProcessing(db: Db, id: ManifestId, o: OrderId) returns (ops: seq<Op>)
    requires Workable(db, id, o)
    ensures OnlyTouched(db, Run(db, ops), o) && Ready(Run(db, ops), id, o)
    decreases 2 - Progress(db.fulfilments[o].status)
  {
    if db.fulfilments[o].status == Processing {
      ops := [];
    } else {
      var op, next := Nudge(db, id, o);
      var rest := WalkToProcessing(next, id, o);
      ops := [op] + rest;
      RunStep(db, op, rest);
      TouchedTwice(db, next, Run(next, rest), o);
    }
  }

  lemma SettleReleases(db: Db, id: ManifestId, o: OrderId)
    requires MemberOf(db, id, o) && Free(db, id, o) && db.orders[o].paid && db.orders[o].canonical
    ensures var next := Apply(db, Settle(o, true));
            OnlyTouched(db, next, o) && MemberOf(next, id, o) && Free(next, id, o)
            && next.orders[o].paid && KeyedSettled(next.orders[o])
  {}

  lemma ReleaseOne(db: Db, id: ManifestId, o: OrderId) returns (op: Op, next: Db)
    requires Inv(db) && Joined(db) && MemberOf(db, id, o) && Free(db, id, o)
    ensures next == Apply(db, op) && OnlyTouched(db, next, o) && Workable(next, id, o)
  {
    op := Settle(o, true);
    next := Apply(db, op);
    SettleReleases(db, id, o);
    SettleKeeps(db, o, true);
  }

  lemma PrepareOne(db: Db, id: ManifestId, o: OrderId) returns (ops: seq<Op>)
    requires Inv(db) && Joined(db) && MemberOf(db, id, o) && Free(db, id, o)
    ensures OnlyTouched(db, Run(db, ops), o) && Ready(Run(db, ops), id, o)
  {
    var op, next := ReleaseOne(db, id, o);
    var rest := WalkToProcessing(next, id, o);
    ops := [op] + rest;
    RunStep(db, op, rest);
    TouchedTwice(db, next, Run(next, rest), o);
  }

  /** The members outside `todo` are ready and those in it are free. */
  ghost predicate Halfway(db: Db, id: ManifestId, todo: set<OrderId>) {
    && (forall o <- todo :: MemberOf(db, id, o) && Free(db, id, o))
    && (forall o <- db.members | db.members[o] == id && o !in todo :: Ready(db, id, o))
  }

  lemma HalfwayOn(db: Db, next: Db, id: ManifestId, todo: set<OrderId>, o: OrderId)
    requires Halfway(db, id, todo) && OnlyTouched(db, next, o) && Ready(next, id, o)
    ensures Halfway(next, id, todo - {o})
  {
    forall p <- next.members | next.members[p] == id && p !in todo - {o} ensures Ready(next, id, p) {
      if p != o { assert Ready(db, id, p); }
    }
  }

  lemma PrepareNext(db: Db, id: ManifestId, todo: set<OrderId>, o: OrderId) returns (ops: seq<Op>, next: Db)
    requires Inv(db) && Joined(db) && Halfway(db, id, todo) && o in todo
    ensures next == Run(db, ops) && next.manifests == db.manifests
    ensures Inv(next) && Joined(next) && Halfway(next, id, todo - {o})
  {
    ops := PrepareOne(db, id, o);
    next := Run(db, ops);
    RunKeepsJoined(db, ops);
    HalfwayOn(db, next, id, todo, o);
  }

  lemma {:induction false} PrepareAll(db: Db, id: ManifestId, todo: set<OrderId>) returns (ops: seq<Op>, ready: Db)
    requires Inv(db) && Joined(db) && Halfway(db, id, todo)
    ensures ready == Run(db, ops) && ready.manifests == db.manifests
    ensures Inv(ready) && Joined(ready) && Halfway(ready, id, {})
    decreases todo
  {
    if todo == {} {
      ops, ready := [], db;
    } else {
      var o :| o in todo;
      var first, next := PrepareNext(db, id, todo, o);
      var rest;
      rest, ready := PrepareAll(next, id, todo - {o});
      ops := first + rest;
      RunSplits(db, first, rest);
    }
  }

  /** Longer than every key of the log, so not one of them. */
  function LongKey(events: seq<ManifestEvent>): string {
    if events == [] then "k" else "k" + events[0].key + LongKey(events[1..])
  }

  lemma {:induction false} LongKeyIsLonger(events: seq<ManifestEvent>, key: string)
    requires |key| >= |LongKey(events)|
    ensures ManifestEventWith(events, key).None?
    decreases |events|
  {
    if events != [] { LongKeyIsLonger(events[1..], key); }
  }

  lemma CloseManifest(db: Db, id: ManifestId) returns (op: Op)
    requires id in db.manifests && db.manifests[id].status == Open && db.manifests[id].version >= 1
    ensures var after := Apply(db, op);
            && after.fulfilments == db.fulfilments && after.orders == db.orders && after.members == db.members
            && id in after.manifests && after.manifests[id].status == ManifestClosed && after.manifests[id].version >= 1
  {
    var m := db.manifests[id];
    LongKeyIsLonger(m.events, LongKey(m.events));
    op := MoveManifest(id, m.provider, ManifestClosed, m.version, LongKey(m.events));
  }

  lemma SendManifest(db: Db, id: ManifestId) returns (op: Op)
    requires id in db.manifests && db.manifests[id].status == ManifestClosed && db.manifests[id].version >= 1
    requires DispatchRows(db, id, db.manifests[id].provider) != {}
    requires Halfway(db, id, {})
    ensures id in Apply(db, op).manifests && Apply(db, op).manifests[id].status == Dispatched
  {
    var m := db.manifests[id];
    LongKeyIsLonger(m.events, LongKey(m.events));
    op := MoveManifest(id, m.provider, Dispatched, m.version, LongKey(m.events));
    assert Dispatchable(db, id, m.provider);
  }

  /** This run from here brings the manifest to dispatched. */
  predicate Sends(db: Db, ops: seq<Op>, id: ManifestId) {
    var after := Run(db, ops);
    id in after.manifests && after.manifests[id].status == Dispatched
  }

  lemma ReadyHasRows(db: Db, id: ManifestId)
    requires Inv(db) && Joined(db) && id in db.manifests && Halfway(db, id, {})
    ensures DispatchRows(db, id, db.manifests[id].provider) != {}
  {
    var o :| o in db.members && db.members[o] == id;
    assert Ready(db, id, o) && MemberOk(db.fulfilments[o], db.manifests[id]);
    assert o in DispatchRows(db, id, db.manifests[id].provider);
  }

  lemma ClosedIsSent(db: Db, id: ManifestId) returns (ops: seq<Op>)
    requires Inv(db) && Joined(db) && id in db.manifests && db.manifests[id].status == ManifestClosed
    requires Halfway(db, id, {})
    ensures Sends(db, ops, id)
  {
    ReadyHasRows(db, id);
    var op := SendManifest(db, id);
    ops := [op];
    RunStep(db, op, []);
  }

  lemma ReadyIsSent(db: Db, id: ManifestId) returns (ops: seq<Op>)
    requires Inv(db) && Joined(db) && Waiting(db, id) && Halfway(db, id, {})
    ensures Sends(db, ops, id)
  {
    if db.manifests[id].status == Open {
      var op := CloseManifest(db, id);
      var closed := Apply(db, op);
      StepKeepsInv(db, op);
      StepKeepsJoined(db, op);
      forall o <- closed.members | closed.members[o] == id ensures Ready(closed, id, o) { assert Ready(db, id, o); }
      var rest := ClosedIsSent(closed, id);
      ops := [op] + rest;
      RunStep(db, op, rest);
    } else {
      ops := ClosedIsSent(db, id);
    }
  }

  lemma FreeIsSent(db: Db, id: ManifestId) returns (ops: seq<Op>)
    requires Inv(db) && Joined(db) && Waiting(db, id)
    requires forall o <- db.members | db.members[o] == id :: Free(db, id, o)
    ensures Sends(db, ops, id)
  {
    var todo := set o <- db.members | db.members[o] == id;
    assert Halfway(db, id, todo);
    var first, ready := PrepareAll(db, id, todo);
    var rest := ReadyIsSent(ready, id);
    RunSplits(db, first, rest);
    ops := first + rest;
  }

  ghost predicate CanBeSent(db: Db, id: ManifestId) { exists ops :: Sends(db, ops, id) }

  lemma HeldCannotBeSent(db: Db, id: ManifestId, o: OrderId)
    requires Inv(db) && Waiting(db, id) && Held(db, id, o)
    ensures !CanBeSent(db, id)
  {
    forall ops: seq<Op> ensures !Sends(db, ops, id) { HeldNeverSent(db, ops, id, o); }
  }

  ghost predicate AllFree(db: Db, id: ManifestId) {
    forall o <- db.members | db.members[o] == id :: o in db.fulfilments && Free(db, id, o)
  }

  lemma CanBeSentIffAllFree(db: Db, id: ManifestId)
    requires Inv(db) && Joined(db) && Waiting(db, id)
    ensures CanBeSent(db, id) <==> AllFree(db, id)
  {
    if AllFree(db, id) {
      var ops := FreeIsSent(db, id);
    } else {
      var o :| o in db.members && db.members[o] == id && !(o in db.fulfilments && Free(db, id, o));
      HeldCannotBeSent(db, id, o);
    }
  }

  /**
    In every reachable state, a manifest that waits can be brought to dispatched
    by some further calls exactly when each member is at most processing and its
    log does not use the manifest's event key.
   */
  lemma CanBeSentIffFree(before: seq<Op>, id: ManifestId)
    requires Waiting(Run(EMPTY, before), id)
    ensures var db := Run(EMPTY, before);
            CanBeSent(db, id) <==> AllFree(db, id)
  {
    RunKeepsInv(EMPTY, before);
    RunKeepsJoined(EMPTY, before);
    CanBeSentIffAllFree(Run(EMPTY, before), id);
  }

  // ----- histories that end blocked -----

  lemma RunAppend(db: Db, ops: seq<Op>, op: Op)
    ensures Run(db, ops + [op]) == Apply(Run(db, ops), op)
  {
    RunSplits(db, ops, [op]);
    RunStep(Run(db, ops), op, []);
  }

  /** An order of a seller is paid, released and put into a new manifest. */
  function ManifestedOrder(o: OrderId, seller: Provider, id: ManifestId): seq<Op> {
    [NewOrder(o, seller, MerchantCrossBorder), Pay(o, true), Settle(o, true), NewManifest(id, seller, [o])]
  }

  function ManifestedDb(o: OrderId, seller: Provider, id: ManifestId): Db {
    Db(map[o := Fulfilment(seller, MerchantCrossBorder, Merchant, Pending, 1, [])],
       map[o := OrderRow(true, true, true, OrderPlaced, Paid)],
       map[id := Manifest(seller, Open, 1, [])],
       map[o := id])
  }

  lemma ManifestedOrderRuns(o: OrderId, seller: Provider, id: ManifestId)
    requires Text.IsUuid(o)
    ensures Run(EMPTY, ManifestedOrder(o, seller, id)) == ManifestedDb(o, seller, id)
  {
    var placed := Apply(EMPTY, NewOrder(o, seller, MerchantCrossBorder));
    var paid := Apply(placed, Pay(o, true));
    var released := Apply(paid, Settle(o, true));
    RunStep(EMPTY, NewOrder(o, seller, MerchantCrossBorder),
            [Pay(o, true), Settle(o, true), NewManifest(id, seller, [o])]);
    RunStep(placed, Pay(o, true), [Settle(o, true), NewManifest(id, seller, [o])]);
    RunStep(paid, Settle(o, true), [NewManifest(id, seller, [o])]);
    RunStep(released, NewManifest(id, seller, [o]), []);
    CreateOne(released, id, seller, o);
  }

  lemma CreateOne(db: Db, id: ManifestId, seller: Provider, o: OrderId)
    requires Text.IsUuid(o) && Manifestable(db, o, seller)
    ensures Create(db, id, seller, [o]).0
         == db.(manifests := db.manifests[id := Manifest(seller, Open, 1, [])], members := db.members[o := id])
  {
    var started := db.(manifests := db.manifests[id := Manifest(seller, Open, 1, [])]);
    var joined := started.(members := started.members[o := id]);
    assert JoinTx(joined, id, seller, [o][1..]) == Some(joined);
    assert JoinTx(started, id, seller, [o]) == Some(joined);
  }

  /**
    One call that uses the manifest's event key as its own idempotency key is
    enough: the order stands at accepted, and its manifest can never be sent.
   */
  lemma UsedKeyBlocksForEver(o: OrderId, seller: Provider, id: ManifestId, after: seq<Op>)
    requires Text.IsUuid(o) && |DispatchKey(id, o)| <= 160
    ensures var ops := ManifestedOrder(o, seller, id) + [MoveOne(o, seller, Accepted, 1, DispatchKey(id, o))];
            && Waiting(Run(EMPTY, ops), id)
            && o in Run(EMPTY, ops).fulfilments && Run(EMPTY, ops).fulfilments[o].status == Accepted
            && NotSent(Run(EMPTY, ops + after), id)
  {
    var start := ManifestedDb(o, seller, id);
    var move := MoveOne(o, seller, Accepted, 1, DispatchKey(id, o));
    ManifestedOrderRuns(o, seller, id);
    RunAppend(EMPTY, ManifestedOrder(o, seller, id), move);
    SingleMoves(start, o, Accepted, DispatchKey(id, o));
    var held := MoveOrder(start, o, Accepted, DispatchKey(id, o));
    assert held.fulfilments[o].events == [FulfillmentEvent(Pending, Accepted, DispatchKey(id, o))];
    assert Held(held, id, o);
    StaysBlocked(ManifestedOrder(o, seller, id) + [move], after, id, o);
  }

  lemma StaysBlocked(before: seq<Op>, after: seq<Op>, id: ManifestId, o: OrderId)
    requires Held(Run(EMPTY, before), id, o) && NotSent(Run(EMPTY, before), id)
    ensures NotSent(Run(EMPTY, before + after), id)
  {
    RunKeepsInv(EMPTY, before);
    RunSplits(EMPTY, before, after);
    HeldNeverSent(Run(EMPTY, before), after, id, o);
  }

  /** Two single calls bring the order to processing. */
  function ProcessedOrder(o: OrderId, seller: Provider, id: ManifestId): seq<Op> {
    ManifestedOrder(o, seller, id) + [MoveOne(o, seller, Accepted, 1, "a")] + [MoveOne(o, seller, Processing, 2, "b")]
  }

  function ProcessedDb(o: OrderId, seller: Provider, id: ManifestId): Db {
    MoveOrder(MoveOrder(ManifestedDb(o, seller, id), o, Accepted, "a"), o, Processing, "b")
  }

  lemma ProcessedOrderRuns(o: OrderId, seller: Provider, id: ManifestId)
    requires Text.IsUuid(o)
    ensures Run(EMPTY, ProcessedOrder(o, seller, id)) == ProcessedDb(o, seller, id)
  {
    var start := ManifestedDb(o, seller, id);
    var accepted := MoveOrder(start, o, Accepted, "a");
    ManifestedOrderRuns(o, seller, id);
    RunAppend(EMPTY, ManifestedOrder(o, seller, id), MoveOne(o, seller, Accepted, 1, "a"));
    SingleMoves(start, o, Accepted, "a");
    RunAppend(EMPTY, ManifestedOrder(o, seller, id) + [MoveOne(o, seller, Accepted, 1, "a")],
              MoveOne(o, seller, Processing, 2, "b"));
    assert accepted.fulfilments[o].events == [FulfillmentEvent(Pending, Accepted, "a")];
    SingleMoves(accepted, o, Processing, "b");
  }

  /** Sending the order on its way by three single calls blocks its manifest as well. */
  lemma EarlyDispatchBlocksForEver(o: OrderId, seller: Provider, id: ManifestId, after: seq<Op>)
    requires Text.IsUuid(o)
    ensures var ops := ProcessedOrder(o, seller, id) + [MoveOne(o, seller, DispatchedFromOrigin, 3, "c")];
            && Waiting(Run(EMPTY, ops), id) && NotSent(Run(EMPTY, ops + after), id)
  {
    var send := MoveOne(o, seller, DispatchedFromOrigin, 3, "c");
    var db := ProcessedDb(o, seller, id);
    ProcessedOrderRuns(o, seller, id);
    RunAppend(EMPTY, ProcessedOrder(o, seller, id), send);
    assert db.fulfilments[o].events
        == [FulfillmentEvent(Pending, Accepted, "a"), FulfillmentEvent(Accepted, Processing, "b")];
    NoneMeansUnused(db.fulfilments[o].events, "c");
    SingleMoves(db, o, DispatchedFromOrigin, "c");
    assert Held(MoveOrder(db, o, DispatchedFromOrigin, "c"), id, o);
    StaysBlocked(ProcessedOrder(o, seller, id) + [send], after, id, o);
  }

  /** An order whose ledger row is spelt differently can be worked one by one but never joins a manifest. */
  lemma SpeltOrderNeverManifested(before: seq<Op>, after: seq<Op>, o: OrderId)
    requires var early := Run(EMPTY, before); o in early.orders && early.orders[o].paid && !early.orders[o].canonical
    ensures o !in Run(EMPTY, before + after).members
  {
    var early := Run(EMPTY, before);
    RunKeepsJoined(EMPTY, before);
    RunSplits(EMPTY, before, after);
    RunKeepsInv(early, after);
    RunKeepsJoined(early, after);
    assert OrderGrew(early.fulfilments[o], early.orders[o], Run(early, after).fulfilments[o],
                     Run(early, after).orders[o]);
  }
}
