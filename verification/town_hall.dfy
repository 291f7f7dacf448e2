/**
  One Town Hall room: applications, provider seats, offers, the hand-off of a
  chosen offer into a direct chat, and closing. Every handler holds the room row
  lock from its first statement to its commit, so each runs as one step.
  Eligibility checks on other tables are inputs of the step.
 */
module TownHall {
  import opened Basics
  import Ascii = Text
  import ChatStore

  type User = int
  type Provider = int

  const MAX_SEATS: nat := 10

  datatype Stage = Pending | Admitted | Declined | Removed
  datatype Application = Application(requester: User, state: Stage)

  /** A chat_participants row; provider is set exactly on provider rows. */
  datatype Participant = Participant(provider: Option<Provider>, active: bool)
  datatype OfferRow = OfferRow(id: nat, sender: User, price: nat, terms: string)
  datatype Selection = Selection(offer: nat, direct: ChatStore.RoomId)

  datatype Hall = Hall(
    id: int,
    owner: User,
    open: bool,
    participants: map<User, Participant>,
    applications: map<Provider, Application>,
    offers: map<Provider, OfferRow>,
    selected: Option<Selection>)

  datatype World = World(hall: Hall, chat: ChatStore.Chat)

  datatype Reply = Done | Selected(direct: ChatStore.RoomId) | Refused

  function Room(h: Hall): ChatStore.RoomId { ChatStore.HallRoom(h.id) }

  function ActiveProviders(participants: map<User, Participant>): set<User> {
    set u <- participants | participants[u].provider.Some? && participants[u].active
  }

  function NewHall(id: int, owner: User): Hall {
    Hall(id, owner, true, map[owner := Participant(None, true)], map[], map[], None)
  }

  datatype Op =
    | Apply(actor: User, provider: Provider, expired: bool, eligible: bool)
    | Approve(actor: User, provider: Provider, expired: bool, independent: bool, paid: bool)
    | Decline(actor: User, provider: Provider, expired: bool)
    | Remove(actor: User, provider: Provider, expired: bool)
    | MakeOffer(actor: User, price: nat, terms: string, reference: int, expired: bool, eligible: bool,
                offerId: nat, messageId: nat, at: int)
    | Choose(actor: User, offer: nat, close: bool, expired: bool, independent: bool, blocked: bool,
             messageId: nat, at: int)
    | Close(actor: User, expired: bool)

  // ----- what each handler commits -----

  function Bump(w: World): ChatStore.Chat {
    ChatStore.Apply(w.chat, ChatStore.Bump(Room(w.hall)))
  }

  function Applied(w: World, op: Op): (World, Reply)
    requires op.Apply?
  {
    var h := w.hall;
    if h.owner == op.actor || !h.open || op.expired || !op.eligible || |ActiveProviders(h.participants)| >= MAX_SEATS
    then (w, Refused)
    else if op.provider in h.applications && h.applications[op.provider].state in {Pending, Admitted} then (w, Done)
    else (w.(hall := h.(applications := h.applications[op.provider := Application(op.actor, Pending)])), Done)
  }

  function Approved(w: World, op: Op): (World, Reply)
    requires op.Approve?
  {
    var h := w.hall;
    if h.owner != op.actor || !h.open || op.expired || op.provider !in h.applications || !op.independent
    then (w, Refused)
    else
      var app := h.applications[op.provider];
      if app.requester == op.actor then (w, Refused)
      else if app.state == Admitted then (w, Done)
      else if app.state != Pending || !op.paid || |ActiveProviders(h.participants)| >= MAX_SEATS then (w, Refused)
      else (World(h.(participants := h.participants[app.requester := Participant(Some(op.provider), true)],
                     applications := h.applications[op.provider := app.(state := Admitted)]), Bump(w)), Done)
  }

  function Rejected(w: World, op: Op): (World, Reply)
    requires op.Decline?
  {
    var h := w.hall;
    if h.owner != op.actor || !h.open || op.expired || op.provider !in h.applications
       || h.applications[op.provider].state != Pending then (w, Refused)
    else (World(h.(applications := h.applications[op.provider := h.applications[op.provider].(state := Declined)]),
                Bump(w)), Done)
  }

  /** UPDATE chat_participants SET state='removed' WHERE provider_id=... */
  function WithoutProvider(participants: map<User, Participant>, provider: Provider): map<User, Participant> {
    map u <- participants ::
      if participants[u].provider == Some(provider) then participants[u].(active := false) else participants[u]
  }

  function RemovedFrom(w: World, op: Op): (World, Reply)
    requires op.Remove?
  {
    var h := w.hall;
    if h.owner != op.actor || !h.open || op.expired || op.provider !in h.applications then (w, Refused)
    else if h.applications[op.provider].state == Removed then (w, Done)
    else if h.applications[op.provider].state != Admitted then (w, Refused)
    else (World(h.(participants := WithoutProvider(h.participants, op.provider),
                   applications := h.applications[op.provider := h.applications[op.provider].(state := Removed)]),
                Bump(w)), Done)
  }

  /** closeHallTx: provider rows and live applications become removed, then the room closes. */
  function Shut(h: Hall): Hall {
    h.(open := false,
       participants := map u <- h.participants ::
         if h.participants[u].provider.Some? then h.participants[u].(active := false) else h.participants[u],
       applications := map p <- h.applications ::
         if h.applications[p].state in {Pending, Admitted} then h.applications[p].(state := Removed)
         else h.applications[p])
  }

  function ClosedBy(w: World, op: Op): (World, Reply)
    requires op.Close?
  {
    if w.hall.owner != op.actor || !w.hall.open || op.expired then (w, Refused)
    else (World(Shut(w.hall), Bump(w)), Done)
  }

  function Text(body: string): ChatStore.Content { ChatStore.Content(body, [], None, None) }

  /** Prices are counted in kobo. */
  function OfferText(price: nat, terms: string): string {
    "Offer: NGN " + Ascii.Decimal(price) + ". " + terms
  }

  const MAX_PRICE: nat := 1000000000000

  predicate ValidOffer(price: nat, terms: string) { 0 < price <= MAX_PRICE && |terms| <= 1000 }

  function Offered(w: World, op: Op): (World, Reply)
    requires op.MakeOffer?
  {
    var h := w.hall;
    var key := ChatStore.Key(op.actor, ChatStore.Client(op.reference));
    if !ValidOffer(op.price, op.terms) || !h.open || op.expired || op.actor !in h.participants || !op.eligible
    then (w, Refused)
    else
      var me := h.participants[op.actor];
      if !me.active || me.provider.None? then (w, Refused)
      else if key in w.chat.messages then
        var again := w.chat.messages[key];
        (w, if again.room == Room(h) && again.content.body == OfferText(op.price, op.terms) then Done else Refused)
      else
        var provider := me.provider.value;
        var id := if provider in h.offers then h.offers[provider].id else op.offerId;
        var sender := if provider in h.offers then h.offers[provider].sender else op.actor;
        var (chat, sent) := ChatStore.Deliver(w.chat,
          ChatStore.Post(Room(h), op.actor, key.reference, Text(OfferText(op.price, op.terms)), true, op.messageId,
                         op.at));
        if sent.Err? then (w, Refused)
        else (World(h.(offers := h.offers[provider := OfferRow(id, sender, op.price, op.terms)]), chat), Done)
  }

  predicate Seated(h: Hall, u: User, provider: Provider) {
    u in h.participants && h.participants[u] == Participant(Some(provider), true)
  }

  /** The join of offers and active participants that HallChoose reads. */
  predicate OfferedBy(h: Hall, offer: nat, provider: Provider, peer: User) {
    provider in h.offers && h.offers[provider].id == offer && Seated(h, peer, provider)
  }

  ghost function Offerer(h: Hall, offer: nat): Option<(Provider, User)> {
    if exists provider, peer :: OfferedBy(h, offer, provider, peer)
    then var provider, peer :| OfferedBy(h, offer, provider, peer); Some((provider, peer))
    else None
  }

  function DirectOf(a: User, b: User): ChatStore.RoomId {
    if a < b then ChatStore.DirectRoom(a, b) else ChatStore.DirectRoom(b, a)
  }

  /** The hand-off message: its reference and its text depend only on the offer as it stands. */
  function Handoff(h: Hall, row: OfferRow, actor: User, peer: User, messageId: nat, at: int): ChatStore.Op {
    ChatStore.Post(DirectOf(actor, peer), actor, ChatStore.Handoff(h.id, row.id, row.price, row.terms),
                   Text(Summary(row.price, row.terms)), true, messageId, at)
  }

  function Summary(price: nat, terms: string): string {
    var text := "Selected Town Hall offer: NGN " + Ascii.Decimal(price) + ". " + terms;
    if |text| > 2000 then text[..2000] else text
  }

  ghost function Chosen(w: World, op: Op): (World, Reply)
    requires op.Choose?
  {
    var h := w.hall;
    if h.owner != op.actor then (w, Refused)
    else if !h.open then
      (w, if h.selected.Some? && h.selected.value.offer == op.offer then Selected(h.selected.value.direct) else Refused)
    else if op.expired || Offerer(h, op.offer).None? then (w, Refused)
    else
      var (provider, peer) := Offerer(h, op.offer).value;
      if peer == op.actor || !op.independent || op.blocked then (w, Refused)
      else
        var direct := DirectOf(op.actor, peer);
        var (chat, sent) := ChatStore.Deliver(ChatStore.EnsureRoom(w.chat, direct),
          Handoff(h, h.offers[provider], op.actor, peer, op.messageId, op.at));
        if sent.Err? then (w, Refused)
        else
          var h' := h.(selected := Some(Selection(op.offer, direct)));
          (if op.close then World(Shut(h'), Bump(World(h', chat))) else World(h', chat), Selected(direct))
  }

  ghost function Step(w: World, op: Op): (World, Reply) {
    match op
    case Apply(_, _, _, _) => Applied(w, op)
    case Approve(_, _, _, _, _) => Approved(w, op)
    case Decline(_, _, _) => Rejected(w, op)
    case Remove(_, _, _) => RemovedFrom(w, op)
    case MakeOffer(_, _, _, _, _, _, _, _, _) => Offered(w, op)
    case Choose(_, _, _, _, _, _, _, _) => Chosen(w, op)
    case Close(_, _) => ClosedBy(w, op)
  }

  // ----- the room invariant over every run -----

  ghost predicate Valid(h: Hall) {
    && |ActiveProviders(h.participants)| <= MAX_SEATS
    && (forall u, p :: Seated(h, u, p) ==> p in h.applications && h.applications[p].state == Admitted)
    && (forall u, v, p :: Seated(h, u, p) && Seated(h, v, p) ==> u == v)
    && (forall p, q | p in h.offers && q in h.offers && p != q :: h.offers[p].id != h.offers[q].id)
    && (!h.open ==> Quiet(h))
  }

  /** No active provider and nothing left to admit. */
  ghost predicate Quiet(h: Hall) {
    ActiveProviders(h.participants) == {}
        && forall p <- h.applications :: h.applications[p].state in {Declined, Removed}
  }

  /** A new offer row gets an identifier no other row has. */
  ghost predicate FreshIds(h: Hall, op: Op) {
    op.MakeOffer? ==> forall p <- h.offers :: h.offers[p].id != op.offerId
  }

  ghost predicate ValidRun(w: World, ops: seq<Op>)
    decreases |ops|
  {
    ops != [] ==> FreshIds(w.hall, ops[0]) && ValidRun(Step(w, ops[0]).0, ops[1..])
  }

  ghost function Run(w: World, ops: seq<Op>): World
    decreases |ops|
  {
    if ops == [] then w else Run(Step(w, ops[0]).0, ops[1..])
  }

  lemma ApproveKeepsValid(w: World, op: Op)
    requires Valid(w.hall) && op.Approve?
    ensures Valid(Approved(w, op).0.hall)
  {
    var h, h' := w.hall, Approved(w, op).0.hall;
    if h' != h {
      var app := h.applications[op.provider];
      var before, after := ActiveProviders(h.participants), ActiveProviders(h'.participants);
      assert after == before + {app.requester};
      forall u, p | Seated(h', u, p) ensures p in h'.applications && h'.applications[p].state == Admitted {
        if u != app.requester { assert Seated(h, u, p); }
      }
      forall u, v, p | Seated(h', u, p) && Seated(h', v, p) ensures u == v {
        if u != app.requester { assert Seated(h, u, p); }
        if v != app.requester { assert Seated(h, v, p); }
      }
    }
  }

  lemma RemoveKeepsValid(w: World, op: Op)
    requires Valid(w.hall) && op.Remove?
    ensures Valid(RemovedFrom(w, op).0.hall)
  {
    var h, h' := w.hall, RemovedFrom(w, op).0.hall;
    if h' != h {
      FewerSeats(h, h');
      forall u, p | Seated(h', u, p) ensures p in h'.applications && h'.applications[p].state == Admitted {
        assert Seated(h, u, p) && p != op.provider;
      }
    }
  }

  lemma FewerSeats(h: Hall, h': Hall)
    requires forall u, p :: Seated(h', u, p) ==> Seated(h, u, p)
    ensures ActiveProviders(h'.participants) <= ActiveProviders(h.participants)
    ensures |ActiveProviders(h'.participants)| <= |ActiveProviders(h.participants)|
  {
    forall u <- ActiveProviders(h'.participants) ensures u in ActiveProviders(h.participants) {
      assert Seated(h', u, h'.participants[u].provider.value);
      assert Seated(h, u, h'.participants[u].provider.value);
    }
    var few, many := ActiveProviders(h'.participants), ActiveProviders(h.participants);
    assert few + (many - few) == many;
  }

  lemma ShutIsValid(h: Hall)
    requires Valid(h)
    ensures Valid(Shut(h)) && Quiet(Shut(h))
  {
    var h' := Shut(h);
    forall p <- h'.applications ensures h'.applications[p].state in {Declined, Removed} {
      assert h.applications[p].state == Pending || h.applications[p].state == Admitted
          || h.applications[p].state == Declined || h.applications[p].state == Removed;
    }
    assert forall u, p :: !Seated(h', u, p);
    assert ActiveProviders(h'.participants) == {};
  }

  lemma OtherStepsKeepValid(w: World, op: Op)
    requires Valid(w.hall) && FreshIds(w.hall, op) && !op.Approve? && !op.Remove?
    ensures Valid(Step(w, op).0.hall)
  {
    var h, h' := w.hall, Step(w, op).0.hall;
    match op
    case Apply(_, _, _, _) => assert forall u, p :: Seated(h', u, p) ==> Seated(h, u, p);
    case Decline(_, _, _) => assert forall u, p :: Seated(h', u, p) ==> Seated(h, u, p);
    case Close(_, _) => if h' != h { ShutIsValid(h); }
    case Choose(_, _, _, _, _, _, _, _) =>
      var h'' := h.(selected := h'.selected);
      assert forall u, p :: Seated(h'', u, p) <==> Seated(h, u, p);
      assert Valid(h'');
      ShutIsValid(h'');
      assert h' == h || h' == h'' || h' == Shut(h'');
    case MakeOffer(_, _, _, _, _, _, _, _, _) => assert forall u, p :: Seated(h', u, p) <==> Seated(h, u, p);
  }

  lemma StepKeepsValid(w: World, op: Op)
    requires Valid(w.hall) && FreshIds(w.hall, op)
    ensures Valid(Step(w, op).0.hall)
    ensures !w.hall.open ==> Step(w, op).0.hall == w.hall
  {
    if op.Approve? { ApproveKeepsValid(w, op); }
    else if op.Remove? { RemoveKeepsValid(w, op); }
    else { OtherStepsKeepValid(w, op); }
  }

  lemma {:induction false} RunKeepsValid(w: World, ops: seq<Op>)
    requires Valid(w.hall) && ValidRun(w, ops)
    ensures Valid(Run(w, ops).hall)
    ensures !w.hall.open ==> Run(w, ops).hall == w.hall
    decreases |ops|
  {
    if ops != [] {
      StepKeepsValid(w, ops[0]);
      RunKeepsValid(Step(w, ops[0]).0, ops[1..]);
    }
  }

  /**
    From a new room, over any run: at most ten active provider seats, each with an
    admitted application and no provider seated twice; a closed room has no active
    seat and nothing pending or admitted.
   */
  lemma SeatsOverAnyRun(id: int, owner: User, chat: ChatStore.Chat, ops: seq<Op>)
    requires ValidRun(World(NewHall(id, owner), chat), ops)
    ensures var h := Run(World(NewHall(id, owner), chat), ops).hall;
            && |ActiveProviders(h.participants)| <= MAX_SEATS
            && (forall u <- ActiveProviders(h.participants) ::
                  var p := h.participants[u].provider.value;
                  p in h.applications && h.applications[p].state == Admitted)
            && (forall u, v | u in ActiveProviders(h.participants) && v in ActiveProviders(h.participants) && u != v ::
                  h.participants[u].provider != h.participants[v].provider)
            && (!h.open ==> Quiet(h))
  {
    var h0 := NewHall(id, owner);
    assert ActiveProviders(h0.participants) == {};
    RunKeepsValid(World(h0, chat), ops);
    var h := Run(World(h0, chat), ops).hall;
    assert forall u <- ActiveProviders(h.participants) :: Seated(h, u, h.participants[u].provider.value);
  }

  /** A closed room never changes again, whatever is called on it. */
  lemma ClosedForGood(w: World, ops: seq<Op>)
    requires Valid(w.hall) && ValidRun(w, ops) && !w.hall.open
    ensures Run(w, ops).hall == w.hall
  {
    RunKeepsValid(w, ops);
  }

  /**
    Admitted does not mean seated: approving a second provider for the same user
    re-points the user's one participant row.
   */
  lemma AdmittedMayLoseSeat()
    ensures var w := World(NewHall(0, 1), ChatStore.Chat(map[], map[]));
            var ops := [Apply(2, 7, false, true), Apply(2, 8, false, true),
                        Approve(1, 7, false, true, true), Approve(1, 8, false, true, true)];
            var h := Run(w, ops).hall;
            ValidRun(w, ops) && h.applications[7].state == Admitted && forall u :: !Seated(h, u, 7)
  {
    var w := World(NewHall(0, 1), ChatStore.Chat(map[], map[]));
    var a, b := Apply(2, 7, false, true), Apply(2, 8, false, true);
    var c, d := Approve(1, 7, false, true, true), Approve(1, 8, false, true, true);
    assert ActiveProviders(w.hall.participants) == {};
    var w1 := Step(w, a).0;
    var w2 := Step(w1, b).0;
    var w3 := Step(w2, c).0;
    assert ActiveProviders(w3.hall.participants) == {2};
    var w4 := Step(w3, d).0;
    calc {
      Run(w, [a, b, c, d]);
      Run(w1, [b, c, d]);
      Run(w2, [c, d]);
      Run(w3, [d]);
      Run(w4, []);
    }
    assert ValidRun(w4, []);
    assert ValidRun(w3, [d]);
    assert [c, d][1..] == [d];
    assert ValidRun(w2, [c, d]);
    assert [b, c, d][1..] == [c, d];
    assert ValidRun(w1, [b, c, d]);
    assert [a, b, c, d][1..] == [b, c, d];
  }

  /** Every admitted application has its provider in a seat. */
  ghost predicate AllSeated(h: Hall) {
    forall p <- h.applications | h.applications[p].state == Admitted :: exists u :: Seated(h, u, p)
  }

  /** An approval that goes through, for a requester who sits there for another provider. */
  predicate Reseats(h: Hall, op: Op) {
    && op.Approve?
    && h.owner == op.actor && h.open && !op.expired && op.independent && op.paid
    && op.provider in h.applications && h.applications[op.provider].state == Pending
    && |ActiveProviders(h.participants)| < MAX_SEATS
    && var u := h.applications[op.provider].requester;
    && u != op.actor && u in h.participants && h.participants[u].active
    && h.participants[u].provider.Some? && h.participants[u].provider != Some(op.provider)
  }

  lemma ReseatingUnseats(w: World, op: Op)
    requires Valid(w.hall) && Reseats(w.hall, op)
    ensures !AllSeated(Step(w, op).0.hall)
  {
    var h, after := w.hall, Step(w, op).0.hall;
    var u := h.applications[op.provider].requester;
    var lost := h.participants[u].provider.value;
    assert Seated(h, u, lost);
    assert forall v | v != u :: Seated(after, v, lost) ==> Seated(h, v, lost);
    assert forall v :: !Seated(after, v, lost);
    assert after.applications[lost].state == Admitted;
  }

  lemma SeatsStay(h: Hall, after: Hall)
    requires AllSeated(h)
    requires forall p <- after.applications | after.applications[p].state == Admitted ::
               p in h.applications && h.applications[p].state == Admitted
               && forall u :: Seated(h, u, p) ==> Seated(after, u, p)
    ensures AllSeated(after)
  {
    forall p <- after.applications | after.applications[p].state == Admitted ensures exists u :: Seated(after, u, p) {
      var u :| Seated(h, u, p);
      assert Seated(after, u, p);
    }
  }

  lemma ApprovalKeepsSeats(w: World, op: Op)
    requires AllSeated(w.hall) && op.Approve? && !Reseats(w.hall, op)
    ensures AllSeated(Approved(w, op).0.hall)
  {
    var h, after := w.hall, Approved(w, op).0.hall;
    if after != h {
      var u := h.applications[op.provider].requester;
      forall p <- after.applications | after.applications[p].state == Admitted ensures exists v :: Seated(after, v, p) {
        if p == op.provider {
          assert Seated(after, u, p);
        } else {
          var v :| Seated(h, v, p);
          assert Seated(after, v, p);
        }
      }
    }
  }

  lemma OtherStepsKeepSeats(w: World, op: Op)
    requires AllSeated(w.hall) && !op.Approve?
    ensures AllSeated(Step(w, op).0.hall)
  {
    SeatsStay(w.hall, Step(w, op).0.hall);
  }

  /** A step leaves somebody admitted without a seat exactly when it is such an approval. */
  lemma StepKeepsSeatsIff(w: World, op: Op)
    requires Valid(w.hall) && AllSeated(w.hall)
    ensures AllSeated(Step(w, op).0.hall) <==> !Reseats(w.hall, op)
  {
    if Reseats(w.hall, op) { ReseatingUnseats(w, op); }
    else if op.Approve? { ApprovalKeepsSeats(w, op); }
    else { OtherStepsKeepSeats(w, op); }
  }

  lemma RunTail(w: World, ops: seq<Op>, n: nat)
    requires 0 < n <= |ops|
    ensures Run(w, ops[..n]) == Run(Step(w, ops[0]).0, ops[1..][..n - 1])
  {
    assert ops[..n][1..] == ops[1..][..n - 1];
  }

  ghost predicate SeatedThroughout(w: World, ops: seq<Op>) {
    forall n: nat | n <= |ops| :: AllSeated(Run(w, ops[..n]).hall)
  }

  ghost predicate NeverReseats(w: World, ops: seq<Op>) {
    forall n: nat | n < |ops| :: !Reseats(Run(w, ops[..n]).hall, ops[n])
  }

  lemma TailSeated(w: World, ops: seq<Op>)
    requires ops != [] && AllSeated(w.hall)
    ensures SeatedThroughout(w, ops) <==> SeatedThroughout(Step(w, ops[0]).0, ops[1..])
  {
    var next := Step(w, ops[0]).0;
    assert Run(w, ops[..0]) == w;
    forall n: nat | n < |ops| ensures AllSeated(Run(w, ops[..n + 1]).hall) == AllSeated(Run(next, ops[1..][..n]).hall) {
      RunTail(w, ops, n + 1);
    }
    if SeatedThroughout(next, ops[1..]) {
      forall n: nat | n <= |ops| ensures AllSeated(Run(w, ops[..n]).hall) {
        if n > 0 { assert AllSeated(Run(next, ops[1..][..n - 1]).hall); }
      }
    }
  }

  lemma TailReseats(w: World, ops: seq<Op>)
    requires ops != []
    ensures NeverReseats(w, ops) <==> !Reseats(w.hall, ops[0]) && NeverReseats(Step(w, ops[0]).0, ops[1..])
  {
    var next := Step(w, ops[0]).0;
    assert Run(w, ops[..0]) == w;
    forall n: nat | n + 1 < |ops|
      ensures Reseats(Run(w, ops[..n + 1]).hall, ops[n + 1]) == Reseats(Run(next, ops[1..][..n]).hall, ops[1..][n])
    {
      RunTail(w, ops, n + 1);
    }
    if !Reseats(w.hall, ops[0]) && NeverReseats(next, ops[1..]) {
      forall n: nat | n < |ops| ensures !Reseats(Run(w, ops[..n]).hall, ops[n]) {
        if n > 0 { assert !Reseats(Run(next, ops[1..][..n - 1]).hall, ops[1..][n - 1]); }
      }
    }
  }

  lemma {:induction false} SeatsKeptIff(w: World, ops: seq<Op>)
    requires Valid(w.hall) && ValidRun(w, ops) && AllSeated(w.hall)
    ensures SeatedThroughout(w, ops) <==> NeverReseats(w, ops)
    decreases |ops|
  {
    if ops == [] {
      assert ops[..0] == [];
    } else {
      var next := Step(w, ops[0]).0;
      StepKeepsSeatsIff(w, ops[0]);
      TailSeated(w, ops);
      TailReseats(w, ops);
      if AllSeated(next.hall) {
        StepKeepsValid(w, ops[0]);
        SeatsKeptIff(next, ops[1..]);
      } else {
        assert Run(next, ops[1..][..0]) == next;
      }
    }
  }

  /**
    From a new room, over any run: every admitted provider has a seat at every
    moment exactly when no approval seats a user who already sits there for
    another provider.
   */
  lemma AdmittedKeepSeatsIff(id: int, owner: User, chat: ChatStore.Chat, ops: seq<Op>)
    requires ValidRun(World(NewHall(id, owner), chat), ops)
    ensures var w := World(NewHall(id, owner), chat); SeatedThroughout(w, ops) <==> NeverReseats(w, ops)
  {
    assert ActiveProviders(NewHall(id, owner).participants) == {};
    SeatsKeptIff(World(NewHall(id, owner), chat), ops);
  }

  // ----- the hand-off message -----

  ghost predicate KeepsMessages(chat: ChatStore.Chat, later: ChatStore.Chat) {
    forall k <- chat.messages :: k in later.messages && later.messages[k] == chat.messages[k]
  }

  lemma StepKeepsMessages(w: World, op: Op)
    ensures KeepsMessages(w.chat, Step(w, op).0.chat)
    ensures Step(w, op).0.hall.id == w.hall.id
  {
  }

  lemma {:induction false} RunKeepsMessages(w: World, ops: seq<Op>)
    ensures KeepsMessages(w.chat, Run(w, ops).chat)
    ensures Run(w, ops).hall.id == w.hall.id
    decreases |ops|
  {
    if ops != [] {
      StepKeepsMessages(w, ops[0]);
      RunKeepsMessages(Step(w, ops[0]).0, ops[1..]);
    }
  }

  /** The price and terms of an offer whose provider is still seated. */
  ghost function StandingOffer(h: Hall, offer: nat): Option<(nat, string)> {
    if Offerer(h, offer).None? then None
    else Some((h.offers[Offerer(h, offer).value.0].price, h.offers[Offerer(h, offer).value.0].terms))
  }

  /** The message key of the hand-off of this offer as it stands. */
  ghost function HandoffKey(h: Hall, offer: nat, actor: User): ChatStore.Key
    requires StandingOffer(h, offer).Some?
  {
    var (price, terms) := StandingOffer(h, offer).value;
    ChatStore.Key(actor, ChatStore.Handoff(h.id, offer, price, terms))
  }

  lemma FirstChoice(w: World, op: Op)
    requires op.Choose? && w.hall.open && Chosen(w, op).1.Selected? && StandingOffer(w.hall, op.offer).Some?
    ensures var key := HandoffKey(w.hall, op.offer, op.actor);
            var chat := Chosen(w, op).0.chat;
            key in chat.messages && Chosen(w, op).1 == Selected(chat.messages[key].room)
  {}

  lemma AgainChoice(w: World, op: Op)
    requires op.Choose? && w.hall.open && StandingOffer(w.hall, op.offer).Some?
    requires HandoffKey(w.hall, op.offer, op.actor) in w.chat.messages
    ensures Chosen(w, op).0.chat.messages == w.chat.messages
    ensures Chosen(w, op).1.Selected? ==>
            Chosen(w, op).1 == Selected(w.chat.messages[HandoffKey(w.hall, op.offer, op.actor)].room)
  {}

  /**
    Choosing an offer again, after any other calls, sends no second message unless
    the offer stands with another price or other terms; if it is answered at all, with the same chat.
   */
  lemma HandoffSentOnce(w: World, first: Op, ops: seq<Op>, again: Op)
    requires first.Choose? && again.Choose? && first.offer == again.offer && first.actor == again.actor
    requires w.hall.open && Step(w, first).1.Selected?
    requires var now := Run(Step(w, first).0, ops).hall;
             now.open && StandingOffer(now, again.offer).Some? ==>
               StandingOffer(now, again.offer) == StandingOffer(w.hall, first.offer)
    ensures var now := Run(Step(w, first).0, ops);
            && Step(now, again).0.chat.messages == now.chat.messages
            && (now.hall.open && Step(now, again).1.Selected? ==> Step(now, again).1 == Step(w, first).1)
  {
    FirstChoice(w, first);
    RunKeepsMessages(Step(w, first).0, ops);
    StepKeepsMessages(w, first);
    var now := Run(Step(w, first).0, ops);
    if now.hall.open && StandingOffer(now.hall, again.offer).Some? { AgainChoice(now, again); }
  }

  // ----- the handlers -----

  class HallRoom {
    const id: int
    const owner: User
    const store: ChatStore.Store
    var open: bool
    var participants: map<User, Participant>
    var applications: map<Provider, Application>
    var offers: map<Provider, OfferRow>
    var selected: Option<Selection>

    function View(): World reads this, store {
      World(Hall(id, owner, open, participants, applications, offers, selected), store.View())
    }

    constructor(id: int, owner: User, store: ChatStore.Store)
      ensures View() == World(NewHall(id, owner), store.View()) && this.store == store
    {
      this.id, this.owner, this.store := id, owner, store;
      open, participants := true, map[owner := Participant(None, true)];
      applications, offers, selected := map[], map[], None;
    }

    /** lockHallOwner: the row lock is taken, then ownership and state are read. */
    predicate OwnerMayAct(actor: User, expired: bool) reads this {
      owner == actor && open && !expired
    }

    method HallApply(actor: User, provider: Provider, expired: bool, eligible: bool) returns (reply: Reply)
      modifies this
      ensures (View(), reply) == Step(old(View()), Apply(actor, provider, expired, eligible))
    {
      if owner == actor || !open || expired || !eligible {
        return Refused;
      }
      var seats := |ActiveProviders(participants)|;
      if seats >= MAX_SEATS {
        return Refused;
      }
      if provider !in applications || applications[provider].state == Declined
         || applications[provider].state == Removed {
        applications := applications[provider := Application(actor, Pending)];
      }
      return Done;
    }

    method HallApprove(actor: User, provider: Provider, expired: bool, independent: bool, paid: bool)
      returns (reply: Reply)
      modifies this, store
      ensures (View(), reply) == Step(old(View()), Approve(actor, provider, expired, independent, paid))
    {
      if !OwnerMayAct(actor, expired) || provider !in applications || !independent {
        return Refused;
      }
      var user, state := applications[provider].requester, applications[provider].state;
      if user == actor {
        return Refused;
      }
      if state == Admitted {
        return Done;
      }
      if state != Pending || !paid {
        return Refused;
      }
      var seats := |ActiveProviders(participants)|;
      if seats >= MAX_SEATS {
        return Refused;
      }
      participants := participants[user := Participant(Some(provider), true)];
      applications := applications[provider := Application(user, Admitted)];
      store.Touch(Room(View().hall));
      return Done;
    }

    method HallDecline(actor: User, provider: Provider, expired: bool) returns (reply: Reply)
      modifies this, store
      ensures (View(), reply) == Step(old(View()), Decline(actor, provider, expired))
    {
      if !OwnerMayAct(actor, expired) || provider !in applications || applications[provider].state != Pending {
        return Refused;
      }
      applications := applications[provider := applications[provider].(state := Declined)];
      store.Touch(Room(View().hall));
      return Done;
    }

    method HallRemove(actor: User, provider: Provider, expired: bool) returns (reply: Reply)
      modifies this, store
      ensures (View(), reply) == Step(old(View()), Remove(actor, provider, expired))
    {
      if !OwnerMayAct(actor, expired) || provider !in applications {
        return Refused;
      }
      var state := applications[provider].state;
      if state == Removed {
        return Done;
      }
      if state != Admitted {
        return Refused;
      }
      participants := WithoutProvider(participants, provider);
      applications := applications[provider := applications[provider].(state := Removed)];
      store.Touch(Room(View().hall));
      return Done;
    }

    method HallOffer(actor: User, price: nat, terms: string, reference: int, expired: bool, eligible: bool,
                     offerId: nat, messageId: nat, now: int) returns (reply: Reply)
      modifies this, store
      ensures (View(), reply) ==
              Step(old(View()), MakeOffer(actor, price, terms, reference, expired, eligible, offerId, messageId, now))
    {
      if price == 0 || price > MAX_PRICE || |terms| > 1000 { return Refused; }
      if !open || expired || actor !in participants || !eligible {
        return Refused;
      }
      var me := participants[actor];
      if !me.active || me.provider.None? {
        return Refused;
      }
      var provider, room, body := me.provider.value, Room(View().hall), OfferText(price, terms);
      var key := ChatStore.Key(actor, ChatStore.Client(reference));
      if key in store.messages {
        var previous := store.messages[key];
        return if previous.room == room && previous.content.body == body then Done else Refused;
      }
      var sent := store.Send(room, actor, key.reference, Text(body), true, messageId, now);
      if sent.Err? {
        return Refused;
      }
      if provider in offers {
        offers := offers[provider := offers[provider].(price := price, terms := terms)];
      } else {
        offers := offers[provider := OfferRow(offerId, actor, price, terms)];
      }
      return Done;
    }

    method CloseHallTx()
      modifies this, store
      ensures View() == World(Shut(old(View().hall)), Bump(old(View())))
    {
      participants := map u <- participants ::
        if participants[u].provider.Some? then participants[u].(active := false) else participants[u];
      applications := map p <- applications ::
        if applications[p].state in {Pending, Admitted} then applications[p].(state := Removed) else applications[p];
      open := false;
      store.Touch(Room(View().hall));
    }

    method HallClose(actor: User, expired: bool) returns (reply: Reply)
      modifies this, store
      ensures (View(), reply) == Step(old(View()), Close(actor, expired))
    {
      if !OwnerMayAct(actor, expired) {
        return Refused;
      }
      CloseHallTx();
      return Done;
    }

    /** On any refusal the transaction rolls back, so the direct room it opened disappears again. */
    method HallChoose(actor: User, offer: nat, close: bool, expired: bool, independent: bool, blocked: bool,
                      messageId: nat, now: int) returns (reply: Reply)
      requires Valid(View().hall)
      modifies this, store
      ensures (View(), reply) ==
              Step(old(View()), Choose(actor, offer, close, expired, independent, blocked, messageId, now))
    {
      if owner != actor {
        return Refused;
      }
      if !open {
        if selected.Some? && selected.value.offer == offer {
          return Selected(selected.value.direct);
        }
        return Refused;
      }
      if expired || !exists p, u | p in offers && u in participants :: OfferedBy(View().hall, offer, p, u) {
        return Refused;
      }
      var provider, peer :| provider in offers && peer in participants && OfferedBy(View().hall, offer, provider, peer);
      assert Offerer(View().hall, offer) == Some((provider, peer));
      if peer == actor || !independent || blocked {
        return Refused;
      }
      var direct, before := DirectOf(actor, peer), store.revisions;
      store.EnsureDirect(direct);
      var message := Handoff(View().hall, offers[provider], actor, peer, messageId, now);
      var sent := store.Send(direct, actor, message.reference, message.content, true, messageId, now);
      if sent.Err? {
        store.revisions := before;
        return Refused;
      }
      selected := Some(Selection(offer, direct));
      if close {
        CloseHallTx();
      }
      return Selected(direct);
    }
  }
}
