/**
  What each Town Hall call answers, on the rows of the room: when it goes through,
  and exactly what it then changes.
 */
module TownHallAnswers {
  import opened Basics
  import opened TownHall
  import Ascii = Text
  import ChatStore

  // ----- the state of a room -----

  /** The owner of a room that is open and has not run out. */
  predicate OwnerActs(h: Hall, actor: User, expired: bool) { h.owner == actor && h.open && !expired }

  predicate Stands(h: Hall, provider: Provider, state: Stage) {
    provider in h.applications && h.applications[provider].state == state
  }

  predicate HasSeatFree(h: Hall) { |ActiveProviders(h.participants)| < 10 }

  /** The chat after the revision of this room went up by one. */
  ghost predicate Touched(was: ChatStore.Chat, now: ChatStore.Chat, room: ChatStore.RoomId) {
    && now.messages == was.messages && now.revisions.Keys == was.revisions.Keys
    && forall r <- was.revisions :: now.revisions[r] == was.revisions[r] + if r == room then 1 else 0
  }

  function MovedTo(h: Hall, provider: Provider, state: Stage): map<Provider, Application>
    requires provider in h.applications
  {
    h.applications[provider := Application(h.applications[provider].requester, state)]
  }

  // ----- applying and membership -----

  /** Anybody but the owner may apply while there is a seat; a live application is left as it is. */
  lemma ApplyAnswers(w: World, op: Op)
    requires op.Apply?
    ensures var (next, reply) := Step(w, op);
            var h := w.hall;
            && (reply == Done <==> op.actor != h.owner && h.open && !op.expired && op.eligible && HasSeatFree(h))
            && (reply != Done ==> reply == Refused && next == w)
            && (reply == Done && (Stands(h, op.provider, Pending) || Stands(h, op.provider, Admitted)) ==> next == w)
            && (reply == Done && !Stands(h, op.provider, Pending) && !Stands(h, op.provider, Admitted) ==>
                  next == w.(hall := h.(applications := h.applications[op.provider := Application(op.actor, Pending)])))
  {}

  /** The owner admits a pending provider that is independent and paid while there is a seat, never itself. */
  lemma ApproveAnswers(w: World, op: Op)
    requires op.Approve?
    ensures var (next, reply) := Step(w, op);
            var h := w.hall;
            var mine := OwnerActs(h, op.actor, op.expired) && op.independent && op.provider in h.applications
                        && h.applications[op.provider].requester != op.actor;
            && (reply == Done <==>
                  mine && (Stands(h, op.provider, Admitted)
                           || (Stands(h, op.provider, Pending) && op.paid && HasSeatFree(h))))
            && (reply != Done ==> reply == Refused && next == w)
            && (reply == Done && Stands(h, op.provider, Admitted) ==> next == w)
            && (reply == Done && Stands(h, op.provider, Pending) ==>
                  && next.hall == h.(participants := h.participants[h.applications[op.provider].requester :=
                                       Participant(Some(op.provider), true)],
                                     applications := MovedTo(h, op.provider, Admitted))
                  && Touched(w.chat, next.chat, ChatStore.HallRoom(h.id)))
  {}

  lemma DeclineAnswers(w: World, op: Op)
    requires op.Decline?
    ensures var (next, reply) := Step(w, op);
            && (reply == Done <==> OwnerActs(w.hall, op.actor, op.expired) && Stands(w.hall, op.provider, Pending))
            && (reply != Done ==> reply == Refused && next == w)
            && (reply == Done ==>
                  && next.hall == w.hall.(applications := MovedTo(w.hall, op.provider, Declined))
                  && Touched(w.chat, next.chat, ChatStore.HallRoom(w.hall.id)))
  {}

  /** Everyone who sits there for the provider loses the seat, and nobody else's row changes. */
  ghost predicate Unseated(was: map<User, Participant>, now: map<User, Participant>, provider: Provider) {
    && now.Keys == was.Keys
    && forall u <- was ::
         now[u] == if was[u].provider == Some(provider) then Participant(Some(provider), false) else was[u]
  }

  lemma RemoveAnswers(w: World, op: Op)
    requires op.Remove?
    ensures var (next, reply) := Step(w, op);
            var h := w.hall;
            && (reply == Done <==>
                  OwnerActs(h, op.actor, op.expired)
                      && (Stands(h, op.provider, Removed) || Stands(h, op.provider, Admitted)))
            && (reply != Done ==> reply == Refused && next == w)
            && (reply == Done && Stands(h, op.provider, Removed) ==> next == w)
            && (reply == Done && Stands(h, op.provider, Admitted) ==>
                  && Unseated(h.participants, next.hall.participants, op.provider)
                  && next.hall == h.(participants := next.hall.participants,
                                     applications := MovedTo(h, op.provider, Removed))
                  && Touched(w.chat, next.chat, ChatStore.HallRoom(h.id)))
  {}

  // ----- closing -----

  /** The room is shut: no provider row is active, live applications are removed, all else is kept. */
  ghost predicate ShutFrom(h: Hall, shut: Hall) {
    && !shut.open && shut.participants.Keys == h.participants.Keys && shut.applications.Keys == h.applications.Keys
    && (forall u <- h.participants :: shut.participants[u] ==
          if h.participants[u].provider.Some? then Participant(h.participants[u].provider, false)
          else h.participants[u])
    && (forall p <- h.applications :: shut.applications[p] ==
          Application(h.applications[p].requester,
                      if h.applications[p].state == Declined then Declined else Removed))
    && shut == h.(open := false, participants := shut.participants, applications := shut.applications)
  }

  lemma ShutIs(h: Hall)
    ensures ShutFrom(h, Shut(h))
  {}

  lemma CloseAnswers(w: World, op: Op)
    requires op.Close?
    ensures var (next, reply) := Step(w, op);
            && (reply == Done <==> OwnerActs(w.hall, op.actor, op.expired))
            && (reply != Done ==> reply == Refused && next == w)
            && (reply == Done ==>
                  ShutFrom(w.hall, next.hall) && Touched(w.chat, next.chat, ChatStore.HallRoom(w.hall.id)))
  {
    ShutIs(w.hall);
  }

  // ----- offers -----

  /** The provider an active seat of this user speaks for. */
  predicate SeatedFor(h: Hall, u: User) {
    u in h.participants && h.participants[u].active && h.participants[u].provider.Some?
  }

  /** An offer whose reference was used before is answered by what stands under it. */
  predicate SameOffer(w: World, op: Op)
    requires op.MakeOffer?
  {
    var key := ChatStore.Key(op.actor, ChatStore.Client(op.reference));
    key in w.chat.messages && w.chat.messages[key].room == ChatStore.HallRoom(w.hall.id)
    && w.chat.messages[key].content.body == OfferText(op.price, op.terms)
  }

  predicate ReferenceUsed(w: World, op: Op)
    requires op.MakeOffer?
  {
    ChatStore.Key(op.actor, ChatStore.Client(op.reference)) in w.chat.messages
  }

  /** The one offer of the provider carries the new price and terms; its first identifier and sender stay. */
  ghost predicate OfferStored(h: Hall, next: Hall, provider: Provider, op: Op)
    requires op.MakeOffer?
  {
    next == h.(offers := h.offers[provider :=
      if provider in h.offers then OfferRow(h.offers[provider].id, h.offers[provider].sender, op.price, op.terms)
      else OfferRow(op.offerId, op.actor, op.price, op.terms)])
  }

  /**
    A seated, eligible provider's offer is stored and posted once; the same offer under
    the same reference is answered again without a change.
   */
  lemma OfferAnswers(w: World, op: Op)
    requires op.MakeOffer?
    ensures var (next, reply) := Step(w, op);
            var h := w.hall;
            var key := ChatStore.Key(op.actor, ChatStore.Client(op.reference));
            var may := 0 < op.price <= 1000000000000 && |op.terms| <= 1000 && h.open && !op.expired && op.eligible
                       && SeatedFor(h, op.actor);
            && (reply == Done <==>
                  may && (SameOffer(w, op) || (!ReferenceUsed(w, op) && ChatStore.HallRoom(h.id) in w.chat.revisions)))
            && (reply != Done ==> reply == Refused && next == w)
            && (reply == Done && SameOffer(w, op) ==> next == w)
            && (reply == Done && !SameOffer(w, op) ==>
                  && OfferStored(h, next.hall, h.participants[op.actor].provider.value, op)
                  && ChatStore.Posted(w.chat, next.chat, ChatStore.HallRoom(h.id), key,
                       ChatStore.Content(OfferText(op.price, op.terms), [], None, None), op.messageId, op.at))
  {}

  lemma DigitsReachTheDot(a: string, s: string, b: string, t: string)
    requires Ascii.AllDigits(b) && a + ". " + s == b + ". " + t
    ensures |b| <= |a|
  {
    var x := b + ". " + t;
    assert forall i | 0 <= i < |b| :: x[i] == b[i];
    assert (a + ". " + s)[|a|] == '.';
  }

  lemma TextAfterHead(head: string, x: string, y: string)
    requires head + x == head + y
    ensures x == y
  {
    assert x == (head + x)[|head|..] && y == (head + y)[|head|..];
  }

  lemma SplitAtTheDot(a: string, s: string, b: string, t: string)
    requires Ascii.AllDigits(a) && Ascii.AllDigits(b) && a + ". " + s == b + ". " + t
    ensures a == b && s == t
  {
    DigitsReachTheDot(a, s, b, t);
    DigitsReachTheDot(b, t, a, s);
    assert a == (a + ". " + s)[..|a|] && b == (b + ". " + t)[..|b|];
    TextAfterHead(a + ". ", s, t);
  }

  lemma Regroup(head: string, a: string, s: string)
    ensures head + a + ". " + s == head + (a + ". " + s)
  {}

  /** The number and the text behind it are told from a text that starts with both. */
  lemma NumberThenText(head: string, n: nat, s: string, m: nat, t: string)
    requires head + Ascii.Decimal(n) + ". " + s == head + Ascii.Decimal(m) + ". " + t
    ensures n == m && s == t
  {
    var a, b := Ascii.Decimal(n), Ascii.Decimal(m);
    Regroup(head, a, s);
    Regroup(head, b, t);
    TextAfterHead(head, a + ". " + s, b + ". " + t);
    Ascii.DecimalRoundTrip(n);
    Ascii.DecimalRoundTrip(m);
    SplitAtTheDot(a, s, b, t);
  }

  /** The posted text of an offer tells its price and its terms. */
  lemma OfferTextTells(price: nat, terms: string, other: nat, others: string)
    ensures OfferText(price, terms) == OfferText(other, others) <==> price == other && terms == others
  {
    if OfferText(price, terms) == OfferText(other, others) {
      NumberThenText("Offer: NGN ", price, terms, other, others);
    }
  }

  // ----- choosing -----

  /** The direct room of two users, whichever way round. */
  function PairRoom(a: User, b: User): ChatStore.RoomId {
    ChatStore.DirectRoom(if a < b then a else b, if a < b then b else a)
  }

  lemma OnlyOfferer(h: Hall, offer: nat, provider: Provider, peer: User)
    requires Valid(h) && OfferedBy(h, offer, provider, peer)
    ensures Offerer(h, offer) == Some((provider, peer))
  {}

  /** The hand-off: its reference names the offer as it stands, its text says price and terms. */
  function HandoffMessage(h: Hall, row: OfferRow, actor: User): (ChatStore.Key, ChatStore.Content) {
    (ChatStore.Key(actor, ChatStore.Handoff(h.id, row.id, row.price, row.terms)),
     ChatStore.Content(Summary(row.price, row.terms), [], None, None))
  }

  function PowerOfTen(k: nat): nat { if k == 0 then 1 else 10 * PowerOfTen(k - 1) }

  lemma {:induction false} FewDigits(n: nat, k: nat)
    requires n < PowerOfTen(k) && k > 0
    ensures |Ascii.Decimal(n)| <= k
  {
    if n >= 10 {
      assert PowerOfTen(k) == 10 * PowerOfTen(k - 1);
      assert n / 10 < PowerOfTen(k - 1);
      assert PowerOfTen(0) == 1;
      FewDigits(n / 10, k - 1);
    }
  }

  lemma SummaryIsWhole(price: nat, terms: string)
    requires ValidOffer(price, terms)
    ensures Summary(price, terms) == "Selected Town Hall offer: NGN " + Ascii.Decimal(price) + ". " + terms
  {
    assert PowerOfTen(4) == 10000;
    assert PowerOfTen(8) == 100000000;
    assert PowerOfTen(13) == 10000000000000;
    FewDigits(price, 13);
  }

  /** No valid offer is long enough to be cut, so its hand-off tells its price and its terms as well. */
  lemma SummaryTells(price: nat, terms: string, other: nat, others: string)
    requires ValidOffer(price, terms) && ValidOffer(other, others)
    ensures Summary(price, terms) == Summary(other, others) <==> price == other && terms == others
  {
    SummaryIsWhole(price, terms);
    SummaryIsWhole(other, others);
    if Summary(price, terms) == Summary(other, others) {
      NumberThenText("Selected Town Hall offer: NGN ", price, terms, other, others);
    }
  }

  /** What choosing the standing offer of a seated provider asks for. */
  ghost predicate MayChoose(w: World, op: Op, provider: Provider, peer: User)
    requires op.Choose? && provider in w.hall.offers
  {
    var (key, content) := HandoffMessage(w.hall, w.hall.offers[provider], op.actor);
    && OwnerActs(w.hall, op.actor, op.expired) && peer != op.actor && op.independent && !op.blocked
    && ChatStore.MayPost(w.chat, PairRoom(op.actor, peer), key, content)
  }

  /** The direct room is there, the hand-off is in it, the choice is noted, and the room is shut if asked. */
  ghost predicate Chose(w: World, next: World, op: Op, provider: Provider, peer: User)
    requires op.Choose? && provider in w.hall.offers
  {
    var (key, content) := HandoffMessage(w.hall, w.hall.offers[provider], op.actor);
    var direct := PairRoom(op.actor, peer);
    var noted := w.hall.(selected := Some(Selection(op.offer, direct)));
    exists posted: ChatStore.Chat ::
      && ChatStore.Posted(ChatStore.Apply(w.chat, ChatStore.Open(direct)), posted, direct, key, content, op.messageId,
                          op.at)
      && (if op.close then ShutFrom(noted, next.hall) && Touched(posted, next.chat, ChatStore.HallRoom(w.hall.id))
          else next.hall == noted && next.chat == posted)
  }

  /**
    The owner's choice of the offer of a seated peer goes through exactly when the room
    is open, the provider is independent, the two are not blocked and the hand-off's
    reference is free for it; it then opens the chat, hands over and closes as asked.
   */
  lemma ChoiceAnswers(w: World, op: Op, provider: Provider, peer: User)
    requires op.Choose? && Valid(w.hall) && w.hall.open && OfferedBy(w.hall, op.offer, provider, peer)
    ensures var (next, reply) := Step(w, op);
            && (reply.Selected? <==> MayChoose(w, op, provider, peer))
            && (reply.Selected? ==> reply.direct == PairRoom(op.actor, peer) && Chose(w, next, op, provider, peer))
            && (!reply.Selected? ==> reply == Refused && next == w)
  {
    OnlyOfferer(w.hall, op.offer, provider, peer);
    var direct := DirectOf(op.actor, peer);
    var (posted, sent) := ChatStore.Deliver(ChatStore.EnsureRoom(w.chat, direct),
      Handoff(w.hall, w.hall.offers[provider], op.actor, peer, op.messageId, op.at));
    ShutIs(w.hall.(selected := Some(Selection(op.offer, direct))));
    if Step(w, op).1.Selected? {
      var (key, content) := HandoffMessage(w.hall, w.hall.offers[provider], op.actor);
      assert ChatStore.Posted(ChatStore.Apply(w.chat, ChatStore.Open(direct)), posted, direct, key, content,
                              op.messageId, op.at);
    }
  }

  /** Without a seated offerer nothing is chosen; a closed room repeats its saved choice to its owner and no other. */
  lemma OtherChoicesAnswer(w: World, op: Op)
    requires op.Choose?
    requires w.hall.open ==> forall provider, peer :: !OfferedBy(w.hall, op.offer, provider, peer)
    ensures Step(w, op).0 == w
    ensures var selected := w.hall.selected;
            Step(w, op).1 ==
              if !w.hall.open && op.actor == w.hall.owner && selected.Some? && selected.value.offer == op.offer
              then Selected(selected.value.direct) else Refused
  {}

  /** A run is its calls one after the other. */
  lemma {:induction false} RunGoesOn(w: World, ops: seq<Op>, op: Op)
    ensures Run(w, []) == w && Run(w, ops + [op]) == Step(Run(w, ops), op).0
    decreases |ops|
  {
    if ops == [] {
      assert [op][1..] == [] && ops + [op] == [op];
    } else {
      RunGoesOn(Step(w, ops[0]).0, ops[1..], op);
      assert (ops + [op])[1..] == ops[1..] + [op];
    }
  }
}
