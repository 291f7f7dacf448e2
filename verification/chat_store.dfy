/**
  Shared chat messages: retry-safe inserts keyed by (sender, client reference),
  the room revision counter, and the conditional read that answers 304.
 */
module ChatStore {
  import opened Basics

  type User = int

  datatype RoomId = DirectRoom(low: User, high: User) | HallRoom(hall: int)

  /** A client-chosen reference, or the name-based one HallChoose derives from the offer snapshot. */
  datatype Reference = Client(id: int) | Handoff(hall: int, offer: nat, price: nat, terms: string)

  datatype Content = Content(body: string, media: seq<string>, location: Option<string>, replyTo: Option<nat>)
  datatype Key = Key(sender: User, reference: Reference)
  datatype Stored = Stored(id: nat, room: RoomId, content: Content, at: int)

  datatype Chat = Chat(messages: map<Key, Stored>, revisions: map<RoomId, nat>)

  datatype Failure = NotFound | Forbidden | Conflict
  datatype Receipt = Receipt(id: nat, at: int, isNew: bool)

  /** The rows the message list of a room is built from. */
  function RoomMessages(chat: Chat, room: RoomId): map<Key, Stored> {
    map k <- chat.messages | chat.messages[k].room == room :: chat.messages[k]
  }

  function Insert(chat: Chat, room: RoomId, key: Key, content: Content, requested: nat, at: int)
    : (r: (Chat, Result<Receipt, Failure>))
    requires room in chat.revisions
  {
    if key in chat.messages then
      var m := chat.messages[key];
      if m.room == room && m.content == content then (chat, Ok(Receipt(m.id, m.at, false))) else (chat, Err(Conflict))
    else
      (Chat(chat.messages[key := Stored(requested, room, content, at)],
            chat.revisions[room := chat.revisions[room] + 1]),
       Ok(Receipt(requested, at, true)))
  }

  function EnsureRoom(chat: Chat, room: RoomId): Chat {
    if room in chat.revisions then chat else chat.(revisions := chat.revisions[room := 0])
  }

  class Store {
    var messages: map<Key, Stored>
    var revisions: map<RoomId, nat>

    function View(): Chat reads this { Chat(messages, revisions) }

    constructor()
      ensures View() == Chat(map[], map[])
    {
      messages, revisions := map[], map[];
    }

    /** insertSharedMessage: INSERT ... ON CONFLICT(sender, reference) DO UPDATE ... WHERE same content. */
    method InsertSharedMessage(room: RoomId, actor: User, reference: Reference, content: Content, requested: nat,
                               now: int)
      returns (out: Result<Receipt, Failure>)
      requires room in revisions
      modifies this
      ensures (View(), out) == Insert(old(View()), room, Key(actor, reference), content, requested, now)
    {
      var key := Key(actor, reference);
      var id, at, isNew := requested, now, true;
      if key in messages {
        var existing := messages[key];
        if existing.room != room || existing.content != content {
          return Err(Conflict);
        }
        id, at, isNew := existing.id, existing.at, false;
      } else {
        messages := messages[key := Stored(requested, room, content, now)];
      }
      if isNew {
        revisions := revisions[room := revisions[room] + 1];
      }
      out := Ok(Receipt(id, at, isNew));
    }

    /** Send: lock the room and authorise (the verdict is an input), then insert. */
    method Send(room: RoomId, actor: User, reference: Reference, content: Content, permitted: bool, requested: nat,
                now: int)
      returns (out: Result<Receipt, Failure>)
      modifies this
      ensures (View(), out) == Deliver(old(View()), Post(room, actor, reference, content, permitted, requested, now))
    {
      if room !in revisions {
        return Err(NotFound);
      }
      if !permitted {
        return Err(Forbidden);
      }
      out := InsertSharedMessage(room, actor, reference, content, requested, now);
    }

    /** ensureDirectTx. */
    method EnsureDirect(room: RoomId)
      modifies this
      ensures View() == EnsureRoom(old(View()), room)
    {
      if room !in revisions {
        revisions := revisions[room := 0];
      }
    }

    /** UPDATE chat_rooms SET revision=revision+1, as membership changes and closing do. */
    method Touch(room: RoomId)
      modifies this
      ensures View() == Apply(old(View()), Bump(room))
    {
      if room in revisions {
        revisions := revisions[room := revisions[room] + 1];
      }
    }
  }

  // ----- runs -----

  datatype Op =
    | Post(room: RoomId, sender: User, reference: Reference, content: Content, permitted: bool, requested: nat, at: int)
    | Open(room: RoomId)
    | Bump(room: RoomId)

  function Deliver(chat: Chat, op: Op): (Chat, Result<Receipt, Failure>)
    requires op.Post?
  {
    if op.room !in chat.revisions then (chat, Err(NotFound))
    else if !op.permitted then (chat, Err(Forbidden))
    else Insert(chat, op.room, Key(op.sender, op.reference), op.content, op.requested, op.at)
  }

  function Apply(chat: Chat, op: Op): Chat {
    match op
    case Post(_, _, _, _, _, _, _) => Deliver(chat, op).0
    case Open(room) => EnsureRoom(chat, room)
    case Bump(room) =>
      if room in chat.revisions then chat.(revisions := chat.revisions[room := chat.revisions[room] + 1]) else chat
  }

  function Run(chat: Chat, ops: seq<Op>): Chat
    decreases |ops|
  {
    if ops == [] then chat else Run(Apply(chat, ops[0]), ops[1..])
  }

  /** later grew out of chat: revisions never fall, stored messages stay, and no list changes unseen. */
  ghost predicate Grew(chat: Chat, later: Chat) {
    && (forall k <- chat.messages :: k in later.messages && later.messages[k] == chat.messages[k])
    && (forall r <- chat.revisions ::
          r in later.revisions && chat.revisions[r] <= later.revisions[r]
          && (chat.revisions[r] == later.revisions[r] ==> RoomMessages(chat, r) == RoomMessages(later, r)))
  }

  lemma StepGrows(chat: Chat, op: Op)
    ensures Grew(chat, Apply(chat, op))
  {}

  lemma {:induction false} RunGrows(chat: Chat, ops: seq<Op>)
    ensures Grew(chat, Run(chat, ops))
    decreases |ops|
  {
    if ops != [] {
      StepGrows(chat, ops[0]);
      RunGrows(Apply(chat, ops[0]), ops[1..]);
      var mid, last := Apply(chat, ops[0]), Run(chat, ops);
      forall r <- chat.revisions | chat.revisions[r] == last.revisions[r]
        ensures RoomMessages(chat, r) == RoomMessages(last, r)
      {
        assert mid.revisions[r] == chat.revisions[r];
      }
    }
  }

  /**
    The 304 answer is safe although Messages reads the revision before the list:
    the reader saw the revision first and the list after `ops1`; if the revision is
    still the same after `ops2`, the list it holds is the current one.
   */
  lemma NotModifiedIsSafe(chat: Chat, ops1: seq<Op>, ops2: seq<Op>, room: RoomId)
    requires room in chat.revisions
    requires room in Run(Run(chat, ops1), ops2).revisions
    requires Run(Run(chat, ops1), ops2).revisions[room] == chat.revisions[room]
    ensures RoomMessages(Run(Run(chat, ops1), ops2), room) == RoomMessages(Run(chat, ops1), room)
  {
    RunGrows(chat, ops1);
    RunGrows(Run(chat, ops1), ops2);
  }

  /** Whatever happens in between, a resend answers the first id and changes nothing; other content is refused. */
  lemma ResendIsIdempotent(chat: Chat, first: Op, ops: seq<Op>, again: Op)
    requires first.Post? && Deliver(chat, first).1.Ok?
    requires again.Post? && again.permitted && again.room in Run(Apply(chat, first), ops).revisions
    requires again.sender == first.sender && again.reference == first.reference
    ensures var now := Run(Apply(chat, first), ops);
            && Apply(now, again) == now
            && (if again.room == first.room && again.content == first.content
                then Deliver(now, again).1
                    == Ok(Receipt(Deliver(chat, first).1.value.id, Deliver(chat, first).1.value.at, false))
                else Deliver(now, again).1 == Err(Conflict))
  {
    var key := Key(first.sender, first.reference);
    assert key in Apply(chat, first).messages;
    RunGrows(Apply(chat, first), ops);
  }

  /** A new message is what raises the revision of its room, by one, and of no other room. */
  lemma FreshMessageRaisesRevision(chat: Chat, op: Op)
    requires op.Post? && Deliver(chat, op).1.Ok?
    ensures var later := Apply(chat, op);
            && later.revisions.Keys == chat.revisions.Keys
            && (forall r <- chat.revisions :: later.revisions[r] ==
                  chat.revisions[r] + if Deliver(chat, op).1.value.isNew && r == op.room then 1 else 0)
            && (Deliver(chat, op).1.value.isNew <==> RoomMessages(later, op.room) != RoomMessages(chat, op.room))
  {
    var later := Apply(chat, op);
    var key := Key(op.sender, op.reference);
    if Deliver(chat, op).1.value.isNew {
      assert key in RoomMessages(later, op.room) && key !in RoomMessages(chat, op.room);
    }
  }

  // ----- what each call answers -----

  /** The reference is new to the sender, or it stands for the same message in the same room. */
  predicate MayPost(chat: Chat, room: RoomId, key: Key, content: Content) {
    key in chat.messages ==> chat.messages[key].room == room && chat.messages[key].content == content
  }

  /** The message is stored under its reference, and the room's revision is one higher if it was not before. */
  ghost predicate Posted(chat: Chat, later: Chat, room: RoomId, key: Key, content: Content, id: nat, at: int) {
    if key in chat.messages then later == chat
    else
      && later.messages == chat.messages[key := Stored(id, room, content, at)]
      && room in chat.revisions && later.revisions == chat.revisions[room := chat.revisions[room] + 1]
  }

  /** A post is answered exactly when its room exists, its sender may write there and its reference is free for it. */
  lemma PostAnswers(chat: Chat, op: Op)
    requires op.Post?
    ensures var (later, answer) := Deliver(chat, op);
            var key := Key(op.sender, op.reference);
            && (answer.Ok? <==> op.room in chat.revisions && op.permitted && MayPost(chat, op.room, key, op.content))
            && (answer.Ok? ==> Posted(chat, later, op.room, key, op.content, op.requested, op.at))
            && (answer.Ok? ==>
                  key in later.messages
                  && answer.value == Receipt(later.messages[key].id, later.messages[key].at, key !in chat.messages))
            && (answer.Err? ==> later == chat)
            && (answer.Err? ==>
                  answer.error == if op.room !in chat.revisions then NotFound
                                  else if !op.permitted then Forbidden
                                  else Conflict)
  {}

  /** Opening a room adds it at revision zero if it is new; a membership change raises its revision by one. */
  lemma RoomCallsAnswer(chat: Chat, room: RoomId)
    ensures var ready := Apply(chat, Open(room));
            ready.messages == chat.messages && room in ready.revisions
            && ready.revisions == chat.revisions[room := if room in chat.revisions then chat.revisions[room] else 0]
    ensures var bumped := Apply(chat, Bump(room));
            bumped.messages == chat.messages && bumped.revisions.Keys == chat.revisions.Keys
            && forall r <- chat.revisions :: bumped.revisions[r] == chat.revisions[r] + if r == room then 1 else 0
  {
    if room in chat.revisions { assert chat.revisions[room := chat.revisions[room]] == chat.revisions; }
  }

  /** A run is its calls one after the other. */
  lemma {:induction false} RunGoesOn(chat: Chat, ops: seq<Op>, op: Op)
    ensures Run(chat, []) == chat && Run(chat, ops + [op]) == Apply(Run(chat, ops), op)
    decreases |ops|
  {
    if ops == [] {
      assert [op][1..] == [] && ops + [op] == [op];
    } else {
      RunGoesOn(Apply(chat, ops[0]), ops[1..], op);
      assert (ops + [op])[1..] == ops[1..] + [op];
    }
  }
}
