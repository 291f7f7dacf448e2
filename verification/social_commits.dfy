/**
  What each chat, friend and block handler leaves in the tables when it commits,
  among any other handlers, and when a handler that runs alone gets there.
 */
module SocialCommits {
  import opened SocialLocks

  /** Neither of the two blocks the other. */
  predicate NeitherBlocks(blocks: set<(User, User)>, q: Pair) { blocks !! {(q.low, q.high), (q.high, q.low)} }

  predicate InPair(a: User, q: Pair) { a == q.low || a == q.high }

  /** The message is there afterwards: it was before, or its reference was unused and it is the newest. */
  ghost predicate Posted(was: seq<Message>, now: seq<Message>, m: Message) {
    if m in was then now == was else !Used(was, m.sender, m.reference) && now == was + [m]
  }

  predicate PendingFromOther(tables: Tables, q: Pair, a: User) {
    && InPair(a, q) && q in tables.connections
    && tables.connections[q].state == Pending && tables.connections[q].requestedBy != a
  }

  predicate AreFriends(tables: Tables, q: Pair) { q in tables.connections && tables.connections[q].state == Accepted }

  /** The one row changes its state and keeps who asked. */
  function WithState(connections: map<Pair, Connection>, q: Pair, state: Friendship): map<Pair, Connection>
    requires q in connections
  {
    connections[q := Connection(state, connections[q].requestedBy)]
  }

  /** A request opens a missing or declined connection and leaves any other as it is. */
  function WithRequest(connections: map<Pair, Connection>, q: Pair, a: User): map<Pair, Connection> {
    if q in connections && connections[q].state != Declined then connections
    else connections[q := Connection(Pending, a)]
  }

  /** The tables just before and just after the commit of a handler. */
  ghost predicate Effect(h: Handler, was: Tables, now: Tables)
    requires WellFormed(h)
  {
    match h
    case RequestFriend(a, b) =>
      && NeitherBlocks(was.blocks, PairOf(a, b))
      && now == was.(connections := WithRequest(was.connections, PairOf(a, b), a))
    case ReplyFriend(a, q, accept) =>
      && NeitherBlocks(was.blocks, q) && PendingFromOther(was, q, a)
      && now == was.(connections := WithState(was.connections, q, if accept then Accepted else Declined))
    case Block(a, b) =>
      var q := PairOf(a, b);
      now == was.(blocks := was.blocks + {(a, b)},
                  connections := if q in was.connections then WithState(was.connections, q, Declined)
                                 else was.connections)
    case Unblock(a, b) => now == was.(blocks := was.blocks - {(a, b)})
    case RemoveFriend(a, q) =>
      && InPair(a, q) && q in was.connections
      && now == was.(connections := WithState(was.connections, q, Declined))
    case StartDirect(a, b) =>
      NeitherBlocks(was.blocks, PairOf(a, b)) && now == was.(rooms := was.rooms + {PairOf(a, b)})
    case SendDirect(a, q, ref) =>
      && NeitherBlocks(was.blocks, q) && InPair(a, q) && q in was.rooms
      && now == was.(messages := now.messages) && Posted(was.messages, now.messages, Message(a, ref, Direct(q)))
    case SendHall(a, hall, ref) =>
      now == was.(messages := now.messages) && Posted(was.messages, now.messages, Message(a, ref, Hall(hall)))
    case HallChoose(a, _, b, ref) =>
      var q := PairOf(a, b);
      && NeitherBlocks(was.blocks, q)
      && now == was.(rooms := was.rooms + {q}, messages := now.messages)
      && Posted(was.messages, now.messages, Message(a, ref, Direct(q)))
  }

  // ----- what a process has staged so far -----

  function NewRow(tables: Tables, q: Pair, state: Friendship): map<Pair, Connection>
    requires q in tables.connections
  {
    map[q := Connection(state, tables.connections[q].requestedBy)]
  }

  function NewMessages(tables: Tables, m: Message): seq<Message> { if m in tables.messages then [] else [m] }

  /** The staged writes of a process, told from its position and the tables as they are now. */
  ghost predicate Planned(tables: Tables, p: Process) {
    match p.handler
    case RequestFriend(a, b) =>
      var q := PairOf(a, b);
      var row := if q in tables.connections && tables.connections[q].state != Declined then tables.connections[q]
                 else Connection(Pending, a);
      p.staged == if p.at >= 4 then NOTHING.(connections := map[q := row]) else NOTHING
    case ReplyFriend(a, q, accept) =>
      if p.at < 4 then p.staged == NOTHING
      else
        && ConnectionRow(q) in p.held && PendingFromOther(tables, q, a)
        && p.staged == NOTHING.(connections := NewRow(tables, q, if accept then Accepted else Declined))
    case Block(a, b) =>
      var q := PairOf(a, b);
      p.staged == NOTHING.(
        added := if p.at >= 3 then {(a, b)} else {},
        connections := if p.at >= 5 && q in tables.connections then NewRow(tables, q, Declined) else map[])
    case Unblock(a, b) => p.staged == NOTHING.(dropped := if p.at >= 3 then {(a, b)} else {})
    case RemoveFriend(a, q) =>
      if p.at < 2 then p.staged == NOTHING && (ConnectionRow(q) in p.held ==> p.at == 1 && q in tables.connections)
      else
        && ConnectionRow(q) in p.held && InPair(a, q) && q in tables.connections
        && p.staged == NOTHING.(connections := NewRow(tables, q, Declined))
    case StartDirect(a, b) => p.staged == NOTHING.(rooms := if p.at >= 4 then {PairOf(a, b)} else {})
    case SendDirect(a, q, ref) =>
      && (p.at >= 1 ==> InPair(a, q))
      && p.staged == NOTHING.(messages := if p.at >= 4 then NewMessages(tables, Message(a, ref, Direct(q))) else [])
    case SendHall(a, hall, ref) =>
      p.staged == NOTHING.(messages := if p.at >= 3 then NewMessages(tables, Message(a, ref, Hall(hall))) else [])
    case HallChoose(a, _, b, ref) =>
      var q := PairOf(a, b);
      p.staged == NOTHING.(
        rooms := if p.at >= 5 then {q} else {},
        messages := if p.at >= 7 then NewMessages(tables, Message(a, ref, Direct(q))) else [])
  }

  ghost predicate AllPlanned(s: System) { forall t <- s.processes :: Planned(s.tables, s.processes[t]) }

  lemma MovedFriendsPlanned(tables: Tables, p: Process)
    requires Facts(tables, p) && Planned(tables, p) && Succeeds(tables, p) && Current(p) != Commit
    requires p.handler.RequestFriend? || p.handler.ReplyFriend? || p.handler.RemoveFriend?
    ensures Planned(tables, Moved(tables, p))
  {}

  lemma MovedBlocksPlanned(tables: Tables, p: Process)
    requires Facts(tables, p) && Planned(tables, p) && Succeeds(tables, p) && Current(p) != Commit
    requires p.handler.Block? || p.handler.Unblock?
    ensures Planned(tables, Moved(tables, p))
  {
    if p.handler.Block? && p.at == 4 {
      assert Established(tables, p, Program(p.handler)[0]);
      assert Established(tables, p, Program(p.handler)[3]);
    }
  }

  lemma MovedChatsPlanned(tables: Tables, p: Process)
    requires Facts(tables, p) && Planned(tables, p) && Succeeds(tables, p) && Current(p) != Commit
    requires p.handler.StartDirect? || p.handler.SendDirect? || p.handler.SendHall? || p.handler.HallChoose?
    ensures Planned(tables, Moved(tables, p))
  {}

  lemma MovedPlanned(tables: Tables, p: Process)
    requires Facts(tables, p) && Planned(tables, p) && Succeeds(tables, p) && Current(p) != Commit
    ensures Planned(tables, Moved(tables, p))
  {
    match p.handler
    case RequestFriend(_, _) => MovedFriendsPlanned(tables, p);
    case ReplyFriend(_, _, _) => MovedFriendsPlanned(tables, p);
    case RemoveFriend(_, _) => MovedFriendsPlanned(tables, p);
    case Block(_, _) => MovedBlocksPlanned(tables, p);
    case Unblock(_, _) => MovedBlocksPlanned(tables, p);
    case _ => MovedChatsPlanned(tables, p);
  }

  // ----- the plans of the others survive a commit -----

  /** Whoever writes a connection row holds its lock. */
  lemma StagedRowsHeld(tables: Tables, p: Process, q: Pair)
    requires Facts(tables, p) && Planned(tables, p) && q in p.staged.connections
    ensures ConnectionRow(q) in p.held
  {
    if p.handler.RequestFriend? {
      assert Established(tables, p, Program(p.handler)[2]);
    } else if p.handler.Block? {
      assert Established(tables, p, Program(p.handler)[0]);
      assert Established(tables, p, Program(p.handler)[3]);
    }
  }

  /** A held row stays as it is, and a missing row stays missing under the pair lock. */
  lemma CommitKeepsRow(s: System, t: nat, u: nat, q: Pair)
    requires Inv(s) && AllPlanned(s) && t in s.processes && u in s.processes && t != u
    requires ConnectionRow(q) in s.processes[u].held
      || (SocialPair(q) in s.processes[u].held && q !in s.tables.connections)
    ensures q !in s.processes[t].staged.connections
  {
    var p := s.processes[t];
    assert p.held !! s.processes[u].held;
    assert Consistent(s.tables, p);
    if q in p.staged.connections { StagedRowsHeld(s.tables, p, q); }
  }

  /** The pair whose connection a friend or block handler writes. */
  function FriendPair(h: Handler): Pair
    requires WellFormed(h) && (h.RequestFriend? || h.ReplyFriend? || h.RemoveFriend? || h.Block?)
  {
    match h
    case RequestFriend(a, b) => PairOf(a, b)
    case Block(a, b) => PairOf(a, b)
    case _ => h.pair
  }

  lemma PlannedFollowsRow(tables: Tables, tables': Tables, p: Process)
    requires Planned(tables, p) && !p.handler.Unblock?
    requires p.handler.RequestFriend? || p.handler.ReplyFriend? || p.handler.RemoveFriend? || p.handler.Block?
    requires var q := FriendPair(p.handler);
             && (p.staged.connections != map[] || ConnectionRow(q) in p.held || (p.handler.Block? && p.at >= 5) ==>
                   && (q in tables'.connections <==> q in tables.connections)
                   && (q in tables.connections ==> tables'.connections[q] == tables.connections[q]))
    ensures Planned(tables', p)
  {}

  lemma CommitKeepsFriendsPlanned(s: System, t: nat, u: nat)
    requires Inv(s) && AllPlanned(s) && t in s.processes && u in s.processes && t != u
    requires var h := s.processes[u].handler; h.RequestFriend? || h.ReplyFriend? || h.RemoveFriend? || h.Block?
    ensures Planned(Publish(s.tables, s.processes[t].staged), s.processes[u])
  {
    var v := s.processes[u];
    var q := FriendPair(v.handler);
    assert Consistent(s.tables, v);
    if v.staged.connections != map[] || ConnectionRow(q) in v.held || (v.handler.Block? && v.at >= 5) {
      OwnRowHeld(s.tables, v);
      CommitKeepsRow(s, t, u, q);
    }
    PlannedFollowsRow(s.tables, Publish(s.tables, s.processes[t].staged), v);
  }

  lemma OwnRowHeld(tables: Tables, p: Process)
    requires Facts(tables, p) && Planned(tables, p)
    requires p.handler.RequestFriend? || p.handler.ReplyFriend? || p.handler.RemoveFriend? || p.handler.Block?
    requires var q := FriendPair(p.handler);
             p.staged.connections != map[] || ConnectionRow(q) in p.held || (p.handler.Block? && p.at >= 5)
    ensures var q := FriendPair(p.handler);
            ConnectionRow(q) in p.held || (SocialPair(q) in p.held && q !in tables.connections)
  {
    var q := FriendPair(p.handler);
    if q in p.staged.connections {
      StagedRowsHeld(tables, p, q);
    } else if p.handler.Block? && p.at >= 5 {
      assert Established(tables, p, Program(p.handler)[0]);
      assert Established(tables, p, Program(p.handler)[3]);
    }
  }

  lemma CommitKeepsChatsPlanned(s: System, t: nat, u: nat)
    requires Inv(s) && AllPlanned(s) && t in s.processes && u in s.processes && t != u
    requires Current(s.processes[t]) == Commit
    requires var h := s.processes[u].handler; h.StartDirect? || h.SendDirect? || h.SendHall? || h.HallChoose?
    ensures Planned(Publish(s.tables, s.processes[t].staged), s.processes[u])
  {
    var v := s.processes[u];
    var tables' := Publish(s.tables, s.processes[t].staged);
    CommitKeepsOthers(s, t, u);
    assert StagedOnce(tables', v);
    forall m | v.staged.messages == [m] ensures m !in tables'.messages { assert m in v.staged.messages; }
  }

  lemma CommitKeepsPlanned(s: System, t: nat, u: nat)
    requires Inv(s) && AllPlanned(s) && t in s.processes && u in s.processes && t != u
    requires Current(s.processes[t]) == Commit
    ensures Planned(Publish(s.tables, s.processes[t].staged), s.processes[u])
  {
    match s.processes[u].handler
    case StartDirect(_, _) => CommitKeepsChatsPlanned(s, t, u);
    case SendDirect(_, _, _) => CommitKeepsChatsPlanned(s, t, u);
    case SendHall(_, _, _) => CommitKeepsChatsPlanned(s, t, u);
    case HallChoose(_, _, _, _) => CommitKeepsChatsPlanned(s, t, u);
    case Unblock(_, _) =>
    case _ => CommitKeepsFriendsPlanned(s, t, u);
  }

  lemma StepKeepsPlanned(s: System, e: Event)
    requires Inv(s) && AllPlanned(s) && Enabled(s, e)
    ensures AllPlanned(Next(s, e))
  {
    if e.Advance? {
      var p := s.processes[e.id];
      if Current(p) == Commit {
        forall u <- Next(s, e).processes ensures Planned(Next(s, e).tables, Next(s, e).processes[u]) {
          CommitKeepsPlanned(s, e.id, u);
        }
      } else {
        assert Consistent(s.tables, p);
        MovedPlanned(s.tables, p);
      }
    }
  }

  lemma {:induction false} RunKeepsPlanned(s: System, es: seq<Event>)
    requires Inv(s) && AllPlanned(s) && ValidRun(s, es)
    ensures Inv(After(s, es)) && AllPlanned(After(s, es))
    decreases |es|
  {
    if es != [] {
      StepKeepsInv(s, es[0]);
      StepKeepsPlanned(s, es[0]);
      RunKeepsPlanned(Next(s, es[0]), es[1..]);
    }
  }

  // ----- what a commit changes -----

  lemma RequestCommitEffect(tables: Tables, p: Process)
    requires Consistent(tables, p) && Planned(tables, p) && Current(p) == Commit && p.handler.RequestFriend?
    ensures Effect(p.handler, tables, Publish(tables, p.staged))
  {
    var q := PairOf(p.handler.actor, p.handler.peer);
    assert Established(tables, p, Program(p.handler)[1]);
    assert Publish(tables, p.staged).connections == WithRequest(tables.connections, q, p.handler.actor);
  }

  lemma FriendsCommitEffect(tables: Tables, p: Process)
    requires Consistent(tables, p) && Planned(tables, p) && Current(p) == Commit
    requires p.handler.ReplyFriend? || p.handler.RemoveFriend? || p.handler.Block? || p.handler.Unblock?
    ensures Effect(p.handler, tables, Publish(tables, p.staged))
  {
    if p.handler.ReplyFriend? { assert Established(tables, p, Program(p.handler)[1]); }
  }

  lemma ChatsCommitEffect(tables: Tables, p: Process)
    requires Consistent(tables, p) && Planned(tables, p) && Current(p) == Commit
    requires var h := p.handler; h.StartDirect? || h.SendDirect? || h.SendHall? || h.HallChoose?
    ensures Effect(p.handler, tables, Publish(tables, p.staged))
  {
    forall m | p.staged.messages == [m] ensures !Used(tables.messages, m.sender, m.reference) {
      assert m in p.staged.messages;
    }
    match p.handler
    case StartDirect(_, _) => assert Established(tables, p, Program(p.handler)[1]);
    case SendDirect(_, _, _) =>
      assert Established(tables, p, Program(p.handler)[0]);
      assert Established(tables, p, Program(p.handler)[1]);
    case HallChoose(_, _, _, _) => assert Established(tables, p, Program(p.handler)[2]);
    case _ =>
  }

  lemma CommitEffect(tables: Tables, p: Process)
    requires Consistent(tables, p) && Planned(tables, p) && Current(p) == Commit
    ensures Effect(p.handler, tables, Publish(tables, p.staged))
  {
    match p.handler
    case StartDirect(_, _) => ChatsCommitEffect(tables, p);
    case SendDirect(_, _, _) => ChatsCommitEffect(tables, p);
    case SendHall(_, _, _) => ChatsCommitEffect(tables, p);
    case HallChoose(_, _, _, _) => ChatsCommitEffect(tables, p);
    case RequestFriend(_, _) => RequestCommitEffect(tables, p);
    case _ => FriendsCommitEffect(tables, p);
  }

  // ----- locks -----

  /**
    A handler begins with no lock, keeps what it holds from step to step, and gives
    it all back at its end, by commit or rollback; nobody else's locks change.
   */
  ghost predicate LocksMove(x: System, y: System, e: Event) {
    && y.processes - {e.id} == x.processes - {e.id}
    && match e
       case Begin(t, h) => t in y.processes && y.processes[t].handler == h && y.processes[t].held == {}
       case Rollback(t) => t !in y.processes
       case Advance(t) =>
         t in x.processes && t in y.processes ==>
           && y.processes[t].handler == x.processes[t].handler
           && x.processes[t].held <= y.processes[t].held <= x.processes[t].held + MayLock(Current(x.processes[t]))
  }

  /** That is so for every step of every run. */
  lemma EveryStepMovesLocks(s: System, es: seq<Event>, e: Event)
    requires ValidRun(s, es) && Enabled(After(s, es), e)
    ensures LocksMove(After(s, es), Next(After(s, es), e), e)
  {
    OneStepMovesLocks(After(s, es), e);
  }

  lemma OneStepMovesLocks(x: System, e: Event)
    requires Enabled(x, e)
    ensures LocksMove(x, Next(x, e), e)
  {
    var y := Next(x, e);
    assert y.processes - {e.id} == x.processes - {e.id};
  }

  // ----- commits -----

  /**
    In every run, the step that ends a handler without a rollback does to the
    tables what that handler is for, and every other step leaves them alone.
   */
  lemma EveryCommitDoesItsWork(s: System, es: seq<Event>, e: Event)
    requires Initial(s) && ValidRun(s, es) && Enabled(After(s, es), e)
    ensures var x := After(s, es);
            var y := Next(x, e);
            if e.Advance? && e.id !in y.processes then Effect(x.processes[e.id].handler, x.tables, y.tables)
            else y.tables == x.tables
  {
    RunKeepsPlanned(s, es);
    var x := After(s, es);
    if e.Advance? && Current(x.processes[e.id]) == Commit {
      assert Consistent(x.tables, x.processes[e.id]);
      CommitEffect(x.tables, x.processes[e.id]);
    }
  }

  // ----- who asked, and who may open a chat -----

  /** CHECK(requested_by IN (user_low,user_high)). */
  ghost predicate RequestersBelong(tables: Tables) {
    forall q <- tables.connections :: InPair(tables.connections[q].requestedBy, q)
  }

  lemma EffectKeepsRequesters(h: Handler, was: Tables, now: Tables)
    requires WellFormed(h) && RequestersBelong(was) && Effect(h, was, now)
    ensures RequestersBelong(now)
  {}

  lemma {:induction false} RequestersStay(s: System, es: seq<Event>)
    requires Inv(s) && AllPlanned(s) && RequestersBelong(s.tables) && ValidRun(s, es)
    ensures RequestersBelong(After(s, es).tables)
    decreases |es|
  {
    if es != [] {
      var e := es[0];
      StepKeepsInv(s, e);
      StepKeepsPlanned(s, e);
      if e.Advance? && Current(s.processes[e.id]) == Commit {
        assert Consistent(s.tables, s.processes[e.id]);
        CommitEffect(s.tables, s.processes[e.id]);
        EffectKeepsRequesters(s.processes[e.id].handler, s.tables, Next(s, e).tables);
      }
      RequestersStay(Next(s, e), es[1..]);
    }
  }

  function OtherOf(q: Pair, a: User): User { if a == q.low then q.high else q.low }

  /** A reply that commits answers the pending request of the other user, as its caller chose. */
  lemma ReplyAnswersTheOther(s: System, es: seq<Event>, t: nat)
    requires Initial(s) && RequestersBelong(s.tables) && ValidRun(s, es) && Enabled(After(s, es), Advance(t))
    requires After(s, es).processes[t].handler.ReplyFriend? && t !in Next(After(s, es), Advance(t)).processes
    ensures var h := After(s, es).processes[t].handler;
            var was, now := After(s, es).tables, Next(After(s, es), Advance(t)).tables;
            && h.pair in was.connections && was.connections[h.pair] == Connection(Pending, OtherOf(h.pair, h.actor))
            && now == was.(connections := was.connections[h.pair :=
                 Connection(if h.accept then Accepted else Declined, OtherOf(h.pair, h.actor))])
  {
    EveryCommitDoesItsWork(s, es, Advance(t));
    RequestersStay(s, es);
  }

  ghost predicate SomePrefix(s: System, es: seq<Event>, n: nat, q: Pair) {
    && n <= |es| && ValidRun(s, es[..n])
    && AreFriends(After(s, es[..n]).tables, q) && NeitherBlocks(After(s, es[..n]).tables.blocks, q)
  }

  lemma {:induction false} LastStep(s: System, es: seq<Event>, e: Event)
    requires ValidRun(s, es + [e])
    ensures ValidRun(s, es) && Enabled(After(s, es), e) && After(s, es + [e]) == Next(After(s, es), e)
    decreases |es|
  {
    if es == [] {
      assert es + [e] == [e];
      assert [e][1..] == [];
    } else {
      assert (es + [e])[1..] == es[1..] + [e];
      LastStep(Next(s, es[0]), es[1..], e);
    }
  }

  /** A process that is past the check either was before this step, or passes it in this step. */
  lemma CheckedBefore(x: System, e: Event, t: nat)
    requires Enabled(x, e) && t in Next(x, e).processes
    requires Next(x, e).processes[t].handler.StartDirect? && Next(x, e).processes[t].at >= 2
    ensures t in x.processes && x.processes[t].handler == Next(x, e).processes[t].handler
    ensures var h := x.processes[t].handler;
            x.processes[t].at >= 2 ||
            (AreFriends(x.tables, PairOf(h.actor, h.peer)) && NeitherBlocks(x.tables.blocks, PairOf(h.actor, h.peer)))
  {}

  lemma PrefixOfMore(s: System, es: seq<Event>, e: Event, n: nat, q: Pair)
    requires SomePrefix(s, es, n, q)
    ensures SomePrefix(s, es + [e], n, q)
  {
    assert (es + [e])[..n] == es[..n];
  }

  lemma WholePrefix(s: System, es: seq<Event>, q: Pair)
    requires ValidRun(s, es) && AreFriends(After(s, es).tables, q) && NeitherBlocks(After(s, es).tables.blocks, q)
    ensures SomePrefix(s, es, |es|, q)
  {
    assert es[..|es|] == es;
  }

  /** Whoever opens a direct chat was a friend, and unblocked, at a moment after asking for it. */
  lemma {:induction false} FriendsWhenChecked(s: System, es: seq<Event>, t: nat)
    requires s.processes == map[] && ValidRun(s, es) && t in After(s, es).processes
    requires After(s, es).processes[t].handler.StartDirect? && After(s, es).processes[t].at >= 2
    ensures var h := After(s, es).processes[t].handler; exists n: nat :: SomePrefix(s, es, n, PairOf(h.actor, h.peer))
    decreases |es|
  {
    assert es != [];
    var before, e := es[..|es| - 1], es[|es| - 1];
    assert es == before + [e];
    LastStep(s, before, e);
    var x := After(s, before);
    CheckedBefore(x, e, t);
    var q := PairOf(x.processes[t].handler.actor, x.processes[t].handler.peer);
    var n: nat;
    if x.processes[t].at >= 2 {
      FriendsWhenChecked(s, before, t);
      n :| SomePrefix(s, before, n, q);
    } else {
      n := |before|;
      WholePrefix(s, before, q);
    }
    PrefixOfMore(s, before, e, n, q);
  }

  // ----- a handler that runs alone -----

  /** What the handler asks of the tables. */
  ghost predicate MayCommit(tables: Tables, h: Handler)
    requires WellFormed(h)
  {
    match h
    case RequestFriend(a, b) => NeitherBlocks(tables.blocks, PairOf(a, b))
    case ReplyFriend(a, q, _) => NeitherBlocks(tables.blocks, q) && PendingFromOther(tables, q, a)
    case Block(_, _) => true
    case Unblock(_, _) => true
    case RemoveFriend(a, q) => InPair(a, q) && q in tables.connections
    case StartDirect(a, b) => NeitherBlocks(tables.blocks, PairOf(a, b)) && AreFriends(tables, PairOf(a, b))
    case SendDirect(a, q, ref) =>
      NeitherBlocks(tables.blocks, q) && InPair(a, q) && q in tables.rooms
          && MayPost(tables, Message(a, ref, Direct(q)))
    case SendHall(a, hall, ref) => MayPost(tables, Message(a, ref, Hall(hall)))
    case HallChoose(a, _, b, ref) =>
      NeitherBlocks(tables.blocks, PairOf(a, b)) && MayPost(tables, Message(a, ref, Direct(PairOf(a, b))))
  }

  /** The reference is unused, or the same message is stored under it. */
  ghost predicate MayPost(tables: Tables, m: Message) {
    forall n <- tables.messages | n.sender == m.sender && n.reference == m.reference :: m in tables.messages
  }

  /** Every remaining statement of a process that nobody disturbs succeeds. */
  ghost predicate Finishes(tables: Tables, p: Process)
    decreases |Program(p.handler)| - p.at
  {
    Succeeds(tables, p) && (Current(p) == Commit || Finishes(tables, Moved(tables, p)))
  }

  function Advances(t: nat, n: nat): (es: seq<Event>)
    ensures |es| == n && forall i | 0 <= i < n :: es[i] == Advance(t)
  {
    seq(n, _ => Advance(t))
  }

  lemma AloneStep(tables: Tables, t: nat, p: Process)
    ensures var s := System(tables, map[t := p]);
            && (Enabled(s, Advance(t)) <==> Succeeds(tables, p))
            && (Succeeds(tables, p) && Current(p) != Commit ==>
                  Next(s, Advance(t)) == System(tables, map[t := Moved(tables, p)]))
  {
    assert !Waiting(System(tables, map[t := p]), t);
  }

  lemma RunStarts(s: System, e: Event, es: seq<Event>)
    ensures ValidRun(s, [e] + es) <==> Enabled(s, e) && ValidRun(Next(s, e), es)
  {
    assert ([e] + es)[1..] == es;
  }

  lemma CommitIsLast(p: Process)
    requires Current(p) == Commit
    ensures p.at + 1 == |Program(p.handler)|
  {}

  lemma {:induction false} AloneRuns(tables: Tables, t: nat, p: Process)
    ensures ValidRun(System(tables, map[t := p]), Advances(t, |Program(p.handler)| - p.at)) <==> Finishes(tables, p)
    decreases |Program(p.handler)| - p.at
  {
    var s, n := System(tables, map[t := p]), |Program(p.handler)| - p.at;
    assert Advances(t, n) == [Advance(t)] + Advances(t, n - 1);
    RunStarts(s, Advance(t), Advances(t, n - 1));
    AloneStep(tables, t, p);
    if Current(p) == Commit {
      CommitIsLast(p);
      assert Advances(t, n - 1) == [];
    } else if Succeeds(tables, p) {
      AloneRuns(tables, t, Moved(tables, p));
    }
  }

  lemma StepOn(tables: Tables, p: Process) returns (next: Process)
    requires Succeeds(tables, p) && Current(p) != Commit
    ensures next == Moved(tables, p) && (Finishes(tables, p) <==> Finishes(tables, next))
  {
    next := Moved(tables, p);
  }

  /** A handler that runs alone from the start gets to its commit exactly when the tables allow it. */
  lemma AloneCommitsIff(tables: Tables, t: nat, h: Handler)
    requires WellFormed(h)
    ensures ValidRun(System(tables, map[]), [Begin(t, h)] + Advances(t, |Program(h)|)) <==> MayCommit(tables, h)
  {
    var p := RawProcess(h, 0, {}, NOTHING);
    var es := [Begin(t, h)] + Advances(t, |Program(h)|);
    RunStarts(System(tables, map[]), Begin(t, h), Advances(t, |Program(h)|));
    AloneRuns(tables, t, p);
    FinishesIff(tables, h);
  }

  lemma FinishesIff(tables: Tables, h: Handler)
    requires WellFormed(h)
    ensures Finishes(tables, RawProcess(h, 0, {}, NOTHING)) <==> MayCommit(tables, h)
  {
    var p: Process := RawProcess(h, 0, {}, NOTHING);
    while Succeeds(tables, p) && Current(p) != Commit
      invariant p.handler == h
      invariant Finishes(tables, RawProcess(h, 0, {}, NOTHING)) <==> Finishes(tables, p)
      invariant Passed(tables, p)
      decreases |Program(h)| - p.at
    {
      PassesOn(tables, p);
      p := StepOn(tables, p);
    }
    StopsOnlyAt(tables, p);
  }

  /** The checks a lone process has behind it, and the row lock it got if there was a row. */
  ghost predicate Passed(tables: Tables, p: Process) {
    match p.handler
    case RequestFriend(a, b) => p.at >= 2 ==> NeitherBlocks(tables.blocks, PairOf(a, b))
    case ReplyFriend(a, q, _) =>
      && (p.at >= 2 ==> NeitherBlocks(tables.blocks, q)) && (p.at <= 2 ==> ConnectionRow(q) !in p.held)
      && (p.at >= 3 ==> (ConnectionRow(q) in p.held <==> q in tables.connections))
      && (p.at >= 4 ==> PendingFromOther(tables, q, a))
    case RemoveFriend(a, q) =>
      && (ConnectionRow(q) in p.held <==> p.at >= 1 && q in tables.connections)
      && (p.at >= 2 ==> InPair(a, q) && q in tables.connections)
    case StartDirect(a, b) =>
      p.at >= 2 ==> NeitherBlocks(tables.blocks, PairOf(a, b)) && AreFriends(tables, PairOf(a, b))
    case SendDirect(a, q, ref) =>
      && (p.at >= 1 ==> InPair(a, q) && q in tables.rooms) && (p.at >= 2 ==> NeitherBlocks(tables.blocks, q))
      && (p.at >= 4 ==> MayPost(tables, Message(a, ref, Direct(q))))
    case SendHall(a, hall, ref) => p.at >= 3 ==> MayPost(tables, Message(a, ref, Hall(hall)))
    case HallChoose(a, _, b, ref) =>
      && (p.at >= 3 ==> NeitherBlocks(tables.blocks, PairOf(a, b)))
      && (p.at >= 7 ==> MayPost(tables, Message(a, ref, Direct(PairOf(a, b)))))
    case _ => true
  }

  lemma PassesOn(tables: Tables, p: Process)
    requires Passed(tables, p) && Succeeds(tables, p) && Current(p) != Commit
    ensures Passed(tables, Moved(tables, p))
  {}

  lemma StopsOnlyAt(tables: Tables, p: Process)
    requires Passed(tables, p) && (!Succeeds(tables, p) || Current(p) == Commit)
    ensures Finishes(tables, p) <==> MayCommit(tables, p.handler)
  {}

  // ----- waiting -----

  /** The lock this statement takes, which for a row that may be missing is there only if the row is. */
  predicate Asks(tables: Tables, c: Statement, r: Resource) {
    && r in MayLock(c)
    && (c.LockRoomIfPresent? ==> c.pair in tables.rooms)
    && (c.LockConnectionIfPresent? ==> c.pair in tables.connections)
  }

  /** A handler waits exactly while another one holds the lock that its next statement asks for. */
  lemma WaitsIff(s: System, t: nat)
    requires t in s.processes
    ensures Waiting(s, t) <==>
      exists u <- s.processes, r <- s.processes[u].held :: u != t && Asks(s.tables, Current(s.processes[t]), r)
  {
    var wanted := Wanted(s.tables, Current(s.processes[t]));
    assert forall r :: r in wanted <==> Asks(s.tables, Current(s.processes[t]), r);
    if Waiting(s, t) {
      var u :| u in s.processes && u != t && !(s.processes[u].held !! wanted);
      var r :| r in s.processes[u].held && r in wanted;
    }
  }
}
