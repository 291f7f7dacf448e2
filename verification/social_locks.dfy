/**
  Direct chat, blocks and friendships as a locking protocol.

  Every handler is a short list of SQL statements. A process runs one statement
  at a time, reads the tables as they are committed at that moment (READ
  COMMITTED), stages its own writes, and makes them visible only when it
  commits. Locks are kept until the transaction ends. Any number of processes
  interleave, and any of them may roll back between two statements.
 */
module SocialLocks {

  type User = int

  /** CHECK(user_low<user_high) of the connection and room tables. */
  datatype RawPair = RawPair(low: User, high: User)
  type Pair = p: RawPair | p.low < p.high witness RawPair(0, 1)

  function PairOf(a: User, b: User): Pair
    requires a != b
  {
    if a < b then RawPair(a, b) else RawPair(b, a)
  }

  datatype Resource =
    | HallRoom(hall: int)
    | SocialPair(pair: Pair)        // pg_advisory_xact_lock on the pair text
    | DirectRoom(pair: Pair)        // the one direct room row of a pair
    | ConnectionRow(pair: Pair)
    | MessageKey(sender: User, reference: int)

  function Rank(r: Resource): nat {
    match r
    case HallRoom(_) => 0
    case SocialPair(_) => 1
    case DirectRoom(_) => 2
    case ConnectionRow(_) => 3
    case MessageKey(_, _) => 4
  }

  datatype Friendship = Pending | Accepted | Declined
  datatype Connection = Connection(state: Friendship, requestedBy: User)
  datatype Room = Direct(pair: Pair) | Hall(hall: int)
  datatype Message = Message(sender: User, reference: int, room: Room)

  datatype Tables = Tables(
    blocks: set<(User, User)>,
    connections: map<Pair, Connection>,
    rooms: set<Pair>,
    messages: seq<Message>)

  predicate Blocked(blocks: set<(User, User)>, q: Pair) {
    (q.low, q.high) in blocks || (q.high, q.low) in blocks
  }

  predicate Used(messages: seq<Message>, sender: User, reference: int) {
    exists m <- messages :: m.sender == sender && m.reference == reference
  }

  // ----- handlers as statement lists -----

  datatype Handler =
    | RequestFriend(actor: User, peer: User)
    | ReplyFriend(actor: User, pair: Pair, accept: bool)
    | Block(actor: User, peer: User)
    | Unblock(actor: User, peer: User)
    | RemoveFriend(actor: User, pair: Pair)
    | StartDirect(actor: User, peer: User)
    | SendDirect(actor: User, pair: Pair, reference: int)
    | SendHall(actor: User, hall: int, reference: int)
    | HallChoose(actor: User, hall: int, peer: User, reference: int)

  /** Each handler refuses a request that names the caller as the peer. */
  predicate WellFormed(h: Handler) {
    match h
    case RequestFriend(a, b) => a != b
    case Block(a, b) => a != b
    case Unblock(a, b) => a != b
    case StartDirect(a, b) => a != b
    case HallChoose(a, _, b, _) => a != b
    case _ => true
  }

  datatype Statement =
    | Lock(resource: Resource)
    | LockRoomIfPresent(pair: Pair)
    | LockRoomOrFail(pair: Pair)
    | LockConnectionIfPresent(pair: Pair)
    | RequireUnblocked(pair: Pair)
    | RequireFriends(pair: Pair)
    | PutBlock(actor: User, peer: User)
    | DropBlock(actor: User, peer: User)
    | PutRequest(pair: Pair, actor: User)
    | PutReply(pair: Pair, actor: User, accept: bool)
    | PutDeclined(pair: Pair)
    | PutRoom(pair: Pair)
    | PutMessage(message: Message)
    | Commit

  function Program(h: Handler): seq<Statement>
    requires WellFormed(h)
  {
    match h
    case RequestFriend(a, b) =>
      var q := PairOf(a, b);
      [Lock(SocialPair(q)), RequireUnblocked(q), Lock(ConnectionRow(q)), PutRequest(q, a), Commit]
    case ReplyFriend(a, q, accept) =>
      // NOT EXISTS(blocks) reads the snapshot the UPDATE took before it waited for the row.
      [Lock(SocialPair(q)), RequireUnblocked(q), LockConnectionIfPresent(q), PutReply(q, a, accept), Commit]
    case Block(a, b) =>
      var q := PairOf(a, b);
      [Lock(SocialPair(q)), LockRoomIfPresent(q), PutBlock(a, b), LockConnectionIfPresent(q), PutDeclined(q), Commit]
    case Unblock(a, b) =>
      var q := PairOf(a, b);
      [Lock(SocialPair(q)), LockRoomIfPresent(q), DropBlock(a, b), Commit]
    case RemoveFriend(a, q) =>
      [LockConnectionIfPresent(q), PutDeclined(q), Commit]
    case StartDirect(a, b) =>
      var q := PairOf(a, b);
      [Lock(SocialPair(q)), RequireFriends(q), Lock(DirectRoom(q)), PutRoom(q), Commit]
    case SendDirect(a, q, ref) =>
      [LockRoomOrFail(q), RequireUnblocked(q), Lock(MessageKey(a, ref)), PutMessage(Message(a, ref, Direct(q))), Commit]
    case SendHall(a, hall, ref) =>
      [Lock(HallRoom(hall)), Lock(MessageKey(a, ref)), PutMessage(Message(a, ref, Hall(hall))), Commit]
    case HallChoose(a, hall, b, ref) =>
      var q := PairOf(a, b);
      [Lock(HallRoom(hall)), Lock(SocialPair(q)), RequireUnblocked(q), Lock(DirectRoom(q)), PutRoom(q),
       Lock(MessageKey(a, ref)), PutMessage(Message(a, ref, Direct(q))), Commit]
  }

  // ----- processes and their steps -----

  datatype Staged = Staged(
    added: set<(User, User)>,
    dropped: set<(User, User)>,
    connections: map<Pair, Connection>,
    rooms: set<Pair>,
    messages: seq<Message>)

  const NOTHING := Staged({}, {}, map[], {}, [])

  datatype RawProcess = RawProcess(handler: Handler, at: nat, held: set<Resource>, staged: Staged)
  type Process = p: RawProcess | WellFormed(p.handler) && p.at < |Program(p.handler)|
    witness RawProcess(RemoveFriend(0, RawPair(0, 1)), 0, {}, NOTHING)

  datatype System = System(tables: Tables, processes: map<nat, Process>)

  function Current(p: Process): Statement {
    Program(p.handler)[p.at]
  }

  /** The lock a statement may take, whatever the tables hold. */
  function MayLock(c: Statement): (r: set<Resource>) {
    match c
    case Lock(r) => {r}
    case LockRoomIfPresent(q) => {DirectRoom(q)}
    case LockRoomOrFail(q) => {DirectRoom(q)}
    case LockConnectionIfPresent(q) => {ConnectionRow(q)}
    case _ => {}
  }

  /** The lock it takes now: SELECT ... FOR UPDATE and UPDATE lock nothing when no row matches. */
  function Wanted(tables: Tables, c: Statement): set<Resource> {
    match c
    case LockRoomIfPresent(q) => if q in tables.rooms then {DirectRoom(q)} else {}
    case LockConnectionIfPresent(q) => if q in tables.connections then {ConnectionRow(q)} else {}
    case _ => MayLock(c)
  }

  predicate Free(s: System, t: nat, wanted: set<Resource>) {
    forall u <- s.processes :: u != t ==> s.processes[u].held !! wanted
  }

  predicate Waiting(s: System, t: nat) {
    t in s.processes && !Free(s, t, Wanted(s.tables, Current(s.processes[t])))
  }

  /** Whether the statement succeeds once its locks are free; otherwise the handler answers an error. */
  predicate Succeeds(tables: Tables, p: Process) {
    match Current(p)
    case LockRoomOrFail(q) => q in tables.rooms && (p.handler.actor == q.low || p.handler.actor == q.high)
    case RequireUnblocked(q) => !Blocked(tables.blocks, q)
    case RequireFriends(q) =>
      !Blocked(tables.blocks, q) && q in tables.connections && tables.connections[q].state == Accepted
    case PutReply(q, a, _) =>
      (a == q.low || a == q.high) &&
      ConnectionRow(q) in p.held && q in tables.connections &&
      tables.connections[q].state == Pending && tables.connections[q].requestedBy != a
    case PutDeclined(q) => p.handler.RemoveFriend? ==>
      ConnectionRow(q) in p.held && (p.handler.actor == q.low || p.handler.actor == q.high)
    case PutMessage(m) => Used(tables.messages, m.sender, m.reference) ==> m in tables.messages
    case _ => true
  }

  function Write(tables: Tables, p: Process): Staged {
    match Current(p)
    case PutBlock(a, b) => p.staged.(added := {(a, b)})
    case DropBlock(a, b) => p.staged.(dropped := {(a, b)})
    case PutRequest(q, a) =>
      var row := if q in tables.connections then tables.connections[q] else Connection(Declined, a);
      var updated := if row.state == Declined then Connection(Pending, a) else row;
      p.staged.(connections := map[q := updated])
    case PutReply(q, a, accept) =>
      if q in tables.connections
      then p.staged.(connections := map[q := tables.connections[q].(state := if accept then Accepted else Declined)])
      else p.staged
    case PutDeclined(q) =>
      if ConnectionRow(q) in p.held && q in tables.connections
      then p.staged.(connections := map[q := tables.connections[q].(state := Declined)])
      else p.staged
    case PutRoom(q) => p.staged.(rooms := {q})
    case PutMessage(m) => if Used(tables.messages, m.sender, m.reference) then p.staged else p.staged.(messages := [m])
    case _ => p.staged
  }

  function Publish(tables: Tables, w: Staged): Tables {
    Tables(tables.blocks - w.dropped + w.added,
           tables.connections + w.connections,
           tables.rooms + w.rooms,
           tables.messages + w.messages)
  }

  lemma OnlyCommitEnds(p: Process)
    requires Current(p) != Commit
    ensures p.at + 1 < |Program(p.handler)|
  {
  }

  /** The process after its current statement, which is not a commit. */
  function Moved(tables: Tables, p: Process): Process
    requires Current(p) != Commit
  {
    OnlyCommitEnds(p);
    RawProcess(p.handler, p.at + 1, p.held + Wanted(tables, Current(p)), Write(tables, p))
  }

  datatype Event = Begin(id: nat, handler: Handler) | Advance(id: nat) | Rollback(id: nat)

  predicate Enabled(s: System, e: Event) {
    match e
    case Begin(t, h) => t !in s.processes && WellFormed(h)
    case Advance(t) => t in s.processes && !Waiting(s, t) && Succeeds(s.tables, s.processes[t])
    case Rollback(t) => t in s.processes
  }

  function Next(s: System, e: Event): System
    requires Enabled(s, e)
  {
    match e
    case Begin(t, h) => s.(processes := s.processes[t := RawProcess(h, 0, {}, NOTHING)])
    case Rollback(t) => s.(processes := s.processes - {t})
    case Advance(t) =>
      var p := s.processes[t];
      if Current(p) == Commit then System(Publish(s.tables, p.staged), s.processes - {t})
      else s.(processes := s.processes[t := Moved(s.tables, p)])
  }

  ghost predicate ValidRun(s: System, es: seq<Event>)
    decreases |es|
  {
    es == [] || (Enabled(s, es[0]) && ValidRun(Next(s, es[0]), es[1..]))
  }

  ghost function After(s: System, es: seq<Event>): System
    requires ValidRun(s, es)
    decreases |es|
  {
    if es == [] then s else After(Next(s, es[0]), es[1..])
  }

  // ----- the invariant -----

  /** No process starts inside a transaction, and nobody blocked is a friend. */
  ghost predicate Initial(s: System) {
    s.processes == map[] && BlockedAreDeclined(s.tables) && ReferencesUnique(s.tables.messages)
  }

  ghost predicate BlockedAreDeclined(tables: Tables) {
    forall q <- tables.connections :: Blocked(tables.blocks, q) ==> tables.connections[q].state == Declined
  }

  ghost predicate ReferencesUnique(messages: seq<Message>) {
    forall i, j | 0 <= i < j < |messages| ::
      messages[i].sender != messages[j].sender || messages[i].reference != messages[j].reference
  }

  ghost predicate Exclusive(s: System) {
    forall t, u :: t in s.processes && u in s.processes && t != u ==> s.processes[t].held !! s.processes[u].held
  }

  /** q is unblocked and no block can be committed before p ends. */
  ghost predicate Safe(tables: Tables, p: Process, q: Pair) {
    !Blocked(tables.blocks, q) && (SocialPair(q) in p.held || (DirectRoom(q) in p.held && q in tables.rooms))
  }

  /** What an executed statement has established and keeps true until p ends. */
  ghost predicate Established(tables: Tables, p: Process, c: Statement) {
    match c
    case Lock(r) => r in p.held
    case LockRoomIfPresent(q) => SocialPair(q) in p.held && (DirectRoom(q) in p.held || q !in tables.rooms)
    case LockRoomOrFail(q) => DirectRoom(q) in p.held && q in tables.rooms
    case LockConnectionIfPresent(q) => SocialPair(q) in p.held && q in tables.connections ==> ConnectionRow(q) in p.held
    case RequireUnblocked(q) => Safe(tables, p, q)
    case RequireFriends(q) => Safe(tables, p, q)
    case PutDeclined(q) => SocialPair(q) in p.held && q in tables.connections ==>
      q in p.staged.connections && p.staged.connections[q].state == Declined
    case _ => true
  }

  ghost predicate StagedSafely(tables: Tables, p: Process) {
    && (forall b <- p.staged.added :: p.handler.Block? && b == (p.handler.actor, p.handler.peer))
    && (forall q <- p.staged.connections ::
          && (p.staged.connections[q].state == Declined || Safe(tables, p, q))
          && (q in tables.connections || (p.handler.RequestFriend? && SocialPair(q) in p.held)))
    && (p.handler.Block? ==> p.staged.messages == [])
    && (forall q <- p.staged.rooms :: SocialPair(q) in p.held)
    && (forall m <- p.staged.messages :: m.room.Direct? ==> Safe(tables, p, m.room.pair))
  }

  ghost predicate StagedOnce(tables: Tables, p: Process) {
    && |p.staged.messages| <= 1
    && (forall m <- p.staged.messages ::
          MessageKey(m.sender, m.reference) in p.held && !Used(tables.messages, m.sender, m.reference))
  }

  ghost predicate Facts(tables: Tables, p: Process) {
    forall i | 0 <= i < p.at :: Established(tables, p, Program(p.handler)[i])
  }

  ghost predicate TookInOrder(p: Process) {
    forall r <- p.held :: exists i | 0 <= i < p.at :: r in MayLock(Program(p.handler)[i])
  }

  ghost predicate Consistent(tables: Tables, p: Process) {
    Facts(tables, p) && TookInOrder(p) && StagedSafely(tables, p) && StagedOnce(tables, p)
  }

  ghost predicate Inv(s: System) {
    && BlockedAreDeclined(s.tables)
    && ReferencesUnique(s.tables.messages)
    && Exclusive(s)
    && (forall t <- s.processes :: Consistent(s.tables, s.processes[t]))
  }

  // ----- every step keeps the invariant -----

  lemma MovedKeepsLocks(tables: Tables, p: Process)
    requires TookInOrder(p) && Current(p) != Commit
    ensures TookInOrder(Moved(tables, p))
  {
    forall r <- Moved(tables, p).held
      ensures exists i | 0 <= i < p.at + 1 :: r in MayLock(Program(p.handler)[i])
    {
      if r in p.held {
        var i :| 0 <= i < p.at && r in MayLock(Program(p.handler)[i]);
      } else {
        assert r in MayLock(Program(p.handler)[p.at]);
      }
    }
  }

  /** A statement adds to what is staged only the row it names. */
  lemma MovedKeepsStaged(tables: Tables, p: Process)
    requires Facts(tables, p) && StagedSafely(tables, p) && Succeeds(tables, p) && Current(p) != Commit
    ensures StagedSafely(tables, Moved(tables, p))
  {
    var p' := Moved(tables, p);
    assert forall q :: Safe(tables, p, q) ==> Safe(tables, p', q);
    match p.handler
    case RequestFriend(a, b) => if p.at > 1 { assert Established(tables, p, Program(p.handler)[1]); }
      if p.at > 0 { assert Established(tables, p, Program(p.handler)[0]); }
    case ReplyFriend(a, q, _) => if p.at > 1 { assert Established(tables, p, Program(p.handler)[1]); }
    case HallChoose(_, _, _, _) =>
      if p.at > 1 { assert Established(tables, p, Program(p.handler)[1]); }
      if p.at > 2 { assert Established(tables, p, Program(p.handler)[2]); }
    case SendDirect(_, _, _) => if p.at > 1 { assert Established(tables, p, Program(p.handler)[1]); }
    case StartDirect(_, _) => if p.at > 0 { assert Established(tables, p, Program(p.handler)[0]); }
    case _ =>
  }

  lemma MovedKeepsOnce(tables: Tables, p: Process)
    requires Facts(tables, p) && StagedOnce(tables, p) && Succeeds(tables, p) && Current(p) != Commit
    ensures StagedOnce(tables, Moved(tables, p))
  {
    if Current(p).PutMessage? { assert Established(tables, p, Program(p.handler)[p.at - 1]); }
  }

  lemma MovedKeepsFacts(tables: Tables, p: Process)
    requires Facts(tables, p) && Succeeds(tables, p) && Current(p) != Commit
    ensures Facts(tables, Moved(tables, p))
  {
    var p' := Moved(tables, p);
    forall i | 0 <= i < p'.at ensures Established(tables, p', Program(p.handler)[i]) {
      if i < p.at {
        assert Established(tables, p, Program(p.handler)[i]);
      } else {
        NewFact(tables, p);
      }
    }
  }

  /** The statement just done has established its own fact. */
  lemma NewFact(tables: Tables, p: Process)
    requires Facts(tables, p) && Succeeds(tables, p) && Current(p) != Commit
    ensures Established(tables, Moved(tables, p), Current(p))
  {
    if p.at > 0 { assert Established(tables, p, Program(p.handler)[0]); }
    if p.at > 1 { assert Established(tables, p, Program(p.handler)[1]); }
    if p.at > 3 { assert Established(tables, p, Program(p.handler)[3]); }
  }

  // ----- a commit is invisible to what the others rely on -----

  lemma AtCommitOfBlock(tables: Tables, p: Process)
    requires Consistent(tables, p) && Current(p) == Commit && p.handler.Block?
    ensures var q := PairOf(p.handler.actor, p.handler.peer);
            && SocialPair(q) in p.held && (DirectRoom(q) in p.held || q !in tables.rooms)
            && (q in tables.connections ==> q in p.staged.connections && p.staged.connections[q].state == Declined)
            && (q !in tables.connections ==> q !in p.staged.connections)
  {
    assert p.at == 5;
    assert Established(tables, p, Program(p.handler)[0]);
    assert Established(tables, p, Program(p.handler)[1]);
    assert Established(tables, p, Program(p.handler)[4]);
  }

  /** The blocks a commit adds are the block of its own pair, published with every guard in hand. */
  lemma CommittedBlock(tables: Tables, p: Process, q: Pair)
    requires Consistent(tables, p) && Current(p) == Commit
    requires Blocked(Publish(tables, p.staged).blocks, q) && !Blocked(tables.blocks, q)
    ensures SocialPair(q) in p.held && (DirectRoom(q) in p.held || q !in tables.rooms)
    ensures q in tables.connections ==> q in p.staged.connections && p.staged.connections[q].state == Declined
    ensures q !in tables.connections ==> q !in p.staged.connections
  {
    var b :| b in p.staged.added && (b == (q.low, q.high) || b == (q.high, q.low));
    assert p.handler == Block(b.0, b.1) && PairOf(b.0, b.1) == q;
    AtCommitOfBlock(tables, p);
  }

  lemma CommitKeepsSafe(s: System, t: nat, u: nat, q: Pair)
    requires Inv(s) && t in s.processes && u in s.processes && t != u && Current(s.processes[t]) == Commit
    requires Safe(s.tables, s.processes[u], q)
    ensures Safe(Publish(s.tables, s.processes[t].staged), s.processes[u], q)
  {
    var p := s.processes[t];
    assert p.held !! s.processes[u].held;
    if Blocked(Publish(s.tables, p.staged).blocks, q) {
      CommittedBlock(s.tables, p, q);
      assert false;
    }
  }

  lemma CommitKeepsOthers(s: System, t: nat, u: nat)
    requires Inv(s) && t in s.processes && u in s.processes && t != u && Current(s.processes[t]) == Commit
    ensures Consistent(Publish(s.tables, s.processes[t].staged), s.processes[u])
  {
    var p, v := s.processes[t], s.processes[u];
    var tables' := Publish(s.tables, p.staged);
    forall q | Safe(s.tables, v, q) ensures Safe(tables', v, q) { CommitKeepsSafe(s, t, u, q); }
    assert p.held !! v.held;
    forall i | 0 <= i < v.at ensures Established(tables', v, Program(v.handler)[i]) {
      assert Established(s.tables, v, Program(v.handler)[i]);
    }
  }

  lemma CommitKeepsDeclined(s: System, t: nat)
    requires Inv(s) && t in s.processes && Current(s.processes[t]) == Commit
    ensures BlockedAreDeclined(Publish(s.tables, s.processes[t].staged))
  {
    var p := s.processes[t];
    var tables' := Publish(s.tables, p.staged);
    forall q <- tables'.connections | Blocked(tables'.blocks, q)
      ensures tables'.connections[q].state == Declined
    {
      if Blocked(s.tables.blocks, q) {
        assert q in p.staged.connections ==> !Safe(s.tables, p, q);
      } else {
        CommittedBlock(s.tables, p, q);
      }
    }
  }

  lemma CommitKeepsReferences(tables: Tables, p: Process)
    requires ReferencesUnique(tables.messages) && StagedOnce(tables, p)
    ensures ReferencesUnique(Publish(tables, p.staged).messages)
  {
    var all := tables.messages + p.staged.messages;
    forall i, j | 0 <= i < j < |all|
      ensures all[i].sender != all[j].sender || all[i].reference != all[j].reference
    {
      if j >= |tables.messages| { assert all[i] in tables.messages && all[j] in p.staged.messages; }
    }
  }

  lemma CommitKeepsInv(s: System, t: nat)
    requires Inv(s) && t in s.processes && Current(s.processes[t]) == Commit
    ensures Inv(System(Publish(s.tables, s.processes[t].staged), s.processes - {t}))
  {
    CommitKeepsDeclined(s, t);
    CommitKeepsReferences(s.tables, s.processes[t]);
    forall u <- s.processes | u != t
      ensures Consistent(Publish(s.tables, s.processes[t].staged), s.processes[u])
    {
      CommitKeepsOthers(s, t, u);
    }
  }

  lemma MoveKeepsConsistent(tables: Tables, p: Process)
    requires Consistent(tables, p) && Succeeds(tables, p) && Current(p) != Commit
    ensures Consistent(tables, Moved(tables, p))
  {
    MovedKeepsLocks(tables, p);
    MovedKeepsStaged(tables, p);
    MovedKeepsOnce(tables, p);
    MovedKeepsFacts(tables, p);
  }

  lemma MoveKeepsInv(s: System, t: nat)
    requires Inv(s) && Enabled(s, Advance(t)) && Current(s.processes[t]) != Commit
    ensures Inv(s.(processes := s.processes[t := Moved(s.tables, s.processes[t])]))
  {
    MoveKeepsConsistent(s.tables, s.processes[t]);
    var s' := s.(processes := s.processes[t := Moved(s.tables, s.processes[t])]);
    forall u, v | u in s'.processes && v in s'.processes && u != v
      ensures s'.processes[u].held !! s'.processes[v].held
    {
      assert Free(s, t, Wanted(s.tables, Current(s.processes[t])));
    }
  }

  lemma BeginKeepsInv(s: System, t: nat, h: Handler)
    requires Inv(s) && t !in s.processes && WellFormed(h)
    ensures Inv(s.(processes := s.processes[t := RawProcess(h, 0, {}, NOTHING)]))
  {
    assert Consistent(s.tables, RawProcess(h, 0, {}, NOTHING));
  }

  lemma StepKeepsInv(s: System, e: Event)
    requires Inv(s) && Enabled(s, e)
    ensures Inv(Next(s, e))
  {
    match e
    case Begin(t, h) => BeginKeepsInv(s, t, h);
    case Rollback(t) =>
    case Advance(t) =>
      if Current(s.processes[t]) == Commit { CommitKeepsInv(s, t); } else { MoveKeepsInv(s, t); }
  }

  lemma {:induction false} RunKeepsInv(s: System, es: seq<Event>)
    requires Inv(s) && ValidRun(s, es)
    ensures Inv(After(s, es))
    decreases |es|
  {
    if es != [] {
      StepKeepsInv(s, es[0]);
      RunKeepsInv(Next(s, es[0]), es[1..]);
    }
  }

  // ----- main results -----

  /** In every run, nobody blocked is a pending or accepted friend. */
  lemma BlockedNeverFriends(s: System, es: seq<Event>, q: Pair)
    requires Initial(s) && ValidRun(s, es)
    ensures var tables := After(s, es).tables;
            q in tables.connections && Blocked(tables.blocks, q) ==> tables.connections[q].state == Declined
  {
    RunKeepsInv(s, es);
  }

  lemma CommitPublishesUnblocked(tables: Tables, p: Process)
    requires Consistent(tables, p) && Current(p) == Commit
    ensures forall m <- p.staged.messages :: m.room.Direct? ==>
              !Blocked(tables.blocks, m.room.pair) && !Blocked(Publish(tables, p.staged).blocks, m.room.pair)
  {
    forall m <- p.staged.messages | m.room.Direct?
      ensures !Blocked(Publish(tables, p.staged).blocks, m.room.pair)
    {
      assert Safe(tables, p, m.room.pair);
      if Blocked(Publish(tables, p.staged).blocks, m.room.pair) {
        assert false;
      }
    }
  }

  /** Concurrent resends never store one (sender, reference) twice. */
  lemma OneMessagePerReference(s: System, es: seq<Event>, m: Message, m': Message)
    requires Initial(s) && ValidRun(s, es)
    requires m in After(s, es).tables.messages && m' in After(s, es).tables.messages
    requires m.sender == m'.sender && m.reference == m'.reference
    ensures m == m'
  {
    RunKeepsInv(s, es);
  }

  /**
    A step of any run only appends messages, and when it appends a direct one its
    pair is unblocked just before and just after the commit.
   */
  lemma NoDirectMessageWhileBlocked(s: System, es: seq<Event>, e: Event)
    requires Initial(s) && ValidRun(s, es) && Enabled(After(s, es), e)
    ensures var was, now := After(s, es).tables, Next(After(s, es), e).tables;
            && was.messages <= now.messages
            && forall m <- now.messages[|was.messages|..] ::
                 m.room.Direct? ==> !Blocked(was.blocks, m.room.pair) && !Blocked(now.blocks, m.room.pair)
  {
    RunKeepsInv(s, es);
    var x := After(s, es);
    if e.Advance? && Current(x.processes[e.id]) == Commit {
      CommitPublishesUnblocked(x.tables, x.processes[e.id]);
    }
  }

  // ----- no waiting cycle -----

  /** Every program takes its locks in strictly rising order. */
  lemma LocksRise(h: Handler, i: nat, j: nat, r: Resource, r': Resource)
    requires WellFormed(h) && i < j < |Program(h)|
    requires r in MayLock(Program(h)[i]) && r' in MayLock(Program(h)[j])
    ensures Rank(r) < Rank(r')
  {
  }

  /** The rank of the lock a statement may take; 5 for a statement that takes none. */
  function LockRank(c: Statement): nat {
    match c
    case Lock(r) => Rank(r)
    case LockRoomIfPresent(_) => 2
    case LockRoomOrFail(_) => 2
    case LockConnectionIfPresent(_) => 3
    case _ => 5
  }

  lemma HoldsLower(p: Process, x: Resource)
    requires TookInOrder(p) && x in p.held
    ensures Rank(x) < LockRank(Current(p))
  {
    var i :| 0 <= i < p.at && x in MayLock(Program(p.handler)[i]);
    forall r <- MayLock(Current(p)) { LocksRise(p.handler, i, p.at, x, r); }
  }

  ghost predicate WaitsFor(s: System, t: nat, u: nat) {
    t in s.processes && u in s.processes && t != u &&
    !(s.processes[u].held !! Wanted(s.tables, Current(s.processes[t])))
  }

  /** Whoever is waited for wants a lock of higher rank, or none. */
  ghost predicate WaitsRise(s: System) {
    forall t, u :: WaitsFor(s, t, u) ==> LockRank(Current(s.processes[t])) < LockRank(Current(s.processes[u]))
  }

  lemma OneWaitRises(tables: Tables, c: Statement, p: Process)
    requires TookInOrder(p) && !(p.held !! Wanted(tables, c))
    ensures LockRank(c) < LockRank(Current(p))
  {
    var r :| r in p.held && r in Wanted(tables, c);
    HoldsLower(p, r);
  }

  lemma WaitsAlwaysRise(s: System, es: seq<Event>)
    requires Initial(s) && ValidRun(s, es)
    ensures WaitsRise(After(s, es))
  {
    RunKeepsInv(s, es);
    var x := After(s, es);
    forall t, u | WaitsFor(x, t, u)
      ensures LockRank(Current(x.processes[t])) < LockRank(Current(x.processes[u]))
    {
      assert Consistent(x.tables, x.processes[u]);
      OneWaitRises(x.tables, Current(x.processes[t]), x.processes[u]);
    }
  }

  /** Following who waits for whom ends at a process that can run. */
  lemma {:induction false} SomeoneRuns(s: System, t: nat) returns (u: nat)
    requires WaitsRise(s) && t in s.processes
    ensures u in s.processes && !Waiting(s, u)
    decreases 5 - LockRank(Current(s.processes[t]))
  {
    u := t;
    if Waiting(s, t) {
      var v :| v in s.processes && v != t && !(s.processes[v].held !! Wanted(s.tables, Current(s.processes[t])));
      assert WaitsFor(s, t, v);
      u := SomeoneRuns(s, v);
    }
  }

  /** Each process waits for a lock that the next one holds. */
  ghost predicate WaitingChain(s: System, ts: seq<nat>) {
    |ts| >= 2 ==> WaitsFor(s, ts[0], ts[1]) && WaitingChain(s, ts[1..])
  }

  lemma {:induction false} ChainRises(s: System, ts: seq<nat>)
    requires WaitsRise(s)
    requires |ts| >= 2 && WaitingChain(s, ts)
    ensures ts[0] in s.processes && ts[|ts| - 1] in s.processes
    ensures LockRank(Current(s.processes[ts[0]])) < LockRank(Current(s.processes[ts[|ts| - 1]]))
  {
    if |ts| > 2 {
      ChainRises(s, ts[1..]);
    }
  }

  /** No run reaches processes that wait for each other in a ring. */
  lemma NoWaitingCycle(s: System, es: seq<Event>, ts: seq<nat>)
    requires Initial(s) && ValidRun(s, es) && |ts| >= 2 && ts[0] == ts[|ts| - 1]
    ensures !WaitingChain(After(s, es), ts)
  {
    WaitsAlwaysRise(s, es);
    if WaitingChain(After(s, es), ts) {
      ChainRises(After(s, es), ts);
    }
  }

  /** However a run got there, some unfinished process is not waiting. */
  lemma NoDeadlock(s: System, es: seq<Event>)
    requires Initial(s) && ValidRun(s, es) && After(s, es).processes != map[]
    ensures exists u <- After(s, es).processes :: !Waiting(After(s, es), u)
  {
    WaitsAlwaysRise(s, es);
    var x := After(s, es);
    assert x.processes.Keys != {};
    var t :| t in x.processes;
    var u := SomeoneRuns(x, t);
  }
}
