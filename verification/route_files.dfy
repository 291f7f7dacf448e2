/**
  The replica route on the host: one watched route file, one ownership record and
  the automation marker. Activation and rollback are modelled file operation by
  file operation; each operation may succeed, raise, or be the last one before
  the process stops. A stop runs no handler, a raise does.
 */
module RouteFiles {
  import opened Basics

  type Content = string

  /** SHA-256, taken to be injective. */
  datatype Digest = Sha256(of: Content)

  const ROUTE_PATH := "/data/coolify/proxy/dynamic/atlxpres-replica-route.yaml"

  datatype Writer = Controller | SomeoneElse
  datatype RouteFile = RouteFile(content: Content, writer: Writer)
  datatype Record = Record(path: string, sha: Digest)

  /** What a path holds; Special is anything that exists but is not a regular file. */
  datatype Entry<+T> = Absent | File(body: T) | Symlink | Special

  datatype Files = Files(route: Entry<RouteFile>, state: Entry<Record>, marker: Entry<()>)

  datatype Fault = Fine | Fails | Stops
  datatype Exit = Returned | Raised | Stopped

  function ExitOf(f: Fault): Exit {
    match f case Fine => Returned case Fails => Raised case Stops => Stopped
  }

  function RecordOf(content: Content): Record { Record(ROUTE_PATH, Sha256(content)) }

  /** The controller's own route file is there. */
  predicate OursActive(files: Files) {
    files.route.File? && files.route.body.writer == Controller
  }

  /** The route file, the record and their digest agree. */
  predicate Matches(files: Files) {
    files.route.File? && files.state == File(RecordOf(files.route.body.content))
  }

  /** owned_route: None when it raises. */
  function OwnedRoute(files: Files): Option<bool> {
    if files.route.Symlink? || files.state.Symlink? then None
    else if files.route.Absent? && files.state.Absent? then Some(false)
    else if !files.route.File? || !files.state.File? then None
    else if Matches(files) then Some(true) else None
  }

  // ----- rollback -----

  datatype RollbackFaults = RollbackFaults(route: Fault, state: Fault, marker: Fault)
  const NO_FAULTS := RollbackFaults(Fine, Fine, Fine)

  /** rollback accepts: a record for our path, and no route file or the one it describes. */
  predicate Removable(files: Files) {
    && files.state.File? && files.state.body.path == ROUTE_PATH
    && (files.route.Absent? || Matches(files))
  }

  function Rollback(files: Files, pause: bool, faults: RollbackFaults): (Files, Exit) {
    if !Removable(files) then (files, Raised)
    else if files.route.File? && faults.route != Fine then (files, ExitOf(faults.route))
    else
      var removed := files.(route := Absent);
      if faults.state != Fine then (removed, ExitOf(faults.state))
      else
        var cleared := removed.(state := Absent);
        if !pause then (cleared, Returned)
        else if faults.marker != Fine then (cleared, ExitOf(faults.marker))
        else (cleared.(marker := Absent), Returned)
  }

  // ----- activation -----

  /** One round of the HTTPS verification loop; NoAnswer is an error the loop retries. */
  datatype Probe = Answer(backend: string) | NoAnswer | Interrupt | Halt

  const REPLICA_SLOTS: set<string> := {"api1", "api2", "api3", "api4"}
  const MAX_ROUNDS: nat := 20

  datatype ActivateFaults = ActivateFaults(
    checks: Fault,             // every check and the gateway update before the record is written
    writeState: Fault,
    writeTemp: Fault,
    intruder: Option<Content>, // another writer creates the route file first
    link: Fault,
    unlinkTemp: Fault,
    probes: seq<Probe>,        // rounds until the deadline
    undo: RollbackFaults,
    dropState: Fault)

  datatype Verdict = Confirmed | Unconfirmed | Halted

  function Verify(probes: seq<Probe>, seen: set<string>): Verdict {
    if probes == [] then Unconfirmed
    else match probes[0]
      case Interrupt => Unconfirmed
      case Halt => Halted
      case NoAnswer => Verify(probes[1..], seen)
      case Answer(b) =>
        var seen' := if b in REPLICA_SLOTS then seen + {b} else seen;
        if |seen'| >= 2 then Confirmed else Verify(probes[1..], seen')
  }

  function Rounds(probes: seq<Probe>): seq<Probe> {
    if |probes| > MAX_ROUNDS then probes[..MAX_ROUNDS] else probes
  }

  function Exists<T>(e: Entry<T>): bool { !e.Absent? }

  /** The handler around publication. */
  function Undo(files: Files, installed: bool, faults: ActivateFaults): (Files, Exit) {
    if installed then
      var (after, exit) := Rollback(files, true, faults.undo);
      (after, if exit == Stopped then Stopped else Raised)
    else if faults.dropState != Fine then (files, ExitOf(faults.dropState))
    else (files.(state := Absent), Raised)
  }

  function Published(files: Files, faults: ActivateFaults): (Files, Exit) {
    if faults.unlinkTemp == Stops then (files, Stopped)
    else if faults.unlinkTemp == Fails then Undo(files, true, faults)
    else match Verify(Rounds(faults.probes), {})
      case Confirmed => (files, Returned)
      case Halted => (files, Stopped)
      case Unconfirmed => Undo(files, true, faults)
  }

  function Activate(files: Files, content: Content, faults: ActivateFaults): (Files, Exit) {
    if Exists(files.route) || Exists(files.state) then (files, Raised)
    else if faults.checks != Fine then (files, ExitOf(faults.checks))
    else if faults.writeState != Fine then (files, ExitOf(faults.writeState))
    else
      var recorded := files.(state := File(RecordOf(content)));
      if faults.writeTemp == Stops then (recorded, Stopped)
      else if faults.writeTemp == Fails then Undo(recorded, false, faults)
      else
        var raced := if faults.intruder.Some?
                     then recorded.(route := File(RouteFile(faults.intruder.value, SomeoneElse))) else recorded;
        if faults.link == Stops then (raced, Stopped)
        else if faults.link == Fails || Exists(raced.route) then
          (if faults.unlinkTemp == Stops then (raced, Stopped) else Undo(raced, false, faults))
        else Published(raced.(route := File(RouteFile(content, Controller))), faults)
  }

  // ----- the host, changed in place -----

  class Host {
    var route: Entry<RouteFile>
    var state: Entry<Record>
    var marker: Entry<()>

    function View(): Files reads this { Files(route, state, marker) }

    method RemoveRoute(pauseUpdates: bool, faults: RollbackFaults) returns (exit: Exit)
      modifies this
      ensures (View(), exit) == Rollback(old(View()), pauseUpdates, faults)
    {
      if state.Symlink? || route.Symlink? || !state.File? {
        return Raised;
      }
      var record := state.body;
      if record.path != ROUTE_PATH {
        return Raised;
      }
      if !route.Absent? {
        if !route.File? || Sha256(route.body.content) != record.sha {
          return Raised;
        }
        if faults.route != Fine {
          return ExitOf(faults.route);
        }
        route := Absent;
      }
      if faults.state != Fine {
        return ExitOf(faults.state);
      }
      state := Absent;
      if pauseUpdates {
        if faults.marker != Fine {
          return ExitOf(faults.marker);
        }
        marker := Absent;
      }
      return Returned;
    }

    /** The except clause of main: undo our publication, or only the record. */
    method UndoPublication(installed: bool, faults: ActivateFaults) returns (exit: Exit)
      modifies this
      ensures (View(), exit) == Undo(old(View()), installed, faults)
    {
      if installed {
        exit := RemoveRoute(true, faults.undo);
        return if exit == Stopped then Stopped else Raised;
      }
      if faults.dropState != Fine {
        return ExitOf(faults.dropState);
      }
      state := Absent;
      return Raised;
    }

    /** The verification loop: at most 20 rounds, stopping at the second distinct replica slot. */
    method VerifyHttps(probes: seq<Probe>) returns (verdict: Verdict)
      ensures verdict == Verify(Rounds(probes), {})
    {
      var seen: set<string>, n := {}, 0;
      while n < |probes| && n < MAX_ROUNDS
        invariant n <= |Rounds(probes)|
        invariant Verify(Rounds(probes), {}) == Verify(Rounds(probes)[n..], seen)
      {
        var probe := Rounds(probes)[n];
        n := n + 1;
        assert Rounds(probes)[n - 1..][1..] == Rounds(probes)[n..];
        match probe
        case Interrupt => return Unconfirmed;
        case Halt => return Halted;
        case NoAnswer =>
        case Answer(backend) =>
          if backend in REPLICA_SLOTS {
            seen := seen + {backend};
          }
          if |seen| >= 2 {
            return Confirmed;
          }
      }
      return Unconfirmed;
    }

    method Execute(content: Content, faults: ActivateFaults) returns (exit: Exit)
      modifies this
      ensures (View(), exit) == Activate(old(View()), content, faults)
    {
      if Exists(route) || Exists(state) {
        return Raised;
      }
      if faults.checks != Fine {
        return ExitOf(faults.checks);
      }
      if faults.writeState != Fine {
        return ExitOf(faults.writeState);
      }
      state := File(RecordOf(content));
      var installed := false;
      if faults.writeTemp == Stops {
        return Stopped;
      }
      if faults.writeTemp == Fine {
        if faults.intruder.Some? {
          route := File(RouteFile(faults.intruder.value, SomeoneElse));
        }
        if faults.link == Stops {
          return Stopped;
        }
        if faults.link == Fine && route.Absent? {  // os.link never replaces an existing file
          route := File(RouteFile(content, Controller));
          installed := true;
        }
        if faults.unlinkTemp == Stops {
          return Stopped;
        }
        if installed && faults.unlinkTemp == Fine {
          var verdict := VerifyHttps(faults.probes);
          if verdict == Confirmed {
            return Returned;
          }
          if verdict == Halted {
            return Stopped;
          }
        }
      }
      exit := UndoPublication(installed, faults);
    }
  }

  // ----- what holds at every stopping point -----

  /** Our route is never live without a record of its exact path and digest. */
  ghost predicate Owned(files: Files) {
    OursActive(files) ==> Matches(files)
  }

  /** Nothing but our own work: no foreign route, and any record names our path. */
  ghost predicate Tidy(files: Files) {
    && (files.route.Absent? || (OursActive(files) && Matches(files)))
    && (files.state.Absent? || (files.state.File? && files.state.body.path == ROUTE_PATH))
  }

  datatype HostOp =
    | DoActivate(content: Content, activation: ActivateFaults)
    | DoRollback(pause: bool, removal: RollbackFaults)

  function Step(files: Files, op: HostOp): (Files, Exit) {
    match op
    case DoActivate(content, faults) => Activate(files, content, faults)
    case DoRollback(pause, faults) => Rollback(files, pause, faults)
  }

  function Run(files: Files, ops: seq<HostOp>): Files
    decreases |ops|
  {
    if ops == [] then files else Run(Step(files, ops[0]).0, ops[1..])
  }

  /** Wherever each of these operations fails or stops, a live route of ours has its record. */
  lemma {:induction false} RouteImpliesRecord(files: Files, ops: seq<HostOp>)
    requires Owned(files)
    ensures Owned(Run(files, ops))
    decreases |ops|
  {
    if ops != [] {
      RouteImpliesRecord(Step(files, ops[0]).0, ops[1..]);
    }
  }

  lemma {:induction false} StaysTidy(files: Files, ops: seq<HostOp>)
    requires Tidy(files)
    requires forall op <- ops :: op.DoActivate? ==> op.activation.intruder.None?
    ensures Tidy(Run(files, ops))
    decreases |ops|
  {
    if ops != [] {
      assert ops[0] in ops;
      assert forall op <- ops[1..] :: op in ops;
      StaysTidy(Step(files, ops[0]).0, ops[1..]);
    }
  }

  /**
    Stop the controller at any point of any run: if a record is left, one rollback
    removes both files, and if none is left our route is not live.
   */
  lemma OneRollbackRecovers(files: Files, ops: seq<HostOp>, pause: bool)
    requires Tidy(files)
    requires forall op <- ops :: op.DoActivate? ==> op.activation.intruder.None?
    ensures var left := Run(files, ops);
            if left.state.Absent? then left.route.Absent?
            else Rollback(left, pause, NO_FAULTS) ==
                 (Files(Absent, Absent, if pause then Absent else left.marker), Returned)
  {
    StaysTidy(files, ops);
  }

  /** Our own work and routes of other writers; any record names our path. */
  ghost predicate Contested(files: Files) {
    && (files.route.Absent? || (files.route.File? && (files.route.body.writer == SomeoneElse || Matches(files))))
    && (files.state.Absent? || (files.state.File? && files.state.body.path == ROUTE_PATH))
  }

  lemma {:induction false} StaysContested(files: Files, ops: seq<HostOp>)
    requires Contested(files)
    ensures Contested(Run(files, ops))
    decreases |ops|
  {
    if ops != [] { StaysContested(Step(files, ops[0]).0, ops[1..]); }
  }

  /**
    Let other writers race for the path as well and stop at any point of any run.
    If no record is left, our route is not live. Otherwise one rollback removes
    both files exactly when the route file is not another writer's with content
    of its own; such a file is what every later run leaves in place.
   */
  lemma RecoversUnlessForeign(files: Files, ops: seq<HostOp>, pause: bool, later: seq<HostOp>)
    requires Contested(files)
    ensures var left := Run(files, ops);
            var foreign := left.route.File? && left.route.body.writer == SomeoneElse && !Matches(left);
            && (left.state.Absent? ==> !OursActive(left))
            && (!left.state.Absent? ==>
                  (Rollback(left, pause, NO_FAULTS) ==
                     (Files(Absent, Absent, if pause then Absent else left.marker), Returned)
                   <==> !foreign))
            && (foreign ==> Run(left, later).route == left.route)
  {
    StaysContested(files, ops);
    var left := Run(files, ops);
    if left.route.File? && !Matches(left) { ForeignRouteKept(left, later); }
  }

  /** Rollback clears both paths exactly when it may; otherwise it touches nothing. */
  lemma RollbackIffRemovable(files: Files, pause: bool, faults: RollbackFaults)
    ensures !Removable(files) ==> Rollback(files, pause, faults) == (files, Raised)
    ensures Removable(files) && faults == NO_FAULTS ==>
              var (after, exit) := Rollback(files, pause, faults);
              exit == Returned && after.route.Absent? && after.state.Absent?
    ensures Rollback(files, pause, faults).0.route != files.route ==>
              Matches(files) && Rollback(files, pause, faults).0.route.Absent?
  {
  }

  /** A route file whose content is not the recorded one survives every run that does not first change it. */
  lemma {:induction false} ForeignRouteKept(files: Files, ops: seq<HostOp>)
    requires files.route.File? && !Matches(files)
    ensures Run(files, ops).route == files.route
    decreases |ops|
  {
    if ops != [] {
      assert Step(files, ops[0]).0 == files;
      ForeignRouteKept(files, ops[1..]);
    }
  }

  // ----- when activation reports success -----

  function SlotsIn(probes: seq<Probe>): set<string> {
    set p <- probes | p.Answer? && p.backend in REPLICA_SLOTS :: p.backend
  }

  ghost predicate Uninterrupted(probes: seq<Probe>) {
    forall p <- probes :: !p.Interrupt? && !p.Halt?
  }

  ghost predicate TwoSlots(probes: seq<Probe>, seen: set<string>, n: nat) {
    n <= |probes| && Uninterrupted(probes[..n]) && |seen + SlotsIn(probes[..n])| >= 2
  }

  function Noted(seen: set<string>, p: Probe): set<string> {
    if p.Answer? && p.backend in REPLICA_SLOTS then seen + {p.backend} else seen
  }

  lemma StartOfProbes(probes: seq<Probe>, seen: set<string>, n: nat)
    requires 0 < n <= |probes|
    ensures Uninterrupted(probes[..n]) <==>
            !probes[0].Interrupt? && !probes[0].Halt? && Uninterrupted(probes[1..][..n - 1])
    ensures seen + SlotsIn(probes[..n]) == Noted(seen, probes[0]) + SlotsIn(probes[1..][..n - 1])
  {
    var tail := probes[1..][..n - 1];
    assert probes[..n] == [probes[0]] + tail;
    assert forall p :: p in probes[..n] <==> p == probes[0] || p in tail;
    var here := if probes[0].Answer? && probes[0].backend in REPLICA_SLOTS then {probes[0].backend} else {};
    assert SlotsIn(probes[..n]) == here + SlotsIn(tail);
    assert Noted(seen, probes[0]) == seen + here;
  }

  lemma TwoSlotsStep(probes: seq<Probe>, seen: set<string>, n: nat)
    requires 0 < n <= |probes|
    ensures TwoSlots(probes, seen, n) <==>
            !probes[0].Interrupt? && !probes[0].Halt? && TwoSlots(probes[1..], Noted(seen, probes[0]), n - 1)
  {
    StartOfProbes(probes, seen, n);
  }

  lemma AlreadyTwo(probes: seq<Probe>, seen: set<string>)
    ensures |seen| >= 2 <==> TwoSlots(probes, seen, 0)
  {
    assert probes[..0] == [] && SlotsIn([]) == {} && seen + {} == seen;
  }

  lemma {:induction false} ConfirmedReaches(probes: seq<Probe>, seen: set<string>) returns (n: nat)
    requires |seen| < 2 && Verify(probes, seen) == Confirmed
    ensures TwoSlots(probes, seen, n)
  {
    var seen' := Noted(seen, probes[0]);
    if |seen'| >= 2 {
      AlreadyTwo(probes[1..], seen');
      n := 1;
    } else {
      n := ConfirmedReaches(probes[1..], seen');
      n := n + 1;
    }
    TwoSlotsStep(probes, seen, n);
  }

  lemma {:induction false} ReachingConfirms(probes: seq<Probe>, seen: set<string>, n: nat)
    requires |seen| < 2 && TwoSlots(probes, seen, n)
    ensures Verify(probes, seen) == Confirmed
  {
    AlreadyTwo(probes, seen);
    if n > 0 {
      TwoSlotsStep(probes, seen, n);
      if |Noted(seen, probes[0])| < 2 { ReachingConfirms(probes[1..], Noted(seen, probes[0]), n - 1); }
    }
  }

  /** The loop confirms exactly when an uninterrupted start of it reached two distinct slots. */
  lemma ConfirmedIffTwoSlots(probes: seq<Probe>)
    ensures Verify(probes, {}) == Confirmed <==> exists n :: TwoSlots(probes, {}, n)
  {
    if Verify(probes, {}) == Confirmed { var n := ConfirmedReaches(probes, {}); }
    if n: nat :| TwoSlots(probes, {}, n) { ReachingConfirms(probes, {}, n); }
  }

  lemma ReturnedMeans(files: Files, content: Content, faults: ActivateFaults)
    requires files.route.Absent? && files.state.Absent? && Activate(files, content, faults).1 == Returned
    ensures Activate(files, content, faults).0 ==
            Files(File(RouteFile(content, Controller)), File(RecordOf(content)), files.marker)
    ensures Verify(Rounds(faults.probes), {}) == Confirmed
  {
  }

  /** Some uninterrupted start of the rounds, at most twenty of them, reached two distinct slots. */
  ghost predicate SeenThroughTwo(probes: seq<Probe>) {
    exists n: nat :: n <= 20 && TwoSlots(probes, {}, n)
  }

  lemma SeenInRounds(probes: seq<Probe>)
    ensures SeenThroughTwo(probes) <==> exists n :: TwoSlots(Rounds(probes), {}, n)
  {
    if n: nat :| n <= 20 && TwoSlots(probes, {}, n) {
      assert Rounds(probes)[..n] == probes[..n];
      assert TwoSlots(Rounds(probes), {}, n);
    }
    if n: nat :| TwoSlots(Rounds(probes), {}, n) {
      assert Rounds(probes)[..n] == probes[..n];
      assert n <= 20 && TwoSlots(probes, {}, n);
    }
  }

  /** The process stops in this round, uninterrupted and before two slots were seen. */
  ghost predicate StopsAt(probes: seq<Probe>, seen: set<string>, n: nat) {
    n < |probes| && probes[n].Halt? && Uninterrupted(probes[..n]) && |seen + SlotsIn(probes[..n])| < 2
  }

  lemma StopsAtStart(probes: seq<Probe>, seen: set<string>)
    requires probes != []
    ensures StopsAt(probes, seen, 0) <==> probes[0].Halt? && |seen| < 2
  {
    assert probes[..0] == [] && SlotsIn([]) == {} && seen + {} == seen;
  }

  lemma StopsAtStep(probes: seq<Probe>, seen: set<string>, n: nat)
    requires 0 < n < |probes|
    ensures StopsAt(probes, seen, n) <==>
            !probes[0].Interrupt? && !probes[0].Halt? && StopsAt(probes[1..], Noted(seen, probes[0]), n - 1)
  {
    StartOfProbes(probes, seen, n);
  }

  lemma {:induction false} HaltedStops(probes: seq<Probe>, seen: set<string>) returns (n: nat)
    requires |seen| < 2 && Verify(probes, seen) == Halted
    ensures StopsAt(probes, seen, n)
  {
    StopsAtStart(probes, seen);
    if probes[0].Halt? {
      n := 0;
    } else {
      n := HaltedStops(probes[1..], Noted(seen, probes[0]));
      n := n + 1;
      StopsAtStep(probes, seen, n);
    }
  }

  lemma {:induction false} StoppingHalts(probes: seq<Probe>, seen: set<string>, n: nat)
    requires |seen| < 2 && StopsAt(probes, seen, n)
    ensures Verify(probes, seen) == Halted
  {
    if n > 0 {
      StopsAtStep(probes, seen, n);
      NotedFew(probes[1..], Noted(seen, probes[0]), n - 1);
      StoppingHalts(probes[1..], Noted(seen, probes[0]), n - 1);
    }
  }

  lemma NotedFew(probes: seq<Probe>, seen: set<string>, n: nat)
    requires StopsAt(probes, seen, n)
    ensures |seen| < 2
  {
    var all := seen + SlotsIn(probes[..n]);
    assert seen <= all && all == seen + (all - seen);
  }

  /** The process stops in one of the first twenty rounds, before two slots were seen. */
  ghost predicate StopsProbing(probes: seq<Probe>) {
    exists n: nat :: n < 20 && StopsAt(probes, {}, n)
  }

  lemma HaltedInRounds(probes: seq<Probe>)
    ensures Verify(Rounds(probes), {}) == Halted <==> StopsProbing(probes)
  {
    if Verify(Rounds(probes), {}) == Halted {
      var n := HaltedStops(Rounds(probes), {});
      assert Rounds(probes)[..n] == probes[..n];
      assert StopsAt(probes, {}, n);
    }
    if n: nat :| n < 20 && StopsAt(probes, {}, n) {
      assert Rounds(probes)[..n] == probes[..n];
      StoppingHalts(Rounds(probes), {}, n);
    }
  }

  /** The verdict on the rounds there are: confirmed, stopped, or neither. */
  lemma VerdictOnRounds(probes: seq<Probe>)
    ensures Verify(Rounds(probes), {}) == Confirmed <==> SeenThroughTwo(probes)
    ensures Verify(Rounds(probes), {}) == Halted <==> StopsProbing(probes)
  {
    ConfirmedIffTwoSlots(Rounds(probes));
    SeenInRounds(probes);
    HaltedInRounds(probes);
  }

  /** No operation fails, nobody else takes the path, and the new route is seen through two slots. */
  ghost predicate GoesThrough(f: ActivateFaults) {
    && f.checks == Fine && f.writeState == Fine && f.writeTemp == Fine && f.link == Fine && f.unlinkTemp == Fine
    && f.intruder.None? && SeenThroughTwo(f.probes)
  }

  lemma ActivatesIffConfirmed(files: Files, content: Content, f: ActivateFaults)
    requires files.route.Absent? && files.state.Absent?
    ensures var fine := f.checks == Fine && f.writeState == Fine && f.writeTemp == Fine && f.link == Fine
                        && f.unlinkTemp == Fine && f.intruder.None?;
            Activate(files, content, f).1 == Returned <==> fine && Verify(Rounds(f.probes), {}) == Confirmed
  {}

  /**
    Activation from absent files ends with our route live, its record written and the
    marker kept, exactly when everything goes through; only then does it return.
   */
  lemma ActivatesIff(files: Files, content: Content, faults: ActivateFaults)
    requires files.route.Absent? && files.state.Absent?
    ensures var live := Files(File(RouteFile(content, Controller)), File(RecordOf(content)), files.marker);
            && (Activate(files, content, faults) == (live, Returned) <==> GoesThrough(faults))
            && (Activate(files, content, faults).1 == Returned <==> GoesThrough(faults))
  {
    ActivatesIffConfirmed(files, content, faults);
    if Activate(files, content, faults).1 == Returned { ReturnedMeans(files, content, faults); }
    VerdictOnRounds(faults.probes);
  }

  /** The route file gets published, whatever follows. */
  predicate Publishes(f: ActivateFaults) {
    f.checks == Fine && f.writeState == Fine && f.writeTemp == Fine && f.intruder.None? && f.link == Fine
  }

  /** The ownership record gets written, whatever follows. */
  predicate Records(f: ActivateFaults) { f.checks == Fine && f.writeState == Fine }

  /** After publication the process stops before it can undo anything. */
  ghost predicate StopsLive(f: ActivateFaults) {
    f.unlinkTemp == Stops || (f.unlinkTemp == Fine && StopsProbing(f.probes))
  }

  /** The undo of a published route gets as far as each of its three files. */
  ghost predicate Undoes(f: ActivateFaults) { !GoesLive(f) && !StopsLive(f) }

  ghost predicate GoesLive(f: ActivateFaults) { f.unlinkTemp == Fine && SeenThroughTwo(f.probes) }

  /** What a published activation leaves: each file is gone exactly when its undo is reached and works. */
  lemma PublishedLeaves(files: Files, content: Content, f: ActivateFaults)
    requires files.route.Absent? && files.state.Absent? && Publishes(f)
    ensures var (after, exit) := Activate(files, content, f);
            var routeGone := Undoes(f) && f.undo.route == Fine;
            var recordGone := routeGone && f.undo.state == Fine;
            && after.route == (if routeGone then Absent else File(RouteFile(content, Controller)))
            && after.state == (if recordGone then Absent else File(RecordOf(content)))
            && after.marker == (if recordGone && f.undo.marker == Fine then Absent else files.marker)
            && (exit == Returned <==> GoesLive(f))
            && (exit == Stopped <==>
                  || StopsLive(f)
                  || (Undoes(f) && (f.undo.route == Stops
                                    || (f.undo.route == Fine && f.undo.state == Stops)
                                    || (f.undo.route == Fine && f.undo.state == Fine && f.undo.marker == Stops))))
  {
    VerdictOnRounds(f.probes);
  }

  /** Before publication: somebody else's file stays, and the record is dropped when the process lives and can. */
  lemma UnpublishedLeaves(files: Files, content: Content, f: ActivateFaults)
    requires files.route.Absent? && files.state.Absent? && !Publishes(f)
    ensures var (after, exit) := Activate(files, content, f);
            var linking := Records(f) && f.writeTemp == Fine;
            var undoing := Records(f)
              && (f.writeTemp == Fails || (linking && f.link != Stops && f.unlinkTemp != Stops));
            && after.route == (if linking && f.intruder.Some? then File(RouteFile(f.intruder.value, SomeoneElse))
                               else Absent)
            && after.state == (if Records(f) && !(undoing && f.dropState == Fine) then File(RecordOf(content))
                               else Absent)
            && after.marker == files.marker
            && exit != Returned
            && (undoing ==> (exit == Stopped <==> f.dropState == Stops))
            && (!Records(f) ==> exit == ExitOf(if f.checks != Fine then f.checks else f.writeState))
            && (Records(f) && !undoing ==> exit == Stopped)
  {}

  /** An activation that finds a route or a record touches nothing. */
  lemma ActivationNeedsBothAbsent(files: Files, content: Content, f: ActivateFaults)
    requires !files.route.Absent? || !files.state.Absent?
    ensures Activate(files, content, f) == (files, Raised)
  {}

  /**
    Rollback takes the route, the record and, when it pauses, the marker, in this
    order, each exactly when the ones before it went and its own unlink works.
   */
  lemma RollbackLeaves(files: Files, pause: bool, faults: RollbackFaults)
    requires files.state.File? && files.state.body.path == ROUTE_PATH && (files.route.Absent? || Matches(files))
    ensures var (after, exit) := Rollback(files, pause, faults);
            var routeGone := files.route.Absent? || faults.route == Fine;
            var recordGone := routeGone && faults.state == Fine;
            && after.route == (if routeGone then Absent else files.route)
            && after.state == (if recordGone then Absent else files.state)
            && after.marker == (if recordGone && pause && faults.marker == Fine then Absent else files.marker)
            && exit == (if !routeGone then ExitOf(faults.route) else if !recordGone then ExitOf(faults.state)
                        else if pause then ExitOf(faults.marker) else Returned)
  {}

  /** A record that is missing or names another path, or a route that is not the recorded one, refuses the rollback. */
  lemma RollbackRefuses(files: Files, pause: bool, faults: RollbackFaults)
    requires !files.state.File? || files.state.body.path != ROUTE_PATH
             || (!files.route.Absent?
                 && !(files.route.File? && files.state.body.sha == Sha256(files.route.body.content)))
    ensures Rollback(files, pause, faults) == (files, Raised)
  {}

  /** Ownership is read as yes for a recorded route, as no for nothing at all, and raises for everything else. */
  lemma OwnershipIs(files: Files)
    ensures OwnedRoute(files) == Some(true) <==>
              files.route.File? && files.state == File(Record(ROUTE_PATH, Sha256(files.route.body.content)))
    ensures OwnedRoute(files) == Some(false) <==> files.route.Absent? && files.state.Absent?
  {}

  /**
    Success means our file is live, recorded, and was seen through two slots; a
    failure whose undo works leaves nothing.
   */
  lemma ActivationOutcome(files: Files, content: Content, faults: ActivateFaults)
    requires files.route.Absent? && files.state.Absent?
    ensures var (after, exit) := Activate(files, content, faults);
            && (exit == Returned ==>
                  && after == Files(File(RouteFile(content, Controller)), File(RecordOf(content)), files.marker)
                  && exists n :: TwoSlots(Rounds(faults.probes), {}, n))
            && (exit == Raised && faults.undo == NO_FAULTS && faults.dropState == Fine ==>
                  !OursActive(after) && after.state.Absent?)
  {
    if Activate(files, content, faults).1 == Returned {
      ReturnedMeans(files, content, faults);
      ConfirmedIffTwoSlots(Rounds(faults.probes));
    }
  }

  /** A run is its operations one after the other. */
  lemma {:induction false} RunGoesOn(files: Files, ops: seq<HostOp>, op: HostOp)
    ensures Run(files, []) == files && Run(files, ops + [op]) == Step(Run(files, ops), op).0
    decreases |ops|
  {
    if ops == [] {
      assert [op][1..] == [] && ops + [op] == [op];
    } else {
      RunGoesOn(Step(files, ops[0]).0, ops[1..], op);
      assert (ops + [op])[1..] == ops[1..] + [op];
    }
  }
}
