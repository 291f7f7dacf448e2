/**
  The replica release controller: the pure release decision, and reconcile,
  install and pause over the host files. Every host operation may raise or be the
  last one before the process stops.
 */
module ReleaseController {
  import opened Basics
  import opened RouteFiles
  import Text

  type Env = map<string, string>

  /** commit and env are None when the source's commit() or environment() raises. */
  datatype Container = Container(image: string, commit: Option<string>, healthy: bool, env: Option<Env>)

  const OVERRIDES: Env := map[
    "HTTP_ADDR" := ":8080", "RUN_MIGRATIONS" := "false", "RUN_INLINE_WORKERS" := "false",
    "REDIS_OPTIONAL" := "false", "DB_MAX_CONNS" := "8", "DB_MIN_CONNS" := "1",
    "DATABASE_READ_URL" := "", "HTTP_MAX_IN_FLIGHT" := "64"]
  const EXCLUDED: set<string> := {"HOSTNAME", "PATH", "HOME"}
  const STORAGE_KEYS: set<string> := {
    "DATABASE_URL", "DB_HOST", "DB_PORT", "DB_USERNAME", "DB_PASSWORD", "DB_NAME",
    "REDIS_URL", "REDIS_ADDR", "REDIS_PASSWORD", "REDIS_DB", "REDIS_TLS_CA_FILE", "REDIS_TLS_CA_BASE64"}

  function Get(env: Env, key: string): string { if key in env then env[key] else "" }

  function Normalized(env: Env): Env { env - EXCLUDED }
  function Desired(env: Env): Env { Normalized(env) + OVERRIDES }

  predicate IsDecimal(s: string) { s != "" && Text.AllDigits(s) }

  function PoolLimit(env: Env, name: string, otherwise: nat): Option<nat> {
    var value := Get(env, name);
    if value == "" then Some(otherwise)
    else if !IsDecimal(value) || !(2 <= Text.ParseDecimal(value) <= 1000) then None
    else Some(Text.ParseDecimal(value))
  }

  /** Connections one container may open; inherited read pools count as well. */
  function Pools(env: Env): Option<nat> {
    var write := PoolLimit(env, "DB_MAX_CONNS", 20);
    var read := if Get(env, "DATABASE_READ_URL") != "" then PoolLimit(env, "DB_READ_MAX_CONNS", 20) else Some(0);
    if write.None? || read.None? then None else Some(write.value + read.value)
  }

  const RESERVED: nat := 20 + 10 + 3 * 8

  function Budget(api: Env, worker: Env, maximum: nat): Option<nat> {
    var a, w := Pools(api), Pools(worker);
    if a.None? || w.None? || a.value + w.value + RESERVED > maximum then None else Some(a.value + w.value + RESERVED)
  }

  datatype Action = WaitApi | WaitWorker | Refresh | Aligned
  datatype Plan = Plan(action: Action, commit: Option<string>)

  /** all(...) over the replicas, which stops at the first that differs; None when environment() raises. */
  function AllMatch(replicas: seq<Container>, image: string, expected: Env): Option<bool> {
    if replicas == [] then Some(true)
    else
      var r := replicas[0];
      if !r.healthy || r.image != image then Some(false)
      else if r.env.None? then None
      else if Normalized(r.env.value) != expected then Some(false)
      else AllMatch(replicas[1..], image, expected)
  }

  /** None stands for the ValueError the source raises. */
  function Decide(api: Container, worker: Container, replicas: seq<Container>, maximum: nat): Option<Plan> {
    if !api.healthy then Some(Plan(WaitApi, None))
    else if api.commit.None? then None
    else if !worker.healthy then Some(Plan(WaitWorker, api.commit))
    else if worker.commit.None? then None
    else if worker.commit != api.commit then Some(Plan(WaitWorker, api.commit))
    else if api.env.None? || worker.env.None? then None
    else
      var env := api.env.value;
      if exists k <- STORAGE_KEYS :: Get(env, k) != Get(worker.env.value, k) then Some(Plan(WaitWorker, api.commit))
      else if Text.Lower(Get(env, "RUN_INLINE_WORKERS")) != "false" then None
      else if Get(env, "REDIS_URL") == "" && Get(env, "REDIS_ADDR") == "" then None
      else if |replicas| > 2 then None
      else if Budget(env, worker.env.value, maximum).None? then None
      else if |replicas| != 2 then Some(Plan(Refresh, api.commit))
      else
        var same := AllMatch(replicas, api.image, Desired(env));
        if same.None? then None else Some(Plan(if same.value then Aligned else Refresh, api.commit))
  }

  // ----- the host operations of one reconcile -----

  datatype Snapshot = Seen(api: Container, worker: Container, replicas: seq<Container>) | Unseen(fault: Fault)

  datatype FallbackFaults = FallbackFaults(removal: RollbackFaults, confirm: Fault)

  datatype Inputs = Inputs(
    first: Snapshot,
    ready: Fault,
    fallback: FallbackFaults,   // of whichever branch falls back before the handler
    dropMarker: Fault,          // in the ValueError branch
    refresh: Fault,
    second: Snapshot,
    pausedMeanwhile: bool,      // someone removed the marker during the refresh
    route: Content,
    activation: ActivateFaults,
    handlerMarker: Fault,
    handlerFallback: FallbackFaults)

  datatype Outcome = Disabled | Waiting | UpToDate | Updated | Failed | Cut

  function OutcomeOf(exit: Exit, done: Outcome): Outcome {
    match exit case Returned => done case Raised => Failed case Stopped => Cut
  }

  function SnapshotExit(s: Snapshot): Exit {
    match s case Seen(_, _, _) => Returned case Unseen(f) => if f == Stops then Stopped else Raised
  }

  function Fallback(files: Files, faults: FallbackFaults): (Files, Exit) {
    match OwnedRoute(files)
    case None => (files, Raised)
    case Some(owned) =>
      if !owned then (files, Returned)
      else
        var (after, exit) := Rollback(files, false, faults.removal);
        (after, if exit == Returned then ExitOf(faults.confirm) else exit)
  }

  function DropMarker(files: Files, fault: Fault): (Files, Exit) {
    (if fault == Fine then files.(marker := Absent) else files, ExitOf(fault))
  }

  /** The guarded section up to where it returns, raises or stops. */
  function Change(files: Files, plan: Plan, maximum: nat, x: Inputs): (Files, Outcome) {
    var (off, gone) := Fallback(files, x.fallback);
    if gone != Returned then (off, OutcomeOf(gone, Failed))
    else if plan.action == Refresh && x.refresh != Fine then (off, OutcomeOf(ExitOf(x.refresh), Failed))
    else if x.second.Unseen? then (off, OutcomeOf(SnapshotExit(x.second), Failed))
    else
      var current := Decide(x.second.api, x.second.worker, x.second.replicas, maximum);
      if current != Some(Plan(Aligned, plan.commit)) then (off, Failed)
      else
        var now := if x.pausedMeanwhile then off.(marker := Absent) else off;
        if !now.marker.File? then (now, Disabled)
        else
          var (after, exit) := Activate(now, x.route, x.activation);
          (after, OutcomeOf(exit, Updated))
  }

  /** The except clause: turn automation off, then put traffic back. It always re-raises. */
  function Handle(files: Files, x: Inputs): (Files, Outcome) {
    var (off, dropped) := DropMarker(files, x.handlerMarker);
    if dropped != Returned then (off, OutcomeOf(dropped, Failed))
    else if OwnedRoute(off) != Some(true) then (off, Failed)
    else
      var (after, exit) := Fallback(off, x.handlerFallback);
      (after, OutcomeOf(exit, Failed))
  }

  function Reconcile(files: Files, maximum: nat, x: Inputs): (Files, Outcome) {
    if !files.marker.File? then (files, Disabled)
    else if x.first.Unseen? then (files, OutcomeOf(SnapshotExit(x.first), Failed))
    else match Decide(x.first.api, x.first.worker, x.first.replicas, maximum)
      case None =>
        if x.ready != Fine then (files, OutcomeOf(ExitOf(x.ready), Failed))
        else
          var (off, exit) := Fallback(files, x.fallback);
          if exit != Returned then (off, OutcomeOf(exit, Failed))
          else
            var (dark, dropped) := DropMarker(off, x.dropMarker);
            (dark, OutcomeOf(dropped, Failed))
      case Some(plan) =>
        if OwnedRoute(files).None? then (files, Failed)
        else
          var active := OwnedRoute(files).value;
          if plan.action == WaitApi then (files, Waiting)
          else if x.ready != Fine then (files, OutcomeOf(ExitOf(x.ready), Failed))
          else if plan.action == WaitWorker then
            if active then
              var (off, exit) := Fallback(files, x.fallback);
              (off, OutcomeOf(exit, Waiting))
            else (files, Waiting)
          else if plan.action == Aligned && active then (files, UpToDate)
          else
            var (after, outcome) := Change(files, plan, maximum, x);
            if outcome == Failed then Handle(after, x) else (after, outcome)
  }

  // ----- install and pause -----

  datatype InstallInputs = InstallInputs(
    look: Snapshot, ready: Fault, prepare: Fault, arm: Fault, enable: Fault, disarm: Fault)

  predicate ReadyToInstall(look: Snapshot, maximum: nat)
    requires look.Seen?
  {
    var plan := Decide(look.api, look.worker, look.replicas, maximum);
    plan.Some? && plan.value.action == Aligned
  }

  function Install(files: Files, maximum: nat, x: InstallInputs): (Files, Exit) {
    if OwnedRoute(files) != Some(true) then (files, Raised)
    else if x.look.Unseen? then (files, SnapshotExit(x.look))
    else if !ReadyToInstall(x.look, maximum) then (files, Raised)
    else if x.ready != Fine then (files, ExitOf(x.ready))
    else if x.prepare != Fine then (files, ExitOf(x.prepare))  // pinned files and units; the marker is not touched
    else if x.arm == Stops then (files, Stopped)
    else if files.marker.Symlink? || x.arm == Fails then Disarm(files, x)
    else
      var armed := files.(marker := File(()));
      if x.enable == Stops then (armed, Stopped)
      else if x.enable == Fails then Disarm(armed, x)
      else (armed, Returned)
  }

  function Disarm(files: Files, x: InstallInputs): (Files, Exit) {
    var (off, exit) := DropMarker(files, x.disarm);
    (off, if exit == Stopped then Stopped else Raised)
  }

  function Pause(files: Files, dropMarker: Fault, removal: RollbackFaults): (Files, Exit) {
    var (off, exit) := DropMarker(files, dropMarker);
    if exit != Returned then (off, exit)
    else if OwnedRoute(off).None? then (off, Raised)
    else if OwnedRoute(off).value then Rollback(off, true, removal)
    else (off, Returned)
  }

  // ----- the same operations on a host, step by step -----

  class Controller {
    const host: Host

    constructor(host: Host)
      ensures this.host == host
    {
      this.host := host;
    }

    method FallBack(faults: FallbackFaults) returns (exit: Exit)
      modifies host
      ensures (host.View(), exit) == Fallback(old(host.View()), faults)
    {
      var owned := OwnedRoute(host.View());
      if owned.None? {
        return Raised;
      }
      if owned.value {
        exit := host.RemoveRoute(false, faults.removal);
        if exit != Returned {
          return exit;
        }
        return ExitOf(faults.confirm);
      }
      return Returned;
    }

    method RemoveMarker(fault: Fault) returns (exit: Exit)
      modifies host
      ensures (host.View(), exit) == DropMarker(old(host.View()), fault)
    {
      if fault == Fine {
        host.marker := Absent;
      }
      exit := ExitOf(fault);
    }

    method TryChange(plan: Plan, maximum: nat, x: Inputs) returns (outcome: Outcome)
      modifies host
      ensures (host.View(), outcome) == Change(old(host.View()), plan, maximum, x)
    {
      var exit := FallBack(x.fallback);
      if exit != Returned {
        return OutcomeOf(exit, Failed);
      }
      if plan.action == Refresh && x.refresh != Fine {
        return OutcomeOf(ExitOf(x.refresh), Failed);
      }
      if x.second.Unseen? {
        return OutcomeOf(SnapshotExit(x.second), Failed);
      }
      var current := Decide(x.second.api, x.second.worker, x.second.replicas, maximum);
      if current.None? || current.value.action != Aligned || current.value.commit != plan.commit {
        return Failed;
      }
      if x.pausedMeanwhile {
        host.marker := Absent;
      }
      if !host.marker.File? {
        return Disabled;
      }
      exit := host.Execute(x.route, x.activation);
      outcome := OutcomeOf(exit, Updated);
    }

    method HandleFailure(x: Inputs) returns (outcome: Outcome)
      modifies host
      ensures (host.View(), outcome) == Handle(old(host.View()), x)
    {
      var exit := RemoveMarker(x.handlerMarker);
      if exit != Returned {
        return OutcomeOf(exit, Failed);
      }
      if OwnedRoute(host.View()) == Some(true) {
        exit := FallBack(x.handlerFallback);
        return OutcomeOf(exit, Failed);
      }
      return Failed;
    }

    method ReconcileNow(maximum: nat, x: Inputs) returns (outcome: Outcome)
      modifies host
      ensures (host.View(), outcome) == Reconcile(old(host.View()), maximum, x)
    {
      if !host.marker.File? {
        return Disabled;
      }
      if x.first.Unseen? {
        return OutcomeOf(SnapshotExit(x.first), Failed);
      }
      var decision := Decide(x.first.api, x.first.worker, x.first.replicas, maximum);
      if decision.None? {
        if x.ready != Fine {
          return OutcomeOf(ExitOf(x.ready), Failed);
        }
        var exit := FallBack(x.fallback);
        if exit != Returned {
          return OutcomeOf(exit, Failed);
        }
        exit := RemoveMarker(x.dropMarker);
        return OutcomeOf(exit, Failed);
      }
      var plan, active := decision.value, OwnedRoute(host.View());
      if active.None? {
        return Failed;
      }
      if plan.action == WaitApi {
        return Waiting;
      }
      if x.ready != Fine {
        return OutcomeOf(ExitOf(x.ready), Failed);
      }
      if plan.action == WaitWorker {
        if active.value {
          var exit := FallBack(x.fallback);
          return OutcomeOf(exit, Waiting);
        }
        return Waiting;
      }
      if plan.action == Aligned && active.value {
        return UpToDate;
      }
      outcome := TryChange(plan, maximum, x);
      if outcome == Failed {
        outcome := HandleFailure(x);
      }
    }

    method InstallNow(maximum: nat, x: InstallInputs) returns (exit: Exit)
      modifies host
      ensures (host.View(), exit) == Install(old(host.View()), maximum, x)
    {
      if OwnedRoute(host.View()) != Some(true) {
        return Raised;
      }
      if x.look.Unseen? {
        return SnapshotExit(x.look);
      }
      var plan := Decide(x.look.api, x.look.worker, x.look.replicas, maximum);
      if plan.None? || plan.value.action != Aligned {
        return Raised;
      }
      if x.ready != Fine {
        return ExitOf(x.ready);
      }
      if x.prepare != Fine {
        return ExitOf(x.prepare);
      }
      if x.arm == Stops {
        return Stopped;
      }
      if x.arm == Fine && !host.marker.Symlink? {
        host.marker := File(());
        if x.enable == Stops {
          return Stopped;
        }
        if x.enable == Fine {
          return Returned;
        }
      }
      exit := RemoveMarker(x.disarm);
      return if exit == Stopped then Stopped else Raised;
    }

    method PauseNow(dropMarker: Fault, removal: RollbackFaults) returns (exit: Exit)
      modifies host
      ensures (host.View(), exit) == Pause(old(host.View()), dropMarker, removal)
    {
      exit := RemoveMarker(dropMarker);
      if exit != Returned {
        return exit;
      }
      var owned := OwnedRoute(host.View());
      if owned.None? {
        return Raised;
      }
      if owned.value {
        exit := host.RemoveRoute(true, removal);
        return exit;
      }
      return Returned;
    }
  }

  // ----- what reconcile may leave behind -----

  /** The plan and the second snapshot agree on one commit and find the replicas aligned with it. */
  ghost predicate Justified(maximum: nat, x: Inputs) {
    && x.first.Seen? && x.second.Seen?
    && var plan := Decide(x.first.api, x.first.worker, x.first.replicas, maximum);
       plan.Some? && Decide(x.second.api, x.second.worker, x.second.replicas, maximum)
           == Some(Plan(Aligned, plan.value.commit))
  }

  lemma FallbackTouchesOnlyOurRoute(files: Files, faults: FallbackFaults)
    ensures var after := Fallback(files, faults).0;
            && after.marker == files.marker
            && (after == files || after == Files(Absent, files.state, files.marker)
                || after == Files(Absent, Absent, files.marker))
  {
  }

  lemma ActivateLeaves(files: Files, content: Content, faults: ActivateFaults)
    ensures var (after, exit) := Activate(files, content, faults);
            && (OursActive(after) ==> after.route == files.route || after.route == File(RouteFile(content, Controller)))
            && (Owned(files) ==> Owned(after))
            && (after.marker == files.marker || after.marker.Absent?)
            && (OursActive(files) ==> after == files)
  {
  }

  lemma HandleOnlyRemoves(files: Files, x: Inputs)
    ensures var after := Handle(files, x).0;
            && (after.route == files.route || after.route.Absent?)
            && (after.route == files.route ==> after.state == files.state || !files.route.File?)
            && (after.marker == files.marker || after.marker.Absent?)
            && (Owned(files) ==> Owned(after))
  {
    FallbackTouchesOnlyOurRoute(DropMarker(files, x.handlerMarker).0, x.handlerFallback);
  }

  /**
    However reconcile ends and whatever fails, a live route of ours was there before
    with the same content and record, or was activated after a justified plan.
   */
  lemma ActiveRouteIsJustified(files: Files, maximum: nat, x: Inputs)
    requires Owned(files) && OursActive(Reconcile(files, maximum, x).0)
    ensures var after := Reconcile(files, maximum, x).0;
            && Matches(after)
            && ((after.route == files.route && after.state == files.state)
                || (Justified(maximum, x) && after.route == File(RouteFile(x.route, Controller))))
  {
    FallbackTouchesOnlyOurRoute(files, x.fallback);
    if x.first.Seen? && Decide(x.first.api, x.first.worker, x.first.replicas, maximum).Some? {
      var plan := Decide(x.first.api, x.first.worker, x.first.replicas, maximum).value;
      ChangeLeaves(files, plan, maximum, x);
      HandleOnlyRemoves(Change(files, plan, maximum, x).0, x);
    }
  }

  lemma ChangeLeaves(files: Files, plan: Plan, maximum: nat, x: Inputs)
    requires Owned(files)
    ensures var after := Change(files, plan, maximum, x).0;
            && Owned(after)
            && (after.marker == files.marker || after.marker.Absent?)
            && (OursActive(after) ==>
                  || (after.route == files.route && after.state == files.state)
                  || (x.second.Seen? && after.route == File(RouteFile(x.route, Controller)) &&
                      Decide(x.second.api, x.second.worker, x.second.replicas, maximum)
                          == Some(Plan(Aligned, plan.commit))))
  {
    FallbackTouchesOnlyOurRoute(files, x.fallback);
    var off := Fallback(files, x.fallback).0;
    ActivateLeaves(off, x.route, x.activation);
    ActivateLeaves(off.(marker := Absent), x.route, x.activation);
  }

  /** The plan with which reconcile enters its guarded change section, if it does. */
  function EntersChange(files: Files, maximum: nat, x: Inputs): Option<Plan> {
    if !files.marker.File? || x.first.Unseen? then None
    else
      var plan := Decide(x.first.api, x.first.worker, x.first.replicas, maximum);
      if plan.None? || OwnedRoute(files).None? || x.ready != Fine then None
      else if plan.value.action == Refresh || (plan.value.action == Aligned && !OwnedRoute(files).value) then plan
      else None
  }

  /** The change section falls back, refreshes, looks again and finds the same release aligned. */
  predicate ReachesActivation(files: Files, plan: Plan, maximum: nat, x: Inputs) {
    && (OwnedRoute(files) == Some(false)
        || (x.fallback.removal.route == Fine && x.fallback.removal.state == Fine && x.fallback.confirm == Fine))
    && (plan.action == Refresh ==> x.refresh == Fine)
    && x.second.Seen? && Decide(x.second.api, x.second.worker, x.second.replicas, maximum)
                       == Some(Plan(Aligned, plan.commit))
    && !x.pausedMeanwhile
  }

  /** The old route could not be unlinked, or the new one was published and its undo cannot unlink it. */
  predicate RouteStuck(files: Files, plan: Plan, maximum: nat, x: Inputs) {
    || (OursActive(files) && x.fallback.removal.route != Fine)
    || (ReachesActivation(files, plan, maximum, x) && Publishes(x.activation) && x.activation.undo.route != Fine)
  }

  /** The new route was published and its undo went through to the marker. */
  predicate UndoneCleanly(files: Files, plan: Plan, maximum: nat, x: Inputs) {
    ReachesActivation(files, plan, maximum, x) && Publishes(x.activation) && x.activation.undo == NO_FAULTS
  }

  /** Whether a failing change is cleaned up, read off the files and the faults. */
  predicate CleansUp(files: Files, plan: Plan, maximum: nat, x: Inputs) {
    if RouteStuck(files, plan, maximum, x) then x.handlerMarker == Fine && x.handlerFallback.removal.route == Fine
    else x.handlerMarker == Fine || UndoneCleanly(files, plan, maximum, x)
  }

  /** A failing activation leaves its route exactly when it was published and cannot be unlinked. */
  lemma FailedActivation(files: Files, content: Content, f: ActivateFaults)
    requires files.route.Absent? && files.state.Absent? && Activate(files, content, f).1 == Raised
    ensures var after := Activate(files, content, f).0;
            && (OursActive(after) <==> Publishes(f) && f.undo.route != Fine)
            && (OursActive(after) ==> Matches(after))
            && after.marker == if Publishes(f) && f.undo == NO_FAULTS then Absent else files.marker
  {}

  lemma FallbackEnds(files: Files, faults: FallbackFaults)
    requires Owned(files) && OwnedRoute(files).Some?
    ensures var (off, exit) := Fallback(files, faults);
            && off.marker == files.marker
            && (OursActive(off) <==> OursActive(files) && faults.removal.route != Fine)
            && (OursActive(off) ==> off == files && exit != Returned)
            && (exit == Returned ==> off.route.Absent? && off.state.Absent?)
            && (exit == Returned <==>
                  OwnedRoute(files) == Some(false)
                  || (faults.removal.route == Fine && faults.removal.state == Fine && faults.confirm == Fine))
  {}

  lemma FailedChange(files: Files, plan: Plan, maximum: nat, x: Inputs)
    requires Owned(files) && OwnedRoute(files).Some? && files.marker.File?
      && Change(files, plan, maximum, x).1 == Failed
    ensures var entry := Change(files, plan, maximum, x).0;
            && (OursActive(entry) <==> RouteStuck(files, plan, maximum, x))
            && (OursActive(entry) ==> Matches(entry))
            && entry.marker == if UndoneCleanly(files, plan, maximum, x) then Absent else files.marker
  {
    FallbackEnds(files, x.fallback);
    var off := Fallback(files, x.fallback).0;
    if ReachesActivation(files, plan, maximum, x) { FailedActivation(off, x.route, x.activation); }
  }

  lemma Handled(entry: Files, x: Inputs)
    requires OursActive(entry) ==> Matches(entry)
    ensures var after := Handle(entry, x).0;
            (!OursActive(after) && after.marker.Absent?) <==>
              if OursActive(entry) then x.handlerMarker == Fine && x.handlerFallback.removal.route == Fine
              else x.handlerMarker == Fine || entry.marker.Absent?
  {
    var off := DropMarker(entry, x.handlerMarker).0;
    if OursActive(entry) { FallbackEnds(off, x.handlerFallback); }
    if OwnedRoute(off) == Some(true) { FallbackTouchesOnlyOurRoute(off, x.handlerFallback); }
  }

  /**
    A failed change leaves no route of ours and automation off, exactly when the
    handler's own operations go through as far as they are needed: the marker
    unlink unless the undo of the new route removed the marker, and the route
    unlink if a route is stuck.
   */
  lemma FailedChangeIsClean(files: Files, maximum: nat, x: Inputs)
    requires Owned(files) && EntersChange(files, maximum, x).Some?
    requires Reconcile(files, maximum, x).1 == Failed
    ensures var after := Reconcile(files, maximum, x).0;
            (!OursActive(after) && after.marker.Absent?) <==>
              CleansUp(files, EntersChange(files, maximum, x).value, maximum, x)
  {
    var plan := EntersChange(files, maximum, x).value;
    var entry := Change(files, plan, maximum, x).0;
    FailedChange(files, plan, maximum, x);
    assert Reconcile(files, maximum, x) == Handle(entry, x);
    Handled(entry, x);
  }

  /** When the handler cannot unlink the marker, the old route is left live with automation armed. */
  lemma HandlerFailureKeepsRoute(files: Files, maximum: nat, x: Inputs)
    requires Matches(files) && OursActive(files) && EntersChange(files, maximum, x).Some?
    requires x.fallback.removal.route == Fails && x.handlerMarker == Fails
    ensures Reconcile(files, maximum, x) == (files, Failed) && files.marker.File?
  {
  }

  // ----- runs of every controller command -----

  datatype Command =
    | DoReconcile(maximum: nat, inputs: Inputs)
    | DoInstall(limit: nat, install: InstallInputs)
    | DoPause(dropMarker: Fault, removal: RollbackFaults)
    | DoHost(op: HostOp)

  function Obey(files: Files, c: Command): Files {
    match c
    case DoReconcile(maximum, x) => Reconcile(files, maximum, x).0
    case DoInstall(maximum, x) => Install(files, maximum, x).0
    case DoPause(dropMarker, removal) => Pause(files, dropMarker, removal).0
    case DoHost(op) => Step(files, op).0
  }

  function ObeyAll(files: Files, cs: seq<Command>): Files
    decreases |cs|
  {
    if cs == [] then files else ObeyAll(Obey(files, cs[0]), cs[1..])
  }

  lemma ReconcileKeeps(files: Files, maximum: nat, x: Inputs)
    ensures var after := Reconcile(files, maximum, x).0;
            && (Owned(files) ==> Owned(after))
            && (after.marker == files.marker || after.marker.Absent?)
            && (!files.marker.File? ==> after == files)
  {
    FallbackTouchesOnlyOurRoute(files, x.fallback);
    if Owned(files) && OursActive(Reconcile(files, maximum, x).0) { ActiveRouteIsJustified(files, maximum, x); }
    if EntersChange(files, maximum, x).Some? {
      var plan := EntersChange(files, maximum, x).value;
      ChangeKeepsMarker(files, plan, maximum, x);
      HandleOnlyRemoves(Change(files, plan, maximum, x).0, x);
    }
  }

  lemma ChangeKeepsMarker(files: Files, plan: Plan, maximum: nat, x: Inputs)
    ensures var after := Change(files, plan, maximum, x).0; after.marker == files.marker || after.marker.Absent?
  {}

  lemma OtherCommandsKeep(files: Files, c: Command)
    requires !c.DoReconcile?
    ensures Owned(files) ==> Owned(Obey(files, c))
    ensures !c.DoInstall? ==> Obey(files, c).marker == files.marker || Obey(files, c).marker.Absent?
    ensures c.DoInstall? ==>
      || (OwnedRoute(files) == Some(true) && c.install.look.Seen? && ReadyToInstall(c.install.look, c.limit))
      || Obey(files, c) == files
  {
    if c.DoHost? && c.op.DoActivate? { ActivateLeaves(files, c.op.content, c.op.activation); }
    if c.DoHost? && c.op.DoRollback? { RollbackIffRemovable(files, c.op.pause, c.op.removal); }
  }

  /** Over any run of commands, whatever fails or stops, a live route of ours has its exact record. */
  lemma {:induction false} CommandsKeepOwned(files: Files, cs: seq<Command>)
    requires Owned(files)
    ensures Owned(ObeyAll(files, cs))
    decreases |cs|
  {
    if cs != [] {
      if cs[0].DoReconcile? {
        ReconcileKeeps(files, cs[0].maximum, cs[0].inputs);
      } else {
        OtherCommandsKeep(files, cs[0]);
      }
      CommandsKeepOwned(Obey(files, cs[0]), cs[1..]);
    }
  }

  /** An install that passed all its checks at this point of the run. */
  ghost predicate ArmedBy(files: Files, c: Command) {
    c.DoInstall? && OwnedRoute(files) == Some(true) && c.install.look.Seen? && ReadyToInstall(c.install.look, c.limit)
  }

  /** Automation that was off is on again only because an install found our route live and the replicas aligned. */
  lemma {:induction false} OnlyInstallArms(files: Files, cs: seq<Command>)
    requires !files.marker.File? && ObeyAll(files, cs).marker.File?
    ensures exists i | 0 <= i < |cs| :: ArmedBy(ObeyAll(files, cs[..i]), cs[i])
    decreases |cs|
  {
    assert cs != [];
    var next := Obey(files, cs[0]);
    if ArmedBy(files, cs[0]) {
      assert cs[..0] == [] && ArmedBy(ObeyAll(files, cs[..0]), cs[0]);
    } else {
      if cs[0].DoReconcile? {
        ReconcileKeeps(files, cs[0].maximum, cs[0].inputs);
      } else {
        OtherCommandsKeep(files, cs[0]);
      }
      OnlyInstallArms(next, cs[1..]);
      var j :| 0 <= j < |cs| - 1 && ArmedBy(ObeyAll(next, cs[1..][..j]), cs[1..][j]);
      assert cs[..j + 1][1..] == cs[1..][..j] && cs[..j + 1][0] == cs[0];
      assert ArmedBy(ObeyAll(files, cs[..j + 1]), cs[j + 1]);
    }
  }

  /** A successful pause keeps traffic on the original API until somebody installs or activates by hand. */
  lemma {:induction false} PausedStaysDark(files: Files, cs: seq<Command>)
    requires !files.marker.File? && !OursActive(files)
    requires forall c <- cs :: !c.DoInstall? && (c.DoHost? ==> c.op.DoRollback?)
    ensures !ObeyAll(files, cs).marker.File? && !OursActive(ObeyAll(files, cs))
    decreases |cs|
  {
    if cs != [] {
      assert cs[0] in cs;
      if cs[0].DoReconcile? {
        ReconcileKeeps(files, cs[0].maximum, cs[0].inputs);
      } else {
        OtherCommandsKeep(files, cs[0]);
      }
      assert forall c <- cs[1..] :: c in cs;
      PausedStaysDark(Obey(files, cs[0]), cs[1..]);
    }
  }

  // ----- what aligned means -----

  lemma {:induction false} AllMatchMeans(replicas: seq<Container>, image: string, expected: Env)
    ensures AllMatch(replicas, image, expected) == Some(true) <==>
            forall r <- replicas :: r.healthy && r.image == image && r.env.Some? && Normalized(r.env.value) == expected
  {
    if replicas != [] {
      AllMatchMeans(replicas[1..], image, expected);
      assert replicas == [replicas[0]] + replicas[1..];
    }
  }

  /**
    An aligned verdict: two healthy replicas on the API's image, each with the API's
    settings except for the overrides and the three excluded names, and room for all pools.
   */
  lemma AlignedMeans(api: Container, worker: Container, replicas: seq<Container>, maximum: nat)
    requires var plan := Decide(api, worker, replicas, maximum); plan.Some? && plan.value.action == Aligned
    ensures |replicas| == 2 && api.env.Some? && worker.commit == api.commit
    ensures Budget(api.env.value, worker.env.value, maximum).Some?
    ensures forall r <- replicas :: r.healthy && r.image == api.image && r.env.Some? &&
              forall k | k !in EXCLUDED ::
                Get(r.env.value, k) == if k in OVERRIDES then OVERRIDES[k] else Get(api.env.value, k)
  {
    AllMatchMeans(replicas, api.image, Desired(api.env.value));
    forall r <- replicas, k: string | k !in EXCLUDED
      ensures Get(r.env.value, k) == if k in OVERRIDES then OVERRIDES[k] else Get(api.env.value, k)
    {
      assert Get(Normalized(r.env.value), k) == Get(r.env.value, k);
      assert Normalized(r.env.value) == Desired(api.env.value);
      assert Get(Desired(api.env.value), k) == if k in OVERRIDES then OVERRIDES[k]
        else Get(Normalized(api.env.value), k);
    }
  }
}
