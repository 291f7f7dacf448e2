/**
  What reconcile answers to what it sees: the verdicts in terms of the containers'
  own fields, and for each of them the files it leaves and the outcome it reports.
 */
module ReleaseAnswers {
  import opened Basics
  import opened RouteFiles
  import opened ReleaseController
  import Text

  // ----- the verdict on three sets of containers -----

  predicate Says(env: Env, key: string, text: string) { key in env && env[key] == text }

  /** A setting that is missing counts as empty. */
  predicate Unset(env: Env, key: string) { key in env ==> Says(env, key, "") }

  /** Each storage setting says the same on both sides, where it says anything. */
  ghost predicate SameStorage(a: Env, b: Env) {
    forall k <- STORAGE_KEYS, text: string | text != "" :: Says(a, k, text) <==> Says(b, k, text)
  }

  lemma StorageCompared(a: Env, b: Env)
    ensures SameStorage(a, b) <==> forall k <- STORAGE_KEYS :: Get(a, k) == Get(b, k)
  {
    if SameStorage(a, b) {
      forall k <- STORAGE_KEYS ensures Get(a, k) == Get(b, k) {
        if Get(a, k) != "" { assert Says(a, k, Get(a, k)); }
        if Get(b, k) != "" { assert Says(b, k, Get(b, k)); }
      }
    }
    if forall k <- STORAGE_KEYS :: Get(a, k) == Get(b, k) {
      forall k <- STORAGE_KEYS, text: string | text != "" ensures Says(a, k, text) <==> Says(b, k, text) {
        assert Get(a, k) == Get(b, k);
      }
    }
  }

  // ----- database connections -----

  /** A pool setting allows 20 connections where it is empty, and else the number it says, from 2 to 1000. */
  ghost predicate Allows(env: Env, name: string, n: nat) {
    if Unset(env, name) then n == 20
    else 2 <= n <= 1000 && Text.AllDigits(env[name]) && Text.ParseDecimal(env[name]) == n
  }

  /** Read connections are opened only where there is a read server. */
  ghost predicate AllowsReads(env: Env, n: nat) {
    if Unset(env, "DATABASE_READ_URL") then n == 0 else Allows(env, "DB_READ_MAX_CONNS", n)
  }

  /** A container may open this many connections to write and to read. */
  ghost predicate CanOpen(env: Env, n: nat) {
    exists write: nat, read: nat :: Allows(env, "DB_MAX_CONNS", write) && AllowsReads(env, read) && n == write + read
  }

  /** The pools of both fit beside 20 reserved slots, 10 further clients and three replicas of 8. */
  ghost predicate Fits(api: Env, worker: Env, maximum: nat) {
    exists a: nat, w: nat :: CanOpen(api, a) && CanOpen(worker, w) && a + w + 54 <= maximum
  }

  lemma LimitIff(env: Env, name: string, n: nat)
    ensures PoolLimit(env, name, 20) == Some(n) <==> Allows(env, name, n)
  {}

  lemma ReadsIff(env: Env, n: nat)
    ensures var read := if Get(env, "DATABASE_READ_URL") != "" then PoolLimit(env, "DB_READ_MAX_CONNS", 20)
                        else Some(0);
            read == Some(n) <==> AllowsReads(env, n)
  {
    LimitIff(env, "DB_READ_MAX_CONNS", n);
  }

  lemma PoolsIff(env: Env, n: nat)
    ensures Pools(env) == Some(n) <==> CanOpen(env, n)
  {
    if Pools(env) == Some(n) {
      var write := PoolLimit(env, "DB_MAX_CONNS", 20).value;
      LimitIff(env, "DB_MAX_CONNS", write);
      ReadsIff(env, n - write);
      assert Allows(env, "DB_MAX_CONNS", write) && AllowsReads(env, n - write);
    }
    if CanOpen(env, n) {
      var write: nat, read: nat :| Allows(env, "DB_MAX_CONNS", write) && AllowsReads(env, read) && n == write + read;
      LimitIff(env, "DB_MAX_CONNS", write);
      ReadsIff(env, read);
    }
  }

  /** The budget is refused exactly when a pool setting cannot be read or the pools do not fit. */
  lemma BudgetIff(api: Env, worker: Env, maximum: nat)
    ensures Budget(api, worker, maximum).Some? <==> Fits(api, worker, maximum)
  {
    if Budget(api, worker, maximum).Some? {
      PoolsIff(api, Pools(api).value);
      PoolsIff(worker, Pools(worker).value);
    }
    if Fits(api, worker, maximum) {
      var a: nat, w: nat :| CanOpen(api, a) && CanOpen(worker, w) && a + w + 54 <= maximum;
      PoolsIff(api, a);
      PoolsIff(worker, w);
    }
  }

  // ----- the replicas beside the API -----

  /** The API can be worked with, and the worker is unhealthy, on another commit, or on other storage. */
  ghost predicate WorkerBehind(api: Container, worker: Container) {
    && api.healthy && api.commit.Some?
    && (|| !worker.healthy
        || (worker.commit.Some? && worker.commit != api.commit)
        || (worker.commit == api.commit && api.env.Some? && worker.env.Some?
            && !SameStorage(api.env.value, worker.env.value)))
  }

  /** Healthy API and worker of one commit on the same storage. */
  ghost predicate InStep(api: Container, worker: Container) {
    && api.healthy && worker.healthy && api.commit.Some? && worker.commit == api.commit
    && api.env.Some? && worker.env.Some? && SameStorage(api.env.value, worker.env.value)
  }

  /** The replica runs the API's image with its settings, except for the overrides and the excluded names. */
  ghost predicate Follows(r: Container, api: Container) {
    r.healthy && r.image == api.image && r.env.Some? && api.env.Some? && SettingsFollow(r.env.value, api.env.value)
  }

  ghost predicate SettingsFollow(env: Env, original: Env) {
    forall k: string | k !in EXCLUDED ::
      if k in OVERRIDES then k in env && env[k] == OVERRIDES[k]
      else (k in env <==> k in original) && (k in env ==> env[k] == original[k])
  }

  lemma SettingsFollowIff(env: Env, original: Env)
    ensures Normalized(env) == Desired(original) <==> SettingsFollow(env, original)
  {
    var left, right := Normalized(env), Desired(original);
    if SettingsFollow(env, original) {
      forall k: string ensures (k in left <==> k in right) && (k in left ==> left[k] == right[k]) {
        if k in OVERRIDES { assert k !in EXCLUDED; }
      }
      assert left == right;
    } else {
      var k: string :| k !in EXCLUDED &&
        !(if k in OVERRIDES then k in env && env[k] == OVERRIDES[k]
          else (k in env <==> k in original) && (k in env ==> env[k] == original[k]));
      assert (k in left <==> k in env) && (k in left ==> left[k] == env[k]);
      if k in OVERRIDES { assert right[k] == OVERRIDES[k]; }
    }
  }

  /** The comparison stops at a replica whose settings cannot be read, all before it following the API. */
  ghost predicate UnreadableAt(replicas: seq<Container>, api: Container, i: nat) {
    && i < |replicas| && replicas[i].healthy && replicas[i].image == api.image && replicas[i].env.None?
    && forall j | 0 <= j < i :: Follows(replicas[j], api)
  }

  lemma {:induction false} ComparisonIff(replicas: seq<Container>, api: Container)
    requires api.env.Some?
    ensures var same := AllMatch(replicas, api.image, Desired(api.env.value));
            && (same == Some(true) <==> forall i | 0 <= i < |replicas| :: Follows(replicas[i], api))
            && (same == None <==> exists i :: UnreadableAt(replicas, api, i))
  {
    if replicas != [] {
      var r, rest := replicas[0], replicas[1..];
      ComparisonIff(rest, api);
      if r.env.Some? { SettingsFollowIff(r.env.value, api.env.value); }
      assert forall i | 0 <= i < |rest| :: rest[i] == replicas[i + 1];
      if Follows(r, api) {
        forall i: nat | UnreadableAt(rest, api, i) ensures UnreadableAt(replicas, api, i + 1) {}
        forall i: nat | UnreadableAt(replicas, api, i) ensures i > 0 && UnreadableAt(rest, api, i - 1) {}
      } else if r.healthy && r.image == api.image && r.env.None? {
        assert UnreadableAt(replicas, api, 0);
      }
    }
  }

  predicate InlineWorkersOff(env: Env) {
    "RUN_INLINE_WORKERS" in env && Text.Lower(env["RUN_INLINE_WORKERS"]) == "false"
  }

  /** Settings or a replica count the policy does not accept for a pair in step. */
  ghost predicate PolicyBroken(api: Container, worker: Container, replicas: seq<Container>, maximum: nat)
    requires InStep(api, worker)
  {
    || !InlineWorkersOff(api.env.value)
    || (Unset(api.env.value, "REDIS_URL") && Unset(api.env.value, "REDIS_ADDR"))
    || |replicas| > 2
    || !Fits(api.env.value, worker.env.value, maximum)
    || (|replicas| == 2 && exists i :: UnreadableAt(replicas, api, i))
  }

  /** The decision raises a ValueError. */
  ghost predicate Undecidable(api: Container, worker: Container, replicas: seq<Container>, maximum: nat) {
    && api.healthy
    && (|| api.commit.None?
        || (worker.healthy && worker.commit.None?)
        || (worker.healthy && worker.commit == api.commit && (api.env.None? || worker.env.None?))
        || (InStep(api, worker) && PolicyBroken(api, worker, replicas, maximum)))
  }

  ghost predicate AllFollow(api: Container, worker: Container, replicas: seq<Container>, maximum: nat) {
    && InStep(api, worker) && !PolicyBroken(api, worker, replicas, maximum)
    && |replicas| == 2 && Follows(replicas[0], api) && Follows(replicas[1], api)
  }

  lemma BehindVerdict(api: Container, worker: Container, replicas: seq<Container>, maximum: nat)
    requires WorkerBehind(api, worker)
    ensures Decide(api, worker, replicas, maximum) == Some(Plan(WaitWorker, api.commit))
  {
    if api.env.Some? && worker.env.Some? { StorageCompared(api.env.value, worker.env.value); }
  }

  lemma StepVerdict(api: Container, worker: Container, replicas: seq<Container>, maximum: nat)
    requires InStep(api, worker)
    ensures Decide(api, worker, replicas, maximum) ==
            if PolicyBroken(api, worker, replicas, maximum) then None
            else Some(Plan(if AllFollow(api, worker, replicas, maximum) then Aligned else Refresh, api.commit))
  {
    TwoCompared(replicas, api);
    StorageCompared(api.env.value, worker.env.value);
    BudgetIff(api.env.value, worker.env.value, maximum);
  }

  lemma TwoCompared(replicas: seq<Container>, api: Container)
    requires api.env.Some?
    ensures |replicas| == 2 ==>
      var same := AllMatch(replicas, api.image, Desired(api.env.value));
      && (same == None <==> exists i :: UnreadableAt(replicas, api, i))
      && (same == Some(true) <==> Follows(replicas[0], api) && Follows(replicas[1], api))
  {
    ComparisonIff(replicas, api);
  }

  lemma OtherVerdict(api: Container, worker: Container, replicas: seq<Container>, maximum: nat)
    requires api.healthy && !WorkerBehind(api, worker) && !InStep(api, worker)
    ensures Decide(api, worker, replicas, maximum) == None
    ensures Undecidable(api, worker, replicas, maximum)
  {}

  /** Each verdict holds exactly for the containers it is meant for; all others ask for a refresh. */
  lemma VerdictIff(api: Container, worker: Container, replicas: seq<Container>, maximum: nat)
    ensures var verdict := Decide(api, worker, replicas, maximum);
            && (verdict == Some(Plan(WaitApi, None)) <==> !api.healthy)
            && (verdict == None <==> Undecidable(api, worker, replicas, maximum))
            && (verdict == Some(Plan(WaitWorker, api.commit)) <==> WorkerBehind(api, worker))
            && (verdict == Some(Plan(Aligned, api.commit)) <==> AllFollow(api, worker, replicas, maximum))
            && (verdict.Some? ==> verdict.value.commit == if api.healthy then api.commit else None)
            && (verdict.Some? && verdict.value.action == WaitApi ==> !api.healthy)
  {
    if !api.healthy {
    } else if WorkerBehind(api, worker) {
      BehindVerdict(api, worker, replicas, maximum);
    } else if InStep(api, worker) {
      StepVerdict(api, worker, replicas, maximum);
    } else {
      OtherVerdict(api, worker, replicas, maximum);
    }
  }

  // ----- the connections of a whole release -----

  /** A replica that follows the API migrates nothing and works off no queue. */
  lemma ReplicaIsQuiet(env: Env, original: Env)
    requires SettingsFollow(env, original)
    ensures Says(env, "RUN_MIGRATIONS", "false") && Says(env, "RUN_INLINE_WORKERS", "false")
  {
    assert OVERRIDES["RUN_MIGRATIONS"] == "false" && OVERRIDES["RUN_INLINE_WORKERS"] == "false";
  }

  /** A replica that follows the API opens at most eight connections. */
  lemma ReplicaIsSmall(env: Env, original: Env)
    requires SettingsFollow(env, original)
    ensures forall n :: CanOpen(env, n) <==> n == 8
  {
    assert OVERRIDES["DB_MAX_CONNS"] == "8" && OVERRIDES["DATABASE_READ_URL"] == "";
    OpensEight(env);
  }

  lemma OpensEight(env: Env)
    requires Says(env, "DB_MAX_CONNS", "8") && Says(env, "DATABASE_READ_URL", "")
    ensures forall n :: CanOpen(env, n) <==> n == 8
  {
    assert "8"[..0] == "" && Text.ParseDecimal("8") == 8;
    assert Allows(env, "DB_MAX_CONNS", 8) && AllowsReads(env, 0);
    forall n: nat, m: nat | Allows(env, "DB_MAX_CONNS", n) && AllowsReads(env, m) ensures n == 8 && m == 0 {}
    assert CanOpen(env, 8);
  }

  /**
    With an aligned release the API, the worker, both replicas and a third one that is
    being exchanged for one of them stay 30 connections below the database's maximum.
   */
  lemma ReleaseFits(api: Container, worker: Container, replicas: seq<Container>, maximum: nat, third: Env)
    requires AllFollow(api, worker, replicas, maximum) && SettingsFollow(third, api.env.value)
    ensures exists a: nat, w: nat, r: nat, s: nat, t: nat ::
              && CanOpen(api.env.value, a) && CanOpen(worker.env.value, w)
              && CanOpen(replicas[0].env.value, r) && CanOpen(replicas[1].env.value, s) && CanOpen(third, t)
              && a + w + r + s + t + 30 <= maximum
  {
    ReplicaIsSmall(replicas[0].env.value, api.env.value);
    ReplicaIsSmall(replicas[1].env.value, api.env.value);
    ReplicaIsSmall(third, api.env.value);
    var a: nat, w: nat :|
      CanOpen(api.env.value, a) && CanOpen(worker.env.value, w) && a + w + 54 <= maximum;
    assert CanOpen(replicas[0].env.value, 8) && CanOpen(replicas[1].env.value, 8) && CanOpen(third, 8);
  }

  // ----- the answers without a change -----

  predicate AllFine(f: FallbackFaults) { f.removal.route == Fine && f.removal.state == Fine && f.confirm == Fine }

  /**
    A worker that is behind takes traffic off the replicas: a live matching route is
    gone exactly when its unlink works, and the outcome is to wait exactly when the
    whole fallback works.
   */
  lemma WorkerBehindTakesRouteOff(files: Files, maximum: nat, x: Inputs)
    requires files.marker.File? && Matches(files)
    requires x.first.Seen? && WorkerBehind(x.first.api, x.first.worker) && x.ready == Fine
    ensures var (after, outcome) := Reconcile(files, maximum, x);
            && (after.route.Absent? <==> x.fallback.removal.route == Fine)
            && (!after.route.Absent? ==> after == files)
            && (after.state.Absent? <==> x.fallback.removal.route == Fine && x.fallback.removal.state == Fine)
            && (outcome == Waiting <==> AllFine(x.fallback))
            && after.marker == files.marker
  {
    VerdictIff(x.first.api, x.first.worker, x.first.replicas, maximum);
  }

  /** Without a route there is nothing to take off; an API that is not ready keeps everything. */
  lemma WorkerBehindKeepsRest(files: Files, maximum: nat, x: Inputs)
    requires files.marker.File? && OwnedRoute(files).Some?
    requires x.first.Seen? && WorkerBehind(x.first.api, x.first.worker)
    requires OwnedRoute(files) == Some(false) || x.ready != Fine
    ensures Reconcile(files, maximum, x) ==
            (files, if x.ready == Fine then Waiting else OutcomeOf(ExitOf(x.ready), Failed))
  {
    VerdictIff(x.first.api, x.first.worker, x.first.replicas, maximum);
  }

  /**
    A release that cannot be decided takes our live route off and turns automation
    off, each exactly when the operations up to it work; the error is raised again.
   */
  lemma UndecidableGoesDark(files: Files, maximum: nat, x: Inputs)
    requires files.marker.File? && (Matches(files) || OwnedRoute(files) == Some(false))
    requires x.first.Seen? && Undecidable(x.first.api, x.first.worker, x.first.replicas, maximum)
    ensures var (after, outcome) := Reconcile(files, maximum, x);
            var active := Matches(files);
            && (after.route.Absent? <==> !active || (x.ready == Fine && x.fallback.removal.route == Fine))
            && (!after.route.Absent? ==> after.route == files.route && after.state == files.state)
            && (after.marker.Absent? <==> x.ready == Fine && (active ==> AllFine(x.fallback)) && x.dropMarker == Fine)
            && (!after.marker.Absent? ==> after.marker == files.marker)
            && outcome in {Failed, Cut}
  {
    VerdictIff(x.first.api, x.first.worker, x.first.replicas, maximum);
  }

  lemma KeptByVerdict(files: Files, maximum: nat, x: Inputs)
    requires files.marker.File? && OwnedRoute(files).Some? && x.first.Seen?
    ensures var verdict := Decide(x.first.api, x.first.worker, x.first.replicas, maximum);
            && (verdict == Some(Plan(WaitApi, None)) ==> Reconcile(files, maximum, x) == (files, Waiting))
            && (verdict == Some(Plan(Aligned, x.first.api.commit)) && OwnedRoute(files) == Some(true)
                && x.ready == Fine ==>
                  Reconcile(files, maximum, x) == (files, UpToDate))
  {}

  /** An unhealthy API and an aligned live release leave all files alone. */
  lemma NothingToDo(files: Files, maximum: nat, x: Inputs)
    requires files.marker.File? && OwnedRoute(files).Some? && x.first.Seen?
    ensures !x.first.api.healthy ==> Reconcile(files, maximum, x) == (files, Waiting)
    ensures Matches(files) && AllFollow(x.first.api, x.first.worker, x.first.replicas, maximum) && x.ready == Fine ==>
              Reconcile(files, maximum, x) == (files, UpToDate)
  {
    VerdictIff(x.first.api, x.first.worker, x.first.replicas, maximum);
    OwnershipIs(files);
    KeptByVerdict(files, maximum, x);
  }

  /** Switched-off automation, and containers that cannot be seen, leave all files alone. */
  lemma NothingSeen(files: Files, maximum: nat, x: Inputs)
    ensures !files.marker.File? ==> Reconcile(files, maximum, x) == (files, Disabled)
    ensures files.marker.File? && x.first.Unseen? ==>
              Reconcile(files, maximum, x) == (files, if x.first.fault == Stops then Cut else Failed)
  {}

  // ----- the answer with a change -----

  /** The replicas are to be refreshed, or they follow the API and only the route is missing. */
  ghost predicate AsksForChange(files: Files, maximum: nat, s: Snapshot)
    requires s.Seen?
  {
    && s.api.healthy && !WorkerBehind(s.api, s.worker) && !Undecidable(s.api, s.worker, s.replicas, maximum)
    && (AllFollow(s.api, s.worker, s.replicas, maximum) ==> OwnedRoute(files) == Some(false))
  }

  /** Falling back and refreshing work, and a second look finds the same commit aligned. */
  ghost predicate Prepared(files: Files, maximum: nat, x: Inputs)
    requires x.first.Seen?
  {
    && (OwnedRoute(files) == Some(true) ==> AllFine(x.fallback))
    && (!AllFollow(x.first.api, x.first.worker, x.first.replicas, maximum) ==> x.refresh == Fine)
    && x.second.Seen? && AllFollow(x.second.api, x.second.worker, x.second.replicas, maximum)
    && x.second.api.commit == x.first.api.commit
  }

  /**
    A change ends with the new route live exactly when it was prepared, nobody paused
    meanwhile, and the activation goes through; when somebody paused it ends disabled
    with both files gone.
   */
  lemma ChangeUpdatesIff(files: Files, maximum: nat, x: Inputs)
    requires files.marker.File? && OwnedRoute(files).Some? && x.ready == Fine
    requires x.first.Seen? && AsksForChange(files, maximum, x.first)
    ensures var (after, outcome) := Reconcile(files, maximum, x);
            && (outcome == Updated <==>
                  Prepared(files, maximum, x) && !x.pausedMeanwhile && GoesThrough(x.activation))
            && (outcome == Updated ==>
                  after == Files(File(RouteFile(x.route, Controller)), File(RecordOf(x.route)), files.marker))
            && (outcome == Disabled <==> Prepared(files, maximum, x) && x.pausedMeanwhile)
            && (outcome == Disabled ==> after == Files(Absent, Absent, Absent))
            && outcome !in {Waiting, UpToDate}
  {
    ChangeVerdict(files, maximum, x.first);
    var plan := Decide(x.first.api, x.first.worker, x.first.replicas, maximum).value;
    if x.second.Seen? { AlignedVerdict(x.second, maximum, plan.commit); }
    ChangeIff(files, plan, maximum, x);
    ReconcileChanges(files, maximum, x, plan);
  }

  lemma ChangeVerdict(files: Files, maximum: nat, s: Snapshot)
    requires s.Seen? && OwnedRoute(files).Some? && AsksForChange(files, maximum, s)
    ensures var verdict := Decide(s.api, s.worker, s.replicas, maximum);
            && verdict.Some? && verdict.value.commit == s.api.commit
            && verdict.value.action == (if AllFollow(s.api, s.worker, s.replicas, maximum) then Aligned else Refresh)
            && (verdict.value.action == Aligned ==> OwnedRoute(files) == Some(false))
  {
    VerdictIff(s.api, s.worker, s.replicas, maximum);
  }

  lemma AlignedVerdict(s: Snapshot, maximum: nat, commit: Option<string>)
    requires s.Seen?
    ensures Decide(s.api, s.worker, s.replicas, maximum) == Some(Plan(Aligned, commit)) <==>
            AllFollow(s.api, s.worker, s.replicas, maximum) && s.api.commit == commit
  {
    VerdictIff(s.api, s.worker, s.replicas, maximum);
  }

  lemma ReconcileChanges(files: Files, maximum: nat, x: Inputs, plan: Plan)
    requires files.marker.File? && OwnedRoute(files).Some? && x.ready == Fine && x.first.Seen?
    requires Decide(x.first.api, x.first.worker, x.first.replicas, maximum) == Some(plan)
    requires plan.action == Refresh || (plan.action == Aligned && OwnedRoute(files) == Some(false))
    ensures var (after, outcome) := Change(files, plan, maximum, x);
            && (outcome != Failed ==> Reconcile(files, maximum, x) == (after, outcome))
            && (outcome == Failed ==> Reconcile(files, maximum, x).1 in {Failed, Cut})
  {}

  lemma ChangeIff(files: Files, plan: Plan, maximum: nat, x: Inputs)
    requires files.marker.File? && OwnedRoute(files).Some?
    ensures var (after, outcome) := Change(files, plan, maximum, x);
            var prepared :=
              && (OwnedRoute(files) == Some(true) ==> AllFine(x.fallback))
              && (plan.action == Refresh ==> x.refresh == Fine) && x.second.Seen?
              && Decide(x.second.api, x.second.worker, x.second.replicas, maximum) == Some(Plan(Aligned, plan.commit));
            && (outcome == Updated <==> prepared && !x.pausedMeanwhile && GoesThrough(x.activation))
            && (outcome == Updated ==>
                  after == Files(File(RouteFile(x.route, Controller)), File(RecordOf(x.route)), files.marker))
            && (outcome == Disabled <==> prepared && x.pausedMeanwhile)
            && (outcome == Disabled ==> after == Files(Absent, Absent, Absent))
            && outcome !in {Waiting, UpToDate}
  {
    FallbackClears(files, x.fallback);
    if Fallback(files, x.fallback).1 == Returned { ClearedChangeIff(files, plan, maximum, x); }
  }

  lemma FallbackClears(files: Files, faults: FallbackFaults)
    requires OwnedRoute(files).Some?
    ensures var (off, exit) := Fallback(files, faults);
            && (exit == Returned <==> (OwnedRoute(files) == Some(true) ==> AllFine(faults)))
            && (exit == Returned ==> off == Files(Absent, Absent, files.marker))
  {}

  lemma ClearedChangeIff(files: Files, plan: Plan, maximum: nat, x: Inputs)
    requires files.marker.File? && Fallback(files, x.fallback) == (Files(Absent, Absent, files.marker), Returned)
    ensures var (after, outcome) := Change(files, plan, maximum, x);
            var prepared :=
              && (plan.action == Refresh ==> x.refresh == Fine) && x.second.Seen?
              && Decide(x.second.api, x.second.worker, x.second.replicas, maximum) == Some(Plan(Aligned, plan.commit));
            && (outcome == Updated <==> prepared && !x.pausedMeanwhile && GoesThrough(x.activation))
            && (outcome == Updated ==>
                  after == Files(File(RouteFile(x.route, Controller)), File(RecordOf(x.route)), files.marker))
            && (outcome == Disabled <==> prepared && x.pausedMeanwhile)
            && (outcome == Disabled ==> after == Files(Absent, Absent, Absent))
            && outcome !in {Waiting, UpToDate}
  {
    ActivatesIff(Files(Absent, Absent, files.marker), x.route, x.activation);
  }

  // ----- stops -----

  predicate Survives(f: FallbackFaults) {
    f.removal.route != Stops && f.removal.state != Stops && f.removal.marker != Stops && f.confirm != Stops
  }

  predicate SeesAlive(s: Snapshot) { s.Unseen? ==> s.fault != Stops }

  predicate ActivatesAlive(f: ActivateFaults) {
    && f.checks != Stops && f.writeState != Stops && f.writeTemp != Stops && f.link != Stops && f.unlinkTemp != Stops
    && f.undo.route != Stops && f.undo.state != Stops && f.undo.marker != Stops && f.dropState != Stops
    && Halt !in f.probes
  }

  /** No host operation of this reconcile is the last one before the process stops. */
  predicate StaysAlive(x: Inputs) {
    && SeesAlive(x.first) && x.ready != Stops && Survives(x.fallback) && x.dropMarker != Stops && x.refresh != Stops
    && SeesAlive(x.second) && ActivatesAlive(x.activation) && x.handlerMarker != Stops && Survives(x.handlerFallback)
  }

  lemma ActivationEnds(files: Files, content: Content, f: ActivateFaults)
    requires ActivatesAlive(f)
    ensures Activate(files, content, f).1 != Stopped
  {
    VerdictOnRounds(f.probes);
    assert forall n: nat | n < |f.probes| :: f.probes[n] in f.probes;
  }

  /** A reconcile is cut short only by a stop of the process, so every other failure reaches its handler. */
  lemma NeverCutAlive(files: Files, maximum: nat, x: Inputs)
    requires StaysAlive(x)
    ensures Reconcile(files, maximum, x).1 != Cut
  {
    if EntersChange(files, maximum, x).Some? {
      var plan := EntersChange(files, maximum, x).value;
      forall off: Files ensures Activate(off, x.route, x.activation).1 != Stopped {
        ActivationEnds(off, x.route, x.activation);
      }
      ChangeNotCut(files, plan, maximum, x);
      assert Reconcile(files, maximum, x).1 in
        {Change(files, plan, maximum, x).1, Handle(Change(files, plan, maximum, x).0, x).1};
    } else {
      NoChangeNotCut(files, maximum, x);
    }
  }

  lemma NoChangeNotCut(files: Files, maximum: nat, x: Inputs)
    requires StaysAlive(x) && EntersChange(files, maximum, x).None?
    ensures Reconcile(files, maximum, x).1 != Cut
  {}

  lemma ChangeNotCut(files: Files, plan: Plan, maximum: nat, x: Inputs)
    requires StaysAlive(x)
    requires forall off: Files :: Activate(off, x.route, x.activation).1 != Stopped
    ensures Change(files, plan, maximum, x).1 != Cut
    ensures Handle(Change(files, plan, maximum, x).0, x).1 != Cut
  {}

  // ----- install and pause -----

  /** Everything an installation looks at before it arms is as it should be. */
  ghost predicate MayArm(files: Files, maximum: nat, x: InstallInputs) {
    && Matches(files) && x.look.Seen? && AllFollow(x.look.api, x.look.worker, x.look.replicas, maximum)
    && x.ready == Fine && x.prepare == Fine
  }

  /**
    An installation arms automation exactly when a live route of a release that is in
    step is found and nothing fails; a failure while arming disarms as far as it can,
    and before that nothing is touched.
   */
  lemma InstallAnswers(files: Files, maximum: nat, x: InstallInputs)
    ensures var (after, exit) := Install(files, maximum, x);
            var may := MayArm(files, maximum, x);
            var arms := may && !files.marker.Symlink? && x.arm == Fine;
            var disarms := may && x.arm != Stops && (!arms || x.enable == Fails);
            && (exit == Returned <==> arms && x.enable == Fine)
            && after.route == files.route && after.state == files.state
            && after.marker == (if disarms && x.disarm == Fine then Absent else if arms then File(()) else files.marker)
            && (may ==> (exit == Stopped <==>
                  x.arm == Stops || (arms && x.enable == Stops) || (disarms && x.disarm == Stops)))
            && (!may && exit == Stopped ==>
                  Matches(files) && (!SeesAlive(x.look) || x.ready == Stops || x.prepare == Stops))
  {
    MayArmIff(files, maximum, x);
    OwnershipIs(files);
    ArmingAnswers(files, maximum, x, MayArm(files, maximum, x));
  }

  /** An installation gets as far as arming. */
  predicate Arms(files: Files, maximum: nat, x: InstallInputs) {
    && OwnedRoute(files) == Some(true) && x.look.Seen? && ReadyToInstall(x.look, maximum)
    && x.ready == Fine && x.prepare == Fine
  }

  lemma MayArmIff(files: Files, maximum: nat, x: InstallInputs)
    ensures MayArm(files, maximum, x) <==> Arms(files, maximum, x)
  {
    OwnershipIs(files);
    if x.look.Seen? { VerdictIff(x.look.api, x.look.worker, x.look.replicas, maximum); }
  }

  lemma ArmingAnswers(files: Files, maximum: nat, x: InstallInputs, may: bool)
    requires may <==> Arms(files, maximum, x)
    ensures var (after, exit) := Install(files, maximum, x);
            var arms := may && !files.marker.Symlink? && x.arm == Fine;
            var disarms := may && x.arm != Stops && (!arms || x.enable == Fails);
            && (exit == Returned <==> arms && x.enable == Fine)
            && after.route == files.route && after.state == files.state
            && after.marker == (if disarms && x.disarm == Fine then Absent else if arms then File(()) else files.marker)
            && (may ==> (exit == Stopped <==>
                  x.arm == Stops || (arms && x.enable == Stops) || (disarms && x.disarm == Stops)))
            && (!may && exit == Stopped ==>
                  OwnedRoute(files) == Some(true) && (!SeesAlive(x.look) || x.ready == Stops || x.prepare == Stops))
  {}

  /**
    A pause turns automation off first, and then takes the owned route off; with a
    route it does not own it stops there.
   */
  lemma PauseAnswers(files: Files, dropMarker: Fault, removal: RollbackFaults)
    ensures var (after, exit) := Pause(files, dropMarker, removal);
            && (dropMarker != Fine ==> after == files && exit == ExitOf(dropMarker))
            && (dropMarker == Fine ==> after.marker.Absent?)
            && (dropMarker == Fine && OwnedRoute(files).None? ==>
                  exit == Raised && after.route == files.route && after.state == files.state)
            && (dropMarker == Fine && files.route.Absent? && files.state.Absent? ==>
                  exit == Returned && after == Files(Absent, Absent, Absent))
            && (dropMarker == Fine && Matches(files) ==>
                  && after.route == (if removal.route == Fine then Absent else files.route)
                  && after.state == (if removal.route == Fine && removal.state == Fine then Absent else files.state)
                  && (exit == Returned <==> removal == NO_FAULTS))
  {}

  /** A run of commands is each of them in turn. */
  lemma {:induction false} CommandsGoOn(files: Files, cs: seq<Command>, c: Command)
    ensures ObeyAll(files, []) == files
    ensures var now := ObeyAll(files, cs);
            ObeyAll(files, cs + [c]) ==
              match c
              case DoReconcile(maximum, x) => Reconcile(now, maximum, x).0
              case DoInstall(maximum, x) => Install(now, maximum, x).0
              case DoPause(dropMarker, removal) => Pause(now, dropMarker, removal).0
              case DoHost(DoActivate(content, faults)) => Activate(now, content, faults).0
              case DoHost(DoRollback(pause, faults)) => Rollback(now, pause, faults).0
    decreases |cs|
  {
    if cs == [] {
      assert [c][1..] == [] && cs + [c] == [c];
    } else {
      CommandsGoOn(Obey(files, cs[0]), cs[1..], c);
      assert (cs + [c])[1..] == cs[1..] + [c];
    }
  }
}
