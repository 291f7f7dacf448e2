/**
  Load generator accounting: paced arrivals, the bounded slots they run in, the
  stage report built from samples, and the nearest-rank percentile.
 */
module Arrivals {
  import opened Basics
  import Sorting

  // ----- pacing -----

  const SECOND: nat := 1000000000       // durations in nanoseconds
  const LATE: nat := 50000000

  datatype Stage = Stage(rate: nat, duration: nat)
  datatype Counts = Counts(planned: nat, launched: nat, full: nat, late: nat, maxLagMicros: nat)

  /** What happens around arrival `n`: the context ends, or it is due with some lag and a slot may be free. */
  datatype Turn = Turn(cancelled: bool, lag: int, accepted: bool)

  function Planned(stage: Stage): nat { stage.duration * stage.rate / SECOND }

  function Micros(d: int): nat { if d > 0 then d / 1000 else 0 }

  /** The counters after the first `n` arrivals, none of them cancelled. */
  function Tally(turns: nat -> Turn, planned: nat, n: nat): Counts {
    if n == 0 then Counts(planned, 0, 0, 0, 0)
    else
      var before := Tally(turns, planned, n - 1);
      var t := turns(n - 1);
      var largest := if Micros(t.lag) > before.maxLagMicros then Micros(t.lag) else before.maxLagMicros;
      var seen := before.(maxLagMicros := largest);
      if t.lag > LATE then seen.(late := seen.late + 1)
      else if t.accepted then seen.(launched := seen.launched + 1)
      else seen.(full := seen.full + 1)
  }

  /** The first cancelled arrival, or the end of the plan. */
  ghost predicate StopsAt(turns: nat -> Turn, planned: nat, stop: nat) {
    stop <= planned && (forall k | 0 <= k < stop :: !turns(k).cancelled) && (stop < planned ==> turns(stop).cancelled)
  }

  lemma {:induction false} TallyAddsUp(turns: nat -> Turn, planned: nat, n: nat)
    ensures var c := Tally(turns, planned, n); c.planned == planned && c.launched + c.full + c.late == n
  {
    if n > 0 { TallyAddsUp(turns, planned, n - 1); }
  }

  ghost function LateTurns(turns: nat -> Turn, n: nat): set<nat> { set k: nat | k < n && turns(k).lag > 50000000 }

  ghost function LaunchedTurns(turns: nat -> Turn, n: nat): set<nat> {
    set k: nat | k < n && turns(k).lag <= 50000000 && turns(k).accepted
  }

  lemma OneMoreLate(turns: nat -> Turn, n: nat)
    ensures |LateTurns(turns, n + 1)| == |LateTurns(turns, n)| + if turns(n).lag > LATE then 1 else 0
  {
    if turns(n).lag > LATE {
      assert LateTurns(turns, n + 1) == LateTurns(turns, n) + {n};
    } else {
      assert LateTurns(turns, n + 1) == LateTurns(turns, n);
    }
  }

  lemma OneMoreLaunched(turns: nat -> Turn, n: nat)
    ensures |LaunchedTurns(turns, n + 1)|
         == |LaunchedTurns(turns, n)| + if turns(n).lag <= LATE && turns(n).accepted then 1 else 0
  {
    if turns(n).lag <= LATE && turns(n).accepted {
      assert LaunchedTurns(turns, n + 1) == LaunchedTurns(turns, n) + {n};
    } else {
      assert LaunchedTurns(turns, n + 1) == LaunchedTurns(turns, n);
    }
  }

  ghost predicate Exact(c: Counts, turns: nat -> Turn, n: nat) {
    c.late == |LateTurns(turns, n)| && c.launched == |LaunchedTurns(turns, n)|
  }

  /** Each counter holds exactly the arrivals its own turn puts there. */
  lemma {:induction false} TallyIsExact(turns: nat -> Turn, planned: nat, n: nat)
    ensures Exact(Tally(turns, planned, n), turns, n)
  {
    if n > 0 {
      TallyIsExact(turns, planned, n - 1);
      OneMoreLate(turns, n - 1);
      OneMoreLaunched(turns, n - 1);
    } else {
      NoTurns(turns);
    }
  }

  lemma NoTurns(turns: nat -> Turn)
    ensures |LateTurns(turns, 0)| == 0 && |LaunchedTurns(turns, 0)| == 0
  {
    assert LateTurns(turns, 0) == {} && LaunchedTurns(turns, 0) == {};
  }

  /** The reported lag is the largest lag met. */
  lemma {:induction false} TallyHasLargestLag(turns: nat -> Turn, planned: nat, n: nat)
    ensures var lag := Tally(turns, planned, n).maxLagMicros;
            && (forall k | 0 <= k < n :: Micros(turns(k).lag) <= lag && turns(k).lag < (lag + 1) * 1000)
            && (lag > 0 ==> exists k | 0 <= k < n :: Micros(turns(k).lag) == lag && turns(k).lag >= lag * 1000)
  {
    if n > 0 {
      TallyHasLargestLag(turns, planned, n - 1);
      var before, lag := Tally(turns, planned, n - 1).maxLagMicros, Tally(turns, planned, n).maxLagMicros;
      if lag > before {
        assert Micros(turns(n - 1).lag) == lag;
      } else if before > 0 {
        var k :| 0 <= k < n - 1 && Micros(turns(k).lag) == before;
        assert Micros(turns(k).lag) == lag;
      }
    }
  }

  /** Paced arrivals: whichever way the loop ends, every planned arrival is accounted for. */
  method ScheduleArrivals(stage: Stage, turns: nat -> Turn) returns (counts: Counts, ghost stop: nat)
    ensures counts.planned == Planned(stage) == counts.launched + counts.full + counts.late
    ensures StopsAt(turns, Planned(stage), stop)
    ensures var paced := Tally(turns, Planned(stage), stop);
            counts == paced.(late := paced.late + (Planned(stage) - stop))
  {
    var planned := stage.duration * stage.rate / SECOND;
    counts := Counts(planned, 0, 0, 0, 0);
    var n := 0;
    while n < planned
      invariant n <= planned && counts == Tally(turns, planned, n)
      invariant forall k | 0 <= k < n :: !turns(k).cancelled
    {
      var t := turns(n);
      if t.cancelled {
        TallyAddsUp(turns, planned, n);
        counts := counts.(late := counts.late + (planned - n));
        return counts, n;
      }
      if Micros(t.lag) > counts.maxLagMicros { counts := counts.(maxLagMicros := Micros(t.lag)); }
      if t.lag > LATE {
        counts := counts.(late := counts.late + 1);
      } else if t.accepted {
        counts := counts.(launched := counts.launched + 1);
      } else {
        counts := counts.(full := counts.full + 1);
      }
      n := n + 1;
    }
    TallyAddsUp(turns, planned, n);
    stop := n;
  }

  // ----- one request -----

  type Duration = nat

  datatype Operation = Operation(name: string, want: int, write: bool)
  datatype Response =
    | NoAnswer(elapsed: Duration)
    | Answer(status: int, elapsed: Duration, readOk: bool, backend: string, payloadOk: bool, retry: Option<int>,
             error: Option<string>)
  datatype Sample = Sample(
    name: string, status: int, elapsed: Duration, write: bool, backend: string,
    valid: bool, controlled: bool, admissionRejected: bool)

  predicate Throttling(status: int) { status == 429 || status == 503 }

  /** `retry` is the parsed Retry-After, `error` the error text of a JSON body. */
  predicate ControlledOverload(status: int, retry: Option<int>, error: Option<string>) {
    && Throttling(status)
    && retry.Some? && 0 < retry.value <= 3600
    && error.Some? && error.value != ""
  }

  function Request(op: Operation, r: Response): Sample {
    match r
    case NoAnswer(elapsed) => Sample(op.name, 0, elapsed, op.write, "", false, false, false)
    case Answer(status, elapsed, readOk, backend, payloadOk, retry, error) =>
      var controlled := readOk && ControlledOverload(status, retry, error);
      Sample(op.name, status, elapsed, op.write, backend, readOk && status == op.want && payloadOk, controlled,
             controlled && status == 503 && error == Some("Service busy. Please retry shortly."))
  }

  /** A sample as the stage loop may rely on it. */
  predicate Credible(s: Sample) {
    (s.controlled ==> Throttling(s.status)) && (s.admissionRejected ==> s.controlled && s.status == 503)
  }

  /** Every request gives a sample whose overload marks fit its status. */
  lemma RequestIsCredible(op: Operation, r: Response)
    ensures Credible(Request(op, r))
  {}

  // ----- slots and samples in flight -----

  const CONCURRENCY := 384

  /** Requests holding a slot, samples in the channel, samples taken by the report loop. */
  datatype Flow = Flow(inFlight: nat, channel: seq<Sample>, taken: seq<Sample>, launched: nat, refused: nat)

  datatype FlowStep = Launch | Deliver(sample: Sample) | Take

  function FlowNext(f: Flow, step: FlowStep): Flow {
    match step
    case Launch =>
      if f.inFlight < CONCURRENCY then f.(inFlight := f.inFlight + 1, launched := f.launched + 1)
      else f.(refused := f.refused + 1)
    case Deliver(s) =>
      if f.inFlight > 0 && |f.channel| < CONCURRENCY then f.(inFlight := f.inFlight - 1, channel := f.channel + [s])
      else f
    case Take => if f.channel != [] then f.(channel := f.channel[1..], taken := f.taken + [f.channel[0]]) else f
  }

  function FlowRun(f: Flow, steps: seq<FlowStep>): Flow
    decreases |steps|
  {
    if steps == [] then f else FlowRun(FlowNext(f, steps[0]), steps[1..])
  }

  const IDLE := Flow(0, [], [], 0, 0)

  predicate FlowOk(f: Flow) {
    f.inFlight <= CONCURRENCY && |f.channel| <= CONCURRENCY && f.launched == f.inFlight + |f.channel| + |f.taken|
  }

  lemma {:induction false} FlowKeeps(f: Flow, steps: seq<FlowStep>)
    requires FlowOk(f)
    ensures FlowOk(FlowRun(f, steps))
    decreases |steps|
  {
    if steps != [] { FlowKeeps(FlowNext(f, steps[0]), steps[1..]); }
  }

  /** At most 384 requests run at a time, and once all slots and the channel are empty every launch has its sample. */
  lemma EveryLaunchIsSampled(steps: seq<FlowStep>)
    ensures var f := FlowRun(IDLE, steps);
            f.inFlight <= CONCURRENCY && (f.inFlight == 0 && f.channel == [] ==> |f.taken| == f.launched)
  {
    FlowKeeps(IDLE, steps);
  }

  // ----- metrics -----

  datatype Figures = Figures(
    requests: nat, success: nat, busy: int, errors: nat, statuses: map<int, nat>, times: seq<Duration>, p95Micros: nat)

  const NO_FIGURES := Figures(0, 0, 0, 0, map[], [], 0)

  function Added(m: Figures, s: Sample): Figures {
    var counted := m.(requests := m.requests + 1,
                      statuses := m.statuses[s.status :=
                        1 + if s.status in m.statuses then m.statuses[s.status] else 0]);
    if s.valid then counted.(success := m.success + 1, times := m.times + [s.elapsed])
    else if Throttling(s.status) then counted.(busy := m.busy + 1)
    else counted.(errors := m.errors + 1)
  }

  function NotAfter(): (Duration, Duration) -> bool { (a: Duration, b: Duration) => a <= b }

  /** Position of the nearest-rank 95th percentile among `n` sorted samples. */
  function RankIndex(n: nat): (k: int)
    ensures n > 0 ==> 0 <= k < n
  {
    (n * 95 + 99) / 100 - 1
  }

  function Finished(m: Figures): Figures {
    var sorted := Sorting.StableSort(m.times, NotAfter());
    Sorting.SortKeepsElements(m.times, NotAfter());
    m.(times := sorted, p95Micros := if |sorted| > 0 then sorted[RankIndex(|sorted|)] / 1000 else m.p95Micros)
  }

  /** One operation's counters, updated in place. */
  class Metric {
    var requests: nat
    var success: nat
    var busy: int
    var errors: nat
    var statuses: map<int, nat>
    var times: seq<Duration>
    var p95Micros: nat

    ghost function Value(): Figures
      reads this
    {
      Figures(requests, success, busy, errors, statuses, times, p95Micros)
    }

    constructor ()
      ensures Value() == NO_FIGURES
    {
      requests, success, busy, errors, statuses, times, p95Micros := 0, 0, 0, 0, map[], [], 0;
    }

    method Add(s: Sample)
      modifies this
      ensures Value() == Added(old(Value()), s)
    {
      if s.status !in statuses { statuses := statuses[s.status := 0]; }
      statuses := statuses[s.status := statuses[s.status] + 1];
      requests := requests + 1;
      if s.valid {
        success := success + 1;
        times := times + [s.elapsed];
      } else if s.status == 429 || s.status == 503 {
        busy := busy + 1;
      } else {
        errors := errors + 1;
      }
      assert statuses == Added(old(Value()), s).statuses;
    }

    /** A sample as the report loop books it: a throttled reply that is no controlled overload moves to the errors. */
    method Book(s: Sample)
      modifies this
      ensures Value() == Recorded(old(Value()), s)
    {
      Add(s);
      if !s.valid && !s.controlled && (s.status == 429 || s.status == 503) {
        busy := busy - 1;
        errors := errors + 1;
      }
    }

    method Finish()
      modifies this
      ensures Value() == Finished(old(Value()))
    {
      var sorted := Sorting.StableSort(times, NotAfter());
      Sorting.SortKeepsElements(times, NotAfter());
      times := sorted;
      if |sorted| > 0 {
        var index := (|sorted| * 95 + 99) / 100 - 1;
        assert index == RankIndex(|sorted|);
        p95Micros := sorted[index] / 1000;
      }
    }
  }

  // ----- the percentile -----

  function AtMost(times: seq<Duration>, x: Duration): nat {
    if times == [] then 0 else AtMost(times[..|times| - 1], x) + if times[|times| - 1] <= x then 1 else 0
  }

  lemma RankIndexIsValid(n: nat)
    requires n > 0
    ensures 0 <= RankIndex(n) < n
    ensures (RankIndex(n) + 1) * 100 >= 95 * n && RankIndex(n) * 100 < 95 * n
  {}

  /** In a sorted sequence a value covers its own position and nothing from the first larger one on. */
  lemma {:induction false} AtMostOfSorted(sorted: seq<Duration>, x: Duration, k: nat)
    requires Sorting.Ordered(sorted, NotAfter()) && k < |sorted|
    ensures sorted[k] <= x ==> AtMost(sorted, x) >= k + 1
    ensures x < sorted[k] ==> AtMost(sorted, x) <= k
  {
    var init, last := sorted[..|sorted| - 1], sorted[|sorted| - 1];
    assert Sorting.Ordered(init, NotAfter());
    if k == |sorted| - 1 {
      if |init| > 0 {
        AtMostOfSorted(init, x, k - 1);
        assert NotAfter()(sorted[k - 1], sorted[k]);
        AtMostIsBounded(init, x);
      }
    } else {
      AtMostOfSorted(init, x, k);
      assert NotAfter()(sorted[k], last);
    }
  }

  lemma {:induction false} AtMostIsBounded(times: seq<Duration>, x: Duration)
    ensures AtMost(times, x) <= |times|
  {
    if times != [] { AtMostIsBounded(times[..|times| - 1], x); }
  }

  lemma AtMostRemove(times: seq<Duration>, k: nat, x: Duration)
    requires k < |times|
    ensures AtMost(times, x) == AtMost(times[..k] + times[k + 1..], x) + if times[k] <= x then 1 else 0
  {
    var head, tail := times[..k], times[k + 1..];
    assert times[..k + 1] == head + [times[k]] && times == times[..k + 1] + tail;
    AtMostOfJoin(times[..k + 1], tail, x);
    AtMostOfJoin(head, tail, x);
    assert times[..k + 1][..k] == head;
  }

  /** Counting at-most does not depend on the order. */
  lemma {:induction false} AtMostOfMembers(a: seq<Duration>, b: seq<Duration>, x: Duration)
    requires multiset(a) == multiset(b)
    ensures AtMost(a, x) == AtMost(b, x)
    decreases |a|
  {
    if a == [] {
      assert |b| == |multiset(b)| == 0;
    } else {
      var last := |a| - 1;
      assert a[last] in multiset(a);
      var k :| 0 <= k < |b| && b[k] == a[last];
      Sorting.RemoveOne(a, last);
      Sorting.RemoveOne(b, k);
      AtMostOfMembers(a[..last] + a[last + 1..], b[..k] + b[k + 1..], x);
      AtMostRemove(a, last, x);
      AtMostRemove(b, k, x);
    }
  }

  lemma {:induction false} AtMostOfJoin(a: seq<Duration>, b: seq<Duration>, x: Duration)
    ensures AtMost(a + b, x) == AtMost(a, x) + AtMost(b, x)
    decreases |b|
  {
    if b == [] {
      assert a + b == a;
    } else {
      assert (a + b)[..|a + b| - 1] == a + b[..|b| - 1];
      AtMostOfJoin(a, b[..|b| - 1], x);
    }
  }

  /**
    The percentile is the least successful sample with at least 95 percent of
    the successes at or below it, read at a valid index of the sorted times.
   */
  lemma PercentileIsLeast(m: Figures)
    requires m.times != []
    ensures var n := |m.times|;
            0 <= RankIndex(n) < |Finished(m).times|
    ensures var n, p95 := |m.times|, Finished(m).times[RankIndex(|m.times|)];
            && p95 in m.times && Finished(m).p95Micros == p95 / 1000
            && AtMost(m.times, p95) * 100 >= 95 * n
            && forall y <- m.times | y < p95 :: AtMost(m.times, y) * 100 < 95 * n
  {
    var n := |m.times|;
    var sorted := Sorting.StableSort(m.times, NotAfter());
    Sorting.SortKeepsElements(m.times, NotAfter());
    Sorting.SortKeepsMembers(m.times, NotAfter());
    Sorting.SortOrders(m.times, NotAfter());
    RankIndexIsValid(n);
    var k := RankIndex(n);
    var p95 := sorted[k];
    AtMostOfSorted(sorted, p95, k);
    AtMostOfMembers(m.times, sorted, p95);
    forall y <- m.times | y < p95 ensures AtMost(m.times, y) * 100 < 95 * n {
      AtMostOfSorted(sorted, y, k);
      AtMostOfMembers(m.times, sorted, y);
    }
  }

  // ----- the stage report -----

  /** A sample the totals call an error although its status alone says busy. */
  predicate Miscounted(s: Sample) { !s.valid && !s.controlled && Throttling(s.status) }

  /** `add` and the correction the stage loop makes afterwards. */
  function Recorded(m: Figures, s: Sample): Figures {
    var added := Added(m, s);
    if Miscounted(s) then added.(busy := added.busy - 1, errors := added.errors + 1) else added
  }

  datatype Totals = Totals(busy: nat, errors: nat, confirmed: nat, admissionRejected: nat, backends: map<string, nat>)

  datatype Report = Report(operations: map<string, Figures>, totals: Totals)

  function Counted(t: Totals, s: Sample): Totals {
    var placed := if s.backend == "" then t
                  else t.(backends := t.backends[s.backend :=
                         1 + if s.backend in t.backends then t.backends[s.backend] else 0]);
    if s.valid then (if s.write then placed.(confirmed := placed.confirmed + 1) else placed)
    else if s.controlled then
      placed.(busy := placed.busy + 1,
              admissionRejected := placed.admissionRejected + if s.admissionRejected then 1 else 0)
    else placed.(errors := placed.errors + 1)
  }

  function FiguresOf(r: Report, name: string): Figures {
    if name in r.operations then r.operations[name] else NO_FIGURES
  }

  function Taken(r: Report, s: Sample): Report {
    Report(r.operations[s.name := Recorded(FiguresOf(r, s.name), s)], Counted(r.totals, s))
  }

  const EMPTY_REPORT := Report(map[], Totals(0, 0, 0, 0, map[]))

  /** The report over the samples taken so far, before percentiles. */
  function ReportOf(samples: seq<Sample>): Report {
    if samples == [] then EMPTY_REPORT else Taken(ReportOf(samples[..|samples| - 1]), samples[|samples| - 1])
  }

  function Count(samples: seq<Sample>, p: Sample -> bool): nat {
    if samples == [] then 0 else Count(samples[..|samples| - 1], p) + if p(samples[|samples| - 1]) then 1 else 0
  }

  function Valid(): Sample -> bool { (s: Sample) => s.valid }
  function Busy(): Sample -> bool { (s: Sample) => !s.valid && s.controlled }
  function Failed(): Sample -> bool { (s: Sample) => !s.valid && !s.controlled }
  function Named(name: string, p: Sample -> bool): Sample -> bool { (s: Sample) => s.name == name && p(s) }

  /** The totals count the samples by kind, and kinds cover all samples. */
  lemma {:induction false} TotalsCount(samples: seq<Sample>)
    ensures var t := ReportOf(samples).totals;
            && t.busy == Count(samples, Busy()) && t.errors == Count(samples, Failed())
            && |samples| == Count(samples, Valid()) + t.busy + t.errors
  {
    if samples != [] { TotalsCount(samples[..|samples| - 1]); }
  }

  ghost predicate OperationCounted(m: Figures, samples: seq<Sample>, name: string) {
    && m.busy == Count(samples, Named(name, Busy())) && m.errors == Count(samples, Named(name, Failed()))
    && m.success == Count(samples, Named(name, Valid())) == |m.times|
    && m.requests == m.success + m.busy + m.errors
  }

  lemma RecordedCounts(m: Figures, init: seq<Sample>, s: Sample, name: string)
    requires OperationCounted(m, init, name) && Credible(s)
    ensures OperationCounted(if s.name == name then Recorded(m, s) else m, init + [s], name)
  {
    assert (init + [s])[..|init|] == init;
  }

  /** An operation's counters count its own samples by the same kinds, overload marks being credible. */
  lemma {:induction false} OperationsCount(samples: seq<Sample>, name: string)
    requires forall i | 0 <= i < |samples| :: Credible(samples[i])
    ensures OperationCounted(FiguresOf(ReportOf(samples), name), samples, name)
  {
    if samples != [] {
      var init, last := samples[..|samples| - 1], samples[|samples| - 1];
      OperationsCount(init, name);
      RecordedCounts(FiguresOf(ReportOf(init), name), init, last, name);
      assert samples == init + [last];
    }
  }

  lemma {:induction false} OperationsAreNamed(samples: seq<Sample>)
    ensures forall i | 0 <= i < |samples| :: samples[i].name in ReportOf(samples).operations
  {
    if samples != [] { OperationsAreNamed(samples[..|samples| - 1]); }
  }

  ghost function SumOver(names: set<string>, f: string -> int): int
  {
    if names == {} then 0
    else
      var n :| n in names;
      f(n) + SumOver(names - {n}, f)
  }

  lemma {:induction false} SumSplit(names: set<string>, f: string -> int, k: string)
    requires k in names
    ensures SumOver(names, f) == f(k) + SumOver(names - {k}, f)
    decreases |names|
  {
    var n :| n in names && SumOver(names, f) == f(n) + SumOver(names - {n}, f);
    if n != k {
      SumSplit(names - {n}, f, k);
      SumSplit(names - {k}, f, n);
      assert names - {n} - {k} == names - {k} - {n};
    }
  }

  lemma {:induction false} SumAgrees(names: set<string>, f: string -> int, g: string -> int)
    requires forall n <- names :: f(n) == g(n)
    ensures SumOver(names, f) == SumOver(names, g)
    decreases |names|
  {
    if names != {} {
      var n :| n in names;
      SumSplit(names, f, n);
      SumSplit(names, g, n);
      SumAgrees(names - {n}, f, g);
    }
  }

  function CountNamed(samples: seq<Sample>, p: Sample -> bool): string -> int {
    (name: string) => Count(samples, Named(name, p))
  }

  /** Counting by name and summing over all names counts everything. */
  lemma {:induction false} SumOfCounts(samples: seq<Sample>, names: set<string>, p: Sample -> bool)
    requires forall i | 0 <= i < |samples| :: samples[i].name in names
    ensures SumOver(names, CountNamed(samples, p)) == Count(samples, p)
  {
    if samples == [] {
      ZeroSum(names, CountNamed(samples, p));
    } else {
      var init, last := samples[..|samples| - 1], samples[|samples| - 1];
      SumOfCounts(init, names, p);
      SumSplit(names, CountNamed(samples, p), last.name);
      SumSplit(names, CountNamed(init, p), last.name);
      SumAgrees(names - {last.name}, CountNamed(samples, p), CountNamed(init, p));
    }
  }

  lemma {:induction false} ZeroSum(names: set<string>, f: string -> int)
    requires forall n <- names :: f(n) == 0
    ensures SumOver(names, f) == 0
    decreases |names|
  {
    if names != {} {
      var n :| n in names;
      SumSplit(names, f, n);
      ZeroSum(names - {n}, f);
    }
  }

  function BusyOf(r: Report): string -> int { (n: string) => if n in r.operations then r.operations[n].busy else 0 }
  function ErrorsOf(r: Report): string -> int { (n: string) => if n in r.operations then r.operations[n].errors else 0 }
  function SuccessOf(r: Report): string -> int {
    (n: string) => if n in r.operations then r.operations[n].success else 0
  }

  /**
    After the correction the per-operation busy and error counters sum to the
    stage totals, and successes, busy replies and errors make up all samples.
   */
  lemma OperationsSumToTotals(samples: seq<Sample>)
    requires forall i | 0 <= i < |samples| :: Credible(samples[i])
    ensures var r := ReportOf(samples);
            && SumOver(r.operations.Keys, BusyOf(r)) == r.totals.busy
            && SumOver(r.operations.Keys, ErrorsOf(r)) == r.totals.errors
            && SumOver(r.operations.Keys, SuccessOf(r)) + r.totals.busy + r.totals.errors == |samples|
  {
    var r := ReportOf(samples);
    var names := r.operations.Keys;
    OperationsAreNamed(samples);
    forall n <- names
      ensures BusyOf(r)(n) == CountNamed(samples, Busy())(n)
      ensures ErrorsOf(r)(n) == CountNamed(samples, Failed())(n)
      ensures SuccessOf(r)(n) == CountNamed(samples, Valid())(n)
    {
      OperationsCount(samples, n);
    }
    SumAgrees(names, BusyOf(r), CountNamed(samples, Busy()));
    SumAgrees(names, ErrorsOf(r), CountNamed(samples, Failed()));
    SumAgrees(names, SuccessOf(r), CountNamed(samples, Valid()));
    SumOfCounts(samples, names, Busy());
    SumOfCounts(samples, names, Failed());
    SumOfCounts(samples, names, Valid());
    TotalsCount(samples);
  }

  /** Without the correction the sums would drift: a throttled reply that is no controlled overload is an error. */
  lemma CorrectionIsNeeded(samples: seq<Sample>, s: Sample)
    requires Miscounted(s)
    ensures Added(NO_FIGURES, s).busy == 1 && Counted(ReportOf(samples).totals, s).busy == ReportOf(samples).totals.busy
  {}

  /** For a stage whose requests have all ended: launched is valid plus busy plus errors. */
  lemma LaunchedIsAccounted(steps: seq<FlowStep>)
    requires var f := FlowRun(IDLE, steps); f.inFlight == 0 && f.channel == []
    ensures var f := FlowRun(IDLE, steps);
            var t := ReportOf(f.taken).totals;
            f.launched == Count(f.taken, Valid()) + t.busy + t.errors
  {
    EveryLaunchIsSampled(steps);
    TotalsCount(FlowRun(IDLE, steps).taken);
  }

  predicate Healthy(t: Totals, c: Counts, latencyPassed: bool) {
    t.errors == 0 && t.busy == 0 && c.full == 0 && c.late == 0 && latencyPassed && |t.backends| == 2
  }

  /** A healthy stage sent every planned request and got a valid answer to each. */
  lemma HealthyMeansAllValid(steps: seq<FlowStep>, c: Counts, latencyPassed: bool)
    requires var f := FlowRun(IDLE, steps);
             f.inFlight == 0 && f.channel == [] && f.launched == c.launched
             && Healthy(ReportOf(f.taken).totals, c, latencyPassed)
    requires c.planned == c.launched + c.full + c.late
    ensures Count(FlowRun(IDLE, steps).taken, Valid()) == c.planned
  {
    LaunchedIsAccounted(steps);
  }

  // ----- every counter of a report -----

  function Confirmed(): Sample -> bool { (s: Sample) => s.valid && s.write }
  function TurnedAway(): Sample -> bool { (s: Sample) => !s.valid && s.controlled && s.admissionRejected }
  function Through(backend: string): Sample -> bool { (s: Sample) => s.backend == backend }
  function WithStatus(status: int): Sample -> bool { (s: Sample) => s.status == status }

  ghost predicate BackendsCounted(backends: map<string, nat>, samples: seq<Sample>) {
    && "" !in backends
    && forall b | b != "" ::
         (b in backends <==> Count(samples, Through(b)) > 0)
         && (b in backends ==> backends[b] == Count(samples, Through(b)))
  }

  /** Confirmed writes, admission refusals and replies by backend are counted sample by sample. */
  lemma {:induction false} OtherTotalsCount(samples: seq<Sample>)
    ensures var t := ReportOf(samples).totals;
            && t.confirmed == Count(samples, Confirmed()) && t.admissionRejected == Count(samples, TurnedAway())
            && BackendsCounted(t.backends, samples)
  {
    if samples != [] {
      var init, last := samples[..|samples| - 1], samples[|samples| - 1];
      OtherTotalsCount(init);
      var t := ReportOf(samples).totals;
      forall b | b != ""
        ensures b in t.backends <==> Count(samples, Through(b)) > 0
        ensures b in t.backends ==> t.backends[b] == Count(samples, Through(b))
      {
        assert Count(samples, Through(b)) == Count(init, Through(b)) + if last.backend == b then 1 else 0;
      }
    }
  }

  /** The times of the valid samples of an operation, in the order they came. */
  function ValidTimes(samples: seq<Sample>, name: string): seq<Duration> {
    if samples == [] then []
    else
      var last := samples[|samples| - 1];
      ValidTimes(samples[..|samples| - 1], name) + if last.name == name && last.valid then [last.elapsed] else []
  }

  ghost predicate StatusesCounted(statuses: map<int, nat>, samples: seq<Sample>, name: string) {
    forall k: int ::
      && (k in statuses <==> Count(samples, Named(name, WithStatus(k))) > 0)
      && (k in statuses ==> statuses[k] == Count(samples, Named(name, WithStatus(k))))
  }

  /** Each operation's replies are counted by status, and its times are those of its valid samples. */
  lemma {:induction false} OperationDetails(samples: seq<Sample>, name: string)
    ensures var m := FiguresOf(ReportOf(samples), name);
            m.times == ValidTimes(samples, name) && StatusesCounted(m.statuses, samples, name) && m.p95Micros == 0
  {
    if samples != [] {
      var init, last := samples[..|samples| - 1], samples[|samples| - 1];
      OperationDetails(init, name);
      DetailsRecorded(FiguresOf(ReportOf(init), name), init, last, name);
      assert samples == init + [last];
    }
  }

  lemma DetailsRecorded(m: Figures, init: seq<Sample>, s: Sample, name: string)
    requires m.times == ValidTimes(init, name) && StatusesCounted(m.statuses, init, name) && m.p95Micros == 0
    ensures var next := if s.name == name then Recorded(m, s) else m;
            && next.times == ValidTimes(init + [s], name) && StatusesCounted(next.statuses, init + [s], name)
            && next.p95Micros == 0
  {
    assert (init + [s])[..|init|] == init;
    var next := if s.name == name then Recorded(m, s) else m;
    forall k: int
      ensures k in next.statuses <==> Count(init + [s], Named(name, WithStatus(k))) > 0
      ensures k in next.statuses ==> next.statuses[k] == Count(init + [s], Named(name, WithStatus(k)))
    {
      assert Count(init + [s], Named(name, WithStatus(k)))
          == Count(init, Named(name, WithStatus(k))) + if s.name == name && s.status == k then 1 else 0;
    }
  }

  /**
    A sample is valid for the wanted status and a sound payload; an overload
    counts as controlled with its two marks.
   */
  lemma RequestIs(op: Operation, r: Response)
    ensures var s := Request(op, r);
            && s.name == op.name && s.write == op.write && s.elapsed == r.elapsed
            && (s.valid <==> r.Answer? && r.readOk && r.status == op.want && r.payloadOk)
            && (s.controlled <==>
                  && r.Answer? && r.readOk && r.status in {429, 503}
                  && r.retry.Some? && 1 <= r.retry.value <= 3600 && r.error.Some? && r.error != Some(""))
            && (s.admissionRejected
                <==> s.controlled && r.status == 503 && r.error == Some("Service busy. Please retry shortly."))
            && s.status == (if r.Answer? then r.status else 0) && s.backend == (if r.Answer? then r.backend else "")
  {}

  /** A launch is refused exactly when all 384 slots are taken. */
  lemma LaunchIs(f: Flow)
    ensures FlowNext(f, Launch) ==
              if f.inFlight >= 384 then f.(refused := f.refused + 1)
              else f.(inFlight := f.inFlight + 1, launched := f.launched + 1)
  {}

  /** A stage is healthy exactly when every planned request was validly answered, in time, by two backends. */
  lemma HealthyIff(steps: seq<FlowStep>, c: Counts, latencyPassed: bool)
    requires var f := FlowRun(IDLE, steps); f.inFlight == 0 && f.channel == [] && f.launched == c.launched
    requires c.planned == c.launched + c.full + c.late
    ensures var f := FlowRun(IDLE, steps);
            Healthy(ReportOf(f.taken).totals, c, latencyPassed) <==>
              Count(f.taken, Valid()) == c.planned && latencyPassed && |ReportOf(f.taken).totals.backends| == 2
  {
    LaunchedIsAccounted(steps);
  }

  /** Results handed over and taken up until nothing is running. */
  function DrainSteps(f: Flow, s: Sample): seq<FlowStep>
    requires |f.channel| <= 384
    decreases 2 * f.inFlight + |f.channel|
  {
    if f.channel != [] then [Take] + DrainSteps(FlowNext(f, Take), s)
    else if f.inFlight > 0 then
      var next := f.(inFlight := f.inFlight - 1, channel := [s]);
      [Deliver(s)] + DrainSteps(next, s)
    else []
  }

  /** Without a further launch, every stage can come to its end, with one sample taken for each launch. */
  lemma {:induction false} CanDrain(f: Flow, s: Sample)
    requires |f.channel| <= 384
    ensures var done := FlowRun(f, DrainSteps(f, s));
            && done.inFlight == 0 && done.channel == [] && done.launched == f.launched && done.refused == f.refused
            && |done.taken| == |f.taken| + |f.channel| + f.inFlight && f.taken <= done.taken
    ensures Launch !in DrainSteps(f, s)
    decreases 2 * f.inFlight + |f.channel|
  {
    var steps := DrainSteps(f, s);
    if f.channel != [] {
      CanDrain(FlowNext(f, Take), s);
      assert steps[1..] == DrainSteps(FlowNext(f, Take), s);
    } else if f.inFlight > 0 {
      var next := FlowNext(f, Deliver(s));
      assert f.channel + [s] == [s];
      CanDrain(next, s);
      assert steps[1..] == DrainSteps(next, s);
    }
  }

  // ----- the report loop -----

  /** The latency rule on one finished operation: some success, and 95 percent of them within 500 ms. */
  predicate LatencyOk(m: Figures) { m.success != 0 && m.p95Micros <= 500000 }

  /**
    The target is met exactly when there is a success and at least 95 percent of
    them took no more than 500 ms, counted in whole microseconds.
   */
  lemma LatencyMeans(m: Figures)
    requires m.success == |m.times|
    ensures LatencyOk(Finished(m)) <==> m.times != [] && AtMost(m.times, 500000999) * 100 >= 95 * |m.times|
  {
    if m.times != [] {
      var n, sorted := |m.times|, Sorting.StableSort(m.times, NotAfter());
      Sorting.SortKeepsElements(m.times, NotAfter());
      Sorting.SortOrders(m.times, NotAfter());
      RankIndexIsValid(n);
      AtMostOfSorted(sorted, 500000999, RankIndex(n));
      AtMostOfMembers(m.times, sorted, 500000999);
      assert Finished(m).p95Micros <= 500000 <==> sorted[RankIndex(n)] <= 500000999;
    }
  }

  /** The report with every operation finished. */
  ghost function FinishedReport(r: Report): Report {
    r.(operations := FinishedWhere(r.operations, {}))
  }

  ghost predicate AllLatencyOk(r: Report) { LatencyOutside(r.operations, {}) }

  /** The metric objects of a report, one for each operation name. */
  class StageReport {
    var operations: map<string, Metric>
    var busy: nat
    var errors: nat
    var confirmed: nat
    var admissionRejected: nat
    var backends: map<string, nat>
    var latencyPassed: bool

    ghost predicate Separate()
      reads this
    {
      forall a, b | a in operations && b in operations && a != b :: operations[a] != operations[b]
    }

    ghost function Value(): Report
      reads this, operations.Values
    {
      Report(map n <- operations :: operations[n].Value(), Totals(busy, errors, confirmed, admissionRejected, backends))
    }

    constructor ()
      ensures Separate() && operations == map[] && Value() == EMPTY_REPORT && latencyPassed
    {
      operations, backends := map[], map[];
      busy, errors, confirmed, admissionRejected := 0, 0, 0, 0;
      latencyPassed := true;
    }

    ghost function Figured(): map<string, Figures>
      reads this, operations.Values
    {
      map n <- operations :: operations[n].Value()
    }

    ghost function Sums(): Totals
      reads this
    {
      Totals(busy, errors, confirmed, admissionRejected, backends)
    }

    /** The metric of an operation is created on its first sample. */
    method EnsureMetric(name: string)
      requires Separate()
      modifies this`operations
      ensures Separate() && fresh(operations.Values - old(operations.Values))
      ensures name in operations && Figured() == old(Figured())[name := old(FiguresOf(Value(), name))]
    {
      if name !in operations {
        var m := new Metric();
        operations := operations[name := m];
      }
      assert Figured() == old(Figured())[name := old(FiguresOf(Value(), name))];
    }

    method RecordIn(name: string, s: Sample)
      requires Separate() && name in operations
      modifies operations[name]
      ensures Figured() == old(Figured())[name := Recorded(old(operations[name].Value()), s)]
    {
      var m := operations[name];
      m.Book(s);
      assert forall n <- operations | n != name ::
        operations[n] != m && operations[n].Value() == old(operations[n].Value());
    }

    /** The operation's side of one sample. */
    method Record(s: Sample)
      requires Separate()
      modifies this`operations, operations.Values
      ensures Separate() && fresh(operations.Values - old(operations.Values))
      ensures Figured() == old(Figured())[s.name := Recorded(old(FiguresOf(Value(), s.name)), s)]
    {
      EnsureMetric(s.name);
      ghost var middle := Figured();
      RecordIn(s.name, s);
      assert middle[s.name] == old(FiguresOf(Value(), s.name));
    }

    /** The stage's side of one sample. */
    method Sum(s: Sample)
      modifies this`busy, this`errors, this`confirmed, this`admissionRejected, this`backends
      ensures Sums() == Counted(old(Sums()), s)
    {
      if s.backend != "" {
        backends := backends[s.backend := 1 + if s.backend in backends then backends[s.backend] else 0];
      }
      if s.valid {
        if s.write { confirmed := confirmed + 1; }
        return;
      }
      if s.controlled {
        busy := busy + 1;
        if s.admissionRejected { admissionRejected := admissionRejected + 1; }
      } else {
        errors := errors + 1;
      }
    }

    /** Drains the sample channel, then finishes every operation and checks its latency. */
    method Drain(samples: seq<Sample>)
      requires Separate() && operations == map[] && Sums() == EMPTY_REPORT.totals && latencyPassed
      modifies this
      ensures Separate() && fresh(operations.Values)
      ensures Value() == FinishedReport(ReportOf(samples))
      ensures latencyPassed <==> AllLatencyOk(Value())
    {
      for k := 0 to |samples|
        invariant Separate() && fresh(operations.Values) && latencyPassed
        invariant Figured() == ReportOf(samples[..k]).operations && Sums() == ReportOf(samples[..k]).totals
      {
        assert samples[..k + 1][..k] == samples[..k];
        Record(samples[k]);
        Sum(samples[k]);
      }
      assert samples[..|samples|] == samples;
      FinishAll();
      assert Value().operations == Figured();
    }

    method FinishOne(name: string)
      requires Separate() && name in operations
      modifies this`latencyPassed, operations[name]
      ensures Figured() == old(Figured())[name := Finished(old(operations[name].Value()))]
      ensures latencyPassed == (old(latencyPassed) && LatencyOk(Figured()[name]))
    {
      var m := operations[name];
      m.Finish();
      ghost var finished := m.Value();
      if m.success == 0 || m.p95Micros > 500000 { latencyPassed := false; }
      assert latencyPassed == (old(latencyPassed) && LatencyOk(finished));
      assert forall n <- operations | n != name ::
        operations[n] != m && operations[n].Value() == old(operations[n].Value());
    }

    method FinishAll()
      requires Separate() && latencyPassed
      modifies this`latencyPassed, operations.Values
      ensures Figured() == FinishedWhere(old(Figured()), {})
      ensures latencyPassed <==> LatencyOutside(Figured(), {})
    {
      ghost var start := Figured();
      var todo := operations.Keys;
      while todo != {}
        invariant todo <= operations.Keys
        invariant Figured() == FinishedWhere(start, todo)
        invariant latencyPassed <==> LatencyOutside(Figured(), todo)
      {
        var name :| name in todo;
        FinishOne(name);
        OneMoreFinished(start, todo, name);
        todo := todo - {name};
      }
    }
  }

  /** Operations outside `todo` finished. */
  ghost function FinishedWhere(operations: map<string, Figures>, todo: set<string>): map<string, Figures> {
    map n <- operations :: if n in todo then operations[n] else Finished(operations[n])
  }

  ghost predicate LatencyOutside(operations: map<string, Figures>, todo: set<string>) {
    forall n <- operations | n !in todo :: LatencyOk(operations[n])
  }

  lemma OneMoreFinished(operations: map<string, Figures>, todo: set<string>, name: string)
    requires name in todo && name in operations
    ensures var after := FinishedWhere(operations, todo - {name});
            && after == FinishedWhere(operations, todo)[name := Finished(operations[name])]
            && (LatencyOutside(after, todo - {name})
                <==> LatencyOutside(FinishedWhere(operations, todo), todo) && LatencyOk(Finished(operations[name])))
  {}
}
