/**
  Discovery measurement: signed receipts, a deduplication table that is purged,
  and daily counters. Time is counted in clock ticks; `Unix` drops the fraction.
 */
module DiscoveryEvents {
  import opened Basics
  import opened Discovery

  type Time = nat

  const TICKS: nat := 1000000          // ticks a second
  const DAY: nat := 86400              // seconds a day
  const VALIDITY: nat := 7200          // seconds a receipt stays valid
  const RETENTION: nat := 93600        // seconds a deduplication key is kept: 26 hours
  const SKEW: nat := 30                // seconds a receipt may lie in the future

  datatype EventKind = Impression | Click | DetailOpen | ContactTap

  datatype Receipt = Receipt(kind: Kind, id: string, provider: string, session: string, placement: Placement,
                             issued: nat)
  datatype Identity = Identity(session: string, kind: Kind, id: string, placement: Placement, event: EventKind,
                               day: nat)
  datatype MetricKey = MetricKey(provider: string, kind: Kind, id: string, placement: Placement, day: nat)
  datatype Counts = Counts(impressions: nat, clicks: nat, detailOpens: nat, contactTaps: nat)

  /** One increment of a daily counter. */
  datatype Hit = Hit(identity: Identity, provider: string)

  datatype State = State(
    now: Time,
    issued: set<Receipt>,                // receipts that carry our signature
    dedup: map<Identity, Time>,          // key and its expiry
    metrics: map<MetricKey, Counts>,
    counted: seq<Hit>)                   // every increment so far, in order

  datatype Input = Input(receipt: Receipt, event: EventKind, visibleMs: int)

  // ----- the key text -----

  function PlacementText(p: Placement): string {
    match p case Similar => "similar" case Recommended => "recommended" case Promoted => "promoted"
  }

  function EventText(e: EventKind): string {
    match e
    case Impression => "impression" case Click => "click"
    case DetailOpen => "detail_open" case ContactTap => "contact_tap"
  }

  function KeyText(i: Identity, date: nat -> string): string {
    i.session + KindText(i.kind) + i.id + PlacementText(i.placement) + EventText(i.event) + date(i.day)
  }

  /** From the back, the character of a concatenation is the character of its tail. */
  lemma TailChar(head: string, tail: string, k: nat)
    requires 0 < k <= |tail|
    ensures (head + tail)[|head + tail| - k] == tail[|tail| - k]
  {}

  lemma SameTail(a: string, s: string, b: string, t: string)
    requires a + s == b + t && |s| == |t|
    ensures a == b && s == t
  {
    assert |a| == |b|;
    assert (a + s)[..|a|] == a && (b + t)[..|b|] == b;
    assert (a + s)[|a|..] == s && (b + t)[|b|..] == t;
  }

  lemma EventIsReadable(a: string, e: EventKind, b: string, f: EventKind)
    requires a + EventText(e) == b + EventText(f)
    ensures a == b && e == f
  {
    TailChar(a, EventText(e), 1);
    TailChar(b, EventText(f), 1);
    TailChar(a, EventText(e), 2);
    TailChar(b, EventText(f), 2);
    SameTail(a, EventText(e), b, EventText(f));
  }

  lemma PlacementIsReadable(a: string, p: Placement, b: string, q: Placement)
    requires a + PlacementText(p) == b + PlacementText(q)
    ensures a == b && p == q
  {
    TailChar(a, PlacementText(p), 1);
    TailChar(b, PlacementText(q), 1);
    TailChar(a, PlacementText(p), 3);
    TailChar(b, PlacementText(q), 3);
    SameTail(a, PlacementText(p), b, PlacementText(q));
  }

  lemma FrontIsReadable(a: string, k: string, s: string, b: string, l: string, t: string)
    requires a + k + s == b + l + t && |a| == |b| && |k| == |l|
    ensures a == b && k == l && s == t
  {
    assert |s| == |t|;
    SameTail(a + k, s, b + l, t);
    SameTail(a, k, b, l);
  }

  /**
    The concatenated key text names one identity only, for sessions of equal
    length and any rendering of days that has ten characters and tells days apart.
   */
  lemma KeyTextIsInjective(i: Identity, j: Identity, date: nat -> string)
    requires |i.session| == 64 && |j.session| == 64
    requires forall d :: |date(d)| == 10
    requires forall d, e :: date(d) == date(e) ==> d == e
    requires KeyText(i, date) == KeyText(j, date)
    ensures i == j
  {
    var a := i.session + KindText(i.kind) + i.id + PlacementText(i.placement);
    var b := j.session + KindText(j.kind) + j.id + PlacementText(j.placement);
    SameTail(a + EventText(i.event), date(i.day), b + EventText(j.event), date(j.day));
    EventIsReadable(a, i.event, b, j.event);
    PlacementIsReadable(i.session + KindText(i.kind) + i.id, i.placement, j.session + KindText(j.kind) + j.id,
                        j.placement);
    FrontIsReadable(i.session, KindText(i.kind), i.id, j.session, KindText(j.kind), j.id);
    assert "product"[0] != "service"[0];
  }

  // ----- steps -----

  function Unix(t: Time): nat { t / TICKS }

  function Today(st: State): nat { st.now / (DAY * TICKS) }

  /** readReceipt, for a signed token with a well-formed body. */
  predicate Valid(st: State, r: Receipt) {
    && r in st.issued
    && |r.session| == 64
    && r.issued <= Unix(st.now) + SKEW
    && r.issued >= (st.now - VALIDITY * TICKS) / TICKS
  }

  function IdentityOf(r: Receipt, e: EventKind): Identity {
    Identity(r.session, r.kind, r.id, r.placement, e, r.issued / DAY)
  }

  function MetricOf(h: Hit): MetricKey {
    MetricKey(h.provider, h.identity.kind, h.identity.id, h.identity.placement, h.identity.day)
  }

  function Bump(c: Counts, e: EventKind): Counts {
    match e
    case Impression => c.(impressions := c.impressions + 1)
    case Click => c.(clicks := c.clicks + 1)
    case DetailOpen => c.(detailOpens := c.detailOpens + 1)
    case ContactTap => c.(contactTaps := c.contactTaps + 1)
  }

  function CountOf(c: Counts, e: EventKind): nat {
    match e
    case Impression => c.impressions case Click => c.clicks
    case DetailOpen => c.detailOpens case ContactTap => c.contactTaps
  }

  const ZERO := Counts(0, 0, 0, 0)

  /** Insert the key; only a fresh key raises its daily counter. */
  function CountOne(st: State, r: Receipt, e: EventKind): State {
    var hit := Hit(IdentityOf(r, e), r.provider);
    if hit.identity in st.dedup then st
    else
      var m := MetricOf(hit);
      st.(dedup := st.dedup[hit.identity := st.now + RETENTION * TICKS],
          metrics := st.metrics[m := Bump(if m in st.metrics then st.metrics[m] else ZERO, e)],
          counted := st.counted + [hit])
  }

  predicate Ignored(i: Input) { i.event == Impression && i.visibleMs < 1000 }

  /** The inputs that are events: a short impression is dropped. */
  function Kept(inputs: seq<Input>): seq<Input> {
    if inputs == [] then []
    else
      var last := inputs[|inputs| - 1];
      Kept(inputs[..|inputs| - 1]) + if Ignored(last) then [] else [last]
  }

  function CountAll(st: State, events: seq<Input>): State
    decreases |events|
  {
    if events == [] then st
    else CountAll(CountOne(st, events[0].receipt, events[0].event), events[1..])
  }

  predicate AllValid(st: State, inputs: seq<Input>) { forall k | 0 <= k < |inputs| :: Valid(st, inputs[k].receipt) }

  predicate Acceptable(st: State, inputs: seq<Input>) { 1 <= |inputs| <= 25 && AllValid(st, inputs) }

  /** A batch of events: refused as a whole when any receipt is not valid, and undone by a fault. */
  function ReportBatch(st: State, inputs: seq<Input>, fault: bool): (State, bool) {
    if !Acceptable(st, inputs) || fault then (st, false)
    else (CountAll(st, Kept(inputs)), true)
  }

  datatype Op =
    | Wait(ticks: nat)
    | Feed(kind: Kind, id: string, provider: string, session: string, placement: Placement, ahead: nat)
    | Report(inputs: seq<Input>, fault: bool)
    | Purge(keys: set<Identity>, days: set<MetricKey>)

  /** Signs a card; `ahead` is how many ticks the issuing clock runs ahead. */
  function Issue(st: State, op: Op): State
    requires op.Feed?
  {
    st.(issued := st.issued + {Receipt(op.kind, op.id, op.provider, op.session, op.placement, Unix(st.now + op.ahead))})
  }

  /** One purge: up to 1000 expired keys and up to 1000 counters older than 90 days. */
  function PurgeSome(st: State, keys: set<Identity>, days: set<MetricKey>): State {
    if |keys| <= 1000 && |days| <= 1000
      && (forall k <- keys :: k in st.dedup && st.dedup[k] < st.now)
      && (forall m <- days :: m in st.metrics && m.day + 90 < Today(st))
    then st.(dedup := st.dedup - keys, metrics := st.metrics - days) else st
  }

  function Apply(st: State, op: Op): State {
    match op
    case Wait(ticks) => st.(now := st.now + ticks)
    case Feed(_, _, _, _, _, _) => Issue(st, op)
    case Report(inputs, fault) => ReportBatch(st, inputs, fault).0
    case Purge(keys, days) => PurgeSome(st, keys, days)
  }

  function Run(st: State, ops: seq<Op>): State
    decreases |ops|
  {
    if ops == [] then st else Run(Apply(st, ops[0]), ops[1..])
  }

  function Start(now: Time): State { State(now, {}, map[], map[], []) }

  /** No receipt is issued by a clock that runs ahead of this one by more than `lead` ticks. */
  ghost predicate AheadAtMost(ops: seq<Op>, lead: nat) {
    forall k | 0 <= k < |ops| && ops[k].Feed? :: ops[k].ahead <= lead
  }

  // ----- the invariant -----

  /** The moment a day's last receipt has expired. */
  function Closing(day: nat): nat { (day * DAY + RETENTION) * TICKS }

  ghost predicate IssuedOk(st: State, lead: nat) { forall r <- st.issued :: r.issued * TICKS <= st.now + lead }

  ghost predicate CountedOnce(counted: seq<Hit>) {
    forall a, b | 0 <= a < b < |counted| :: counted[a].identity != counted[b].identity
  }

  /** A counted key is still held, or its day can produce no valid receipt any more, save in its last `lead` ticks. */
  ghost predicate HeldOrClosed(st: State, lead: nat) {
    && (forall a | 0 <= a < |st.counted| ::
          var hit := st.counted[a].identity;
          if hit in st.dedup then st.dedup[hit] >= Closing(hit.day) - lead else st.now > Closing(hit.day) - lead)
    && (forall k <- st.dedup :: exists a | 0 <= a < |st.counted| :: st.counted[a].identity == k)
  }

  /** Hits of one event kind that belong to a daily counter. */
  ghost function HitsOf(counted: seq<Hit>, m: MetricKey, e: EventKind): nat {
    if counted == [] then 0
    else
      var last := counted[|counted| - 1];
      HitsOf(counted[..|counted| - 1], m, e) + if MetricOf(last) == m && last.identity.event == e then 1 else 0
  }

  /** Every kept counter equals its hits; a missing one has none or is older than 90 days. */
  ghost predicate CountersOk(st: State) {
    && (forall m, e | m in st.metrics :: CountOf(st.metrics[m], e) == HitsOf(st.counted, m, e))
    && (forall a | 0 <= a < |st.counted| ::
          MetricOf(st.counted[a]) in st.metrics || MetricOf(st.counted[a]).day + 90 < Today(st))
  }

  /** `lead` bounds how far issuing clocks run ahead. */
  ghost predicate Inv(st: State, lead: nat) {
    IssuedOk(st, lead) && CountedOnce(st.counted) && HeldOrClosed(st, lead) && CountersOk(st)
  }

  // ----- one event -----

  /** A valid receipt of a day is always reported before the day closes. */
  lemma ValidMeansOpen(st: State, r: Receipt)
    requires Valid(st, r)
    ensures st.now < Closing(r.issued / DAY)
  {}

  /** A signed receipt whose day can still be counted, with `lead` ticks to spare. */
  predicate Countable(st: State, r: Receipt, lead: nat) { r in st.issued && st.now <= Closing(r.issued / DAY) - lead }

  /** A receipt is never reported more than `lead` ticks before its day begins. */
  lemma ReportedAfterDayBegins(st: State, r: Receipt, lead: nat)
    requires IssuedOk(st, lead) && r in st.issued
    ensures st.now + RETENTION * TICKS >= Closing(r.issued / DAY) - lead
  {}

  /** The deduplication table decides correctly: a key is fresh exactly when it was never counted. */
  lemma FreshIffNeverCounted(st: State, r: Receipt, e: EventKind, lead: nat)
    requires HeldOrClosed(st, lead) && Countable(st, r, lead)
    ensures IdentityOf(r, e) !in st.dedup
       <==> forall a | 0 <= a < |st.counted| :: st.counted[a].identity != IdentityOf(r, e)
  {}

  lemma CountableIsRecent(st: State, r: Receipt, lead: nat)
    requires Countable(st, r, lead)
    ensures r.issued / DAY + 90 >= Today(st)
  {}

  lemma {:induction false} NoHits(counted: seq<Hit>, m: MetricKey, e: EventKind)
    requires forall a | 0 <= a < |counted| :: MetricOf(counted[a]) != m
    ensures HitsOf(counted, m, e) == 0
  {
    if counted != [] { NoHits(counted[..|counted| - 1], m, e); }
  }

  lemma HitAppended(counted: seq<Hit>, hit: Hit, m: MetricKey, e: EventKind)
    ensures HitsOf(counted + [hit], m, e)
         == HitsOf(counted, m, e) + if MetricOf(hit) == m && hit.identity.event == e then 1 else 0
  {
    assert (counted + [hit])[..|counted|] == counted;
  }

  lemma CountOneKeeps(st: State, r: Receipt, e: EventKind, lead: nat)
    requires Inv(st, lead) && Countable(st, r, lead)
    ensures Inv(CountOne(st, r, e), lead)
  {
    var hit := Hit(IdentityOf(r, e), r.provider);
    if hit.identity !in st.dedup {
      FreshIffNeverCounted(st, r, e, lead);
      ReportedAfterDayBegins(st, r, lead);
      CountableIsRecent(st, r, lead);
      NewHitKeeps(st, hit, lead);
    }
  }

  lemma NewHitKeeps(st: State, hit: Hit, lead: nat)
    requires Inv(st, lead) && hit.identity !in st.dedup
    requires forall a | 0 <= a < |st.counted| :: st.counted[a].identity != hit.identity
    requires st.now + RETENTION * TICKS >= Closing(hit.identity.day) - lead && hit.identity.day + 90 >= Today(st)
    ensures var m := MetricOf(hit);
            Inv(st.(dedup := st.dedup[hit.identity := st.now + RETENTION * TICKS],
                    metrics := st.metrics[m :=
                      Bump(if m in st.metrics then st.metrics[m] else ZERO, hit.identity.event)],
                    counted := st.counted + [hit]), lead)
  {
    HeldStays(st, hit, lead);
    CountersStay(st, hit);
  }

  lemma HeldStays(st: State, hit: Hit, lead: nat)
    requires HeldOrClosed(st, lead) && hit.identity !in st.dedup
    requires forall a | 0 <= a < |st.counted| :: st.counted[a].identity != hit.identity
    requires st.now + RETENTION * TICKS >= Closing(hit.identity.day) - lead
    ensures var dedup := st.dedup[hit.identity := st.now + RETENTION * TICKS];
            HeldOrClosed(st.(dedup := dedup, counted := st.counted + [hit]), lead)
  {
    var next := st.(dedup := st.dedup[hit.identity := st.now + RETENTION * TICKS], counted := st.counted + [hit]);
    forall k <- next.dedup ensures exists a | 0 <= a < |next.counted| :: next.counted[a].identity == k {
      if k == hit.identity {
        assert next.counted[|st.counted|].identity == k;
      } else {
        var a :| 0 <= a < |st.counted| && st.counted[a].identity == k;
        assert next.counted[a].identity == k;
      }
    }
  }

  lemma CountersStay(st: State, hit: Hit)
    requires CountersOk(st) && hit.identity.day + 90 >= Today(st)
    ensures var m := MetricOf(hit);
            CountersOk(st.(counted := st.counted + [hit],
                           metrics := st.metrics[m :=
                             Bump(if m in st.metrics then st.metrics[m] else ZERO, hit.identity.event)]))
  {
    var m := MetricOf(hit);
    var metrics := st.metrics[m := Bump(if m in st.metrics then st.metrics[m] else ZERO, hit.identity.event)];
    forall k, e | k in metrics ensures CountOf(metrics[k], e) == HitsOf(st.counted + [hit], k, e) {
      HitAppended(st.counted, hit, k, e);
      if k !in st.metrics { NoHits(st.counted, k, e); }
    }
  }

  // ----- every step -----

  ghost predicate AllCountable(st: State, events: seq<Input>, lead: nat) {
    forall k | 0 <= k < |events| :: Countable(st, events[k].receipt, lead)
  }

  lemma {:induction false} CountAllKeeps(st: State, events: seq<Input>, lead: nat)
    requires Inv(st, lead) && AllCountable(st, events, lead)
    ensures Inv(CountAll(st, events), lead)
    decreases |events|
  {
    if events != [] {
      assert forall k | 0 <= k < |events[1..]| :: events[1..][k] == events[k + 1];
      CountOneKeeps(st, events[0].receipt, events[0].event, lead);
      CountAllKeeps(CountOne(st, events[0].receipt, events[0].event), events[1..], lead);
    }
  }

  lemma {:induction false} KeptAreValid(st: State, inputs: seq<Input>)
    requires AllValid(st, inputs)
    ensures AllValid(st, Kept(inputs))
  {
    if inputs != [] { KeptAreValid(st, inputs[..|inputs| - 1]); }
  }

  lemma ValidAreCountable(st: State, events: seq<Input>, lead: nat)
    requires AllValid(st, events) && lead <= 1
    ensures AllCountable(st, events, lead)
  {
    forall k | 0 <= k < |events| ensures Countable(st, events[k].receipt, lead) {
      ValidMeansOpen(st, events[k].receipt);
    }
  }

  lemma PurgeKeeps(st: State, keys: set<Identity>, days: set<MetricKey>, lead: nat)
    requires Inv(st, lead)
    ensures Inv(PurgeSome(st, keys, days), lead)
  {}

  lemma WaitKeeps(st: State, ticks: nat, lead: nat)
    requires Inv(st, lead)
    ensures Inv(Apply(st, Wait(ticks)), lead)
  {}

  lemma StepKeepsInv(st: State, op: Op, lead: nat)
    requires Inv(st, lead) && lead <= 1 && (op.Feed? ==> op.ahead <= lead)
    ensures Inv(Apply(st, op), lead)
  {
    match op
    case Wait(ticks) => WaitKeeps(st, ticks, lead);
    case Feed(_, _, _, _, _, _) =>
    case Report(inputs, fault) =>
      if ReportBatch(st, inputs, fault).1 {
        KeptAreValid(st, inputs);
        ValidAreCountable(st, Kept(inputs), lead);
        CountAllKeeps(st, Kept(inputs), lead);
      }
    case Purge(keys, days) => PurgeKeeps(st, keys, days, lead);
  }

  lemma {:induction false} RunKeepsInv(st: State, ops: seq<Op>, lead: nat)
    requires Inv(st, lead) && AheadAtMost(ops, lead) && lead <= 1
    ensures Inv(Run(st, ops), lead)
    decreases |ops|
  {
    if ops != [] {
      StepKeepsInv(st, ops[0], lead);
      RunKeepsInv(Apply(st, ops[0]), ops[1..], lead);
    }
  }

  // ----- main results -----

  /**
    With issuing clocks at most one tick ahead, over any run of feeds, reports,
    waits and purges, each session, listing, placement, event and day is counted
    at most once, every kept counter is the number of its counted events, and
    none of the last 90 days is missing.
   */
  lemma CountedAtMostOnce(now: Time, ops: seq<Op>)
    requires AheadAtMost(ops, 1)
    ensures var st := Run(Start(now), ops);
            && CountedOnce(st.counted)
            && (forall m, e | m in st.metrics :: CountOf(st.metrics[m], e) == HitsOf(st.counted, m, e))
            && (forall a | 0 <= a < |st.counted| ::
                  MetricOf(st.counted[a]) in st.metrics || MetricOf(st.counted[a]).day + 90 < Today(st))
  {
    RunKeepsInv(Start(now), ops, 1);
  }

  /**
    In every such state an event is counted when its receipt is valid and it was
    never counted before, and only then.
   */
  lemma CountedIffNew(now: Time, ops: seq<Op>, r: Receipt, e: EventKind)
    requires AheadAtMost(ops, 1) && Valid(Run(Start(now), ops), r)
    ensures var st := Run(Start(now), ops);
            CountOne(st, r, e).counted == st.counted + [Hit(IdentityOf(r, e), r.provider)]
            <==> forall a | 0 <= a < |st.counted| :: st.counted[a].identity != IdentityOf(r, e)
  {
    RunKeepsInv(Start(now), ops, 1);
    ValidMeansOpen(Run(Start(now), ops), r);
    FreshIffNeverCounted(Run(Start(now), ops), r, e, 1);
  }

  // ----- the tolerance for clocks that run ahead -----

  function EarlyReceipt(session: string): Receipt { Receipt(Product, "p", "v", session, Similar, DAY) }

  function LateReceipt(session: string): Receipt { Receipt(Product, "p", "v", session, Similar, 2 * DAY - 1) }

  function SharedKey(session: string): Identity { Identity(session, Product, "p", Similar, Click, 1) }

  function FirstHit(session: string): Hit { Hit(SharedKey(session), "v") }

  function LateClick(session: string): Input { Input(LateReceipt(session), Click, 0) }

  /**
    A clock that is `lead` ticks ahead issues a receipt of day one just before
    that day begins, and its click is counted at once; a receipt of the day's last
    second is issued too, and then time goes on to the last tick it is valid.
   */
  function LeadIn(session: string, lead: nat): seq<Op> {
    [Feed(Product, "p", "v", session, Similar, lead),
     Report([Input(EarlyReceipt(session), Click, 0)], false),
     Wait((DAY - 1) * TICKS + lead),
     Feed(Product, "p", "v", session, Similar, 0),
     Wait((VALIDITY + 1) * TICKS - 1)]
  }

  function LeadStart(lead: nat): Time
    requires lead <= 2
  {
    DAY * TICKS - lead
  }

  /** The first key then expires `lead` ticks before the day closes, one tick from now. */
  ghost predicate LedIn(st: State, session: string, lead: nat) {
    && st.now == Closing(1) - 1 && LateReceipt(session) in st.issued
    && SharedKey(session) in st.dedup && st.dedup.Keys == {SharedKey(session)}
    && st.dedup[SharedKey(session)] == Closing(1) - lead
    && st.counted == [FirstHit(session)]
  }

  lemma KeptOne(i: Input)
    requires !Ignored(i)
    ensures Kept([i]) == [i]
  {
    assert [i][..0] == [];
  }

  lemma CountAllOne(st: State, i: Input)
    ensures CountAll(st, [i]) == CountOne(st, i.receipt, i.event)
  {
    assert [i][1..] == [];
  }

  lemma ReportOne(st: State, i: Input)
    requires Valid(st, i.receipt) && !Ignored(i)
    ensures Apply(st, Report([i], false)) == CountOne(st, i.receipt, i.event)
  {
    KeptOne(i);
    CountAllOne(st, i);
    assert Acceptable(st, [i]);
  }

  lemma LeadInReports(session: string, lead: nat)
    requires |session| == 64 && lead <= 2
    ensures var ops := LeadIn(session, lead);
            var st := Apply(Apply(Start(LeadStart(lead)), ops[0]), ops[1]);
            && st.now == LeadStart(lead) && st.issued == {EarlyReceipt(session)}
            && st.dedup == map[SharedKey(session) := Closing(1) - lead] && st.counted == [FirstHit(session)]
  {
    var st := Apply(Start(LeadStart(lead)), LeadIn(session, lead)[0]);
    assert st.issued == {EarlyReceipt(session)};
    assert Valid(st, EarlyReceipt(session));
    ReportOne(st, Input(EarlyReceipt(session), Click, 0));
  }

  lemma LeadInWaits(session: string, lead: nat, st: State)
    requires lead <= 2 && st.now == LeadStart(lead)
    requires st.dedup == map[SharedKey(session) := Closing(1) - lead] && st.counted == [FirstHit(session)]
    ensures var ops := LeadIn(session, lead);
            LedIn(Apply(Apply(Apply(st, ops[2]), ops[3]), ops[4]), session, lead)
  {}

  lemma LeadInEnds(session: string, lead: nat)
    requires |session| == 64 && lead <= 2
    ensures LedIn(Run(Start(LeadStart(lead)), LeadIn(session, lead)), session, lead)
  {
    var ops := LeadIn(session, lead);
    var s0 := Start(LeadStart(lead));
    var s1 := Apply(s0, ops[0]);
    var s2 := Apply(s1, ops[1]);
    var s3 := Apply(s2, ops[2]);
    var s4 := Apply(s3, ops[3]);
    LeadInReports(session, lead);
    LeadInWaits(session, lead, s2);
    assert ops[0..] == ops && ops[5..] == [];
    RunFrom(s0, ops, 0);
    RunFrom(s1, ops, 1);
    RunFrom(s2, ops, 2);
    RunFrom(s3, ops, 3);
    RunFrom(s4, ops, 4);
  }

  lemma RunFrom(st: State, ops: seq<Op>, k: nat)
    requires k < |ops|
    ensures Run(st, ops[k..]) == Run(Apply(st, ops[k]), ops[k + 1..])
  {
    assert ops[k..][0] == ops[k] && ops[k..][1..] == ops[k + 1..];
  }

  lemma {:induction false} RunSplits(st: State, before: seq<Op>, after: seq<Op>)
    ensures Run(st, before + after) == Run(Run(st, before), after)
    decreases |before|
  {
    if before == [] {
      assert before + after == after;
    } else {
      assert (before + after)[1..] == before[1..] + after;
      RunSplits(Apply(st, before[0]), before[1..], after);
    }
  }

  /** After a purge the late receipt is counted although its key was counted before. */
  lemma CountedAgain(st: State, session: string)
    requires st.dedup == map[] && st.counted == [FirstHit(session)]
    ensures !CountedOnce(CountOne(st, LateReceipt(session), Click).counted)
  {
    var next := CountOne(st, LateReceipt(session), Click);
    assert IdentityOf(LateReceipt(session), Click) == SharedKey(session);
    assert next.counted == [FirstHit(session), FirstHit(session)];
    assert next.counted[0].identity == next.counted[1].identity;
  }

  /** A run with a lead of two ticks: the first key is purged in the last tick in which its day is still open. */
  function SkewedRun(session: string): seq<Op> {
    LeadIn(session, 2) + [Purge({SharedKey(session)}, {}), Report([LateClick(session)], false)]
  }

  lemma PurgedThenCounted(st: State, session: string)
    requires |session| == 64 && LedIn(st, session, 2)
    ensures var purged := Apply(st, Purge({SharedKey(session)}, {}));
            !CountedOnce(Apply(purged, Report([LateClick(session)], false)).counted)
  {
    var purged := Apply(st, Purge({SharedKey(session)}, {}));
    assert purged.dedup == map[];
    assert Valid(purged, LateReceipt(session));
    ReportOne(purged, LateClick(session));
    CountedAgain(purged, session);
  }

  lemma SkewedRunCountsTwice(session: string)
    requires |session| == 64
    ensures AheadAtMost(SkewedRun(session), 2)
    ensures !CountedOnce(Run(Start(LeadStart(2)), SkewedRun(session)).counted)
  {
    var ops := [Purge({SharedKey(session)}, {}), Report([LateClick(session)], false)];
    var st := Run(Start(LeadStart(2)), LeadIn(session, 2));
    LeadInEnds(session, 2);
    RunSplits(Start(LeadStart(2)), LeadIn(session, 2), ops);
    PurgedThenCounted(st, session);
    assert ops[0..] == ops && ops[2..] == [];
    RunFrom(st, ops, 0);
    RunFrom(Apply(st, ops[0]), ops, 1);
  }

  /** Counting at most once holds for every run exactly when no issuing clock runs two ticks ahead. */
  lemma OnceIffNoSkew(ticks: nat, session: string)
    requires |session| == 64
    ensures (forall now: Time, ops: seq<Op> | AheadAtMost(ops, ticks) :: CountedOnce(Run(Start(now), ops).counted))
       <==> ticks <= 1
  {
    if ticks <= 1 {
      forall now: Time, ops: seq<Op> | AheadAtMost(ops, ticks) ensures CountedOnce(Run(Start(now), ops).counted) {
        CountedAtMostOnce(now, ops);
      }
    } else {
      SkewedRunCountsTwice(session);
      assert AheadAtMost(SkewedRun(session), ticks);
    }
  }

  // ----- the controller -----

  /** The measurement tables behind Feed, Events and the purge job. */
  class DiscoveryDesk {
    var now: Time
    var issued: set<Receipt>
    var dedup: map<Identity, Time>
    var metrics: map<MetricKey, Counts>
    ghost var counted: seq<Hit>

    ghost function View(): State
      reads this
    {
      State(now, issued, dedup, metrics, counted)
    }

    method ReadReceipt(r: Receipt) returns (ok: bool)
      ensures ok == Valid(View(), r)
    {
      ok := r in issued && |r.session| == 64
        && !(r.issued > now / TICKS + SKEW) && !(r.issued < (now - VALIDITY * TICKS) / TICKS);
    }

    /** Feed: signs a receipt with this desk's own clock. */
    method SignReceipt(kind: Kind, id: string, provider: string, session: string, placement: Placement)
      returns (r: Receipt)
      modifies this
      ensures View() == Apply(old(View()), Feed(kind, id, provider, session, placement, 0))
      ensures r in issued && r.issued == Unix(now)
    {
      r := Receipt(kind, id, provider, session, placement, now / TICKS);
      issued := issued + {r};
    }

    /** Checks every receipt of a batch and drops short impressions; None refuses the batch. */
    method CheckInputs(inputs: seq<Input>) returns (events: Option<seq<Input>>)
      ensures events == if Acceptable(View(), inputs) then Some(Kept(inputs)) else None
    {
      if |inputs| == 0 || |inputs| > 25 { return None; }
      var kept: seq<Input> := [];
      for k := 0 to |inputs|
        invariant forall j | 0 <= j < k :: Valid(View(), inputs[j].receipt)
        invariant kept == Kept(inputs[..k])
      {
        assert inputs[..k + 1][..k] == inputs[..k];
        var ok := ReadReceipt(inputs[k].receipt);
        if !ok { return None; }
        if inputs[k].event == Impression && inputs[k].visibleMs < 1000 { continue; }
        kept := kept + [inputs[k]];
      }
      assert inputs[..|inputs|] == inputs;
      events := Some(kept);
    }

    /** The transaction of a batch whose receipts were checked before. */
    method InsertEvents(events: seq<Input>, fault: bool) returns (done: bool)
      modifies this
      ensures (View(), done) == if fault then (old(View()), false) else (CountAll(old(View()), events), true)
    {
      if fault { return false; }
      ghost var start := View();
      for k := 0 to |events|
        invariant CountAll(start, events) == CountAll(View(), events[k..])
      {
        assert events[k..][0] == events[k] && events[k..][1..] == events[k + 1..];
        CountEvent(events[k].receipt, events[k].event);
      }
      assert events[|events|..] == [];
      done := true;
    }

    /** First every receipt is checked, then the events are counted in one transaction; here at one moment. */
    method ReportEvents(inputs: seq<Input>, fault: bool) returns (done: bool)
      modifies this
      ensures (View(), done) == ReportBatch(old(View()), inputs, fault)
    {
      var checked := CheckInputs(inputs);
      if checked.None? { return false; }
      done := InsertEvents(checked.value, fault);
    }

    /** The upsert: a key that is new to the deduplication table raises its counter. */
    method CountEvent(r: Receipt, e: EventKind)
      modifies this
      ensures View() == CountOne(old(View()), r, e)
    {
      var key := Identity(r.session, r.kind, r.id, r.placement, e, r.issued / DAY);
      if key in dedup { return; }
      dedup := dedup[key := now + RETENTION * TICKS];
      var m := MetricKey(r.provider, r.kind, r.id, r.placement, r.issued / DAY);
      var row := if m in metrics then metrics[m] else Counts(0, 0, 0, 0);
      match e {
        case Impression => row := row.(impressions := row.impressions + 1);
        case Click => row := row.(clicks := row.clicks + 1);
        case DetailOpen => row := row.(detailOpens := row.detailOpens + 1);
        case ContactTap => row := row.(contactTaps := row.contactTaps + 1);
      }
      metrics := metrics[m := row];
      counted := counted + [Hit(key, r.provider)];
    }
  }

  // ----- what each call answers -----

  /** A receipt counts from 30 seconds before its own second until two hours after it, for a full session hash. */
  lemma ValidIff(st: State, r: Receipt)
    requires st.now >= VALIDITY * TICKS
    ensures Valid(st, r) <==>
              && r in st.issued && |r.session| == 64
              && r.issued <= st.now / TICKS + 30 && st.now < (r.issued + 7200 + 1) * TICKS
  {}

  /** One counted event: its key is held for 26 hours and its own daily counter is one higher. */
  ghost predicate CountedAs(st: State, next: State, r: Receipt, e: EventKind) {
    var key := Identity(r.session, r.kind, r.id, r.placement, e, r.issued / 86400);
    var m := MetricKey(r.provider, r.kind, r.id, r.placement, r.issued / 86400);
    var was := if m in st.metrics then st.metrics[m] else Counts(0, 0, 0, 0);
    && next.dedup == st.dedup[key := st.now + 93600 * TICKS]
    && next.metrics.Keys == st.metrics.Keys + {m}
    && (forall k <- st.metrics | k != m :: next.metrics[k] == st.metrics[k])
    && (forall f: EventKind :: CountOf(next.metrics[m], f) == CountOf(was, f) + if f == e then 1 else 0)
    && next.counted == st.counted + [Hit(key, r.provider)] && next.now == st.now && next.issued == st.issued
  }

  lemma CountAnswers(st: State, r: Receipt, e: EventKind)
    ensures var key := Identity(r.session, r.kind, r.id, r.placement, e, r.issued / 86400);
            if key in st.dedup then CountOne(st, r, e) == st else CountedAs(st, CountOne(st, r, e), r, e)
  {}

  /** The events of a batch: everything but impressions seen for less than a second. */
  lemma {:induction false} KeptIff(inputs: seq<Input>)
    ensures forall i :: i in Kept(inputs) <==> i in inputs && (i.event == Impression ==> i.visibleMs >= 1000)
  {
    if inputs != [] {
      var init := inputs[..|inputs| - 1];
      KeptIff(init);
      assert inputs == init + [inputs[|inputs| - 1]];
    }
  }

  /** A batch is taken exactly when it has 1 to 25 inputs whose receipts are all valid, and nothing fails. */
  lemma BatchAnswers(st: State, inputs: seq<Input>, fault: bool)
    ensures var (next, done) := ReportBatch(st, inputs, fault);
            && (done <==> !fault && 1 <= |inputs| <= 25 && forall k | 0 <= k < |inputs| :: Valid(st, inputs[k].receipt))
            && (if done then next == CountAll(st, Kept(inputs)) else next == st)
  {}

  /** Keys past their time and counters of days more than 90 days ago, at most 1000 of each. */
  ghost predicate Stale(st: State, keys: set<Identity>, days: set<MetricKey>) {
    && |keys| <= 1000 && |days| <= 1000
    && (forall k <- keys :: k in st.dedup && st.dedup[k] < st.now)
    && (forall m <- days :: m in st.metrics && m.day + 90 < st.now / (86400 * TICKS))
  }

  /** A purge drops exactly what it was given, which is nothing but stale keys and counters. */
  lemma PurgeAnswers(st: State, keys: set<Identity>, days: set<MetricKey>)
    ensures var next := Apply(st, Purge(keys, days));
            var may := Stale(st, keys, days);
            && (forall k :: k in next.dedup <==> k in st.dedup && !(may && k in keys))
            && (forall k <- next.dedup :: next.dedup[k] == st.dedup[k])
            && (forall m :: m in next.metrics <==> m in st.metrics && !(may && m in days))
            && (forall m <- next.metrics :: next.metrics[m] == st.metrics[m])
            && next.counted == st.counted && next.issued == st.issued && next.now == st.now
  {}
}
