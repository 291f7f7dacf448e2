/**
  Delivery areas of a product: the normaliser that rewrites a submitted list in
  place, run twice when a product is created, and the fee lookup, which a loop
  and an SQL ordering must agree on.
 */
module DeliveryAreas {
  import opened Basics
  import opened Text
  import opened Money

  datatype Area = Area(
    country: string, state: string, city: string, delivered: real, item: real, fee: real,
    currency: string, primary: Option<bool>, confirmed: bool)

  datatype Rejection = NoMarket | BadCount | WrongCurrency | BadPlace | TooLong | BadPrice | PriceDiffers | Duplicate

  function LocationKey(value: string): string { Lower(JoinSpaced(Fields(value))) }

  /** A place name that was normalised stays as it is. */
  lemma LocationKeyTwice(value: string)
    ensures LocationKey(LocationKey(value)) == LocationKey(value)
  {
    LowerFieldsTwice(value);
  }

  lemma EmptyKey()
    ensures LocationKey("") == ""
  {}

  // ----- one area -----

  predicate Linked(a: Area) { a.primary == Some(true) }

  /** The assignments made before the area is checked. */
  function Tidy(a: Area): Area {
    a.(country := Upper(TrimSpace(a.country)), state := LocationKey(a.state), city := LocationKey(a.city),
       currency := Upper(TrimSpace(a.currency)))
  }

  function Reprice(a: Area, base: real, baseCurrency: string): Area {
    var linked :=
      if Linked(a) then
        a.(currency := if a.currency == "" then baseCurrency else a.currency,
           item := base, delivered := RoundMoney(base + a.fee))
      else a;
    var summed := if linked.item > 0.0 then linked.(delivered := RoundMoney(linked.item + linked.fee)) else linked;
    if summed.delivered == 0.0 && summed.currency == "" && summed.country == "NG" && baseCurrency == "NGN"
    then summed.(delivered := base, currency := baseCurrency) else summed
  }

  function PlaceFault(a: Area): Option<Rejection> {
    if !Capitals(a.country, 2) || (a.city != "" && a.state == "") then Some(BadPlace)
    else if |a.state| > 100 || |a.city| > 100 then Some(TooLong)
    else if !Capitals(a.currency, 3) || a.delivered <= 0.0 || a.fee < 0.0 || a.fee >= a.delivered then Some(BadPrice)
    else None
  }

  function Settled(a: Area, base: real, baseCurrency: string): Area {
    var priced := a.(item := RoundMoney(a.delivered - a.fee));
    if priced.primary.None?
    then priced.(primary := Some(priced.currency == baseCurrency && priced.item == RoundMoney(base)))
    else priced
  }

  predicate PriceDiffering(a: Area, base: real, baseCurrency: string) {
    !Linked(a) && a.currency == baseCurrency && RoundMoney(a.delivered - a.fee) != RoundMoney(base) && !a.confirmed
  }

  /** The checks on a priced area, and the fields settled after them. */
  function Judge(priced: Area, base: real, baseCurrency: string): (Area, Option<Rejection>) {
    var fault := PlaceFault(priced);
    if fault.Some? then (priced, fault)
    else if PriceDiffering(priced, base, baseCurrency)
    then (priced.(item := RoundMoney(priced.delivered - priced.fee)), Some(PriceDiffers))
    else (Settled(priced, base, baseCurrency), None)
  }

  /** One round of the loop up to its duplicate check: the area as it then is, and what stopped it. */
  function Fix(a: Area, base: real, baseCurrency: string): (Area, Option<Rejection>) {
    FixTidy(Tidy(a), base, baseCurrency)
  }

  function FixTidy(t: Area, base: real, baseCurrency: string): (Area, Option<Rejection>) {
    if Linked(t) && t.currency != "" && t.currency != baseCurrency then (t, Some(WrongCurrency))
    else Judge(Reprice(t, base, baseCurrency), base, baseCurrency)
  }

  type Fixer = Area -> (Area, Option<Rejection>)

  function FixFor(base: real, baseCurrency: string): Fixer { a => Fix(a, base, baseCurrency) }

  /** The text the loop remembers an area by. */
  function AreaKey(a: Area): string { a.country + "|" + a.state + "|" + a.city }

  predicate SamePlace(a: Area, b: Area) { a.country == b.country && a.state == b.state && a.city == b.city }

  // ----- the list -----

  /** One round: element `i` is fixed, then compared with the ones before it. */
  function Round(areas: seq<Area>, i: nat, fix: Fixer): (r: (seq<Area>, Option<Rejection>))
    requires i < |areas|
    ensures |r.0| == |areas|
  {
    var (a, fault) := fix(areas[i]);
    var after := areas[i := a];
    if fault.Some? then (after, fault)
    else if exists j | 0 <= j < i :: AreaKey(after[j]) == AreaKey(a) then (after, Some(Duplicate))
    else (after, None)
  }

  /** The list after the first `n` rounds, and what stopped them. */
  function Pass(areas: seq<Area>, n: nat, fix: Fixer): (r: (seq<Area>, Option<Rejection>))
    requires n <= |areas|
    ensures |r.0| == |areas|
  {
    if n == 0 then (areas, None)
    else
      var (before, stopped) := Pass(areas, n - 1, fix);
      if stopped.Some? then (before, stopped) else Round(before, n - 1, fix)
  }

  function Normalise(areas: seq<Area>, base: real, baseCurrency: string): (seq<Area>, Option<Rejection>) {
    if |areas| == 0 || |areas| > 20 then (areas, Some(BadCount)) else Pass(areas, |areas|, FixFor(base, baseCurrency))
  }

  // ----- whole-cent amounts -----

  ghost predicate CentArea(a: Area) { IsCents(a.delivered) && IsCents(a.item) && IsCents(a.fee) }

  lemma SumOfCents(v: real, w: real)
    requires IsCents(v) && IsCents(w)
    ensures IsCents(v + w) && IsCents(v - w)
  {
    var n: int :| v == Cents(n);
    var m: int :| w == Cents(m);
    assert v + w == Cents(n + m) && v - w == Cents(n - m);
  }

  lemma RoundOfCents(v: real)
    requires IsCents(v)
    ensures IsCents(RoundMoney(v)) && (v >= 0.0 ==> RoundMoney(v) == v) && (v < 0.0 ==> v <= RoundMoney(v) <= 0.0)
  {
    var n: int :| v == Cents(n);
    if n >= 0 {
      CentsAreFixed(n);
    } else {
      assert Cents(n) * 100.0 == n as real;
      FloorOf(-(n as real + 0.5), -n - 1);
      assert RoundMoney(Cents(n)) == Cents(n + 1);
    }
  }

  /** What an accepted area looks like. */
  ghost predicate AcceptedArea(a: Area, base: real, baseCurrency: string) {
    && Capitals(a.country, 2) && Capitals(a.currency, 3)
    && LocationKey(a.state) == a.state && LocationKey(a.city) == a.city
    && |a.state| <= 100 && |a.city| <= 100 && (a.city != "" ==> a.state != "")
    && 0.0 <= a.fee && 0.0 < a.item && a.item + a.fee == a.delivered && IsCents(a.item) && IsCents(a.fee)
    && a.primary.Some?
    && (Linked(a) ==> a.currency == baseCurrency && a.item == base)
    && (!Linked(a) && a.currency == baseCurrency ==> a.item == base || a.item == RoundMoney(base) || a.confirmed)
  }

  lemma TidyPlaces(a: Area)
    ensures var t := Tidy(a); LocationKey(t.state) == t.state && LocationKey(t.city) == t.city
  {
    LocationKeyTwice(a.state);
    LocationKeyTwice(a.city);
  }

  lemma RepriceKeepsCents(a: Area, base: real, baseCurrency: string)
    requires CentArea(a) && IsCents(base)
    ensures CentArea(Reprice(a, base, baseCurrency))
  {
    SumOfCents(base, a.fee);
    RoundOfCents(base + a.fee);
    SumOfCents(a.item, a.fee);
    RoundOfCents(a.item + a.fee);
  }

  lemma ItemOfPriced(p: Area)
    requires CentArea(p) && PlaceFault(p).None?
    ensures var item := RoundMoney(p.delivered - p.fee); item == p.delivered - p.fee && item > 0.0 && IsCents(item)
  {
    SumOfCents(p.delivered, p.fee);
    RoundOfCents(p.delivered - p.fee);
  }

  lemma LinkedItemIsBase(t: Area, base: real, baseCurrency: string)
    requires Linked(t) && IsCents(t.fee) && IsCents(base) && PlaceFault(Reprice(t, base, baseCurrency)).None?
    ensures Reprice(t, base, baseCurrency).delivered - t.fee == base
  {
    SumOfCents(base, t.fee);
    RoundOfCents(base + t.fee);
  }

  lemma RoundedBaseIsBase(base: real, item: real)
    requires IsCents(base) && item > 0.0 && item == RoundMoney(base)
    ensures item == base
  {
    RoundOfCents(base);
  }

  lemma JudgedIsAccepted(p: Area, base: real, baseCurrency: string)
    requires CentArea(p) && IsCents(base) && Judge(p, base, baseCurrency).1.None?
    requires LocationKey(p.state) == p.state && LocationKey(p.city) == p.city
    requires Linked(p) ==> p.currency == baseCurrency && p.delivered - p.fee == base
    ensures AcceptedArea(Judge(p, base, baseCurrency).0, base, baseCurrency)
  {
    ItemOfPriced(p);
    var item := RoundMoney(p.delivered - p.fee);
    if !Linked(p) && item == RoundMoney(base) { RoundedBaseIsBase(base, item); }
  }

  /** With whole-cent amounts an accepted area has its item price and fee add up to its delivered price. */
  lemma FixAccepts(a: Area, base: real, baseCurrency: string)
    requires CentArea(a) && IsCents(base) && Fix(a, base, baseCurrency).1.None?
    ensures AcceptedArea(Fix(a, base, baseCurrency).0, base, baseCurrency)
  {
    TidyPlaces(a);
    var t := Tidy(a);
    RepriceKeepsCents(t, base, baseCurrency);
    if Linked(t) { LinkedItemIsBase(t, base, baseCurrency); }
    JudgedIsAccepted(Reprice(t, base, baseCurrency), base, baseCurrency);
  }

  /** An accepted area is accepted again and left unchanged. */
  lemma FixAgain(a: Area, base: real, baseCurrency: string)
    requires AcceptedArea(a, base, baseCurrency) && IsCents(base)
    ensures Fix(a, base, baseCurrency) == (a, None)
  {
    CapitalsAreTidy(a.country, 2);
    CapitalsAreTidy(a.currency, 3);
    assert Tidy(a) == a;
    SumOfCents(a.item, a.fee);
    RoundOfCents(a.item + a.fee);
    RoundOfCents(a.item);
    RoundOfCents(base);
    assert Reprice(a, base, baseCurrency) == a;
    assert a.delivered - a.fee == a.item;
  }

  // ----- lists -----

  ghost predicate KeysDiffer(areas: seq<Area>, n: nat)
    requires n <= |areas|
  {
    forall i, j | 0 <= i < j < n :: AreaKey(areas[i]) != AreaKey(areas[j])
  }

  ghost predicate FixedUpTo(areas: seq<Area>, n: nat, r: seq<Area>, fix: Fixer)
    requires n <= |areas| == |r|
  {
    && (forall j | 0 <= j < n :: fix(areas[j]) == (r[j], None))
    && (forall j | n <= j < |r| :: r[j] == areas[j])
    && KeysDiffer(r, n)
  }

  lemma {:induction false} PassFixes(areas: seq<Area>, n: nat, fix: Fixer)
    requires n <= |areas| && Pass(areas, n, fix).1.None?
    ensures FixedUpTo(areas, n, Pass(areas, n, fix).0, fix)
  {
    if n > 0 { PassFixes(areas, n - 1, fix); }
  }

  /** The loop completes when every area is accepted and no two end up with one key. */
  lemma {:induction false} PassCompletes(areas: seq<Area>, n: nat, r: seq<Area>, fix: Fixer)
    requires n <= |areas| == |r| && FixedUpTo(areas, n, r, fix)
    ensures Pass(areas, n, fix) == (r, None)
  {
    if n == 0 {
      assert r == areas;
    } else {
      var before := r[n - 1 := areas[n - 1]];
      assert FixedUpTo(areas, n - 1, before, fix);
      PassCompletes(areas, n - 1, before, fix);
      assert before[n - 1 := r[n - 1]] == r;
    }
  }

  /**
    For whole-cent amounts an accepted list names each place once, gives a city
    only with a state, adds item price and fee to the delivered price, and
    passes a second time unchanged.
   */
  lemma NormaliseTwice(areas: seq<Area>, base: real, baseCurrency: string)
    requires IsCents(base) && forall j | 0 <= j < |areas| :: CentArea(areas[j])
    requires Normalise(areas, base, baseCurrency).1.None?
    ensures var r := Normalise(areas, base, baseCurrency).0;
            && Normalise(r, base, baseCurrency) == (r, None)
            && (forall j | 0 <= j < |r| :: AcceptedArea(r[j], base, baseCurrency))
            && (forall i, j | 0 <= i < j < |r| :: !SamePlace(r[i], r[j]))
  {
    var r := Normalise(areas, base, baseCurrency).0;
    PassFixes(areas, |areas|, FixFor(base, baseCurrency));
    forall j | 0 <= j < |r|
      ensures AcceptedArea(r[j], base, baseCurrency) && Fix(r[j], base, baseCurrency) == (r[j], None)
    {
      assert FixFor(base, baseCurrency)(areas[j]) == (r[j], None);
      FixAccepts(areas[j], base, baseCurrency);
      FixAgain(r[j], base, baseCurrency);
    }
    assert FixedUpTo(r, |r|, r, FixFor(base, baseCurrency));
    PassCompletes(r, |r|, r, FixFor(base, baseCurrency));
    forall i, j | 0 <= i < j < |r| ensures !SamePlace(r[i], r[j]) { assert AreaKey(r[i]) != AreaKey(r[j]); }
  }

  // ----- the second pass -----

  /** An odd number of half cents. */
  predicate HalfCent(fee: real) { fee * 100.0 - (fee * 100.0).Floor as real == 0.5 }

  /** Submitted prices are whole cents; one that is computed from the item price need not be. */
  ghost predicate CentPriced(a: Area) { Linked(a) || a.item > 0.0 || IsCents(a.delivered) }

  /** Submitted prices and a base price of whole cents, the latter not negative. */
  ghost predicate CentPricedList(areas: seq<Area>, base: real) {
    IsCents(base) && base >= 0.0 && forall j | 0 <= j < |areas| :: CentPriced(areas[j])
  }

  /** A second pass changes what this submitted area became. */
  predicate Drifting(a: Area) { !Linked(a) && HalfCent(a.fee) }

  /** One cent more on the item and delivered prices. */
  function Raised(a: Area): Area { a.(delivered := a.delivered + 0.01, item := a.item + 0.01) }

  /** Rounding the difference and adding the fee again misses a whole-cent price exactly for a half-cent fee. */
  lemma RoundTripDrifts(delivered: real, fee: real)
    requires IsCents(delivered) && 0.0 <= fee < delivered
    ensures var item := RoundMoney(delivered - fee);
            && item >= 0.0 && IsCents(item)
            && RoundMoney(item + fee) == (if HalfCent(fee) then delivered + 0.01 else delivered)
            && (HalfCent(fee) ==> item > 0.0 && RoundMoney(delivered + 0.01 - fee) == item + 0.01)
  {
    var n: int :| delivered == Cents(n);
    var k := (fee * 100.0).Floor;
    var part := fee * 100.0 - k as real;
    var m := if part <= 0.5 then n - k else n - k - 1;
    assert m >= 0;
    RoundsTo(delivered - fee, m);
    assert Cents(m) * 100.0 == m as real;
    RoundsTo(Cents(m) + fee, if part == 0.5 then n + 1 else n);
    if part == 0.5 { RoundsTo(delivered + 0.01 - fee, m + 1); }
  }

  lemma RoundsTo(v: real, n: nat)
    requires n as real <= v * 100.0 + 0.5 < n as real + 1.0
    ensures RoundMoney(v) == Cents(n)
  {
    FloorOf(v * 100.0 + 0.5, n);
  }

  lemma FixKeepsPlace(t: Area, base: real, baseCurrency: string)
    ensures var r := FixTidy(t, base, baseCurrency).0; r.country == t.country && r.state == t.state && r.city == t.city
    ensures FixTidy(t, base, baseCurrency).1.None? ==>
      Capitals(t.country, 2) && Capitals(FixTidy(t, base, baseCurrency).0.currency, 3)
  {}

  lemma SettledIsTidy(a: Area, base: real, baseCurrency: string)
    requires Fix(a, base, baseCurrency).1.None?
    ensures var r := Fix(a, base, baseCurrency).0; Tidy(r) == r
  {
    var r := Fix(a, base, baseCurrency).0;
    FixKeepsPlace(Tidy(a), base, baseCurrency);
    TidyPlaces(a);
    CapitalsAreTidy(r.country, 2);
    CapitalsAreTidy(r.currency, 3);
  }

  lemma DeliveredIsCents(t: Area, base: real, baseCurrency: string)
    requires IsCents(base) && base >= 0.0 && CentPriced(t) && FixTidy(t, base, baseCurrency).1.None?
    ensures var r := FixTidy(t, base, baseCurrency).0;
            IsCents(r.delivered) && 0.0 <= r.fee < r.delivered && r.fee == t.fee
                && r.item == RoundMoney(r.delivered - r.fee)
  {
    var p := Reprice(t, base, baseCurrency);
    if Linked(t) { RoundedIsCents(base + t.fee); }
    if p.item > 0.0 { RoundedIsCents(p.item + t.fee); }
  }

  /** An area that was linked when it was submitted comes out of a second round unchanged. */
  lemma LinkedStays(t: Area, base: real, baseCurrency: string)
    requires Linked(t) && FixTidy(t, base, baseCurrency).1.None?
    ensures var r := FixTidy(t, base, baseCurrency).0; FixTidy(r, base, baseCurrency) == (r, None)
  {
    var p := Reprice(t, base, baseCurrency);
    var r := FixTidy(t, base, baseCurrency).0;
    assert p.delivered == RoundMoney(base + t.fee);
    assert r == p.(item := r.item);
    assert Reprice(r, base, baseCurrency) == p;
  }

  lemma RejudgedStays(r: Area, p: Area, base: real, baseCurrency: string)
    requires PlaceFault(r).None? && r.primary.Some? && !PriceDiffering(r, base, baseCurrency)
    requires r.item == RoundMoney(r.delivered - r.fee) && p.(item := r.item) == r
    ensures Judge(p, base, baseCurrency) == (r, None)
  {}

  lemma RejudgedRises(r: Area, p: Area, base: real, baseCurrency: string)
    requires PlaceFault(r).None? && r.primary.Some? && !PriceDiffering(r, base, baseCurrency)
    requires r.item == RoundMoney(r.delivered - r.fee) && r.item + 0.01 == RoundMoney(r.delivered + 0.01 - r.fee)
    requires p.(item := r.item) == r.(delivered := r.delivered + 0.01)
    ensures Judge(p, base, baseCurrency)
        == (Raised(r), if RefusedOnceRaised(r, baseCurrency) then Some(PriceDiffers) else None)
  {}

  lemma SettledFacts(t: Area, base: real, baseCurrency: string)
    requires FixTidy(t, base, baseCurrency).1.None?
    ensures var r := FixTidy(t, base, baseCurrency).0;
            && PlaceFault(r).None? && r.primary.Some? && !PriceDiffering(r, base, baseCurrency)
            && r.item == RoundMoney(r.delivered - r.fee)
            && (Linked(r) ==> r.currency == baseCurrency && (Linked(t) || r.item == RoundMoney(base)))
  {}

  /** Repricing an accepted area that was not linked before. */
  lemma RepricedAgain(t: Area, base: real, baseCurrency: string)
    requires IsCents(base) && base >= 0.0 && CentPriced(t) && !Linked(t) && FixTidy(t, base, baseCurrency).1.None?
    ensures var r := FixTidy(t, base, baseCurrency).0;
            var p := Reprice(r, base, baseCurrency);
            && p.(item := r.item) == (if HalfCent(t.fee) then r.(delivered := r.delivered + 0.01) else r)
            && (HalfCent(t.fee) ==> r.item + 0.01 == RoundMoney(r.delivered + 0.01 - r.fee))
            && (Linked(r) ==> r.currency == baseCurrency)
  {
    var r := FixTidy(t, base, baseCurrency).0;
    SettledFacts(t, base, baseCurrency);
    DeliveredIsCents(t, base, baseCurrency);
    RoundTripDrifts(r.delivered, r.fee);
    if Linked(r) {
      RoundOfCents(base);
      assert r.item == base;
    }
  }

  /** This accepted area is refused by a second round if it drifts. */
  predicate RefusedOnceRaised(r: Area, baseCurrency: string) {
    !Linked(r) && r.currency == baseCurrency && !r.confirmed
  }

  /** What a second round makes of the area `r` that `a` was turned into. */
  function SecondOutcome(a: Area, r: Area, baseCurrency: string): (Area, Option<Rejection>) {
    if !Drifting(a) then (r, None)
    else (Raised(r), if RefusedOnceRaised(r, baseCurrency) then Some(PriceDiffers) else None)
  }

  lemma SecondTidyRound(t: Area, base: real, baseCurrency: string)
    requires IsCents(base) && base >= 0.0 && CentPriced(t) && FixTidy(t, base, baseCurrency).1.None?
    ensures var r := FixTidy(t, base, baseCurrency).0;
            FixTidy(r, base, baseCurrency) == SecondOutcome(t, r, baseCurrency)
  {
    if Linked(t) {
      LinkedStays(t, base, baseCurrency);
    } else {
      var r := FixTidy(t, base, baseCurrency).0;
      SettledFacts(t, base, baseCurrency);
      RepricedAgain(t, base, baseCurrency);
      if HalfCent(t.fee) {
        RejudgedRises(r, Reprice(r, base, baseCurrency), base, baseCurrency);
      } else {
        RejudgedStays(r, Reprice(r, base, baseCurrency), base, baseCurrency);
      }
    }
  }

  lemma SecondRound(a: Area, base: real, baseCurrency: string)
    requires IsCents(base) && base >= 0.0 && CentPriced(a) && Fix(a, base, baseCurrency).1.None?
    ensures var r := Fix(a, base, baseCurrency).0;
            Fix(r, base, baseCurrency) == SecondOutcome(a, r, baseCurrency)
  {
    SettledIsTidy(a, base, baseCurrency);
    SecondTidyRound(Tidy(a), base, baseCurrency);
  }

  /** A pass that changes no key is stopped by nothing but an area of its own. */
  lemma {:induction false} PassKeepsKeys(areas: seq<Area>, n: nat, fix: Fixer)
    requires n <= |areas| && KeysDiffer(areas, |areas|)
    requires forall j | 0 <= j < n :: AreaKey(fix(areas[j]).0) == AreaKey(areas[j])
    requires forall j | 0 <= j < n :: fix(areas[j]).1 in {None, Some(PriceDiffers)}
    ensures var (r, stopped) := Pass(areas, n, fix);
            && stopped == (if exists j | 0 <= j < n :: fix(areas[j]).1.Some? then Some(PriceDiffers) else None)
            && (stopped.None? ==> forall j | 0 <= j < |r| :: r[j] == if j < n then fix(areas[j]).0 else areas[j])
  {
    if n > 0 { PassKeepsKeys(areas, n - 1, fix); }
  }

  /** The second pass over `r`, which a first pass made of `areas`. */
  ghost predicate SecondPassIs(areas: seq<Area>, r: seq<Area>, again: (seq<Area>, Option<Rejection>),
                               baseCurrency: string)
    requires |areas| == |r| == |again.0|
  {
    && (again == (r, None) <==> forall j | 0 <= j < |areas| :: !Drifting(areas[j]))
    && again.1 == (if exists j | 0 <= j < |areas| :: Drifting(areas[j]) && RefusedOnceRaised(r[j], baseCurrency)
                   then Some(PriceDiffers) else None)
    && (again.1.None? ==> forall j | 0 <= j < |r| :: again.0[j] == if Drifting(areas[j]) then Raised(r[j]) else r[j])
  }

  lemma OutcomeOf(a: Area, r: Area, baseCurrency: string)
    ensures var o := SecondOutcome(a, r, baseCurrency);
            && o.1 == (if Drifting(a) && RefusedOnceRaised(r, baseCurrency) then Some(PriceDiffers) else None)
            && o.0 == (if Drifting(a) then Raised(r) else r)
            && (Drifting(a) <==> o.0 != r)
            && AreaKey(o.0) == AreaKey(r)
  {
    assert Raised(r).item != r.item;
  }

  /** A pass with these outcomes leaves the list as it was exactly when no round changes its area. */
  lemma UnchangedIff(r: seq<Area>, again: (seq<Area>, Option<Rejection>), fix: Fixer)
    requires |again.0| == |r|
    requires forall j | 0 <= j < |r| :: fix(r[j]).1.Some? ==> fix(r[j]).0 != r[j]
    requires (forall j | 0 <= j < |r| :: fix(r[j]).1.None?) ==> again.1.None?
    requires again.1.None? ==> forall j | 0 <= j < |r| :: again.0[j] == fix(r[j]).0
    ensures again == (r, None) <==> forall j | 0 <= j < |r| :: fix(r[j]).0 == r[j]
  {
    if j :| 0 <= j < |r| && fix(r[j]).0 != r[j] {
      assert again.1.None? ==> again.0[j] != r[j];
    } else {
      assert again.0 == r;
    }
  }

  lemma PassAfterPass(areas: seq<Area>, r: seq<Area>, fix: Fixer, baseCurrency: string)
    requires |areas| == |r| && KeysDiffer(r, |r|)
    requires forall j | 0 <= j < |r| :: fix(r[j]) == SecondOutcome(areas[j], r[j], baseCurrency)
    ensures SecondPassIs(areas, r, Pass(r, |r|, fix), baseCurrency)
  {
    forall j | 0 <= j < |r|
      ensures fix(r[j]).1 ==
              if Drifting(areas[j]) && RefusedOnceRaised(r[j], baseCurrency) then Some(PriceDiffers) else None
      ensures fix(r[j]).0 == if Drifting(areas[j]) then Raised(r[j]) else r[j]
      ensures Drifting(areas[j]) <==> fix(r[j]).0 != r[j]
      ensures AreaKey(fix(r[j]).0) == AreaKey(r[j])
    {
      OutcomeOf(areas[j], r[j], baseCurrency);
    }
    PassKeepsKeys(r, |r|, fix);
    UnchangedIff(r, Pass(r, |r|, fix), fix);
  }

  /**
    With a base price and submitted prices of whole cents, an accepted list
    passes a second time unchanged exactly when no area that was not linked has
    a half-cent fee. Each such area is raised by one cent, and the second pass
    refuses the list exactly when one of them is left unlinked and unconfirmed
    in the base currency.
   */
  lemma SecondPass(areas: seq<Area>, base: real, baseCurrency: string)
    requires CentPricedList(areas, base)
    ensures var (r, stopped) := Normalise(areas, base, baseCurrency);
            stopped.None? ==> |r| == |areas| && SecondPassIs(areas, r, Normalise(r, base, baseCurrency), baseCurrency)
  {
    var fix := FixFor(base, baseCurrency);
    var (r, stopped) := Normalise(areas, base, baseCurrency);
    if stopped.None? {
      PassFixes(areas, |areas|, fix);
      forall j | 0 <= j < |r| ensures fix(r[j]) == SecondOutcome(areas[j], r[j], baseCurrency) {
        assert fix(areas[j]) == (r[j], None);
        SecondRound(areas[j], base, baseCurrency);
      }
      PassAfterPass(areas, r, fix, baseCurrency);
    }
  }

  /** One market of a product that costs 5.00 NGN: the second pass raises its price. */
  lemma HalfCentFeeDrifts()
    ensures var a := Area("US", "", "", 0.0, 10.01, 0.005, "USD", Some(false), false);
            var once := Normalise([a], 5.0, "NGN");
            var twice := Normalise(once.0, 5.0, "NGN");
            once.1.None? && twice.1.None? && once.0[0].delivered == 10.02 && twice.0[0].delivered == 10.03
  {
    var a := Area("US", "", "", 0.0, 10.01, 0.005, "USD", Some(false), false);
    var b := a.(delivered := 10.02, item := 10.02);
    RoundsTo(10.01 + 0.005, 1002);
    RoundsTo(10.02 - 0.005, 1002);
    CapitalsAreTidy("US", 2);
    CapitalsAreTidy("USD", 3);
    EmptyKey();
    assert Tidy(a) == a;
    assert FixTidy(a, 5.0, "NGN") == (b, None);
    assert 5.0 == Cents(500);
    OneAreaTwice(a, b, 5.0, "NGN");
  }

  /** In the base currency the second pass refuses what the first one accepted. */
  lemma HalfCentFeeRefused()
    ensures var a := Area("NG", "", "", 10.0, 0.0, 0.005, "NGN", Some(false), false);
            var once := Normalise([a], 10.0, "NGN");
            once.1.None? && Normalise(once.0, 10.0, "NGN").1 == Some(PriceDiffers)
  {
    var a := Area("NG", "", "", 10.0, 0.0, 0.005, "NGN", Some(false), false);
    var b := a.(item := 10.0);
    assert a.delivered == Cents(1000);
    RoundsTo(10.0 - 0.005, 1000);
    RoundsTo(10.0, 1000);
    CapitalsAreTidy("NG", 2);
    CapitalsAreTidy("NGN", 3);
    EmptyKey();
    assert Tidy(a) == a;
    assert FixTidy(a, 10.0, "NGN") == (b, None);
    OneAreaTwice(a, b, 10.0, "NGN");
  }

  lemma OneAreaTwice(a: Area, b: Area, base: real, baseCurrency: string)
    requires IsCents(base) && base >= 0.0 && CentPriced(a) && Fix(a, base, baseCurrency) == (b, None)
      && HalfCent(a.fee) && !Linked(a)
    ensures Normalise([a], base, baseCurrency) == ([b], None)
    ensures var twice := Normalise([b], base, baseCurrency);
            if RefusedOnceRaised(b, baseCurrency) then twice.1 == Some(PriceDiffers) else twice == ([Raised(b)], None)
  {
    var fix := FixFor(base, baseCurrency);
    assert FixedUpTo([a], 1, [b], fix);
    PassCompletes([a], 1, [b], fix);
    SecondPass([a], base, baseCurrency);
    assert Drifting([a][0]);
    var twice := Normalise([b], base, baseCurrency);
    if twice.1.None? { assert twice.0 == [twice.0[0]]; }
  }

  // ----- keys of places -----

  /** The first state runs on, over a bar, into what the second puts before its city. */
  predicate Crosses(a: Area, b: Area) {
    && |b.state| < |a.state| && a.state[..|b.state| + 1] == b.state + "|"
    && b.city == a.state[|b.state| + 1..] + "|" + a.city
  }

  predicate Crossed(a: Area, b: Area) { a.country == b.country && (Crosses(a, b) || Crosses(b, a)) }

  /** The remembered texts of two areas are equal exactly for one place or a crossed pair. */
  lemma KeysEqualIff(a: Area, b: Area)
    requires |a.country| == 2 && |b.country| == 2
    ensures AreaKey(a) == AreaKey(b) <==> SamePlace(a, b) || Crossed(a, b)
  {
    AfterCountry(a);
    AfterCountry(b);
    assert AreaKey(a) == AreaKey(b) <==> a.country == b.country && a.state + "|" + a.city == b.state + "|" + b.city;
    if |a.state| > |b.state| {
      JoinedEqualIff(a, b);
    } else if |b.state| > |a.state| {
      JoinedEqualIff(b, a);
    } else {
      assert (a.state + "|" + a.city)[..|a.state|] == a.state && (b.state + "|" + b.city)[..|a.state|] == b.state;
      assert (a.state + "|" + a.city)[|a.state| + 1..] == a.city && (b.state + "|" + b.city)[|a.state| + 1..] == b.city;
    }
  }

  lemma AfterCountry(a: Area)
    requires |a.country| == 2
    ensures AreaKey(a)[..2] == a.country && AreaKey(a)[3..] == a.state + "|" + a.city
    ensures AreaKey(a) == a.country + "|" + (a.state + "|" + a.city)
  {
    assert AreaKey(a) == a.country + "|" + (a.state + "|" + a.city);
  }

  lemma JoinedEqualIff(a: Area, b: Area)
    requires |a.state| > |b.state|
    ensures a.state + "|" + a.city == b.state + "|" + b.city <==> Crosses(a, b)
  {
    var n := |b.state| + 1;
    var s, t := a.state + "|" + a.city, b.state + "|" + b.city;
    assert s[..n] == a.state[..n] && s[n..] == a.state[n..] + "|" + a.city;
    assert t[..n] == b.state + "|" && t[n..] == b.city;
    assert s == s[..n] + s[n..] && t == t[..n] + t[n..];
  }

  ghost predicate KeysMeet(areas: seq<Area>, n: nat, fix: Fixer)
    requires n <= |areas|
  {
    exists i, j | 0 <= i < j < n :: AreaKey(fix(areas[i]).0) == AreaKey(fix(areas[j]).0)
  }

  /** A pass over areas that are all accepted is stopped only by two equal keys. */
  lemma {:induction false} PassFindsDuplicates(areas: seq<Area>, n: nat, fix: Fixer)
    requires n <= |areas| && forall j | 0 <= j < n :: fix(areas[j]).1.None?
    ensures Pass(areas, n, fix).1 == if KeysMeet(areas, n, fix) then Some(Duplicate) else None
  {
    if n > 0 {
      PassFindsDuplicates(areas, n - 1, fix);
      if Pass(areas, n - 1, fix).1.None? {
        PassFixes(areas, n - 1, fix);
        var before := Pass(areas, n - 1, fix).0;
        var after := before[n - 1 := fix(areas[n - 1]).0];
        assert forall j | 0 <= j < n :: after[j] == fix(areas[j]).0;
        assert KeysMeet(areas, n, fix) <==> exists j | 0 <= j < n - 1 :: AreaKey(after[j]) == AreaKey(after[n - 1]);
      }
    }
  }

  /** Whether two submitted areas name one place, or a crossed pair, once their names are tidied. */
  predicate Clash(a: Area, b: Area) { SamePlace(Tidy(a), Tidy(b)) || Crossed(Tidy(a), Tidy(b)) }

  /**
    A list with no other fault is refused as a duplicate exactly when two of its
    areas name one place or are crossed; so a list of different places is
    refused exactly for a crossed pair.
   */
  lemma DuplicateIff(areas: seq<Area>, base: real, baseCurrency: string)
    requires 1 <= |areas| <= 20 && forall j | 0 <= j < |areas| :: Fix(areas[j], base, baseCurrency).1.None?
    ensures Normalise(areas, base, baseCurrency).1
         == if exists i, j | 0 <= i < j < |areas| :: Clash(areas[i], areas[j]) then Some(Duplicate) else None
  {
    var fix := FixFor(base, baseCurrency);
    PassFindsDuplicates(areas, |areas|, fix);
    forall i, j | 0 <= i < j < |areas|
      ensures AreaKey(fix(areas[i]).0) == AreaKey(fix(areas[j]).0) <==> Clash(areas[i], areas[j])
    {
      KeysOfFixed(areas[i], areas[j], base, baseCurrency);
    }
  }

  lemma KeysOfFixed(a: Area, b: Area, base: real, baseCurrency: string)
    requires Fix(a, base, baseCurrency).1.None? && Fix(b, base, baseCurrency).1.None?
    ensures AreaKey(Fix(a, base, baseCurrency).0) == AreaKey(Fix(b, base, baseCurrency).0) <==> Clash(a, b)
  {
    FixKeepsPlace(Tidy(a), base, baseCurrency);
    FixKeepsPlace(Tidy(b), base, baseCurrency);
    KeysEqualIff(Tidy(a), Tidy(b));
  }

  lemma WordIsItsKey(w: string)
    requires IsWord(w) && Lower(w) == w
    ensures LocationKey(w) == w
  {
    FieldsOfJoin([w]);
  }

  /** A confirmed area with a tidy place is accepted as it is. */
  lemma ConfirmedAreaPasses(a: Area, base: real)
    requires a.country == "NG" && a.currency == "NGN" && LocationKey(a.state) == a.state
      && LocationKey(a.city) == a.city
    requires a.delivered == 1.0 && a.item == 0.0 && a.fee == 0.0 && a.primary == Some(false) && a.confirmed
    requires |a.state| <= 100 && |a.city| <= 100 && a.state != ""
    ensures Tidy(a) == a && Fix(a, base, "NGN").1.None?
  {
    CapitalsAreTidy("NG", 2);
    CapitalsAreTidy("NGN", 3);
    assert Tidy(a) == a;
    assert PlaceFault(Reprice(a, base, "NGN")).None?;
  }

  /** In the Nigerian market, without a fee and already confirmed. */
  function ConfirmedArea(state: string, city: string): Area {
    Area("NG", state, city, 1.0, 0.0, 0.0, "NGN", Some(false), true)
  }

  /** Two different places are refused as duplicates because of a bar in the first one's state. */
  lemma CrossedPairIsRefused(base: real)
    ensures var a, b := ConfirmedArea("a|b", ""), ConfirmedArea("a", "b|");
            !SamePlace(Tidy(a), Tidy(b)) && Normalise([a, b], base, "NGN").1 == Some(Duplicate)
  {
    var a, b := ConfirmedArea("a|b", ""), ConfirmedArea("a", "b|");
    WordIsItsKey("a|b");
    WordIsItsKey("a");
    WordIsItsKey("b|");
    EmptyKey();
    ConfirmedAreaPasses(a, base);
    ConfirmedAreaPasses(b, base);
    BarPairCrosses();
    CrossedIsDuplicate(a, b, base, "NGN");
  }

  lemma BarPairCrosses()
    ensures Crossed(ConfirmedArea("a|b", ""), ConfirmedArea("a", "b|"))
  {}

  lemma CrossedIsDuplicate(a: Area, b: Area, base: real, baseCurrency: string)
    requires Fix(a, base, baseCurrency).1.None? && Fix(b, base, baseCurrency).1.None?
    requires Crossed(Tidy(a), Tidy(b))
    ensures Normalise([a, b], base, baseCurrency).1 == Some(Duplicate)
  {
    DuplicateIff([a, b], base, baseCurrency);
    assert Clash([a, b][0], [a, b][1]);
  }

  // ----- the loop, in place -----

  /** `fix` is the body of the loop for these prices. */
  ghost predicate IsFixFor(fix: Fixer, base: real, baseCurrency: string) {
    forall a {:trigger Fix(a, base, baseCurrency)} :: fix(a) == Fix(a, base, baseCurrency)
  }

  /** Rewrites the areas one by one; a refused list keeps what was rewritten so far. */
  method NormaliseInPlace(areas: array<Area>, base: real, baseCurrency: string) returns (stopped: Option<Rejection>)
    modifies areas
    ensures (areas[..], stopped) == Normalise(old(areas[..]), base, baseCurrency)
  {
    if areas.Length == 0 || areas.Length > 20 { return Some(BadCount); }
    stopped := RunRounds(areas, base, baseCurrency, FixFor(base, baseCurrency));
  }

  method RunRounds(areas: array<Area>, base: real, baseCurrency: string, ghost fix: Fixer)
    returns (stopped: Option<Rejection>)
    requires IsFixFor(fix, base, baseCurrency)
    modifies areas
    ensures (areas[..], stopped) == Pass(old(areas[..]), areas.Length, fix)
  {
    ghost var start := areas[..];
    var seen: set<string> := {};
    for i := 0 to areas.Length
      invariant (areas[..], None) == Pass(start, i, fix)
      invariant SeenIs(seen, areas[..], i)
    {
      stopped, seen := RoundInPlace(areas, i, seen, base, baseCurrency, fix);
      if stopped.Some? {
        PassStaysStopped(start, i + 1, areas.Length, fix);
        return;
      }
    }
    stopped := None;
  }

  method RoundInPlace(areas: array<Area>, i: nat, seen: set<string>, base: real, baseCurrency: string, ghost fix: Fixer)
    returns (stopped: Option<Rejection>, now: set<string>)
    requires i < areas.Length && SeenIs(seen, areas[..], i) && IsFixFor(fix, base, baseCurrency)
    modifies areas
    ensures (areas[..], stopped) == Round(old(areas[..]), i, fix)
    ensures stopped.None? ==> SeenIs(now, areas[..], i + 1)
  {
    now := seen;
    ghost var before := areas[..];
    stopped := FixInPlace(areas, i, base, baseCurrency);
    if stopped.Some? { return; }
    SeenNext(seen, before, areas[..], i);
    var key := areas[i].country + "|" + areas[i].state + "|" + areas[i].city;
    if key in seen { return Some(Duplicate), seen; }
    now := seen + {key};
  }

  /** The map of keys holds exactly those of the first `n` areas. */
  ghost predicate SeenIs(seen: set<string>, areas: seq<Area>, n: nat)
    requires n <= |areas|
  {
    && (forall j | 0 <= j < n :: AreaKey(areas[j]) in seen)
    && (forall k <- seen :: exists j | 0 <= j < n :: AreaKey(areas[j]) == k)
  }

  lemma SeenNext(seen: set<string>, before: seq<Area>, after: seq<Area>, n: nat)
    requires n < |before| && |after| == |before| && SeenIs(seen, before, n) && after == before[n := after[n]]
    ensures SeenIs(seen + {AreaKey(after[n])}, after, n + 1)
    ensures AreaKey(after[n]) in seen <==> exists j | 0 <= j < n :: AreaKey(after[j]) == AreaKey(after[n])
  {
    forall k <- seen ensures exists j | 0 <= j < n :: AreaKey(after[j]) == k {
      var j :| 0 <= j < n && AreaKey(before[j]) == k;
      assert after[j] == before[j];
    }
    assert AreaKey(after[n]) == AreaKey(after[n]);
  }

  lemma {:induction false} PassStaysStopped(areas: seq<Area>, n: nat, m: nat, fix: Fixer)
    requires n <= m <= |areas| && Pass(areas, n, fix).1.Some?
    ensures Pass(areas, m, fix) == Pass(areas, n, fix)
    decreases m
  {
    if n < m { PassStaysStopped(areas, n, m - 1, fix); }
  }

  method TidyInPlace(areas: array<Area>, i: nat)
    requires i < areas.Length
    modifies areas
    ensures areas[..] == old(areas[..])[i := Tidy(old(areas[i]))]
  {
    areas[i] := areas[i].(country := Upper(TrimSpace(areas[i].country)));
    areas[i] := areas[i].(state := LocationKey(areas[i].state));
    areas[i] := areas[i].(city := LocationKey(areas[i].city));
    areas[i] := areas[i].(currency := Upper(TrimSpace(areas[i].currency)));
  }

  method RepriceInPlace(areas: array<Area>, i: nat, base: real, baseCurrency: string) returns (wrongCurrency: bool)
    requires i < areas.Length
    modifies areas
    ensures var t := old(areas[i]);
            && wrongCurrency == (Linked(t) && t.currency != "" && t.currency != baseCurrency)
            && areas[..] == if wrongCurrency then old(areas[..])
                            else old(areas[..])[i := Reprice(t, base, baseCurrency)]
  {
    if areas[i].primary == Some(true) {
      if areas[i].currency == "" { areas[i] := areas[i].(currency := baseCurrency); }
      if areas[i].currency != baseCurrency { return true; }
      areas[i] := areas[i].(item := base);
      areas[i] := areas[i].(delivered := RoundMoney(base + areas[i].fee));
    }
    if areas[i].item > 0.0 { areas[i] := areas[i].(delivered := RoundMoney(areas[i].item + areas[i].fee)); }
    if areas[i].delivered == 0.0 && areas[i].currency == "" && areas[i].country == "NG" && baseCurrency == "NGN" {
      areas[i] := areas[i].(delivered := base, currency := baseCurrency);
    }
    wrongCurrency := false;
  }

  /** The body of the loop for one element, assigning its fields in turn. */
  method FixInPlace(areas: array<Area>, i: nat, base: real, baseCurrency: string) returns (fault: Option<Rejection>)
    requires i < areas.Length
    modifies areas
    ensures fault == Fix(old(areas[i]), base, baseCurrency).1
    ensures areas[..] == old(areas[..])[i := Fix(old(areas[i]), base, baseCurrency).0]
  {
    TidyInPlace(areas, i);
    var wrongCurrency := RepriceInPlace(areas, i, base, baseCurrency);
    if wrongCurrency { return Some(WrongCurrency); }
    fault := JudgeInPlace(areas, i, base, baseCurrency);
  }

  method JudgeInPlace(areas: array<Area>, i: nat, base: real, baseCurrency: string) returns (fault: Option<Rejection>)
    requires i < areas.Length
    modifies areas
    ensures fault == Judge(old(areas[i]), base, baseCurrency).1
    ensures areas[..] == old(areas[..])[i := Judge(old(areas[i]), base, baseCurrency).0]
  {
    var a := areas[i];
    if !Capitals(a.country, 2) || (a.city != "" && a.state == "") { return Some(BadPlace); }
    if |a.state| > 100 || |a.city| > 100 { return Some(TooLong); }
    if !Capitals(a.currency, 3) || a.delivered <= 0.0 || a.fee < 0.0 || a.fee >= a.delivered { return Some(BadPrice); }
    areas[i] := areas[i].(item := RoundMoney(a.delivered - a.fee));
    if a.primary != Some(true) && a.currency == baseCurrency && areas[i].item != RoundMoney(base) && !a.confirmed {
      return Some(PriceDiffers);
    }
    if a.primary.None? {
      areas[i] := areas[i].(primary := Some(a.currency == baseCurrency && areas[i].item == RoundMoney(base)));
    }
    fault := None;
  }

  function DefaultArea(base: real): Area { Area("NG", "", "", base, 0.0, 0.0, "NGN", None, false) }

  /** A list that was not given becomes the one Nigerian offer, where that market exists. */
  method NormaliseAreas(areas: array?<Area>, stockCountry: string, localStock: bool, baseCurrency: string, base: real)
    returns (out: array?<Area>, stopped: Option<Rejection>)
    modifies areas
    ensures areas != null ==> out == areas && (areas[..], stopped) == Normalise(old(areas[..]), base, baseCurrency)
    ensures areas == null ==> (out != null <==> baseCurrency == "NGN" && (localStock ==> stockCountry == "NG"))
    ensures areas == null && out == null ==> stopped == Some(NoMarket)
    ensures areas == null && out != null ==>
      fresh(out) && (out[..], stopped) == Normalise([DefaultArea(base)], base, baseCurrency)
  {
    out := areas;
    if areas == null {
      if baseCurrency != "NGN" || (localStock && stockCountry != "NG") { return null, Some(NoMarket); }
      out := new Area[1];
      out[0] := Area("NG", "", "", base, 0.0, 0.0, "NGN", None, false);
      assert out[..] == [DefaultArea(base)];
    }
    stopped := NormaliseInPlace(out, base, baseCurrency);
  }

  ghost predicate WholeCentList(areas: seq<Area>, base: real) {
    IsCents(base) && forall j | 0 <= j < |areas| :: CentArea(areas[j])
  }

  /**
    Creating a product normalises its list and then validates it, which
    normalises the same slice again: with whole-cent prices the second pass
    raises exactly the areas with half-cent fees or refuses the list for one of
    them, and with whole-cent fees as well it neither refuses nor changes anything.
   */
  method NormaliseForCreate(areas: array<Area>, stockCountry: string, localStock: bool, baseCurrency: string,
                            base: real)
    returns (stopped: Option<Rejection>)
    modifies areas
    ensures var (first, refused) := Normalise(old(areas[..]), base, baseCurrency);
            if refused.Some? then areas[..] == first && stopped == refused
            else (areas[..], stopped) == Normalise(first, base, baseCurrency)
    ensures WholeCentList(old(areas[..]), base) ==>
      (areas[..], stopped) == Normalise(old(areas[..]), base, baseCurrency)
    ensures var submitted := old(areas[..]);
            var first := Normalise(submitted, base, baseCurrency);
            CentPricedList(submitted, base) && first.1.None? ==>
              |first.0| == |submitted| && SecondPassIs(submitted, first.0, (areas[..], stopped), baseCurrency)
    ensures WholeCentList(old(areas[..]), base) && stopped.None? ==>
      && (forall j | 0 <= j < areas.Length :: AcceptedArea(areas[j], base, baseCurrency))
      && (forall i, j | 0 <= i < j < areas.Length :: !SamePlace(areas[i], areas[j]))
  {
    ghost var submitted := areas[..];
    var out, refused := NormaliseAreas(areas, stockCountry, localStock, baseCurrency, base);
    if refused.Some? { return refused; }
    ghost var first := areas[..];
    if WholeCentList(submitted, base) { NormaliseTwice(submitted, base, baseCurrency); }
    if CentPricedList(submitted, base) { SecondPass(submitted, base, baseCurrency); }
    out, stopped := NormaliseAreas(areas, stockCountry, localStock, baseCurrency, base);
    assert WholeCentList(submitted, base) ==> areas[..] == first;
    assert forall j | 0 <= j < areas.Length :: areas[j] == areas[..][j];
  }

  // ----- the fee for a destination -----

  datatype Destination = Destination(country: string, state: string, city: string)

  predicate Matches(a: Area, d: Destination) {
    && a.country == d.country
    && (a.state == "" || a.state == d.state)
    && (a.city == "" || a.city == d.city)
  }

  function Specificity(a: Area): nat { (if a.state != "" then 1 else 0) + (if a.city != "" then 1 else 0) }

  /** ORDER BY city_key<>'' DESC, state_key<>'' DESC puts `a` strictly before `b`. */
  predicate SqlBefore(a: Area, b: Area) {
    if (a.city != "") != (b.city != "") then a.city != "" else a.state != "" && b.state == ""
  }

  /** A row the query may return: a match with no match before it. */
  ghost predicate SqlFirst(areas: seq<Area>, d: Destination, k: nat) {
    && k < |areas| && Matches(areas[k], d)
    && forall j | 0 <= j < |areas| && Matches(areas[j], d) :: !SqlBefore(areas[j], areas[k])
  }

  /** The position the scan ends on: the first of the most specific matches. */
  ghost predicate ScanPicks(areas: seq<Area>, n: nat, d: Destination, k: nat)
    requires n <= |areas|
  {
    && k < n && Matches(areas[k], d)
    && (forall j | 0 <= j < n && Matches(areas[j], d) :: Specificity(areas[j]) <= Specificity(areas[k]))
    && (forall j | 0 <= j < k && Matches(areas[j], d) :: Specificity(areas[j]) < Specificity(areas[k]))
  }

  method CatalogDeliveryFee(areas: seq<Area>, d: Destination) returns (fee: real)
    ensures (exists k | 0 <= k < |areas| :: ScanPicks(areas, |areas|, d, k) && fee == areas[k].fee)
         || ((forall j | 0 <= j < |areas| :: !Matches(areas[j], d)) && fee == 0.0)
  {
    var bestSpecificity := -1;
    fee := 0.0;
    ghost var best: nat := 0;
    for i := 0 to |areas|
      invariant bestSpecificity == -1 ==> fee == 0.0 && forall j | 0 <= j < i :: !Matches(areas[j], d)
      invariant bestSpecificity != -1 ==> ScanPicks(areas, i, d, best) && fee == areas[best].fee
      invariant bestSpecificity != -1 ==> bestSpecificity == Specificity(areas[best])
    {
      var a := areas[i];
      if a.country != d.country || (a.state != "" && a.state != d.state) || (a.city != "" && a.city != d.city) {
        continue;
      }
      var specificity := 0;
      if a.state != "" { specificity := specificity + 1; }
      if a.city != "" { specificity := specificity + 1; }
      if specificity > bestSpecificity {
        bestSpecificity := specificity;
        fee := a.fee;
        best := i;
      }
    }
  }

  /** What the normaliser guarantees about places. */
  ghost predicate PlacesOk(areas: seq<Area>) {
    && (forall j | 0 <= j < |areas| :: areas[j].city != "" ==> areas[j].state != "")
    && (forall i, j | 0 <= i < j < |areas| :: !SamePlace(areas[i], areas[j]))
  }

  /** At most one area of a list matches at each level of detail. */
  lemma OneMatchPerLevel(areas: seq<Area>, d: Destination, i: nat, j: nat)
    requires PlacesOk(areas) && i < |areas| && j < |areas|
    requires Matches(areas[i], d) && Matches(areas[j], d) && Specificity(areas[i]) == Specificity(areas[j])
    ensures i == j
  {
    assert SamePlace(areas[i], areas[j]);
  }

  /** On such a list the scan ends on the row the query returns, and there is only one. */
  lemma ScanAgreesWithSql(areas: seq<Area>, d: Destination, k: nat)
    requires PlacesOk(areas)
    ensures SqlFirst(areas, d, k) <==> ScanPicks(areas, |areas|, d, k)
    ensures forall j: nat | SqlFirst(areas, d, k) && SqlFirst(areas, d, j) :: j == k
  {}

  lemma FixedPlaceIsOk(a: Area, base: real, baseCurrency: string)
    requires Fix(a, base, baseCurrency).1.None?
    ensures var r := Fix(a, base, baseCurrency).0; r.city != "" ==> r.state != ""
  {}

  /** The lookup and the query give one fee for every accepted list and destination. */
  lemma AcceptedListsAgree(areas: seq<Area>, base: real, baseCurrency: string, d: Destination, k: nat)
    requires Normalise(areas, base, baseCurrency).1.None?
    ensures var r := Normalise(areas, base, baseCurrency).0;
            PlacesOk(r) && (SqlFirst(r, d, k) <==> ScanPicks(r, |r|, d, k))
  {
    var r := Normalise(areas, base, baseCurrency).0;
    PassFixes(areas, |areas|, FixFor(base, baseCurrency));
    forall j | 0 <= j < |r| ensures r[j].city != "" ==> r[j].state != "" {
      assert FixFor(base, baseCurrency)(areas[j]) == (r[j], None);
      FixedPlaceIsOk(areas[j], base, baseCurrency);
    }
    forall i, j | 0 <= i < j < |r| ensures !SamePlace(r[i], r[j]) { assert AreaKey(r[i]) != AreaKey(r[j]); }
    ScanAgreesWithSql(r, d, k);
  }

  /** Were a city allowed without a state, the scan and the query could differ. */
  lemma CityWithoutStateDisagrees()
    ensures var byState := Area("NG", "lagos", "", 2.0, 1.0, 1.0, "NGN", None, false);
            var byCity := Area("NG", "", "ikeja", 3.0, 1.0, 2.0, "NGN", None, false);
            var d := Destination("NG", "lagos", "ikeja");
            ScanPicks([byState, byCity], 2, d, 0) && SqlFirst([byState, byCity], d, 1)
                && !SqlFirst([byState, byCity], d, 0)
  {}
}
