/**
  What the normaliser makes of one submitted delivery area: the price it is judged
  by, which of its faults is reported, and the fields an accepted area ends with.
 */
module AreaAnswers {
  import opened Basics
  import opened Text
  import opened Money
  import opened DeliveryAreas

  /** Two capital letters stay after trimming and upper-casing. */
  function Country(a: Area): string { Upper(TrimSpace(a.country)) }

  /** A submitted currency, or the base currency where it is implied. */
  function Currency(a: Area, base: real, baseCurrency: string): string {
    var given := Upper(TrimSpace(a.currency));
    if given == "" && (Linked(a) || ImpliesBase(a, base, baseCurrency)) then baseCurrency else given
  }

  /** An area without any price in the home market of a naira product. */
  predicate ImpliesBase(a: Area, base: real, baseCurrency: string) {
    && !Linked(a) && Upper(TrimSpace(a.currency)) == "" && Country(a) == "NG" && baseCurrency == "NGN"
    && (if a.item > 0.0 then RoundMoney(a.item + a.fee) else a.delivered) == 0.0
  }

  /** The price an area is judged by: from the base price, from its item price, or as submitted. */
  function JudgedPrice(a: Area, base: real, baseCurrency: string): real {
    if Linked(a) then RoundMoney(base + a.fee)
    else if ImpliesBase(a, base, baseCurrency) then base
    else if a.item > 0.0 then RoundMoney(a.item + a.fee)
    else a.delivered
  }

  predicate OtherCurrency(a: Area, baseCurrency: string) {
    Linked(a) && Upper(TrimSpace(a.currency)) != "" && Upper(TrimSpace(a.currency)) != baseCurrency
  }

  predicate Misplaced(a: Area) {
    !Capitals(Country(a), 2) || (LocationKey(a.city) != "" && LocationKey(a.state) == "")
  }

  predicate LongNames(a: Area) { |LocationKey(a.state)| > 100 || |LocationKey(a.city)| > 100 }

  predicate Mispriced(a: Area, base: real, baseCurrency: string) {
    var price := JudgedPrice(a, base, baseCurrency);
    !Capitals(Currency(a, base, baseCurrency), 3) || price <= 0.0 || a.fee < 0.0 || price <= a.fee
  }

  /** In the base currency, with another item price than the base price, and nobody confirmed it. */
  predicate Unexpected(a: Area, base: real, baseCurrency: string) {
    && !Linked(a) && !a.confirmed && Currency(a, base, baseCurrency) == baseCurrency
    && RoundMoney(JudgedPrice(a, base, baseCurrency) - a.fee) != RoundMoney(base)
  }

  /** A linked currency that is wrong is reported first, then the place, the names, the amounts and the price. */
  function FirstFault(a: Area, base: real, baseCurrency: string): Option<Rejection> {
    if OtherCurrency(a, baseCurrency) then Some(WrongCurrency)
    else if Misplaced(a) then Some(BadPlace)
    else if LongNames(a) then Some(TooLong)
    else if Mispriced(a, base, baseCurrency) then Some(BadPrice)
    else if Unexpected(a, base, baseCurrency) then Some(PriceDiffers)
    else None
  }

  lemma RepricedIs(a: Area, base: real, baseCurrency: string)
    requires !OtherCurrency(a, baseCurrency)
    ensures var p := Reprice(Tidy(a), base, baseCurrency);
            && p.country == Country(a) && p.state == LocationKey(a.state) && p.city == LocationKey(a.city)
            && p.delivered == JudgedPrice(a, base, baseCurrency) && p.currency == Currency(a, base, baseCurrency)
            && p.fee == a.fee && p.primary == a.primary && p.confirmed == a.confirmed
  {}

  lemma JudgedIs(p: Area, base: real, baseCurrency: string)
    ensures var item := RoundMoney(p.delivered - p.fee);
            var differs := p.primary != Some(true) && !p.confirmed && p.currency == baseCurrency
                           && item != RoundMoney(base);
            && Judge(p, base, baseCurrency).1 ==
                 (if PlaceFault(p).Some? then PlaceFault(p) else if differs then Some(PriceDiffers) else None)
            && (Judge(p, base, baseCurrency).1.None? ==>
                  Judge(p, base, baseCurrency).0 == p.(item := item,
                    primary := if p.primary.Some? then p.primary
                               else Some(p.currency == baseCurrency && item == RoundMoney(base))))
  {}

  /**
    An area is refused for its first fault in that order, and is otherwise accepted
    with its tidied names, the price it was judged by, the item price that is left
    after the fee, and linked when nobody said otherwise and that is the base price.
   */
  lemma AreaAnswer(a: Area, base: real, baseCurrency: string)
    ensures Fix(a, base, baseCurrency).1 == FirstFault(a, base, baseCurrency)
    ensures FirstFault(a, base, baseCurrency).None? ==>
              var price := JudgedPrice(a, base, baseCurrency);
              var item := RoundMoney(price - a.fee);
              var inBase := Currency(a, base, baseCurrency) == baseCurrency && item == RoundMoney(base);
              Fix(a, base, baseCurrency).0 ==
                Area(Country(a), LocationKey(a.state), LocationKey(a.city), price, item, a.fee,
                     Currency(a, base, baseCurrency), if a.primary.Some? then a.primary else Some(inBase), a.confirmed)
  {
    if !OtherCurrency(a, baseCurrency) { JudgedAnswer(a, Reprice(Tidy(a), base, baseCurrency), base, baseCurrency); }
  }

  lemma JudgedAnswer(a: Area, p: Area, base: real, baseCurrency: string)
    requires !OtherCurrency(a, baseCurrency) && p == Reprice(Tidy(a), base, baseCurrency)
    ensures Judge(p, base, baseCurrency).1 == FirstFault(a, base, baseCurrency)
    ensures FirstFault(a, base, baseCurrency).None? ==>
              var price := JudgedPrice(a, base, baseCurrency);
              var item := RoundMoney(price - a.fee);
              var inBase := Currency(a, base, baseCurrency) == baseCurrency && item == RoundMoney(base);
              Judge(p, base, baseCurrency).0 ==
                Area(Country(a), LocationKey(a.state), LocationKey(a.city), price, item, a.fee,
                     Currency(a, base, baseCurrency), if a.primary.Some? then a.primary else Some(inBase), a.confirmed)
  {
    RepricedIs(a, base, baseCurrency);
    JudgedIs(p, base, baseCurrency);
  }

  // ----- the list -----

  /** The round of area `j` finds no fault and a key no earlier round left. */
  ghost predicate RoundPasses(areas: seq<Area>, j: nat, fix: Fixer)
    requires j < |areas|
  {
    fix(areas[j]).1.None? && forall i | 0 <= i < j :: AreaKey(fix(areas[i]).0) != AreaKey(fix(areas[j]).0)
  }

  function RoundFault(areas: seq<Area>, j: nat, fix: Fixer): Option<Rejection>
    requires j < |areas|
  {
    if fix(areas[j]).1.Some? then fix(areas[j]).1 else Some(Duplicate)
  }

  lemma LastRound(areas: seq<Area>, n: nat, fix: Fixer)
    requires n < |areas| && Pass(areas, n, fix).1.None?
    ensures Pass(areas, n + 1, fix).1 == if RoundPasses(areas, n, fix) then None else RoundFault(areas, n, fix)
  {
    PassFixes(areas, n, fix);
    var before := Pass(areas, n, fix).0;
    var after := before[n := fix(areas[n]).0];
    assert before[n] == areas[n];
    assert forall i | 0 <= i < n :: after[i] == fix(areas[i]).0;
  }

  lemma {:induction false} PassAnswer(areas: seq<Area>, n: nat, fix: Fixer) returns (j: nat)
    requires n <= |areas|
    ensures var stopped := Pass(areas, n, fix).1;
            && (stopped.None? <==> j == n) && j <= n
            && (forall i | 0 <= i < j :: RoundPasses(areas, i, fix))
            && (j < n ==> !RoundPasses(areas, j, fix) && stopped == RoundFault(areas, j, fix))
  {
    if n == 0 {
      j := 0;
    } else {
      j := PassAnswer(areas, n - 1, fix);
      if j == n - 1 {
        LastRound(areas, n - 1, fix);
        if RoundPasses(areas, n - 1, fix) { j := n; }
      }
    }
  }

  /** No fault of its own, and another place than every earlier area. */
  ghost predicate Accepted(areas: seq<Area>, j: nat, base: real, baseCurrency: string)
    requires j < |areas|
  {
    FirstFault(areas[j], base, baseCurrency).None? && forall i | 0 <= i < j :: !Clash(areas[i], areas[j])
  }

  lemma RoundIs(areas: seq<Area>, j: nat, base: real, baseCurrency: string)
    requires j < |areas| && forall i | 0 <= i < j :: FirstFault(areas[i], base, baseCurrency).None?
    ensures var fix := FixFor(base, baseCurrency);
            && (RoundPasses(areas, j, fix) <==> Accepted(areas, j, base, baseCurrency))
            && fix(areas[j]).1 == FirstFault(areas[j], base, baseCurrency)
  {
    var fix := FixFor(base, baseCurrency);
    AreaAnswer(areas[j], base, baseCurrency);
    if FirstFault(areas[j], base, baseCurrency).None? {
      forall i | 0 <= i < j
        ensures AreaKey(fix(areas[i]).0) == AreaKey(fix(areas[j]).0) <==> Clash(areas[i], areas[j])
      {
        AreaAnswer(areas[i], base, baseCurrency);
        KeysOfFixed(areas[i], areas[j], base, baseCurrency);
      }
    }
  }

  /** The first area that is not accepted decides what the list is refused for. */
  ghost predicate RefusedAt(areas: seq<Area>, j: nat, base: real, baseCurrency: string, why: Option<Rejection>) {
    && j < |areas| && (forall i | 0 <= i < j :: Accepted(areas, i, base, baseCurrency))
    && !Accepted(areas, j, base, baseCurrency)
    && why == if FirstFault(areas[j], base, baseCurrency).Some? then FirstFault(areas[j], base, baseCurrency)
              else Some(Duplicate)
  }

  /** A list of 1 to 20 areas is accepted when each of them is, and is otherwise refused for the first that is not. */
  lemma ListAnswer(areas: seq<Area>, base: real, baseCurrency: string)
    ensures var stopped := Normalise(areas, base, baseCurrency).1;
            && (stopped == Some(BadCount) <==> !(1 <= |areas| <= 20))
            && (1 <= |areas| <= 20 ==>
                  && (stopped.None? <==> forall j | 0 <= j < |areas| :: Accepted(areas, j, base, baseCurrency))
                  && (stopped.Some? ==> exists j :: RefusedAt(areas, j, base, baseCurrency, stopped)))
  {
    if 1 <= |areas| <= 20 {
      var fix := FixFor(base, baseCurrency);
      var j := PassAnswer(areas, |areas|, fix);
      AcceptedUpTo(areas, j, base, baseCurrency);
      if j < |areas| { RefusalIs(areas, j, base, baseCurrency); }
    }
  }

  /** A missing list in the home market is the base price delivered everywhere in Nigeria, linked to it. */
  lemma MissingListAnswer(base: real)
    ensures var (r, stopped) := Normalise([DefaultArea(base)], base, "NGN");
            && (stopped.None? <==> base > 0.0)
            && (stopped.None? ==>
                  r == [Area("NG", "", "", base, RoundMoney(base), 0.0, "NGN", Some(true), false)])
  {
    var areas := [DefaultArea(base)];
    CapitalsAreTidy("NG", 2);
    CapitalsAreTidy("NGN", 3);
    ListAnswer(areas, base, "NGN");
    AreaAnswer(areas[0], base, "NGN");
    assert Accepted(areas, 0, base, "NGN") <==> base > 0.0;
    if Normalise(areas, base, "NGN").1.None? { PassFixes(areas, 1, FixFor(base, "NGN")); }
  }

  lemma RefusalIs(areas: seq<Area>, j: nat, base: real, baseCurrency: string)
    requires j < |areas| && forall i | 0 <= i < j :: Accepted(areas, i, base, baseCurrency)
    requires !RoundPasses(areas, j, FixFor(base, baseCurrency))
    ensures RefusedAt(areas, j, base, baseCurrency, RoundFault(areas, j, FixFor(base, baseCurrency)))
    ensures RoundFault(areas, j, FixFor(base, baseCurrency)) != Some(BadCount)
  {
    forall i | 0 <= i < j ensures FirstFault(areas[i], base, baseCurrency).None? {
      assert Accepted(areas, i, base, baseCurrency);
    }
    RoundIs(areas, j, base, baseCurrency);
  }

  lemma {:induction false} AcceptedUpTo(areas: seq<Area>, n: nat, base: real, baseCurrency: string)
    requires n <= |areas| && forall i | 0 <= i < n :: RoundPasses(areas, i, FixFor(base, baseCurrency))
    ensures forall i | 0 <= i < n :: Accepted(areas, i, base, baseCurrency)
  {
    if n > 0 {
      AcceptedUpTo(areas, n - 1, base, baseCurrency);
      forall i | 0 <= i < n - 1 ensures FirstFault(areas[i], base, baseCurrency).None? {
        assert Accepted(areas, i, base, baseCurrency);
      }
      RoundIs(areas, n - 1, base, baseCurrency);
    }
  }
}
