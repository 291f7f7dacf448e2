/**
  Checkout totals over exact reals: rounding to cents, the quote loop, the
  marketplace fee and what the seller nets at settlement.
 */
module Money {
  import opened Basics

  /** Go's conversion of a float to int drops the fraction towards zero. */
  function Truncate(x: real): int {
    if x >= 0.0 then x.Floor else -((-x).Floor)
  }

  function RoundMoney(value: real): real {
    Truncate(value * 100.0 + 0.5) as real / 100.0
  }

  function Cents(n: int): real { n as real / 100.0 }

  ghost predicate IsCents(v: real) { exists n: int :: v == Cents(n) }

  ghost predicate WholeCents(v: real) { v >= 0.0 && IsCents(v) }

  const FEE_RATE := 0.01

  // ----- rounding -----

  lemma FloorOf(x: real, n: int)
    requires n as real <= x < n as real + 1.0
    ensures x.Floor == n
  {}

  lemma CentsAreFixed(n: nat)
    ensures RoundMoney(Cents(n)) == Cents(n)
  {
    assert Cents(n) * 100.0 == n as real;
    FloorOf(n as real + 0.5, n);
  }

  lemma RoundedIsCents(v: real)
    requires v >= 0.0
    ensures WholeCents(RoundMoney(v))
  {
    var n := (v * 100.0 + 0.5).Floor;
    assert n >= 0;
    assert RoundMoney(v) == Cents(n);
  }

  /** Rounding is monotone, idempotent and moves an amount by at most half a cent. */
  lemma RoundMoneyLaws(v: real, w: real)
    requires 0.0 <= v <= w
    ensures RoundMoney(v) <= RoundMoney(w)
    ensures RoundMoney(RoundMoney(v)) == RoundMoney(v)
    ensures -0.005 <= RoundMoney(v) - v <= 0.005
  {
    var n, m := (v * 100.0 + 0.5).Floor, (w * 100.0 + 0.5).Floor;
    assert n as real <= v * 100.0 + 0.5 < n as real + 1.0;
    assert m as real <= w * 100.0 + 0.5 < m as real + 1.0;
    assert n <= m;
    assert 0 <= n;
    CentsAreFixed(n);
  }

  /** A whole number of cents survives rounding exactly when it is not negative. */
  lemma WholeCentsSurviveIffNonNegative(n: int)
    ensures RoundMoney(Cents(n)) == Cents(n) <==> n >= 0
  {
    if n >= 0 {
      CentsAreFixed(n);
    } else {
      assert Cents(n) * 100.0 == n as real;
      FloorOf(-(n as real + 0.5), -n - 1);
      assert RoundMoney(Cents(n)) == Cents(n + 1);
    }
  }

  lemma RoundSum(a: real, b: real)
    requires WholeCents(a) && WholeCents(b)
    ensures WholeCents(a + b) && RoundMoney(a + b) == a + b
  {
    var n: int :| a == Cents(n);
    var m: int :| b == Cents(m);
    assert a + b == Cents(n + m);
    CentsAreFixed(n + m);
  }

  lemma RoundDifference(a: real, b: real)
    requires WholeCents(a) && WholeCents(b) && b <= a
    ensures WholeCents(a - b) && RoundMoney(a - b) == a - b
  {
    var n: int :| a == Cents(n);
    var m: int :| b == Cents(m);
    assert a - b == Cents(n - m);
    CentsAreFixed(n - m);
  }

  // ----- the quote -----

  type Provider = int
  datatype Mode = MerchantLocal | MerchantCrossBorder

  /** A priced catalogue row: the delivered price includes the delivery fee. */
  datatype Offer = Offer(unitPrice: real, deliveryFee: real, mode: Mode, provider: Provider, maxDays: int)
  datatype Line = Line(quantity: int, offer: Option<Offer>)

  datatype QuoteError = BadQuantity | ProductUnavailable | MixedSellers | NoSeller
  datatype Totals = Totals(items: real, delivery: real, fee: real, grand: real, deliveryDays: int)

  /** Offers carry amounts the catalogue accepts: a fee from zero up to the price. */
  predicate Sane(lines: seq<Line>) {
    forall k | 0 <= k < |lines| && lines[k].offer.Some? ::
      0.0 <= lines[k].offer.value.deliveryFee <= lines[k].offer.value.unitPrice
  }

  predicate AllPriced(lines: seq<Line>) {
    forall k | 0 <= k < |lines| :: lines[k].quantity > 0 && lines[k].offer.Some?
  }

  /** What is wrong with a line of a basket whose first line is `first`. */
  function Fault(first: Line, l: Line): Option<QuoteError> {
    if l.quantity <= 0 then Some(BadQuantity)
    else if l.offer.None? then Some(ProductUnavailable)
    else if first.offer.Some?
            && (l.offer.value.mode != first.offer.value.mode || l.offer.value.provider != first.offer.value.provider)
    then Some(MixedSellers)
    else None
  }

  predicate CleanBefore(lines: seq<Line>, i: nat)
    requires i <= |lines|
  {
    forall k | 0 <= k < i :: Fault(lines[0], lines[k]).None?
  }

  /** The fulfilment window: the longest one offered, or the route's default. */
  predicate WindowOf(lines: seq<Line>, days: int)
    requires lines != [] && AllPriced(lines)
  {
    && (forall k | 0 <= k < |lines| :: lines[k].offer.value.maxDays <= days)
    && ((exists k | 0 <= k < |lines| :: lines[k].offer.value.maxDays == days > 0)
        || ((forall k | 0 <= k < |lines| :: lines[k].offer.value.maxDays <= 0)
            && days == if lines[0].offer.value.mode == MerchantLocal then 3 else 21))
  }

  function ItemsSum(lines: seq<Line>): real
    requires AllPriced(lines)
  {
    if lines == [] then 0.0
    else
      var last := lines[|lines| - 1];
      ItemsSum(lines[..|lines| - 1])
      + (last.offer.value.unitPrice - last.offer.value.deliveryFee) * last.quantity as real
  }

  function DeliverySum(lines: seq<Line>): real
    requires AllPriced(lines)
  {
    if lines == [] then 0.0
    else
      var last := lines[|lines| - 1];
      DeliverySum(lines[..|lines| - 1]) + last.offer.value.deliveryFee * last.quantity as real
  }

  function Fee(items: real, delivery: real): real { RoundMoney((items + delivery) * FEE_RATE) }

  /** Totals from the two running sums, with `redeemed` points taken off the fee. */
  function TotalsOf(itemsSum: real, deliverySum: real, redeemed: int, days: int): Totals {
    var items, delivery := RoundMoney(itemsSum), RoundMoney(deliverySum);
    var fee := RoundMoney(Fee(items, delivery) - redeemed as real);
    Totals(items, delivery, fee, RoundMoney(items + delivery + fee), days)
  }

  function XpDiscount(points: int, fee: real, currency: string): int {
    if currency != "NGN" || points <= 0 || fee < 1.0 then 0
    else
      var cap := RoundMoney(fee).Floor;
      if points < cap then points else cap
  }

  /** What the ledger credits to the seller of a paid order. */
  function SellerNet(total: real, platformFee: real): real { RoundMoney(total - platformFee) }

  lemma {:induction false} SumsAreNonNegative(lines: seq<Line>)
    requires AllPriced(lines) && Sane(lines)
    ensures ItemsSum(lines) >= 0.0 && DeliverySum(lines) >= 0.0
  {
    if lines != [] {
      var last := lines[|lines| - 1];
      SumsAreNonNegative(lines[..|lines| - 1]);
      Product(last.offer.value.unitPrice - last.offer.value.deliveryFee, last.quantity as real);
      Product(last.offer.value.deliveryFee, last.quantity as real);
    }
  }

  lemma Product(a: real, b: real)
    requires a >= 0.0 && b >= 0.0
    ensures a * b >= 0.0
  {}

  /** The discount never exceeds the rounded fee and never goes below zero. */
  lemma DiscountIsCapped(points: int, fee: real, currency: string)
    requires fee >= 0.0
    ensures 0 <= XpDiscount(points, fee, currency)
    ensures XpDiscount(points, fee, currency) as real <= RoundMoney(fee)
  {}

  /**
    For every discount up to the fee, the grand total is exactly items plus
    delivery plus the charged fee, and settlement credits the seller with
    exactly items plus delivery.
   */
  lemma SellerNetsItemsAndDelivery(itemsSum: real, deliverySum: real, redeemed: nat, days: int)
    requires itemsSum >= 0.0 && deliverySum >= 0.0
    requires redeemed as real <= Fee(RoundMoney(itemsSum), RoundMoney(deliverySum))
    ensures var t := TotalsOf(itemsSum, deliverySum, redeemed, days);
            && t.grand == t.items + t.delivery + t.fee
            && t.fee == Fee(t.items, t.delivery) - redeemed as real
            && SellerNet(t.grand, t.fee) == t.items + t.delivery
  {
    var t := TotalsOf(itemsSum, deliverySum, redeemed, days);
    RoundedIsCents(itemsSum);
    RoundedIsCents(deliverySum);
    RoundSum(t.items, t.delivery);
    Product(t.items + t.delivery, FEE_RATE);
    RoundedIsCents((t.items + t.delivery) * FEE_RATE);
    assert WholeCents(redeemed as real) by { assert redeemed as real == Cents(100 * redeemed); }
    RoundDifference(Fee(t.items, t.delivery), redeemed as real);
    RoundSum(t.items + t.delivery, t.fee);
  }

  /** Without a discount the buyer pays one percent on top, to within half a cent. */
  lemma UndiscountedFee(itemsSum: real, deliverySum: real, days: int)
    requires itemsSum >= 0.0 && deliverySum >= 0.0
    ensures var t := TotalsOf(itemsSum, deliverySum, 0, days);
            && -0.005 <= t.fee - (t.items + t.delivery) * 0.01 <= 0.005
            && -0.005 <= t.items - itemsSum <= 0.005 && -0.005 <= t.delivery - deliverySum <= 0.005
  {
    var t := TotalsOf(itemsSum, deliverySum, 0, days);
    RoundMoneyLaws(itemsSum, itemsSum);
    RoundMoneyLaws(deliverySum, deliverySum);
    RoundedIsCents(itemsSum);
    RoundedIsCents(deliverySum);
    Product(t.items + t.delivery, FEE_RATE);
    RoundMoneyLaws((t.items + t.delivery) * FEE_RATE, (t.items + t.delivery) * FEE_RATE);
  }

  /** Every basket of sane offers: exact grand total, one-percent fee, exact seller net. */
  lemma BasketTotals(lines: seq<Line>, days: int)
    requires AllPriced(lines) && Sane(lines)
    ensures var t := TotalsOf(ItemsSum(lines), DeliverySum(lines), 0, days);
            && t.grand == t.items + t.delivery + t.fee
            && -0.005 <= t.fee - (t.items + t.delivery) * 0.01 <= 0.005
            && SellerNet(t.grand, t.fee) == t.items + t.delivery
  {
    SumsAreNonNegative(lines);
    RoundMoneyLaws(ItemsSum(lines), ItemsSum(lines));
    RoundMoneyLaws(0.0, ItemsSum(lines));
    RoundMoneyLaws(0.0, DeliverySum(lines));
    Product(RoundMoney(ItemsSum(lines)) + RoundMoney(DeliverySum(lines)), FEE_RATE);
    RoundMoneyLaws(0.0, (RoundMoney(ItemsSum(lines)) + RoundMoney(DeliverySum(lines))) * FEE_RATE);
    CentsAreFixed(0);
    SellerNetsItemsAndDelivery(ItemsSum(lines), DeliverySum(lines), 0, days);
    UndiscountedFee(ItemsSum(lines), DeliverySum(lines), days);
  }

  // ----- the checkout loop -----

  /**
    Prices a basket line by line; XP redemption is retired, so nothing is taken
    off the fee. The first faulty line decides the error.
   */
  method QuoteCheckout(lines: seq<Line>) returns (quote: Result<Totals, QuoteError>)
    ensures quote.Ok? <==> lines != [] && CleanBefore(lines, |lines|)
    ensures quote.Ok? ==>
      && AllPriced(lines)
      && quote.value == TotalsOf(ItemsSum(lines), DeliverySum(lines), 0, quote.value.deliveryDays)
      && WindowOf(lines, quote.value.deliveryDays)
    ensures quote.Err? ==>
      if lines == [] then quote.error == NoSeller
      else exists i | 0 <= i < |lines| :: CleanBefore(lines, i) && Fault(lines[0], lines[i]) == Some(quote.error)
  {
    var itemsTotal, deliveryTotal := 0.0, 0.0;
    var seller: Option<(Mode, Provider)> := None;
    var days := 0;
    for i := 0 to |lines|
      invariant CleanBefore(lines, i)
      invariant i == 0 ==> seller.None?
      invariant i > 0 ==> seller == Some((lines[0].offer.value.mode, lines[0].offer.value.provider))
      invariant days >= 0 && forall k | 0 <= k < i :: lines[k].offer.value.maxDays <= days
      invariant days > 0 ==> exists k | 0 <= k < i :: lines[k].offer.value.maxDays == days
      invariant AllPriced(lines[..i])
      invariant itemsTotal == ItemsSum(lines[..i]) && deliveryTotal == DeliverySum(lines[..i])
    {
      var line := lines[i];
      if line.quantity <= 0 { return Err(BadQuantity); }
      if line.offer.None? { return Err(ProductUnavailable); }
      var o := line.offer.value;
      if seller.None? {
        seller := Some((o.mode, o.provider));
      } else if seller.value != (o.mode, o.provider) {
        return Err(MixedSellers);
      }
      if o.maxDays > days { days := o.maxDays; }
      assert lines[..i + 1][..i] == lines[..i];
      itemsTotal := itemsTotal + (o.unitPrice - o.deliveryFee) * line.quantity as real;
      deliveryTotal := deliveryTotal + o.deliveryFee * line.quantity as real;
    }
    assert lines[..|lines|] == lines;
    if seller.None? { return Err(NoSeller); }
    itemsTotal, deliveryTotal := RoundMoney(itemsTotal), RoundMoney(deliveryTotal);
    var platformFee := RoundMoney((itemsTotal + deliveryTotal) * FEE_RATE);
    var redeemed := 0;
    platformFee := RoundMoney(platformFee - redeemed as real);
    var grandTotal := RoundMoney(itemsTotal + deliveryTotal + platformFee);
    if days <= 0 { days := if seller.value.0 == MerchantLocal then 3 else 21; }
    quote := Ok(Totals(itemsTotal, deliveryTotal, platformFee, grandTotal, days));
  }

  // ----- what the quote is made of -----

  /** What the first `n` lines cost as priced, with their delivery. */
  ghost function Priced(lines: seq<Line>, n: nat): real
    requires n <= |lines| && AllPriced(lines)
  {
    if n == 0 then 0.0 else Priced(lines, n - 1) + lines[n - 1].offer.value.unitPrice * lines[n - 1].quantity as real
  }

  /** The delivery part of it. */
  ghost function Delivered(lines: seq<Line>, n: nat): real
    requires n <= |lines| && AllPriced(lines)
  {
    if n == 0 then 0.0
    else Delivered(lines, n - 1) + lines[n - 1].offer.value.deliveryFee * lines[n - 1].quantity as real
  }

  lemma {:induction false} SumsOfPrefix(lines: seq<Line>, n: nat)
    requires n <= |lines| && AllPriced(lines)
    ensures DeliverySum(lines[..n]) == Delivered(lines, n)
    ensures ItemsSum(lines[..n]) + DeliverySum(lines[..n]) == Priced(lines, n)
  {
    if n > 0 {
      SumsOfPrefix(lines, n - 1);
      assert lines[..n][..n - 1] == lines[..n - 1];
      var o, q := lines[n - 1].offer.value, lines[n - 1].quantity as real;
      assert (o.unitPrice - o.deliveryFee) * q + o.deliveryFee * q == o.unitPrice * q;
    }
  }

  /**
    Items and delivery together are the unit prices times the quantities; delivery
    is its fees times the quantities.
   */
  lemma SumsArePriced(lines: seq<Line>)
    requires AllPriced(lines)
    ensures DeliverySum(lines) == Delivered(lines, |lines|)
    ensures ItemsSum(lines) + DeliverySum(lines) == Priced(lines, |lines|)
  {
    SumsOfPrefix(lines, |lines|);
    assert lines[..|lines|] == lines;
  }

  /** A line is at fault for a quantity below one, else for a missing product, else for another seller or route. */
  lemma FaultIff(first: Line, l: Line)
    ensures Fault(first, l) == Some(BadQuantity) <==> l.quantity < 1
    ensures Fault(first, l) == Some(ProductUnavailable) <==> l.quantity >= 1 && l.offer == None
    ensures Fault(first, l) == Some(MixedSellers) <==>
              l.quantity >= 1 && l.offer.Some? && first.offer.Some?
              && !(l.offer.value.mode == first.offer.value.mode && l.offer.value.provider == first.offer.value.provider)
    ensures Fault(first, l) != Some(NoSeller)
  {}

  /** The quote exists exactly for a basket of priced lines of one seller on one route. */
  lemma CleanIff(lines: seq<Line>)
    requires lines != []
    ensures CleanBefore(lines, |lines|) <==>
              AllPriced(lines) && forall k | 0 <= k < |lines| ::
                lines[k].offer.value.mode == lines[0].offer.value.mode
                && lines[k].offer.value.provider == lines[0].offer.value.provider
  {
    if CleanBefore(lines, |lines|) {
      forall k | 0 <= k < |lines| ensures Fault(lines[0], lines[k]).None? && Fault(lines[0], lines[0]).None? {}
    }
  }

  /** The longest window among the first `n` lines, at least zero. */
  ghost function Longest(lines: seq<Line>, n: nat): int
    requires n <= |lines| && AllPriced(lines)
  {
    if n == 0 then 0
    else
      var days, before := lines[n - 1].offer.value.maxDays, Longest(lines, n - 1);
      if days > before then days else before
  }

  lemma {:induction false} LongestIs(lines: seq<Line>, n: nat)
    requires n <= |lines| && AllPriced(lines)
    ensures Longest(lines, n) >= 0 && forall k | 0 <= k < n :: lines[k].offer.value.maxDays <= Longest(lines, n)
    ensures Longest(lines, n) > 0 ==> exists k | 0 <= k < n :: lines[k].offer.value.maxDays == Longest(lines, n)
  {
    if n > 0 { LongestIs(lines, n - 1); }
  }

  /**
    The promised window is the longest one of the lines; where none is given, 3
    days locally and 21 across the border.
   */
  lemma WindowIff(lines: seq<Line>, days: int)
    requires lines != [] && AllPriced(lines)
    ensures WindowOf(lines, days) <==>
              days == (if Longest(lines, |lines|) > 0 then Longest(lines, |lines|)
                       else if lines[0].offer.value.mode == MerchantLocal then 3 else 21)
  {
    LongestIs(lines, |lines|);
    if Longest(lines, |lines|) == 0 {
      assert forall k | 0 <= k < |lines| :: lines[k].offer.value.maxDays <= 0;
      assert lines[0].offer.value.maxDays <= 0;
    }
  }

  /** Points pay whole naira of a naira fee of at least one: as many as there are, up to the rounded fee. */
  lemma DiscountIff(points: int, fee: real, currency: string)
    ensures var d := XpDiscount(points, fee, currency);
            if currency == "NGN" && points >= 1 && fee >= 1.0 then
              && d <= points && d as real <= RoundMoney(fee)
              && (d == points || (d + 1) as real > RoundMoney(fee))
            else d == 0
  {}
}
