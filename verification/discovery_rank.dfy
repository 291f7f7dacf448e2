/**
  Discovery rails: a stable sort by relevance and rotation, then a greedy pass
  that takes one card per business, and the rails of one feed.
 */
module DiscoveryRank {
  import opened Discovery
  import Sorting

  datatype Item = Item(kind: Kind, id: string, provider: string, score: int, tier: string, priority: nat, paid: bool,
                       promote: bool)
  datatype Card = Card(item: Item, placement: Placement, labelled: bool)

  datatype ListingKey = ListingKey(kind: Kind, id: string)

  function Key(i: Item): ListingKey { ListingKey(i.kind, i.id) }

  /** The text that stands for a listing in the seen maps. */
  function ListingText(k: ListingKey): string { KindText(k.kind) + k.id }

  /** The key text tells listings apart. */
  lemma ListingTextIsInjective(a: ListingKey, b: ListingKey)
    ensures ListingText(a) == ListingText(b) <==> a == b
  {
    if ListingText(a) == ListingText(b) {
      assert ListingText(a)[..7] == KindText(a.kind) && ListingText(b)[..7] == KindText(b.kind);
      assert ListingText(a)[7..] == a.id && ListingText(b)[7..] == b.id;
      assert "product"[0] != "service"[0];
    }
  }

  predicate Distinct(items: seq<Item>) {
    forall i, j | 0 <= i < j < |items| :: Key(items[i]) != Key(items[j])
  }

  predicate Eligible(i: Item, placement: Placement) { placement == Promoted ==> i.paid && i.promote }

  function MakeCard(i: Item, placement: Placement): Card { Card(i, placement, placement == Promoted) }

  // ----- the order -----

  predicate Less(a: Item, b: Item, rotate: Item -> real) {
    if a.score != b.score then a.score > b.score else rotate(a) < rotate(b)
  }

  /** `a` may stand before `b`. */
  function NotAfter(rotate: Item -> real): (Item, Item) -> bool { (a, b) => !Less(b, a, rotate) }

  lemma NotAfterIsTotal(rotate: Item -> real)
    ensures Sorting.TotalPreorder(NotAfter(rotate))
  {}

  function Ranked(items: seq<Item>, rotate: Item -> real): seq<Item> { Sorting.StableSort(items, NotAfter(rotate)) }

  // ----- the greedy pass -----

  predicate Within(picks: seq<nat>, n: nat) { forall a | 0 <= a < |picks| :: picks[a] < n }

  predicate Takes(sorted: seq<Item>, placement: Placement, picks: seq<nat>, j: nat)
    requires j < |sorted| && Within(picks, |sorted|)
  {
    && Eligible(sorted[j], placement)
    && forall a | 0 <= a < |picks| ::
         sorted[picks[a]].provider != sorted[j].provider && Key(sorted[picks[a]]) != Key(sorted[j])
  }

  /** The check after an append: the pass breaks when the count equals the limit. */
  predicate Full(picks: seq<nat>, limit: int) { picks != [] && |picks| == limit }

  /** Positions taken from the first `n` ranked items. */
  function Picks(sorted: seq<Item>, placement: Placement, limit: int, n: nat): (picks: seq<nat>)
    requires n <= |sorted|
    ensures Within(picks, n)
  {
    if n == 0 then []
    else
      var before := Picks(sorted, placement, limit, n - 1);
      if !Full(before, limit) && Takes(sorted, placement, before, n - 1) then before + [n - 1] else before
  }

  function CardsAt(sorted: seq<Item>, placement: Placement, picks: seq<nat>): (cards: seq<Card>)
    requires Within(picks, |sorted|)
  {
    seq(|picks|, i requires 0 <= i < |picks| => MakeCard(sorted[picks[i]], placement))
  }

  function Rank(items: seq<Item>, placement: Placement, rotate: Item -> real, limit: int): seq<Card> {
    var sorted := Ranked(items, rotate);
    CardsAt(sorted, placement, Picks(sorted, placement, limit, |sorted|))
  }

  /** Picks go up and no business is picked twice. */
  ghost predicate OnePerProvider(sorted: seq<Item>, placement: Placement, picks: seq<nat>)
    requires Within(picks, |sorted|)
  {
    && (forall a, b | 0 <= a < b < |picks| :: picks[a] < picks[b])
    && (forall a, b | 0 <= a < b < |picks| :: sorted[picks[a]].provider != sorted[picks[b]].provider)
    && (forall a | 0 <= a < |picks| :: Eligible(sorted[picks[a]], placement))
  }

  /** The business of item `j` was picked at or before `j`. */
  ghost predicate PickedBy(sorted: seq<Item>, picks: seq<nat>, j: nat)
    requires Within(picks, |sorted|) && j < |sorted|
  {
    exists a | 0 <= a < |picks| :: picks[a] <= j && sorted[picks[a]].provider == sorted[j].provider
  }

  ghost predicate Covered(sorted: seq<Item>, placement: Placement, picks: seq<nat>, n: nat)
    requires Within(picks, |sorted|) && n <= |sorted|
  {
    forall j {:trigger PickedBy(sorted, picks, j)} | 0 <= j < n && Eligible(sorted[j], placement) ::
      PickedBy(sorted, picks, j)
  }

  lemma AppendKeepsOnePer(sorted: seq<Item>, placement: Placement, picks: seq<nat>, j: nat)
    requires Within(picks, j) && j < |sorted| && OnePerProvider(sorted, placement, picks)
    requires Takes(sorted, placement, picks, j)
    ensures OnePerProvider(sorted, placement, picks + [j])
  {}

  lemma {:induction false} PicksOnePerProvider(sorted: seq<Item>, placement: Placement, limit: int, n: nat)
    requires n <= |sorted|
    ensures OnePerProvider(sorted, placement, Picks(sorted, placement, limit, n))
  {
    if n > 0 {
      var before := Picks(sorted, placement, limit, n - 1);
      PicksOnePerProvider(sorted, placement, limit, n - 1);
      if !Full(before, limit) && Takes(sorted, placement, before, n - 1) {
        AppendKeepsOnePer(sorted, placement, before, n - 1);
        assert Picks(sorted, placement, limit, n) == before + [n - 1];
      } else {
        assert Picks(sorted, placement, limit, n) == before;
      }
    }
  }

  lemma {:induction false} PicksWithinLimit(sorted: seq<Item>, placement: Placement, limit: int, n: nat)
    requires n <= |sorted| && limit >= 1
    ensures |Picks(sorted, placement, limit, n)| <= limit
  {
    if n > 0 { PicksWithinLimit(sorted, placement, limit, n - 1); }
  }

  lemma PickedStays(sorted: seq<Item>, picks: seq<nat>, k: nat, j: nat)
    requires Within(picks, |sorted|) && k < |sorted| && j < |sorted| && PickedBy(sorted, picks, j)
    ensures PickedBy(sorted, picks + [k], j)
  {
    var a :| 0 <= a < |picks| && picks[a] <= j && sorted[picks[a]].provider == sorted[j].provider;
    assert (picks + [k])[a] == picks[a];
  }

  lemma CoverTaken(sorted: seq<Item>, placement: Placement, picks: seq<nat>, j: nat)
    requires j < |sorted| && Within(picks, j) && Covered(sorted, placement, picks, j)
    ensures Covered(sorted, placement, picks + [j], j + 1)
  {
    forall k | 0 <= k <= j && Eligible(sorted[k], placement) ensures PickedBy(sorted, picks + [j], k) {
      if k < j { PickedStays(sorted, picks, j, k); } else { assert (picks + [j])[|picks|] == j; }
    }
  }

  lemma CoverSkipped(sorted: seq<Item>, placement: Placement, picks: seq<nat>, j: nat)
    requires j < |sorted| && Distinct(sorted) && Within(picks, j) && Covered(sorted, placement, picks, j)
    requires !Takes(sorted, placement, picks, j)
    ensures Covered(sorted, placement, picks, j + 1)
  {}

  /** How far the picks account for every eligible item. */
  function Bound(picks: seq<nat>, limit: int, n: nat): nat {
    if Full(picks, limit) then picks[|picks| - 1] + 1 else n
  }

  lemma FreshBound(before: seq<nat>, picks: seq<nat>, limit: int, n: nat)
    requires n > 0 && (picks == before + [n - 1] || (picks == before && !Full(before, limit)))
    ensures Bound(picks, limit, n) == n
  {}

  lemma CoverStays(sorted: seq<Item>, placement: Placement, limit: int, n: nat, before: seq<nat>)
    requires 0 < n <= |sorted| && Full(before, limit) && before == Picks(sorted, placement, limit, n - 1)
    requires Covered(sorted, placement, before, Bound(before, limit, n - 1))
    ensures Picks(sorted, placement, limit, n) == before
    ensures Covered(sorted, placement, before, Bound(before, limit, n))
  {
    assert Bound(before, limit, n) == Bound(before, limit, n - 1);
  }

  /** Everything up to the last pick is covered, and everything seen unless the pass broke off. */
  lemma {:induction false} PicksCover(sorted: seq<Item>, placement: Placement, limit: int, n: nat, picks: seq<nat>)
    requires n <= |sorted| && Distinct(sorted) && picks == Picks(sorted, placement, limit, n)
    ensures Covered(sorted, placement, picks, Bound(picks, limit, n))
  {
    if n == 0 {
      assert picks == [] && !Full(picks, limit);
    } else {
      var before := Picks(sorted, placement, limit, n - 1);
      PicksCover(sorted, placement, limit, n - 1, before);
      if Full(before, limit) {
        CoverStays(sorted, placement, limit, n, before);
      } else {
        FreshBound(before, picks, limit, n);
        if Takes(sorted, placement, before, n - 1) {
          CoverTaken(sorted, placement, before, n - 1);
        } else {
          CoverSkipped(sorted, placement, before, n - 1);
        }
      }
    }
  }

  // ----- what a rail shows -----

  ghost predicate Shown(cards: seq<Card>, provider: string) {
    exists i | 0 <= i < |cards| :: cards[i].item.provider == provider
  }

  /** Positions of the cards of a rail in the ranked candidates. */
  lemma RankAt(items: seq<Item>, placement: Placement, rotate: Item -> real, limit: int)
    requires Distinct(items)
    ensures var sorted := Ranked(items, rotate);
            var picks := Picks(sorted, placement, limit, |sorted|);
            && Distinct(sorted) && Sorting.Ordered(sorted, NotAfter(rotate))
            && (forall x :: x in sorted <==> x in items)
            && OnePerProvider(sorted, placement, picks)
            && Covered(sorted, placement, picks, Bound(picks, limit, |sorted|))
  {
    var sorted := Ranked(items, rotate);
    NotAfterIsTotal(rotate);
    Sorting.SortOrders(items, NotAfter(rotate));
    Sorting.SortKeepsMembers(items, NotAfter(rotate));
    Sorting.SortKeepsElements(items, NotAfter(rotate));
    DistinctByMultiset(items, sorted);
    PicksOnePerProvider(sorted, placement, limit, |sorted|);
    PicksCover(sorted, placement, limit, |sorted|, Picks(sorted, placement, limit, |sorted|));
  }

  lemma DistinctByMultiset(items: seq<Item>, sorted: seq<Item>)
    requires Distinct(items) && multiset(sorted) == multiset(items)
    ensures Distinct(sorted)
  {
    forall i, j | 0 <= i < j < |sorted| ensures Key(sorted[i]) != Key(sorted[j]) {
      assert sorted[i] in multiset(items) && sorted[j] in multiset(items) by {
        assert sorted[i] in multiset(sorted) && sorted[j] in multiset(sorted);
      }
      var a :| 0 <= a < |items| && items[a] == sorted[i];
      var b :| 0 <= b < |items| && items[b] == sorted[j];
      if sorted[i] == sorted[j] {
        TwiceCounts(sorted, i, j);
        OnceCounts(items, sorted[i]);
      }
    }
  }

  lemma TwiceCounts(s: seq<Item>, i: nat, j: nat)
    requires i < j < |s| && s[i] == s[j]
    ensures multiset(s)[s[i]] >= 2
  {
    assert s == s[..i] + [s[i]] + s[i + 1..j] + [s[j]] + s[j + 1..];
  }

  lemma {:induction false} OnceCounts(s: seq<Item>, x: Item)
    requires Distinct(s)
    ensures multiset(s)[x] <= 1
  {
    if s != [] {
      assert s == [s[0]] + s[1..];
      assert Distinct(s[1..]) by { assert forall k | 0 <= k < |s[1..]| :: s[1..][k] == s[k + 1]; }
      OnceCounts(s[1..], x);
      if x == s[0] {
        assert x !in s[1..] by {
          forall k | 0 <= k < |s[1..]| ensures s[1..][k] != x {
            assert s[1..][k] == s[k + 1] && Key(s[0]) != Key(s[k + 1]);
          }
        }
      }
    }
  }

  /**
    A rail has at most `limit` cards in ranked order, one per business; an
    eligible business it does not show never outranks a card of a full rail, and
    a rail that is not full shows every eligible business.
   */
  lemma RailIsFair(items: seq<Item>, placement: Placement, rotate: Item -> real, limit: int)
    requires Distinct(items) && limit >= 1
    ensures var cards := Rank(items, placement, rotate, limit);
            && |cards| <= limit
            && (forall i | 0 <= i < |cards| :: cards[i].item in items && cards[i] == MakeCard(cards[i].item, placement)
                  && Eligible(cards[i].item, placement))
            && (forall i, j | 0 <= i < j < |cards| :: cards[i].item.score >= cards[j].item.score
                  && !Less(cards[j].item, cards[i].item, rotate) && cards[i].item.provider != cards[j].item.provider)
    ensures var cards := Rank(items, placement, rotate, limit);
            forall x <- items | Eligible(x, placement) && !Shown(cards, x.provider) ::
              |cards| == limit && forall i | 0 <= i < |cards| :: !Less(x, cards[i].item, rotate)
  {
    RankAt(items, placement, rotate, limit);
    var sorted := Ranked(items, rotate);
    var picks := Picks(sorted, placement, limit, |sorted|);
    var cards := Rank(items, placement, rotate, limit);
    PicksWithinLimit(sorted, placement, limit, |sorted|);
    forall i, j | 0 <= i < j < |cards| ensures !Less(cards[j].item, cards[i].item, rotate) {
      assert NotAfter(rotate)(sorted[picks[i]], sorted[picks[j]]);
    }
    forall x <- items | Eligible(x, placement) && !Shown(cards, x.provider)
      ensures |cards| == limit && forall i | 0 <= i < |cards| :: !Less(x, cards[i].item, rotate)
    {
      UnshownIsLate(items, placement, rotate, limit, x);
    }
  }

  lemma UnshownIsLate(items: seq<Item>, placement: Placement, rotate: Item -> real, limit: int, x: Item)
    requires Distinct(items) && x in items && Eligible(x, placement)
    requires !Shown(Rank(items, placement, rotate, limit), x.provider)
    ensures var cards := Rank(items, placement, rotate, limit);
            cards != [] && |cards| == limit && forall i | 0 <= i < |cards| :: !Less(x, cards[i].item, rotate)
  {
    RankAt(items, placement, rotate, limit);
    var sorted := Ranked(items, rotate);
    var picks := Picks(sorted, placement, limit, |sorted|);
    var cards := Rank(items, placement, rotate, limit);
    assert x in sorted;
    var j :| 0 <= j < |sorted| && sorted[j] == x;
    forall a | 0 <= a < |picks| ensures sorted[picks[a]].provider != x.provider {
      assert cards[a].item == sorted[picks[a]];
    }
    UnpickedIsLate(sorted, placement, picks, limit, j);
    forall i | 0 <= i < |cards| ensures !Less(x, cards[i].item, rotate) {
      OrderedAt(sorted, rotate, picks[i], j);
    }
  }

  lemma UnpickedIsLate(sorted: seq<Item>, placement: Placement, picks: seq<nat>, limit: int, j: nat)
    requires Within(picks, |sorted|) && OnePerProvider(sorted, placement, picks)
    requires Covered(sorted, placement, picks, Bound(picks, limit, |sorted|))
    requires j < |sorted| && Eligible(sorted[j], placement)
    requires forall a | 0 <= a < |picks| :: sorted[picks[a]].provider != sorted[j].provider
    ensures picks != [] && |picks| == limit && forall a | 0 <= a < |picks| :: picks[a] < j
  {
    assert !PickedBy(sorted, picks, j);
    assert Full(picks, limit) && picks[|picks| - 1] < j;
    forall a | 0 <= a < |picks| ensures picks[a] <= picks[|picks| - 1] {}
  }

  /** The card of a business is the first of its eligible items in ranked order, ties included. */
  lemma CardIsFirstOfItsProvider(items: seq<Item>, placement: Placement, rotate: Item -> real, limit: int, i: nat)
    requires Distinct(items) && i < |Rank(items, placement, rotate, limit)|
    ensures var sorted := Ranked(items, rotate);
            exists k: nat | k < |sorted| ::
              && sorted[k] == Rank(items, placement, rotate, limit)[i].item && Eligible(sorted[k], placement)
              && forall j | 0 <= j < k && Eligible(sorted[j], placement) :: sorted[j].provider != sorted[k].provider
  {
    RankAt(items, placement, rotate, limit);
    var sorted := Ranked(items, rotate);
    var picks := Picks(sorted, placement, limit, |sorted|);
    PickInBound(sorted, placement, picks, limit, i);
    forall j: nat | j < picks[i] && Eligible(sorted[j], placement)
      ensures sorted[j].provider != sorted[picks[i]].provider
    {
      if sorted[j].provider == sorted[picks[i]].provider {
        PickIsFirst(sorted, placement, picks, Bound(picks, limit, |sorted|), i, j);
      }
    }
    assert sorted[picks[i]] == Rank(items, placement, rotate, limit)[i].item;
  }

  lemma OrderedAt(sorted: seq<Item>, rotate: Item -> real, a: nat, b: nat)
    requires Sorting.Ordered(sorted, NotAfter(rotate)) && a <= b < |sorted|
    ensures !Less(sorted[b], sorted[a], rotate)
  {
    if a < b { assert NotAfter(rotate)(sorted[a], sorted[b]); }
  }

  lemma PickInBound(sorted: seq<Item>, placement: Placement, picks: seq<nat>, limit: int, i: nat)
    requires Within(picks, |sorted|) && OnePerProvider(sorted, placement, picks) && i < |picks|
    ensures picks[i] < Bound(picks, limit, |sorted|)
  {
    if i < |picks| - 1 { assert picks[i] < picks[|picks| - 1]; }
  }

  lemma PickIsFirst(sorted: seq<Item>, placement: Placement, picks: seq<nat>, bound: nat, i: nat, j: nat)
    requires Within(picks, |sorted|) && OnePerProvider(sorted, placement, picks)
    requires bound <= |sorted| && Covered(sorted, placement, picks, bound)
    requires i < |picks| && picks[i] < bound && j < |sorted|
    requires Eligible(sorted[j], placement) && sorted[j].provider == sorted[picks[i]].provider
    ensures picks[i] <= j
  {
    if j < bound {
      assert PickedBy(sorted, picks, j);
      var a :| 0 <= a < |picks| && picks[a] <= j && sorted[picks[a]].provider == sorted[j].provider;
      assert a == i;
    }
  }

  /** A limit below one is never reached: the rail then shows every eligible business. */
  lemma NoLimitShowsAll(items: seq<Item>, placement: Placement, rotate: Item -> real, limit: int, x: Item)
    requires Distinct(items) && limit < 1 && x in items && Eligible(x, placement)
    ensures Shown(Rank(items, placement, rotate, limit), x.provider)
  {
    if !Shown(Rank(items, placement, rotate, limit), x.provider) {
      UnshownIsLate(items, placement, rotate, limit, x);
      assert false;
    }
  }

  // ----- the loops -----

  ghost function ProvidersOf(sorted: seq<Item>, picks: seq<nat>): set<string>
    requires Within(picks, |sorted|)
  {
    set a | 0 <= a < |picks| :: sorted[picks[a]].provider
  }

  ghost function IdsOf(sorted: seq<Item>, picks: seq<nat>): set<string>
    requires Within(picks, |sorted|)
  {
    set a | 0 <= a < |picks| :: ListingText(Key(sorted[picks[a]]))
  }

  lemma AppendSeen(sorted: seq<Item>, picks: seq<nat>, n: nat)
    requires Within(picks, n) && n < |sorted|
    ensures ProvidersOf(sorted, picks + [n]) == ProvidersOf(sorted, picks) + {sorted[n].provider}
    ensures IdsOf(sorted, picks + [n]) == IdsOf(sorted, picks) + {ListingText(Key(sorted[n]))}
  {
    var after := picks + [n];
    assert after[|picks|] == n && forall a | 0 <= a < |picks| :: after[a] == picks[a];
  }

  /** The loop's maps and result describe exactly the items picked so far. */
  ghost predicate Tracks(sorted: seq<Item>, placement: Placement, picks: seq<nat>, providers: set<string>,
                         ids: set<string>, result: seq<Card>)
    requires Within(picks, |sorted|)
  {
    providers == ProvidersOf(sorted, picks) && ids == IdsOf(sorted, picks)
        && result == CardsAt(sorted, placement, picks)
  }

  lemma TracksDecides(sorted: seq<Item>, placement: Placement, picks: seq<nat>, n: nat, providers: set<string>,
                      ids: set<string>, result: seq<Card>)
    requires Within(picks, n) && n < |sorted| && Tracks(sorted, placement, picks, providers, ids, result)
    ensures Takes(sorted, placement, picks, n) <==> (
              && Eligible(sorted[n], placement) && sorted[n].provider !in providers
              && ListingText(Key(sorted[n])) !in ids)
  {
    forall a | 0 <= a < |picks|
      ensures Key(sorted[picks[a]]) == Key(sorted[n])
        <==> ListingText(Key(sorted[picks[a]])) == ListingText(Key(sorted[n]))
    {
      ListingTextIsInjective(Key(sorted[picks[a]]), Key(sorted[n]));
    }
  }

  lemma TracksNext(sorted: seq<Item>, placement: Placement, picks: seq<nat>, n: nat, providers: set<string>,
                   ids: set<string>, result: seq<Card>)
    requires Within(picks, n) && n < |sorted| && Tracks(sorted, placement, picks, providers, ids, result)
    ensures Tracks(sorted, placement, picks + [n], providers + {sorted[n].provider},
                   ids + {ListingText(Key(sorted[n]))},
                   result + [MakeCard(sorted[n], placement)])
  {
    AppendSeen(sorted, picks, n);
    assert CardsAt(sorted, placement, picks + [n])
        == CardsAt(sorted, placement, picks) + [MakeCard(sorted[n], placement)];
  }

  lemma {:induction false} StaysFull(sorted: seq<Item>, placement: Placement, limit: int, n: nat, later: nat)
    requires n <= later <= |sorted| && Full(Picks(sorted, placement, limit, n), limit)
    ensures Picks(sorted, placement, limit, later) == Picks(sorted, placement, limit, n)
    decreases later
  {
    if n < later { StaysFull(sorted, placement, limit, n, later - 1); }
  }

  /** The loop has passed the first `n` items and did not break. */
  ghost predicate Reached(sorted: seq<Item>, placement: Placement, limit: int, n: nat, providers: set<string>,
                          ids: set<string>, result: seq<Card>)
    requires n <= |sorted|
  {
    var picks := Picks(sorted, placement, limit, n);
    Tracks(sorted, placement, picks, providers, ids, result) && !Full(picks, limit)
  }

  /** What the loop makes of the next item. */
  lemma PassItem(sorted: seq<Item>, placement: Placement, limit: int, n: nat, providers: set<string>, ids: set<string>,
                 result: seq<Card>)
    requires n < |sorted| && Reached(sorted, placement, limit, n, providers, ids, result)
    ensures var x := sorted[n];
            if !Eligible(x, placement) || x.provider in providers || ListingText(Key(x)) in ids
            then Reached(sorted, placement, limit, n + 1, providers, ids, result)
            else
              var more := result + [MakeCard(x, placement)];
              if |more| == limit then more == CardsAt(sorted, placement, Picks(sorted, placement, limit, |sorted|))
              else Reached(sorted, placement, limit, n + 1, providers + {x.provider}, ids + {ListingText(Key(x))}, more)
  {
    var picks := Picks(sorted, placement, limit, n);
    TracksDecides(sorted, placement, picks, n, providers, ids, result);
    if Takes(sorted, placement, picks, n) { TakeItem(sorted, placement, limit, n, providers, ids, result); }
  }

  lemma TakeItem(sorted: seq<Item>, placement: Placement, limit: int, n: nat, providers: set<string>, ids: set<string>,
                 result: seq<Card>)
    requires n < |sorted| && Reached(sorted, placement, limit, n, providers, ids, result)
    requires Takes(sorted, placement, Picks(sorted, placement, limit, n), n)
    ensures var x := sorted[n];
            var more := result + [MakeCard(x, placement)];
            if |more| == limit then more == CardsAt(sorted, placement, Picks(sorted, placement, limit, |sorted|))
            else Reached(sorted, placement, limit, n + 1, providers + {x.provider}, ids + {ListingText(Key(x))}, more)
  {
    TracksNext(sorted, placement, Picks(sorted, placement, limit, n), n, providers, ids, result);
    if |result| + 1 == limit { StaysFull(sorted, placement, limit, n + 1, |sorted|); }
  }

  /** The greedy pass over the sorted copy, with its provider and listing maps. */
  method RankDiscovery(items: seq<Item>, placement: Placement, rotate: Item -> real, limit: int)
    returns (result: seq<Card>)
    ensures result == Rank(items, placement, rotate, limit)
  {
    var picked := Sorting.StableSort(items, NotAfter(rotate));
    result := [];
    var providers: set<string>, ids: set<string> := {}, {};
    for n := 0 to |picked|
      invariant Reached(picked, placement, limit, n, providers, ids, result)
    {
      var item := picked[n];
      PassItem(picked, placement, limit, n, providers, ids, result);
      if placement == Promoted && (!item.paid || !item.promote) { continue; }
      var key := KindText(item.kind) + item.id;
      if item.provider in providers || key in ids { continue; }
      providers := providers + {item.provider};
      ids := ids + {key};
      result := result + [Card(item, placement, placement == Promoted)];
      if |result| == limit { return; }
    }
  }

  // ----- the rails of a feed -----

  function RailLimit(placement: Placement, candidates: nat, carousel: nat): nat {
    if placement != Promoted then 6
    else if carousel > 0 then carousel
    else if candidates / 4 < 1 then 1
    else if candidates / 4 > 3 then 3
    else candidates / 4
  }

  function Pool(candidates: seq<Item>, used: set<ListingKey>): seq<Item> {
    Sorting.Filter(candidates, i => Key(i) !in used)
  }

  function KeysOf(cards: seq<Card>): set<ListingKey> { set c <- cards :: Key(c.item) }

  function Placements(hasSource: bool): seq<Placement> { [Promoted, if hasSource then Similar else Recommended] }

  lemma {:induction false} PoolIsUnused(candidates: seq<Item>, used: set<ListingKey>)
    ensures forall x <- Pool(candidates, used) :: x in candidates && Key(x) !in used
    ensures Distinct(candidates) ==> Distinct(Pool(candidates, used))
  {
    if candidates != [] {
      PoolIsUnused(candidates[1..], used);
      assert forall k | 0 <= k < |candidates[1..]| :: candidates[1..][k] == candidates[k + 1];
      var rest := Pool(candidates[1..], used);
      if Distinct(candidates) && Key(candidates[0]) !in used {
        assert Pool(candidates, used) == [candidates[0]] + rest;
        forall j | 0 <= j < |rest| ensures Key(candidates[0]) != Key(rest[j]) {
          assert rest[j] in candidates[1..];
        }
      }
    }
  }

  /** Rails never share a listing, whatever the candidates are. */
  lemma RailsAreDisjoint(candidates: seq<Item>, used: set<ListingKey>, placement: Placement, rotate: Item -> real,
                         limit: int)
    ensures KeysOf(Rank(Pool(candidates, used), placement, rotate, limit)) !! used
  {
    var pool := Pool(candidates, used);
    PoolIsUnused(candidates, used);
    Sorting.SortKeepsMembers(pool, NotAfter(rotate));
    var sorted := Ranked(pool, rotate);
    var picks := Picks(sorted, placement, limit, |sorted|);
    forall c <- Rank(pool, placement, rotate, limit) ensures Key(c.item) !in used {
      var i :| 0 <= i < |picks| && c == MakeCard(sorted[picks[i]], placement);
      assert sorted[picks[i]] in pool;
    }
  }

  method UnusedCandidates(candidates: seq<Item>, used: set<ListingKey>) returns (pool: seq<Item>)
    ensures pool == Pool(candidates, used)
  {
    pool := [];
    for i := 0 to |candidates|
      invariant Pool(candidates, used) == pool + Pool(candidates[i..], used)
    {
      assert candidates[i..][1..] == candidates[i + 1..];
      if Key(candidates[i]) !in used { pool := pool + [candidates[i]]; }
    }
    assert candidates[|candidates|..] == [];
  }

  /** One rail: the unused candidates, ranked up to the limit of the placement. */
  method BuildRail(candidates: seq<Item>, used: set<ListingKey>, placement: Placement, rotate: Item -> real,
                   carousel: nat)
    returns (rail: seq<Card>)
    ensures rail == Rank(Pool(candidates, used), placement, rotate, RailLimit(placement, |candidates|, carousel))
    ensures |rail| <= RailLimit(placement, |candidates|, carousel)
    ensures KeysOf(rail) !! used
  {
    var pool := UnusedCandidates(candidates, used);
    var limit := RailLimit(placement, |candidates|, carousel);
    rail := RankDiscovery(pool, placement, rotate, limit);
    assert |rail| <= limit by {
      PicksWithinLimit(Ranked(pool, rotate), placement, limit, |Ranked(pool, rotate)|);
    }
    RailsAreDisjoint(candidates, used, placement, rotate, limit);
  }

  /** The listings shown in the rails so far. */
  ghost function UsedBy(rails: seq<seq<Card>>): set<ListingKey> {
    if rails == [] then {} else UsedBy(rails[..|rails| - 1]) + KeysOf(rails[|rails| - 1])
  }

  /** The rail of a placement over what the earlier rails left. */
  ghost function NextRail(candidates: seq<Item>, before: seq<seq<Card>>, placement: Placement, carousel: nat,
                          rotate: Item -> real)
    : seq<Card>
  {
    Rank(Pool(candidates, UsedBy(before)), placement, rotate, RailLimit(placement, |candidates|, carousel))
  }

  /** The first `n` rails of a feed, each ranked from what the earlier ones left over. */
  ghost function Rails(candidates: seq<Item>, placements: seq<Placement>, carousel: nat,
                       rotate: Placement -> Item -> real, n: nat)
    : (rails: seq<seq<Card>>)
    requires n <= |placements|
    ensures |rails| == n
  {
    if n == 0 then []
    else
      var before := Rails(candidates, placements, carousel, rotate, n - 1);
      before + [NextRail(candidates, before, placements[n - 1], carousel, rotate(placements[n - 1]))]
  }

  lemma {:induction false} UsedByIncludes(rails: seq<seq<Card>>, i: nat)
    requires i < |rails|
    ensures KeysOf(rails[i]) <= UsedBy(rails)
  {
    if i < |rails| - 1 { UsedByIncludes(rails[..|rails| - 1], i); }
  }

  ghost predicate NoSharing(rails: seq<seq<Card>>) {
    forall i, j | 0 <= i < j < |rails| :: KeysOf(rails[i]) !! KeysOf(rails[j])
  }

  lemma AddUnsharedRail(rails: seq<seq<Card>>, rail: seq<Card>)
    requires NoSharing(rails) && KeysOf(rail) !! UsedBy(rails)
    ensures NoSharing(rails + [rail])
  {
    forall i | 0 <= i < |rails| ensures KeysOf(rails[i]) !! KeysOf(rail) { UsedByIncludes(rails, i); }
  }

  lemma NextRailIsUnshared(candidates: seq<Item>, before: seq<seq<Card>>, placement: Placement, carousel: nat,
                           rotate: Item -> real)
    requires NoSharing(before)
    ensures NoSharing(before + [NextRail(candidates, before, placement, carousel, rotate)])
  {
    RailsAreDisjoint(candidates, UsedBy(before), placement, rotate, RailLimit(placement, |candidates|, carousel));
    AddUnsharedRail(before, NextRail(candidates, before, placement, carousel, rotate));
  }

  /** No listing appears in two rails of a feed. */
  lemma {:induction false} RailsShareNothing(candidates: seq<Item>, placements: seq<Placement>, carousel: nat,
                                             rotate: Placement -> Item -> real, n: nat)
    requires n <= |placements|
    ensures NoSharing(Rails(candidates, placements, carousel, rotate, n))
  {
    if n > 0 {
      RailsShareNothing(candidates, placements, carousel, rotate, n - 1);
      NextRailIsUnshared(candidates, Rails(candidates, placements, carousel, rotate, n - 1), placements[n - 1],
                         carousel,
                         rotate(placements[n - 1]));
    }
  }

  /** Every rail of a feed over distinct candidates is fair to what the earlier rails left over. */
  lemma EveryRailIsFair(candidates: seq<Item>, placements: seq<Placement>, carousel: nat,
                        rotate: Placement -> Item -> real,
                        n: nat, x: Item)
    requires n < |placements| && Distinct(candidates)
    requires var before := Rails(candidates, placements, carousel, rotate, n);
             x in Pool(candidates, UsedBy(before)) && Eligible(x, placements[n])
    ensures var cards := Rails(candidates, placements, carousel, rotate, n + 1)[n];
            Shown(cards, x.provider)
            || (|cards| == RailLimit(placements[n], |candidates|, carousel)
                && forall i | 0 <= i < |cards| :: !Less(x, cards[i].item, rotate(placements[n])))
  {
    var before := Rails(candidates, placements, carousel, rotate, n);
    var limit := RailLimit(placements[n], |candidates|, carousel);
    PoolIsUnused(candidates, UsedBy(before));
    RailIsFair(Pool(candidates, UsedBy(before)), placements[n], rotate(placements[n]), limit);
  }

  /** Fills the rails in turn; a listing shown in one rail is out of the pool of the next. */
  method BuildRails(candidates: seq<Item>, hasSource: bool, carousel: nat, rotate: Placement -> Item -> real)
    returns (rails: seq<seq<Card>>)
    ensures rails == Rails(candidates, Placements(hasSource), carousel, rotate, 2)
  {
    rails := [];
    var used: set<ListingKey> := {};
    var placements := Placements(hasSource);
    for n := 0 to 2
      invariant rails == Rails(candidates, placements, carousel, rotate, n) && used == UsedBy(rails)
    {
      var ranked := BuildRail(candidates, used, placements[n], rotate(placements[n]), carousel);
      AddUsed(rails, ranked);
      used := used + set c <- ranked :: Key(c.item);
      rails := rails + [ranked];
    }
  }

  lemma AddUsed(rails: seq<seq<Card>>, rail: seq<Card>)
    ensures UsedBy(rails + [rail]) == UsedBy(rails) + KeysOf(rail)
  {
    assert (rails + [rail])[..|rails|] == rails;
  }

  // ----- limits and labels -----

  /**
    Similar and recommended rails hold six; a promoted one holds the carousel's
    number, or a quarter of the candidates from 1 to 3.
   */
  lemma RailLimitIs(placement: Placement, candidates: nat, carousel: nat)
    ensures var limit := RailLimit(placement, candidates, carousel);
            && (placement == Similar || placement == Recommended ==> limit == 6)
            && (placement == Promoted && carousel >= 1 ==> limit == carousel)
            && (placement == Promoted && carousel == 0 ==>
                  && 1 <= limit <= 3 && (limit == 1 <==> candidates < 8) && (limit == 3 <==> candidates >= 12))
  {}

  /** A promoted card is of a paying listing that asked to be promoted, and only promoted cards are labelled. */
  lemma PromotedArePaid(items: seq<Item>, placement: Placement, rotate: Item -> real, limit: int, i: nat)
    requires i < |Rank(items, placement, rotate, limit)|
    ensures var c := Rank(items, placement, rotate, limit)[i];
            && c.placement == placement && (c.labelled <==> placement == Promoted)
            && (placement == Promoted ==> c.item.paid && c.item.promote)
  {
    var sorted := Ranked(items, rotate);
    PicksOnePerProvider(sorted, placement, limit, |sorted|);
  }

  /** A higher score stands before a lower one, and equal scores go by the smaller rotation. */
  lemma RelevanceFirst(a: Item, b: Item, rotate: Item -> real)
    ensures a.score > b.score ==> Less(a, b, rotate) && !Less(b, a, rotate)
    ensures a.score == b.score ==> (Less(a, b, rotate) <==> rotate(a) < rotate(b))
  {}

  /** A feed promotes first; its second rail is similar to the listing it is for, or recommended without one. */
  lemma FeedShows(hasSource: bool)
    ensures var shown := Placements(hasSource);
            && |shown| == 2 && shown[0] == Promoted && shown[1] != Promoted && (shown[1] == Similar <==> hasSource)
  {}
}
