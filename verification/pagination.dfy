/**
  Keyset pagination: cursors over (created_at, id) or (rank, created_at, id),
  the two loop forms that cut a page, and walks along next cursors. A table is
  the sequence its ORDER BY returns; tokens stand for decoded cursor text.
 */
module Pagination {
  import opened Basics

  type Time = int
  type Id = nat

  datatype Row = Row(rank: int, at: Time, id: Id)
  datatype Key = Key(rank: int, at: Time, id: Id)

  /** Plain lists order by time and id; ranked lists put the visibility rank first. */
  datatype Listing = Plain | Ranked

  function KeyOf(listing: Listing, r: Row): Key { Key(if listing == Ranked then r.rank else 0, r.at, r.id) }

  predicate Less(a: Key, b: Key) {
    a.rank < b.rank || (a.rank == b.rank && (a.at < b.at || (a.at == b.at && a.id < b.id)))
  }

  /** ORDER BY ... DESC over rows with distinct keys. */
  ghost predicate Sorted(listing: Listing, t: seq<Row>) {
    forall i, j | 0 <= i < j < |t| :: Less(KeyOf(listing, t[j]), KeyOf(listing, t[i]))
  }

  // ----- cursors -----

  const ZERO_TIME: Time := -62135596800000000   // year 1 in microseconds, Go's zero time
  const DEFAULT_LIMIT := 25
  const MAX_LIMIT := 100

  /** The JSON fields of a cursor; absent or empty ones are None. */
  datatype Token = Token(at: Time, id: Option<Id>, rank: Option<int>, paid: bool)

  function PageLimit(requested: int): int {
    if requested < 1 then DEFAULT_LIMIT else if requested > MAX_LIMIT then MAX_LIMIT else requested
  }

  function EncodeAdmin(at: Time, id: Id): Token { Token(at, Some(id), None, false) }

  function EncodeRanked(at: Time, id: Id, rank: int): Token { Token(at, Some(id), Some(rank), rank > 0) }

  function CursorRank(token: Token): int {
    if token.rank.Some? && 0 <= token.rank.value <= 3 then token.rank.value
    else if token.paid then 1
    else 0
  }

  /** parseAdminPage with promotedCursorRank: the key a request continues from, or a refusal. */
  function ParseCursor(listing: Listing, token: Option<Token>): Result<Option<Key>, ()> {
    if token.None? then Ok(None)
    else if token.value.id.None? || token.value.at == ZERO_TIME then Err(())
    else Ok(Some(Key(if listing == Ranked then CursorRank(token.value) else 0, token.value.at, token.value.id.value)))
  }

  /** The cursor a listing hands out for its last row. */
  function Encode(listing: Listing, r: Row): Token {
    if listing == Ranked then EncodeRanked(r.at, r.id, r.rank) else EncodeAdmin(r.at, r.id)
  }

  /** A handed-out cursor parses back to the row's key exactly for a real time and, when ranked, a rank from 0 to 3. */
  lemma CursorRoundTrip(listing: Listing, r: Row)
    ensures ParseCursor(listing, Some(Encode(listing, r))) == Ok(Some(KeyOf(listing, r)))
       <==> r.at != ZERO_TIME && (listing == Ranked ==> 0 <= r.rank <= 3)
  {
    if listing == Ranked && !(0 <= r.rank <= 3) { assert CursorRank(Encode(listing, r)) in {0, 1}; }
  }

  /** Keys are ordered by rank, then time, then identifier. */
  lemma OrderIs(a: Key, b: Key)
    ensures Less(a, b) <==>
              if a.rank != b.rank then a.rank < b.rank else if a.at != b.at then a.at < b.at else a.id < b.id
    ensures a != b <==> Less(a, b) != Less(b, a)
  {}

  /** A page holds what was asked for between 1 and 100 rows, 25 when nothing sensible was. */
  lemma LimitIs(requested: int)
    ensures 1 <= requested <= 100 ==> PageLimit(requested) == requested
    ensures requested <= 0 ==> PageLimit(requested) == 25
    ensures requested >= 100 ==> PageLimit(requested) == 100
  {}

  /**
    A cursor is refused exactly when it has no identifier or no time. A ranked list
    reads a rank from 0 to 3, and for a cursor without one the paid or the free group.
   */
  lemma CursorIs(listing: Listing, token: Option<Token>)
    ensures ParseCursor(listing, token).Err? <==> token.Some? && (token.value.id == None || token.value.at == ZERO_TIME)
    ensures ParseCursor(listing, token) == Ok(None) <==> token == None
    ensures var read := ParseCursor(listing, token);
            read.Ok? && read.value.Some? ==>
              && read.value.value.at == token.value.at && Some(read.value.value.id) == token.value.id
              && read.value.value.rank ==
                   if listing == Plain then 0
                   else match token.value.rank
                     case Some(rank) => (if rank in {0, 1, 2, 3} then rank else if token.value.paid then 1 else 0)
                     case None => if token.value.paid then 1 else 0
  {}

  /** A plain cursor carries no rank; a ranked one carries it, with the paid mark that older readers go by. */
  lemma TokenIs(listing: Listing, r: Row)
    ensures Encode(listing, r) ==
              Token(r.at, Some(r.id), if listing == Ranked then Some(r.rank) else None,
                    listing == Ranked && r.rank >= 1)
  {}

  // ----- one page -----

  predicate Passes(listing: Listing, r: Row, cursor: Option<Key>) {
    cursor.None? || Less(KeyOf(listing, r), cursor.value)
  }

  /** WHERE $cursor IS NULL OR (...) < ($cursor). */
  function After(listing: Listing, t: seq<Row>, cursor: Option<Key>): seq<Row> {
    if t == [] then []
    else (if Passes(listing, t[0], cursor) then [t[0]] else []) + After(listing, t[1..], cursor)
  }

  /** LIMIT limit+1. */
  function Fetch(listing: Listing, t: seq<Row>, cursor: Option<Key>, limit: nat): seq<Row> {
    var rows := After(listing, t, cursor);
    if |rows| > limit + 1 then rows[..limit + 1] else rows
  }

  datatype Page = Page(items: seq<Row>, next: Option<Token>)

  /** A page over the rows a cursor leaves, without the extra row that announces a next page. */
  function PageOver(listing: Listing, rows: seq<Row>, limit: nat): Page
    requires limit >= 1
  {
    if |rows| > limit then Page(rows[..limit], Some(Encode(listing, rows[limit - 1]))) else Page(rows, None)
  }

  lemma FetchIsEnough(listing: Listing, t: seq<Row>, cursor: Option<Key>, limit: nat)
    requires limit >= 1
    ensures PageOver(listing, Fetch(listing, t, cursor, limit), limit)
        == PageOver(listing, After(listing, t, cursor), limit)
  {}

  /** The form of the admin and catalogue lists: append every fetched row, then trim. */
  method TrimPage(listing: Listing, t: seq<Row>, cursor: Option<Key>, limit: nat) returns (page: Page)
    requires limit >= 1
    ensures page == PageOver(listing, After(listing, t, cursor), limit)
  {
    var rows := Fetch(listing, t, cursor, limit);
    var items: seq<Row> := [];
    for k := 0 to |rows|
      invariant items == rows[..k]
    {
      items := items + [rows[k]];
    }
    var next: Option<Token> := None;
    if |items| > limit {
      items := items[..limit];
      var last := items[|items| - 1];
      next := Some(Encode(listing, last));
    }
    FetchIsEnough(listing, t, cursor, limit);
    page := Page(items, next);
  }

  /** The form of the status list: stop at the row beyond the limit. */
  method BreakPage(listing: Listing, t: seq<Row>, cursor: Option<Key>, limit: nat) returns (page: Page)
    requires limit >= 1
    ensures page == PageOver(listing, After(listing, t, cursor), limit)
  {
    var rows := Fetch(listing, t, cursor, limit);
    var items: seq<Row> := [];
    var next: Option<Token> := None;
    for k := 0 to |rows|
      invariant items == rows[..k] && k <= limit && next.None?
    {
      if |items| == limit {
        var last := items[|items| - 1];
        next := Some(Encode(listing, last));
        break;
      }
      items := items + [rows[k]];
    }
    FetchIsEnough(listing, t, cursor, limit);
    page := Page(items, next);
  }

  // ----- requests -----

  /** One request against a table: refused for a bad cursor, a page otherwise. */
  function Request(listing: Listing, t: seq<Row>, token: Option<Token>, requested: int): Result<Page, ()> {
    var cursor := ParseCursor(listing, token);
    if cursor.Err? then Err(()) else Ok(PageOver(listing, After(listing, t, cursor.value), PageLimit(requested)))
  }

  method HandleList(listing: Listing, t: seq<Row>, token: Option<Token>, requested: int, trims: bool)
    returns (reply: Result<Page, ()>)
    ensures reply == Request(listing, t, token, requested)
  {
    var limit := requested;
    if limit < 1 { limit := DEFAULT_LIMIT; }
    if limit > MAX_LIMIT { limit := MAX_LIMIT; }
    var cursor := ParseCursor(listing, token);
    if cursor.Err? { return Err(()); }
    var page;
    if trims {
      page := TrimPage(listing, t, cursor.value, limit);
    } else {
      page := BreakPage(listing, t, cursor.value, limit);
    }
    reply := Ok(page);
  }

  /** What a client collects by following next cursors, one table for each request, and whether it was told to stop. */
  function Walk(listing: Listing, tables: seq<seq<Row>>, token: Option<Token>, requested: int): (seq<Row>, bool)
    decreases |tables|
  {
    if tables == [] then ([], false)
    else
      var reply := Request(listing, tables[0], token, requested);
      if reply.Err? then ([], false)
      else if reply.value.next.None? then (reply.value.items, true)
      else
        var (rest, done) := Walk(listing, tables[1..], reply.value.next, requested);
        (reply.value.items + rest, done)
  }

  // ----- rows left by a cursor -----

  /** Rows a real table holds: a real creation time and, when ranked, a rank the ranking expression can produce. */
  predicate Proper(listing: Listing, r: Row) { r.at != ZERO_TIME && (listing == Ranked ==> 0 <= r.rank <= 3) }

  ghost predicate Table(listing: Listing, t: seq<Row>) {
    Sorted(listing, t) && forall i | 0 <= i < |t| :: Proper(listing, t[i])
  }

  lemma {:induction false} AllPass(listing: Listing, t: seq<Row>, cursor: Option<Key>)
    requires forall i | 0 <= i < |t| :: Passes(listing, t[i], cursor)
    ensures After(listing, t, cursor) == t
  {
    if t != [] {
      assert forall i | 0 <= i < |t[1..]| :: t[1..][i] == t[i + 1];
      AllPass(listing, t[1..], cursor);
    }
  }

  /** Filtering picks exactly the rows below the cursor, in order. */
  lemma {:induction false} AfterKeeps(listing: Listing, t: seq<Row>, cursor: Option<Key>)
    ensures forall r :: r in After(listing, t, cursor) <==> r in t && Passes(listing, r, cursor)
    ensures Sorted(listing, t) ==> Sorted(listing, After(listing, t, cursor))
  {
    if t != [] {
      AfterKeeps(listing, t[1..], cursor);
      assert t == [t[0]] + t[1..];
      if Sorted(listing, t) {
        assert forall i | 0 <= i < |t[1..]| :: t[1..][i] == t[i + 1];
        var rest := After(listing, t[1..], cursor);
        forall j | 0 <= j < |rest| ensures Less(KeyOf(listing, rest[j]), KeyOf(listing, t[0])) {
          assert rest[j] in t[1..];
        }
      }
    }
  }

  /** The cursor of row `i` leaves exactly the rows behind it. */
  lemma {:induction false} AfterRow(listing: Listing, t: seq<Row>, i: nat)
    requires Sorted(listing, t) && i < |t|
    ensures After(listing, t, Some(KeyOf(listing, t[i]))) == t[i + 1..]
  {
    assert forall k | 0 <= k < |t[1..]| :: t[1..][k] == t[k + 1];
    if i == 0 {
      AllPass(listing, t[1..], Some(KeyOf(listing, t[0])));
    } else {
      AfterRow(listing, t[1..], i - 1);
      assert t[1..][i..] == t[i + 1..];
    }
  }

  // ----- a fixed table -----

  function Repeat(t: seq<Row>, n: nat): seq<seq<Row>> { seq(n, _ => t) }

  /** The token that has been handed out once the first `i` rows were shown. */
  ghost predicate StandsAt(listing: Listing, t: seq<Row>, token: Option<Token>, i: nat) {
    i <= |t| && if i == 0 then token.None? else token == Some(Encode(listing, t[i - 1]))
  }

  lemma RequestAt(listing: Listing, t: seq<Row>, token: Option<Token>, requested: int, i: nat)
    requires Table(listing, t) && StandsAt(listing, t, token, i)
    ensures Request(listing, t, token, requested) == Ok(PageOver(listing, t[i..], PageLimit(requested)))
  {
    if i == 0 {
      AllPass(listing, t, None);
      assert t[0..] == t;
    } else {
      assert Proper(listing, t[i - 1]);
      CursorRoundTrip(listing, t[i - 1]);
      AfterRow(listing, t, i - 1);
    }
  }

  /** At most `k` rows of `t` from position `i` on. */
  ghost function Stretch(t: seq<Row>, i: nat, k: nat): seq<Row>
    requires i <= |t|
  {
    if i + k < |t| then t[i..i + k] else t[i..]
  }

  lemma StretchOn(t: seq<Row>, i: nat, limit: nat, k: nat)
    requires i + limit <= |t|
    ensures t[i..][..limit] + Stretch(t, i + limit, k) == Stretch(t, i, limit + k)
  {}

  /** Rows that `n` full pages hold. */
  function Capacity(n: nat, limit: nat): nat {
    if n == 0 then 0 else limit + Capacity(n - 1, limit)
  }

  lemma {:induction false} CapacityIsProduct(n: nat, limit: nat)
    ensures Capacity(n, limit) == n * limit
  {
    if n > 0 {
      CapacityIsProduct(n - 1, limit);
      assert n * limit == limit + (n - 1) * limit;
    }
  }

  /** A walk that has shown `i` rows: one request. */
  lemma WalkStep(listing: Listing, t: seq<Row>, token: Option<Token>, requested: int, i: nat, n: nat)
    requires n > 0 && Table(listing, t) && StandsAt(listing, t, token, i)
    ensures var limit := PageLimit(requested);
            Walk(listing, Repeat(t, n), token, requested)
            == if |t| - i > limit
               then var next := Some(Encode(listing, t[i + limit - 1]));
                    var (rest, done) := Walk(listing, Repeat(t, n - 1), next, requested);
                    (t[i..][..limit] + rest, done)
               else (t[i..], true)
  {
    RequestAt(listing, t, token, requested, i);
    assert Repeat(t, n)[0] == t && Repeat(t, n)[1..] == Repeat(t, n - 1);
  }

  /** What `n` requests from position `i` are to collect, and whether they reach the end. */
  ghost function Expected(t: seq<Row>, i: nat, n: nat, limit: nat): (seq<Row>, bool)
    requires i <= |t|
  {
    (Stretch(t, i, Capacity(n, limit)), n >= 1 && i + Capacity(n, limit) >= |t|)
  }

  lemma ExpectedStep(t: seq<Row>, i: nat, n: nat, limit: nat)
    requires i <= |t| && n > 0 && limit >= 1
    ensures |t| - i <= limit ==> Expected(t, i, n, limit) == (t[i..], true)
    ensures |t| - i > limit ==>
      var (rest, done) := Expected(t, i + limit, n - 1, limit);
      Expected(t, i, n, limit) == (t[i..][..limit] + rest, done)
  {
    assert Capacity(n, limit) == limit + Capacity(n - 1, limit);
    if |t| - i > limit {
      StretchOn(t, i, limit, Capacity(n - 1, limit));
      if n == 1 { assert Capacity(0, limit) == 0; }
    }
  }

  /** `n` more requests collect the next stretch. */
  lemma {:induction false} WalkFrom(listing: Listing, t: seq<Row>, token: Option<Token>, requested: int, i: nat, n: nat,
                                    walk: (seq<Row>, bool))
    requires Table(listing, t) && StandsAt(listing, t, token, i)
    requires walk == Walk(listing, Repeat(t, n), token, requested)
    ensures walk == Expected(t, i, n, PageLimit(requested))
    decreases n
  {
    var limit := PageLimit(requested);
    if n == 0 {
      assert Repeat(t, n) == [] && Stretch(t, i, 0) == [];
    } else {
      WalkStep(listing, t, token, requested, i, n);
      ExpectedStep(t, i, n, limit);
      if |t| - i > limit {
        var next := Some(Encode(listing, t[i + limit - 1]));
        WalkFrom(listing, t, next, requested, i + limit, n - 1, Walk(listing, Repeat(t, n - 1), next, requested));
      }
    }
  }

  /**
    Following cursors over a table that does not change returns every row
    exactly once and in order; the client is told to stop exactly at the request
    whose page reaches the end.
   */
  lemma FixedTableWalk(listing: Listing, t: seq<Row>, requested: int, n: nat)
    requires Table(listing, t)
    ensures var limit := PageLimit(requested);
            var (collected, done) := Walk(listing, Repeat(t, n), None, requested);
            && (done <==> n >= 1 && n * limit >= |t|)
            && (done ==> collected == t)
            && (!done ==> n * limit <= |t| && collected == t[..n * limit])
  {
    WalkFrom(listing, t, None, requested, 0, n, Walk(listing, Repeat(t, n), None, requested));
    CapacityIsProduct(n, PageLimit(requested));
    assert t[0..] == t;
  }

  // ----- a table that grows -----

  ghost predicate Includes(later: seq<Row>, earlier: seq<Row>) { forall r <- earlier :: r in later }

  /** Each request sees at least the rows of the ones before. */
  ghost predicate Growing(listing: Listing, tables: seq<seq<Row>>) {
    && (forall k | 0 <= k < |tables| :: Table(listing, tables[k]))
    && (forall j, k | 0 <= j < k < |tables| :: Includes(tables[k], tables[j]))
  }

  /** Every collected row is below the cursor the walk continues from. */
  ghost predicate Below(listing: Listing, rows: seq<Row>, token: Option<Token>) {
    forall i | 0 <= i < |rows| ::
      ParseCursor(listing, token).Ok? && Passes(listing, rows[i], ParseCursor(listing, token).value)
  }

  lemma PageOfSorted(listing: Listing, t: seq<Row>, token: Option<Token>, requested: int)
    requires Table(listing, t) && ParseCursor(listing, token).Ok?
    ensures var page := Request(listing, t, token, requested).value;
            && Sorted(listing, page.items) && Below(listing, page.items, token)
            && (page.next.Some? ==>
                  && ParseCursor(listing, page.next).Ok? && ParseCursor(listing, page.next).value.Some?
                  && page.items != []
                  && ParseCursor(listing, page.next).value.value == KeyOf(listing, page.items[|page.items| - 1]))
            && (forall r | r in t && Passes(listing, r, ParseCursor(listing, token).value) ::
                  r in page.items || (page.next.Some? && Passes(listing, r, ParseCursor(listing, page.next).value)))
  {
    var cursor := ParseCursor(listing, token).value;
    var rows := After(listing, t, cursor);
    var limit := PageLimit(requested);
    var page := PageOver(listing, rows, limit);
    AfterKeeps(listing, t, cursor);
    forall i | 0 <= i < |page.items| ensures Passes(listing, page.items[i], cursor) { assert page.items[i] in rows; }
    if |rows| > limit {
      assert rows[limit - 1] in t;
      CursorRoundTrip(listing, rows[limit - 1]);
      forall r | r in t && Passes(listing, r, cursor)
        ensures r in page.items || Passes(listing, r, ParseCursor(listing, page.next).value)
      {
        var k :| 0 <= k < |rows| && rows[k] == r;
        if k < limit { assert page.items[k] == r; }
      }
    }
  }

  lemma {:induction false} GrowingWalk(listing: Listing, tables: seq<seq<Row>>, token: Option<Token>, requested: int)
    requires Growing(listing, tables) && ParseCursor(listing, token).Ok?
    ensures var (collected, done) := Walk(listing, tables, token, requested);
            && Sorted(listing, collected) && Below(listing, collected, token)
            && (done ==> forall r | r in tables[0] && Passes(listing, r, ParseCursor(listing, token).value) ::
                  r in collected)
    decreases |tables|
  {
    if tables != [] {
      PageOfSorted(listing, tables[0], token, requested);
      var page := Request(listing, tables[0], token, requested).value;
      if page.next.Some? {
        assert forall k | 0 <= k < |tables[1..]| :: tables[1..][k] == tables[k + 1];
        GrowingWalk(listing, tables[1..], page.next, requested);
        var rest := Walk(listing, tables[1..], page.next, requested).0;
        JoinPages(listing, page.items, rest, token, page.next);
      }
    }
  }

  lemma JoinPages(listing: Listing, items: seq<Row>, rest: seq<Row>, token: Option<Token>, next: Option<Token>)
    requires Sorted(listing, items) && Sorted(listing, rest) && items != []
    requires Below(listing, items, token) && Below(listing, rest, next)
    requires ParseCursor(listing, next) == Ok(Some(KeyOf(listing, items[|items| - 1])))
    ensures Sorted(listing, items + rest) && Below(listing, items + rest, token)
  {}

  /**
    With rows inserted between requests no row is returned twice, the rows come
    in order, and a walk that ends has returned every row of the first table.
   */
  lemma InsertsDuringWalk(listing: Listing, tables: seq<seq<Row>>, requested: int)
    requires Growing(listing, tables) && tables != []
    ensures var (collected, done) := Walk(listing, tables, None, requested);
            && (forall i, j | 0 <= i < j < |collected| ::
                Less(KeyOf(listing, collected[j]), KeyOf(listing, collected[i])))
            && (forall i, j | 0 <= i < j < |collected| :: collected[i] != collected[j])
            && (done ==> forall r <- tables[0] :: r in collected)
  {
    GrowingWalk(listing, tables, None, requested);
  }
}
