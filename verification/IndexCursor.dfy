/** The paged cursor over the data pack index. */
module IndexCursor {
  import opened PackIndex

  const UINT32 := 0x1_0000_0000

  datatype Cursor = Cursor(
    start: nat, end: nat,
    found: nat,               // counted once, when the search starts
    fetched: nat,             // rows fetched from the database so far
    dimension: nat,           // result page dimension
    totalPages: nat, currentPage: nat,
    lastTs: nat,              // time stamp of the last row fetched, 0 before the first page
    page: seq<Row>, returned: nat)

  function NewCursor(start: nat, end: nat, dimension: nat): Cursor
  {
    Cursor(start, end, 0, 0, dimension, 0, 0, 0, [], 0)
  }

  predicate HasNext(c: Cursor) {
    c.returned != |c.page|
  }

  function CeilDiv(n: nat, d: nat): nat
    requires d > 0
  {
    (n + d - 1) / d
  }

  /** Missing bounds are filled in from the extreme time stamps. */
  function Bounded(c: Cursor, rows: seq<Row>): Cursor
    requires (c.start == 0 || c.end == 0) ==> rows != []
  {
    c.(start := if c.start == 0 then rows[0].ts else c.start,
       end := if c.end == 0 then rows[|rows| - 1].ts else c.end)
  }

  function Counted(c: Cursor, rows: seq<Row>): Cursor
    requires c.dimension > 0
  {
    var n := |Between(rows, c.start, c.end)|;
    c.(found := n, totalPages := CeilDiv(n, c.dimension) % UINT32)
  }

  /** Rows the next page asks for; the difference is cut to 32 bits. */
  function ToFetch(c: Cursor): nat
  {
    var left := (c.found - c.fetched) % UINT32;
    if c.dimension > left then left else c.dimension
  }

  function PageStart(c: Cursor): nat {
    if c.lastTs != 0 then c.lastTs + 1 else c.start
  }

  function NextRows(c: Cursor, rows: seq<Row>): seq<Row> {
    Search(rows, PageStart(c), ToFetch(c))
  }

  /** An empty answer before the end is undefined behaviour in the program. */
  predicate Answered(c: Cursor, rows: seq<Row>) {
    c.lastTs < c.end ==> NextRows(c, rows) != []
  }

  function NextPage(c: Cursor, rows: seq<Row>): Cursor
    requires Answered(c, rows)
  {
    var cleared := c.(returned := 0, page := [], currentPage := c.currentPage + 1);
    if c.lastTs >= c.end then cleared
    else
      var page := NextRows(c, rows);
      cleared.(page := page, fetched := c.fetched + |page|, lastTs := page[|page| - 1].ts)
  }

  // ---------- the cursor object ----------

  class MongoDBIndexCursor {
    var queryStart: nat
    var queryEnd: nat
    var elementFound: nat
    var numberOfElementFetched: nat
    var resultPageDimension: nat
    var totalPageNumber: nat
    var currentPage: nat
    var lastMaxTsSearched: nat
    var fetchedElementPage: seq<Row>
    var numberOfReturnedElementInPage: nat

    function Abs(): Cursor
      reads this
    {
      Cursor(queryStart, queryEnd, elementFound, numberOfElementFetched, resultPageDimension,
             totalPageNumber, currentPage, lastMaxTsSearched, fetchedElementPage, numberOfReturnedElementInPage)
    }

    constructor (start: nat, end: nat, dimension: nat)
      ensures Abs() == NewCursor(start, end, dimension)
    {
      queryStart, queryEnd, resultPageDimension := start, end, dimension;
      elementFound, numberOfElementFetched, totalPageNumber, currentPage := 0, 0, 0, 0;
      lastMaxTsSearched, fetchedElementPage, numberOfReturnedElementInPage := 0, [], 0;
    }

    /** `rows` is what the index holds for the device and type when the search starts. */
    method ComputeTimeLapsForPage(rows: seq<Row>) returns (err: int)
      requires resultPageDimension > 0
      modifies this
      ensures (old(queryStart) == 0 || old(queryEnd) == 0) && rows == [] ==> err == -1000 && Abs() == old(Abs())
      ensures !((old(queryStart) == 0 || old(queryEnd) == 0) && rows == []) ==>
                Abs() == Counted(Bounded(old(Abs()), rows), rows) &&
                err == if totalPageNumber == 0 then -1 else 0
    {
      err := 0;
      if queryStart == 0 || queryEnd == 0 {
        if rows == [] { return -1000; }
        var minTs, maxTs := rows[0].ts, rows[|rows| - 1].ts;
        if queryStart == 0 { queryStart := minTs; }
        if queryEnd == 0 { queryEnd := maxTs; }
      }
      elementFound := |Between(rows, queryStart, queryEnd)|;
      totalPageNumber := CeilDiv(elementFound, resultPageDimension) % UINT32;
      if totalPageNumber == 0 { err := -1; }
    }

    /** `rows` is what the index holds when the page is asked for. */
    method PerformNextPagedQuery(rows: seq<Row>)
      requires Answered(Abs(), rows)
      modifies this
      ensures Abs() == NextPage(old(Abs()), rows)
    {
      ghost var c := Abs();
      numberOfReturnedElementInPage := 0;
      fetchedElementPage := [];
      currentPage := currentPage + 1;
      if lastMaxTsSearched >= queryEnd { return; }
      var startTs := if lastMaxTsSearched != 0 then lastMaxTsSearched + 1 else queryStart;
      var leftToFetch := (elementFound - numberOfElementFetched) % UINT32;
      var toFetch := if resultPageDimension > leftToFetch then leftToFetch else resultPageDimension;
      fetchedElementPage := Search(rows, startTs, toFetch);
      assert fetchedElementPage == NextRows(c, rows);
      numberOfElementFetched := numberOfElementFetched + |fetchedElementPage|;
      lastMaxTsSearched := fetchedElementPage[|fetchedElementPage| - 1].ts;
    }

    method GetIndex() returns (row: Row)
      requires HasNext(Abs()) && numberOfReturnedElementInPage <= |fetchedElementPage|
      modifies this`numberOfReturnedElementInPage
      ensures row == fetchedElementPage[old(numberOfReturnedElementInPage)]
      ensures Abs() == old(Abs()).(returned := old(numberOfReturnedElementInPage) + 1)
    {
      row := fetchedElementPage[numberOfReturnedElementInPage];
      numberOfReturnedElementInPage := numberOfReturnedElementInPage + 1;
    }
  }

  // ---------- a store that does not change ----------

  predicate Positive(rows: seq<Row>) {
    forall i :: 0 <= i < |rows| ==> rows[i].ts > 0
  }

  /** The cursor is somewhere in the middle of the hits of its query. */
  ghost predicate Follows(c: Cursor, rows: seq<Row>, hits: seq<Row>)
  {
    Ascending(rows) && Positive(rows) && hits == Between(rows, c.start, c.end) && Ascending(hits) &&
    0 < c.dimension && c.found == |hits| < UINT32 && c.fetched <= c.found &&
    |c.page| <= c.fetched && c.page == hits[c.fetched - |c.page|..c.fetched] && c.returned <= |c.page| &&
    c.lastTs == if c.fetched == 0 then 0 else hits[c.fetched - 1].ts
  }

  /** Pages are full but for the last one. */
  predicate Paged(c: Cursor)
  {
    c.fetched <= c.found &&
    (c.fetched < c.found ==> c.fetched == c.currentPage * c.dimension) &&
    (c.fetched == c.found && c.found > 0 ==>
      c.currentPage > 0 && (c.currentPage - 1) * c.dimension < c.found <= c.currentPage * c.dimension)
  }

  lemma StartFollows(start: nat, end: nat, dimension: nat, rows: seq<Row>)
    requires Ascending(rows) && Positive(rows) && dimension > 0 && ((start == 0 || end == 0) ==> rows != [])
    requires |Between(rows, Bounded(NewCursor(start, end, dimension), rows).start,
                      Bounded(NewCursor(start, end, dimension), rows).end)| < UINT32
    ensures var c := Counted(Bounded(NewCursor(start, end, dimension), rows), rows);
            Follows(c, rows, Between(rows, c.start, c.end)) && Paged(c)
  {
    var c := Counted(Bounded(NewCursor(start, end, dimension), rows), rows);
    BetweenFacts(rows, c.start, c.end);
  }

  /** What the next search returns: the next hits, although it has no upper time bound. */
  lemma NextRowsAreHits(c: Cursor, rows: seq<Row>, hits: seq<Row>)
    requires Follows(c, rows, hits) && c.fetched < c.found
    ensures 0 < ToFetch(c) <= c.found - c.fetched && NextRows(c, rows) == hits[c.fetched..c.fetched + ToFetch(c)]
  {
    var rest, n := From(rows, PageStart(c)), ToFetch(c);
    if c.fetched > 0 {
      BetweenFacts(rows, c.start, c.end);
      assert hits[c.fetched - 1] in hits;
      ContinueAfter(rows, c.start, c.end, c.fetched);
    } else {
      BetweenIsPrefix(rows, c.start, c.end);
      assert hits[0..] == hits;
    }
    assert hits[c.fetched..] <= rest;
    assert rest[..n] == hits[c.fetched..][..n];
  }

  lemma BeforeTheEnd(c: Cursor, rows: seq<Row>, hits: seq<Row>)
    requires Follows(c, rows, hits) && c.fetched < c.found
    ensures c.lastTs < c.end
  {
    BetweenFacts(rows, c.start, c.end);
    assert hits[c.fetched] in hits;
    if c.fetched > 0 {
      assert hits[c.fetched - 1].ts < hits[c.fetched].ts;
    }
  }

  /** The next page is exactly the next `min(dimension, left)` hits. */
  lemma NextPageFollows(c: Cursor, rows: seq<Row>, hits: seq<Row>)
    requires Follows(c, rows, hits) && c.fetched < c.found
    ensures Answered(c, rows)
    ensures var d := NextPage(c, rows); var left := c.found - c.fetched;
            Follows(d, rows, hits) && d.returned == 0 && |d.page| == d.fetched - c.fetched &&
            d.fetched == c.fetched + (if c.dimension < left then c.dimension else left) &&
            d == c.(fetched := d.fetched, currentPage := c.currentPage + 1, lastTs := d.lastTs, page := d.page,
                    returned := 0)
  {
    NextRowsAreHits(c, rows, hits);
    BeforeTheEnd(c, rows, hits);
    FollowsOn(c, rows, hits, ToFetch(c));
  }

  /** A cursor moved on by n hits. */
  lemma FollowsOn(c: Cursor, rows: seq<Row>, hits: seq<Row>, n: nat)
    requires Follows(c, rows, hits) && 0 < n <= c.found - c.fetched
    ensures Follows(c.(fetched := c.fetched + n, currentPage := c.currentPage + 1, lastTs := hits[c.fetched + n - 1].ts,
                       page := hits[c.fetched..c.fetched + n], returned := 0), rows, hits)
  {
  }

  lemma MulNext(k: nat, d: nat)
    ensures (k + 1) * d == k * d + d
  {
  }

  lemma NextPagePaged(c: Cursor, rows: seq<Row>, hits: seq<Row>)
    requires Follows(c, rows, hits) && c.fetched < c.found && Paged(c)
    ensures Answered(c, rows) && Paged(NextPage(c, rows))
  {
    NextPageFollows(c, rows, hits);
    MulNext(c.currentPage, c.dimension);
  }

  lemma CeilUnique(n: nat, d: nat, k: nat)
    requires d > 0 && k > 0 && (k - 1) * d < n <= k * d
    ensures CeilDiv(n, d) == k
  {
    var q := CeilDiv(n, d);
    assert n + d - 1 == q * d + (n + d - 1) % d;
    MulNext(k - 1, d);
    if q < k { MulOrder(q, k - 1, d); }
    if q > k { MulOrder(k + 1, q, d); MulNext(k, d); }
  }

  lemma CeilBounds(n: nat, d: nat)
    requires d > 0 && n > 0
    ensures var k := CeilDiv(n, d); k > 0 && (k - 1) * d < n <= k * d
  {
    var k := CeilDiv(n, d);
    assert n + d - 1 == k * d + (n + d - 1) % d;
    if k != 0 { MulNext(k - 1, d); }
  }

  lemma MulOrder(a: nat, b: nat, d: nat)
    requires a <= b
    ensures a * d <= b * d
  {
  }

  /** Once all rows are fetched, exactly the promised number of page queries was made. */
  lemma PageQueriesMade(c: Cursor)
    requires Paged(c) && c.fetched == c.found && c.found > 0 && c.dimension > 0
    ensures c.currentPage == CeilDiv(c.found, c.dimension)
  {
    CeilUnique(c.found, c.dimension, c.currentPage);
  }

  // ---------- a store that changes between pages ----------

  /** The rows handed out when page number i is answered by `stores[i]`. */
  function Pages(c: Cursor, stores: seq<seq<Row>>): seq<Row>
    requires AllAnswered(c, stores)
    decreases |stores|
  {
    if stores == [] then []
    else
      var d := NextPage(c, stores[0]);
      d.page + Pages(d, stores[1..])
  }

  predicate AllAnswered(c: Cursor, stores: seq<seq<Row>>)
    decreases |stores|
  {
    stores == [] || (Answered(c, stores[0]) && AllAnswered(NextPage(c, stores[0]), stores[1..]))
  }

  /** The next page of any store, whatever it held before: the rows from the first one after the last page on, as many
      as are left to fetch, counted with 32 bits, but at most a page; nothing left means all of them, and nothing is
      searched once the end of the interval has been reached. */
  lemma PageOfAnyStore(c: Cursor, rows: seq<Row>) returns (k: nat)
    requires Ascending(rows) && Answered(c, rows)
    ensures k <= |rows|
    ensures var first := if c.lastTs == 0 then c.start else c.lastTs + 1;
            (forall i :: 0 <= i < k ==> rows[i].ts < first) && (forall i :: k <= i < |rows| ==> rows[i].ts >= first)
    ensures var left := (c.found - c.fetched) % 0x1_0000_0000;
            var want := if c.dimension < left then c.dimension else left;
            NextPage(c, rows).page == if c.lastTs >= c.end then []
                                      else if want == 0 || k + want >= |rows| then rows[k..]
                                      else rows[k..k + want]
    ensures var page := NextPage(c, rows).page;
            NextPage(c, rows) == c.(returned := 0, currentPage := c.currentPage + 1, page := page,
                                    fetched := c.fetched + |page|,
                                    lastTs := if page == [] then c.lastTs else page[|page| - 1].ts)
  {
    k := FromIsSuffix(rows, PageStart(c));
  }

  lemma NextRowsAscend(c: Cursor, rows: seq<Row>)
    requires Ascending(rows)
    ensures Ascending(NextRows(c, rows))
    ensures forall i :: 0 <= i < |NextRows(c, rows)| ==>
              NextRows(c, rows)[i].ts >= PageStart(c) && NextRows(c, rows)[i] in rows
  {
    var k := FromIsSuffix(rows, PageStart(c));
  }

  /** Whatever appears in or disappears from the index between pages, the time stamps handed out
      strictly increase, so no row is handed out twice. */
  lemma {:induction false} TimeStampsStrictlyIncrease(c: Cursor, stores: seq<seq<Row>>)
    requires forall i :: 0 <= i < |stores| ==> Ascending(stores[i]) && Positive(stores[i])
    requires AllAnswered(c, stores)
    ensures Ascending(Pages(c, stores))
    ensures forall i :: 0 <= i < |Pages(c, stores)| ==> Pages(c, stores)[i].ts > c.lastTs
    decreases |stores|
  {
    if stores != [] {
      var d := NextPage(c, stores[0]);
      NextRowsAscend(c, stores[0]);
      TimeStampsStrictlyIncrease(d, stores[1..]);
      assert forall i :: 0 <= i < |d.page| ==> c.lastTs < d.page[i].ts <= d.lastTs;
      assert c.lastTs <= d.lastTs;
    }
  }
}
