/** Page parameters on both sides of the wire, and the client's continuation token. */
module Paging {
  import opened Text

  const MAX_PER_PAGE: GoInt := 100

  type Query = map<string, string>

  type ReqOpt = Query -> Query

  // ---------- The client's side ----------

  function WithQueryParam(key: string, value: string): ReqOpt {
    (q: Query) => q[key := value]
  }

  function ClampCount(count: GoInt): (c: GoInt)
    ensures 1 <= c <= MAX_PER_PAGE
    ensures c != count ==> c == MAX_PER_PAGE && !(1 <= count <= MAX_PER_PAGE)
  {
    if count <= 0 || count > MAX_PER_PAGE then MAX_PER_PAGE else count
  }

  function ClampStart(index: GoInt): (i: GoInt)
    ensures 1 <= i
    ensures i != index ==> i == 1 && index < 1
  {
    if index <= 0 then 1 else index
  }

  function WithPageSize(count: GoInt): ReqOpt {
    WithQueryParam("count", Itoa(ClampCount(count)))
  }

  function WithStartIndex(index: GoInt): ReqOpt {
    WithQueryParam("startIndex", Itoa(ClampStart(index)))
  }

  /** The query after the options have rewritten it one after the other. */
  function Rewritten(q: Query, opts: seq<ReqOpt>): Query {
    if opts == [] then q else opts[|opts| - 1](Rewritten(q, opts[..|opts| - 1]))
  }

  method ApplyOptions(q: Query, opts: seq<ReqOpt>) returns (r: Query)
    ensures r == Rewritten(q, opts)
  {
    r := q;
    for i := 0 to |opts|
      invariant r == Rewritten(q, opts[..i])
    {
      assert opts[..i + 1][..i] == opts[..i];
      r := opts[i](r);
    }
    assert opts[..|opts|] == opts;
  }

  function PageQuery(start: GoInt, count: GoInt): Query {
    Rewritten(map[], [WithPageSize(count), WithStartIndex(start)])
  }

  /** Where a listing goes on, if it does. */
  function NextCursor(start: GoInt, itemsPerPage: GoInt, totalResults: GoInt): Option<GoInt> {
    var next := WrapAdd(start, itemsPerPage);
    if next < totalResults then Some(next) else None
  }

  /** The same as a page token: "" when the listing is over. */
  function TokenFor(cursor: Option<GoInt>): string {
    match cursor
    case None => ""
    case Some(n) => Itoa(n)
  }

  /** The cursor a page token stands for: the empty token starts a listing at 0. */
  function CursorFor(token: string): Option<GoInt> {
    if token == "" then Some(0) else Atoi(token)
  }

  /** A token that continues a listing is not empty and reads back as the cursor it was made from. */
  lemma TokenRoundTrip(n: GoInt)
    ensures TokenFor(Some(n)) != "" && CursorFor(TokenFor(Some(n))) == Some(n)
  {
    AtoiItoa(n);
  }

  // ---------- The server's side ----------

  function Get(q: Query, key: string): string {
    if key in q then q[key] else ""
  }

  /** Start index and page size, with the server's own defaults and cap. */
  function PaginationParams(q: Query): (r: (GoInt, GoInt))
    ensures 1 <= r.0 && 1 <= r.1 <= MAX_PER_PAGE
  {
    var start := match Atoi(Get(q, "startIndex")) case Some(n) => (if n >= 1 then n else 1) case None => 1;
    var count := match Atoi(Get(q, "count")) case Some(n) => (if n > 0 then n else MAX_PER_PAGE) case None => MAX_PER_PAGE;
    (start, if count > MAX_PER_PAGE then MAX_PER_PAGE else count)
  }

  /** What the server makes of any query: an absent or unusable startIndex is 1, an absent or unusable
      count is 100, and so is a count over 100; any other number is taken as it is. */
  lemma PaginationMeans(q: Query)
    ensures PaginationParams(q).0
            == if "startIndex" in q && Atoi(q["startIndex"]).Some? && Atoi(q["startIndex"]).value >= 1
               then Atoi(q["startIndex"]).value else 1
    ensures PaginationParams(q).1
            == if "count" in q && Atoi(q["count"]).Some? && 1 <= Atoi(q["count"]).value <= 100
               then Atoi(q["count"]).value else 100
  {
    assert Atoi("") == None;
  }

  /** How many of n items fit. */
  function Clip(n: int, room: nat): nat {
    if n <= 0 then 0 else if n < room then n else room
  }

  /** A page holds exactly the items at the positions startIndex .. startIndex + perPage - 1 that exist. */
  function PageSlice<T>(items: seq<T>, startIndex: GoInt, perPage: GoInt): (page: seq<T>)
    requires perPage > 0
    ensures startIndex >= 1 ==> |page| == Clip(|items| - (startIndex - 1), perPage)
    ensures startIndex >= 1 ==> forall i :: 0 <= i < |page| ==> page[i] == items[startIndex - 1 + i]
    ensures |page| <= perPage
  {
    var from := startIndex - 1;
    if from < 0 || from >= |items| then []
    else
      var end := if from + perPage > |items| then |items| else from + perPage;
      items[from..end]
  }

  // ---------- The two sides agree ----------

  /** Whatever start and count the client is given, the server reads back the clamped pair. */
  lemma WireAgreement(start: GoInt, count: GoInt)
    ensures PaginationParams(PageQuery(start, count)) == (ClampStart(start), ClampCount(count))
  {
    PageQueryIs(start, count);
    AtoiItoa(ClampCount(count));
    AtoiItoa(ClampStart(start));
  }

  /** What the two options write, one after the other. */
  lemma PageQueryIs(start: GoInt, count: GoInt)
    ensures PageQuery(start, count) == map["count" := Itoa(ClampCount(count)), "startIndex" := Itoa(ClampStart(start))]
  {
    var opts := [WithPageSize(count), WithStartIndex(start)];
    assert opts[..1] == [WithPageSize(count)] && opts[..1][..0] == [];
    assert Rewritten(map[], opts[..1][..0]) == map[];
    assert Rewritten(map[], opts[..1]) == map["count" := Itoa(ClampCount(count))];
  }

  /** The next cursor is larger exactly when the server delivered something and the sum did not
      overflow the 64-bit integer. */
  lemma CursorGrowsExactlyWhen(start: GoInt, itemsPerPage: GoInt, totalResults: GoInt)
    requires itemsPerPage >= 0 && NextCursor(start, itemsPerPage, totalResults).Some?
    ensures NextCursor(start, itemsPerPage, totalResults).value > start
            <==> itemsPerPage >= 1 && start + itemsPerPage <= MAX_INT
  {
  }

  /** What any server reports with one page. */
  datatype Report = Report(itemsPerPage: GoInt, totalResults: GoInt)

  /** Where the cursor stands after all these reports left a continuation. */
  function CursorAfter(start: GoInt, reports: seq<Report>): GoInt {
    if reports == [] then start
    else
      var r := reports[|reports| - 1];
      WrapAdd(CursorAfter(start, reports[..|reports| - 1]), r.itemsPerPage)
  }

  /** The report leaves a continuation, delivers something, and does not count past the end. */
  predicate Continues(cursor: GoInt, r: Report) {
    && NextCursor(cursor, r.itemsPerPage, r.totalResults).Some?
    && 1 <= r.itemsPerPage && cursor + r.itemsPerPage <= MAX_INT
  }

  ghost predicate KeepsGoing(start: GoInt, reports: seq<Report>) {
    forall i :: 0 <= i < |reports| ==> Continues(CursorAfter(start, reports[..i]), reports[i])
  }

  /** One continuation takes the cursor on, to a place below the total. */
  lemma ContinuationAdvances(cursor: GoInt, r: Report)
    requires Continues(cursor, r)
    ensures cursor < WrapAdd(cursor, r.itemsPerPage) < r.totalResults
  {
    CursorGrowsExactlyWhen(cursor, r.itemsPerPage, r.totalResults);
  }

  /** Against any server that delivers at least one item per continuation and whose totals stay
      below a bound, the loop asks for fewer pages than the bound: it ends. */
  lemma {:induction false} ContinuationsAreBounded(start: GoInt, reports: seq<Report>, bound: int)
    requires start >= 0 && KeepsGoing(start, reports)
    requires forall i :: 0 <= i < |reports| ==> reports[i].totalResults <= bound
    ensures CursorAfter(start, reports) >= start + |reports|
    ensures reports != [] ==> |reports| < bound
  {
    if reports != [] {
      var n := |reports| - 1;
      assert forall i :: 0 <= i < n ==> reports[..n][..i] == reports[..i];
      ContinuationsAreBounded(start, reports[..n], bound);
      ContinuationAdvances(CursorAfter(start, reports[..n]), reports[n]);
    }
  }
}
