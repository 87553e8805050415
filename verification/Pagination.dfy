/** Listing and exporting flagged tweets, one page at a time.

  The table and the order in which the database returns the rows of a filter are fixed: `listing` is that
  order.  Page arithmetic is the program's 64-bit arithmetic. */
module Pagination {
  import opened Model

  datatype FlaggedTweet = FlaggedTweet(id: string, tweetId: string, jobId: string, flaggedAt: int, url: string)

  /** Rows of one job, or all rows where the job is the empty string. */
  function Filtered(table: seq<FlaggedTweet>, jobId: string): seq<FlaggedTweet> {
    if table == [] then []
    else
      var rest := Filtered(table[1..], jobId);
      if jobId == "" || table[0].jobId == jobId then [table[0]] + rest else rest
  }

  /** Each row of the filter as often as it is in the table, and no other. */
  lemma {:induction false} FilteredExactly(table: seq<FlaggedTweet>, jobId: string, row: FlaggedTweet)
    ensures multiset(Filtered(table, jobId))[row]
            == if jobId == "" || row.jobId == jobId then multiset(table)[row] else 0
  {
    if table == [] {
    } else {
      assert table == [table[0]] + table[1..];
      FilteredExactly(table[1..], jobId, row);
    }
  }

  /** An order the database may return: the rows of the filter, newest first, ties in any order. */
  ghost predicate IsListing(table: seq<FlaggedTweet>, jobId: string, listing: seq<FlaggedTweet>) {
    && multiset(listing) == multiset(Filtered(table, jobId))
    && forall i, j :: 0 <= i < j < |listing| ==> listing[i].flaggedAt >= listing[j].flaggedAt
  }

  /** `LIMIT` and `OFFSET`: a negative offset counts as none. */
  function Slice<T>(rows: seq<T>, limit: nat, offset: int): seq<T> {
    var from := if offset < 0 then 0 else if offset > |rows| then |rows| else offset;
    var to := if from + limit > |rows| then |rows| else from + limit;
    rows[from..to]
  }

  const TWO63 := 0x8000_0000_0000_0000
  const TWO64 := 0x1_0000_0000_0000_0000

  /** Signed 64-bit wrap-around. */
  function Wrap(x: int): (r: int)
    ensures -TWO63 <= r < TWO63 && (x - r) % TWO64 == 0
    ensures -TWO63 <= x < TWO63 ==> r == x
  {
    var m := x % TWO64;
    if m >= TWO63 then m - TWO64 else m
  }

  /** The rows that a page shows: from its wrapped offset, or the beginning if that is negative, as many as there are up
      to the clamped size. */
  ghost predicate IsPage(listing: seq<FlaggedTweet>, page: int, pageSize: int, rows: seq<FlaggedTweet>) {
    var size := if pageSize < 1 then 20 else if pageSize > 100 then 100 else pageSize;
    var wrapped := Wrap(if page < 1 then 0 else (page - 1) * size);
    var from := if wrapped < 0 then 0 else wrapped;
    && |rows| == (if from >= |listing| then 0 else if |listing| - from < size then |listing| - from else size)
    && forall i :: 0 <= i < |rows| ==> rows[i] == listing[from + i]
  }

  lemma PageExact(listing: seq<FlaggedTweet>, page: int, pageSize: int)
    ensures IsPage(listing, page, pageSize, Page(listing, page, pageSize))
  {
  }

  method ListFlaggedTweets(listing: seq<FlaggedTweet>, page: int, pageSize: int)
    returns (tweets: seq<FlaggedTweet>, total: nat)
    ensures tweets == Slice(listing, ServicePageSize(pageSize), Offset(page, pageSize))
    ensures IsPage(listing, page, pageSize, tweets)
    ensures total == |listing|
  {
    PageExact(listing, page, pageSize);
    var page, pageSize := page, pageSize;
    if page < 1 {
      page := 1;
    }
    if pageSize < 1 {
      pageSize := 20;
    }
    if pageSize > 100 {
      pageSize := 100;
    }
    var offset := Wrap((page - 1) * pageSize);
    tweets := Slice(listing, pageSize, offset);
    total := |listing|;
  }

  function ServicePageSize(pageSize: int): (r: nat)
    ensures 1 <= r <= 100
  {
    if pageSize < 1 then 20 else if pageSize > 100 then 100 else pageSize
  }

  function Offset(page: int, pageSize: int): int {
    Wrap(((if page < 1 then 1 else page) - 1) * ServicePageSize(pageSize))
  }

  function Page(listing: seq<FlaggedTweet>, page: int, pageSize: int): seq<FlaggedTweet> {
    Slice(listing, ServicePageSize(pageSize), Offset(page, pageSize))
  }

  /** A query parameter, already read as an integer if it is one. */
  datatype Parameter = Missing | NotANumber | Number(value: int)

  function ParseInt(p: Parameter, default: int): int {
    if p.Number? && p.value >= 1 then p.value else default
  }

  function ParseIntWithMax(p: Parameter, default: int, max: int): int {
    var v := ParseInt(p, default);
    if v > max then max else v
  }

  /** What the handler reports for a page size it has clamped. */
  function TotalPages(total: nat, pageSize: int): int
    requires pageSize > 0
  {
    (total + pageSize - 1) / pageSize
  }

  // ------------------------------------------------------------------ pages partition the listing

  /** Handler and service clamps agree: what the handler makes of a request, with page 1 and size 20 for what is
      missing, malformed or below 1, and size 100 for what is above, the service does not change. */
  lemma ClampsAgree(pageParam: Parameter, sizeParam: Parameter)
    ensures var page, size := ParseInt(pageParam, 1), ParseIntWithMax(sizeParam, 20, 100);
            && page == (if pageParam.Number? && pageParam.value >= 1 then pageParam.value else 1)
            && size == (if !sizeParam.Number? || sizeParam.value < 1 then 20
                        else if sizeParam.value > 100 then 100 else sizeParam.value)
    ensures var page, size := ParseInt(pageParam, 1), ParseIntWithMax(sizeParam, 20, 100);
            page >= 1 && 1 <= size <= 100 && ServicePageSize(size) == size
            && Offset(page, size) == Wrap((page - 1) * size)
  {
  }

  function Concatenated(listing: seq<FlaggedTweet>, pages: nat, pageSize: int): seq<FlaggedTweet> {
    if pages == 0 then [] else Concatenated(listing, pages - 1, pageSize) + Page(listing, pages, pageSize)
  }

  lemma NextSlice(listing: seq<FlaggedTweet>, n: nat, size: nat)
    ensures (if n < |listing| then listing[..n] else listing) + Slice(listing, size, n)
            == if n + size < |listing| then listing[..n + size] else listing
  {
  }

  lemma OneMore(pages: nat, size: nat)
    requires pages > 0
    ensures pages * size == (pages - 1) * size + size && (pages - 1) * size >= 0
  {
  }

  lemma {:induction false} ConcatenatedIsPrefix(listing: seq<FlaggedTweet>, pages: nat, pageSize: int)
    requires 1 <= pageSize <= 100
    requires pages * pageSize < TWO63
    ensures Concatenated(listing, pages, pageSize)
            == if pages * pageSize < |listing| then listing[..pages * pageSize] else listing
  {
    if pages == 0 {
    } else {
      OneMore(pages, pageSize);
      ConcatenatedIsPrefix(listing, pages - 1, pageSize);
      var n := (pages - 1) * pageSize;
      assert Page(listing, pages, pageSize) == Slice(listing, pageSize, n);
      NextSlice(listing, n, pageSize);
    }
  }

  lemma PagesCover(total: nat, size: int)
    requires size >= 1
    ensures total <= TotalPages(total, size) * size < total + size
    ensures TotalPages(total, size) >= 0
  {
    var x := total + size - 1;
    assert x == size * (x / size) + x % size;
    assert TotalPages(total, size) * size == size * (x / size);
  }

  /** All pages but the last are full, and that one is not empty. */
  lemma PageFull(listing: seq<FlaggedTweet>, page: int, size: int)
    requires 1 <= size <= 100 && |listing| + size < TWO63 && 1 <= page <= TotalPages(|listing|, size)
    ensures if page < TotalPages(|listing|, size) then |Page(listing, page, size)| == size
            else 0 < |Page(listing, page, size)| <= size
  {
    var pages := TotalPages(|listing|, size);
    PagesCover(|listing|, size);
    OneMore(page, size);
    OneMore(pages, size);
    MoreIsMore(page, pages, size);
    if page < pages {
      MoreIsMore(page, pages - 1, size);
    }
  }

  /** Pages 1 to `total_pages`, one after the other, are the listing: every flagged row of the filter exactly
      once, in order; all but the last are full, and the last is not empty. */
  lemma PagesPartitionListing(table: seq<FlaggedTweet>, jobId: string, listing: seq<FlaggedTweet>, pageSize: int)
    requires IsListing(table, jobId, listing) && 1 <= pageSize <= 100 && |listing| + pageSize < TWO63
    ensures var pages := TotalPages(|listing|, pageSize);
            && pages >= 0
            && Concatenated(listing, pages, pageSize) == listing
            && multiset(Concatenated(listing, pages, pageSize)) == multiset(Filtered(table, jobId))
            && forall page :: 1 <= page <= pages ==>
                 if page < pages then |Page(listing, page, pageSize)| == pageSize
                 else 0 < |Page(listing, page, pageSize)| <= pageSize
  {
    PagesCover(|listing|, pageSize);
    forall page | 1 <= page <= TotalPages(|listing|, pageSize)
      ensures if page < TotalPages(|listing|, pageSize) then |Page(listing, page, pageSize)| == pageSize
              else 0 < |Page(listing, page, pageSize)| <= pageSize
    {
      PageFull(listing, page, pageSize);
    }
    ConcatenatedIsPrefix(listing, TotalPages(|listing|, pageSize), pageSize);
  }

  lemma SliceEmptyIff<T>(rows: seq<T>, limit: nat, offset: int)
    requires |rows| > 0 && limit > 0
    ensures Slice(rows, limit, offset) == [] <==> offset >= |rows|
  {
  }

  lemma MoreIsMore(a: int, b: int, size: nat)
    requires a <= b
    ensures a * size <= b * size
  {
  }

  lemma PastTheEnd(total: nat, page: int, size: int)
    requires size >= 1 && page > TotalPages(total, size)
    ensures (page - 1) * size >= total
  {
    PagesCover(total, size);
    MoreIsMore(TotalPages(total, size), page - 1, size);
  }

  /** A page past the end is empty exactly when its offset, as a 64-bit number, is past the end. */
  lemma LaterPagesEmptyIff(listing: seq<FlaggedTweet>, page: int, pageSize: int)
    requires 1 <= pageSize <= 100 && page > TotalPages(|listing|, pageSize) && |listing| > 0
    ensures Page(listing, page, pageSize) == [] <==> Wrap((page - 1) * pageSize) >= |listing|
    ensures (page - 1) * pageSize < TWO63 ==> Page(listing, page, pageSize) == []
  {
    PagesCover(|listing|, pageSize);
    PastTheEnd(|listing|, page, pageSize);
    SliceEmptyIff(listing, pageSize, Wrap((page - 1) * pageSize));
  }

  /** It is not always: the page number 2^58 + 1, in pages of 64, wraps round to the first page. */
  lemma HugePageShowsFirstPage(listing: seq<FlaggedTweet>)
    ensures Page(listing, 0x400_0000_0000_0001, 64) == Page(listing, 1, 64)
  {
  }

  // ------------------------------------------------------------------ export

  const EXPORT_LIMIT := 10000

  function Urls(rows: seq<FlaggedTweet>): seq<string> {
    if rows == [] then []
    else
      var before := Urls(rows[..|rows| - 1]);
      if rows[|rows| - 1].url != "" then before + [rows[|rows| - 1].url] else before
  }

  method ExportFlaggedTweets(listing: seq<FlaggedTweet>) returns (urls: seq<string>)
    ensures urls == Urls(Slice(listing, EXPORT_LIMIT, 0))
    ensures urls == Urls(if |listing| <= 10000 then listing else listing[..10000])
  {
    var tweets := Slice(listing, EXPORT_LIMIT, 0);
    urls := [];
    for i := 0 to |tweets|
      invariant urls == Urls(tweets[..i])
    {
      assert tweets[..i + 1][..i] == tweets[..i];
      if tweets[i].url != "" {
        urls := urls + [tweets[i].url];
      }
    }
    assert tweets[..|tweets|] == tweets;
    assert tweets == if |listing| <= 10000 then listing else listing[..10000];
  }

  lemma {:induction false} UrlsJoin(a: seq<FlaggedTweet>, b: seq<FlaggedTweet>)
    ensures Urls(a + b) == Urls(a) + Urls(b)
  {
    if b == [] {
      assert a + b == a;
    } else {
      UrlsJoin(a, b[..|b| - 1]);
      assert (a + b)[..|a + b| - 1] == a + b[..|b| - 1];
    }
  }

  /** Wherever a row stands, its URL is exported in its place, unless it is empty. */
  lemma UrlsExact(a: seq<FlaggedTweet>, row: FlaggedTweet, b: seq<FlaggedTweet>)
    ensures Urls(a + [row] + b) == Urls(a) + (if row.url == "" then [] else [row.url]) + Urls(b)
  {
    UrlsJoin(a + [row], b);
    UrlsJoin(a, [row]);
    assert Urls([row][..0]) == [];
  }

  lemma {:induction false} AllUrlsKept(rows: seq<FlaggedTweet>)
    requires forall r :: r in rows ==> r.url != ""
    ensures |Urls(rows)| == |rows|
    ensures forall i :: 0 <= i < |rows| ==> Urls(rows)[i] == rows[i].url
  {
    if rows == [] {
    } else {
      var init := rows[..|rows| - 1];
      forall r | r in init ensures r.url != "" { assert r in rows; }
      AllUrlsKept(init);
    }
  }

  /** The export of the whole pagination: for rows with a URL, as the worker writes them, the export is the
      URLs of pages 1 to `total_pages` in order, if and only if there are at most 10000 rows. */
  lemma ExportEqualsPagesIff(listing: seq<FlaggedTweet>, pageSize: int)
    requires 1 <= pageSize <= 100 && |listing| + pageSize < TWO63
    requires forall r :: r in listing ==> r.url != ""
    ensures var pages := TotalPages(|listing|, pageSize);
            && pages >= 0
            && (Urls(Slice(listing, EXPORT_LIMIT, 0)) == Urls(Concatenated(listing, pages, pageSize))
                <==> |listing| <= 10000)
  {
    PagesCover(|listing|, pageSize);
    ConcatenatedIsPrefix(listing, TotalPages(|listing|, pageSize), pageSize);
    var cut := Slice(listing, EXPORT_LIMIT, 0);
    forall r | r in cut ensures r.url != "" { assert r in listing; }
    AllUrlsKept(cut);
    AllUrlsKept(listing);
    if |listing| <= EXPORT_LIMIT {
      assert cut == listing;
    }
  }

  /** Rows without a URL are left out of the export and change nothing else. */
  lemma ExportOfFewRows(listing: seq<FlaggedTweet>, pageSize: int)
    requires 1 <= pageSize <= 100 && |listing| <= EXPORT_LIMIT
    ensures var pages := TotalPages(|listing|, pageSize);
            pages >= 0 && Urls(Slice(listing, EXPORT_LIMIT, 0)) == Urls(Concatenated(listing, pages, pageSize))
  {
    PagesCover(|listing|, pageSize);
    ConcatenatedIsPrefix(listing, TotalPages(|listing|, pageSize), pageSize);
    assert Slice(listing, EXPORT_LIMIT, 0) == listing;
  }
}
