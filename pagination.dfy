/**
 * `ProductDAO.getAllProducts` (src/dao/models/productDAO.js:20-68) as a pure
 * function of the product collection in natural order: the category filter,
 * the sort rule, skip/limit paging, and the pagination record with its flags,
 * neighbouring page numbers and links.
 */
module Pagination {
  import opened Wrappers
  import opened Products
  import opened Decimal
  import Seqs

  const DefaultLimit: int := 10
  const DefaultPage: int := 1

  /** The orders `getAllProducts` asks the store for. */
  datatype SortOrder = PriceAscending | PriceDescending | IdDescending | Unsorted

  /**
   * The sort rule: a truthy `sort` of "asc" or "desc" sorts by price, any other
   * truthy value sorts by nothing, and an absent or empty `sort` (falsy in
   * JavaScript) sorts by id descending.
   */
  function SortOrderOf(sort: Option<string>): (order: SortOrder) {
    if sort.None? || sort.value == "" then IdDescending
    else if sort.value == "asc" then PriceAscending
    else if sort.value == "desc" then PriceDescending
    else Unsorted
  }

  /** The sort key: the stored order is ascending in this key. */
  function Key(o: SortOrder, p: Product): (key: int) {
    match o
    case PriceAscending => p.price
    case PriceDescending => -p.price
    case IdDescending => -(p.id as int)
    case Unsorted => 0
  }

  ghost predicate SortedBy(o: SortOrder, s: seq<Product>) {
    forall i, j :: 0 <= i < j < |s| ==> Key(o, s[i]) <= Key(o, s[j])
  }

  /** Inserts x before the first element whose key is not smaller (so equal keys keep their order). */
  function Insert(o: SortOrder, x: Product, s: seq<Product>): (r: seq<Product>) {
    if s == [] then [x]
    else if Key(o, x) <= Key(o, s[0]) then [x] + s
    else [s[0]] + Insert(o, x, s[1..])
  }

  /** Inserting adds exactly x. */
  lemma {:induction false} InsertAddsOne(o: SortOrder, x: Product, s: seq<Product>)
    ensures multiset(Insert(o, x, s)) == multiset(s) + multiset{x}
  {
    if s != [] {
      assert s == [s[0]] + s[1..];
      if Key(o, x) > Key(o, s[0]) {
        InsertAddsOne(o, x, s[1..]);
      }
    }
  }

  /** A lower bound on the keys of x and of s bounds the keys of the result. */
  lemma {:induction false} InsertAbove(o: SortOrder, x: Product, s: seq<Product>, lo: int)
    requires Key(o, x) >= lo
    requires forall k :: 0 <= k < |s| ==> Key(o, s[k]) >= lo
    ensures forall k :: 0 <= k < |Insert(o, x, s)| ==> Key(o, Insert(o, x, s)[k]) >= lo
  {
    if s != [] && Key(o, x) > Key(o, s[0]) {
      var rest := Insert(o, x, s[1..]);
      InsertAbove(o, x, s[1..], lo);
      assert forall k :: 1 <= k < |rest| + 1 ==> ([s[0]] + rest)[k] == rest[k - 1];
    }
  }

  /** Inserting into a sorted list keeps it sorted. */
  lemma {:induction false} InsertSorted(o: SortOrder, x: Product, s: seq<Product>)
    requires SortedBy(o, s)
    ensures SortedBy(o, Insert(o, x, s))
  {
    if s == [] {
    } else if Key(o, x) <= Key(o, s[0]) {
      var r := [x] + s;
      forall i, j | 0 <= i < j < |r| ensures Key(o, r[i]) <= Key(o, r[j]) {
        assert r[j] == s[j - 1];
        if i > 0 {
          assert r[i] == s[i - 1];
        }
      }
    } else {
      var t := s[1..];
      var rest := Insert(o, x, t);
      assert SortedBy(o, t) by {
        forall i, j | 0 <= i < j < |t| ensures Key(o, t[i]) <= Key(o, t[j]) {
          assert t[i] == s[i + 1] && t[j] == s[j + 1];
        }
      }
      InsertSorted(o, x, t);
      assert forall k :: 0 <= k < |t| ==> Key(o, s[0]) <= Key(o, t[k]) by {
        forall k | 0 <= k < |t| ensures Key(o, s[0]) <= Key(o, t[k]) {
          assert t[k] == s[k + 1];
        }
      }
      InsertAbove(o, x, t, Key(o, s[0]));
      var r := [s[0]] + rest;
      forall i, j | 0 <= i < j < |r| ensures Key(o, r[i]) <= Key(o, r[j]) {
        assert r[j] == rest[j - 1];
        if i > 0 {
          assert r[i] == rest[i - 1];
        }
      }
    }
  }

  /** A stable insertion sort by Key. */
  function Sort(o: SortOrder, s: seq<Product>): (sorted: seq<Product>) {
    if s == [] then [] else Insert(o, s[0], Sort(o, s[1..]))
  }

  /** Sorting yields the requested order and a permutation of the input. */
  lemma {:induction false} SortSorted(o: SortOrder, s: seq<Product>)
    ensures SortedBy(o, Sort(o, s))
    ensures multiset(Sort(o, s)) == multiset(s)
  {
    if s != [] {
      SortSorted(o, s[1..]);
      InsertSorted(o, s[0], Sort(o, s[1..]));
      InsertAddsOne(o, s[0], Sort(o, s[1..]));
      assert s == [s[0]] + s[1..];
    }
  }

  /** With no order requested the store's natural order is kept. */
  lemma {:induction false} SortUnsortedKeepsOrder(s: seq<Product>)
    ensures Sort(Unsorted, s) == s
  {
    if s != [] {
      SortUnsortedKeepsOrder(s[1..]);
    }
  }

  function InCategory(c: string): Product -> bool {
    (p: Product) => p.category == c
  }

  /** The query document: `{ category: query }` when `query` is truthy, otherwise no filter. */
  function Matching(all: seq<Product>, query: Option<string>): (matches: seq<Product>) {
    if query.None? || query.value == "" then all else Seqs.Filter(all, InCategory(query.value))
  }

  /** `.skip(skip).limit(limit)` on an ordered result. */
  function Window(s: seq<Product>, skip: nat, limit: nat): (block: seq<Product>) {
    var lo := if skip < |s| then skip else |s|;
    var hi := if skip + limit < |s| then skip + limit else |s|;
    s[lo..hi]
  }

  /** `Math.ceil(n / d)` for a whole n >= 0 and d >= 1: the number of blocks of d that n fills. */
  function CeilDiv(n: nat, d: nat): (k: nat)
    requires d >= 1
    decreases n
  {
    if n == 0 then 0 else if n <= d then 1 else 1 + CeilDiv(n - d, d)
  }

  /**
   * k blocks of l, that is k * l, as repeated addition; the model's paging arithmetic
   * is stated with it so that it stays linear.
   */
  function Times(k: nat, l: nat): (product: nat) {
    if k == 0 then 0 else Times(k - 1, l) + l
  }

  lemma {:induction false} TimesIsProduct(k: nat, l: nat)
    ensures Times(k, l) == k * l
  {
    if k > 0 {
      TimesIsProduct(k - 1, l);
      assert k * l == (k - 1) * l + l;
    }
  }

  lemma {:induction false} TimesMono(a: nat, b: nat, l: nat)
    requires a <= b
    ensures Times(a, l) <= Times(b, l)
    decreases b
  {
    if a < b {
      TimesMono(a, b - 1, l);
    }
  }

  /** k blocks of d hold n and k - 1 would not: k is `Math.ceil(n / d)`. */
  predicate FewestBlocks(k: nat, d: nat, n: nat) {
    && Times(k, d) >= n
    && (k > 0 ==> Times(k - 1, d) < n)
    && (k == 0 <==> n == 0)
  }

  /** CeilDiv(n, d) is the least number of blocks of d that hold n. */
  lemma {:induction false} CeilDivIsCeiling(n: nat, d: nat)
    requires d >= 1
    ensures FewestBlocks(CeilDiv(n, d), d, n)
    decreases n
  {
    if n > d {
      CeilDivIsCeiling(n - d, d);
    }
  }

  /** A template literal renders `undefined` for a missing value. */
  function Render(v: Option<string>): (text: string) {
    if v.None? then "undefined" else v.value
  }

  const LinkPrefix: string := "/api/products?limit="
  const PageSeparator: string := "&page="

  /** The text after the page number: `&sort=${sort}&query=${query}`. */
  function LinkTail(sort: Option<string>, query: Option<string>): (r: string)
    ensures r != [] && !IsDigit(r[0])
  {
    "&sort=" + Render(sort) + "&query=" + Render(query)
  }

  /** `/api/products?limit=${limit}&page=${page}&sort=${sort}&query=${query}` */
  function Link(limit: nat, page: nat, sort: Option<string>, query: Option<string>): (link: string) {
    LinkPrefix + (Digits(limit) + (PageSeparator + (Digits(page) + LinkTail(sort, query))))
  }

  /** The text after a leading `pre`, if s starts with it. */
  function StripPrefix(pre: string, s: string): (rest: Option<string>) {
    if |s| < |pre| || s[..|pre|] != pre then None else Some(s[|pre|..])
  }

  lemma StripPrefixOf(pre: string, rest: string)
    ensures StripPrefix(pre, pre + rest) == Some(rest)
  {
    assert (pre + rest)[..|pre|] == pre;
    assert (pre + rest)[|pre|..] == rest;
  }

  /** A number read off the front of a text, and the text after it. */
  datatype Number = Number(value: nat, rest: string)

  /** A leading non-empty run of digits, read as a number, and the text after it. */
  function ParseNumber(s: string): (number: Option<Number>) {
    var (d, rest) := SpanDigits(s);
    if d == [] then None else Some(Number(ParseDigits(d), rest))
  }

  lemma ParseNumberOf(n: nat, rest: string)
    requires rest != [] ==> !IsDigit(rest[0])
    ensures ParseNumber(Digits(n) + rest) == Some(Number(n, rest))
  {
    SpanDigitsOf(Digits(n), rest);
    DigitsRoundTrip(n);
  }

  /** What ParseLink reads off a link. */
  datatype LinkFields = LinkFields(limit: nat, page: nat, rest: string)

  /** Reads the limit and page back out of a link, with the text after the page number. */
  function ParseLink(s: string): (fields: Option<LinkFields>) {
    match StripPrefix(LinkPrefix, s)
    case None => None
    case Some(afterPrefix) =>
      match ParseNumber(afterPrefix)
      case None => None
      case Some(Number(limit, afterLimit)) =>
        match StripPrefix(PageSeparator, afterLimit)
        case None => None
        case Some(afterSeparator) =>
          match ParseNumber(afterSeparator)
          case None => None
          case Some(Number(page, rest)) => Some(LinkFields(limit, page, rest))
  }

  datatype Page = Page(
    docs: seq<Product>,
    totalPages: nat,
    prevPage: Option<int>,
    nextPage: Option<int>,
    page: int,
    hasPrevPage: bool,
    hasNextPage: bool,
    prevLink: Option<string>,
    nextLink: Option<string>)

  function OrDefault(v: Option<int>, d: int): (value: int) {
    if v.Some? then v.value else d
  }

  /** Paging arguments the model covers: whole numbers of at least 1 (or absent, taking the defaults). */
  predicate PagingArgs(limit: Option<int>, page: Option<int>) {
    OrDefault(limit, DefaultLimit) >= 1 && OrDefault(page, DefaultPage) >= 1
  }

  /** `skip = (page - 1) * limit`: the number of ordered products before the requested page. */
  function Skip(limit: Option<int>, page: Option<int>): (skip: nat)
    requires PagingArgs(limit, page)
  {
    Times(OrDefault(page, DefaultPage) - 1, OrDefault(limit, DefaultLimit))
  }

  /** The products in `getAllProducts`'s order: filtered, then sorted. */
  function Ordered(all: seq<Product>, sort: Option<string>, query: Option<string>): (ordered: seq<Product>) {
    Sort(SortOrderOf(sort), Matching(all, query))
  }

  /** `getAllProducts({ limit, page, sort, query })` over the collection `all` in natural order. */
  function GetAllProducts(all: seq<Product>, limit: Option<int>, page: Option<int>,
                          sort: Option<string>, query: Option<string>): (r: Page)
    requires PagingArgs(limit, page)
    ensures |r.docs| <= OrDefault(limit, DefaultLimit)
    ensures r.page == OrDefault(page, DefaultPage)
  {
    var l: nat := OrDefault(limit, DefaultLimit);
    var pg: nat := OrDefault(page, DefaultPage);
    var docs := Window(Ordered(all, sort, query), Skip(limit, page), l);
    Paginate(docs, CeilDiv(|Matching(all, query)|, l), l, pg, sort, query)
  }

  /** The pagination record around one page of documents. */
  function Paginate(docs: seq<Product>, totalPages: nat, l: nat, pg: nat,
                    sort: Option<string>, query: Option<string>): Page {
    var hasPrevPage := pg > 1;
    var hasNextPage := pg < totalPages;
    Page(docs, totalPages,
         if hasPrevPage then Some(pg - 1) else None,
         if hasNextPage then Some(pg + 1) else None,
         pg, hasPrevPage, hasNextPage,
         if hasPrevPage then Some(Link(l, pg - 1, sort, query)) else None,
         if hasNextPage then Some(Link(l, pg + 1, sort, query)) else None)
  }

  /** The page is the block of the ordered products that starts after (page - 1) * limit of them. */
  lemma PageIsWindow(all: seq<Product>, limit: Option<int>, page: Option<int>, sort: Option<string>, query: Option<string>)
    requires PagingArgs(limit, page)
    ensures var docs := GetAllProducts(all, limit, page, sort, query).docs;
            var l := OrDefault(limit, DefaultLimit);
            var skip := Skip(limit, page);
            var s := Ordered(all, sort, query);
            && (skip < |s| ==> |docs| == Min(l, |s| - skip))
            && (skip >= |s| ==> docs == [])
            && forall j :: 0 <= j < |docs| ==> docs[j] == s[skip + j]
  {
    var l: nat := OrDefault(limit, DefaultLimit);
    var s := Ordered(all, sort, query);
    assert GetAllProducts(all, limit, page, sort, query).docs == Window(s, Skip(limit, page), l);
    WindowFacts(s, Skip(limit, page), l);
  }

  lemma WindowFacts(s: seq<Product>, skip: nat, l: nat)
    ensures var w := Window(s, skip, l);
            && (skip < |s| ==> |w| == Min(l, |s| - skip))
            && (skip >= |s| ==> w == [])
            && forall j :: 0 <= j < |w| ==> w[j] == s[skip + j]
  {
  }

  function Min(a: int, b: int): (m: int) {
    if a < b then a else b
  }

  /** The ordered products are exactly the matching ones: the count uses the same filter as the page. */
  lemma OrderedIsPermutation(all: seq<Product>, sort: Option<string>, query: Option<string>)
    ensures multiset(Ordered(all, sort, query)) == multiset(Matching(all, query))
    ensures |Ordered(all, sort, query)| == |Matching(all, query)|
  {
    SortSorted(SortOrderOf(sort), Matching(all, query));
    assert |multiset(Ordered(all, sort, query))| == |multiset(Matching(all, query))|;
  }

  /** `totalPages = Math.ceil(totalProducts / limit)`: the fewest pages of `limit` that hold every matching product. */
  lemma TotalPagesIsCeiling(all: seq<Product>, limit: Option<int>, page: Option<int>, sort: Option<string>, query: Option<string>)
    requires PagingArgs(limit, page)
    ensures FewestBlocks(GetAllProducts(all, limit, page, sort, query).totalPages,
                         OrDefault(limit, DefaultLimit), |Matching(all, query)|)
  {
    var l: nat := OrDefault(limit, DefaultLimit);
    var total := |Matching(all, query)|;
    assert GetAllProducts(all, limit, page, sort, query).totalPages == CeilDiv(total, l);
    CeilDivIsCeiling(total, l);
  }

  /** The neighbour fields: a previous page exactly when page > 1, a next page exactly when page < totalPages. */
  predicate NeighbourFields(r: Page) {
    && (r.hasPrevPage <==> r.page > 1)
    && r.prevPage == (if r.hasPrevPage then Some(r.page - 1) else None)
    && (r.hasNextPage <==> r.page < r.totalPages)
    && r.nextPage == (if r.hasNextPage then Some(r.page + 1) else None)
  }

  lemma PaginateNeighbours(docs: seq<Product>, totalPages: nat, l: nat, pg: nat, sort: Option<string>, query: Option<string>)
    ensures NeighbourFields(Paginate(docs, totalPages, l, pg, sort, query))
  {
  }

  /** Every listing's record has its neighbour fields right. */
  lemma NeighbourPages(all: seq<Product>, limit: Option<int>, page: Option<int>, sort: Option<string>, query: Option<string>)
    requires PagingArgs(limit, page)
    ensures NeighbourFields(GetAllProducts(all, limit, page, sort, query))
  {
    var l: nat := OrDefault(limit, DefaultLimit);
    var docs := Window(Ordered(all, sort, query), Skip(limit, page), l);
    var totalPages := CeilDiv(|Matching(all, query)|, l);
    assert GetAllProducts(all, limit, page, sort, query) == Paginate(docs, totalPages, l, OrDefault(page, DefaultPage), sort, query);
    PaginateNeighbours(docs, totalPages, l, OrDefault(page, DefaultPage), sort, query);
  }

  /** There is a next page exactly when that page holds a product. */
  lemma NextPageNonEmpty(all: seq<Product>, limit: Option<int>, page: Option<int>, sort: Option<string>, query: Option<string>)
    requires PagingArgs(limit, page)
    ensures var r := GetAllProducts(all, limit, page, sort, query);
            r.hasNextPage <==> GetAllProducts(all, limit, Some(r.page + 1), sort, query).docs != []
  {
    var l: nat := OrDefault(limit, DefaultLimit);
    var pg: nat := OrDefault(page, DefaultPage);
    var total := |Matching(all, query)|;
    var t := CeilDiv(total, l);
    assert GetAllProducts(all, limit, page, sort, query).hasNextPage == (pg < t);
    assert GetAllProducts(all, limit, page, sort, query).page == pg;
    var next := Some(pg + 1);
    assert PagingArgs(limit, next);
    assert Skip(limit, next) == Times(pg, l);
    PageNonEmptyIff(all, limit, next, sort, query);
    BlocksBefore(pg, l, total);
  }

  /** A page holds a product exactly when fewer products than match are skipped before it. */
  lemma PageNonEmptyIff(all: seq<Product>, limit: Option<int>, page: Option<int>, sort: Option<string>, query: Option<string>)
    requires PagingArgs(limit, page)
    ensures GetAllProducts(all, limit, page, sort, query).docs != [] <==> Skip(limit, page) < |Matching(all, query)|
  {
    PageIsWindow(all, limit, page, sort, query);
    OrderedIsPermutation(all, sort, query);
  }

  /** Page pg is followed by another page exactly when the first pg pages leave something over. */
  lemma BlocksBefore(pg: nat, l: nat, total: nat)
    requires l >= 1
    ensures pg < CeilDiv(total, l) <==> Times(pg, l) < total
  {
    var t := CeilDiv(total, l);
    CeilDivIsCeiling(total, l);
    if pg < t {
      TimesMono(pg, t - 1, l);
    } else {
      TimesMono(t, pg, l);
    }
  }

  /** With a truthy query every listed product is in that category; every listed product is stored. */
  lemma DocsMatchQuery(all: seq<Product>, limit: Option<int>, page: Option<int>, sort: Option<string>, query: Option<string>)
    requires PagingArgs(limit, page)
    ensures var docs := GetAllProducts(all, limit, page, sort, query).docs;
            && (forall j :: 0 <= j < |docs| ==> docs[j] in all)
            && (query.Some? && query.value != "" ==>
                  forall j :: 0 <= j < |docs| ==> docs[j].category == query.value)
  {
    var docs := GetAllProducts(all, limit, page, sort, query).docs;
    var s := Ordered(all, sort, query);
    PageIsWindow(all, limit, page, sort, query);
    OrderedIsPermutation(all, sort, query);
    forall j | 0 <= j < |docs|
      ensures docs[j] in Matching(all, query)
    {
      assert docs[j] == s[Skip(limit, page) + j];
      assert docs[j] in multiset(s);
    }
    if query.Some? && query.value != "" {
      var m := Seqs.Filter(all, InCategory(query.value));
      forall j | 0 <= j < |docs|
        ensures docs[j] in all && docs[j].category == query.value
      {
        Seqs.FilterCounts(all, InCategory(query.value), docs[j]);
        assert multiset(m)[docs[j]] > 0;
      }
    }
  }

  /**
   * Listing the store's own documents (`this.model.find`) lists stored products only,
   * each as it is stored under its id.
   */
  lemma ListingFromStore(dao: ProductDAO, limit: Option<int>, page: Option<int>, sort: Option<string>, query: Option<string>)
    requires dao.Valid() && PagingArgs(limit, page)
    ensures var docs := GetAllProducts(dao.Documents(), limit, page, sort, query).docs;
            forall j :: 0 <= j < |docs| ==> docs[j].id in dao.products && dao.products[docs[j].id] == docs[j]
  {
    var all := dao.Documents();
    var docs := GetAllProducts(all, limit, page, sort, query).docs;
    DocsMatchQuery(all, limit, page, sort, query);
    forall j | 0 <= j < |docs|
      ensures docs[j].id in dao.products && dao.products[docs[j].id] == docs[j]
    {
      var i :| 0 <= i < |all| && all[i] == docs[j];
      assert all[i] == dao.products[dao.order[i]] && all[i].id == dao.order[i];
    }
  }

  /** The page is in the requested order; with an unknown sort value it keeps the natural order. */
  lemma DocsInOrder(all: seq<Product>, limit: Option<int>, page: Option<int>, sort: Option<string>, query: Option<string>)
    requires PagingArgs(limit, page)
    ensures var docs := GetAllProducts(all, limit, page, sort, query).docs;
            && (SortOrderOf(sort) == PriceAscending ==>
                  forall i, j :: 0 <= i < j < |docs| ==> docs[i].price <= docs[j].price)
            && (SortOrderOf(sort) == PriceDescending ==>
                  forall i, j :: 0 <= i < j < |docs| ==> docs[i].price >= docs[j].price)
            && (SortOrderOf(sort) == IdDescending ==>
                  forall i, j :: 0 <= i < j < |docs| ==> docs[i].id >= docs[j].id)
            && (SortOrderOf(sort) == Unsorted ==>
                  docs == Window(Matching(all, query), Skip(limit, page), OrDefault(limit, DefaultLimit)))
  {
    var o := SortOrderOf(sort);
    var l: nat := OrDefault(limit, DefaultLimit);
    var s := Ordered(all, sort, query);
    assert GetAllProducts(all, limit, page, sort, query).docs == Window(s, Skip(limit, page), l);
    SortSorted(o, Matching(all, query));
    WindowSorted(o, s, Skip(limit, page), l);
    SortedByMeans(o, Window(s, Skip(limit, page), l));
    if o == Unsorted {
      SortUnsortedKeepsOrder(Matching(all, query));
    }
  }

  /** A window of a sorted list is sorted. */
  lemma WindowSorted(o: SortOrder, s: seq<Product>, skip: nat, l: nat)
    requires SortedBy(o, s)
    ensures SortedBy(o, Window(s, skip, l))
  {
    var w := Window(s, skip, l);
    var lo := if skip < |s| then skip else |s|;
    forall i, j | 0 <= i < j < |w| ensures Key(o, w[i]) <= Key(o, w[j]) {
      assert w[i] == s[lo + i] && w[j] == s[lo + j];
    }
  }

  /** What being sorted by each order says about prices and ids. */
  lemma SortedByMeans(o: SortOrder, s: seq<Product>)
    requires SortedBy(o, s)
    ensures o == PriceAscending ==> forall i, j :: 0 <= i < j < |s| ==> s[i].price <= s[j].price
    ensures o == PriceDescending ==> forall i, j :: 0 <= i < j < |s| ==> s[i].price >= s[j].price
    ensures o == IdDescending ==> forall i, j :: 0 <= i < j < |s| ==> s[i].id >= s[j].id
  {
    forall i, j | 0 <= i < j < |s| ensures Key(o, s[i]) <= Key(o, s[j]) {
    }
  }

  /** Pages 1 to n, one after the other. */
  ghost function PagesUpTo(all: seq<Product>, l: nat, sort: Option<string>, query: Option<string>, n: nat): seq<Product>
    requires l >= 1
  {
    if n == 0 then [] else PagesUpTo(all, l, sort, query, n - 1) + GetAllProducts(all, Some(l), Some(n), sort, query).docs
  }

  lemma {:induction false} PagesUpToIsPrefix(all: seq<Product>, l: nat, sort: Option<string>, query: Option<string>, n: nat)
    requires l >= 1
    ensures PagesUpTo(all, l, sort, query, n) == Ordered(all, sort, query)[..Min(Times(n, l), |Ordered(all, sort, query)|)]
  {
    PagesAreWindows(all, l, sort, query, n);
    WindowsArePrefix(Ordered(all, sort, query), l, n);
  }

  /** Windows 1 to n of an ordered list. */
  ghost function Windows(s: seq<Product>, l: nat, n: nat): seq<Product>
  {
    if n == 0 then [] else Windows(s, l, n - 1) + Window(s, Times(n - 1, l), l)
  }

  lemma {:induction false} WindowsArePrefix(s: seq<Product>, l: nat, n: nat)
    ensures Windows(s, l, n) == s[..Min(Times(n, l), |s|)]
  {
    if n > 0 {
      WindowsArePrefix(s, l, n - 1);
      var k := Times(n - 1, l);
      var a, b := Min(k, |s|), Min(k + l, |s|);
      assert Window(s, k, l) == s[a..b];
      PrefixThenSlice(s, a, b);
    }
  }

  lemma PrefixThenSlice(s: seq<Product>, a: nat, b: nat)
    requires a <= b <= |s|
    ensures s[..a] + s[a..b] == s[..b]
  {
  }

  lemma {:induction false} PagesAreWindows(all: seq<Product>, l: nat, sort: Option<string>, query: Option<string>, n: nat)
    requires l >= 1
    ensures PagesUpTo(all, l, sort, query, n) == Windows(Ordered(all, sort, query), l, n)
  {
    if n > 0 {
      PagesAreWindows(all, l, sort, query, n - 1);
      assert Skip(Some(l), Some(n)) == Times(n - 1, l);
    }
  }

  /**
   * Paging covers the listing: pages 1 to totalPages, concatenated, are all the
   * matching products in the requested order.
   */
  lemma PagesCoverListing(all: seq<Product>, l: nat, sort: Option<string>, query: Option<string>)
    requires l >= 1
    ensures PagesUpTo(all, l, sort, query, GetAllProducts(all, Some(l), None, sort, query).totalPages)
            == Ordered(all, sort, query)
  {
    var s := Ordered(all, sort, query);
    var total := CeilDiv(|Matching(all, query)|, l);
    assert GetAllProducts(all, Some(l), None, sort, query).totalPages == total;
    assert PagesUpTo(all, l, sort, query, total) == s by {
      CeilDivIsCeiling(|Matching(all, query)|, l);
      OrderedIsPermutation(all, sort, query);
      PagesUpToIsPrefix(all, l, sort, query, total);
      assert s[..|s|] == s;
    }
  }

  /** Every page after the last one is empty. */
  lemma LaterPagesEmpty(all: seq<Product>, l: nat, sort: Option<string>, query: Option<string>, later: nat)
    requires l >= 1
    requires later > GetAllProducts(all, Some(l), None, sort, query).totalPages
    ensures GetAllProducts(all, Some(l), Some(later), sort, query).docs == []
  {
    var total := CeilDiv(|Matching(all, query)|, l);
    assert GetAllProducts(all, Some(l), None, sort, query).totalPages == total;
    CeilDivIsCeiling(|Matching(all, query)|, l);
    TimesMono(total, later - 1, l);
    assert Skip(Some(l), Some(later)) == Times(later - 1, l);
    PageNonEmptyIff(all, Some(l), Some(later), sort, query);
  }

  /** A link carries the limit and page it was built from, followed by the sort and query text. */
  lemma LinkRoundTrip(limit: nat, page: nat, sort: Option<string>, query: Option<string>)
    ensures ParseLink(Link(limit, page, sort, query)) == Some(LinkFields(limit, page, LinkTail(sort, query)))
  {
    var tail := LinkTail(sort, query);
    var afterPage := Digits(page) + tail;
    var afterLimit := PageSeparator + afterPage;
    StripPrefixOf(LinkPrefix, Digits(limit) + afterLimit);
    ParseNumberOf(limit, afterLimit);
    StripPrefixOf(PageSeparator, afterPage);
    ParseNumberOf(page, tail);
  }

  /**
   * `prevLink`/`nextLink` exist exactly with their flags and point at page - 1 / page + 1
   * with limit l and the same sort and query.
   */
  predicate LinksPointAtNeighbours(r: Page, l: nat, sort: Option<string>, query: Option<string>) {
    PrevLinkRight(r, l, sort, query) && NextLinkRight(r, l, sort, query)
  }

  predicate PrevLinkRight(r: Page, l: nat, sort: Option<string>, query: Option<string>) {
    && (r.prevLink.Some? <==> r.hasPrevPage)
    && (r.prevLink.Some? ==>
          r.page >= 1 && ParseLink(r.prevLink.value) == Some(LinkFields(l, r.page - 1, LinkTail(sort, query))))
  }

  predicate NextLinkRight(r: Page, l: nat, sort: Option<string>, query: Option<string>) {
    && (r.nextLink.Some? <==> r.hasNextPage)
    && (r.nextLink.Some? ==>
          r.page >= 0 && ParseLink(r.nextLink.value) == Some(LinkFields(l, r.page + 1, LinkTail(sort, query))))
  }

  /** Every listing's links point at its neighbouring pages. */
  lemma ListingLinks(all: seq<Product>, limit: Option<int>, page: Option<int>, sort: Option<string>, query: Option<string>)
    requires PagingArgs(limit, page)
    ensures LinksPointAtNeighbours(GetAllProducts(all, limit, page, sort, query), OrDefault(limit, DefaultLimit), sort, query)
  {
    var l: nat := OrDefault(limit, DefaultLimit);
    var docs := Window(Ordered(all, sort, query), Skip(limit, page), l);
    var totalPages := CeilDiv(|Matching(all, query)|, l);
    assert GetAllProducts(all, limit, page, sort, query) == Paginate(docs, totalPages, l, OrDefault(page, DefaultPage), sort, query);
    PaginateLinks(docs, totalPages, l, OrDefault(page, DefaultPage), sort, query);
  }

  /** The record built around any page of documents has links to its neighbours. */
  lemma PaginateLinks(docs: seq<Product>, totalPages: nat, l: nat, pg: nat, sort: Option<string>, query: Option<string>)
    ensures LinksPointAtNeighbours(Paginate(docs, totalPages, l, pg, sort, query), l, sort, query)
  {
    PaginatePrevLink(docs, totalPages, l, pg, sort, query);
    PaginateNextLink(docs, totalPages, l, pg, sort, query);
  }

  lemma PaginatePrevLink(docs: seq<Product>, totalPages: nat, l: nat, pg: nat, sort: Option<string>, query: Option<string>)
    ensures PrevLinkRight(Paginate(docs, totalPages, l, pg, sort, query), l, sort, query)
  {
    var r := Paginate(docs, totalPages, l, pg, sort, query);
    if pg > 1 {
      assert r.prevLink == Some(Link(l, pg - 1, sort, query));
      LinkRoundTrip(l, pg - 1, sort, query);
    }
  }

  /** A next link built from the record's own page number points at the page after it. */
  lemma NextLinkOf(r: Page, l: nat, sort: Option<string>, query: Option<string>)
    requires r.page >= 0
    requires r.nextLink == if r.hasNextPage then Some(Link(l, r.page + 1, sort, query)) else None
    ensures NextLinkRight(r, l, sort, query)
  {
    if r.hasNextPage {
      LinkRoundTrip(l, r.page + 1, sort, query);
    }
  }

  lemma PaginateNextLink(docs: seq<Product>, totalPages: nat, l: nat, pg: nat, sort: Option<string>, query: Option<string>)
    ensures NextLinkRight(Paginate(docs, totalPages, l, pg, sort, query), l, sort, query)
  {
    var r := Paginate(docs, totalPages, l, pg, sort, query);
    assert r.page == pg;
    assert r.nextLink == if r.hasNextPage then Some(Link(l, r.page + 1, sort, query)) else None;
    NextLinkOf(r, l, sort, query);
  }

}
