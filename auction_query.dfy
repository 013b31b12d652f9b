/**
 * The auction query repository: optional filter predicates built from a search
 * condition, two sort-key resolvers with different fallback rules, the
 * over-fetch-by-one slice trimming, the three paged queries and the
 * end-of-auction status job.
 */
module AuctionQuery {
  import opened Wrappers
  import opened Exceptions
  import opened AuctionDomain
  import opened QueryModel

  /* ------------------------------------------------------------- inputs */

  /** Every field is optional; `None` is a null request field. */
  datatype SearchCondition = SearchCondition(
    keyword: Option<string>,
    productCategory: Option<string>,
    tradeMethod: Option<string>,
    si: Option<string>,
    gu: Option<string>,
    dong: Option<string>,
    minPrice: Option<int>,
    maxPrice: Option<int>,
    isNewProduct: Option<bool>,
    isProgress: Option<bool>)

  /**
   * A page request: size, offset and the property names of its sort terms, in
   * order. The direction a caller attaches to a term is never consulted.
   */
  datatype Pageable = Pageable(pageSize: nat, offset: nat, sort: seq<string>)

  /** A page of auctions and whether more rows exist after it. */
  datatype Slice = Slice(content: seq<Auction>, pageable: Pageable, hasNext: bool)

  /** `TradeMethod.of`: turns a label into a trade method, or throws. */
  type TradeMethodParser = string -> Result<TradeMethod, Exception>

  /* ---------------------------------------------------- StringUtils.hasText */

  /** `Character.isWhitespace`: space separators other than the no-break ones, line and paragraph separators, and the ASCII controls \t..\r, \u001C..\u001F. */
  predicate IsWhitespace(c: char) {
    || '\t' <= c <= '\r'
    || '\U{1C}' <= c <= '\U{1F}'
    || c == ' '
    || c == '\U{1680}'
    || ('\U{2000}' <= c <= '\U{200A}' && c != '\U{2007}')
    || c == '\U{2028}' || c == '\U{2029}' || c == '\U{205F}' || c == '\U{3000}'
  }

  /** `StringUtils.hasText`: not null and holding some non-whitespace character. */
  predicate HasText(s: Option<string>) {
    s.Some? && exists i :: 0 <= i < |s.value| && !IsWhitespace(s.value[i])
  }

  /* -------------------------------------------------- predicate builders */

  /** Only a null keyword is absent; any other keyword, even "" or " ", is a substring test. */
  function KeywordContains(keyword: Option<string>): (p: Option<Predicate>)
    ensures p.Some? <==> keyword.Some?
    ensures p.Some? ==> forall a :: Holds(p.value, a) <==> Contains(a.title, keyword.value)
  {
    if keyword.Some? then Some(TitleContains(keyword.value)) else None
  }

  /** Absent for a null or blank category; otherwise an exact match on the category value. */
  function CategoryEq(productCategory: Option<string>): (p: Option<Predicate>)
    ensures p.Some? <==> HasText(productCategory)
    ensures p.Some? ==> forall a :: Holds(p.value, a) <==>
      a.product.category.Some? && a.product.category.value.value == productCategory.value
  {
    if HasText(productCategory) then Some(CategoryValueEq(productCategory.value)) else None
  }

  /** Absent for a null or blank label; otherwise the parser's failure, or a match on the parsed method. */
  function TradeMethodEq(tradeMethod: Option<string>, parse: TradeMethodParser): (r: Result<Option<Predicate>, Exception>)
    ensures r == Ok(None) <==> !HasText(tradeMethod)
    ensures r.Err? <==> HasText(tradeMethod) && parse(tradeMethod.value).Err?
    ensures r.Err? ==> r.error == parse(tradeMethod.value).error
    ensures r.Ok? && r.value.Some? ==> forall a :: Holds(r.value.value, a) <==> parse(tradeMethod.value) == Ok(a.tradeMethod)
  {
    if HasText(tradeMethod) then
      match parse(tradeMethod.value)
      case Ok(m) => Ok(Some(QueryModel.TradeMethodEq(m)))
      case Err(e) => Err(e)
    else Ok(None)
  }

  function SiEq(si: Option<string>): (p: Option<Predicate>)
    ensures p.Some? <==> HasText(si)
    ensures p.Some? ==> forall a :: Holds(p.value, a) <==> a.tradingLocation.si == si.value
  {
    if HasText(si) then Some(QueryModel.SiEq(si.value)) else None
  }

  function GuEq(gu: Option<string>): (p: Option<Predicate>)
    ensures p.Some? <==> HasText(gu)
    ensures p.Some? ==> forall a :: Holds(p.value, a) <==> a.tradingLocation.gu == gu.value
  {
    if HasText(gu) then Some(QueryModel.GuEq(gu.value)) else None
  }

  function DongEq(dong: Option<string>): (p: Option<Predicate>)
    ensures p.Some? <==> HasText(dong)
    ensures p.Some? ==> forall a :: Holds(p.value, a) <==> a.tradingLocation.dong == dong.value
  {
    if HasText(dong) then Some(QueryModel.DongEq(dong.value)) else None
  }

  /** An inclusive lower bound on the initial price, absent when null. */
  function InitPriceMin(minPrice: Option<int>): (p: Option<Predicate>)
    ensures p.Some? <==> minPrice.Some?
    ensures p.Some? ==> forall a :: Holds(p.value, a) <==> minPrice.value <= a.initPrice
  {
    if minPrice.Some? then Some(InitPriceGoe(minPrice.value)) else None
  }

  /** An inclusive upper bound on the initial price, absent when null. */
  function InitPriceMax(maxPrice: Option<int>): (p: Option<Predicate>)
    ensures p.Some? <==> maxPrice.Some?
    ensures p.Some? ==> forall a :: Holds(p.value, a) <==> a.initPrice <= maxPrice.value
  {
    if maxPrice.Some? then Some(InitPriceLoe(maxPrice.value)) else None
  }

  /** Three-valued: true keeps NEW products, false keeps CLEAN or DIRTY ones, null keeps all. */
  function IsNewProductEq(isNewProduct: Option<bool>): (p: Option<Predicate>)
    ensures p.Some? <==> isNewProduct.Some?
    ensures p.Some? ==> forall a :: Holds(p.value, a) <==> (a.product.status == New) == isNewProduct.value
  {
    if isNewProduct.None? then None
    else if isNewProduct.value then Some(ProductStatusEq(New))
    else Some(Or(ProductStatusEq(Clean), ProductStatusEq(Dirty)))
  }

  /** Constrains only when true: then only BIDDING auctions pass. */
  function IsProgressEq(isProgress: Option<bool>): (p: Option<Predicate>)
    ensures p.Some? <==> isProgress == Some(true)
    ensures p.Some? ==> forall a :: Holds(p.value, a) <==> a.status == Bidding
  {
    if isProgress == Some(true) then Some(StatusEq(Bidding)) else None
  }

  /** The `where(...)` list of `searchAuctions`, in argument order; only the trade-method entry can throw. */
  function SearchWhere(c: SearchCondition, parse: TradeMethodParser): (r: Result<Where, Exception>)
    ensures r.Err? <==> HasText(c.tradeMethod) && parse(c.tradeMethod.value).Err?
    ensures r.Err? ==> r.error == parse(c.tradeMethod.value).error
  {
    match TradeMethodEq(c.tradeMethod, parse)
    case Err(e) => Err(e)
    case Ok(tradeMethod) =>
      Ok([KeywordContains(c.keyword),
          CategoryEq(c.productCategory),
          tradeMethod,
          SiEq(c.si),
          GuEq(c.gu),
          DongEq(c.dong),
          InitPriceMin(c.minPrice),
          InitPriceMax(c.maxPrice),
          IsNewProductEq(c.isNewProduct),
          IsProgressEq(c.isProgress)])
  }

  /**
   * What a search condition asks of one auction, field by field, written
   * independently of the predicate builders.
   */
  predicate Satisfies(c: SearchCondition, parse: TradeMethodParser, a: Auction) {
    && (c.keyword.Some? ==> Contains(a.title, c.keyword.value))
    && (HasText(c.productCategory) ==>
          a.product.category.Some? && a.product.category.value.value == c.productCategory.value)
    && (HasText(c.tradeMethod) ==> parse(c.tradeMethod.value) == Ok(a.tradeMethod))
    && (HasText(c.si) ==> a.tradingLocation.si == c.si.value)
    && (HasText(c.gu) ==> a.tradingLocation.gu == c.gu.value)
    && (HasText(c.dong) ==> a.tradingLocation.dong == c.dong.value)
    && (c.minPrice.Some? ==> a.initPrice >= c.minPrice.value)
    && (c.maxPrice.Some? ==> a.initPrice <= c.maxPrice.value)
    && (c.isNewProduct == Some(true) ==> a.product.status == New)
    && (c.isNewProduct == Some(false) ==> a.product.status == Clean || a.product.status == Dirty)
    && (c.isProgress == Some(true) ==> a.status == Bidding)
  }

  /** The built `where` list holds of an auction exactly when the auction satisfies the condition. */
  lemma SearchWhereMeansCondition(c: SearchCondition, parse: TradeMethodParser, a: Auction)
    requires SearchWhere(c, parse).Ok?
    ensures Matches(SearchWhere(c, parse).value, a) <==> Satisfies(c, parse, a)
  {
    var w := SearchWhere(c, parse).value;
    var p0, p1, p2 := KeywordContains(c.keyword), CategoryEq(c.productCategory), TradeMethodEq(c.tradeMethod, parse).value;
    var p3, p4, p5 := SiEq(c.si), GuEq(c.gu), DongEq(c.dong);
    var p6, p7 := InitPriceMin(c.minPrice), InitPriceMax(c.maxPrice);
    var p8, p9 := IsNewProductEq(c.isNewProduct), IsProgressEq(c.isProgress);
    assert w == [p0, p1, p2, p3, p4, p5, p6, p7, p8, p9];
    assert Allows(p2, a) <==> (HasText(c.tradeMethod) ==> parse(c.tradeMethod.value) == Ok(a.tradeMethod));
    assert Allows(p8, a) <==>
      (c.isNewProduct == Some(true) ==> a.product.status == New) &&
      (c.isNewProduct == Some(false) ==> a.product.status == Clean || a.product.status == Dirty);
    TenEntries(w, a);
  }

  /** A ten-entry `where` list holds exactly when each of its entries does. */
  lemma TenEntries(w: Where, a: Auction)
    requires |w| == 10
    ensures Matches(w, a) <==>
      Allows(w[0], a) && Allows(w[1], a) && Allows(w[2], a) && Allows(w[3], a) && Allows(w[4], a) &&
      Allows(w[5], a) && Allows(w[6], a) && Allows(w[7], a) && Allows(w[8], a) && Allows(w[9], a)
  {}

  /** Every field null, or blank where blank counts as null, or an empty keyword, or isProgress false. */
  predicate Unconstrained(c: SearchCondition) {
    && (c.keyword == None || c.keyword == Some(""))
    && !HasText(c.productCategory) && !HasText(c.tradeMethod)
    && !HasText(c.si) && !HasText(c.gu) && !HasText(c.dong)
    && c.minPrice == None && c.maxPrice == None
    && c.isNewProduct == None
    && c.isProgress != Some(true)
  }

  /** An unconstrained condition never fails and keeps every auction, in table order. */
  lemma {:induction false} UnconstrainedKeepsEveryAuction(c: SearchCondition, parse: TradeMethodParser, rows: seq<Auction>)
    requires Unconstrained(c)
    ensures SearchWhere(c, parse).Ok?
    ensures Select(rows, SearchWhere(c, parse).value) == rows
  {
    var w := SearchWhere(c, parse).value;
    forall a | a in rows ensures Matches(w, a) {
      assert c.keyword.Some? ==> StartsWith(a.title, c.keyword.value);
      SearchWhereMeansCondition(c, parse, a);
    }
    SelectKeepsAll(rows, w);
  }

  /** Selecting with a `where` list that every row satisfies returns the rows unchanged. */
  lemma {:induction false} SelectKeepsAll(rows: seq<Auction>, w: Where)
    requires forall a :: a in rows ==> Matches(w, a)
    ensures Select(rows, w) == rows
  {
    if rows != [] {
      SelectKeepsAll(rows[1..], w);
      assert rows == [rows[0]] + rows[1..];
    }
  }

  /** For category, trade method, si, gu and dong a blank value is the same as null; for the keyword it is not. */
  lemma BlankIsNullExceptKeyword(s: string, parse: TradeMethodParser)
    requires !HasText(Some(s))
    ensures CategoryEq(Some(s)) == CategoryEq(None)
    ensures TradeMethodEq(Some(s), parse) == TradeMethodEq(None, parse)
    ensures SiEq(Some(s)) == SiEq(None) && GuEq(Some(s)) == GuEq(None) && DongEq(Some(s)) == DongEq(None)
    ensures KeywordContains(Some(s)) != KeywordContains(None)
    ensures s != "" ==> forall a: Auction :: a.title == "" ==> !Holds(KeywordContains(Some(s)).value, a)
  {}

  /** isProgress false and null build the same `where` list; only true constrains. */
  lemma IsProgressFalseIsNull(c: SearchCondition, parse: TradeMethodParser)
    ensures SearchWhere(c.(isProgress := Some(false)), parse) == SearchWhere(c.(isProgress := None), parse)
  {}

  /* ------------------------------------------------------- sort resolvers */

  const BookmarkCountDesc := OrderBy(BookmarkCount, Desc)
  const EndDateAsc := OrderBy(EndDate, Asc)
  const BiddingCountDesc := OrderBy(BiddingCount, Desc)
  const CreatedAtDesc := OrderBy(CreatedAt, Desc)

  /** The orderings a client may ask for by name. */
  predicate IsNamedOrdering(o: Ordering) {
    o == BookmarkCountDesc || o == EndDateAsc || o == BiddingCountDesc || o == CreatedAtDesc
  }

  /** The sort-key name that selects each named ordering. */
  function SortName(o: Ordering): string
    requires IsNamedOrdering(o)
  {
    if o == BookmarkCountDesc then "북마크수"
    else if o == EndDateAsc then "마감일"
    else if o == BiddingCountDesc then "입찰수"
    else "최근생성"
  }

  /** Search policy: the first sort term picks the ordering; anything else, or no term, means newest first. */
  function SearchAuctionSort(sort: seq<string>): (o: Ordering)
    ensures IsNamedOrdering(o)
    ensures o != CreatedAtDesc ==> |sort| > 0 && SortName(o) == sort[0]
    ensures |sort| == 0 ==> o == CreatedAtDesc
  {
    if |sort| == 0 then CreatedAtDesc
    else
      match sort[0]
      case "북마크수" => BookmarkCountDesc
      case "마감일" => EndDateAsc
      case "입찰수" => BiddingCountDesc
      case _ => CreatedAtDesc
  }

  /** Recommendation policy: the first sort term must name an ordering; no silent default. */
  function RecommendAuctionSort(sort: seq<string>): (r: Result<Ordering, Exception>)
    ensures r.Ok? ==> |sort| > 0 && IsNamedOrdering(r.value) && SortName(r.value) == sort[0]
    ensures |sort| == 0 ==> r == Err(ValidationException(Code(EmptySortInput)))
    ensures |sort| > 0 && r.Err? ==> r == Err(ValidationException(Code(InvalidSortInput)))
  {
    if |sort| == 0 then Err(ValidationException(Code(EmptySortInput)))
    else
      match sort[0]
      case "북마크수" => Ok(BookmarkCountDesc)
      case "마감일" => Ok(EndDateAsc)
      case "입찰수" => Ok(BiddingCountDesc)
      case "최근생성" => Ok(CreatedAtDesc)
      case _ => Err(ValidationException(Code(InvalidSortInput)))
  }

  /** Every named ordering is accepted by the recommendation policy under its name, whatever terms follow. */
  lemma RecommendSortAcceptsEveryName(o: Ordering, rest: seq<string>)
    requires IsNamedOrdering(o)
    ensures RecommendAuctionSort([SortName(o)] + rest) == Ok(o)
    ensures SearchAuctionSort([SortName(o)] + rest) == o
  {}

  /** The search policy is the recommendation policy with every failure replaced by newest first. */
  lemma SearchSortIsLenientRecommendSort(sort: seq<string>)
    ensures SearchAuctionSort(sort) ==
      match RecommendAuctionSort(sort)
      case Ok(o) => o
      case Err(_) => CreatedAtDesc
  {}

  /** Only the first sort term is consulted by either policy. */
  lemma OnlyFirstSortTermCounts(sort: seq<string>, more: seq<string>)
    requires |sort| > 0
    ensures SearchAuctionSort(sort + more) == SearchAuctionSort(sort[..1])
    ensures RecommendAuctionSort(sort + more) == RecommendAuctionSort(sort[..1])
  {}

  /* ---------------------------------------------------------- hasNext */

  /** The `List<Auction>` a query fetched: a growable list that `hasNext` trims in place. */
  class AuctionList {
    var elements: seq<Auction>

    constructor (elements: seq<Auction>)
      ensures this.elements == elements
    {
      this.elements := elements;
    }

    /** `List.remove(int)`: drops the element at `index`, closing the gap. */
    method RemoveAt(index: nat)
      requires index < |elements|
      modifies this
      ensures elements == old(elements[..index] + elements[index + 1..])
    {
      elements := elements[..index] + elements[index + 1..];
    }
  }

  /**
   * Whether more than `pageSize` rows were fetched; if so the element at index
   * `pageSize` is removed from the list.
   */
  method HasNext(pageSize: nat, auctions: AuctionList) returns (more: bool)
    modifies auctions
    ensures more <==> |old(auctions.elements)| > pageSize
    ensures !more ==> auctions.elements == old(auctions.elements)
    ensures more ==> auctions.elements == old(auctions.elements[..pageSize] + auctions.elements[pageSize + 1..])
  {
    if |auctions.elements| <= pageSize {
      return false;
    }
    auctions.RemoveAt(pageSize);
    return true;
  }

  /**
   * Fetching one row more than a page and trimming it yields exactly the page,
   * and the extra row exists exactly when rows remain after the page.
   */
  lemma OverFetchByOne(ranked: seq<Auction>, offset: nat, pageSize: nat)
    ensures var w := Window(ranked, offset, pageSize + 1);
      && (|w| > pageSize <==> offset + pageSize < |ranked|)
      && (|w| > pageSize ==> |w| == pageSize + 1 && w[..pageSize] + w[pageSize + 1..] == Window(ranked, offset, pageSize))
      && (|w| <= pageSize ==> w == Window(ranked, offset, pageSize))
  {}

  /** `slice` is the page of `ranked` its pageable asks for, with the right has-next flag. */
  predicate IsPageOf(slice: Slice, ranked: seq<Auction>) {
    && slice.content == Window(ranked, slice.pageable.offset, slice.pageable.pageSize)
    && (slice.hasNext <==> slice.pageable.offset + slice.pageable.pageSize < |ranked|)
  }

  /* ------------------------------------------------- the status job rule */

  /** The `where` list of the CANCELED statement. */
  function CanceledWhere(today: int): Where {
    [Some(EndDateLt(today)), Some(BiddingCountEq(0))]
  }

  /** The `where` list of the TRADING statement. */
  function TradingWhere(today: int): Where {
    [Some(EndDateLt(today)), Some(BiddingCountGoe(1))]
  }

  /**
   * What the end-of-auction job makes of one auction: ended with no bids means
   * CANCELED, ended with bids means TRADING, whatever the prior status.
   */
  function AfterEndDate(a: Auction, today: int): (b: Auction)
    ensures b == a.(status := b.status)
    ensures b.status != a.status ==> a.endDate < today && a.biddingCount >= 0
  {
    if a.endDate < today && a.biddingCount == 0 then a.(status := Canceled)
    else if a.endDate < today && a.biddingCount >= 1 then a.(status := Trading)
    else a
  }

  /** Running the job on its own output changes nothing. */
  lemma StatusJobIdempotent(rows: seq<Auction>, once: seq<Auction>, twice: seq<Auction>, today: int)
    requires |once| == |rows| && forall i :: 0 <= i < |rows| ==> once[i] == AfterEndDate(rows[i], today)
    requires |twice| == |once| && forall i :: 0 <= i < |once| ==> twice[i] == AfterEndDate(once[i], today)
    ensures twice == once
  {}

  /** The two UPDATE statements touch disjoint rows and read no status, so either order gives the job's result. */
  lemma StatusUpdatesCommute(rows: seq<Auction>, today: int)
    ensures var cancelFirst := BulkSetStatus(BulkSetStatus(rows, CanceledWhere(today), Canceled), TradingWhere(today), Trading);
      var tradeFirst := BulkSetStatus(BulkSetStatus(rows, TradingWhere(today), Trading), CanceledWhere(today), Canceled);
      && cancelFirst == tradeFirst
      && |cancelFirst| == |rows|
      && forall i :: 0 <= i < |rows| ==> cancelFirst[i] == AfterEndDate(rows[i], today)
  {
    var c1 := BulkSetStatus(rows, CanceledWhere(today), Canceled);
    var cancelFirst := BulkSetStatus(c1, TradingWhere(today), Trading);
    var t1 := BulkSetStatus(rows, TradingWhere(today), Trading);
    var tradeFirst := BulkSetStatus(t1, CanceledWhere(today), Canceled);
    forall i | 0 <= i < |rows|
      ensures cancelFirst[i] == AfterEndDate(rows[i], today) == tradeFirst[i]
    {
      StatementRow(rows[i], today);
    }
  }

  /** How each UPDATE statement's `where` list reads one row. */
  lemma StatementRow(a: Auction, today: int)
    ensures Matches(CanceledWhere(today), a) <==> a.endDate < today && a.biddingCount == 0
    ensures Matches(TradingWhere(today), a) <==> a.endDate < today && a.biddingCount >= 1
    ensures forall s :: Matches(CanceledWhere(today), a.(status := s)) == Matches(CanceledWhere(today), a)
    ensures forall s :: Matches(TradingWhere(today), a.(status := s)) == Matches(TradingWhere(today), a)
  {
    var cw := CanceledWhere(today);
    var tw := TradingWhere(today);
    assert Matches(cw, a) <== Holds(cw[0].value, a) && Holds(cw[1].value, a);
    assert Matches(tw, a) <== Holds(tw[0].value, a) && Holds(tw[1].value, a);
    forall s ensures Matches(cw, a.(status := s)) == Matches(cw, a) && Matches(tw, a.(status := s)) == Matches(tw, a) {
      assert Matches(cw, a.(status := s)) <== Holds(cw[0].value, a) && Holds(cw[1].value, a);
      assert Matches(tw, a.(status := s)) <== Holds(tw[0].value, a) && Holds(tw[1].value, a);
    }
  }

  /* ------------------------------------------------------- the repository */

  /** The repository over the auction table, which `auctions` holds row by row. */
  class AuctionQueryRepository {
    var auctions: seq<Auction>

    constructor (auctions: seq<Auction>)
      ensures this.auctions == auctions
    {
      this.auctions := auctions;
    }

    /**
     * Filtered, ordered by the search policy, one page. Fails only when the
     * trade-method label does not parse, before any row is read.
     */
    method SearchAuctions(condition: SearchCondition, pageable: Pageable, parse: TradeMethodParser)
      returns (r: Result<Slice, Exception>)
      ensures r.Err? <==> SearchWhere(condition, parse).Err?
      ensures r.Err? ==> r.error == SearchWhere(condition, parse).error
      ensures r.Ok? ==> r.value.pageable == pageable
      ensures r.Ok? ==> IsPageOf(r.value,
        SortBy(SearchAuctionSort(pageable.sort), Select(auctions, SearchWhere(condition, parse).value)))
    {
      var where := SearchWhere(condition, parse);
      if where.Err? {
        return Err(where.error);
      }
      var order := SearchAuctionSort(pageable.sort);
      var fetched := Fetch(auctions, where.value, order, pageable.offset, pageable.pageSize + 1);
      var content := new AuctionList(fetched);
      var more := HasNext(pageable.pageSize, content);
      OverFetchByOne(SortBy(order, Select(auctions, where.value)), pageable.offset, pageable.pageSize);
      r := Ok(Slice(content.elements, pageable, more));
    }

    /**
     * BIDDING auctions in the given si/gu/dong (blank means any), ordered by the
     * recommendation policy, one page. Fails when the sort key is missing or unknown.
     */
    method SortAuctionByCriteria(si: Option<string>, gu: Option<string>, dong: Option<string>, pageable: Pageable)
      returns (r: Result<Slice, Exception>)
      ensures r.Err? <==> RecommendAuctionSort(pageable.sort).Err?
      ensures r.Err? ==> r.error == RecommendAuctionSort(pageable.sort).error
      ensures r.Ok? ==> r.value.pageable == pageable
      ensures r.Ok? ==> IsPageOf(r.value,
        SortBy(RecommendAuctionSort(pageable.sort).value, Select(auctions, CriteriaWhere(si, gu, dong))))
      ensures r.Ok? ==> forall a :: a in r.value.content ==> a in auctions && a.status == Bidding
    {
      var where := CriteriaWhere(si, gu, dong);
      var order := RecommendAuctionSort(pageable.sort);
      if order.Err? {
        return Err(order.error);
      }
      var fetched := Fetch(auctions, where, order.value, pageable.offset, pageable.pageSize + 1);
      var content := new AuctionList(fetched);
      var more := HasNext(pageable.pageSize, content);
      OverFetchByOne(SortBy(order.value, Select(auctions, where)), pageable.offset, pageable.pageSize);
      forall a | a in content.elements ensures a.status == Bidding {
        assert where[0] == Some(StatusEq(Bidding));
      }
      r := Ok(Slice(content.elements, pageable, more));
    }

    /** Auctions whose product category is one of `categories`, most bookmarked first, one page. */
    method FindByProductCategories(categories: seq<ProductCategory>, pageable: Pageable) returns (s: Slice)
      ensures s.pageable == pageable
      ensures IsPageOf(s, SortBy(BookmarkCountDesc, Select(auctions, [Some(CategoryIn(categories))])))
      ensures forall a :: a in s.content ==>
        a in auctions && a.product.category.Some? && a.product.category.value in categories
    {
      var where := [Some(CategoryIn(categories))];
      var fetched := Fetch(auctions, where, BookmarkCountDesc, pageable.offset, pageable.pageSize + 1);
      var content := new AuctionList(fetched);
      var more := HasNext(pageable.pageSize, content);
      OverFetchByOne(SortBy(BookmarkCountDesc, Select(auctions, where)), pageable.offset, pageable.pageSize);
      forall a | a in content.elements ensures Holds(CategoryIn(categories), a) {
        assert Matches(where, a);
        assert where[0].Some?;
      }
      s := Slice(content.elements, pageable, more);
    }

    /**
     * The end-of-auction job as its two bulk UPDATE statements: first every
     * ended auction without bids becomes CANCELED, then every ended auction
     * with bids becomes TRADING.
     */
    method UpdateAuctionStatusAfterEndDate(today: int)
      modifies this
      ensures |auctions| == |old(auctions)|
      ensures forall i :: 0 <= i < |auctions| ==> auctions[i] == AfterEndDate(old(auctions[i]), today)
    {
      auctions := BulkSetStatus(auctions, CanceledWhere(today), Canceled);
      auctions := BulkSetStatus(auctions, TradingWhere(today), Trading);
      StatusUpdatesCommute(old(auctions), today);
    }
  }

  /** The `where(...)` list of `sortAuctionByCriteria`. */
  function CriteriaWhere(si: Option<string>, gu: Option<string>, dong: Option<string>): (w: Where)
    ensures forall a :: Matches(w, a) <==>
      && a.status == Bidding
      && (HasText(si) ==> a.tradingLocation.si == si.value)
      && (HasText(gu) ==> a.tradingLocation.gu == gu.value)
      && (HasText(dong) ==> a.tradingLocation.dong == dong.value)
  {
    var w := [Some(StatusEq(Bidding)), SiEq(si), GuEq(gu), DongEq(dong)];
    forall a ensures Matches(w, a) <==> Allows(w[0], a) && Allows(w[1], a) && Allows(w[2], a) && Allows(w[3], a) {
      if Allows(w[0], a) && Allows(w[1], a) && Allows(w[2], a) && Allows(w[3], a) {
        forall i | 0 <= i < |w| ensures Allows(w[i], a) {}
      }
    }
    w
  }
}
