/**
 * The meaning of the query-builder pieces the auction repository uses, stated
 * without the library: a boolean expression over one auction row, a `where`
 * list whose present entries are joined with AND, `ORDER BY` on one column,
 * `OFFSET`/`LIMIT`, and a bulk `UPDATE ... SET status ... WHERE ...`.
 */
module QueryModel {
  import opened Wrappers
  import opened AuctionDomain

  /* ---------------------------------------------------------------- text */

  /** `part` occurs in `text` starting at index 0. */
  predicate StartsWith(text: string, part: string) {
    |part| <= |text| && text[..|part|] == part
  }

  /** SQL `LIKE %part%` without wildcards in `part`: `part` occurs somewhere in `text`. */
  predicate Contains(text: string, part: string)
    ensures Contains(text, part) <==>
      exists i :: 0 <= i <= |text| - |part| && StartsWith(text[i..], part)
    decreases |text|
  {
    if StartsWith(text, part) then
      assert StartsWith(text[0..], part);
      true
    else if |text| == 0 then
      false
    else
      var r := Contains(text[1..], part);
      assert forall i :: 1 <= i <= |text| ==> text[i..] == text[1..][i - 1..];
      r
  }

  /* ---------------------------------------------------------- predicates */

  /** The boolean expressions the repository builds, one constructor per kind used. */
  datatype Predicate =
    | TitleContains(keyword: string)                 // auction.title.contains(k)
    | CategoryValueEq(categoryValue: string)         // product.productCategory.value.eq(v)
    | CategoryIn(categories: seq<ProductCategory>)   // auction.product.productCategory.in(list)
    | TradeMethodEq(tradeMethod: TradeMethod)          // auction.tradeMethod.eq(m)
    | SiEq(si: string)
    | GuEq(gu: string)
    | DongEq(dong: string)
    | InitPriceGoe(min: int)                         // auction.initPrice.goe(min)
    | InitPriceLoe(max: int)                         // auction.initPrice.loe(max)
    | ProductStatusEq(productStatus: ProductStatus)
    | StatusEq(status: AuctionStatus)
    | EndDateLt(day: int)                            // auction.endDate.lt(day)
    | BiddingCountEq(count: int)
    | BiddingCountGoe(count: int)
    | Or(left: Predicate, right: Predicate)

  /**
   * Whether row `a` satisfies `p`. A comparison against a missing (NULL)
   * category is not true, so category predicates fail on such rows.
   */
  predicate Holds(p: Predicate, a: Auction) {
    match p
    case TitleContains(k) => Contains(a.title, k)
    case CategoryValueEq(v) => a.product.category.Some? && a.product.category.value.value == v
    case CategoryIn(cs) => a.product.category.Some? && a.product.category.value in cs
    case TradeMethodEq(m) => a.tradeMethod == m
    case SiEq(si) => a.tradingLocation.si == si
    case GuEq(gu) => a.tradingLocation.gu == gu
    case DongEq(dong) => a.tradingLocation.dong == dong
    case InitPriceGoe(min) => a.initPrice >= min
    case InitPriceLoe(max) => a.initPrice <= max
    case ProductStatusEq(s) => a.product.status == s
    case StatusEq(s) => a.status == s
    case EndDateLt(d) => a.endDate < d
    case BiddingCountEq(n) => a.biddingCount == n
    case BiddingCountGoe(n) => a.biddingCount >= n
    case Or(l, r) => Holds(l, a) || Holds(r, a)
  }

  /** A `where(...)` argument list: absent entries impose nothing, present ones are ANDed. */
  type Where = seq<Option<Predicate>>

  predicate Allows(entry: Option<Predicate>, a: Auction) {
    entry.None? || Holds(entry.value, a)
  }

  predicate Matches(where: Where, a: Auction) {
    forall i :: 0 <= i < |where| ==> Allows(where[i], a)
  }

  /** The rows of `rows` that satisfy `where`, in their original order. */
  function Select(rows: seq<Auction>, where: Where): (r: seq<Auction>)
    ensures forall a :: multiset(r)[a] == if Matches(where, a) then multiset(rows)[a] else 0
    ensures |r| <= |rows|
  {
    if rows == [] then []
    else
      var rest := Select(rows[1..], where);
      assert rows == [rows[0]] + rows[1..];
      if Matches(where, rows[0]) then [rows[0]] + rest else rest
  }

  /* ------------------------------------------------------------ ordering */

  datatype SortKey = BookmarkCount | EndDate | BiddingCount | CreatedAt
  datatype Direction = Asc | Desc

  /** An `OrderSpecifier`: one column and a direction. */
  datatype Ordering = OrderBy(key: SortKey, direction: Direction)

  function KeyOf(key: SortKey, a: Auction): int {
    match key
    case BookmarkCount => a.bookmarkCount
    case EndDate => a.endDate
    case BiddingCount => a.biddingCount
    case CreatedAt => a.createdAt
  }

  /** `a` may be listed before `b` under ordering `o` (ties may go either way). */
  predicate Precedes(o: Ordering, a: Auction, b: Auction) {
    match o.direction
    case Asc => KeyOf(o.key, a) <= KeyOf(o.key, b)
    case Desc => KeyOf(o.key, a) >= KeyOf(o.key, b)
  }

  predicate Sorted(o: Ordering, s: seq<Auction>) {
    forall i, j :: 0 <= i < j < |s| ==> Precedes(o, s[i], s[j])
  }

  /** Inserts `x` before the first element of `s` it may precede. */
  function Insert(o: Ordering, x: Auction, s: seq<Auction>): (r: seq<Auction>)
    ensures multiset(r) == multiset(s) + multiset{x}
  {
    if s == [] then [x]
    else if Precedes(o, x, s[0]) then [x] + s
    else
      assert s == [s[0]] + s[1..];
      [s[0]] + Insert(o, x, s[1..])
  }

  /** Inserting into a sorted sequence keeps it sorted. */
  lemma {:induction false} InsertSorted(o: Ordering, x: Auction, s: seq<Auction>)
    requires Sorted(o, s)
    ensures Sorted(o, Insert(o, x, s))
  {
    if s != [] && !Precedes(o, x, s[0]) {
      var rest := Insert(o, x, s[1..]);
      InsertSorted(o, x, s[1..]);
      forall j | 0 <= j < |rest|
        ensures Precedes(o, s[0], rest[j])
      {
        assert rest[j] in multiset(rest);
        if rest[j] != x {
          assert rest[j] in multiset(s[1..]);
          var k :| 0 <= k < |s[1..]| && s[1..][k] == rest[j];
          assert s[k + 1] == rest[j];
        }
      }
    }
  }

  /**
   * One arrangement of `s` that `ORDER BY o` may return. The database leaves
   * the order of ties open; only sortedness and being a permutation are claimed.
   */
  function SortBy(o: Ordering, s: seq<Auction>): (r: seq<Auction>)
    ensures Sorted(o, r)
    ensures multiset(r) == multiset(s)
  {
    if s == [] then []
    else
      assert s == [s[0]] + s[1..];
      var rest := SortBy(o, s[1..]);
      InsertSorted(o, s[0], rest);
      Insert(o, s[0], rest)
  }

  /* -------------------------------------------------------- offset/limit */

  /** `OFFSET offset LIMIT limit` over an already ordered result. */
  function Window(s: seq<Auction>, offset: nat, limit: nat): (r: seq<Auction>)
    ensures |r| <= limit
    ensures |r| == limit || offset + |r| >= |s|
    ensures forall k :: 0 <= k < |r| ==> offset + k < |s| && r[k] == s[offset + k]
  {
    if offset >= |s| then []
    else if offset + limit <= |s| then s[offset..offset + limit]
    else s[offset..]
  }

  /** One `select ... where ... order by ... offset ... limit ...` round trip. */
  function Fetch(rows: seq<Auction>, where: Where, o: Ordering, offset: nat, limit: nat): (r: seq<Auction>)
    ensures |r| <= limit
    ensures Sorted(o, r)
    ensures forall a :: a in r ==> a in rows && Matches(where, a)
  {
    var ranked := SortBy(o, Select(rows, where));
    var w := Window(ranked, offset, limit);
    assert forall a :: a in w ==> a in multiset(ranked);
    w
  }

  /* ---------------------------------------------------------- bulk update */

  /** `update auction set status = s where ...`: every matching row gets status `s`. */
  function BulkSetStatus(rows: seq<Auction>, where: Where, s: AuctionStatus): (r: seq<Auction>)
    ensures |r| == |rows|
    ensures forall i :: 0 <= i < |rows| ==>
      r[i] == if Matches(where, rows[i]) then rows[i].(status := s) else rows[i]
  {
    seq(|rows|, i requires 0 <= i < |rows| =>
      if Matches(where, rows[i]) then rows[i].(status := s) else rows[i])
  }
}
