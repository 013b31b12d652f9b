/**
 * The entities the auction queries read: an auction, the product it sells and
 * that product's category. Dates are day numbers and timestamps are integers;
 * only their order matters to the queries.
 */
module AuctionDomain {
  import opened Wrappers

  datatype AuctionStatus = Bidding | Trading | Completed | Canceled

  /** Condition grading of a product. */
  datatype ProductStatus = New | Clean | Dirty

  /**
   * The trade-method enumeration. Its constants and its parser `TradeMethod.of`
   * are not part of this model; queries receive the parser as a parameter.
   */
  type TradeMethod(==, !new)

  datatype ProductCategory = ProductCategory(id: int, value: string)

  /** A product; its category may be missing, which the search query left-joins. */
  datatype Product = Product(status: ProductStatus, category: Option<ProductCategory>)

  /** Three nested administrative levels: si, then gu, then dong. */
  datatype TradingLocation = TradingLocation(si: string, gu: string, dong: string)

  datatype Auction = Auction(
    id: int,
    title: string,
    status: AuctionStatus,
    tradeMethod: TradeMethod,
    tradingLocation: TradingLocation,
    initPrice: int,
    endDate: int,
    biddingCount: int,
    bookmarkCount: int,
    createdAt: int,
    product: Product)
}
