# Auction search and push-dispatch model

A Dafny model of two pieces of the handsup auction marketplace backend:

- **`AuctionQueryRepositoryImpl`**, the auction search repository. A search
  condition whose fields are all optional becomes a list of optional filter
  predicates, and the present ones are joined with AND. Two sort-key resolvers
  apply different fallback rules: the search policy falls back silently to
  newest first, and the recommendation policy rejects a missing or unknown
  key. Each paged query fetches one row more than the page size, and
  `hasNext` removes that extra row from the fetched list in place. A
  maintenance job moves every auction whose end date has passed to CANCELED
  (no bids) or TRADING (bids).
- **`FCMService`**, the push-notification dispatcher. It checks that the
  receiver has a token and blanks the sender nickname for two notification
  types. Then it builds the title/content message for the receiver's token,
  sends it, and saves a notification record only after the provider accepts
  the message.

Files:

- `wrappers.dfy`: `Option`, `Result` and `Outcome`. These stand for nullable
  values, for calls that may throw, and for `void` calls that may throw.
- `exceptions.dfy`: `ValidationException`, `NotFoundException` and the
  error codes used.
- `auction_domain.dfy`: auction, product, category, trading location and the
  status enumerations.
- `query_model.dfy`: what the query-builder parts mean, stated without the
  library. It covers boolean expressions over one row (`Holds`), the `where`
  list (`Matches`: present entries ANDed), `ORDER BY` (`SortBy`: sorted and a
  permutation), `OFFSET/LIMIT` (`Window`) and the bulk status `UPDATE`
  (`BulkSetStatus`).
- `auction_query.dfy`: the repository. It holds the predicate builders, the
  sort resolvers, `hasNext` on an in-place list object, the three queries and
  the status job. The auction table is the `auctions` field of
  `AuctionQueryRepository`.
- `notification.dfy`: the service as a class. Its state is a token map from
  e-mail to a possibly-null token, plus one ordered log of provider calls and
  saved records. `Dispatched` is the decision table the service follows, and
  `SendMessage` is proved to perform exactly its outcome and effects.

Sort-key names are the source's own: "북마크수" (bookmark count, descending),
"마감일" (end date, ascending), "입찰수" (bid count, descending) and
"최근생성" (creation time, descending; recommendation policy only).

Two behaviours of the code worth stating, which the model keeps:

- `tradeMethodEq` propagates whatever `TradeMethod.of` throws. The model takes
  the parser as a parameter and propagates its error.
- The status job's two `where` clauses (`= 0` and `>= 1`) leave a row with a
  negative bid count untouched.

## Model

| member | source | states |
|---|---|---|
| `QueryModel.Contains` | core/src/main/java/dev/handsup/auction/repository/auction/AuctionQueryRepositoryImpl.java:143 | a title contains a keyword exactly when the keyword occurs at some position of the title |
| `QueryModel.Select` | core/src/main/java/dev/handsup/auction/repository/auction/AuctionQueryRepositoryImpl.java:44-55 | the `where` filter keeps each row that satisfies every present predicate, as many times as it occurs, and drops every other row |
| `QueryModel.SortBy` | core/src/main/java/dev/handsup/auction/repository/auction/AuctionQueryRepositoryImpl.java:56 | the ordered result is sorted by the ordering's column and direction, and is a permutation of its input |
| `QueryModel.Window` | core/src/main/java/dev/handsup/auction/repository/auction/AuctionQueryRepositoryImpl.java:57-58 | offset/limit returns at most `limit` consecutive rows starting at `offset`, and fewer only at the end of the result |
| `QueryModel.Fetch` | core/src/main/java/dev/handsup/auction/repository/auction/AuctionQueryRepositoryImpl.java:40-59 | one query returns at most `limit` rows, sorted by the ordering, each a stored row satisfying the `where` list |
| `QueryModel.BulkSetStatus` | core/src/main/java/dev/handsup/auction/repository/auction/AuctionQueryRepositoryImpl.java:102-107 | a bulk status update changes the status of exactly the matching rows and leaves the other rows and the row count unchanged |
| `AuctionQuery.KeywordContains` | core/src/main/java/dev/handsup/auction/repository/auction/AuctionQueryRepositoryImpl.java:142-144 | only a null keyword is absent; any other keyword, even a blank one, keeps exactly the titles that contain it |
| `AuctionQuery.CategoryEq` | core/src/main/java/dev/handsup/auction/repository/auction/AuctionQueryRepositoryImpl.java:146-148 | absent exactly when the category has no text; otherwise keeps the auctions whose product has a category with that value |
| `AuctionQuery.TradeMethodEq` | core/src/main/java/dev/handsup/auction/repository/auction/AuctionQueryRepositoryImpl.java:150-152 | absent exactly when the label has no text; fails with the parser's exception exactly when a label with text does not parse; otherwise keeps the auctions whose trade method is the parsed one |
| `AuctionQuery.SiEq` | core/src/main/java/dev/handsup/auction/repository/auction/AuctionQueryRepositoryImpl.java:154-156 | absent exactly when si has no text; otherwise an exact match on si |
| `AuctionQuery.GuEq` | core/src/main/java/dev/handsup/auction/repository/auction/AuctionQueryRepositoryImpl.java:158-160 | absent exactly when gu has no text; otherwise an exact match on gu |
| `AuctionQuery.DongEq` | core/src/main/java/dev/handsup/auction/repository/auction/AuctionQueryRepositoryImpl.java:162-164 | absent exactly when dong has no text; otherwise an exact match on dong |
| `AuctionQuery.InitPriceMin` | core/src/main/java/dev/handsup/auction/repository/auction/AuctionQueryRepositoryImpl.java:166-168 | a present minimum price is an inclusive lower bound on the initial price; null imposes nothing |
| `AuctionQuery.InitPriceMax` | core/src/main/java/dev/handsup/auction/repository/auction/AuctionQueryRepositoryImpl.java:170-172 | a present maximum price is an inclusive upper bound on the initial price; null imposes nothing |
| `AuctionQuery.IsNewProductEq` | core/src/main/java/dev/handsup/auction/repository/auction/AuctionQueryRepositoryImpl.java:174-183 | null is absent; true keeps exactly the NEW products; false keeps exactly the non-NEW ones (CLEAN or DIRTY) |
| `AuctionQuery.IsProgressEq` | core/src/main/java/dev/handsup/auction/repository/auction/AuctionQueryRepositoryImpl.java:185-190 | present only for true, and then keeps exactly the BIDDING auctions |
| `AuctionQuery.SearchWhere` | core/src/main/java/dev/handsup/auction/repository/auction/AuctionQueryRepositoryImpl.java:44-55 | building the search `where` list fails exactly when a trade-method label with text does not parse, and then with the parser's exception |
| `AuctionQuery.SearchWhereMeansCondition` | core/src/main/java/dev/handsup/auction/repository/auction/AuctionQueryRepositoryImpl.java:142-190 | the built `where` list holds of an auction exactly when the auction satisfies every field of the condition, each stated independently in `Satisfies` (inclusive price bounds, three-valued new-product flag, true-only progress flag) |
| `AuctionQuery.UnconstrainedKeepsEveryAuction` | core/src/main/java/dev/handsup/auction/repository/auction/AuctionQueryRepositoryImpl.java:44-55 | if every field is null, or blank where hasText applies, or the keyword is empty, or isProgress is false, then the search cannot fail and keeps every stored auction |
| `AuctionQuery.BlankIsNullExceptKeyword` | core/src/main/java/dev/handsup/auction/repository/auction/AuctionQueryRepositoryImpl.java:142-164 | a blank string builds the same predicate as null for category, trade method, si, gu and dong, but not for the keyword; a non-empty blank keyword rejects an empty title |
| `AuctionQuery.IsProgressFalseIsNull` | core/src/main/java/dev/handsup/auction/repository/auction/AuctionQueryRepositoryImpl.java:185-190 | isProgress false and isProgress null give the same `where` list |
| `AuctionQuery.SearchAuctionSort` | core/src/main/java/dev/handsup/auction/repository/auction/AuctionQueryRepositoryImpl.java:117-127 | never fails; any ordering other than newest first is selected by the first sort term's name; no sort term means newest first |
| `AuctionQuery.RecommendAuctionSort` | core/src/main/java/dev/handsup/auction/repository/auction/AuctionQueryRepositoryImpl.java:129-140 | success only when the first sort term names an ordering; no term fails with EMPTY_SORT_INPUT and any other term with INVALID_SORT_INPUT |
| `AuctionQuery.RecommendSortAcceptsEveryName` | core/src/main/java/dev/handsup/auction/repository/auction/AuctionQueryRepositoryImpl.java:129-140 | round trip: each named ordering's name is resolved back to that ordering by both policies, whatever terms follow it |
| `AuctionQuery.SearchSortIsLenientRecommendSort` | core/src/main/java/dev/handsup/auction/repository/auction/AuctionQueryRepositoryImpl.java:117-140 | the search policy equals the recommendation policy with every failure replaced by creation time descending |
| `AuctionQuery.OnlyFirstSortTermCounts` | core/src/main/java/dev/handsup/auction/repository/auction/AuctionQueryRepositoryImpl.java:117-140 | later sort terms never change either policy's answer |
| `AuctionQuery.AuctionList.RemoveAt` | core/src/main/java/dev/handsup/auction/repository/auction/AuctionQueryRepositoryImpl.java:196 | removing by index drops exactly that element and keeps the others in order |
| `AuctionQuery.HasNext` | core/src/main/java/dev/handsup/auction/repository/auction/AuctionQueryRepositoryImpl.java:192-198 | the result is true exactly when more than pageSize elements were fetched; false leaves the list unchanged; true removes only the element at index pageSize |
| `AuctionQuery.OverFetchByOne` | core/src/main/java/dev/handsup/auction/repository/auction/AuctionQueryRepositoryImpl.java:57-60 | fetching pageSize+1 rows and trimming the extra one gives exactly the pageSize-row page; the extra row exists exactly when rows remain after the page |
| `AuctionQuery.AuctionQueryRepository.SearchAuctions` | core/src/main/java/dev/handsup/auction/repository/auction/AuctionQueryRepositoryImpl.java:39-62 | fails exactly when the `where` list cannot be built; otherwise returns the requested page of the matching auctions in search-policy order, with hasNext true exactly when more matching auctions follow |
| `AuctionQuery.AuctionQueryRepository.SortAuctionByCriteria` | core/src/main/java/dev/handsup/auction/repository/auction/AuctionQueryRepositoryImpl.java:65-81 | fails exactly when the recommendation policy rejects the sort; otherwise returns a page of stored BIDDING auctions in the given location, with the right hasNext |
| `AuctionQuery.CriteriaWhere` | core/src/main/java/dev/handsup/auction/repository/auction/AuctionQueryRepositoryImpl.java:69-74 | the recommendation filter keeps exactly the BIDDING auctions that match each of si, gu and dong that has text |
| `AuctionQuery.AuctionQueryRepository.FindByProductCategories` | core/src/main/java/dev/handsup/auction/repository/auction/AuctionQueryRepositoryImpl.java:84-97 | returns a page of stored auctions whose product category is in the list, most bookmarked first, with the right hasNext |
| `AuctionQuery.AfterEndDate` | core/src/main/java/dev/handsup/auction/repository/auction/AuctionQueryRepositoryImpl.java:101-115 | the job changes nothing but the status, and changes it only for an auction that has ended and has a non-negative bid count |
| `AuctionQuery.AuctionQueryRepository.UpdateAuctionStatusAfterEndDate` | core/src/main/java/dev/handsup/auction/repository/auction/AuctionQueryRepositoryImpl.java:101-115 | after both UPDATE statements each stored auction is exactly its `AfterEndDate` image: ended without bids is CANCELED, ended with bids is TRADING, and any other row is unchanged |
| `AuctionQuery.StatusUpdatesCommute` | core/src/main/java/dev/handsup/auction/repository/auction/AuctionQueryRepositoryImpl.java:101-115 | the two UPDATE statements give the same table in either order, and that table is the job's per-row result |
| `AuctionQuery.StatementRow` | core/src/main/java/dev/handsup/auction/repository/auction/AuctionQueryRepositoryImpl.java:105-113 | each statement's `where` reads only the end date and the bid count, never the status |
| `AuctionQuery.StatusJobIdempotent` | core/src/main/java/dev/handsup/auction/repository/auction/AuctionQueryRepositoryImpl.java:101-115 | running the job on its own result changes nothing |
| `Notification.Dispatched` | core/src/main/java/dev/handsup/notification/service/FCMService.java:28-56 | success exactly when a non-null token is registered and the provider accepts; without a token: NOT_FOUND_FCM_TOKEN and no effect; on a rejection: the provider's message and one provider call only; a record is saved only as the second effect, after the provider call and on success |
| `Notification.SuppressedTypesIgnoreNickname` | core/src/main/java/dev/handsup/notification/service/FCMService.java:39-47 | for CANCELED_PURCHASE_TRADING and PURCHASE_WINNING the nickname passed in changes nothing, and the message content is exactly the type's content |
| `Notification.OtherTypesCarryNickname` | core/src/main/java/dev/handsup/notification/service/FCMService.java:45-49 | for every other type the message carries the type title and nickname followed by the content, addressed to the stored token, so different nicknames give different messages |
| `Notification.SuccessSavesOneRecord` | core/src/main/java/dev/handsup/notification/service/FCMService.java:51-55 | an accepted send saves exactly one record, after the provider call, with sender, receiver, the type's content without any nickname, the type and the auction |
| `Notification.TokenLifecycle` | core/src/main/java/dev/handsup/notification/service/FCMService.java:75-81 | after saving a token the next message goes to that token; after deleting it, or with a null token stored, sending fails with NOT_FOUND_FCM_TOKEN and has no effect |
| `Notification.FcmService.SendMessage` | core/src/main/java/dev/handsup/notification/service/FCMService.java:28-56 | the service's step-by-step run returns the decision table's outcome, appends exactly its effects to the log and does not touch the token store |
| `Notification.FcmService.Send` | core/src/main/java/dev/handsup/notification/service/FCMService.java:58-65 | the message is handed to the provider once; a rejection becomes a ValidationException carrying the provider's message |
| `Notification.FcmService.GetFcmToken` | core/src/main/java/dev/handsup/notification/service/FCMService.java:67-73 | returns the stored token exactly when the key exists with a non-null token, and otherwise NOT_FOUND_FCM_TOKEN |
| `Notification.FcmService.SaveFcmToken` | core/src/main/java/dev/handsup/notification/service/FCMService.java:75-77 | registers or replaces the user's token and changes no other entry |
| `Notification.FcmService.DeleteFcmToken` | core/src/main/java/dev/handsup/notification/service/FCMService.java:79-81 | removes the user's entry, and does nothing if there is none |

## Left out

- SQL generation, fetch joins and database-side execution are not modelled. A query is filtering, then ordering, then offset/limit over the rows of `auctions`.
- String comparisons are exact character equality. Database collation (case- or accent-insensitive matching) and the escaping of `LIKE` wildcards in a keyword are not modelled.
- Tie order under a sort key is left open by the database. `SortBy` picks one arrangement, and the model proves only that it is sorted and a permutation. Stability is not claimed.
- `LocalDate.now()` becomes the `today` parameter. Dates and timestamps are integers compared by order.
- The `TradeMethod` constants and `TradeMethod.of` are not part of this model. The parser is a parameter, and the model makes no claim about which labels it accepts or what it throws.
- `AuctionQuery.AuctionQueryRepository.UpdateAuctionStatusAfterEndDate` evaluates both UPDATE statements with one `today`. The source reads `LocalDate.now()` once per statement, so a run that crosses midnight compares against day D in the first statement and D+1 in the second; a row ending on day D with bids then becomes TRADING, and one without bids stays as it was, which differs from `AfterEndDate` for either day.
- The two status UPDATE statements are applied one after the other. Their joint atomicity and concurrent bid placement are not modelled; `StatusUpdatesCommute` shows that each row ends up right in either order.
- Integer widths are not modelled. Prices and counts are unbounded integers. `pageSize + 1L` is computed as a `long` and cannot overflow, so nothing is lost.
- `Pageable` validation (a page size of at least one) happens in the caller and is not modelled. The direction a caller attaches to a sort term is never read by the source, so the model keeps only the property names.
- `AuctionQuery.AuctionList.RemoveAt` requires an index in range, which `List.remove` needs. `hasNext` only calls it when that holds. The out-of-range exception is not modelled.
- Firebase messaging internals, the network and `log.info` are not modelled. The provider's answer to a send is the `reply` parameter of `SendMessage`.
- `NotificationService.saveNotification` is modelled as appending one record to the log, and it always succeeds. A save that fails after a successful send is not modelled; the source does not compensate for one either.
- The token store is a map whose reads happen one after the other. A token deleted between `hasKey` and `getFcmToken` reaches the null-token branch, which the model covers.
- Null arguments other than the optional search fields and the stored token are not modelled. In particular a null `senderNickname` is rendered by Java string concatenation as "null", so the message content would be "null" followed by the type's content; the model's nickname is never null. A null `senderEmail` or `auction` is only passed on to `saveNotification`.
- `CacheType` is constant cache configuration with no behaviour, and is not part of this model.
