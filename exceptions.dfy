/** The exceptions the modelled code throws, with the error codes it names. */
module Exceptions {

  /** Error codes from `AuctionErrorCode` and `NotificationErrorCode`. */
  datatype ErrorCode =
    | InvalidSortInput    // AuctionErrorCode.INVALID_SORT_INPUT
    | EmptySortInput      // AuctionErrorCode.EMPTY_SORT_INPUT
    | NotFoundFcmToken    // NotificationErrorCode.NOT_FOUND_FCM_TOKEN

  /** What an exception was built from: an error code, or a bare message. */
  datatype Reason = Code(code: ErrorCode) | Detail(message: string)

  datatype Exception =
    | ValidationException(reason: Reason)
    | NotFoundException(reason: Reason)
}
