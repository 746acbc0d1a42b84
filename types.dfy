/** Values shared by the dashboard and the wallet session: the two enums of
    src/helpers/types.ts, the outcome of a remote call, the shape of a
    rejection reason and the entries of the notification log. */
module Types {

  datatype Option<+T> = None | Some(value: T)

  /** NotificationType of src/helpers/types.ts:26-30. */
  datatype NotificationType = Error | Info | Alert

  /** TransactionStatus of src/helpers/types.ts:21-24; a receipt carries the numeric code. */
  datatype TransactionStatus = Successful | Unsuccessful {
    function Code(): (c: int)
      ensures c == 1 <==> Successful?
      ensures c == 0 <==> Unsuccessful?
    {
      if Successful? then 1 else 0
    }
  }

  /** What a rejected promise hands to `processErrorAndNotify`: an optional
      nested provider error (truthy when present) and a `message` field, where
      the empty string stands for an absent or falsy message. */
  datatype ProviderError = ProviderError(message: string)
  datatype Reason = Reason(error: Option<ProviderError>, message: string)

  /** The settled value of a promise: resolved with a value or rejected with a reason. */
  datatype Remote<+T> = Ok(value: T) | Rejected(reason: Reason)

  /** Which message a toast carries; the text itself is not modelled. */
  datatype NoticeKind =
    | BooksLoaded            // initial load finished
    | BooksRefreshed         // user refresh finished
    | BookAddedNotice        // a BookAdded contract event arrived
    | BookBorrowedNotice     // a BookBorrowed contract event arrived
    | BookReturnedNotice     // a BookReturned contract event arrived
    | OperationSuccessful    // a receipt judged successful
    | OperationNotSuccessful // a receipt with a failing status
    | ProviderErrorMessage   // "Error: " + reason.error.message
    | ErrorMessage           // "Error: " + reason.message
    | SerializedFailure      // "Operation failed. Reason: " + JSON of the reason
    | InvalidContractAddress // the configured contract address is malformed

  /** One call of `showNotification(message, type)`. */
  datatype Notice = Notice(kind: NoticeKind, severity: NotificationType)
}
