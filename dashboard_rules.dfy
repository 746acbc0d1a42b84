/** The pure part of src/components/BookLibraryDashboard.tsx: what a full
    fetch of the ledger settles to, how fetched records become table rows,
    which notification each outcome produces, and when the controls are
    enabled. */
module DashboardRules {
  import opened Types
  import opened Ledger

  /** A book as the dashboard keeps it: `copies` already converted to a number. */
  datatype Book = Book(id: BookId, title: string, copies: int)

  // ---------------------------------------------------------------------
  // Fetching the ledger (updateBooks / fetchBooks)
  // ---------------------------------------------------------------------

  /** Iteration `i` of the fetch loop: `bookIds(i)` and then `books(id)`. */
  function FetchStep(l: LedgerView, i: nat): (r: Remote<RawBook>)
  {
    match l.bookIds(i)
    case Rejected(e) => Rejected(e)
    case Ok(id) => l.books(id)
  }

  /** The first `n` iterations of the fetch loop, stopping at the first rejection. */
  function FetchPrefix(l: LedgerView, n: nat): (r: Remote<seq<RawBook>>)
  {
    if n == 0 then Ok([])
    else
      match FetchPrefix(l, n - 1)
      case Rejected(e) => Rejected(e)
      case Ok(s) =>
        match FetchStep(l, n - 1)
        case Rejected(e) => Rejected(e)
        case Ok(b) => Ok(s + [b])
  }

  /** The whole of `fetchBooks()`: read the count, then run the loop that many times. */
  function FetchAll(l: LedgerView): (r: Remote<seq<RawBook>>)
  {
    match l.booksCount
    case Rejected(e) => Rejected(e)
    case Ok(n) => FetchPrefix(l, n)
  }

  /** Iteration `j` is the first one whose remote calls reject. */
  predicate FirstFailure(l: LedgerView, j: nat)
  {
    FetchStep(l, j).Rejected? && forall i :: 0 <= i < j ==> FetchStep(l, i).Ok?
  }

  /** Once the loop has rejected, later iterations are never run. */
  lemma {:induction false} FetchPrefixRejectedStays(l: LedgerView, i: nat, n: nat)
    requires i <= n
    requires FetchPrefix(l, i).Rejected?
    ensures FetchPrefix(l, n) == FetchPrefix(l, i)
    decreases n
  {
    if n > i {
      FetchPrefixRejectedStays(l, i, n - 1);
    }
  }

  /** The loop resolves iff every iteration resolves, and then it holds
      exactly `n` records, record `i` being `books(bookIds(i))`. */
  lemma {:induction false} FetchPrefixResolves(l: LedgerView, n: nat)
    ensures FetchPrefix(l, n).Ok? <==> forall i :: 0 <= i < n ==> FetchStep(l, i).Ok?
    ensures FetchPrefix(l, n).Ok? ==>
      |FetchPrefix(l, n).value| == n &&
      forall i :: 0 <= i < n ==> FetchPrefix(l, n).value[i] == FetchStep(l, i).value
    decreases n
  {
    if n > 0 {
      FetchPrefixResolves(l, n - 1);
      if FetchPrefix(l, n - 1).Rejected? {
        var i :| 0 <= i < n - 1 && !FetchStep(l, i).Ok?;
      }
    }
  }

  /** A rejected loop carries the reason of its first rejected iteration. */
  lemma {:induction false} FetchPrefixFirstFailure(l: LedgerView, n: nat, j: nat)
    requires j < n && FirstFailure(l, j)
    ensures FetchPrefix(l, n) == Rejected(FetchStep(l, j).reason)
    decreases n
  {
    if j < n - 1 {
      FetchPrefixFirstFailure(l, n - 1, j);
    } else {
      FetchPrefixResolves(l, j);
    }
  }

  /** What `fetchBooks()` settles to: it resolves exactly when the count and
      every iteration resolve, with `getBooksCount()` entries in index order,
      and otherwise rejects with the reason of the first rejected call. */
  lemma FetchAllMeaning(l: LedgerView)
    ensures FetchAll(l).Ok? <==>
      l.booksCount.Ok? && forall i :: 0 <= i < l.booksCount.value ==> FetchStep(l, i).Ok?
    ensures FetchAll(l).Ok? ==>
      |FetchAll(l).value| == l.booksCount.value &&
      forall i :: 0 <= i < l.booksCount.value ==>
        l.bookIds(i).Ok? && l.books(l.bookIds(i).value).Ok? &&
        FetchAll(l).value[i] == l.books(l.bookIds(i).value).value
    ensures l.booksCount.Rejected? ==> FetchAll(l) == Rejected(l.booksCount.reason)
    ensures forall j :: l.booksCount.Ok? && 0 <= j < l.booksCount.value && FirstFailure(l, j) ==>
      FetchAll(l) == Rejected(FetchStep(l, j).reason)
  {
    if l.booksCount.Ok? {
      var n := l.booksCount.value;
      FetchPrefixResolves(l, n);
      if FetchAll(l).Ok? {
        forall i | 0 <= i < n
          ensures l.bookIds(i).Ok? && l.books(l.bookIds(i).value).Ok?
          ensures FetchAll(l).value[i] == l.books(l.bookIds(i).value).value
        {
          assert FetchStep(l, i).Ok?;
        }
      }
      forall j | 0 <= j < n && FirstFailure(l, j)
        ensures FetchAll(l) == Rejected(FetchStep(l, j).reason)
      {
        FetchPrefixFirstFailure(l, n, j);
      }
    }
  }

  /** `books.map(book => ({...book, copies: book.copies.toNumber()}))`. */
  function Normalize(raw: seq<RawBook>): (r: seq<Book>)
    ensures |r| == |raw|
    ensures forall i :: 0 <= i < |raw| ==>
      r[i].id == raw[i].id && r[i].title == raw[i].title && r[i].copies == ToNumber(raw[i].copies)
  {
    if raw == [] then []
    else [Book(raw[0].id, raw[0].title, ToNumber(raw[0].copies))] + Normalize(raw[1..])
  }

  /** The list a successful fetch installs: one row per ledger index, in order. */
  lemma FetchedBooksInOrder(l: LedgerView)
    requires FetchAll(l).Ok?
    ensures var rows := Normalize(FetchAll(l).value);
      |rows| == l.booksCount.value &&
      forall i :: 0 <= i < |rows| ==>
        l.bookIds(i).Ok? && l.books(l.bookIds(i).value).Ok? &&
        var raw := l.books(l.bookIds(i).value).value;
        rows[i] == Book(raw.id, raw.title, ToNumber(raw.copies))
  {
    FetchAllMeaning(l);
  }

  // ---------------------------------------------------------------------
  // Notification decisions
  // ---------------------------------------------------------------------

  /** A mined transaction receipt; `status` is absent on pre-Byzantium receipts. */
  datatype Receipt = Receipt(status: Option<int>)

  /** JavaScript truthiness of a number that may be undefined. */
  predicate Truthy(status: Option<int>) { status.Some? && status.value != 0 }

  /** `processReceiptAndNotify`: one notification, an error exactly when the
      status is present, truthy and not the SUCCESSFUL code. */
  function ReceiptNotice(receipt: Receipt): (n: Notice)
    ensures n.severity == Error <==>
      receipt.status.Some? && receipt.status.value != 0 && receipt.status.value != Successful.Code()
    ensures n.severity == Error ==> n.kind == OperationNotSuccessful
    ensures n.severity != Error ==> n == Notice(OperationSuccessful, Info)
  {
    if Truthy(receipt.status) && receipt.status.value != Successful.Code() then
      Notice(OperationNotSuccessful, Error)
    else
      Notice(OperationSuccessful, Info)
  }

  /** As written, a receipt carrying the UNSUCCESSFUL code 0 is falsy and is
      reported as a success. */
  lemma UnsuccessfulCodeReportedAsSuccess()
    ensures ReceiptNotice(Receipt(Some(Unsuccessful.Code()))) == Notice(OperationSuccessful, Info)
    ensures ReceiptNotice(Receipt(None)) == Notice(OperationSuccessful, Info)
  {
  }

  /** `processErrorAndNotify`: one error notification, taking the most specific
      detail available: the nested provider error, then the message, then the
      serialised reason. */
  function ErrorNotice(reason: Reason): (n: Notice)
    ensures n.severity == Error
    ensures n.kind == ProviderErrorMessage <==> reason.error.Some?
    ensures n.kind == ErrorMessage <==> reason.error.None? && reason.message != ""
    ensures n.kind == SerializedFailure <==> reason.error.None? && reason.message == ""
  {
    if reason.error.Some? then Notice(ProviderErrorMessage, Error)
    else if reason.message != "" then Notice(ErrorMessage, Error)
    else Notice(SerializedFailure, Error)
  }

  /** How a write settles: the transaction is mined with a receipt, or `wait()` rejects. */
  datatype Settlement = Mined(receipt: Receipt) | WaitRejected(reason: Reason)

  /** How a write goes: the submission rejects, or it yields a transaction that then settles. */
  datatype WriteOutcome = SubmitRejected(reason: Reason) | Submitted(settlement: Settlement)

  /** The single notification a write produces once it has settled. */
  function WriteNotice(o: WriteOutcome): (n: Notice)
    ensures n.kind == OperationSuccessful <==>
      o.Submitted? && o.settlement.Mined? && ReceiptNotice(o.settlement.receipt).severity != Error
    ensures n.kind != OperationSuccessful ==> n.severity == Error
    ensures n.kind == OperationSuccessful ==> n.severity == Info
    ensures o.SubmitRejected? ==> n == ErrorNotice(o.reason)
    ensures o.Submitted? && o.settlement.WaitRejected? ==> n == ErrorNotice(o.settlement.reason)
  {
    match o
    case SubmitRejected(e) => ErrorNotice(e)
    case Submitted(Mined(r)) => ReceiptNotice(r)
    case Submitted(WaitRejected(e)) => ErrorNotice(e)
  }

  /** The informational notification a contract event produces. */
  function EventNotice(e: ContractEvent): (n: Notice)
    ensures n.severity == Info
    ensures n.kind in {BookAddedNotice, BookBorrowedNotice, BookReturnedNotice}
  {
    match e
    case BookAdded => Notice(BookAddedNotice, Info)
    case BookBorrowed => Notice(BookBorrowedNotice, Info)
    case BookReturned => Notice(BookReturnedNotice, Info)
  }

  /** Each event is announced with its own message. */
  lemma EventNoticesDistinct(a: ContractEvent, b: ContractEvent)
    ensures EventNotice(a) == EventNotice(b) <==> a == b
  {
  }

  /** The notifications a fetch that announces `success` produces: the
      announcement if it resolves, one error notification if it rejects. */
  function FetchNotices(r: Remote<seq<RawBook>>, success: NoticeKind): (ns: seq<Notice>)
    ensures |ns| == 1
    ensures ns[0].severity == Error <==> r.Rejected?
    ensures r.Ok? ==> ns[0] == Notice(success, Info)
  {
    match r
    case Ok(_) => [Notice(success, Info)]
    case Rejected(e) => [ErrorNotice(e)]
  }

  // ---------------------------------------------------------------------
  // Enable and visibility rules of the table
  // ---------------------------------------------------------------------

  predicate BorrowEnabled(transactionInProgress: bool, book: Book)
  {
    !(transactionInProgress || book.copies == 0)
  }

  predicate ReturnEnabled(transactionInProgress: bool)
  {
    !transactionInProgress
  }

  predicate RefreshEnabled(transactionInProgress: bool)
  {
    !transactionInProgress
  }

  predicate TableVisible(loading: bool)
  {
    !loading
  }

  /** Borrowing needs everything returning needs, and a copy on the shelf. */
  lemma BorrowEnabledMeaning(transactionInProgress: bool, book: Book)
    ensures BorrowEnabled(transactionInProgress, book) <==>
      ReturnEnabled(transactionInProgress) && book.copies != 0
    ensures BorrowEnabled(transactionInProgress, book) ==> RefreshEnabled(transactionInProgress)
  {
  }
}
