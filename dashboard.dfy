/** The stateful part of src/components/BookLibraryDashboard.tsx: the
    component's state hooks as fields of a class, its handlers as methods.
    Every asynchronous handler is split at its await points: a Begin step
    (what runs synchronously when the user acts) and a Settle or Finish step
    (what runs once the remote outcome, given as an argument, is known);
    the Handle methods run both back to back. */
module Dashboard {
  import opened Types
  import opened Ledger
  import opened DashboardRules

  /** What `fetchBooks()` does: read the count, then an indexed loop of
      `bookIds(i)` and `books(id)`, pushing each record; the first rejected
      call rejects the whole fetch. */
  method FetchBooks(ledger: LedgerView) returns (r: Remote<seq<RawBook>>)
    ensures r == FetchAll(ledger)
  {
    var booksCount: nat;
    match ledger.booksCount {
      case Rejected(e) => return Rejected(e);
      case Ok(n) => booksCount := n;
    }
    var newBooks: seq<RawBook> := [];
    var i := 0;
    while i < booksCount
      invariant 0 <= i <= booksCount
      invariant FetchPrefix(ledger, i) == Ok(newBooks)
    {
      var bookId := ledger.bookIds(i);
      if bookId.Rejected? {
        FetchPrefixRejectedStays(ledger, i + 1, booksCount);
        return Rejected(bookId.reason);
      }
      var book := ledger.books(bookId.value);
      if book.Rejected? {
        FetchPrefixRejectedStays(ledger, i + 1, booksCount);
        return Rejected(book.reason);
      }
      newBooks := newBooks + [book.value];
      i := i + 1;
    }
    r := Ok(newBooks);
  }

  /** The reason `updateBooks(null)` rejects with: reading `getBooksCount` of null. */
  const NullContractError: Reason := Reason(None, "Cannot read properties of null")

  /** What a fetch settles to, given whether the dashboard holds a contract. */
  function FetchOutcome(hasContract: bool, ledger: LedgerView): (r: Remote<seq<RawBook>>)
  {
    if hasContract then FetchAll(ledger) else Rejected(NullContractError)
  }

  /** A value typed into the form: the initial number, or the text of an input. */
  datatype FormValue = Number(n: int) | Text(s: string)

  /** The `newBook` form record. */
  datatype BookDraft = BookDraft(id: string, title: string, copies: FormValue)

  const EmptyDraft: BookDraft := BookDraft("", "", Number(0))

  /** The two inputs of the form; `handleInput` keys on the lower-cased input name. */
  datatype FormField = TitleField | CopiesField

  /** The remote calls the dashboard makes, in order. */
  datatype Call =
    | FetchBooksCall
    | AddBookCall(title: string, copies: FormValue)
    | BorrowBookCall(title: string)
    | ReturnBookCall(title: string)

  class BookLibraryDashboard {
    /** The `bookLibraryContract` prop. */
    const contract: Contract?

    var loading: bool
    var transactionInProgress: bool
    var books: Option<seq<Book>>
    var newBook: BookDraft
    /** Every `showNotification` call, in order. */
    var log: seq<Notice>
    /** Every remote call made through the contract, in order. */
    var calls: seq<Call>

    /** The initial values of the component's state hooks. */
    constructor (contract: Contract?)
      ensures this.contract == contract
      ensures !loading && !transactionInProgress
      ensures books == None && newBook == EmptyDraft
      ensures log == [] && calls == []
    {
      this.contract := contract;
      loading := false;
      transactionInProgress := false;
      books := None;
      newBook := EmptyDraft;
      log := [];
      calls := [];
    }

    // -------------------------------------------------------------------
    // What the table shows and which controls are enabled
    // -------------------------------------------------------------------

    /** The rows the table shows: none while loading, otherwise the current books. */
    function Table(): (rows: Option<seq<Book>>)
      reads this
      ensures rows.Some? <==> TableVisible(loading)
      ensures rows.Some? ==> rows.value == (if books.Some? then books.value else [])
    {
      if loading then None else Some(if books.Some? then books.value else [])
    }

    predicate CanBorrow(book: Book)
      reads this
    {
      BorrowEnabled(transactionInProgress, book)
    }

    predicate CanReturn()
      reads this
    {
      ReturnEnabled(transactionInProgress)
    }

    predicate CanRefresh()
      reads this
    {
      RefreshEnabled(transactionInProgress)
    }

    // -------------------------------------------------------------------
    // Fetching
    // -------------------------------------------------------------------

    /** `updateBooks`: on success `books` is replaced wholesale by the fetched
        records with `copies` converted; on failure it is left as it was. */
    method UpdateBooks(ledger: LedgerView) returns (r: Remote<seq<RawBook>>)
      modifies this
      ensures r == FetchOutcome(contract != null, ledger)
      ensures books == (if r.Ok? then Some(Normalize(r.value)) else old(books))
      ensures calls == old(calls) + (if contract != null then [FetchBooksCall] else [])
      ensures loading == old(loading) && transactionInProgress == old(transactionInProgress)
      ensures newBook == old(newBook) && log == old(log)
    {
      if contract == null {
        return Rejected(NullContractError);
      }
      calls := calls + [FetchBooksCall];
      r := FetchBooks(ledger);
      if r.Ok? {
        books := Some(Normalize(r.value));
      }
    }

    /** The synchronous start of the initial load, of a refresh and of an add. */
    method BeginLoad()
      modifies this
      ensures loading && Table() == None
      ensures transactionInProgress == old(transactionInProgress)
      ensures books == old(books) && newBook == old(newBook)
      ensures log == old(log) && calls == old(calls)
    {
      loading := true;
    }

    /** The settled part of the initial load and of a refresh: fetch, then
        announce `success` or the error, and in every case stop loading. */
    method FinishLoad(ledger: LedgerView, success: NoticeKind)
      modifies this
      ensures !loading
      ensures var r := FetchOutcome(contract != null, ledger);
        books == (if r.Ok? then Some(Normalize(r.value)) else old(books)) &&
        log == old(log) + FetchNotices(r, success)
      ensures calls == old(calls) + (if contract != null then [FetchBooksCall] else [])
      ensures transactionInProgress == old(transactionInProgress) && newBook == old(newBook)
    {
      var r := UpdateBooks(ledger);
      if r.Ok? {
        log := log + [Notice(success, Info)];
      } else {
        log := log + [ErrorNotice(r.reason)];
      }
      loading := false;
    }

    /** `subscribeToContractEvents`: one listener per contract event. */
    method SubscribeToContractEvents()
      requires contract != null
      modifies contract
      ensures contract.listeners == old(contract.listeners) + AllContractEvents
    {
      contract.On(BookAdded);
      contract.On(BookBorrowed);
      contract.On(BookReturned);
    }

    /** The mount effect: only with a contract, load the books (announcing
        "Books loaded.") and subscribe to the three contract events. */
    method Mount(ledger: LedgerView)
      modifies this, contract
      ensures contract == null ==>
        loading == old(loading) && books == old(books) && log == old(log) && calls == old(calls)
      ensures contract != null ==>
        var r := FetchAll(ledger);
        !loading &&
        books == (if r.Ok? then Some(Normalize(r.value)) else old(books)) &&
        log == old(log) + FetchNotices(r, BooksLoaded) &&
        calls == old(calls) + [FetchBooksCall] &&
        contract.listeners == old(contract.listeners) + AllContractEvents
      ensures transactionInProgress == old(transactionInProgress) && newBook == old(newBook)
    {
      if contract != null {
        BeginLoad();
        SubscribeToContractEvents();
        FinishLoad(ledger, BooksLoaded);
      }
    }

    /** `handleRefresh`: load again, announcing "Books info refreshed."; a
        dashboard without a contract fails with the null-contract error. */
    method HandleRefresh(ledger: LedgerView)
      modifies this
      ensures !loading
      ensures var r := FetchOutcome(contract != null, ledger);
        books == (if r.Ok? then Some(Normalize(r.value)) else old(books)) &&
        log == old(log) + FetchNotices(r, BooksRefreshed)
      ensures calls == old(calls) + (if contract != null then [FetchBooksCall] else [])
      ensures transactionInProgress == old(transactionInProgress) && newBook == old(newBook)
    {
      BeginLoad();
      FinishLoad(ledger, BooksRefreshed);
    }

    /** A contract event reaches the dashboard's listener: announce it, then
        re-fetch; a failed re-fetch adds one error notification. `loading` is
        not touched. Without a registered listener nothing happens. */
    method HandleContractEvent(event: ContractEvent, ledger: LedgerView)
      modifies this
      ensures contract == null || event !in contract.listeners ==>
        books == old(books) && log == old(log) && calls == old(calls)
      ensures contract != null && event in contract.listeners ==>
        var r := FetchAll(ledger);
        books == (if r.Ok? then Some(Normalize(r.value)) else old(books)) &&
        log == old(log) + [EventNotice(event)] + (if r.Ok? then [] else [ErrorNotice(r.reason)]) &&
        calls == old(calls) + [FetchBooksCall]
      ensures loading == old(loading) && transactionInProgress == old(transactionInProgress)
      ensures newBook == old(newBook)
    {
      if contract != null && event in contract.listeners {
        log := log + [EventNotice(event)];
        var r := UpdateBooks(ledger);
        if r.Rejected? {
          log := log + [ErrorNotice(r.reason)];
        }
      }
    }

    // -------------------------------------------------------------------
    // The form and the three writes
    // -------------------------------------------------------------------

    /** `handleInput`: the named field takes the typed text; nothing else changes. */
    method HandleInput(field: FormField, value: string)
      modifies this
      ensures newBook == (match field
        case TitleField => old(newBook).(title := value)
        case CopiesField => old(newBook).(copies := Text(value)))
      ensures loading == old(loading) && transactionInProgress == old(transactionInProgress)
      ensures books == old(books) && log == old(log) && calls == old(calls)
    {
      match field {
        case TitleField => newBook := newBook.(title := value);
        case CopiesField => newBook := newBook.(copies := Text(value));
      }
    }

    /** The synchronous start of `handleAddBook`: start loading and submit the
        form's title and copies as they stand (no validation); without a
        contract nothing is submitted. */
    method BeginAddBook()
      modifies this
      ensures loading && Table() == None
      ensures calls == old(calls) +
        (if contract != null then [AddBookCall(newBook.title, newBook.copies)] else [])
      ensures transactionInProgress == old(transactionInProgress)
      ensures books == old(books) && newBook == old(newBook) && log == old(log)
    {
      loading := true;
      if contract != null {
        calls := calls + [AddBookCall(newBook.title, newBook.copies)];
      }
    }

    /** The settled part of `handleAddBook`: one notification for the outcome,
        loading cleared on every outcome, and no re-fetch. */
    method SettleAddBook(outcome: WriteOutcome)
      modifies this
      ensures !loading
      ensures log == old(log) + [WriteNotice(outcome)]
      ensures transactionInProgress == old(transactionInProgress)
      ensures books == old(books) && newBook == old(newBook) && calls == old(calls)
    {
      log := log + [WriteNotice(outcome)];
      loading := false;
    }

    /** `handleAddBook`. Without a contract the optional call is skipped and
        `loading` is never cleared. */
    method HandleAddBook(outcome: WriteOutcome)
      modifies this
      ensures loading <==> contract == null
      ensures log == old(log) + (if contract != null then [WriteNotice(outcome)] else [])
      ensures calls == old(calls) +
        (if contract != null then [AddBookCall(newBook.title, newBook.copies)] else [])
      ensures transactionInProgress == old(transactionInProgress)
      ensures books == old(books) && newBook == old(newBook)
    {
      BeginAddBook();
      if contract != null {
        SettleAddBook(outcome);
      }
    }

    /** The synchronous start of `handleBorrowBook`: mark a transaction in
        progress, which disables every Borrow, Return and Refresh button,
        and submit the borrow by title. */
    method BeginBorrowBook(title: string)
      modifies this
      ensures transactionInProgress
      ensures !CanReturn() && !CanRefresh() && forall b: Book :: !CanBorrow(b)
      ensures calls == old(calls) + (if contract != null then [BorrowBookCall(title)] else [])
      ensures loading == old(loading)
      ensures books == old(books) && newBook == old(newBook) && log == old(log)
    {
      transactionInProgress := true;
      if contract != null {
        calls := calls + [BorrowBookCall(title)];
      }
    }

    /** The synchronous start of `handleReturnBook`, as for borrowing. */
    method BeginReturnBook(title: string)
      modifies this
      ensures transactionInProgress
      ensures !CanReturn() && !CanRefresh() && forall b: Book :: !CanBorrow(b)
      ensures calls == old(calls) + (if contract != null then [ReturnBookCall(title)] else [])
      ensures loading == old(loading)
      ensures books == old(books) && newBook == old(newBook) && log == old(log)
    {
      transactionInProgress := true;
      if contract != null {
        calls := calls + [ReturnBookCall(title)];
      }
    }

    /** The settled part of borrowing and returning: one notification for the
        outcome, the transaction flag cleared on every outcome, `loading`
        untouched and no re-fetch. */
    method SettleTransaction(outcome: WriteOutcome)
      modifies this
      ensures !transactionInProgress && CanReturn() && CanRefresh()
      ensures log == old(log) + [WriteNotice(outcome)]
      ensures loading == old(loading)
      ensures books == old(books) && newBook == old(newBook) && calls == old(calls)
    {
      log := log + [WriteNotice(outcome)];
      transactionInProgress := false;
    }

    /** `handleBorrowBook`. Without a contract the flag stays set. */
    method HandleBorrowBook(title: string, outcome: WriteOutcome)
      modifies this
      ensures transactionInProgress <==> contract == null
      ensures log == old(log) + (if contract != null then [WriteNotice(outcome)] else [])
      ensures calls == old(calls) + (if contract != null then [BorrowBookCall(title)] else [])
      ensures loading == old(loading)
      ensures books == old(books) && newBook == old(newBook)
    {
      BeginBorrowBook(title);
      if contract != null {
        SettleTransaction(outcome);
      }
    }

    /** `handleReturnBook`. Without a contract the flag stays set. */
    method HandleReturnBook(title: string, outcome: WriteOutcome)
      modifies this
      ensures transactionInProgress <==> contract == null
      ensures log == old(log) + (if contract != null then [WriteNotice(outcome)] else [])
      ensures calls == old(calls) + (if contract != null then [ReturnBookCall(title)] else [])
      ensures loading == old(loading)
      ensures books == old(books) && newBook == old(newBook)
    {
      BeginReturnBook(title);
      if contract != null {
        SettleTransaction(outcome);
      }
    }
  }
}
