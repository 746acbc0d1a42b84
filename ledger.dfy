/** The remote book-lending contract as the front-end sees it. Its read
    methods are an oracle (what each call would settle to at the moment it is
    made); its event listeners are a set of registered event names on an
    object that the wallet session creates and the dashboard subscribes to. */
module Ledger {
  import opened Types

  type BookId = string

  /** An ethers BigNumber; `toNumber()` yields its value (overflow ignored). */
  datatype BigNumber = BigNumber(value: int)

  function ToNumber(b: BigNumber): (n: int) { b.value }

  /** A book record as `contract.books(id)` returns it. */
  datatype RawBook = RawBook(id: BookId, title: string, copies: BigNumber)

  /** What `getBooksCount()`, `bookIds(i)` and `books(id)` settle to. */
  datatype LedgerView = LedgerView(
    booksCount: Remote<nat>,
    bookIds: nat -> Remote<BookId>,
    books: BookId -> Remote<RawBook>)

  /** The three contract events the dashboard listens to. */
  datatype ContractEvent = BookAdded | BookBorrowed | BookReturned

  const AllContractEvents: set<ContractEvent> := {BookAdded, BookBorrowed, BookReturned}

  /** The ethers Contract handle: only its listener registry is state. */
  class Contract {
    const address: string
    var listeners: set<ContractEvent>

    constructor (address: string)
      ensures this.address == address && listeners == {}
    {
      this.address := address;
      listeners := {};
    }

    /** `contract.on(event, handler)`. */
    method On(event: ContractEvent)
      modifies this
      ensures listeners == old(listeners) + {event}
    {
      listeners := listeners + {event};
    }

    /** `contract.removeAllListeners()`. */
    method RemoveAllListeners()
      modifies this
      ensures listeners == {}
    {
      listeners := {};
    }
  }
}
