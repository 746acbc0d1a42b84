/** Client code that drives the session and the dashboard together: each
    method is a short story whose assertions follow from the contracts alone. */
module Scenarios {
  import opened Types
  import opened Ledger
  import opened DashboardRules
  import opened Dashboard
  import opened Session

  /** A ledger holding one book, "Dune", with `copies` copies. */
  function DuneLedger(copies: int): LedgerView
  {
    LedgerView(Ok(1), (i: nat) => Ok("1"), (id: BookId) => Ok(RawBook("1", "Dune", BigNumber(copies))))
  }

  lemma DuneLedgerFetched(copies: int)
    ensures FetchAll(DuneLedger(copies)) == Ok([RawBook("1", "Dune", BigNumber(copies))])
    ensures Normalize([RawBook("1", "Dune", BigNumber(copies))]) == [Book("1", "Dune", copies)]
  {
    var l, dune := DuneLedger(copies), RawBook("1", "Dune", BigNumber(copies));
    assert FetchStep(l, 0) == Ok(dune);
    assert [] + [dune] == [dune];
    assert FetchPrefix(l, 1) == Ok([dune]);
  }

  /** Connect with account 0xAAA on chain 1, mount the dashboard, borrow
      "Dune" successfully, receive the BookBorrowed event whose re-fetch sees
      two copies, then lock the wallet: the session is reset, the contract's
      listeners are gone and a late event changes nothing. */
  method ConnectBorrowAndLock()
  {
    var app := new App("0xB00C", false, {CachedProviderKey});
    var wallet := new Provider(true, true, "0xAAA", Some(["0xAAA"]));
    app.OnConnect(Ok(wallet), Ok(1), (a: string) => true);
    assert app.state.connected && app.state.address == "0xAAA" && app.state.chainId == 1;
    assert wallet.listeners == AllProviderEvents;
    assert app.View().DashboardScreen?;

    var contract := app.state.bookLibraryContract;
    var dashboard := new BookLibraryDashboard(contract);
    DuneLedgerFetched(3);
    dashboard.Mount(DuneLedger(3));
    assert dashboard.books == Some([Book("1", "Dune", 3)]);
    assert dashboard.log == [Notice(BooksLoaded, Info)];
    assert contract.listeners == AllContractEvents;

    dashboard.HandleBorrowBook("Dune", Submitted(Mined(Receipt(Some(1)))));
    assert dashboard.log == [Notice(BooksLoaded, Info), Notice(OperationSuccessful, Info)];
    assert !dashboard.transactionInProgress && dashboard.books == Some([Book("1", "Dune", 3)]);

    DuneLedgerFetched(2);
    dashboard.HandleContractEvent(BookBorrowed, DuneLedger(2));
    assert dashboard.books == Some([Book("1", "Dune", 2)]);

    app.ChangedAccount([]);
    assert app.state == INITIAL_STATE && !app.View().DashboardScreen?;
    assert wallet.listeners == {} && contract.listeners == {};
    assert CachedProviderKey !in app.storage;

    dashboard.HandleContractEvent(BookReturned, DuneLedger(3));
    assert dashboard.books == Some([Book("1", "Dune", 2)]);
  }

  /** A borrow whose settlement rejects: one error notification, the book
      list as it was, and the transaction flag cleared. */
  method BorrowRejected(dashboard: BookLibraryDashboard)
    requires dashboard.contract != null
    modifies dashboard
  {
    var before := dashboard.books;
    var reason := Reason(Some(ProviderError("execution reverted")), "");
    dashboard.HandleBorrowBook("Dune", Submitted(WaitRejected(reason)));
    assert dashboard.books == before && !dashboard.transactionInProgress;
    assert dashboard.log[|dashboard.log| - 1] == Notice(ProviderErrorMessage, Error);
  }

  /** An invalid contract address: one error, no state, no listeners. */
  method InvalidAddress()
  {
    var app := new App("not-an-address", false, {});
    var wallet := new Provider(true, true, "0xAAA", Some([]));
    app.OnConnect(Ok(wallet), Ok(5), (a: string) => false);
    assert app.state == INITIAL_STATE && wallet.listeners == {};
    assert app.log == [Notice(InvalidContractAddress, Error)];
  }

  /** A wallet without `off`: its listeners survive a reset, and a second
      reset leaves everything as the first left it. */
  method ResetTwice()
  {
    var app := new App("0xB00C", true, {CachedProviderKey, WalletConnectKey, "other"});
    var wallet := new Provider(true, false, "", Some(["0xBBB"]));
    app.OnConnect(Ok(wallet), Ok(4), (a: string) => true);
    assert app.state.address == "0xBBB" && app.state.chainId == 4;
    app.ResetApp();
    assert app.state == INITIAL_STATE && wallet.listeners == AllProviderEvents;
    assert app.storage == {"other"} && !app.cachedProvider;
    app.ResetApp();
    assert app.state == INITIAL_STATE && wallet.listeners == AllProviderEvents;
    assert app.storage == {"other"} && !app.cachedProvider;
  }

  /** A network change takes the re-queried chain id, not the event's argument. */
  method NetworkChangeIgnoresArgument()
  {
    var app := new App("0xB00C", false, {});
    var wallet := new Provider(false, false, "0xAAA", None);
    app.OnConnect(Ok(wallet), Ok(1), (a: string) => true);
    var before := app.state;
    app.NetworkChanged(42, Ok(5));
    assert app.state.chainId == 5 && app.state.address == before.address;
    assert app.state.bookLibraryContract == before.bookLibraryContract && app.state.connected;
  }

  /** A cached provider reconnects on mount; a provider with neither a
      selected address nor an `accounts` property stops the connection
      before the address check. */
  method CachedMount()
  {
    var app := new App("0xB00C", true, {CachedProviderKey});
    var wallet := new Provider(true, true, "0xAAA", None);
    app.ComponentDidMount(Ok(wallet), Ok(1), (a: string) => true);
    assert app.state.connected && app.state.address == "0xAAA" && app.state.chainId == 1;
    assert wallet.listeners == AllProviderEvents;

    var bare := new Provider(true, true, "", None);
    var before := app.state;
    app.OnConnect(Ok(bare), Ok(3), (a: string) => false);
    assert app.provider == bare && app.state == before;
    assert bare.listeners == {} && app.log == [];
  }
}
