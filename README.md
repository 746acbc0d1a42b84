# Book library front-end: session and ledger-sync model

A Dafny model of the two state machines of a React front-end over a
book-lending smart contract:

- the **book library dashboard** (`src/components/BookLibraryDashboard.tsx`):
  the `loading` and `transactionInProgress` flags, the `books` list (absent
  until the first successful fetch), the `newBook` form, the mount effect,
  the three contract-event listeners, `updateBooks` with its indexed fetch
  loop, the add/borrow/return/refresh handlers, the two notification
  decision rules and the enable/visibility rules of the table;
- the **wallet session** (`src/App.tsx`): the `IAppState` record and
  `INITIAL_STATE`, the class `App` with its `state` and `provider` fields,
  `onConnect`, `componentDidMount`, provider listener (un)registration,
  `changedAccount`, `networkChanged`, `close`, `resetApp` and the
  connected-gated choice in `render`.

Files and modules:

- `types.dfy` (`Types`): the `NotificationType` and `TransactionStatus`
  enums of `src/helpers/types.ts`, the settled value of a promise
  (`Remote`), the shape of a rejection reason, and notification log entries
  `Notice(kind, severity)`.
- `ledger.dfy` (`Ledger`): the remote contract. Its read methods are an
  oracle `LedgerView` (what `getBooksCount()`, `bookIds(i)` and `books(id)`
  settle to); the ethers `Contract` object is a class whose only state is
  the set of registered event listeners.
- `dashboard_rules.dfy` (`DashboardRules`): the pure rules: the
  specification `FetchAll` of a fetch, the `copies` conversion, the
  notification decisions and the enable predicates, with the lemmas about
  them.
- `dashboard.dfy` (`Dashboard`): the fetch loop `FetchBooks` and the class
  `BookLibraryDashboard`. Each asynchronous handler is split where it awaits:
  a `Begin…` step runs what happens synchronously when the user acts, and a
  `Settle…`/`Finish…` step runs what happens once the remote outcome (an
  argument) is known. The `Handle…` methods run the two back to back.
  Notifications are appended to `log`; remote calls are appended to `calls`.
- `session.dfy` (`Session`): the class `App`, the `Provider` class (with
  optional `on`/`off` capabilities), `AppState`, `INITIAL_STATE` and
  `Render`. `App.Valid()` is the invariant every handler keeps:
  `fetching` and `pendingRequest` stay false; the state stays initial
  until a provider has been obtained; and a connected session holds a
  contract and a library.
- `scenarios.dfy` (`Scenarios`): client methods that drive both classes
  through the following flows, using only the contracts:
  - connect, mount, borrow, event and wallet lock;
  - a rejected borrow;
  - an invalid contract address;
  - a reset done twice;
  - a network change.

Where the code and the design description of the system disagree, the model
follows the code:

- There is no pending-operation guard. Overlapping writes are held off in
  two ways. While `transactionInProgress`, the Borrow, Return and Refresh
  buttons are disabled. While `loading` (the initial load, a refresh or a
  pending add), the loader replaces the whole table with all its buttons
  (`Table()` is absent). The add form sits outside the table, and its button
  is never disabled.
- The only checks on the form are the browser's: both inputs are `required`
  and the copies input has `type="number"`
  (src/components/BookLibraryDashboard.tsx:231, 238-239). Nothing in the
  code validates title or copies before `addBook`. The form's raw values are
  submitted, and `copies` is the typed text.
- A successful write notifies and does not re-fetch. Only the contract events
  and the Refresh button re-fetch.
- Borrow and return address a book by its title, not by its id.
- Taken alone, the receipt rule reports a receipt with status 0
  (`TransactionStatus.UNSUCCESSFUL`) as "Operation is successful.", because 0
  is falsy. The lemma `UnsuccessfulCodeReportedAsSuccess` states this. The
  path is reached only if the library hands such a receipt to the rule. With
  ethers v5, `wait()` rejects a status-0 receipt instead, so a failed
  transaction reaches the error rule and gives an error notification.
  The ethers code is not part of this model.
- A reset before any provider has been obtained stops at `provider.off`,
  which throws on the undefined provider. The model keeps that early exit.
  The state is still initial at that point, so every reset ends in
  `INITIAL_STATE`.

## Model

| member | source | states |
|---|---|---|
| `Dashboard.FetchBooks` | src/components/BookLibraryDashboard.tsx:101-111 | the indexed loop settles to exactly `FetchAll(ledger)`: the fetched records in index order, or the reason of the first rejected call |
| `DashboardRules.FetchPrefixRejectedStays` | src/components/BookLibraryDashboard.tsx:105-109 | once an iteration of the fetch loop rejects, the loop's result is that rejection whatever the count |
| `DashboardRules.FetchPrefixResolves` | src/components/BookLibraryDashboard.tsx:105-110 | `n` iterations resolve iff each one does, and then give exactly `n` records, record `i` being `books(bookIds(i))` |
| `DashboardRules.FetchPrefixFirstFailure` | src/components/BookLibraryDashboard.tsx:105-110 | a rejected loop carries the reason of its first rejected iteration |
| `DashboardRules.FetchAllMeaning` | src/components/BookLibraryDashboard.tsx:101-111 | a fetch resolves iff `getBooksCount()` and every `bookIds(i)`/`books(id)` resolve, with exactly `getBooksCount()` entries in index order, entry `i` being `books(bookIds(i))`; otherwise it rejects with the count's reason or that of the first failing iteration |
| `DashboardRules.Normalize` | src/components/BookLibraryDashboard.tsx:114-119 | the mapped list has the same length and order; each entry keeps id and title and has `copies` converted by `toNumber` |
| `DashboardRules.FetchedBooksInOrder` | src/components/BookLibraryDashboard.tsx:100-119 | after a successful fetch, the list installed has `getBooksCount()` rows, row `i` being `books(bookIds(i))` with numeric copies |
| `DashboardRules.ReceiptNotice` | src/components/BookLibraryDashboard.tsx:197-204 | exactly one notification; it is an ERROR iff the status is present, nonzero and not SUCCESSFUL (1), and otherwise "Operation is successful." |
| `DashboardRules.UnsuccessfulCodeReportedAsSuccess` | src/components/BookLibraryDashboard.tsx:198 | a receipt with the UNSUCCESSFUL code 0, or with no status, is reported as successful |
| `DashboardRules.ErrorNotice` | src/components/BookLibraryDashboard.tsx:206-218 | exactly one ERROR notification, using the nested provider error iff present, else the message iff non-empty, else the serialised fallback |
| `DashboardRules.WriteNotice` | src/components/BookLibraryDashboard.tsx:133-144 | every outcome of a write gives one notification: a rejected submission or settlement gives the error rule's notification, a receipt the receipt rule's; it is a success only for a mined receipt judged successful |
| `DashboardRules.EventNotice` | src/components/BookLibraryDashboard.tsx:79-94 | each contract event gives one informational notification of its own kind |
| `DashboardRules.EventNoticesDistinct` | src/components/BookLibraryDashboard.tsx:80-94 | different contract events are announced differently |
| `DashboardRules.FetchNotices` | src/components/BookLibraryDashboard.tsx:69-71 | a load gives one notification: the success announcement iff the fetch resolves, an ERROR iff it rejects |
| `DashboardRules.BorrowEnabledMeaning` | src/components/BookLibraryDashboard.tsx:262-278 | Borrow is enabled iff no transaction is in progress and copies is not 0, i.e. iff Return is enabled and a copy is left; Borrow enabled implies Refresh enabled |
| `Dashboard.BookLibraryDashboard.constructor` | src/components/BookLibraryDashboard.tsx:57-64 | both flags false, `books` absent, the form empty with copies 0, no notifications, no calls |
| `Dashboard.BookLibraryDashboard.Table` | src/components/BookLibraryDashboard.tsx:246-256 | the table is shown iff not loading, and then lists the current books (none while `books` is absent) |
| `Dashboard.BookLibraryDashboard.UpdateBooks` | src/components/BookLibraryDashboard.tsx:100-120 | on a resolved fetch `books` is replaced wholesale by the normalised records; on a rejected one it is untouched; a null contract rejects without a call; flags, form and log unchanged |
| `Dashboard.BookLibraryDashboard.BeginLoad` | src/components/BookLibraryDashboard.tsx:187-189 | `loading` becomes true, which hides the table; nothing else changes |
| `Dashboard.BookLibraryDashboard.FinishLoad` | src/components/BookLibraryDashboard.tsx:190-194 | the fetch's effect on `books`, one notification (announcement or error), and `loading` false whatever the outcome |
| `Dashboard.BookLibraryDashboard.SubscribeToContractEvents` | src/components/BookLibraryDashboard.tsx:78-98 | the contract gains listeners for exactly BookAdded, BookBorrowed and BookReturned |
| `Dashboard.BookLibraryDashboard.Mount` | src/components/BookLibraryDashboard.tsx:66-76 | only with a contract: one fetch, "Books loaded." or one error, `loading` false afterwards, the three listeners registered; without one nothing happens |
| `Dashboard.BookLibraryDashboard.HandleRefresh` | src/components/BookLibraryDashboard.tsx:187-195 | one fetch, "Books info refreshed." iff it resolves, one error otherwise, `loading` false in every case, `transactionInProgress` untouched |
| `Dashboard.BookLibraryDashboard.HandleContractEvent` | src/components/BookLibraryDashboard.tsx:79-97 | with a registered listener: one informational notification, then a full re-fetch replacing `books`, plus one error if it rejects; `loading` untouched; without a listener nothing happens |
| `Dashboard.BookLibraryDashboard.HandleInput` | src/components/BookLibraryDashboard.tsx:122-125 | the named form field takes the typed text; nothing else changes |
| `Dashboard.BookLibraryDashboard.BeginAddBook` | src/components/BookLibraryDashboard.tsx:127-132 | `loading` becomes true and the form's title and copies are submitted unvalidated, when a contract is present |
| `Dashboard.BookLibraryDashboard.SettleAddBook` | src/components/BookLibraryDashboard.tsx:133-144 | on every outcome: one notification and `loading` false; `books` and the calls unchanged (no re-fetch) |
| `Dashboard.BookLibraryDashboard.HandleAddBook` | src/components/BookLibraryDashboard.tsx:127-145 | with a contract: one submission, one notification, `loading` false at the end, no re-fetch; without one, `loading` stays true |
| `Dashboard.BookLibraryDashboard.BeginBorrowBook` | src/components/BookLibraryDashboard.tsx:147-152 | `transactionInProgress` becomes true, disabling every Borrow, Return and Refresh button; the borrow is submitted by title; `loading` untouched |
| `Dashboard.BookLibraryDashboard.BeginReturnBook` | src/components/BookLibraryDashboard.tsx:167-172 | as for borrowing, submitting the return by title |
| `Dashboard.BookLibraryDashboard.SettleTransaction` | src/components/BookLibraryDashboard.tsx:153-164 | on every outcome: one notification and `transactionInProgress` false, re-enabling Return and Refresh; `loading` and `books` untouched |
| `Dashboard.BookLibraryDashboard.HandleBorrowBook` | src/components/BookLibraryDashboard.tsx:147-165 | with a contract: one submission, one notification, the flag cleared, `loading` and `books` untouched |
| `Dashboard.BookLibraryDashboard.HandleReturnBook` | src/components/BookLibraryDashboard.tsx:167-185 | with a contract: one submission, one notification, the flag cleared, `loading` and `books` untouched |
| `Session.ConnectedAddress` | src/App.tsx:113 | the address is `selectedAddress` when truthy, else the first account (the empty string for an empty list); there is none exactly when `selectedAddress` is falsy and the provider has no `accounts`, where reading `accounts[0]` throws |
| `Session.Render` | src/App.tsx:220-237 | the loader iff fetching; otherwise the dashboard (given the session's contract) iff connected and the connect button iff not |
| `Session.App.constructor` | src/App.tsx:89-100 | the state starts as `INITIAL_STATE` with no provider, and the invariant holds |
| `Session.App.View` | src/App.tsx:227-236 | under the invariant the dashboard is shown iff connected, with a non-null contract, and the connect button iff not connected |
| `Session.App.OnConnect` | src/App.tsx:108-131 | a rejected connection changes nothing; a rejected `getNetwork()` or an address read that throws ends the handler with `provider` set and no state change; an invalid contract address gives one ERROR and changes no state and no listeners; otherwise connected, chain id from the queried network, the selected address, a fresh contract, listeners per `on` |
| `Session.App.ComponentDidMount` | src/App.tsx:102-106 | when a provider is cached, exactly the effect of `onConnect` (connected with the queried chain id, the selected address and a fresh contract on success; one ERROR and no state change on an invalid address; no state change on a rejection); otherwise nothing changes |
| `Session.App.SubscribeToProviderEvents` | src/App.tsx:133-143 | exactly the accountsChanged, networkChanged and close listeners are added iff the provider has `on` |
| `Session.App.UnSubscribe` | src/App.tsx:145-155 | the three listeners are removed iff the provider has `off`, otherwise they stay |
| `Session.App.ResetApp` | src/App.tsx:191-199 | cached provider and both storage keys cleared, provider listeners removed iff `off` exists, every contract listener removed, and the state equal to `INITIAL_STATE`, so a second reset gives the same state |
| `Session.App.ChangedAccount` | src/App.tsx:157-164 | an empty list performs the full reset; otherwise only `address` becomes the first account |
| `Session.App.NetworkChanged` | src/App.tsx:166-171 | only `chainId` (from the re-queried network, not the event argument) and `library` change |
| `Session.App.Close` | src/App.tsx:173-175 | the same effects as a reset |

## Left out

- `showTransactionLinkDialog` (the "transaction started" dialog with the hash) is not logged. It is a dialog, not a `showNotification` call.
- Message texts and `JSON.stringify` are not modelled. A notification is its kind and severity only. `showNotification` without a type is taken as INFO, because `src/helpers/utilities.ts` is not part of this model.
- A rejection reason is a record: an optional nested error and a message, where the empty string stands for an absent or falsy message. A thrown string or number is `Reason(None, "")` and reaches the serialised fallback. A thrown `null` or `undefined`, on which reading `reason.error` throws, is not modelled.
- Promise scheduling is not modelled. Each handler's steps run in order. Callers of the `Begin…`/`Settle…` steps may interleave handlers, but the model puts no order on concurrent fetches.
- Web3Modal (its provider picker, its own caching when connecting, and `web3Modal.off('accountsChanged')` at src/App.tsx:142), `Web3Provider`, `getContract`, `isAddress` and `getNetwork` are foreign code. Their results are arguments: the connected provider, the queried chain id, and the address check.
- `window.location.reload()` in `unSubscribe` is treated as having no effect on the modelled state.
- `getChainData`, `getNetwork`, `getProviderOptions` and `process.env` are configuration lookups and are not modelled.
- `localStorage` is only the set of keys present.
- `toNumber` is a plain integer. BigNumber overflow is ignored.
- The `...book` spread also keeps the positional fields of an ethers result. The model's book has only `id`, `title` and `copies`.
- A missing `accounts[0]` in a present but empty `accounts` list is the empty string rather than `undefined`.
- Listener registries are sets, so registering the same handler twice counts once. The source can register twice: a reset against a provider without `off` keeps its listeners, and reconnecting to the same provider object adds them again. The emitter then runs each handler twice; the model runs it once.
- Session.App.ChangedAccount: requires a provider. The handler runs only as a listener that `onConnect` registers after it has set `provider`.
- React mounting and unmounting of the dashboard when `connected` changes are not modelled. The scenarios build a dashboard over the session's contract by hand.
- Dashboard.BookLibraryDashboard.HandleAddBook: accepts any draft, the empty one included. The browser's `required` and `type="number"` checks, which keep an empty or non-numeric form from being submitted, are not modelled.
- Styling, layout and the `Header`, `Loader` and `Button` widgets are not modelled.
