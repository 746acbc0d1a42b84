/** The wallet session of src/App.tsx: the `IAppState` record, the class
    `App` with its mutable `state` and `provider` fields, and its handlers.
    Web3Modal, the ethers library and the contract address check are
    foreign code: their results are arguments. */
module Session {
  import opened Types
  import opened Ledger

  /** The three provider events the session listens to. */
  datatype ProviderEvent = AccountsChanged | NetworkChanged | Close

  const AllProviderEvents: set<ProviderEvent> := {AccountsChanged, NetworkChanged, Close}

  /** An injected wallet provider. `on` and `off` are optional capabilities;
      `listeners` are the session's handlers currently registered on it. */
  class Provider {
    const hasOn: bool
    const hasOff: bool
    /** `selectedAddress`, the empty string when absent or falsy. */
    const selectedAddress: string
    /** The `accounts` property, absent on some providers. */
    const accounts: Option<seq<string>>
    var listeners: set<ProviderEvent>

    constructor (hasOn: bool, hasOff: bool, selectedAddress: string, accounts: Option<seq<string>>)
      ensures this.hasOn == hasOn && this.hasOff == hasOff
      ensures this.selectedAddress == selectedAddress && this.accounts == accounts
      ensures listeners == {}
    {
      this.hasOn := hasOn;
      this.hasOff := hasOff;
      this.selectedAddress := selectedAddress;
      this.accounts := accounts;
      listeners := {};
    }
  }

  /** `new Web3Provider(provider)`. */
  datatype Library = Web3Provider(provider: Provider)

  /** `IAppState`; `result` and `info` are never written by this code. */
  datatype AppState = AppState(
    fetching: bool,
    address: string,
    library: Option<Library>,
    connected: bool,
    chainId: int,
    pendingRequest: bool,
    result: Option<string>,
    bookLibraryContract: Contract?,
    info: Option<string>)

  const INITIAL_STATE: AppState :=
    AppState(false, "", None, false, 1, false, None, null, None)

  /** The two localStorage keys a reset removes. */
  const CachedProviderKey: string := "WEB3_CONNECT_CACHED_PROVIDER"
  const WalletConnectKey: string := "walletconnect"

  /** The address `onConnect` takes: `selectedAddress` if truthy, else the
      first account, where a missing first account is the empty string.
      `None` when there is no `selectedAddress` and no `accounts` property,
      where reading `accounts[0]` throws. */
  function ConnectedAddress(selectedAddress: string, accounts: Option<seq<string>>): (a: Option<string>)
    ensures a.None? <==> selectedAddress == "" && accounts.None?
    ensures selectedAddress != "" ==> a == Some(selectedAddress)
    ensures selectedAddress == "" && accounts.Some? && accounts.value != [] ==> a == Some(accounts.value[0])
    ensures selectedAddress == "" && accounts == Some([]) ==> a == Some("")
  {
    if selectedAddress != "" then Some(selectedAddress)
    else match accounts
      case None => None
      case Some(list) => Some(if list != [] then list[0] else "")
  }

  /** What `render` shows below the header. */
  datatype Screen = LoaderScreen | ConnectScreen | DashboardScreen(contract: Contract?)

  /** `render`: the loader while fetching, otherwise the connect button when
      not connected and the dashboard, given the session's contract, when connected. */
  function Render(s: AppState): (v: Screen)
    ensures s.fetching <==> v == LoaderScreen
    ensures !s.fetching ==> (v.DashboardScreen? <==> s.connected)
    ensures !s.fetching ==> (v == ConnectScreen <==> !s.connected)
    ensures v.DashboardScreen? ==> v.contract == s.bookLibraryContract
  {
    if s.fetching then LoaderScreen
    else if !s.connected then ConnectScreen
    else DashboardScreen(s.bookLibraryContract)
  }

  class App {
    /** BOOK_LIBRARY_CONTRACT_ADDRESS from the configuration. */
    const contractAddress: string
    var state: AppState
    var provider: Provider?
    /** Whether Web3Modal remembers a provider from an earlier visit. */
    var cachedProvider: bool
    /** The localStorage keys present. */
    var storage: set<string>
    /** Every `showNotification` call, in order. */
    var log: seq<Notice>

    /** What every handler keeps: nothing sets `fetching` or `pendingRequest`,
        the state stays initial until a provider has been obtained, and a
        connected session always holds a contract and a library. */
    ghost predicate Valid()
      reads this
    {
      !state.fetching && !state.pendingRequest &&
      (provider == null ==> state == INITIAL_STATE) &&
      (state.connected <==> state.bookLibraryContract != null) &&
      (state.connected ==> state.library.Some?)
    }

    constructor (contractAddress: string, cachedProvider: bool, storage: set<string>)
      ensures Valid()
      ensures this.contractAddress == contractAddress
      ensures state == INITIAL_STATE && provider == null
      ensures this.cachedProvider == cachedProvider && this.storage == storage && log == []
    {
      this.contractAddress := contractAddress;
      state := INITIAL_STATE;
      provider := null;
      this.cachedProvider := cachedProvider;
      this.storage := storage;
      log := [];
    }

    /** The screen under the header: the dashboard exactly when connected. */
    function View(): (v: Screen)
      reads this
      requires Valid()
      ensures v.DashboardScreen? <==> state.connected
      ensures v == ConnectScreen <==> !state.connected
      ensures v.DashboardScreen? ==> v.contract != null && v.contract == state.bookLibraryContract
    {
      Render(state)
    }

    /** What `onConnect` does, as a relation between the state before and
        after. A rejection ends the handler where it occurs: a rejected
        `web3Modal.connect()` changes nothing; after it, `provider` is set.
        A rejected `getNetwork()`, or an address read that throws, leaves the
        state, the log and the listeners as they were. An invalid contract
        address notifies one error and changes no state and no listeners.
        Otherwise the session is connected over a fresh contract. */
    twostate predicate ConnectEffect(connection: Remote<Provider>, network: Remote<int>, isAddress: string -> bool)
      reads this, if connection.Ok? then {connection.value} else {}
      reads if state.bookLibraryContract != null then {state.bookLibraryContract} else {}
    {
      cachedProvider == old(cachedProvider) && storage == old(storage) &&
      (connection.Rejected? ==>
        state == old(state) && provider == old(provider) && log == old(log)) &&
      (connection.Ok? ==>
        var p := connection.value;
        var address := ConnectedAddress(p.selectedAddress, p.accounts);
        provider == p &&
        (network.Rejected? || address.None? || !isAddress(contractAddress) ==>
          state == old(state) && p.listeners == old(p.listeners)) &&
        (network.Rejected? || address.None? ==> log == old(log)) &&
        (network.Ok? && address.Some? && !isAddress(contractAddress) ==>
          log == old(log) + [Notice(InvalidContractAddress, Error)]) &&
        (network.Ok? && address.Some? && isAddress(contractAddress) ==>
          state == old(state).(
            library := Some(Web3Provider(p)),
            chainId := network.value,
            address := address.value,
            connected := true,
            bookLibraryContract := state.bookLibraryContract) &&
          state.bookLibraryContract != null && fresh(state.bookLibraryContract) &&
          state.bookLibraryContract.address == contractAddress &&
          state.bookLibraryContract.listeners == {} &&
          p.listeners == (if p.hasOn then old(p.listeners) + AllProviderEvents else old(p.listeners)) &&
          log == old(log)))
    }

    /** `onConnect`. `connection` is what `web3Modal.connect()` settles to,
        `network` what `library.getNetwork()` settles to, and `isAddress` the
        ethers address check. */
    method OnConnect(connection: Remote<Provider>, network: Remote<int>, isAddress: string -> bool)
      requires Valid()
      modifies this, if connection.Ok? then {connection.value} else {}
      ensures Valid()
      ensures ConnectEffect(connection, network, isAddress)
    {
      if connection.Rejected? {
        return;
      }
      provider := connection.value;
      var library := Web3Provider(provider);
      if network.Rejected? {
        return;
      }
      var address := ConnectedAddress(provider.selectedAddress, provider.accounts);
      if address.None? {
        return;
      }
      if !isAddress(contractAddress) {
        log := log + [Notice(InvalidContractAddress, Error)];
        return;
      }
      var bookLibraryContract := new Contract(contractAddress);
      state := state.(
        library := Some(library),
        chainId := network.value,
        address := address.value,
        connected := true,
        bookLibraryContract := bookLibraryContract);
      SubscribeToProviderEvents(provider);
    }

    /** `componentDidMount`: reconnect only when a provider is cached. */
    method ComponentDidMount(connection: Remote<Provider>, network: Remote<int>, isAddress: string -> bool)
      requires Valid()
      modifies this, if connection.Ok? then {connection.value} else {}
      ensures Valid()
      ensures !old(cachedProvider) ==>
        state == old(state) && provider == old(provider) && log == old(log) &&
        cachedProvider == old(cachedProvider) && storage == old(storage) &&
        (connection.Ok? ==> connection.value.listeners == old(connection.value.listeners))
      ensures old(cachedProvider) ==> ConnectEffect(connection, network, isAddress)
    {
      if cachedProvider {
        OnConnect(connection, network, isAddress);
      }
    }

    /** `subscribeToProviderEvents`: the three handlers, only if the provider has `on`. */
    method SubscribeToProviderEvents(p: Provider)
      modifies p
      ensures p.listeners == if p.hasOn then old(p.listeners) + AllProviderEvents else old(p.listeners)
    {
      if !p.hasOn {
        return;
      }
      p.listeners := p.listeners + {ProviderEvent.AccountsChanged};
      p.listeners := p.listeners + {ProviderEvent.NetworkChanged};
      p.listeners := p.listeners + {ProviderEvent.Close};
    }

    /** `unSubscribe`: the three handlers come off only if the provider has
        `off`; otherwise they stay registered. */
    method UnSubscribe(p: Provider)
      modifies p
      ensures p.listeners == if p.hasOff then old(p.listeners) - AllProviderEvents else old(p.listeners)
    {
      if !p.hasOff {
        return;
      }
      p.listeners := p.listeners - {ProviderEvent.AccountsChanged};
      p.listeners := p.listeners - {ProviderEvent.NetworkChanged};
      p.listeners := p.listeners - {ProviderEvent.Close};
    }

    /** `resetApp`: forget the cached provider and the two storage keys,
        unsubscribe from the provider, drop every contract listener and return
        to INITIAL_STATE. With no provider yet, `provider.off` throws and the
        rest is skipped, but the state is then initial already. */
    method ResetApp()
      requires Valid()
      modifies this, provider, state.bookLibraryContract
      ensures Valid()
      ensures state == INITIAL_STATE
      ensures !cachedProvider && storage == old(storage) - {CachedProviderKey, WalletConnectKey}
      ensures provider == old(provider) && log == old(log)
      ensures provider != null ==>
        provider.listeners ==
          if provider.hasOff then old(provider.listeners) - AllProviderEvents else old(provider.listeners)
      ensures old(state.bookLibraryContract) != null ==> old(state.bookLibraryContract).listeners == {}
    {
      cachedProvider := false;
      storage := storage - {CachedProviderKey};
      storage := storage - {WalletConnectKey};
      if provider == null {
        return;
      }
      UnSubscribe(provider);
      if state.bookLibraryContract != null {
        state.bookLibraryContract.RemoveAllListeners();
      }
      state := INITIAL_STATE;
    }

    /** `changedAccount`: an empty list (a locked wallet) resets the session;
        otherwise only the address changes. It runs only as a provider
        listener, which `onConnect` registers after setting `provider`. */
    method ChangedAccount(accounts: seq<string>)
      requires Valid() && provider != null
      modifies this, provider, state.bookLibraryContract
      ensures Valid()
      ensures provider == old(provider) && log == old(log)
      ensures accounts == [] ==>
        state == INITIAL_STATE && !cachedProvider &&
        storage == old(storage) - {CachedProviderKey, WalletConnectKey} &&
        (old(state.bookLibraryContract) != null ==> old(state.bookLibraryContract).listeners == {}) &&
        (provider != null ==>
          provider.listeners ==
            if provider.hasOff then old(provider.listeners) - AllProviderEvents else old(provider.listeners))
      ensures accounts != [] ==>
        state == old(state).(address := accounts[0]) &&
        cachedProvider == old(cachedProvider) && storage == old(storage) &&
        (provider != null ==> provider.listeners == old(provider.listeners)) &&
        (state.bookLibraryContract != null ==>
          state.bookLibraryContract.listeners == old(state.bookLibraryContract.listeners))
    {
      if accounts == [] {
        ResetApp();
      } else {
        state := state.(address := accounts[0]);
      }
    }

    /** `networkChanged`: re-query the network through a new library over the
        current provider and take its chain id; the event's own argument is
        ignored. Only `chainId` and `library` change. */
    method NetworkChanged(networkId: int, network: Remote<int>)
      requires Valid()
      modifies this
      ensures Valid()
      ensures provider == old(provider) && log == old(log)
      ensures cachedProvider == old(cachedProvider) && storage == old(storage)
      ensures provider == null || network.Rejected? ==> state == old(state)
      ensures provider != null && network.Ok? ==>
        state == old(state).(chainId := network.value, library := Some(Web3Provider(provider)))
    {
      if provider == null {
        return;
      }
      var library := Web3Provider(provider);
      if network.Rejected? {
        return;
      }
      state := state.(chainId := network.value, library := Some(library));
    }

    /** `close`: exactly a reset. */
    method Close()
      requires Valid()
      modifies this, provider, state.bookLibraryContract
      ensures Valid()
      ensures state == INITIAL_STATE
      ensures !cachedProvider && storage == old(storage) - {CachedProviderKey, WalletConnectKey}
      ensures provider == old(provider) && log == old(log)
      ensures provider != null ==>
        provider.listeners ==
          if provider.hasOff then old(provider.listeners) - AllProviderEvents else old(provider.listeners)
      ensures old(state.bookLibraryContract) != null ==> old(state.bookLibraryContract).listeners == {}
    {
      ResetApp();
    }
  }
}
