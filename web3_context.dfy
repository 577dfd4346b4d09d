/** The wallet state of src/context/Web3Context.jsx: the five state cells of `Web3Provider`,
    what `connectWallet`, `disconnectWallet`, the `accountsChanged`/`chainChanged` listeners
    and the mount-time connection check do to them, and the derived `isConnected` and
    `networkName`. The injected provider's answers are parameters. */
module Web3Context {
  import opened Wrappers

  // ---------------------------------------------------------------------------
  // Display helpers
  // ---------------------------------------------------------------------------

  /** The networks `getNetworkName` knows by name. */
  const KnownNetworks: map<string, string> := map[
    "0x1" := "Ethereum Mainnet",
    "0x5" := "Goerli Testnet",
    "0xaa36a7" := "Sepolia Testnet",
    "0x89" := "Polygon Mainnet",
    "0x13881" := "Mumbai Testnet",
    "0xa4b1" := "Arbitrum One",
    "0xa" := "Optimism"
  ]

  const UnknownChainPrefix: string := "Chain ID: "

  /** `getNetworkName(chainId)`: the network's name, or `Chain ID: <id>` for any other id. */
  function GetNetworkName(chainId: string): (r: string)
    ensures chainId in KnownNetworks ==> r == KnownNetworks[chainId]
    ensures chainId !in KnownNetworks ==>
              |r| == |UnknownChainPrefix| + |chainId| && r[..|UnknownChainPrefix|] == UnknownChainPrefix
              && r[|UnknownChainPrefix|..] == chainId
  {
    if chainId in KnownNetworks then KnownNetworks[chainId] else UnknownChainPrefix + chainId
  }

  /** No name of a known network begins with the prefix used for unknown ones. */
  lemma KnownNamesAreNotChainIds(chainId: string)
    requires chainId in KnownNetworks
    ensures |KnownNetworks[chainId]| > 0 && KnownNetworks[chainId][0] != UnknownChainPrefix[0]
  {
  }

  /** Distinct chain ids are shown under distinct names. */
  lemma {:induction false} NetworkNamesAreDistinct(a: string, b: string)
    requires GetNetworkName(a) == GetNetworkName(b)
    ensures a == b
  {
    var ra, rb := GetNetworkName(a), GetNetworkName(b);
    if a in KnownNetworks {
      KnownNamesAreNotChainIds(a);
    }
    if b in KnownNetworks {
      KnownNamesAreNotChainIds(b);
    }
    if a !in KnownNetworks && b !in KnownNetworks {
      assert a == ra[|UnknownChainPrefix|..] == rb[|UnknownChainPrefix|..] == b;
    }
  }

  /** The index `String.prototype.substring` starts from when given only a start: negative
      starts count as 0 and starts past the end as the end. */
  function ClampIndex(s: string, i: int): (k: nat)
    ensures k <= |s|
    ensures 0 <= i <= |s| ==> k == i
    ensures i < 0 ==> k == 0
    ensures i > |s| ==> k == |s|
  {
    if i < 0 then 0 else if i > |s| then |s| else i
  }

  /** `formatAddress(address)`: empty for a missing or empty address, otherwise the first six
      characters (`substring(0, 6)`), `...`, and what `substring(length - 4)` returns. */
  function FormatAddress(address: Option<string>): (r: string)
    ensures address.None? || address.value == [] ==> r == []
    ensures address.Some? && address.value != [] ==>
              var a := address.value;
              var head := if |a| < 6 then |a| else 6;
              var tail := if |a| < 4 then |a| else 4;
              && |r| == head + 3 + tail
              && r[..head] == a[..head] && r[head..head + 3] == "..." && r[head + 3..] == a[|a| - tail..]
    ensures address.Some? && |address.value| >= 10 ==> |r| == 13
  {
    if address.None? || address.value == [] then []
    else
      var a := address.value;
      a[..ClampIndex(a, 6)] + "..." + a[ClampIndex(a, |a| - 4)..]
  }

  // ---------------------------------------------------------------------------
  // State and transitions
  // ---------------------------------------------------------------------------

  const NotInstalledMessage: string := "MetaMask is not installed. Please install MetaMask to continue."
  const RejectedMessage: string := "Connection request rejected. Please approve the connection request."
  const FailedMessage: string := "Failed to connect wallet"
  /** The code of a request the user rejected in the wallet. */
  const UserRejectedCode: int := 4001

  /** The `ethers` provider built over the injected wallet. */
  datatype Provider = Web3Provider

  datatype WalletState = WalletState(account: Option<string>, chainId: Option<string>,
                                     isConnecting: bool, error: Option<string>,
                                     provider: Option<Provider>)

  /** Every cell as `useState` initialises it. */
  const Initial: WalletState := WalletState(None, None, false, None, None)

  /** `isConnected: !!account`. */
  predicate IsConnected(s: WalletState) {
    s.account.Some? && s.account.value != []
  }

  /** `networkName`: the name of the chain when `chainId` is truthy, `null` otherwise. */
  function NetworkName(s: WalletState): (r: Option<string>)
    ensures r.None? <==> s.chainId.None? || s.chainId.value == []
    ensures r.Some? ==> r.value == GetNetworkName(s.chainId.value)
    ensures r.Some? ==> |r.value| > 0
  {
    if s.chainId.Some? && s.chainId.value != [] then Some(GetNetworkName(s.chainId.value)) else None
  }

  /** What the wallet answers `eth_requestAccounts` and `eth_chainId`: both values, or the
      error the first failing request throws (its `code` and its `message`, empty when it has
      none). */
  datatype ConnectAnswer = Granted(accounts: seq<string>, chain: string)
                         | Refused(code: Option<int>, message: string)

  /** `accounts[0]`, which is `undefined` for an empty list. */
  function FirstAccount(accounts: seq<string>): Option<string> {
    if accounts == [] then None else Some(accounts[0])
  }

  /** The message the `catch` block shows. */
  function ConnectErrorMessage(code: Option<int>, message: string): (r: string)
    ensures code == Some(UserRejectedCode) ==> r == RejectedMessage
    ensures code != Some(UserRejectedCode) ==> r == if message != [] then message else FailedMessage
    ensures r != []
  {
    if code == Some(UserRejectedCode) then RejectedMessage
    else if message != [] then message
    else FailedMessage
  }

  /** `connectWallet()` with `installed` for `isMetaMaskInstalled()` and the wallet's answer. */
  function Connected(s: WalletState, installed: bool, answer: ConnectAnswer): (r: WalletState)
    ensures !installed ==> r == s.(error := Some(NotInstalledMessage))
    ensures installed ==> !r.isConnecting
    ensures r.error.Some? <==> !installed || answer.Refused?
    ensures installed && answer.Refused? && answer.code == Some(UserRejectedCode) ==>
              r.error == Some(RejectedMessage)
    ensures !installed || answer.Refused? ==>
              r.account == s.account && r.chainId == s.chainId && r.provider == s.provider
    ensures installed && answer.Granted? ==>
              && r.account == FirstAccount(answer.accounts) && r.chainId == Some(answer.chain)
              && r.provider == Some(Web3Provider)
              && (IsConnected(r) <==> answer.accounts != [] && answer.accounts[0] != [])
  {
    if !installed then s.(error := Some(NotInstalledMessage))
    else
      match answer
      case Granted(accounts, chain) =>
        s.(isConnecting := false, error := None, account := FirstAccount(accounts),
           chainId := Some(chain), provider := Some(Web3Provider))
      case Refused(code, message) =>
        s.(isConnecting := false, error := Some(ConnectErrorMessage(code, message)))
  }

  /** `disconnectWallet()`. */
  function Disconnected(s: WalletState): (r: WalletState)
    ensures !IsConnected(r) && NetworkName(r).None?
    ensures r.account.None? && r.chainId.None? && r.provider.None? && r.error.None?
    ensures r.isConnecting == s.isConnecting
  {
    s.(account := None, chainId := None, provider := None, error := None)
  }

  /** The `accountsChanged` listener, where `seen` is the `account` its closure compares
      against. */
  function AccountsChanged(s: WalletState, accounts: seq<string>, seen: Option<string>): (r: WalletState)
    ensures accounts == [] ==> r == Disconnected(s)
    ensures accounts != [] && Some(accounts[0]) != seen ==> r == s.(account := Some(accounts[0]))
    ensures accounts != [] && Some(accounts[0]) == seen ==> r == s
    ensures accounts == [] ==> !IsConnected(r) && NetworkName(r).None?
    ensures r.isConnecting == s.isConnecting
    ensures accounts != [] ==> r.chainId == s.chainId && r.provider == s.provider && r.error == s.error
    ensures accounts != [] && seen == s.account ==> r.account == Some(accounts[0])
  {
    if accounts == [] then Disconnected(s)
    else if Some(accounts[0]) != seen then s.(account := Some(accounts[0]))
    else s
  }

  /** The listener is registered once, at mount, so its closure holds the initial `null`
      rather than the current account. That makes no difference to the state: comparing with
      the stale value and comparing with the current one give the same result. */
  lemma StaleClosureHarmless(s: WalletState, accounts: seq<string>)
    ensures AccountsChanged(s, accounts, Initial.account) == AccountsChanged(s, accounts, s.account)
  {
    if accounts != [] && Some(accounts[0]) == s.account {
      assert s.(account := Some(accounts[0])) == s;
    }
  }

  /** Whatever the current state, an account switch leaves the wallet connected exactly when
      the new first account is non-empty, on the same chain. */
  lemma AccountSwitchKeepsChain(s: WalletState, accounts: seq<string>)
    requires accounts != []
    ensures var r := AccountsChanged(s, accounts, Initial.account);
            && r.chainId == s.chainId && r.provider == s.provider && r.error == s.error
            && (IsConnected(r) <==> accounts[0] != [])
  {
  }

  /** The `chainChanged` listener, up to the page reload that follows it. */
  function ChainChanged(s: WalletState, newChainId: string): (r: WalletState)
    ensures r.account == s.account && r.provider == s.provider && r.error == s.error
    ensures r.isConnecting == s.isConnecting && r.chainId == Some(newChainId)
    ensures NetworkName(r) == if newChainId == [] then None else Some(GetNetworkName(newChainId))
  {
    s.(chainId := Some(newChainId))
  }

  /** What the wallet answers the mount-time `eth_accounts` (and, when that lists an account,
      `eth_chainId`), or a failure of either request. */
  datatype CheckAnswer = Listed(accounts: seq<string>, chain: string) | CheckFailed

  /** `checkConnection()`, run at mount only when a wallet is installed; its errors are only
      logged. */
  function Checked(s: WalletState, installed: bool, answer: CheckAnswer): (r: WalletState)
    ensures r.error == s.error && r.isConnecting == s.isConnecting
    ensures r != s ==> installed && answer.Listed? && answer.accounts != []
    ensures installed && answer.Listed? && answer.accounts != [] ==>
              && r.account == Some(answer.accounts[0]) && r.chainId == Some(answer.chain)
              && r.provider == Some(Web3Provider)
  {
    if installed && answer.Listed? && answer.accounts != [] then
      s.(account := Some(answer.accounts[0]), chainId := Some(answer.chain), provider := Some(Web3Provider))
    else s
  }

  /** After a disconnect, a connection granted with a non-empty first account connects again,
      on the granted chain, with no error showing. */
  lemma ReconnectAfterDisconnect(s: WalletState, accounts: seq<string>, chain: string)
    requires accounts != [] && accounts[0] != [] && chain != []
    ensures var r := Connected(Disconnected(s), true, Granted(accounts, chain));
            && IsConnected(r) && r.error.None? && !r.isConnecting
            && NetworkName(r) == Some(GetNetworkName(chain))
  {
  }

  // ---------------------------------------------------------------------------
  // The provider component's state cells
  // ---------------------------------------------------------------------------

  /** The state cells of one mounted `Web3Provider`, each updated by its setter. */
  class WalletContext {
    var account: Option<string>
    var chainId: Option<string>
    var isConnecting: bool
    var error: Option<string>
    var provider: Option<Provider>

    function State(): WalletState
      reads this
    {
      WalletState(account, chainId, isConnecting, error, provider)
    }

    constructor ()
      ensures State() == Initial
    {
      account, chainId, isConnecting, error, provider := None, None, false, None, None;
    }

    /** `connectWallet()`: the synchronous part until the first `await`, then the outcome. */
    method ConnectWallet(installed: bool, answer: ConnectAnswer)
      modifies this
      ensures State() == Connected(old(State()), installed, answer)
    {
      if !installed {
        error := Some(NotInstalledMessage);
        return;
      }
      isConnecting := true;
      error := None;
      match answer {
        case Granted(accounts, chain) =>
          account := FirstAccount(accounts);
          chainId := Some(chain);
          provider := Some(Web3Provider);
        case Refused(code, message) =>
          error := Some(ConnectErrorMessage(code, message));
      }
      isConnecting := false;
    }

    /** `disconnectWallet()`. */
    method DisconnectWallet()
      modifies this
      ensures State() == Disconnected(old(State()))
    {
      account := None;
      chainId := None;
      provider := None;
      error := None;
    }

    /** The `accountsChanged` listener as registered at mount: its closure compares with the
        initial `account`. */
    method HandleAccountsChanged(accounts: seq<string>)
      modifies this
      ensures State() == AccountsChanged(old(State()), accounts, Initial.account)
    {
      if |accounts| == 0 {
        DisconnectWallet();
      } else if Some(accounts[0]) != Initial.account {
        account := Some(accounts[0]);
      }
    }

    /** The `chainChanged` listener. */
    method HandleChainChanged(newChainId: string)
      modifies this
      ensures State() == ChainChanged(old(State()), newChainId)
    {
      chainId := Some(newChainId);
    }

    /** The mount effect's `checkConnection()`. */
    method CheckConnection(installed: bool, answer: CheckAnswer)
      modifies this
      ensures State() == Checked(old(State()), installed, answer)
    {
      if !installed {
        return;
      }
      match answer {
        case Listed(accounts, chain) =>
          if |accounts| > 0 {
            account := Some(accounts[0]);
            chainId := Some(chain);
            provider := Some(Web3Provider);
          }
        case CheckFailed =>
      }
    }
  }
}
