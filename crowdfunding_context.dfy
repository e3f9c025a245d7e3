/** The context provider of the page: the wallet session (six pieces of
    React state and the operations that set them), the enumeration of the
    local node's test accounts, and the signer guard in front of the two
    contract writes. Every external lookup (the node, the injected wallet,
    the contract) is an input. */
module CrowdfundingContext {
  import opened Wrappers
  import opened ContractData

  /** The local development node the provider connects to. */
  const LocalRpcUrl: string := "http://127.0.0.1:8545"

  /** The number of test accounts the local node is asked for. */
  const LocalAccountLimit: nat := 20

  /** The `provider` object: a JSON-RPC provider for a URL, or the provider
      wrapping the injected browser wallet. */
  datatype Provider = JsonRpcProvider(url: string) | BrowserProvider

  /** An opaque signing capability, known only by identity. */
  datatype Signer = Signer(id: nat)

  /** `connectionType`: "", "local" or "metamask". */
  datatype ConnectionType = NotConnected | Local | MetaMask

  /** What the awaited calls for one account return when none of them throws:
      the signer, its address and its balance. */
  datatype Probe = Probe(signer: Signer, address: Address, balance: Wei)

  /** One entry of `availableAccounts`. */
  datatype Account = Account(index: nat, address: Address, balance: Wei, signer: Signer)

  function AccountOf(p: Probe, i: nat): Account
  {
    Account(i, p.address, p.balance, p.signer)
  }

  /** The accounts found from position `i` on: lookup `i` succeeds or the
      enumeration stops. A position past the end of `lookups` fails. */
  function LocalAccountsFrom(lookups: seq<Option<Probe>>, i: nat): seq<Account>
    decreases LocalAccountLimit - i
  {
    if i >= LocalAccountLimit || i >= |lookups| || lookups[i].None? then []
    else [AccountOf(lookups[i].value, i)] + LocalAccountsFrom(lookups, i + 1)
  }

  /** The accounts the enumeration loop collects. */
  function LocalAccounts(lookups: seq<Option<Probe>>): seq<Account>
  {
    LocalAccountsFrom(lookups, 0)
  }

  lemma {:induction false} LocalAccountsFromShape(lookups: seq<Option<Probe>>, i: nat)
    requires i <= LocalAccountLimit && i <= |lookups|
    ensures var r := LocalAccountsFrom(lookups, i);
      && i + |r| <= LocalAccountLimit && i + |r| <= |lookups|
      && (forall k :: 0 <= k < |r| ==> lookups[i + k] == Some(Probe(r[k].signer, r[k].address, r[k].balance)))
      && (forall k :: 0 <= k < |r| ==> r[k].index == i + k)
      && (i + |r| < LocalAccountLimit && i + |r| < |lookups| ==> lookups[i + |r|].None?)
    decreases LocalAccountLimit - i
  {
    if !(i >= LocalAccountLimit || i >= |lookups| || lookups[i].None?) {
      LocalAccountsFromShape(lookups, i + 1);
      var rest := LocalAccountsFrom(lookups, i + 1);
      var r := LocalAccountsFrom(lookups, i);
      assert r == [AccountOf(lookups[i].value, i)] + rest;
      forall k | 0 <= k < |r|
        ensures lookups[i + k] == Some(Probe(r[k].signer, r[k].address, r[k].balance))
        ensures r[k].index == i + k
      {
        if k > 0 {
          assert r[k] == rest[k - 1];
        }
      }
    }
  }

  /** The enumeration holds at most 20 accounts, record `k` has index `k` and
      comes from lookup `k`, and it stops at the first failed lookup. */
  lemma LocalAccountsShape(lookups: seq<Option<Probe>>)
    ensures var r := LocalAccounts(lookups);
      && |r| <= LocalAccountLimit && |r| <= |lookups|
      && (forall k :: 0 <= k < |r| ==> r[k].index == k)
      && (forall k :: 0 <= k < |r| ==> lookups[k] == Some(Probe(r[k].signer, r[k].address, r[k].balance)))
      && (|r| < LocalAccountLimit && |r| < |lookups| ==> lookups[|r|].None?)
  {
    LocalAccountsFromShape(lookups, 0);
  }

  /** The `for`/`push`/`break` loop of `connectLocalWallet` and `loadLocalAccounts`. */
  method EnumerateLocalAccounts(lookups: seq<Option<Probe>>) returns (accounts: seq<Account>)
    ensures accounts == LocalAccounts(lookups)
  {
    accounts := [];
    var i := 0;
    while i < LocalAccountLimit
      invariant 0 <= i <= LocalAccountLimit
      invariant accounts + LocalAccountsFrom(lookups, i) == LocalAccounts(lookups)
    {
      if i >= |lookups| || lookups[i].None? {
        break;
      }
      var probe := lookups[i].value;
      assert LocalAccountsFrom(lookups, i) == [AccountOf(probe, i)] + LocalAccountsFrom(lookups, i + 1);
      accounts := accounts + [Account(i, probe.address, probe.balance, probe.signer)];
      i := i + 1;
    }
  }

  /** The six pieces of session state, as one render of the page sees them. */
  datatype SessionState = SessionState(
    currentAccount: Address,
    provider: Option<Provider>,
    signer: Option<Signer>,
    availableAccounts: seq<Account>,
    showAccountSelector: bool,
    connectionType: ConnectionType)

  /** The state before any connection, and after `disconnectWallet`. */
  const Initial: SessionState := SessionState("", None, None, [], false, NotConnected)

  /** What every reachable state satisfies: without a signer there is no
      current account, and without a connection there is no signer, no
      account list and no open selector. */
  ghost predicate Consistent(s: SessionState)
  {
    && (s.signer.None? ==> s.currentAccount == "")
    && (s.connectionType == NotConnected ==>
          s.signer.None? && s.availableAccounts == [] && !s.showAccountSelector)
  }

  /** `selectAccount(i)`. Out of range, reading `.signer` of `undefined`
      throws before any setter runs and the error is swallowed. */
  function Selected(s: SessionState, i: int): SessionState
  {
    if 0 <= i < |s.availableAccounts| then
      var account := s.availableAccounts[i];
      s.(signer := Some(account.signer), currentAccount := account.address, showAccountSelector := false)
    else
      s
  }

  /** `changeAccount`: reopens the selector for a local connection only. */
  function AccountChangeRequested(s: SessionState): SessionState
  {
    if s.connectionType == Local then s.(showAccountSelector := true) else s
  }

  /** The success path of `connectLocalWallet`. */
  function LocalConnected(s: SessionState, lookups: seq<Option<Probe>>): SessionState
  {
    s.(provider := Some(JsonRpcProvider(LocalRpcUrl)), connectionType := Local,
       availableAccounts := LocalAccounts(lookups), showAccountSelector := true)
  }

  /** The effect that runs `loadLocalAccounts` when a provider is set and the
      connection is local. */
  function LocalAccountsLoaded(s: SessionState, lookups: seq<Option<Probe>>): SessionState
  {
    if s.provider.Some? && s.connectionType == Local then s.(availableAccounts := LocalAccounts(lookups)) else s
  }

  /** `connectMetaMask`. Without an injected wallet it returns at once;
      `grant` is `None` when a wallet call throws, which is caught. */
  function InjectedConnected(s: SessionState, injected: bool, grant: Option<Probe>): SessionState
  {
    if !injected || grant.None? then s
    else s.(provider := Some(BrowserProvider), signer := Some(grant.value.signer),
            currentAccount := grant.value.address, connectionType := MetaMask)
  }

  /** The `accountsChanged` handler: an empty list disconnects, any other
      list reconnects. */
  function AccountsChangedTo(s: SessionState, reported: seq<Address>, injected: bool, grant: Option<Probe>): SessionState
  {
    if |reported| > 0 then InjectedConnected(s, injected, grant) else Initial
  }

  /** The fallback at the start of `getCampaigns` and `getDonators`: with no
      provider, one is made (the injected wallet's when present, otherwise the
      local node's) and stored. */
  function WithReadProvider(s: SessionState, injected: bool): SessionState
  {
    if s.provider.Some? then s
    else s.(provider := Some(if injected then BrowserProvider else JsonRpcProvider(LocalRpcUrl)))
  }

  /** The page's close button on the selector, through the exported setter. */
  function SelectorHidden(s: SessionState): SessionState
  {
    s.(showAccountSelector := false)
  }

  lemma SelectedEffect(s: SessionState, i: int)
    ensures var t := Selected(s, i);
      && (0 <= i < |s.availableAccounts| ==>
            && t.signer == Some(s.availableAccounts[i].signer)
            && t.currentAccount == s.availableAccounts[i].address
            && !t.showAccountSelector
            && t.provider == s.provider && t.connectionType == s.connectionType
            && t.availableAccounts == s.availableAccounts)
      && (!(0 <= i < |s.availableAccounts|) ==> t == s)
  {
  }

  lemma AccountChangeEffect(s: SessionState)
    ensures AccountChangeRequested(s).showAccountSelector <==> s.showAccountSelector || s.connectionType == Local
    ensures s.connectionType != Local ==> AccountChangeRequested(s) == s
    ensures AccountChangeRequested(s).(showAccountSelector := s.showAccountSelector) == s
  {
  }

  /** A local connection shows the selector but picks no account yet. */
  lemma LocalConnectedEffect(s: SessionState, lookups: seq<Option<Probe>>)
    ensures var t := LocalConnected(s, lookups);
      && t.connectionType == Local && t.showAccountSelector
      && t.availableAccounts == LocalAccounts(lookups)
      && t.provider == Some(JsonRpcProvider(LocalRpcUrl))
      && t.currentAccount == s.currentAccount && t.signer == s.signer
  {
  }

  lemma AccountsChangedEffect(s: SessionState, reported: seq<Address>, injected: bool, grant: Option<Probe>)
    ensures |reported| == 0 ==> AccountsChangedTo(s, reported, injected, grant) == Initial
    ensures |reported| > 0 && injected && grant.Some? ==>
      var t := AccountsChangedTo(s, reported, injected, grant);
      t.connectionType == MetaMask && t.signer == Some(grant.value.signer) && t.currentAccount == grant.value.address
    ensures |reported| > 0 && !(injected && grant.Some?) ==> AccountsChangedTo(s, reported, injected, grant) == s
  {
  }

  /** Every transition keeps the session consistent. */
  lemma TransitionsKeepConsistent(s: SessionState, i: int, lookups: seq<Option<Probe>>,
                                  injected: bool, grant: Option<Probe>, reported: seq<Address>)
    requires Consistent(s)
    ensures Consistent(Initial)
    ensures Consistent(Selected(s, i))
    ensures Consistent(AccountChangeRequested(s))
    ensures Consistent(LocalConnected(s, lookups))
    ensures Consistent(LocalAccountsLoaded(s, lookups))
    ensures Consistent(InjectedConnected(s, injected, grant))
    ensures Consistent(AccountsChangedTo(s, reported, injected, grant))
    ensures Consistent(WithReadProvider(s, injected))
    ensures Consistent(SelectorHidden(s))
  {
  }

  /** `createCampaign`: without a signer it returns before building the
      contract call; a `target` that `parseEther` rejects throws before the
      call; otherwise the call is submitted with the current account as owner. */
  function CreateCampaign(s: SessionState, title: string, description: string, target: Result<Wei, TxError>,
                          deadline: int, image: string, receipt: Result<TxHash, TxError>): (r: CallResult)
    ensures r == NoSigner <==> s.signer.None?
    ensures r.FailedBeforeCall? <==> s.signer.Some? && target.Failure?
    ensures r.Submitted? ==>
      r.call == CreateCampaignCall(s.currentAccount, title, description, target.value, deadline, image)
      && r.receipt == receipt
  {
    if s.signer.None? then NoSigner
    else match target
      case Failure(e) => FailedBeforeCall(e)
      case Success(wei) => Submitted(CreateCampaignCall(s.currentAccount, title, description, wei, deadline, image), receipt)
  }

  /** `donate`: the same guard in front of `donateToCampaign`. */
  function Donate(s: SessionState, pId: nat, amount: Result<Wei, TxError>, receipt: Result<TxHash, TxError>): (r: CallResult)
    ensures r == NoSigner <==> s.signer.None?
    ensures r.FailedBeforeCall? <==> s.signer.Some? && amount.Failure?
    ensures r.Submitted? ==> r.call == DonateCall(pId, amount.value) && r.receipt == receipt
  {
    if s.signer.None? then NoSigner
    else match amount
      case Failure(e) => FailedBeforeCall(e)
      case Success(wei) => Submitted(DonateCall(pId, wei), receipt)
  }

  /** After a disconnect the page can still read (a fallback provider is
      set), but neither write reaches the contract. */
  lemma DisconnectedWritesRefused(s: SessionState, injected: bool, title: string, description: string,
                                  target: Result<Wei, TxError>, deadline: int, image: string,
                                  pId: nat, receipt: Result<TxHash, TxError>)
    ensures var t := WithReadProvider(AccountsChangedTo(s, [], injected, None), injected);
      && t.provider.Some?
      && CreateCampaign(t, title, description, target, deadline, image, receipt) == NoSigner
      && Donate(t, pId, target, receipt) == NoSigner
  {
  }

  /** The session state of the provider component. */
  class Session {
    var currentAccount: Address
    var provider: Option<Provider>
    var signer: Option<Signer>
    var availableAccounts: seq<Account>
    var showAccountSelector: bool
    var connectionType: ConnectionType

    function State(): SessionState
      reads this
    {
      SessionState(currentAccount, provider, signer, availableAccounts, showAccountSelector, connectionType)
    }

    ghost predicate Valid()
      reads this
    {
      Consistent(State())
    }

    constructor ()
      ensures State() == Initial && Valid()
    {
      currentAccount := "";
      provider := None;
      signer := None;
      availableAccounts := [];
      showAccountSelector := false;
      connectionType := NotConnected;
    }

    method DisconnectWallet()
      modifies this
      ensures State() == Initial && Valid()
    {
      currentAccount := "";
      provider := None;
      signer := None;
      availableAccounts := [];
      connectionType := NotConnected;
      showAccountSelector := false;
    }

    method SelectAccount(accountIndex: int)
      requires Valid()
      modifies this
      ensures State() == Selected(old(State()), accountIndex) && Valid()
    {
      if 0 <= accountIndex < |availableAccounts| {
        var account := availableAccounts[accountIndex];
        signer := Some(account.signer);
        currentAccount := account.address;
        showAccountSelector := false;
      }
    }

    method ChangeAccount()
      requires Valid()
      modifies this
      ensures State() == AccountChangeRequested(old(State())) && Valid()
    {
      if connectionType == Local {
        showAccountSelector := true;
      }
    }

    method ConnectLocalWallet(lookups: seq<Option<Probe>>)
      requires Valid()
      modifies this
      ensures State() == LocalConnected(old(State()), lookups) && Valid()
    {
      provider := Some(JsonRpcProvider(LocalRpcUrl));
      connectionType := Local;
      var accounts := EnumerateLocalAccounts(lookups);
      availableAccounts := accounts;
      showAccountSelector := true;
    }

    method LoadLocalAccounts(lookups: seq<Option<Probe>>)
      requires Valid()
      modifies this
      ensures State() == LocalAccountsLoaded(old(State()), lookups) && Valid()
    {
      if provider.Some? && connectionType == Local {
        var accounts := EnumerateLocalAccounts(lookups);
        availableAccounts := accounts;
      }
    }

    method ConnectMetaMask(injected: bool, grant: Option<Probe>)
      requires Valid()
      modifies this
      ensures State() == InjectedConnected(old(State()), injected, grant) && Valid()
    {
      if !injected {
        return;
      }
      match grant {
        case None =>
        case Some(p) =>
          provider := Some(BrowserProvider);
          signer := Some(p.signer);
          currentAccount := p.address;
          connectionType := MetaMask;
      }
    }

    method OnAccountsChanged(reported: seq<Address>, injected: bool, grant: Option<Probe>)
      requires Valid()
      modifies this
      ensures State() == AccountsChangedTo(old(State()), reported, injected, grant) && Valid()
    {
      if |reported| > 0 {
        ConnectMetaMask(injected, grant);
      } else {
        DisconnectWallet();
      }
    }

    method HideAccountSelector()
      requires Valid()
      modifies this
      ensures State() == SelectorHidden(old(State())) && Valid()
    {
      showAccountSelector := false;
    }

    method UseReadProvider(injected: bool)
      requires Valid()
      modifies this
      ensures State() == WithReadProvider(old(State()), injected) && Valid()
    {
      if provider.None? {
        provider := Some(if injected then BrowserProvider else JsonRpcProvider(LocalRpcUrl));
      }
    }

    /** `getCampaigns`; `read` is the contract's answer, `None` when it throws. */
    method GetCampaigns(injected: bool, read: Option<seq<ChainCampaign>>) returns (campaigns: seq<Campaign>)
      requires Valid()
      modifies this
      ensures State() == WithReadProvider(old(State()), injected) && Valid()
      ensures campaigns == CampaignsOrEmpty(read)
    {
      UseReadProvider(injected);
      match read {
        case None => campaigns := [];
        case Some(raw) => campaigns := ShapeCampaigns(raw);
      }
    }

    /** `getDonators` for one campaign; `read` is the contract's pair of
        parallel arrays, `None` when it throws; `clock` holds the `Date.now()`
        reading taken in each iteration of the shaping loop. */
    method GetDonators(injected: bool, read: Option<(seq<Address>, seq<Wei>)>, clock: seq<int>) returns (donations: seq<Donation>)
      requires Valid()
      requires read.Some? ==> |clock| == |read.value.1|
      modifies this
      ensures State() == WithReadProvider(old(State()), injected) && Valid()
      ensures donations == DonationsOrEmpty(read, clock)
    {
      UseReadProvider(injected);
      match read {
        case None => donations := [];
        case Some((donators, amounts)) => donations := ShapeDonations(donators, amounts, clock);
      }
    }
  }

  /** Disconnect twice (the second changes nothing), browse, then try to
      create a campaign: the read succeeds, the write is refused. */
  method DisconnectThenBrowse(raw: seq<ChainCampaign>, receipt: Result<TxHash, TxError>)
  {
    var session := new Session();
    session.DisconnectWallet();
    var once := session.State();
    session.DisconnectWallet();
    assert session.State() == once;
    var campaigns := session.GetCampaigns(false, Some(raw));
    assert |campaigns| == |raw|;
    var r := CreateCampaign(session.State(), "t", "d", Success(1), 0, "", receipt);
    assert r == NoSigner;
  }
}
