# Crowdfunding dApp: session, shaping and view-model logic in Dafny

This project models the logic of a small crowdfunding web application. The
application lets a user connect a wallet, browse campaigns that live on an
external smart contract, create campaigns, donate, and review their own history.
Most of the application is markup and calls into `ethers`. The model covers the
part that decides things:

- **The context provider** (`client/src/context/CrowdfundingContext.jsx`).
  - The wallet session holds six pieces of React state: `currentAccount`,
    `provider`, `signer`, `availableAccounts`, `showAccountSelector` and
    `connectionType`. The model has them as the class `Session` and as the
    value `SessionState`.
  - These operations change the session: `disconnectWallet`, `selectAccount`,
    `changeAccount`, `connectLocalWallet`, `loadLocalAccounts`,
    `connectMetaMask`, the `accountsChanged` handler, and the read-provider
    fallback.
  - The loop that enumerates the local node's test accounts.
  - The signer guard in front of `createCampaign` and `donate`.
  - The shaping done by `getCampaigns` and `getDonators`.
- **The page** (`client/src/App.jsx`).
  - `calculateProgress` and `calculateDaysLeft`.
  - The "My Transactions" rollup in `viewMyTransactions`.
  - The connected-account guards in `handleSubmit` and `handleDonate`.
  - The insufficient-funds classification of a failed transaction.
- **The wallet generator script** (`scripts/generate-wallet.js`). It picks the
  first unused `VITE_TEST_ACCOUNT_<n>` key in the env file, and it builds the
  line it appends.

Every lookup into the outside world is an input of the model:

- the node's answers for signer `i` (`Option<Probe>`);
- the injected wallet's presence and its grant;
- the contract's reads;
- `parseEther`'s result;
- the transaction receipt;
- `Date.now()`, one reading per call (per record in `getDonators`);
- the env file's existence and text.

Files:

- `wrappers.dfy`: `Option` and `Result`.
- `text.dfy`: ASCII lower-casing, substring search, and the decimal rendering
  of a number with its inverse.
- `contract_data.dfy`: campaigns, donations, contract calls and errors, and
  the shaping of contract reads.
- `crowdfunding_context.dfy`: the session state machine, the account
  enumeration, and the write guards.
- `app.dfy`: progress, days left, the transactions rollup, the handlers and
  the error classifier.
- `generate_wallet.dfy`: the next-free-index loop and the env file append.

Amounts are kept in wei, as natural numbers. Times are integers in
milliseconds.

## Notes on the code

- The private-key button calls `connectLocalWallet(privateKey)`
  (client/src/App.jsx:794), but `connectLocalWallet` takes no argument
  (client/src/context/CrowdfundingContext.jsx:97), so the key is ignored.
  The call always connects to the local node at `http://127.0.0.1:8545` and
  enumerates up to 20 of that node's test accounts, stopping at the first
  lookup that fails (client/src/context/CrowdfundingContext.jsx:119-121).
- `selectAccount` sets the signer and the current account and leaves
  `connectionType` as it was.
- `disconnectWallet` clears the state and leaves the `accountsChanged`
  listener registered.
- The page reads a `balance` from the context (client/src/App.jsx:13), which
  the context does not provide.
- Progress is capped at 100 and not bounded below. Amounts read from the
  contract are never negative, so the lower bound is never reached.
- `getDonators` calls `Date.now()` in every iteration of its loop, so the
  estimated times are one hour apart plus the time that passed between two
  readings. The model takes one reading per record.

## Model

| member | source | states |
|---|---|---|
| `CrowdfundingContext.EnumerateLocalAccounts` | client/src/context/CrowdfundingContext.jsx:106-122 | The account loop returns exactly the enumeration `LocalAccounts(lookups)`, built push by push and stopping at the first failed lookup or after 20. |
| `CrowdfundingContext.LocalAccountsShape` | client/src/context/CrowdfundingContext.jsx:29-44 | The enumeration has at most 20 records and no more than there are lookups. Record `k` has `index == k` and carries lookup `k`'s signer, address and balance. The enumeration stops exactly at the first failed lookup. |
| `CrowdfundingContext.SelectedEffect` | client/src/context/CrowdfundingContext.jsx:137-152 | With `0 <= i < |availableAccounts|`, `selectAccount(i)` sets the signer and current account from account `i` and hides the selector. Provider, connection type and account list are unchanged. Out of range, the state is unchanged. |
| `CrowdfundingContext.AccountChangeEffect` | client/src/context/CrowdfundingContext.jsx:166-172 | `changeAccount` shows the selector only for a local connection. It changes nothing for "metamask" or "", and it never touches any other field. |
| `CrowdfundingContext.LocalConnectedEffect` | client/src/context/CrowdfundingContext.jsx:97-125 | A local connection sets the connection type to local, the local provider, the enumerated accounts and an open selector. The current account and the signer stay as they were. |
| `CrowdfundingContext.AccountsChangedEffect` | client/src/context/CrowdfundingContext.jsx:82-88 | An empty account list disconnects, that is, returns to the initial state. A non-empty list reconnects through the injected wallet when the wallet grants access, and otherwise leaves the state as it was. |
| `CrowdfundingContext.TransitionsKeepConsistent` | client/src/context/CrowdfundingContext.jsx:8-172 | Each transition keeps the session invariant. Without a signer there is no current account. Without a connection there is no signer, no account list and no open selector. |
| `CrowdfundingContext.CreateCampaign` | client/src/context/CrowdfundingContext.jsx:174-209 | Without a signer, `createCampaign` returns before any contract call (iff). A target that `parseEther` rejects throws before the call. Otherwise it submits `createCampaign` with the current account as owner and returns the chain's receipt or error. |
| `CrowdfundingContext.Donate` | client/src/context/CrowdfundingContext.jsx:251-279 | Without a signer, `donate` returns before any contract call (iff). A rejected amount throws before the call. Otherwise it submits `donateToCampaign(pId)` with the amount as value. |
| `CrowdfundingContext.DisconnectedWritesRefused` | client/src/context/CrowdfundingContext.jsx:211-256 | After a disconnect, a read still installs a fallback provider, but both writes are refused before reaching the contract. |
| `CrowdfundingContext.Session.constructor` | client/src/context/CrowdfundingContext.jsx:8-13 | The session starts empty: no account, no provider or signer, no accounts, selector hidden, no connection type. |
| `CrowdfundingContext.Session.DisconnectWallet` | client/src/context/CrowdfundingContext.jsx:155-163 | Every field is reset to its initial value, whatever the old state was. So calling it twice gives the same state as calling it once. |
| `CrowdfundingContext.Session.SelectAccount` | client/src/context/CrowdfundingContext.jsx:137-152 | The new state is `Selected(old state, i)` and the invariant is kept. |
| `CrowdfundingContext.Session.ChangeAccount` | client/src/context/CrowdfundingContext.jsx:166-172 | The new state is `AccountChangeRequested(old state)`. |
| `CrowdfundingContext.Session.ConnectLocalWallet` | client/src/context/CrowdfundingContext.jsx:97-134 | The new state is `LocalConnected(old state, lookups)`, reached through the enumeration loop. |
| `CrowdfundingContext.Session.LoadLocalAccounts` | client/src/context/CrowdfundingContext.jsx:16-51 | The effect replaces the account list only when a provider is set and the connection is local. |
| `CrowdfundingContext.Session.ConnectMetaMask` | client/src/context/CrowdfundingContext.jsx:54-94 | Without an injected wallet, or when a wallet call throws, nothing changes. Otherwise the browser provider, the signer, the address and "metamask" are set. |
| `CrowdfundingContext.Session.OnAccountsChanged` | client/src/context/CrowdfundingContext.jsx:82-88 | The handler disconnects exactly when the reported list is empty, and reconnects otherwise. |
| `CrowdfundingContext.Session.HideAccountSelector` | client/src/App.jsx:950 | The exported setter closes the selector and changes nothing else. |
| `CrowdfundingContext.Session.UseReadProvider` | client/src/context/CrowdfundingContext.jsx:213-223 | With no provider, one is stored: the injected wallet's if there is one, otherwise the local node's. An existing provider is kept. |
| `CrowdfundingContext.Session.GetCampaigns` | client/src/context/CrowdfundingContext.jsx:211-249 | The read-provider fallback is applied, and the result is the shaped campaign list, or `[]` when the read fails. |
| `CrowdfundingContext.Session.GetDonators` | client/src/context/CrowdfundingContext.jsx:281-329 | The read-provider fallback is applied, and the result is the shaped donation records, or `[]` when the read fails. |
| `ContractData.ShapeCampaigns` | client/src/context/CrowdfundingContext.jsx:235-244 | The length is preserved. Campaign `i` gets `pId == i` and keeps every contract field, so forgetting `pId` gives back the read. |
| `ContractData.CampaignsOrEmpty` | client/src/context/CrowdfundingContext.jsx:245-248 | A failed read gives `[]`. A successful one gives the tagged list. |
| `ContractData.ShapeDonations` | client/src/context/CrowdfundingContext.jsx:307-319 | The `for`/`push` loop, reading the clock once per iteration, returns exactly `DonationRecords(donators, amounts, clock)`, one record per amount. |
| `ContractData.DonationRecordsShape` | client/src/context/CrowdfundingContext.jsx:309-319 | Record `i` pairs `donators[i]` with `amounts[i]`, or has no donator when the donor list is shorter, and has `index == i + 1`. Neighbouring timestamps differ by one hour plus the clock's movement between the two readings. The last timestamp equals the last reading. |
| `ContractData.DonationTimesSpaced` | client/src/context/CrowdfundingContext.jsx:309-311 | When the clock does not go back, neighbouring timestamps are at least one hour apart and none is later than the last reading. |
| `ContractData.SteadyClockTimes` | client/src/context/CrowdfundingContext.jsx:309-311 | When every reading is the same instant `now`, the timestamps rise by exactly one hour and end at `now`. |
| `ContractData.DonationsOrEmpty` | client/src/context/CrowdfundingContext.jsx:325-328 | A failed read gives `[]`. Zero donations give `[]` too, not an error. |
| `App.Progress` | client/src/App.jsx:130-132 | The result never exceeds 100 or the raw percentage, and it equals one of them (their minimum). |
| `App.ProgressMonotone` | client/src/App.jsx:130-132 | For a fixed positive target, more raised never gives less progress. |
| `App.ProgressFullAtTarget` | client/src/App.jsx:130-132 | Progress is 100 once the raised amount reaches the target. |
| `App.DaysLeft` | client/src/App.jsx:134-137 | The result is never negative, and 0 when the deadline has passed. Otherwise it is the ceiling of the remaining time in days: `(d-1)·86400000 < deadline-now <= d·86400000`. |
| `App.DaysLeftExamples` | client/src/App.jsx:134-137 | Exactly 3 days, 3 days less 1 ms, and 2 days plus 1 ms all give 3. A past deadline gives 0. |
| `App.CreatedByMembers` | client/src/App.jsx:181-183 | The "created" list holds exactly the campaigns whose owner equals the account after lower-casing both. |
| `App.CreatedByKeepsOrder` | client/src/App.jsx:181-183 | The "created" list keeps the campaign order (pIds still increase). |
| `App.UserDonationsMeaning` | client/src/App.jsx:198-200 | The donor filter throws exactly when a record has no donator. Otherwise it keeps exactly the donations made by the account, compared case-insensitively. |
| `App.TotalIsAmountBy` | client/src/App.jsx:205 | `totalDonated` (the left-to-right `reduce`) equals the sum of the account's donation amounts in that campaign. |
| `App.CollectDonated` | client/src/App.jsx:188-216 | The campaign loop returns exactly `DonatedTo(campaigns, fetched, account)`, and it asks for every campaign's donors once, in list order. |
| `App.DonatedToSound` | client/src/App.jsx:192-212 | Every "donated" entry comes from one of the campaigns. Its donations are that campaign's filtered donations, which are non-empty and all the account's, and its total is their sum. |
| `App.DonatedToComplete` | client/src/App.jsx:192-212 | Every campaign with at least one donation by the account, and no missing donator, has its entry. |
| `App.SkippedCampaign` | client/src/App.jsx:213-215 | A campaign whose filter throws is skipped, and the loop still rolls up the campaigns before and after it. |
| `App.DonatedToKeepsOrder` | client/src/App.jsx:188-216 | The "donated" entries keep the campaign order. |
| `App.ViewMyTransactions` | client/src/App.jsx:170-229 | Without an account, nothing is shown and no donor list is queried. Otherwise every campaign's donors are queried in order, and the created and donated lists are shown. |
| `App.ErrorDetail` | client/src/App.jsx:95 | A non-empty `reason` is shown. Otherwise the `message` is shown. |
| `App.Classify` | client/src/App.jsx:92-96 | The faucet hint is shown iff the code is `INSUFFICIENT_FUNDS` or the message contains "funds". Any other error shows the prefixed reason or message. |
| `App.ClassifyFundsExamples` | client/src/App.jsx:120-121 | A node's "insufficient funds for gas" message, or the code alone, is classified as lack of funds. |
| `App.ClassifyRevertExamples` | client/src/App.jsx:122-124 | A revert shows its reason, or its message when the reason is empty. |
| `App.HandleSubmit` | client/src/App.jsx:64-99 | Without a current account, the handler asks the user to connect and issues no call. A call is issued only with an account and a signer. |
| `App.HandleDonate` | client/src/App.jsx:101-128 | Without a current account, the handler asks the user to connect. A cancelled or empty amount does nothing. A call is issued only with an account, a signer and an entered amount. |
| `App.ConnectedSubmitReachesContract` | client/src/App.jsx:67-74 | In a consistent session, a connected submit issues `createCampaign` with the current account as owner. It reports the receipt or the classified error. |
| `App.ConnectedDonateReachesContract` | client/src/App.jsx:102-111 | In a consistent session, a connected donation with an amount issues `donateToCampaign`. It reports the receipt or the classified error. |
| `Text.SameAddressAsLowerCase` | client/src/App.jsx:199 | A mixed-case (checksummed) address matches its lower-case form. |
| `GenerateWallet.NextFreeIndex` | scripts/generate-wallet.js:25-29 | The loop ends, and returns the least `n` such that `VITE_TEST_ACCOUNT_n` is not a substring of the file while every smaller key is. |
| `GenerateWallet.TakenIndexBounded` | scripts/generate-wallet.js:27-29 | A used index is below 10 to the power of the file length, because a key longer than the file cannot occur in it. This bounds the loop. |
| `GenerateWallet.TenShadowsOne` | scripts/generate-wallet.js:27 | Matching is by substring, so an existing `VITE_TEST_ACCOUNT_10` makes index 1 count as used. |
| `GenerateWallet.AppendAdvancesIndex` | scripts/generate-wallet.js:31-32 | After the entry for index `n` is appended, every index up to `n` is used, so the next run picks an index above `n`. |
| `Text.ParseNatToString` | scripts/generate-wallet.js:31 | The decimal rendering of the index reads back as the same number, so different indexes give different keys. |
| `GenerateWallet.EnvFile.AutoSave` | scripts/generate-wallet.js:20-36 | When the env file exists, its new content is the old content followed by `"\n\nVITE_TEST_ACCOUNT_" + n + "=" + key` for the least free `n`. Otherwise nothing changes. |

## Left out

- App.Progress: requires `target > 0`. For a zero target the page computes `Infinity` or `NaN` in floating point, which `real` cannot represent.
- App.Progress: the page divides floating-point numbers parsed from ether strings. The model divides exact reals.
- App.DaysLeft: the page divides in floating point. The model uses exact integer ceiling division; the two agree for realistic millisecond values.
- App.TotalIsAmountBy: the page adds `parseFloat` values. The model adds exact wei amounts.
- Text.SameAddressAsLowerCase: `toLowerCase` is modelled for ASCII letters only. Addresses are hexadecimal.
- Conversions through `ethers` (`formatEther`, `parseEther`, `toString`) are foreign calls. Amounts stay in wei, and a parse is an input `Result`.
- `new Date(form.deadline).getTime()` and `form.image || ''` are taken as already converted inputs.
- Listener registration: `connectMetaMask` registers a new `accountsChanged` listener on every successful connection and never removes one. Event subscription is browser I/O. The model runs the handler once per event.
- `connectLocalWallet`'s `catch` is only reachable if the `JsonRpcProvider` constructor throws. The model has only the success path.
- React's batched, asynchronous state updates and any interleaving of concurrent `async` handlers are not modelled. Each operation is one atomic step on the current state.
- Provider objects are identified only by kind (local JSON-RPC or injected browser provider). Object identity and the balance that `connectMetaMask` only logs are not kept.
- All JSX rendering, `alert`/`prompt`/`confirm` dialogs, `window.open`, `setTimeout` refetches, `loading` flags, `fetchCampaigns`, `viewFundingDetails` and `formatDate` are UI, not modelled. The handlers return the feedback they would show.
- An error without a `message` makes the handlers' `catch` throw again. This is not modelled: errors always carry a message.
- The wallet script's `ethers.Wallet.createRandom` (randomness), the `new_wallet_credentials.txt` write and console output are left out. The env file is a class holding an existence flag and text.
- `client/src/main.jsx` is the React bootstrap and is not part of this model. The smart contract and its ABI (`../utils/constants`) are not part of this model.
