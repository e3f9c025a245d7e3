/** The page component's own logic: the progress bar and days-left figures,
    the "My Transactions" rollup, the connected-account guards of the
    handlers, and the classification of a failed transaction. */
module App {
  import opened Wrappers
  import opened Text
  import opened ContractData
  import opened CrowdfundingContext

  /** `calculateProgress`: the percentage raised, capped at 100. */
  function Progress(raised: real, target: real): (p: real)
    requires target > 0.0
    ensures p <= 100.0
    ensures p <= raised / target * 100.0
    ensures p == 100.0 || p == raised / target * 100.0
  {
    var percent := raised / target * 100.0;
    if percent < 100.0 then percent else 100.0
  }

  /** Raising more never lowers the bar. */
  lemma ProgressMonotone(raised1: real, raised2: real, target: real)
    requires target > 0.0 && raised1 <= raised2
    ensures Progress(raised1, target) <= Progress(raised2, target)
  {
  }

  /** Reaching the target fills the bar. */
  lemma ProgressFullAtTarget(raised: real, target: real)
    requires target > 0.0 && raised >= target
    ensures Progress(raised, target) == 100.0
  {
  }

  lemma ProgressExample()
    ensures Progress(2.5, 10.0) == 25.0
  {
  }

  /** One day in milliseconds. */
  const DayMs: int := 1000 * 60 * 60 * 24

  /** `Math.ceil(a / b)` for a positive divisor. */
  function CeilDiv(a: int, b: int): int
    requires b > 0
  {
    -((-a) / b)
  }

  /** `calculateDaysLeft`: the whole days until the deadline, rounded up, and
      0 once it has passed; `now` stands for `Date.now()`. */
  function DaysLeft(deadline: int, now: int): (days: nat)
    ensures deadline <= now ==> days == 0
    ensures deadline > now ==> days >= 1 && (days - 1) * DayMs < deadline - now <= days * DayMs
  {
    var days := CeilDiv(deadline - now, DayMs);
    if days > 0 then days else 0
  }

  lemma DaysLeftExamples(now: int)
    ensures DaysLeft(now + 3 * DayMs, now) == 3
    ensures DaysLeft(now + 3 * DayMs - 1, now) == 3
    ensures DaysLeft(now + 2 * DayMs + 1, now) == 3
    ensures DaysLeft(now - 1, now) == 0
  {
  }

  /** A campaign belongs to the account when the addresses match ignoring case. */
  predicate OwnedBy(c: Campaign, account: Address)
  {
    SameAddress(c.owner, account)
  }

  /** The `filter` that builds the "created" list. */
  function CreatedBy(campaigns: seq<Campaign>, account: Address): seq<Campaign>
  {
    if campaigns == [] then []
    else (if OwnedBy(campaigns[0], account) then [campaigns[0]] else []) + CreatedBy(campaigns[1..], account)
  }

  /** The "created" list holds exactly the account's campaigns. */
  lemma {:induction false} CreatedByMembers(campaigns: seq<Campaign>, account: Address)
    ensures |CreatedBy(campaigns, account)| <= |campaigns|
    ensures forall c :: c in CreatedBy(campaigns, account) <==> c in campaigns && OwnedBy(c, account)
  {
    if campaigns != [] {
      CreatedByMembers(campaigns[1..], account);
      assert campaigns == [campaigns[0]] + campaigns[1..];
    }
  }

  /** ... and keeps the order of the campaign list. */
  lemma {:induction false} CreatedByKeepsOrder(campaigns: seq<Campaign>, account: Address)
    requires IncreasingIds(campaigns)
    ensures IncreasingIds(CreatedBy(campaigns, account))
  {
    if campaigns != [] {
      var rest := campaigns[1..];
      CreatedByKeepsOrder(rest, account);
      CreatedByMembers(rest, account);
      var r := CreatedBy(campaigns, account);
      if OwnedBy(campaigns[0], account) {
        forall i, j | 0 <= i < j < |r|
          ensures r[i].pId < r[j].pId
        {
          if i == 0 {
            assert r[j] in CreatedBy(rest, account);
            assert r[j] in rest;
          }
        }
      }
    }
  }

  /** The `filter` over one campaign's donations. It throws, and so yields
      `None`, when some record has no donator, because `toLowerCase` is then
      called on `undefined`. */
  function UserDonations(list: seq<Donation>, account: Address): Option<seq<Donation>>
  {
    if list == [] then Some([])
    else if list[0].donator.None? then None
    else match UserDonations(list[1..], account)
      case None => None
      case Some(rest) => Some((if SameAddress(list[0].donator.value, account) then [list[0]] else []) + rest)
  }

  /** The donation was made by the account. */
  predicate DonatedBy(d: Donation, account: Address)
  {
    d.donator.Some? && SameAddress(d.donator.value, account)
  }

  /** The filter fails exactly when a donator is missing, and otherwise keeps
      exactly the account's donations. */
  lemma {:induction false} UserDonationsMeaning(list: seq<Donation>, account: Address)
    ensures UserDonations(list, account).None? <==> exists d :: d in list && d.donator.None?
    ensures UserDonations(list, account).Some? ==>
      forall d :: d in UserDonations(list, account).value <==> d in list && DonatedBy(d, account)
  {
    if list != [] {
      UserDonationsMeaning(list[1..], account);
      assert list == [list[0]] + list[1..];
    }
  }

  /** The `reduce` that adds up amounts, from the left. */
  function Total(ds: seq<Donation>): nat
  {
    if ds == [] then 0 else Total(ds[..|ds| - 1]) + ds[|ds| - 1].amount
  }

  lemma {:induction false} TotalCons(d: Donation, ds: seq<Donation>)
    ensures Total([d] + ds) == d.amount + Total(ds)
    decreases |ds|
  {
    if ds != [] {
      var all := [d] + ds;
      assert all[..|all| - 1] == [d] + ds[..|ds| - 1];
      TotalCons(d, ds[..|ds| - 1]);
    }
  }

  /** Independent reference: the amounts of the account's donations in a list. */
  function AmountBy(list: seq<Donation>, account: Address): nat
  {
    if list == [] then 0
    else (if DonatedBy(list[0], account) then list[0].amount else 0) + AmountBy(list[1..], account)
  }

  /** The total shown for a campaign is what the account gave to it. */
  lemma {:induction false} TotalIsAmountBy(list: seq<Donation>, account: Address)
    requires UserDonations(list, account).Some?
    ensures Total(UserDonations(list, account).value) == AmountBy(list, account)
  {
    if list != [] {
      TotalIsAmountBy(list[1..], account);
      var rest := UserDonations(list[1..], account).value;
      if DonatedBy(list[0], account) {
        TotalCons(list[0], rest);
      } else {
        assert UserDonations(list, account).value == rest;
      }
    }
  }

  /** One entry of the "donated" list. */
  datatype DonatedEntry = DonatedEntry(campaign: Campaign, donations: seq<Donation>, totalDonated: Wei)

  /** The loop body for one campaign: skipped when the filter throws or finds
      nothing, otherwise an entry with the account's donations and their total. */
  function EntryFor(c: Campaign, list: seq<Donation>, account: Address): seq<DonatedEntry>
  {
    match UserDonations(list, account)
    case None => []
    case Some(ds) => if |ds| > 0 then [DonatedEntry(c, ds, Total(ds))] else []
  }

  /** The "donated" list for the campaigns and the donor lists fetched for them. */
  function DonatedTo(campaigns: seq<Campaign>, fetched: seq<seq<Donation>>, account: Address): seq<DonatedEntry>
    requires |fetched| == |campaigns|
  {
    if campaigns == [] then []
    else
      var n := |campaigns| - 1;
      DonatedTo(campaigns[..n], fetched[..n], account) + EntryFor(campaigns[n], fetched[n], account)
  }

  /** The `for` loop of `viewMyTransactions` over the campaigns. `queried`
      lists the campaign ids whose donors were asked for, in order. */
  method CollectDonated(campaigns: seq<Campaign>, fetched: seq<seq<Donation>>, account: Address)
    returns (donated: seq<DonatedEntry>, queried: seq<nat>)
    requires |fetched| == |campaigns|
    ensures donated == DonatedTo(campaigns, fetched, account)
    ensures |queried| == |campaigns|
    ensures forall k :: 0 <= k < |campaigns| ==> queried[k] == campaigns[k].pId
  {
    donated, queried := [], [];
    for i := 0 to |campaigns|
      invariant donated == DonatedTo(campaigns[..i], fetched[..i], account)
      invariant |queried| == i
      invariant forall k :: 0 <= k < i ==> queried[k] == campaigns[k].pId
    {
      assert campaigns[..i + 1][..i] == campaigns[..i];
      assert fetched[..i + 1][..i] == fetched[..i];
      queried := queried + [campaigns[i].pId];
      var userDonations := UserDonations(fetched[i], account);
      match userDonations {
        case None =>
        case Some(ds) =>
          if |ds| > 0 {
            donated := donated + [DonatedEntry(campaigns[i], ds, Total(ds))];
          }
      }
    }
    assert campaigns[..|campaigns|] == campaigns;
    assert fetched[..|fetched|] == fetched;
  }

  /** Every entry is backed by the account's own donations to that campaign,
      with their total, and comes from some campaign of the list. */
  lemma {:induction false} DonatedToSound(campaigns: seq<Campaign>, fetched: seq<seq<Donation>>, account: Address)
    requires |fetched| == |campaigns|
    ensures forall e :: e in DonatedTo(campaigns, fetched, account) ==>
      && e.donations != []
      && (forall d :: d in e.donations ==> DonatedBy(d, account))
      && e.totalDonated == Total(e.donations)
      && exists k :: 0 <= k < |campaigns| && e.campaign == campaigns[k]
                     && UserDonations(fetched[k], account) == Some(e.donations)
  {
    if campaigns != [] {
      var n := |campaigns| - 1;
      DonatedToSound(campaigns[..n], fetched[..n], account);
      UserDonationsMeaning(fetched[n], account);
      forall e | e in DonatedTo(campaigns, fetched, account)
        ensures exists k :: 0 <= k < |campaigns| && e.campaign == campaigns[k]
                            && UserDonations(fetched[k], account) == Some(e.donations)
      {
        if e in DonatedTo(campaigns[..n], fetched[..n], account) {
          var k :| 0 <= k < n && e.campaign == campaigns[..n][k]
                   && UserDonations(fetched[..n][k], account) == Some(e.donations);
          assert e.campaign == campaigns[k];
        } else {
          assert e.campaign == campaigns[n];
        }
      }
    }
  }

  /** Every campaign where the account has donations (and no record lacks a
      donator) has its entry. */
  lemma {:induction false} DonatedToComplete(campaigns: seq<Campaign>, fetched: seq<seq<Donation>>, account: Address, k: nat)
    requires |fetched| == |campaigns| && k < |campaigns|
    requires UserDonations(fetched[k], account).Some? && UserDonations(fetched[k], account).value != []
    ensures var ds := UserDonations(fetched[k], account).value;
      DonatedEntry(campaigns[k], ds, Total(ds)) in DonatedTo(campaigns, fetched, account)
  {
    var n := |campaigns| - 1;
    if k < n {
      DonatedToComplete(campaigns[..n], fetched[..n], account, k);
    }
  }

  /** The loop's pieces compose: the rollup of a concatenation is the
      concatenation of the rollups. */
  lemma {:induction false} DonatedToAppend(xs: seq<Campaign>, fx: seq<seq<Donation>>,
                                           ys: seq<Campaign>, fy: seq<seq<Donation>>, account: Address)
    requires |fx| == |xs| && |fy| == |ys|
    ensures DonatedTo(xs + ys, fx + fy, account) == DonatedTo(xs, fx, account) + DonatedTo(ys, fy, account)
    decreases |ys|
  {
    if ys != [] {
      var n := |ys| - 1;
      assert (xs + ys)[..|xs| + n] == xs + ys[..n];
      assert (fx + fy)[..|fx| + n] == fx + fy[..n];
      DonatedToAppend(xs, fx, ys[..n], fy[..n], account);
    } else {
      assert xs + ys == xs;
      assert fx + fy == fx;
    }
  }

  /** A campaign whose filter throws is skipped and the others are still
      rolled up, before and after it. */
  lemma SkippedCampaign(campaigns: seq<Campaign>, fetched: seq<seq<Donation>>, account: Address, k: nat)
    requires |fetched| == |campaigns| && k < |campaigns|
    requires UserDonations(fetched[k], account).None?
    ensures DonatedTo(campaigns, fetched, account)
      == DonatedTo(campaigns[..k], fetched[..k], account) + DonatedTo(campaigns[k + 1..], fetched[k + 1..], account)
  {
    var pre, post := campaigns[..k + 1], campaigns[k + 1..];
    var fpre, fpost := fetched[..k + 1], fetched[k + 1..];
    assert campaigns == pre + post;
    assert fetched == fpre + fpost;
    DonatedToAppend(pre, fpre, post, fpost, account);
    DropSkippedLast(pre, fpre, account);
    assert pre[..k] == campaigns[..k];
    assert fpre[..k] == fetched[..k];
  }

  lemma DropSkippedLast(campaigns: seq<Campaign>, fetched: seq<seq<Donation>>, account: Address)
    requires |fetched| == |campaigns| > 0
    requires UserDonations(fetched[|fetched| - 1], account).None?
    ensures DonatedTo(campaigns, fetched, account)
      == DonatedTo(campaigns[..|campaigns| - 1], fetched[..|fetched| - 1], account)
  {
  }

  predicate EntriesIncreasing(entries: seq<DonatedEntry>)
  {
    forall i, j :: 0 <= i < j < |entries| ==> entries[i].campaign.pId < entries[j].campaign.pId
  }

  /** The entries keep the order of the campaign list. */
  lemma {:induction false} DonatedToKeepsOrder(campaigns: seq<Campaign>, fetched: seq<seq<Donation>>, account: Address)
    requires |fetched| == |campaigns| && IncreasingIds(campaigns)
    ensures EntriesIncreasing(DonatedTo(campaigns, fetched, account))
  {
    if campaigns != [] {
      var n := |campaigns| - 1;
      DonatedToKeepsOrder(campaigns[..n], fetched[..n], account);
      DonatedToSound(campaigns[..n], fetched[..n], account);
      var front := DonatedTo(campaigns[..n], fetched[..n], account);
      var r := DonatedTo(campaigns, fetched, account);
      forall i, j | 0 <= i < j < |r|
        ensures r[i].campaign.pId < r[j].campaign.pId
      {
        if j < |front| {
          assert r[i] == front[i] && r[j] == front[j];
          assert front[i].campaign.pId < front[j].campaign.pId;
        } else {
          assert r[j].campaign == campaigns[n];
          assert r[i] == front[i];
          assert r[i] in front;
          var k :| 0 <= k < n && r[i].campaign == campaigns[..n][k]
                   && UserDonations(fetched[..n][k], account) == Some(r[i].donations);
          assert r[i].campaign == campaigns[k];
          assert campaigns[k].pId < campaigns[n].pId;
        }
      }
    }
  }

  /** What the "My Transactions" modal shows. */
  datatype MyTransactions = MyTransactions(created: seq<Campaign>, donated: seq<DonatedEntry>)

  /** `viewMyTransactions`. `fetched[k]` is what `getDonators` returns for
      `campaigns[k]`; `queried` lists the campaign ids whose donors were
      asked for, in order. Without an account it stops before any query. */
  method ViewMyTransactions(currentAccount: Address, campaigns: seq<Campaign>, fetched: seq<seq<Donation>>)
    returns (shown: Option<MyTransactions>, queried: seq<nat>)
    requires |fetched| == |campaigns|
    ensures currentAccount == "" ==> shown == None && queried == []
    ensures currentAccount != "" ==>
      && shown == Some(MyTransactions(CreatedBy(campaigns, currentAccount), DonatedTo(campaigns, fetched, currentAccount)))
      && |queried| == |campaigns|
      && forall k :: 0 <= k < |campaigns| ==> queried[k] == campaigns[k].pId
  {
    if currentAccount == "" {
      return None, [];
    }
    var created := CreatedBy(campaigns, currentAccount);
    var donated;
    donated, queried := CollectDonated(campaigns, fetched, currentAccount);
    shown := Some(MyTransactions(created, donated));
  }

  /** The code that marks a transaction rejected for lack of funds. */
  const InsufficientFundsCode: string := "INSUFFICIENT_FUNDS"

  /** The classifier in the two handlers' `catch` blocks. */
  predicate IsInsufficientFunds(e: TxError)
  {
    e.code == InsufficientFundsCode || Contains(e.message, "funds")
  }

  /** `error.reason || error.message`. */
  function ErrorDetail(e: TxError): (detail: string)
    ensures e.reason.Some? && e.reason.value != "" ==> detail == e.reason.value
    ensures e.reason.None? || e.reason.value == "" ==> detail == e.message
  {
    match e.reason
    case Some(reason) => if reason != "" then reason else e.message
    case None => e.message
  }

  /** What a handler shows the user. */
  datatype Feedback =
    | ConnectFirst
    | NothingEntered
    | Confirmed(txHash: TxHash)
    | FundingHint
    | ErrorShown(prefix: string, detail: string)

  /** The alert for a failed transaction: the faucet hint for a lack of
      funds, the prefixed reason otherwise. */
  function Classify(e: TxError, prefix: string): (f: Feedback)
    ensures f == FundingHint <==> IsInsufficientFunds(e)
    ensures !IsInsufficientFunds(e) ==> f == ErrorShown(prefix, ErrorDetail(e))
  {
    if IsInsufficientFunds(e) then FundingHint else ErrorShown(prefix, ErrorDetail(e))
  }

  /** A node's "insufficient funds" message gets the faucet hint, as does
      the code alone. */
  lemma ClassifyFundsExamples(prefix: string)
    ensures Classify(TxError("", "insufficient funds for gas * price + value", None), prefix) == FundingHint
    ensures Classify(TxError(InsufficientFundsCode, "", None), prefix) == FundingHint
  {
    assert "insufficient funds for gas * price + value"
        == "insufficient " + "funds" + " for gas * price + value";
    ContainsInfix("insufficient ", "funds", " for gas * price + value");
  }

  /** A revert shows its reason, or its message when the reason is empty. */
  lemma ClassifyRevertExamples(prefix: string)
    ensures Classify(TxError("CALL_EXCEPTION", "execution reverted", Some("Campaign ended")), prefix)
            == ErrorShown(prefix, "Campaign ended")
    ensures Classify(TxError("CALL_EXCEPTION", "execution reverted", Some("")), prefix)
            == ErrorShown(prefix, "execution reverted")
  {
    AbsentFirstChar("execution reverted", "funds");
  }

  /** The error `tx.hash` raises when `createCampaign` returned `undefined`. */
  const UndefinedTxError: TxError := TxError("", "Cannot read properties of undefined (reading 'hash')", None)

  /** A handler's result: what it shows and the contract call it issued, if any. */
  datatype HandlerResult = HandlerResult(feedback: Feedback, issued: Option<ContractCall>)

  /** The `try`/`catch` around a contract write in a handler. */
  function Report(r: CallResult, prefix: string): HandlerResult
  {
    match r
    case NoSigner => HandlerResult(Classify(UndefinedTxError, prefix), None)
    case FailedBeforeCall(e) => HandlerResult(Classify(e, prefix), None)
    case Submitted(call, Success(hash)) => HandlerResult(Confirmed(hash), Some(call))
    case Submitted(call, Failure(e)) => HandlerResult(Classify(e, prefix), Some(call))
  }

  const SubmitErrorPrefix: string := "Error creating campaign: "
  const DonateErrorPrefix: string := "Donation failed: "

  /** `handleSubmit` for the creation form. */
  function HandleSubmit(s: SessionState, title: string, description: string, target: Result<Wei, TxError>,
                        deadline: int, image: string, receipt: Result<TxHash, TxError>): (h: HandlerResult)
    ensures s.currentAccount == "" ==> h == HandlerResult(ConnectFirst, None)
    ensures h.issued.Some? ==> s.currentAccount != "" && s.signer.Some?
  {
    if s.currentAccount == "" then HandlerResult(ConnectFirst, None)
    else Report(CreateCampaign(s, title, description, target, deadline, image, receipt), SubmitErrorPrefix)
  }

  /** `handleDonate`; `entered` is the prompt's answer (`None` when
      cancelled) and `amount` what `parseEther` makes of it. */
  function HandleDonate(s: SessionState, pId: nat, entered: Option<string>, amount: Result<Wei, TxError>,
                        receipt: Result<TxHash, TxError>): (h: HandlerResult)
    ensures s.currentAccount == "" ==> h == HandlerResult(ConnectFirst, None)
    ensures s.currentAccount != "" && (entered.None? || entered == Some("")) ==> h == HandlerResult(NothingEntered, None)
    ensures h.issued.Some? ==> s.currentAccount != "" && s.signer.Some? && entered.Some? && entered.value != ""
  {
    if s.currentAccount == "" then HandlerResult(ConnectFirst, None)
    else if entered.None? || entered.value == "" then HandlerResult(NothingEntered, None)
    else Report(Donate(s, pId, amount, receipt), DonateErrorPrefix)
  }

  /** In every reachable state the page's account guard implies the
      provider's signer guard, so a connected submit reaches the contract
      with the current account as owner and reports the chain's answer. */
  lemma ConnectedSubmitReachesContract(s: SessionState, title: string, description: string, target: Wei,
                                       deadline: int, image: string, receipt: Result<TxHash, TxError>)
    requires Consistent(s) && s.currentAccount != ""
    ensures var h := HandleSubmit(s, title, description, Success(target), deadline, image, receipt);
      && h.issued == Some(CreateCampaignCall(s.currentAccount, title, description, target, deadline, image))
      && (receipt.Success? ==> h.feedback == Confirmed(receipt.value))
      && (receipt.Failure? ==> h.feedback == Classify(receipt.error, SubmitErrorPrefix))
  {
  }

  lemma ConnectedDonateReachesContract(s: SessionState, pId: nat, entered: string, amount: Wei,
                                       receipt: Result<TxHash, TxError>)
    requires Consistent(s) && s.currentAccount != "" && entered != ""
    ensures var h := HandleDonate(s, pId, Some(entered), Success(amount), receipt);
      && h.issued == Some(DonateCall(pId, amount))
      && (receipt.Success? ==> h.feedback == Confirmed(receipt.value))
      && (receipt.Failure? ==> h.feedback == Classify(receipt.error, DonateErrorPrefix))
  {
  }
}
