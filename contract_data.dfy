/** The data the provider exchanges with the crowdfunding contract: the
    campaigns and donor lists it reads, the calls it submits, and the
    shaping of raw reads into the records the page displays. Amounts stay
    in wei; the conversion to and from ether strings is not modelled. */
module ContractData {
  import opened Wrappers

  type Address = string
  type Wei = nat

  /** One campaign as the contract's `getCampaigns` returns it. */
  datatype ChainCampaign = ChainCampaign(
    owner: Address,
    title: string,
    description: string,
    target: Wei,
    deadline: int,
    amountCollected: Wei,
    image: string)

  /** One campaign as the page holds it: the contract's fields plus its
      position `pId` in the contract's list. */
  datatype Campaign = Campaign(
    owner: Address,
    title: string,
    description: string,
    target: Wei,
    deadline: int,
    amountCollected: Wei,
    image: string,
    pId: nat)

  function Tag(c: ChainCampaign, i: nat): Campaign
  {
    Campaign(c.owner, c.title, c.description, c.target, c.deadline, c.amountCollected, c.image, i)
  }

  /** Forgets the position again. */
  function Untag(c: Campaign): ChainCampaign
  {
    ChainCampaign(c.owner, c.title, c.description, c.target, c.deadline, c.amountCollected, c.image)
  }

  /** The `map` in `getCampaigns`: every campaign is tagged with its index
      and carries the contract's fields unchanged. */
  function ShapeCampaigns(raw: seq<ChainCampaign>): (r: seq<Campaign>)
    ensures |r| == |raw|
    ensures forall i :: 0 <= i < |r| ==> r[i].pId == i && Untag(r[i]) == raw[i]
  {
    seq(|raw|, i requires 0 <= i < |raw| => Tag(raw[i], i))
  }

  /** `getCampaigns` as a whole: a failed contract read yields no campaigns. */
  function CampaignsOrEmpty(read: Option<seq<ChainCampaign>>): (r: seq<Campaign>)
    ensures read.None? ==> r == []
    ensures read.Some? ==> |r| == |read.value|
                           && forall i :: 0 <= i < |r| ==> r[i].pId == i && Untag(r[i]) == read.value[i]
  {
    match read
    case None => []
    case Some(raw) => ShapeCampaigns(raw)
  }

  /** The pIds of shaped campaigns strictly increase along the list. */
  predicate IncreasingIds(cs: seq<Campaign>)
  {
    forall i, j :: 0 <= i < j < |cs| ==> cs[i].pId < cs[j].pId
  }

  lemma ShapedIdsIncrease(raw: seq<ChainCampaign>)
    ensures IncreasingIds(ShapeCampaigns(raw))
  {
  }

  /** One hour in milliseconds: the spacing of the estimated donation times. */
  const HourMs: int := 3600000

  /** One donation as `getDonators` returns it. `donator` is `None` where the
      contract's donor list is shorter than its amount list (JavaScript
      `undefined`). `timestamp` is an estimate, not a chain value. */
  datatype Donation = Donation(donator: Option<Address>, amount: Wei, timestamp: int, index: nat)

  function DonorAt(donators: seq<Address>, i: nat): Option<Address>
  {
    if i < |donators| then Some(donators[i]) else None
  }

  /** The record built for position `i` out of `n` donations, where `t` is
      the clock reading taken in that iteration. */
  function DonationRecord(donators: seq<Address>, amounts: seq<Wei>, t: int, i: nat): Donation
    requires i < |amounts|
  {
    Donation(DonorAt(donators, i), amounts[i], t - (|amounts| - i - 1) * HourMs, i + 1)
  }

  /** The records `getDonators` returns for the parallel arrays it read.
      The loop reads the clock afresh in every iteration: `clock[i]` is the
      reading taken while building record `i`. */
  function DonationRecords(donators: seq<Address>, amounts: seq<Wei>, clock: seq<int>): (r: seq<Donation>)
    requires |clock| == |amounts|
    ensures |r| == |amounts|
  {
    seq(|amounts|, i requires 0 <= i < |amounts| => DonationRecord(donators, amounts, clock[i], i))
  }

  /** The `for`/`push` loop of `getDonators`. */
  method ShapeDonations(donators: seq<Address>, amounts: seq<Wei>, clock: seq<int>) returns (r: seq<Donation>)
    requires |clock| == |amounts|
    ensures r == DonationRecords(donators, amounts, clock)
  {
    r := [];
    for i := 0 to |amounts|
      invariant |r| == i
      invariant forall k :: 0 <= k < i ==> r[k] == DonationRecord(donators, amounts, clock[k], k)
    {
      var timestamp := clock[i] - (|amounts| - i - 1) * HourMs;
      var donator := if i < |donators| then Some(donators[i]) else None;
      r := r + [Donation(donator, amounts[i], timestamp, i + 1)];
    }
  }

  /** `getDonators` as a whole: a failed read yields no donations. */
  function DonationsOrEmpty(read: Option<(seq<Address>, seq<Wei>)>, clock: seq<int>): (r: seq<Donation>)
    requires read.Some? ==> |clock| == |read.value.1|
    ensures read.None? ==> r == []
    ensures read.Some? ==> r == DonationRecords(read.value.0, read.value.1, clock)
  {
    match read
    case None => []
    case Some((donators, amounts)) => DonationRecords(donators, amounts, clock)
  }

  /** Record `i` pairs the `i`-th donor with the `i`-th amount and is
      numbered from 1. Neighbouring estimates lie one hour apart plus however
      far the clock moved between the two iterations, and the last record
      carries the last reading. */
  lemma DonationRecordsShape(donators: seq<Address>, amounts: seq<Wei>, clock: seq<int>)
    requires |clock| == |amounts|
    ensures var r := DonationRecords(donators, amounts, clock);
      && (forall i :: 0 <= i < |r| ==> r[i].amount == amounts[i] && r[i].index == i + 1)
      && (forall i :: 0 <= i < |r| && i < |donators| ==> r[i].donator == Some(donators[i]))
      && (forall i :: 0 <= i < |r| && i >= |donators| ==> r[i].donator.None?)
      && (forall i :: 0 <= i < |r| - 1 ==>
            r[i + 1].timestamp - r[i].timestamp == HourMs + (clock[i + 1] - clock[i]))
      && (|r| > 0 ==> r[|r| - 1].timestamp == clock[|clock| - 1])
  {
  }

  /** The clock never goes back between readings. */
  predicate NonDecreasing(clock: seq<int>)
  {
    forall i, j :: 0 <= i <= j < |clock| ==> clock[i] <= clock[j]
  }

  /** With a clock that does not go back, neighbouring estimates are at
      least an hour apart, and no estimate lies after the last reading. */
  lemma DonationTimesSpaced(donators: seq<Address>, amounts: seq<Wei>, clock: seq<int>)
    requires |clock| == |amounts| && NonDecreasing(clock)
    ensures var r := DonationRecords(donators, amounts, clock);
      && (forall i :: 0 <= i < |r| - 1 ==> r[i + 1].timestamp >= r[i].timestamp + HourMs)
      && (forall i :: 0 <= i < |r| ==> r[i].timestamp <= clock[|clock| - 1])
  {
  }

  /** When every reading is the same instant `now`, the estimates rise by
      exactly one hour and end at `now`. */
  lemma SteadyClockTimes(donators: seq<Address>, amounts: seq<Wei>, now: int)
    ensures var r := DonationRecords(donators, amounts, seq(|amounts|, _ => now));
      && (forall i :: 0 <= i < |r| - 1 ==> r[i + 1].timestamp == r[i].timestamp + HourMs)
      && (|r| > 0 ==> r[|r| - 1].timestamp == now)
  {
  }

  /** The calls the page submits to the contract. */
  datatype ContractCall =
    | CreateCampaignCall(owner: Address, title: string, description: string, target: Wei, deadline: int, image: string)
    | DonateCall(pId: nat, value: Wei)

  /** An error thrown by `ethers` or the wallet: its `code`, `message` and
      optional `reason`. */
  datatype TxError = TxError(code: string, message: string, reason: Option<string>)

  /** The hash of a confirmed transaction. */
  type TxHash = string

  /** What `createCampaign` and `donate` do: return early without a signer,
      throw before reaching the contract, or submit a call whose receipt (or
      revert) comes back from the chain. */
  datatype CallResult =
    | NoSigner
    | FailedBeforeCall(error: TxError)
    | Submitted(call: ContractCall, receipt: Result<TxHash, TxError>)
}
