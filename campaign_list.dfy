/**
 * The client-side state of the campaign list: the draft donation amount per
 * campaign, the single "currently donating" slot and the single expanded
 * campaign. `handleDonate` awaits the wallet, so it is split into the step
 * that runs when the button is clicked (StartDonation) and the step that runs
 * when the write settles (FinishDonation).
 */
module CampaignList {
  import opened Ledger

  /** The amount donated when the campaign's draft is missing or empty. */
  const DefaultDonation: string := "0.1"

  datatype ListState = ListState(
    donationAmounts: map<nat, string>,
    donatingCampaignId: Option<nat>,
    expandedCampaign: Option<nat>,
    writes: seq<WriteCall>)

  /**
   * A donation whose write has been issued and has not settled: the campaign
   * and the `donationAmounts` that the handler's closure captured when the
   * button was clicked.
   */
  datatype InFlight = InFlight(id: nat, snapshot: map<nat, string>)

  datatype BeginResult = NotConnected | InvalidAmount | Submitted(donation: InFlight)

  datatype Begun = Begun(state: ListState, result: BeginResult)

  /** `donationAmounts[id] || "0.1"`: an absent or empty draft falls back to the default. */
  function AmountToSend(drafts: map<nat, string>, id: nat): (amount: string)
    ensures amount != ""
    ensures amount == DefaultDonation || (id in drafts && amount == drafts[id])
    ensures id in drafts && drafts[id] != "" ==> amount == drafts[id]
  {
    if id in drafts && drafts[id] != "" then drafts[id] else DefaultDonation
  }

  /** handleDonationChange: the draft of `id` becomes `value`; every other draft is kept. */
  function AfterDonationChange(s: ListState, id: nat, value: string): (t: ListState)
    ensures t.donationAmounts.Keys == s.donationAmounts.Keys + {id}
    ensures t.donationAmounts[id] == value
    ensures forall k :: k in s.donationAmounts && k != id ==>
              t.donationAmounts[k] == s.donationAmounts[k]
    ensures t.donatingCampaignId == s.donatingCampaignId
    ensures t.expandedCampaign == s.expandedCampaign && t.writes == s.writes
  {
    s.(donationAmounts := s.donationAmounts[id := value])
  }

  /**
   * The synchronous part of handleDonate(id): the wallet guard, the amount,
   * the slot, and the write (whose `value` is parseEther of the amount). When
   * parseEther throws, the catch and finally blocks run at once and the slot
   * is cleared, whichever campaign held it.
   */
  function StartDonation(s: ListState, id: nat, address: Option<Address>, parseEther: ParseEther): (b: Begun)
    ensures b.state.donationAmounts == s.donationAmounts
    ensures b.state.expandedCampaign == s.expandedCampaign
    ensures b.result.NotConnected? <==> !Connected(address)
    ensures b.result.NotConnected? ==> b.state == s
    ensures b.result.InvalidAmount? <==>
              Connected(address) && parseEther(AmountToSend(s.donationAmounts, id)).None?
    ensures b.result.InvalidAmount? ==>
              b.state.donatingCampaignId == None && b.state.writes == s.writes
    ensures b.result.Submitted? ==>
              var amount := AmountToSend(s.donationAmounts, id);
              && b.result.donation == InFlight(id, s.donationAmounts)
              && b.state.donatingCampaignId == Some(id)
              && b.state.writes == s.writes + [DonateToCampaign(id, parseEther(amount).value)]
  {
    if !Connected(address) then
      Begun(s, NotConnected)
    else
      var amount := AmountToSend(s.donationAmounts, id);
      var pending := s.(donatingCampaignId := Some(id));
      match parseEther(amount)
      case None => Begun(pending.(donatingCampaignId := None), InvalidAmount)
      case Some(wei) =>
        Begun(pending.(writes := s.writes + [DonateToCampaign(id, wei)]),
              Submitted(InFlight(id, s.donationAmounts)))
  }

  /**
   * The part of handleDonate that runs when the write settles. On success the
   * drafts become the captured snapshot without `d.id`; on failure they are
   * left as they are now. Either way the slot is cleared, whichever campaign
   * holds it by then.
   */
  function FinishDonation(s: ListState, d: InFlight, ok: bool): (t: ListState)
    ensures t.donatingCampaignId == None
    ensures ok ==> t.donationAmounts.Keys == d.snapshot.Keys - {d.id}
    ensures ok ==> forall k :: k in t.donationAmounts ==> t.donationAmounts[k] == d.snapshot[k]
    ensures !ok ==> t.donationAmounts == s.donationAmounts
    ensures t.expandedCampaign == s.expandedCampaign && t.writes == s.writes
  {
    var drafts := if ok then d.snapshot - {d.id} else s.donationAmounts;
    s.(donationAmounts := drafts, donatingCampaignId := None)
  }

  /** toggleCampaignDetails(idx): collapse `idx` if it is the expanded one, else expand it. */
  function AfterToggleDetails(s: ListState, idx: nat): (t: ListState)
    ensures t.expandedCampaign == Some(idx) <==> s.expandedCampaign != Some(idx)
    ensures t.expandedCampaign == None || t.expandedCampaign == Some(idx)
    ensures t.donationAmounts == s.donationAmounts
    ensures t.donatingCampaignId == s.donatingCampaignId && t.writes == s.writes
  {
    s.(expandedCampaign := if s.expandedCampaign == Some(idx) then None else Some(idx))
  }

  /** The Donate button of campaign `idx` is disabled (and reads "Processing..."). */
  predicate DonateDisabled(s: ListState, idx: nat)
  {
    s.donatingCampaignId == Some(idx)
  }

  /** The transaction history panel of campaign `idx` is rendered. */
  predicate ShowsTransactions(s: ListState, idx: nat)
  {
    s.expandedCampaign == Some(idx)
  }

  /** While a donation is in flight, exactly its own Donate button is disabled. */
  lemma OnlyDonatingButtonDisabled(s: ListState, id: nat, address: Option<Address>,
                                   parseEther: ParseEther, idx: nat)
    requires StartDonation(s, id, address, parseEther).result.Submitted?
    ensures DonateDisabled(StartDonation(s, id, address, parseEther).state, idx) <==> idx == id
  {
  }

  /** A click without a connected wallet issues no write and changes nothing. */
  lemma NoWalletNoWrite(s: ListState, id: nat, address: Option<Address>, parseEther: ParseEther)
    requires !Connected(address)
    ensures StartDonation(s, id, address, parseEther).state == s
  {
  }

  /**
   * The slot is one value, not a set: when campaign `a` settles after
   * campaign `b` started donating, `b`'s button is enabled again although
   * its write is still in flight.
   */
  lemma SettleReleasesAnotherCampaign(s: ListState, a: nat, b: nat, address: Option<Address>,
                                      parseEther: ParseEther, ok: bool)
    requires a != b  // b's button is not disabled, so it can be clicked
    requires StartDonation(s, a, address, parseEther).result.Submitted?
    requires StartDonation(StartDonation(s, a, address, parseEther).state, b, address, parseEther).result.Submitted?
    ensures var first := StartDonation(s, a, address, parseEther);
            var second := StartDonation(first.state, b, address, parseEther);
            var settled := FinishDonation(second.state, first.result.donation, ok);
            && DonateDisabled(second.state, b)
            && !DonateDisabled(settled, b)
  {
  }

  /**
   * The success branch rebuilds the drafts from the snapshot taken at the
   * click: a draft typed for another campaign while the write was in flight
   * is reverted to its value at the click (or dropped if it had none).
   */
  lemma SuccessRevertsEditsMadeInFlight(s: ListState, id: nat, address: Option<Address>,
                                        parseEther: ParseEther, other: nat, value: string)
    requires other != id
    requires StartDonation(s, id, address, parseEther).result.Submitted?
    ensures var begun := StartDonation(s, id, address, parseEther);
            var edited := AfterDonationChange(begun.state, other, value);
            var settled := FinishDonation(edited, begun.result.donation, true);
            && edited.donationAmounts[other] == value
            && (other in s.donationAmounts ==> settled.donationAmounts[other] == s.donationAmounts[other])
            && (other !in s.donationAmounts ==> other !in settled.donationAmounts)
            && id !in settled.donationAmounts
  {
  }

  /** A failed write keeps every draft, including one typed while it was in flight. */
  lemma FailureKeepsEditsMadeInFlight(s: ListState, id: nat, address: Option<Address>,
                                      parseEther: ParseEther, other: nat, value: string)
    requires StartDonation(s, id, address, parseEther).result.Submitted?
    ensures var begun := StartDonation(s, id, address, parseEther);
            var edited := AfterDonationChange(begun.state, other, value);
            var settled := FinishDonation(edited, begun.result.donation, false);
            && settled.donationAmounts == s.donationAmounts[other := value]
            && settled.donatingCampaignId == None
  {
  }

  /**
   * Toggling the same campaign twice restores the state exactly when no other
   * campaign was expanded before; if one was, the first toggle replaced it and
   * the second leaves nothing expanded.
   */
  lemma ToggleDetailsTwice(s: ListState, idx: nat)
    ensures var twice := AfterToggleDetails(AfterToggleDetails(s, idx), idx);
            && (twice == s <==> s.expandedCampaign == None || s.expandedCampaign == Some(idx))
            && (twice != s ==> twice == s.(expandedCampaign := None))
  {
  }

  /** At most one campaign shows its transaction panel. */
  lemma AtMostOneExpanded(s: ListState, i: nat, j: nat)
    requires ShowsTransactions(s, i) && ShowsTransactions(s, j)
    ensures i == j
  {
  }

  /** The stateful component: its handlers update the fields step by step. */
  class CampaignListComponent {
    var donationAmounts: map<nat, string>
    var donatingCampaignId: Option<nat>
    var expandedCampaign: Option<nat>
    var writes: seq<WriteCall>

    function State(): ListState
      reads this
    {
      ListState(donationAmounts, donatingCampaignId, expandedCampaign, writes)
    }

    constructor ()
      ensures State() == ListState(map[], None, None, [])
    {
      donationAmounts := map[];
      donatingCampaignId := None;
      expandedCampaign := None;
      writes := [];
    }

    method HandleDonationChange(campaignId: nat, value: string)
      modifies this
      ensures State() == AfterDonationChange(old(State()), campaignId, value)
    {
      donationAmounts := donationAmounts[campaignId := value];
    }

    method HandleDonateBegin(id: nat, address: Option<Address>, parseEther: ParseEther)
      returns (r: BeginResult)
      modifies this
      ensures Begun(State(), r) == StartDonation(old(State()), id, address, parseEther)
    {
      var snapshot := donationAmounts;  // the value the handler's closure captured
      if !Connected(address) {
        return NotConnected;
      }
      var amount := AmountToSend(snapshot, id);
      donatingCampaignId := Some(id);
      var value := parseEther(amount);
      if value.None? {
        donatingCampaignId := None;
        return InvalidAmount;
      }
      writes := writes + [DonateToCampaign(id, value.value)];
      r := Submitted(InFlight(id, snapshot));
    }

    method HandleDonateSettle(d: InFlight, ok: bool)
      modifies this
      ensures State() == FinishDonation(old(State()), d, ok)
    {
      if ok {
        var updatedAmounts := d.snapshot;
        updatedAmounts := updatedAmounts - {d.id};
        donationAmounts := updatedAmounts;
      }
      donatingCampaignId := None;
    }

    method ToggleCampaignDetails(idx: nat)
      modifies this
      ensures State() == AfterToggleDetails(old(State()), idx)
    {
      expandedCampaign := if expandedCampaign == Some(idx) then None else Some(idx);
    }
  }
}
