/**
 * The donation-history panel of one campaign: the ledger's two index-aligned
 * arrays decoded into numbered rows, and the open flag whose closed-to-open
 * transition asks the ledger again.
 */
module CampaignTransactions {
  import opened Ledger

  /** What `getDonators(campaignId)` returns: donor addresses and amounts in wei. */
  datatype DonationData = DonationData(donators: seq<Address>, donations: seq<int>)

  /**
   * One decoded donation. `amount` is None where the amounts array is shorter
   * than the donors array and `donations[index]` is JavaScript's `undefined`.
   */
  datatype Transaction = Transaction(donator: Address, amount: Option<int>, id: nat)

  /** `donations[i]` as JavaScript reads it: `undefined` past the end. */
  function AmountAt(donations: seq<int>, i: nat): Option<int>
  {
    if i < |donations| then Some(donations[i]) else None
  }

  /**
   * processTransactions: no data yet gives no rows; otherwise one row per
   * donor, in ledger order, carrying its aligned amount and its index as id.
   */
  function ProcessTransactions(donationData: Option<DonationData>): (txs: seq<Transaction>)
    ensures donationData.None? ==> txs == []
    ensures donationData.Some? ==> |txs| == |donationData.value.donators|
    ensures donationData.Some? ==>
              forall i :: 0 <= i < |txs| ==>
                && txs[i].donator == donationData.value.donators[i]
                && txs[i].amount == AmountAt(donationData.value.donations, i)
                && txs[i].id == i
  {
    match donationData
    case None => []
    case Some(DonationData(donators, donations)) =>
      seq(|donators|, index requires 0 <= index < |donators| =>
        Transaction(donators[index], AmountAt(donations, index), index))
  }

  /** When the arrays are aligned as the ledger returns them, every row has its amount. */
  lemma AlignedArraysGiveEveryAmount(d: DonationData, i: nat)
    requires |d.donations| >= |d.donators| && i < |d.donators|
    ensures ProcessTransactions(Some(d))[i].amount == Some(d.donations[i])
  {
  }

  /**
   * The rows come from the current data alone: after a fetch that returns
   * fewer donors than the previous one, no row of the previous fetch survives.
   */
  lemma RefetchReplacesRows(previous: DonationData, current: DonationData)
    requires |current.donators| < |previous.donators|
    ensures |ProcessTransactions(Some(current))| < |ProcessTransactions(Some(previous))|
    ensures forall tx :: tx in ProcessTransactions(Some(current)) ==>
              tx.id < |current.donators| && tx.donator == current.donators[tx.id]
  {
  }

  /** A row of the rendered table: the 1-based row number, the donor and the amount in wei. */
  datatype Row = Row(number: nat, donator: Address, amount: int)

  /**
   * What the panel shows below its header. `RenderThrows` is a render that
   * fails: `formatEther(tx.amount)` throws on an undefined amount.
   */
  datatype PanelView = Collapsed | Loading | LoadFailed | NoDonations | Table(rows: seq<Row>) | RenderThrows

  /** Every transaction has an amount, so `formatEther` can format each row. */
  predicate AllAmountsPresent(txs: seq<Transaction>)
  {
    forall i :: 0 <= i < |txs| ==> txs[i].amount.Some?
  }

  /** The panel's markup: nothing when closed, then loading, error, empty or the table. */
  function RenderPanel(isOpen: bool, isLoading: bool, isError: bool, txs: seq<Transaction>): (v: PanelView)
    ensures v.Collapsed? <==> !isOpen
    ensures v.Loading? <==> isOpen && isLoading
    ensures v.LoadFailed? <==> isOpen && !isLoading && isError
    ensures v.NoDonations? <==> isOpen && !isLoading && !isError && txs == []
    ensures v.Table? <==> isOpen && !isLoading && !isError && txs != [] && AllAmountsPresent(txs)
    ensures v.RenderThrows? <==> isOpen && !isLoading && !isError && !AllAmountsPresent(txs)
    ensures v.Table? ==>
              && |v.rows| == |txs|
              && forall i :: 0 <= i < |txs| ==>
                   v.rows[i] == Row(txs[i].id + 1, txs[i].donator, txs[i].amount.value)
  {
    if !isOpen then Collapsed
    else if isLoading then Loading
    else if isError then LoadFailed
    else if |txs| == 0 then NoDonations
    else if !AllAmountsPresent(txs) then RenderThrows
    else Table(seq(|txs|, i requires 0 <= i < |txs| => Row(txs[i].id + 1, txs[i].donator, txs[i].amount.value)))
  }

  /** The rows of loaded, aligned donation data are numbered 1..n in ledger order. */
  lemma RowsNumberedFromOne(d: DonationData, i: nat)
    requires |d.donations| >= |d.donators|
    requires i < |d.donators|
    ensures var v := RenderPanel(true, false, false, ProcessTransactions(Some(d)));
            && v.Table? && |v.rows| == |d.donators|
            && v.rows[i] == Row(i + 1, d.donators[i], d.donations[i])
  {
  }

  /** More donors than amounts: the row past the last amount cannot be formatted, and the render fails. */
  lemma ShortAmountsBreakRender(d: DonationData)
    requires |d.donations| < |d.donators|
    ensures RenderPanel(true, false, false, ProcessTransactions(Some(d))) == RenderThrows
  {
    var txs := ProcessTransactions(Some(d));
    assert txs[|d.donations|].amount.None?;
  }

  /**
   * The panel's own state: the open flag, the data last delivered, and the
   * campaign ids of the `getDonators` reads that `refetch` has issued.
   */
  datatype PanelState = PanelState(isOpen: bool, donationData: Option<DonationData>, refetches: seq<nat>)

  /** togglePanel: flip the flag; refetch this campaign's donors exactly when the panel was closed. */
  function TogglePanel(p: PanelState, campaignId: nat): (q: PanelState)
    ensures q.isOpen != p.isOpen
    ensures !p.isOpen ==> q.refetches == p.refetches + [campaignId]
    ensures p.isOpen ==> q.refetches == p.refetches
    ensures q.donationData == p.donationData
  {
    var wasOpen := p.isOpen;
    var flipped := p.(isOpen := !wasOpen);
    if !wasOpen then flipped.(refetches := p.refetches + [campaignId]) else flipped
  }

  /** The panel after `k` clicks on its header. */
  function ToggleTimes(p: PanelState, campaignId: nat, k: nat): PanelState
  {
    if k == 0 then p else TogglePanel(ToggleTimes(p, campaignId, k - 1), campaignId)
  }

  /**
   * From a closed panel, `k` clicks leave it open exactly when `k` is odd and
   * issue one read of this campaign's donors per opening, that is (k + 1) / 2;
   * closing never fetches.
   */
  lemma {:induction false} RefetchesCountOpenings(p: PanelState, campaignId: nat, k: nat)
    requires !p.isOpen
    ensures var q := ToggleTimes(p, campaignId, k);
            && q.isOpen == (k % 2 == 1)
            && |q.refetches| == |p.refetches| + (k + 1) / 2
            && q.refetches[..|p.refetches|] == p.refetches
            && (forall i :: |p.refetches| <= i < |q.refetches| ==> q.refetches[i] == campaignId)
            && q.donationData == p.donationData
  {
    if k > 0 {
      RefetchesCountOpenings(p, campaignId, k - 1);
      var before := ToggleTimes(p, campaignId, k - 1);
      if !before.isOpen {
        assert (before.refetches + [campaignId])[..|p.refetches|] == before.refetches[..|p.refetches|];
      }
    }
  }

  /** The component for one campaign. */
  class CampaignTransactionsPanel {
    const campaignId: nat
    var isOpen: bool
    var donationData: Option<DonationData>
    var refetches: seq<nat>

    function State(): PanelState
      reads this
    {
      PanelState(isOpen, donationData, refetches)
    }

    /** The rows rendered from whatever data is current. */
    function Transactions(): seq<Transaction>
      reads this
    {
      ProcessTransactions(donationData)
    }

    constructor (campaignId: nat)
      ensures this.campaignId == campaignId
      ensures State() == PanelState(false, None, [])
    {
      this.campaignId := campaignId;
      isOpen := false;
      donationData := None;
      refetches := [];
    }

    method HandleTogglePanel()
      modifies this
      ensures State() == TogglePanel(old(State()), campaignId)
    {
      var wasOpen := isOpen;
      isOpen := !wasOpen;
      if !wasOpen {
        refetches := refetches + [campaignId];  // refetch() of getDonators(campaignId)
      }
    }

    /** The read of `getDonators(campaignId)` resolves: the data is replaced whole. */
    method ReceiveDonationData(d: DonationData)
      modifies this
      ensures State() == old(State()).(donationData := Some(d))
      ensures Transactions() == ProcessTransactions(Some(d))
    {
      donationData := Some(d);
    }
  }
}
