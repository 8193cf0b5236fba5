# Crowd-Fund front end: client-side state of the campaign components

This project models, in Dafny, the state logic of three React components of
the Crowd-Fund campaign client, and proves properties of it:

- **CampaignList** (`campaign_list.dfy`) keeps three pieces of state: the
  draft donation amount per campaign (`donationAmounts`), a single
  "currently donating" slot (`donatingCampaignId`) and a single expanded
  campaign (`expandedCampaign`). The asynchronous `handleDonate` is split in
  two steps: `StartDonation` is what runs when the Donate button is clicked
  (wallet guard, `|| "0.1"` default, the slot, `parseEther`, the
  `donateToCampaign` write), and `FinishDonation` is what runs when that
  write settles (on success the drafts are rebuilt from the closure's
  snapshot without the campaign; in every case the slot is reset to null).
  The model keeps two behaviours of the code exactly as written. First, the
  pending state is one slot, so a settle clears it even when another campaign
  has started donating since (`SettleReleasesAnotherCampaign`); a `parseEther`
  failure clears it the same way. Second, the success branch rebuilds the
  drafts from the map the handler captured at the click, so a draft typed for
  another campaign while the write is in flight is reverted
  (`SuccessRevertsEditsMadeInFlight`).
- **CampaignTransactions** (`campaign_transactions.dfy`) decodes the two
  index-aligned arrays of `getDonators` into `{donator, amount, id}` rows
  (`ProcessTransactions`), renders them numbered from 1 (`RenderPanel`), and
  flips its open flag on every header click, asking for a refetch only on the
  closed-to-open transition (`TogglePanel`).
- **AddCampaign** (`add_campaign.dfy`) holds a five-field form edited one
  field at a time (`WithField`). Its submit handler (`Submit`) checks for a
  wallet, turns the deadline's milliseconds into seconds by rounding down,
  converts the goal with `parseEther`, and issues one `addCampaign` write. The
  form is reset only when that write succeeds, which it never does for a
  deadline that does not parse: that deadline is NaN, which the ABI encoder
  rejects.

`ledger.dfy` holds what the three share: `Option`, the wallet's `Address`,
the JavaScript number (`JsNumber`, an integer or NaN), the recorded contract
writes (`WriteCall`) and the `!address` guard (`Connected`: JavaScript's
falsiness, so a missing or empty address).

Each component is a pure state (`ListState`, `PanelState`, `FormState`) with
transition functions that carry the properties, and a class whose methods
perform the handler's steps on fields and are proved to end in the state the
transition function gives. External effects are parameters: `parseEther` is
an arbitrary function from strings to an optional wei amount (None where it
throws), `new Date(s).getTime()` an arbitrary function from strings to
`JsNumber`, the wallet address an `Option`, and the outcome of each awaited
write a boolean. Each write is recorded in a `writes` sequence with its
arguments.

The code has no per-campaign pending set and no "already pending" rejection: the
Donate button of the donating campaign is only disabled. It has no check that
the deadline lies in the future. `processTransactions` does not require the
two arrays to have the same length: a missing amount is JavaScript's
`undefined`, modelled as `None`; rendering such a row fails, because
`formatEther` throws on `undefined`.
Toggling the same campaign's details twice restores the previous state only
when no other campaign was expanded before; otherwise the first toggle
replaces that campaign and the second leaves none expanded
(`ToggleDetailsTwice` proves both directions).

## Model

| member | source | states |
|---|---|---|
| `CampaignList.AmountToSend` | fe/campaign-client/src/components/CampaignList.jsx:42 | the amount sent is never empty; it is the campaign's draft when that is present and non-empty, otherwise the default "0.1" |
| `CampaignList.AfterDonationChange` | fe/campaign-client/src/components/CampaignList.jsx:29-34 | the draft of the campaign becomes the typed value, every other draft keeps its value, the key set gains only that campaign, the slots and writes are unchanged |
| `CampaignList.StartDonation` | fe/campaign-client/src/components/CampaignList.jsx:36-65 | without a wallet nothing changes and no write is made; if parseEther rejects the amount, no write is made, drafts are kept and the slot ends null; otherwise the slot holds the campaign, exactly one donateToCampaign(id) write with value parseEther(amount) is recorded, and the in-flight donation carries the drafts as they were at the click |
| `CampaignList.FinishDonation` | fe/campaign-client/src/components/CampaignList.jsx:55-65 | the slot ends null on every path; on success the drafts equal the click-time snapshot without the campaign; on failure the drafts are unchanged |
| `CampaignList.AfterToggleDetails` | fe/campaign-client/src/components/CampaignList.jsx:69-71 | the campaign ends expanded exactly when it was not expanded before, and nothing else can be expanded afterwards |
| `CampaignList.OnlyDonatingButtonDisabled` | fe/campaign-client/src/components/CampaignList.jsx:170-176 | while a donation is in flight, the Donate button of campaign idx is disabled exactly when idx is the donating campaign |
| `CampaignList.NoWalletNoWrite` | fe/campaign-client/src/components/CampaignList.jsx:37-40 | with no connected address a click changes no state and records no write |
| `CampaignList.SettleReleasesAnotherCampaign` | fe/campaign-client/src/components/CampaignList.jsx:63-65 | when campaign a settles after a different campaign b started donating, b's button is enabled again although b's write is still in flight |
| `CampaignList.SuccessRevertsEditsMadeInFlight` | fe/campaign-client/src/components/CampaignList.jsx:57-59 | on success, a draft typed for another campaign during the write reverts to its click-time value or disappears, and the donated campaign's draft is gone |
| `CampaignList.FailureKeepsEditsMadeInFlight` | fe/campaign-client/src/components/CampaignList.jsx:60-65 | on failure, every draft survives, including one typed during the write, and the slot is null |
| `CampaignList.ToggleDetailsTwice` | fe/campaign-client/src/components/CampaignList.jsx:69-71 | toggling a campaign twice restores the state if and only if nothing or that campaign was expanded; otherwise nothing is expanded afterwards |
| `CampaignList.AtMostOneExpanded` | fe/campaign-client/src/components/CampaignList.jsx:189-194 | at most one campaign renders its transaction panel |
| `CampaignList.CampaignListComponent.constructor` | fe/campaign-client/src/components/CampaignList.jsx:10-14 | the component starts with no drafts, no donating campaign, no expanded campaign and no writes |
| `CampaignList.CampaignListComponent.HandleDonationChange` | fe/campaign-client/src/components/CampaignList.jsx:29-34 | the fields end as AfterDonationChange gives |
| `CampaignList.CampaignListComponent.HandleDonateBegin` | fe/campaign-client/src/components/CampaignList.jsx:36-65 | the fields and the result end as StartDonation gives |
| `CampaignList.CampaignListComponent.HandleDonateSettle` | fe/campaign-client/src/components/CampaignList.jsx:55-65 | the fields end as FinishDonation gives |
| `CampaignList.CampaignListComponent.ToggleCampaignDetails` | fe/campaign-client/src/components/CampaignList.jsx:69-71 | the fields end as AfterToggleDetails gives |
| `CampaignTransactions.ProcessTransactions` | fe/campaign-client/src/components/CampaignTransactions.jsx:32-42 | no data gives no rows; otherwise one row per donor in ledger order, row i carrying donators[i], donations[i] (undefined past the end) and id i |
| `CampaignTransactions.AlignedArraysGiveEveryAmount` | fe/campaign-client/src/components/CampaignTransactions.jsx:35-41 | when the amounts array is at least as long as the donors array, row i has amount donations[i] |
| `CampaignTransactions.RefetchReplacesRows` | fe/campaign-client/src/components/CampaignTransactions.jsx:31-44 | after a fetch with fewer donors, there are fewer rows and every row comes from the current data |
| `CampaignTransactions.RenderPanel` | fe/campaign-client/src/components/CampaignTransactions.jsx:61-97 | a closed panel shows nothing; an open one shows the loader while loading, the load error when the read failed, "No donations yet" when there are no rows, a failed render when some row has no amount (formatEther throws on undefined), and otherwise the table, its row i numbered id+1 with that transaction's donor and amount |
| `CampaignTransactions.RowsNumberedFromOne` | fe/campaign-client/src/components/CampaignTransactions.jsx:83-91 | with aligned arrays, the loaded rows are numbered 1..n in ledger order, row i showing donators[i] and donations[i] |
| `CampaignTransactions.ShortAmountsBreakRender` | fe/campaign-client/src/components/CampaignTransactions.jsx:85-89 | when the amounts array is shorter than the donors array, the open, loaded panel fails to render instead of showing a table |
| `CampaignTransactions.TogglePanel` | fe/campaign-client/src/components/CampaignTransactions.jsx:24-29 | the open flag flips; a read of getDonators(campaignId) is recorded exactly when the panel was closed; the data is untouched |
| `CampaignTransactions.RefetchesCountOpenings` | fe/campaign-client/src/components/CampaignTransactions.jsx:24-29 | from a closed panel, k clicks leave it open exactly when k is odd and add (k+1)/2 reads, all of this campaign's donors, to the earlier ones |
| `CampaignTransactions.CampaignTransactionsPanel.constructor` | fe/campaign-client/src/components/CampaignTransactions.jsx:8-22 | the panel starts closed, with no data and no refetch |
| `CampaignTransactions.CampaignTransactionsPanel.HandleTogglePanel` | fe/campaign-client/src/components/CampaignTransactions.jsx:24-29 | the fields end as TogglePanel gives for the panel's own campaign id |
| `CampaignTransactions.CampaignTransactionsPanel.ReceiveDonationData` | fe/campaign-client/src/components/CampaignTransactions.jsx:11-22 | fetched data replaces the previous data whole, and the rows are recomputed from it alone |
| `AddCampaign.WithField` | fe/campaign-client/src/components/AddCampaign.jsx:25-27 | the edited field holds the new value and the other four fields are unchanged |
| `AddCampaign.EmptyFormHasNoText` | fe/campaign-client/src/components/AddCampaign.jsx:17-23 | the initial and reset form is the one form whose five fields are all empty |
| `AddCampaign.EditsKeepLastValue` | fe/campaign-client/src/components/AddCampaign.jsx:25-27 | after any sequence of field edits, each field holds the last value typed into it, or its earlier value if never edited |
| `AddCampaign.DeadlineSeconds` | fe/campaign-client/src/components/AddCampaign.jsx:34 | the deadline in seconds is the millisecond time rounded down (secs*1000 <= ms < secs*1000+1000); NaN stays NaN |
| `AddCampaign.Submit` | fe/campaign-client/src/components/AddCampaign.jsx:29-65 | without a wallet, or when parseEther rejects the goal, no write is made and the form is unchanged; otherwise exactly one addCampaign(address, title, description, parseEther(target), floor(ms/1000), image) write is recorded, and the form is reset to empty exactly when it succeeds, unchanged when it fails; a deadline that does not parse (NaN) never succeeds |
| `AddCampaign.RetryAfterFailureResendsSameCall` | fe/campaign-client/src/components/AddCampaign.jsx:61-64 | after a failed write, submitting again issues the identical call, so nothing typed was lost |
| `AddCampaign.AddCampaignComponent.constructor` | fe/campaign-client/src/components/AddCampaign.jsx:17-23 | the form starts with all five fields empty and no writes |
| `AddCampaign.AddCampaignComponent.HandleFormFieldChange` | fe/campaign-client/src/components/AddCampaign.jsx:25-27 | the form ends as WithField gives; the writes are unchanged |
| `AddCampaign.AddCampaignComponent.HandleSubmit` | fe/campaign-client/src/components/AddCampaign.jsx:29-65 | the form, the writes and the result end as Submit gives |

## Left out

- Navbar, ConnectWallet and App (wallet-connector buttons, a mobile-menu toggle and routing): no state logic beyond a boolean flip.
- JSX markup and styling, `alert`, `console.error` and `navigate('/')`: effects with no state the components keep. The text of the error alert (`shortMessage || message`) is not modelled.
- The wagmi hooks' caching, polling (`watch`), `enabled` auto-fetching and `isPending` loaders: the wallet address, the read results and the write outcomes are inputs. The campaign list's loading and error screens (fe/campaign-client/src/components/CampaignList.jsx:73-83) and its per-campaign markup are not modelled, apart from the Donate button's disabled rule and the transaction panel's visibility.
- The input's displayed value `donationAmounts[idx] || ""` is not modelled separately; the drafts themselves are.
- viem's `parseEther` and `formatEther`: parseEther is an arbitrary partial function; amounts are shown in wei, with no decimal formatting or round trip.
- The range checks of the ABI and transaction encoders: a negative goal or a pre-1970 deadline where the contract expects an unsigned integer, and a negative `value` for `donateToCampaign` (a draft such as "-1", which `parseEther` turns into negative wei), make `writeContractAsync` reject before anything is sent. The contract's ABI is not part of this model, so the outcome `ok` of `FinishDonation` and `writeOk` of `Submit` stay free in those cases, and a negative donation may still be settled as a success that drops its draft; only the NaN deadline, which no integer type accepts, is modelled as a write that always fails.
- `new Date(...)` parsing and `toLocaleDateString`: the millisecond value is an input; the rounding to seconds is modelled on integers, which is exact for every valid date.
- Real asynchrony: a donation is the explicit begin and settle steps, which a caller may interleave with other events; a create-campaign submit is one step with the write's outcome as a parameter, because its success path resets the form to a constant and its failure path leaves the form untouched, so edits made during the write do not change the result.
- A failed donation-history fetch: the error flag is an input of `RenderPanel`; what the query library keeps as data after a failure is not modelled.
