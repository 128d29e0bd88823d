# Money and delivery core

This project models how Ralia moves a client's money and how that money buys delivery: a double-entry ledger, the campaign
that spends from it, the promoters' withdrawals, and the arithmetic and small algorithms they rest on. It proves what the
services promise together: the books close, a campaign is funded once and every kobo of its price stays accounted for, slots
are never oversold, escrow covers what may still be paid, and promoters can be paid what they were promised.

Check everything with `dafny verify dfyconfig.toml`.

## How it is laid out

- `Common` holds options, results and finite sums. `Pricing`, `Quotes`, `Schedule`, `Delivery`, `Points` and `Duplicates` are the
  calculations: slot prices and pro-rata settlement, quotes and previews, deadlines, roll-ups and missed posts, points, image hashes.
- `Ledger` is the specification of the books: what one posting does, histories of postings, the trial balance, and the shapes the
  money commands post. `LedgerServices.LedgerService` is the ledger service itself, with its tables as fields and its loops.
  `ConcurrentPosting` runs many calls of `post` a database step at a time.
- `Campaigns` gives every handler that touches a campaign as a function from rows and books to rows, books and reply, and a run as a
  sequence of handlers in any order with any arguments, other people's postings included. `CampaignDesks.CampaignDesk` is the same
  handlers in the form the services have, updating tables in place; each is proved equal to its function.
- What each handler does is stated once more from the rows alone, without the functions that define it: `CampaignHandlers`,
  `CampaignAccepts`, `CampaignDecisions` (approvals and what follows), `CampaignStatement` (funding, and what stands behind every
  transaction on an escrow account) and `CampaignSweep`.
- What is proved about campaigns beyond that is split by theme: `CampaignRows` (slots, assignments, statuses), `CampaignMoney` (conservation),
  `CampaignSolvency` and `CampaignRuns` (escrow against future pay, the bound on approvals and reopenings), `CampaignTerms` (which quote and which offer a payment goes back to, and what it credits),
  `CampaignFloors` (how many posts a slot carries, and the floor its promoter was shown), `CampaignLimits` and `CampaignShortfall` (the
  exact conditions of solvency). `CampaignTraces`, `CampaignPullTrace`, `CampaignRateTrace` and `CampaignFloorTrace` each hold one whole run.
- `Allocation` tops up offers. `ConcurrentAccepts` and `AcceptCounts` interleave many accepts with each other and with every other handler.
- `Withdrawals` is the second state machine over the ledger, and `WalletDesks.WalletDesk` its imperative form.

A row is named by its position in its table, and so is an account; that position is also the order account rows are locked in.
Amounts are whole kobo (the program uses BigInt throughout), and times are whole milliseconds. Clocks, the gateway's answer about a
card payment, rate configuration and the ranked candidate list are inputs of the handlers that use them.

## When escrow is solvent

Exposure is what a campaign may still have to pay: the posts of open slots, the posts not yet approved on every assignment that
holds a slot and is not finished, and whatever is unresolved on an assignment that lost its slot. `CampaignRuns.EscrowIsSolvent`
proves that unit price x exposure never exceeds the escrow balance, so no approval is refused for lack of funds, on runs in which
two things hold that the code does not check:

1. no post is in review on an assignment at the moment a sweep pulls it. The slot reopens for total minus approved posts, and the
   post in review stays payable as well. `CampaignSolvency.PullCostsPostsInReview` gives the exact cost,
   `CampaignLimits.PulledIsBackedExactly` the exact condition, and `CampaignPullTrace.PostInReviewIsPaidTwice` a whole run that ends
   in a refused approval without any proof ever being rejected.
2. no post is REJECTED at the moment an approval finds nothing in flight. Only PENDING and SUBMITTED posts count as in flight, so the
   campaign is finalised (or its escrow spent on new slots) while the rejected post may still be submitted again.
   `CampaignLimits.FinalisedIsBackedExactly` shows this is exactly the condition when it is finalised,
   `CampaignLimits.ReopenedIsBackedExactly` gives the condition when slots are reopened, and `CampaignTraces.RejectedPostIsStranded` is a
   run without any sweep that ends in a refused approval.

The two conditions are sufficient, not necessary: escrow may have slack. `CampaignLimits.Covered` is the exact one. It reads the rows
before the step and asks nothing of any step but two: of a sweep, that escrow covers the exposure plus the posts in review it pulls,
minus what it resolves for good; of an approval that leaves nothing in flight, that escrow covers the slots it reopens and the stranded
posts, or, when it finalises, that none is rejected. `CampaignLimits.StepIsBackedExactly` proves both directions for a step and
`CampaignLimits.RunIsBackedExactly` for a run; `CampaignLimits.CleanRunIsCovered` shows that the two conditions above imply it.

Being backed is also what keeps approvals from being refused. `CampaignShortfall.SolventNeverRunsShort` shows that covered steps never
lead from a backed campaign to a refusal for lack of funds, and `CampaignShortfall.PressedRunsShort` constructs the way to one whenever
escrow is below what can still be claimed. The two leave a gap only where part of the exposure cannot be claimed as things stand, which
`CampaignShortfall.ExposureSplits` names: missed posts beside work their promoter has not finished (only a pull would hand them on),
posts of an offer that promised no reach, and open slots of a campaign already fulfilled. Where there is none of these,
`CampaignShortfall.BackedExactly` is an equivalence.

## Where the code and its comments differ

- `accept` marks a lapsed offer EXPIRED and then throws inside the same transaction, so the mark is rolled back and the offer stays
  SENT until the next housekeeping pass (`src/modules/matching/matching.service.ts:452-455`). The model leaves the rows unchanged.
- `computeAssignmentRollup` has a last branch for a list that is neither resolved, nor outstanding, nor in review; no list reaches it
  (`Delivery.RollupReadsBack`).
- A recurring deadline is after the start only when the window gives every post at least a millisecond; otherwise the first deadlines
  fall on the start itself (`Schedule.RecurringSchedule` states both directions).
- An offer stores its fee but not its rates; an approval settles at the rates configured by then (`getSettlementConfig`,
  `src/modules/admin/admin.service.ts:484`). The fee offered is therefore what a full delivery pays only while the take rate gives the
  same fee (`CampaignTerms.FullDeliveryPaysApprovalRate`); `CampaignRateTrace.RateChangeChangesPay` is a run that offers 70 and pays 50.
- The floor the offer screen shows is for all posts the campaign asks for (`src/modules/matching/matching.service.ts:391-393`), rounded
  once, from the stored fee and the threshold at the time of viewing. The promoter delivers the posts of the slot it gets (`:479`), each
  settled and rounded by itself at the rates of its approval. `Pricing.FloorIsMetExactly` and `Pricing.FloorIsReachableExactly` say when the
  floor is always met and when it can be met at all. It is missed for three reasons:
  1. rounding. At the same rates one post misses it by at most a kobo (`Pricing.PayMeetsAdvertisedFloor`, reached in
     `Pricing.AdvertisedFloorCanMissByOne`) and n posts of n shown by at most 3n/2 (`Pricing.ManyPostsNearFloor`, reached in
     `Pricing.TwoPostsCanMissByThree`);
  2. rates. A take rate raised, or a threshold lowered, before the approval (`Pricing.RateChangeMissesFloor` misses it by ten kobo of
     thirty-five);
  3. posts. A slot reopened by pulling a promoter with approved posts carries only the rest
     (`src/modules/allocation/allocation.service.ts:260-275`), yet the next promoter is shown the floor of them all.
     `CampaignFloors.RunIsWholeExactly` proves that nothing else takes posts from a slot, `Pricing.ShortSlotNearFloor` bounds what is
     missing, and `CampaignFloorTrace.FloorIsOutOfReach` is a run in which the floor shown cannot be earned at all.

## Model

| member | source | states |
|---|---|---|
| Ledger.PostKeepsSound | src/modules/ledger/ledger.service.ts:80-162 | whatever is posted, every transaction balances, no idempotency key is used twice and no non-negative account is below zero |
| Ledger.OutcomeTellsChange | src/modules/ledger/ledger.service.ts:80-162 | a refusal or a replay leaves the books untouched; a fresh posting appends exactly itself, under a key that now has exactly one transaction |
| Ledger.FreshPostExactly | src/modules/ledger/ledger.service.ts:80-190 | a request under a new key goes through exactly when it has two legs, a key, positive balanced amounts and known accounts, and leaves no client, escrow or promoter account it touches below zero; otherwise nothing changes |
| Ledger.BalanceIsNet | src/modules/ledger/account-rules.ts:29-42 | credits less debits on every account but the bank, where it is the other way round |
| Ledger.RepeatIsAnswered | src/modules/ledger/ledger.service.ts:87-94 | a used key returns its transaction if kind, reference and total debit agree, and is refused without change otherwise |
| Ledger.RepeatsCanBeErased | src/modules/ledger/ledger.service.ts:80-94 | any history of postings ends in the same books as the history with all repeats deleted |
| Ledger.TransactionHasItsRequest | src/modules/ledger/ledger.service.ts:97-146 | every transaction a history adds is the posting of a request that was told so |
| Ledger.RepeatReturnsTheFirst | src/modules/ledger/ledger.service.ts:147-161 | an accepted repeat is answered with the transaction that an earlier request of the history created |
| Ledger.TransferGoesThrough | src/modules/ledger/ledger.service.ts:125-143 | a fresh two-legged posting is refused exactly when it is not positive or the constrained debited account cannot bear it |
| Ledger.TrialBalance | src/modules/ledger/ledger.service.ts:56-74 | bank clearing equals escrow plus promoter plus client plus revenue balances, and what is owed to others is never negative |
| Ledger.TrialBalanceOnEveryRun | src/modules/ledger/account-rules.ts:29-42 | the books close after every history of postings on empty books |
| Ledger.GroupedTotalsAreBalances | src/modules/admin/admin.service.ts:1064-1087 | entries grouped by account and direction and summed per kind give the sum of the derived balances of that kind |
| Ledger.GetOrCreateIsQuiet | src/modules/ledger/ledger.service.ts:253-266 | opening an account moves no money, changes no other balance, and asking again returns the same account |
| Ledger.LockOrderIsExact | src/modules/ledger/ledger.service.ts:83-83 | the accounts locked are exactly those of the entries, each once, ascending |
| LedgerServices.LedgerService.constructor | src/modules/ledger/account-rules.ts:29-42 | the seeded platform accounts with no transactions are sound books |
| LedgerServices.LedgerService.BalanceOf | src/modules/ledger/ledger.service.ts:56-74 | the loop over grouped rows computes the balance derived from all entries, in the account's normal direction |
| LedgerServices.LedgerService.GetBalance | src/modules/ledger/ledger.service.ts:50-54 | the derived balance, or nothing for an unknown account |
| LedgerServices.LedgerService.Validate | src/modules/ledger/ledger.service.ts:164-190 | the first thing wrong with a request: too few entries, no key, a non-positive amount, debits unequal to credits |
| LedgerServices.LedgerService.AssertReplayMatches | src/modules/ledger/ledger.service.ts:196-218 | a repeat matches exactly when kind, reference and total debit agree |
| LedgerServices.LedgerService.Post | src/modules/ledger/ledger.service.ts:80-162 | post-then-check with roll-back is the specified posting, outcome and whole new state |
| LedgerServices.LedgerService.AlreadyPosted | src/modules/ledger/ledger.service.ts:239-245 | true exactly when a transaction holds the key |
| LedgerServices.LedgerService.GetOrCreateAccount | src/modules/ledger/ledger.service.ts:253-266 | returns the account of that kind and owner, adding it only when there is none |
| LedgerServices.LedgerService.FundCampaign | src/modules/ledger/ledger.service.ts:283-303 | posts bank clearing to escrow |
| LedgerServices.LedgerService.SettleSubmission | src/modules/ledger/ledger.service.ts:350-379 | fee and take leave escrow in one posting, a zero credit dropped |
| LedgerServices.LedgerService.PayWithdrawal | src/modules/ledger/ledger.service.ts:382-402 | posts promoter balance to bank clearing |
| LedgerServices.LedgerService.ReverseWithdrawal | src/modules/ledger/ledger.service.ts:409-429 | posts bank clearing back to the promoter's balance |
| LedgerServices.LedgerService.RetainCampaignRemainder | src/modules/ledger/ledger.service.ts:439-459 | posts escrow to revenue under the campaign's own key |
| LedgerServices.LedgerService.RefundCampaign | src/modules/ledger/ledger.service.ts:462-482 | posts escrow to the client wallet under the campaign's own key |
| LedgerServices.LedgerService.Exposure | src/modules/admin/admin.service.ts:1064-1103 | the per-kind totals accumulated in the loop are the sums of derived balances, cash equals obligations plus revenue, and fully_backed is always true |
| ConcurrentPosting.StepKeepsInv | src/modules/ledger/ledger.service.ts:96-146 | every step of every interleaving keeps committed books sound, one claimant per key and one holder per account |
| ConcurrentPosting.InterleavingsAreSerial | src/modules/ledger/ledger.service.ts:80-162 | any interleaving of calls, crashes included, leaves the books of the committed requests posted one after another, each committed once |
| ConcurrentPosting.AnswersAreSequential | src/modules/ledger/ledger.service.ts:147-161 | each answer is one the serial history gives, and losing the key race is answered from the winner's transaction |
| ConcurrentPosting.NoDeadlockCycle | src/modules/ledger/ledger.service.ts:98-123 | the wait-for graph never has a cycle, because the key comes before any account and accounts are locked in order |
| ConcurrentPosting.SomeoneCanMove | src/modules/ledger/ledger.service.ts:96-146 | while a call is unanswered some call can take a step |
| ConcurrentPosting.MovesAreFinite | src/modules/ledger/ledger.service.ts:96-146 | every step that is not a wait lowers the work left |
| ConcurrentPosting.EveryoneCanBeAnswered | src/modules/ledger/ledger.service.ts:80-162 | from any reachable state all calls can be brought to an answer without a crash |
| Pricing.DivRound | src/common/pricing/pricing.ts:84-87 | the quotient rounded to the nearest integer, an exact half going up |
| Pricing.ActiveFilterCount | src/common/pricing/pricing.ts:64-76 | the counter is the size of the set of targeting dimensions that constrain anything, an age range being one dimension |
| Pricing.PriceIsTheFormula | src/common/pricing/pricing.ts:79-113 | what a slot costs: reach x rate per thousand x objective multiplier x (100 + step for each part of the targeting filled in, up to the cap), over ten million, rounded half up; refused exactly for a negative reach or an objective without multiplier |
| Pricing.ReachIsTheFormula | src/common/pricing/pricing.ts:204-216 | the reach a price buys is the same formula read the other way, nothing when it is worth nothing |
| Pricing.NarrowerIsNoCheaper | src/common/pricing/pricing.ts:79-82 | constraining more dimensions never lowers the price |
| Pricing.NeverAboveTheCap | src/common/pricing/pricing.ts:79-82 | and it never exceeds the price at the cap |
| Pricing.SplitIsExact | src/common/pricing/pricing.ts:121-129 | the fee is the share the take rate leaves, rounded half up, and the take is the rest of the price |
| Pricing.SettlementIsProRata | src/common/pricing/pricing.ts:166-195 | refused exactly for a promise, a verified reach or a gross that makes no sense; otherwise the delivered share rounded half up, split at the take rate, the remainder retained, and the threshold met exactly when verified reaches that percentage of the promise |
| Pricing.PriceReachRoundTrip | src/common/pricing/pricing.ts:96-113 | pricing a reach and reading the price back misses by at most half of scale/rate + 1, and not at all once the rate reaches the scale |
| Pricing.ReachPriceRoundTrip | src/common/pricing/pricing.ts:204-216 | the reach a price buys, priced again, misses by at most half of rate/scale + 1, and not at all while the rate is at most the scale |
| Pricing.SettlementConserves | src/common/pricing/pricing.ts:166-195 | fee + take + retained = gross, each within it; delivered gross and fee grow with verified reach and stop growing at the promise |
| Pricing.FeeWithinPrice | src/common/pricing/pricing.ts:121-129 | fee and take are both within the price they split |
| Pricing.FeeIsMonotone | src/common/pricing/pricing.ts:121-129 | a larger price never earns a smaller fee |
| Pricing.FeeFallsWithTakeRate | src/common/pricing/pricing.ts:121-129 | a higher take rate never pays more, and pays strictly less once it takes a whole kobo more |
| Pricing.ApprovedPaysThreshold | src/common/pricing/pricing.ts:166-195 | a delivery that may be approved is paid at least the rounded threshold share of its gross |
| Pricing.PayMeetsAdvertisedFloor | src/modules/matching/matching.service.ts:390-395 | while take rate and threshold stay the same from offer to approval, an approved post of a one-post offer pays at most one kobo less than the floor its detail screen shows |
| Pricing.AdvertisedFloorCanMissByOne | src/modules/matching/matching.service.ts:390-395 | the missing kobo happens |
| Pricing.FloorIsMetExactly | src/modules/matching/matching.service.ts:390-395 | for a floor shown for all posts asked and a slot of any number of posts, any stored fee, any threshold shown and any rates at approval: every approvable delivery of the slot pays at least the floor if and only if as many times the least approvable delivery, ceil(threshold x promised / 100), does |
| Pricing.FloorIsReachableExactly | src/modules/matching/matching.service.ts:390-395 | some approvable delivery of the slot pays the floor if and only if delivering every post in full does |
| Pricing.ManyPostsNearFloor | src/modules/matching/matching.service.ts:390-395 | at one pair of rates and with as many posts as the floor was shown for, n approved posts together pay at most 3n/2 kobo less than it |
| Pricing.ShortSlotNearFloor | src/modules/matching/matching.service.ts:390-395 | with fewer posts than shown, at most that, one kobo more, and the floor of the posts the slot does not carry |
| Pricing.ShortSlotMissesFloor | src/modules/matching/matching.service.ts:390-395 | five posts shown at 175 kobo, which every delivery of five pays and no delivery of two does: in full those pay 140 |
| Pricing.TwoPostsCanMissByThree | src/modules/matching/matching.service.ts:390-395 | that bound is reached: two posts, three kobo short |
| Pricing.RateChangeMissesFloor | src/modules/matching/matching.service.ts:390-395 | once the take rate rises between offer and approval the shortfall is not a matter of rounding: 25 kobo paid where 35 were shown |
| Pricing.SizeTracksReach | src/common/pricing/pricing.ts:239-250 | the slots derived from a price are the bought reach over the reach of a slot, to the nearest whole number, and at least one |
| Pricing.UnitPricesAreExact | src/common/pricing/pricing.ts:258-263 | per-post prices add up to the exact price, differ by at most a kobo, larger ones first |
| Quotes.QuoteNeverOverCommits | src/modules/campaigns/campaigns.service.ts:295-324 | slots x posts x unit is within the price, less than slots x posts kobo are left over, and the price clears the floor |
| Quotes.QuoteIsTheFormula | src/modules/campaigns/campaigns.service.ts:295-324 | what is frozen: posts priced for the reach asked of a promoter, or the category's; target = slots x reach x posts; price = slots x posts x unit, or the client's exact one over the nearest number of slots; refused exactly below the floor or without multiplier |
| Quotes.PlanAgreesWithQuote | src/modules/campaigns/campaigns.service.ts:404-433 | preview and quote agree on slots and total for the same exact price |
| Quotes.PlanAgreesOnSlots | src/modules/campaigns/campaigns.service.ts:404-433 | for the same slot count preview and quote show one per-slot cost, and agree on slots, total, reach and the floor if and only if the count is within the preview's cap |
| Quotes.MinSlotsIsLeast | src/modules/campaigns/campaigns.service.ts:404-433 | min_slots is the least number of slots whose total meets the floor |
| Quotes.BudgetIsKept | src/modules/campaigns/campaigns.service.ts:404-433 | a preview driven by a budget buys as many whole slots as the budget pays for |
| Quotes.PlanInFull | src/modules/campaigns/campaigns.service.ts:404-433 | a preview in full: what a slot costs and the total for each driver; a free slot, a negative budget or a negative count buys none, and a count is cut at ten thousand |
| Schedule.OneOffDeadline | src/modules/matching/matching.service.ts:849-859 | never after the client's end, at end - buffer exactly when that leaves the minimum runway, in the future exactly while the end is |
| Schedule.RecurringSchedule | src/modules/matching/matching.service.ts:876-902 | N deadlines indexed 1..N in order (strictly when the span is N ms or more), all after the start exactly then, the last at end - buffer |
| Schedule.DeadlinesAreFuture | src/modules/matching/matching.service.ts:889-902 | no deadline is in the past, and degenerate windows give only future deadlines |
| Delivery.RollupReadsBack | src/common/delivery/delivery.ts:24-37 | each rolled-up status tells exactly what the posts are: resolved, outstanding, in review, or all missed |
| Delivery.RollupTellsPosts | src/common/delivery/delivery.ts:24-37 | the four rolled-up statuses, each as a fact about which posts are pending, rejected, submitted, approved or missed |
| Delivery.HasConsecutiveMisses | src/common/delivery/delivery.ts:45-57 | the counting loop finds a run of missed posts in schedule order exactly when there is one of that length |
| Delivery.SortedSorts | src/common/delivery/delivery.ts:46-46 | the sorted copy is ordered by index and holds the same posts |
| Delivery.KeptIsNeverCancelled | src/modules/allocation/allocation.service.ts:214-232 | an assignment that is kept never rolls up to CANCELLED, so pulling is the only way there |
| Delivery.PullIsDue | src/modules/allocation/allocation.service.ts:208-220 | a promoter is pulled exactly when a post is left to deliver and it is the only one or two neighbours are missed |
| Delivery.OutstandingIsInProgress | src/common/delivery/delivery.ts:60-62 | work is outstanding exactly while the roll-up is IN_PROGRESS |
| Campaigns.FirstOpen | src/modules/matching/matching.service.ts:470-475 | the first open slot by id, or none |
| Campaigns.FirstOutstanding | src/modules/evidence/evidence.service.ts:56-61 | the earliest post still awaiting proof, or none |
| CampaignHandlers.CreatedInFull | src/modules/campaigns/campaigns.service.ts:66-94 | a campaign starts as a draft of its brief, one post unless recurring and then two at least, with nothing priced, counted or stored |
| CampaignHandlers.UpdateInFull | src/modules/campaigns/campaigns.service.ts:177-224 | an edit goes through exactly on a draft or quoted campaign whose dates still make sense with it; what is not given stays, and any edit costs a quoted campaign quote and price |
| CampaignHandlers.TargetingInFull | src/modules/campaigns/campaigns.service.ts:226-259 | new targeting goes through exactly on those, and costs the quote |
| CampaignHandlers.QuotingInFull | src/modules/campaigns/campaigns.service.ts:273-369 | a quote is taken exactly on those when one can be given, with its price, target and fresh open slots |
| CampaignHandlers.ReviewInFull | src/modules/admin/admin.service.ts:253-349 | review moves a campaign exactly from review to live or back to the client, and resubmission from there to review |
| CampaignHandlers.TerminalRejectionInFull | src/modules/admin/admin.service.ts:291-349 | turning a campaign down for good: refused outside review, free of money when it was never paid for, and otherwise the price goes to the client's wallet or nothing changes |
| CampaignHandlers.SendingInFull | src/modules/matching/matching.service.ts:239-352 | a batch offers, in order, each promoter once and none offered before, up to the first without a channel; it succeeds exactly on a live campaign with slots when nobody stops it |
| CampaignHandlers.OffersInFull | src/modules/matching/matching.service.ts:538-545 | declining takes exactly the promoter's own standing offer; housekeeping expires exactly those past their time |
| CampaignHandlers.SubmittingInFull | src/modules/evidence/evidence.service.ts:38-130 | a proof is taken exactly from the promoter of an assignment not CANCELLED, for the named or earliest post that waits for one |
| CampaignHandlers.RejectingInFull | src/modules/admin/admin.service.ts:766-847 | a proof is turned down exactly while it is to be judged, and its post waits again |
| CampaignAccepts.AcceptanceInFull | src/modules/matching/matching.service.ts:434-536 | succeeds exactly for the offer's promoter, while it stands, on a live campaign with the slot; writes slot, offer, counter and the slot's posts, each as offered and due as the dates ask: a lone post at the end less the buffer with a runway of up to six hours, several spread evenly up to it, or window by window when there is no usable time |
| CampaignRows.StepKeepsRows | src/modules/admin/admin.service.ts:442-764 | every handler keeps the tables consistent: a filled slot is held by exactly one assignment, a slot-holding assignment's status is the roll-up of its posts and not CANCELLED, counters count, an undecided submission is the only one for a post in review |
| CampaignRows.AcceptKeepsTables | src/modules/matching/matching.service.ts:470-532 | taking any open slot for any live offer keeps them, whichever slot was picked |
| CampaignRows.SweepOneKeepsTables | src/modules/allocation/allocation.service.ts:202-305 | so does keeping or pulling an assignment after misses |
| CampaignRows.ReopenKeepsRows | src/modules/admin/admin.service.ts:678-691 | so does opening more slots on a live campaign |
| CampaignRows.RunKeepsRows | src/modules/matching/matching.service.ts:434-536 | and so does any run of handlers |
| CampaignRuns.RowsOnEveryRun | src/modules/allocation/allocation.service.ts:262-275 | on every run from creation: slotsFilled = FILLED slots = assignments holding a slot, slot rows = slotsTotal, no slot or offer used twice, stored statuses equal to the roll-ups |
| CampaignMoney.SettleGoesThrough | src/modules/ledger/ledger.service.ts:350-379 | a fresh settlement is refused exactly when it moves nothing, has no key, or escrow cannot bear it |
| CampaignMoney.FundKeepsMoney | src/modules/admin/admin.service.ts:357-428 | funding a quoted campaign credits the price once and sends it to review |
| CampaignMoney.TerminalRejectionRefunds | src/modules/admin/admin.service.ts:305-315 | a terminal rejection is never refused, empties escrow and refunds the whole price |
| CampaignMoney.PayMovesDelivered | src/modules/admin/admin.service.ts:476-526 | paying for a post takes exactly its delivered gross out of escrow, as fee and take, and marks that post; otherwise nothing moves |
| CampaignMoney.DecideKeepsMoney | src/modules/admin/admin.service.ts:643-760 | the decision after an approval is never refused and moves money only to book a finished campaign's whole remainder to revenue |
| CampaignMoney.ForeignKeepsMoney | src/modules/ledger/ledger.service.ts:80-162 | somebody else's posting leaves this campaign's account of its money alone |
| CampaignMoney.StepKeepsMoney | src/modules/payments/payments.service.ts:109-218 | every handler keeps it: funded exactly once, and price = balance + fees + takes + retained + refund |
| CampaignMoney.PriceIsConserved | src/modules/payments/payments.service.ts:119-161 | on every run a campaign in review or beyond has been funded once with exactly its price, and every kobo of it is in escrow, fees, takes, the retained remainder or the refund |
| CampaignMoney.RefundIsNeverRefused | src/modules/admin/admin.service.ts:291-349 | on every run a campaign in review can be rejected outright and refunded in full |
| CampaignStatement.ChargeFundsExactly | src/modules/payments/payments.service.ts:109-218 | a charge changes anything exactly when the campaign is quoted at a positive price, the reference is new, and the charge succeeded, in naira, for the price; then that amount goes from the bank to escrow and review begins |
| CampaignStatement.TransferFundsExactly | src/modules/admin/admin.service.ts:357-428 | so does a recorded transfer, exactly for the amount of the price under a fresh key |
| CampaignStatement.StatementOnEveryRun | src/modules/ledger/ledger.service.ts:283-482 | on every run each transaction on a campaign's escrow account has an action behind it: a payment of exactly its price, the delivered share of a proof approved, the refund of a terminal rejection, or the remainder of a campaign that is over |
| CampaignTerms.PriceIsTheQuotedOne | src/modules/campaigns/campaigns.service.ts:273-369 | on every run, a campaign beyond a draft stands on one particular quote of the run, the last one taken: its price, target, posts and unit price (and its slots until it is live) are what that quote computed at that moment, and since then nobody requoted it or edited the quote away |
| CampaignTerms.OfferHasItsBatch | src/modules/matching/matching.service.ts:239-352 | every offer of a run was made by one particular batch of it, at the unit price and the take rate of that batch |
| CampaignTerms.PaymentCredits | src/modules/admin/admin.service.ts:476-526 | a payment raises the balance of the promoter who delivered by exactly the fee of the delivered gross at the take rate of the approval |
| CampaignTerms.ApprovalCredits | src/modules/admin/admin.service.ts:442-764 | so does the whole approval: what the campaign decides next credits nobody |
| CampaignTerms.FullDeliveryPaysApprovalRate | src/modules/admin/admin.service.ts:476-526 | on every run, a post delivered in full earns its promoter the fee of the unit price at the take rate of the approval, which is the fee offered if and only if both rates give the same fee; equal rates suffice |
| CampaignRateTrace.RateChangeChangesPay | src/modules/admin/admin.service.ts:484-490 | a run from creation in which a post offered at 70 kobo is delivered in full and, the take rate having moved from 30% to 50%, earns 50 |
| CampaignFloors.PostsFitOnEveryRun | src/modules/matching/matching.service.ts:478-521 | on every run no slot on air carries more posts than the campaign asks for, and a promoter holding one has exactly its posts |
| CampaignFloors.StepStaysWhole | src/modules/allocation/allocation.service.ts:260-275 | while every slot carries all posts, a step leaves one with fewer if and only if it is a sweep that pulls a promoter with approved posts |
| CampaignFloors.RunIsWholeExactly | src/modules/allocation/allocation.service.ts:202-275 | every slot carries all posts all along a run if and only if no sweep of it pulls a promoter part way |
| CampaignFloors.FloorOnEveryRun | src/modules/matching/matching.service.ts:390-395 | on every run, any promoter's posts, approved at the rates of its own offer, pay the floor it was shown to within 3/2 kobo a post, plus the floor of the posts its slot lacks |
| CampaignFloorTrace.FloorIsOutOfReach | src/modules/allocation/allocation.service.ts:260-275 | a run from creation with every rate unchanged: five posts asked, three approved, two missed, and the next promoter, shown a floor of 175, holds two posts that can never pay more than 140 |
| CampaignSolvency.PayKeepsBacked | src/modules/admin/admin.service.ts:476-526 | paying for a post costs at most a unit and leaves one post less to pay, so escrow still covers the rest |
| CampaignSolvency.ApprovalIsNeverShort | src/modules/admin/admin.service.ts:463-526 | on a solvent campaign a post is paid exactly when its proof is undecided, meets the threshold and earns something; escrow is never short |
| CampaignSolvency.IdleIsUnexposed | src/modules/admin/admin.service.ts:654-667 | with nothing in flight and nothing rejected, nothing more can be paid |
| CampaignSolvency.ReopenIsBounded | src/modules/admin/admin.service.ts:669-676 | reopened slots cost at most the escrow on hand, one fewer would not close the reach deficit, and they close it unless escrow does not pay for one more |
| CampaignDecisions.ApprovalInFull | src/modules/admin/admin.service.ts:442-764 | an approval pays exactly when its proof is undecided, the key fresh, the threshold met and the share positive and held in escrow; then the submission passes and a live campaign opens the right number of slots (they fit what is left, one fewer would not close the deficit, and they close it unless one more is not affordable), waits, or is over with its remainder booked |
| CampaignDecisions.NotOverWhileAffordable | src/modules/admin/admin.service.ts:669-713 | a campaign short of its reach that an approval ends could not pay for one more slot |
| CampaignDecisions.ReachIsCertified | src/modules/admin/admin.service.ts:660-667 | on every run the reach counted towards the target is exactly what the paid approvals verified |
| CampaignSolvency.DecideKeepsBacked | src/modules/admin/admin.service.ts:643-760 | reopening or finalising keeps escrow above exposure when no rejected post is left behind |
| CampaignSolvency.PullCostsPostsInReview | src/modules/allocation/allocation.service.ts:214-224 | pulling an assignment raises the exposure by exactly its posts in review |
| CampaignSolvency.SweepExposure | src/modules/allocation/allocation.service.ts:156-194 | a sweep that pulls no post in review never raises the exposure |
| CampaignRuns.StepKeepsSolvent | src/modules/admin/admin.service.ts:640-760 | every handler keeps escrow above unit price x exposure, under the two conditions above |
| CampaignRuns.EscrowIsSolvent | src/modules/admin/admin.service.ts:640-760 | on every run keeping the two conditions escrow covers the exposure and no approval is refused for lack of funds |
| CampaignRuns.ApprovalsAreBounded | src/modules/admin/admin.service.ts:476-526 | on every run, approvals x the least an approval pays never exceed the funded price |
| CampaignRuns.ReopeningCostsAnApproval | src/modules/admin/admin.service.ts:678-691 | slots are added on air only by an approval that strictly lowered escrow, and what is left covers them |
| CampaignRuns.ReopeningsAreBounded | src/modules/admin/admin.service.ts:669-691 | nor do reopenings x the least an approval pays: every step that adds slots has its own approval, so reopening ends |
| CampaignLimits.SweepExposureIsExact | src/modules/allocation/allocation.service.ts:156-194 | a sweep moves the exposure by exactly: the posts in review of every assignment that loses its slot, minus what it resolves for good on the others |
| CampaignLimits.IdleExposureIsStranded | src/modules/admin/admin.service.ts:654-667 | with nothing in flight, the exposure is exactly the rejected posts, and beside them, on assignments still holding their slot, the missed ones |
| CampaignLimits.FinalisedIsBackedExactly | src/modules/admin/admin.service.ts:708-713 | finalising with nothing in flight keeps the campaign backed if and only if no post is REJECTED (or posts are free) |
| CampaignLimits.ReopenedIsBackedExactly | src/modules/admin/admin.service.ts:678-691 | reopening keeps it backed if and only if escrow covers the new slots and the posts left stranded by rejections |
| CampaignLimits.PulledIsBackedExactly | src/modules/allocation/allocation.service.ts:252-275 | pulling keeps it backed if and only if escrow covers every post in review a second time |
| CampaignLimits.StepIsBackedExactly | src/modules/admin/admin.service.ts:640-760 | from a solvent campaign any step leaves escrow above the exposure if and only if it is covered, a condition on the rows before the step |
| CampaignLimits.RunIsBackedExactly | src/modules/allocation/allocation.service.ts:156-194 | escrow covers the exposure after every step of a run if and only if every step was covered |
| CampaignLimits.CoveredRunIsNeverShort | src/modules/admin/admin.service.ts:476-526 | on such a run no approval is refused for lack of funds |
| CampaignLimits.CleanRunIsCovered | src/modules/allocation/allocation.service.ts:214-224 | the two plain conditions above suffice: a run that keeps them has only covered steps |
| CampaignShortfall.WorkOnEveryRun | src/modules/evidence/evidence.service.ts:38-130 | on every run a CANCELLED assignment has no post awaiting proof, and every post in review has a submission still to be judged |
| CampaignShortfall.ExposureSplits | src/modules/admin/admin.service.ts:640-760 | the exposure is what can be claimed (open slots of a live campaign and unresolved posts that promised reach) plus what cannot as things stand: missed posts beside unfinished work, posts that promised nothing, open slots of a fulfilled campaign |
| CampaignShortfall.SolventNeverRunsShort | src/modules/admin/admin.service.ts:476-526 | from a solvent campaign no covered steps lead to an approval refused for lack of funds |
| CampaignShortfall.PressedRunsShort | src/modules/admin/admin.service.ts:442-764 | from one whose escrow does not cover what can be claimed, covered steps do: take every open slot, hand in every post, approve them one by one |
| CampaignShortfall.BackedExactly | src/modules/admin/admin.service.ts:442-764 | so on every run, on air with nothing beyond claiming, escrow covers the exposure if and only if no covered steps lead to such a refusal |
| CampaignTraces.RejectedPostIsStranded | src/modules/admin/admin.service.ts:654-667 | a run from creation, without any sweep, that finalises over a rejected post and later refuses its approval for lack of funds |
| CampaignPullTrace.PostInReviewIsPaidTwice | src/modules/allocation/allocation.service.ts:217-224 | a run from creation, without any rejection, that pulls an assignment with a post in review, is unbacked at once and later refuses an approval |
| CampaignSweep.SweptPosts | src/modules/allocation/allocation.service.ts:252-258 | a sweep turns MISSED exactly the pending and rejected posts past their deadline and, on an assignment it pulls, the other pending and rejected ones |
| CampaignSweep.SweepIsExact | src/modules/allocation/allocation.service.ts:156-194 | after a sweep no pending or rejected post past its deadline is left on an assignment that is neither CANCELLED nor PAID; each that was is MISSED and one NO_SHOW event; a second sweep changes nothing |
| CampaignSweep.SweptInFull | src/modules/allocation/allocation.service.ts:202-275 | everything a sweep does to an assignment, from the statuses and deadlines before it: taken off when a post lapsed and it is the only one or two neighbours are missed by now, kept and rolled up, or untouched |
| CampaignSweep.SweptSlot | src/modules/allocation/allocation.service.ts:260-275 | a slot changes only when its promoter is taken off: open again for the posts not approved |
| CampaignSweep.SweepReopensPulled | src/modules/allocation/allocation.service.ts:260-275 | exactly the slots of pulled assignments open again, each for total minus approved posts |
| Allocation.AllocationNeverOverOffers | src/modules/allocation/allocation.service.ts:70-104 | a pass never takes the outstanding offers beyond the target of the phase |
| Allocation.AllocationTopsUp | src/modules/allocation/allocation.service.ts:70-104 | with eligible candidates it tops up exactly to the target, or as far as they reach |
| Allocation.AllocationSettles | src/modules/allocation/allocation.service.ts:60-69 | once the target is met, running it again sends nothing |
| Allocation.CountersGiveOpenSlots | src/modules/allocation/allocation.service.ts:77-77 | total minus filled, which a pass goes by, is the number of open slot rows |
| Allocation.EveryOpenSlotIsOffered | src/modules/allocation/allocation.service.ts:70-104 | with enough candidates every open slot row has an offer that can still be taken, and during the head start exactly one each |
| Allocation.AllocationInFull | src/modules/allocation/allocation.service.ts:70-104 | a pass sends to the top of the ranking what is wanted beyond the offers that stand: one an open slot in the head start, half as many again after it |
| CampaignDesks.CampaignDesk.constructor | src/modules/campaigns/campaigns.service.ts:66-94 | a new campaign is a draft with no slots, offers, work or money |
| CampaignDesks.CampaignDesk.Update | src/modules/campaigns/campaigns.service.ts:177-224 | any edit costs a quoted campaign its quote; bad dates and a recurring campaign without an end are refused |
| CampaignDesks.CampaignDesk.SetTargeting | src/modules/campaigns/campaigns.service.ts:226-259 | new targeting costs a quoted campaign its quote |
| CampaignDesks.CampaignDesk.Quote | src/modules/campaigns/campaigns.service.ts:273-369 | freezes price, target and a fresh set of priced open slots |
| CampaignDesks.CampaignDesk.Resubmit | src/modules/campaigns/campaigns.service.ts:458-468 | only a rejected campaign goes back to review |
| CampaignDesks.CampaignDesk.FundByAdmin | src/modules/admin/admin.service.ts:357-428 | idempotency before state, exact amount, one posting, then review |
| CampaignDesks.CampaignDesk.SettleCharge | src/modules/payments/payments.service.ts:109-218 | the same for a verified card payment, keyed by its reference |
| CampaignDesks.CampaignDesk.ApproveCampaign | src/modules/admin/admin.service.ts:253-289 | only a campaign in review goes live |
| CampaignDesks.CampaignDesk.RejectCampaign | src/modules/admin/admin.service.ts:291-349 | a terminal rejection refunds first, the other kind holds the escrow |
| CampaignDesks.CampaignDesk.SendOffers | src/modules/matching/matching.service.ts:239-352 | the loop offers in order at the funded unit price, skips the already offered, stops at a promoter without a channel |
| CampaignDesks.CampaignDesk.Allocate | src/modules/allocation/allocation.service.ts:70-104 | sends the top of the ranked list up to what the phase lacks |
| CampaignDesks.CampaignDesk.Accept | src/modules/matching/matching.service.ts:434-536 | guards in order, then slot, offer, assignment with its scheduled posts and counter together, or nothing |
| CampaignDesks.CampaignDesk.Decline | src/modules/matching/matching.service.ts:538-545 | only the promoter's own sent offer |
| CampaignDesks.CampaignDesk.ExpireOffers | src/modules/allocation/allocation.service.ts:133-140 | exactly the sent offers past their expiry become EXPIRED |
| CampaignDesks.CampaignDesk.Submit | src/modules/evidence/evidence.service.ts:38-130 | proof for the named or earliest outstanding post; that post goes to review and the assignment is rolled up |
| CampaignDesks.CampaignDesk.RejectSubmission | src/modules/admin/admin.service.ts:766-847 | only an undecided submission; its post can be submitted again |
| CampaignDesks.CampaignDesk.ApproveSubmission | src/modules/admin/admin.service.ts:442-764 | guards in order, settlement, then rows and decision only for a fresh posting |
| CampaignDesks.CampaignDesk.Decide | src/modules/admin/admin.service.ts:643-760 | reopen, finalise with or without retaining, or wait |
| CampaignDesks.CampaignDesk.FlipOverdue | src/modules/allocation/allocation.service.ts:156-184 | the first pass turns every overdue post MISSED and counts them per assignment |
| CampaignDesks.CampaignDesk.Reconcile | src/modules/allocation/allocation.service.ts:202-305 | keeps or pulls one assignment and records one event per newly missed post |
| CampaignDesks.CampaignDesk.Reclaim | src/modules/allocation/allocation.service.ts:156-194 | both passes together are the assignment-by-assignment sweep |
| ConcurrentAccepts.NeverOversold | src/modules/matching/matching.service.ts:425-536 | any interleaving of accepts with each other, with failures and with every other handler keeps the tables right, and no slot or offer is used twice |
| ConcurrentAccepts.CommitIsAccept | src/modules/matching/matching.service.ts:487-532 | on a live campaign and an offer not yet lapsed, a commit on the locked rows is exactly what accept does alone with that slot |
| ConcurrentAccepts.CommitKeepsRows | src/modules/matching/matching.service.ts:487-532 | a commit on the locked rows keeps the tables right and the unit price as it was, whatever ran since the rows were locked |
| AcceptCounts.ExactlyMinSucceed | src/modules/matching/matching.service.ts:425-433 | with nothing aborting, N accepts of live distinct offers on M open slots succeed exactly min(N, M) times |
| AcceptCounts.SomeAcceptCanMove | src/modules/matching/matching.service.ts:441-475 | while an accept is unanswered some accept can take a step |
| AcceptCounts.MovesApproachTheEnd | src/modules/matching/matching.service.ts:441-535 | every step that is not a wait brings the accepts nearer to their answers |
| AcceptCounts.EveryAcceptCanBeAnswered | src/modules/matching/matching.service.ts:425-536 | from any reachable moment all accepts can be brought to an answer, without a failure and before any deadline |
| AcceptCounts.MinSucceedHappens | src/modules/matching/matching.service.ts:425-433 | so there is an interleaving that runs to the end, and in it exactly min(N, M) accepts succeed |
| Withdrawals.RequestIsExact | src/modules/wallet/wallet.service.ts:62-103 | a request is granted exactly up to the balance not yet asked for, and moves no money |
| Withdrawals.MovesInFull | src/modules/admin/admin.service.ts:851-1055 | what moves a withdrawal, exactly, and the one transaction that payment and reversal add, for that withdrawal, between promoter and bank |
| Withdrawals.PayIsNeverShort | src/modules/admin/admin.service.ts:900-957 | paying an approved withdrawal under a fresh key is refused only when it is for nothing |
| Withdrawals.ReverseGoesThrough | src/modules/admin/admin.service.ts:1006-1055 | reversing a paid withdrawal under a fresh key always succeeds |
| Withdrawals.WithdrawalsStayBacked | src/modules/wallet/wallet.service.ts:78-101 | on every run requested + approved amounts are within the available balance, and available + paid = fees earned |
| Withdrawals.ApprovedCanBePaid | src/modules/admin/admin.service.ts:900-957 | on every run an approved withdrawal can be paid exactly when its amount is positive |
| Withdrawals.BouncedTransferRestores | src/modules/admin/admin.service.ts:1001-1055 | payment followed by reversal restores every balance |
| Withdrawals.OtherCommandsAreBenign | src/modules/ledger/ledger.service.ts:283-482 | funding, settling, retaining and refunding never take from a promoter |
| Withdrawals.InFlightIsBacked | src/modules/admin/admin.service.ts:1057-1103 | on every run in-flight withdrawals are covered by the promoter balances, and those by cash |
| WalletDesks.WalletDesk.RequestWithdrawal | src/modules/wallet/wallet.service.ts:62-103 | bank details, minimum, then the unencumbered balance, then the row |
| WalletDesks.WalletDesk.Approve | src/modules/admin/admin.service.ts:851-894 | only a requested withdrawal of a verified promoter |
| WalletDesks.WalletDesk.RecordPaid | src/modules/admin/admin.service.ts:900-958 | idempotency before state, then the posting, then the row when the posting is fresh |
| WalletDesks.WalletDesk.Fail | src/modules/admin/admin.service.ts:965-999 | only what is still in flight, moving no money |
| WalletDesks.WalletDesk.Reverse | src/modules/admin/admin.service.ts:1006-1055 | only what was paid, with the opposite posting |
| Points.DeliveryAwards | src/modules/leaderboard/points-rules.ts:23-41 | exactly the kinds that earn something, each once and in order, with positive points |
| Points.PointsInFull | src/modules/leaderboard/points-rules.ts:23-41 | the points of each kind in whole numbers: completion and over-delivery scaled by the category's multiplier, over-delivery the base times the excess up to the capped ratio, rounded before it is scaled |
| Points.OverDeliveryIsRelative | src/modules/leaderboard/points-rules.ts:32-38 | scaling promise and views together changes no award |
| Points.OverDeliveryIsBounded | src/modules/leaderboard/leaderboard.service.ts:170-182 | before the difficulty multiplier, more reach never earns less, never more than the advertised maximum, and exactly that at the capped ratio |
| Points.ApplyCampaignCap | src/modules/leaderboard/points-rules.ts:48-62 | the loop keeps what the cap leaves room for |
| Points.KeptIsClampedPrefix | src/modules/leaderboard/points-rules.ts:48-62 | kept awards are a prefix in order, only the last cut short, adding up to min(total, room) |
| Points.CapHoldsOverApprovals | src/modules/admin/admin.service.ts:548-606 | over any series of approvals a promoter ends with exactly min(cap, everything earned) |
| Duplicates.HammingDistance | src/common/phash/phash.ts:118-131 | the bit-counting loop computes the number of differing bits; different lengths are an error |
| Duplicates.DistanceCountsBits | src/common/phash/phash.ts:118-131 | the distance is the number of places, digit and bit, at which two hashes differ |
| Duplicates.DigitIsPlace | src/common/phash/phash.ts:124-124 | a hex digit stands for its place, in either case; anything else counts as nothing |
| Duplicates.DistanceIdentifies | src/common/phash/phash.ts:117-131 | zero exactly between equal values, symmetric, at most four bits a digit |
| Duplicates.TriangleInequality | src/common/phash/phash.ts:118-131 | the distance is a metric |
| Duplicates.FindReuse | src/modules/evidence/evidence.service.ts:140-158 | the earliest artifact among the closest within the threshold, none exactly when there is none |
| Duplicates.ExactCopyIsCaught | src/modules/evidence/evidence.service.ts:153-157 | the same value uploaded again always points at an upload with that value, at or before it |

## Left out

- HTTP, authentication, notifications, audit rows, templates, mail, files and the read-only screens: they do not feed the money or the slots.
- Image decoding and the cosine transform behind a hash: the model starts from the hex hash.
- Match, capability, reliability and trust scores: floating-point ranking; allocation takes the ranked candidates as given, and a NO_SHOW is an event with no score.
- Leaderboard penalties and seasons: the per-campaign cap counts positive points only.
- Submissions without a delivery slot, `payoutSubmission`, backfill and account deletion: old or separate paths around the settlement modelled here.
- Assignment-level fee, gross and reach totals: sums of the per-post figures that settlement reads.
- `Number()` conversions of kobo and reach: exact up to 2^53, integers here.
- Campaigns.FirstOpen: "first by id" is the first row of the table; ids in the database are random, and the interleaved model shows the choice does not matter.
- Schedule.RecurringSchedule: the floating-point step is an exact fraction rounded down to a whole millisecond.
- LedgerServices.LedgerService.Post: memo and author are dropped, and a refusal for lack of funds does not say which account.
- LedgerServices.LedgerService.GetOrCreateAccount: two simultaneous first uses of one owner's account are resolved by a unique index, which is not interleaved here.
- Idempotency keys: a client's key is a UUID (`src/common/idempotency/idempotency.guard.ts:20-50`), so it is modelled as distinct from the prefixed keys the services make up.
- Overlapping sweeps or approvals, and crashes between a ledger posting and the database transaction that follows it: every such handler is one step. The sweep is single-flight (`src/modules/allocation/allocation.scheduler.ts:22-37`).
- CampaignDesks.CampaignDesk.Decline: reads and then writes without a lock; it is one step here, so its race with an accept of the same offer is not modelled.
- ConcurrentAccepts.NeverOversold: locks are held to commit, skipped rows are re-checked, and a handler of another kind waits as a whole while it would change a locked row; the database engine's details beyond that are assumed.
- CampaignDesks.CampaignDesk.Reclaim: trust events are recorded assignment by assignment in table order, where the program follows the order of its query.
- CampaignDesks.CampaignDesk.Update: editing fields that no other modelled handler reads is one flag.
