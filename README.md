# Chit-auction engine: a verified model

This project models the core of a chit-fund portal. In a chit fund, members pay into a common
pot. Each month the pot is auctioned: whoever accepts the largest "loss" (discount) takes the pot.
The model covers the following parts:

- **Auction round.** A ten-minute round driven by a deadline timestamp. It has a one-second tick
  that recomputes the remaining time from the deadline and the clock. Finalization picks the winner
  and computes the final loss and the amount in hand. The minimum loss is derived from the chit
  value and the commission rate. The `canBid` rule decides who may bid.
- **Bid placement.** A sequence of guards, then a fixed increment computed from the chit value.
  The increment is applied to the current loss, and the bidder table is rebuilt: at most three rows,
  one per user, ordered by loss.
- **Settlement.** The admin sends the finished round's figures to every ledger. The ledger's first
  Active chit in the batch gets a history row and updated totals. The winner is marked, the others
  keep a bid in hand, and the round is reset.
- **Request approval.** Join Chit, New Loan, New Deposit and Registration approvals, rejections,
  and the inbox status filter.
- **Timer display.** The `MM:SS` rendering of the remaining seconds.

The modules follow the program's files:

- `AuctionRules` holds the pure rules of the shared context.
- `Settlement` is the specification of the settlement fan-out.
- `GlobalContext` is class `Store`. It holds the context's state cells, and its methods are the
  context's setters, effects and actions.
- `BidTable` holds the pure bid logic of the auction page.
- `ChitFunds` is class `ChitFundsPage`.
- `AdminAuction` holds the default settlement figures and class `AdminAuctionPage`.
- `AdminRequests` holds the ledger producers and class `AdminRequestsPage`.
- `TimerDigits` holds the timer display.
- `Types` and `Wrappers` hold the data model.

A React `setState(updater)` becomes a method that assigns the result of a pure updater function.
The lemmas are stated about that function. Effects become explicit methods, run when their
dependencies change:

- `Store.TimerEffect`, `Store.IntervalTick` and `Store.AutoFinalize`;
- the minimum-loss effect, in `Store.DeriveMinLoss`, run by `Store.SetAuctionConfig`.

The clock and generated ids and dates are parameters: `now` and `Stamp`.

JavaScript semantics are written out where they matter:

- `!endTime` holds for an absent or zero deadline.
- `x || 0` and `(b || 1) - 1` treat 0 and absent alike.
- `batchId && uid` needs present, non-empty strings.
- `Number(x) || fallback` replaces an absent or zero amount.
- `%` truncates toward zero.
- `trim` removes the JavaScript white-space set.
- `Array.prototype.sort` is stable; the model is a stable insertion sort that places the new row
  first among equal losses, which is where `[me, ...others]` puts it.

Two behaviours of the program are kept as written and proved as properties:

- **Double-counted commission.** Finalization sets `finalLoss = minLoss + top.loss`. But the current
  loss, and so every bid, already started at `minLoss`. So, whenever `minLoss + top.loss` does not
  exceed the chit value (no clamping of `monthInHand` at 0) and `minLoss` is not negative, the
  in-hand figure shown during bidding exceeds the recorded `monthInHand` by exactly the commission. See
  `BidTable.InHandExceedsSettledByCommission` and `BidTable.WorkedRound`.
- **No winner on timeout.** The tick that reaches zero marks the round finished in the same update.
  Auto-finalize only acts on unfinished rounds, and `finalizeAuction` returns a finished round
  unchanged. So a round that times out never records a winner. See
  `AuctionRules.TimeoutTickRecordsNoWinner`.

`isTop1Bidder` comes from a helper file that is not part of this model. It is taken to mean "the
table is non-empty and its first row is this user".

## Model

| member | source | states |
|---|---|---|
| AuctionRules.MinLoss | src/context/GlobalContext.tsx:236 | the minimum loss is the chit value times the commission percent, divided by 100 and rounded down (bounds on m*100) |
| AuctionRules.DerivedCurrentLoss | src/context/GlobalContext.tsx:237-240 | the derived current loss is never lower than before, is unchanged while the round runs, is at least the new minimum loss when idle, and is either the old value or the minimum |
| GlobalContext.Store.DeriveMinLoss | src/context/GlobalContext.tsx:235-241 | the effect sets minLoss from the formula and the current loss by the derivation rule |
| GlobalContext.Store.SetAuctionConfig | src/context/GlobalContext.tsx:235-241 | the new config is stored; the minimum-loss effect runs exactly when chitValue or commissionRate changed, and otherwise the round is untouched |
| AuctionRules.StartedState | src/context/GlobalContext.tsx:202-206 | starting sets the deadline to now + 600000 ms and 600 seconds left, which agree with the tick formula; nothing else changes |
| GlobalContext.Store.TimerEffect | src/context/GlobalContext.tsx:198-207 | only a running, unfinished round without a deadline gets one; every other state is left unchanged |
| AuctionRules.SecondsLeftAt | src/context/GlobalContext.tsx:211 | remaining seconds are max(0, ceil((endTime - now)/1000)): non-negative, zero exactly when the deadline has passed, with the ceiling's bounds otherwise |
| AuctionRules.CeilThousandth | src/context/GlobalContext.tsx:211 | Math.ceil(d/1000) on integers: the least q with d <= 1000q |
| AuctionRules.SecondsLeftConverges | src/context/GlobalContext.tsx:209-211 | the remaining time depends only on endTime - now and never grows as the clock advances |
| AuctionRules.SecondsLeftExact | src/context/GlobalContext.tsx:203-211 | a deadline n seconds ahead shows exactly n; a fresh deadline shows 600 |
| AuctionRules.TickedState | src/context/GlobalContext.tsx:213-218 | a tick stores the remaining seconds; at zero the same update stops and finishes the round; nothing else changes |
| GlobalContext.Store.IntervalTick | src/context/GlobalContext.tsx:209-218 | with an armed timer and a deadline, the state becomes the tick of the recomputed remaining time; otherwise nothing changes |
| AuctionRules.WinnerOf | src/context/GlobalContext.tsx:280-285 | no winner iff the table is empty; otherwise the top row wins with winnerLoss = its loss, finalLoss = minLoss + its loss and monthInHand = max(chitValue - finalLoss, 0) |
| AuctionRules.FinalizedState | src/context/GlobalContext.tsx:277-288 | a finished round is returned unchanged; otherwise the round stops, finishes and records WinnerOf |
| AuctionRules.FinalizeIdempotent | src/context/GlobalContext.tsx:279 | finalizing twice equals finalizing once, and the result is finished |
| GlobalContext.Store.FinalizeAuction | src/context/GlobalContext.tsx:277-288 | the state becomes the finalized state for the current config |
| GlobalContext.Store.AutoFinalize | src/context/GlobalContext.tsx:355-357 | finalization runs exactly when no seconds are left and the round is unfinished |
| AuctionRules.TimeoutTickRecordsNoWinner | src/context/GlobalContext.tsx:213-216 | after the tick that reaches zero, auto-finalize is not due and finalizing changes nothing, so the winner stays as it was |
| AuctionRules.FindActiveChit | src/context/GlobalContext.tsx:300 | findIndex of the first Active chit of the batch, or none when there is none |
| AuctionRules.CanBid | src/context/GlobalContext.tsx:360-370 | bidding is allowed iff there is an admin session, the id starts with "ADMIN", or the user's first Active chit in the batch has not won |
| AuctionRules.IsAdminId | src/context/GlobalContext.tsx:361 | `userId.startsWith('ADMIN')`: the id begins with "ADMIN" (defined by its body) |
| GlobalContext.Store.CanBidNow | src/context/GlobalContext.tsx:360-370 | the context's `canBid(userId, batchId)`: CanBid over the store's admin session and ledgers, whose contract states the rule |
| AuctionRules.CanBidUnderInvariant | src/context/GlobalContext.tsx:360-370 | when a ledger has at most one Active chit per batch, a user may bid iff some Active chit of the batch has not won |
| AuctionRules.FreshRound | src/context/GlobalContext.tsx:344-351 | the reset round has 600 s left, no deadline, is neither running nor finished, has no bidders and no winner, and its current loss is the floor of chitValue*rate/100 |
| GlobalContext.DefaultsAreFresh | src/context/GlobalContext.tsx:143-152 | the built-in configuration's minLoss follows the formula, and the built-in round is a fresh round |
| GlobalContext.PatchRequests | src/context/GlobalContext.tsx:263-265 | the requests keep their length and order; exactly those with the id get the patch merged |
| GlobalContext.Store.UpdateUserRequest | src/context/GlobalContext.tsx:263-265 | the request list becomes the patched list |
| GlobalContext.Store.UpdateUserFinance | src/context/GlobalContext.tsx:275 | the ledger record of the user is replaced and the others are kept |
| GlobalContext.Store.AddUser | src/context/GlobalContext.tsx:267 | the user is appended |
| GlobalContext.Store.SettleChit | src/context/GlobalContext.tsx:311-331 | the field-by-field rewrite of the chit yields exactly the settled chit |
| GlobalContext.Store.SettleUser | src/context/GlobalContext.tsx:298-338 | one pass of the loop body yields exactly the user's settled ledger |
| GlobalContext.Store.SyncAuctionResults | src/context/GlobalContext.tsx:290-352 | the loop over the user ids leaves exactly the settled store, and the round becomes a fresh round |
| Settlement.SettledFinanceScope | src/context/GlobalContext.tsx:298-338 | only the first Active chit of the batch changes; other chits, loans and deposits are unchanged; a ledger without one is unchanged |
| Settlement.SettledChitFields | src/context/GlobalContext.tsx:311-331 | history grows by exactly the row {runningMonth, monthlyPayment, Pending}; totalProfit and pendingAmount grow by the dividend and the payment; this month's figures are set; the winner is marked with bidMonth, bidAmount = totalLoss = finalLoss and one bid spent; a non-winner who has not won gets bidsInHand 1 and others keep theirs |
| Settlement.SettledChit | src/context/GlobalContext.tsx:311-331 | the settled chit as the source's spread writes it; its fields are stated independently by SettledChitFields |
| Settlement.SettledFinance | src/context/GlobalContext.tsx:303-338 | one ledger after settlement: only the first Active chit of the batch is rewritten; SettledFinanceScope states the scope |
| Settlement.SettledStore | src/context/GlobalContext.tsx:295-341 | every ledger of the store settled; SettledStoreChangesExactlyMembers states which ones change |
| Settlement.OrZero | src/context/GlobalContext.tsx:314 | a missing total counts as 0 |
| Settlement.SpendBid | src/context/GlobalContext.tsx:326 | (bidsInHand or 1) - 1: absent or 0 gives 0, otherwise one less |
| Settlement.WinnerBidsInHandNonNegative | src/context/GlobalContext.tsx:326 | the winner's bidsInHand stays non-negative when it was absent or non-negative |
| Settlement.SettledStoreChangesExactlyMembers | src/context/GlobalContext.tsx:295-341 | the same users keep a ledger, and a ledger changes iff it holds an Active chit in the batch |
| Settlement.OnlyWinnerMarked | src/context/GlobalContext.tsx:322-331 | a user who is not the winner never gains a win from the settlement |
| Settlement.SettlementKeepsOneActivePerBatch | src/context/GlobalContext.tsx:333-336 | settlement keeps a ledger at one Active chit per batch |
| BidTable.Increment | src/pages/services/ChitFunds.tsx:65 | the increment is chitValue times the percentage (in tenths of a percent) over 1000, rounded down |
| BidTable.MenuIncrementBounds | src/pages/services/ChitFunds.tsx:21 | every menu percentage gives a non-negative increment of at most 1% of the chit value, and a positive one from a chit value of 1000 up |
| BidTable.WithoutUser | src/pages/services/ChitFunds.tsx:70 | `prev.bidders.filter(b => b.userId !== activeId)` keeps no more rows than it had; its members and shape are stated by the three lemmas below |
| BidTable.WithoutUserMembers | src/pages/services/ChitFunds.tsx:69 | filtering drops exactly the user's rows: a row remains iff it was there and belongs to another user |
| BidTable.WithoutUserDistinct | src/pages/services/ChitFunds.tsx:69 | filtering a table with one row per user keeps one row per user |
| BidTable.WithoutUserSorted | src/pages/services/ChitFunds.tsx:69 | filtering a table sorted by loss keeps it sorted |
| BidTable.InsertByLoss | src/pages/services/ChitFunds.tsx:71 | one step of the stable descending sort adds exactly one row; the lemmas below state where it goes |
| BidTable.InsertByLossPerm | src/pages/services/ChitFunds.tsx:70 | inserting a row adds exactly that row (multiset) |
| BidTable.InsertByLossSorted | src/pages/services/ChitFunds.tsx:70 | inserting into a sorted table keeps it sorted non-increasing by loss |
| BidTable.InsertByLossDistinct | src/pages/services/ChitFunds.tsx:70 | inserting a new user's row into a distinct table keeps user ids distinct |
| BidTable.InsertByLossFront | src/pages/services/ChitFunds.tsx:70 | a row whose loss is at least every other loss lands in front (stability) |
| BidTable.SortByLoss | src/pages/services/ChitFunds.tsx:71 | `.sort((a, b) => b.loss - a.loss)` keeps the length; SortByLossSpec and SortByLossStable state the rest |
| BidTable.SortByLossSpec | src/pages/services/ChitFunds.tsx:70 | the sort is a permutation, is sorted non-increasing by loss and keeps ids distinct |
| BidTable.InsertByLossWithLoss | src/pages/services/ChitFunds.tsx:70 | an inserted row goes ahead of every row with its loss, and the rows of any one loss keep their order |
| BidTable.SortByLossStable | src/pages/services/ChitFunds.tsx:70 | the sort is stable: for every loss value, the rows with that loss come out in their input order |
| BidTable.TopThree | src/pages/services/ChitFunds.tsx:70 | slice(0, 3) is a prefix of length min(3, n) |
| BidTable.RankBidders | src/pages/services/ChitFunds.tsx:67-73 | the rebuilt table is never empty and has at most three rows |
| BidTable.RankBiddersLength | src/pages/services/ChitFunds.tsx:67-73 | the rebuilt table has exactly min(3, 1 + the other users' rows) rows |
| BidTable.RankBiddersSorted | src/pages/services/ChitFunds.tsx:69-70 | the rebuilt table is sorted non-increasing by loss and has distinct ids when the old one had |
| BidTable.RankBiddersMembers | src/pages/services/ChitFunds.tsx:69-70 | every row is the new row or an old row of another user, so the bidder's only row is the new one |
| BidTable.RankBiddersLeader | src/pages/services/ChitFunds.tsx:70 | a bid at least as high as every previous loss becomes the first row |
| BidTable.RankBiddersCut | src/pages/services/ChitFunds.tsx:70 | an old row of another user is dropped only when three rows with at least its loss remain |
| BidTable.BidPlaced | src/pages/services/ChitFunds.tsx:67-73 | the current loss grows by the increment, the table is the rebuilt one, and nothing else changes |
| BidTable.BidPlacedKeepsTable | src/pages/services/ChitFunds.tsx:67-73 | an accepted bid keeps the table well formed (at most 3, sorted, distinct); with a non-negative increment the table stays within the current loss and the bidder leads with the new current loss |
| BidTable.ApplyBidsMonotone | src/pages/services/ChitFunds.tsx:67-73 | over any sequence of accepted bids the current loss is the start plus the increments and never decreases |
| BidTable.BidCheck | src/pages/services/ChitFunds.tsx:38-62 | a bid is accepted iff every check passes, and each refusal reason is reported iff all earlier checks passed and its own check failed |
| BidTable.ActiveIdentity | src/pages/services/ChitFunds.tsx:41-42 | the identity is ("ADMIN", "Admin") under an admin session, otherwise the user's id and name, otherwise empty |
| BidTable.RepeatBidRejected | src/pages/services/ChitFunds.tsx:59-62 | right after an accepted bid, the same bidder's next bid is refused as already top (when eligible and running) |
| ChitFunds.ChitFundsPage.PlaceBid | src/pages/services/ChitFunds.tsx:37-74 | without a session nothing happens; a refused bid leaves the round unchanged and shows the first failing reason; an accepted one applies BidPlaced with the fixed increment |
| ChitFunds.ChitFundsPage.Verdict | src/pages/services/ChitFunds.tsx:38-62 | the page's checks in source order: a session, joined, `canBid` for the active identity and batch, running, not already top; BidCheck's contract states which reason is reported |
| ChitFunds.ChitFundsPage.NoticeExpired | src/pages/services/ChitFunds.tsx:25 | the notice timeout clears the notice |
| BidTable.SkipSpaces | src/pages/services/ChitFunds.tsx:29 | the leading run skipped is all white space and stops at a non-space or the end |
| BidTable.SkipSpacesBack | src/pages/services/ChitFunds.tsx:29 | the trailing run skipped is all white space and stops after a non-space or at the start |
| BidTable.Trim | src/pages/services/ChitFunds.tsx:29 | a non-empty trimmed string neither starts nor ends with white space, and is no longer than the input |
| BidTable.TrimCharacterized | src/pages/services/ChitFunds.tsx:29 | any cut into a white-space prefix, a middle without white space at either end, and a white-space suffix has the trimmed string as its middle |
| BidTable.TrimIdempotent | src/pages/services/ChitFunds.tsx:29 | trimming twice equals trimming once |
| BidTable.JoinedAfter | src/pages/services/ChitFunds.tsx:28-35 | the page is joined iff it was joined or the trimmed input equals the room code |
| BidTable.JoinIgnoresSurroundingSpace | src/pages/services/ChitFunds.tsx:29 | a code padded with white space on both sides still joins |
| ChitFunds.ChitFundsPage.TryJoin | src/pages/services/ChitFunds.tsx:28-35 | joined follows JoinedAfter, and the notice says joined or invalid code |
| BidTable.InHand | src/pages/services/ChitFunds.tsx:104 | in hand is max(chitValue - top loss, 0), or max(chitValue - minLoss, 0) with no bidders |
| BidTable.InHandExceedsSettledByCommission | src/context/GlobalContext.tsx:281-284 | when minLoss + the top loss is within the chit value, the in-hand figure shown while bidding exceeds the recorded monthInHand by exactly minLoss |
| BidTable.WorkedRound | src/pages/services/ChitFunds.tsx:65-73 | at 600000 and 5%, bids of 0.5% and 1% give the table [B 39000, A 33000] and the winner B with finalLoss 69000 and 531000 in hand |
| AdminAuction.FloorDiv | src/pages/admin/AdminAuction.tsx:27 | Math.floor of a quotient: the greatest q with q*b <= a for a positive divisor, the least q with a <= q*b for a negative one |
| AdminAuction.DefaultResults | src/pages/admin/AdminAuction.tsx:22-35 | finalLoss is copied; dividend = floor(finalLoss/term); the per-month share (payment + dividend) = floor(chitValue/term), for a term of either sign; none when the term is zero |
| AdminAuction.ShownMinLoss | src/pages/admin/AdminAuction.tsx:205-208 | the form's "Min Loss (Calc)" figure is floor(chitValue * commissionRate / 100) of the unsaved form values, the same rule the minimum-loss effect stores on save |
| AdminAuction.AdminAuctionPage.RefreshDefaultResults | src/pages/admin/AdminAuction.tsx:22-35 | the figures become the defaults only for a finished round with a winner |
| AdminAuction.Toggled | src/pages/admin/AdminAuction.tsx:64-66 | toggling flips running and nothing else |
| AdminAuction.ToggleRoundTrip | src/pages/admin/AdminAuction.tsx:64-66 | stop then restart restores the round, deadline included; a finished round is never armed by a toggle |
| AdminAuction.AdminAuctionPage.ToggleTimer | src/pages/admin/AdminAuction.tsx:64-66 | the round becomes its toggle |
| AdminAuction.ResetIsFreshRound | src/pages/admin/AdminAuction.tsx:49-59 | the reset round is fresh for the form's figures and the minimum-loss effect leaves it unchanged |
| AdminAuction.AdminAuctionPage.HandleResetAuction | src/pages/admin/AdminAuction.tsx:49-61 | after confirmation the form becomes the config and the round is the fresh round of the form's figures; otherwise nothing changes |
| AdminAuction.AdminAuctionPage.HandleSave | src/pages/admin/AdminAuction.tsx:43-47 | the form becomes the config (with the minimum-loss effect), the form is refreshed from it and is no longer dirty |
| AdminAuction.AdminAuctionPage.SelectBatch | src/pages/admin/AdminAuction.tsx:130-135 | the form takes the chosen id and the name of the first batch with it (or "") |
| AdminAuction.BatchName | src/pages/admin/AdminAuction.tsx:132 | the name of the first batch with the id, or "" when there is none |
| AdminAuction.AdminAuctionPage.SendToUsers | src/pages/admin/AdminAuction.tsx:293-303 | after confirmation on a finished round, the ledgers are settled for activeBatchId (or "") with the edited figures, the recorded winner's id and the form's month, and the round is reset; otherwise nothing changes |
| AdminAuction.AdminClock | src/pages/admin/AdminAuction.tsx:116 | the banner clock: unpadded minutes, ':' and the padded seconds (defined by its body); AdminClockAgreesWithTimer relates it to the room timer |
| AdminAuction.AdminAuctionPage.SyncRequest | src/pages/admin/AdminAuction.tsx:295-300 | the figures sent: the edited finalLoss, dividend and monthlyPayment, the recorded winner's id and the form's running month (defined by its body) |
| AdminAuction.AdminClockAgreesWithTimer | src/pages/admin/AdminAuction.tsx:116 | the banner clock equals the room timer from 600 s up and lacks only its leading zero below |
| TimerDigits.IntToString | src/components/TimerDigits.tsx:7-8 | `String(i)`: non-empty, starts with '-' iff i < 0, at most two characters below 100, and its digits read back to the magnitude of i |
| TimerDigits.MinutesText | src/components/TimerDigits.tsx:7 | the minutes part is at least two characters, and for s >= 0 reads back to floor(s / 60) |
| TimerDigits.SecondsText | src/components/TimerDigits.tsx:8 | the seconds part is at least two characters, and for s >= 0 exactly two that read back to s % 60 |
| TimerDigits.TimerText | src/components/TimerDigits.tsx:10 | the display is at least five characters, and for s >= 0 its third-last character is ':' |
| TimerDigits.NatToString | src/components/TimerDigits.tsx:7 | String(n) is a non-empty numeral without a leading zero, one digit iff n < 10 |
| TimerDigits.PadStart | src/components/TimerDigits.tsx:7-8 | padStart keeps the string as the suffix and fills up to the width with the pad character |
| TimerDigits.JsRem | src/components/TimerDigits.tsx:8 | JavaScript %: equals the remainder for non-negative operands and is never positive for negative ones |
| TimerDigits.SecondsTextShape | src/components/TimerDigits.tsx:8 | the seconds part is exactly two digits with a value in 0..59 |
| TimerDigits.TimerTextShape | src/components/TimerDigits.tsx:7-10 | for 0 <= s < 6000 the output has 5 characters with ':' at index 2 and two-digit minutes |
| TimerDigits.TimerTextRoundTrip | src/components/TimerDigits.tsx:7-8 | reading both parts back gives 60*mm + ss == s |
| TimerDigits.TimerTextExamples | src/components/TimerDigits.tsx:7-10 | 600 shows "10:00" and 0 shows "00:00" |
| AdminRequests.FilterRequests | src/pages/admin/AdminRequests.tsx:13 | the tab lists no more requests than there are |
| AdminRequests.FilterMembers | src/pages/admin/AdminRequests.tsx:13 | a request is shown iff it is in the list and the tab is 'All' or matches its status |
| AdminRequests.FilterAllIsIdentity | src/pages/admin/AdminRequests.tsx:13 | the 'All' tab shows the whole list in order |
| AdminRequests.FilterAppend | src/pages/admin/AdminRequests.tsx:13 | filtering distributes over concatenation, so the original order is kept |
| AdminRequests.FilterIdempotent | src/pages/admin/AdminRequests.tsx:13 | filtering twice equals filtering once |
| AdminRequests.FinanceOf | src/pages/admin/AdminRequests.tsx:35 | a user without a ledger gets the empty ledger |
| AdminRequests.AmountOr | src/pages/admin/AdminRequests.tsx:59 | Number(amount) or the fallback: absent or zero amounts give the fallback |
| AdminRequests.FindBatch | src/pages/admin/AdminRequests.tsx:37 | the result is the first batch with the id, as `find` returns; none means no batch has it |
| AdminRequests.NewChit | src/pages/admin/AdminRequests.tsx:39-52 | the opened chit's fields are fixed by its body: the batch's id, name and value, term 20, Active, not won, nothing paid, the whole value pending, the batch's subscription and dividend |
| AdminRequests.JoinApproved | src/pages/admin/AdminRequests.tsx:31-56 | only with both ids present, no chit of that batch in any status, and the batch existing: exactly one chit (NewChit) is appended to that user's chits and nothing else changes; otherwise the ledger is unchanged |
| AdminRequests.JoinApprovedIdempotent | src/pages/admin/AdminRequests.tsx:36 | approving the same Join Chit request twice gives the same ledger as once |
| AdminRequests.JoinKeepsOneActivePerBatch | src/pages/admin/AdminRequests.tsx:36-53 | a Join Chit approval keeps every ledger at one Active chit per batch |
| AdminRequests.OpenedLoan | src/pages/admin/AdminRequests.tsx:62-75 | the opened loan's fields are fixed by its body: Personal, the amount, today, 2% a month, Active, the whole amount outstanding, nothing paid |
| AdminRequests.LoanApproved | src/pages/admin/AdminRequests.tsx:57-77 | with a user id: one Active personal loan of Number(amount) or 100000 at 2% is appended, with pending principal and total equal to the amount and nothing paid; chits and deposits are unchanged |
| AdminRequests.OpenedDeposit | src/pages/admin/AdminRequests.tsx:97-106 | the opened deposit's fields are fixed by its body: the amount, today, 1.5% (as 15 tenths), nothing earned, maturing a year on, Active |
| AdminRequests.DepositApproved | src/pages/admin/AdminRequests.tsx:92-108 | with a user id: one Active deposit of Number(amount) or 50000 with nothing earned is appended; chits and loans are unchanged |
| AdminRequests.LedgerAfter | src/pages/admin/AdminRequests.tsx:29-109 | a rejection, or an approval of any other kind of request, leaves the ledger unchanged |
| AdminRequests.RegisteredUser | src/pages/admin/AdminRequests.tsx:80-88 | the new user's fields are fixed by its body: the generated id and the request's name, email and phone |
| AdminRequests.RegistrationPatches | src/pages/admin/AdminRequests.tsx:28-91 | the second patch of a registration gives the request the decision, the comment and the new user id |
| AdminRequests.AdminRequestsPage.HandleAction | src/pages/admin/AdminRequests.tsx:26-114 | without a selection nothing changes; otherwise the request gets the decision and the comment (and the new id on registration), the ledger becomes LedgerAfter, a registration appends the new user, and the dialog is cleared |

## Left out

- Persistence to browser storage, JSON parsing and the cross-tab `storage` listener: the store starts from its built-in defaults, and the last-writer-wins race between tabs is not modelled.
- Real timers: `setInterval`, `setTimeout` and `Date.now()` become explicit calls with a `now` parameter; the four-second notice timeout is `ChitFundsPage.NoticeExpired`. Generated ids and dates are inputs (`Stamp`).
- AuctionRules.MinLoss: the commission rate is an integer percent and the product is exact; floating-point `chitValue * (rate / 100)` can floor one lower for some inputs.
- BidTable.Increment: percentages are tenths of a percent and the product is exact; the floating-point product can floor differently.
- AdminAuction.DefaultResults: `chitValue / term` is a floating-point division, modelled rounded down (for either sign of the term); a zero term, for which the program computes Infinity or NaN, yields no figures and leaves the old ones in place.
- Floating-point ledger fields (`monthlyInterest`, `monthlyPayout`), the deposit rate 1.5% (kept as 15 tenths) and number-field parsing (`Number(e.target.value)`) are not modelled; `details.amount` is an optional integer, absent standing for a value `Number` cannot read.
- `isTop1Bidder` and `formatINR` live in a helper file that is not part of this model; `isTop1Bidder` is assumed to test the first row's user id.
- `joinedUsers` / `joinedUsersList` syncing, `pfLive`, forex requests, user/batch CRUD other than `addUser`, CMS configuration and the ticker are not modelled: they copy or replace fields with no rule.
- Fields of users, chits, loans and deposits that no modelled operation reads or writes (addresses, bank details, start/end dates, invoice links) are left out of the data model.
- Presentation: rendering, routing, styling, alerts and confirmation dialogs (a confirmation is a boolean input).
- Text is a sequence of characters: no Unicode normalisation; `trim` removes exactly the listed JavaScript white-space characters.
