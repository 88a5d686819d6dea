# Paper exchange verification

A Dafny model of a paper trading system: an in-memory exchange that accepts, rests, fills, cancels
and expires limit orders, the hedge-book accounting and risk gate behind it, and three small stores
beside it. The model follows the code branch by branch and proves what holds of every call, every
run and every reachable state.

The exchange is modelled twice. `ExchangeModel` is a state machine: one value for the whole state,
one transition per public operation, runs as sequences of operations. `PaperExchange` holds the
exchange object, whose methods change its fields in place with the source's loops; each method is
proved to be the transition it is named after. Laws about runs are proved of the state machine and
so hold of the object. For the processing pass this is a refinement: the object iterates over a
snapshot of the order list while replacing entries of the list by id and recounting fills each time,
and the transition maps a per-order visit over the list, folds the fills into the account and
appends the events.

| file | what is in it |
|---|---|
| `Schemas` | account, order, fill and event records, their validity checks, the default account |
| `Accounting`, `BookLaws` | position books, fee debits, and the laws of books under any fills |
| `Exposure`, `PortfolioReport` | exposure figures, how far a fill moves them, the per-symbol report |
| `Pricing`, `Risk` | quotes, queue-fill probability, expected edge, order preview, the risk gate |
| `ExchangeModel`, `PaperExchange` | the state machine and the object that refines it |
| `OrderState`, `Lifecycle`, `ProgressLaws` | what orders look like, how they progress, what is never undone |
| `Transitions` | what each operation leaves behind field by field, and the flags over runs |
| `EventLog`, `Settlement`, `RunLaws` | log replay, where the account comes from, conservation and identity |
| `ExposureSafety`, `CrowdedExposure`, `SettledExposure` | exposure over runs, with one open order at a time and with any number, and where it ends once they fill |
| `Rejections` | what every reason of a record, account, preview or gate means |
| `Admission`, `RunAdmission`, `Counterexamples` | what an account and a run admit and for how long, and runs that show which hypotheses are needed |
| `Reconciliation`, `Ledger`, `MarketReplay` | venue update merging, the command ledger, the feature pipeline |
| `Sequences`, `Sums` | facts about lists that several files need |

## Where the code does less than one might hope

Each of these is a proved statement about the code as it is.

- The risk gate bounds exposure only up to drift. A fill re-marks its whole book at the fill price, so
  after an accepted fill a figure can exceed its limit by the old quantity times the price change
  (`Risk.AcceptedFillStaysWithinDrift`). A run from the flat account, never with two orders open, gets
  there (`Counterexamples.DriftIsReached`). A fill keeps a limit exactly when the figure before it, moved
  by what the target book's notional gains, is within it (`Risk.LimitKeptIff`,
  `Risk.OpeningKeepsLimitIff`).
- The gate does not count open orders: two resting orders admitted one after the other can fill to a
  leg imbalance beyond the limit (`Admission.RestingOrdersTogetherExceed`). Exactly which crowds fit: with
  one price per symbol and no close beyond what is held, resting orders keep a limit once filled if and only
  if the sum with all they are to add keeps it (`SettledExposure.RestingCrowdFitsIff`), which for opening
  orders and gross, sector and symbol exposure is size plus pending (`SettledExposure.RestingOrdersFitIff`).
  A caller who checks that room before each submit is safe in every reachable state, however many orders rest
  (`CrowdedExposure.CheckedRunsStayWithinLimits`); one order at a time needs no check
  (`CrowdedExposure.OneAtATimeIsChecked`). In any run the excess is at most what was pending when an order was
  last admitted, plus drift (`CrowdedExposure.ExposureCountsPending`).
- Two books under one symbol and side, which an account handed in from outside may hold, are both
  opened by one fill of an accepted order (`Counterexamples.SharedKeysDoubleTheFill`); the drift bound
  counts the order's notional again for every book under the key beyond the first, and `Risk.LimitKeptIff` is
  exact for such accounts too.
- Flattening renews the fee policies too. A filled order has paid its notional at the rate of its first
  fill exactly if that rate is the default one or no flatten switched the rate while it was half filled
  (`RunLaws.OrderFees`); a run in which it has not is `Counterexamples.FlattenSplitsTheFee`.
- Nothing but a reset or a flatten refreshes the account: 300 seconds after the last one every order
  is refused (`Admission.AccountGoesStale`, `Admission.AdmissionNeedsARecentRenewal`).
- A reset lifts the halt flag but not the risk state, so the halt is permanent
  (`ProgressLaws.HaltIsPermanent`), and it does not stop orders already open
  (`ProgressLaws.HaltedOrdersStillFill`).
- The venue reconciler lets a later terminal status replace a different earlier one, so arrival order
  matters exactly when an order is reported with two terminal statuses
  (`Reconciliation.OrderIrrelevantIffTerminalsAgree`).

## Model

| member | source | states |
|---|---|---|
| Risk.AcceptedFillStaysWithinDrift | services/risk/paper.py:163-186 | on any account: if the gate accepts an order and any part of it then fills at its limit price, symbol, sector, gross, absolute beta, correlated and leg-imbalance exposure each stay within their limit, plus the drift of the books the fill re-marks, plus the order's notional for every book under its key beyond the first; opening, reducing and over-closing fills alike |
| Risk.DriftBoundWithUniqueKeys | services/risk/paper.py:163-186 | where keys are unique and the target's notional is quantity times mark, that bound is the limit plus q times abs(p - m) |
| Risk.LimitKeptIff | services/portfolio/accounting.py:40-64 | on any account any fill leaves any measure within any limit if and only if its sum before, moved by the figures of the books it touches at what their notionals gain, is within it |
| Risk.OpeningKeepsLimitIff | services/portfolio/accounting.py:49-64 | on any account an opening fill keeps gross, sector or target-symbol exposure within a limit if and only if size before, plus its notional for each book under its key, plus what re-marking those books adds, is within it |
| Risk.UniqueLimitKeptIff | services/portfolio/accounting.py:40-64 | with unique keys that move is the target book's figure at what its notional gains |
| Risk.MarkedOpeningKeepsLimitIff | services/portfolio/accounting.py:49-64 | with unique keys and a marked target book that condition is size before plus x * p plus q * (p - m) |
| Risk.AcceptedFillLeverage | services/risk/paper.py:188-192 | on any account, after an accepted fill gross exposure is at most the leverage limit times collateral before the fee, plus the same drift and repeated notionals |
| Risk.RiskAccepts | services/risk/paper.py:115-207 | for every account the gate accepts if and only if account and quote validate, no kill switch is on, every exposure and the leverage fit with the whole order added, and both hedge books exist |
| Risk.GateInNumbers | services/risk/paper.py:20-207 | the gate at its default limits, every threshold in numbers, the spread in quotes and exposure in sums |
| Risk.DefaultLimitsInNumbers | services/risk/paper.py:20-35 | exposure is admitted by the default limits if and only if symbol fits 50000, sector 75000, beta 60000, leg imbalance 25000, gross 100000 and three times a positive wallet, the notional added |
| Rejections.DefaultExposureFaults | services/risk/paper.py:20-35 | each exposure reason at the default limits if and only if its figure with the notional exceeds its number |
| Rejections.GateFaults | services/risk/paper.py:115-207 | the gate gives a reason if and only if what the reason says is the case, accepts if and only if it gives none, and reports its limits |
| Risk.JudgeOrder | services/risk/paper.py:115-207 | the gate as run, with the account's validation loops, gives the specified reasons in the source's order |
| Risk.ExposureAccepts | services/risk/paper.py:163-192 | for every account no exposure reason is given if and only if every figure plus the order's notional is within its limit, beta and leg imbalance in absolute value, and leverage on positive collateral is too |
| Risk.ReportShowsSizes | services/risk/paper.py:89-112 | whatever the books hold, the reported gross, leg, sector, correlated and beta figures are the book sums the limits bound |
| Risk.FillGrowth | services/portfolio/accounting.py:40-64 | on any books a fill lifts no exposure figure by more than its notional for each book it touches plus their drift, and leaves other symbols' figures alone |
| Exposure.FillImpact | services/portfolio/accounting.py:40-64 | on any books a fill moves any figure, up or down, by at most its notional for each book it touches plus their drift |
| Exposure.FillMovesExactly | services/portfolio/accounting.py:40-64 | on any books a fill moves any figure by exactly the figures of the books it touches, at what their notionals gain |
| Exposure.FillClearsDrift | services/portfolio/accounting.py:40-64 | after a fill the target book sits at the fill price, so a second fill at that price has no drift; well-formed books and unique keys are kept |
| Exposure.ExposureIsConsistent | services/portfolio/accounting.py:101-151 | hedge ratio lies in 0 to 1 and is 1 exactly when the legs balance; leg imbalance, sector and correlated exposure never exceed gross; gross and net are the sums over all books |
| Exposure.NothingExceedsGross | services/portfolio/accounting.py:101-137 | every figure is at most gross in absolute value |
| Exposure.SidesMakeGrossAndNet | services/portfolio/accounting.py:101-137 | long plus short is the sum over all books, long minus short the signed sum |
| Exposure.ReportRatioAndBuffers | services/portfolio/accounting.py:101-151 | hedge ratio times the heavier leg is the lighter one, the liquidation buffer is wallet times liquidation distance, the margin buffer that less maintenance |
| PortfolioReport.BetaDiscountsEther | services/portfolio/accounting.py:20-27 | beta exposure is net exposure less a quarter of ether's net, on any books |
| PortfolioReport.SectorIsTheMajors | services/portfolio/accounting.py:101-137 | sector exposure is what bitcoin and ether hold on both sides, on any books |
| PortfolioReport.FourBookReport | services/portfolio/accounting.py:101-151 | the whole report of an account with the default books in their four notionals |
| ExposureSafety.ExposureStaysWithinDrift | services/paper_exchange/exchange.py:371-473 | in every run with at most one open order at a time, every reachable state keeps every measure within its default limit plus the drift noted when the last order concerned was accepted, through partial fills, cancels, expiries, flattens and resets |
| ExposureSafety.ExposureStaysWithinLimits | services/risk/paper.py:20-35 | from the default account, with a single price per symbol, every reachable state's report keeps gross, sector, correlated, beta, leg-imbalance and per-symbol exposure within the default limits |
| CrowdedExposure.ExposureCountsPending | services/paper_exchange/exchange.py:371-473 | in every run, whatever the prices and however many orders rest, each limited measure plus all that open orders may still add to it stays within its default limit, plus what was pending when an order concerning it was last admitted, plus the drift of the fills since |
| CrowdedExposure.CrowdIsAllThatExceeds | services/paper_exchange/exchange.py:371-473 | with a single price per symbol, from the default account, in any run size plus pending exceeds a limit by no more than what was pending at the last admission; which crowds fit is stated by SettledExposure.RestingCrowdFitsIff |
| SettledExposure.RestingCrowdFitsIff | services/paper_exchange/exchange.py:434-466 | in every state a one-price run from the default account reaches, for any measure and limit, opening and closing orders alike unless a close would clamp: once two passes have filled the resting orders the limit is kept if and only if the sum with all they are to add, signed, keeps it |
| SettledExposure.RestingOrdersFitIff | services/paper_exchange/exchange.py:434-466 | when the open orders all open, gross, sector and symbol exposure keep a limit once filled if and only if size plus everything pending keeps it |
| SettledExposure.CrowdFitsIff | services/paper_exchange/exchange.py:441-466 | the same if-and-only-if for any state with books and open orders at one price per symbol, shared keys included |
| SettledExposure.TwoPassesAddExactly | services/paper_exchange/exchange.py:441-466 | two passes move every measure by exactly the sum of what each open order was to add to the books under its key |
| SettledExposure.PassSettles | services/paper_exchange/exchange.py:441-457 | at every point of a pass the measure and what is still to be added come to what they came to before it |
| CrowdedExposure.CheckedRunsStayWithinLimits | services/paper_exchange/exchange.py:371-473 | with a single price per symbol, from the default account: if each admitted order concerning a measure had room beside the pending ones at its submit, every reachable state keeps the measure, with and without everything pending, within its limit, however many orders rest |
| CrowdedExposure.CheckedExposureCountsPending | services/paper_exchange/exchange.py:371-473 | with that check, at any prices and from any account within limits, only the drift of the fills since the last admission can exceed the limit |
| CrowdedExposure.CheckedRunsReportWithinLimits | services/risk/paper.py:20-35 | with the check made for every measure, every reachable state's report is within the default limits |
| CrowdedExposure.OneAtATimeIsChecked | services/risk/paper.py:163-186 | runs with at most one open order at a time satisfy the check by the gate alone |
| CrowdedExposure.StepStaysBounded | services/paper_exchange/exchange.py:210-554 | every operation keeps that bound; flatten clears the drift though open orders stay, reset clears both |
| CrowdedExposure.PassIsBounded | services/paper_exchange/exchange.py:441-466 | at every point of a pass over any open orders, size plus pending has grown by at most the drift of the fills made, each taken as it was booked |
| ExposureSafety.NoDriftIsNoted | services/portfolio/accounting.py:57-64 | with a single price per symbol every position sits at that price in every reachable state and no drift is ever noted |
| ExposureSafety.StepKeepsGuard | services/paper_exchange/exchange.py:371-473 | every operation keeps both the exposure bound and room for what the open order may still fill |
| ExposureSafety.FillKeepsAccount | services/paper_exchange/exchange.py:609-650 | a partial or full fill of the open order uses up its room: the account stays bounded and the remainder still fits |
| ExposureSafety.PassOfOne | services/paper_exchange/exchange.py:441-457 | with one open order a pass makes exactly one fill, that order's, and leaves every other order alone |
| Admission.FlatAdmission | services/paper_exchange/exchange.py:371-432 | from a flat default account an order is admitted if and only if the account is at most 300 seconds old and the order is aligned, large enough, worth at most 25000, post-only, not crossing, and beats its costs |
| Admission.StandardAdmission | services/paper_exchange/exchange.py:371-432 | with any positions, collateral and clean fee policies on default records an order is admitted if and only if it previews well, the account is at most 300 seconds old, and the gate's exposure check passes; in numbers in Admission.AdmissionInNumbers |
| RunAdmission.AdmissionOverRuns | services/paper_exchange/exchange.py:371-432 | in every run from the default account an order is admitted if and only if no panic halt has ever run, the last renewal is at most 300 seconds old, the order previews well, and with its notional the four books and the wallet stay within 50000, 75000, 60000, 25000 and three times the wallet |
| RunAdmission.RunStaysStandard | services/paper_exchange/exchange.py:609-650 | in every run the account is the default account of its last renewal but for four books and collateral |
| Admission.AdmissionInNumbers | services/risk/paper.py:20-35 | on default records with any positions and collateral, admission is a good preview, 300 seconds, and the default limits in numbers |
| Admission.DefaultAdmissionInNumbers | services/paper_exchange/exchange.py:287-432 | at default fee rates the preview is in numbers too: ticks, lots, minimum notionals, quotes and cost hurdle |
| Admission.RenewedReport | libs/schemas/exchange_state.py:483-525 | a renewed account reports nothing held and its whole wallet of 100000 as a buffer |
| Admission.DefaultUniverse | libs/schemas/exchange_state.py:418-460 | which symbols trade and with which filters |
| Admission.HedgeIsClean | libs/schemas/exchange_state.py:366-376 | the hedge check passes if and only if every executable instrument has both books, however often it is listed |
| Admission.AccountGoesStale | libs/schemas/exchange_state.py:335-377 | a default account, whatever its hedge books, collateral and clean fee policies hold, validates if and only if it is at most 300 seconds old |
| Admission.AdmissionNeedsARecentRenewal | libs/schemas/exchange_state.py:71-101 | in every run an order is admitted only while the account's last renewal is not stale |
| Admission.RestingOrdersTogetherExceed | services/paper_exchange/exchange.py:395-432 | two orders, both admitted from the flat account, fill to a leg imbalance of 39000.06 against a limit of 25000 |
| Counterexamples.DriftIsReached | services/portfolio/accounting.py:40-64 | a run from the flat default account, never with two orders open, both orders admitted, ends at a leg imbalance of exactly the limit plus the second order's drift, 30550 against 25000 |
| Counterexamples.SharedKeysDoubleTheFill | services/portfolio/accounting.py:75-98 | an account with two books under one key admits an order without drift that fills to a leg imbalance of twice the limit |
| Counterexamples.FlattenSplitsTheFee | services/paper_exchange/exchange.py:259-268 | a run from an account at rate 0.0002 in which a filled order has paid 0.975 where notional times that rate is 1.3 |
| Counterexamples.OrderFillsWhole | services/paper_exchange/exchange.py:434-466 | an order admitted onto a book with nothing open is filled by two passes exactly as by one whole fill at the maker rate |
| EventLog.LogTellsTheStory | services/paper_exchange/exchange.py:379-432 | in every reachable state replaying the log rebuilds the status of every order, the fill events naming an order number exactly its fills, and events are numbered by place |
| EventLog.PassIsLogged | services/paper_exchange/exchange.py:434-473 | at every point of a processing pass the log accounts for the orders visited so far and the orders not yet visited |
| EventLog.StepIsLogged | services/paper_exchange/exchange.py:229-277 | every operation, panic ones included, keeps log and orders in agreement; rejected submits and the positions event change no order |
| Transitions.SubmitLeaves | services/paper_exchange/exchange.py:371-432 | a submit leaves a resting order with the submitted intent, nothing filled, stamped now, or the preview's or else the gate's reasons in the log |
| Transitions.ProcessLeaves | services/paper_exchange/exchange.py:434-473 | a pass keeps places and earlier log entries and stamps every order, fill and entry it makes with its time |
| Transitions.CancelLeaves | services/paper_exchange/exchange.py:512-554 | a cancel closes the named order if open, stamped, and logs the request for a known order |
| Transitions.ExpireLeaves | services/paper_exchange/exchange.py:475-510 | an expiry closes the named order if open, stamped, and is logged only then |
| Transitions.PanicCancelLeaves | services/paper_exchange/exchange.py:229-257 | every open order is closed and stamped, with one collective entry |
| Transitions.PanicAndResetLeave | services/paper_exchange/exchange.py:210-277 | what flatten, halt and reset leave, entry and flags included |
| Transitions.FlagsTellTheHistory | services/paper_exchange/exchange.py:210-219 | in every reachable state the halt flag says whether a halt has run since the last reset, the risk state whether one ever has and nothing else |
| Settlement.AccountIsReplayable | services/paper_exchange/exchange.py:609-664 | in every reachable state the account is the last renewal with the later fills applied in order, fills are numbered 1, 2, 3 as made, and each order carries exactly the fills naming it |
| Settlement.ProcessSettles | services/paper_exchange/exchange.py:434-473 | a pass extends the history by exactly its fills, in list order |
| Settlement.StepSettles | services/paper_exchange/exchange.py:210-277 | every operation keeps account, fills and orders in agreement; flatten and reset start a new account, flatten without dropping orders |
| RunLaws.IdentifiersAreUnique | services/paper_exchange/exchange.py:620-649 | between resets order ids, event ids and fill ids, all derived from list lengths, are pairwise distinct, and fill numbers are exactly 1 to N over all orders |
| RunLaws.FillIdsAreExact | services/paper_exchange/exchange.py:620-622 | whenever orders carry exactly the fills of a numbered history, a fill id names one place and none is skipped |
| RunLaws.CollateralIsConserved | services/portfolio/accounting.py:67-98 | in every reachable state wallet and available balance are those of the last renewal less all fees charged since; other assets are untouched |
| RunLaws.WalletPaysForTurnover | services/portfolio/accounting.py:67-98 | over any run from the default account wallet and available balance are 100000 less 0.0001 of the notional traded since the last renewal |
| RunLaws.OrderFees | services/paper_exchange/exchange.py:615-650 | in every reachable state an order has paid exactly its filled notional at the rate of its first fill, unless the rate switched while it was half filled, then one half at each rate; a filled order has paid its notional at its first rate if and only if that rate is the default one or no flatten switched it in between |
| RunLaws.EveryFillFee | services/paper_exchange/exchange.py:618-630 | every fill of every run was charged exactly its notional at the starting rate before the first flatten, and at the default rate from then on or after a reset |
| RunLaws.FlattenMidOrder | services/paper_exchange/exchange.py:259-268 | from every state with a new order not better than the touch: pass, flatten, pass leaves it filled, having paid one half at each rate, which is notional times the first rate if and only if that is the default one |
| RunLaws.BooksOverRuns | services/portfolio/accounting.py:30-64 | in every reachable state each book keeps its key and is unchanged if no fill touched it; it holds the closed-form clamped quantity if it started non-negative, satisfies the entry-price and notional invariants if it started so, as every renewed book does, and its notional is right from its first fill on |
| RunLaws.FillsArePositive | services/paper_exchange/exchange.py:615-617 | every fill ever made has positive quantity and price |
| BookLaws.ClampedQuantity | services/portfolio/accounting.py:40-55 | clamping at zero step by step gives S_n minus the least of 0 and the prefix sums S_k of signed fills |
| BookLaws.LeastIsLeast | services/portfolio/accounting.py:48-51 | the subtracted term is a lower bound of zero and every prefix sum, and is one of them |
| BookLaws.FillSplits | services/portfolio/accounting.py:40-98 | two fills at one price leave exactly the account one fill of their sum leaves: quantity, entry, mark, notional and collateral |
| BookLaws.BlockIsOneFill | services/portfolio/accounting.py:40-98 | any number of fills at one price leave exactly the account of the joined fill |
| BookLaws.OpeningOrderIsIrrelevant | services/portfolio/accounting.py:49-56 | a block of opening fills gives the same quantity and entry price in every order |
| BookLaws.EntryPriceInvariant | services/portfolio/accounting.py:52-58 | over any fills the entry price is zero exactly when the book is flat and otherwise lies between two opening prices paid since it was last flat |
| BookLaws.NotionalInvariant | services/portfolio/accounting.py:57-64 | over any fills the notional is quantity times mark, with both non-negative |
| Accounting.BooksAreIndependent | services/portfolio/accounting.py:75-98 | fills keep every book's place, symbol and side; what other books hold does not matter to it, and an untouched book is unchanged |
| Accounting.OpeningFill | services/portfolio/accounting.py:40-64 | buying long or selling short adds quantity and cost; the book is marked at the price with no open profit |
| Accounting.ClosingFill | services/portfolio/accounting.py:40-64 | selling long or buying short closes to zero at most and keeps the entry price of what is left |
| Accounting.FillOnAccount | services/portfolio/accounting.py:67-98 | a fill changes only the books under its key, the first asset's balances by its fee, and clears the open profit |
| Accounting.CollateralPaysTheFees | services/portfolio/accounting.py:67-98 | the first asset pays the sum of all fees in both balances; other assets pay nothing |
| Accounting.FillsKeepTheRest | services/portfolio/accounting.py:93-98 | fills never change metadata, fee policies, freshness, margin mode or the number of books and assets |
| Accounting.ApplyFillsAppend | services/portfolio/accounting.py:75-98 | applying fills in two batches is applying them in one |
| Lifecycle.RunKeepsOrders | services/paper_exchange/exchange.py:371-554 | in every reachable state an order's filled quantity is the sum of its fills, fills are on the order's own terms, it fills whole or in two exact halves, and its id is its place |
| Lifecycle.FilledQuantityByStatus | libs/schemas/paper_trading.py:250-263 | new means nothing filled, partially filled strictly between, filled if and only if exactly full; at most two fills, never beyond the quantity |
| Lifecycle.PassIsAMap | services/paper_exchange/exchange.py:441-466 | after a pass each order is what visiting it alone leaves of it |
| Lifecycle.PassProgress | services/paper_exchange/exchange.py:441-466 | every order is visited once: closed orders are unchanged, open ones advance to the status their placement determines |
| Lifecycle.VisitOpen | services/paper_exchange/exchange.py:442-457 | an open order gets one fill, of the whole if new and better than the touch, else of exactly half the original quantity |
| Lifecycle.FillQuantityOfOpen | services/paper_exchange/exchange.py:446-457 | what remains never truncates that amount |
| Lifecycle.ClosedPassIsIdle | services/paper_exchange/exchange.py:442-443 | a pass over closed orders makes no fill and no event |
| Lifecycle.AdmittedIntent | services/paper_exchange/exchange.py:387-395 | every admitted order has a quote, positive quantity and price, and an executable symbol |
| ProgressLaws.TwoPassesComplete | services/paper_exchange/exchange.py:441-457 | two passes from any reachable state leave no open order, and a third changes nothing at all |
| ProgressLaws.FirstPass | services/paper_exchange/exchange.py:446-457 | one pass completes exactly the orders better than the touch or already half filled; the others are left half filled |
| ProgressLaws.ClosedOrdersAreFrozen | services/paper_exchange/exchange.py:371-554 | until the next reset the order list only grows, orders keep id, terms and past fills, and a closed order never changes again |
| ProgressLaws.HaltIsPermanent | services/paper_exchange/exchange.py:210-227 | after a panic halt no sequence of operations, resets included, ever adds an order |
| ProgressLaws.PanicVetoes | services/risk/paper.py:132-133 | the panic risk state alone vetoes every submit |
| ProgressLaws.HaltedOrdersStillFill | services/paper_exchange/exchange.py:434-457 | an order open at the halt still gets a fill from the next pass |
| PaperExchange.LoopTurn | services/paper_exchange/exchange.py:441-457 | filling the snapshot's k-th order in place takes the state with k orders visited to the state with k + 1 visited, and returns that order as it then stands: no update is lost, repeated or stale |
| PaperExchange.MidwayEnds | services/paper_exchange/exchange.py:441-466 | with no order visited that state is the one before the pass, with all visited it is the mapped and folded result |
| PaperExchange.NextFillNumber | services/paper_exchange/exchange.py:620-622 | recounting all fills in the middle of a pass gives the count before it plus the fills made so far |
| PaperExchange.MidwaySettles | services/paper_exchange/exchange.py:441-466 | an order visited in a pass is not touched again by it, and one not yet visited is as it was |
| PaperExchange.FillIsVisit | services/paper_exchange/exchange.py:609-664 | an in-place fill does to its order what visiting that order alone does, and does nothing for a non-positive quantity |
| PaperExchange.AcceptedHasQuote | services/paper_exchange/exchange.py:392-394 | the error for an accepted preview without a quote cannot be raised |
| PaperExchange.InMemoryPaperExchange.constructor | services/paper_exchange/exchange.py:185-199 | a new exchange has no orders and no events, and is valid |
| PaperExchange.InMemoryPaperExchange.PreviewOrder | services/paper_exchange/exchange.py:287-369 | returns the preview of the state machine, whose contents are in Pricing.PreviewAccepts, Pricing.PreviewCarries and Rejections.PreviewFaults, and changes nothing |
| PaperExchange.InMemoryPaperExchange.CheckInstrument | services/paper_exchange/exchange.py:301-319 | the instrument's reasons, by the first metadata entry of the symbol |
| PaperExchange.InMemoryPaperExchange.CheckFee | services/paper_exchange/exchange.py:321-331 | the fee policy's reasons, and the policy or its stand-in |
| PaperExchange.InMemoryPaperExchange.SubmitOrder | services/paper_exchange/exchange.py:371-432 | is the submit transition; accepted exactly when admitted, which is in numbers in RunAdmission.AdmissionOverRuns, with the new order, otherwise the reasons; the reply carries the preview, the gate's verdict if it was asked, and the event logged |
| PaperExchange.InMemoryPaperExchange.FillOrder | services/paper_exchange/exchange.py:609-664 | replaces the order by id, books the fill and logs it |
| PaperExchange.InMemoryPaperExchange.ProcessOpenOrders | services/paper_exchange/exchange.py:434-473 | the loop over a snapshot ends in the state that maps the orders and folds the fills; it returns one row for each open quoted order, in the numbers of PaperExchange.RowsInNumbers |
| PaperExchange.RowsInNumbers | services/paper_exchange/exchange.py:458-466 | the rows are of the open orders in list order, each with id, status and filled quantity after the pass, what then remains, and its probability in numbers |
| PaperExchange.ClosedGetNoRow | services/paper_exchange/exchange.py:442-443 | filled, canceled and expired orders get no row |
| PaperExchange.InMemoryPaperExchange.ExpireOrder | services/paper_exchange/exchange.py:475-510 | is the expire transition; unknown, closed and expired are told apart |
| PaperExchange.InMemoryPaperExchange.CancelOrder | services/paper_exchange/exchange.py:512-554 | is the cancel transition; logged for every known order, reported canceled only if it was open |
| PaperExchange.InMemoryPaperExchange.PanicCancelOpenOrders | services/paper_exchange/exchange.py:229-257 | closes every open order, counts them, logs one event |
| PaperExchange.OpenCountIs | services/paper_exchange/exchange.py:229-241 | the count reported is the number of orders that were open |
| PaperExchange.InMemoryPaperExchange.PanicFlattenPositions | services/paper_exchange/exchange.py:259-277 | renews the account, keeps the orders, logs one event |
| PaperExchange.InMemoryPaperExchange.Halt | services/paper_exchange/exchange.py:217-227 | sets the halt flag and the panic risk state and nothing else |
| PaperExchange.InMemoryPaperExchange.ResetAll | services/paper_exchange/exchange.py:210-215 | renews the account, drops orders and events, lifts the halt flag, keeps the risk state |
| Pricing.PreviewAccepts | services/paper_exchange/exchange.py:287-369 | a preview is accepted if and only if the exchange runs, records and quote are in order, quantity and price are positive and aligned, the notional is large enough, the order is post-only and does not cross, and alpha beats the cost hurdle |
| Pricing.PreviewCarries | services/paper_exchange/exchange.py:287-369 | whatever the verdict, the preview carries the intent, whether it would cross the quoted book, and the edge in money at the first fee policy of the symbol and the quoted funding, with the stand-ins where there is none |
| Rejections.PreviewFaults | services/paper_exchange/exchange.py:287-369 | a preview gives a reason if and only if what the reason says is the case |
| Rejections.InstrumentFaults | services/paper_exchange/exchange.py:301-319 | the same of the instrument's part, by the first metadata entry of the symbol |
| Pricing.ProbabilityByPlacement | services/paper_exchange/exchange.py:126-148 | with positive sizes the probability lies strictly between 0.17 and 0.93 so the clamp never binds; better than the touch always reaches the full-fill threshold, behind it never does |
| Pricing.ProbabilityInSizes | services/paper_exchange/exchange.py:126-148 | for any positive sizes: probability less 0.78, 0.58 or 0.32, by limit price against the own-side touch, times depth, is 0.15 of far size less own size |
| Pricing.ThresholdsInSizes | services/paper_exchange/exchange.py:441-457 | at the touch an order fills whole at once exactly when 15 (far - own) is at least 2 depth; behind it, half exactly unless 15 (own - far) exceeds 7 depth |
| Pricing.ProbabilityIsClamped | services/paper_exchange/exchange.py:147-148 | for any sizes that do not cancel out, the probability is that number cut to 0.05 and 0.95 |
| Pricing.BuiltInProbabilityInNumbers | services/paper_exchange/exchange.py:73-97 | under the built-in quotes: bitcoin 0.0075 less for buys and more for sells, ether 0.9 parts in 174 |
| Pricing.BuiltInProbability | services/paper_exchange/exchange.py:73-97 | with the built-in quotes every order reaches the half-fill threshold, and exactly those better than the touch the full-fill threshold |
| Pricing.BuiltInQuotes | services/paper_exchange/exchange.py:73-97 | only BTCUSDC and ETHUSDC are quoted, marked at the mid, fresh, with their spread, funding and volatility |
| Pricing.EdgeIsScaleFree | services/paper_exchange/exchange.py:151-182 | whether the edge is positive depends only on alpha against fees, slippage, funding and adverse selection in basis points, not on size |
| Pricing.EdgeInMoney | services/paper_exchange/exchange.py:151-182 | every field of the edge: notional times its rate, basis points over 10000, and the edge is gross less all five costs |
| Pricing.EdgeAgainstHurdle | services/paper_exchange/exchange.py:165-172 | 10000 times the edge is quantity times price times alpha less the hurdle |
| Pricing.EdgeDoubles | services/paper_exchange/exchange.py:151-182 | doubling the quantity doubles every field |
| Pricing.SpreadInBps | libs/schemas/paper_trading.py:54-77 | spread in basis points times the sum of quotes is 20000 times their difference, and zero without a positive mid |
| Pricing.IsMultipleMeansWholeSteps | services/paper_exchange/exchange.py:114-117 | the alignment check holds if and only if the step is positive and the value is a whole number of steps |
| Pricing.FindMetadata | services/paper_exchange/exchange.py:100-104 | finds the first metadata entry of the symbol, if any |
| Pricing.MetadataForIsFirst | services/paper_exchange/exchange.py:100-104 | what is found is in the list, of the symbol, with none of the symbol before it; nothing is found only if none is there |
| Pricing.FindFee | services/paper_exchange/exchange.py:107-111 | finds the first fee policy of the symbol, if any |
| Pricing.FeeForIsFirst | services/paper_exchange/exchange.py:107-111 | the same of fee policies; the charged rate is the policy's maker rate, and zero without one |
| Schemas.ValidateAccount | libs/schemas/exchange_state.py:335-377 | collects the account's errors and those of all its records in the source's order, a missing hedge book once per executable symbol |
| Rejections.AccountFaults | libs/schemas/exchange_state.py:335-377 | an account gives an error if and only if it is its own fault, one of its records', or a hedge book missing for an executable symbol |
| Rejections.MetadataFaults | libs/schemas/exchange_state.py:220-250 | an executable instrument must trade, in USDC, with filters, and others carry none, each fault with its own reason |
| Rejections.FilterFaults | libs/schemas/exchange_state.py:178-204 | each filter fault has its own reason |
| Rejections.FeeFaults | libs/schemas/exchange_state.py:301-322 | fees are not negative and a zero maker fee needs a promotion in force, each fault with its own reason |
| Rejections.PromotionFaults | libs/schemas/exchange_state.py:267-288 | a promotion has an end, is reviewed before it, approved, not expired, with a fallback not negative |
| Rejections.FreshnessFaults | libs/schemas/exchange_state.py:71-101 | a record is stale exactly when received longer ago than its age limit, and faulty when its source is later than its receipt |
| Rejections.ExecutableSymbolsAre | libs/schemas/exchange_state.py:366-376 | the executable symbols are collected once each |
| PortfolioReport.BuildSymbolExposure | services/portfolio/accounting.py:154-176 | the dictionary loop yields one row per symbol held, with that symbol's long, short, gross and net totals |
| PortfolioReport.ReportAddsUp | services/portfolio/accounting.py:101-176 | the rows cover exactly the symbols held and their columns sum to the portfolio's long, short, gross and net exposure |
| PortfolioReport.RowOfSides | services/portfolio/accounting.py:154-176 | each row is its symbol's long and short notionals, their sum and their difference |
| PortfolioReport.RowIsSymbolExposure | services/risk/paper.py:89-94 | a row's gross figure is the symbol exposure the risk gate limits |
| Reconciliation.MonotonicOrderReconciler.Apply | services/execution/reconciliation.py:93-121 | accepted if and only if the stored statuses change; only the update's own order changes, and its rank never drops; what the verdict says is in Reconciliation.VerdictMeans |
| Reconciliation.VerdictMeans | services/execution/reconciliation.py:93-121 | a repeat of the stored status is a duplicate; new after anything else, or partially filled after a terminal status, is regressive; the rest is accepted; the previous status is the stored one |
| Reconciliation.FinalIsClosedForm | services/execution/reconciliation.py:96-121 | for any updates an order ends at its last terminal status if any, else partially filled if seen, else new if seen |
| Reconciliation.StoredRankIsHighest | services/execution/reconciliation.py:20-27 | an order is stored if and only if reported; its status was reported and none reported ranks higher |
| Reconciliation.OthersDoNotInterfere | services/execution/reconciliation.py:96-121 | an order's status depends on its own updates alone |
| Reconciliation.AgreeingReportsConverge | services/execution/reconciliation.py:96-121 | when terminal reports agree, any two sequences reporting the same statuses, in any order and with any repeats, end equal |
| Reconciliation.OrderIrrelevantIffTerminalsAgree | services/execution/reconciliation.py:96-121 | every permutation ends equal if and only if no order is reported with two different terminal statuses |
| Reconciliation.LateTerminalWins | services/execution/reconciliation.py:104-121 | a terminal update that arrives last decides its order's status, over earlier terminal ones |
| Ledger.InMemoryCommandLedger.RecordReceived | services/audit/ledger.py:64-102 | through the dictionary it behaves as a linear scan of the list: new keys append, a same request is flagged duplicate, a conflicting one or an empty key fails, and neither changes anything |
| Ledger.InMemoryCommandLedger.RecordDecision | services/audit/ledger.py:104-116 | replaces the entry in place; an unknown id changes nothing |
| Ledger.InMemoryCommandLedger.RecordCompleted | services/audit/ledger.py:118-119 | as above, keeping the audit reference |
| Ledger.InMemoryCommandLedger.Replace | services/audit/ledger.py:127-150 | list and dictionary are overwritten together and stay in agreement |
| Ledger.IndexIsScan | services/audit/ledger.py:76-101 | dictionary lookup by key equals a linear scan of the entries |
| Ledger.IdentityNeverChanges | services/audit/ledger.py:127-150 | over any run the ledger only grows, and id, key, type, actor, fingerprint, runtime and creation time of an entry never change |
| Ledger.ReceivesAreIdempotent | services/audit/ledger.py:76-85 | an entry once stored is returned as a duplicate for its own request and refused for another after any later operations, and the ledger is unchanged |
| Ledger.NewKeysGetIn | services/audit/ledger.py:87-102 | a command under an unused key is appended as the last entry, recorded field by field: id, key, type, actor, fingerprint, runtime, received, no audit reference, created and updated now, no duplicate |
| Ledger.ReceivedCommandsComeBack | services/audit/ledger.py:64-102 | the round trip: after a command is received and anything else happens, receiving its key again with the same type and fingerprint replies with the first command's own fields flagged as a duplicate, with another type or fingerprint a conflict, and changes nothing |
| Ledger.EmptyKeysAreRefused | services/audit/ledger.py:73-74 | without a key nothing is recorded |
| Ledger.ReplacementRecords | services/audit/ledger.py:127-150 | a replacement sets status and update time, and the audit reference if one is given, of that entry alone |
| Ledger.UnknownIdsAreRefused | services/audit/ledger.py:134-150 | an unknown id is refused and changes nothing |
| MarketReplay.GroupByTime | services/market_data/replay.py:295-316 | the one-pass grouping holds exactly the timestamps that occur, each with the quadratic regrouping of its rows |
| MarketReplay.GenerateFeatures | services/market_data/replay.py:295-316 | succeeds if and only if no row divides by zero, and each feature is that of its snapshot, the nearest earlier snapshot of the same symbol, and its timestamp's group |
| MarketReplay.ComputableMeans | services/market_data/replay.py:224-292 | a row fails if and only if its depth sums to zero or, with both legs at its time, the latest bitcoin row has no bid, ask or mid |
| MarketReplay.MadeSynthetics | services/market_data/replay.py:295-316 | a feature carries a synthetic if and only if both legs have a row at its time, derived from the latest ether row over the latest bitcoin row |
| MarketReplay.LastOfIsNearest | services/market_data/replay.py:303-315 | the previous snapshot used is the last earlier one of the symbol, absent exactly if there is none |
| MarketReplay.AtTimeHoldsLatest | services/market_data/replay.py:298-301 | a group holds for each symbol the last row of that time and symbol, and no other symbols |
| MarketReplay.TimesAreDistinct | services/market_data/replay.py:326-340 | the payload visits each timestamp that occurs exactly once |
| MarketReplay.PayloadMatchesFeatures | services/market_data/replay.py:319-340 | the payload's regrouping is the list of synthetics the features carry, each timestamp's once, in order of first appearance |
| MarketReplay.FirstSyntheticsAreAll | services/market_data/replay.py:319-340 | that list holds a synthetic if and only if some feature carries it |
| MarketReplay.ReturnsTelescope | services/market_data/replay.py:245-270 | with positive mids, compounding a symbol's per-row returns takes its first mid to its last |
| MarketReplay.GeneratedReturnsTelescope | services/market_data/replay.py:295-316 | so do the returns of the features the pipeline makes |
| MarketReplay.SyntheticIsOrdered | services/market_data/replay.py:224-242 | for properly quoted legs the synthetic has 0 < bid <= mid <= ask |
| MarketReplay.MicropriceTiltsTheMid | services/market_data/replay.py:245-270 | with positive depth microprice is mid plus imbalance times half the spread, and slope minus imbalance |
| MarketReplay.FeatureInFigures | services/market_data/replay.py:245-292 | each figure in the row's quotes and sizes: imbalance and slope times depth are the size differences, microprice times depth is ask by bid size plus bid by ask size, aggression times traded is buys less sells, volatility the size of the return, 0.01 off per millisecond, the rest the row's own |
| MarketReplay.MadeInFigures | services/market_data/replay.py:295-316 | every feature the pipeline makes has those figures, its return in basis points of the nearest earlier mid of its symbol |
| MarketReplay.MicropriceIsBetween | services/market_data/replay.py:257-261 | with sizes not negative the microprice lies between bid and ask |
| MarketReplay.FeatureWithoutDepth | services/market_data/replay.py:252-280 | without positive depth there is no imbalance and the microprice is the mid, but the slope is still divided by depth |
| MarketReplay.SyntheticInLegs | services/market_data/replay.py:224-242 | the synthetic's quotes are the ratios across the legs' books, its time the later one, its skew the whole milliseconds between arrivals, stale from 251 on |
| MarketReplay.FixturesAreQuoted | services/market_data/replay.py:139-169 | the built-in fixture is three seconds of both legs, properly quoted, with its mids |

## Left out

- Decimal rounding: decimals are exact reals, so the 28-digit context of the source is abstracted away.
- Text: ids are the numbers they are formatted from, symbols are the four of the default universe or any
  other name, each error or reason text is one constructor; decimal and timestamp formatting is not modelled.
- Clocks: the current time is an argument. Cancel and flatten read the clock twice and take two. Times are
  whole microseconds; time zones and naive datetimes are not modelled.
- Persistence: saving the state is a no-op. Public dictionaries are the records themselves; the summary
  payload is not modelled.
- Fields nothing computes with: account id, venue target, margin mode, the account's list of open orders,
  and labels for sources, liquidity and venue symbols.
- Hedge-book errors: the source iterates a set of symbols, so their order is unspecified there; the model lists
  them in order of first appearance.
- Reason lists without loops (instrument filters, kill switches, exposure checks, maker-first policy) are written as concatenated
  conditions in the source's order instead of appends.
- Float arithmetic in the leg skew: the source turns seconds into milliseconds through a float and cuts off, so a
  difference of 1001 ms gives 1000 there; the model counts whole milliseconds exactly.
- Errors raised by the ledger, and divisions by zero in the feature pipeline, are reply values.
- Payload fingerprints are arguments; hashing is not modelled.
- Feature rows carry the whole synthetic where the source copies its mid, spread and skew, and queue imbalance,
  a second copy of the book imbalance, is dropped.
- Parsing of records from mappings and venue payloads, and loading of replay files.
- Daily loss, drawdown and order-rate counters: the exchange never updates them, so only the gate's own
  conditions on them are stated.
- Reduce-only: the flag is carried on the order but, as in the source, nothing reads it.
- Risk.AcceptedFillStaysWithinDrift: asks for a positive limit price, which the preview before the gate checks.
- CrowdedExposure.ExposureCountsPending: asks that the starting account have unique keys and marked notionals and be
  within limits, as the default account is; every later account is.
- SettledExposure.RestingCrowdFitsIff: asks that no book be closed beyond what it holds, as the amount a clamped close
  takes depends on the order of fills; `CrowdedExposure.ExposureCountsPending` bounds those runs.
- ExposureSafety.ExposureStaysWithinDrift: asks for at most one open order at a time, for a bound known at admission;
  `CrowdedExposure.ExposureCountsPending` is the bound without that.
- HTTP servers, command line, web frontend, venue client, secrets, runtime gates, model governance, strategies
  and backtests.
