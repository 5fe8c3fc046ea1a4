# Proofs about the options-trading bot

A Dafny model of `dhan_cas_bot`: its durable order protocol, the capital it may commit, the owners of
positions and signals, and the feed and admission machinery around them. `dafny verify dfyconfig.toml`
checks the whole project.

## What is modelled

**Orders.** `Ledger` holds the SQLite tables as values, with one function per committed transaction, and
the class `Store` that updates them in place. `Orders` is the protocol of `OrderManager` together with
`AccountRefresh`, as a state machine: every stretch of code between two awaits is one event, a crash may
fall between any two commits, drops everything volatile and keeps the tables, the broker and any request on
the wire. The broker accepts a POST with or without a response, fills in parts, and ends orders; it never
misreports identity and a terminal report is final, nobody else trades the account, and positions are read
from the broker at one moment of a batch. A published batch leaves its positions and revision as the held
snapshot. `OrderManager` has the imperative bodies of `submit`, `reconcile` and the refresher, proved to do
what the state machine says. `OrderSafety` has the invariant kept by every event, `OrderTheorems` and `Fence`
what follows over all runs. `Submitting` and `Reconciling` say when a request goes out and what an answer or a
batch leaves in the tables. `Executions` follows trades from the exchange through the reports into the ledger.

**Capital.** `Fees`, `Risk` and `Search` are the fee envelopes, the ceiling, and the searches for a quantity
or a price. `Capital` is `lifecycle_totals`; `CapitalSafety` and `TradeTruth` prove that the totals stay
under the ceiling and the mandate cap on every run of the order protocol. Money is real-valued, with the
roundings to paise and rupees written out. Those results assume of the broker: buys execute at or below their
limit, fees of trades and order charges stay inside the envelope, a trade report that names a trade names one
that happened, and the row an order is resolved on states its filled quantity, says traded, or belongs to an
order with no fill. That recorded fills are real and fairly priced follows (`Executions.RecordedIsReal`); the
assumption on rows is needed, and `TradeTruth.ExactIffStated` shows it is exactly what makes a row safe to
resolve on. The allocation of an entry is computed on an earlier state than the one it is committed in, with no
other managed entry between.

**Owners.** `Lifecycles` puts the engine's lock and its steps on top of the order protocol;
`LifecycleSafety` proves one open lifecycle, one shot per signal and entries in time, `Progress` that the guards
let everything else through, `Closing` what a close,
with or without a settlement of an expired position, says about the broker. `ShockEpisodes`, `Streaks`,
`Ratchets` and `Exits` are the shock episodes, the auction confirmation, the two exit ratchets, and depth.

**Machinery.** `Rates` and `ExitCapacity` are the rate windows and the exit slots, `ReadScheduler` the
priority scheduler, `StreamMinutes` the merging of completed minutes, `Framing` the binary packets, and
`FillConvergence` the recording of repeated and reordered trade reports.

## Where the code does not do what it is meant to

Each comes with an input on which it fails and the exact condition under which it does not.

- A resolved intent can become pending again. Among all commits of a reconciliation only one does that: a
  settlement on a row stored as traded that states a filled quantity, already recorded but short of the order
  (`OrderTheorems.ReopensIff`); a cancelled order later reported as traded in part is one
  (`OrderTheorems.RevisedTerminalReopens`). With final terminal reports it never happens
  (`OrderTheorems.SettledForever`), and FILLED is absorbing either way (`OrderTheorems.FilledIsAbsorbing`).
- A terminal row without a filled quantity can resolve its intent before all its fills are recorded, because
  the code falls back on the quantity it has recorded itself: `EarlyResolution.ResolvedTooEarly` is such a run,
  every report of it true. A true terminal row only ever resolves on the broker's exact quantity if and only if
  it states its quantity, says traded, or nothing was filled: `TradeTruth.ExactIffStated`.
- A shock episode's window is renewed if the process dies between the two metadata writes of its first bar:
  `ShockEpisodes.DyingBetweenWritesRenews`. The stamp is that of the first bar if and only if an update of that
  bar, the first or an unconflicted repetition, ran to its end: `ShockEpisodes.StampIsOwnIff`.
- After the same death, a bar seen with two contents does not keep its episode from being entered:
  `ShockEpisodes.ConflictAfterDeathAdmits`. After a conflict no continuation admits the episode if and only if
  it has been stamped or used up by then: `ShockEpisodes.ConflictAdmitsNothingIff`.
- The exit slots an entry reserves do not count the sales that sell nothing: six sends, an entry with two slots
  and two unfilled sales in one second leave the two children unsellable for that second
  (`ExitCapacity.UnfilledSalesUseSlots`). On any log the four windows allow, at any times, what is held always
  remains sellable after k sales if and only if nothing is held, the k and the children still needed fit the
  reserved slots, or those are nine or more, with which no entry is ever admitted: `ExitCapacity.AlwaysFitsIff`.
  They fit when every sale since sold its whole child: `ExitCapacity.WholeChildrenFit`.
- The in-memory rate governor forgets sends that a clock stepping back would bring into its windows again, then
  admits what the full log refuses and overfills a window: `Rates.SteppedBackClock`, on the default limits. For
  given times of the calls, it agrees with the full log whatever the counts and limits if and only if no call was
  a horizon after an earlier one that is less than a horizon old now (`Rates.AlwaysAgreesIff`), as when the clock
  does not step back. Its counts are those of the full log if and only if every dropped send is out of every
  window (`Rates.DequeExactIff`); otherwise it is only more lenient (`Rates.PruningOnlyLenient`).

One remark: the shock guard is not compared on whether its trail is armed. That is harmless because entry cash
is positive whenever the guard runs (`Ratchets.ShockOnChangeIsAlways`); it would not be with zero entry cash
(`Ratchets.ZeroEntryForgetsArming`), which the code cannot receive.

## Model

| member | source | states |
|---|---|---|
| Fees.FeesMonotone | dhan_cas_bot/risk.py:49-66 | buy and sell envelopes never fall when turnover or the number of children grows |
| Fees.EnvelopeWithinQuanta | dhan_cas_bot/risk.py:32-66 | the envelopes are, for every turnover, the fee schedule written out in numbers, from below and up to the rounding of each child |
| Fees.FeesMerge | dhan_cas_bot/risk.py:49-66 | one more child never costs more than the merged envelope with one child more |
| Fees.BuyEnvelopeCoversSplit | dhan_cas_bot/risk.py:32-66 | for any split of a turnover into n orders, the n invoices, each rounded component by component, total at most buy(total, n) |
| Fees.SellEnvelopeCoversSplit | dhan_cas_bot/risk.py:32-66 | the same for sales, whose transaction tax is rounded to the rupee |
| Risk.LifecycleCeiling | dhan_cas_bot/risk.py:21-28 | nothing on non-positive equity, at most 10 000 below 40 000, then the largest whole-paise amount within a quarter |
| Risk.CeilingIsLargest | dhan_cas_bot/risk.py:21-28 | nothing the rule allows is withheld: every amount up to 10 000 within a smaller bankroll, every whole-paise amount within a quarter of a larger one, is under the ceiling |
| Risk.CeilingMonotone | dhan_cas_bot/risk.py:21-28 | a larger bankroll never has a smaller ceiling, across both thresholds |
| Risk.PermitLeavesRoom | dhan_cas_bot/risk.py:96-107 | a permitted amount fits, with everything consumed and reserved, under the ceiling, and fits the cash and the cap |
| Risk.PermitsIff | dhan_cas_bot/risk.py:78-107 | a positive amount is permitted exactly when with all consumed and reserved it fits the ceiling, and fits the cash and the cap |
| Risk.EntryCashWithinQuanta | dhan_cas_bot/risk.py:69-75 | entry cash is premium, 20 a child, the rates with 18% on top and stamp duty, up to the rounding of each child |
| Risk.ReserveIsLeast | dhan_cas_bot/risk.py:69-75 | the reservation is the least whole number of paise that covers the cash |
| Risk.EntryCashMonotone | dhan_cas_bot/risk.py:69-75 | worst-case entry cash never falls as price, quantity or children grow |
| Search.BisectLots | dhan_cas_bot/strategy.py:132-138 | the bisection returns exactly what scanning down from the top would, for every test that holds downwards |
| Search.LotsDownClosed | dhan_cas_bot/strategy.py:129-138 | affordability of whole lots holds downwards although children and every rounded fee step with the quantity |
| Risk.CapacityIsLargest | dhan_cas_bot/risk.py:110-112 | the capacity of a ladder is the most whole lots that the quantity displayed at or under the limit holds |
| Search.LargestPermitted | dhan_cas_bot/strategy.py:129-140 | the auction search returns a permitted whole-lot quantity within the displayed depth, and no larger one within it is permitted, although the search clamps and bisects |
| Search.ResearchLots | research/expiry/fast_order.py:19-27 | the research search returns an affordable number of lots within capacity, cash and fees of all children counted, and no larger one is affordable |
| Search.ScanUntilUnaffordable | dhan_cas_bot/directional.py:155-162 | stopping at the first unaffordable quantity returns an affordable one, entry and three exits counted, and no larger one within capacity is affordable |
| Search.ReadyDownwards | dhan_cas_bot/seconds_strategies.py:106-114 | a price at which debit, fees and edge pass stays passing at every lower price |
| Search.ReadyIff | dhan_cas_bot/seconds_strategies.py:106-114 | a price passes exactly when debit and exit fees fit a positive budget, and the target leaves 50 and all fees over again |
| Search.CeilingIsOneSpread | dhan_cas_bot/seconds_strategies.py:92-100 | the price ceiling is the ask plus the fewest ticks, at least two, that cover the spread, or the last tick of the band |
| Search.BestEntryPrice | dhan_cas_bot/seconds_strategies.py:92-130 | the price search finds the highest passing tick under the ceiling and never one below the original two-tick limit |
| Ledger.CreateIntentWellFormed | dhan_cas_bot/ledger.py:81-86 | new intents keep ids and correlation ids unique and start unfilled |
| Ledger.RecordFillWellFormed | dhan_cas_bot/ledger.py:106-127 | whatever is reported, trades stay unique and no intent is ever recorded as filled beyond its quantity |
| Ledger.CreatedIff | dhan_cas_bot/ledger.py:81-86 | an intent is created exactly when both ids are unused and the reservation is positive, or zero for a sale; nothing else changes |
| Ledger.OrderSays | dhan_cas_bot/ledger.py:93-104 | an order row is refused exactly when it is another intent's; it is what was last reported, never back from terminal, and reopens a closed probe exactly when it changes |
| Ledger.ChargesKeepTheMost | dhan_cas_bot/ledger.py:140-152 | a recorded charge only ever gives way to one that says more, and other orders' charges stay |
| Ledger.Store.Create | dhan_cas_bot/ledger.py:81-86 | commits the new intent or refuses, exactly as the transaction does |
| Ledger.Store.FillOnce | dhan_cas_bot/ledger.py:106-127 | a known trade only raises its fees; a new one must fit its intent |
| Ledger.KnownFillSays | dhan_cas_bot/ledger.py:106-119 | a known trade must agree in security, quantity and price, keeps the higher fee, and is rewritten in the present format |
| Ledger.NewFillSays | dhan_cas_bot/ledger.py:120-126 | a new trade is taken exactly when some intent of that id trades its security and has room for it; a closed probe is reopened |
| Ledger.Store.PendingQuantity | dhan_cas_bot/orders.py:123-124 | the pending quantity of a side and security, summed over all unresolved intents |
| FillConvergence.TrueReportNoted | dhan_cas_bot/ledger.py:106-127 | a report of a trade that happened is never refused |
| FillConvergence.AbsorbConverges | dhan_cas_bot/ledger.py:106-138 | after any true reports the ledger holds exactly the trades reported, each with the highest fee reported, and exactly the recovery closures named by a new trade are reopened |
| FillConvergence.SameReportsSameLedger | dhan_cas_bot/ledger.py:106-138 | two sequences of batches with the same true reports, in whatever order, repetition and division, leave the same fills, fees and intent states |
| OrderManager.Manager.Dispatch | dhan_cas_bot/orders.py:128-139 | the statements of submit up to the POST commit intent, rate verdict and attempt as the state machine does, and post only after all of them |
| OrderManager.Manager.SaleAllowed | dhan_cas_bot/orders.py:123-127 | a sale is allowed exactly when it and all its security's sales in no final state fit the broker's position; it is the guard of the state machine |
| OrderManager.Manager.Answer | dhan_cas_bot/orders.py:141-155 | what each kind of answer, ambiguous ones included, leaves in the tables |
| OrderManager.Manager.ApplyBatch | dhan_cas_bot/orders.py:191-239 | the reconciliation loops leave the last table of the batch's commit sequence, and apply nothing on a stale revision |
| OrderManager.AccountRefresh.OnOrderEvent | dhan_cas_bot/account_refresh.py:46-59 | a new event invalidates, a repeated one among the last 2048 does nothing |
| OrderSafety.LiveWithinPending | dhan_cas_bot/ledger.py:166-175 | live sale quantity at the broker is bounded by the pending quantity the ledger computes |
| OrderSafety.StepKeeps | dhan_cas_bot/orders.py:116-239 | every event, crashes between any two commits included, keeps the protocol's invariant: resolved means terminal at the broker or never posted, and positions cover live sales |
| Submitting.SaleIsPostedIff | dhan_cas_bot/orders.py:116-143 | in any run, a sale is handed to the network exactly when its quantity and the sales outstanding when it was asked for fit the broker's position as answered, its ids are unused and its rate verdict passes; the tables left behind either way |
| Submitting.BuyIsPostedIff | dhan_cas_bot/orders.py:116-143 | a buy goes out exactly when its ids are unused, its reservation is positive and its rate verdict passes; the tables left behind either way |
| Submitting.AnswerLeaves | dhan_cas_bot/orders.py:141-155 | an answer with an order id makes intent and attempt sent and records the order; any other leaves both unknown |
| Submitting.ResetWasUnknown | dhan_cas_bot/route_recovery.py:44-56 | a reset is only of a probe sent into the unknown, tried without ever an answer, without order or fill |
| Submitting.ResetIs | dhan_cas_bot/route_recovery.py:88-96 | one not reset before gets its receipt and its closure, and nothing is pending after |
| Reconciling.MatchedWith | dhan_cas_bot/orders.py:176-190 | the row an intent is matched with: the last listed of its correlation id, or of its known order, or the saved terminal row, or the lookup of an intent neither unsent nor over |
| Reconciling.BatchRecords | dhan_cas_bot/orders.py:205-230 | after a published batch every trade report of a matched order is a fill of that order, trade, security, quantity and price, with the highest fees recorded or said; no other fill is new and no other fee changes |
| Reconciling.BatchSettles | dhan_cas_bot/orders.py:191-239 | after a published batch each matched intent is filled, ended or as before, as its order row and its recorded fills say, and an unmatched one is aborted exactly when it was read as unsent and has no attempt |
| Reconciling.PublishedIsConsistent | dhan_cas_bot/orders.py:195-230 | in a published batch every matched row and trade was ours, of the intent's own security and side, and well-formed: one that is not refuses the batch |
| Reconciling.HonestBatchPublishes | dhan_cas_bot/orders.py:191-239 | in every run a complete batch of true reports of the current revision is published: nothing in it is refused |
| OrderTheorems.NoOversell | dhan_cas_bot/orders.py:121-139 | in every reachable state the unfilled quantity of live sales of a security is at most the broker's position, which is never negative |
| OrderTheorems.NeverOverfilled | dhan_cas_bot/ledger.py:120-123 | in every reachable state an intent's recorded fills are at most its quantity |
| OrderTheorems.PostIsWriteAhead | dhan_cas_bot/orders.py:128-143 | every request on the wire has its intent and attempt already committed |
| OrderTheorems.PostsAreUnique | dhan_cas_bot/orders.py:128-143 | no correlation id is ever posted twice, across crashes and restarts |
| OrderTheorems.BrokerOrdersAreOurs | dhan_cas_bot/orders.py:128-143 | every order at the broker is a committed intent posted exactly once |
| OrderTheorems.AbortedNeverPosted | dhan_cas_bot/orders.py:130-134 | an aborted intent was never posted and never will be |
| OrderTheorems.PostedStopsPending | dhan_cas_bot/ledger.py:166-175 | a posted intent stops being pending only on terminal broker evidence or a complete reset receipt without any order or fill row |
| OrderTheorems.LateOrderReopens | dhan_cas_bot/ledger.py:93-104 | any order row recorded for a reset probe makes it pending again |
| OrderTheorems.LateFillReopens | dhan_cas_bot/ledger.py:120-126 | so does any new fill row |
| OrderTheorems.SettledForever | dhan_cas_bot/orders.py:233-238 | with final terminal reports resolved intents stay resolved on every continuation |
| OrderTheorems.FilledIsAbsorbing | dhan_cas_bot/orders.py:233-238 | FILLED is never left |
| OrderTheorems.ReopensIff | dhan_cas_bot/orders.py:205-238 | over all commits of a reconciliation, a resolved intent becomes pending exactly when a settlement finds its order stored as traded, with a stated quantity that is recorded but less than ordered |
| OrderTheorems.RevisedTerminalReopens | dhan_cas_bot/orders.py:231-238 | the instance: a cancelled intent whose order is then reported as traded in part |
| Fence.StepRevision | dhan_cas_bot/orders.py:48-52 | every write around a POST, new order event, invalidation and publication moves the revision; anything else leaves it |
| Fence.RevisionMonotone | dhan_cas_bot/orders.py:48-52 | within one process the revision never falls |
| Fence.PublishedBatchIsFenced | dhan_cas_bot/orders.py:157-239 | from capturing the revision to publishing a batch no POST was outstanding and no order was written |
| Fence.FreshIsFenced | dhan_cas_bot/account_refresh.py:34-99 | while fresh, the held snapshot began to be read at most MAX_AGE ago, with no POST, order write, new order event or newer batch since |
| Fence.HeldIsFenced | dhan_cas_bot/orders.py:157-239 | a held snapshot of the current revision is, for every security, the broker position at one moment of its batch, with no POST and no write but its own publication since the capture |
| Fence.FreshHoldsCurrent | dhan_cas_bot/account_refresh.py:34-38 | whenever the account is called fresh, the held snapshot is of the current revision |
| Fence.PublishedIsFresh | dhan_cas_bot/account_refresh.py:61-99 | a published refresh is fresh exactly while its capture is at most five seconds old |
| Fence.EventInvalidates | dhan_cas_bot/account_refresh.py:46-59 | a new order event ends freshness and moves the revision; one of the latest 2048 changes nothing |
| Fence.FreshStays | dhan_cas_bot/account_refresh.py:34-59 | nothing but a write, a new event, the end of a batch or of a cash read, or age ends freshness |
| Fence.RefreshSteps | dhan_cas_bot/account_refresh.py:61-99 | a refresh reads for the revision it captured; a batch more than five seconds old when the cash has come is read once more, and a failed one is unhealthy |
| Capital.ComputeTotals | dhan_cas_bot/ledger.py:193-226 | the loops over intents, fills, charges and settlements compute the specified totals or refuse a net short |
| Capital.TotalsAreMoney | dhan_cas_bot/ledger.py:193-226 | over the fill rows: debit is price paid plus charges, credit plus the charges of sales is price received plus settlement credits, and unresolved means an intent of the lifecycle is pending |
| Capital.ChargeIsTheMost | dhan_cas_bot/ledger.py:208-217 | a filled intent is charged the most of what its trades reported, what its orders reported, and the envelope of one child in whole paise; an unfilled one nothing |
| Capital.TotalsRefusedIff | dhan_cas_bot/ledger.py:218-226 | the totals are refused exactly when more was sold and settled than bought |
| CapitalSafety.ReservationCovers | dhan_cas_bot/ledger.py:208-216 | through any partial fills a pending buy's debit plus what stays reserved is exactly its reservation |
| CapitalSafety.CommittedIsHeld | dhan_cas_bot/ledger.py:202-219 | a lifecycle's entry debit plus reserved is the sum of what its buys hold |
| CapitalSafety.AdmissionLeavesRoom | dhan_cas_bot/engine.py:181-200 | an entry the allocation admits, auction or minute, fits its whole reservation under ceiling and cap |
| CapitalSafety.MinuteAdmitsIff | dhan_cas_bot/directional.py:319-343 | a minute entry is within budget exactly when debit and exit fees fit what the ceiling leaves, the cash, 95% of the bankroll and the cap |
| TradeTruth.PositionIsFills | dhan_cas_bot/orders.py:128-143 | conservation: in every state a broker position is its starting value plus all signed fills of our intents |
| Executions.RecordedIsReal | dhan_cas_bot/orders.py:213-229 | if every trade report read names a trade that happened, then whatever is lost, repeated or reread, no intent is recorded as filled beyond what the broker filled |
| TradeTruth.ResolvedIsExact | dhan_cas_bot/orders.py:231-238 | every resolved intent has exactly the broker's filled quantity recorded |
| TradeTruth.HonestMeansNoLateFills | dhan_cas_bot/orders.py:231-238 | no fill of a resolved intent is ever recorded later |
| TradeTruth.CeilingAlwaysHolds | dhan_cas_bot/engine.py:181-200 | in every state of every run, entry debit, with fees and order charges, plus reserved of an auction or minute lifecycle is within the ceiling of its frozen bankroll, however many adds and partial exits; each entry is sized on an earlier state |
| TradeTruth.MandateCapAlwaysHolds | dhan_cas_bot/engine.py:192-199 | under mandate scope the sum over all lifecycles never exceeds the cumulative cap |
| TradeTruth.SettlementResolves | dhan_cas_bot/orders.py:231-238 | a settlement resolves its intent exactly when the stored row is terminal and the recorded fills reach the expected quantity |
| TradeTruth.ExactIffStated | dhan_cas_bot/orders.py:231-238 | a true terminal row only ever resolves on the exact broker quantity if and only if it states the quantity, says traded, or nothing was filled |
| TradeTruth.UnstatedRowResolvesEarly | dhan_cas_bot/orders.py:231-238 | on any tables, a terminal row that is not traded and states no quantity resolves its intent on whatever is recorded, and a later trade is still taken |
| EarlyResolution.ResolvedTooEarly | dhan_cas_bot/orders.py:231-238 | a run of true reports that resolves a cancelled intent with one unit unrecorded and records it afterwards |
| Rates.NoWindowOverfull | dhan_cas_bot/governor.py:25-28 | if every send fitted when it was made, no placement of a window ever holds more sends than its limit, at any times |
| Rates.DurableNeverOverfull | dhan_cas_bot/orders.py:100-114 | after any sequence of rate checks, at any times, no placement of the four durable windows holds more sends than its limit |
| Rates.AdmittedFits | dhan_cas_bot/orders.py:109-114 | an admitted send keeps every window within its limit |
| Rates.PassesIff | dhan_cas_bot/orders.py:106-114 | an attempt passes exactly when it and its exit slots fit 9 a second, 250 a minute, 1000 an hour and 7000 a day, counted as the younger sends |
| Rates.ExitSlotsSurviveEntry | dhan_cas_bot/orders.py:107-114 | right after an admitted entry, its reserved number of sales is admissible at any later times |
| Rates.SlotsAreFewest | dhan_cas_bot/orders.py:100-108 | the slots are the fewest children, at least one, that sell everything an entry could leave |
| Rates.LiquidationSellsAll | dhan_cas_bot/orders.py:106-107 | selling child by child sells everything in whole lots in exactly the reserved number of sends |
| Rates.RateEvents.Attempt | dhan_cas_bot/orders.py:100-114 | admits exactly when all four durable windows have room for the send and, for a buy, its exit slots |
| Rates.GovernorNeverOverfull | dhan_cas_bot/governor.py:19-30 | after any calls at nondecreasing times, no placement of a window holds more sends than its limit |
| Rates.DequeDecidesAsLog | dhan_cas_bot/governor.py:19-30 | after any calls at times by which no dropped send is young again, the pruned deque decides as the log of all sends would |
| Rates.DefaultAdmitsIff | dhan_cas_bot/governor.py:14-30 | on the default limits a send is admitted exactly when it fits 10 a second, 250 a minute, 1000 an hour and 7000 a day |
| Rates.AlwaysAgreesIff | dhan_cas_bot/governor.py:19-30 | for given call times, it does so whatever the counts and limits if and only if no call was a horizon after an earlier one less than a horizon old |
| Rates.DequeExactIff | dhan_cas_bot/governor.py:23-28 | whatever the clock did, the deque counts as the log of all sends in every window exactly when every send it dropped is out of every window |
| Rates.PruningOnlyLenient | dhan_cas_bot/governor.py:23-28 | whatever the clock did, the deque admits whatever the full log would |
| Rates.SteppedBackClock | dhan_cas_bot/governor.py:14-30 | on the default limits, with the clock back a day after two calls, a send is admitted that the full log refuses, and a second then holds eleven |
| Rates.RateGovernor.Admit | dhan_cas_bot/governor.py:19-30 | one call prunes, decides on the pruned deque, and appends all copies or none |
| Rates.SendsGrow | dhan_cas_bot/governor.py:19-30 | the log of all sends grows by exactly the copies of the admitted calls |
| ExitCapacity.ComputePotential | dhan_cas_bot/orders.py:100-105 | what exits are reserved for: all pending buys and the quantities of the open lifecycles, settlements taken off, or the refusal of a net short |
| ExitCapacity.PotentialIs | dhan_cas_bot/orders.py:100-105 | it is all outstanding buys and what the open lifecycles traded less what was settled, refused exactly when one of these is short |
| ExitCapacity.HeldWithinPotential | dhan_cas_bot/orders.py:100-105 | with no further buy, whatever fills, the position later is at most what was reserved for less what the sales since have sold |
| ExitCapacity.AlwaysFitsIff | dhan_cas_bot/orders.py:100-114 | on every log the four durable windows allow and at any times, a number of sales passes after an entry and k admitted sales, if and only if there are none, they and the k fit the reserved slots, or the slots are nine or more |
| ExitCapacity.HoldingsStaySellable | dhan_cas_bot/orders.py:100-114 | in an honest run with only sales since an admitted entry, whatever fills, and with all sends since in the log, the whole position can be sold in whole-lot children inside all windows, as long as those sends and the children of what was reserved for less what has been sold fit the slots |
| ExitCapacity.WholeChildrenFit | dhan_cas_bot/orders.py:100-114 | they do when every sale since sold its whole child |
| ExitCapacity.UnfilledSalesUseSlots | dhan_cas_bot/orders.py:109-114 | on the durable windows, six sends, an entry with two slots and two unfilled sales in one second leave the two children unsellable |
| Lifecycles.Registry.Active | dhan_cas_bot/engine.py:102-107 | the one open lifecycle, none, or a refusal exactly when there are several |
| Lifecycles.Registry.Open | dhan_cas_bot/directional.py:275-278 | lifecycle and both consumed keys are inserted together or not at all |
| LifecycleSafety.OneOpenLifecycle | dhan_cas_bot/engine.py:102-107 | at most one lifecycle is open in any state of any run |
| LifecycleSafety.SignalsFireOnce | dhan_cas_bot/directional.py:80-93 | two lifecycles of a run are the same if their signals are minute signals of one day with one name or one family, or of one day, owner and episode, restarts included |
| LifecycleSafety.SignalOpensIff | dhan_cas_bot/directional.py:275-286 | and nothing else is in the way: a chosen signal is enrolled exactly when no lifecycle of the day was for its name, family or episode, no such signal was given up, and its id is new |
| Progress.SignalGoesThrough | dhan_cas_bot/directional.py:275-343 | with nothing open or pending, a signal in its window whose name, family or episode is unused becomes an entry on the wire |
| Progress.AuctionGoesThrough | dhan_cas_bot/engine.py:366-426 | so does an auction entry within its hours, for a new lifecycle or one more of the auction's own |
| Progress.EntryGoesOutIff | dhan_cas_bot/directional.py:280-286 | an enrolled entry goes out exactly while its window, or its auction's day, lasts |
| Progress.ChosenWhenQuiet | dhan_cas_bot/engine.py:366-395 | every entry under way was chosen with nothing pending or being submitted, within its window or hours, for a signal with nothing open, and nothing was submitted since |
| Progress.ChosenIsUnused | dhan_cas_bot/directional.py:80-93 | no signal is chosen whose strategy, family or episode was used, or which was given up |
| LifecycleSafety.OneEntryInWindow | dhan_cas_bot/directional.py:280-286 | a signalled lifecycle makes at most one entry, and the step that handed it over was inside its deadline window |
| LifecycleSafety.AuctionEntryInHours | dhan_cas_bot/engine.py:366-426 | every entry of an auction lifecycle, adds included, was handed over from 15:20 on and before 15:30, or 15:38:30 on the final value, of its own day |
| LifecycleSafety.OneSecurityEach | dhan_cas_bot/directional.py:274-286 | all intents of a lifecycle trade its one security |
| Closing.CloseWasFlat | dhan_cas_bot/engine.py:213-262 | a close under way was begun with nothing pending on a snapshot in which the broker position was zero: zero at one moment of a batch since whose capture, up to then, no POST was outstanding and nothing else was written; it was decided with nothing left in the ledger, at once or after the settlement of an expired position, and nothing was submitted since it was begun |
| Progress.CloseGoesThrough | dhan_cas_bot/engine.py:213-262 | a lifecycle that sold and settled all it bought is closed, once nothing is pending and a current snapshot shows none |
| Progress.SettlementGoesThrough | dhan_cas_bot/engine.py:213-262 | an auction position gone from the account is settled for exactly what is left of it, and closed |
| Progress.SettledWhatWasLeft | dhan_cas_bot/engine.py:213-262 | whatever is settled is exactly what was left when the position was found gone, with nothing pending |
| LifecycleSafety.ReceiptsOnce | dhan_cas_bot/engine.py:213-262 | no receipt is booked twice in any run |
| Closing.ClosedIsFlatAtBroker | dhan_cas_bot/engine.py:230-262 | with honest reports, in every state from the decision to close on, closed forever included, what the lifecycle bought less what it sold at the broker is exactly what was settled |
| LifecycleSafety.ClosedIsFinished | dhan_cas_bot/engine.py:230-262 | in every state, each intent of a closed lifecycle is terminal at the broker or was never sent |
| LifecycleSafety.ClosedForever | dhan_cas_bot/engine.py:255-262 | a closed lifecycle never opens again |
| ShockEpisodes.EpisodesAreMaximalRuns | dhan_cas_bot/shock_engine.py:70-75 | two qualifying bars share an episode exactly when every bar seen between them qualified on their side |
| ShockEpisodes.WindowNeverRenewed | dhan_cas_bot/shock_engine.py:76-83 | all entries an episode ever admits lie within 30 000 ms of one stamp, restarts and retries included; it is the first bar of the episode exactly when an update of that bar ran to its end |
| ShockEpisodes.UpdateAdmitsIff | dhan_cas_bot/shock_engine.py:51-90 | in any run, the update of the newest bar holds a sample exactly when the bar qualifies and does not contradict itself: under the first bar of its unbroken run and the stamp that run has had; an entry is admitted exactly while the episode is unused and the stamp at most 30 000 ms old |
| ShockEpisodes.UsedUpNeverAdmits | dhan_cas_bot/shock_engine.py:97-102 | an episode entered, or invalidated while held, is never admitted again |
| ShockEpisodes.StampIsOwnIff | dhan_cas_bot/shock_engine.py:64-83 | in every state of every run, the stamp of an episode is its first bar if and only if some event took that bar, qualifying and unconflicted, to its end |
| ShockEpisodes.ConflictAdmitsNothingIff | dhan_cas_bot/shock_engine.py:64-69 | after a bar was found with a second content, by an update or one cut short, no continuation admits its episode if and only if the episode is stamped or used up by then |
| ShockEpisodes.ConflictAfterDeathAdmits | dhan_cas_bot/shock_engine.py:64-83 | a run of four events in which the episode of a conflicted bar is admitted |
| ShockEpisodes.DyingBetweenWritesRenews | dhan_cas_bot/shock_engine.py:74-83 | dying between the two writes of a first bar renews the window on the next bar |
| Streaks.SignalState.OnBookUpdate | dhan_cas_bot/engine.py:168-179 | a book of the current feed that lost its lag ends the streak |
| Streaks.StreaksAreSuffixes | dhan_cas_bot/engine.py:141-166 | every streak is a suffix of the accepted events, pairwise distinct, all on the contract's side |
| Streaks.StreakIsConfirmed | dhan_cas_bot/engine.py:109-179 | behind a streak of two stand two different consecutive accepted events with the book lagging, and no reconnect or losing book update since the first |
| Streaks.ConfirmationsStreak | dhan_cas_bot/engine.py:109-179 | conversely, two consecutive accepted events that confirm a contract, with nothing interrupting since the first, leave a streak of two or more |
| Streaks.LagsIff | dhan_cas_bot/engine.py:109-139 | a book lags exactly when it has a lot on each side and the ask plus a tick is within what the contract would be worth |
| Streaks.AcceptedLeaves | dhan_cas_bot/engine.py:141-166 | in any run, an accepted event joins the latest twenty-four and the streaks of exactly the contracts that qualify; every other streak is gone |
| Streaks.SentIsConfirmed | dhan_cas_bot/engine.py:355-432 | an entry chosen on a streak and sent while status and book are still the same was preceded by two different events on its side, with no reconnect and no losing book update up to the dispatch |
| Streaks.FindConfirmation | dhan_cas_bot/strategy.py:82-107 | the confirmation checks and the contiguous values, as the search computes them |
| Streaks.ConfirmedIff | dhan_cas_bot/strategy.py:82-107 | a history is confirmed exactly when it holds two different events and its last two values are strictly on one side; that side comes back with the longest run of values on it |
| Streaks.StreakConfirms | dhan_cas_bot/strategy.py:82-107 | for a streak the checks come down to a length of two, the side is the contract's, and every value counts |
| Ratchets.PeakIsMaximum | dhan_cas_bot/profit_exit.py:11-24 | the peak is the highest net profit observed |
| Ratchets.FloorFollowsPeak | dhan_cas_bot/profit_exit.py:11-24 | the floor is the peak at the latest arming step times the retained share, and absent if none armed |
| Ratchets.TriggerIsAHit | dhan_cas_bot/profit_exit.py:20 | triggered exactly when some observation was at or under the floor of its moment |
| Ratchets.NeverLoosens | dhan_cas_bot/profit_exit.py:11-24 | peak, floor and trigger never go back |
| Ratchets.OnChangeIsAlways | dhan_cas_bot/directional.py:395-406 | writing only on change exits exactly when writing always does, wherever the process dies |
| Ratchets.TriggerIsNeverLost | dhan_cas_bot/directional.py:395-406 | once a trigger is on disk, any later step that runs to its end leaves the exit latched, whatever deaths come between |
| Ratchets.ShockRatchet | dhan_cas_bot/volatility_shock.py:247-265 | once armed, 40% of peak <= floor <= peak; peak and floor never fall and the first reason stays, even as entry cash changes |
| Ratchets.ShockClosedForm | dhan_cas_bot/volatility_shock.py:247-253 | with one entry cost: armed when the highest net profit reaches 80% of it, and then protecting 40% of that profit, or all but 45% of the cost if more |
| Ratchets.LowIsLowest | dhan_cas_bot/volatility_shock.py:247-253 | the low is the least net profit seen |
| Ratchets.FirstReasonKept | dhan_cas_bot/volatility_shock.py:257-265 | the exit reason is the one the first look with any reason gave |
| Ratchets.FirstExitIs | dhan_cas_bot/volatility_shock.py:254-265 | which look exits first and why: invalidated, a loss of 40% of the entry, a profit under the armed floor, no 20% in 45 minutes, or two hours or the deadline, in that order |
| Ratchets.ShockOnChangeIsAlways | dhan_cas_bot/shock_engine.py:200-208 | with positive entry cash, writing on change or once a second decides every look as writing always does |
| Ratchets.ZeroEntryForgetsArming | dhan_cas_bot/shock_engine.py:207-208 | with zero entry cash it would not |
| Exits.ExecutableSaleUnits | dhan_cas_bot/exits.py:25-38 | the loop takes the ladder as specified |
| Exits.SellsWhatDepthAllows | dhan_cas_bot/exits.py:25-38 | exactly the lesser of quantity and depth is sold |
| Exits.SaleIsBest | dhan_cas_bot/exits.py:25-38 | on a descending ladder no plan selling as many units or fewer brings in more |
| Exits.SaleIsAPlan | dhan_cas_bot/exits.py:25-38 | what is sold is such a plan: slices of the levels' own quantities and prices, no level touched before the earlier ones are exhausted |
| Exits.ResidualDisplayed | dhan_cas_bot/engine.py:385-392 | on ascending asks used units count against every limit they could have been bought under |
| Exits.EntryTakesItsQuantity | dhan_cas_bot/engine.py:385-415 | each entry takes exactly its quantity, from its own book only, off what may still be bought under any limit |
| Exits.DepthConserved | dhan_cas_bot/engine.py:385-415 | over any entries the debits to one book never exceed what it displayed |
| Exits.CoveredAtOwnLimit | dhan_cas_bot/engine.py:385-415 | each entry is covered by what its book shows at or below that entry's own limit |
| Exits.DepthDebits.Remaining | dhan_cas_bot/engine.py:385-392 | the ladder an entry is sized on is the displayed one less everything debited before |
| ReadScheduler.NoLostWakeup | dhan_cas_bot/read_scheduler.py:34-56 | in every reachable state whoever waits has a live worker |
| ReadScheduler.GrantsAreSpaced | dhan_cas_bot/read_scheduler.py:45-54 | any n + 1 grants in a row take at least n intervals |
| ReadScheduler.WakesIff | dhan_cas_bot/read_scheduler.py:45-54 | the sleeping worker can go on exactly when nobody was let through within the last interval |
| ReadScheduler.CancelledIsNeverGranted | dhan_cas_bot/read_scheduler.py:34-56 | a caller that gave up is never let through afterwards |
| ReadScheduler.GrantedOnce | dhan_cas_bot/read_scheduler.py:45-56 | nobody is let through twice |
| ReadScheduler.AcquireQueues | dhan_cas_bot/read_scheduler.py:18-43 | whoever asks is queued with its own urgency, behind all earlier tickets, and has a worker |
| ReadScheduler.WakeGrantsFirst | dhan_cas_bot/read_scheduler.py:45-56 | a wakeup grants the least (priority, sequence) among all uncancelled waiters, or ends the worker if there is none |
| ReadScheduler.NobodyOvertakes | dhan_cas_bot/read_scheduler.py:34-54 | a waiter is granted, or fewer are ahead of it, at every wakeup; later arrivals of the same or lower urgency never overtake |
| ReadScheduler.Scheduler.WakeUp | dhan_cas_bot/read_scheduler.py:45-56 | the worker's loop is that step |
| StreamMinutes.CompletedIndexMinutes.Take | dhan_cas_bot/stream_minutes.py:14-44 | one frame merged as specified; reports a change exactly when it brings a minute not heard of |
| StreamMinutes.RetainedExactly | dhan_cas_bot/stream_minutes.py:14-44 | with nondecreasing receipt times the rows are exactly the recent minutes whose valid candles all agreed, and the conflicts those that disagreed |
| StreamMinutes.ArrivalOrderIrrelevant | dhan_cas_bot/stream_minutes.py:14-44 | the same candles in any order, repetition and grouping leave the same rows |
| StreamMinutes.ConflictNeverServed | dhan_cas_bot/stream_minutes.py:34-49 | a minute seen with two contents is never served again in its epoch, pruning included |
| StreamMinutes.ServedIsUnanimous | dhan_cas_bot/stream_minutes.py:46-49 | whatever is served, every valid candle of that minute has said the same |
| StreamMinutes.ServedIff | dhan_cas_bot/stream_minutes.py:14-49 | a bar is served exactly when it is the one content all usable candles of the current minute had, on the candles' own fields, and the latest agreeing frame is at most five seconds old |
| StreamMinutes.EpochForgets | dhan_cas_bot/stream_minutes.py:14-22 | the first frame of another epoch is taken as if none had been before; a frame out of time changes nothing |
| Framing.RoundTrip | dhan_cas_bot/dhan_feed.py:111-134 | splitting the concatenation of any well-formed packets gives back exactly those packets |
| Framing.WrittenIsRead | dhan_cas_bot/dhan_feed.py:124-134 | packets built with their length low byte first come back from one message as they were |
| Framing.DisconnectIsRead | dhan_cas_bot/dhan_feed.py:131-132 | a disconnect notice ends the message after the packets before it, with its code read low byte first |
| Framing.StartupIsNoConcat | dhan_cas_bot/dhan_feed.py:118-123 | the 162-byte startup exception never fires on such a message |
| Framing.SplitCovers | dhan_cas_bot/dhan_feed.py:111-134 | of any message the packets yielded are its longest readable beginning, and what is left says how it ended |
| Framing.ReadableIff | dhan_cas_bot/dhan_feed.py:124-134 | beside the startup snapshot the readable messages are exactly the concatenations of well-formed packets |
| Framing.OneReading | dhan_cas_bot/dhan_feed.py:124-134 | a sequence of packets can be read in one way only |
| Framing.Packets | dhan_cas_bot/dhan_feed.py:124-134 | the offset loop yields and stops as specified |

## Left out

- HTTP, WebSocket, SQLite and file mechanics, authentication and egress: plumbing; the tables, the atomic steps and the broker are modelled instead.
- Text keys, timestamps as text, and account, segment and product fields: identifiers are numbers compared for equality, and one flag says that a row is ours.
- The 28-digit rounding of the decimal context, and the binary-float ceiling of a child count in research/expiry/fast_order.py: arithmetic is exact.
- `confirm_historical_order`: how historical trades are matched to an order; a batch may bring any trades and any order charges.
- The `unresolved` flag of a held snapshot: pending intents are looked at again wherever it is.
- Orders.Next: the rate verdict is a parameter of the submit event, so that the order results hold for every verdict; what the verdict is, is in `Rates` and `ExitCapacity`.
- Executions.RecordedIsReal: a historical row that is an order's average instead of a trade does not name one; such rows are taken as trades only while the order's recorded fills do not match them.
- Orders.Next: one snapshot position is read for a sale at one moment, and only this order manager trades the account.
- Reconciling.HonestBatchPublishes: assumes that the exchange gives no two trades of an order the same id.
- Rates.RateEvents.Attempt: assumes a freeze quantity of at least one lot, as instruments have.
- ExitCapacity.HoldingsStaySellable: for a position in one security; several securities may need more sends than their sum suggests.
- TradeTruth.CeilingAlwaysHolds: for auction and minute lifecycles; the shock owner replaces the ceiling by its whole bankroll.
- TradeTruth.MandateCapAlwaysHolds: for mandate scope; a session-scoped cap counts only the session's own lifecycles.
- Search.LargestPermitted: the quantities `find_opportunity` scores beyond the largest one, and the scores themselves; it enumerates only some quantities, so no best score is claimed.
- Lifecycles.Step: which of several feasible signals or contracts is chosen, and the exit reasons of the auction owner, which read thresholds one by one.
- LifecycleSafety.OneEntryInWindow: the other inputs looked at again at dispatch (permission, feeds, the same book) only ever prevent an entry.
- ShockEpisodes.WindowNeverRenewed: one day's records; the live price and feed checks of `valid` only ever prevent an entry.
- Streaks.SentIsConfirmed: assumes that a book's epoch and receipt time are not reused for a contract, nor a signal epoch once its connection is lost.
- ReadScheduler.NoLostWakeup: the worker task is not cancelled from outside.
- ReadScheduler.GrantsAreSpaced: a sleep never ends early.
- Closing.CloseWasFlat: how a receipt in the broker's cash ledger is matched to an expired position; any receipt for what was left may be booked, once.
- `sell_limit`: rounds up to a tick after clamping to the band, so it is not claimed to respect the upper limit.
- `candidate_quantities`, `SecondsTape` and `select_reference`: filters and caches with nothing beyond one body.
- Indicator rules, arbiter scores, Black-Scholes and implied volatility: thresholds and floating point, taken as given numbers.
- Dashboards, history, incidents, calendars, contract files, settlement narration, research replays: display and parsing.
