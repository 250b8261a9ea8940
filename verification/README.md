# A model of the trading agents

The system trades on Upbit through agents that talk over Redis Streams. Strategies publish signals, the portfolio
manager turns them into order requests, the risk manager approves or rejects them, the executor places them, and the
results travel back to the ledgers. Nothing in it is synchronous: approvals are given on a ledger that has not heard
of the orders in flight, exchange calls and publications can raise or be cancelled at any await, applied or not, and
streams are trimmed while they are read. This project models those mechanisms and proves what every run of them keeps.

Run `dafny verify dfyconfig.toml` to check everything.

## Layout

| file | what it models |
|---|---|
| `Prelude.dfy`, `Messages.dfy` | optional values, times and windows, the clock; the messages |
| `OrderPipeline.dfy` | the whole pipeline as one machine: append-only streams, one cursor per reader, every await a step |
| `PipelineFlow.dfy` | what is open, how often an approval counts in it, and how tickets enter and leave |
| `PipelineExposure.dfy`, `PipelineOpenPositions.dfy` | the limits under lag, on the ledger |
| `PipelineHolding.dfy`, `PipelineAccepted.dfy` | what is held at cost, and that no accepted order escapes it |
| `PipelineFills.dfy` | what a fill is worth to the ledger |
| `PipelineRuns.dfy`, `PipelineShare.dfy`, `PipelineShareIff.dfy` | runs built step by step; when the documented share per market holds |
| `PipelineSafety.dfy` | what can reach the exchange and the streams; dry run |
| `PipelineGate.dfy` | the kill switch and the halt |
| `PipelineEndToEnd.dfy`, `PipelineExits.dfy` | the pipeline fed by the portfolio manager; which of its exits are approved |
| `ExecutorMachine.dfy` | retry, poll, cancel, publish and teardown as a machine; its work and its results |
| `ExecutorPolls.dfy`, `ExecutorPlacements.dfy`, `ExecutorShutdown.dfy` | how long an order is watched; how often an approval is placed; what is left on the exchange |
| `Executor.dfy` | the agent whose loops refine that machine |
| `RiskLedger.dfy`, `RiskManager.dfy` | the ledger, the limits and the halt latch; the agent |
| `PortfolioManager.dfy`, `PortfolioRequests.dfy` | decisions, cooldown and spending, and the agent; what is asked for and when, read off its runs |
| `StreamGroup.dfy` | a consumer group on a trimmed stream; the subscription loop |
| `RateLimiter.dfy` | the token bucket and its queue |
| `SignalCombiner.dfy`, `WeightedVote.dfy` | the cache with a time to live, and the vote over it |
| `RuleWindow.dfy` | the entry rule over a pruned, capped buffer |
| `TechnicalScore.dfy` | the technical score and its amplification |

Agents are classes with the fields of the original and methods in its loop structure. Each has a ghost history, and
its `Valid()` says that the fields are what a pure machine gives for that history; what the source promises is then
proved about the machine, for all runs.

## How to read it

- Decimals and floats are exact reals. `time.monotonic()` and `time.time()` are clocks that may stand still but not
  run back, except that daily resets are proved for arbitrary wall clock readings. The executor's sleeps and poll
  intervals are whole seconds and counted as integers.
- The exchange, the bus and the event loop answer every await in any way: return, raise an ordinary exception, or
  deliver the cancellation of the task. A create call or a publication by the executor that raises or is cancelled may
  have taken effect all the same. Where it is said, order uuids are unique.
- A request has a ghost id, its position on `order:request`. Result messages carry none, so the id is followed through
  the pipeline beside them.
- An approval may count more than once in what is open. An `Account` says how: `Once` for runs in which no raised
  publication was applied, `Fills(n)` for the fills it may still bring to the ledger, `Orders(n)` for the orders the
  exchange has accepted or may accept for it, those included whose create reply was lost.
- The account figures that no fill ever writes (`_total_balance`, `_peak_balance`, `_daily_pnl`) are set by the
  environment, and so is `trading.enabled`; otherwise the limits would hold of nothing.
- What is bought is counted apart from the ledger: a purchase at its KRW amount from the moment the exchange accepts the
  order, until a sale brings money back. `Terms` say what is granted of a run: attempts, purchases open at a time, how far
  the ledger's values may be off, and what the account held at the start. What sales bring in is any map from uuids to KRW.
  An order reported as cancelled with nothing executed has bought nothing.
- `OrderPipeline` lets every reader see each entry of its stream once and in order. `StreamGroup` proves when the bus
  gives that (`ReadsLikeACursor`, `GapFreeUpToLagIff`): lag at most 10000 entries and no fault; a fault loses the entry.
- An exception in the portfolio manager's decision loop, a publication that raises included, ends that agent.
- The lock of the limiter makes an acquire one piece; calls queue in order.
- While the portfolio manager awaits a publication other handlers may run; `PublicationCommutes` shows that it does
  not matter on which side of the publication they are put.

## What the proofs found

- The 30% share per market (README.md:115) does not bound what is bought. It does so exactly when orders go one at a time,
  none is placed again, the ledger values no purchase below its cost and no sale above what it brought in, and the account
  held nothing of the market at the start: `ShareHoldsIff`. Each of the five is needed, and the portfolio manager can feed
  runs that exceed the share by two approvals before a fill is heard of, or by one lost create reply: `FedShareHoldsIff`.
  With prudent values the excess is bounded by the orders that can be open: `BoughtUnderLag`.
- The ledger values a fill as volume times the price in the exchange's answer, and a market purchase is placed with its KRW
  amount as the price. If that is echoed, a purchase of less than one unit is taken for less than it cost, as every
  purchase of a coin dearer than the order is, and one of more than a unit for more; if no price is reported it is taken
  for nothing: `MarketPurchaseWorth`. Undervaluation disables the share: without a floor under the values, one purchase at a
  time exceeds every bound with every reply as it should be: `UndervaluedWithoutBound`, `FedWithoutBound`. Orders
  whose replies are lost do the same when they are not counted as open: `StraysWithoutBound`.
- As written nothing ever sets the total balance, the peak or the daily loss. Then the share, the daily loss limit and the
  drawdown protection (README.md:115, 116 and 118) reject nothing in any run, and nothing halts: `InertInEveryRun`. What
  these limits do otherwise is proved for figures set from outside.
- One approval can cause up to three exchange orders and no more, and up to three fills on the stream:
  `ThreeCallsPerTicket`, `ResultsPerTicket`, `ThreeAcceptedForOne`. A filled order is placed again when publishing its
  fill raises, even if the fill reached the stream: `FilledOrderPlacedTwice`. A run has one placement per approval
  exactly when nothing raised and no order timed out in it: `OnePlacementEachIff`.
- The kill switch (README.md:75) does not recall a verdict already reached nor orders already approved. What can
  still happen is bounded, and it is known exactly when the approved stream can still grow and when the exchange can
  still be called: `ApprovalGrowsIffVerdictReached`, `FurtherCallIff`. After a halt nothing at all is approved:
  `HaltDrain`.
- "Unfilled orders are cancelled on shutdown" (README.md:119) is known to be kept exactly for orders whose create call
  returned and for which no call to cancel raised: `LookedAfterIff`. (One that raised may have taken effect all the same.)
  A lost create reply is never followed up, and an order whose cancellation raised after a timeout is forgotten and not
  asked for again: `TeardownAsksIffOutstanding`.
- The drawdown protection (README.md:118) is documented to liquidate. The code halts instead, which also blocks sales,
  and it measures drawdown on positions without cash: `DrawdownHaltsIff`, `CashHaltsIff`.
- The exit rules are said to sell the full position at +5% and at −2% (core/config.py:85-86). Their requests state no amount and no
  price, so the limit on a single order is applied to the whole position at the last ticker price: `ExitApprovedIff`. At the
  default limits a full purchase of 50000 KRW that has risen by 5% can no longer be sold: `FullPositionTakesNoProfit`.
- In dry-run mode risk checks are said to run normally (README.md:61-63). A synthetic fill is worth something only if its
  order states a price and a volume, which market orders do not, so the ledger the checks read stays empty:
  `SyntheticFillWorth`, `FedDryRun`.
- Results other than fills never reach the ledger, so a cancelled order's partial execution is missed:
  `CancelledPurchaseIsMissed`; `LedgerExactIff` says when it agrees with a ledger that counts all results.
- Requests between two refreshes of the balance may add up to more than the balance: `OverspendsIff`.
- `strategy_rules.py:13-15` says the check is skipped while no older price exists. It is not: `TwoYoungTicksSuffice`.
- Equal moving averages count as bearish: `EqualAveragesLeanBearish`.

## Model

| member | source | states |
|---|---|---|
| PipelineExposure.ExposureUnderLag | src/coin_trader/agents/risk_manager.py:106-191 | In every run with a fixed positive balance, purchases by a KRW amount and fills valued at no more than that, and at most k approved purchases of a market open, ledger position plus what is open never exceeds ratio × balance + (each·k − 1) × largest order, whatever the interleaving of approvals, exchange replies, lost publications, fills and sales. each is how often one approval may count: once, for its fills up to three, or for its orders on the exchange |
| PipelineExposure.ExposureStep | src/coin_trader/agents/risk_manager.py:106-191 | Every single step of the pipeline keeps that bound |
| PipelineExposure.AdmissionKeepsBound | src/coin_trader/agents/risk_manager.py:154-191 | Admitting a purchase that fits beside the lagging position keeps the bound on top of at most k − 1 others |
| PipelineExposure.AdmissionFits | src/coin_trader/agents/risk_manager.py:154-191 | And so it does beside anything that is no more than the position on record |
| PipelineExposure.SettleKeepsExposure | src/coin_trader/agents/risk_manager.py:106-124 | Hearing of a fill moves at most the approved amount from what is open into the position |
| PipelineExposure.OtherStepsKeepExposure | src/coin_trader/agents/executor.py:90-146 | No publication, applied or not, no exchange reply, failure or observation raises exposure |
| PipelineExposure.AdmittedPurchase | src/coin_trader/agents/risk_manager.py:179-198 | What an approval guarantees of the purchase: its size, its fit beside the position, a free slot or a position already open |
| PipelineExposure.AlwaysSound | src/coin_trader/agents/risk_manager.py:106-124 | In every such run positions are nonnegative, the open count is exact, everything open passed the size check, and nothing counts more often than it may |
| PipelineExposure.ThreeFitAll | src/coin_trader/agents/executor.py:30 | Three attempts cover every step of every run, so the bound with each = 3 needs no assumption about failures |
| PipelineShareIff.ShareHoldsIff | README.md:115 | The documented share of the balance, as a bound on what is bought: for all permissive limits, every balance and market, it is kept by all runs with so many attempts for an order, so many purchases of the market open, purchases valued at no less than a part of their cost, sales valued at no more than a multiple of what they brought in, and so much in the account at the start, if and only if that is one attempt, one purchase at a time, the full cost, no more than was brought in, and nothing |
| PipelineShareIff.ManyOrdersExceed | src/coin_trader/agents/risk_manager.py:184-191 | A second open purchase or a second attempt suffices to exceed it, whatever else is granted |
| PipelineShareIff.UndervaluedExceed | src/coin_trader/agents/executor.py:185-195 | So do purchases the ledger takes for less than they cost, reported with the KRW amount as the price and less than one unit bought |
| PipelineShareIff.OvervaluedSaleExceeds | src/coin_trader/agents/risk_manager.py:113-115 | So does a sale the ledger takes for more than it brought in |
| PipelineShareIff.HeldBeforeExceeds | src/coin_trader/agents/risk_manager.py:37 | So does anything in the account at the start, where the ledger is empty |
| PipelineShareIff.UndervaluedWithoutBound | src/coin_trader/agents/executor.py:185-195 | Without a floor under the values there is no bound: for every bound a run with one purchase at a time, every create call returned, every order seen done, published, heard and settled, no purchase valued at more than its cost, and more bought than the bound; when no price is reported the ledger shows nothing at all, and it happens also when the KRW amount is echoed as the price |
| PipelineShareIff.BoughtOneByOne | src/coin_trader/agents/risk_manager.py:106-191 | The run behind these: n purchases through all three agents and back, which cost n amounts, and of which the ledger shows what the exchange reports |
| PipelineHolding.HeldUnderLag | src/coin_trader/agents/risk_manager.py:106-191 | When no purchase is undervalued and no sale overvalued, what purchases have cost and sales not brought back is never more than the ledger shows, and with what is open never exceeds the bound on exposure; overvalued purchases do no harm |
| PipelineShare.BoughtUnderLag | README.md:115 | Then what is bought, at cost, every order included that was accepted and whose end the ledger has not been told, lost replies and all, never exceeds what was held at the start plus ratio × balance + (attempts × k − 1) × largest order |
| PipelineShare.BoughtInAnyRun | README.md:115 | The same with factor 3 for all runs, whatever fails |
| PipelineShare.OneOrderHolds | README.md:115 | With one purchase open, no attempt repeated, prudent values and nothing held before, the documented share is kept in every run |
| PipelineShare.ShareExceeded | src/coin_trader/agents/risk_manager.py:184-191 | After n purchases of a size that fits n + 1 times, two more orders are on the exchange while the ledger still shows n |
| PipelineShare.TwoApproved | src/coin_trader/agents/risk_manager.py:184-191 | One such run: two purchases that each fit are both approved before either fill is heard of |
| PipelineShare.ReplacedOnce | src/coin_trader/agents/executor.py:116-129 | The other, with one purchase open: its create call is accepted, the reply is lost, and it is placed again |
| PipelineShare.Accumulate | src/coin_trader/agents/risk_manager.py:106-191 | By n cycles of request, approval, placement, fill and settlement the ledger really reaches n amounts |
| PipelineShareIff.StraysWithoutBound | src/coin_trader/agents/executor.py:159-176 | Bounding only the purchases in flight bounds nothing: orders with lost replies outlive the handling of their request, and for every bound there is a run with one purchase in flight that exceeds it while the ledger is empty |
| PipelineAccepted.NoOrderEscapes | src/coin_trader/agents/executor.py:159-208 | Every order the exchange ever accepted is being handled, has a result on order:filled still to be read, has had its whole end read, or is one the executor has lost sight of |
| PipelineAccepted.CostAccounted | src/coin_trader/agents/executor.py:159-208 | So the cost of every order ever accepted is in what is bought, or came back by a sale or because the order ended with nothing executed |
| PipelineAccepted.AcceptedIsOpen | src/coin_trader/agents/executor.py:116-142 | What the exchange has accepted is part of what is counted as open |
| PipelineOpenPositions.OpenPositionsUnderLag | src/coin_trader/agents/risk_manager.py:122-124 | In every run with at most k approved purchases open, markets with a positive position on the ledger plus markets about to be opened never exceed the maximum + k − 1, also when a sale empties a market that an open purchase will open again |
| PipelineOpenPositions.AdmissionTouchesWithinBound | src/coin_trader/agents/risk_manager.py:193-198 | Admission touches a new market only while the count is below the limit |
| PipelineOpenPositions.SettleTouchesNothingNew | src/coin_trader/agents/risk_manager.py:106-124 | A settled fill opens no market that was not already counted as about to be opened |
| PipelineOpenPositions.PositiveAfter | src/coin_trader/agents/risk_manager.py:108-124 | A result of nonnegative value opens no market but its own, and only by a purchase |
| OrderPipeline.Conservation | src/coin_trader/agents/risk_manager.py:126-152 | At every moment of every run, as multisets of request ids: the requests submitted are exactly the unread, the one under judgement, the rejected, those lost to a failed publication, the approved and unread, the one in hand, those with a result that was heard of, and the dropped |
| OrderPipeline.NothingLost | src/coin_trader/agents/executor.py:90-146 | When publications succeed and no task is cancelled, approved plus rejected is judged and filled plus failed plus in hand is taken |
| OrderPipeline.InvAlways | src/coin_trader/agents/risk_manager.py:126-152 | Both accounts, and the agreement of the order in hand with the executor’s program counter, hold in every reachable state |
| OrderPipeline.ApprovedOnce | src/coin_trader/agents/risk_manager.py:126-152 | No request is approved twice, and an approved order is the request of that id |
| OrderPipeline.ReleasedOnce | src/coin_trader/agents/executor.py:104-142 | Handling ends by putting the order on exactly one of heard filled, heard failed and dropped |
| PipelineFlow.Flow | src/coin_trader/agents/risk_manager.py:106-152 | Tickets enter what is open by admission, as often as they may count, leave when a fill of theirs is settled, and any other step can only lose them |
| PipelineFlow.CopiesPay | src/coin_trader/agents/executor.py:116-142 | An order in hand pays with the attempts it has left for every fill that reaches the stream and every order that goes astray |
| PipelineFlow.FewCopiesKept | src/coin_trader/agents/executor.py:116-142 | No ticket ever counts more often than one approval may |
| PipelineSafety.OnlyAdmittedPlaced | src/coin_trader/agents/executor.py:159-165 | Every create call of every run is made for a request that the risk manager had judged earlier in that run with all limits satisfied, with exactly its market, side, type, volume and price |
| PipelineSafety.ThreeCallsPerTicket | src/coin_trader/agents/executor.py:116-129 | One request leads to at most three create calls in any run |
| PipelineSafety.ResultsPerTicket | src/coin_trader/agents/executor.py:116-142 | However publications raise, are applied or get lost, one request has at most three results on order:filled and one on order:failed, and at most one of all was heard of |
| PipelineGate.KillSwitchDrain | src/coin_trader/agents/risk_manager.py:156-158 | From any moment at which trading is disabled and while it stays so: nothing is approved except a verdict already reached, and later create calls are at most three for each order then past the gate |
| PipelineGate.ApprovalGrowsIffVerdictReached | src/coin_trader/agents/risk_manager.py:126-158 | With trading disabled, the approved stream can still grow exactly when a verdict to approve was reached and not yet published |
| PipelineGate.FurtherCallIff | README.md:75 | With trading disabled, some continuation still makes a create call exactly when this is no dry run, the executor’s task has not ended, and the order in hand has an attempt left, or an order is approved and unread, or a verdict to approve has been reached |
| PipelineGate.HaltDrain | src/coin_trader/agents/risk_manager.py:162-177 | From a halt until a daily reset takes effect nothing at all is approved, and later create calls are at most three for each order then approved and unread or in hand, whatever prices, fills, switch and account do |
| PipelineGate.HaltedHoldsNoApproval | src/coin_trader/agents/risk_manager.py:126-177 | A halted risk manager never has a verdict to approve on its way |
| PipelineGate.Drain | src/coin_trader/agents/risk_manager.py:156-177 | The common core: while the gate is shut in every state of a run, the potential "calls made + calls still possible" never grows |
| PipelineGate.NothingPassesShut | src/coin_trader/agents/risk_manager.py:156-177 | No single step of a shut pipeline raises that potential |
| PipelineSafety.DryRunPlacesNothing | src/coin_trader/agents/executor.py:95-114 | In dry-run mode no create call is ever made and nothing is pending |
| PipelineSafety.DryRunLedgerStaysEmpty | src/coin_trader/agents/executor.py:103-113 | In dry-run mode, when no order states both a price and a volume, no position ever becomes positive and no market counts as open |
| PipelineSafety.SyntheticFillWorth | src/coin_trader/agents/executor.py:103-113 | A synthetic fill is worth something exactly when the order states both, and then what they say |
| PipelineFills.FillsFromViews | src/coin_trader/agents/executor.py:185-208 | That fills are worth at most what was approved comes down to what the exchange reports: it holds in every live run in which no finished purchase is reported as worth more than its amount |
| PipelineFills.ValuedFromViews | src/coin_trader/agents/executor.py:185-208 | And that purchases are not undervalued nor sales overvalued holds in every live run in which the exchange reports no finished order so |
| PipelineFills.FillsAreReports | src/coin_trader/agents/executor.py:185-208 | In a live run every result on order:filled is made of a report of the exchange on that very order |
| PipelineFills.MarketPurchaseWorth | src/coin_trader/agents/executor.py:159-165 | A market purchase is placed with its KRW amount as the price. If no price is reported the ledger takes it for nothing; if that price is reported back, for its cost exactly when one unit was bought, for less exactly when less was, and for more exactly when more was |
| PipelineEndToEnd.FedRequests | src/coin_trader/agents/portfolio_manager.py:289-296 | Requests of any portfolio manager run meet the hypotheses of the bounds: purchases carry an amount within the limits, and no order states a price |
| PipelineEndToEnd.FedCalls | src/coin_trader/agents/executor.py:150-165 | From decision to exchange: every create call of a pipeline fed by the portfolio manager is a market purchase for a KRW amount between 5000 and all three limits, or a market sale of a positive volume |
| PipelineEndToEnd.PassedWereRequested | src/coin_trader/agents/risk_manager.py:126-152 | Whatever is past the risk manager was requested |
| PipelineEndToEnd.FedBought | src/coin_trader/agents/portfolio_manager.py:271-296 | The bound on what is bought, for a pipeline fed by the portfolio manager |
| PipelineEndToEnd.FedShareHoldsIff | README.md:115 | With prudent values and nothing held before, the share is kept by all runs fed by the portfolio manager if and only if there is one attempt and one purchase at a time: the runs that exceed it are among those it can feed, with purchases above 5000 KRW and 120 s apart |
| PipelineEndToEnd.FedWithoutBound | src/coin_trader/agents/portfolio_manager.py:271-296 | And so are runs that exceed every bound with one order at a time, when the KRW amount is echoed as the price |
| PipelineEndToEnd.FedDryRun | README.md:61-63 | Fed by the portfolio manager in dry-run mode, the ledger that the risk checks read stays empty for good |
| ExecutorMachine.WorkBound | src/coin_trader/agents/executor.py:29-32 | For every exchange behaviour the orders taken cost at most 3 create, 180 get, 3 cancel and 4 publish calls, 186 s of sleep and 369 steps each |
| ExecutorPolls.TimesOutIffSixtyPolls | src/coin_trader/agents/executor.py:29-32 | In every run the timeout of an order can come next exactly when, since the reply that created it, the executor has slept sixty times and seen it open sixty times and done nothing else |
| ExecutorPolls.EachTimeoutAfterSixtyPolls | src/coin_trader/agents/executor.py:177-218 | So wherever a run gives up on an order it has polled it exactly sixty times |
| ExecutorPolls.WatchedIsInHand | src/coin_trader/agents/executor.py:177-208 | Conversely an order that has been watched since it was created is in hand, at exactly that poll, and never at more than sixty |
| ExecutorPolls.BudgetAttained | src/coin_trader/agents/executor.py:29-32 | The bounds on one order are attained together: a run of one order with 3 create, 180 get and 4 publish calls, 186 s of sleep and 369 steps |
| ExecutorPolls.ThreeTimeouts | src/coin_trader/agents/executor.py:210-218 | And so is the bound of 3 cancellations, by three timeouts of sixty polls each and no back-off between them |
| ExecutorMachine.WorkPaidFor | src/coin_trader/agents/executor.py:116-142 | From any point of a run on, work done and still possible is paid for by the orders taken since |
| ExecutorMachine.OneOrderBound | src/coin_trader/agents/executor.py:116-142 | The bound for one order from the moment it is taken |
| ExecutorMachine.StepPaidFor | src/coin_trader/agents/executor.py:148-218 | Every reply lowers what the handling of the order can still cost by at least what it cost |
| ExecutorMachine.BusyMovesOn | src/coin_trader/agents/executor.py:116-142 | No handler is stuck: a busy one always has a reply that moves it on, so with the step bound handling ends |
| ExecutorMachine.DryRunCallsNothing | src/coin_trader/agents/executor.py:95-114 | In dry-run mode no run calls the exchange |
| ExecutorMachine.DryRunReports | src/coin_trader/agents/executor.py:95-114 | Every result of a dry run is a fill of an order taken, with the volume and the price that order states or zero, at most one for each order |
| ExecutorPlacements.PlacementLaw | src/coin_trader/agents/executor.py:116-129 | Placements are conserved: one for each order taken and one for each back-off or timeout that goes on to another attempt |
| ExecutorPlacements.OnePlacementEachIff | src/coin_trader/agents/executor.py:116-129 | A run after which nothing is in hand made one placement per approved order exactly when in it no create call, status query or publication of a fill raised and no order was seen open sixty times since it was created |
| ExecutorPlacements.FilledOrderPlacedTwice | src/coin_trader/agents/executor.py:118-129 | A concrete run in which an order seen filled is placed a second time because publishing its fill raised, whether or not the fill had reached the stream |
| ExecutorPlacements.ThreeAcceptedForOne | src/coin_trader/agents/executor.py:116-129 | The bound of three create calls is attained, by orders the exchange has all accepted |
| ExecutorMachine.PlacedOnlyTaken | src/coin_trader/agents/executor.py:148-165 | Every create call carries market, side and volume of an order that was taken, the exchange’s type for its type and side, and its price, or its amount where the price is missing or zero |
| ExecutorMachine.ReportedAsSeen | src/coin_trader/agents/executor.py:185-208 | Every result a live executor puts on order:filled repeats uuid, volume, price, fee and status that the exchange gave for that order when it had ended; every failure reports nothing executed |
| ExecutorMachine.OneResultEach | src/coin_trader/agents/executor.py:116-142 | In every run the orders taken are those with exactly one publication that returned, those dropped by a cancellation or by a raising last publication, and the one in hand |
| ExecutorMachine.ResultsOnStreams | src/coin_trader/agents/executor.py:116-142 | What is on the streams is one result for each publication that returned and one for each that was applied although it raised or was cancelled, at most four for each order |
| ExecutorShutdown.PendingIsOutstanding | src/coin_trader/agents/executor.py:166-218 | At every moment the pending set is exactly: created, and since then neither seen done or cancelled nor given up with a cancellation attempt |
| ExecutorShutdown.NoLeak | src/coin_trader/agents/executor.py:71-83 | After teardown every order whose create call returned was seen finished or had its cancellation attempted, however calls raised and wherever the task was cancelled |
| ExecutorShutdown.NoCreateAfterTeardown | src/coin_trader/core/base_agent.py:61-67 | Tasks end before teardown, so nothing is created once teardown has begun |
| ExecutorShutdown.ClosingCoversPending | src/coin_trader/agents/executor.py:71-83 | During teardown each pending order is still to be cancelled or has been tried |
| ExecutorShutdown.TeardownAsksIffOutstanding | src/coin_trader/agents/executor.py:71-83 | Teardown asks for the cancellation of exactly the orders that were outstanding when the tasks finished |
| ExecutorShutdown.LookedAfterIff | README.md:119 | For every order the exchange ever accepted: once the agent has stopped it is known to be looked after, seen finished or by a call to cancel it that returned, exactly when its create call returned and no call to cancel it raised |
| ExecutorShutdown.CoveredByOne | src/coin_trader/agents/executor.py:71-83 | An order is given up once: seen finished or asked to be cancelled by one event only |
| ExecutorMachine.AlwaysWellFormed | src/coin_trader/agents/executor.py:116-218 | Attempt and poll counters stay in range, a polled order is pending, and a stopping agent has no task |
| Executor.Agent.constructor | src/coin_trader/agents/executor.py:38-43 | A new agent shows the initial machine state |
| Executor.Agent.PlaceOrder | src/coin_trader/agents/executor.py:148-218 | Create, remember, poll: ends with a result, a timeout after sixty polls that showed the order open, an exception or the cancellation of the task, each leaving the machine where it should be |
| Executor.Agent.Poll | src/coin_trader/agents/executor.py:177-218 | The poll loop: it gives up exactly after sixty sleeps of a second and sixty looks that showed the order open |
| Executor.Agent.PollOnce | src/coin_trader/agents/executor.py:180-208 | One sleep and one look; a finished order leaves the pending set |
| Executor.Agent.GiveUpOn | src/coin_trader/agents/executor.py:210-218 | A timeout, always after sixty polls, asks for cancellation and forgets the order whether or not that succeeded |
| Executor.Agent.ExecuteOrder | src/coin_trader/agents/executor.py:90-146 | One order ends with exactly one result heard of unless the last publication raised or the task was cancelled, everything new on the streams is about it, it costs no more than its bound, and in dry-run mode creates nothing |
| Executor.Agent.Attempts | src/coin_trader/agents/executor.py:116-142 | The retry loop with its growing back-off and the final failure message |
| Executor.Agent.BackOff | src/coin_trader/agents/executor.py:127-129 | The sleep between two attempts, twice as long after the second |
| Executor.Agent.Look | src/coin_trader/agents/executor.py:182-208 | One status query: a finished order leaves the pending set |
| Executor.Agent.Attempt | src/coin_trader/agents/executor.py:117-121 | The body of the try: a published result, a timeout, or an exception |
| Executor.Agent.PublishAs | src/coin_trader/agents/executor.py:113-114 | A publication nothing retries; one that raises or is cancelled may have reached the stream |
| Executor.Agent.PublishFill | src/coin_trader/agents/executor.py:118-121 | The publication of a fill, which may have reached the stream although it raised |
| Executor.Agent.Stop | src/coin_trader/core/base_agent.py:61-67 | Cancel, wait for the task, tear down: teardown has asked for the cancellation of exactly what was pending, and every order ever accepted is known to be finished or cancelled exactly when its create call returned and no call to cancel it raised |
| Executor.Agent.Teardown | src/coin_trader/agents/executor.py:71-83 | The teardown loop asks for the cancellation of every pending order and of no other, whatever the answers |
| RiskLedger.LedgerClosedForm | src/coin_trader/agents/risk_manager.py:106-120 | After any list of results whose purchases have nonnegative value, a position is the largest rise of its own unclamped running sum, S_n − min(0, min S_k) |
| RiskLedger.FillMoves | src/coin_trader/agents/risk_manager.py:106-120 | A filled order moves its own market by executed volume times executed price, to zero at least; nothing else moves a position |
| RiskLedger.EveryMarketClosedForm | src/coin_trader/agents/risk_manager.py:106-120 | The closed form for all markets at once |
| RiskLedger.LedgerIsLocal | src/coin_trader/agents/risk_manager.py:106-120 | A position depends only on the results of its own market |
| RiskLedger.LedgerNonnegative | src/coin_trader/agents/risk_manager.py:113-115 | No position is ever negative |
| RiskLedger.LedgerExactIff | src/coin_trader/agents/risk_manager.py:108 | After every prefix of the results the ledger agrees with the ledger that counts all of them exactly when every result it does not count is worth nothing or sold what it did not hold |
| RiskLedger.CancelledPurchaseIsMissed | src/coin_trader/agents/risk_manager.py:108 | A cancelled order that had bought something is missed |
| RiskLedger.AdmittedIffWithinLimits | src/coin_trader/agents/risk_manager.py:154-200 | An order is admitted exactly when every documented limit, written without divisions or evaluation order, holds of the ledger |
| RiskLedger.AmountLimitsIff | src/coin_trader/agents/risk_manager.py:179-211 | What the order limit and the position limit are applied to, case by case: the amount stated, else price times volume, else the last ticker price times volume, else nothing; with no other limit breached an order is rejected as too large, for its share or for the open count exactly when that amount says so |
| RiskLedger.UnpricedOrderTooLargeIff | src/coin_trader/agents/risk_manager.py:179-211 | In every run of an enabled, unhalted manager with no limit breached, an order without amount and price is rejected as too large exactly when its volume times the price of the last ticker of its market exceeds the limit |
| RiskLedger.UnpricedOrderUnseen | src/coin_trader/agents/risk_manager.py:179-211 | Before any ticker of its market such an order is never too large |
| RiskLedger.PriceOnRecord | src/coin_trader/agents/risk_manager.py:102-104 | In every run the price on record is that of the last ticker of the market, and without one what it was before |
| RiskLedger.SaleJudgedBySize | src/coin_trader/agents/risk_manager.py:184-200 | With no limit breached, size is all that a sale can be rejected for |
| PipelineExits.ExitApprovedIff | src/coin_trader/agents/risk_manager.py:179-182 | The exit rules are not exempt: over all runs of portfolio manager and risk manager in which no other limit is breached, an exit that is due is approved exactly when the position is worth no more than the largest order at the last price seen |
| PipelineExits.FullPositionTakesNoProfit | src/coin_trader/agents/risk_manager.py:179-182 | So a position that cost as much as the largest order is never sold at a profit: every take-profit of it is rejected as too large |
| PipelineExits.FullPositionReached | src/coin_trader/agents/portfolio_manager.py:173-185 | Such a position is reached: one purchase at the default limits, after a rise of 5% |
| PipelineExits.ExitOrder | src/coin_trader/agents/portfolio_manager.py:198-206 | The request of an exit that is due: the whole position, at the market, without price and amount |
| RiskLedger.GateReasonsIff | src/coin_trader/agents/risk_manager.py:154-177 | The reasons that come before any look at the order, each exactly when it applies: the switch first, then the halt, the daily loss, the drawdown |
| RiskLedger.HaltsIffBreached | src/coin_trader/agents/risk_manager.py:162-177 | Validation changes nothing but the halt flag, and sets it exactly when it is consulted, enabled, on a breached loss or drawdown limit |
| RiskLedger.DrawdownHaltsIff | src/coin_trader/agents/risk_manager.py:171-177 | Below the daily loss limit the first request halts trading for the drawdown exactly when positions alone are worth less than the allowed part of a positive peak |
| RiskLedger.CashHaltsIff | src/coin_trader/agents/risk_manager.py:171-177 | So with a peak on record and no position the first request halts trading exactly when the limit is below 100%, whatever cash there is |
| RiskLedger.RatioInertWithoutBalance | src/coin_trader/agents/risk_manager.py:188-191 | While the total balance is the zero it starts with, the position limit rejects nothing and its value is irrelevant |
| RiskLedger.InertInEveryRun | src/coin_trader/agents/risk_manager.py:37-53 | In every run in which nothing sets the account figures, as nothing in the code does, no request is ever rejected for the share of the balance, the daily loss or the drawdown, and nothing ever halts |
| RiskLedger.InertLimits | src/coin_trader/agents/risk_manager.py:154-200 | What is then left: an order is admitted exactly when trading is enabled, it is small enough, and a purchase finds its market held or a position free |
| RiskLedger.HaltLatch | src/coin_trader/agents/risk_manager.py:162-177 | Once halted, nothing is admitted before a daily reset takes effect, over all runs of the agent |
| RiskLedger.LossStandsForTheDay | src/coin_trader/agents/risk_manager.py:164-169 | A daily loss stands until a reset is checked more than 86400 seconds after the last one: until then no run changes it, and while it is beyond the limit nothing is admitted |
| RiskLedger.ResetsSpaced | src/coin_trader/agents/risk_manager.py:213-221 | Resets that take effect are at least a day apart, even if the wall clock is set back |
| RiskLedger.ResetsPerWindow | src/coin_trader/agents/risk_manager.py:213-221 | Any window of T seconds holds at most floor(T / 86400) + 1 resets |
| RiskLedger.SumValuesAny | src/coin_trader/agents/risk_manager.py:173 | The sum over the dictionary does not depend on iteration order |
| RiskLedger.TotalValue | src/coin_trader/agents/risk_manager.py:173 | The loop computes that sum |
| RiskManager.Agent.constructor | src/coin_trader/agents/risk_manager.py:33-53 | The initial ledger: nothing held, nothing halted, balances zero |
| RiskManager.Agent.OnTicker | src/coin_trader/agents/risk_manager.py:102-104 | Only the price of the market changes |
| RiskManager.Agent.OnOrderResult | src/coin_trader/agents/risk_manager.py:106-124 | The new ledger is the replay of all results seen, every position is its closed form, the open count is recomputed from positive positions |
| RiskManager.Agent.Adjust | src/coin_trader/agents/risk_manager.py:109-120 | A fill moves its own market only: down to no less than zero for a sale, up for a purchase |
| RiskManager.Agent.ValidateOrder | src/coin_trader/agents/risk_manager.py:154-200 | Returns no reason exactly when all limits hold; changes at most the halt flag |
| RiskManager.Agent.OnOrderRequest | src/coin_trader/agents/risk_manager.py:126-152 | Approved exactly when within limits; otherwise rejected with the first limit that failed |
| RiskManager.Agent.CheckDailyReset | src/coin_trader/agents/risk_manager.py:213-221 | Later than 86400 seconds after the last reset: loss zero, halt cleared, time set; otherwise nothing |
| PortfolioManager.AlwaysPaced | src/coin_trader/agents/portfolio_manager.py:194-206 | In every run the recorded request times of a market are at least 120 s apart across exit rules, rule entries, combiner purchases and combiner sales, and the dictionary holds the last of them |
| PortfolioManager.SpendRate | src/coin_trader/agents/portfolio_manager.py:271-297 | Any window of T seconds holds at most floor(T / 120) + 1 requests for a market, spending at most that many times the smaller of the two size limits |
| PortfolioManager.PaceKept | src/coin_trader/agents/portfolio_manager.py:194-297 | Every handler and decision keeps the pace of every market |
| PortfolioManager.OneRequestEach | src/coin_trader/agents/portfolio_manager.py:167-308 | An event sends at most one request, well made: a purchase within limits and balance, or a sale of the whole position held |
| PortfolioManager.AllWellMade | src/coin_trader/agents/portfolio_manager.py:198-295 | So is every request of every run |
| PortfolioManager.ExitLevels | src/coin_trader/agents/portfolio_manager.py:173-191 | Take-profit and stop-loss fire exactly at the documented price levels, take-profit first |
| PortfolioRequests.ExitSends | src/coin_trader/agents/portfolio_manager.py:167-206 | In every run an exit check adds exactly one sale of exactly the volume held, at the market and stamped now, exactly when position, average and price are those of a watched market, the price is at or beyond either level, and no request of the market is less than 120 s old; otherwise requests and stamps are unchanged |
| PortfolioManager.BuyAmountLargest | src/coin_trader/agents/portfolio_manager.py:277-287 | A purchase is made exactly when the balance is above 5000 and both limits reach it, and is then the largest all three allow |
| PortfolioManager.DecisionSends | src/coin_trader/agents/portfolio_manager.py:221-297 | Exactly when a decision asks for a purchase, for a sale, or for nothing, and that it spends the pending rule signal in any case |
| PortfolioRequests.DecisionAsks | src/coin_trader/agents/portfolio_manager.py:221-297 | In every run exactly what a decision asks for, in stamps, signals, balance, limits and position: the largest purchase that all three allow if that is worth 5000 KRW, the whole position, or nothing |
| PortfolioRequests.CoolingIff | src/coin_trader/agents/portfolio_manager.py:194-196 | A market cools down exactly while one of its requests is less than 120 s old |
| PortfolioRequests.PriceOnRecord | src/coin_trader/agents/portfolio_manager.py:141-143 | In every run the price on record is that of the market’s last ticker, and there is none before the first |
| PortfolioRequests.RuleSignalWaitsIff | src/coin_trader/agents/portfolio_manager.py:145-150 | A rule signal to buy waits exactly from its arrival to the next decision about its market |
| PortfolioRequests.KrwOnRecord | src/coin_trader/agents/portfolio_manager.py:310-318 | Over any number of refreshes the balance is that of the last KRW account of the last refresh that had one, and zero before |
| PortfolioRequests.HoldingsOnRecord | src/coin_trader/agents/portfolio_manager.py:310-323 | Positions and average prices are what the last refresh said; nothing is held before one |
| PortfolioManager.BalancesAreLatest | src/coin_trader/agents/portfolio_manager.py:310-330 | After a refresh exactly the markets with an account of positive balance are held, at the balance and average price of the last such account |
| PortfolioManager.RuleSignalSpentOnce | src/coin_trader/agents/portfolio_manager.py:145-150 | Over every run, purchases on rule signals plus the one pending never outnumber the rule signals received |
| PortfolioManager.OverspendsIff | src/coin_trader/agents/portfolio_manager.py:271-297 | Between two refreshes of the balance, whatever else happens, n purchases spend n times the same amount, and more than the balance exactly when n ≥ 2 and the balance is less than n times the smaller size limit |
| PortfolioManager.RoundBuysAll | src/coin_trader/agents/portfolio_manager.py:131-135 | A round over any number of different markets outside their cooldown sends a purchase for each |
| PortfolioManager.PublicationCommutes | src/coin_trader/agents/portfolio_manager.py:205-206 | A handler that runs while a request is being published has the same effect before and after it |
| PortfolioManager.Agent.constructor | src/coin_trader/agents/portfolio_manager.py:49-74 | A new agent holds nothing and has sent nothing |
| PortfolioManager.Agent.OnTicker | src/coin_trader/agents/portfolio_manager.py:141-143 | The current price is recorded |
| PortfolioManager.Agent.OnSignal | src/coin_trader/agents/portfolio_manager.py:145-152 | A rule BUY waits for the next decision, other rule signals are dropped, every other signal goes to the combiner |
| PortfolioManager.Agent.RefreshBalances | src/coin_trader/agents/portfolio_manager.py:310-330 | Positions and average prices are rebuilt from the accounts; if the call raises nothing changes |
| PortfolioManager.Agent.CheckExitRules | src/coin_trader/agents/portfolio_manager.py:167-219 | One exit check of the machine, and one turn; what the check sends is `PortfolioRequests.ExitSends` |
| PortfolioManager.Agent.TryBuy | src/coin_trader/agents/portfolio_manager.py:271-308 | The machine’s purchase at the time read on entry |
| PortfolioManager.Agent.MakeDecision | src/coin_trader/agents/portfolio_manager.py:221-269 | One decision of the machine: a pending rule signal is spent, otherwise the verdict of the combiner’s full log is followed |
| PortfolioManager.Agent.Follow | src/coin_trader/agents/portfolio_manager.py:245-259 | The combiner’s verdict outside the cooldown |
| PortfolioManager.Agent.Run | src/coin_trader/agents/portfolio_manager.py:130-135 | For any number of rounds and any interference between awaits, each round gives every market its turn and then sleeps 15 s, and the requests on the stream keep pace and shape |
| PortfolioManager.Agent.Round | src/coin_trader/agents/portfolio_manager.py:131-135 | One round: exit check and decision for each market in turn, and a sleep of 15 s at least |
| PortfolioManager.Agent.Visit | src/coin_trader/agents/portfolio_manager.py:133-134 | A market’s turn: its exit check, then its decision, and no other turn in between |
| PortfolioManager.InTurnAt | src/coin_trader/agents/portfolio_manager.py:131-134 | In a round the i-th market has the turns 2i and 2i + 1, and there are no others |
| StreamGroup.AlwaysSound | src/coin_trader/core/redis_bus.py:60-106 | For every behaviour of publishers, trimming, handlers and event loop: entries are handed out at most once and in stream order, a delivered entry is acknowledged or lost or waiting but only one of these, acknowledged implies completed, and only trimmed entries are skipped |
| StreamGroup.GapFreeIffNeverOvertaken | src/coin_trader/core/redis_bus.py:79-85 | Delivery is a gap-free prefix of what was published exactly when trimming never overtook the cursor at a read |
| StreamGroup.GapFreeUpToLagIff | src/coin_trader/core/redis_bus.py:15-16 | All runs whose lag stays within L are gap-free if and only if L ≤ 10000 |
| StreamGroup.TrimmedLittle | src/coin_trader/core/redis_bus.py:44-49 | Trimming keeps at least the newest 10000 entries in every run |
| StreamGroup.NothingLost | src/coin_trader/core/redis_bus.py:97-106 | Without faults, what was delivered is what was handled and acknowledged, in order, followed by the batch |
| StreamGroup.ExactlyOnceInOrder | src/coin_trader/core/redis_bus.py:60-106 | A faultless group that has caught up within the length limit has handled exactly what was published, once each and in order |
| StreamGroup.ReadsLikeACursor | src/coin_trader/core/redis_bus.py:79-106 | A faultless group that trimming never overtook is a cursor on the stream, as the agents of the pipeline are taken to be: what it has handled is what was published up to there, and the only step that moves it handles the entry it stands on |
| StreamGroup.OrderKept | src/coin_trader/core/redis_bus.py:79-106 | Every step keeps everything delivered, handed out, completed and acknowledged in increasing order |
| StreamGroup.PartitionKept | src/coin_trader/core/redis_bus.py:96-106 | Every step keeps delivered = acknowledged + lost + waiting |
| StreamGroup.Bus.EnsureGroup | src/coin_trader/core/redis_bus.py:52-58 | A missing stream or group is created at the beginning; an existing one is untouched |
| StreamGroup.Bus.Publish | src/coin_trader/core/redis_bus.py:42-50 | The entry is appended, cursors and batches stay as they are |
| StreamGroup.Bus.ReadOne | src/coin_trader/core/redis_bus.py:79-85 | Up to ten of the oldest entries not yet given to the group: the cursor is then ten on or past all there were |
| StreamGroup.Bus.ReadGroup | src/coin_trader/core/redis_bus.py:79-88 | One read over all streams takes every cursor ten entries on or past all there were; if it raises or is cancelled, what the server had handed out is abandoned |
| StreamGroup.Bus.ReadAll | src/coin_trader/core/redis_bus.py:79-85 | Every stream of the subscription is read |
| StreamGroup.Bus.Process | src/coin_trader/core/redis_bus.py:90-106 | Every entry read is tried and no cursor goes back; an exception goes on to the next entry, a cancellation abandons the rest |
| StreamGroup.Bus.ProcessOne | src/coin_trader/core/redis_bus.py:96-106 | The entries of one stream, in order |
| StreamGroup.Bus.OneRound | src/coin_trader/core/redis_bus.py:78-106 | A read and its handling: what was reached after k rounds is reached ten entries on after k + 1 |
| StreamGroup.Bus.Subscribe | src/coin_trader/core/redis_bus.py:60-106 | While the loop goes on, n rounds take the cursor of every subscribed stream past all entries there were at the start or 10n entries on, with nothing read left untried; whatever happens, the streams end as their machines say and every stream is sound |
| RateLimiter.WindowBound | src/coin_trader/exchange/rate_limiter.py:24-39 | Between any two grants of any run no more than burst + rate × elapsed were given |
| RateLimiter.AnyWindow | src/coin_trader/exchange/rate_limiter.py:24-39 | Any window of T seconds holds at most burst + rate × T grants |
| RateLimiter.OrderTraffic | src/coin_trader/exchange/rest_client.py:38-69 | However calls are mixed, placements and cancellations together get at most 8 + 8T grants in T seconds |
| RateLimiter.TokensInRange | src/coin_trader/exchange/rate_limiter.py:24-39 | Tokens stay between zero and the burst |
| RateLimiter.GrantsInOrder | src/coin_trader/exchange/rate_limiter.py:24-33 | Grants are given in time order |
| RateLimiter.RefillsCompose | src/coin_trader/exchange/rate_limiter.py:35-39 | Any chain of refills equals one refill at the last time |
| RateLimiter.QueueWithin | src/coin_trader/exchange/rate_limiter.py:24-33 | However late sleeps end, the k-th queued caller is served no sooner than tokens allow and no later than that by more than the lateness of the sleeps up to its own |
| RateLimiter.QueueClosedForm | src/coin_trader/exchange/rate_limiter.py:24-33 | With exact sleeps, exactly when the k-th queued caller is served |
| RateLimiter.FreshQueues | src/coin_trader/exchange/rest_client.py:38-39 | From a fresh start with exact sleeps the k-th of 25 queries or 8 placements and cancellations gets through at once, and later ones every 25th or 8th of a second |
| RateLimiter.QueueProgress | src/coin_trader/exchange/rate_limiter.py:24-33 | n queued callers are all served within n / rate and the total lateness of their sleeps |
| RateLimiter.TokenBucket.constructor | src/coin_trader/exchange/rate_limiter.py:17-22 | The bucket starts full |
| RateLimiter.TokenBucket.Acquire | src/coin_trader/exchange/rate_limiter.py:24-33 | One token, granted at return, after at most one sleep of at most 1 / rate, and no sleep if there was a token |
| RateLimiter.TokenBucket.TryTake | src/coin_trader/exchange/rate_limiter.py:28-31 | One pass of the loop takes a token exactly when the refilled bucket holds one |
| RateLimiter.TokenBucket.Refill | src/coin_trader/exchange/rate_limiter.py:35-39 | The bucket is the refilled one at the time read |
| RateLimiter.TokenBucket.Wait | src/coin_trader/exchange/rate_limiter.py:32-33 | The sleep is long enough for the next pass to succeed and at most 1 / rate |
| SignalCombiner.Combiner.constructor | src/coin_trader/strategies/combiner.py:18-24 | An empty cache and log |
| SignalCombiner.Combiner.Update | src/coin_trader/strategies/combiner.py:26-28 | The signal is the latest of its strategy in its market |
| SignalCombiner.Combiner.Clear | src/coin_trader/strategies/combiner.py:62-67 | A named market is cleared; no name or an empty one clears all |
| SignalCombiner.Combiner.Evaluate | src/coin_trader/strategies/combiner.py:30-60 | The verdict equals the one a plain log of all updates gives, although expired entries are deleted on the way |
| SignalCombiner.Collect | src/coin_trader/strategies/combiner.py:39-46 | Live signals and expired strategies, each once, in whatever order the dictionary gives |
| SignalCombiner.WalkOrderIrrelevant | src/coin_trader/strategies/combiner.py:42-46 | Whatever order the cache is walked in, the thresholded verdict is the same |
| SignalCombiner.MarketsIndependent | src/coin_trader/strategies/combiner.py:26-67 | What is done to another market never changes a market’s latest signals |
| SignalCombiner.AcceptedHasBacker | src/coin_trader/strategies/combiner.py:55-60 | An accepted verdict reaches the threshold and has a live, positively weighted signal at least as sure behind it |
| SignalCombiner.VerdictIff | src/coin_trader/strategies/combiner.py:55-60 | A side is the verdict exactly when its sum of weight times confidence is the larger one and at least the threshold times the sum of the positive weights, and the confidence is the quotient of these sums |
| SignalCombiner.UnanimousVerdict | src/coin_trader/strategies/combiner.py:52-60 | When the live signals that have a vote agree on a side and a positive confidence, that is the verdict if it reaches the threshold, and HOLD otherwise |
| SignalCombiner.LatestIff | src/coin_trader/strategies/combiner.py:26-67 | A strategy’s signal in a market is its one update that no later one replaced and no clearing removed |
| WeightedVote.WeightedCombine | src/coin_trader/strategies/signal.py:8-50 | The loop computes the vote that the laws below are about |
| WeightedVote.AddVote | src/coin_trader/strategies/signal.py:28-37 | One turn of the loop adds a positive weight to the total, and weight times confidence to the side of the signal |
| WeightedVote.VoteIsWeightedMean | src/coin_trader/strategies/signal.py:21-50 | The side with the larger sum of weight times confidence wins, and its confidence times the sum of the positive weights is that sum; a tie or a list without weight is HOLD at zero |
| WeightedVote.UnanimousVote | src/coin_trader/strategies/signal.py:28-50 | Signals that agree on a side and on a positive confidence get exactly that, whatever their weights |
| WeightedVote.VoteIgnoresOrder | src/coin_trader/strategies/signal.py:8-50 | Permuting the signals changes nothing |
| WeightedVote.VoteIgnoresScale | src/coin_trader/strategies/signal.py:8-50 | Rescaling all weights by a positive factor changes nothing |
| WeightedVote.VoteMirrors | src/coin_trader/strategies/signal.py:8-50 | Swapping BUY and SELL swaps the verdict at equal confidence |
| WeightedVote.SidesShareOne | src/coin_trader/strategies/signal.py:39-43 | The two side confidences are nonnegative and sum to at most one |
| WeightedVote.OneSideIffMajority | src/coin_trader/strategies/combiner.py:55-60 | At most one side can reach a positive threshold in every vote if and only if the threshold is above one half |
| WeightedVote.EvenSplit | src/coin_trader/strategies/signal.py:42-50 | The vote in which both sides reach exactly one half |
| WeightedVote.NoSurerThanSurest | src/coin_trader/strategies/signal.py:39-50 | The confidence never exceeds that of the surest positively weighted signal of the winning side |
| WeightedVote.WeightlessIsSilent | src/coin_trader/strategies/signal.py:29-31 | A signal without a positive weight does not change the vote |
| RuleWindow.PrunedIsWindow | src/coin_trader/agents/strategy_rules.py:97-105 | Pruning the buffer yields exactly the window of the last 3600 ticks ever received |
| RuleWindow.WindowIsSuffix | src/coin_trader/agents/strategy_rules.py:97-105 | That window is the end of the tick log from some point on: what lies before is too old or not among the latest 3600, and what lies after is neither |
| RuleWindow.AppendSuffices | src/coin_trader/agents/strategy_rules.py:53-56 | The capped buffer still holds all that later evaluations can ask of the full log |
| RuleWindow.ShortHistoryShowsNoRise | src/coin_trader/agents/strategy_rules.py:93-95 | For a positive threshold the early exit before pruning suppresses no signal |
| RuleWindow.RelativeRise | src/coin_trader/agents/strategy_rules.py:107-115 | The relative rise reaches the threshold exactly when the last price reaches the first one raised by it |
| RuleWindow.YoungLogIsNotSkipped | src/coin_trader/agents/strategy_rules.py:11-15 | With no tick older than the window the rule is applied, not skipped |
| RuleWindow.TwoYoungTicksSuffice | src/coin_trader/agents/strategy_rules.py:11-15 | Two ticks a second apart are enough for a signal |
| RuleWindow.EntryRule.constructor | src/coin_trader/agents/strategy_rules.py:49-56 | An empty history for every market |
| RuleWindow.EntryRule.OnTicker | src/coin_trader/agents/strategy_rules.py:84-89 | The tick is appended and the buffer capped at 3600 |
| RuleWindow.EntryRule.EvaluateEntry | src/coin_trader/agents/strategy_rules.py:91-128 | For a positive threshold a signal is emitted exactly when the window of the full log shows the rise |
| RuleWindow.Prune | src/coin_trader/agents/strategy_rules.py:100-102 | The loop drops exactly the leading ticks older than the cutoff |
| TechnicalScore.GenerateSignal | src/coin_trader/agents/strategy_ta.py:105-172 | The method computes the verdict on the scores |
| TechnicalScore.CollectScores | src/coin_trader/agents/strategy_ta.py:107-150 | The scores of the indicators that are present, in order |
| TechnicalScore.Amplify | src/coin_trader/agents/strategy_ta.py:157-160 | The in-place loop scales every score by 1.2 |
| TechnicalScore.VerdictIsMeanOfPulls | src/coin_trader/agents/strategy_ta.py:105-172 | All indicators together give the mean of what each says alone over those that are heard, times 1.2 when the volume is above one and a half times its average; beyond a tenth it is a signal of that strength |
| TechnicalScore.RsiAlone | src/coin_trader/agents/strategy_ta.py:109-121 | The index alone: 0.8 outside 30 to 70, 0.3 outside 45 to 55, with the side |
| TechnicalScore.MacdAlone | src/coin_trader/agents/strategy_ta.py:123-129 | The histogram alone: 0.6 with its sign, and nothing at zero |
| TechnicalScore.BandsAlone | src/coin_trader/agents/strategy_ta.py:131-141 | The bands alone: 0.7 to buy on or below the lower, 0.7 to sell on or above the upper, and a zero counts as missing |
| TechnicalScore.EmasAlone | src/coin_trader/agents/strategy_ta.py:143-150 | The averages alone: 0.5 to buy if the short one is above, 0.5 to sell otherwise |
| TechnicalScore.ScoresMirrorIff | src/coin_trader/agents/strategy_ta.py:109-150 | Reflecting the market negates every score exactly when averages are unequal and the price is not on both bands at once |
| TechnicalScore.SignalMirrors | src/coin_trader/agents/strategy_ta.py:105-172 | Then the mirrored market gets the opposite direction with equal confidence |
| TechnicalScore.EqualAveragesLeanBearish | src/coin_trader/agents/strategy_ta.py:147-150 | Equal averages are read as bearish: a calm market and its mirror image both get SELL |
| TechnicalScore.AmplifiedVerdict | src/coin_trader/agents/strategy_ta.py:152-172 | Amplification never turns a side; it lifts HOLD exactly when the plain average was beyond a twelfth |
| TechnicalScore.ConfidenceBelowCap | src/coin_trader/agents/strategy_ta.py:165-172 | Confidence is at most 0.96, so the cap at 1 is never reached, and it is the average itself |
| TechnicalScore.ConfidenceBoundAttained | src/coin_trader/agents/strategy_ta.py:109-172 | 0.96 is attained |
| TechnicalScore.TechnicalStrategy.constructor | src/coin_trader/agents/strategy_ta.py:29-33 | No candles yet |
| TechnicalScore.TechnicalStrategy.OnMessage | src/coin_trader/agents/strategy_ta.py:58-73 | The buffer is the last 200 candles ever received |
| TechnicalScore.TechnicalStrategy.Evaluate | src/coin_trader/agents/strategy_ta.py:75-97 | A signal exactly when 30 candles were ever received and indicators could be computed |

## Left out

- PipelineExposure.ExposureUnderLag: assumes, as hypotheses on the run, a fixed total balance, purchases that carry an amount, and fills worth no less than nothing and no more than was approved; the portfolio manager meets the second (`FedRequests`), and for the third `FillsFromViews` gives the condition on the exchange's answers.
- PipelineOpenPositions.OpenPositionsUnderLag: counts markets the ledger shows a positive position for, so one bought with a fill valued at zero is not counted; assumes fills of no negative value, without which a sale could open a market, and purchases that carry an amount.
- PipelineShareIff.ShareHoldsIff: for runs with a fixed balance, unique order uuids, purchases by a KRW amount alone, fills of no negative value and an empty ledger at the start; in the negative half these make the claim stronger. Fees are not part of what is bought, and a purchase counts at its full amount whether or not all of it was spent.
- PipelineGate.FurtherCallIff: says that some continuation makes another call, not that every one does.
- RateLimiter.QueueProgress: for callers queued at one time on the lock, in its order; later arrivals queue behind them.
- StreamGroup.Bus.Subscribe: runs for any number of rounds instead of forever.
- PortfolioManager.Agent.Run: runs for any number of rounds instead of while the agent is running; whether a publication that raised left a request on the stream is not recorded, since the agent ends there.
- Executor.Agent.Stop: called when the handler waits for the next message or has ended; cancellation at every await of the handler is part of `ExecuteOrder` and of the machine.
- Executor.Agent.Teardown: is not itself cancelled. The stop signals only clear the running flag (base_agent.py:41-42); it would take another agent of the same process to fail in its setup while this one is shutting down.
- `order:failed` results and the portfolio manager's reading of results change no ledger and have no step of their own in the pipeline.
- Restart of an agent with the same consumer group: a group keeps its cursor and its abandoned entries; a restarted agent's fresh dictionaries are not connected to the earlier run.
- Float and Decimal rounding, and the conversion of configuration floats to Decimal.
- Heartbeats, notifications, alerts and logging: they touch none of the state modelled here.
- HTTP, WebSocket and token code: network and library calls; only which limiter each verb takes is kept.
- pandas and scikit-learn code: indicator values are arbitrary optional reals, `strategy_ml.py` is not part of this model.
- `strategy_sentiment.py`: threshold scores and an average, easier than the technical score.
- JSON encoding of messages: done by a library; an entry decodes or does not.
- Monitor, data collector, command line and scripts: input, output and copying of fields.
- Reading the configuration: limits, rules and weights are parameters.
