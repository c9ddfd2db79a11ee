# Verified models of the trading platform

Dafny models of the platform's stateful and numerical core, with proofs about whole runs of it. The modules
follow the program's components:

- **Paper order management** (`Oms*`, `RowSums`, `QueueRetry`, `PaperBroker`, `PaperDelivery`, `PaperRuns`,
  `OutboxDelivery`):
  the order, journal, fill, outbox and reservation tables as one value, each database transaction as a function on it,
  and the repository and the service as classes whose methods are proved against those functions. A run is any sequence
  of service calls, each of which may die before any of its commits.
- **Backtest engine and replay** (`BacktestJournal`, `Replay`, `ReplaySafety`, `PendingOrders`, `Engine*`,
  `LedgerCalls`, `SessionTrades`, `Backtest`, `UnquotedRuns`): the engine that emits a journal, the automaton that
  accepts one, and the relation between the two. The engine's ledger calls and its order book are functions of the
  journal it has emitted.
- **Cost, tick and sizing arithmetic** (`FeeTax`, `TickRounding`, `Simulation`, `Accounting`).
- **Regression solvers** (`Linear`, `LeastSquares`, `GaussJordan`, `LinearRegression`, `ElasticNet`).
- **Factor research** (`FalseDiscovery`, `Ranks`), **walk-forward splitting** (`WalkForward`), the **broker fixture**
  (`FixtureModel`, `BrokerFixture`, `FixtureStream`) and the **paper target executor** (`TargetModel`,
  `TargetOrders`, `TargetExecutor`, `TargetRepeats`).

`Wrappers` holds the option and result types, `Sorting` a stable sort.

## Assumptions

- Prices, weights and floats are exact reals; only the roundings the code asks for are modelled (`Floor`, `Ceiling`).
- Digests and UUIDs are injective identities: datatypes of what they cover, or integers standing for them.
  Instrument keys and idempotency keys that are sorted stand for their place in the text order.
- A database transaction is atomic. A crash is a transaction that never starts; every transaction may be the one.
- The order service runs one call at a time. Its cash check and its reservation are separate transactions, so the cash
  bound is a property of a sequential service.
- Where a statement quantifies over arbitrary brokers, these report no negative fill of an order (`NonNegativeFills`).
  Paper brokers need no such assumption: over runs against one of them everything holds with any participation cap
  (`PaperRuns.PaperRunIsSafe`), and with a cap of zero or more they meet it (`PaperRuns.PaperFillsForward`).
- The backtest's portfolio ledger is any deterministic object: what each call answers is a function of the calls made
  before (`Replay.Ledger`). Strategy, risk gate, position and net asset value are arbitrary functions
  (`EngineModel.World`). Times are minutes, a date is a time divided by the minutes of a day.

## What the proofs show about the code

- **Crash recovery** is exactly-once, with the number of delivery attempts as the only trace of a crash, also when the
  broker was started again in between (`OmsService.PaperOmsService.Redeliver`).
- **Delivery can get stuck.** A row is delivered if and only if the broker rejected the order, or the order has not
  been acknowledged before being recovered to submitted, and there is no fill, or it is recorded, or the order can
  still take fills and the participation cap does not round its capacity down to nothing; the outbox is drained if and
  only if this holds of every pending order (`OutboxDelivery.ReachableDelivery`). A capacity of zero is refused by the
  repository on every retry. An order cancelled between being handed over and being acknowledged blocks the queue in
  the same way (`OutboxDelivery.CancelledRowSticks`).
- **A crash inside `queue`** leaves the order parked unless nothing or everything was committed: repeating the command
  returns it as it stands (`QueueRetry.RetryFinishes`).
- **Commands** on an order succeed exactly in the states `OmsCommands` lists, and a cancel or a replacement can be
  requested once in its life: an order recovered to acknowledged after a cancel request went wrong can no longer be
  cancelled (`OmsCommands.CancelIsAccepted`).
- **Reservations** follow the order, except that a manual recovery into a terminal state does not release them
  (`OmsGuarantees.ReservationFollowsOrder`). The reserved cash is scaled from its already scaled value, so it is
  proportional to the remainder if and only if the order has had at most one fill
  (`OmsGuarantees.CashIsProportionalUpToOneFill`).
- **Completing**: over a ledger that refuses nothing, with a positive net asset value and no quote too cheap to sell, a
  backtest completes if and only if every session's targets can be sized and every calendar date comes in time after
  the one before (`Backtest.Run`, `Backtest.Punctual`). The first calendar date must not be long before the first
  session: its accounting would be earlier than the start of the run.
- **Replay** accepts a completed engine journal exactly when unfilled remainders are cancelled or no fill is partial,
  and no session without quotes closed while a position was held: such a close ages the positions in the engine only.
  What is held is read off the journal (`LedgerCalls.Closing`), over ledgers on which ageing without marks shows exactly
  when a position is held (`EngineModel.AgesHoldings`). `UnquotedRuns.RunHolding` is a run that is rejected for this,
  `UnquotedRuns.RunIdle` the same days with nothing bought. Cancelling remainders or disallowing partial fills in the
  configuration is enough for the former; with neither, a quote with too little volume leaves an active reservation
  (`EngineModel.ShortCapacityStaysActive`). The remaining quantity that a release event reports is not compared with
  anything.
- **Solver**: it fails exactly when the elimination runs out of pivots under the tolerance. The tolerance is absolute,
  so a regular system with small entries is rejected (`GaussJordan.SmallRegularSystemIsRejected`), and a ridge system,
  which is always regular, may be; columns dominated by their diagonal with the tolerance as margin are always solved.
- **Tick rounding** never needs its third pass; three of its four other errors cannot happen for a valid policy, and
  the lookup error happens exactly for a sale below the smallest tick.
- **Re-execution** of a target snapshot changes nothing exactly when no order of the first execution is open and
  partly filled; a partly filled one makes it ask for the filled part again (`TargetRepeats.SecondExecution`). The
  statement is about a snapshot none of whose orders were recorded before its first execution.
- **Broker fixture**: a local cancel takes a sequence number of its own, so the broker's next event reads as a gap
  (`FixtureStream.CancelOpensAGap`).

## Model

| member | source | states |
|---|---|---|
| OmsRepository.Repository.Create | src/island_quant/oms/repository.py:141-187 | one transaction inserts the order row with its first event, returns the row that already has the key, or fails on a taken client id; it may die before it commits |
| OmsRepository.Repository.Transition | src/island_quant/oms/repository.py:189-292 | version, previous state, sequence and transition table are checked in that order; row, journal, outbox and reservation change together or not at all; an event already recorded changes nothing |
| OmsRepository.Repository.TransitionFill | src/island_quant/oms/repository.py:328-431 | a fill is recorded once under its business identity, within the order quantity, together with its event and the reduced reservation |
| OmsRepository.Repository.ReservedCashTotal | src/island_quant/oms/repository.py:492-497 | the cash of the active buy reservations, however these are listed once each |
| OmsRepository.Repository.ReservedSellTotal | src/island_quant/oms/repository.py:499-506 | the shares of the active sell reservations of an instrument, however these are listed once each |
| OmsRepository.Repository.PendingOutbox | src/island_quant/oms/repository.py:463-468 | exactly the undelivered rows, by creation time and then key |
| OmsRepository.Repository.ListOrders | src/island_quant/oms/repository.py:449-454 | every order row exactly once |
| OmsInvariant.TransitionKeeps | src/island_quant/oms/repository.py:189-292 | a transition with a service event keeps the invariant of all tables |
| OmsInvariant.TransitionFillKeeps | src/island_quant/oms/repository.py:328-431 | so does a fill of any non-negative quantity |
| OmsInvariant.CreateKeeps | src/island_quant/oms/repository.py:141-187 | so does the creation of an order |
| OmsGuarantees.JournalDeterminesOrder | src/island_quant/oms/models.py:64-121 | in every reachable database an order row is the fold of its journal: sequences 1 to n, version = sequence = n, only allowed transitions, distinct business identities, and the fill rows are the fill events |
| OmsGuarantees.FilledIsTheSumOfFills | src/island_quant/oms/repository.py:375-411 | filled quantity is the sum of the order's fill rows, and Filled holds exactly when nothing remains |
| OmsGuarantees.RunExtends | src/island_quant/oms/models.py:64-121 | later calls only append to journals and fills, and never change a terminal order |
| OmsGuarantees.NoLocalSequenceMismatch | src/island_quant/oms/reconciliation.py:75-84 | reconciliation never reports a local sequence mismatch |
| OmsReachable.RunIsSafe | src/island_quant/oms/service.py:79-109 | over every run with crashes, active buy reservations total at most the largest cash presented, active sells per instrument at most the largest position presented |
| OmsGuarantees.ReservationFollowsOrder | src/island_quant/oms/service.py:214-228 | an active reservation holds exactly the unfilled quantity, and is active exactly until a terminal state, except after a manual recovery into one |
| OmsGuarantees.CashIsProportionalUpToOneFill | src/island_quant/oms/repository.py:411-426 | the reserved cash is at most the proportional part, and equal to it if and only if there was at most one fill |
| OmsTotals.ReservationsFit | src/island_quant/oms/service.py:79-109 | over every run with crashes, the cash of any active buy reservations, listed once each, comes to at most every bound on the cash presented; likewise the shares of active sells of an instrument |
| OmsTotals.PaperReservationsFit | src/island_quant/oms/service.py:79-109 | the same over every run against one paper broker, with any participation cap |
| OmsTotals.BuyIsApprovedIffItFits | src/island_quant/oms/service.py:79-109 | a new buy is approved and reserves price, commission and tax exactly when these and the cash of all active buy reservations fit the cash presented; otherwise it is rejected and reserves nothing |
| OmsTotals.SaleIsApprovedIffItFits | src/island_quant/oms/service.py:86-109 | a new sale is approved and reserves its shares exactly when these and the shares of all active sell reservations of the instrument fit the position presented |
| OmsTotals.UnpricedIsParked | src/island_quant/oms/service.py:79-82 | a new command whose gross is not positive raises before its risk decision and stays there, reserving nothing |
| OmsService.PaperOmsService.Queue | src/island_quant/oms/service.py:41-109 | the call makes the commits of the specification up to the point where it dies, and keeps the invariant |
| QueueRetry.RetryFinishes | src/island_quant/oms/service.py:41-109 | a command repeated after its call died ends where an uninterrupted call does if and only if it creates nothing, nothing was committed, or all of its two, three or four commits were |
| OmsService.PaperOmsService.ProcessOutbox | src/island_quant/oms/service.py:111-172 | attempts aside, the call makes exactly the next effective commits; unless it dies it ends where delivery halts, drained or at the commit whose error it raises; what it leaves leads to the same end, and the broker answers the orders of the outbox as before |
| OmsService.PaperOmsService.Redeliver | src/island_quant/oms/service.py:111-172 | rerunning it any number of times, against the same broker or others that answer alike, the first call that does not die leaves the database of one uninterrupted delivery |
| OmsService.PaperBrokersAgree | src/island_quant/brokers/paper.py:65-113 | a paper broker that lost its memory answers the orders of the outbox as before |
| OmsService.PaperOmsService.RequestCancel | src/island_quant/oms/service.py:174-179 | one cancel event, or the refusal of an illegal transition |
| OmsService.PaperOmsService.ApplyCancelResult | src/island_quant/oms/service.py:181-192 | a cancelled answer closes the order and releases its reservation; any other makes it unknown |
| OmsService.PaperOmsService.RequestReplace | src/island_quant/oms/service.py:194-204 | one replace event, or the refusal of an illegal transition |
| OmsService.PaperOmsService.ApplyReplaceResult | src/island_quant/oms/service.py:206-212 | a replaced answer makes the order replaced; any other makes it unknown |
| OmsService.PaperOmsService.RecoverUnknown | src/island_quant/oms/service.py:214-228 | only an unknown order is recovered, under a business identity of its sequence |
| OmsCommands.CancelIsAccepted | src/island_quant/oms/service.py:174-192 | a cancel request is accepted exactly once, from submitted, acknowledged, partly filled or replaced; its result closes the order and releases its reservation exactly when the broker cancelled, from a pending cancel or an unknown order; nothing but the order's own rows changes |
| OmsCommands.ReplaceIsAccepted | src/island_quant/oms/service.py:194-212 | a replace request is accepted at most once, for an order acknowledged or partly filled; its result replaces a pending replacement, or makes unknown what the broker may still hold |
| OmsCommands.RecoveryIsAccepted | src/island_quant/oms/service.py:214-228 | an unknown order can be recovered, as often as needed, to submitted, acknowledged, cancelled or rejected and to nothing else |
| OmsCommands.FillIsAccepted | src/island_quant/oms/repository.py:328-431 | a fill not recorded before is accepted exactly while the broker may be trading the order, if it stays within the order and its identities are free; it closes the order exactly when nothing remains, and leaves of the reservation the part of the remainder |
| OmsCommands.WaysInto | src/island_quant/oms/models.py:64-121 | the transition table read backwards: which states an order may come from |
| OmsCommands.TerminalIsFinal | src/island_quant/oms/models.py:64-121 | the terminal states are exactly those nothing follows |
| OmsSettling.CrashRecovery | src/island_quant/oms/service.py:111-172 | however many deliveries die after whatever commits, against whatever brokers that answer the orders of the outbox alike, what is left leads to the database of one uninterrupted delivery, which always exists |
| OmsSettling.DeliveryHalts | src/island_quant/oms/service.py:118-172 | after some number of commits every delivery is drained or raises |
| OmsSettling.AgreeOnFull | src/island_quant/oms/service.py:118-134 | where it halts depends on the broker only through its answers to the outbox rows |
| OmsRecovery.DeliveryCompletes | src/island_quant/oms/service.py:132-171 | a pending submission acknowledged with new, positive, distinct fills is delivered in full: each fill recorded once, the row marked |
| PaperBroker.DeterministicPaperBroker.Submit | src/island_quant/brokers/paper.py:65-113 | the answer is that to the first request with the key, whatever is asked in between, and for that request exactly as `RespondAnswers` says; repeating a request changes neither answers nor known clients |
| PaperBroker.DeterministicPaperBroker.Cancel | src/island_quant/brokers/paper.py:115-116 | over all requests submitted so far: cancelled exactly for the clients whose request was the first with its key |
| PaperBroker.DeterministicPaperBroker.Replace | src/island_quant/brokers/paper.py:118-121 | refused exactly below a quantity of one; replaced exactly for the clients whose request was the first with its key |
| PaperBroker.RespondFacts | src/island_quant/brokers/paper.py:92-110 | an answer has at most one fill, within the request and under an identity of its own key; the fill is empty exactly when the capacity is zero |
| PaperBroker.RespondAnswers | src/island_quant/brokers/paper.py:65-113 | rejected without a market; acknowledged without a fill exactly when suspended, locked or without volume; otherwise one fill of the request, or of the largest whole number within volume times cap if that is less, at the reference price moved adversely by the slippage, at the time of the event |
| PaperDelivery.DeliveredIffCapacity | src/island_quant/brokers/paper.py:93-110 | a row at the head of the outbox whose order still waits for submission is eventually delivered if and only if its capacity is not zero |
| OutboxDelivery.ReachableDelivery | src/island_quant/oms/service.py:118-172 | over every run against one paper broker: the head row is eventually delivered, and the outbox eventually drained, exactly under a condition on order state, journal, fill and capacity |
| OutboxDelivery.DeliveredIffDeliverable | src/island_quant/oms/service.py:132-171 | for any broker that fills an order at most once, the head row is eventually delivered if and only if the order is rejected, or can be acknowledged and take what is not recorded |
| OutboxDelivery.DrainedIffDeliverable | src/island_quant/oms/service.py:111-172 | the outbox is eventually drained if and only if that holds of every pending row |
| OutboxDelivery.CancelledRowSticks | src/island_quant/oms/service.py:132-164 | an order cancelled between hand-over and acknowledgement stays at the head of the outbox for good once a fill is reported |
| PaperDelivery.ZeroFillSticks | src/island_quant/oms/repository.py:361-369 | with zero capacity the row is never delivered and every attempt raises the same error |
| PaperDelivery.RejectionCompletes | src/island_quant/oms/service.py:134-141 | a rejected submission is closed and delivered in three commits |
| PaperDelivery.RunOwns | src/island_quant/brokers/paper.py:101-108 | over runs against paper brokers every recorded fill carries its own order's key |
| PaperDelivery.PaperAnswersAreOwn | src/island_quant/brokers/paper.py:101-108 | every fill the paper broker reports carries the key of the request it answers |
| OmsLifetime.JournalIsBounded | src/island_quant/oms/service.py:174-271 | over every run with the paper broker's two cancel and two replace answers and positive fills of the order, its journal has at most 13 events plus its quantity |
| PaperRuns.PaperJournalIsBounded | src/island_quant/oms/service.py:174-271 | over every run against one paper broker, with any participation cap, a journal has at most 13 events plus the order quantity, and never more than fifteen |
| PaperRuns.PaperRunIsSafe | src/island_quant/brokers/paper.py:92-110 | such runs keep the invariant and the bounds on reserved cash and inventory, and record only the fill the broker reports |
| BacktestJournal.DeterministicEventJournal.Append | src/island_quant/backtest/events.py:66-105 | appends the next sequence under a digest of the whole event, and refuses an event earlier than the last |
| BacktestJournal.CanonicalIsIdempotent | src/island_quant/backtest/events.py:112-123 | encoding a canonical payload again changes nothing, whatever the order of its dictionaries |
| Replay.ReplayEvents | src/island_quant/backtest/replay.py:35-266 | the loop over running totals succeeds exactly on the accepted journals, with the counts and checksums of the rebuilt state |
| Replay.Replayer.Take | src/island_quant/backtest/replay.py:88-252 | one event changes the running totals exactly as the step of the automaton, branch by branch, or is refused with its error |
| Replay.LastStep | src/island_quant/backtest/replay.py:237-258 | an accepted completion reports the true checksums and counters and leaves no open reservation |
| ReplaySafety.OneDecisionPerOrder | src/island_quant/backtest/replay.py:141-154 | an accepted journal decides no order twice |
| ReplaySafety.FillsUnderActiveReservation | src/island_quant/backtest/replay.py:155-186 | a fill comes under the one reservation of its order, before any release, while the status last reported is active and the remainder covers it |
| ReplaySafety.OneReservationPerOrder | src/island_quant/backtest/replay.py:155-166 | an accepted journal reserves no order twice |
| ReplaySafety.NoFillAfterRelease | src/island_quant/backtest/replay.py:177-221 | after a release an order is neither filled nor released again |
| ReplaySafety.FillsAlternateWithUpdates | src/island_quant/backtest/replay.py:167-211 | a fill refers to an earlier approval of its order, and a reservation update of the order follows it before its next fill |
| ReplaySafety.ReservedSharesAreConserved | src/island_quant/backtest/replay.py:181-211 | filled quantities plus the final remainder equal the reserved quantity |
| ReplaySafety.CompletionCountsAreTrue | src/island_quant/backtest/replay.py:237-250 | fill identities are distinct, and the completion reports the true numbers of approvals, rejections and fills |
| PendingOrders.PendingOrderBook.Reserve | src/island_quant/risk/reservations.py:59-82 | a new intent gets an active reservation of its whole quantity, a repeated one the reservation it has |
| PendingOrders.PendingOrderBook.ApplyFill | src/island_quant/risk/reservations.py:84-116 | succeeds exactly for a fill of the active order that fits its remainder, and takes it off |
| PendingOrders.PendingOrderBook.Release | src/island_quant/risk/reservations.py:118-128 | closes an active reservation, with a terminal non-fill status only |
| EngineFollows.RiskFollows | src/island_quant/backtest/replay.py:141-154 | replay takes the engine's risk decision on a planned order |
| EngineFollows.ReserveFollows | src/island_quant/backtest/replay.py:155-166 | replay takes the reservation of an approved order |
| EngineFollows.FillFollows | src/island_quant/backtest/replay.py:167-211 | replay takes a fill and its update, and its orders again mirror the engine's book |
| EngineFollows.ReleaseFollows | src/island_quant/backtest/replay.py:212-221 | replay takes the release of an active reservation |
| EngineFollows.CloseFollows | src/island_quant/backtest/replay.py:117-140 | the first close of a session ages the positions, every close marks one |
| EngineFollows.CompletionFollows | src/island_quant/backtest/replay.py:237-250 | replay accepts the completion if and only if the engine's book has no active reservation |
| Engine.EngineRun.ExecuteOrder | src/island_quant/backtest/engine.py:214-308 | one order appends exactly the events of its risk decision, reservation, simulated fill and release, with the best adverse price, the gate's answer and an allowed outcome; replay follows, and only a partial fill that is not cancelled leaves an active reservation; over a ledger that refuses nothing only a sale below the smallest tick can fail |
| Engine.EngineRun.Decide | src/island_quant/backtest/engine.py:142-184 | every target is reported, by instrument, and planned as the budget search sizes it, with at most one order each and none besides; the planned orders are new to the risk gate |
| Engine.EngineRun.ExecuteOrders | src/island_quant/backtest/engine.py:208-308 | the orders run one after the other, no buy before a sale and instruments ascending within a side, each over the ledger and the book its predecessors left, and the journal gains exactly their events |
| EngineModel.SellsTradeFirst | src/island_quant/backtest/engine.py:208-213 | sorted for trading, no buy comes before a sale, and within a side instruments ascend |
| Engine.EngineRun.AccountDay | src/island_quant/backtest/engine.py:185-194 | at half past eight, the settlements of a day and then its corporate actions by identity are reported, and replay repeats them |
| Engine.EngineRun.CloseMarket | src/island_quant/backtest/engine.py:309-335 | every closing mark, by instrument, and the closing snapshot with its reconciliation are emitted; replay follows a session with quotes, and one without when nothing is held; otherwise it refuses |
| Engine.EngineRun.RunSession | src/island_quant/backtest/engine.py:136-335 | one session reports its targets, marks and accounting in the order of their keys, trades exactly its orders, sales first, and keeps everything that holds between dates; replay keeps up with it if it has quotes or nothing was held by the calls before its closing report, and refuses it otherwise |
| SessionTrades.TradesFollow | src/island_quant/backtest/engine.py:142-308 | the stages of a session leave its planned orders in the journal, each announced, priced, decided and filled honestly over the ledger and book its predecessors left, and no other order event of that day |
| LedgerCalls.CallsAreReplayed | src/island_quant/backtest/replay.py:98-140 | replay makes exactly the ledger calls a journal tells of, as long as every closing report has marks |
| LedgerCalls.IdleIsReplayed | src/island_quant/backtest/replay.py:117-140 | with reports without marks at which nothing is held, replay's ledger cannot be told from the engine's |
| LedgerCalls.HeldUnmarkedIsRejected | src/island_quant/backtest/replay.py:222-236 | a truthful journal with a report without marks while a position is held is refused |
| EngineJournal.KeysMatter | src/island_quant/backtest/replay.py:121-132 | replay depends on the instruments closing at a time only where the journal has closes |
| Backtest.Run | src/island_quant/backtest/engine.py:88-381 | a completed run reports every session, the accounting of every date up to the last settlement, and what the ledger answered to the calls the journal tells of; every session trades as its targets, quotes and risk decisions ask for, sales first, and nothing else is traded; replay accepts the journal if and only if remainders are cancelled or no fill is partial, and no session without quotes closed while a position was held by those calls; cancelling remainders or disallowing partial fills suffices for the former; unhindered, it completes if and only if dates come in time and targets can be sized |
| Backtest.CheckInputs | src/island_quant/backtest/engine.py:384-409 | sessions and actions are admitted exactly when sessions are sorted, in the calendar and settle within it, and actions are distinct and dated inside the window; the due date is that of the last session |
| EngineModel.ShortCapacityStaysActive | src/island_quant/backtest/engine.py:299-308 | with partial fills allowed and remainders not cancelled, a quote with too little volume leaves the reservation active and a partial fill in the journal |
| UnquotedRuns.RunHolding | src/island_quant/backtest/engine.py:309-335 | a run that buys on one day and has no quotes on the next completes, and its journal is rejected |
| UnquotedRuns.RunIdle | src/island_quant/backtest/engine.py:309-335 | the same days without targets complete, and the journal is accepted |
| UnquotedRuns.CountingLedgerAges | src/island_quant/portfolio/accounting.py:434-437 | ledgers whose ageing shows exactly while a position is held exist, with and without positions |
| TickRounding.EstimatedPrice | src/island_quant/execution/simulation.py:171-191 | the least grid price at or above the raw price for a buy, the greatest at or below it for a sale: for a buyer times 10000 at least the open times 10000 plus the slippage, for a seller at most the open times 10000 minus it, and no scheduled price in between; it is the price of the first pass that keeps its tick, the first or the second; refused exactly for a sale below one hundredth |
| TickRounding.BestIsClosest | src/island_quant/execution/simulation.py:173-190 | the best price for the raw price is exactly the closest scheduled price that is adverse by the slippage |
| TickRounding.GridIsSchedule | src/island_quant/backtest/policies.py:214-229 | the grid is the six bands of the schedule, in whole ticks of each |
| TickRounding.SettlesByTheSecond | src/island_quant/execution/simulation.py:178-190 | the tick no longer changes after the second pass, and for a sale not after the first |
| TickRounding.RoundedIsBest | src/island_quant/backtest/policies.py:214-229 | rounding in the band of the raw price is optimal over the whole banded grid |
| TickRounding.BuyRounding | src/island_quant/execution/simulation.py:178-190 | a buy stays in its band or lands exactly on the start of the next, where rounding in the dearer tick gives the same price |
| TickRounding.SellRounding | src/island_quant/execution/simulation.py:178-190 | a sale of at least one hundredth stays in its band |
| Simulation.Convert | src/island_quant/execution/simulation.py:58-104 | with a fee policy, the holdings above the current one whose value and fee fit the weight of the net asset value are exactly those up to the target; otherwise the target is the largest whole number of shares that weight buys |
| Simulation.FeeIsMonotone | src/island_quant/backtest/policies.py:49-55 | the fee never falls as the gross grows |
| FeeTax.CostsAre | src/island_quant/backtest/policies.py:49-63 | a positive gross costs the least whole commission that covers the minimum and the discounted rate, and a sale the whole part of its taxed share; any other gross has no costs |
| FeeTax.IncrementIs | src/island_quant/backtest/policies.py:65-86 | one more fill pays its own tax and what the commission of the whole exceeds the commission charged; negative amounts, a worthless whole and an excess are refused in that order |
| Simulation.Simulate | src/island_quant/execution/simulation.py:118-169 | fails exactly for another instrument, a quote that is not later, or a sale priced below the smallest tick; otherwise no fill for exactly the five reasons, or a fill of the order, or else of the largest whole number within the participation share, at the closest adverse price, costing the commission and tax of its gross |
| Simulation.OutcomeTakesWhatFits | src/island_quant/execution/simulation.py:118-169 | an outcome of the simulator takes what the order asks for and the volume allows, no less, at a closest adverse price |
| Simulation.OutcomeStaysInVolume | src/island_quant/execution/simulation.py:128-140 | a simulated fill never exceeds the participation share of the quoted volume |
| Accounting.ChargeFills | src/island_quant/operations/accounting.py:84-113 | for positive fills the chain never fails; at every point of it, per order, the fees are non-negative and sum to the fee of the gross so far, each sell tax is that of its own fill, and the taxes fall short of the tax on the gross by less than the number of fills |
| Accounting.OneMoreFill | src/island_quant/backtest/policies.py:65-86 | one more fill charged the increment keeps that |
| GaussJordan.Solve | src/island_quant/ml/models.py:250-270 | a returned vector is the one and only solution; it fails exactly when the elimination with first-largest pivots meets a column whose remaining entries are all under the tolerance |
| GaussJordan.RejectedIsNearlyBlind | src/island_quant/ml/models.py:255-258 | the system reached when the elimination runs out has the solutions of the given one and moves along a non-zero direction by less than the tolerance in every equation |
| GaussJordan.ZeroPivotsAreSingular | src/island_quant/ml/models.py:255-258 | where the remaining pivots of a column are exactly zero, the matrix maps a non-zero vector to zero |
| GaussJordan.SmallRegularSystemIsRejected | src/island_quant/ml/models.py:255-258 | a regular system with small entries makes the elimination run out too |
| GaussJordan.DominantIsSolved | src/island_quant/ml/models.py:253-269 | a system whose columns are dominated by their diagonals with the tolerance as margin is solved |
| GaussJordan.InjectiveIsRegular | src/island_quant/ml/models.py:250-270 | a matrix that maps only zero to zero gives every right-hand side exactly one solution |
| LinearRegression.LinearRegressor.Fit | src/island_quant/ml/models.py:104-119 | stored coefficients have a strictly smaller weighted squared error of their predictions, plus ridge on the slopes, than every other intercept and slopes; each input error is reported exactly when it applies, and valid inputs fail exactly when the elimination of their normal equations runs out of pivots, never when its columns are diagonally dominant; errors store nothing |
| LinearRegression.ObjectiveIsLoss | src/island_quant/ml/models.py:104-119 | the objective over the design matrix is the ridge loss of the intercept and slopes over the raw rows |
| LeastSquares.ValidateIs | src/island_quant/ml/models.py:236-247 | a training set is refused as misaligned, then for a row of another width, then for a weight that is not positive, exactly when it is |
| LinearRegression.RidgeIsRegular | src/island_quant/ml/models.py:109-119 | with a positive ridge the normal equations have exactly one solution for every right-hand side |
| LinearRegression.BuildNormal | src/island_quant/ml/models.py:109-117 | the accumulation loops build the normal equations of the objective |
| LinearRegression.NormalIffStationary | src/island_quant/ml/models.py:109-119 | the normal equations hold exactly at the stationary points |
| LinearRegression.ObjectiveAround | src/island_quant/ml/models.py:104-119 | around a stationary point the objective grows by exactly the quadratic terms |
| LinearRegression.NormalSolutionIsBest | src/island_quant/ml/models.py:104-119 | a unique solution of the normal equations is the unique minimiser |
| ElasticNet.UpdateCoordinate | src/island_quant/ml/models.py:173-189 | no other value of the coordinate has a smaller penalised objective, the zero denominator included |
| ElasticNet.UpdatedIsBest | src/island_quant/ml/models.py:273-278 | soft thresholding over the denominator minimises the one-dimensional objective, with at least quadratic growth away from it |
| ElasticNet.ObjectiveAlong | src/island_quant/ml/models.py:173-189 | along a coordinate the objective is that one-dimensional one |
| ElasticNet.Sweep | src/island_quant/ml/models.py:171-193 | a sweep is the coordinate updates in order; it never raises the objective, and one that changes nothing started at a global minimum |
| ElasticNet.Descend | src/island_quant/ml/models.py:168-196 | the sweeps go on exactly until the iteration limit or a change within the tolerance, and all together end no higher than the zero vector |
| ElasticNet.SettledIsGlobalMinimum | src/island_quant/ml/models.py:171-193 | where no coordinate can improve alone, no joint move can |
| ElasticNet.ElasticNetRegressor.Fit | src/island_quant/ml/models.py:160-196 | the intercept is the weighted mean; the coefficients are the descent on the centred target, no worse than zero, and a descent that stopped moving is a global minimum |
| FalseDiscovery.QValues | twbacktest/factors.py:342-350 | the candidates by rising significance, a missing one counting as one and equal ones in their order, each get the running minimum of the scaled p-values, from the back |
| FalseDiscovery.QValuesAreStepUp | twbacktest/factors.py:342-350 | below level one, q-values within the level are exactly the rejections of the Benjamini-Hochberg step-up procedure |
| FalseDiscovery.StepUpIsAThreshold | twbacktest/factors.py:342-350 | the procedure rejects exactly the p-values up to the one at its cutoff |
| FalseDiscovery.QValuesAreBounded | twbacktest/factors.py:342-350 | a q-value is at least its p-value and at most one |
| FalseDiscovery.QValuesAreMonotone | twbacktest/factors.py:342-350 | a smaller or equal p-value never gets a larger q-value |
| FalseDiscovery.Select | twbacktest/factors.py:351-358 | the selected factors are mutually dissimilar, best score first, at most the limit, and every factor passed over clashes with a selected one |
| FalseDiscovery.RankedByScore | twbacktest/factors.py:351-358 | the selection walks all the factors by falling score, equal scores in their order |
| Ranks.AverageRanks | twbacktest/factors.py:181-193 | every value gets the middle of the places taken by its ties |
| Ranks.RanksKeepOrder | twbacktest/factors.py:181-193 | ranks order exactly as the values, and tie exactly when they do |
| WalkForward.WalkForwardSplitter.Split | src/island_quant/ml/splitting.py:85-163 | it succeeds exactly when every valid sample is dated in the calendar and the purge leaves every fitting fold a training row; then the folds are as many as their closed formula; in each, training, embargo, validation and test sessions follow one another in the configured lengths, and the rows are the valid samples of their sessions, in order and as often as given; the holdout is the last sessions |
| WalkForward.FoldShows | src/island_quant/ml/splitting.py:100-150 | the fold of the windows moved by so many steps, read off the samples alone |
| WalkForward.FeedsIs | src/island_quant/ml/splitting.py:114-137 | a fold keeps a training row exactly when some valid training sample ends before, or starts after, every valid evaluation sample |
| WalkForward.FoldsFit | src/island_quant/ml/splitting.py:97-104 | the loop runs exactly as often as the closed formula says |
| WalkForward.WalkForwardSplitter.BuildFold | src/island_quant/ml/splitting.py:105-150 | one fold, or the refusal when the purge leaves nothing; the chronology error cannot happen |
| WalkForward.PurgeOverlapping | src/island_quant/ml/splitting.py:170-184 | keeps exactly the rows whose label interval meets no evaluation interval |
| WalkForward.EvaluationsAreDisjoint | src/island_quant/ml/splitting.py:40-41 | evaluation windows of different folds share no session |
| WalkForward.EmbargoIsExact | src/island_quant/ml/splitting.py:100-113 | between the last training session and the first validation session lie exactly the embargoed ones |
| WalkForward.HoldoutIsUntouched | src/island_quant/ml/splitting.py:92-95 | no fold uses a session of the final holdout |
| WalkForward.PurgeIsExact | src/island_quant/ml/splitting.py:114-118 | a fold trains on a row exactly when it is a valid row of its window whose label interval meets that of no evaluation row |
| WalkForward.LedgerHasNoDuplicates | src/island_quant/ml/evaluation.py:34-40 | over unique samples the out-of-sample rows of all folds never repeat an instrument and time |
| BrokerFixture.OfflineBrokerFixture.SubmitOrder | src/island_quant/brokers/fixture.py:118-179 | the refusals in their order, idempotency by key, and a lost response that still records the order |
| BrokerFixture.OfflineBrokerFixture.CancelOrder | src/island_quant/brokers/fixture.py:181-203 | any order that is not filled is cancelled under the next sequence |
| BrokerFixture.OfflineBrokerFixture.ReplaceOrder | src/island_quant/brokers/fixture.py:205-237 | never below what is filled |
| BrokerFixture.OfflineBrokerFixture.IngestEvent | src/island_quant/brokers/fixture.py:259-306 | duplicates ignored, gaps and unknown orders stop new risk, overfills are refused, anything else applied |
| BrokerFixture.OfflineBrokerFixture.ForceKillNewRisk | src/island_quant/brokers/fixture.py:308-316 | stops new risk and degrades the session |
| BrokerFixture.OfflineBrokerFixture.ClearFaultsAndReconnect | src/island_quant/brokers/fixture.py:318-324 | clears the faults and allows new risk again |
| FixtureStream.OrdersArePrefixes | src/island_quant/brokers/fixture.py:259-306 | under any duplication, loss and reordering an order is the fold of a prefix of its own event stream, never over-filled |
| FixtureStream.FullDelivery | src/island_quant/brokers/fixture.py:259-306 | a schedule containing an order's stream as a subsequence reaches the full fold |
| FixtureStream.GapBlocksSubmits | src/island_quant/brokers/fixture.py:118-120 | after a gap every submission is refused until the session is opened or reconnected |
| FixtureStream.NeverOverFilled | src/island_quant/brokers/fixture.py:205-306 | under any calls and forged events, filled stays between zero and the order quantity |
| FixtureStream.SwitchIsConsistent | src/island_quant/brokers/fixture.py:91-116 | without the kill switch the session is healthy, so reporting health never fails |
| FixtureStream.CancelOpensAGap | src/island_quant/brokers/fixture.py:196-202 | after a local cancel the broker's next event is a gap |
| TargetExecutor.PaperTargetExecutor.Execute | src/island_quant/operations/strategy.py:224-363 | passes exactly when every check on targets, open orders, references, exposure and order count holds; then what is held and on order, with the commands, comes for every target to the largest whole position its weight buys, sells first, up to the first refusal; it creates only orders the targets ask for, and changes nothing when all of those are recorded; the later gross and single-position errors cannot happen for a positive net asset value |
| TargetExecutor.PaperTargetExecutor.Project | src/island_quant/operations/strategy.py:248-255 | positions with the open remainder of every order counted as done |
| TargetExecutor.PaperTargetExecutor.CheckExposure | src/island_quant/operations/strategy.py:323-354 | passes exactly when gross, single positions, position count and turnover are within their limits |
| TargetExecutor.ExposureInMoney | src/island_quant/operations/strategy.py:323-354 | for a positive net asset value, the limits hold exactly when the largest whole positions are worth at most gross and single limit, so many are held at most, and the changes are worth at most the turnover limit |
| TargetExecutor.ProjectedChecksFollow | src/island_quant/operations/strategy.py:323-341 | flooring makes the projected gross and single-position limits follow from the limits on the target weights |
| TargetExecutor.QueuedAllCreates | src/island_quant/operations/strategy.py:362-363 | queueing the commands, however each call dies, adds only their orders, and changes nothing when their keys are taken |
| TargetExecutor.DesiredFitsWeight | src/island_quant/operations/strategy.py:263-267 | a floored position is never worth more than its target weight |
| TargetOrders.DesiredIsLargest | src/island_quant/operations/strategy.py:263-267 | the floored position is the largest whole number of shares worth at most the weight of the net asset value |
| TargetOrders.OpenDeltaIs | src/island_quant/operations/strategy.py:248-255 | what is on order is the unfilled shares of the buys less those of the sells that can still change the position, however these are listed once each |
| TargetExecutor.QueuedCreates | src/island_quant/oms/service.py:41-44 | queueing creates at most the command's own order, and nothing when its key is taken |
| TargetModel.ReexecutionIsHarmless | src/island_quant/operations/strategy.py:248-289 | on order tables that differ only in orders of the first execution, a second execution asks only for orders of the first, if and only if none of those is open and partly filled |
| TargetModel.PartialFillReorders | src/island_quant/operations/strategy.py:248-289 | a partly filled order makes it ask for the filled part again as a new order |
| TargetExecutor.RepeatedExecutionQueuesNothing | src/island_quant/operations/strategy.py:224-363 | on such tables, with the first orders all recorded and none partly filled, every order of the second execution is already there |
| TargetRepeats.SecondExecution | src/island_quant/operations/strategy.py:224-363 | a first execution that may stop anywhere, any service calls on its orders, and a second one that queues all its commands: it adds only orders of the first, and changes nothing once these are recorded, if and only if none of them is open and partly filled |
| TargetRepeats.FirstLeavesUndisturbed | src/island_quant/oms/service.py:41-109 | an execution and calls on its orders touch no other order |

## Left out

- SQLite, WAL, locking, JSON and timestamps as text; order lineage, limit prices and the environment column.
- `record_fill` and the `filled_delta` argument of `transition`, which no service path uses.
- Concurrent writers of the order database.
- Values of digests and UUIDs, and therefore collisions.
- Float and 28-digit decimal rounding.
- OmsSettling.CrashRecovery: forgets the outbox attempt counter, which does count crashed attempts.
- OmsRepository.Repository.ListOrders: does not model the order by creation time and id, which no modelled caller reads.
- BacktestJournal.CanonicalIsIdempotent: does not model dictionary keys other than text; journal payloads are typed values that stand for their canonical form.
- PendingOrders.PendingOrderBook.Reserve: does not model the cash a reservation holds back; the risk gate that reads it is an arbitrary function.
- Replay.ReplayEvents: does not model run-start payload errors; the ledger opens from the configuration the journal carries.
- Backtest.Run: does not model the manifest and the policy versions of the result, which nothing else reads; its condition for completing takes a ledger that refuses nothing.
- The double-entry postings inside the portfolio ledger and the reasons of the pre-trade risk engine.
- Simulation.Simulate: does not model later fills of one order, which the engine never asks for.
- TickRounding.EstimatedPrice: does not model band schedules other than the shipped one.
- Accounting.ChargeFills: does not model the ledger, marks and snapshots of the projection, only its cost chain.
- ElasticNet.ElasticNetRegressor.Fit: does not model the prediction and the state document, which are single expressions.
- FalseDiscovery.Select: does not model the factor values and correlations, which are an arbitrary function.
- WalkForward.WalkForwardSplitter.Split: does not model data frames, fold names and the manifest; rows are values.
- FixtureStream.OrdersArePrefixes: does not model streams with local cancels or replacements in between, which open a gap.
- TargetExecutor.PaperTargetExecutor.Execute: does not model order lineage and the parsing of the portfolio document.
- TargetRepeats.SecondExecution: does not model a portfolio that changes between the two executions, or a first one of a snapshot with orders already recorded.
- Artifact files, configuration, HTTP, dashboards, logging, the scheduler, monitoring and reports.
