# Verified model of the copy-trading core

A copy trader reads trade calls from chat channels and carries them out at an exchange. Both
ends are unreliable: the process may die between any two durable writes, the exchange may
fill, lose, refuse or simply not answer, and messages are edited, repeated and missed. The
repository answers with durable ledgers, one-way latches and bounded retries. This project
models those protocols in Dafny and proves that they keep their promises over every run.

`dafny verify dfyconfig.toml` checks all of it.

## Structure

Each protocol exists twice. A *protocol* module gives the state, the events and what every
event needs and does; a run is a sequence of enabled events from the first state. A *safety*
part proves invariants over all runs. The *source-form* module is a class with the fields and
methods of the program; every durable write and every exchange with the outside appends an
event, and each method is proved to extend a legal run, so that the theorems about runs hold
of what the class does. A crash is a failed write, or an event of its own that may come after
any prefix.

| file | what it holds |
|---|---|
| `OrderProtocol`, `OrderSafety` | the managed ledger as a state machine: rows, context, exchange, crashes |
| `Sizing` | lots, the shared-risk split, the second leg, the risk cap and its reduction |
| `ManagedExecutor` | submit, query, cancel, entry pass, risk enforcement and exit intents in source form |
| `TakeProfitProtocol`, `TakeProfitScale`, `TakeProfit` | one ladder level under cancel-and-replace; rescaling; the ladder in source form |
| `CollectorProtocol`, `CollectorSafety`, `Collector` | one channel of the relay; no-loss and supersession; the worker over all channels |
| `History` | the bounded history read against a source that keeps posting |
| `Claims` | semantic keys of instructions and claiming of actions |
| `LegacyExit` | exits on exchanges that cannot look an order up by client ID |
| `RateLimit` | the token bucket and its garbage collection |
| `JsonScan` | the JSON object scanner against printed JSON (sections 4 and 7 of RFC 8259) |

## What is assumed of the outside

* Exchange: executed never exceeds ordered; an order that ended never fills again; `FILLED`
  means completely filled; a refused request never became an order and has no fills; an order
  that the exchange keeps calling unknown for the grace period after it was sent never lands;
  answers are truthful about the past but may be stale or missing.
* Store: one write, or one transaction, either happens or does not. A version conflict is a
  write that did not happen.
* Discord: within a session the creates of a channel arrive in order of their IDs, and a
  resumed session leaves none out; a history page holds what exists when it is read, newest
  first. The progress that the backend reports covers only messages it has.
* Hashes behind `stableID` do not collide: identities are values of a datatype.
* Prices and quantities are exact reals. The tolerances 1e-10 and 1e-12 are kept where the
  code has them.

## Reading the main results

* **Orders.** `OrderSafety` proves, over every run with crashes at every point, that no client
  ID is sent twice, that a durable entry latch is final, that at most one exit is unfinished
  and the durable intent names it, and that a signal that asked for partial exits reduces at
  most what its chain froze. The entry loop reads the latch once, before its first leg; why
  that is enough is arithmetic (`Sizing.OvershootRefusesSecondLeg`) and the loop is proved with
  it (`ManagedExecutor.Executor.SubmitEntries`).
* **Setbacks.** The executors count, as ghost state, what failed outside: reads, writes and
  requests that failed, answers that did not come, orders that would not end, entries that were
  not admitted and protections that could not be placed. Lookups, fresh positions and answers
  older than the exchange's state are logged as well. Where a contract says "without a setback",
  the method must do its work: a planned order is sent, a sent one is looked up, a trade over its
  caps sheds the excess, a due second leg goes out, a level gets its order, an exit is recorded,
  sent, re-opened, resubmitted or closed. A method that did nothing would not verify.
* **Termination of exits.** `ExitMeasure` counts resubmissions left, the rank of the named
  order's status and the missing sighting of a residual. Every pass that is not stopped from
  outside releases the intent or lowers it (`ReconcileManagedCloseStep`), so at most 23 such
  passes happen (`PassesBounded`). One intent issues at most four orders.
* **Take-profits.** `FillsConserved` is stated up to 1e-12 per retired generation because the
  code accepts fills within that tolerance as already recorded.
* **Relay.** `NothingLostIff` covers every interleaving at awaits and every crash: a run loses
  nothing exactly when it never drops the only trace of a message; see the fourth finding. The
  worker logs every recovery that began; `DrainRecovery` ties what it reports to that log and to
  what the channel shows afterwards.
* **Claims.** `ClaimsIff` says exactly when an action may be carried out; `FinalRefuses` and
  `OpenClaims` say it of the rows of one meaning, and `RetriesNeedRevisions` over any history.

## Findings

Places where the code does less than its comments or a first reading suggest. Each is proved.

1. A rescale starts from the placed remainders, not from the wishes, so an earlier wish that
   could not be placed yet is forgotten, and a take-profit fill alone can enlarge another level
   (`copytrader/protections.go:216-241`). `RescaleProportionalIff` gives the exact condition,
   `UnplacedWishForgotten` a ladder.
2. A pass resizes only if the position differs from the recorded one
   (`copytrader/protections.go:225-241`). An outside increase that equals the fills since the
   last pass is therefore missed. `PassProportionalIff` gives the exact condition,
   `IncreaseHiddenByFill` a ladder.
3. A partial CLOSE is not compared with an earlier REDUCE of the trade
   (`copytrader/pipeline.go:113-116`); the other order is. `ClaimKeepsReductionIff` gives the
   exact condition and `PartialCloseAfterReduce` the messages. The program is saved by
   `copytrader/message_rules.go:96-98`, which turns every partial close into a reduction before
   it is claimed (`ReducedAtMostOnce`).
4. `skip_event_with_gap` writes the gap only for a configured channel. The receipt of a channel
   that was removed meanwhile is dropped without one (`collector/worker.py:377-388`), although
   the comment promises a durable gap. This is harmless exactly when the channel has a recovery
   row or the receipt is not the only trace of an undelivered message (`DropSafeIff`, over runs
   `NothingLostIff`). Otherwise the message is out of reach once a later one is delivered
   (`ForgottenIsLost`); `ForgettingLoses` is a run from the start.
5. One reconciliation pass may send two requests, a planned order found in the ledger and its
   resubmission, where the comment speaks of one new order
   (`copytrader/managed_execution.go:1063-1064`). `ReconcileManagedCloseStep` bounds the
   requests: a pass sends at most one if the named order was sent before or resubmission is
   not allowed, and at most two otherwise. `TwoRequestsInOnePass` is a run that sends both.
   It never creates more than one.

## Model

| member | source | states |
|---|---|---|
| OrderSafety.AlwaysSafe | copytrader/managed_execution.go:229-285 | In every state any run reaches, crashes and exchange moves included, ledger rows agree with the exchange, generations are numbered, at most the newest exit is unfinished and the latch is respected |
| OrderSafety.SentAtMostOnce | copytrader/managed_execution.go:222-285 | Over any run with crashes at any point no client ID is sent to the exchange twice |
| OrderSafety.DistinctIds | copytrader/managed_execution.go:918-926 | Every entry leg and every exit generation of a signal has a client ID of its own |
| OrderSafety.LatchIsFinal | copytrader/managed_execution.go:535-547 | Once entry_disabled is durable it stays durable, and every request sent from then on, over any continuation, belongs to an exit |
| OrderSafety.OneOpenExitAlways | copytrader/managed_execution.go:1020-1057 | In every reachable state at most one exit is unfinished, it is the newest row, and the durable close intent names exactly that row |
| OrderSafety.ExitOrdersBounded | copytrader/managed_execution.go:1153-1170 | One close intent issues at most 1 + 3 orders |
| OrderSafety.PartialExitBounded | copytrader/managed_execution.go:989-1003 | Over all generations, resubmissions and crashes a signal that asked only for partial exits reduces, at the exchange, at most the quantity its chain froze |
| OrderSafety.FrozenIsFinal | copytrader/managed_execution.go:999-1003 | Once something was reduced for a signal no later chain of partial exits freezes another quantity: the bound is that of the chain that first executed |
| OrderSafety.WithinFrozenOpen | copytrader/managed_execution.go:1170-1187 | A new generation asks for no more than its predecessor left, so the frozen quantity is kept |
| OrderSafety.LaterAlways | copytrader/managed_execution.go:93-122 | Over any run a row keeps its identity, keeps quantity and price once it left PLANNED, and keeps everything once it is final |
| Sizing.FloorBounds | trader/types/managed.go:160-171 | The decimal floor is a whole number of steps, at most the value and less than one step below it |
| Sizing.FloorQuantityBounds | trader/types/managed.go:173-190 | A tradable quantity is positive, whole lots, at most what was asked and within the minimum and maximum of its order type |
| Sizing.FloorQuantityExact | trader/types/managed.go:173-190 | A tradable quantity is found exactly when there is one, and it is the largest |
| Sizing.SplitRespectsCaps | copytrader/managed_execution.go:331-363 | Both legs together carry at most the risk budget and at most each notional cap, for all inputs on which the split succeeds |
| Sizing.SplitLegsTradable | copytrader/managed_execution.go:314-363 | Both legs are positive whole lots, worth at least the minimum notional, and at least the sizing floor away from the stop |
| Sizing.SplitIsTight | copytrader/managed_execution.go:342-350 | Before lots the legs carry equal risk and either use the whole risk budget or reach the notional cap: nothing is left out needlessly |
| Sizing.SplitExact | copytrader/managed_execution.go:331-363 | The split succeeds exactly when the largest legs of equal risk within the budget and the caps are tradable, and returns exactly those |
| Sizing.SecondLegFits | copytrader/managed_execution.go:767-786 | The second leg uses at most what the first fill left of risk, notional, margin and free balance |
| Sizing.SecondLegLargest | copytrader/managed_execution.go:767-786 | For a planned leg within the exchange's maximum, a second leg exists whenever a tradable size fits what risk, notional, margin and free balance leave, and it is the largest such size |
| Sizing.SecondLegKeepsCaps | copytrader/managed_execution.go:767-787 | If the first fill is within the caps then with any part of the second leg filled at its price, on the same side of the stop, the whole trade is within every cap |
| Sizing.OvershootRefusesSecondLeg | copytrader/managed_execution.go:767-787 | If the position is over its caps at the first fill's average, the second leg has no size whatever it asks for: this is why the once-read loop guard is enough |
| Sizing.RiskCapExact | copytrader/managed_execution.go:866-873 | A quantity is at most the computed cap exactly when risk, notional and margin are all within their budgets |
| Sizing.ReductionCovers | copytrader/managed_execution.go:1020-1044 | The reduction order covers the required amount, rounded up to a lot, and never exceeds the position |
| Sizing.ReductionTight | copytrader/managed_execution.go:1020-1044 | The reduction is rounded up by less than a lot, or closes the position but for less than a lot; a position with room for it always allows it |
| Sizing.ReductionRestoresCaps | copytrader/managed_execution.go:875-894 | Once the reduction fills, what remains of the trade is within every cap, and if it was a full exit within the tolerance of the check, whatever else the position holds |
| Sizing.FirstLegKeepsBudget | copytrader/managed_execution.go:452-516 | A re-priced first leg never grows and keeps its share of the risk and the caps at the live price |
| Sizing.FirstLegLargest | copytrader/managed_execution.go:452-516 | For a planned leg within the exchange's maximum and a price that did not overtake the plan, a re-priced first leg exists whenever a tradable size fits its share of risk and caps, and it is the largest such size |
| ManagedExecutor.Executor.Recover | store/copytrade_ledger.go:85-113 | A crash keeps rows and context, drops the working copies, and is one more step of the same legal run |
| ManagedExecutor.Executor.UpdateOrder | store/copytrade_ledger.go:115-117 | A durable row write either happens as one legal event or changes nothing |
| ManagedExecutor.Executor.RecordManagedResult | copytrader/managed_execution.go:93-108 | A truthful result is recorded exactly, unless its identity differs, fills went backwards or the write failed |
| ManagedExecutor.Executor.QueryManaged | copytrader/managed_execution.go:171-220 | Success leaves exactly a truthful account in the row, or ABANDONED for an order without a venue ID that stayed unknown for the grace period and is not at the exchange |
| ManagedExecutor.Executor.SubmitManagedChecked | copytrader/managed_execution.go:225-285 | Only a PLANNED row is sent, an entry only while the latch is off, and at most one request leaves; any other row is looked up; without a setback an exit is sent, and so is an entry unless the budgets refuse it at the live price |
| ManagedExecutor.Executor.SendPlanned | copytrader/managed_execution.go:252-285 | SUBMITTING is durable before the request; the row leaves PLANNED exactly when the request was made |
| ManagedExecutor.Executor.SubmitAnswered | copytrader/managed_execution.go:260-284 | A refusal becomes REJECTED, a missing answer UNKNOWN unless the lookup knows more or the store failed; success means a known or abandoned row; nothing is sent again |
| ManagedExecutor.Executor.CheckEntry | copytrader/managed_execution.go:233-251 | A refused entry stays PLANNED or is abandoned, and nothing is sent; without a setback only the budgets at the live price refuse it |
| ManagedExecutor.Executor.RevalidateDeferredMarket | copytrader/managed_execution.go:458-516 | Success stores exactly the size that the budgets allow at the live price, or the planned size if that is no larger; the leg never grows |
| ManagedExecutor.Executor.CancelManaged | copytrader/managed_execution.go:287-312 | Success means the row is final; a final row is left untouched; nothing is sent |
| ManagedExecutor.Executor.CloseEntryEligibility | copytrader/managed_execution.go:535-566 | The latch is durable before the exchange is contacted, nothing is sent, and success means that every entry leg ended; without a setback every leg has ended and the trade is settled by what its legs filled |
| ManagedExecutor.Executor.CancelEntries | copytrader/managed_execution.go:548-553 | Success means that every leg ended; a failed leg does not keep the others from being cancelled |
| ManagedExecutor.Executor.SettleManagedFills | copytrader/managed_execution.go:568-618 | The trade gets the quantity-weighted average of its legs and of the position that was read at most its own fills, never rebuilt after an exit |
| ManagedExecutor.OwnedExact | copytrader/managed_execution.go:586-606 | The trade owns the smaller of the position and its fills; without a position its fills until the position was seen, and nothing afterwards |
| ManagedExecutor.Executor.EnforceManagedRisk | copytrader/managed_execution.go:859-895 | Within the caps nothing happens at all; over them the latch is closed and the legs end first, and without a setback the excess of the trade as settled then is shed: a pending exit is pursued, and otherwise a reduction of exactly the required size is recorded and sent unless the position is flat or cannot be traded |
| ManagedExecutor.PairNeedsNoReduction | copytrader/managed_execution.go:859-874 | If the first fill is within the caps and the second leg of the promised size fills any part at its price, the risk check does nothing at the settled average, whatever part of the position is left |
| ManagedExecutor.OvershootRefuses | copytrader/managed_execution.go:822-826 | A latch closed by the risk check inside the entry loop refuses every size of the second leg |
| ManagedExecutor.Executor.PrepareEntries | copytrader/managed_execution.go:640-694 | Nothing is sent; a rejected or abandoned leg, a smaller position, a deadline, a stop at break-even or take-profit progress closes the latch and ends the legs first, and without a setback nothing else does; every live leg is looked up |
| ManagedExecutor.Executor.ProtectFills | copytrader/managed_execution.go:695-723 | What filled is protected and its risk enforced before anything is added; only exits are sent; a position that cannot be protected is closed; without a setback and within the caps nothing changes |
| ManagedExecutor.Executor.AfterFill | copytrader/managed_execution.go:815-830 | Without a setback the fill is settled, and the latch comes on exactly when the trade is then over its caps, whose excess is shed; the waiting second leg is then refused |
| ManagedExecutor.Executor.SubmitFirst | copytrader/managed_execution.go:727-829 | Without a setback an unexpired first leg is sent, unless the budgets refuse it at the live price, and what it filled is settled and its risk enforced; then the loop either knows the current ledger or knows that the second leg is refused |
| ManagedExecutor.Executor.SubmitSecond | copytrader/managed_execution.go:734-818 | The second leg is sent only next to a filled first leg and with exactly the size the remaining budgets allow; without a setback it is sent whenever the position still holds the trade, no take-profit filled and there is such a size |
| ManagedExecutor.Executor.SendSecond | copytrader/managed_execution.go:784-818 | The size is stored before the leg is sent, success means it was sent with that size, and what it filled is settled and its risk enforced |
| ManagedExecutor.Executor.SubmitEntries | copytrader/managed_execution.go:727-832 | Over the whole loop, whose guard reads the latch once, no leg is sent after the latch came on and the second leg is sized as promised; without a setback a planned first leg and a due second leg go out |
| ManagedExecutor.Executor.ReconcileManagedEntry | copytrader/managed_execution.go:620-857 | A pass that ends without error with the latch on leaves no live entry order, and one with the latch off leaves the trade within its caps; without a setback every live leg was looked up and, where no cause to stop exists, a planned entry is submitted unless it expired or is refused at the live price, a due second leg is submitted, the excess of a trade over its caps is shed; after an error known exposure is stored; a trade whose legs ended unfilled is marked |
| ManagedExecutor.ExitQuantityBounds | copytrader/managed_execution.go:1010-1044 | A first exit order is positive, at most the position, and at most its share when partial |
| ManagedExecutor.ExitQuantityExact | copytrader/managed_execution.go:1010-1019 | Without a required reduction an exit is exactly the largest tradable part of the position or of its share, and there is none exactly when there is no such part |
| ManagedExecutor.RequiredExitTight | copytrader/managed_execution.go:1020-1044 | A required reduction is rounded up by less than a lot or closes the position but for less than a lot, and a large enough position allows it |
| ManagedExecutor.Executor.CheckPrior | copytrader/managed_execution.go:989-1003 | A new exit is refused exactly when an exit of the signal is unfinished or, for a partial one, already executed |
| ManagedExecutor.Executor.BlockedExact | copytrader/managed_execution.go:989-1003 | An exit is blocked exactly when one of its signal is unfinished, or it is partial and one of its signal executed |
| ManagedExecutor.Executor.ExitRows | copytrader/managed_execution.go:928-941 | All recorded exits of the signal and nothing else, as many as the count that numbers the next one |
| ManagedExecutor.Executor.CreateExitOrder | store/copytrade_ledger.go:187-200 | Row and intent appear together or not at all |
| ManagedExecutor.Executor.OpenExit | copytrader/managed_execution.go:989-1053 | Row and intent are stored together; without a setback an exit is created exactly when nothing forbids it and its size can be traded, and with exactly that size |
| ManagedExecutor.Executor.ExecuteNewExit | copytrader/managed_execution.go:989-1057 | Without a setback an exit that nothing forbids reads the position; flat needs no order, untradable gets none, and any other is recorded with exactly its size and sent |
| ManagedExecutor.Executor.ExecuteManagedCloseAmount | copytrader/managed_execution.go:960-1057 | While an intent is pending only a full close from another signal passes a partial exit; everything else, a repeat of the same signal included, settles the pending one; without a setback the pending order is sent or looked up, and an allowed exit is recorded with exactly its size and sent unless flat or untradable; the latch is not touched and only exits are sent |
| ManagedExecutor.Executor.SupersedeAndExecute | copytrader/managed_execution.go:973-1057 | Without a setback a full close that meets another signal's partial exit waits only while that order is live, has nothing to do only on a flat position or one that cannot be traded, and else is recorded with exactly its size and sent |
| ManagedExecutor.Executor.PassPartialExit | copytrader/managed_execution.go:973-987 | The full close goes on only when the partial exit is settled or superseded, and waits only while its order is live; no order is created; the trade is taken as closed only on a flat position |
| ManagedExecutor.Executor.AdvanceExit | copytrader/managed_execution.go:1087-1099 | An exit that was never sent is sent, another one is looked up; without a setback the sent one is the named order |
| ManagedExecutor.Executor.AttendNamed | copytrader/managed_execution.go:1078-1099 | Without a setback the order that the intent names is sent if it never was and looked up if it was; if the answer is current, an order that counts as live is open at the exchange |
| ManagedExecutor.Executor.NoteResidual | copytrader/managed_execution.go:1131-1142 | The first sighting of a residual is stored and nothing is sent |
| ManagedExecutor.Executor.SupersedePartialExit | copytrader/managed_execution.go:1229-1260 | A partial exit gives way only when its order ended, and without a setback exactly then |
| ManagedExecutor.Executor.ReconcileManagedCloseStep | copytrader/managed_execution.go:1063-1151 | One pass creates at most one order and sends at most that one and the named order if it was never sent; unless something outside failed or the order is still open it releases the intent or comes strictly closer to it; without a setback the named order was sent or looked up, and if it ended the position decides as the source says; with current answers a pass waits only for an order that is open at the exchange |
| ManagedExecutor.TwoRequestsInOnePass | copytrader/managed_execution.go:1087-1151 | Concrete run in which one pass sends both |
| ManagedExecutor.Executor.SettleEndedExit | copytrader/managed_execution.go:1114-1151 | Flat closes the trade, a filled partial exit re-opens it with the fresh quantity, a filled full exit needs its residual sighted twice, anything else is resubmitted with the right size |
| ManagedExecutor.Executor.OpenNextGeneration | copytrader/managed_execution.go:1178-1194 | The next generation has a fresh ID and the given size, and is stored together with the intent that counts it |
| ManagedExecutor.Executor.ResubmitManagedExit | copytrader/managed_execution.go:1153-1200 | At most three resubmissions, each sized from the fresh position and, if partial, from what the last order left |
| ManagedExecutor.Executor.FinishTradeOrders | copytrader/terminal_orders.go:13-41 | Success means that the fresh read was flat and every order of the trade is final; a position leaves everything as it is; orders that were final are untouched |
| ManagedExecutor.Executor.CloseFlat | copytrader/managed_execution.go:1117-1123 | A trade is closed after a flat read only when every order of it is final, and without a setback exactly then |
| ManagedExecutor.Executor.AbandonManagedExit | copytrader/managed_execution.go:1202-1227 | What cannot converge releases the intent and goes back to open with the fresh quantity |
| ManagedExecutor.PassesBounded | copytrader/managed_execution.go:1114-1200 | An intent that stays pending survives at most 23 passes that are not stopped from outside: every exit terminates |
| ManagedExecutor.Executor.ExecuteClose | copytrader/executor.go:402-430 | Whenever a close sends or creates anything, the entry latch is durable; without a setback the latch is on, the legs ended, and the close is recorded with exactly its size and sent, or settles the exit that is pending |
| TakeProfitProtocol.AlwaysOk | copytrader/protections.go:260-431 | In every reachable state of a level, plan entry, ledger row and exchange agree and retired generations are dead |
| TakeProfitProtocol.OneLiveOrder | copytrader/protections.go:260-431 | Over any run, crashes included, at most one order of a level is live or on its way, and it is the one the plan names |
| TakeProfitProtocol.FillsConserved | copytrader/protections.go:306-312 | The prior total equals what all retired generations finally executed, each once, up to 1e-12 per generation; what is counted was executed |
| TakeProfitProtocol.SentAtMostOnce | copytrader/managed_execution.go:252-260 | Over any run, crashes included, two requests of a level never carry the same client ID |
| TakeProfitProtocol.RetiredIsFinal | copytrader/protections.go:527-536 | What a retired generation executed never changes again |
| TakeProfit.Ladder.RefreshTPProgress | copytrader/protections.go:44-112 | Fills of the level's own order are the only evidence; all levels are recorded in one write, exactly as read, and progress is reported exactly when there is some |
| TakeProfit.Ladder.RetireOrder | copytrader/protections.go:273-317 | An order of the wrong size is retired only after the exchange confirmed that it ended without an unrecorded fill; one of the right size is kept; it gives up without a setback only after an answer that showed a new fill |
| TakeProfit.Ladder.SettleUnplacedTP | copytrader/protections.go:538-587 | A level goes on only with a confirmed row or under a new generation |
| TakeProfit.Ladder.SubmitRow | copytrader/managed_execution.go:222-285 | At most one request leaves, exactly one unless the store failed; success means the exchange confirmed the row |
| TakeProfit.Ladder.SubmitLevel | copytrader/protections.go:367-405 | Row and link are stored in one write, unless that was done before a crash, and the order has the wanted size; without a setback or deferral it was placed or rejected |
| TakeProfit.Ladder.RestoreLevel | copytrader/protections.go:258-427 | A filled level is left alone; a level with a recorded order keeps it only if its size is right; a new order has exactly the wanted size; without a setback or deferral a tradable open level ends with an order unless the exchange rejected it |
| TakeProfit.Ladder.Resize | copytrader/protections.go:227-241 | Sizes, stamps and position are stored in one write and equal the rescale function |
| TakeProfit.Ladder.PlaceLevel | copytrader/protections.go:318-405 | A level too small is set aside, one already under way is settled, and a new order has exactly the wanted size; without a setback or deferral a tradable level ends with an order unless the exchange rejected it |
| TakeProfit.Ladder.QueryRow | copytrader/managed_execution.go:171-190 | A row that was sent is looked up by its client ID; unknown for the grace period it never reached the exchange |
| TakeProfit.Ladder.Stamp | copytrader/protections.go:425-430 | The fills a position size reflects are stored together with it |
| TakeProfit.Ladder.RestoreLevels | copytrader/protections.go:258-424 | Every level is brought to its size one after the other; without a setback or a new fill every level that is not deferred ends served |
| TakeProfit.Ladder.RestoreRemainingProtections | copytrader/protections.go:171-431 | Without a setback the orders are looked up and their fills recorded, every open level is sized to its remainder times the position over the reference, and every level that is not deferred ends with an order, set aside, rejected or filled; the first pass of a ladder that fits asks for every level as planned; success stamps every level with its cumulative fill, and a pass that resizes leaves levels that want at most the position, under the exact condition of the rescale |
| TakeProfitScale.RescaleFitsIff | copytrader/protections.go:455-477 | Any rescale asks for more than the position exactly when the position grew, its fills since are not known, and the ladder had already booked more than the recorded position |
| TakeProfitScale.RescaleExact | copytrader/protections.go:448-477 | The factor is the position over a reference: the recorded position less the fills since, where known, else the recorded position if the trade grew, else the position, and never less than the open remainders unless it grew unguarded |
| TakeProfitScale.UnsyncedSum | copytrader/protections.go:475-477 | A ladder that was never synced, or did not grow and has no stamps, books its remainders if the position holds them and exactly the position if not |
| TakeProfitScale.UnsyncedWishes | copytrader/protections.go:475-477 | The first pass of a ladder that fits asks for every open level as planned |
| TakeProfitScale.StampedRescaleFits | copytrader/protections.go:455-477 | A stamped rescale never lets the open levels ask for more than the position |
| TakeProfitScale.LotsFit | copytrader/protections.go:231-233 | Rounding to lots keeps that bound |
| TakeProfitScale.InLotsExact | copytrader/protections.go:231-233 | A wish loses nothing but the part below one lot |
| TakeProfitScale.RescaleProportionalIff | copytrader/protections.go:216-241 | A rescale keeps every level's share exactly when each wish is its placed remainder, cut by the guard |
| TakeProfitScale.UnplacedWishForgotten | copytrader/protections.go:216-241 | Concrete ladder on which it does not: an earlier wish not placed yet is forgotten, and a take-profit fill alone enlarges another level |
| TakeProfitScale.FillsCounted | copytrader/protections.go:76-91 | Fills take the same amount from the open levels and from what is left of the position |
| TakeProfitScale.PassProportionalIff | copytrader/protections.go:226-241 | From a settled ladder one pass scales every level exactly by the change of the position, exactly when that change can be seen: an outside increase that equals the fills since the last pass is missed |
| TakeProfitScale.IncreaseHiddenByFill | copytrader/protections.go:225-241 | Concrete ladder on which an outside increase equal to the fills leaves every level at its old size |
| TakeProfitScale.LadderFollowsPosition | copytrader/protections.go:448-477 | Over any sequence of fills and visible outside changes each level wants exactly its share, the runner keeps exactly its own, and the ladder never books more than the position |
| CollectorSafety.AlwaysSound | collector/worker.py:144-196 | Every reachable state keeps the invariant of rows, checkpoint, outbox order and recovery in progress |
| CollectorSafety.NoMessageLost | collector/worker.py:144-192 | Whatever was posted after the baseline is acknowledged or above the mark the next recovery reads from; without a recovery row everything streamed is acknowledged or still in the outbox; unless the only trace of a message was dropped |
| CollectorSafety.NothingLostIff | collector/worker.py:365-393 | Over every run that holds after each step exactly when no receipt was dropped that was the only trace of an undelivered message of an untracked channel without a recovery row |
| CollectorSafety.DropSafeIff | collector/worker.py:377-388 | Dropping the head of an untracked channel keeps the invariant exactly when the head is not such a receipt: a change, an acknowledged message or one with another receipt may go |
| CollectorSafety.ReadyIsVerified | collector/worker.py:490-504 | A channel reports ready only without a recovery row and with everything up to its checkpoint acknowledged |
| CollectorSafety.SupersededNeverFinishes | collector/worker.py:438-504 | Under every interleaving a recovery that lost its generation appends nothing more, deletes no row and marks nothing ready |
| CollectorSafety.RowGoesOnlyWhenDelivered | collector/worker.py:490-498 | The row goes, and the channel becomes ready, only by a current recovery whose complete history was acknowledged |
| CollectorSafety.AdvanceClean | collector/worker.py:323-328 | Delivering the head and advancing the checkpoint never steps over an undelivered message |
| CollectorSafety.FinishClean | collector/worker.py:490-498 | When the outbox is drained up to the watermark, deleting the row leaves nothing behind |
| CollectorSafety.ForgottenIsLost | collector/worker.py:377-388 | A message whose only trace was dropped is below the mark, out of reach of every later recovery, as soon as a later message of the channel is delivered |
| CollectorSafety.ForgettingLoses | collector/worker.py:365-393 | Concrete run from the start in which that happens |
| Collector.Worker.Append | collector/core.py:43-54 | A receipt gets the next number and goes to the end; every channel sees its own events only |
| Collector.Worker.Capture | collector/worker.py:144-196 | A tracked event becomes a receipt before anything else; the worker halts exactly when the buffer refuses it; an untracked one changes nothing |
| Collector.Worker.FailBuffer | collector/worker.py:212-217 | After a buffer failure nothing is captured |
| Collector.Worker.NewSession | collector/worker.py:155-170 | READY supersedes the recovery of every tracked channel and leaves a row for each |
| Collector.Worker.ScheduleRecovery | collector/worker.py:419-430 | Scheduling supersedes what is in progress and keeps an existing row |
| Collector.Worker.MarkGap | collector/worker.py:377-385 | Gap row, new generation and state are set while the receipt is still there |
| Collector.Worker.Acknowledged | collector/worker.py:323-328 | The checkpoint is raised to the delivered message before exactly the head receipt is removed; a message that was gone leaves it alone |
| Collector.Worker.SkipEventWithGap | collector/worker.py:365-393 | For a tracked channel the gap row is durable and the recovery superseded before the receipt goes |
| Collector.Worker.AddChannel | collector/worker.py:592-595 | A newly configured channel has a recovery row, from its baseline or its durable mark, before its stream is captured |
| Collector.Worker.RemoveChannel | collector/worker.py:575-579 | A removed channel supersedes its recovery |
| Collector.Worker.TakeCheckpoint | collector/worker.py:588-591 | The backend's progress stands in only for a missing checkpoint, and for the baseline of a channel never tracked here |
| Collector.Worker.Recover | collector/worker.py:438-520 | One recovery with arbitrary steps of the other coroutines at each wait: it begins exactly when the channel is tracked; it is ready only if it still holds the generation it began with, without a row and with a checkpoint; it is unreadable, incomplete or out of buffer only if the source, the history's length or the outbox caused it, superseded only if the generation is over, and it waits only after looking as often as asked |
| Collector.Worker.DrainRecovery | collector/worker.py:432-436 | One round after the other until nothing is scheduled; every channel that was scheduled is recovered under a generation it then had, unless it was not tracked any more when its turn came, and the outcome still shows in the channel or the generation is over; a source that answers is never reported unreadable or incomplete; a single scheduled channel that is tracked is recovered |
| Collector.Worker.RecoverAll | collector/worker.py:438-448 | One round begins exactly the recoveries whose outcome it reports, and passes a channel over only if it was not tracked when its turn came |
| Collector.Worker.Relay | collector/worker.py:474-504 | The history goes out at once if the buffer takes it, then the current cards, all of them, one by one; the end is reported only for the generation it began with |
| Collector.Worker.Settle | collector/worker.py:490-504 | The recovery ends only when it is current and the outbox drained up to the watermark, and is ready exactly if its history was complete |
| Collector.Worker.StartRecovery | collector/worker.py:442-448 | A recovery remembers the generation it began with, and is logged |
| Collector.Worker.ReadHistory | collector/worker.py:467-471 | History is read down to the anchor of the row, which exists from then on |
| Collector.Worker.FetchHistory | collector/worker.py:467-471 | A history that is not too long is read completely: everything posted between the anchor and the first page |
| Collector.Worker.AppendCard | collector/worker.py:477-487 | A card becomes one receipt at the end of the outbox, only from a recovery that is current |
| Collector.Worker.FailRecovery | collector/worker.py:507-520 | A failed read turns an existing row into a gap and blocks the channel |
| Collector.Worker.LeaveRecovery | collector/worker.py:494-495 | A superseded recovery changes no channel |
| Collector.Worker.AppendHistory | collector/worker.py:474-476 | The history is appended without a wait, in order and completely exactly if the buffer takes all of it |
| Collector.Worker.SetWatermark | collector/core.py:67-71 | The watermark is at or above every receipt of every channel |
| Collector.Worker.FinishRecovery | collector/worker.py:494-504 | The row goes if the history was complete, else it becomes a gap; a missing checkpoint becomes the baseline |
| Collector.Worker.Restart | collector/worker.py:96-138 | A crash keeps outbox, checkpoints and rows and forgets everything else |
| Collector.OwnHead | collector/core.py:56-62 | Taking the head of the shared outbox takes the head of its own channel and nothing of the others |
| History.BoundedHistory | collector/core.py:127-136 | Complete: sorted, without duplicates, every message above the last known one, however many pages it took and whatever arrived meanwhile; incomplete: exactly the newest 1000, all above it |
| History.HistoryServesRecovery | collector/worker.py:467-471 | That is what the recovery protocol asks of a history |
| Claims.InstructionSemantic | copytrader/action_identity.go:22-58 | The key built by the loops equals the normalised meaning |
| Claims.PriceIff | copytrader/action_identity.go:7-21 | Two prices get the same normal form exactly when they are carried out alike |
| Claims.SemanticIff | copytrader/action_identity.go:22-58 | Two instructions of one action have the same key exactly when they mean the same; wording, list formatting and ratio sources do not count |
| Claims.Journal.ClaimInstruction | copytrader/pipeline.go:75-149 | The scan over stored actions and the insertion equal the claim function; a refused claim changes nothing; an action under way, done or finally rejected is not claimed again on its revision, and one that nothing like that forbids is |
| Claims.ClaimsIff | copytrader/pipeline.go:105-149 | A claim succeeds exactly when every stored row lets it pass and its identity, for a repetition that of this signal's retry, is new |
| Claims.FinalRefuses | copytrader/pipeline.go:134-141 | An action under way or done is never claimed again, and one rejected when it was carried out only by a newer revision |
| Claims.OpenClaims | copytrader/pipeline.go:105-149 | Nothing else refuses an action that is not a reduction: when every row of the same meaning was rejected before it was carried out or at an older revision, the claim succeeds |
| Claims.EachAtMostOnce | copytrader/pipeline.go:105-149 | Over any history of edits, retries and outcomes an action with one meaning is in effect at most once |
| Claims.RetriesNeedRevisions | copytrader/pipeline.go:137-148 | Over any history the final rejections of one action with one meaning have strictly increasing revisions, and no row repeats one that was not rejected |
| Claims.ClaimKeepsReductionIff | copytrader/pipeline.go:114-133 | A claim keeps at most one reduction in effect exactly when it is not a partial close that escapes comparison with a live reduction of the trade |
| Claims.ReducedAtMostOnce | copytrader/message_rules.go:96-101 | Since partial closes are turned into reductions first, at most one reduction per message and trade is ever in effect, whatever ratio or level the edits state |
| Claims.PartialCloseAfterReduce | copytrader/pipeline.go:113-116 | Without that step a message edited from reduce to a partial close reduces twice |
| LegacyExit.SentAtMostOnce | copytrader/executor.go:449-470 | One signal's exit is sent at most once over any run with crashes at any point |
| LegacyExit.RetryableWasNotSent | copytrader/executor.go:472-485 | What recovery may send again was never sent |
| LegacyExit.RemovedOnlyWhenFlat | copytrader/executor.go:505-591 | Remaining stop and take-profit orders are removed only after a read of this process showed a flat position, with nothing sent since |
| LegacyExit.Executor.LegacyExitIntent | copytrader/executor.go:447-470 | Only a marker still at INTENT lets an exit proceed; no marker is recorded twice, and a duplicate is reported only for one that was sent or not needed |
| LegacyExit.Executor.LegacyExitRetryable | copytrader/executor.go:472-485 | Retryable exactly when a marker exists and none of the signal left INTENT, and then nothing of it was sent |
| LegacyExit.Executor.MarkLegacyExit | copytrader/executor.go:487-500 | A marker moves by one durable write or not at all |
| LegacyExit.Executor.ExecuteLegacyClose | copytrader/executor.go:505-595 | The marker is past INTENT before the close leaves; a failure is reported as not submitted exactly when the marker is still at INTENT, and then nothing was sent; the request is for the whole position or its formatted share; without a setback an open position gets exactly this exit and a flat one loses its protections, which go after a full close exactly when the next read is flat |
| LegacyExit.Executor.ExecuteClose | copytrader/executor.go:402-430 | A signal whose marker left INTENT sends nothing; plain success means exactly one close of this signal was sent for the wanted quantity; without a setback a signal that never got past its marker closes an open position |
| RateLimit.Limiter.Allowed | api/ratelimit.go:47-85 | One request equals the state function: sweep, refill up to the burst, take a token if there is one |
| RateLimit.Limiter.Sweep | api/ratelimit.go:53-65 | The sweep drops exactly the buckets idle for more than ten minutes, at most once a minute |
| RateLimit.NobodyNotices | api/ratelimit.go:49-85 | With times that do not go back and rate x 600 s >= burst every sequence of requests is answered as by a limiter that never drops a bucket |
| RateLimit.SweepingUnnoticed | api/ratelimit.go:53-65 | The two limiters agree on every kept bucket and every dropped one is full, request after request |
| RateLimit.WindowBound | api/ratelimit.go:18-23 | Each key gets at most burst + rate x (t - s) admissions in any window |
| RateLimit.RefusedOnlyWhenSpent | api/ratelimit.go:66-85 | Conversely a request is refused only when since some time the key used up all but a part of one of the admissions that the window allows |
| RateLimit.ConstantsAreSound | api/server.go:53-56 | The constants in use satisfy the condition |
| JsonScan.ExtractJsonObject | copytrader/parser.go:27-72 | The result is the shortest string-aware balanced stretch from the first brace of the trimmed or fenced text, and there is none exactly when no such stretch exists |
| JsonScan.ScanObject | copytrader/parser.go:39-71 | The loop over depth, inString and escaped finds that stretch |
| JsonScan.PrintBalanced | copytrader/parser.go:43-70 | Every well-formed printed value is balanced for the scan, whatever braces its strings hold |
| JsonScan.ObjectFound | copytrader/parser.go:39-71 | After text without a brace and before any text the scan yields exactly the printed object |
| JsonScan.ExtractInvertsPrint | copytrader/parser.go:27-72 | For any JSON object in text without an earlier brace and without a code fence, trimming and scanning yield exactly its text |
| JsonScan.FencedObjectFound | copytrader/parser.go:30-38 | The same inside a closed code fence, labelled json or not |

## Left out

Weaker than the code or bounded in the model:

- Collector.Worker.DropHead: receipts are removed from the head only, as `deliver` does; `Outbox.ack` would accept any event ID.
- Collector.Worker.AwaitDrained: the unbounded wait for the watermark looks a given number of times, after which the recovery is left as a cancelled one would be.
- Collector.Worker.DrainRecovery: runs at most a given number of rounds, because new channels may be scheduled forever; the cards of each channel are arbitrary.
- Collector.Worker.FinishRecovery: a status frame that fails to be published after the row was deleted is not modelled; the program then shows a gap without a row until the retry.
- Collector.Worker.FetchHistory: takes any answer that `History.BoundedHistory` may give, a complete one unless the history is too long; the page loop itself is proved in module History.
- ManagedExecutor.Executor.ExecuteManagedCloseAmount: exits of a take-profit level and their replacement fills are not modelled, every intent is an author's or a risk exit.
- ManagedExecutor.Executor.FinishTradeOrders: settling the ledger is modelled, the removal of remaining stop orders is one step that succeeds or fails.
- ManagedExecutor.Executor.CheckEntry: source admission answers arbitrarily, and a refusal counts as a setback; its rules are not part of this model.
- ManagedExecutor.Executor.RevalidateDeferredMarket: the frozen entry decision accepts or refuses arbitrarily, and a refusal counts as a setback; the re-sizing is exact.
- ManagedExecutor.Executor.ProtectFills: placing and repairing protection is one step whose outcome is given: placed, answered unclearly, or failed.
- ManagedExecutor.Executor.ReconcileManagedEntry: what the pass meets outside its ledger, such as deadlines, take-profit progress, the live price and the free balance, is given and does not change within a step.
- ManagedExecutor.Executor.SubmitManagedChecked: a row that ended at the exchange is not looked up again; no caller passes one.
- Sizing.ReductionRestoresCaps: a full exit whose size the market lots cut is within the caps only up to the tolerance of the risk check, as in the code.
- TakeProfit.Ladder.SettleUnplacedTP: the rejection codes that allow another try are one arbitrary choice; the waiting time before it is not modelled.
- TakeProfit.Ladder.RestoreLevel: the price-band check and the deferral by the exchange are one given choice per level that leaves it unplaced.
- LegacyExit.Executor.ExecuteLegacyClose: the trade's state and quantity after the close are not modelled, the marker, the request and the protections are; a share of an open position that vanishes in floating point is positive here.

Not modelled:

- Row objects shared by pointer: the executor passes rows as values in and out and stores them by index.
- Ledger reads that fail: a read returns what is stored, except where a method says otherwise; a failed write stops the same way.
- The context's version number: a conflict is a failed write.
- The stop-loss protocol (`setStopProtection`) and protection repair inside exits: one step that succeeds or fails. It can set the entry latch, but then returns an error.
- Repeated queries of take-profit rows that already ended, take-profits of the kind ALGO, anonymous old triggers, market replacements of levels and placement on exchanges without managed orders.
- `executeManagedOpen`, admission ordering and the entry decision: the model starts from a stored plan.
- Floating-point rounding and `SanitizeBaseQuantity`: values are reals.
- `entry_working`, `last_action`, `last_error`, events and diagnostics: they steer nothing that is proved.
- Old exits without a signal ID on exchanges without client IDs: they have no marker and so no guarantee.
- Notification-only channels (`trade_recovery` false) and deletions in the relay: they skip history on purpose.
- Backoff timers of failed recoveries and of hydration: any step may happen at any time instead.
- Hydration's cache and `merge_message`: the content of a message is not modelled, only its identity.
- Validation and normalisation of the interpretation after the JSON object was found, and the meaning of the text.
- Exchange adapters, Discord SDK, SQLite and GORM, HTTP handlers, configuration, mail and the web interface.
