# A verified model of the weatherbot ledger, paper executor and event store

The project models the event-sourced ledger of `weatherbot` with its exact
six-decimal arithmetic, the deterministic paper executor that feeds it, the
crash-safe event store underneath, and the arithmetic beside it: valuation, the
experiment loop, order-book quotes, temperature partitions and the empirical
CRPS. `dafny verify dfyconfig.toml` checks everything.

## How the model is laid out

| Layer | Modules |
|---|---|
| Amounts and sums | `Rounding`, `MapSums` |
| Ledger | `Model`, `Events`, `State`, `Reducers`; proofs in `LedgerInvariants`, `InvariantCheck`, `LedgerRuns`, `LifecycleSteps`, `Conservation`, `RoundingDrift`, `CostBasis`, `WorldRecords`, `Acceptance` |
| Paper executor | `OrderBook`, `DepthWalk`, `PaperDepth`, `PaperPlan`, `PaperLedger`, `PaperRecovery`, `PaperProgress` |
| Event store | `Codec`, `EventLog`, `StoreSpec`, `StoreRuns`, `Decisions`, `EventStore` |
| Executor on the store | `PaperService`, `PaperStartup`, `PaperStores`, `PaperEntry` |
| Valuation and experiment | `Valuation`, `Experiment` |
| Arithmetic cores | `Quotes`, `Crps`, `Temperature`, `BucketProbability` |

The reducers, plans and codecs are expressions over immutable values in the
source and are functions here. Loops are methods proved against functions:
`assert_invariants`, `replay`, the depth walks, the quotes, the log loader, the
append loop, the recovery loops, the mark loops. The store and the experiment
engine, which change in place, are classes.

Conventions:

- A money amount, price or quantity of the ledger is an integer number of
  micro-units. Rounding to six decimals is round-half-even on a quotient.
  Book prices, sizes and rates are exact reals.
- A constructor's check on one field is a subset type. Checks across fields are
  `ValidEvent` and `Valid` predicates.
- A hash of known material is that material, so equal hashes mean equal
  material. This covers fingerprints, chain hashes and derived identifiers.
- Times are integers in microseconds.
- An exception is an error value of `Result`, `Outcome` or `Option`; a method
  that fails leaves what the source leaves.
- The verdict of the portfolio risk evaluation, the answers to hypothetical
  settlements and the reading of a plan from adapter metadata are arbitrary
  inputs.

## What the proofs found

- The check that `apply_event` ends with is needed in exactly two cases: a
  partial BUY fill that rounding leaves one micro-unit short of available cash,
  and a resolution that reaches a ledger not yet opened
  (`ClosingCheckIsNeededTwice`; the first case is reached by `OverdrawIsReachable`).
- The planner compares the fee of a BUY with the whole cash reservation, the
  ledger with the fee reserve alone. A book, an order and a policy lead to a plan
  that passes the first and never the second (`PlannerIgnoresFeeReserve`);
  `reconcile` then emits the same events again (`EntryIsExecutedOrWaits`), and
  startup recovery cannot run to its end (`UnpayablePlanBlocksRecovery`).
- With a micro-unit of cash to spare, or no partial BUY among the open orders,
  startup recovery runs to its end exactly when every open order with an adapter
  row has a readable plan that the ledger can pay for and every other open order
  is untouched (`Recover`). Finishing an order never costs more than it holds in
  reserve, so the sequence of orders can matter for that micro-unit alone.
- The average-price rejection after the depth walk is not dead
  (`AverageRejectionHappens`): it fires exactly when the average is half a
  micro-unit past an odd limit (`AverageRejectionIsATie`), and never when level
  prices are whole micro-units (`WholePricesNeverReject`).
- The depth walk stops at a level whose size is a fraction of a micro-share,
  and can then miss shares further down (`FractionsEndTheWalk`). It is maximal
  exactly when no level beyond it has room for one more micro-share
  (`WalkIsMaximal`), and maximal for every order exactly on books where no
  fractional level is followed by one that holds a whole micro-share
  (`MaximalForEveryOrder`).
- A mark taken from a book that is ahead of the clock, which freshness allows by
  five seconds, makes the valuation it belongs to impossible to build
  (`BuildValuation`, reached by `BookAheadBlocksValuation`).
- Rounding a forecast to whole degrees disagrees with the half-open interval
  around a bucket only on a negative half-degree tie at its edge, because ties
  round away from zero (`ForecastAgrees`).

## Model

| member | source | states |
|---|---|---|
| `Rounding.RoundingIsUnique` | weatherbot/domain/money.py:32-34 | the rounded value is the only whole number within half a unit whose ties are even; every rounding in the model is this one |
| `Rounding.SplittingMovesOneMicro` | weatherbot/domain/money.py:90-95 | valuing a quantity in two parts differs from valuing it at once by at most one micro-unit either way, the source of all non-additivity below |
| `Rounding.ScaleStaysWithin` | weatherbot/domain/money.py:78-79 | a rounded share of a non-negative amount lies between zero and the amount |
| `InvariantCheck.CheckOrders` | weatherbot/domain/state.py:140-204 | the order loop accepts exactly the well-formed order maps, and its running sums are the cash and SELL quantities that all orders hold |
| `InvariantCheck.CheckPositions` | weatherbot/domain/state.py:206-227 | the position loop accepts exactly well-formed positions whose reservations equal the SELL reservations key by key, in both directions |
| `InvariantCheck.CheckHistory` | weatherbot/domain/state.py:238-275 | the observation loops accept exactly histories of one market with distinct payloads, grounded revisions and one linear revision chain |
| `InvariantCheck.AssertInvariants` | weatherbot/domain/state.py:134-286 | the whole check passes if and only if the declarative ledger invariant holds |
| `InvariantCheck.Apply` | weatherbot/domain/reducers.py:508-560 | the imperative step with the executable check is the reducer guarded by the declarative invariant |
| `InvariantCheck.ReplayLog` | weatherbot/domain/reducers.py:563-568 | the replay loop computes the recursive replay that all run theorems speak of |
| `LedgerInvariants.ClosingCheckIsNeededTwice` | weatherbot/domain/reducers.py:508-560 | from any ledger that satisfies the invariant, an event whose reducer accepts it re-establishes every clause if and only if it is neither the rounding overdraw of a partial BUY fill nor a resolution before opening; in the first case only available cash fails, at exactly minus one |
| `LedgerInvariants.AcceptedExactly` | weatherbot/domain/reducers.py:508-560 | a new event is accepted exactly if its reducer takes it and it is neither of these two cases |
| `Acceptance.AcceptedEvents` | weatherbot/domain/reducers.py:508-560 | which events a reachable ledger accepts, for all fourteen kinds, as conditions on the ledger and the event alone: states, quantities, limits, fees, cash, payouts and marks, with no mention of a reducer; guards that can never fire are absent from them |
| `Acceptance.FillReduces` | weatherbot/domain/reducers.py:206-342 | of the guards on a new fill only state, quantity, limit, fee and, for a BUY, a settled position can refuse it; those on reservations and cash are implied |
| `Acceptance.ClosingAccepted` | weatherbot/domain/reducers.py:188-203 | from which states an order can be rejected or cancelled; the guard on its reservation never fires |
| `Acceptance.IntentAccepted` | weatherbot/domain/reducers.py:111-145 | a new BUY is accepted exactly if its limit value and fee reserve are available, a new SELL exactly if an open position has the quantity unreserved, a known intent exactly if it is the same |
| `Acceptance.ObservationAccepted` | weatherbot/domain/reducers.py:345-398 | an observation is accepted exactly if it is recorded already, provisional, the first final one, or a revision of the latest final or revised one with the same identity |
| `Acceptance.SettlementAccepted` | weatherbot/domain/reducers.py:438-467 | a settlement is accepted exactly for an open position that holds something, reserves nothing, and whose market's resolution names its outcome and pays at least the fee |
| `Acceptance.SettlingForFreeIsAccepted` | weatherbot/domain/reducers.py:438-467 | without a fee every such position can be settled, one that pays nothing included |
| `Acceptance.ValuationAccepted` | weatherbot/domain/reducers.py:476-505 | a valuation is accepted exactly if it marks every held position at its quantity and nothing else, and its equity is cash plus marks |
| `Acceptance.OrdersAreTight` | weatherbot/domain/model.py:77-129 | in every reachable ledger an order still created is untouched, an open order has something left to fill, and a SELL order has a position |
| `LedgerInvariants.BuyFillKeeps` | weatherbot/domain/reducers.py:206-250 | a BUY fill moves available cash by its rounding slack alone, never below minus one, and a completing fill never below zero |
| `LedgerInvariants.OverdrawIsReachable` | weatherbot/domain/reducers.py:206-250 | a four-event history in which the closing check is what refuses the fill |
| `LedgerInvariants.ResolutionBeforeOpeningIsRejected` | weatherbot/domain/reducers.py:424-435 | the resolution reducer itself accepts an unopened ledger; the closing check refuses it |
| `LedgerInvariants.ReplayKeepsInvariant` | weatherbot/domain/reducers.py:563-568 | every replay that succeeds ends in a ledger satisfying the invariant |
| `Conservation.CashIsConserved` | weatherbot/domain/reducers.py:206-297 | after any accepted log, cash plus all cost bases equals the opening cash plus all realized P&L, to the micro-unit |
| `Conservation.BodyConserves` | weatherbot/domain/reducers.py:508-560 | no event of any kind moves cash plus cost minus realized P&L, except the opening, which adds the opening cash |
| `WorldRecords.SaleAllocatesCost` | weatherbot/domain/reducers.py:253-297 | a sale takes out the nearest proportional share of the cost, all of it with the last share, and books the rest of its net proceeds as P&L |
| `WorldRecords.SettlementPays` | weatherbot/domain/reducers.py:438-467 | a settlement closes the position at nothing held, pays the quantity at the payout the resolution assigns, within half a micro-unit, books proceeds less cost as P&L, and changes nothing else |
| `WorldRecords.ReportsAddThemselves` | weatherbot/domain/reducers.py:345-435 | an accepted observation is appended to its market's history, an accepted piece of evidence or resolution is added, each unless it is there already, and nothing else changes |
| `WorldRecords.WorldIsConsistent` | weatherbot/domain/reducers.py:345-467 | in every reachable ledger each settled position was paid what its market's resolution assigns to its outcome, and the terminal observations of a market measure one identity |
| `WorldRecords.NothingReportedIsLost` | weatherbot/domain/reducers.py:345-435 | every observation, piece of evidence and resolution of an accepted log is in the final ledger as it was reported |
| `LedgerRuns.RedeliveryIsHarmless` | weatherbot/domain/reducers.py:508-568 | replaying a log equals replaying it without its exact repetitions, for accepted and rejected logs alike |
| `LedgerRuns.ResentFillIsOnlyRecorded` | weatherbot/domain/reducers.py:300-308 | a fill sent again at any later time under a new event identifier changes nothing but the recorded identifiers |
| `LedgerRuns.LifecycleIsSafe` | weatherbot/domain/model.py:77-129 | over every run: no order or fill is lost, the filled quantity never falls, the backend identifier is written at most once, and a closed order never changes again and holds nothing |
| `LedgerRuns.ReplayRecords` | weatherbot/domain/reducers.py:508-560 | the recorded fingerprints are exactly the events of the log |
| `RoundingDrift.RoundingDriftIsBounded` | weatherbot/domain/reducers.py:206-250 | over a whole run, twice what a BUY order has paid beyond its reservation is at most the number of its distinct fills plus one |
| `RoundingDrift.RunCharges` | weatherbot/domain/model.py:266-278 | the cash debited for an order over a run is its recorded gross value and fees, and the gross value drifts by at most half a micro-unit per fill |
| `CostBasis.EmptyPositionsCostNothing` | weatherbot/domain/reducers.py:274-297 | in every reachable ledger a position of quantity zero has cost basis zero, which the checked invariant does not say |
| `PaperDepth.BuyLevels` | weatherbot/paper/execution.py:87-130 | the BUY walk is a best purchase: it takes what the order may take, emptying the better levels first, and nothing the order may take fills more unless the walk ended in a fraction; it fails if and only if it comes to take from a level whose price rounds to nothing |
| `PaperDepth.SellLevels` | weatherbot/paper/execution.py:133-165 | the SELL walk is a best sale in the same sense, with floors for caps, and fails under the same exact condition |
| `PaperDepth.BuyCapsMean` | weatherbot/paper/execution.py:92-101 | the caps of the walk admit exactly the allocations within size, quantity, limit, average slippage, worst slippage and, with fees and a micro-unit to spare, the cash reservation |
| `PaperDepth.SellCapsMean` | weatherbot/paper/execution.py:138-142 | the floors of the walk admit exactly the allocations within size and quantity, and no worse than limit, average slippage and worst slippage |
| `PaperDepth.WalkIsMaximal` | weatherbot/paper/execution.py:92-130 | no micro-share allocation within the quantity, size, cash, average-price and worst-price caps fills more shares than the walk, if and only if no level beyond the walk has room for one micro-share |
| `PaperDepth.FractionsLastLeaveNothing` | weatherbot/paper/execution.py:92-165 | on levels where no fractional size is followed by a whole micro-share, every walk under any caps, bought or sold, leaves no such room |
| `PaperDepth.MaximalForEveryOrder` | weatherbot/paper/execution.py:87-130 | every BUY walk over a book, for any order and policy, is maximal if and only if no ask of fractional size is followed by one that holds a whole micro-share |
| `PaperDepth.FractionsEndTheWalk` | weatherbot/paper/execution.py:92-130 | a book, an order and a policy for which the BUY walk fills one micro-share where four would fit |
| `DepthWalk.GreedyIsMaximal` | weatherbot/paper/execution.py:92-165 | the exchange argument: taking every whole micro-share of the cheaper levels and stopping where there is no room beats every allocation within the caps |
| `PaperPlan.BuildPlan` | weatherbot/paper/execution.py:168-268 | a stale book is refused, a quantity below the minimum is rejected, a walk that meets a level without a price is an error, and otherwise the walk is a best purchase or sale, and the plan, if not refused, books all of it at its average price with the fee the policy charges |
| `PaperPlan.PlanFollowsWalk` | weatherbot/paper/execution.py:191-268 | for every walk the exact condition of each refusal, and otherwise the plan: its levels, its quantity, the rounded weighted average, the worst price, the gross value of that average, the fee, its status and reason |
| `PaperPlan.BookedNearCost` | weatherbot/paper/execution.py:191-268 | the plan's own gross value is within half a micro-unit plus one micro-unit a share of the exact cost, or half of one where prices are whole micro-units, and its fee within one of the exact charge |
| `PaperPlan.WalkRespectsLimit` | weatherbot/paper/execution.py:104-165 | the exact cost of the walk is within the intent's limit, so no exact average is past it |
| `PaperPlan.AverageRejectionIsATie` | weatherbot/paper/execution.py:194-215 | the later average-against-limit rejection fires if and only if the average of the booked prices is half a micro-unit past an odd limit |
| `PaperPlan.AverageRejectionHappens` | weatherbot/paper/execution.py:194-215 | a book, an order and a policy whose walk is rejected for its average |
| `PaperPlan.WholePricesNeverReject` | weatherbot/paper/execution.py:194-215 | with prices in whole micro-units that rejection cannot fire |
| `PaperPlan.GrossTracksLevels` | weatherbot/paper/execution.py:216-226 | the recorded gross differs from the sum over the fills by at most half a micro-unit per share plus half a micro-unit |
| `PaperPlan.GrossTracksCost` | weatherbot/paper/execution.py:143-226 | against the exact cost of the levels the gross is off by at most half a micro-unit plus one micro-unit per share, or half of one where prices are whole micro-units |
| `PaperPlan.PlansFit` | weatherbot/paper/model.py:100-149 | whatever the fills, a plan that is built is priced within the limit, funded by the reservation or its proceeds, and passes its constructor |
| `PaperLedger.ExecutorRefinesLedger` | weatherbot/paper/execution.py:326-369 | the ledger accepts a plan's events if and only if it can afford the fill, and then the order is closed as planned, nothing of it stays reserved, and cash, position and every other order moved by exactly what the plan says |
| `PaperLedger.PlannedEventsSay` | weatherbot/paper/execution.py:326-369 | which events a plan becomes: of its order, at its time, under identifiers of their own, with the plan's quantity, price and fee |
| `PaperLedger.ReservedFeeSuffices` | weatherbot/paper/execution.py:168-268 | every plan built for an intent that reserves the fee of its limit notional is executed, given a position not settled and a full fill or one spare micro-unit |
| `PaperLedger.PlannerIgnoresFeeReserve` | weatherbot/paper/execution.py:216-226 | a book, an order and a policy whose walk leads to a plan that fits its intent and that no ledger accepts |
| `PaperLedger.ClosingReturnsReservations` | weatherbot/domain/reducers.py:83-100 | between two legal ledgers that differ in one closed order, reserved cash and quantity differ by what that order held |
| `PaperRecovery.RecoveryCompletesThePlan` | weatherbot/paper/execution.py:386-405 | interrupt a plan after any number of its events, with unknown outcomes in between: what `reconcile` emits is accepted exactly when the uninterrupted plan is, leads to the same ledger up to recorded identifiers, and leaves nothing for a second recovery |
| `PaperRecovery.InterruptedIsResumable` | weatherbot/paper/execution.py:386-405 | an interrupted run differs from the uninterrupted one by no more than the order's unknown label |
| `PaperProgress.PlanDrivenLogsStayOnPlan` | weatherbot/paper/execution.py:326-405 | in any accepted log, whatever happens to other orders and in whatever order planned events, doubts and cancellations arrive, an open order has either nothing or exactly the plan's fill booked |
| `PaperProgress.ReconcileCloses` | weatherbot/paper/execution.py:386-405 | from any such ledger, `reconcile` emits only planned events, at least one, and accepting them closes the order with the plan's figures, moves cash by what was outstanding and touches no other order |
| `PaperProgress.ReconcileAccepted` | weatherbot/paper/execution.py:386-405 | from any such ledger the events `reconcile` emits are accepted if and only if the fill is already booked or the ledger can afford it |
| `PaperProgress.FinishingFreesCash` | weatherbot/domain/model.py:266-278 | whatever is left to book of a plan costs no more than the open order holds in reserve |
| `Codec.EventRoundTrip` | weatherbot/persistence/codec.py:771-910 | decoding an encoded event gives it back, for all fourteen kinds |
| `Codec.PayloadsAreDistinct` | weatherbot/persistence/codec.py:304-328 | no two events share a payload |
| `Codec.CanonicalPayloads` | weatherbot/persistence/codec.py:771-910 | a payload decodes and encodes back to itself if and only if it is the encoding of a valid event |
| `Codec.ReadPayouts` | weatherbot/persistence/codec.py:653-760 | the payout loop reads a list or fails at its first malformed entry |
| `EventLog.CheckRow` | weatherbot/persistence/store.py:326-457 | the per-row checks accept a row if and only if it is the row of some valid event at that sequence with that previous hash |
| `EventLog.LoadLog` | weatherbot/persistence/store.py:326-457 | loading succeeds if and only if the rows are what appending some replayable log writes and every checkpoint agrees with its prefix; it then returns that log and its replayed state |
| `EventLog.RowsDetermineEvents` | weatherbot/persistence/codec.py:304-328 | the stored rows determine the log |
| `EventLog.RowsAreChained` | weatherbot/persistence/store.py:583-679 | each row has the next sequence, its event's own columns, a payload that decodes to the event, and the hash of the row before |
| `EventLog.ChainHashesAreUnique` | weatherbot/persistence/codec.py:98-106 | no two rows of a log share a chain hash |
| `EventStore.AppendRow` | weatherbot/persistence/store.py:583-679 | one turn of the append loop on rows does what the transaction does to the log, with the same failure |
| `EventStore.AppendRows` | weatherbot/persistence/store.py:583-679 | the append loop is all or nothing and returns the replayed state, the new sequences, the tail hash and the repeated events |
| `EventStore.BatchIsAccountedFor` | weatherbot/persistence/store.py:583-679 | every event of an appended batch takes a new sequence or is reported as repeated, and only what the log holds is |
| `EventStore.SelectIntentFinds` | weatherbot/persistence/store.py:572-581 | looking up an intent by its index column finds the row of the intent in the log, if and only if there is one |
| `EventStore.DecisionIndexFinds` | weatherbot/persistence/migrations.py:53-60 | the unique index on decisions refuses a row if and only if the log holds an intent of that decision |
| `EventStore.EventStore.Load` | weatherbot/persistence/store.py:326-457 | in every store the transactions can build, loading never fails and rebuilds the state the events replay to |
| `EventStore.EventStore.AppendMany` | weatherbot/persistence/store.py:681-686 | appends the batch or fails and changes nothing; never an intent |
| `EventStore.EventStore.ClaimDecision` | weatherbot/persistence/store.py:715-760 | a new claim is written, the owner's own identical one is repeated, anything else fails without a change |
| `EventStore.EventStore.CompleteDecision` | weatherbot/persistence/store.py:762-794 | only the owner completes, once, and never a committed claim |
| `EventStore.EventStore.CommitOrderIntent` | weatherbot/persistence/store.py:796-875 | claim and intent are committed together or not at all, and a repeated commit changes nothing |
| `EventStore.EventStore.CommitRiskCheckedIntent` | weatherbot/persistence/risk_store.py:128-337 | claim, scope, valuation, intent and adapter row are committed together or not at all, under every verdict |
| `EventStore.EventStore.SetAdapterMetadata` | weatherbot/persistence/store.py:914-966 | an adapter row is written only for a stored intent and keeps its backend |
| `EventStore.EventStore.CreateCheckpoint` | weatherbot/persistence/store.py:1069-1106 | a checkpoint records the current state and hash, and a conflicting one fails |
| `EventStore.EventStore.Recover` | weatherbot/persistence/store.py:977-1022 | reports the replayed state, the last sequence and tail hash, exactly the open orders, each to be submitted again if it was created and has no adapter row and to be reconciled otherwise, and every undecided claim |
| `StoreRuns.AttemptKeeps` | weatherbot/persistence/store.py:583-875 | every kind of transaction keeps every consistency clause of the store and never rewrites the log, a decided claim, a claim's owner, a checkpoint or an adapter's backend |
| `Decisions.RejectionLeaves` | weatherbot/persistence/risk_store.py:195-272 | a rejection completes the decision for its owner with both metadata, stores no intent and no adapter row, and adds at most the valuation to the log, nothing if that was unusable; it fails only where the ledger refuses the valuation |
| `Decisions.RejectedStaysRejected` | weatherbot/persistence/risk_store.py:188-198 | asked again with whatever request and evaluation, the owner of a rejected decision changes nothing and anyone else fails |
| `Decisions.RejectedNeverGetsAnIntent` | weatherbot/persistence/risk_store.py:128-337 | over every continuation by any owners a rejected decision keeps its claim and never gets an intent |
| `Decisions.PermissionLeaves` | weatherbot/persistence/risk_store.py:274-337 | a permission succeeds exactly if no other decision has the intent and the ledger accepts what is new of scope, valuation and intent; it then commits the claim for its owner with both metadata and stores all of them with the adapter row |
| `Decisions.RiskRepeatsExactly` | weatherbot/persistence/risk_store.py:156-187 | a commit of a decision already committed succeeds exactly for the same intent and adapter data, under any verdict, and writes at most a missing adapter row |
| `Decisions.CommitsExactly` | weatherbot/persistence/store.py:796-875 | a plain commit succeeds exactly if the decision is unclaimed or claimed alike, no other decision has the intent and the ledger accepts it; it writes claim and intent and nothing else |
| `Decisions.RepeatsExactly` | weatherbot/persistence/store.py:796-875 | committing a committed decision again succeeds exactly for the stored intent and writes nothing |
| `Decisions.FirstOwnerWins` | weatherbot/persistence/store.py:715-794 | of two owners who claim a decision the first has it, and the second can neither claim nor complete it |
| `Decisions.CompletesExactly` | weatherbot/persistence/store.py:762-794 | completing is for the owner of a decision not committed, and changes its status alone |
| `Decisions.AppendsExactly` | weatherbot/persistence/store.py:681-686 | a plain append succeeds exactly for a batch without intents that the ledger replays, and the log then holds nothing else new |
| `Decisions.SetsExactly` | weatherbot/persistence/store.py:914-966 | an adapter row is written exactly for a stored intent whose row, if any, names the same backend |
| `StoreRuns.ClaimsMatchIntents` | weatherbot/persistence/risk_store.py:128-337 | under any interleaving by any owners, committed claims and intents in the log correspond one to one by intent and decision, adapter rows name stored intents, and in a risk store every BUY follows its scope and a valuation of its decision |
| `StoreRuns.FinalClaimsStay` | weatherbot/persistence/store.py:715-875 | committed and completed claims are final over every continuation, and the log only grows |
| `StoreRuns.OnlyTheOwnerMoves` | weatherbot/persistence/store.py:762-794 | no call by another owner changes a claim |
| `StoreRuns.CommitStopsAtTheClaims` | weatherbot/persistence/store.py:796-875 | in a reachable store the duplicate-intent test and the decision index can only fire where the claim table already refuses |
| `StoreRuns.RepeatedCommitIsIdempotent` | weatherbot/persistence/store.py:796-875 | committing the same intent again, by anyone and with any metadata, succeeds and changes nothing |
| `PaperService.SubmittingIsAllOrNothing` | weatherbot/paper/service.py:393-438 | submitting a plan for an order that waits for it executes the order if the ledger can afford it, and otherwise leaves the store as it was with reconciliation emitting the same events |
| `PaperService.FreshBatchIsReplayed` | weatherbot/persistence/store.py:583-679 | the store appends a batch of unseen events exactly when the ledger replays it |
| `Decisions.AppendedIsReplayed` | weatherbot/persistence/store.py:583-679 | the same for any batch without intents, repetitions included: the appended log replays to the replay of the batch |
| `PaperStartup.ReconcileOne` | weatherbot/persistence/store.py:1024-1067 | reconciling one order through the store succeeds if and only if its plan is stored, readable and payable; it then finishes that order and no other, and otherwise leaves the log |
| `PaperStartup.ReconcileStartup` | weatherbot/persistence/store.py:1024-1067 | the loop over all pending orders finishes exactly those it reports; it completes if all of them can be paid for, and only if they can up to the rounding of partial BUYs; where it stops, the orders before are finished and the rest untouched; no other table changes |
| `PaperStartup.Recover` | weatherbot/paper/service.py:440-478 | both loops of the service's recovery: it completes if every open order has a readable, payable plan or, without an adapter row, is still created with its cancellation's identifier unused, and only if so up to rounding, which a spare micro-unit or the absence of partial BUYs makes an equivalence; complete, it has finished every open order; with nothing open it changes nothing |
| `PaperStartup.CoveredRecoverable` | weatherbot/paper/service.py:440-478 | with a spare micro-unit of cash, or no partial BUY among the open orders, the necessary and the sufficient condition for completion are the same |
| `PaperStartup.RecoveryClosesEverything` | weatherbot/paper/service.py:440-478 | after a complete recovery no order is open, nothing is reserved, closed orders are as they were, and cash moved by exactly what the stored plans had outstanding |
| `PaperStartup.UnpayablePlanBlocksRecovery` | weatherbot/paper/service.py:440-478 | an instance of that condition: one stored BUY plan with a fee above its intent's fee reserve keeps every recovery from completing |
| `PaperStores.PaperStoresAreOnPlan` | weatherbot/paper/service.py:314-438 | in every store built by calls of the paper service and by events about other things, every order with a stored plan is on it, which is what recovery needs |
| `PaperStores.PaperStoreIsRecoverable` | weatherbot/paper/service.py:440-478 | in such a store recovery needs no more than a readable, payable plan wherever there is an adapter row and an untouched order elsewhere |
| `PaperStores.RecoveryIsAdmitted` | weatherbot/paper/service.py:440-478 | what recovery itself appends is among those calls, so it can be interrupted and repeated |
| `PaperEntry.CommittedIntentAwaits` | weatherbot/persistence/risk_store.py:128-337 | in such a store a permitted commit of a new decision leaves a new, untouched order, its committed claim and its readable plan, and no trace of the plan's events |
| `PaperEntry.EntryIsExecutedOrWaits` | weatherbot/paper/service.py:393-438 | commit and submission together: the submission succeeds if and only if the ledger can afford the plan, and then the order is executed as planned in a store still in order; otherwise the intent stays stored and reconciling starts from the same events |
| `PaperEntry.SubmitEntry` | weatherbot/paper/service.py:393-438 | the service runs the commit, stops unless it committed the decision, reads the stored plan back and submits it, and leaves after each failure what the transactions before it left |
| `PaperEntry.EntryEndsWell` | weatherbot/paper/service.py:393-438 | so every new, permitted entry ends with its order executed or waiting untouched, in a store from which recovery can go on |
| `Valuation.Liquidate` | weatherbot/paper/valuation.py:28-53 | the bid loop computes the rounded proceeds of selling as much as the book takes, less the charge the policy makes on them, or nothing where the charge consumes them |
| `Valuation.MarkIsNearNetProceeds` | weatherbot/paper/valuation.py:28-53 | a mark is within one and a half micro-units, and half of one at the fee rate, of the exact proceeds less rated and flat fee |
| `Valuation.MarkIsWhatSellingBrings` | weatherbot/paper/valuation.py:28-53 | a holding sold in full at the best bid by a plan brings exactly its mark |
| `Valuation.ProceedsAreAttained` | weatherbot/paper/valuation.py:28-46 | some sale of at most the quantity into the bids brings exactly the proceeds |
| `Valuation.LiquidationIsBest` | weatherbot/paper/valuation.py:28-53 | no allocation of at most the quantity over the bids sells for more than those proceeds |
| `Valuation.BuildValuation` | weatherbot/paper/valuation.py:56-106 | a valuation is built if and only if the ledger is legal, every held position has a fresh book and none of these books is ahead of the clock; it marks exactly the held positions, and each failure has its exact condition |
| `Valuation.BookAheadBlocksValuation` | weatherbot/paper/valuation.py:56-106 | a reachable ledger and a book that is fresh for any age limit, from which no valuation can be built |
| `Valuation.BuiltValuationIsRecorded` | weatherbot/domain/reducers.py:476-505 | the ledger a valuation was built from accepts it: same keys, same quantities, same equity |
| `Valuation.AccountingIdentity` | weatherbot/paper/valuation.py:109-170 | in every reachable ledger the report has equity equal to starting cash plus realized and unrealized P&L; every field is the sum, count or difference it is named for, and drawdown is taken from the larger of equity and the recorded high-water mark |
| `Valuation.HighWaterIsTheLargest` | weatherbot/paper/valuation.py:117-131 | in an accepted log the high-water mark is at least the opening cash and every recorded equity, and is one of them |
| `Valuation.ReportStatus` | weatherbot/paper/valuation.py:109-170 | the three report loops together give the status that the accounting identity speaks of, and refuse exactly the illegal ledgers and the logs without an opening |
| `Valuation.ScanLog` | weatherbot/paper/valuation.py:109-131 | the event loop finds the opening cash and the high-water mark, which is the largest of it and the recorded equities |
| `Valuation.ScanPositions` | weatherbot/paper/valuation.py:109-150 | the position sums are the sums over the map, in any order of iteration |
| `Experiment.SortingSorts` | weatherbot/paper/experiment.py:432-438 | sorting the due settlements orders them by resolution time, then case, losing and repeating none |
| `Experiment.SplitPending` | weatherbot/paper/experiment.py:440-475 | the due and the remaining settlements are exactly those resolved before the decision and the others |
| `Experiment.Engine.SettleDue` | weatherbot/paper/experiment.py:440-475 | attempts exactly the due settlements, in order, and leaves exactly the others pending |
| `Experiment.Engine.Evaluate` | weatherbot/paper/experiment.py:481-609 | every settlement is attempted once and in order of resolution time and case, every decision runs after exactly the settlements resolved strictly before it, and each result reports its own attempt |
| `Experiment.ResultSays` | weatherbot/paper/experiment.py:515-594 | the status of each case and the report of its settlement, each under its exact condition; a settlement attempted reports what the ledger answered to it, given all that happened before |
| `Quotes.QuoteBuy` | weatherbot/markets/orderbook.py:164-198 | the share-quote loop computes the walk's cost, average and worst price, and fails exactly where the book is too shallow or the request too small |
| `Quotes.QuoteBudget` | weatherbot/markets/orderbook.py:200-254 | the same for the budget-quote loop |
| `Quotes.QuoteIsCheapest` | weatherbot/markets/orderbook.py:164-198 | no way to take the shares from the asks costs less, and the average lies between best ask and worst price |
| `Quotes.QuotedExactly` | weatherbot/markets/orderbook.py:164-198 | there is a quote exactly for a quantity of at least the minimum that the asks can supply; its cost is that of some way to take it, its worst price that of the ask in which it ends, its best prices those of the book |
| `Quotes.BudgetQuotedExactly` | weatherbot/markets/orderbook.py:200-254 | a budget has a quote exactly if it is the cost of a quote for shares |
| `Quotes.WalkIsCheapest` | weatherbot/markets/orderbook.py:164-198 | the exchange argument behind it, over any sorted levels |
| `Quotes.BudgetInvertsQuote` | weatherbot/markets/orderbook.py:200-254 | spending a quote's total cost gives the same quote |
| `Quotes.QuoteInvertsBudget` | weatherbot/markets/orderbook.py:200-254 | asking for a budget quote's shares gives the same quote |
| `Crps.FastScoreIsScore` | weatherbot/forecasting/calibration_v3_math.py:64-73 | the single-pass score equals the mean distance less half the mean pairwise distance, for every sorted list |
| `Crps.WeightsCountPairs` | weatherbot/forecasting/calibration_v3_math.py:64-73 | twice the weighted sum is the sum of distances over all ordered pairs |
| `Crps.ScoreIsNonNegative` | weatherbot/forecasting/calibration_v3_math.py:64-73 | the score is never negative |
| `Temperature.BuildPartition` | weatherbot/markets/temperature.py:275-313 | the constructor accepts a list of buckets if and only if there are two or more and every whole degree lies in exactly one |
| `Temperature.BucketFor` | weatherbot/markets/temperature.py:318-328 | every reported temperature has a bucket and it is the only one |
| `Temperature.ForecastAgrees` | weatherbot/markets/temperature.py:202-206 | a forecast rounds into a bucket exactly when it lies in the half-open interval around it, if and only if it is not a negative tie at an edge |
| `BucketProbability.ProbabilitiesSumToOne` | weatherbot/forecasting/calibration.py:604-628 | over an accepted partition and any distribution function every bucket has a probability and they sum to exactly one |
| `BucketProbability.EmpiricalProbabilityIsFraction` | weatherbot/forecasting/calibration.py:263-281 | under the empirical distribution a bucket's probability is the fraction of residuals that land in its interval |
| `BucketProbability.BisectLeft` | weatherbot/forecasting/calibration.py:279-281 | bisection on a sorted list counts the residuals below a value |
| `BucketProbability.EmpiricalIsCdf` | weatherbot/forecasting/calibration.py:263-281 | the empirical function is a distribution function |

## Left out

- Currency: one currency throughout; the mismatch checks are not modelled.
- Decimal context: division and products are exact; the 28-digit context of `Decimal` is not modelled.
- Floating point: probabilities and scores, floats in the source, are exact reals.
- Text checks: identifiers are trimmed and non-blank by type; URL, time-zone and case-folding checks are not modelled.
- JSON text: payloads are trees whose leaves carry what they spell; the text, key order and parsing of numbers are not modelled.
- Hashing: SHA-256 is injective by construction; collisions are not modelled.
- Clock columns: recorded, claimed and updated times, and the stop sequence of a partial load, are not modelled.
- SQLite: connections, pragmas, locks, backup, restore and migrations; a transaction is all or nothing.
- Plan metadata: the round trip of a plan through adapter metadata is not modelled; recovery reads it by an arbitrary function. The plan leaves out book hash, condition and token, and its reason is enumerated with shortened texts.
- Risk evaluation and sizing: arbitrary verdicts and intents; their rules are not part of this model.
- `PaperTradingService.submit_entry`: modelled past sizing and planning, as its two store transactions; the audit metadata and the shortcut for a decision already decided are left out.
- Other backends: startup reconciliation is modelled with the paper adapter, which cannot emit an event of another kind or intent, so the guards against that are left out.
- PaperRecovery.RecoveryCompletesThePlan: speaks of one order and events about it alone; other orders between them are the subject of `PaperProgress` and `PaperStartup`.
- PaperStartup.Recover: orders are taken in any sequence, the source takes them by identifier; the statement holds for every sequence.
- EventStore.EventStore.Recover: pending orders are a map and undecided claims a set; their sorted presentation is left out.
- Valuation.BuildValuation: positions are visited in a given sequence of their keys; the source sorts them by text. The valuation's check that its keys are distinct is met by construction.
- Experiment.Engine.Evaluate: case identifiers are integers in the order of the source's strings, and the simulated ledger is an arbitrary answer to each settlement given all that happened before; specification fingerprints are left out.
- Temperature.BuildPartition: the unit shared by all buckets is dropped, and bounds are whole degrees by type.
- Normal residual distributions, calibration training and grouping, providers, dashboards, Telegram, PIP publication and the legacy bots.
