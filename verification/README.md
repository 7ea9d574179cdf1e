# GlassBox: the trading core, verified

GlassBox trades defined-risk option structures through resting orders. It keeps two
records of the same facts: its own tables (orders, positions, state keys) and the
broker's book. This project models the code that keeps the two in agreement, with the
arithmetic and the side systems that agreement rests on, and proves what holds over
every run.

## How it is laid out

| files | what they hold |
|---|---|
| `Wrappers`, `Arithmetic` | options, monotone arithmetic, Python's half-even rounding |
| `Structures`, `Chain`, `Strikes`, `Signals` | leg lists, the coverage rule, maximum loss; strike selection, and what it yields in terms of the chain's quotes; that what is built is a signal the runs speak of |
| `Ladder` | concessions of resting entries and closes, in whole cents |
| `World`, `Protocol` | the tables, the broker, one durable effect (`Write`), the discipline on writes and the invariant each write keeps |
| `Lifecycle`, `LifecycleProofs`, `Effects` | what every operation writes, that it keeps the discipline, and the world it leaves |
| `Turns`, `Outcomes` | one sync, order by order: that each has its turn as if alone, and what the turn leaves, from ticket, clock and rows |
| `Runs` | any interleaving of operations, broker moves and halts, with a crash after any write |
| `Custody`, `CustodyRuns` | contract counts and cash at the broker, tied to the tables |
| `Reconcile`, `ReconcileProofs` | the four-corner comparison, and exactly when it agrees, in every reachable state |
| `Endings`, `ReconcileRuns` | orders that ended partly filled; when the comparison agrees after a sync, and how it fails |
| `Scenario` | concrete runs that meet the hypotheses of the run theorems |
| `Ledger`, `Risk` | cash, the bandit's counters; risk recorded from fills |
| `Desk` | the imperative code: classes `Store`, `Exchange`, `Trader`, whose methods rewrite fields and loop over rows |
| `Supervisor` | the halt flag, the guards, the flatten loop |
| `Repair`, `Aftermath` | rebuilding exits from the broker's fills; what the comparison says once a flatten has emptied the book and the repair is applied |
| `Manage`, `Replay` | the exit ladder, and re-running a recorded path |
| `Sizing` | quantity from budgets, and the delta fit against the gate |
| `Audit` | the hash-chained log |
| `Symbols` | structure keys and option symbols |
| `Breaker` | the circuit breaker |

An operation of the trader is a list of writes computed from the world it starts in and
from which broker calls fail (`Lifecycle`). The invariant is preserved by each write on
its own, so a crash between any two writes is a prefix of the list and needs no separate
argument. The methods of `Desk.Trader` perform the same effects on fields, one at a time,
and ensure that the state they leave is the one the list describes.

## Assumptions

- `process_news`, `sync`, `enforce` and `tick` are atomic steps, except where a crash is
  the subject. A crash keeps a prefix of a step's writes.
- A submission that raises was not accepted by the broker
  (`glassbox/execution/router.py:148-155` records it as rejected regardless).
- The broker may end any working order, by its own expiry, cancel or rejection or by a cancel
  of ours it accepts, with any part of it short of the whole filled; after that nothing of the
  order fills. An order it has completed does not end otherwise.
- Every fill honours its limit in the signed convention (a debit is positive). The filled
  price the broker reports is the average over the spreads filled.
- Otherwise a run assumes nothing of what the broker answers: polls, cancels and submissions
  fail at will, and an order given up as unconfirmed may be at the broker all the same and fill at any
  later time. Results about one order's left-over (`SyncedStraysApart`, `EndedOrderDecides`,
  `GivenUpDecides`) ask that before the sync no dead row's order had filled anything or was
  still at the broker (`Custody.Buried`); for the latter it suffices that the broker found each
  order it held when the trader was about to give it up (`CustodyRuns.ReachableReleased`).
- Any broker call of a flatten may raise, and the tick with it. A supervisor tick whose account
  call raises writes nothing and is no step.
- The newest row of a position and intent is the last one recorded: `created_at` does not
  run backwards.
- Client order ids are injective in their digest's inputs; a position is named by its
  signal, as `pos-<signal>` is. Digests of log lines are an arbitrary function, assumed
  injective and never equal to GENESIS only where a lemma says so.
- Limits are whole cents; payoffs, budgets and P&L are reals. Clocks are whole seconds in
  the order protocol and reals in the breaker. Broker lists, spots, quotes, window flags
  and model outputs are inputs; a quoted spread is not negative.

## What turned out false, and exactly when

- `_on_dead` and the cancels do not look at what an order had filled. In every reachable
  state the comparison agrees exactly when each contract a live position uses shows what its
  orders explain and no other is left over (`ReconcileRuns.EveryRunReconciles`). After a sync
  that returns normally it agrees, and otherwise diverges on exactly the legs of these
  positions, if and only if none was written without its first order (a crash between the two
  rows), none was resolved with spreads of an ended order left over, and none filled past its
  size (`ReconcileRuns.SyncThenReconcile`; its condition on shared contracts holds whenever no
  order dead before the sync had filled anything or was still at the broker,
  `ReconcileRuns.SyncedStraysApart`).
- An order given up as unconfirmed is harmless exactly as long as it fills nothing. Once it does,
  every leg diverges: broker-only for an entry, a mismatch for a close, local-only when the close
  has filled whole (`ReconcileRuns.GivenUpDecides`, `Scenario.LostReceiptIsReported`).
- An order the broker ends on its own is harmless exactly if it had filled nothing: otherwise
  a failed entry's legs are all broker-only and a reopened close's all mismatched
  (`ReconcileRuns.EndedOrderDecides`, `Scenario.HalfFilledExpiryDiverges`).
- A rung on a partly filled entry resubmits the whole size; the band hides it until the new
  order fills, and the position then holds more than its size (`ReconcileRuns.RungCanOverfill`).
- Cash equals booked results less what live positions have cost, save exactly what ended or
  given-up orders of finished positions had paid (`Ledger.CashConserved`).
- A `sync` that raises because a ladder rung is refused leaves its position `opening`
  with no working order, and reconciliation disagrees although the broker holds of it at most
  what the withdrawn order had filled (`ReconcileRuns.RejectedRungDiverges`).
- A close limit, debit or credit, whose slice does not beat half a cent is resubmitted
  unchanged however often it escalates (`Ladder.CloseRungStrict`); a small credit may
  round to zero (`Ladder.CreditCloseKeepsSign`).
- The guard against a zero limit does not keep credits: a ladder keeps every credit below zero
  if and only if its cap is at most 100%, or it concedes flat single cents
  (`Ladder.CreditsKeptExactly`). Above 100% a credit of about 100/(cap − 100) cents and a wide
  quote flip in one rung (`Ladder.CreditCanFlip`).
- A credit kind priced as a debit can lose more than `max_loss_per_spread`, which uses
  the absolute price (`Chain.MaxLossIsExact`).
- A flatten in which a broker call raises records nothing of what is left. The halt and the breach
  are on record before it; the next breaching tick that gets answers makes up for it
  (`Supervisor.RaisedFlattenIsRetried`).
- A repair after a flatten clears the divergence if and only if each live position has an order at
  work, which the band excuses, or closing executions for all of its size
  (`Aftermath.FlattenThenRepair`).
- A guard's halt that a passing divergence overwrites is lifted by the next clean
  comparison while the guard still fires (`Supervisor.OverwrittenHaltIsLifted`).
- While its halt stands, a guard's breach is recorded again if and only if another guard fires
  and it fires after that (`Supervisor.ReportedAgainExactly`).
- An appended log file verifies unless the payload carries its own `prev_hash`
  (`Audit.AppendVerifiesIff`); two processes on one role fork the chain
  (`Audit.SharedRoleForks`).
- `{strike:g}` keeps six significant digits: longer strikes do not survive, and two of
  them can share a key (`Symbols.StrikeRoundTrip`, `Symbols.StrikesCanCollide`).
- A flat position with a zero profit target is labelled a win (`Manage.LabelIsSign`).

## Model

| member | source | states |
|---|---|---|
| `Structures.AssertDefinedRisk` | glassbox/structures.py:82-110 | accepts exactly the leg lists with two or more legs, one expiry and, per right, no more short than long contracts; names the first rule broken |
| `Structures.MaxLoss` | glassbox/structures.py:113-144 | the loop over rights yields the maximum-loss function, refusals included |
| `Structures.DefinedRiskBoundsPayoff` | glassbox/structures.py:82-92 | for any number of legs and any ratios, what the rule accepts pays at every price at least minus the sum over rights of short quantity times strike span |
| `Structures.FloorIffCallsCovered` | glassbox/structures.py:88-110 | the expiry payoff has some floor over all prices if and only if short calls do not outnumber long calls |
| `Structures.UncoveredCallsBreakFloor` | glassbox/structures.py:101-110 | with more short than long calls every proposed floor is broken at a price that is exhibited |
| `Structures.PricedByStrikes` | glassbox/structures.py:113-144 | an accepted debit can lose its price, unless that is nothing; an accepted credit the widest distance between two of its legs of one right less what it received, unless that is all of it or more |
| `Chain.SideIsSorted` | glassbox/chain.py:62-63 | a side is exactly the tradable quotes of its right, in strike order |
| `Chain.SideIsStable` | glassbox/chain.py:62-63 | none of them is lost or listed twice, and contracts of one strike keep the order the chain has them in |
| `Chain.Nearest` | glassbox/chain.py:66-69 | the first of the contracts at least distance from the target; nothing only from an empty list |
| `Chain.IncrementIsLeast` | glassbox/chain.py:85-88 | the strike step is no larger than any positive gap between two strikes of the side |
| `Chain.IncrementIsAStep` | glassbox/chain.py:85-88 | and is itself the gap of two neighbouring strikes |
| `Chain.WingWidthNearTarget` | glassbox/chain.py:80-91 | a wing is a whole number of strike steps: one when no more is asked for, else within half a step of the width asked for |
| `Chain.LiquidSide` | glassbox/chain.py:135-144 | the liquid strikes of the side when there are any, else the side itself |
| `Chain.Pick` | glassbox/chain.py:147-165 | the liquid choice when it is within the tolerance of the geometric one, and in any case a strike within the tolerance of it |
| `Chain.BuildKeepsShape` | glassbox/chain.py:98-293 | for every chain, kind and move: a refusal, or a defined-risk structure of tradable quotes with legs ordered as the kind requires and credit shorts at or beyond the expected move |
| `Strikes.PickIs` | glassbox/chain.py:135-165 | of the chain's own quotes in range: a closest one the gate would find liquid if it is near the closest of all, else that one; nothing only when none is in range |
| `Strikes.BuildYields` | glassbox/chain.py:98-293 | for every chain and kind: each leg at the strike its kind prescribes, one contract of a quote, at the net of their mids to the cent, bought less sold; refused only without a positive spot, when some leg has no quote to come from, or when the quotes expire apart |
| `Strikes.BuiltLossIsExact` | glassbox/chain.py:98-293 | where each kind's further leg is quoted no dearer, the price built carries the kind's sign and the maximum loss budgeted at it is the exact worst P&L |
| `Chain.BuiltIsOneEach` | glassbox/chain.py:98-293 | where a symbol names one contract, what is built has one leg per contract, each traded once, and defined risk |
| `Signals.BuiltSignalEnabled` | glassbox/trader.py:318-325 | a signal carrying a built structure may be acted on in any world of a run |
| `Signals.BuiltSignalRisk` | glassbox/trader.py:318-524 | acting on it starts a position of the proposed quantity, which records that quantity times the structure's worst P&L over all prices, exactly when the price carries its kind's sign |
| `Chain.MaxLossIsExact` | glassbox/structures.py:120-144 | on whatever `build_structure` returns, the budgeted maximum loss is the worst P&L over all prices, never exceeded and attained, if and only if the net price carries its kind's sign; a credit priced as a debit can lose more |
| `Chain.PairWorst` | glassbox/chain.py:204-291 | the exact worst expiry payoff of every two-leg kind |
| `Chain.CondorWorst` | glassbox/chain.py:233-257 | a condor loses its wider wing at worst, once |
| `Ladder.EntryBudgetGrows` | glassbox/execution/lifecycle.py:43-64 | the time an entry may rest is between base and cap and never shrinks as its quote widens |
| `Ladder.EntryBudgetScales` | glassbox/execution/lifecycle.py:43-64 | that time is the base up to the reference spread, and from there grows in proportion to the spread until the cap |
| `Ladder.EntryRungConcedes` | glassbox/execution/lifecycle.py:355-380 | a rung is at least one tick dearer, never zero, and within the cap plus half a cent |
| `Ladder.EntryRungTakes` | glassbox/execution/lifecycle.py:355-380 | the next limit takes the larger of a tick and the share of the quoted spread, to the nearest cent, if the cap leaves room for it, else what room is left; there is none when that is under a tick or would leave no price |
| `Ladder.LadderRises` | glassbox/execution/lifecycle.py:355-380 | limits of one ladder strictly rise, by at least a cent a rung |
| `Ladder.LadderConcession` | glassbox/execution/lifecycle.py:355-380 | no rung of any ladder concedes more than the cap plus half a cent from the first price |
| `Ladder.CreditStaysCredit` | glassbox/execution/lifecycle.py:374-380 | at a cap of at most 100% a credit entry's limit stays below zero on every rung of every ladder |
| `Ladder.CreditCanFlip` | glassbox/execution/lifecycle.py:371-380 | for every cap above 100%, unless steps are flat single cents, a credit and a quote are exhibited whose ladder ends in a debit, after one rung where quotes widen the step |
| `Ladder.CreditsKeptExactly` | glassbox/execution/lifecycle.py:371-380 | no credit ever leaves the credit side if and only if the cap is at most 100% or the ladder concedes flat single cents |
| `Ladder.CloseRungConcedes` | glassbox/execution/lifecycle.py:445-449 | an escalated close limit is never better for us and does not cross zero |
| `Ladder.CloseRungGivesUp` | glassbox/execution/lifecycle.py:445-449 | an escalated close gives up the configured share of its price, a debit growing by it and a credit shrinking to what grows back by it, to the nearest cent |
| `Ladder.CloseRungStrict` | glassbox/execution/lifecycle.py:445-449 | any close limit, debit or credit, really moves if and only if the slice it gives up beats half a cent, ties going to even, and never moves our way |
| `Ladder.CreditCloseKeepsSign` | glassbox/execution/lifecycle.py:445-449 | an escalated credit close still demands a credit if and only if the shrunken limit rounds below zero |
| `World.Find` | glassbox/store.py:200-202 | finds a row with the id if any was recorded |
| `World.Latest` | glassbox/store.py:228-236 | the last row of a position and intent, whatever its status |
| `Protocol.WriteKeepsInv` | glassbox/execution/lifecycle.py:67-467 | the whole protocol invariant survives every single write the discipline allows |
| `Protocol.CrashKeepsInv` | glassbox/execution/lifecycle.py:113-157 | wherever a crash cuts an operation's writes, the invariant holds of what was written |
| `Protocol.StatusMovesAlongEdges` | glassbox/execution/lifecycle.py:160-271 | each write leaves a position where it is or moves it opening to open or failed, open to closing, closing to closed or open |
| `Protocol.FinalIsFinal` | glassbox/execution/lifecycle.py:217-227 | a closed or failed row is never written again |
| `Protocol.KeysUnique` | glassbox/execution/ids.py:16-27 | no two order rows share the inputs of a client order id |
| `Protocol.OneInFlight` | glassbox/execution/lifecycle.py:75-94 | a position has at most one order in flight |
| `Protocol.NothingOpensWhileHalted` | glassbox/execution/lifecycle.py:338-345 | while halted no position row, opening order or ladder rung is written or sent |
| `Protocol.NoIdReachesBrokerTwice` | glassbox/execution/router.py:93-163 | the broker is never sent a client order id it has already seen |
| `LifecycleProofs.SubmitSends` | glassbox/execution/router.py:109-163 | a submission the protocol makes always carries an unused id, so the duplicate branch is not taken and the row precedes the wire |
| `Effects.SubmitRuns` | glassbox/execution/router.py:109-163 | a submission leaves one more row, confirmed and working at the broker, or rejected with the exception |
| `Effects.SubmitGuards` | glassbox/execution/router.py:93-131 | a submission of undefined risk or no size raises and writes nothing, a known id that was sent or filled is left alone, and one that was not is sent under the row it has |
| `Effects.NewsTrades` | glassbox/trader.py:513-538 | a signal is traded exactly when it is new, unhalted, priced, of defined risk, in some quantity and on contracts nobody live uses; then the position, its order row and the broker's order carry its own structure, quantity and price, and otherwise nothing happens |
| `Effects.CloseSends` | glassbox/trader.py:1019-1051 | asking to close an open position leaves it closing under the barrier named, with one order of its whole size at the limit given, unless refused |
| `LifecycleProofs.OnFillPermitted` | glassbox/execution/lifecycle.py:160-239 | handling a fill keeps the discipline, sweeps and re-fills included |
| `LifecycleProofs.OnDeadPermitted` | glassbox/execution/lifecycle.py:241-271 | handling a death keeps the discipline; a reopened close has a fresh attempt |
| `LifecycleProofs.MaybeVoidPermitted` | glassbox/execution/lifecycle.py:97-126 | giving up an unconfirmed row keeps the discipline |
| `Effects.RungRuns` | glassbox/execution/lifecycle.py:382-406 | a rung withdraws the resting entry, counts the attempt and leaves exactly one dearer order, working or rejected |
| `Effects.EscalationRuns` | glassbox/execution/lifecycle.py:409-467 | an escalation leaves exactly one replacement close, no better for us, of the same sign, within the attempt cap |
| `Effects.StaleEntryAbandoned` | glassbox/execution/lifecycle.py:278-307 | an entry past its budget is withdrawn and not replaced |
| `LifecycleProofs.SyncPermitted` | glassbox/execution/lifecycle.py:67-94 | every write of a sync keeps the discipline whichever calls fail, and a normal return leaves no transitional position without a working order unless none was ever recorded |
| `LifecycleProofs.SyncGivesUp` | glassbox/execution/lifecycle.py:113-126 | an unconfirmed pending order past its timeout whose poll fails is not in flight after a sync that returns normally |
| `Turns.OwnTurn` | glassbox/execution/lifecycle.py:67-94 | a sync treats each order in flight as if it were the only one: nothing else it does, before or after its turn, touches its position, rows, ticket or counters |
| `Outcomes.SyncBooks` | glassbox/execution/lifecycle.py:85-239 | an order the broker has completed and reports is booked: its row filled at paid over quantity, an entry's position open at that price with the risk and spot of the moment, a close's closed on it under the barrier that asked |
| `Outcomes.EverySyncBooks` | glassbox/execution/lifecycle.py:67-94 | so at the end of every run, whatever crashed before |
| `Outcomes.SyncEnds` | glassbox/execution/lifecycle.py:241-271 | an order the broker has ended is recorded with the status it ended in, its position failed, or open again with one attempt more |
| `Outcomes.SyncVoids` | glassbox/execution/lifecycle.py:97-126 | an unconfirmed order past its time that nobody answers for ends as canceled, in the same way |
| `Outcomes.SyncExpires` | glassbox/execution/lifecycle.py:278-307 | a working entry whose budget has run out from its position's birth is withdrawn and its position fails, if the broker lets go of it |
| `Outcomes.SyncRungs` | glassbox/execution/lifecycle.py:318-406 | a working entry is replaced by its next rung, for the whole size, when its step is due, nothing is halted, the deadline is not reached, steps and price are left, and the broker lets go of it |
| `Outcomes.SyncEscalates` | glassbox/execution/lifecycle.py:409-467 | a working close that has rested its retry time escalates while it has tries left, if the broker lets go of it |
| `Outcomes.SyncWaits` | glassbox/execution/lifecycle.py:75-92 | in every other case the order, its ticket, its position and its counters stay as they are, but that an answered poll confirms a row that was not |
| `Outcomes.SyncFinishes` | glassbox/execution/lifecycle.py:129-157 | a position waiting with no order in flight gets the resolution its newest order row tells: entered or exited at the recorded price, or failed, or open again |
| `LifecycleProofs.ClosePermitted` | glassbox/trader.py:1019-1051 | a close keeps the discipline, with an id never used before |
| `LifecycleProofs.NewsPermitted` | glassbox/trader.py:130-538 | acting on an approved signal keeps the discipline; position row, then order row, then wire |
| `Runs.ReachableInv` | glassbox/execution/lifecycle.py:67-157 | the invariant holds after every run, in any interleaving and with a crash after any write |
| `Runs.EveryRunDisciplined` | glassbox/execution/lifecycle.py:67-271 | in every run ids are unique, a position has at most one order in flight, and that order's intent matches the position's opening or closing status |
| `Runs.FinalForever` | glassbox/execution/lifecycle.py:217-249 | a closed or failed position is the same row for the rest of every run |
| `Runs.SyncRecovers` | glassbox/execution/lifecycle.py:129-157 | whatever crashed before, a sync that returns normally strands no position it could resolve |
| `Runs.EntryLadderBounded` | glassbox/execution/lifecycle.py:346-395 | in every run the entry orders of a position have rising attempts within the step limit, rising limits, and total concession within the cap plus half a cent |
| `Runs.EscalationsBounded` | glassbox/execution/lifecycle.py:417-454 | a position's closes escalate at most max attempts minus one times over its whole life, reopenings included |
| `Custody.WriteKeepsCust` | glassbox/execution/lifecycle.py:160-271 | broker contract counts and cash stay equal to what every order a position ever had has filled, write by write |
| `Custody.TradeMoves` | glassbox/execution/router.py:172-188 | a partial fill moves one position's count by its size and its spending by its price, and no other's |
| `CustodyRuns.CrashKeepsCust` | glassbox/execution/lifecycle.py:113-126 | the accounting holds wherever a crash cuts an operation |
| `CustodyRuns.ReachableCust` | glassbox/execution/lifecycle.py:67-157 | the accounting holds at every point of every run, orders that end partly filled and orders given up while the broker holds them included |
| `CustodyRuns.SyncReleases` | glassbox/execution/lifecycle.py:97-126 | whichever calls fail, a sync marks dead at the broker's back only orders that were in flight before it |
| `CustodyRuns.ReachableReleased` | glassbox/execution/lifecycle.py:109-112 | where the broker finds every order it holds that is about to be given up, no dead row's order is still at the broker, in the whole run |
| `Reconcile.LegQuantities` | glassbox/reconcile.py:51-59 | signed contracts per symbol summed over rows and legs, zero totals dropped |
| `Reconcile.BrokerLegQuantities` | glassbox/reconcile.py:62-70 | signed contracts per symbol as listed |
| `Reconcile.Gather` | glassbox/reconcile.py:87-105 | the three row lists count exactly the settled, arriving and leaving positions |
| `Reconcile.Compare` | glassbox/reconcile.py:112-126 | every symbol, listed anywhere or nowhere, is put where the corners put it |
| `Reconcile.Reconciled` | glassbox/reconcile.py:73-137 | the report's three lists are exactly the symbols outside their band, by kind, and ok means every symbol agrees |
| `ReconcileProofs.QuietExact` | glassbox/reconcile.py:112-118 | with nothing in flight the comparison agrees if and only if broker and local counts are equal on every symbol |
| `ReconcileProofs.NetByStatus` | glassbox/reconcile.py:76-86 | the broker holds of a position what its current orders account for (between none and all when live, all once settled and resolved, nothing when finished) plus what ended orders had filled |
| `ReconcileProofs.OneOwner` | glassbox/gate.py:401-441 | no option symbol belongs to two live positions |
| `ReconcileProofs.ReconcileBySymbol` | glassbox/reconcile.py:85-129 | in every state satisfying the accounting the comparison agrees if and only if each contract of a live position shows what its orders explain and no other contract is left over |
| `ReconcileProofs.ReconcileExact` | glassbox/reconcile.py:85-129 | against the broker's true holdings, when positions share no left-over contract, the comparison agrees if and only if every position's count suits its status and working order |
| `ReconcileProofs.SymbolJudged` | glassbox/reconcile.py:112-126 | a contract diverges if and only if it is a leg of a position whose count does not fit |
| `ReconcileProofs.TidyExact` | glassbox/reconcile.py:85-129 | when no ended order had begun to fill, the order rows alone decide: it agrees if and only if no live position's rows contradict its status |
| `ReconcileProofs.BrokerOnlyIsUnclaimed` | glassbox/reconcile.py:119-120 | a broker-only report means exactly that something is held which no live position uses |
| `ReconcileRuns.SyncThenReconcile` | glassbox/reconcile.py:73-137 | in every run, after a sync that returns normally and any fills and endings after it, when positions share no left-over contract, the comparison agrees if and only if no position is unordered, lost or overfilled, and the diverging contracts are exactly the legs of those that are |
| `ReconcileRuns.EveryRunReconciles` | glassbox/reconcile.py:73-137 | the contract-by-contract condition decides the comparison at the end of every run |
| `ReconcileRuns.SyncedStraysApart` | glassbox/execution/lifecycle.py:67-94 | if before the sync no dead row's order had filled anything or was still at the broker, no two positions share a left-over contract after it, whatever the sync gives up and whatever that fills |
| `ReconcileRuns.LostShows` | glassbox/reconcile.py:119-124 | what an ended or given-up order leaves is broker-only on every leg of a failed entry, and a mismatch, or local-only if nothing is left, on every leg of a reopened position |
| `Endings.SyncSettles` | glassbox/execution/lifecycle.py:241-271 | after a sync that returns normally an order the broker had ended is dead and its position failed or reopened, whatever it had filled |
| `ReconcileRuns.EndedOrderDecides` | glassbox/execution/lifecycle.py:241-271 | on such tables, the position of an order the broker ended on its own is astray if and only if the order had begun to fill; then every leg diverges, broker-only for an entry and mismatched for a close |
| `Endings.SyncAbandons` | glassbox/execution/lifecycle.py:97-157 | after a sync that returns normally an order it gave up is dead and its position failed or reopened, whether or not the broker held the order |
| `ReconcileRuns.GivenUpDecides` | glassbox/execution/lifecycle.py:97-126 | on such tables, the position of an order given up as unconfirmed, entry or close, is astray if and only if the order fills anything at any later time, with the exact verdict on every leg |
| `Endings.StrayExactly` | glassbox/execution/lifecycle.py:241-271 | what is left over of a position is at most its size, and something exactly where one of its orders ended, or was given up, with fills |
| `ReconcileRuns.NoFalseHalt` | glassbox/reconcile.py:73-84 | if no crash falls between a position row and its first order row, it agrees if and only if no position is lost or overfilled, and always when no ended order had begun to fill, whatever else crashed or partly filled |
| `ReconcileRuns.RejectedRungDiverges` | glassbox/execution/lifecycle.py:382-397 | a refused rung raises and leaves a divergence for a position of which the broker holds exactly what the withdrawn order had filled, less than its size |
| `ReconcileRuns.RungCanOverfill` | glassbox/execution/lifecycle.py:383-396 | replacing a partly filled entry keeps what it had filled and puts the whole size to work again; once that fills the position holds both |
| `ReconcileRuns.VoidThenSweep` | glassbox/execution/lifecycle.py:97-157 | giving up an unconfirmed entry and sweeping cancels its row and fails its position, nothing else |
| `ReconcileRuns.VoidedFillIsCaught` | glassbox/execution/lifecycle.py:109-112 | for an entry so given up, from any state: the first fill after the sweep is reported broker-only on a leg if and only if left-overs of other positions do not offset it exactly, and always when there are none |
| `Scenario.HalfFilledEntryAgrees` | glassbox/reconcile.py:76-84 | a concrete run with half an entry filled meets every hypothesis of the run theorems and reports no divergence |
| `Scenario.LostReceiptIsReported` | glassbox/execution/lifecycle.py:97-126 | a concrete run: a crash loses the broker's receipt, deaf polls give the entry up, it fills whole, and both legs are broker-only |
| `Scenario.HalfFilledExpiryDiverges` | glassbox/execution/lifecycle.py:247-250 | the same entry expired half filled: the sync fails it and both legs are broker-only |
| `Ledger.CashConserved` | glassbox/execution/lifecycle.py:206-227 | in every run cash equals the booked results of closed positions minus a hundred times what live positions have cost so far and what ended or given-up orders of finished positions had paid, the last nothing when none of these had begun to fill |
| `Ledger.ClosedBooksItsFills` | glassbox/execution/lifecycle.py:191-218 | a closed position books minus a hundred times quantity times the sum of its two fills, and is labelled by its sign |
| `Ledger.BanditCountsCloses` | glassbox/trader.py:1053-1065 | from a fresh desk, without crashes, each bandit cell has seen every close of its kind and regime once: alpha one plus wins, beta one plus losses, pulls their sum |
| `Ledger.RewardBalances` | glassbox/store.py:333-345 | closing a position and rewarding its cell keeps the counters equal to the outcomes |
| `Ledger.BanditNeverAhead` | glassbox/execution/lifecycle.py:217-224 | in every run, crashes included, no cell counts more wins, losses or pulls than positions of its kind and regime were closed |
| `Risk.FillWithinConcession` | glassbox/execution/lifecycle.py:184-185 | whatever write opens a position, after a poll or a sweep, records a price within the ladder's concession of the approved one, and a credit for a credit up to a 100% cap |
| `Risk.FillRiskBounded` | glassbox/execution/lifecycle.py:184-197 | in every run a position is approved at the maximum loss of its asking price and, once held, records that of its fill, at most a hundred times quantity and concession above the approved one when both prices carry the kind's sign |
| `Risk.CreditFillsAsCredit` | glassbox/execution/lifecycle.py:374-380 | in every run, up to a 100% cap, a position approved as a credit is held as a credit, so its recorded loss obeys the bound unconditionally |
| `Risk.BornOpening` | glassbox/trader.py:513-538 | every position a run has was opening after some part of the run, so the two bounds above speak of every held position |
| `Desk.Store.UpdateBandit` | glassbox/store.py:333-345 | the row is created at the prior if missing and the one outcome is counted |
| `Desk.Store.LatestOrderFor` | glassbox/store.py:228-236 | returns the newest row of a position and intent |
| `Desk.Store.GetOrder` | glassbox/store.py:200-202 | returns the row with the id, if any |
| `Desk.Store.HeldLegs` | glassbox/trader.py:946-959 | the contracts of live positions, exactly, each on a side that one of them has it on |
| `Desk.LegConflict` | glassbox/gate.py:423-441 | splits a structure's already-held legs by side and finds none exactly when no leg is held |
| `Desk.Trader.Gate` | glassbox/gate.py:513-518 | approves exactly what is unhalted, defined-risk, of positive quantity and free of held contracts, when the other checks pass |
| `Desk.Trader.SubmitStructure` | glassbox/execution/router.py:93-163 | leaves the world of the submission's writes and raises exactly when they say so |
| `Effects.SendRuns` | glassbox/execution/router.py:133-163 | the wire half: accepted and confirmed, or rejected and raised, and nothing else changed |
| `Desk.Trader.PollOrder` | glassbox/execution/router.py:165-188 | answers no one exactly when the poll fails or the broker does not know the order, else with the ticket's own state and average price, and completes a pending row |
| `Desk.Trader.CancelOrder` | glassbox/execution/router.py:190-200 | withdraws at the broker and marks the row, or raises and changes nothing |
| `Desk.Trader.Fill` | glassbox/execution/lifecycle.py:160-239 | leaves the world of the fill's writes |
| `Effects.FillRuns` | glassbox/execution/lifecycle.py:160-239 | a fill's whole effect: row filled, entry opened at its price or close booked and rewarded, nothing else |
| `Desk.Trader.Die` | glassbox/execution/lifecycle.py:241-271 | leaves the world of the death's writes |
| `Effects.DeathRuns` | glassbox/execution/lifecycle.py:241-271 | a death's whole effect: row marked, opening position failed or closing position reopened with a counted attempt, nothing else |
| `Desk.Trader.Void` | glassbox/execution/lifecycle.py:97-126 | cancels only an unconfirmed pending row past the timeout |
| `Desk.Trader.LadderEntry` | glassbox/execution/lifecycle.py:318-406 | leaves the world of the entry rung's writes |
| `Desk.Trader.LadderClose` | glassbox/execution/lifecycle.py:409-467 | leaves the world of the close escalation's writes |
| `Desk.Trader.Expire` | glassbox/execution/lifecycle.py:274-315 | leaves the world of the staleness decision's writes |
| `Desk.Trader.SyncOrders` | glassbox/execution/lifecycle.py:75-92 | the loop over the orders read at its start, stopped by the first exception |
| `Desk.Trader.SweepOrphans` | glassbox/execution/lifecycle.py:129-157 | the loop over live positions without a working order |
| `Desk.Trader.SyncAll` | glassbox/execution/lifecycle.py:67-94 | leaves the world of the sync's writes and keeps the invariant |
| `Desk.Trader.ClosePosition` | glassbox/trader.py:1019-1051 | leaves the world of the close's writes and keeps the invariant |
| `Desk.Trader.ProcessNews` | glassbox/trader.py:130-538 | leaves the world of the signal's writes and keeps the invariant |
| `Supervisor.Watch.DoEnforce` | glassbox/reconcile.py:140-160 | writes the halt on a divergence, clears only a standing reconcile halt when clean |
| `Supervisor.Watch.DoCheckAssignments` | glassbox/reconcile.py:167-202 | halts on activities not seen before and remembers them |
| `Supervisor.Watch.FlattenAll` | glassbox/supervisor/run.py:54-96 | counts closes over at most four passes and records the empty book or what remains, or raises with nothing recorded |
| `Supervisor.Watch.DoTick` | glassbox/supervisor/run.py:99-194 | ratchets, judges, then records and flattens a new breach or re-flattens what reappeared under a handled one; raises exactly when a broker call of the flatten does |
| `Supervisor.GuardsAreFloors` | glassbox/supervisor/guards.py:70-120 | with positive baselines trading continues if and only if equity is above both percentage floors, the trader was heard from in time and nobody pulled the switch; a breach names the hardest guard that fires |
| `Supervisor.TickLeaves` | glassbox/supervisor/run.py:99-194 | the whole board after a tick: ratchets, a halt for a breach that is new, dry run or not, and on the log that breach and what a flatten called for had to report |
| `Supervisor.Watch.SessionBaseline` | glassbox/supervisor/guards.py:28-44 | the baseline is reset to the equity of the first call of a new day and kept otherwise |
| `Supervisor.Watch.UpdatePeak` | glassbox/supervisor/guards.py:123-140 | the stored peak rises to the highest of itself, the equity and the broker's peak |
| `Supervisor.SourceIsLastWriter` | glassbox/reconcile.py:152-160 | a standing halt names whichever of the three writers wrote it last |
| `Supervisor.ClearedOnlyByReconcile` | glassbox/reconcile.py:148-152 | in any interleaving one event lifts a standing halt if and only if it is a clean comparison and a diverging one wrote the halt last |
| `Supervisor.OverwrittenHaltIsLifted` | glassbox/reconcile.py:153-155 | a kill-switch halt overwritten by a divergence is lifted by the next clean comparison while the guard still fires |
| `Supervisor.LiveBreachEmptiesOrReports` | glassbox/supervisor/run.py:164-194 | every live tick with a firing guard ends halted, and unless a broker call raised in it also with the book seen empty or the shortfall on record |
| `Supervisor.FlattenReports` | glassbox/supervisor/run.py:68-96 | a flatten reports success exactly when some pass was followed by an empty listing, the true shortfall when it runs out of passes, and nothing when a call raises before that |
| `Supervisor.FlattenCounts` | glassbox/supervisor/run.py:63-96 | the closes a flatten reports are the sum over its passes up to the first followed by an empty listing |
| `Supervisor.FlattenTries` | glassbox/supervisor/run.py:63-96 | a flatten makes four passes before it reports a shortfall, and none unless the resting orders are known to be withdrawn |
| `Supervisor.RaisedFlattenIsRetried` | glassbox/supervisor/run.py:164-190 | a tick whose flatten raises still ends halted under its guard with the breach on record once, and the next breaching tick that gets answers empties the book or reports what is left of it |
| `Supervisor.ReportedAgainExactly` | glassbox/supervisor/run.py:164-190 | over every run in which its halt stands, a guard's breach is recorded again if and only if some tick breaches another guard and a later tick breaches this one |
| `Supervisor.StandingBreachReportedOnce` | glassbox/supervisor/run.py:164-175 | in particular a guard that alone fires while its halt stands adds no second breach record however long it fires |
| `Supervisor.AlternatingGuardsRepeat` | glassbox/supervisor/run.py:164-190 | two guards taking turns under one halt are each recorded again |
| `Supervisor.AssignmentsHaltOnce` | glassbox/reconcile.py:180-202 | checking changes something exactly when an unseen assignment is listed, and the same list never halts twice |
| `Supervisor.PeakIsHighWater` | glassbox/supervisor/guards.py:123-140 | the peak never falls and is never below any equity or broker peak it was shown |
| `Supervisor.BaselineHoldsAllDay` | glassbox/supervisor/guards.py:28-44 | all day the baseline is the equity of the day's first tick |
| `Repair.Plan` | glassbox/repair.py:76-180 | the loops compute the specified resolution of every repairable row, in order |
| `Repair.MatchLegs` | glassbox/repair.py:142-158 | legs are unmatched exactly when some leg's closing fills differ from its size; otherwise the net cash is theirs |
| `Repair.ResolvesExactly` | glassbox/repair.py:105-170 | a live row is skipped for the first of: a leg still held, a contract of it in another live leg, no size, a leg not closed in full; it is an exit if and only if none of these holds |
| `Repair.Books.Apply` | glassbox/repair.py:183-216 | writes exactly the exits, without label, and counts them |
| `Repair.ExitIsEarned` | glassbox/repair.py:105-170 | an exit's legs are claimed by nobody else, no longer held, and closed in full by later executions the other way round |
| `Repair.NoFillCreditedTwice` | glassbox/repair.py:91-97 | a fill that pays for a repaired position pays for one leg of it and for no other position |
| `Repair.PlanBooksItsFills` | glassbox/repair.py:136-178 | total booked P&L is minus a hundred times the cash of the credited fills, each once, minus a hundred times the entry cost |
| `Repair.RepairWrites` | glassbox/repair.py:136-198 | each exit is written closed by the supervisor's flatten, unlabelled, at minus a hundred times what its executions and its entry cost; no other row changes |
| `Repair.RepairExplainsOnlyItsOwn` | glassbox/repair.py:183-198 | after applying, a symbol agrees if and only if it agreed before or is a leg of a repaired position |
| `Aftermath.EmptyBookExits` | glassbox/repair.py:105-170 | in a world of a run with nothing held, a live position is repaired if and only if the closing executions of each leg add up to its size; shared legs and bad sizes never stop it |
| `Aftermath.FlattenThenRepair` | glassbox/reconcile.py:73-137 | after any run, an emptied book and the repair, the comparison is clean if and only if every live position has an order at work or is accounted for by its executions |
| `Aftermath.QuietRepairIsClean` | glassbox/repair.py:183-198 | with nothing in flight it is clean if and only if every live position was resolved as an exit |
| `Manage.MostSevereWins` | glassbox/manage.py:258-410 | in dollars, prices and clock readings: a close names the most severe barrier that is warranted, and a hold means none is |
| `Manage.ThesisCloses` | glassbox/manage.py:137-161 | with nothing more severe due the thesis closes a trade exactly when spot has gone the required share of the forecast move, up for an up trade, down for a down trade, either way for a debit without direction |
| `Manage.PeakIsBest` | glassbox/store.py:256-268 | the ratcheted peak is the best P&L so far, or zero |
| `Manage.HeldRun` | glassbox/manage.py:318-410 | at every held look P&L is strictly between stop and target, above its kept share of the run's best once armed, positive once break-even is armed, and not positive past the horizon |
| `Manage.StopWithinMaxLoss` | glassbox/manage.py:203-220 | the stop is a loss no wider than the defined maximum; the target is not negative |
| `Manage.LabelIsSign` | glassbox/manage.py:272-395 | every close is labelled 1 exactly when P&L is positive, except a profit close that meets a zero target with zero P&L |
| `Manage.TighterCloses` | glassbox/manage.py:203-410 | at one look and peak, whatever looser rules close tighter rules close |
| `Manage.TighteningNeverLater` | glassbox/replay_exits.py:142-196 | a smaller stop, lower target or arm trigger, or higher kept share never moves the first close of a path later |
| `Replay.OpenPosition.RecordPeak` | glassbox/store.py:256-268 | the stored peak only rises, to the P&L it is shown |
| `Replay.OpenPosition.ManageLook` | glassbox/trader.py:615-632 | a pass ratchets the peak first and decides with it |
| `Replay.OpenPosition.ManageUntilClosed` | glassbox/trader.py:605-653 | look after look, the position closes at the first look that closes |
| `Replay.ReplayExits` | glassbox/replay_exits.py:163-196 | the tick loop fires at the first closing tick of the reconstructed path, with its barrier and recorded P&L |
| `Replay.PnlReplayed` | glassbox/replay_exits.py:176-177 | the reconstructed mark gives the recorded P&L back |
| `Replay.ReplaySees` | glassbox/replay_exits.py:130-192 | what a replayed tick shows the barriers: its clock, its spot if all were recorded, its day's deadline or the fallback, whole days to expiry |
| `Replay.ReplayJudges` | glassbox/replay_exits.py:156-196 | the trade judged is the live one, without its thesis unless spots were recorded; a missing or zero horizon is a day for the live manager and nothing for the replay |
| `Replay.ReplayMatchesLive` | glassbox/replay_exits.py:142-196 | under conditions a log can witness, the replay closes on the live run's first closing tick with the same barrier and label |
| `Sizing.TaperFalls` | glassbox/sizing.py:35-46 | a taper stays between its floor and one, never rises with utilisation, and is at its floor at the limit |
| `Sizing.TaperIsLinear` | glassbox/sizing.py:35-46 | between its start and the limit the taper is the straight line from one to its floor |
| `Sizing.MultiplierRises` | glassbox/sizing.py:78-94 | the conviction multiplier never falls as probability rises, abstaining or not |
| `Sizing.LargestWithinBudgets` | glassbox/sizing.py:78-176 | in the signal's own numbers: an error without a loss per spread, nothing without conviction, and else n spreads are at most the sized quantity if and only if their loss fits equity times risk share times conviction times context, halved after a losing streak, the same scaled by aimed over actual volatility, and the position cap |
| `Sizing.HaircutsBite` | glassbox/sizing.py:142-150 | a context lets through at most its own share of the risk and none at zero, and a long enough losing streak halves what is left |
| `Sizing.SizedPassesGate` | glassbox/gate.py:220-231 | a sized quantity never fails the gate's size check |
| `Sizing.SizeRises` | glassbox/sizing.py:97-176 | the quantity never falls with more probability or context, nor with a shorter losing streak |
| `Sizing.PostTradeGreeks` | glassbox/data/market.py:453-466 | the loop over legs is the book's delta plus quantity times one spread's |
| `Sizing.DeltaAddsUp` | glassbox/data/market.py:453-466 | a spread's delta-dollars are those of its legs, a hundred shares a contract, added when long and taken away when short |
| `Sizing.FitDelta` | glassbox/trader.py:400-416 | the loop returns the largest quantity inside the band, or none when none is |
| `Sizing.FitAndJudge` | glassbox/gate.py:247-261 | the fitted quantity is the largest inside the band, all of it when one spread carries no delta; the gate then vetoes if and only if one spread carries no delta and the book alone is outside the band |
| `Audit.VerifyChain` | glassbox/audit.py:83-98 | the scan computes its specification, stopping at the first bad line |
| `Audit.VerifiesByLinks` | glassbox/audit.py:83-98 | the scan accepts exactly the files in which every line is canonical and carries the hash of the one before |
| `Audit.ScanStopsAtFirst` | glassbox/audit.py:83-98 | otherwise it stops at the first line that is not linked, counts the lines before it, and fails to read it exactly when it is torn or names no previous hash |
| `Audit.VerifyDay` | glassbox/audit.py:109-121 | a day is intact exactly when every file of it is; the broken files and the total are those of the scans |
| `Audit.AuditLog.Append` | glassbox/audit.py:60-81 | one line is added to the role's file of the day, carrying the hash of that file's last line, and the cached hash stays true |
| `Audit.RecordCarries` | glassbox/audit.py:60-81 | a record holds its payload whole, and of the log's own fields what the payload leaves |
| `Audit.AppendVerifiesIff` | glassbox/audit.py:70-77 | an appended file verifies if and only if it did before and the payload does not forge the link |
| `Audit.EveryFileVerifies` | glassbox/audit.py:52-81 | in every interleaving of per-role writers, across restarts and day rollover, every file verifies |
| `Audit.LastLineFixesFile` | glassbox/audit.py:83-98 | with an ideal hash two verifying files that end in the same line are the same file |
| `Audit.TamperingIsCaught` | glassbox/audit.py:83-98 | changing, dropping or inserting anything before an untouched last line fails verification |
| `Audit.SharedRoleForks` | glassbox/audit.py:8-13 | a second process that cached its hash on the same file breaks the chain with its next line |
| `Symbols.StrikeRoundTrip` | glassbox/structures.py:149-152 | a printed strike reads back as itself if and only if six significant digits hold it |
| `Symbols.RoundSixNearest` | glassbox/structures.py:149-152 | six digits leave the nearest strike they can write, halfway to the even one |
| `Symbols.PlainIsShort` | glassbox/structures.py:149-152 | a point is printed only before a fraction, and no fraction ends in zero |
| `Symbols.StrikesCanCollide` | glassbox/structures.py:149-152 | two strikes past six digits print alike |
| `Symbols.OccSymbols` | soak/spread_calibration.py:57-71 | the loop over leg texts computes the symbols, skipping what does not match |
| `Symbols.MatchIs` | soak/spread_calibration.py:57-71 | a text is read as a leg exactly when it is a side, a right, digits and points, an x and at least a digit |
| `Symbols.OccReads` | soak/spread_calibration.py:57-71 | a key of four parts fails exactly when some leg's strike is no number; else its legs' symbols are read in order, other texts skipped |
| `Symbols.KeyRoundTrip` | soak/spread_calibration.py:57-71 | a structure's key read back and decoded gives underlying, expiry, right and strike of every leg, in sorted order |
| `Symbols.ParseBuilt` | glassbox/data/market.py:124-135 | a built option symbol decodes to its parts |
| `Symbols.OccIsBuilt` | glassbox/data/market.py:124-135 | a text decodes to a contract if and only if it is root, six-digit date, right and eight-digit strike of it |
| `Symbols.KeyIgnoresOrder` | glassbox/structures.py:147-153 | the key does not depend on leg order, for legs distinct in right, strike and side |
| `Symbols.SortIsStable` | glassbox/structures.py:147-153 | the key names the legs in order of right, strike and side, all of them once, those alike as listed |
| `Symbols.KeyIdentifies` | glassbox/structures.py:147-153 | two structures share a key if and only if they agree in root, kind and date and their sorted legs in side, right, ratio and six digits of strike |
| `Symbols.ExampleKey` | glassbox/structures.py:147-153 | the key of a two-leg spread, letter for letter but for the date, which is eight digits that read as it |
| `Breaker.CircuitBreaker.Observe` | glassbox/execution/breaker.py:47-53 | reading the state half-opens an open breaker whose cooldown is over |
| `Breaker.CircuitBreaker.Call` | glassbox/execution/breaker.py:55-76 | a call is rejected, succeeds or fails, and leaves the counter, state and opening time so |
| `Breaker.ClosedMeansFewFailures` | glassbox/execution/breaker.py:68-76 | the counter is the current streak of failures, and closed means it is below the threshold |
| `Breaker.RejectedExactly` | glassbox/execution/breaker.py:47-60 | an attempt is rejected exactly while the breaker is open and its cooldown is not over |
| `Breaker.CallDecides` | glassbox/execution/breaker.py:55-76 | a call that succeeds closes the breaker with a clean slate; one that fails opens it if it was not closed or was the last the threshold allows |
| `Breaker.NoCallDuringCooldown` | glassbox/execution/breaker.py:47-60 | nothing reaches the broker within a cooldown of an opening |
| `Breaker.OutageCostsFewCalls` | glassbox/execution/breaker.py:55-76 | T seconds of a failing broker cost at most the threshold plus one call per cooldown |

## Left out

- Alpaca, LLM, HTTP and MCP clients, polling loops, dashboard, drills, soak harnesses and
  reports: I/O around the core; the broker is a nondeterministic environment.
- SQL, threads, JSON text, time zones, calendars, caching and floating-point error.
- The digest functions themselves; where it matters they are an injective function.
- Model outputs (meta-labeler, volatility forecast, regime, news filter, structure draw):
  a proposal carries any kind, strikes, price, quantity and probability.
- Gate checks other than halt, defined risk, size, delta band and leg conflict are single
  comparisons; a proposal says whether they pass.
- Repair is not a step of `Runs`: it closes a position its orders do not explain, so an
  order still in flight for a repaired position would be handled as before the repair.
  `Aftermath` applies it once, to the tables of any run.
- `manage_positions` is modelled position by position; marks, macro windows and bell
  contexts are inputs, and the close it orders is `Desk.Trader.ClosePosition`.
- `check_contradiction`, `PriceLadder` and `DryRunRouter`: they add no state the protocol
  does not have.
- Flattening acts on the broker's positions one leg at a time; `Supervisor` models what it
  observes and records. Its closing trades are not written to `Custody`: `Aftermath` starts from
  the emptied book and any list of executions.
- BanditCountsCloses: runs without crashes only, because a crash between the closing write
  and the reward loses that reward, as the code does; `BanditNeverAhead` covers every run.
- ReplayMatchesLive: one direction; a replay may also agree when a condition fails.
- MaxLossIsExact: a condor needs an expected move of at least 1e-9, which the floor on the
  move gives for any positive configuration.
- ParseOcc in `Symbols` does not reject impossible calendar dates, which `date` would.
