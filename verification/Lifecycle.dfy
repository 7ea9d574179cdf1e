/**
 What each operation of the trader writes, computed from the world it starts in
 and from which broker calls happen to fail. A raised exception ends the list.
 */
module Lifecycle {
  import opened Wrappers
  import opened Structures
  import opened World
  import opened Ladder
  import opened Protocol

  // The clock, and the calls that fail while the operation runs. `limbo` orders
  // are answered with a broker status the code has no branch for.
  datatype Env = Env(
    now: int, pollDown: set<OrderKey>, limbo: set<OrderKey>, cancelDown: set<OrderKey>,
    submitDown: set<OrderKey>, spots: map<string, real>)

  datatype Outcome = Outcome(ws: seq<Write>, raised: bool)

  function Then(first: seq<Write>, next: Outcome): Outcome {
    Outcome(first + next.ws, next.raised)
  }

  // ----- router: submit, poll, cancel

  function NewTicket(row: Order, pos: Position): Ticket {
    Ticket(row.intent, pos.structure.legs, pos.qty, row.limit, Working, 0, 0.0)
  }

  function Send(w: World, env: Env, r: nat, row: Order, pos: Position): Outcome {
    if row.key in env.submitDown || row.key in w.broker then
      Outcome([SetOrder(r, row.(status := Rejected))], true)
    else
      Outcome([Accept(row.key, NewTicket(row, pos)),
               SetOrder(r, row.(status := Submitted, confirmed := true))], false)
  }

  // The intent is recorded before the wire; a known id is never sent again.
  function Submit(w: World, env: Env, key: OrderKey, pid: nat, intent: Intent, limit: int): Outcome
    requires pid < |w.positions|
  {
    var pos := w.positions[pid];
    if !DefinedRisk(pos.structure.legs) || pos.qty < 1 then Outcome([], true)
    else
      match Find(w.orders, key)
      case Some(r) =>
        if w.orders[r].status.Submitted? || w.orders[r].status.Filled? then Outcome([], false)
        else Send(w, env, r, w.orders[r], pos)
      case None =>
        var row := Order(key, pid, intent, Pending, limit, false, None, env.now);
        Then([InsertOrder(row)], Send(w, env, |w.orders|, row, pos))
  }

  datatype Answer = NoAnswer | FilledAt(price: real) | DeadAs(status: OrderStatus) | Resting | Unlisted

  function Average(t: Ticket): real { if t.qty == 0 then 0.0 else t.paid / t.qty as real }

  function Poll(w: World, env: Env, key: OrderKey): Answer {
    if key in env.pollDown || key !in w.broker then NoAnswer
    else
      match w.broker[key].state
      case Complete => FilledAt(Average(w.broker[key]))
      case Gone(status) => DeadAs(status)
      case Working => if key in env.limbo then Unlisted else Resting
  }

  // An answered poll completes a row that a crash left unconfirmed.
  function Backfill(w: World, o: nat): seq<Write>
    requires o < |w.orders|
  {
    if w.orders[o].status.Pending?
    then [SetOrder(o, w.orders[o].(status := Submitted, confirmed := true))] else []
  }

  lemma BackfillRuns(w: World, o: nat)
    requires o < |w.orders|
    ensures var row := w.orders[o];
            Run(w, Backfill(w, o)) ==
            if row.status.Pending? then w.(orders := w.orders[o := row.(status := Submitted, confirmed := true)]) else w
  {
    hide Apply, Run;
    if w.orders[o].status.Pending? {
      var row := w.orders[o].(status := Submitted, confirmed := true);
      RunSetOrder(w, o, row, []);
      assert [SetOrder(o, row)] + [] == [SetOrder(o, row)];
      RunNothing(w.(orders := w.orders[o := row]));
    } else {
      RunNothing(w);
    }
  }

  // A cancel needs the broker's id; what had filled by then stays filled.
  predicate CancelGoes(w: World, env: Env, key: OrderKey, confirmed: bool) {
    && key !in env.cancelDown && confirmed
    && key in w.broker && w.broker[key].state.Working?
  }

  function Cancel(w: World, o: nat): seq<Write>
    requires o < |w.orders|
  {
    [Withdraw(w.orders[o].key), SetOrder(o, w.orders[o].(status := Canceled))]
  }

  // ----- a fill

  function Entered(env: Env, pos: Position, price: Option<real>): Position {
    var spot := if pos.structure.underlying in env.spots then env.spots[pos.structure.underlying] else pos.entrySpot;
    var risk := if price.None? then pos.maxLoss else RecordedRisk(pos, price.value);
    pos.(status := Open, entrySpot := spot, entry := price.GetOr(pos.entry), maxLoss := risk)
  }

  function Exited(w: World, pid: nat, pos: Position, price: Option<real>): Position {
    var realized := if price.Some? then Realized(pos.qty, pos.entry, price.value) else 0.0;
    var barrier := if pid in w.closeBarrier then w.closeBarrier[pid] else Time;
    pos.(status := Closed, barrier := Some(barrier), win := Some(realized > 0.0), realized := realized)
  }

  // The bandit is fed once the closing fill is confirmed.
  function RewardFor(out: Position): seq<Write>
    requires out.win.Some?
  {
    if out.regime == "" then [] else [Reward(Cell(out.structure.kind, out.regime), out.win.value)]
  }

  function OnFill(w: World, env: Env, o: nat, price: Option<real>): seq<Write>
    requires o < |w.orders|
  {
    var row := w.orders[o];
    var mark := [SetOrder(o, row.(status := Filled, filledPrice := price))];
    if row.pid >= |w.positions| then mark
    else
      var pos := w.positions[row.pid];
      if row.intent.ToOpen? then mark + [SetPosition(row.pid, Entered(env, pos, price))]
      else
        var out := Exited(w, row.pid, pos, price);
        mark + ([SetPosition(row.pid, out)] + RewardFor(out))
  }

  // ----- a death

  function OnDead(w: World, o: nat, status: OrderStatus): seq<Write>
    requires o < |w.orders|
  {
    var row := w.orders[o];
    var mark := [SetOrder(o, row.(status := status))];
    if row.pid >= |w.positions| then mark
    else
      var pos := w.positions[row.pid];
      if row.intent.ToOpen? && pos.status.Opening? then
        mark + [SetPosition(row.pid, pos.(status := Failed))]
      else if row.intent.ToClose? && pos.status.Closing? then
        mark + [SetCloseAttempt(row.pid, CloseAttempt(w, row.pid) + 1),
                SetPosition(row.pid, pos.(status := Open))]
      else mark
  }

  // A pending row whose submission was never confirmed is given up after the entry timeout.
  function MaybeVoid(w: World, env: Env, o: nat): seq<Write>
    requires o < |w.orders|
  {
    var row := w.orders[o];
    if row.confirmed || !row.status.Pending? || env.now - row.createdAt < w.cfg.entryTimeout then []
    else [SetOrder(o, row.(status := Canceled))]
  }

  // ----- staleness

  function Withdrawn(w: World, o: nat): World
    requires o < |w.orders|
  {
    w.(broker := Ended(w.broker, w.orders[o].key, Canceled), orders := w.orders[o := w.orders[o].(status := Canceled)])
  }

  lemma CancelRuns(w: World, o: nat)
    requires o < |w.orders|
    ensures Run(w, Cancel(w, o)) == Withdrawn(w, o)
  {
    hide Apply, Run, Ended;
    var row := w.orders[o].(status := Canceled);
    var w1 := w.(broker := Ended(w.broker, row.key, Canceled));
    assert Cancel(w, o) == [Withdraw(row.key)] + ([SetOrder(o, row)] + []);
    RunWithdraw(w, row.key, [SetOrder(o, row)] + []);
    RunSetOrder(w1, o, row, []);
    RunNothing(Withdrawn(w, o));
  }

  lemma CancelThenCount(w: World, o: nat, x: Write)
    requires o < |w.orders| && (x.SetEntryAttempt? || x.SetCloseAttempt?)
    ensures Run(w, Cancel(w, o) + [x]) == Apply(Withdrawn(w, o), x)
    ensures Run(w, Cancel(w, o) + [x]).positions == w.positions
  {
    hide Run, Apply, Cancel;
    CancelRuns(w, o);
    RunConcat(w, Cancel(w, o), [x]);
    Run1(Withdrawn(w, o), x);
    RunCount(Withdrawn(w, o), x, []);
  }

  // What staleness asks of a resting order: nothing, a cancel, or a replacement at a worse limit.
  datatype Move = Rest | Abandon | Rung(n: nat, limit: int) | Escalate(n: nat, limit: int)

  function EscalateEntry(w: World, env: Env, row: Order): Move
    requires row.pid < |w.positions|
  {
    var pos := w.positions[row.pid];
    var attempt := EntryAttempt(w, row.pid);
    if Halted(w) || (w.cfg.deadline.Some? && env.now >= w.cfg.deadline.value) then Rest
    else if attempt >= w.cfg.ladderSteps || env.now - pos.openedAt < w.cfg.stepSeconds * (attempt + 1) then Rest
    else
      match EntryRung(w.cfg, pos.entry * 100.0, pos.spreadPct, row.limit)
      case None => Rest
      case Some(next) => Rung(attempt + 1, next)
  }

  function EscalateClose(w: World, row: Order): Move {
    var attempt := if row.pid in w.closeAttempt then w.closeAttempt[row.pid] else 1;
    if attempt >= w.cfg.closeMaxAttempts then Rest else Escalate(attempt + 1, CloseRung(w.cfg, row.limit))
  }

  function Staleness(w: World, env: Env, row: Order): Move
    requires row.pid < |w.positions|
  {
    var pos := w.positions[row.pid];
    match row.intent
    case ToOpen =>
      // The budget runs from the position's birth: every rung is a fresh order.
      if (env.now - pos.openedAt) as real < EntryBudget(w.cfg, pos.spreadPct) then EscalateEntry(w, env, row)
      else Abandon
    case ToClose =>
      if env.now - row.createdAt < w.cfg.closeRetry then Rest else EscalateClose(w, row)
  }

  // Cancel the resting entry, count the attempt, submit the next rung.
  function ReplaceEntry(w: World, env: Env, o: nat, n: nat, limit: int): Outcome
    requires o < |w.orders| && w.orders[o].pid < |w.positions|
  {
    var pid := w.orders[o].pid;
    var pos := w.positions[pid];
    var first := Cancel(w, o) + [SetEntryAttempt(pid, n)];
    CancelThenCount(w, o, SetEntryAttempt(pid, n));
    Then(first, Submit(Run(w, first), env, OpenKey(pos.signal, pos.structure, n), pid, ToOpen, limit))
  }

  function ReplaceClose(w: World, env: Env, o: nat, n: nat, limit: int): Outcome
    requires o < |w.orders| && w.orders[o].pid < |w.positions|
  {
    var pid := w.orders[o].pid;
    var first := Cancel(w, o) + [SetCloseAttempt(pid, n)];
    CancelThenCount(w, o, SetCloseAttempt(pid, n));
    Then(first, Submit(Run(w, first), env, CloseKey(w.positions[pid].signal, Escalated, n), pid, ToClose, limit))
  }

  // Carry a move out; a cancel that fails leaves the order resting.
  function Carry(w: World, env: Env, o: nat, move: Move, confirmed: bool): Outcome
    requires o < |w.orders| && w.orders[o].pid < |w.positions|
  {
    if move.Rest? || !CancelGoes(w, env, w.orders[o].key, confirmed) then Outcome([], false)
    else
      match move
      case Rung(n, limit) => ReplaceEntry(w, env, o, n, limit)
      case Escalate(n, limit) => ReplaceClose(w, env, o, n, limit)
      case _ => Outcome(Cancel(w, o), false)
  }

  // `confirmed` is whether the row read before the poll carried the broker's id.
  function MaybeExpire(w: World, env: Env, o: nat, confirmed: bool): Outcome
    requires o < |w.orders| && w.orders[o].pid < |w.positions|
  {
    Carry(w, env, o, Staleness(w, env, w.orders[o]), confirmed)
  }

  // ----- sync: every in-flight order, then the orphan sweep

  function Resolution(w: World, env: Env, o: nat, answer: Answer, confirmed: bool): Outcome
    requires o < |w.orders| && w.orders[o].pid < |w.positions|
  {
    match answer
    case FilledAt(price) => Outcome(OnFill(w, env, o, Some(price)), false)
    case DeadAs(status) => Outcome(OnDead(w, o, status), false)
    case Resting => MaybeExpire(w, env, o, confirmed)
    case _ => Outcome([], false)
  }

  function SyncOne(w: World, env: Env, o: nat): Outcome
    requires o < |w.orders| && w.orders[o].pid < |w.positions|
  {
    var answer := Poll(w, env, w.orders[o].key);
    if answer.NoAnswer? then Outcome(MaybeVoid(w, env, o), false)
    else
      BackfillRuns(w, o);
      Then(Backfill(w, o), Resolution(Run(w, Backfill(w, o)), env, o, answer, w.orders[o].confirmed))
  }

  // One iteration over the rows read when the loop began; only those in flight are polled.
  function LoopStep(w: World, env: Env, snapshot: seq<Order>, o: nat): Outcome {
    if o < |snapshot| && InFlight(snapshot[o]) && o < |w.orders| && w.orders[o].pid < |w.positions|
    then SyncOne(w, env, o) else Outcome([], false)
  }

  // An exception leaves the remaining orders for the next tick.
  function SyncFrom(w: World, env: Env, snapshot: seq<Order>, o: nat): Outcome
    decreases |snapshot| - o
  {
    if o >= |snapshot| then Outcome([], false)
    else
      var x := LoopStep(w, env, snapshot, o);
      if x.raised then x else Then(x.ws, SyncFrom(Run(w, x.ws), env, snapshot, o + 1))
  }

  function InFlightPids(orders: seq<Order>): set<nat> {
    set o | 0 <= o < |orders| && InFlight(orders[o]) :: orders[o].pid
  }

  // A transitional position whose order died or filled out of band gets the resolution a poll would give.
  function SweepOne(w: World, env: Env, inFlight: set<nat>, pid: nat): seq<Write>
    requires pid < |w.positions|
  {
    var st := w.positions[pid].status;
    if !(st.Opening? || st.Closing?) || pid in inFlight then []
    else
      match Latest(w.orders, pid, if st.Opening? then ToOpen else ToClose)
      case None => []
      case Some(o) =>
        if w.orders[o].status.Filled? then OnFill(w, env, o, w.orders[o].filledPrice)
        else if Dead(w.orders[o]) then OnDead(w, o, w.orders[o].status)
        else []
  }

  function SweepFrom(w: World, env: Env, inFlight: set<nat>, p: nat, n: nat): seq<Write>
    decreases n - p
  {
    if p >= n || p >= |w.positions| then []
    else
      var ws := SweepOne(w, env, inFlight, p);
      ws + SweepFrom(Run(w, ws), env, inFlight, p + 1, n)
  }

  function Sync(w: World, env: Env): Outcome {
    var loop := SyncFrom(w, env, w.orders, 0);
    if loop.raised then loop
    else
      var w1 := Run(w, loop.ws);
      Outcome(loop.ws + SweepFrom(w1, env, InFlightPids(w1.orders), 0, |w1.positions|), false)
  }

  // ----- trader: closing a managed position, opening one from a signal

  function Close(w: World, env: Env, pid: nat, barrier: Barrier, limit: int): Outcome
    requires pid < |w.positions|
  {
    var pos := w.positions[pid];
    if !pos.status.Open? then Outcome([], false)
    else
      var first := [SetPosition(pid, pos.(status := Closing)), SetCloseBarrier(pid, barrier)];
      CloseFirst(w, pid, pos.(status := Closing), barrier);
      Then(first, Submit(Run(w, first), env, CloseKey(pos.signal, By(barrier), CloseAttempt(w, pid)), pid, ToClose, limit))
  }

  lemma CloseFirst(w: World, pid: nat, row: Position, barrier: Barrier)
    requires pid < |w.positions|
    ensures Run(w, [SetPosition(pid, row), SetCloseBarrier(pid, barrier)]) ==
            w.(positions := w.positions[pid := row], closeBarrier := w.closeBarrier[pid := barrier])
  {
    hide Apply, Run;
    var w1 := w.(positions := w.positions[pid := row]);
    assert [SetPosition(pid, row), SetCloseBarrier(pid, barrier)]
        == [SetPosition(pid, row)] + ([SetCloseBarrier(pid, barrier)] + []);
    RunSetPosition(w, pid, row, [SetCloseBarrier(pid, barrier)] + []);
    RunSetCloseBarrier(w1, pid, barrier, []);
    RunNothing(w1.(closeBarrier := w1.closeBarrier[pid := barrier]));
  }

  // What the pipeline proposes once chain, sizing and models have spoken; `clears`
  // stands for every gate check that does not read the order and position tables.
  datatype Proposal = Proposal(
    signal: string, structure: Structure, net: int, qty: nat,
    spreadPct: real, regime: string, spot: real, clears: bool)

  predicate Seen(w: World, signal: string) {
    exists p :: 0 <= p < |w.positions| && w.positions[p].signal == signal
  }

  predicate LegsFree(positions: seq<Position>, legs: seq<Leg>) {
    forall p :: 0 <= p < |positions| && Live(positions[p].status) ==>
      Symbols(positions[p].structure.legs) !! Symbols(legs)
  }

  predicate GateApproves(w: World, p: Proposal) {
    !Halted(w) && DefinedRisk(p.structure.legs) && p.qty >= 1 && LegsFree(w.positions, p.structure.legs) && p.clears
  }

  // The risk an approved position starts with: the maximum loss at the price it asks for.
  function UnitRisk(p: Proposal): Priced { MaxLossPerSpread(p.structure, p.net as real / 100.0) }

  function NewPosition(env: Env, p: Proposal): Position
    requires UnitRisk(p).Dollars?
  {
    Position(p.signal, p.structure, p.qty, p.net as real / 100.0, UnitRisk(p).amount * p.qty as real, Opening,
             env.now, p.spreadPct, p.regime, p.spot, None, None, 0.0)
  }

  function News(w: World, env: Env, p: Proposal): Outcome {
    if Seen(w, p.signal) || Halted(w) || !UnitRisk(p).Dollars? || !GateApproves(w, p) then Outcome([], false)
    else
      var first := [InsertPosition(NewPosition(env, p))];
      Run1(w, first[0]);
      Then(first, Submit(Run(w, first), env, OpenKey(p.signal, p.structure, 0), |w.positions|, ToOpen, p.net))
  }
}
