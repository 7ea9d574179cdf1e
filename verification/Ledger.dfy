/**
 Money: every dollar of cash is either a booked result or still tied up in a live
 position, save what orders that ended partly filled had paid, and the learners
 are fed at most once per close.
 */
module Ledger {
  import opened Arithmetic
  import opened Wrappers
  import opened Structures
  import opened World
  import opened Ladder
  import opened Protocol
  import opened Lifecycle
  import opened LifecycleProofs
  import opened Custody
  import opened Runs
  import opened CustodyRuns
  import opened ReconcileProofs

  // ----- cash

  lemma PaidBy(w: World, p: nat, intent: Intent)
    requires Inv(w) && Cust(w) && p < |w.positions|
    ensures var paid := LiveFill(w.orders, w.broker, p, intent).paid;
      && (FillPrice(w.orders, p, intent).Some? ==>
            paid == w.positions[p].qty as real * FillPrice(w.orders, p, intent).value)
      && (FillPrice(w.orders, p, intent).None? && !Reconcile.Transit(w.orders, p, intent) ==> paid == 0.0)
  {
    hide Inv, HoldingsAgree, CashAgrees, TicketSound, Truthful, Average, Reconcile.Transit;
    var l := Latest(w.orders, p, intent);
    if l.Some? {
      var o := l.value;
      assert Truthful(w.orders[o], w.broker);
      if InFlight(w.orders[o]) { InFlightIsTransit(w.orders, o); }
      if w.orders[o].key in w.broker {
        TicketsFitOf(w, o);
        TicketPaid(w.orders[o], w.broker);
      } else {
        UnknownPaid(w.orders[o], w.broker);
      }
    }
  }

  lemma TicketPaid(row: Order, broker: map<OrderKey, Ticket>)
    requires row.key in broker && TicketSound(broker[row.key]) && Truthful(row, broker)
    ensures var t := broker[row.key];
            row.status.Filled? ==> row.filledPrice.Some? && t.paid == t.qty as real * row.filledPrice.value
  {
    AverageTimesQty(broker[row.key]);
  }

  lemma UnknownPaid(row: Order, broker: map<OrderKey, Ticket>)
    requires row.key !in broker && Truthful(row, broker)
    ensures !row.status.Filled?
  {
  }

  lemma AverageTimesQty(t: Ticket)
    requires t.qty >= 1
    ensures t.paid == t.qty as real * Average(t)
  {
  }

  lemma RealizedIsSpent(qty: nat, entry: real, fill: real)
    ensures Realized(qty, entry, fill) == -100.0 * (qty as real * entry + qty as real * fill)
  {
    assert (-fill - entry) * 100.0 * qty as real == -100.0 * (qty as real * (entry + fill));
  }

  // What a position's current orders paid, and what orders that ended partly filled had paid.
  function RegularSpent(w: World, p: nat): real {
    LiveFill(w.orders, w.broker, p, ToOpen).paid + LiveFill(w.orders, w.broker, p, ToClose).paid
  }

  function StraySpent(w: World, p: nat): real {
    DeadFills(w.orders, w.broker, p, ToOpen).paid + DeadFills(w.orders, w.broker, p, ToClose).paid
  }

  lemma SpentByStatus(w: World, p: nat)
    requires Inv(w) && Cust(w) && p < |w.positions|
    ensures Spent(w, p) == RegularSpent(w, p) + StraySpent(w, p)
    ensures w.positions[p].status.Closed? ==> w.positions[p].realized == -100.0 * RegularSpent(w, p)
    ensures w.positions[p].status.Failed? ==> RegularSpent(w, p) == 0.0
  {
    hide Inv, Cust, Reconcile.Transit, Realized, Fills, LiveFill, DeadFills, FillPrice;
    StatusSays(w, p);
    PaidBy(w, p, ToOpen);
    PaidBy(w, p, ToClose);
    SupersededRows(w);
    FillsSplit(w.cfg, w.orders, w.broker, p, ToOpen);
    FillsSplit(w.cfg, w.orders, w.broker, p, ToClose);
    var row := w.positions[p];
    if row.status.Closed? {
      ClosedBooksItsFills(w, p);
    } else if row.status.Failed? {
      NoCloseFill(w, p);
    }
  }

  lemma NoCloseFill(w: World, p: nat)
    requires Latest(w.orders, p, ToClose).None?
    ensures LiveFill(w.orders, w.broker, p, ToClose).paid == 0.0
  {
  }

  function Booked(positions: seq<Position>, n: nat): real
    requires n <= |positions|
  {
    if n == 0 then 0.0
    else Booked(positions, n - 1) + if positions[n - 1].status.Closed? then positions[n - 1].realized else 0.0
  }

  // Dollars per share paid so far, net, for positions still live.
  function TiedUp(w: World, n: nat): real
    requires n <= |w.positions|
  {
    if n == 0 then 0.0
    else TiedUp(w, n - 1) + if Live(w.positions[n - 1].status) then Spent(w, n - 1) else 0.0
  }

  // Dollars per share that ended orders of finished positions had paid: on no row.
  function Unbooked(w: World, n: nat): real
    requires n <= |w.positions|
  {
    if n == 0 then 0.0
    else Unbooked(w, n - 1) + if Live(w.positions[n - 1].status) then 0.0 else StraySpent(w, n - 1)
  }

  lemma {:induction false} SpentSplits(w: World, n: nat)
    requires Inv(w) && Cust(w) && n <= |w.positions|
    ensures -100.0 * TotalSpent(w, n) == Booked(w.positions, n) - 100.0 * TiedUp(w, n) - 100.0 * Unbooked(w, n)
  {
    hide Inv, Cust, Spent, StraySpent, RegularSpent;
    if n > 0 {
      SpentSplits(w, n - 1);
      SpentByStatus(w, n - 1);
    }
  }

  lemma {:induction false} TidyBooksAll(w: World, n: nat)
    requires Cust(w) && Tidy(w) && n <= |w.positions|
    ensures Unbooked(w, n) == 0.0
  {
    hide HoldingsAgree, CashAgrees, AllTruthful, TicketsSound, DeadFills;
    if n > 0 {
      TidyBooksAll(w, n - 1);
      TidyFills(w.orders, w.broker, n - 1, ToOpen);
      TidyFills(w.orders, w.broker, n - 1, ToClose);
    }
  }

  // Cash is conserved over every run, crashes included: what is neither booked nor tied up
  // is exactly what ended orders of finished positions had paid, nothing when none had begun to fill.
  lemma CashConserved(cfg: Config, acts: seq<Act>)
    requires Sane(cfg) && ValidRun(Fresh(cfg), acts)
    ensures var w := After(Fresh(cfg), acts);
            var n := |w.positions|;
            && w.cash == Booked(w.positions, n) - 100.0 * TiedUp(w, n) - 100.0 * Unbooked(w, n)
            && (Tidy(w) ==> Unbooked(w, n) == 0.0)
  {
    hide Inv, TotalSpent, AllTruthful, HoldingsAgree, TicketsSound, Tidy;
    FreshInv(cfg);
    FreshCust(cfg);
    ReachableCust(Fresh(cfg), acts);
    var w := After(Fresh(cfg), acts);
    SpentSplits(w, |w.positions|);
    if Tidy(w) { TidyBooksAll(w, |w.positions|); }
    assert CashAgrees(w);
  }

  // What a closed position books is what its two fills paid and received.
  lemma ClosedBooksItsFills(w: World, p: nat)
    requires Inv(w) && p < |w.positions| && w.positions[p].status.Closed?
    ensures FillPrice(w.orders, p, ToOpen).Some? && FillPrice(w.orders, p, ToClose).Some?
    ensures var row := w.positions[p];
            var a, b := FillPrice(w.orders, p, ToOpen).value, FillPrice(w.orders, p, ToClose).value;
            row.realized == -100.0 * (row.qty as real * a + row.qty as real * b) && row.win == Some(row.realized > 0.0)
  {
    AllBackedAt(w, p);
    hide Inv, Realized;
    RealizedIsSpent(w.positions[p].qty, w.positions[p].entry, FillPrice(w.orders, p, ToClose).value);
  }

  // ----- the bandit's counters, without crashes

  predicate Fed(row: Position, cell: Cell, won: bool) {
    row.status.Closed? && row.regime != "" && Cell(row.structure.kind, row.regime) == cell && row.win == Some(won)
  }

  function Outcomes(positions: seq<Position>, cell: Cell, won: bool): nat {
    if positions == [] then 0
    else Outcomes(positions[..|positions| - 1], cell, won) + if Fed(positions[|positions| - 1], cell, won) then 1 else 0
  }

  function ArmOf(bandit: map<Cell, Arm>, cell: Cell): Arm {
    if cell in bandit then bandit[cell] else Arm(1, 1, 0)
  }

  ghost predicate ArmFits(w: World, cell: Cell) {
    var wins, losses := Outcomes(w.positions, cell, true), Outcomes(w.positions, cell, false);
    ArmOf(w.bandit, cell) == Arm(1 + wins, 1 + losses, wins + losses)
  }

  ghost predicate BanditFits(w: World) { forall cell :: ArmFits(w, cell) }

  lemma {:induction false} OutcomesSet(positions: seq<Position>, p: nat, row: Position, cell: Cell, won: bool)
    requires p < |positions|
    ensures Outcomes(positions[p := row], cell, won) + (if Fed(positions[p], cell, won) then 1 else 0)
            == Outcomes(positions, cell, won) + (if Fed(row, cell, won) then 1 else 0)
  {
    var n := |positions| - 1;
    if p < n {
      assert positions[p := row][..n] == positions[..n][p := row];
      OutcomesSet(positions[..n], p, row, cell, won);
    } else {
      assert positions[p := row][..n] == positions[..n];
    }
  }

  // A write that neither closes a position nor feeds the bandit.
  predicate Quiet(x: Write) { !x.Reward? && (x.SetPosition? ==> !x.row.status.Closed?) }

  predicate AllQuiet(ws: seq<Write>) { forall i :: 0 <= i < |ws| ==> Quiet(ws[i]) }

  lemma QuietKeepsBandit(w: World, x: Write)
    requires BanditFits(w) && Allowed(w, x) && Quiet(x)
    ensures BanditFits(Apply(w, x))
  {
    hide AddSpreads, Traded, Ended, ArmFits;
    match x
    case SetPosition(pid, row) => MoveKeepsBandit(w, pid, row);
    case InsertPosition(row) => InsertKeepsBandit(w, row);
    case Reward(_, _) =>
    case _ =>
      var w' := Apply(w, x);
      forall cell ensures ArmFits(w', cell) { SameArm(w, w', cell); }
  }

  lemma SameArm(w: World, w': World, cell: Cell)
    requires ArmFits(w, cell) && w'.positions == w.positions && w'.bandit == w.bandit
    ensures ArmFits(w', cell)
  {
  }

  lemma MoveKeepsBandit(w: World, pid: nat, row: Position)
    requires BanditFits(w) && MaySetPosition(w, pid, row) && !row.status.Closed?
    ensures BanditFits(w.(positions := w.positions[pid := row]))
  {
    hide Backed, FillPrice, AllDead, AllBelow;
    var w' := w.(positions := w.positions[pid := row]);
    forall cell ensures ArmFits(w', cell) {
      assert ArmFits(w, cell);
      OutcomesSet(w.positions, pid, row, cell, true);
      OutcomesSet(w.positions, pid, row, cell, false);
    }
  }

  lemma InsertKeepsBandit(w: World, row: Position)
    requires BanditFits(w) && row.status.Opening?
    ensures BanditFits(w.(positions := w.positions + [row]))
  {
    assert (w.positions + [row])[..|w.positions|] == w.positions;
    var w' := w.(positions := w.positions + [row]);
    forall cell ensures ArmFits(w', cell) {
      assert ArmFits(w, cell);
    }
  }

  lemma {:induction false} QuietRunKeepsBandit(w: World, ws: seq<Write>)
    requires BanditFits(w) && Permitted(w, ws) && AllQuiet(ws)
    ensures BanditFits(Run(w, ws))
    decreases ws
  {
    hide BanditFits, Apply, Allowed;
    if ws != [] {
      QuietKeepsBandit(w, ws[0]);
      assert forall i :: 0 <= i < |ws[1..]| ==> ws[1..][i] == ws[i + 1];
      QuietRunKeepsBandit(Apply(w, ws[0]), ws[1..]);
    }
  }

  lemma RewardBalances(w: World, pid: nat, next: Position, orders: seq<Order>)
    requires BanditFits(w) && pid < |w.positions| && !w.positions[pid].status.Closed?
    requires next.status.Closed? && next.win.Some?
    ensures var w1 := w.(orders := orders, positions := w.positions[pid := next]);
            BanditFits(Run(w1, RewardFor(next)))
  {
    hide Run;
    var w1 := w.(orders := orders, positions := w.positions[pid := next]);
    RewardRuns(w1, next);
    forall cell ensures ArmFits(Run(w1, RewardFor(next)), cell) {
      assert ArmFits(w, cell);
      OutcomesSet(w.positions, pid, next, cell, true);
      OutcomesSet(w.positions, pid, next, cell, false);
    }
  }

  lemma CloseFillKeepsBandit(w: World, env: Env, o: nat, price: Option<real>)
    requires BanditFits(w) && o < |w.orders| && w.orders[o].pid < |w.positions|
    requires w.orders[o].intent.ToClose? && !w.positions[w.orders[o].pid].status.Closed?
    ensures BanditFits(Run(w, OnFill(w, env, o, price)))
  {
    hide Run, BanditFits, Exited, OnFill;
    var pid := w.orders[o].pid;
    var next := Exited(w, pid, w.positions[pid], price);
    ExitedIsClosed(w, pid, w.positions[pid], price);
    ExitRuns(w, env, o, price, next);
    RewardBalances(w, pid, next, w.orders[o := FilledRow(w.orders[o], price)]);
  }

  // ----- operation by operation

  lemma SubmitQuiet(w: World, env: Env, key: OrderKey, pid: nat, intent: Intent, limit: int)
    requires pid < |w.positions|
    ensures AllQuiet(Submit(w, env, key, pid, intent, limit).ws)
  {
  }

  lemma CarryQuiet(w: World, env: Env, o: nat, move: Move, confirmed: bool)
    requires o < |w.orders| && w.orders[o].pid < |w.positions|
    ensures AllQuiet(Carry(w, env, o, move, confirmed).ws)
  {
    hide Run, Submit;
    var pid := w.orders[o].pid;
    match move
    case Rung(n, limit) =>
      CancelThenCount(w, o, SetEntryAttempt(pid, n));
      var w1 := Run(w, Cancel(w, o) + [SetEntryAttempt(pid, n)]);
      SubmitQuiet(w1, env, OpenKey(w.positions[pid].signal, w.positions[pid].structure, n), pid, ToOpen, limit);
    case Escalate(n, limit) =>
      CancelThenCount(w, o, SetCloseAttempt(pid, n));
      var w1 := Run(w, Cancel(w, o) + [SetCloseAttempt(pid, n)]);
      SubmitQuiet(w1, env, CloseKey(w.positions[pid].signal, Escalated, n), pid, ToClose, limit);
    case _ =>
  }

  lemma EnterQuiet(w: World, env: Env, o: nat, price: Option<real>, status: OrderStatus)
    requires o < |w.orders|
    ensures w.orders[o].intent.ToOpen? ==> AllQuiet(OnFill(w, env, o, price))
    ensures AllQuiet(OnDead(w, o, status))
  {
    hide Exited;
  }

  lemma ResolutionKeepsBandit(w: World, env: Env, o: nat, answer: Answer, confirmed: bool)
    requires Inv(w) && BanditFits(w) && InTransit(w, o)
    requires Permitted(w, Resolution(w, env, o, answer, confirmed).ws)
    ensures BanditFits(Run(w, Resolution(w, env, o, answer, confirmed).ws))
  {
    hide Inv, BanditFits, Run, Permitted, OnFill, OnDead, Carry, Staleness;
    RowFits(w, o);
    if answer.FilledAt? && w.orders[o].intent.ToClose? {
      CloseFillKeepsBandit(w, env, o, Some(answer.price));
    } else {
      if answer.FilledAt? { EnterQuiet(w, env, o, Some(answer.price), Canceled); }
      if answer.DeadAs? { EnterQuiet(w, env, o, None, answer.status); }
      CarryQuiet(w, env, o, Staleness(w, env, w.orders[o]), confirmed);
      QuietRunKeepsBandit(w, Resolution(w, env, o, answer, confirmed).ws);
    }
  }

  lemma SyncOneKeepsBandit(w: World, env: Env, o: nat)
    requires Inv(w) && BanditFits(w) && InTransit(w, o)
    ensures BanditFits(Run(w, SyncOne(w, env, o).ws))
  {
    hide Inv, BanditFits, Run, Permitted, Resolution;
    BackfillRuns(w, o);
    AfterBackfill(w, o);
    RowFits(w, o);
    var answer := Poll(w, env, w.orders[o].key);
    if answer.NoAnswer? {
      MaybeVoidPermitted(w, env, o);
      QuietRunKeepsBandit(w, MaybeVoid(w, env, o));
    } else {
      var w1 := Run(w, Backfill(w, o));
      QuietRunKeepsBandit(w, Backfill(w, o));
      ResolutionPermitted(w1, env, o, answer, w.orders[o].confirmed);
      ResolutionKeepsBandit(w1, env, o, answer, w.orders[o].confirmed);
      RunConcat(w, Backfill(w, o), Resolution(w1, env, o, answer, w.orders[o].confirmed).ws);
    }
  }

  lemma {:induction false} SyncFromKeepsBandit(w: World, env: Env, snapshot: seq<Order>, o: nat)
    requires Inv(w) && BanditFits(w) && Ahead(w, snapshot, o)
    ensures BanditFits(Run(w, SyncFrom(w, env, snapshot, o).ws))
    decreases |snapshot| - o
  {
    hide Inv, BanditFits, Run, Permitted, SyncOne;
    RunNothing(w);
    if o < |snapshot| {
      var x := LoopStep(w, env, snapshot, o);
      LoopUnfolds(w, env, snapshot, o);
      LoopStepDoes(w, env, snapshot, o);
      if InFlight(snapshot[o]) { SyncOneKeepsBandit(w, env, o); }
      if !x.raised { SyncFromKeepsBandit(Run(w, x.ws), env, snapshot, o + 1); }
    }
  }

  lemma SweepOneKeepsBandit(w: World, env: Env, inFlight: set<nat>, pid: nat)
    requires BanditFits(w) && pid < |w.positions| && Permitted(w, SweepOne(w, env, inFlight, pid))
    ensures BanditFits(Run(w, SweepOne(w, env, inFlight, pid)))
  {
    hide BanditFits, Run, Permitted, OnFill, OnDead;
    RunNothing(w);
    var st := w.positions[pid].status;
    if (st.Opening? || st.Closing?) && pid !in inFlight {
      var found := Latest(w.orders, pid, if st.Opening? then ToOpen else ToClose);
      if found.Some? {
        var o := found.value;
        EnterQuiet(w, env, o, w.orders[o].filledPrice, w.orders[o].status);
        if w.orders[o].status.Filled? && st.Closing? {
          CloseFillKeepsBandit(w, env, o, w.orders[o].filledPrice);
        } else {
          QuietRunKeepsBandit(w, SweepOne(w, env, inFlight, pid));
        }
      }
    }
  }

  lemma {:induction false} SweepFromKeepsBandit(w: World, env: Env, inFlight: set<nat>, p: nat, n: nat)
    requires Inv(w) && BanditFits(w) && p <= n == |w.positions| && InFlightPids(w.orders) <= inFlight
    requires forall q :: p <= q < n && q in inFlight ==> HasInFlight(w.orders, q)
    ensures BanditFits(Run(w, SweepFrom(w, env, inFlight, p, n)))
    decreases n - p
  {
    hide Inv, BanditFits, Run, SweepOne, Permitted, InFlightPids, HasInFlight, Recovered;
    RunNothing(w);
    if p < n {
      var ws := SweepOne(w, env, inFlight, p);
      var w1 := Run(w, ws);
      SweepOneDoes(w, env, inFlight, p);
      SweepOneKeepsBandit(w, env, inFlight, p);
      RunKeepsInv(w, ws);
      ResolvesKeepsInFlight(w, w1, p, inFlight);
      SweepFromKeepsBandit(w1, env, inFlight, p + 1, n);
      RunConcat(w, ws, SweepFrom(w1, env, inFlight, p + 1, n));
    }
  }

  lemma SyncKeepsBandit(w: World, env: Env)
    requires Inv(w) && BanditFits(w)
    ensures BanditFits(Run(w, Sync(w, env).ws))
  {
    hide Inv, BanditFits, Run, Permitted, InFlightPids, HasInFlight;
    var loop := SyncFrom(w, env, w.orders, 0);
    SyncFromKeepsBandit(w, env, w.orders, 0);
    if !loop.raised {
      SyncFromPermitted(w, env, w.orders, 0);
      RunKeepsInv(w, loop.ws);
      var w1 := Run(w, loop.ws);
      AllInFlightPids(w1.orders);
      SweepFromKeepsBandit(w1, env, InFlightPids(w1.orders), 0, |w1.positions|);
      RunConcat(w, loop.ws, SweepFrom(w1, env, InFlightPids(w1.orders), 0, |w1.positions|));
    }
  }

  lemma CloseQuiet(w: World, env: Env, pid: nat, barrier: Barrier, limit: int)
    requires pid < |w.positions|
    ensures AllQuiet(Close(w, env, pid, barrier, limit).ws)
  {
    hide Run, Submit;
    var row := w.positions[pid].(status := Closing);
    CloseFirst(w, pid, row, barrier);
    SubmitQuiet(Run(w, [SetPosition(pid, row), SetCloseBarrier(pid, barrier)]), env,
                CloseKey(row.signal, By(barrier), CloseAttempt(w, pid)), pid, ToClose, limit);
  }

  lemma NewsQuiet(w: World, env: Env, p: Proposal)
    ensures AllQuiet(News(w, env, p).ws)
  {
    hide Run, Submit, UnitRisk, GateApproves, Seen;
    if News(w, env, p).ws != [] {
      var row := NewPosition(env, p);
      Run1(w, InsertPosition(row));
      var w1 := Run(w, [InsertPosition(row)]);
      assert |w1.positions| == |w.positions| + 1;
      SubmitQuiet(w1, env, OpenKey(p.signal, p.structure, 0), |w.positions|, ToOpen, p.net);
    }
  }

  lemma StepKeepsBandit(w: World, step: Step)
    requires Inv(w) && BanditFits(w) && Enabled(w, step)
    ensures BanditFits(Run(w, StepWrites(w, step)))
  {
    hide Inv, BanditFits, Permitted, Run, Sync, Close, News, OneEach, MayTrade, MayLapse;
    StepPermitted(w, step);
    match step
    case SyncStep(env) => SyncKeepsBandit(w, env);
    case CloseStep(env, pid, barrier, limit) =>
      CloseQuiet(w, env, pid, barrier, limit);
      QuietRunKeepsBandit(w, StepWrites(w, step));
    case NewsStep(env, p) =>
      NewsQuiet(w, env, p);
      QuietRunKeepsBandit(w, StepWrites(w, step));
    case _ => QuietRunKeepsBandit(w, StepWrites(w, step));
  }

  ghost predicate Uncut(w: World, acts: seq<Act>)
    decreases acts
  {
    acts == [] || (acts[0].survived >= |StepWrites(w, acts[0].step)| && Uncut(Run(w, Done(w, acts[0])), acts[1..]))
  }

  lemma {:induction false} UncutRunKeepsBandit(w: World, acts: seq<Act>)
    requires Inv(w) && BanditFits(w) && ValidRun(w, acts) && Uncut(w, acts)
    ensures BanditFits(After(w, acts))
    decreases acts
  {
    hide Inv, BanditFits, Enabled, StepWrites, Run, Permitted;
    if acts != [] {
      ActPermitted(w, acts[0]);
      StepKeepsBandit(w, acts[0].step);
      UncutRunKeepsBandit(Run(w, Done(w, acts[0])), acts[1..]);
    }
  }

  // Without crashes each bandit cell has seen every close of its kind and regime exactly once.
  lemma BanditCountsCloses(cfg: Config, acts: seq<Act>)
    requires Sane(cfg) && ValidRun(Fresh(cfg), acts) && Uncut(Fresh(cfg), acts)
    ensures BanditFits(After(Fresh(cfg), acts))
  {
    hide Inv, ValidRun, Uncut, After;
    FreshInv(cfg);
    assert BanditFits(Fresh(cfg));
    UncutRunKeepsBandit(Fresh(cfg), acts);
  }

  // ----- the bandit's counters, whatever crashes

  // No cell has been fed more often than positions of its kind and regime were closed.
  ghost predicate ArmBehind(w: World, cell: Cell) {
    var arm := ArmOf(w.bandit, cell);
    && 1 <= arm.alpha <= 1 + Outcomes(w.positions, cell, true)
    && 1 <= arm.beta <= 1 + Outcomes(w.positions, cell, false)
    && arm.pulls == (arm.alpha - 1) + (arm.beta - 1)
  }

  ghost predicate NeverAhead(w: World) { forall cell :: ArmBehind(w, cell) }

  // The write just made closed a position of this cell with this outcome.
  predicate Feeds(x: Write, reward: Write)
    requires reward.Reward?
  {
    x.SetPosition? && Fed(x.row, reward.cell, reward.won)
  }

  // Every reward comes directly after the closing write it counts.
  predicate Paired(ws: seq<Write>) {
    forall i :: 0 <= i < |ws| && ws[i].Reward? ==> i > 0 && Feeds(ws[i - 1], ws[i])
  }

  lemma PairedConcat(a: seq<Write>, b: seq<Write>)
    requires Paired(a) && Paired(b)
    ensures Paired(a + b)
  {
    hide Feeds;
    var all := a + b;
    forall i | 0 <= i < |all| && all[i].Reward? ensures i > 0 && Feeds(all[i - 1], all[i]) {
      if i < |a| { assert all[i] == a[i] && (i > 0 ==> all[i - 1] == a[i - 1]); }
      else { assert all[i] == b[i - |a|] && (i > |a| ==> all[i - 1] == b[i - |a| - 1]); }
    }
  }

  lemma QuietIsPaired(ws: seq<Write>)
    requires AllQuiet(ws)
    ensures Paired(ws)
  {
  }

  lemma PairedPrefix(ws: seq<Write>, k: nat)
    requires Paired(ws) && k <= |ws|
    ensures Paired(ws[..k])
  {
    hide Feeds;
  }

  lemma MoveKeepsBehind(w: World, pid: nat, row: Position, cell: Cell)
    requires ArmBehind(w, cell) && MaySetPosition(w, pid, row)
    ensures var w1 := w.(positions := Replaced(w.positions, pid, row));
            var arm := ArmOf(w.bandit, cell);
            && ArmBehind(w1, cell)
            && (Fed(row, cell, true) ==> arm.alpha <= Outcomes(w1.positions, cell, true))
            && (Fed(row, cell, false) ==> arm.beta <= Outcomes(w1.positions, cell, false))
  {
    hide Backed, FillPrice, AllDead, AllBelow, RecordedRisk, Outcomes;
    OutcomesSet(w.positions, pid, row, cell, true);
    OutcomesSet(w.positions, pid, row, cell, false);
  }

  // Any write but a reward keeps every cell behind; a closing write leaves room for its reward.
  lemma WriteKeepsBehind(w: World, x: Write, cell: Cell)
    requires ArmBehind(w, cell) && Allowed(w, x) && !x.Reward?
    ensures ArmBehind(Apply(w, x), cell)
    ensures x.SetPosition? ==>
              var arm, ps := ArmOf(w.bandit, cell), Apply(w, x).positions;
              && Apply(w, x).bandit == w.bandit
              && (Fed(x.row, cell, true) ==> arm.alpha <= Outcomes(ps, cell, true))
              && (Fed(x.row, cell, false) ==> arm.beta <= Outcomes(ps, cell, false))
  {
    hide AddSpreads, Traded, Ended, MaySetPosition, Sound, MayInsertOrder, Matches, MayTrade, MaySetOrder, RecordedRisk, Fed;
    match x
    case SetPosition(pid, row) => MoveKeepsBehind(w, pid, row, cell);
    case InsertPosition(row) => OpeningAddsNone(w.positions, row, cell);
    case _ =>
  }

  lemma OpeningAddsNone(positions: seq<Position>, row: Position, cell: Cell)
    requires row.status.Opening?
    ensures forall won :: Outcomes(positions + [row], cell, won) == Outcomes(positions, cell, won)
  {
    assert (positions + [row])[..|positions|] == positions;
  }

  lemma RewardKeepsBehind(w: World, x: Write, reward: Write, cell: Cell)
    requires reward.Reward? && Feeds(x, reward) && ArmBehind(w, cell)
    requires var arm, ps := ArmOf(w.bandit, cell), w.positions;
             && (Fed(x.row, cell, true) ==> arm.alpha <= Outcomes(ps, cell, true))
             && (Fed(x.row, cell, false) ==> arm.beta <= Outcomes(ps, cell, false))
    ensures ArmBehind(Apply(w, reward), cell)
  {
    hide Outcomes;
  }

  lemma {:induction false} PairedKeepsBehind(w: World, ws: seq<Write>)
    requires NeverAhead(w) && Permitted(w, ws) && Paired(ws)
    ensures NeverAhead(Run(w, ws))
    decreases |ws|
  {
    hide ArmBehind, Apply, Allowed, Feeds, Fed, ArmOf, Outcomes;
    if ws != [] {
      var w1, rest := Apply(w, ws[0]), ws[1..];
      assert !ws[0].Reward?;
      forall cell ensures ArmBehind(w1, cell) {
        WriteKeepsBehind(w, ws[0], cell);
      }
      if rest != [] && rest[0].Reward? {
        assert ws[1] == rest[0] && Feeds(ws[0], ws[1]);
        FeedsMoves(ws[0], ws[1]);
        var w2, rest2 := Apply(w1, rest[0]), rest[1..];
        forall cell ensures ArmBehind(w2, cell) {
          WriteKeepsBehind(w, ws[0], cell);
          RewardKeepsBehind(w1, ws[0], ws[1], cell);
        }
        if |ws| > 2 && ws[2].Reward? { FeedsMoves(ws[1], ws[2]); }
        PairedTail(ws, 2);
        assert rest2 == ws[2..];
        PairedKeepsBehind(w2, rest2);
      } else {
        PairedTail(ws, 1);
        PairedKeepsBehind(w1, rest);
      }
    }
  }

  lemma FeedsMoves(x: Write, reward: Write)
    requires reward.Reward? && Feeds(x, reward)
    ensures x.SetPosition?
  {
  }

  lemma PairedTail(ws: seq<Write>, k: nat)
    requires Paired(ws) && k <= |ws| && !(k < |ws| && ws[k].Reward?)
    ensures Paired(ws[k..])
  {
    hide Feeds;
    var tail := ws[k..];
    forall i | 0 <= i < |tail| && tail[i].Reward? ensures i > 0 && Feeds(tail[i - 1], tail[i]) {
      assert tail[i] == ws[k + i];
      if i > 0 { assert tail[i - 1] == ws[k + i - 1]; }
    }
  }

  lemma FillPaired(w: World, env: Env, o: nat, price: Option<real>)
    requires o < |w.orders|
    ensures Paired(OnFill(w, env, o, price))
  {
    hide Entered, Realized;
  }

  lemma ResolutionPaired(w: World, env: Env, o: nat, answer: Answer, confirmed: bool)
    requires o < |w.orders| && w.orders[o].pid < |w.positions|
    ensures Paired(Resolution(w, env, o, answer, confirmed).ws)
  {
    hide OnFill, OnDead, Carry, Staleness, Paired, AllQuiet;
    match answer
    case FilledAt(price) => FillPaired(w, env, o, Some(price));
    case DeadAs(status) => EnterQuiet(w, env, o, None, status); QuietIsPaired(OnDead(w, o, status));
    case Resting =>
      CarryQuiet(w, env, o, Staleness(w, env, w.orders[o]), confirmed);
      QuietIsPaired(Carry(w, env, o, Staleness(w, env, w.orders[o]), confirmed).ws);
    case _ => PairedNothing();
  }

  lemma PairedNothing()
    ensures Paired([])
  {
  }

  lemma SyncOnePaired(w: World, env: Env, o: nat)
    requires o < |w.orders| && w.orders[o].pid < |w.positions|
    ensures Paired(SyncOne(w, env, o).ws)
  {
    hide Run, Resolution, Paired;
    BackfillRuns(w, o);
    BackfillPaired(w, env, o);
    var answer := Poll(w, env, w.orders[o].key);
    if !answer.NoAnswer? {
      var w1 := Run(w, Backfill(w, o));
      ResolutionPaired(w1, env, o, answer, w.orders[o].confirmed);
      PairedConcat(Backfill(w, o), Resolution(w1, env, o, answer, w.orders[o].confirmed).ws);
    }
  }

  lemma BackfillPaired(w: World, env: Env, o: nat)
    requires o < |w.orders|
    ensures Paired(Backfill(w, o)) && Paired(MaybeVoid(w, env, o))
  {
  }

  lemma {:induction false} SyncFromPaired(w: World, env: Env, snapshot: seq<Order>, o: nat)
    ensures Paired(SyncFrom(w, env, snapshot, o).ws)
    decreases |snapshot| - o
  {
    hide Run, SyncOne, Paired;
    PairedNothing();
    if o < |snapshot| {
      if InFlight(snapshot[o]) && o < |w.orders| && w.orders[o].pid < |w.positions| { SyncOnePaired(w, env, o); }
      var x := LoopStep(w, env, snapshot, o);
      var next := SyncFrom(Run(w, x.ws), env, snapshot, o + 1);
      SyncFromPaired(Run(w, x.ws), env, snapshot, o + 1);
      PairedConcat(x.ws, next.ws);
    }
  }

  lemma SweepOnePaired(w: World, env: Env, inFlight: set<nat>, pid: nat)
    requires pid < |w.positions|
    ensures Paired(SweepOne(w, env, inFlight, pid))
  {
    hide OnFill, OnDead, Paired, AllQuiet;
    PairedNothing();
    var st := w.positions[pid].status;
    var found := Latest(w.orders, pid, if st.Opening? then ToOpen else ToClose);
    if found.Some? {
      var row := w.orders[found.value];
      FillPaired(w, env, found.value, row.filledPrice);
      EnterQuiet(w, env, found.value, None, row.status);
      QuietIsPaired(OnDead(w, found.value, row.status));
    }
  }

  lemma {:induction false} SweepFromPaired(w: World, env: Env, inFlight: set<nat>, p: nat, n: nat)
    ensures Paired(SweepFrom(w, env, inFlight, p, n))
    decreases n - p
  {
    hide Run, SweepOne, Paired;
    PairedNothing();
    if p < n && p < |w.positions| {
      var ws := SweepOne(w, env, inFlight, p);
      SweepOnePaired(w, env, inFlight, p);
      SweepFromPaired(Run(w, ws), env, inFlight, p + 1, n);
      PairedConcat(ws, SweepFrom(Run(w, ws), env, inFlight, p + 1, n));
    }
  }

  lemma StepPaired(w: World, step: Step)
    ensures Paired(StepWrites(w, step))
  {
    hide Run, News, Close, SyncFrom, SweepFrom, Paired, AllQuiet;
    match step
    case SyncStep(env) =>
      var loop := SyncFrom(w, env, w.orders, 0);
      SyncFromPaired(w, env, w.orders, 0);
      var w1 := Run(w, loop.ws);
      SweepFromPaired(w1, env, InFlightPids(w1.orders), 0, |w1.positions|);
      PairedConcat(loop.ws, SweepFrom(w1, env, InFlightPids(w1.orders), 0, |w1.positions|));
    case CloseStep(env, pid, barrier, limit) =>
      PairedNothing();
      if pid < |w.positions| { CloseQuiet(w, env, pid, barrier, limit); QuietIsPaired(Close(w, env, pid, barrier, limit).ws); }
    case NewsStep(env, p) => NewsQuiet(w, env, p); QuietIsPaired(News(w, env, p).ws);
    case _ => OnePaired(StepWrites(w, step));
  }

  lemma OnePaired(ws: seq<Write>)
    requires |ws| == 1 && !ws[0].Reward?
    ensures Paired(ws)
  {
  }

  lemma {:induction false} RunsKeepBehind(w: World, acts: seq<Act>)
    requires Inv(w) && NeverAhead(w) && ValidRun(w, acts)
    ensures NeverAhead(After(w, acts))
    decreases acts
  {
    hide Inv, NeverAhead, Enabled, StepWrites, Run, Permitted, Paired;
    if acts != [] {
      ActPermitted(w, acts[0]);
      var ws := StepWrites(w, acts[0].step);
      StepPaired(w, acts[0].step);
      if acts[0].survived < |ws| { PairedPrefix(ws, acts[0].survived); }
      PairedKeepsBehind(w, Done(w, acts[0]));
      RunsKeepBehind(Run(w, Done(w, acts[0])), acts[1..]);
    }
  }

  // Whatever crashes, the bandit is never ahead of the book: each cell's wins, losses and pulls are at
  // most the closes of its kind and regime, and its pulls are its wins plus its losses.
  lemma BanditNeverAhead(cfg: Config, acts: seq<Act>)
    requires Sane(cfg) && ValidRun(Fresh(cfg), acts)
    ensures NeverAhead(After(Fresh(cfg), acts))
  {
    hide Inv, ValidRun, After;
    FreshInv(cfg);
    assert NeverAhead(Fresh(cfg));
    RunsKeepBehind(Fresh(cfg), acts);
  }
}
