/**
 Orders that ended partly filled. The lifecycle resolves their positions as if they had
 filled nothing, so what they executed stays at the broker and on no row.
 */
module Endings {
  import opened Wrappers
  import opened Structures
  import opened World
  import opened Ladder
  import opened Protocol
  import opened Lifecycle
  import opened LifecycleProofs
  import opened Custody
  import opened Runs
  import opened CustodyRuns
  import opened Reconcile
  import opened ReconcileProofs

  // Row j is dead in the table although its order had begun to fill.
  ghost predicate Fallen(w: World, j: int) {
    0 <= j < |w.orders| && Dead(w.orders[j]) && RowFill(w.orders[j], w.broker).n > 0
  }

  ghost predicate Fell(w: World, p: nat) { exists j :: Fallen(w, j) && w.orders[j].pid == p }

  // ----- what a sync passes on: it neither adds positions nor trades

  predicate Routine(ws: seq<Write>) {
    forall i :: 0 <= i < |ws| ==> !ws[i].InsertPosition? && !ws[i].Trade?
  }

  ghost predicate InheritsPositions(was: seq<Position>, now: seq<Position>) {
    && |now| == |was|
    && forall p :: 0 <= p < |was| ==> SameTrade(was[p], now[p]) && (Live(now[p].status) ==> Live(was[p].status))
  }

  ghost predicate Aged(was: Order, now: Order) {
    (InFlight(now) ==> InFlight(was)) && (Dead(now) ==> Dead(was) || InFlight(was))
  }

  // Rows written since are new to the broker as it was, and only rows in flight have died.
  ghost predicate InheritsOrders(was: seq<Order>, now: seq<Order>, broker: map<OrderKey, Ticket>) {
    && |was| <= |now|
    && (forall j :: 0 <= j < |was| ==> SameOrder(was[j], now[j]) && Aged(was[j], now[j]))
    && (forall j :: |was| <= j < |now| ==> now[j].key !in broker)
  }

  ghost predicate InheritsBroker(was: map<OrderKey, Ticket>, now: map<OrderKey, Ticket>) {
    && (forall k :: k in was ==> k in now && now[k].filled == was[k].filled)
    && (forall k :: k in now && k !in was ==> now[k].filled == 0)
  }

  ghost predicate Inherits(w: World, w': World) {
    && InheritsPositions(w.positions, w'.positions)
    && InheritsOrders(w.orders, w'.orders, w.broker)
    && InheritsBroker(w.broker, w'.broker)
  }

  lemma PositionsInherit(was: seq<Position>, w: World, x: Write)
    requires InheritsPositions(was, w.positions) && Allowed(w, x) && !x.InsertPosition?
    ensures InheritsPositions(was, Apply(w, x).positions)
  {
    hide AddSpreads, Traded, Rewarded, Ended, FillPrice, AllDead, AllBelow, Backed;
  }

  lemma RowsInherit(was: seq<Order>, broker: map<OrderKey, Ticket>, w: World, o: nat, row: Order)
    requires InheritsOrders(was, w.orders, broker) && MaySetOrder(w, o, row)
    ensures InheritsOrders(was, w.orders[o := row], broker)
  {
    var now := w.orders[o := row];
    forall j | 0 <= j < |was|
      ensures SameOrder(was[j], now[j]) && Aged(was[j], now[j])
    {
      assert SameOrder(was[j], w.orders[j]) && Aged(was[j], w.orders[j]);
    }
  }

  lemma OrdersInherit(was: seq<Order>, broker: map<OrderKey, Ticket>, w: World, x: Write)
    requires Inv(w) && InheritsOrders(was, w.orders, broker) && InheritsBroker(broker, w.broker) && Allowed(w, x)
    ensures InheritsOrders(was, Apply(w, x).orders, broker)
  {
    hide Inv, AddSpreads, Traded, Rewarded, Ended, FillPrice, AllDead, AllBelow, Backed, OrderFits;
    match x
    case InsertOrder(row) => FreshKey(w, row);
    case SetOrder(o, row) => RowsInherit(was, broker, w, o, row);
    case _ => assert Apply(w, x).orders == w.orders;
  }

  lemma BrokerInherits(broker: map<OrderKey, Ticket>, w: World, x: Write)
    requires InheritsBroker(broker, w.broker) && Allowed(w, x) && !x.Trade?
    ensures InheritsBroker(broker, Apply(w, x).broker)
  {
    hide AddSpreads, Traded, Rewarded, MayInsertPosition, MaySetPosition, MayInsertOrder, MaySetOrder, TicketFits;
    match x
    case Accept(key, t) =>
    case Withdraw(key) => EndedInherits(broker, w.broker, key, Canceled);
    case Lapse(key, status) => EndedInherits(broker, w.broker, key, status);
    case _ =>
  }

  lemma EndedInherits(was: map<OrderKey, Ticket>, now: map<OrderKey, Ticket>, key: OrderKey, status: OrderStatus)
    requires InheritsBroker(was, now)
    ensures InheritsBroker(was, Ended(now, key, status))
  {
  }

  lemma {:induction false} RunInherits(w0: World, w: World, ws: seq<Write>)
    requires Inv(w) && Inherits(w0, w) && Permitted(w, ws) && Routine(ws)
    ensures Inherits(w0, Run(w, ws))
    decreases ws
  {
    hide Inv, Apply, Allowed, InheritsPositions, InheritsOrders, InheritsBroker;
    if ws != [] {
      PositionsInherit(w0.positions, w, ws[0]);
      OrdersInherit(w0.orders, w0.broker, w, ws[0]);
      BrokerInherits(w0.broker, w, ws[0]);
      WriteKeepsInv(w, ws[0]);
      assert forall i :: 0 <= i < |ws[1..]| ==> ws[1..][i] == ws[i + 1];
      RunInherits(w0, Apply(w, ws[0]), ws[1..]);
    }
  }

  lemma InheritsItself(w: World)
    ensures Inherits(w, w)
  {
  }

  // ----- an order the broker ended is final, and its position settles at the next sync

  lemma {:induction false} GoneForever(w: World, ws: seq<Write>, key: OrderKey)
    requires Permitted(w, ws) && key in w.broker && w.broker[key].state.Gone?
    ensures key in Run(w, ws).broker && Run(w, ws).broker[key] == w.broker[key]
    decreases ws
  {
    hide Apply, Allowed;
    if ws != [] {
      GoneStays(w, ws[0], key);
      GoneForever(Apply(w, ws[0]), ws[1..], key);
    }
  }

  lemma GoneStays(w: World, x: Write, key: OrderKey)
    requires Allowed(w, x) && key in w.broker && w.broker[key].state.Gone?
    ensures key in Apply(w, x).broker && Apply(w, x).broker[key] == w.broker[key]
  {
    hide AddSpreads, Traded, Rewarded, FillPrice, AllDead, AllBelow, Backed, OrderFits;
  }

  lemma {:induction false} DeadForever(w: World, ws: seq<Write>, j: nat)
    requires Permitted(w, ws) && j < |w.orders| && Dead(w.orders[j])
    ensures j < |Run(w, ws).orders| && Dead(Run(w, ws).orders[j])
    decreases ws
  {
    hide Apply, Allowed;
    if ws != [] {
      DeadStays(w, ws[0], j);
      DeadForever(Apply(w, ws[0]), ws[1..], j);
    }
  }

  lemma DeadStays(w: World, x: Write, j: nat)
    requires Allowed(w, x) && j < |w.orders| && Dead(w.orders[j])
    ensures j < |Apply(w, x).orders| && Dead(Apply(w, x).orders[j])
  {
    hide AddSpreads, Traded, Rewarded, Ended, FillPrice, AllDead, AllBelow, Backed, OrderFits;
  }

  // The broker has ended row o's order, and says so when asked.
  ghost predicate EndedAndTold(w: World, env: Env, row: Order) {
    InFlight(row) && row.key in w.broker && w.broker[row.key].state.Gone? && row.key !in env.pollDown
  }

  ghost predicate SettledAs(w: World, p: nat, status: Status) {
    p < |w.positions| && w.positions[p].status == status && !status.Opening? && !status.Closing?
  }

  function DeadEnd(intent: Intent): Status { if intent.ToOpen? then Failed else Open }

  lemma EndedIs(w: World, env: Env, o: nat, status: OrderStatus)
    requires o < |w.orders| && w.orders[o].pid < |w.positions| && EndedAndTold(w, env, w.orders[o])
    requires w.broker[w.orders[o].key].state == Gone(status)
    ensures var w1 := Run(w, Backfill(w, o));
            o < |w1.orders| && w1.orders[o].pid < |w1.positions|
            && SyncOne(w, env, o) == Then(Backfill(w, o), Outcome(OnDead(w1, o, status), false))
  {
    hide Run, Backfill, OnDead;
    BackfillRuns(w, o);
  }

  lemma EndedStep(w: World, env: Env, o: nat)
    requires Inv(w) && InTransit(w, o) && EndedAndTold(w, env, w.orders[o])
    ensures var w' := Run(w, SyncOne(w, env, o).ws);
            && o < |w'.orders| && Dead(w'.orders[o])
            && SettledAs(w', w.orders[o].pid, DeadEnd(w.orders[o].intent))
  {
    hide Inv, Run, Apply, Permitted, Backfill, OnDead, SyncOne, Latest;
    RowFits(w, o);
    AfterBackfill(w, o);
    BackfillRuns(w, o);
    var w1 := Run(w, Backfill(w, o));
    var status := w.broker[w.orders[o].key].state.status;
    EndedIs(w, env, o, status);
    OnDeadRuns(w1, o, status);
    RunConcat(w, Backfill(w, o), OnDead(w1, o, status));
  }

  lemma {:induction false} LoopKeepsSettled(w: World, env: Env, snapshot: seq<Order>, o: nat, p: nat, status: Status)
    requires Inv(w) && Ahead(w, snapshot, o) && SettledAs(w, p, status)
    ensures SettledAs(Run(w, SyncFrom(w, env, snapshot, o).ws), p, status)
    decreases |snapshot| - o
  {
    hide SyncOne, Inv, Run, Apply, Permitted;
    RunNothing(w);
    if o < |snapshot| {
      LoopUnfolds(w, env, snapshot, o);
      LoopStepDoes(w, env, snapshot, o);
      RowFits(w, o);
      var w1 := Run(w, LoopStep(w, env, snapshot, o).ws);
      assert SettledAs(w1, p, status);
      if !LoopStep(w, env, snapshot, o).raised { LoopKeepsSettled(w1, env, snapshot, o + 1, p, status); }
    }
  }

  lemma {:induction false} LoopSettles(w: World, env: Env, snapshot: seq<Order>, o: nat, j: nat)
    requires Inv(w) && Ahead(w, snapshot, o) && o <= j < |snapshot| && EndedAndTold(w, env, snapshot[j])
    requires !SyncFrom(w, env, snapshot, o).raised
    ensures var w' := Run(w, SyncFrom(w, env, snapshot, o).ws);
            j < |w'.orders| && Dead(w'.orders[j]) && SettledAs(w', snapshot[j].pid, DeadEnd(snapshot[j].intent))
    decreases |snapshot| - o
  {
    hide LoopStep, Inv, Run, Apply, Permitted, SyncOne;
    var w1 := Run(w, LoopStep(w, env, snapshot, o).ws);
    LoopUnfolds(w, env, snapshot, o);
    LoopStepDoes(w, env, snapshot, o);
    if o < j {
      GoneForever(w, LoopStep(w, env, snapshot, o).ws, snapshot[j].key);
      LoopSettles(w1, env, snapshot, o + 1, j);
    } else {
      LoopStepIs(w, env, snapshot, o);
      EndedStep(w, env, o);
      LoopKeepsEarlier(w1, env, snapshot, o + 1, j);
      LoopKeepsSettled(w1, env, snapshot, o + 1, snapshot[j].pid, DeadEnd(snapshot[j].intent));
    }
  }

  lemma LoopStepIs(w: World, env: Env, snapshot: seq<Order>, o: nat)
    requires Ahead(w, snapshot, o) && o < |snapshot| && InFlight(snapshot[o]) && w.orders[o].pid < |w.positions|
    ensures LoopStep(w, env, snapshot, o) == SyncOne(w, env, o)
  {
    hide SyncOne;
  }

  lemma {:induction false} SweepKeepsSettled(w: World, env: Env, inFlight: set<nat>, p: nat, n: nat, q: nat, status: Status)
    requires Inv(w) && p <= n == |w.positions| && InFlightPids(w.orders) <= inFlight
    requires forall r :: p <= r < n && r in inFlight ==> HasInFlight(w.orders, r)
    requires SettledAs(w, q, status)
    ensures var w' := Run(w, SweepFrom(w, env, inFlight, p, n));
            SettledAs(w', q, status)
    decreases n - p
  {
    hide Inv, Permitted, Run, Apply, Recovered, InFlightPids, HasInFlight, OnFill, OnDead;
    RunNothing(w);
    if p < n {
      var ws := SweepOne(w, env, inFlight, p);
      var w1 := Run(w, ws);
      SweepOneDoes(w, env, inFlight, p);
      RunKeepsInv(w, ws);
      ResolvesKeepsInFlight(w, w1, p, inFlight);
      assert SettledAs(w1, q, status);
      hide SweepOne;
      SweepKeepsSettled(w1, env, inFlight, p + 1, n, q, status);
      RunConcat(w, ws, SweepFrom(w1, env, inFlight, p + 1, n));
    }
  }

  // After a sync that returns, an order the broker had ended is dead and its position has failed
  // or reopened, whatever the order had filled.
  lemma SyncSettles(w: World, env: Env, j: nat)
    requires Inv(w) && j < |w.orders| && EndedAndTold(w, env, w.orders[j]) && !Sync(w, env).raised
    ensures var w' := Run(w, Sync(w, env).ws);
            j < |w'.orders| && Dead(w'.orders[j]) && SettledAs(w', w.orders[j].pid, DeadEnd(w.orders[j].intent))
  {
    hide Inv, Permitted, Run, Apply, InFlightPids, Recovered, SettledAs;
    var loop := SyncFrom(w, env, w.orders, 0);
    SyncFromPermitted(w, env, w.orders, 0);
    LoopSettles(w, env, w.orders, 0, j);
    var w1 := Run(w, loop.ws);
    RunKeepsInv(w, loop.ws);
    var inFlight := InFlightPids(w1.orders);
    AllInFlightPids(w1.orders);
    SweepFromDoes(w1, env, inFlight, 0, |w1.positions|);
    DeadForever(w1, SweepFrom(w1, env, inFlight, 0, |w1.positions|), j);
    SweepKeepsSettled(w1, env, inFlight, 0, |w1.positions|, w.orders[j].pid, DeadEnd(w.orders[j].intent));
    RunConcat(w, loop.ws, SweepFrom(w1, env, inFlight, 0, |w1.positions|));
  }

  // ----- an order given up as unconfirmed: dead after the loop, its position settled by the sweep

  // Row o is its position's newest of the intent and dead, nothing of the position is in flight, and
  // the position still waits.
  ghost predicate Abandoned(w: World, o: nat, p: nat, intent: Intent) {
    && o < |w.orders| && Of(w.orders[o], p, intent) && Dead(w.orders[o])
    && Latest(w.orders, p, intent) == Some(o) && !HasInFlight(w.orders, p)
    && p < |w.positions| && w.positions[p].status == (if intent.ToOpen? then Opening else Closing)
  }

  lemma VoidStep(w: World, env: Env, o: nat)
    requires Inv(w) && InTransit(w, o) && GivenUp(w, env, w.orders[o])
    ensures Abandoned(Run(w, SyncOne(w, env, o).ws), o, w.orders[o].pid, w.orders[o].intent)
  {
    hide Inv, Run, Apply, Latest;
    var row := w.orders[o].(status := Canceled);
    RowFits(w, o);
    SupersededRows(w);
    UndeadIsLatest(w.cfg, w.orders, o);
    LatestUpdate(w.orders, o, row, row.pid, row.intent);
    assert SyncOne(w, env, o).ws == [SetOrder(o, row)] + [];
    RunSetOrder(w, o, row, []);
    RunNothing(w.(orders := w.orders[o := row]));
    forall i | 0 <= i < |w.orders| && i != o && w.orders[i].pid == row.pid ensures !InFlight(w.orders[i]) {
      if InFlight(w.orders[i]) { OneInFlight(w, i, o); }
    }
  }

  // Rows of other positions come and go.
  lemma {:induction false} LatestOthers(was: seq<Order>, now: seq<Order>, p: nat, intent: Intent)
    requires |was| <= |now|
    requires forall j :: 0 <= j < |was| ==> was[j] == now[j] || (was[j].pid != p && now[j].pid != p)
    requires forall j :: |was| <= j < |now| ==> now[j].pid != p
    ensures Latest(now, p, intent) == Latest(was, p, intent)
  {
    var a, b := Latest(was, p, intent), Latest(now, p, intent);
    if a.Some? { assert Of(now[a.value], p, intent); }
    if b.Some? { assert Of(was[b.value], p, intent); }
  }

  lemma AbandonedStays(w: World, w': World, k: nat, q: nat, o: nat, p: nat, intent: Intent)
    requires Abandoned(w, o, p, intent) && q != p && k < |w.orders| && w.orders[k].pid == q
    requires LeavesAlone(w, w', k, q, w.orders)
    ensures Abandoned(w', o, p, intent)
  {
    hide Latest;
    assert RowsOf(w'.orders, k, q, w.orders);
    LatestOthers(w.orders, w'.orders, p, intent);
  }

  lemma {:induction false} LoopKeepsAbandoned(w: World, env: Env, snapshot: seq<Order>, k: nat, o: nat, p: nat, intent: Intent)
    requires Inv(w) && Ahead(w, snapshot, k) && Abandoned(w, o, p, intent)
    ensures Abandoned(Run(w, SyncFrom(w, env, snapshot, k).ws), o, p, intent)
    decreases |snapshot| - k
  {
    hide SyncOne, Inv, Run, Apply, Permitted, Abandoned, LeavesAlone;
    RunNothing(w);
    if k < |snapshot| {
      LoopUnfolds(w, env, snapshot, k);
      LoopStepDoes(w, env, snapshot, k);
      var w1 := Run(w, LoopStep(w, env, snapshot, k).ws);
      if InFlight(snapshot[k]) {
        AbandonedHasNone(w, o, p, intent, k);
        AbandonedStays(w, w1, k, w.orders[k].pid, o, p, intent);
      }
      if !LoopStep(w, env, snapshot, k).raised { LoopKeepsAbandoned(w1, env, snapshot, k + 1, o, p, intent); }
    }
  }

  lemma AbandonedHasNone(w: World, o: nat, p: nat, intent: Intent, k: nat)
    requires Abandoned(w, o, p, intent) && k < |w.orders| && InFlight(w.orders[k])
    ensures w.orders[k].pid != p
  {
  }

  lemma {:induction false} LoopAbandons(w: World, env: Env, snapshot: seq<Order>, o: nat, j: nat)
    requires Inv(w) && Ahead(w, snapshot, o) && o <= j < |snapshot| && GivenUp(w, env, snapshot[j])
    requires !SyncFrom(w, env, snapshot, o).raised
    ensures Abandoned(Run(w, SyncFrom(w, env, snapshot, o).ws), j, snapshot[j].pid, snapshot[j].intent)
    decreases |snapshot| - o
  {
    hide LoopStep, Inv, Run, Apply, Permitted, SyncOne, Abandoned;
    var w1 := Run(w, LoopStep(w, env, snapshot, o).ws);
    LoopUnfolds(w, env, snapshot, o);
    LoopStepDoes(w, env, snapshot, o);
    if o < j {
      assert w.orders[j].key !in w.broker ==> w.orders[j].key !in w1.broker;
      LoopAbandons(w1, env, snapshot, o + 1, j);
    } else {
      LoopStepIs(w, env, snapshot, o);
      VoidStep(w, env, o);
      LoopKeepsAbandoned(w1, env, snapshot, o + 1, j, snapshot[j].pid, snapshot[j].intent);
    }
  }

  lemma AbandonedSweeps(w: World, w': World, q: nat, o: nat, p: nat, intent: Intent)
    requires Abandoned(w, o, p, intent) && q < |w.positions| && q != p && Resolves(w, w', q)
    ensures Abandoned(w', o, p, intent)
  {
    hide Latest;
    forall j | 0 <= j < |w.orders| ensures w.orders[j] == w'.orders[j] || (w.orders[j].pid != p && w'.orders[j].pid != p) {
      assert SameOrder(w.orders[j], w'.orders[j]);
    }
    LatestOthers(w.orders, w'.orders, p, intent);
  }

  // The sweep's turn at the abandoned position.
  lemma SweepSettlesOne(w: World, env: Env, inFlight: set<nat>, o: nat, p: nat, intent: Intent)
    requires Abandoned(w, o, p, intent) && p !in inFlight
    ensures SettledAs(Run(w, SweepOne(w, env, inFlight, p)), p, DeadEnd(intent))
  {
    hide Run, OnDead, OnFill, Latest;
    OnDeadRuns(w, o, w.orders[o].status);
  }

  lemma {:induction false} SweepSettles(w: World, env: Env, inFlight: set<nat>, q: nat, n: nat, o: nat, p: nat, intent: Intent)
    requires Inv(w) && q <= p < n == |w.positions| && InFlightPids(w.orders) <= inFlight
    requires forall r :: q <= r < n && r in inFlight ==> HasInFlight(w.orders, r)
    requires Abandoned(w, o, p, intent)
    ensures SettledAs(Run(w, SweepFrom(w, env, inFlight, q, n)), p, DeadEnd(intent))
    decreases n - q
  {
    hide Inv, Permitted, Run, Apply, Recovered, InFlightPids, SweepOne, Resolves;
    var ws := SweepOne(w, env, inFlight, q);
    var w1 := Run(w, ws);
    SweepOneDoes(w, env, inFlight, q);
    RunKeepsInv(w, ws);
    ResolvesKeepsInFlight(w, w1, q, inFlight);
    RunConcat(w, ws, SweepFrom(w1, env, inFlight, q + 1, n));
    ResolvesSize(w, w1, q);
    if q < p {
      AbandonedSweeps(w, w1, q, o, p, intent);
      SweepSettles(w1, env, inFlight, q + 1, n, o, p, intent);
    } else {
      SweepSettlesOne(w, env, inFlight, o, p, intent);
      SweepKeepsSettled(w1, env, inFlight, q + 1, n, p, DeadEnd(intent));
    }
  }

  lemma ResolvesSize(w: World, w': World, pid: nat)
    requires pid < |w.positions| && Resolves(w, w', pid)
    ensures |w'.positions| == |w.positions|
  {
  }

  // After a sync that returns, an order given up as unconfirmed is dead and its position has failed or
  // reopened, whether or not the broker held the order.
  lemma SyncAbandons(w: World, env: Env, j: nat)
    requires Inv(w) && j < |w.orders| && GivenUp(w, env, w.orders[j]) && !Sync(w, env).raised
    ensures var w' := Run(w, Sync(w, env).ws);
            j < |w'.orders| && Dead(w'.orders[j]) && SettledAs(w', w.orders[j].pid, DeadEnd(w.orders[j].intent))
  {
    hide Inv, Permitted, Run, Apply, InFlightPids, Recovered, SettledAs;
    var loop := SyncFrom(w, env, w.orders, 0);
    SyncFromPermitted(w, env, w.orders, 0);
    LoopAbandons(w, env, w.orders, 0, j);
    var w1 := Run(w, loop.ws);
    RunKeepsInv(w, loop.ws);
    var inFlight := InFlightPids(w1.orders);
    AllInFlightPids(w1.orders);
    var sweep := SweepFrom(w1, env, inFlight, 0, |w1.positions|);
    SweepFromDoes(w1, env, inFlight, 0, |w1.positions|);
    DeadForever(w1, sweep, j);
    SweepSettles(w1, env, inFlight, 0, |w1.positions|, j, w.orders[j].pid, w.orders[j].intent);
    RunConcat(w, loop.ws, sweep);
  }

  // ----- what the broker does afterwards leaves dead rows alone

  lemma MoveKeepsDead(w: World, act: Act, j: nat)
    requires Enabled(w, act.step) && (act.step.BrokerFills? || act.step.BrokerEnds?)
    requires j < |w.orders| && Released(w.orders[j], w.broker)
    ensures RowFill(w.orders[j], Run(w, Done(w, act)).broker) == RowFill(w.orders[j], w.broker)
    ensures Released(w.orders[j], Run(w, Done(w, act)).broker)
  {
    hide Apply, Run, RowFill, Released, MayTrade, MayLapse;
    var x := StepWrites(w, act.step)[0];
    RunNothing(w);
    Run1(w, x);
    assert Done(w, act) == [] || Done(w, act) == [x];
    ApplyKeepsDead(w, x, j);
  }

  lemma ApplyKeepsDead(w: World, x: Write, j: nat)
    requires Allowed(w, x) && (x.Trade? || x.Lapse?) && j < |w.orders| && Released(w.orders[j], w.broker)
    ensures RowFill(w.orders[j], Apply(w, x).broker) == RowFill(w.orders[j], w.broker)
    ensures Released(w.orders[j], Apply(w, x).broker)
  {
    hide AddSpreads;
  }

  ghost predicate BrokerOnlyMoves(acts: seq<Act>) {
    forall i :: 0 <= i < |acts| ==> acts[i].step.BrokerFills? || acts[i].step.BrokerEnds?
  }

  // Fills and endings at the broker touch no table.
  lemma {:induction false} BrokerMovesKeepTables(w: World, acts: seq<Act>)
    requires BrokerOnlyMoves(acts)
    ensures After(w, acts).orders == w.orders && After(w, acts).positions == w.positions
    decreases acts
  {
    if acts != [] {
      BrokerMoveKeepsTables(w, acts[0]);
      assert forall i :: 0 <= i < |acts[1..]| ==> acts[1..][i] == acts[i + 1];
      BrokerMovesKeepTables(Run(w, Done(w, acts[0])), acts[1..]);
    }
  }

  lemma BrokerMoveKeepsTables(w: World, act: Act)
    requires act.step.BrokerFills? || act.step.BrokerEnds?
    ensures Run(w, Done(w, act)).orders == w.orders && Run(w, Done(w, act)).positions == w.positions
  {
    var x := StepWrites(w, act.step)[0];
    RunNothing(w);
    Run1(w, x);
    assert Done(w, act) == [] || Done(w, act) == [x];
    assert Apply(w, x).orders == w.orders && Apply(w, x).positions == w.positions by { hide Run, Done; }
  }

  // What a released order had filled, it has filled for good.
  lemma {:induction false} MovesKeepDead(w: World, moves: seq<Act>, j: nat)
    requires BrokerOnlyMoves(moves) && ValidRun(w, moves)
    requires j < |w.orders| && Released(w.orders[j], w.broker)
    ensures RowFill(w.orders[j], After(w, moves).broker) == RowFill(w.orders[j], w.broker)
    ensures Released(w.orders[j], After(w, moves).broker)
    decreases moves
  {
    hide Enabled, Done, Run, RowFill, Released;
    if moves != [] {
      MoveKeepsDead(w, moves[0], j);
      BrokerMoveKeepsTables(w, moves[0]);
      assert forall i :: 0 <= i < |moves[1..]| ==> moves[1..][i] == moves[i + 1];
      MovesKeepDead(Run(w, Done(w, moves[0])), moves[1..], j);
    }
  }

  lemma AfterMoves(w: World, moves: seq<Act>)
    requires Inv(w) && Cust(w) && BrokerOnlyMoves(moves) && ValidRun(w, moves)
    ensures Inv(After(w, moves)) && Cust(After(w, moves))
    ensures After(w, moves).orders == w.orders && After(w, moves).positions == w.positions
  {
    hide Inv, Cust, ValidRun, After;
    BrokerMovesKeepTables(w, moves);
    ReachableCust(w, moves);
  }

  // ----- from a buried world through one sync and any broker moves

  // Whatever has fallen in w2 was in flight in w, and nothing live in w2 was finished in w.
  ghost predicate Recent(w: World, w2: World) {
    && InheritsPositions(w.positions, w2.positions)
    && forall j :: Fallen(w2, j) ==> j < |w.orders| && InFlight(w.orders[j]) && SameOrder(w.orders[j], w2.orders[j])
  }

  lemma FallenIsRecent(w: World, w1: World, w2: World, j: nat)
    requires Tidy(w) && Inherits(w, w1) && w2.orders == w1.orders
    requires j < |w1.orders| && Dead(w1.orders[j]) && RowFill(w1.orders[j], w2.broker) == RowFill(w1.orders[j], w1.broker)
    ensures Fallen(w2, j) ==> j < |w.orders| && InFlight(w.orders[j]) && SameOrder(w.orders[j], w2.orders[j])
  {
  }

  lemma RecentAfter(w: World, w1: World, moves: seq<Act>)
    requires Tidy(w) && Inherits(w, w1) && Inv(w1) && Cust(w1) && ReleasedBut(w1, FlightKeys(w))
    requires BrokerOnlyMoves(moves) && ValidRun(w1, moves)
    ensures Recent(w, After(w1, moves))
  {
    hide Inv, Cust, Tidy, InheritsPositions, InheritsOrders, InheritsBroker, ValidRun, BrokerOnlyMoves, RowFill, FlightKeys,
      Released;
    var w2 := After(w1, moves);
    AfterMoves(w1, moves);
    AllKeysDiffer(w1);
    forall j | Fallen(w2, j) ensures j < |w.orders| && InFlight(w.orders[j]) && SameOrder(w.orders[j], w2.orders[j]) {
      if w1.orders[j].key in FlightKeys(w) {
        FlightRow(w, w1, j);
      } else {
        MovesKeepDead(w1, moves, j);
        FallenIsRecent(w, w1, w2, j);
      }
    }
  }

  lemma FlightRow(w: World, w1: World, j: nat)
    requires Inherits(w, w1) && KeysDiffer(w1.orders) && j < |w1.orders| && w1.orders[j].key in FlightKeys(w)
    ensures j < |w.orders| && InFlight(w.orders[j]) && SameOrder(w.orders[j], w1.orders[j])
  {
    hide InheritsPositions, InheritsBroker;
    var o :| 0 <= o < |w.orders| && InFlight(w.orders[o]) && w.orders[o].key == w1.orders[j].key;
    assert SameOrder(w.orders[o], w1.orders[o]);
  }

  // ----- one position's stray spreads

  lemma {:induction false} DeadFillsOf(orders: seq<Order>, broker: map<OrderKey, Ticket>, pid: nat, intent: Intent, j: nat)
    requires forall i :: 0 <= i < |orders| && i != j && orders[i].pid == pid && Dead(orders[i]) ==>
               RowFill(orders[i], broker).n == 0
    ensures DeadFills(orders, broker, pid, intent).n ==
            if j < |orders| && Of(orders[j], pid, intent) && Dead(orders[j]) then RowFill(orders[j], broker).n else 0
  {
    hide RowFill;
    if orders != [] {
      var n := |orders| - 1;
      var before := orders[..n];
      assert forall i :: 0 <= i < n ==> before[i] == orders[i];
      DeadFillsOf(before, broker, pid, intent, j);
    }
  }

  lemma RecentTrade(w: World, w2: World, p: nat)
    requires Recent(w, w2) && p < |w.positions|
    ensures p < |w2.positions| && w2.positions[p].structure == w.positions[p].structure
  {
  }

  // At most one order of a position has fallen, and it alone makes the stray count.
  lemma OneFallen(w: World, w2: World, i: nat, j: nat)
    requires Inv(w) && Recent(w, w2) && Fallen(w2, i) && Fallen(w2, j) && w2.orders[i].pid == w2.orders[j].pid
    ensures i == j
  {
    hide Inv;
    OneInFlight(w, i, j);
  }

  lemma FallenIsPart(w2: World, j: nat)
    requires Inv(w2) && Cust(w2) && Fallen(w2, j)
    ensures w2.orders[j].pid < |w2.positions|
    ensures var n, qty := RowFill(w2.orders[j], w2.broker).n, w2.positions[w2.orders[j].pid].qty;
            n <= qty && (Released(w2.orders[j], w2.broker) ==> n < qty)
  {
    hide Inv, HoldingsAgree, CashAgrees, AllTruthful;
    TicketsFitOf(w2, j);
    assert TicketSound(w2.broker[w2.orders[j].key]);
  }

  lemma StrayOfFallen(w: World, w2: World, j: nat)
    requires Inv(w) && Inv(w2) && Cust(w2) && Recent(w, w2) && Fallen(w2, j)
    ensures var p, n := w2.orders[j].pid, RowFill(w2.orders[j], w2.broker).n;
            p < |w2.positions| && 0 < n <= w2.positions[p].qty
            && (Released(w2.orders[j], w2.broker) ==> n < w2.positions[p].qty)
            && Stray(w2, p) == if w2.orders[j].intent.ToOpen? then n else -(n as int)
  {
    hide Inv, HoldingsAgree, CashAgrees, Recent, AllTruthful;
    var p := w2.orders[j].pid;
    FallenIsPart(w2, j);
    forall i | 0 <= i < |w2.orders| && i != j && w2.orders[i].pid == p && Dead(w2.orders[i])
      ensures RowFill(w2.orders[i], w2.broker).n == 0
    {
      if Fallen(w2, i) { OneFallen(w, w2, i, j); }
    }
    DeadFillsOf(w2.orders, w2.broker, p, ToOpen, j);
    DeadFillsOf(w2.orders, w2.broker, p, ToClose, j);
  }

  lemma NoStray(w2: World, p: nat)
    requires Cust(w2) && !Fell(w2, p)
    ensures Stray(w2, p) == 0
  {
    forall i | 0 <= i < |w2.orders| && w2.orders[i].pid == p && Dead(w2.orders[i])
      ensures RowFill(w2.orders[i], w2.broker).n == 0
    {
      assert !Fallen(w2, i);
    }
    DeadFillsOf(w2.orders, w2.broker, p, ToOpen, |w2.orders|);
    DeadFillsOf(w2.orders, w2.broker, p, ToClose, |w2.orders|);
  }

  // Something of the position, at most all of it, is astray exactly where an order fell.
  lemma StrayExactly(w: World, w2: World, p: nat)
    requires Inv(w) && Inv(w2) && Cust(w2) && Recent(w, w2) && p < |w2.positions|
    ensures Stray(w2, p) != 0 <==> Fell(w2, p)
    ensures -Stray(w2, p) <= w2.positions[p].qty && Stray(w2, p) <= w2.positions[p].qty
  {
    hide Inv, Cust, Stray, Recent, RowFill, Released;
    SoundAt(w2, p);
    if j :| Fallen(w2, j) && w2.orders[j].pid == p {
      StrayOfFallen(w, w2, j);
    } else {
      NoStray(w2, p);
    }
  }

  // A position that counts in w2 was live in w.
  lemma CountsWasLive(w: World, w2: World, p: nat)
    requires Inv(w) && Inv(w2) && Cust(w2) && Recent(w, w2) && p < |w2.positions| && Counts(w2, p)
    ensures p < |w.positions| && Live(w.positions[p].status)
    ensures w.positions[p].structure == w2.positions[p].structure
  {
    hide Inv, Cust, Stray;
    if !Live(w2.positions[p].status) {
      StrayExactly(w, w2, p);
      var j :| Fallen(w2, j) && w2.orders[j].pid == p;
      RowFits(w, j);
    }
  }

  lemma StraysAreApart(w: World, w2: World)
    requires Inv(w) && Inv(w2) && Cust(w2) && Recent(w, w2)
    ensures StraysApart(w2)
  {
    hide Inv, Cust, Stray, Recent;
    forall p, q | 0 <= p < |w2.positions| && 0 <= q < |w2.positions| && p != q && Stray(w2, p) != 0 && Counts(w2, q)
      ensures Symbols(w2.positions[p].structure.legs) !! Symbols(w2.positions[q].structure.legs)
    {
      CountsWasLive(w, w2, p);
      CountsWasLive(w, w2, q);
      LiveApart(w, p, q);
    }
  }

  // ----- how a position can fail to agree after a sync that returned

  // Written as opening, with no entry order ever recorded.
  ghost predicate NeverOrdered(w: World, p: nat)
    requires p < |w.positions|
  {
    w.positions[p].status.Opening? && Latest(w.orders, p, ToOpen).None?
  }

  // Resolved as if its order had filled nothing.
  ghost predicate Lost(w: World, p: nat)
    requires p < |w.positions|
  {
    Stray(w, p) != 0 && !AtWork(w, p)
  }

  // An order withdrawn partly filled and replaced at full size, and the two together past the size.
  ghost predicate Overfilled(w: World, p: nat)
    requires p < |w.positions|
  {
    AtWork(w, p) && !(0 <= Net(w, p) <= w.positions[p].qty)
  }

  ghost predicate Astray(w: World, p: nat)
    requires p < |w.positions|
  {
    NeverOrdered(w, p) || Lost(w, p) || Overfilled(w, p)
  }

  lemma HasInFlightIsTransit(w: World, p: nat)
    requires Inv(w) && p < |w.positions| && HasInFlight(w.orders, p)
    ensures w.positions[p].status.Opening? ==> Transit(w.orders, p, ToOpen)
    ensures w.positions[p].status.Closing? ==> Transit(w.orders, p, ToClose)
  {
    var o :| 0 <= o < |w.orders| && w.orders[o].pid == p && InFlight(w.orders[o]);
    RowFits(w, o);
    hide Inv;
    assert Of(w.orders[o], p, w.orders[o].intent);
  }

  lemma RecoveredResolves(w: World, p: nat)
    requires Inv(w) && p < |w.positions| && Recovered(w, p)
    ensures Unresolved(w.orders, p, w.positions[p]) <==> NeverOrdered(w, p)
  {
    if HasInFlight(w.orders, p) { HasInFlightIsTransit(w, p); }
    hide Inv;
    if Transit(w.orders, p, ToOpen) {
      var o :| 0 <= o < |w.orders| && InFlight(w.orders[o]) && Of(w.orders[o], p, ToOpen);
      assert Latest(w.orders, p, ToOpen).Some?;
    }
  }

  lemma NoRowsNoFills(w: World, p: nat)
    requires forall o :: 0 <= o < |w.orders| ==> w.orders[o].pid != p
    ensures Net(w, p) == 0 && Stray(w, p) == 0
  {
    hide Fills, DeadFills, RowFill;
    FillsNone(w.orders, w.broker, p, ToOpen);
    FillsNone(w.orders, w.broker, p, ToClose);
    DeadFillsOf(w.orders, w.broker, p, ToOpen, |w.orders|);
    DeadFillsOf(w.orders, w.broker, p, ToClose, |w.orders|);
  }

  lemma NeverOrderedHoldsNone(w: World, p: nat)
    requires Inv(w) && p < |w.positions| && NeverOrdered(w, p)
    ensures Net(w, p) == 0 && Stray(w, p) == 0 && !AtWork(w, p)
  {
    hide Inv, Backed, FillPrice, Net, Stray;
    StatusSays(w, p);
    OfEither(w.orders, p);
    NoRowsNoFills(w, p);
  }

  lemma OfEither(orders: seq<Order>, p: nat)
    ensures forall o :: 0 <= o < |orders| && orders[o].pid == p ==> Of(orders[o], p, ToOpen) || Of(orders[o], p, ToClose)
  {
  }

  lemma FitsUnlessAstray(w: World, p: nat)
    requires Inv(w) && Cust(w) && p < |w.positions| && Recovered(w, p)
    ensures Fits(w, p) <==> !Astray(w, p)
  {
    hide Inv, Cust, Recovered, Net, Stray, Regular, Tidy, Transit, Unresolved, Latest;
    SoundAt(w, p);
    NetByStatus(w, p);
    RecoveredResolves(w, p);
    if NeverOrdered(w, p) { NeverOrderedHoldsNone(w, p); }
  }

  // What a lost order leaves shows on every leg of its position: a failed entry's spreads as
  // broker-only, a reopened close's difference as a mismatch, or as local-only if nothing is left.
  lemma LostIsReported(w: World, p: nat, x: string)
    requires Inv(w) && Cust(w) && StraysApart(w) && p < |w.positions| && Recovered(w, p)
    requires Lost(w, p) && x in Symbols(w.positions[p].structure.legs)
    ensures Judged(w.orders, w.positions, x, Held(w.holdings, x))
            == if !Live(w.positions[p].status) then BrokerOnly else if Net(w, p) == 0 then LocalOnly else Mismatched
  {
    hide Inv, Cust, Recovered, Net, Stray, Regular, Tidy, Transit, Unresolved, Latest, Judged, StraysApart, Loose;
    if NeverOrdered(w, p) { NeverOrderedHoldsNone(w, p); }
    NetByStatus(w, p);
    RecoveredResolves(w, p);
    PositionJudged(w, p, x);
    if Live(w.positions[p].status) {
      HeldMismatched(w, p, x);
    } else {
      forall q | 0 <= q < |w.positions| ensures !Uses(w, q, x) {
        if Uses(w, q, x) { CountsApart(w, p, q); }
      }
      NobodysSymbol(w, x);
    }
  }

  // For an order a sync left dead with its position failed or reopened, the position is lost exactly if
  // the order has filled anything, and what it has filled is the difference.
  lemma EndedDecides(w: World, w2: World, j: nat)
    requires Inv(w) && Inv(w2) && Cust(w2) && Recent(w, w2) && j < |w.orders| && j < |w2.orders| && InFlight(w.orders[j])
    requires Dead(w2.orders[j]) && SameOrder(w.orders[j], w2.orders[j])
    requires SettledAs(w2, w.orders[j].pid, DeadEnd(w.orders[j].intent))
    ensures var p, n := w.orders[j].pid, RowFill(w2.orders[j], w2.broker).n;
      && (Lost(w2, p) <==> n > 0) && !AtWork(w2, p)
      && Stray(w2, p) == (if w.orders[j].intent.ToOpen? then n else -(n as int))
      && n <= w2.positions[p].qty && (n > 0 && Released(w2.orders[j], w2.broker) ==> n < w2.positions[p].qty)
  {
    hide Inv, Cust, RowFill, Transit, Stray, Released;
    var p := w.orders[j].pid;
    if RowFill(w2.orders[j], w2.broker).n > 0 {
      assert Fallen(w2, j);
      StrayOfFallen(w, w2, j);
    } else {
      if i :| Fallen(w2, i) && w2.orders[i].pid == p {
        OneInFlight(w, i, j);
      }
      NoStray(w2, p);
    }
  }

  lemma HeldMismatched(w: World, p: nat, x: string)
    requires Inv(w) && Cust(w) && StraysApart(w) && p < |w.positions| && Uses(w, p, x) && !AtWork(w, p)
    requires Net(w, p) != w.positions[p].qty
    ensures Judged(w.orders, w.positions, x, Held(w.holdings, x)) == if Net(w, p) == 0 then LocalOnly else Mismatched
  {
    hide Inv, Net, Stray, Regular, Loose, StraysApart, Transit, AllTruthful, TicketsSound, CashAgrees, Total;
    forall q | 0 <= q < |w.positions| && q != p ensures !Uses(w, q, x) {
      if Uses(w, q, x) { OneOwner(w, q, p, x); }
    }
    SumsToOwner(w, x, |w.positions|, p);
    HeldOfOwner(w, p, x);
    var legs, qty := w.positions[p].structure.legs, w.positions[p].qty;
    SoundAt(w, p);
    LegBand(legs, x, Net(w, p), qty);
    LegBand(legs, x, Net(w, p), 0);
    LegBand(legs, x, qty, 0);
    LegQtyZero(legs, x);
  }

  // What the broker holds of a position's own contract, left-overs of others apart.
  lemma HeldOfOwner(w: World, p: nat, x: string)
    requires Inv(w) && Cust(w) && StraysApart(w) && p < |w.positions| && Uses(w, p, x)
    ensures Held(w.holdings, x) == LegQty(w.positions[p].structure.legs, x, Net(w, p))
  {
    hide Inv, Net, Stray, Regular, Loose, Total, Symbols;
    forall q | 0 <= q < |w.positions| && q != p ensures !Uses(w, q, x) {
      if Uses(w, q, x) { OneOwner(w, p, q, x); }
    }
    SumsToOwner(w, x, |w.positions|, p);
    assert Held(w.holdings, x) == Total(w, x, |w.positions|);
    LooseToOwner(w, x, |w.positions|, p);
    NetSplits(w, p);
    LegQtyAdd(w.positions[p].structure.legs, x, Regular(w, p), Stray(w, p));
  }
}
