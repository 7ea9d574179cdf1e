/**
 What the broker actually holds, against what the tables imply. Contract counts
 and cash are tied to the fills of every order each position ever had, those that
 ended partly filled included.
 */
module Custody {
  import opened Arithmetic
  import opened Wrappers
  import opened Structures
  import opened World
  import opened Ladder
  import opened Protocol
  import opened Lifecycle
  import opened LifecycleProofs

  // ----- tickets and the rows that stand for them

  ghost predicate TicketSound(t: Ticket) {
    && t.qty >= 1 && t.filled <= t.qty
    && (t.state.Complete? <==> t.filled == t.qty)
    && (t.filled == 0 ==> t.paid == 0.0)
    && t.paid <= t.filled as real * (t.limit as real / 100.0)
  }

  // A row in flight or filled tells the truth about the broker's ticket.
  ghost predicate Truthful(row: Order, broker: map<OrderKey, Ticket>) {
    match row.status
    case Pending => true
    case Submitted => row.key in broker
    case Filled => row.key in broker && broker[row.key].state.Complete? && row.filledPrice == Some(Average(broker[row.key]))
    case _ => true
  }

  // A dead row's order is at the broker no more. Giving up an order the broker holds breaks this.
  ghost predicate Released(row: Order, broker: map<OrderKey, Ticket>) {
    row.key in broker ==> broker[row.key].state.Gone?
  }

  ghost predicate ReleasedBut(w: World, spared: iset<OrderKey>) {
    forall o :: 0 <= o < |w.orders| && Dead(w.orders[o]) && w.orders[o].key !in spared ==>
      Released(w.orders[o], w.broker)
  }

  ghost predicate AllReleased(w: World) { ReleasedBut(w, iset{}) }

  ghost const ALL_KEYS := iset k: OrderKey | true

  // Truthful, and unless spared also released when dead.
  ghost predicate Candid(row: Order, broker: map<OrderKey, Ticket>, spared: iset<OrderKey>) {
    Truthful(row, broker) && (Dead(row) && row.key !in spared ==> Released(row, broker))
  }

  ghost predicate AllTruthful(w: World) {
    forall o :: 0 <= o < |w.orders| ==> Truthful(w.orders[o], w.broker)
  }

  ghost predicate TicketsSound(broker: map<OrderKey, Ticket>) {
    forall k :: k in broker ==> TicketSound(broker[k])
  }

  // ----- per position

  // What has executed: spreads, and dollars per share summed over them.
  datatype Fill = Fill(n: nat, paid: real)

  const NOTHING := Fill(0, 0.0)

  function Plus(a: Fill, b: Fill): Fill { Fill(a.n + b.n, a.paid + b.paid) }

  function RowFill(row: Order, broker: map<OrderKey, Ticket>): Fill {
    if row.key in broker then Fill(broker[row.key].filled, broker[row.key].paid) else NOTHING
  }

  // Over every order the position ever had of this intent, whatever became of it.
  function Fills(orders: seq<Order>, broker: map<OrderKey, Ticket>, pid: nat, intent: Intent): Fill {
    if orders == [] then NOTHING
    else
      var last := orders[|orders| - 1];
      Plus(Fills(orders[..|orders| - 1], broker, pid, intent),
           if Of(last, pid, intent) then RowFill(last, broker) else NOTHING)
  }

  function FilledOf(orders: seq<Order>, broker: map<OrderKey, Ticket>, pid: nat, intent: Intent): nat {
    Fills(orders, broker, pid, intent).n
  }

  function PaidOf(orders: seq<Order>, broker: map<OrderKey, Ticket>, pid: nat, intent: Intent): real {
    Fills(orders, broker, pid, intent).paid
  }

  // Spreads of the position the broker holds for us now.
  function Net(w: World, p: nat): int {
    FilledOf(w.orders, w.broker, p, ToOpen) - FilledOf(w.orders, w.broker, p, ToClose)
  }

  function Spent(w: World, p: nat): real {
    PaidOf(w.orders, w.broker, p, ToOpen) + PaidOf(w.orders, w.broker, p, ToClose)
  }

  function Total(w: World, x: string, n: nat): int
    requires n <= |w.positions|
  {
    if n == 0 then 0 else Total(w, x, n - 1) + LegQty(w.positions[n - 1].structure.legs, x, Net(w, n - 1))
  }

  function TotalSpent(w: World, n: nat): real {
    if n == 0 then 0.0 else TotalSpent(w, n - 1) + Spent(w, n - 1)
  }

  ghost predicate HoldingsAgree(w: World) {
    forall x :: Held(w.holdings, x) == Total(w, x, |w.positions|)
  }

  ghost predicate CashAgrees(w: World) {
    w.cash == -100.0 * TotalSpent(w, |w.positions|)
  }

  ghost predicate Cust(w: World) {
    AllTruthful(w) && TicketsSound(w.broker) && HoldingsAgree(w) && CashAgrees(w)
  }

  // ----- the extra honesty custody needs of a write

  ghost predicate Honest(w: World, x: Write, spared: iset<OrderKey>) {
    x.SetOrder? && x.o < |w.orders| && !(Dead(w.orders[x.o]) && Dead(x.order)) ==> Candid(x.order, w.broker, spared)
  }

  // ----- sums

  lemma {:induction false} TotalSame(w: World, w': World, x: string, n: nat)
    requires n <= |w.positions| && n <= |w'.positions|
    requires forall p :: 0 <= p < n ==> w.positions[p].structure == w'.positions[p].structure && Net(w, p) == Net(w', p)
    ensures Total(w, x, n) == Total(w', x, n)
  {
    if n > 0 { TotalSame(w, w', x, n - 1); }
  }

  lemma {:induction false} SpentSame(w: World, w': World, n: nat)
    requires forall p :: 0 <= p < n ==> Spent(w, p) == Spent(w', p)
    ensures TotalSpent(w, n) == TotalSpent(w', n)
  {
    if n > 0 { SpentSame(w, w', n - 1); }
  }

  lemma {:induction false} TotalBump(w: World, w': World, x: string, n: nat, q: nat, d: int)
    requires n <= |w.positions| && w'.positions == w.positions
    requires forall p :: 0 <= p < n && p != q ==> Net(w, p) == Net(w', p)
    requires q < n ==> LegQty(w.positions[q].structure.legs, x, Net(w', q))
                       == LegQty(w.positions[q].structure.legs, x, Net(w, q)) + d
    ensures Total(w', x, n) == Total(w, x, n) + (if q < n then d else 0)
  {
    if n > 0 { TotalBump(w, w', x, n - 1, q, d); }
  }

  lemma {:induction false} SpentBump(w: World, w': World, n: nat, q: nat, d: real)
    requires forall p :: 0 <= p < n && p != q ==> Spent(w, p) == Spent(w', p)
    requires q < n ==> Spent(w', q) == Spent(w, q) + d
    ensures TotalSpent(w', n) == TotalSpent(w, n) + (if q < n then d else 0.0)
  {
    if n > 0 { SpentBump(w, w', n - 1, q, d); }
  }

  lemma SignedAdd(leg: Leg, a: int, b: int)
    ensures Signed(leg, a + b) == Signed(leg, a) + Signed(leg, b)
  {
    assert leg.ratio * (a + b) == leg.ratio * a + leg.ratio * b;
  }

  lemma {:induction false} LegQtyAdd(legs: seq<Leg>, x: string, a: int, b: int)
    ensures LegQty(legs, x, a + b) == LegQty(legs, x, a) + LegQty(legs, x, b)
  {
    if legs != [] {
      SignedAdd(legs[0], a, b);
      LegQtyAdd(legs[1..], x, a, b);
    }
  }

  // Of a contract that one leg trades, n spreads hold its ratio each, more when long and less when short.
  lemma {:induction false} LegQtyOf(legs: seq<Leg>, i: nat, n: int)
    requires OneEach(legs) && i < |legs|
    ensures LegQty(legs, legs[i].symbol, n) == if legs[i].side == Long then legs[i].ratio * n else -(legs[i].ratio * n)
  {
    var tail := legs[1..];
    if i > 0 {
      assert tail[i - 1] == legs[i] && legs[0].symbol != legs[i].symbol;
      LegQtyOf(tail, i - 1, n);
    } else {
      forall j | 0 <= j < |tail| ensures tail[j].symbol != legs[0].symbol { assert tail[j] == legs[j + 1]; }
      LegQtyNone(tail, legs[0].symbol, n);
    }
  }

  lemma {:induction false} LegQtyNone(legs: seq<Leg>, x: string, n: int)
    requires forall j :: 0 <= j < |legs| ==> legs[j].symbol != x
    ensures LegQty(legs, x, n) == 0
  {
    if legs != [] {
      forall j | 0 <= j < |legs[1..]| ensures legs[1..][j].symbol != x { assert legs[1..][j] == legs[j + 1]; }
      LegQtyNone(legs[1..], x, n);
    }
  }

  lemma LegQtyZero(legs: seq<Leg>, x: string)
    ensures LegQty(legs, x, 0) == 0
  {
    LegQtyAdd(legs, x, 0, 0);
  }

  lemma {:induction false} AddSpreadsHeld(m: map<string, int>, legs: seq<Leg>, n: int, x: string)
    ensures Held(AddSpreads(m, legs, n), x) == Held(m, x) + LegQty(legs, x, n)
    decreases legs
  {
    if legs != [] {
      AddSpreadsHeld(m[legs[0].symbol := Held(m, legs[0].symbol) + Signed(legs[0], n)], legs[1..], n, x);
    }
  }

  // ----- fills, row by row

  lemma {:induction false} FillsNone(orders: seq<Order>, broker: map<OrderKey, Ticket>, pid: nat, intent: Intent)
    requires forall o :: 0 <= o < |orders| ==> !Of(orders[o], pid, intent)
    ensures Fills(orders, broker, pid, intent) == NOTHING
  {
    if orders != [] { FillsNone(orders[..|orders| - 1], broker, pid, intent); }
  }

  lemma FillsAppend(orders: seq<Order>, row: Order, broker: map<OrderKey, Ticket>, pid: nat, intent: Intent)
    ensures Fills(orders + [row], broker, pid, intent) ==
            Plus(Fills(orders, broker, pid, intent), if Of(row, pid, intent) then RowFill(row, broker) else NOTHING)
  {
    assert (orders + [row])[..|orders|] == orders;
  }

  ghost predicate SameFill(a: Order, broker: map<OrderKey, Ticket>, b: Order, broker': map<OrderKey, Ticket>) {
    a.pid == b.pid && a.intent == b.intent && RowFill(a, broker) == RowFill(b, broker')
  }

  lemma {:induction false} FillsSame(orders: seq<Order>, broker: map<OrderKey, Ticket>,
                                     orders': seq<Order>, broker': map<OrderKey, Ticket>, pid: nat, intent: Intent)
    requires |orders| == |orders'| && forall o :: 0 <= o < |orders| ==> SameFill(orders[o], broker, orders'[o], broker')
    ensures Fills(orders, broker, pid, intent) == Fills(orders', broker', pid, intent)
  {
    if orders != [] {
      var n := |orders| - 1;
      assert SameFill(orders[n], broker, orders'[n], broker');
      FillsSame(orders[..n], broker, orders'[..n], broker', pid, intent);
    }
  }

  lemma {:induction false} FillsTraded(orders: seq<Order>, broker: map<OrderKey, Ticket>, key: OrderKey, n: nat, price: real,
                                       o: nat, pid: nat, intent: Intent)
    requires key in broker && forall i :: 0 <= i < |orders| ==> (orders[i].key == key <==> i == o)
    ensures Fills(orders, broker[key := Traded(broker[key], n, price)], pid, intent) ==
            Plus(Fills(orders, broker, pid, intent),
                 if o < |orders| && Of(orders[o], pid, intent) then Fill(n, n as real * price) else NOTHING)
  {
    if orders != [] { FillsTraded(orders[..|orders| - 1], broker, key, n, price, o, pid, intent); }
  }

  // ----- orders that ended, and the one that may still matter

  // Executed by orders whose rows are dead: nothing the lifecycle looks at again.
  function DeadFills(orders: seq<Order>, broker: map<OrderKey, Ticket>, pid: nat, intent: Intent): Fill {
    if orders == [] then NOTHING
    else
      var last := orders[|orders| - 1];
      Plus(DeadFills(orders[..|orders| - 1], broker, pid, intent),
           if Of(last, pid, intent) && Dead(last) then RowFill(last, broker) else NOTHING)
  }

  // Executed by the newest order, unless its row is dead.
  function LiveFill(orders: seq<Order>, broker: map<OrderKey, Ticket>, pid: nat, intent: Intent): Fill {
    var l := Latest(orders, pid, intent);
    if l.Some? && !Dead(orders[l.value]) then RowFill(orders[l.value], broker) else NOTHING
  }

  lemma FillsLast(orders: seq<Order>, broker: map<OrderKey, Ticket>, pid: nat, intent: Intent)
    ensures Fills(orders, broker, pid, intent) ==
            if orders == [] then NOTHING
            else
              var n := |orders| - 1;
              Plus(Fills(orders[..n], broker, pid, intent),
                   if Of(orders[n], pid, intent) then RowFill(orders[n], broker) else NOTHING)
  {
    hide RowFill;
  }

  lemma DeadFillsLast(orders: seq<Order>, broker: map<OrderKey, Ticket>, pid: nat, intent: Intent)
    ensures DeadFills(orders, broker, pid, intent) ==
            if orders == [] then NOTHING
            else
              var n := |orders| - 1;
              Plus(DeadFills(orders[..n], broker, pid, intent),
                   if Of(orders[n], pid, intent) && Dead(orders[n]) then RowFill(orders[n], broker) else NOTHING)
  {
    hide RowFill;
  }

  lemma NoLiveFill(broker: map<OrderKey, Ticket>, pid: nat, intent: Intent)
    ensures LiveFill([], broker, pid, intent) == NOTHING
  {
  }

  // A newer order of the same kind means every earlier one is dead.
  lemma LiveFillLast(cfg: Config, orders: seq<Order>, broker: map<OrderKey, Ticket>, pid: nat, intent: Intent)
    requires Superseded(cfg, orders) && orders != []
    ensures var n := |orders| - 1;
            var before := LiveFill(orders[..n], broker, pid, intent);
            if Of(orders[n], pid, intent) then
              before == NOTHING
              && LiveFill(orders, broker, pid, intent) == if Dead(orders[n]) then NOTHING else RowFill(orders[n], broker)
            else LiveFill(orders, broker, pid, intent) == before
  {
    hide RowFill;
    var n := |orders| - 1;
    LatestAppend(orders[..n], orders[n], pid, intent);
    assert orders[..n] + [orders[n]] == orders;
    var l := Latest(orders[..n], pid, intent);
    if Of(orders[n], pid, intent) && l.Some? {
      assert orders[..n][l.value] == orders[l.value];
      assert Supersedes(cfg, orders[l.value], orders[n]);
    }
  }

  lemma SupersededBefore(cfg: Config, orders: seq<Order>, n: nat)
    requires Superseded(cfg, orders) && n <= |orders|
    ensures Superseded(cfg, orders[..n])
  {
    hide Supersedes;
  }

  lemma {:induction false} FillsSplit(cfg: Config, orders: seq<Order>, broker: map<OrderKey, Ticket>, pid: nat, intent: Intent)
    requires Superseded(cfg, orders)
    ensures Fills(orders, broker, pid, intent)
            == Plus(LiveFill(orders, broker, pid, intent), DeadFills(orders, broker, pid, intent))
  {
    hide RowFill, Superseded, Latest, Dead, Fills, LiveFill, DeadFills;
    FillsLast(orders, broker, pid, intent);
    DeadFillsLast(orders, broker, pid, intent);
    if orders != [] {
      var n := |orders| - 1;
      SupersededBefore(cfg, orders, n);
      FillsSplit(cfg, orders[..n], broker, pid, intent);
      LiveFillLast(cfg, orders, broker, pid, intent);
    } else {
      NoLiveFill(broker, pid, intent);
    }
  }

  // Spreads the position's current orders account for, and spreads left over by ended ones.
  function Regular(w: World, p: nat): int {
    LiveFill(w.orders, w.broker, p, ToOpen).n - LiveFill(w.orders, w.broker, p, ToClose).n
  }

  function Stray(w: World, p: nat): int {
    DeadFills(w.orders, w.broker, p, ToOpen).n - DeadFills(w.orders, w.broker, p, ToClose).n
  }

  lemma NetSplits(w: World, p: nat)
    requires Inv(w)
    ensures Net(w, p) == Regular(w, p) + Stray(w, p)
  {
    FillsSplit(w.cfg, w.orders, w.broker, p, ToOpen);
    FillsSplit(w.cfg, w.orders, w.broker, p, ToClose);
  }

  // No order that ended had begun to fill.
  ghost predicate Tidy(w: World) {
    forall o :: 0 <= o < |w.orders| && Dead(w.orders[o]) ==> RowFill(w.orders[o], w.broker).n == 0
  }

  // No dead row has fills, nor an order at the broker that could still bring some.
  ghost predicate Buried(w: World) { Tidy(w) && AllReleased(w) }

  lemma {:induction false} TidyFills(orders: seq<Order>, broker: map<OrderKey, Ticket>, pid: nat, intent: Intent)
    requires TicketsSound(broker)
    requires forall o :: 0 <= o < |orders| && Dead(orders[o]) ==> RowFill(orders[o], broker).n == 0
    ensures DeadFills(orders, broker, pid, intent) == NOTHING
  {
    hide RowFill, TicketsSound, DeadFills, Dead;
    DeadFillsLast(orders, broker, pid, intent);
    if orders != [] {
      var n := |orders| - 1;
      var before := orders[..n];
      assert forall o :: 0 <= o < n ==> before[o] == orders[o];
      TidyFills(before, broker, pid, intent);
      if Dead(orders[n]) { UnfilledPaid(orders[n], broker); }
    }
  }

  lemma UnfilledPaid(row: Order, broker: map<OrderKey, Ticket>)
    requires TicketsSound(broker)
    ensures RowFill(row, broker).n == 0 ==> RowFill(row, broker) == NOTHING
  {
  }

  lemma TidyStray(w: World, p: nat)
    requires Cust(w) && Tidy(w)
    ensures Stray(w, p) == 0
  {
    TidyFills(w.orders, w.broker, p, ToOpen);
    TidyFills(w.orders, w.broker, p, ToClose);
  }

  // ----- writes that move no fills

  // Neither table lookups nor tickets change what any position has filled or spent.
  ghost predicate SameFills(w: World, w': World) {
    forall p: nat, intent :: Fills(w.orders, w.broker, p, intent) == Fills(w'.orders, w'.broker, p, intent)
  }

  ghost predicate SameStructures(w: World, w': World) {
    |w'.positions| == |w.positions|
    && forall p :: 0 <= p < |w.positions| ==> w'.positions[p].structure == w.positions[p].structure
  }

  lemma SameFillsKeepBooks(w: World, w': World)
    requires SameFills(w, w') && SameStructures(w, w')
    requires w'.holdings == w.holdings && w'.cash == w.cash
    requires HoldingsAgree(w) && CashAgrees(w)
    ensures HoldingsAgree(w') && CashAgrees(w')
  {
    var n := |w.positions|;
    assert forall p: nat :: Net(w, p) == Net(w', p) && Spent(w, p) == Spent(w', p);
    forall x ensures Held(w'.holdings, x) == Total(w', x, n) {
      TotalSame(w, w', x, n);
    }
    SpentSame(w, w', n);
  }

  lemma CustInsertPosition(w: World, row: Position)
    requires Inv(w) && Cust(w)
    ensures Cust(w.(positions := w.positions + [row]))
  {
    hide OrderFits, OrdersFit, Fills;
    var w' := w.(positions := w.positions + [row]);
    var n := |w.positions|;
    NewPositionFree(w);
    FillsNone(w.orders, w.broker, n, ToOpen);
    FillsNone(w.orders, w.broker, n, ToClose);
    LegBook(w, w', row);
    SpentSame(w, w', n);
  }

  lemma LegBook(w: World, w': World, row: Position)
    requires w' == w.(positions := w.positions + [row]) && HoldingsAgree(w)
    requires Net(w, |w.positions|) == 0
    ensures HoldingsAgree(w')
  {
    forall x ensures Held(w'.holdings, x) == Total(w', x, |w'.positions|) {
      TotalSame(w, w', x, |w.positions|);
      LegQtyZero(row.structure.legs, x);
    }
  }

  lemma CustSetPosition(w: World, pid: nat, row: Position)
    requires Cust(w) && pid < |w.positions| && SameTrade(w.positions[pid], row)
    ensures Cust(w.(positions := w.positions[pid := row]))
  {
    SameFillsKeepBooks(w, w.(positions := w.positions[pid := row]));
  }

  lemma InsertOrderSameFills(w: World, row: Order)
    requires row.key !in w.broker
    ensures SameFills(w, w.(orders := w.orders + [row]))
  {
    hide Fills;
    forall p: nat, intent
      ensures Fills(w.orders, w.broker, p, intent) == Fills(w.orders + [row], w.broker, p, intent)
    {
      FillsAppend(w.orders, row, w.broker, p, intent);
    }
  }

  // Tables and broker rewritten without moving a row to another position or changing its fills.
  lemma RowsSameFills(w: World, w': World)
    requires |w'.orders| == |w.orders|
    requires forall o :: 0 <= o < |w.orders| ==> SameFill(w.orders[o], w.broker, w'.orders[o], w'.broker)
    ensures SameFills(w, w')
  {
    forall p: nat, intent
      ensures Fills(w.orders, w.broker, p, intent) == Fills(w'.orders, w'.broker, p, intent)
    {
      FillsSame(w.orders, w.broker, w'.orders, w'.broker, p, intent);
    }
  }

  lemma CustInsertOrder(w: World, row: Order)
    requires Inv(w) && Cust(w) && MayInsertOrder(w, row)
    ensures Cust(w.(orders := w.orders + [row]))
  {
    hide Inv, OrderFits, AllDead, AllBelow, MayPrice, Fills, HoldingsAgree, CashAgrees;
    var w' := w.(orders := w.orders + [row]);
    FreshKey(w, row);
    InsertOrderSameFills(w, row);
    SameFillsKeepBooks(w, w');
    forall o | 0 <= o < |w'.orders| ensures Truthful(w'.orders[o], w'.broker) {
      assert o < |w.orders| ==> Truthful(w.orders[o], w.broker);
    }
  }

  lemma CustSetOrder(w: World, o: nat, row: Order)
    requires Cust(w) && MaySetOrder(w, o, row) && Honest(w, SetOrder(o, row), ALL_KEYS)
    ensures Cust(w.(orders := w.orders[o := row]))
  {
    var w' := w.(orders := w.orders[o := row]);
    RowsSameFills(w, w');
    SameFillsKeepBooks(w, w');
    forall i | 0 <= i < |w'.orders| ensures Truthful(w'.orders[i], w'.broker) {
      assert Truthful(w.orders[i], w.broker);
    }
  }

  // ----- the broker's own moves

  lemma CustAccept(w: World, key: OrderKey, t: Ticket)
    requires Inv(w) && Cust(w) && Matches(w, key, t)
    ensures Cust(w.(broker := w.broker[key := t]))
  {
    AllKeysDiffer(w);
    assert Sound(w.positions[w.orders[Find(w.orders, key).value].pid]);
    CustAcceptOf(w, key, t);
  }

  lemma CustAcceptOf(w: World, key: OrderKey, t: Ticket)
    requires KeysDiffer(w.orders) && Cust(w) && Matches(w, key, t) && t.qty >= 1
    ensures Cust(w.(broker := w.broker[key := t]))
  {
    var w' := w.(broker := w.broker[key := t]);
    RowsSameFills(w, w');
    SameFillsKeepBooks(w, w');
    forall o | 0 <= o < |w.orders| ensures Truthful(w.orders[o], w'.broker) {
      assert Truthful(w.orders[o], w.broker);
    }
  }

  lemma CustEnd(w: World, key: OrderKey, status: OrderStatus)
    requires Cust(w) && MayLapse(w, key, status)
    ensures Cust(w.(broker := Ended(w.broker, key, status)))
  {
    var w' := w.(broker := Ended(w.broker, key, status));
    RowsSameFills(w, w');
    SameFillsKeepBooks(w, w');
    forall o | 0 <= o < |w.orders| ensures Truthful(w.orders[o], w'.broker) {
      assert Truthful(w.orders[o], w.broker);
    }
    assert TicketSound(w.broker[key]);
  }

  lemma TicketsFitOf(w: World, o: nat)
    requires Inv(w) && o < |w.orders| && w.orders[o].key in w.broker
    ensures w.orders[o].pid < |w.positions|
    ensures TicketFits(w.orders[o], w.positions[w.orders[o].pid], w.broker[w.orders[o].key])
  {
  }

  // The row a working ticket was recorded under.
  lemma TicketsRow(w: World, key: OrderKey) returns (o: nat)
    requires Inv(w) && key in w.broker
    ensures o < |w.orders| && w.orders[o].key == key && w.orders[o].pid < |w.positions|
    ensures TicketFits(w.orders[o], w.positions[w.orders[o].pid], w.broker[key])
  {
    assert Known(w.orders, key, w.broker[key]);
    o := Find(w.orders, key).value;
    RowFits(w, o);
    hide Inv;
    TicketsFitOf(w, o);
  }

  // A trade moves one position's count by its size and its spending by its price.
  ghost predicate Moved(w: World, w': World, q: nat, signed: int, d: real) {
    && Net(w', q) == Net(w, q) + signed && Spent(w', q) == Spent(w, q) + d
    && (forall p: nat :: p != q ==> Net(w', p) == Net(w, p) && Spent(w', p) == Spent(w, p))
  }

  lemma TradeMoves(w: World, key: OrderKey, n: nat, price: real, o: nat)
    requires KeysDiffer(w.orders) && key in w.broker && o < |w.orders| && w.orders[o].key == key
    requires w.broker[key].intent == w.orders[o].intent
    ensures Moved(w, Executed(w, key, n, price), w.orders[o].pid,
                  if w.orders[o].intent.ToOpen? then n as int else -(n as int), n as real * price)
  {
    hide Executed, Fills;
    ExecutedBooks(w, key, n, price);
    var w' := Executed(w, key, n, price);
    forall p: nat, intent
      ensures Fills(w'.orders, w'.broker, p, intent) ==
              Plus(Fills(w.orders, w.broker, p, intent),
                   if Of(w.orders[o], p, intent) then Fill(n, n as real * price) else NOTHING)
    {
      FillsTraded(w.orders, w.broker, key, n, price, o, p, intent);
    }
    assert forall p: nat :: p != w.orders[o].pid ==> Net(w', p) == Net(w, p) && Spent(w', p) == Spent(w, p);
  }

  lemma MovedBooks(w: World, w': World, legs: seq<Leg>, q: nat, signed: int, d: real)
    requires HoldingsAgree(w) && CashAgrees(w) && Moved(w, w', q, signed, d)
    requires w'.positions == w.positions && q < |w.positions| && w.positions[q].structure.legs == legs
    requires w'.holdings == AddSpreads(w.holdings, legs, signed) && w'.cash == w.cash - 100.0 * d
    ensures HoldingsAgree(w') && CashAgrees(w')
  {
    var size := |w.positions|;
    forall x ensures Held(w'.holdings, x) == Total(w', x, size) {
      AddSpreadsHeld(w.holdings, legs, signed, x);
      LegQtyAdd(legs, x, Net(w, q), signed);
      TotalBump(w, w', x, size, q, LegQty(legs, x, signed));
    }
    SpentBump(w, w', size, q, d);
  }

  lemma ExecutedBooks(w: World, key: OrderKey, n: nat, price: real)
    requires key in w.broker
    ensures var w', t := Executed(w, key, n, price), w.broker[key];
            && w'.positions == w.positions && w'.orders == w.orders
            && w'.holdings == AddSpreads(w.holdings, t.legs, if t.intent.ToOpen? then n as int else -(n as int))
            && w'.cash == w.cash - 100.0 * (n as real * price)
            && w'.broker == w.broker[key := Traded(t, n, price)]
  {
    hide Traded, AddSpreads;
  }

  lemma TradeBooks(w: World, key: OrderKey, n: nat, price: real)
    requires Inv(w) && Cust(w) && MayTrade(w, key, n, price)
    ensures HoldingsAgree(Executed(w, key, n, price)) && CashAgrees(Executed(w, key, n, price))
  {
    hide Inv, Executed, Net, Spent;
    var o := TicketsRow(w, key);
    AllKeysDiffer(w);
    var t := w.broker[key];
    var signed: int := if t.intent.ToOpen? then n as int else -(n as int);
    TradeMoves(w, key, n, price, o);
    ExecutedBooks(w, key, n, price);
    MovedBooks(w, Executed(w, key, n, price), t.legs, w.orders[o].pid, signed, n as real * price);
  }

  lemma CustTrade(w: World, key: OrderKey, n: nat, price: real)
    requires Inv(w) && Cust(w) && MayTrade(w, key, n, price)
    ensures Cust(Executed(w, key, n, price))
  {
    hide Inv, HoldingsAgree, CashAgrees, AddSpreads, Traded, TicketSound;
    TradeBooks(w, key, n, price);
    TradedSound(w.broker[key], n, price);
    var w' := Executed(w, key, n, price);
    forall o | 0 <= o < |w.orders| ensures Truthful(w.orders[o], w'.broker) {
      assert Truthful(w.orders[o], w.broker);
    }
  }

  // Part of a limit order filled at or under its limit stays at or under it in total.
  lemma TradedSound(t: Ticket, n: nat, price: real)
    requires TicketSound(t) && t.state.Working? && 1 <= n <= t.qty - t.filled && price <= t.limit as real / 100.0
    ensures TicketSound(Traded(t, n, price))
  {
    StaysUnder(t.filled, n, t.paid, price, t.limit as real / 100.0);
  }

  lemma StaysUnder(filled: nat, n: nat, paid: real, price: real, limit: real)
    requires paid <= filled as real * limit && price <= limit
    ensures paid + n as real * price <= (filled + n) as real * limit
  {
    Scale(price, limit, n as real);
    assert (filled + n) as real * limit == filled as real * limit + n as real * limit;
  }

  lemma CustIdle(w: World, w': World)
    requires Cust(w) && w'.orders == w.orders && w'.positions == w.positions && w'.broker == w.broker
    requires w'.holdings == w.holdings && w'.cash == w.cash
    ensures Cust(w')
  {
    hide Fills;
    SameFillsKeepBooks(w, w');
  }

  // Custody survives every single honest write.
  lemma WriteKeepsCust(w: World, x: Write)
    requires Inv(w) && Cust(w) && Allowed(w, x) && Honest(w, x, ALL_KEYS)
    ensures Cust(Apply(w, x))
  {
    hide Inv, Cust, MayInsertPosition, MayInsertOrder, Matches, MayTrade, Executed, Ended;
    match x
    case InsertPosition(row) => CustInsertPosition(w, row);
    case SetPosition(pid, row) => CustSetPosition(w, pid, row);
    case InsertOrder(row) => CustInsertOrder(w, row);
    case SetOrder(o, row) => CustSetOrder(w, o, row);
    case Accept(key, t) => CustAccept(w, key, t);
    case Withdraw(key) => CustEnd(w, key, Canceled);
    case Lapse(key, status) => CustEnd(w, key, status);
    case Trade(key, n, price) => CustTrade(w, key, n, price);
    case _ => CustIdle(w, Apply(w, x));
  }
}
