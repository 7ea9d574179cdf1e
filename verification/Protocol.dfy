/**
 The protocol's discipline on single writes, and the invariant every write keeps.
 Because the invariant survives each write separately, it survives a crash
 between any two of them.
 */
module Protocol {
  import opened Wrappers
  import opened Structures
  import opened World
  import opened Ladder

  // ----- the invariant

  // An order's client id names its own position, with an attempt already counted.
  ghost predicate OrderFits(w: World, row: Order) {
    && row.pid < |w.positions|
    && row.key.signal == w.positions[row.pid].signal
    && (row.intent.ToOpen? <==> row.key.OpenKey?)
    && row.key.attempt <= Counter(w, row.pid, row.intent)
    && (row.status.Filled? ==> row.filledPrice.Some?)
    && (row.intent.ToOpen? ==> row.key.attempt <= w.cfg.ladderSteps)
    && (row.intent.ToClose? && row.key.CloseKey? && row.key.reason.Escalated? ==>
          2 <= row.key.attempt <= w.cfg.closeMaxAttempts)
    && (row.intent.ToOpen? && row.key.attempt >= 1 ==> row.limit != 0)
    && (row.intent.ToOpen? && row.key.attempt == 0 && w.positions[row.pid].status.Opening? ==>
          row.limit as real == w.positions[row.pid].entry * 100.0)
    && (row.intent.ToOpen? && w.positions[row.pid].status.Opening? ==>
          row.limit as real <= Reach(w.cfg, w.positions[row.pid].entry * 100.0))
  }

  ghost predicate OrdersFit(w: World) {
    forall o :: 0 <= o < |w.orders| ==> OrderFits(w, w.orders[o])
  }

  // Only the newest order of a position and intent may still matter. Attempts rise, and
  // entry limits rise with them, never past the reach of the first.
  ghost predicate Supersedes(cfg: Config, a: Order, b: Order) {
    && Dead(a) && a.key.attempt < b.key.attempt
    && (a.intent.ToOpen? ==> a.limit < b.limit)
    && (a.intent.ToOpen? && a.key.attempt == 0 ==> b.limit as real <= Reach(cfg, a.limit as real))
  }

  ghost predicate Superseded(cfg: Config, orders: seq<Order>) {
    forall i, j :: 0 <= i < j < |orders| && Of(orders[j], orders[i].pid, orders[i].intent) ==>
      Supersedes(cfg, orders[i], orders[j])
  }

  ghost predicate OneSignalEach(positions: seq<Position>) {
    forall p, q :: 0 <= p < q < |positions| ==> positions[p].signal != positions[q].signal
  }

  // What an order's status says about its position's.
  ghost predicate Suits(row: Order, st: Status, closeAttempt: nat) {
    match row.intent
    case ToOpen =>
      (InFlight(row) ==> st.Opening?) && (row.status.Filled? ==> !st.Failed?)
    case ToClose =>
      && (st.Open? || st.Closing? || st.Closed?)
      && (InFlight(row) ==> st.Closing?)
      && (row.status.Filled? ==> st.Closing? || st.Closed?)
      && (st.Open? ==> row.key.attempt < closeAttempt)
  }

  ghost predicate StatusesFit(w: World)
    requires OrdersFit(w)
  {
    forall o :: 0 <= o < |w.orders| ==>
      Suits(w.orders[o], w.positions[w.orders[o].pid].status, CloseAttempt(w, w.orders[o].pid))
  }

  // Price of the position's newest order of this intent, once recorded as filled.
  function FillPrice(orders: seq<Order>, pid: nat, intent: Intent): Option<real> {
    var o := Latest(orders, pid, intent);
    if o.Some? && orders[o.value].status.Filled? then orders[o.value].filledPrice else None
  }

  function Realized(qty: nat, entry: real, fill: real): real { (-fill - entry) * 100.0 * qty as real }

  // A held position was entered at its recorded price; a closed one booked its fill.
  ghost predicate Backed(orders: seq<Order>, pid: nat, row: Position) {
    && (row.status.Open? || row.status.Closing? || row.status.Closed? ==>
          FillPrice(orders, pid, ToOpen) == Some(row.entry))
    && (row.status.Closed? ==>
          && FillPrice(orders, pid, ToClose).Some?
          && row.realized == Realized(row.qty, row.entry, FillPrice(orders, pid, ToClose).value)
          && row.win == Some(row.realized > 0.0))
  }

  ghost predicate AllBacked(w: World) {
    forall p :: 0 <= p < |w.positions| ==> Backed(w.orders, p, w.positions[p])
  }

  // No option contract is used by two live positions.
  ghost predicate Apart(a: Position, b: Position) {
    Live(a.status) && Live(b.status) ==> Symbols(a.structure.legs) !! Symbols(b.structure.legs)
  }

  ghost predicate LegsApart(positions: seq<Position>) {
    forall p, q :: 0 <= p < q < |positions| ==> Apart(positions[p], positions[q])
  }

  ghost predicate Sound(row: Position) {
    row.qty >= 1 && DefinedRisk(row.structure.legs) && OneEach(row.structure.legs)
  }

  ghost predicate AllSound(positions: seq<Position>) {
    forall p :: 0 <= p < |positions| ==> Sound(positions[p])
  }

  ghost predicate CountersFit(w: World) {
    && (forall p :: p in w.entryAttempt ==> p < |w.positions|)
    && (forall p :: p in w.closeAttempt ==> p < |w.positions| && w.closeAttempt[p] >= 1)
  }

  ghost predicate TicketFits(row: Order, p: Position, t: Ticket) {
    t.intent == row.intent && t.legs == p.structure.legs && t.qty == p.qty && t.limit == row.limit
  }

  ghost predicate Known(orders: seq<Order>, key: OrderKey, t: Ticket) {
    Find(orders, key).Some? && (t.state.Gone? ==> DeadStatus(t.state.status))
  }

  ghost predicate AllKnown(orders: seq<Order>, broker: map<OrderKey, Ticket>) {
    forall k :: k in broker ==> Known(orders, k, broker[k])
  }

  ghost predicate TicketsFit(w: World)
    requires OrdersFit(w)
  {
    forall o :: 0 <= o < |w.orders| && w.orders[o].key in w.broker ==>
      TicketFits(w.orders[o], w.positions[w.orders[o].pid], w.broker[w.orders[o].key])
  }

  // The broker knows only orders whose intent was recorded first.
  ghost predicate WrittenAhead(w: World)
    requires OrdersFit(w)
  {
    AllKnown(w.orders, w.broker) && TicketsFit(w)
  }

  ghost predicate Inv(w: World) {
    && Sane(w.cfg)
    && OrdersFit(w) && StatusesFit(w) && WrittenAhead(w) && AllBacked(w) && CountersFit(w)
    && Superseded(w.cfg, w.orders)
    && OneSignalEach(w.positions) && LegsApart(w.positions) && AllSound(w.positions)
  }

  // ----- consequences

  // No two order rows share a client order id, whatever their position, intent or reason.
  lemma KeysUnique(w: World, i: nat, j: nat)
    requires Inv(w) && i < j < |w.orders|
    ensures w.orders[i].key != w.orders[j].key
  {
    var a, b := w.orders[i], w.orders[j];
    assert OrderFits(w, a) && OrderFits(w, b);
    if a.pid != b.pid {
      assert w.positions[a.pid].signal != w.positions[b.pid].signal;
    } else if a.intent == b.intent {
      assert Of(b, a.pid, a.intent);
    }
  }

  // An order that is not dead is the newest of its position and intent.
  lemma UndeadIsLatest(cfg: Config, orders: seq<Order>, o: nat)
    requires Superseded(cfg, orders) && o < |orders| && !Dead(orders[o])
    ensures Latest(orders, orders[o].pid, orders[o].intent) == Some(o)
  {
    var row := orders[o];
    var l := Latest(orders, row.pid, row.intent);
    assert l.Some?;
  }

  ghost predicate KeysDiffer(orders: seq<Order>) {
    forall i, j :: 0 <= i < j < |orders| ==> orders[i].key != orders[j].key
  }

  lemma AllKeysDiffer(w: World)
    requires Inv(w)
    ensures KeysDiffer(w.orders)
  {
    forall i, j | 0 <= i < j < |w.orders| ensures w.orders[i].key != w.orders[j].key {
      KeysUnique(w, i, j);
    }
  }

  lemma OneInFlight(w: World, i: nat, j: nat)
    requires Inv(w) && i < |w.orders| && j < |w.orders|
    requires InFlight(w.orders[i]) && InFlight(w.orders[j]) && w.orders[i].pid == w.orders[j].pid
    ensures i == j
  {
    var a, b := w.orders[i], w.orders[j];
    assert Suits(a, w.positions[a.pid].status, CloseAttempt(w, a.pid));
    assert Suits(b, w.positions[b.pid].status, CloseAttempt(w, b.pid));
    UndeadIsLatest(w.cfg, w.orders, i);
    UndeadIsLatest(w.cfg, w.orders, j);
  }

  // ----- which statuses a position may move between

  ghost predicate Edge(a: Status, b: Status) {
    || (a.Opening? && (b.Open? || b.Failed?))
    || (a.Open? && b.Closing?)
    || (a.Closing? && (b.Closed? || b.Open?))
  }

  ghost predicate SameTrade(a: Position, b: Position) {
    a.signal == b.signal && a.structure == b.structure && a.qty == b.qty && a.openedAt == b.openedAt
    && a.regime == b.regime && a.spreadPct == b.spreadPct
  }

  ghost predicate SameOrder(a: Order, b: Order) {
    a.key == b.key && a.pid == b.pid && a.intent == b.intent && a.limit == b.limit
    && a.createdAt == b.createdAt
  }

  ghost predicate AllDead(orders: seq<Order>, pid: nat, intent: Intent) {
    forall o :: 0 <= o < |orders| && Of(orders[o], pid, intent) ==> Dead(orders[o])
  }

  ghost predicate AllBelow(orders: seq<Order>, pid: nat, intent: Intent, attempt: nat) {
    forall o :: 0 <= o < |orders| && Of(orders[o], pid, intent) ==> orders[o].key.attempt < attempt
  }

  // ----- the discipline, write by write

  // The maximum loss on record once a position is priced at net; an implausible price leaves it.
  function RecordedRisk(pos: Position, net: real): real {
    match MaxLossPerSpread(pos.structure, net)
    case Dollars(d) => d * pos.qty as real
    case _ => pos.maxLoss
  }

  ghost predicate MayInsertPosition(w: World, row: Position) {
    && row.status.Opening? && Sound(row) && !Halted(w)
    && MaxLossPerSpread(row.structure, row.entry).Dollars? && row.maxLoss == RecordedRisk(row, row.entry)
    && (forall p :: 0 <= p < |w.positions| ==> w.positions[p].signal != row.signal)
    && (forall p :: 0 <= p < |w.positions| ==> Apart(w.positions[p], row))
  }

  ghost predicate MaySetPosition(w: World, pid: nat, row: Position) {
    && pid < |w.positions|
    && var was := w.positions[pid];
       && SameTrade(was, row) && Edge(was.status, row.status)
       && (row.status.Open? && was.status.Opening? ==> FillPrice(w.orders, pid, ToOpen) == Some(row.entry))
       && (!was.status.Opening? ==> row.entry == was.entry)
       && row.maxLoss == (if was.status.Opening? && row.status.Open? then RecordedRisk(was, row.entry) else was.maxLoss)
       && (row.status.Failed? ==> AllDead(w.orders, pid, ToOpen))
       && (row.status.Open? && was.status.Closing? ==>
             AllDead(w.orders, pid, ToClose) && AllBelow(w.orders, pid, ToClose, CloseAttempt(w, pid)))
       && (row.status.Closed? ==> Backed(w.orders, pid, row))
  }

  // A rung is dearer than every entry limit before it.
  ghost predicate MayPrice(w: World, row: Order)
    requires row.pid < |w.positions|
  {
    forall o :: 0 <= o < |w.orders| && Of(w.orders[o], row.pid, ToOpen) ==> w.orders[o].limit < row.limit
  }

  ghost predicate MayInsertOrder(w: World, row: Order) {
    && row.status.Pending? && OrderFits(w, row)
    && AllDead(w.orders, row.pid, row.intent)
    && AllBelow(w.orders, row.pid, row.intent, row.key.attempt)
    && (row.intent.ToOpen? ==> MayPrice(w, row))
    && (row.intent.ToOpen? ==> w.positions[row.pid].status.Opening? && !Halted(w))
    && (row.intent.ToClose? ==> w.positions[row.pid].status.Closing?)
  }

  ghost predicate MaySetOrder(w: World, o: nat, row: Order) {
    && o < |w.orders|
    && SameOrder(w.orders[o], row)
    && (InFlight(w.orders[o]) || (w.orders[o].status.Filled? && row == w.orders[o])
        || (Dead(w.orders[o]) && Dead(row)))
    && (row.status.Filled? ==> row.filledPrice.Some?)
  }

  ghost predicate Matches(w: World, key: OrderKey, t: Ticket) {
    && key !in w.broker
    && var o := Find(w.orders, key);
       && o.Some? && o.value < |w.orders| && w.orders[o.value].status.Pending?
       && w.orders[o.value].pid < |w.positions|
       && TicketFits(w.orders[o.value], w.positions[w.orders[o.value].pid], t)
       && t.state.Working? && t.filled == 0 && t.paid == 0.0
       && (t.intent.ToOpen? ==> !Halted(w))
  }

  ghost predicate MayTrade(w: World, key: OrderKey, n: nat, price: real) {
    && key in w.broker && w.broker[key].state.Working?
    && 1 <= n <= w.broker[key].qty - w.broker[key].filled
    && price <= w.broker[key].limit as real / 100.0
  }

  ghost predicate MayLapse(w: World, key: OrderKey, status: OrderStatus) {
    && key in w.broker && w.broker[key].state.Working? && DeadStatus(status)
  }

  ghost predicate Allowed(w: World, x: Write) {
    match x
    case InsertPosition(row) => MayInsertPosition(w, row)
    case SetPosition(pid, row) => MaySetPosition(w, pid, row)
    case InsertOrder(row) => MayInsertOrder(w, row)
    case SetOrder(o, row) => MaySetOrder(w, o, row)
    case SetEntryAttempt(pid, n) => pid < |w.positions| && n >= EntryAttempt(w, pid)
    case SetCloseAttempt(pid, n) => pid < |w.positions| && n >= CloseAttempt(w, pid) && n >= 1
    case SetCloseBarrier(pid, b) => true
    case Reward(cell, won) => true
    case SetHalt(h) => true
    case Accept(key, t) => Matches(w, key, t)
    case Withdraw(key) => MayLapse(w, key, Canceled)
    case Trade(key, n, price) => MayTrade(w, key, n, price)
    case Lapse(key, status) => MayLapse(w, key, status)
  }

  // ----- every allowed write keeps the invariant

  lemma KeepInsertPosition(w: World, row: Position)
    requires Inv(w) && MayInsertPosition(w, row)
    ensures Inv(w.(positions := w.positions + [row]))
  {
    var w' := w.(positions := w.positions + [row]);
    assert OrdersFit(w') by { GrowOrdersFit(w, row); }
    assert StatusesFit(w') by { GrowStatusesFit(w, row); }
    assert WrittenAhead(w') by { GrowWrittenAhead(w, row); }
    assert AllBacked(w') by { GrowBacked(w, row); }
    assert OneSignalEach(w'.positions) && LegsApart(w'.positions) && AllSound(w'.positions);
  }

  lemma GrowOrdersFit(w: World, row: Position)
    requires OrdersFit(w)
    ensures OrdersFit(w.(positions := w.positions + [row]))
  {
    var w' := w.(positions := w.positions + [row]);
    forall o | 0 <= o < |w.orders| ensures OrderFits(w', w.orders[o]) {
      assert OrderFits(w, w.orders[o]);
    }
  }

  lemma GrowStatusesFit(w: World, row: Position)
    requires OrdersFit(w) && StatusesFit(w) && OrdersFit(w.(positions := w.positions + [row]))
    ensures StatusesFit(w.(positions := w.positions + [row]))
  {
    forall o | 0 <= o < |w.orders|
      ensures Suits(w.orders[o], (w.positions + [row])[w.orders[o].pid].status, CloseAttempt(w, w.orders[o].pid))
    {
      assert OrderFits(w, w.orders[o]);
    }
  }

  lemma GrowWrittenAhead(w: World, row: Position)
    requires OrdersFit(w) && WrittenAhead(w) && OrdersFit(w.(positions := w.positions + [row]))
    ensures WrittenAhead(w.(positions := w.positions + [row]))
  {
    forall o | 0 <= o < |w.orders| && w.orders[o].key in w.broker
      ensures TicketFits(w.orders[o], (w.positions + [row])[w.orders[o].pid], w.broker[w.orders[o].key])
    {
      assert OrderFits(w, w.orders[o]);
    }
  }

  lemma GrowBacked(w: World, row: Position)
    requires AllBacked(w) && row.status.Opening?
    ensures AllBacked(w.(positions := w.positions + [row]))
  {
    var w' := w.(positions := w.positions + [row]);
    forall p | 0 <= p < |w'.positions| ensures Backed(w'.orders, p, w'.positions[p]) {
      if p < |w.positions| { assert Backed(w.orders, p, w.positions[p]); }
    }
  }

  lemma KeepSetPosition(w: World, pid: nat, row: Position)
    requires Inv(w) && MaySetPosition(w, pid, row)
    ensures Inv(w.(positions := w.positions[pid := row]))
  {
    var w' := w.(positions := w.positions[pid := row]);
    assert OrdersFit(w') by { MoveOrdersFit(w, pid, row); }
    assert StatusesFit(w') by { MoveStatusesFit(w, pid, row); }
    assert WrittenAhead(w') by { MoveWrittenAhead(w, pid, row); }
    assert AllBacked(w') by { MoveBacked(w, pid, row); }
    assert OneSignalEach(w'.positions) && AllSound(w'.positions);
    assert LegsApart(w'.positions) by { MoveLegsApart(w.positions, pid, row); }
  }

  lemma MoveOrdersFit(w: World, pid: nat, row: Position)
    requires OrdersFit(w) && MaySetPosition(w, pid, row)
    ensures OrdersFit(w.(positions := w.positions[pid := row]))
  {
    var w' := w.(positions := w.positions[pid := row]);
    forall o | 0 <= o < |w.orders| ensures OrderFits(w', w.orders[o]) {
      assert OrderFits(w, w.orders[o]);
    }
  }

  lemma MoveStatusesFit(w: World, pid: nat, row: Position)
    requires OrdersFit(w) && StatusesFit(w) && Superseded(w.cfg, w.orders) && MaySetPosition(w, pid, row)
    requires OrdersFit(w.(positions := w.positions[pid := row]))
    ensures StatusesFit(w.(positions := w.positions[pid := row]))
  {
    hide Reach, RecordedRisk, Superseded;
    forall o | 0 <= o < |w.orders|
      ensures Suits(w.orders[o], w.positions[pid := row][w.orders[o].pid].status, CloseAttempt(w, w.orders[o].pid))
    {
      var x := w.orders[o];
      assert OrderFits(w, x);
      assert Suits(x, w.positions[x.pid].status, CloseAttempt(w, x.pid));
      if x.pid == pid && !Dead(x) {
        UndeadIsLatest(w.cfg, w.orders, o);
      }
      assert x.pid == pid ==> Of(x, pid, x.intent);
    }
  }

  lemma MoveWrittenAhead(w: World, pid: nat, row: Position)
    requires OrdersFit(w) && WrittenAhead(w) && pid < |w.positions| && SameTrade(w.positions[pid], row)
    requires OrdersFit(w.(positions := w.positions[pid := row]))
    ensures WrittenAhead(w.(positions := w.positions[pid := row]))
  {
    forall o | 0 <= o < |w.orders| && w.orders[o].key in w.broker
      ensures TicketFits(w.orders[o], w.positions[pid := row][w.orders[o].pid], w.broker[w.orders[o].key])
    {
      assert OrderFits(w, w.orders[o]);
    }
  }

  lemma MoveBacked(w: World, pid: nat, row: Position)
    requires AllBacked(w) && MaySetPosition(w, pid, row)
    ensures AllBacked(w.(positions := w.positions[pid := row]))
  {
    var w' := w.(positions := w.positions[pid := row]);
    forall p | 0 <= p < |w'.positions| ensures Backed(w'.orders, p, w'.positions[p]) {
      assert Backed(w.orders, p, w.positions[p]);
    }
  }

  lemma MoveLegsApart(positions: seq<Position>, pid: nat, row: Position)
    requires LegsApart(positions) && pid < |positions|
    requires SameTrade(positions[pid], row) && Edge(positions[pid].status, row.status)
    ensures LegsApart(positions[pid := row])
  {
    var ps := positions[pid := row];
    forall p, q | 0 <= p < q < |ps| ensures Apart(ps[p], ps[q]) {
      assert Apart(positions[p], positions[q]);
    }
  }

  lemma LatestAppend(orders: seq<Order>, row: Order, pid: nat, intent: Intent)
    ensures Latest(orders + [row], pid, intent) ==
            if Of(row, pid, intent) then Some(|orders|) else Latest(orders, pid, intent)
  {
    assert (orders + [row])[..|orders|] == orders;
  }

  // Rewriting a row without changing its identity moves no lookup.
  lemma {:induction false} LatestUpdate(orders: seq<Order>, o: nat, row: Order, pid: nat, intent: Intent)
    requires o < |orders| && SameOrder(orders[o], row)
    ensures Latest(orders[o := row], pid, intent) == Latest(orders, pid, intent)
  {
    var a, b := Latest(orders, pid, intent), Latest(orders[o := row], pid, intent);
    if a.Some? {
      assert Of(orders[o := row][a.value], pid, intent);
    }
    if b.Some? {
      assert Of(orders[b.value], pid, intent);
    }
  }

  lemma FreshKey(w: World, row: Order)
    requires Inv(w) && MayInsertOrder(w, row)
    ensures Find(w.orders, row.key).None? && row.key !in w.broker
  {
    forall o | 0 <= o < |w.orders| ensures w.orders[o].key != row.key {
      var x := w.orders[o];
      assert OrderFits(w, x);
      if x.pid != row.pid {
        assert w.positions[x.pid].signal != w.positions[row.pid].signal;
      } else if x.intent == row.intent {
        assert Of(x, row.pid, row.intent);
      }
    }
  }

  lemma KeepInsertOrder(w: World, row: Order)
    requires Inv(w) && MayInsertOrder(w, row)
    ensures Inv(w.(orders := w.orders + [row]))
  {
    var w' := w.(orders := w.orders + [row]);
    FreshKey(w, row);
    assert OrdersFit(w') by { AppendOrdersFit(w, row); }
    assert StatusesFit(w') by { AppendStatusesFit(w, row); }
    assert Superseded(w'.cfg, w'.orders) by { AppendSuperseded(w, row); }
    assert WrittenAhead(w') by { AppendWrittenAhead(w, row); }
    assert AllBacked(w') by { AppendBacked(w, row); }
  }

  lemma AppendOrdersFit(w: World, row: Order)
    requires OrdersFit(w) && OrderFits(w, row)
    ensures OrdersFit(w.(orders := w.orders + [row]))
  {
    var w' := w.(orders := w.orders + [row]);
    forall o | 0 <= o < |w'.orders| ensures OrderFits(w', w'.orders[o]) {
      assert o < |w.orders| ==> OrderFits(w, w.orders[o]);
    }
  }

  lemma AppendStatusesFit(w: World, row: Order)
    requires OrdersFit(w) && StatusesFit(w) && MayInsertOrder(w, row)
    requires OrdersFit(w.(orders := w.orders + [row]))
    ensures StatusesFit(w.(orders := w.orders + [row]))
  {
    var w' := w.(orders := w.orders + [row]);
    forall o | 0 <= o < |w'.orders|
      ensures Suits(w'.orders[o], w'.positions[w'.orders[o].pid].status, CloseAttempt(w', w'.orders[o].pid))
    {
      if o < |w.orders| {
        assert Suits(w.orders[o], w.positions[w.orders[o].pid].status, CloseAttempt(w, w.orders[o].pid));
      }
    }
  }

  lemma AppendSuperseded(w: World, row: Order)
    requires OrdersFit(w) && Superseded(w.cfg, w.orders) && MayInsertOrder(w, row)
    ensures Superseded(w.cfg, w.orders + [row])
  {
    var all := w.orders + [row];
    forall i, j | 0 <= i < j < |all| && Of(all[j], all[i].pid, all[i].intent)
      ensures Supersedes(w.cfg, all[i], all[j])
    {
      if j == |w.orders| {
        assert Of(w.orders[i], row.pid, row.intent);
        assert OrderFits(w, w.orders[i]);
      } else {
        assert Of(w.orders[j], w.orders[i].pid, w.orders[i].intent);
      }
    }
  }

  // Known tickets stay known when rows are appended or rewritten in place.
  lemma StillKnown(orders: seq<Order>, orders': seq<Order>, broker: map<OrderKey, Ticket>)
    requires AllKnown(orders, broker)
    requires |orders| <= |orders'| && forall i :: 0 <= i < |orders| ==> orders[i].key == orders'[i].key
    ensures AllKnown(orders', broker)
  {
    forall k | k in broker ensures Known(orders', k, broker[k]) {
      assert Known(orders, k, broker[k]);
      assert orders'[Find(orders, k).value].key == k;
    }
  }

  lemma AppendWrittenAhead(w: World, row: Order)
    requires OrdersFit(w) && WrittenAhead(w) && row.key !in w.broker
    requires OrdersFit(w.(orders := w.orders + [row]))
    ensures WrittenAhead(w.(orders := w.orders + [row]))
  {
    var w' := w.(orders := w.orders + [row]);
    assert AllKnown(w'.orders, w'.broker) by { StillKnown(w.orders, w'.orders, w.broker); }
    hide AllKnown, Reach;
    forall o | 0 <= o < |w'.orders| && w'.orders[o].key in w'.broker
      ensures TicketFits(w'.orders[o], w'.positions[w'.orders[o].pid], w'.broker[w'.orders[o].key])
    {
      assert w'.orders[o] == w.orders[o];
    }
  }

  lemma AppendBacked(w: World, row: Order)
    requires AllBacked(w) && MayInsertOrder(w, row)
    ensures AllBacked(w.(orders := w.orders + [row]))
  {
    var orders' := w.orders + [row];
    forall p | 0 <= p < |w.positions| ensures Backed(orders', p, w.positions[p]) {
      assert Backed(w.orders, p, w.positions[p]);
      LatestAppend(w.orders, row, p, ToOpen);
      LatestAppend(w.orders, row, p, ToClose);
    }
  }

  lemma KeepSetOrder(w: World, o: nat, row: Order)
    requires Inv(w) && MaySetOrder(w, o, row)
    ensures Inv(w.(orders := w.orders[o := row]))
  {
    var w' := w.(orders := w.orders[o := row]);
    assert OrdersFit(w') by { MarkOrdersFit(w, o, row); }
    assert StatusesFit(w') by { MarkStatusesFit(w, o, row); }
    assert Superseded(w'.cfg, w'.orders) by { MarkSuperseded(w.cfg, w.orders, o, row); }
    assert WrittenAhead(w') by { MarkWrittenAhead(w, o, row); }
    assert AllBacked(w') by { MarkBacked(w, o, row); }
  }

  lemma MarkOrdersFit(w: World, o: nat, row: Order)
    requires OrdersFit(w) && MaySetOrder(w, o, row)
    ensures OrdersFit(w.(orders := w.orders[o := row]))
  {
    var w' := w.(orders := w.orders[o := row]);
    forall i | 0 <= i < |w'.orders| ensures OrderFits(w', w'.orders[i]) {
      assert OrderFits(w, w.orders[i]);
    }
  }

  lemma MarkStatusesFit(w: World, o: nat, row: Order)
    requires OrdersFit(w) && StatusesFit(w) && MaySetOrder(w, o, row)
    requires OrdersFit(w.(orders := w.orders[o := row]))
    ensures StatusesFit(w.(orders := w.orders[o := row]))
  {
    var w' := w.(orders := w.orders[o := row]);
    forall i | 0 <= i < |w'.orders|
      ensures Suits(w'.orders[i], w'.positions[w'.orders[i].pid].status, CloseAttempt(w', w'.orders[i].pid))
    {
      assert Suits(w.orders[i], w.positions[w.orders[i].pid].status, CloseAttempt(w, w.orders[i].pid));
    }
  }

  lemma MarkSuperseded(cfg: Config, orders: seq<Order>, o: nat, row: Order)
    requires Superseded(cfg, orders) && o < |orders| && SameOrder(orders[o], row)
    requires Dead(orders[o]) ==> Dead(row)
    ensures Superseded(cfg, orders[o := row])
  {
    var all := orders[o := row];
    forall i, j | 0 <= i < j < |all| && Of(all[j], all[i].pid, all[i].intent)
      ensures Supersedes(cfg, all[i], all[j])
    {
      assert Of(orders[j], orders[i].pid, orders[i].intent);
      assert Supersedes(cfg, orders[i], orders[j]);
    }
  }

  lemma MarkWrittenAhead(w: World, o: nat, row: Order)
    requires OrdersFit(w) && WrittenAhead(w) && o < |w.orders| && SameOrder(w.orders[o], row)
    requires OrdersFit(w.(orders := w.orders[o := row]))
    ensures WrittenAhead(w.(orders := w.orders[o := row]))
  {
    var w' := w.(orders := w.orders[o := row]);
    assert AllKnown(w'.orders, w'.broker) by { StillKnown(w.orders, w'.orders, w.broker); }
    hide AllKnown, Reach;
    forall i | 0 <= i < |w'.orders| && w'.orders[i].key in w'.broker
      ensures TicketFits(w'.orders[i], w'.positions[w'.orders[i].pid], w'.broker[w'.orders[i].key])
    {
      assert TicketFits(w.orders[i], w.positions[w.orders[i].pid], w.broker[w.orders[i].key]);
    }
  }

  lemma MarkBackedAt(orders: seq<Order>, o: nat, row: Order, p: nat, pos: Position)
    requires Backed(orders, p, pos) && o < |orders| && SameOrder(orders[o], row)
    requires InFlight(orders[o]) || row == orders[o] || (Dead(orders[o]) && Dead(row))
    requires row.pid == p && InFlight(orders[o]) ==>
               pos.status == (if row.intent.ToOpen? then Opening else Closing)
    ensures Backed(orders[o := row], p, pos)
  {
    LatestUpdate(orders, o, row, p, ToOpen);
    LatestUpdate(orders, o, row, p, ToClose);
  }

  lemma MarkBacked(w: World, o: nat, row: Order)
    requires AllBacked(w) && OrdersFit(w) && StatusesFit(w) && MaySetOrder(w, o, row)
    ensures AllBacked(w.(orders := w.orders[o := row]))
  {
    hide Backed;
    forall p | 0 <= p < |w.positions| ensures Backed(w.orders[o := row], p, w.positions[p]) {
      assert Backed(w.orders, p, w.positions[p]);
      assert Suits(w.orders[o], w.positions[w.orders[o].pid].status, CloseAttempt(w, w.orders[o].pid));
      MarkBackedAt(w.orders, o, row, p, w.positions[p]);
    }
  }

  lemma KeepCounters(w: World, entry: map<nat, nat>, close: map<nat, nat>)
    requires Inv(w)
    requires forall p :: p in entry ==> p < |w.positions|
    requires forall p :: p in close ==> p < |w.positions| && close[p] >= 1
    requires forall p: nat :: Counter(w.(entryAttempt := entry, closeAttempt := close), p, ToOpen) >= Counter(w, p, ToOpen)
    requires forall p: nat :: Counter(w.(entryAttempt := entry, closeAttempt := close), p, ToClose) >= Counter(w, p, ToClose)
    ensures Inv(w.(entryAttempt := entry, closeAttempt := close))
  {
    var w' := w.(entryAttempt := entry, closeAttempt := close);
    assert OrdersFit(w') by {
      forall o | 0 <= o < |w.orders| ensures OrderFits(w', w.orders[o]) {
        assert OrderFits(w, w.orders[o]);
      }
    }
    assert StatusesFit(w') by {
      forall o | 0 <= o < |w.orders|
        ensures Suits(w.orders[o], w.positions[w.orders[o].pid].status, CloseAttempt(w', w.orders[o].pid))
      {
        assert Suits(w.orders[o], w.positions[w.orders[o].pid].status, CloseAttempt(w, w.orders[o].pid));
        assert Counter(w', w.orders[o].pid, ToClose) >= Counter(w, w.orders[o].pid, ToClose);
      }
    }
  }

  // The broker may add a recorded order or move one it has; it forgets none.
  lemma KeepBroker(w: World, broker: map<OrderKey, Ticket>, holdings: map<string, int>, cash: real)
    requires Inv(w)
    requires AllKnown(w.orders, broker)
    requires forall o :: 0 <= o < |w.orders| && w.orders[o].key in broker ==>
               TicketFits(w.orders[o], w.positions[w.orders[o].pid], broker[w.orders[o].key])
    ensures Inv(w.(broker := broker, holdings := holdings, cash := cash))
  {
    var w' := w.(broker := broker, holdings := holdings, cash := cash);
    assert OrdersFit(w') by {
      forall o | 0 <= o < |w.orders| ensures OrderFits(w', w.orders[o]) {
        assert OrderFits(w, w.orders[o]);
      }
    }
    assert StatusesFit(w') by {
      forall o | 0 <= o < |w.orders|
        ensures Suits(w.orders[o], w.positions[w.orders[o].pid].status, CloseAttempt(w', w.orders[o].pid))
      {
        assert Suits(w.orders[o], w.positions[w.orders[o].pid].status, CloseAttempt(w, w.orders[o].pid));
      }
    }
  }

  lemma KeepTicket(w: World, key: OrderKey, t: Ticket, holdings: map<string, int>, cash: real)
    requires Inv(w) && key in w.broker
    requires var was := w.broker[key];
             t.intent == was.intent && t.legs == was.legs && t.qty == was.qty && t.limit == was.limit
    requires t.state.Gone? ==> DeadStatus(t.state.status)
    ensures Inv(w.(broker := w.broker[key := t], holdings := holdings, cash := cash))
  {
    forall o | 0 <= o < |w.orders| && w.orders[o].key in w.broker[key := t]
      ensures TicketFits(w.orders[o], w.positions[w.orders[o].pid], w.broker[key := t][w.orders[o].key])
    {
      assert TicketFits(w.orders[o], w.positions[w.orders[o].pid], w.broker[w.orders[o].key]);
    }
    KeepBroker(w, w.broker[key := t], holdings, cash);
  }

  lemma AcceptFits(w: World, key: OrderKey, t: Ticket, broker: map<OrderKey, Ticket>)
    requires OrdersFit(w) && WrittenAhead(w) && KeysDiffer(w.orders) && Matches(w, key, t)
    requires broker == w.broker[key := t]
    ensures AllKnown(w.orders, broker)
    ensures forall o :: 0 <= o < |w.orders| && w.orders[o].key in broker ==>
              TicketFits(w.orders[o], w.positions[w.orders[o].pid], broker[w.orders[o].key])
  {
    var f := Find(w.orders, key).value;
    forall o | 0 <= o < |w.orders| && w.orders[o].key in broker
      ensures TicketFits(w.orders[o], w.positions[w.orders[o].pid], broker[w.orders[o].key])
    {
      if w.orders[o].key == key {
        assert o == f;
      }
    }
  }

  lemma KeepAccept(w: World, key: OrderKey, t: Ticket)
    requires Inv(w) && Matches(w, key, t)
    ensures Inv(w.(broker := w.broker[key := t]))
  {
    hide Matches, TicketFits, Known;
    AllKeysDiffer(w);
    AcceptFits(w, key, t, w.broker[key := t]);
    KeepBroker(w, w.broker[key := t], w.holdings, w.cash);
  }

  lemma KeepSetEntryAttempt(w: World, pid: nat, n: nat)
    requires Inv(w) && pid < |w.positions| && n >= EntryAttempt(w, pid)
    ensures Inv(w.(entryAttempt := w.entryAttempt[pid := n]))
  {
    KeepCounters(w, w.entryAttempt[pid := n], w.closeAttempt);
  }

  lemma KeepSetCloseAttempt(w: World, pid: nat, n: nat)
    requires Inv(w) && pid < |w.positions| && n >= CloseAttempt(w, pid) && n >= 1
    ensures Inv(w.(closeAttempt := w.closeAttempt[pid := n]))
  {
    KeepCounters(w, w.entryAttempt, w.closeAttempt[pid := n]);
  }

  lemma KeepEnd(w: World, key: OrderKey, status: OrderStatus)
    requires Inv(w) && MayLapse(w, key, status)
    ensures Inv(w.(broker := Ended(w.broker, key, status)))
  {
    hide Inv;
    KeepTicket(w, key, w.broker[key].(state := Gone(status)), w.holdings, w.cash);
  }

  lemma KeepTrade(w: World, key: OrderKey, n: nat, price: real)
    requires Inv(w) && MayTrade(w, key, n, price)
    ensures Inv(Executed(w, key, n, price))
  {
    hide Inv, AddSpreads;
    var w' := Executed(w, key, n, price);
    KeepTicket(w, key, Traded(w.broker[key], n, price), w'.holdings, w'.cash);
  }

  // The whole protocol invariant survives every single write the discipline allows.
  lemma WriteKeepsInv(w: World, x: Write)
    requires Inv(w) && Allowed(w, x)
    ensures Inv(Apply(w, x))
  {
    hide Inv, MayInsertPosition, MayInsertOrder, Matches, MayTrade, Executed, Ended, Rewarded;
    match x
    case InsertPosition(row) => KeepInsertPosition(w, row);
    case SetPosition(pid, row) => KeepSetPosition(w, pid, row);
    case InsertOrder(row) => KeepInsertOrder(w, row);
    case SetOrder(o, row) => KeepSetOrder(w, o, row);
    case SetEntryAttempt(pid, n) => KeepSetEntryAttempt(w, pid, n);
    case SetCloseAttempt(pid, n) => KeepSetCloseAttempt(w, pid, n);
    case SetCloseBarrier(pid, b) => KeepIdle(w, w.closeBarrier[pid := b], w.bandit, w.halt);
    case Reward(cell, won) => KeepIdle(w, w.closeBarrier, Rewarded(w.bandit, cell, won), w.halt);
    case SetHalt(h) => KeepIdle(w, w.closeBarrier, w.bandit, h);
    case Accept(key, t) => KeepAccept(w, key, t);
    case Withdraw(key) => KeepEnd(w, key, Canceled);
    case Lapse(key, status) => KeepEnd(w, key, status);
    case Trade(key, n, price) =>
      assert key in w.broker by { TradedIsKnown(w, key, n, price); }
      KeepTrade(w, key, n, price);
  }

  lemma TradedIsKnown(w: World, key: OrderKey, n: nat, price: real)
    requires MayTrade(w, key, n, price)
    ensures key in w.broker
  {
  }

  lemma KeepIdle(w: World, closeBarrier: map<nat, Barrier>, bandit: map<Cell, Arm>, halt: Halt)
    requires Inv(w)
    ensures Inv(w.(closeBarrier := closeBarrier, bandit := bandit, halt := halt))
  {
    var w' := w.(closeBarrier := closeBarrier, bandit := bandit, halt := halt);
    assert OrdersFit(w') by {
      forall o | 0 <= o < |w.orders| ensures OrderFits(w', w.orders[o]) {
        assert OrderFits(w, w.orders[o]);
      }
    }
    assert StatusesFit(w') by {
      forall o | 0 <= o < |w.orders|
        ensures Suits(w.orders[o], w.positions[w.orders[o].pid].status, CloseAttempt(w', w.orders[o].pid))
      {
        assert Suits(w.orders[o], w.positions[w.orders[o].pid].status, CloseAttempt(w, w.orders[o].pid));
      }
    }
  }

  // ----- lists of writes, cut anywhere

  ghost predicate Permitted(w: World, ws: seq<Write>)
    decreases ws
  {
    ws == [] || (Allowed(w, ws[0]) && Permitted(Apply(w, ws[0]), ws[1..]))
  }

  lemma {:induction false} PermittedConcat(w: World, a: seq<Write>, b: seq<Write>)
    requires Permitted(w, a) && Permitted(Run(w, a), b)
    ensures Permitted(w, a + b)
    decreases a
  {
    hide Apply, Allowed, Inv;
    if a == [] {
      assert a + b == b;
    } else {
      assert (a + b)[1..] == a[1..] + b;
      PermittedConcat(Apply(w, a[0]), a[1..], b);
    }
  }

  // Wherever a crash cuts the list, what was written so far satisfies the invariant.
  lemma {:induction false} CrashKeepsInv(w: World, ws: seq<Write>, k: nat)
    requires Inv(w) && Permitted(w, ws) && k <= |ws|
    ensures Inv(Run(w, ws[..k]))
    decreases k
  {
    hide Apply, Allowed, Inv;
    if k > 0 {
      WriteKeepsInv(w, ws[0]);
      assert ws[..k][1..] == ws[1..][..k - 1];
      CrashKeepsInv(Apply(w, ws[0]), ws[1..], k - 1);
    }
  }

  lemma {:induction false} PermittedAt(w: World, ws: seq<Write>, k: nat)
    requires Permitted(w, ws) && k < |ws|
    ensures Allowed(Run(w, ws[..k]), ws[k])
    ensures Run(w, ws[..k + 1]) == Apply(Run(w, ws[..k]), ws[k])
    decreases k
  {
    hide Apply, Allowed, Inv;
    if k > 0 {
      assert ws[..k][1..] == ws[1..][..k - 1];
      assert ws[..k + 1][1..] == ws[1..][..k];
      PermittedAt(Apply(w, ws[0]), ws[1..], k - 1);
    } else {
      assert ws[..1] == [ws[0]] && ws[..1][1..] == [];
    }
  }

  // Each write leaves every position where it is or moves it along one edge; rows never vanish.
  lemma StatusMovesAlongEdges(w: World, ws: seq<Write>, k: nat, p: nat)
    requires Permitted(w, ws) && k < |ws| && p < |Run(w, ws[..k]).positions|
    ensures var a, b := Run(w, ws[..k]), Run(w, ws[..k + 1]);
            && p < |b.positions|
            && (a.positions[p] == b.positions[p] || Edge(a.positions[p].status, b.positions[p].status))
  {
    hide Run, Permitted;
    PermittedAt(w, ws, k);
    ApplyEdge(Run(w, ws[..k]), ws[k], p);
  }

  lemma ApplyEdge(w: World, x: Write, p: nat)
    requires Allowed(w, x) && p < |w.positions|
    ensures p < |Apply(w, x).positions|
    ensures w.positions[p] == Apply(w, x).positions[p]
            || Edge(w.positions[p].status, Apply(w, x).positions[p].status)
  {
    hide AddSpreads, Traded, Rewarded;
  }

  lemma ApplyGrows(w: World, x: Write)
    ensures Apply(w, x).cfg == w.cfg
    ensures |w.positions| <= |Apply(w, x).positions| && |w.orders| <= |Apply(w, x).orders|
    ensures w.broker.Keys <= Apply(w, x).broker.Keys
  {
    hide AddSpreads, Traded, Rewarded;
  }

  lemma ApplyFinal(w: World, x: Write, p: nat)
    requires Allowed(w, x) && p < |w.positions| && !Live(w.positions[p].status)
    ensures p < |Apply(w, x).positions| && Apply(w, x).positions[p] == w.positions[p]
  {
    hide AddSpreads, Traded, Rewarded;
  }

  lemma {:induction false} RowsOnlyGrow(w: World, ws: seq<Write>)
    ensures |w.positions| <= |Run(w, ws).positions| && |w.orders| <= |Run(w, ws).orders|
    decreases ws
  {
    hide Apply, Allowed, Inv;
    if ws != [] { ApplyGrows(w, ws[0]); RowsOnlyGrow(Apply(w, ws[0]), ws[1..]); }
  }

  // A closed or failed position is never written again.
  lemma {:induction false} FinalIsFinal(w: World, ws: seq<Write>, p: nat)
    requires Permitted(w, ws) && p < |w.positions| && !Live(w.positions[p].status)
    ensures p < |Run(w, ws).positions| && Run(w, ws).positions[p] == w.positions[p]
    decreases ws
  {
    hide Apply, Allowed, Inv;
    if ws != [] { ApplyFinal(w, ws[0], p); FinalIsFinal(Apply(w, ws[0]), ws[1..], p); }
  }

  // No order that opens risk, first price or ladder rung, reaches the broker while halted.
  lemma NothingOpensWhileHalted(w: World, ws: seq<Write>, k: nat)
    requires Permitted(w, ws) && k < |ws| && Halted(Run(w, ws[..k]))
    ensures !ws[k].InsertPosition?
    ensures ws[k].InsertOrder? ==> ws[k].order.intent.ToClose?
    ensures ws[k].Accept? ==> ws[k].ticket.intent.ToClose?
  {
    hide Run, Permitted;
    PermittedAt(w, ws, k);
  }

  // The broker is never asked to take a client order id it has already seen.
  lemma NoIdReachesBrokerTwice(w: World, ws: seq<Write>, i: nat, j: nat)
    requires Permitted(w, ws) && i < j < |ws| && ws[i].Accept? && ws[j].Accept?
    ensures ws[i].key != ws[j].key
  {
    hide Run, Permitted;
    PermittedAt(w, ws, i);
    PermittedAt(w, ws, j);
    assert ws[i].key in Run(w, ws[..i + 1]).broker;
    assert ws[..j] == ws[..i + 1] + ws[i + 1..j];
    RunConcat(w, ws[..i + 1], ws[i + 1..j]);
    BrokerForgetsNothing(Run(w, ws[..i + 1]), ws[i + 1..j]);
  }

  lemma {:induction false} BrokerForgetsNothing(w: World, ws: seq<Write>)
    ensures w.broker.Keys <= Run(w, ws).broker.Keys
    decreases ws
  {
    hide Apply, Allowed, Inv;
    if ws != [] {
      ApplyGrows(w, ws[0]);
      BrokerForgetsNothing(Apply(w, ws[0]), ws[1..]);
    }
  }

  // ----- building permitted lists, first write first

  lemma PermitFirst(w: World, a: Write, w1: World, rest: seq<Write>)
    requires Allowed(w, a) && Apply(w, a) == w1 && Permitted(w1, rest)
    ensures Permitted(w, [a] + rest)
  {
    hide Allowed, Apply;
    assert ([a] + rest)[1..] == rest;
  }

  lemma PermitOne(w: World, a: Write)
    requires Allowed(w, a)
    ensures Permitted(w, [a])
  {
    hide Allowed, Apply;
    assert [a][1..] == [];
  }

  lemma PermitSetOrder(w: World, o: nat, row: Order, rest: seq<Write>)
    requires MaySetOrder(w, o, row) && Permitted(w.(orders := w.orders[o := row]), rest)
    ensures Permitted(w, [SetOrder(o, row)] + rest)
  {
    hide MaySetOrder, Apply, Run, Permitted;
    assert Allowed(w, SetOrder(o, row));
    assert o < |w.orders| by { MaySetOrderBounds(w, o, row); }
    RunSetOrder(w, o, row, rest);
    PermitFirst(w, SetOrder(o, row), w.(orders := w.orders[o := row]), rest);
  }

  lemma MaySetOrderBounds(w: World, o: nat, row: Order)
    requires MaySetOrder(w, o, row)
    ensures o < |w.orders|
  {
  }

  lemma PermitSetPosition(w: World, pid: nat, row: Position, rest: seq<Write>)
    requires pid < |w.positions| && MaySetPosition(w, pid, row)
    requires Permitted(w.(positions := w.positions[pid := row]), rest)
    ensures Permitted(w, [SetPosition(pid, row)] + rest)
  {
    hide MaySetPosition, Apply, Run, Permitted;
    assert Allowed(w, SetPosition(pid, row));
    RunSetPosition(w, pid, row, rest);
    PermitFirst(w, SetPosition(pid, row), w.(positions := w.positions[pid := row]), rest);
  }

  lemma CountAllowed(w: World, pid: nat, n: nat)
    requires pid < |w.positions| && n >= CloseAttempt(w, pid) && n >= 1
    ensures Allowed(w, SetCloseAttempt(pid, n))
  {
  }

  lemma PermitSetCloseAttempt(w: World, pid: nat, n: nat, rest: seq<Write>)
    requires pid < |w.positions| && n >= CloseAttempt(w, pid) && n >= 1
    requires Permitted(w.(closeAttempt := w.closeAttempt[pid := n]), rest)
    ensures Permitted(w, [SetCloseAttempt(pid, n)] + rest)
  {
    hide Allowed, Apply, Run, Permitted;
    var x := SetCloseAttempt(pid, n);
    CountAllowed(w, pid, n);
    RunCount(w, x, rest);
    PermitFirst(w, x, w.(closeAttempt := w.closeAttempt[pid := n]), rest);
  }

  lemma PermitSetCloseBarrier(w: World, pid: nat, b: Barrier, rest: seq<Write>)
    requires Permitted(w.(closeBarrier := w.closeBarrier[pid := b]), rest)
    ensures Permitted(w, [SetCloseBarrier(pid, b)] + rest)
  {
    hide Apply, Run, Permitted;
    RunSetCloseBarrier(w, pid, b, rest);
    PermitFirst(w, SetCloseBarrier(pid, b), w.(closeBarrier := w.closeBarrier[pid := b]), rest);
  }

  lemma PermitInsertOrder(w: World, row: Order, rest: seq<Write>)
    requires MayInsertOrder(w, row) && Permitted(w.(orders := w.orders + [row]), rest)
    ensures Permitted(w, [InsertOrder(row)] + rest)
  {
    hide MayInsertOrder, Apply, Run, Permitted;
    assert Allowed(w, InsertOrder(row));
    RunInsertOrder(w, row, rest);
    PermitFirst(w, InsertOrder(row), w.(orders := w.orders + [row]), rest);
  }

  lemma PermitInsertPosition(w: World, row: Position, rest: seq<Write>)
    requires MayInsertPosition(w, row) && Permitted(w.(positions := w.positions + [row]), rest)
    ensures Permitted(w, [InsertPosition(row)] + rest)
  {
    hide MayInsertPosition, Apply, Run, Permitted;
    assert Allowed(w, InsertPosition(row));
    RunInsertPosition(w, row, rest);
    PermitFirst(w, InsertPosition(row), w.(positions := w.positions + [row]), rest);
  }

  lemma PermitAccept(w: World, key: OrderKey, t: Ticket, rest: seq<Write>)
    requires Matches(w, key, t) && Permitted(w.(broker := w.broker[key := t]), rest)
    ensures Permitted(w, [Accept(key, t)] + rest)
  {
    hide Matches, Apply, Run, Permitted;
    assert Allowed(w, Accept(key, t));
    RunAccept(w, key, t, rest);
    PermitFirst(w, Accept(key, t), w.(broker := w.broker[key := t]), rest);
  }

  lemma PermitWithdraw(w: World, key: OrderKey, rest: seq<Write>)
    requires MayLapse(w, key, Canceled) && Permitted(w.(broker := Ended(w.broker, key, Canceled)), rest)
    ensures Permitted(w, [Withdraw(key)] + rest)
  {
    hide MayLapse, Apply, Ended, Run, Permitted;
    assert Allowed(w, Withdraw(key));
    RunWithdraw(w, key, rest);
    PermitFirst(w, Withdraw(key), w.(broker := Ended(w.broker, key, Canceled)), rest);
  }
}
