/**
 The two sides the trading protocol keeps in agreement: the store's tables and
 state keys, and the broker. Every durable effect of the trader is one `Write`;
 an operation is the list of writes it performs, so a crash is a prefix of it.
 */
module World {
  import opened Structures
  import opened Wrappers
  import opened Ladder

  // ----- rows

  datatype Intent = ToOpen | ToClose

  datatype OrderStatus = Pending | Submitted | Filled | Canceled | Rejected | Expired

  datatype Barrier =
    | Profit | Stop | Time | Breakeven | Trail | Bell
    | Deadline | ExpiryRisk | MacroRisk | ThesisBroken | ThesisComplete | SupervisorFlatten

  datatype Reason = By(barrier: Barrier) | Escalated

  // The inputs of the client order id digests; positions are named by their signal.
  datatype OrderKey =
    | OpenKey(signal: string, structure: Structure, attempt: nat)
    | CloseKey(signal: string, reason: Reason, attempt: nat)

  // `pid` is the row number of the order's position; limits are whole cents.
  datatype Order = Order(
    key: OrderKey, pid: nat, intent: Intent, status: OrderStatus, limit: int,
    confirmed: bool, filledPrice: Option<real>, createdAt: int)

  datatype Status = Opening | Open | Closing | Closed | Failed

  datatype Position = Position(
    signal: string, structure: Structure, qty: nat, entry: real, maxLoss: real, status: Status,
    openedAt: int, spreadPct: real, regime: string, entrySpot: real,
    barrier: Option<Barrier>, win: Option<bool>, realized: real)

  datatype Cell = Cell(kind: Kind, regime: string)

  datatype Arm = Arm(alpha: nat, beta: nat, pulls: nat)

  datatype Halt = Halt(reason: string, source: string, guard: string)

  // ----- the broker

  datatype TicketState = Working | Complete | Gone(status: OrderStatus)

  // `filled` spreads so far, for `paid` dollars per share summed over them.
  datatype Ticket = Ticket(
    intent: Intent, legs: seq<Leg>, qty: nat, limit: int, state: TicketState, filled: nat, paid: real)

  datatype World = World(
    cfg: Config,
    orders: seq<Order>, positions: seq<Position>,
    entryAttempt: map<nat, nat>, closeAttempt: map<nat, nat>, closeBarrier: map<nat, Barrier>,
    bandit: map<Cell, Arm>, halt: Halt,
    broker: map<OrderKey, Ticket>, holdings: map<string, int>, cash: real)

  datatype Write =
    | InsertPosition(row: Position)
    | SetPosition(pid: nat, row: Position)
    | InsertOrder(order: Order)
    | SetOrder(o: nat, order: Order)
    | SetEntryAttempt(pid: nat, n: nat)
    | SetCloseAttempt(pid: nat, n: nat)
    | SetCloseBarrier(pid: nat, barrier: Barrier)
    | Reward(cell: Cell, won: bool)
    | SetHalt(halt: Halt)
    | Accept(key: OrderKey, ticket: Ticket)
    | Withdraw(key: OrderKey)
    | Trade(key: OrderKey, n: nat, price: real)
    | Lapse(key: OrderKey, status: OrderStatus)

  // ----- table queries

  predicate InFlight(row: Order) { row.status.Pending? || row.status.Submitted? }

  predicate DeadStatus(s: OrderStatus) { s.Canceled? || s.Rejected? || s.Expired? }

  predicate Dead(row: Order) { DeadStatus(row.status) }

  predicate Of(row: Order, pid: nat, intent: Intent) { row.pid == pid && row.intent == intent }

  predicate Live(s: Status) { s.Opening? || s.Open? || s.Closing? }

  predicate Halted(w: World) { w.halt.reason != "" }

  function EntryAttempt(w: World, pid: nat): nat {
    if pid in w.entryAttempt then w.entryAttempt[pid] else 0
  }

  function CloseAttempt(w: World, pid: nat): nat {
    if pid in w.closeAttempt then w.closeAttempt[pid] else 0
  }

  function Counter(w: World, pid: nat, intent: Intent): nat {
    if intent.ToOpen? then EntryAttempt(w, pid) else CloseAttempt(w, pid)
  }

  // The order row with this client order id, if one was ever recorded.
  function Find(orders: seq<Order>, key: OrderKey): (r: Option<nat>)
    ensures r.Some? ==> r.value < |orders| && orders[r.value].key == key
    ensures r.None? ==> forall o :: 0 <= o < |orders| ==> orders[o].key != key
  {
    if orders == [] then None
    else if orders[|orders| - 1].key == key then Some(|orders| - 1)
    else Find(orders[..|orders| - 1], key)
  }

  // Most recent order of the given intent for a position, any status.
  function Latest(orders: seq<Order>, pid: nat, intent: Intent): (r: Option<nat>)
    ensures r.Some? ==> r.value < |orders| && Of(orders[r.value], pid, intent)
                        && forall o :: r.value < o < |orders| ==> !Of(orders[o], pid, intent)
    ensures r.None? ==> forall o :: 0 <= o < |orders| ==> !Of(orders[o], pid, intent)
  {
    if orders == [] then None
    else if Of(orders[|orders| - 1], pid, intent) then Some(|orders| - 1)
    else Latest(orders[..|orders| - 1], pid, intent)
  }

  function Symbols(legs: seq<Leg>): set<string> {
    set i | 0 <= i < |legs| :: legs[i].symbol
  }

  // ----- contract counts

  function Held(m: map<string, int>, x: string): int { if x in m then m[x] else 0 }

  function Signed(leg: Leg, n: int): int { if leg.side == Long then leg.ratio * n else -(leg.ratio * n) }

  // Signed contracts of symbol x in n spreads.
  function LegQty(legs: seq<Leg>, x: string, n: int): int {
    if legs == [] then 0
    else (if legs[0].symbol == x then Signed(legs[0], n) else 0) + LegQty(legs[1..], x, n)
  }

  function AddSpreads(m: map<string, int>, legs: seq<Leg>, n: int): map<string, int>
    decreases legs
  {
    if legs == [] then m
    else AddSpreads(m[legs[0].symbol := Held(m, legs[0].symbol) + Signed(legs[0], n)], legs[1..], n)
  }

  // ----- one durable effect

  function Rewarded(bandit: map<Cell, Arm>, cell: Cell, won: bool): map<Cell, Arm> {
    var arm := if cell in bandit then bandit[cell] else Arm(1, 1, 0);
    bandit[cell := if won then Arm(arm.alpha + 1, arm.beta, arm.pulls + 1)
                   else Arm(arm.alpha, arm.beta + 1, arm.pulls + 1)]
  }

  function Traded(t: Ticket, n: nat, price: real): Ticket {
    t.(filled := t.filled + n,
       paid := t.paid + n as real * price,
       state := if t.filled + n >= t.qty then Complete else t.state)
  }

  function Replaced<T>(rows: seq<T>, i: nat, row: T): seq<T> {
    if i < |rows| then rows[i := row] else rows
  }

  function Ended(broker: map<OrderKey, Ticket>, key: OrderKey, status: OrderStatus): map<OrderKey, Ticket> {
    if key in broker then broker[key := broker[key].(state := Gone(status))] else broker
  }

  // n spreads of a working order execute at one price.
  function Executed(w: World, key: OrderKey, n: nat, price: real): World
    requires key in w.broker
  {
    var t := w.broker[key];
    var signed: int := if t.intent.ToOpen? then n as int else -(n as int);
    w.(broker := w.broker[key := Traded(t, n, price)],
       holdings := AddSpreads(w.holdings, t.legs, signed),
       cash := w.cash - 100.0 * (n as real * price))
  }

  function Apply(w: World, x: Write): World {
    match x
    case InsertPosition(row) => w.(positions := w.positions + [row])
    case SetPosition(pid, row) => w.(positions := Replaced(w.positions, pid, row))
    case InsertOrder(row) => w.(orders := w.orders + [row])
    case SetOrder(o, row) => w.(orders := Replaced(w.orders, o, row))
    case SetEntryAttempt(pid, n) => w.(entryAttempt := w.entryAttempt[pid := n])
    case SetCloseAttempt(pid, n) => w.(closeAttempt := w.closeAttempt[pid := n])
    case SetCloseBarrier(pid, b) => w.(closeBarrier := w.closeBarrier[pid := b])
    case Reward(cell, won) => w.(bandit := Rewarded(w.bandit, cell, won))
    case SetHalt(h) => w.(halt := h)
    case Accept(key, t) => w.(broker := w.broker[key := t])
    case Withdraw(key) => w.(broker := Ended(w.broker, key, Canceled))
    case Lapse(key, status) => w.(broker := Ended(w.broker, key, status))
    case Trade(key, n, price) => if key in w.broker then Executed(w, key, n, price) else w
  }

  function Run(w: World, ws: seq<Write>): World
    decreases ws
  {
    if ws == [] then w else Run(Apply(w, ws[0]), ws[1..])
  }

  lemma {:induction false} RunConcat(w: World, a: seq<Write>, b: seq<Write>)
    ensures Run(w, a + b) == Run(Run(w, a), b)
    decreases a
  {
    if a == [] {
      assert a + b == b;
    } else {
      assert (a + b)[1..] == a[1..] + b;
      RunConcat(Apply(w, a[0]), a[1..], b);
    }
  }

  lemma Run1(w: World, a: Write)
    ensures Run(w, [a]) == Apply(w, a)
  {
    hide Apply;
    assert [a][1..] == [];
  }

  lemma RunNothing(w: World)
    ensures Run(w, []) == w
  {
  }

  lemma RunFirst(w: World, a: Write, rest: seq<Write>)
    ensures Run(w, [a] + rest) == Run(Apply(w, a), rest)
  {
    hide Apply;
    assert ([a] + rest)[1..] == rest;
  }

  // ----- what each kind of write changes

  lemma RunSetOrder(w: World, o: nat, row: Order, rest: seq<Write>)
    requires o < |w.orders|
    ensures Apply(w, SetOrder(o, row)) == w.(orders := w.orders[o := row])
    ensures Run(w, [SetOrder(o, row)] + rest) == Run(w.(orders := w.orders[o := row]), rest)
  {
    hide Run, Ended, Rewarded;
    assert Apply(w, SetOrder(o, row)) == w.(orders := w.orders[o := row]);
    RunFirst(w, SetOrder(o, row), rest);
  }

  lemma RunSetPosition(w: World, pid: nat, row: Position, rest: seq<Write>)
    requires pid < |w.positions|
    ensures Apply(w, SetPosition(pid, row)) == w.(positions := w.positions[pid := row])
    ensures Run(w, [SetPosition(pid, row)] + rest) == Run(w.(positions := w.positions[pid := row]), rest)
  {
    hide Run, Ended, Rewarded;
    assert Apply(w, SetPosition(pid, row)) == w.(positions := w.positions[pid := row]);
    RunFirst(w, SetPosition(pid, row), rest);
  }

  lemma RunCount(w: World, x: Write, rest: seq<Write>)
    requires x.SetEntryAttempt? || x.SetCloseAttempt?
    ensures var w1 := if x.SetEntryAttempt? then w.(entryAttempt := w.entryAttempt[x.pid := x.n])
                      else w.(closeAttempt := w.closeAttempt[x.pid := x.n]);
            Apply(w, x) == w1 && Run(w, [x] + rest) == Run(w1, rest)
  {
    hide Run, Ended, Rewarded;
    assert Apply(w, x) == if x.SetEntryAttempt? then w.(entryAttempt := w.entryAttempt[x.pid := x.n])
                          else w.(closeAttempt := w.closeAttempt[x.pid := x.n]);
    RunFirst(w, x, rest);
  }

  lemma RunSetCloseBarrier(w: World, pid: nat, b: Barrier, rest: seq<Write>)
    ensures Apply(w, SetCloseBarrier(pid, b)) == w.(closeBarrier := w.closeBarrier[pid := b])
    ensures Run(w, [SetCloseBarrier(pid, b)] + rest) == Run(w.(closeBarrier := w.closeBarrier[pid := b]), rest)
  {
    hide Run, Ended, Rewarded;
    assert Apply(w, SetCloseBarrier(pid, b)) == w.(closeBarrier := w.closeBarrier[pid := b]);
    RunFirst(w, SetCloseBarrier(pid, b), rest);
  }

  lemma RunReward(w: World, cell: Cell, won: bool, rest: seq<Write>)
    ensures Apply(w, Reward(cell, won)) == w.(bandit := Rewarded(w.bandit, cell, won))
    ensures Run(w, [Reward(cell, won)] + rest) == Run(w.(bandit := Rewarded(w.bandit, cell, won)), rest)
  {
    hide Run, Ended, Rewarded;
    assert Apply(w, Reward(cell, won)) == w.(bandit := Rewarded(w.bandit, cell, won));
    RunFirst(w, Reward(cell, won), rest);
  }

  lemma RunInsertOrder(w: World, row: Order, rest: seq<Write>)
    ensures Apply(w, InsertOrder(row)) == w.(orders := w.orders + [row])
    ensures Run(w, [InsertOrder(row)] + rest) == Run(w.(orders := w.orders + [row]), rest)
  {
    hide Run, Ended, Rewarded;
    assert Apply(w, InsertOrder(row)) == w.(orders := w.orders + [row]);
    RunFirst(w, InsertOrder(row), rest);
  }

  lemma RunInsertPosition(w: World, row: Position, rest: seq<Write>)
    ensures Apply(w, InsertPosition(row)) == w.(positions := w.positions + [row])
    ensures Run(w, [InsertPosition(row)] + rest) == Run(w.(positions := w.positions + [row]), rest)
  {
    hide Run, Ended, Rewarded;
    assert Apply(w, InsertPosition(row)) == w.(positions := w.positions + [row]);
    RunFirst(w, InsertPosition(row), rest);
  }

  lemma RunAccept(w: World, key: OrderKey, t: Ticket, rest: seq<Write>)
    ensures Apply(w, Accept(key, t)) == w.(broker := w.broker[key := t])
    ensures Run(w, [Accept(key, t)] + rest) == Run(w.(broker := w.broker[key := t]), rest)
  {
    hide Run, Ended, Rewarded;
    assert Apply(w, Accept(key, t)) == w.(broker := w.broker[key := t]);
    RunFirst(w, Accept(key, t), rest);
  }

  lemma RunWithdraw(w: World, key: OrderKey, rest: seq<Write>)
    ensures Apply(w, Withdraw(key)) == w.(broker := Ended(w.broker, key, Canceled))
    ensures Run(w, [Withdraw(key)] + rest) == Run(w.(broker := Ended(w.broker, key, Canceled)), rest)
  {
    hide Run, Ended, Rewarded;
    assert Apply(w, Withdraw(key)) == w.(broker := Ended(w.broker, key, Canceled));
    RunFirst(w, Withdraw(key), rest);
  }
}
