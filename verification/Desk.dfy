/**
 The trader as it runs: a store whose tables it rewrites, a broker behind the wire,
 and operations that change both step by step. Every operation is proved to leave
 exactly the world its list of writes describes, so what is proved of the lists
 holds of the code.
 */
module Desk {
  import opened Wrappers
  import opened Structures
  import opened World
  import opened Ladder
  import opened Protocol
  import opened Lifecycle
  import opened LifecycleProofs
  import opened Effects

  class Store {
    var orders: seq<Order>
    var positions: seq<Position>
    var entryAttempt: map<nat, nat>
    var closeAttempt: map<nat, nat>
    var closeBarrier: map<nat, Barrier>
    var bandit: map<Cell, Arm>
    var halt: Halt

    constructor ()
      ensures orders == [] && positions == [] && halt == Halt("", "", "")
      ensures entryAttempt == map[] && closeAttempt == map[] && closeBarrier == map[] && bandit == map[]
    {
      orders, positions, halt := [], [], Halt("", "", "");
      entryAttempt, closeAttempt, closeBarrier, bandit := map[], map[], map[], map[];
    }

    method RecordOrder(row: Order)
      modifies `orders
      ensures orders == old(orders) + [row]
    {
      orders := orders + [row];
    }

    method UpdateOrder(o: nat, row: Order)
      requires o < |orders|
      modifies `orders
      ensures orders == old(orders)[o := row]
    {
      orders := orders[o := row];
    }

    method InsertPosition(row: Position)
      modifies `positions
      ensures positions == old(positions) + [row]
    {
      positions := positions + [row];
    }

    method UpdatePosition(pid: nat, row: Position)
      requires pid < |positions|
      modifies `positions
      ensures positions == old(positions)[pid := row]
    {
      positions := positions[pid := row];
    }

    method SetEntryAttempt(pid: nat, n: nat)
      modifies `entryAttempt
      ensures entryAttempt == old(entryAttempt)[pid := n]
    {
      entryAttempt := entryAttempt[pid := n];
    }

    method SetCloseAttempt(pid: nat, n: nat)
      modifies `closeAttempt
      ensures closeAttempt == old(closeAttempt)[pid := n]
    {
      closeAttempt := closeAttempt[pid := n];
    }

    method SetCloseBarrier(pid: nat, barrier: Barrier)
      modifies `closeBarrier
      ensures closeBarrier == old(closeBarrier)[pid := barrier]
    {
      closeBarrier := closeBarrier[pid := barrier];
    }

    // Insert the prior unless the cell exists, then count the outcome.
    method UpdateBandit(cell: Cell, won: bool)
      modifies `bandit
      ensures bandit == Rewarded(old(bandit), cell, won)
    {
      if cell !in bandit {
        bandit := bandit[cell := Arm(1, 1, 0)];
      }
      var arm := bandit[cell];
      if won {
        bandit := bandit[cell := Arm(arm.alpha + 1, arm.beta, arm.pulls + 1)];
      } else {
        bandit := bandit[cell := Arm(arm.alpha, arm.beta + 1, arm.pulls + 1)];
      }
    }

    method GetOrder(key: OrderKey) returns (r: Option<nat>)
      ensures r == Find(orders, key)
    {
      var o := |orders|;
      assert orders[..o] == orders;
      while o > 0
        invariant 0 <= o <= |orders|
        invariant Find(orders, key) == Find(orders[..o], key)
      {
        assert orders[..o][..o - 1] == orders[..o - 1];
        if orders[o - 1].key == key {
          return Some(o - 1);
        }
        o := o - 1;
      }
      return None;
    }

    method LatestOrderFor(pid: nat, intent: Intent) returns (r: Option<nat>)
      ensures r == Latest(orders, pid, intent)
    {
      var o := |orders|;
      assert orders[..o] == orders;
      while o > 0
        invariant 0 <= o <= |orders|
        invariant Latest(orders, pid, intent) == Latest(orders[..o], pid, intent)
      {
        assert orders[..o][..o - 1] == orders[..o - 1];
        if Of(orders[o - 1], pid, intent) {
          return Some(o - 1);
        }
        o := o - 1;
      }
      return None;
    }

    method PositionForSignal(signal: string) returns (found: bool)
      ensures found <==> exists p :: 0 <= p < |positions| && positions[p].signal == signal
    {
      var p := 0;
      while p < |positions|
        invariant 0 <= p <= |positions|
        invariant forall q :: 0 <= q < p ==> positions[q].signal != signal
      {
        if positions[p].signal == signal {
          return true;
        }
        p := p + 1;
      }
      return false;
    }

    // Every contract on or going on, each on the side the last row names.
    method HeldLegs() returns (held: map<string, Side>)
      ensures forall x :: x in held <==>
                exists p :: 0 <= p < |positions| && Live(positions[p].status) && x in Symbols(positions[p].structure.legs)
      ensures forall x :: x in held ==> NamesSide(positions, x, held[x], |positions|)
    {
      held := map[];
      var p := 0;
      while p < |positions|
        invariant 0 <= p <= |positions|
        invariant forall x :: x in held <==>
          exists q :: 0 <= q < p && Live(positions[q].status) && x in Symbols(positions[q].structure.legs)
        invariant forall x :: x in held ==> NamesSide(positions, x, held[x], p)
      {
        if Live(positions[p].status) {
          var legs := positions[p].structure.legs;
          ghost var before := held;
          var i := 0;
          while i < |legs|
            invariant 0 <= i <= |legs|
            invariant forall x :: x in held <==> x in before || exists j :: 0 <= j < i && legs[j].symbol == x
            invariant forall x :: x in held ==> NamesSide(positions, x, held[x], p + 1)
          {
            held := held[legs[i].symbol := legs[i].side];
            i := i + 1;
          }
        }
        p := p + 1;
      }
    }
  }

  // One of the first n rows is live with a leg of the contract on this side.
  ghost predicate NamesSide(positions: seq<Position>, x: string, side: Side, n: nat) {
    exists p, i ::
      && 0 <= p < n && p < |positions| && Live(positions[p].status) && 0 <= i < |positions[p].structure.legs|
      && positions[p].structure.legs[i].symbol == x && positions[p].structure.legs[i].side == side
  }

  class Exchange {
    var book: map<OrderKey, Ticket>
    var holdings: map<string, int>
    var cash: real

    constructor ()
      ensures book == map[] && holdings == map[] && cash == 0.0
    {
      book, holdings, cash := map[], map[], 0.0;
    }

    method Take(key: OrderKey, t: Ticket)
      modifies `book
      ensures book == old(book)[key := t]
    {
      book := book[key := t];
    }

    method Drop(key: OrderKey, status: OrderStatus)
      modifies `book
      ensures book == Ended(old(book), key, status)
    {
      if key in book {
        book := book[key := book[key].(state := Gone(status))];
      }
    }
  }

  // Legs the gate refuses: already held, on either side.
  method LegConflict(legs: seq<Leg>, held: map<string, Side>) returns (opposed: seq<string>, shared: seq<string>)
    ensures opposed + shared == [] <==> forall i :: 0 <= i < |legs| ==> legs[i].symbol !in held
    ensures forall x :: x in opposed <==>
              exists i :: 0 <= i < |legs| && legs[i].symbol == x && x in held && held[x] != legs[i].side
    ensures forall x :: x in shared <==>
              exists i :: 0 <= i < |legs| && legs[i].symbol == x && x in held && held[x] == legs[i].side
  {
    opposed, shared := [], [];
    var i := 0;
    while i < |legs|
      invariant 0 <= i <= |legs|
      invariant opposed + shared == [] <==> forall j :: 0 <= j < i ==> legs[j].symbol !in held
      invariant forall x :: x in opposed <==>
        exists j :: 0 <= j < i && legs[j].symbol == x && x in held && held[x] != legs[j].side
      invariant forall x :: x in shared <==>
        exists j :: 0 <= j < i && legs[j].symbol == x && x in held && held[x] == legs[j].side
    {
      var leg := legs[i];
      if leg.symbol in held {
        if held[leg.symbol] == leg.side {
          shared := shared + [leg.symbol];
        } else {
          opposed := opposed + [leg.symbol];
        }
      }
      i := i + 1;
    }
  }

  class Trader {
    const cfg: Config
    const store: Store
    const broker: Exchange

    constructor (cfg: Config)
      requires Sane(cfg)
      ensures this.cfg == cfg && fresh(store) && fresh(broker) && Valid()
    {
      this.cfg := cfg;
      store := new Store();
      broker := new Exchange();
    }

    function View(): World
      reads store, broker
    {
      World(cfg, store.orders, store.positions, store.entryAttempt, store.closeAttempt, store.closeBarrier,
                  store.bandit, store.halt, broker.book, broker.holdings, broker.cash)
    }

    ghost predicate Valid()
      reads store, broker
    {
      Inv(View())
    }

    // ----- router

    method SubmitStructure(env: Env, key: OrderKey, pid: nat, intent: Intent, limit: int) returns (raised: bool)
      requires pid < |store.positions|
      modifies store`orders, broker`book
      ensures var out := Submit(old(View()), env, key, pid, intent, limit);
              View() == Run(old(View()), out.ws) && raised == out.raised
    {
      hide Run, Apply, DefinedRisk;
      ghost var w := View();
      RunNothing(w);
      var pos := store.positions[pid];
      var check := AssertDefinedRisk(pos.structure);
      if check.Refused? || pos.qty < 1 {
        return true;
      }
      var existing := store.GetOrder(key);
      var o := existing.GetOr(|store.orders|);
      if existing.Some? && (store.orders[o].status.Submitted? || store.orders[o].status.Filled?) {
        return false;
      }
      if existing.None? {
        var row := Order(key, pid, intent, Pending, limit, false, None, env.now);
        store.RecordOrder(row);
        RunInsertOrder(w, row, Send(w, env, o, row, pos).ws);
      }
      raised := Wire(env, o, pos);
    }

    method Wire(env: Env, o: nat, pos: Position) returns (raised: bool)
      requires o < |store.orders|
      modifies store`orders, broker`book
      ensures var out := Send(old(View()), env, o, old(store.orders[o]), pos);
              View() == Run(old(View()), out.ws) && raised == out.raised
    {
      hide Run, Apply, Send;
      var row := store.orders[o];
      SendRuns(View(), env, o, row, pos);
      if row.key in env.submitDown || row.key in broker.book {
        store.UpdateOrder(o, row.(status := Rejected));
        return true;
      }
      broker.Take(row.key, NewTicket(row, pos));
      store.UpdateOrder(o, row.(status := Submitted, confirmed := true));
      return false;
    }

    // An answered poll completes a row that never got past pending.
    method PollOrder(env: Env, o: nat) returns (answer: Answer)
      requires o < |store.orders|
      modifies store`orders
      ensures answer == Poll(old(View()), env, old(store.orders[o]).key)
      ensures var key := old(store.orders[o]).key;
              answer.NoAnswer? <==> key in env.pollDown || key !in broker.book
      ensures var key := old(store.orders[o]).key;
              !answer.NoAnswer? ==>
                match broker.book[key].state
                case Complete => answer.FilledAt? && (broker.book[key].qty > 0 ==>
                                   answer.price * broker.book[key].qty as real == broker.book[key].paid)
                case Gone(status) => answer == DeadAs(status)
                case Working => answer == if key in env.limbo then Unlisted else Resting
      ensures View() == Run(old(View()), if answer.NoAnswer? then [] else Backfill(old(View()), o))
    {
      hide Run, Apply;
      ghost var w := View();
      RunNothing(w);
      BackfillRuns(w, o);
      var row := store.orders[o];
      if row.key in env.pollDown || row.key !in broker.book {
        return NoAnswer;
      }
      if row.status.Pending? {
        store.UpdateOrder(o, row.(status := Submitted, confirmed := true));
      }
      match broker.book[row.key].state
      case Complete => return FilledAt(Average(broker.book[row.key]));
      case Gone(status) => return DeadAs(status);
      case Working => return if row.key in env.limbo then Unlisted else Resting;
    }

    method CancelOrder(env: Env, o: nat, confirmed: bool) returns (raised: bool)
      requires o < |store.orders|
      modifies store`orders, broker`book
      ensures raised == !CancelGoes(old(View()), env, old(store.orders[o]).key, confirmed)
      ensures View() == Run(old(View()), if raised then [] else Cancel(old(View()), o))
    {
      hide Run, Apply;
      ghost var w := View();
      RunNothing(w);
      CancelRuns(w, o);
      var row := store.orders[o];
      if row.key in env.cancelDown || !confirmed || row.key !in broker.book
         || !broker.book[row.key].state.Working? {
        return true;
      }
      broker.Drop(row.key, Canceled);
      store.UpdateOrder(o, row.(status := Canceled));
      return false;
    }

    // ----- lifecycle

    method Fill(env: Env, o: nat, price: Option<real>)
      requires o < |store.orders|
      modifies store`orders, store`positions, store`bandit
      ensures View() == Run(old(View()), OnFill(old(View()), env, o, price))
    {
      hide Run, Apply, Entered, Exited, Rewarded, OnFill;
      FillRuns(View(), env, o, price);
      var row := store.orders[o].(status := Filled, filledPrice := price);
      store.UpdateOrder(o, row);
      if row.pid >= |store.positions| {
        return;
      }
      var pos := store.positions[row.pid];
      if row.intent.ToOpen? {
        store.UpdatePosition(row.pid, Entered(env, pos, price));
      } else {
        ExitedAlone(old(View()), View(), row.pid, pos, price);
        Finish(row.pid, Exited(View(), row.pid, pos, price));
      }
    }

    // Record the exit and its label, and reward the bandit for it.
    method Finish(pid: nat, out: Position)
      requires pid < |store.positions| && out.win.Some?
      modifies store`positions, store`bandit
      ensures View() == old(View()).(positions := old(store.positions)[pid := out],
                bandit := if out.regime == "" then old(store.bandit)
                          else Rewarded(old(store.bandit), Cell(out.structure.kind, out.regime), out.win.value))
    {
      store.UpdatePosition(pid, out);
      if out.regime != "" {
        store.UpdateBandit(Cell(out.structure.kind, out.regime), out.win.value);
      }
    }

    method Die(o: nat, status: OrderStatus)
      requires o < |store.orders|
      modifies store`orders, store`positions, store`closeAttempt
      ensures View() == Run(old(View()), OnDead(old(View()), o, status))
    {
      hide Run, Apply, OnDead;
      DeathRuns(View(), o, status);
      var row := store.orders[o].(status := status);
      store.UpdateOrder(o, row);
      if row.pid >= |store.positions| {
        return;
      }
      var pos := store.positions[row.pid];
      if row.intent.ToOpen? && pos.status.Opening? {
        store.UpdatePosition(row.pid, pos.(status := Failed));
      } else if row.intent.ToClose? && pos.status.Closing? {
        Reopen(row.pid);
      }
    }

    // Back in front of the manager, with an attempt that makes its next client id fresh.
    method Reopen(pid: nat)
      requires pid < |store.positions|
      modifies store`positions, store`closeAttempt
      ensures View() == old(View()).(positions := old(store.positions)[pid := old(store.positions)[pid].(status := Open)],
                                     closeAttempt := old(store.closeAttempt)[pid := CloseAttempt(old(View()), pid) + 1])
    {
      var n := if pid in store.closeAttempt then store.closeAttempt[pid] else 0;
      store.SetCloseAttempt(pid, n + 1);
      store.UpdatePosition(pid, store.positions[pid].(status := Open));
    }

    method Void(env: Env, o: nat)
      requires o < |store.orders|
      modifies store`orders
      ensures View() == Run(old(View()), MaybeVoid(old(View()), env, o))
    {
      hide Run, Apply;
      ghost var w := View();
      RunNothing(w);
      var row := store.orders[o];
      if row.confirmed || !row.status.Pending? {
        return;
      }
      if env.now - row.createdAt < cfg.entryTimeout {
        return;
      }
      store.UpdateOrder(o, row.(status := Canceled));
      RunSetOrder(w, o, row.(status := Canceled), []);
      RunNothing(View());
      assert [SetOrder(o, row.(status := Canceled))] + [] == MaybeVoid(w, env, o);
    }

    // Withdraw the resting entry, count the attempt, submit the next rung.
    method Rung(env: Env, o: nat, n: nat, limit: int) returns (raised: bool)
      requires o < |store.orders| && store.orders[o].pid < |store.positions|
      requires CancelGoes(View(), env, store.orders[o].key, true)
      modifies store`orders, store`entryAttempt, broker`book
      ensures var out := ReplaceEntry(old(View()), env, o, n, limit);
              View() == Run(old(View()), out.ws) && raised == out.raised
    {
      hide Run, Apply, Submit, Cancel, Ended;
      ghost var w := View();
      var pid := store.orders[o].pid;
      var pos := store.positions[pid];
      CancelRuns(w, o);
      var _ := CancelOrder(env, o, true);
      store.SetEntryAttempt(pid, n);
      CancelThenCount(w, o, SetEntryAttempt(pid, n));
      RunCount(Withdrawn(w, o), SetEntryAttempt(pid, n), []);
      RunConcat(w, Cancel(w, o) + [SetEntryAttempt(pid, n)],
                Submit(View(), env, OpenKey(pos.signal, pos.structure, n), pid, ToOpen, limit).ws);
      raised := SubmitStructure(env, OpenKey(pos.signal, pos.structure, n), pid, ToOpen, limit);
    }

    method Escalation(env: Env, o: nat, n: nat, limit: int) returns (raised: bool)
      requires o < |store.orders| && store.orders[o].pid < |store.positions|
      requires CancelGoes(View(), env, store.orders[o].key, true)
      modifies store`orders, store`closeAttempt, broker`book
      ensures var out := ReplaceClose(old(View()), env, o, n, limit);
              View() == Run(old(View()), out.ws) && raised == out.raised
    {
      hide Run, Apply, Submit, Cancel, Ended;
      ghost var w := View();
      var pid := store.orders[o].pid;
      var pos := store.positions[pid];
      CancelRuns(w, o);
      var _ := CancelOrder(env, o, true);
      store.SetCloseAttempt(pid, n);
      CancelThenCount(w, o, SetCloseAttempt(pid, n));
      RunCount(Withdrawn(w, o), SetCloseAttempt(pid, n), []);
      RunConcat(w, Cancel(w, o) + [SetCloseAttempt(pid, n)],
                Submit(View(), env, CloseKey(pos.signal, Escalated, n), pid, ToClose, limit).ws);
      raised := SubmitStructure(env, CloseKey(pos.signal, Escalated, n), pid, ToClose, limit);
    }

    method LadderEntry(env: Env, o: nat, confirmed: bool) returns (raised: bool)
      requires o < |store.orders| && store.orders[o].pid < |store.positions|
      modifies store`orders, store`entryAttempt, broker`book
      ensures var out := Carry(old(View()), env, o, EscalateEntry(old(View()), env, old(store.orders)[o]), confirmed);
              View() == Run(old(View()), out.ws) && raised == out.raised
    {
      hide Run, Apply, ReplaceEntry, ReplaceClose, EntryRung;
      RunNothing(View());
      var row := store.orders[o];
      var pos := store.positions[row.pid];
      if store.halt.reason != "" || (cfg.deadline.Some? && env.now >= cfg.deadline.value) {
        return false;
      }
      var attempt := if row.pid in store.entryAttempt then store.entryAttempt[row.pid] else 0;
      if attempt >= cfg.ladderSteps || env.now - pos.openedAt < cfg.stepSeconds * (attempt + 1) {
        return false;
      }
      var rung := EntryRung(cfg, pos.entry * 100.0, pos.spreadPct, row.limit);
      if rung.None? || !CancelGoes(View(), env, row.key, confirmed) {
        return false;
      }
      raised := Rung(env, o, attempt + 1, rung.value);
    }

    method LadderClose(env: Env, o: nat, confirmed: bool) returns (raised: bool)
      requires o < |store.orders| && store.orders[o].pid < |store.positions|
      modifies store`orders, store`closeAttempt, broker`book
      ensures var out := Carry(old(View()), env, o, EscalateClose(old(View()), old(store.orders)[o]), confirmed);
              View() == Run(old(View()), out.ws) && raised == out.raised
    {
      hide Run, Apply, ReplaceEntry, ReplaceClose, CloseRung;
      RunNothing(View());
      var row := store.orders[o];
      var attempt := if row.pid in store.closeAttempt then store.closeAttempt[row.pid] else 1;
      if attempt >= cfg.closeMaxAttempts || !CancelGoes(View(), env, row.key, confirmed) {
        return false;
      }
      raised := Escalation(env, o, attempt + 1, CloseRung(cfg, row.limit));
    }

    // A resting order past its step, budget or retry time is withdrawn, and perhaps replaced.
    method Expire(env: Env, o: nat, confirmed: bool) returns (raised: bool)
      requires o < |store.orders| && store.orders[o].pid < |store.positions|
      modifies store`orders, store`entryAttempt, store`closeAttempt, broker`book
      ensures var out := MaybeExpire(old(View()), env, o, confirmed);
              View() == Run(old(View()), out.ws) && raised == out.raised
    {
      hide Run, Apply, EscalateEntry, EscalateClose, ReplaceEntry, ReplaceClose, EntryBudget;
      RunNothing(View());
      var row := store.orders[o];
      var pos := store.positions[row.pid];
      if row.intent.ToOpen? {
        if (env.now - pos.openedAt) as real < EntryBudget(cfg, pos.spreadPct) {
          raised := LadderEntry(env, o, confirmed);
        } else {
          var _ := CancelOrder(env, o, confirmed);
          return false;
        }
      } else {
        if env.now - row.createdAt < cfg.closeRetry {
          return false;
        }
        raised := LadderClose(env, o, confirmed);
      }
    }

    method SyncOrder(env: Env, o: nat) returns (raised: bool)
      requires o < |store.orders| && store.orders[o].pid < |store.positions|
      modifies store, broker`book
      ensures var out := SyncOne(old(View()), env, o);
              View() == Run(old(View()), out.ws) && raised == out.raised
    {
      hide Run, Apply, OnFill, OnDead, MaybeExpire, Poll, Backfill, MaybeVoid;
      ghost var w := View();
      BackfillRuns(w, o);
      var confirmed := store.orders[o].confirmed;
      var answer := PollOrder(env, o);
      if answer.NoAnswer? {
        RunNothing(w);
        Void(env, o);
        return false;
      }
      RunConcat(w, Backfill(w, o), Resolution(View(), env, o, answer, confirmed).ws);
      RunNothing(View());
      raised := false;
      match answer
      case FilledAt(price) => Fill(env, o, Some(price));
      case DeadAs(status) => Die(o, status);
      case Resting => raised := Expire(env, o, confirmed);
      case _ =>
    }

    method SyncOrders(env: Env) returns (raised: bool)
      modifies store, broker`book
      ensures var out := SyncFrom(old(View()), env, old(store.orders), 0);
              View() == Run(old(View()), out.ws) && raised == out.raised
    {
      hide Run, Apply, SyncOne;
      var snapshot := store.orders;
      raised := false;
      var o := 0;
      while o < |snapshot|
        invariant 0 <= o <= |snapshot| && !raised
        invariant var all, rest := SyncFrom(old(View()), env, snapshot, 0), SyncFrom(View(), env, snapshot, o);
                  Run(old(View()), all.ws) == Run(View(), rest.ws) && all.raised == rest.raised
      {
        LoopUnfolds(View(), env, snapshot, o);
        RunNothing(View());
        if InFlight(snapshot[o]) && o < |store.orders| && store.orders[o].pid < |store.positions| {
          raised := SyncOrder(env, o);
          if raised {
            return;
          }
        }
        o := o + 1;
      }
      RunNothing(View());
    }

    method SweepOrphans(env: Env)
      modifies store`orders, store`positions, store`bandit, store`closeAttempt
      ensures View() == Run(old(View()), SweepFrom(old(View()), env, InFlightPids(old(store.orders)), 0, |old(store.positions)|))
    {
      hide Run, Apply, OnFill, OnDead;
      var inFlight := InFlightPids(store.orders);
      var n := |store.positions|;
      var p := 0;
      while p < n && p < |store.positions|
        invariant 0 <= p <= n
        invariant Run(old(View()), SweepFrom(old(View()), env, inFlight, 0, n)) ==
                  Run(View(), SweepFrom(View(), env, inFlight, p, n))
        decreases n - p
      {
        ghost var w := View();
        RunConcat(w, SweepOne(w, env, inFlight, p),
                  SweepFrom(Run(w, SweepOne(w, env, inFlight, p)), env, inFlight, p + 1, n));
        RunNothing(w);
        var st := store.positions[p].status;
        if (st.Opening? || st.Closing?) && p !in inFlight {
          var found := store.LatestOrderFor(p, if st.Opening? then ToOpen else ToClose);
          if found.Some? {
            var row := store.orders[found.value];
            if row.status.Filled? {
              Fill(env, found.value, row.filledPrice);
            } else if Dead(row) {
              Die(found.value, row.status);
            }
          }
        }
        p := p + 1;
      }
      RunNothing(View());
    }

    // Every in-flight order, then the positions whose order left flight some other way.
    method SyncAll(env: Env) returns (raised: bool)
      requires Valid()
      modifies store, broker`book
      ensures var out := Sync(old(View()), env);
              View() == Run(old(View()), out.ws) && raised == out.raised
      ensures Valid()
    {
      hide Run, Apply, Inv, Permitted, SyncFrom, SweepFrom, InFlightPids;
      ghost var w := View();
      SyncPermitted(w, env);
      RunKeepsInv(w, Sync(w, env).ws);
      raised := SyncOrders(env);
      if !raised {
        ghost var w1 := View();
        RunConcat(w, SyncFrom(w, env, w.orders, 0).ws, SweepFrom(w1, env, InFlightPids(w1.orders), 0, |w1.positions|));
        SweepOrphans(env);
      }
    }

    // ----- trader

    method SendClose(env: Env, pid: nat, barrier: Barrier, limit: int) returns (raised: bool)
      requires pid < |store.positions|
      modifies store`orders, store`positions, store`closeBarrier, broker`book
      ensures var out := Close(old(View()), env, pid, barrier, limit);
              View() == Run(old(View()), out.ws) && raised == out.raised
    {
      hide Run, Apply, Submit, Close;
      SendCloseRuns(View(), env, pid, barrier, limit);
      var pos := store.positions[pid];
      if !pos.status.Open? {
        return false;
      }
      var attempt := if pid in store.closeAttempt then store.closeAttempt[pid] else 0;
      store.UpdatePosition(pid, pos.(status := Closing));
      store.SetCloseBarrier(pid, barrier);
      raised := SubmitStructure(env, CloseKey(pos.signal, By(barrier), attempt), pid, ToClose, limit);
    }

    method ClosePosition(env: Env, pid: nat, barrier: Barrier, limit: int) returns (raised: bool)
      requires Valid() && pid < |store.positions|
      modifies store`orders, store`positions, store`closeBarrier, broker`book
      ensures var out := Close(old(View()), env, pid, barrier, limit);
              View() == Run(old(View()), out.ws) && raised == out.raised
      ensures Valid()
    {
      hide Run, Apply, Inv, Permitted, Close;
      ClosePermitted(View(), env, pid, barrier, limit);
      RunKeepsInv(View(), Close(View(), env, pid, barrier, limit).ws);
      raised := SendClose(env, pid, barrier, limit);
    }

    // The gate's checks that read the tables: halt, defined risk, size, and no contract used twice.
    method Gate(p: Proposal) returns (approved: bool)
      ensures approved == GateApproves(View(), p)
    {
      var held := store.HeldLegs();
      var opposed, shared := LegConflict(p.structure.legs, held);
      var check := AssertDefinedRisk(p.structure);
      approved := store.halt.reason == "" && check.Accepted? && p.qty >= 1 && opposed + shared == [] && p.clears;
      FreeMeansUnheld(store.positions, p.structure.legs, held);
    }

    // A structure that cannot be priced is dropped before the gate sees it.
    method PriceAndGate(p: Proposal) returns (approved: bool)
      ensures approved == (UnitRisk(p).Dollars? && GateApproves(View(), p))
    {
      hide MaxLossPerSpread, GateApproves;
      var risk := MaxLoss(p.structure, p.net as real / 100.0);
      if !risk.Dollars? {
        return false;
      }
      approved := Gate(p);
    }

    // Neither seen nor halted before, priced, and passed by the gate.
    method Takes(p: Proposal) returns (taken: bool)
      ensures taken == Taken(View(), p)
    {
      hide GateApproves, UnitRisk;
      if Halted(View()) { HaltedRefused(View(), p); }
      var seen := store.PositionForSignal(p.signal);
      if seen || store.halt.reason != "" {
        return false;
      }
      taken := PriceAndGate(p);
    }

    // The position row is durable before its order, and the order before the wire.
    method Execute(env: Env, p: Proposal) returns (raised: bool)
      requires UnitRisk(p).Dollars?
      modifies store`orders, store`positions, broker`book
      ensures var w := old(View());
              var w1 := w.(positions := w.positions + [NewPosition(env, p)]);
              var out := Submit(w1, env, OpenKey(p.signal, p.structure, 0), |w.positions|, ToOpen, p.net);
              View() == Run(w1, out.ws) && raised == out.raised
    {
      hide Run, Apply, Submit, UnitRisk;
      var pid := |store.positions|;
      store.InsertPosition(NewPosition(env, p));
      raised := SubmitStructure(env, OpenKey(p.signal, p.structure, 0), pid, ToOpen, p.net);
    }

    method ProcessNews(env: Env, p: Proposal) returns (raised: bool)
      requires Valid() && OneEach(p.structure.legs)
      modifies store`orders, store`positions, broker`book
      ensures var out := News(old(View()), env, p);
              View() == Run(old(View()), out.ws) && raised == out.raised
      ensures Valid()
    {
      hide Run, Apply, Inv, News, Submit, GateApproves, OneEach, NewPosition, UnitRisk, MaxLossPerSpread, Taken;
      ghost var w := View();
      NewsKeepsInv(w, env, p);
      var taken := Takes(p);
      if !taken {
        NewsRefused(w, env, p);
        return false;
      }
      TakenIs(w, p);
      NewsRuns(w, env, p);
      raised := Execute(env, p);
    }
  }

  // ----- steps of the proofs above

  lemma ExitedAlone(w: World, w': World, pid: nat, pos: Position, price: Option<real>)
    requires w'.closeBarrier == w.closeBarrier
    ensures Exited(w', pid, pos, price) == Exited(w, pid, pos, price)
  {
  }

  lemma HaltedRefused(w: World, p: Proposal)
    requires Halted(w)
    ensures !GateApproves(w, p)
  {
  }

  lemma TakenIs(w: World, p: Proposal)
    requires Taken(w, p)
    ensures UnitRisk(p).Dollars?
  {
  }

  lemma NewsKeepsInv(w: World, env: Env, p: Proposal)
    requires Inv(w) && OneEach(p.structure.legs)
    ensures Inv(Run(w, News(w, env, p).ws))
  {
    hide Run, Inv, Permitted, OneEach, News;
    NewsPermitted(w, env, p);
    RunKeepsInv(w, News(w, env, p).ws);
  }

  lemma FreeMeansUnheld(positions: seq<Position>, legs: seq<Leg>, held: map<string, Side>)
    requires forall x :: x in held <==>
               exists p :: 0 <= p < |positions| && Live(positions[p].status) && x in Symbols(positions[p].structure.legs)
    ensures LegsFree(positions, legs) <==> forall i :: 0 <= i < |legs| ==> legs[i].symbol !in held
  {
    if LegsFree(positions, legs) {
      forall i | 0 <= i < |legs| ensures legs[i].symbol !in held {
        assert legs[i].symbol in Symbols(legs);
      }
    }
  }
}
