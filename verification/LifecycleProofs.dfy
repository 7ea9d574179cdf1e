/**
 Every operation of the trader keeps to the protocol's discipline, write by write.
 */
module LifecycleProofs {
  import opened Arithmetic
  import opened Wrappers
  import opened Structures
  import opened World
  import opened Ladder
  import opened Protocol
  import opened Lifecycle

  lemma RunKeepsInv(w: World, ws: seq<Write>)
    requires Inv(w) && Permitted(w, ws)
    ensures Inv(Run(w, ws))
  {
    hide Inv, Permitted, Run;
    CrashKeepsInv(w, ws, |ws|);
    assert ws[..|ws|] == ws;
  }

  // What the invariant says of one order row.
  lemma RowFits(w: World, o: nat)
    requires Inv(w) && o < |w.orders|
    ensures OrderFits(w, w.orders[o])
    ensures Suits(w.orders[o], w.positions[w.orders[o].pid].status, CloseAttempt(w, w.orders[o].pid))
    ensures w.orders[o].key in w.broker ==> Known(w.orders, w.orders[o].key, w.broker[w.orders[o].key])
  {
  }

  lemma SaneOf(w: World)
    requires Inv(w)
    ensures Sane(w.cfg) && CountersFit(w)
  {
  }

  lemma PermitNothing(w: World)
    ensures Permitted(w, [])
  {
  }

  // ----- submit

  function NewOrder(env: Env, key: OrderKey, pid: nat, intent: Intent, limit: int): Order {
    Order(key, pid, intent, Pending, limit, false, None, env.now)
  }

  // A permitted submission always carries an id nobody has used, so it is really sent.
  lemma SubmitSends(w: World, env: Env, key: OrderKey, pid: nat, intent: Intent, limit: int)
    requires Inv(w) && MayInsertOrder(w, NewOrder(env, key, pid, intent, limit))
    ensures var row := NewOrder(env, key, pid, intent, limit);
            && key !in w.broker && Find(w.orders, key).None?
            && Submit(w, env, key, pid, intent, limit) ==
               Then([InsertOrder(row)], Send(w, env, |w.orders|, row, w.positions[pid]))
  {
    assert Sound(w.positions[pid]);
    FreshKey(w, NewOrder(env, key, pid, intent, limit));
  }

  lemma SendPermitted(w: World, env: Env, row: Order)
    requires row.pid < |w.positions| && row.key !in w.broker && row.status.Pending? && row.filledPrice.None?
    requires row.intent.ToOpen? ==> !Halted(w)
    ensures Permitted(w.(orders := w.orders + [row]), Send(w, env, |w.orders|, row, w.positions[row.pid]).ws)
  {
    hide Apply, Allowed, Permitted, Run;
    var o, pos := |w.orders|, w.positions[row.pid];
    var w1 := w.(orders := w.orders + [row]);
    if row.key in env.submitDown {
      var dead := row.(status := Rejected);
      PermitNothing(w1.(orders := w1.orders[o := dead]));
      PermitSetOrder(w1, o, dead, []);
      assert [SetOrder(o, dead)] + [] == [SetOrder(o, dead)];
    } else {
      var t, sent := NewTicket(row, pos), row.(status := Submitted, confirmed := true);
      var w2 := w1.(broker := w1.broker[row.key := t]);
      assert Find(w1.orders, row.key) == Some(o);
      PermitNothing(w2.(orders := w2.orders[o := sent]));
      PermitSetOrder(w2, o, sent, []);
      PermitAccept(w1, row.key, t, [SetOrder(o, sent)] + []);
      assert [Accept(row.key, t)] + ([SetOrder(o, sent)] + []) == [Accept(row.key, t), SetOrder(o, sent)];
    }
  }

  lemma SubmitPermitted(w: World, env: Env, key: OrderKey, pid: nat, intent: Intent, limit: int)
    requires Inv(w) && MayInsertOrder(w, NewOrder(env, key, pid, intent, limit))
    ensures Permitted(w, Submit(w, env, key, pid, intent, limit).ws)
  {
    hide Apply, Allowed, Permitted, Run;
    SubmitSends(w, env, key, pid, intent, limit);
    var row := NewOrder(env, key, pid, intent, limit);
    var w1 := w.(orders := w.orders + [row]);
    var sent := Send(w, env, |w.orders|, row, w.positions[pid]).ws;
    assert Permitted(w1, sent) by { SendPermitted(w, env, row); }
    PermitInsertOrder(w, row, sent);
  }

  // ----- fills and deaths

  ghost predicate MayFill(w: World, o: nat, price: Option<real>) {
    && o < |w.orders| && price.Some? && w.orders[o].pid < |w.positions|
    && var row := w.orders[o];
       && (InFlight(row) || (row.status.Filled? && row.filledPrice == price))
       && w.positions[row.pid].status == (if row.intent.ToOpen? then Opening else Closing)
  }

  lemma FillMarks(w: World, o: nat, price: Option<real>)
    requires Inv(w) && MayFill(w, o, price)
    ensures var row := w.orders[o].(status := Filled, filledPrice := price);
            && MaySetOrder(w, o, row)
            && FillPrice(w.orders[o := row], row.pid, row.intent) == price
            && FillPrice(w.orders[o := row], row.pid, ToOpen) ==
               (if row.intent.ToOpen? then price else FillPrice(w.orders, row.pid, ToOpen))
  {
    var row := w.orders[o].(status := Filled, filledPrice := price);
    UndeadIsLatest(w.cfg, w.orders, o);
    LatestUpdate(w.orders, o, row, row.pid, ToOpen);
    LatestUpdate(w.orders, o, row, row.pid, ToClose);
  }

  lemma EnterPermitted(w: World, env: Env, pid: nat, price: Option<real>)
    requires pid < |w.positions| && w.positions[pid].status.Opening?
    requires price.Some? && FillPrice(w.orders, pid, ToOpen) == price
    ensures MaySetPosition(w, pid, Entered(env, w.positions[pid], price))
  {
  }

  lemma ExitPermitted(w: World, pid: nat, price: Option<real>)
    requires pid < |w.positions| && w.positions[pid].status.Closing?
    requires price.Some? && FillPrice(w.orders, pid, ToClose) == price
    requires FillPrice(w.orders, pid, ToOpen) == Some(w.positions[pid].entry)
    ensures MaySetPosition(w, pid, Exited(w, pid, w.positions[pid], price))
  {
  }

  lemma AllBackedAt(w: World, p: nat)
    requires Inv(w) && p < |w.positions|
    ensures Backed(w.orders, p, w.positions[p])
  {
  }

  function FilledRow(row: Order, price: Option<real>): Order { row.(status := Filled, filledPrice := price) }

  lemma EntryFillPermitted(w: World, env: Env, o: nat, price: Option<real>)
    requires MayFill(w, o, price) && w.orders[o].intent.ToOpen?
    requires MaySetOrder(w, o, FilledRow(w.orders[o], price))
    requires FillPrice(w.orders[o := FilledRow(w.orders[o], price)], w.orders[o].pid, ToOpen) == price
    ensures Permitted(w, OnFill(w, env, o, price))
  {
    hide Apply, Allowed, Permitted, Run, Entered, FillPrice, MaySetOrder;
    var row := FilledRow(w.orders[o], price);
    var pid, next := row.pid, Entered(env, w.positions[row.pid], price);
    var w1 := w.(orders := w.orders[o := row]);
    EnterPermitted(w1, env, pid, price);
    PermitNothing(w1.(positions := w1.positions[pid := next]));
    PermitSetPosition(w1, pid, next, []);
    PermitSetOrder(w, o, row, [SetPosition(pid, next)] + []);
    assert OnFill(w, env, o, price) == [SetOrder(o, row)] + ([SetPosition(pid, next)] + []);
  }

  lemma RewardPermitted(w: World, row: Position)
    requires row.win.Some?
    ensures Permitted(w, RewardFor(row))
  {
    if row.regime != "" {
      PermitOne(w, Reward(Cell(row.structure.kind, row.regime), row.win.value));
    }
  }

  lemma CloseFillPermitted(w: World, env: Env, o: nat, price: Option<real>, next: Position)
    requires MayFill(w, o, price) && w.orders[o].intent.ToClose?
    requires next == Exited(w, w.orders[o].pid, w.positions[w.orders[o].pid], price)
    requires MaySetOrder(w, o, FilledRow(w.orders[o], price))
    requires FillPrice(w.orders[o := FilledRow(w.orders[o], price)], w.orders[o].pid, ToClose) == price
    requires FillPrice(w.orders[o := FilledRow(w.orders[o], price)], w.orders[o].pid, ToOpen)
             == Some(w.positions[w.orders[o].pid].entry)
    ensures Permitted(w, OnFill(w, env, o, price))
  {
    hide Apply, Allowed, Permitted, Run, FillPrice, MaySetOrder, Realized;
    var row := FilledRow(w.orders[o], price);
    var pid := row.pid;
    var w1 := w.(orders := w.orders[o := row]);
    ExitPermitted(w1, pid, price);
    var reward := RewardFor(next);
    RewardPermitted(w1.(positions := w1.positions[pid := next]), next);
    PermitSetPosition(w1, pid, next, reward);
    PermitSetOrder(w, o, row, [SetPosition(pid, next)] + reward);
    assert OnFill(w, env, o, price) == [SetOrder(o, row)] + ([SetPosition(pid, next)] + reward);
  }

  lemma OnFillPermitted(w: World, env: Env, o: nat, price: Option<real>)
    requires Inv(w) && MayFill(w, o, price)
    ensures Permitted(w, OnFill(w, env, o, price))
  {
    hide Apply, Allowed, Permitted, Run, Inv, Entered, Exited;
    assert Backed(w.orders, w.orders[o].pid, w.positions[w.orders[o].pid]) by { AllBackedAt(w, w.orders[o].pid); }
    FillMarks(w, o, price);
    if w.orders[o].intent.ToOpen? {
      EntryFillPermitted(w, env, o, price);
    } else {
      CloseFillPermitted(w, env, o, price, Exited(w, w.orders[o].pid, w.positions[w.orders[o].pid], price));
    }
  }

  ghost predicate MayDie(w: World, o: nat, status: OrderStatus) {
    && o < |w.orders| && DeadStatus(status) && w.orders[o].pid < |w.positions|
    && (InFlight(w.orders[o]) || Dead(w.orders[o]))
    && Latest(w.orders, w.orders[o].pid, w.orders[o].intent) == Some(o)
  }

  // Once the newest order is dead, every order of its position and intent is.
  lemma NewestDeadAllDead(cfg: Config, orders: seq<Order>, o: nat, row: Order)
    requires Superseded(cfg, orders) && o < |orders| && SameOrder(orders[o], row) && Dead(row)
    requires Latest(orders, row.pid, row.intent) == Some(o)
    ensures AllDead(orders[o := row], row.pid, row.intent)
  {
    var all := orders[o := row];
    forall i | 0 <= i < |all| && Of(all[i], row.pid, row.intent)
      ensures Dead(all[i])
    {
      if i != o {
        assert Of(orders[i], row.pid, row.intent);
        assert i < o && Of(orders[o], orders[i].pid, orders[i].intent);
      }
    }
  }

  lemma AttemptsBelowNext(w: World, orders: seq<Order>, pid: nat, intent: Intent, next: nat)
    requires Inv(w) && |orders| == |w.orders| && Counter(w, pid, intent) < next
    requires forall i :: 0 <= i < |orders| ==> SameOrder(w.orders[i], orders[i])
    ensures AllBelow(orders, pid, intent, next)
  {
    forall i | 0 <= i < |orders| && Of(orders[i], pid, intent) ensures orders[i].key.attempt < next {
      assert OrderFits(w, w.orders[i]);
    }
  }

  lemma DeathMarks(w: World, o: nat, status: OrderStatus)
    requires Inv(w) && MayDie(w, o, status)
    ensures var row := w.orders[o].(status := status);
            MaySetOrder(w, o, row) && AllDead(w.orders[o := row], row.pid, row.intent)
  {
    NewestDeadAllDead(w.cfg, w.orders, o, w.orders[o].(status := status));
  }

  lemma FailPermitted(w: World, pid: nat)
    requires pid < |w.positions| && w.positions[pid].status.Opening? && AllDead(w.orders, pid, ToOpen)
    ensures MaySetPosition(w, pid, w.positions[pid].(status := Failed))
  {
  }

  lemma ReopenPermitted(w: World, pid: nat)
    requires pid < |w.positions| && w.positions[pid].status.Closing? && AllDead(w.orders, pid, ToClose)
    requires AllBelow(w.orders, pid, ToClose, CloseAttempt(w, pid))
    ensures MaySetPosition(w, pid, w.positions[pid].(status := Open))
  {
  }

  lemma OnDeadPermitted(w: World, o: nat, status: OrderStatus)
    requires Inv(w) && MayDie(w, o, status)
    ensures Permitted(w, OnDead(w, o, status))
  {
    hide Apply, Allowed, Permitted, Run, Inv;
    DeathMarks(w, o, status);
    var row := w.orders[o].(status := status);
    var pid, pos := row.pid, w.positions[row.pid];
    var w1 := w.(orders := w.orders[o := row]);
    if row.intent.ToOpen? && pos.status.Opening? {
      var next := pos.(status := Failed);
      FailPermitted(w1, pid);
      PermitNothing(w1.(positions := w1.positions[pid := next]));
      PermitSetPosition(w1, pid, next, []);
      PermitSetOrder(w, o, row, [SetPosition(pid, next)] + []);
      assert OnDead(w, o, status) == [SetOrder(o, row)] + ([SetPosition(pid, next)] + []);
    } else if row.intent.ToClose? && pos.status.Closing? {
      var n, next := CloseAttempt(w, pid) + 1, pos.(status := Open);
      var w2 := w1.(closeAttempt := w1.closeAttempt[pid := n]);
      assert AllBelow(w1.orders, pid, ToClose, n) by { AttemptsBelowNext(w, w1.orders, pid, ToClose, n); }
      ReopenPermitted(w2, pid);
      PermitNothing(w2.(positions := w2.positions[pid := next]));
      PermitSetPosition(w2, pid, next, []);
      PermitSetCloseAttempt(w1, pid, n, [SetPosition(pid, next)] + []);
      PermitSetOrder(w, o, row, [SetCloseAttempt(pid, n)] + ([SetPosition(pid, next)] + []));
      assert OnDead(w, o, status) == [SetOrder(o, row)] + ([SetCloseAttempt(pid, n)] + ([SetPosition(pid, next)] + []));
    } else {
      PermitNothing(w1);
      PermitSetOrder(w, o, row, []);
      assert OnDead(w, o, status) == [SetOrder(o, row)] + [];
    }
  }

  lemma BackfillPermitted(w: World, o: nat)
    requires Inv(w) && o < |w.orders|
    ensures Permitted(w, Backfill(w, o)) && Inv(Run(w, Backfill(w, o)))
  {
    hide Apply, Allowed, Permitted, Run, Inv;
    if w.orders[o].status.Pending? {
      var row := w.orders[o].(status := Submitted, confirmed := true);
      PermitNothing(w.(orders := w.orders[o := row]));
      PermitSetOrder(w, o, row, []);
      assert Backfill(w, o) == [SetOrder(o, row)] + [];
    } else {
      PermitNothing(w);
    }
    RunKeepsInv(w, Backfill(w, o));
  }

  lemma MaybeVoidPermitted(w: World, env: Env, o: nat)
    requires Inv(w) && o < |w.orders|
    ensures Permitted(w, MaybeVoid(w, env, o))
  {
    hide Apply, Allowed, Permitted, Run, Inv;
    var row := w.orders[o].(status := Canceled);
    PermitNothing(w);
    if MaybeVoid(w, env, o) != [] {
      PermitNothing(w.(orders := w.orders[o := row]));
      PermitSetOrder(w, o, row, []);
      assert MaybeVoid(w, env, o) == [SetOrder(o, row)] + [];
    }
  }

  // ----- staleness

  ghost predicate InTransit(w: World, o: nat) {
    o < |w.orders| && w.orders[o].pid < |w.positions| && InFlight(w.orders[o])
  }

  // After a cancel and a counted attempt, nothing stands in the way of the next rung.
  ghost predicate Cleared(w: World, w1: World, o: nat, n: nat)
    requires o < |w.orders|
  {
    var row := w.orders[o];
    && Inv(w1) && w1.cfg == w.cfg && w1.positions == w.positions && w1.halt == w.halt
    && w1.orders == w.orders[o := row.(status := Canceled)]
    && Counter(w1, row.pid, row.intent) == n
    && AllDead(w1.orders, row.pid, row.intent)
    && AllBelow(w1.orders, row.pid, row.intent, n)
  }

  lemma CancelPermitted(w: World, o: nat)
    requires Inv(w) && InTransit(w, o) && MayLapse(w, w.orders[o].key, Canceled)
    ensures Permitted(w, Cancel(w, o)) && Inv(Withdrawn(w, o))
  {
    hide Apply, Allowed, Permitted, Run, Inv, Ended, MayLapse;
    var row := w.orders[o].(status := Canceled);
    var w1 := w.(broker := Ended(w.broker, row.key, Canceled));
    PermitNothing(w1.(orders := w1.orders[o := row]));
    PermitSetOrder(w1, o, row, []);
    PermitWithdraw(w, row.key, [SetOrder(o, row)] + []);
    assert Cancel(w, o) == [Withdraw(row.key)] + ([SetOrder(o, row)] + []);
    CancelRuns(w, o);
    RunKeepsInv(w, Cancel(w, o));
  }

  ghost predicate CountsUp(w: World, o: nat, x: Write)
    requires o < |w.orders|
  {
    || (x.SetEntryAttempt? && w.orders[o].intent.ToOpen? && x.pid == w.orders[o].pid && x.n > EntryAttempt(w, x.pid))
    || (x.SetCloseAttempt? && w.orders[o].intent.ToClose? && x.pid == w.orders[o].pid && x.n > CloseAttempt(w, x.pid))
  }

  lemma CancelLeavesDead(w: World, o: nat, n: nat)
    requires Inv(w) && InTransit(w, o) && n > Counter(w, w.orders[o].pid, w.orders[o].intent)
    ensures var row := w.orders[o];
            && AllDead(w.orders[o := row.(status := Canceled)], row.pid, row.intent)
            && AllBelow(w.orders[o := row.(status := Canceled)], row.pid, row.intent, n)
  {
    var row := w.orders[o].(status := Canceled);
    UndeadIsLatest(w.cfg, w.orders, o);
    NewestDeadAllDead(w.cfg, w.orders, o, row);
    AttemptsBelowNext(w, w.orders[o := row], row.pid, row.intent, n);
  }

  lemma CancelClears(w: World, o: nat, x: Write)
    requires Inv(w) && InTransit(w, o) && MayLapse(w, w.orders[o].key, Canceled) && CountsUp(w, o, x)
    ensures Permitted(w, Cancel(w, o) + [x])
    ensures Cleared(w, Run(w, Cancel(w, o) + [x]), o, x.n)
  {
    hide Apply, Permitted, Run, Inv, MayLapse, Ended, AllDead, AllBelow;
    var w1 := Withdrawn(w, o);
    CountPermitted(w, o, x);
    CancelThenCount(w, o, x);
    RunCount(w1, x, []);
    WriteKeepsInv(w1, x);
    CancelLeavesDead(w, o, x.n);
  }

  lemma CountPermitted(w: World, o: nat, x: Write)
    requires Inv(w) && InTransit(w, o) && MayLapse(w, w.orders[o].key, Canceled) && CountsUp(w, o, x)
    ensures Permitted(w, Cancel(w, o) + [x])
    ensures Inv(Withdrawn(w, o)) && Allowed(Withdrawn(w, o), x)
  {
    hide Apply, Permitted, Run, Inv, MayLapse, Cancel, Ended;
    CancelPermitted(w, o);
    CancelRuns(w, o);
    assert Allowed(Withdrawn(w, o), x);
    PermitOne(Withdrawn(w, o), x);
    PermittedConcat(w, Cancel(w, o), [x]);
  }

  // The replacements staleness may ask for, read off the world it saw.
  ghost predicate Reasonable(w: World, row: Order, move: Move)
    requires row.pid < |w.positions|
  {
    match move
    case Rest => true
    case Abandon => row.intent.ToOpen?
    case Rung(n, limit) =>
      && row.intent.ToOpen? && !Halted(w)
      && n == EntryAttempt(w, row.pid) + 1 && n <= w.cfg.ladderSteps
      && row.limit < limit && limit != 0 && limit as real <= Reach(w.cfg, w.positions[row.pid].entry * 100.0)
    case Escalate(n, limit) =>
      && row.intent.ToClose? && n > CloseAttempt(w, row.pid) && 2 <= n <= w.cfg.closeMaxAttempts
      && row.limit <= limit && (row.limit > 0 <==> limit > 0)
  }

  lemma EntryMoveReasonable(w: World, env: Env, row: Order)
    requires Sane(w.cfg) && row.pid < |w.positions| && row.intent.ToOpen?
    ensures Reasonable(w, row, EscalateEntry(w, env, row))
  {
    var pos := w.positions[row.pid];
    if EntryRung(w.cfg, pos.entry * 100.0, pos.spreadPct, row.limit).Some? {
      EntryRungConcedes(w.cfg, pos.entry * 100.0, pos.spreadPct, row.limit);
    }
  }

  lemma CloseMoveReasonable(w: World, row: Order)
    requires Sane(w.cfg) && CountersFit(w) && row.pid < |w.positions| && row.intent.ToClose?
    ensures Reasonable(w, row, EscalateClose(w, row))
  {
    CloseRungConcedes(w.cfg, row.limit);
  }

  lemma StalenessReasonable(w: World, env: Env, row: Order)
    requires Sane(w.cfg) && CountersFit(w) && row.pid < |w.positions|
    ensures Reasonable(w, row, Staleness(w, env, row))
  {
    if row.intent.ToOpen? {
      EntryMoveReasonable(w, env, row);
    } else {
      CloseMoveReasonable(w, row);
    }
  }

  lemma RungPriced(w: World, o: nat, limit: int)
    requires Inv(w) && InTransit(w, o) && w.orders[o].intent.ToOpen?
    requires w.orders[o].limit < limit && limit as real <= Reach(w.cfg, w.positions[w.orders[o].pid].entry * 100.0)
    ensures forall i :: 0 <= i < |w.orders| && Of(w.orders[i], w.orders[o].pid, ToOpen) ==> w.orders[i].limit < limit
  {
    UndeadIsLatest(w.cfg, w.orders, o);
    forall i | 0 <= i < |w.orders| && Of(w.orders[i], w.orders[o].pid, ToOpen)
      ensures w.orders[i].limit < limit
    {
      if i < o {
        assert Of(w.orders[o], w.orders[i].pid, w.orders[i].intent);
        assert Supersedes(w.cfg, w.orders[i], w.orders[o]);
      }
    }
  }

  // The row a rung or escalation inserts is one the protocol admits.
  lemma EntryRowAdmitted(w: World, env: Env, o: nat, n: nat, limit: int, w1: World)
    requires Inv(w) && InTransit(w, o) && Reasonable(w, w.orders[o], Rung(n, limit)) && Cleared(w, w1, o, n)
    ensures var pos := w.positions[w.orders[o].pid];
            MayInsertOrder(w1, NewOrder(env, OpenKey(pos.signal, pos.structure, n), w.orders[o].pid, ToOpen, limit))
  {
    hide Inv, Reach;
    var pid := w.orders[o].pid;
    RowFits(w, o);
    RungPriced(w, o, limit);
    assert forall i :: 0 <= i < |w1.orders| ==> SameOrder(w.orders[i], w1.orders[i]);
  }

  lemma CloseRowAdmitted(w: World, env: Env, o: nat, n: nat, limit: int, w1: World)
    requires Inv(w) && InTransit(w, o) && Reasonable(w, w.orders[o], Escalate(n, limit)) && Cleared(w, w1, o, n)
    ensures var pos := w.positions[w.orders[o].pid];
            MayInsertOrder(w1, NewOrder(env, CloseKey(pos.signal, Escalated, n), w.orders[o].pid, ToClose, limit))
  {
    var pid := w.orders[o].pid;
    assert Suits(w.orders[o], w.positions[pid].status, CloseAttempt(w, pid));
  }

  ghost predicate SameKeys(was: seq<Order>, orders: seq<Order>) {
    |was| <= |orders| && forall j :: 0 <= j < |was| ==> was[j].key == orders[j].key
  }

  // The world a replacement is submitted in, and that its row is admitted there.
  lemma EntryStage(w: World, env: Env, o: nat, n: nat, limit: int)
    requires Inv(w) && InTransit(w, o) && Reasonable(w, w.orders[o], Rung(n, limit))
    requires MayLapse(w, w.orders[o].key, Canceled)
    ensures var pid := w.orders[o].pid;
            var pos := w.positions[pid];
            var first := Cancel(w, o) + [SetEntryAttempt(pid, n)];
            && Permitted(w, first) && Inv(Run(w, first)) && SameKeys(w.orders, Run(w, first).orders)
            && MayInsertOrder(Run(w, first), NewOrder(env, OpenKey(pos.signal, pos.structure, n), pid, ToOpen, limit))
  {
    hide Inv, Permitted, Run, Apply, MayInsertOrder;
    CancelClears(w, o, SetEntryAttempt(w.orders[o].pid, n));
    EntryRowAdmitted(w, env, o, n, limit, Run(w, Cancel(w, o) + [SetEntryAttempt(w.orders[o].pid, n)]));
  }

  lemma CloseStage(w: World, env: Env, o: nat, n: nat, limit: int)
    requires Inv(w) && InTransit(w, o) && Reasonable(w, w.orders[o], Escalate(n, limit))
    requires MayLapse(w, w.orders[o].key, Canceled)
    ensures var pid := w.orders[o].pid;
            var first := Cancel(w, o) + [SetCloseAttempt(pid, n)];
            && Permitted(w, first) && Inv(Run(w, first)) && SameKeys(w.orders, Run(w, first).orders)
            && MayInsertOrder(Run(w, first),
                              NewOrder(env, CloseKey(w.positions[pid].signal, Escalated, n), pid, ToClose, limit))
  {
    hide Inv, Permitted, Run, Apply, MayInsertOrder;
    CancelClears(w, o, SetCloseAttempt(w.orders[o].pid, n));
    CloseRowAdmitted(w, env, o, n, limit, Run(w, Cancel(w, o) + [SetCloseAttempt(w.orders[o].pid, n)]));
  }

  lemma ReplaceEntryPermitted(w: World, env: Env, o: nat, n: nat, limit: int)
    requires Inv(w) && InTransit(w, o) && Reasonable(w, w.orders[o], Rung(n, limit))
    requires MayLapse(w, w.orders[o].key, Canceled)
    ensures Permitted(w, ReplaceEntry(w, env, o, n, limit).ws)
  {
    var pid := w.orders[o].pid;
    var first := Cancel(w, o) + [SetEntryAttempt(pid, n)];
    EntryStage(w, env, o, n, limit);
    var w1, key := Run(w, first), OpenKey(w.positions[pid].signal, w.positions[pid].structure, n);
    SubmitPermitted(w1, env, key, pid, ToOpen, limit);
    PermittedConcat(w, first, Submit(w1, env, key, pid, ToOpen, limit).ws);
  }

  lemma ReplaceClosePermitted(w: World, env: Env, o: nat, n: nat, limit: int)
    requires Inv(w) && InTransit(w, o) && Reasonable(w, w.orders[o], Escalate(n, limit))
    requires MayLapse(w, w.orders[o].key, Canceled)
    ensures Permitted(w, ReplaceClose(w, env, o, n, limit).ws)
  {
    var pid := w.orders[o].pid;
    var first := Cancel(w, o) + [SetCloseAttempt(pid, n)];
    CloseStage(w, env, o, n, limit);
    var w1, key := Run(w, first), CloseKey(w.positions[pid].signal, Escalated, n);
    SubmitPermitted(w1, env, key, pid, ToClose, limit);
    PermittedConcat(w, first, Submit(w1, env, key, pid, ToClose, limit).ws);
  }

  lemma CarryPermitted(w: World, env: Env, o: nat, move: Move, confirmed: bool)
    requires Inv(w) && InTransit(w, o) && Reasonable(w, w.orders[o], move)
    ensures Permitted(w, Carry(w, env, o, move, confirmed).ws)
  {
    if CancelGoes(w, env, w.orders[o].key, confirmed) {
      match move
      case Rung(n, limit) => ReplaceEntryPermitted(w, env, o, n, limit);
      case Escalate(n, limit) => ReplaceClosePermitted(w, env, o, n, limit);
      case _ => CancelPermitted(w, o);
    }
  }

  lemma MaybeExpirePermitted(w: World, env: Env, o: nat, confirmed: bool)
    requires Inv(w) && InTransit(w, o)
    ensures Permitted(w, MaybeExpire(w, env, o, confirmed).ws)
  {
    StalenessReasonable(w, env, w.orders[o]);
    CarryPermitted(w, env, o, Staleness(w, env, w.orders[o]), confirmed);
  }

  // ----- sync

  lemma SupersededRows(w: World)
    requires Inv(w)
    ensures Superseded(w.cfg, w.orders)
  {
  }

  lemma AfterBackfill(w: World, o: nat)
    requires Inv(w) && InTransit(w, o)
    ensures Permitted(w, Backfill(w, o))
    ensures var w1 := Run(w, Backfill(w, o));
            && Inv(w1) && InTransit(w1, o) && w1.positions == w.positions && w1.broker == w.broker
            && Latest(w1.orders, w1.orders[o].pid, w1.orders[o].intent) == Some(o)
            && w1.positions[w1.orders[o].pid].status == (if w1.orders[o].intent.ToOpen? then Opening else Closing)
  {
    hide Inv, Permitted, Run, Apply, Backfill;
    BackfillPermitted(w, o);
    BackfillRuns(w, o);
    var w1 := Run(w, Backfill(w, o));
    SupersededRows(w1);
    UndeadIsLatest(w1.cfg, w1.orders, o);
    RowFits(w1, o);
  }

  lemma ResolutionPermitted(w: World, env: Env, o: nat, answer: Answer, confirmed: bool)
    requires Inv(w) && InTransit(w, o) && (answer.DeadAs? ==> DeadStatus(answer.status))
    requires Latest(w.orders, w.orders[o].pid, w.orders[o].intent) == Some(o)
    requires w.positions[w.orders[o].pid].status == (if w.orders[o].intent.ToOpen? then Opening else Closing)
    ensures Permitted(w, Resolution(w, env, o, answer, confirmed).ws)
  {
    match answer
    case FilledAt(price) => OnFillPermitted(w, env, o, Some(price));
    case DeadAs(status) => OnDeadPermitted(w, o, status);
    case Resting => MaybeExpirePermitted(w, env, o, confirmed);
    case _ =>
  }

  lemma SyncOnePermitted(w: World, env: Env, o: nat)
    requires Inv(w) && InTransit(w, o)
    ensures Permitted(w, SyncOne(w, env, o).ws)
  {
    hide Inv, Permitted, Run, Apply, Resolution, MaybeVoid, Backfill;
    BackfillRuns(w, o);
    RowFits(w, o);
    var answer := Poll(w, env, w.orders[o].key);
    if answer.NoAnswer? {
      MaybeVoidPermitted(w, env, o);
    } else {
      var w1 := Run(w, Backfill(w, o));
      AfterBackfill(w, o);
      ResolutionPermitted(w1, env, o, answer, w.orders[o].confirmed);
      PermittedConcat(w, Backfill(w, o), Resolution(w1, env, o, answer, w.orders[o].confirmed).ws);
    }
  }

  // ----- what an operation on one order leaves alone

  // Writes about order row o of position pid, and rows appended after those in `was`.
  ghost predicate Local(x: Write, o: nat, pid: nat, was: seq<Order>) {
    match x
    case InsertPosition(_) => false
    case SetPosition(p, _) => p == pid
    case InsertOrder(row) => row.pid == pid
    case SetOrder(i, row) => (i == o || i >= |was|) && row.pid == pid
    case SetEntryAttempt(p, _) => p == pid
    case SetCloseAttempt(p, _) => p == pid
    case Accept(key, _) => Find(was, key).None?
    case Withdraw(key) => o < |was| && key == was[o].key
    case Reward(_, _) => true
    case _ => false
  }

  ghost predicate AllLocal(ws: seq<Write>, o: nat, pid: nat, was: seq<Order>) {
    forall i :: 0 <= i < |ws| ==> Local(ws[i], o, pid, was)
  }

  // Order row o, and every row appended after those in `was`, belongs to the position.
  ghost predicate RowsOf(orders: seq<Order>, o: nat, pid: nat, was: seq<Order>) {
    forall j :: 0 <= j < |orders| && (j == o || j >= |was|) ==> orders[j].pid == pid
  }

  function TicketOf(broker: map<OrderKey, Ticket>, key: OrderKey): Option<Ticket> {
    if key in broker then Some(broker[key]) else None
  }

  // The counters of other positions, the tickets of other rows and what all of them share.
  ghost predicate KeepsOthers(w: World, w': World, o: nat, pid: nat, was: seq<Order>) {
    && w'.cfg == w.cfg && w'.halt == w.halt && w'.closeBarrier == w.closeBarrier
    && (forall p :: p != pid ==> EntryAttempt(w', p) == EntryAttempt(w, p) && CloseAttempt(w', p) == CloseAttempt(w, p))
    && (forall j :: 0 <= j < |was| && o < |was| && was[j].key != was[o].key ==>
          TicketOf(w'.broker, was[j].key) == TicketOf(w.broker, was[j].key))
  }

  ghost predicate LeavesAlone(w: World, w': World, o: nat, pid: nat, was: seq<Order>)
    requires |was| <= |w.orders|
  {
    && |w'.orders| >= |w.orders| && |w'.positions| == |w.positions|
    && (forall j :: 0 <= j < |was| && j != o ==> w'.orders[j] == w.orders[j])
    && (forall p :: 0 <= p < |w.positions| && p != pid ==> w'.positions[p] == w.positions[p])
    && (forall j :: 0 <= j < |was| && was[j].key !in w.broker ==> was[j].key !in w'.broker)
    && (RowsOf(w.orders, o, pid, was) ==> RowsOf(w'.orders, o, pid, was))
    && KeepsOthers(w, w', o, pid, was)
  }

  lemma {:induction false} RunLocal(w: World, ws: seq<Write>, o: nat, pid: nat, was: seq<Order>)
    requires AllLocal(ws, o, pid, was) && |was| <= |w.orders|
    ensures LeavesAlone(w, Run(w, ws), o, pid, was)
    decreases ws
  {
    if ws != [] {
      ApplyLocal(w, ws[0], o, pid, was);
      assert forall i :: 0 <= i < |ws[1..]| ==> ws[1..][i] == ws[i + 1];
      RunLocal(Apply(w, ws[0]), ws[1..], o, pid, was);
    }
  }

  lemma ApplyLocal(w: World, x: Write, o: nat, pid: nat, was: seq<Order>)
    requires Local(x, o, pid, was) && |was| <= |w.orders|
    ensures LeavesAlone(w, Apply(w, x), o, pid, was)
  {
  }

  lemma SubmitLocal(w: World, env: Env, key: OrderKey, pid: nat, intent: Intent, limit: int, o: nat, was: seq<Order>)
    requires Inv(w) && MayInsertOrder(w, NewOrder(env, key, pid, intent, limit)) && SameKeys(was, w.orders)
    ensures AllLocal(Submit(w, env, key, pid, intent, limit).ws, o, pid, was)
  {
    hide Inv, MayInsertOrder;
    SubmitSends(w, env, key, pid, intent, limit);
    assert Find(was, key).None?;
  }

  lemma LocalConcat(a: seq<Write>, b: seq<Write>, o: nat, pid: nat, was: seq<Order>)
    requires AllLocal(a, o, pid, was) && AllLocal(b, o, pid, was)
    ensures AllLocal(a + b, o, pid, was)
  {
  }

  lemma ReplaceEntryLocal(w: World, env: Env, o: nat, n: nat, limit: int)
    requires Inv(w) && InTransit(w, o) && Reasonable(w, w.orders[o], Rung(n, limit))
    requires MayLapse(w, w.orders[o].key, Canceled)
    ensures AllLocal(ReplaceEntry(w, env, o, n, limit).ws, o, w.orders[o].pid, w.orders)
  {
    hide Inv, MayInsertOrder;
    var pid := w.orders[o].pid;
    var first := Cancel(w, o) + [SetEntryAttempt(pid, n)];
    var w1, key := Run(w, first), OpenKey(w.positions[pid].signal, w.positions[pid].structure, n);
    CancelThenCount(w, o, SetEntryAttempt(pid, n));
    var sent := Submit(w1, env, key, pid, ToOpen, limit).ws;
    assert AllLocal(sent, o, pid, w.orders) by {
      EntryStage(w, env, o, n, limit);
      SubmitLocal(w1, env, key, pid, ToOpen, limit, o, w.orders);
    }
    LocalConcat(first, sent, o, pid, w.orders);
    assert ReplaceEntry(w, env, o, n, limit).ws == first + sent;
  }

  lemma ReplaceCloseLocal(w: World, env: Env, o: nat, n: nat, limit: int)
    requires Inv(w) && InTransit(w, o) && Reasonable(w, w.orders[o], Escalate(n, limit))
    requires MayLapse(w, w.orders[o].key, Canceled)
    ensures AllLocal(ReplaceClose(w, env, o, n, limit).ws, o, w.orders[o].pid, w.orders)
  {
    hide Inv, MayInsertOrder;
    var pid := w.orders[o].pid;
    var first := Cancel(w, o) + [SetCloseAttempt(pid, n)];
    var w1, key := Run(w, first), CloseKey(w.positions[pid].signal, Escalated, n);
    CancelThenCount(w, o, SetCloseAttempt(pid, n));
    var sent := Submit(w1, env, key, pid, ToClose, limit).ws;
    assert AllLocal(sent, o, pid, w.orders) by {
      CloseStage(w, env, o, n, limit);
      SubmitLocal(w1, env, key, pid, ToClose, limit, o, w.orders);
    }
    LocalConcat(first, sent, o, pid, w.orders);
    assert ReplaceClose(w, env, o, n, limit).ws == first + sent;
  }

  lemma MaybeExpireLocal(w: World, env: Env, o: nat, confirmed: bool)
    requires Inv(w) && InTransit(w, o)
    ensures AllLocal(MaybeExpire(w, env, o, confirmed).ws, o, w.orders[o].pid, w.orders)
  {
    StalenessReasonable(w, env, w.orders[o]);
    CarryLocal(w, env, o, Staleness(w, env, w.orders[o]), confirmed);
  }

  lemma CarryLocal(w: World, env: Env, o: nat, move: Move, confirmed: bool)
    requires Inv(w) && InTransit(w, o) && Reasonable(w, w.orders[o], move)
    ensures AllLocal(Carry(w, env, o, move, confirmed).ws, o, w.orders[o].pid, w.orders)
  {
    hide Inv, ReplaceEntry, ReplaceClose, Reasonable;
    if CancelGoes(w, env, w.orders[o].key, confirmed) {
      match move
      case Rung(n, limit) => ReplaceEntryLocal(w, env, o, n, limit);
      case Escalate(n, limit) => ReplaceCloseLocal(w, env, o, n, limit);
      case _ =>
    }
  }

  lemma FillLocal(w: World, env: Env, o: nat, price: Option<real>, status: OrderStatus)
    requires o < |w.orders| && w.orders[o].pid < |w.positions|
    ensures AllLocal(OnFill(w, env, o, price), o, w.orders[o].pid, w.orders)
    ensures AllLocal(OnDead(w, o, status), o, w.orders[o].pid, w.orders)
  {
    hide OnFill, OnDead;
    OneFillLocal(w, env, o, price);
    OneDeathLocal(w, o, status);
  }

  lemma OneFillLocal(w: World, env: Env, o: nat, price: Option<real>)
    requires o < |w.orders| && w.orders[o].pid < |w.positions|
    ensures AllLocal(OnFill(w, env, o, price), o, w.orders[o].pid, w.orders)
  {
    hide Entered, Exited;
  }

  lemma OneDeathLocal(w: World, o: nat, status: OrderStatus)
    requires o < |w.orders| && w.orders[o].pid < |w.positions|
    ensures AllLocal(OnDead(w, o, status), o, w.orders[o].pid, w.orders)
  {
  }

  lemma {:induction false} LocalSameKeys(ws: seq<Write>, o: nat, pid: nat, was: seq<Order>, now: seq<Order>)
    requires AllLocal(ws, o, pid, now) && |was| == |now| && SameKeys(was, now)
    ensures AllLocal(ws, o, pid, was)
  {
    forall i | 0 <= i < |ws| ensures Local(ws[i], o, pid, was) {
      assert Local(ws[i], o, pid, now);
      if ws[i].Accept? {
        forall j | 0 <= j < |was| ensures was[j].key != ws[i].key {
          assert was[j].key == now[j].key;
        }
      }
    }
  }

  lemma VoidLocal(w: World, env: Env, o: nat)
    requires o < |w.orders|
    ensures AllLocal(MaybeVoid(w, env, o), o, w.orders[o].pid, w.orders)
  {
  }

  lemma SyncOneLocal(w: World, env: Env, o: nat)
    requires Inv(w) && InTransit(w, o)
    ensures AllLocal(SyncOne(w, env, o).ws, o, w.orders[o].pid, w.orders)
  {
    hide Inv, Run, Resolution, MaybeExpire, Permitted, MaybeVoid;
    BackfillRuns(w, o);
    AfterBackfill(w, o);
    var w1, pid := Run(w, Backfill(w, o)), w.orders[o].pid;
    var answer, confirmed := Poll(w, env, w.orders[o].key), w.orders[o].confirmed;
    var rest := Resolution(w1, env, o, answer, confirmed).ws;
    MaybeExpireLocal(w1, env, o, confirmed);
    ResolutionLocal(w1, env, o, answer, confirmed);
    LocalSameKeys(rest, o, pid, w.orders, w1.orders);
    LocalConcat(Backfill(w, o), rest, o, pid, w.orders);
    assert AllLocal(MaybeVoid(w, env, o), o, pid, w.orders) by { VoidLocal(w, env, o); }
  }

  lemma ResolutionLocal(w: World, env: Env, o: nat, answer: Answer, confirmed: bool)
    requires o < |w.orders| && w.orders[o].pid < |w.positions|
    requires AllLocal(MaybeExpire(w, env, o, confirmed).ws, o, w.orders[o].pid, w.orders)
    ensures AllLocal(Resolution(w, env, o, answer, confirmed).ws, o, w.orders[o].pid, w.orders)
  {
    match answer
    case FilledAt(price) => FillLocal(w, env, o, Some(price), Canceled);
    case DeadAs(status) => FillLocal(w, env, o, None, status);
    case _ =>
  }

  // ----- the loop over in-flight orders

  ghost predicate Ahead(w: World, snapshot: seq<Order>, o: nat) {
    |snapshot| <= |w.orders| && forall j :: o <= j < |snapshot| ==> w.orders[j] == snapshot[j]
  }

  lemma LoopStepDoes(w: World, env: Env, snapshot: seq<Order>, o: nat)
    requires Inv(w) && Ahead(w, snapshot, o) && o < |snapshot|
    ensures w.orders[o].pid < |w.positions|
    ensures Permitted(w, LoopStep(w, env, snapshot, o).ws)
    ensures var w1 := Run(w, LoopStep(w, env, snapshot, o).ws);
            Inv(w1) && Ahead(w1, snapshot, o + 1) && w1.cfg == w.cfg
            && LeavesAlone(w, w1, o, w.orders[o].pid, w.orders)
  {
    hide Inv, Permitted, Run, Apply, SyncOne;
    var x := LoopStep(w, env, snapshot, o);
    RowFits(w, o);
    PermitNothing(w);
    if InFlight(snapshot[o]) {
      SyncOnePermitted(w, env, o);
      SyncOneLocal(w, env, o);
    }
    RunKeepsInv(w, x.ws);
    RunLocal(w, x.ws, o, w.orders[o].pid, w.orders);
    RunKeepsConfig(w, x.ws);
  }

  lemma {:induction false} RunKeepsConfig(w: World, ws: seq<Write>)
    ensures Run(w, ws).cfg == w.cfg
    decreases ws
  {
    hide Apply;
    if ws != [] {
      ApplyGrows(w, ws[0]);
      RunKeepsConfig(Apply(w, ws[0]), ws[1..]);
    }
  }

  // Where the loop ends up, one iteration at a time.
  lemma LoopUnfolds(w: World, env: Env, snapshot: seq<Order>, o: nat)
    requires o < |snapshot|
    ensures var x := LoopStep(w, env, snapshot, o);
            var w1 := Run(w, x.ws);
            var all := SyncFrom(w, env, snapshot, o);
            if x.raised then all == x
            else
              && all.raised == SyncFrom(w1, env, snapshot, o + 1).raised
              && all.ws == x.ws + SyncFrom(w1, env, snapshot, o + 1).ws
              && Run(w, all.ws) == Run(w1, SyncFrom(w1, env, snapshot, o + 1).ws)
  {
    var x := LoopStep(w, env, snapshot, o);
    RunConcat(w, x.ws, SyncFrom(Run(w, x.ws), env, snapshot, o + 1).ws);
  }

  lemma {:induction false} SyncFromPermitted(w: World, env: Env, snapshot: seq<Order>, o: nat)
    requires Inv(w) && Ahead(w, snapshot, o)
    ensures Permitted(w, SyncFrom(w, env, snapshot, o).ws)
    decreases |snapshot| - o
  {
    hide LoopStep, Inv, Permitted, Run, Apply;
    PermitNothing(w);
    if o < |snapshot| {
      var x := LoopStep(w, env, snapshot, o);
      var w1 := Run(w, x.ws);
      LoopUnfolds(w, env, snapshot, o);
      LoopStepDoes(w, env, snapshot, o);
      if !x.raised {
        SyncFromPermitted(w1, env, snapshot, o + 1);
        PermittedConcat(w, x.ws, SyncFrom(w1, env, snapshot, o + 1).ws);
      }
    }
  }

  // ----- the orphan sweep

  ghost predicate HasInFlight(orders: seq<Order>, pid: nat) {
    exists o :: 0 <= o < |orders| && orders[o].pid == pid && InFlight(orders[o])
  }

  // A transitional position still has a working order, or never had one recorded.
  ghost predicate Recovered(w: World, p: nat)
    requires p < |w.positions|
  {
    var st := w.positions[p].status;
    st.Opening? || st.Closing? ==>
      HasInFlight(w.orders, p) || Latest(w.orders, p, if st.Opening? then ToOpen else ToClose).None?
  }

  // What the sweep does to the tables: at most one row resolved, with its position.
  ghost predicate Resolves(w: World, w': World, pid: nat)
    requires pid < |w.positions|
  {
    && |w'.orders| == |w.orders| && |w'.positions| == |w.positions|
    && (forall p :: 0 <= p < |w.positions| && p != pid ==> w'.positions[p] == w.positions[p])
    && (forall j :: 0 <= j < |w.orders| ==> SameOrder(w.orders[j], w'.orders[j]))
    && (forall j :: 0 <= j < |w.orders| && w.orders[j].pid != pid ==> w'.orders[j] == w.orders[j])
    && (forall j :: 0 <= j < |w.orders| && InFlight(w'.orders[j]) ==> InFlight(w.orders[j]))
  }

  lemma ResolvesBy(w: World, w': World, o: nat, row: Order, next: Position)
    requires o < |w.orders| && w.orders[o].pid < |w.positions|
    requires SameOrder(w.orders[o], row) && !InFlight(row)
    requires w'.orders == w.orders[o := row] && w'.positions == w.positions[row.pid := next]
    ensures Resolves(w, w', row.pid) && w'.positions[row.pid] == next
  {
  }

  lemma MarkThenMove(w: World, o: nat, row: Order, next: Position, rest: seq<Write>)
    requires o < |w.orders| && row.pid < |w.positions|
    ensures Run(w, [SetOrder(o, row)] + ([SetPosition(row.pid, next)] + rest)) ==
            Run(w.(orders := w.orders[o := row], positions := w.positions[row.pid := next]), rest)
  {
    hide Apply, Run;
    RunSetOrder(w, o, row, [SetPosition(row.pid, next)] + rest);
    RunSetPosition(w.(orders := w.orders[o := row]), row.pid, next, rest);
  }

  lemma EnterRuns(w: World, env: Env, o: nat, price: Option<real>)
    requires o < |w.orders| && w.orders[o].pid < |w.positions| && w.orders[o].intent.ToOpen?
    ensures var row := FilledRow(w.orders[o], price);
            Run(w, OnFill(w, env, o, price)) ==
            w.(orders := w.orders[o := row],
               positions := w.positions[row.pid := Entered(env, w.positions[row.pid], price)])
  {
    hide Apply, Run, Entered;
    var row := FilledRow(w.orders[o], price);
    var next := Entered(env, w.positions[row.pid], price);
    MarkThenMove(w, o, row, next, []);
    RunNothing(w.(orders := w.orders[o := row], positions := w.positions[row.pid := next]));
    assert OnFill(w, env, o, price) == [SetOrder(o, row)] + ([SetPosition(row.pid, next)] + []);
  }

  lemma RewardRuns(w: World, out: Position)
    requires out.win.Some?
    ensures Run(w, RewardFor(out)) ==
            if out.regime == "" then w
            else w.(bandit := Rewarded(w.bandit, Cell(out.structure.kind, out.regime), out.win.value))
  {
    hide Apply, Run, Rewarded;
    if out.regime == "" {
      RunNothing(w);
    } else {
      var cell := Cell(out.structure.kind, out.regime);
      RunReward(w, cell, out.win.value, []);
      RunNothing(w.(bandit := Rewarded(w.bandit, cell, out.win.value)));
      assert RewardFor(out) == [Reward(cell, out.win.value)] + [];
    }
  }

  lemma ExitRuns(w: World, env: Env, o: nat, price: Option<real>, next: Position)
    requires o < |w.orders| && w.orders[o].pid < |w.positions| && w.orders[o].intent.ToClose?
    requires next == Exited(w, w.orders[o].pid, w.positions[w.orders[o].pid], price)
    ensures var row := FilledRow(w.orders[o], price);
            var w1 := w.(orders := w.orders[o := row], positions := w.positions[row.pid := next]);
            Run(w, OnFill(w, env, o, price)) == Run(w1, RewardFor(next)) && next.regime == w.positions[row.pid].regime
  {
    hide Apply, Run, Realized;
    var row := FilledRow(w.orders[o], price);
    MarkThenMove(w, o, row, next, RewardFor(next));
    assert OnFill(w, env, o, price) == [SetOrder(o, row)] + ([SetPosition(row.pid, next)] + RewardFor(next));
  }

  lemma EnteredIsOpen(env: Env, pos: Position, price: Option<real>)
    ensures Entered(env, pos, price).status.Open?
  {
  }

  lemma ExitedIsClosed(w: World, pid: nat, pos: Position, price: Option<real>)
    ensures Exited(w, pid, pos, price).status.Closed? && Exited(w, pid, pos, price).win.Some?
  {
  }

  lemma OnFillResolves(w: World, env: Env, o: nat, price: Option<real>)
    requires o < |w.orders| && w.orders[o].pid < |w.positions|
    ensures var w' := Run(w, OnFill(w, env, o, price));
            Resolves(w, w', w.orders[o].pid) && Recovered(w', w.orders[o].pid)
  {
    hide Apply, Run, Entered, Exited, Rewarded, Resolves;
    var row := FilledRow(w.orders[o], price);
    var pos := w.positions[row.pid];
    if row.intent.ToOpen? {
      EnterRuns(w, env, o, price);
      ResolvesBy(w, Run(w, OnFill(w, env, o, price)), o, row, Entered(env, pos, price));
    } else {
      var next := Exited(w, row.pid, pos, price);
      ExitRuns(w, env, o, price, next);
      ExitedIsClosed(w, row.pid, pos, price);
      RewardRuns(w.(orders := w.orders[o := row], positions := w.positions[row.pid := next]), next);
      ResolvesBy(w, Run(w, OnFill(w, env, o, price)), o, row, next);
    }
    EnteredIsOpen(env, pos, price);
  }

  lemma OnDeadRuns(w: World, o: nat, status: OrderStatus)
    requires o < |w.orders| && w.orders[o].pid < |w.positions| && DeadStatus(status)
    requires w.positions[w.orders[o].pid].status == (if w.orders[o].intent.ToOpen? then Opening else Closing)
    ensures var row := w.orders[o].(status := status);
            var next := w.positions[row.pid].(status := if row.intent.ToOpen? then Failed else Open);
            var w' := Run(w, OnDead(w, o, status));
            && w'.orders == w.orders[o := row] && w'.positions == w.positions[row.pid := next]
            && w'.broker == w.broker && w'.holdings == w.holdings && w'.cash == w.cash && w'.bandit == w.bandit
  {
    hide Apply, Run;
    var row := w.orders[o].(status := status);
    var pid, pos := row.pid, w.positions[row.pid];
    var w1 := w.(orders := w.orders[o := row]);
    if row.intent.ToOpen? {
      var next := pos.(status := Failed);
      MarkThenMove(w, o, row, next, []);
      RunNothing(w1.(positions := w1.positions[pid := next]));
      assert OnDead(w, o, status) == [SetOrder(o, row)] + ([SetPosition(pid, next)] + []);
    } else {
      var n, next := SetCloseAttempt(pid, CloseAttempt(w, pid) + 1), pos.(status := Open);
      var w2 := w1.(closeAttempt := w1.closeAttempt[pid := n.n]);
      RunSetOrder(w, o, row, [n] + ([SetPosition(pid, next)] + []));
      RunCount(w1, n, [SetPosition(pid, next)] + []);
      RunSetPosition(w2, pid, next, []);
      RunNothing(w2.(positions := w2.positions[pid := next]));
      assert OnDead(w, o, status) == [SetOrder(o, row)] + ([n] + ([SetPosition(pid, next)] + []));
    }
  }

  lemma OnDeadResolves(w: World, o: nat, status: OrderStatus)
    requires o < |w.orders| && w.orders[o].pid < |w.positions| && DeadStatus(status)
    requires w.positions[w.orders[o].pid].status == (if w.orders[o].intent.ToOpen? then Opening else Closing)
    ensures var w' := Run(w, OnDead(w, o, status));
            Resolves(w, w', w.orders[o].pid) && Recovered(w', w.orders[o].pid)
  {
    var row := w.orders[o].(status := status);
    OnDeadRuns(w, o, status);
    ResolvesBy(w, Run(w, OnDead(w, o, status)), o, row,
               w.positions[row.pid].(status := if row.intent.ToOpen? then Failed else Open));
  }

  lemma InFlightPidsHas(orders: seq<Order>, o: nat)
    requires o < |orders|
    ensures InFlight(orders[o]) ==> orders[o].pid in InFlightPids(orders)
  {
  }

  lemma ResolvesNothing(w: World, pid: nat)
    requires pid < |w.positions|
    ensures Resolves(w, w, pid)
  {
  }

  lemma AllInFlightPids(orders: seq<Order>)
    ensures forall q :: q in InFlightPids(orders) ==> HasInFlight(orders, q)
  {
  }

  lemma SweepOneDoes(w: World, env: Env, inFlight: set<nat>, pid: nat)
    requires Inv(w) && pid < |w.positions| && InFlightPids(w.orders) <= inFlight
    requires pid in inFlight ==> HasInFlight(w.orders, pid)
    ensures Permitted(w, SweepOne(w, env, inFlight, pid))
    ensures Resolves(w, Run(w, SweepOne(w, env, inFlight, pid)), pid)
    ensures Recovered(Run(w, SweepOne(w, env, inFlight, pid)), pid)
  {
    hide Inv, Permitted, Run, Apply, OnFill, OnDead, Resolves;
    var st := w.positions[pid].status;
    PermitNothing(w);
    RunNothing(w);
    ResolvesNothing(w, pid);
    if (st.Opening? || st.Closing?) && pid !in inFlight {
      var found := Latest(w.orders, pid, if st.Opening? then ToOpen else ToClose);
      if found.Some? {
        var o := found.value;
        RowFits(w, o);
        InFlightPidsHas(w.orders, o);
        if w.orders[o].status.Filled? {
          OnFillPermitted(w, env, o, w.orders[o].filledPrice);
          OnFillResolves(w, env, o, w.orders[o].filledPrice);
        } else {
          OnDeadPermitted(w, o, w.orders[o].status);
          OnDeadResolves(w, o, w.orders[o].status);
        }
      }
    }
  }

  lemma ResolvesKeepsLatestNone(w: World, w': World, pid: nat, p: nat, intent: Intent)
    requires pid < |w.positions| && Resolves(w, w', pid) && Latest(w.orders, p, intent).None?
    ensures Latest(w'.orders, p, intent).None?
  {
    forall j | 0 <= j < |w'.orders| ensures !Of(w'.orders[j], p, intent) {
      assert SameOrder(w.orders[j], w'.orders[j]);
    }
  }

  lemma ResolvesKeepsRecovered(w: World, w': World, pid: nat, p: nat)
    requires pid < |w.positions| && Resolves(w, w', pid) && p < |w.positions| && p != pid && Recovered(w, p)
    ensures Recovered(w', p)
  {
    var st := w.positions[p].status;
    if st.Opening? || st.Closing? {
      if HasInFlight(w.orders, p) {
        var o :| 0 <= o < |w.orders| && w.orders[o].pid == p && InFlight(w.orders[o]);
        assert w'.orders[o] == w.orders[o];
      } else {
        ResolvesKeepsLatestNone(w, w', pid, p, if st.Opening? then ToOpen else ToClose);
      }
    }
  }

  lemma ResolvesKeepsInFlight(w: World, w': World, pid: nat, inFlight: set<nat>)
    requires pid < |w.positions| && Resolves(w, w', pid) && InFlightPids(w.orders) <= inFlight
    ensures InFlightPids(w'.orders) <= inFlight
    ensures forall q :: q != pid && HasInFlight(w.orders, q) ==> HasInFlight(w'.orders, q)
  {
    forall q | q in InFlightPids(w'.orders) ensures q in inFlight {
      var o :| 0 <= o < |w'.orders| && InFlight(w'.orders[o]) && w'.orders[o].pid == q;
      assert SameOrder(w.orders[o], w'.orders[o]);
      assert q in InFlightPids(w.orders);
    }
    forall q | q != pid && HasInFlight(w.orders, q) ensures HasInFlight(w'.orders, q) {
      var o :| 0 <= o < |w.orders| && w.orders[o].pid == q && InFlight(w.orders[o]);
      assert w'.orders[o] == w.orders[o];
    }
  }

  ghost predicate RecoveredBelow(w: World, n: nat) {
    n <= |w.positions| && forall p :: 0 <= p < n ==> Recovered(w, p)
  }

  ghost predicate NoneRevived(w: World, w': World) {
    |w'.orders| == |w.orders| && forall j :: 0 <= j < |w.orders| && InFlight(w'.orders[j]) ==> InFlight(w.orders[j])
  }

  lemma {:induction false} SweepFromDoes(w: World, env: Env, inFlight: set<nat>, p: nat, n: nat)
    requires Inv(w) && p <= n == |w.positions| && InFlightPids(w.orders) <= inFlight
    requires forall q :: p <= q < n && q in inFlight ==> HasInFlight(w.orders, q)
    requires RecoveredBelow(w, p)
    ensures Permitted(w, SweepFrom(w, env, inFlight, p, n))
    ensures var w' := Run(w, SweepFrom(w, env, inFlight, p, n)); |w'.positions| == n && RecoveredBelow(w', n)
    ensures NoneRevived(w, Run(w, SweepFrom(w, env, inFlight, p, n)))
    decreases n - p
  {
    hide SweepOne, Inv, Permitted, Run, Apply, Recovered, InFlightPids, HasInFlight;
    RunNothing(w);
    PermitNothing(w);
    if p < n {
      var ws := SweepOne(w, env, inFlight, p);
      var w1 := Run(w, ws);
      SweepOneDoes(w, env, inFlight, p);
      RunKeepsInv(w, ws);
      ResolvesKeepsInFlight(w, w1, p, inFlight);
      forall q | 0 <= q < p + 1 ensures Recovered(w1, q) {
        if q < p { ResolvesKeepsRecovered(w, w1, p, q); }
      }
      SweepFromDoes(w1, env, inFlight, p + 1, n);
      PermittedConcat(w, ws, SweepFrom(w1, env, inFlight, p + 1, n));
      RunConcat(w, ws, SweepFrom(w1, env, inFlight, p + 1, n));
    }
  }

  // ----- unconfirmed orders

  // Recorded, never confirmed, older than the entry timeout, and unknown to whoever answers the poll.
  ghost predicate GivenUp(w: World, env: Env, row: Order) {
    && row.status.Pending? && !row.confirmed && env.now - row.createdAt >= w.cfg.entryTimeout
    && (row.key in env.pollDown || row.key !in w.broker)
  }

  lemma {:induction false} LoopKeepsEarlier(w: World, env: Env, snapshot: seq<Order>, o: nat, j: nat)
    requires Inv(w) && Ahead(w, snapshot, o) && j < o && j < |w.orders|
    ensures var w' := Run(w, SyncFrom(w, env, snapshot, o).ws); j < |w'.orders| && w'.orders[j] == w.orders[j]
    decreases |snapshot| - o
  {
    hide LoopStep, Inv, Run, Apply;
    RunNothing(w);
    if o < |snapshot| {
      LoopUnfolds(w, env, snapshot, o);
      LoopStepDoes(w, env, snapshot, o);
      if !LoopStep(w, env, snapshot, o).raised {
        LoopKeepsEarlier(Run(w, LoopStep(w, env, snapshot, o).ws), env, snapshot, o + 1, j);
      }
    }
  }

  lemma VoidKills(w: World, env: Env, o: nat)
    requires o < |w.orders| && w.orders[o].pid < |w.positions| && GivenUp(w, env, w.orders[o])
    ensures var w' := Run(w, SyncOne(w, env, o).ws); o < |w'.orders| && Dead(w'.orders[o])
  {
    Run1(w, SetOrder(o, w.orders[o].(status := Canceled)));
  }

  lemma {:induction false} LoopGivesUp(w: World, env: Env, snapshot: seq<Order>, o: nat, j: nat)
    requires Inv(w) && Ahead(w, snapshot, o) && o <= j < |snapshot| && GivenUp(w, env, snapshot[j])
    requires !SyncFrom(w, env, snapshot, o).raised
    ensures var w' := Run(w, SyncFrom(w, env, snapshot, o).ws); j < |w'.orders| && Dead(w'.orders[j])
    decreases |snapshot| - o
  {
    hide LoopStep, Inv, Run, Apply;
    var w1 := Run(w, LoopStep(w, env, snapshot, o).ws);
    LoopUnfolds(w, env, snapshot, o);
    LoopStepDoes(w, env, snapshot, o);
    if o < j {
      assert w.orders[j].key !in w.broker ==> w.orders[j].key !in w1.broker;
      LoopGivesUp(w1, env, snapshot, o + 1, j);
    } else {
      LoopStepKills(w, env, snapshot, o);
      LoopKeepsEarlier(w1, env, snapshot, o + 1, j);
    }
  }

  lemma LoopStepKills(w: World, env: Env, snapshot: seq<Order>, o: nat)
    requires Ahead(w, snapshot, o) && o < |snapshot| && w.orders[o].pid < |w.positions|
    requires GivenUp(w, env, snapshot[o])
    ensures var w' := Run(w, LoopStep(w, env, snapshot, o).ws); o < |w'.orders| && Dead(w'.orders[o])
  {
    VoidKills(w, env, o);
  }

  // ----- sync as a whole

  // No unconfirmed order past its timeout outlives a sync that returns and could not poll it.
  lemma SyncGivesUp(w: World, env: Env, j: nat)
    requires Inv(w) && j < |w.orders| && GivenUp(w, env, w.orders[j]) && !Sync(w, env).raised
    ensures var w' := Run(w, Sync(w, env).ws); j < |w'.orders| && !InFlight(w'.orders[j])
  {
    hide Inv, Permitted, Run, Apply, InFlightPids, Recovered;
    var loop := SyncFrom(w, env, w.orders, 0);
    SyncFromPermitted(w, env, w.orders, 0);
    LoopGivesUp(w, env, w.orders, 0, j);
    var w1 := Run(w, loop.ws);
    RunKeepsInv(w, loop.ws);
    var sweep := SweepFrom(w1, env, InFlightPids(w1.orders), 0, |w1.positions|);
    AllInFlightPids(w1.orders);
    SweepFromDoes(w1, env, InFlightPids(w1.orders), 0, |w1.positions|);
    RunConcat(w, loop.ws, sweep);
  }

  // Every write of a sync keeps the discipline, whichever broker calls fail.
  lemma SyncPermitted(w: World, env: Env)
    requires Inv(w)
    ensures Permitted(w, Sync(w, env).ws)
    ensures !Sync(w, env).raised ==>
              var w' := Run(w, Sync(w, env).ws); RecoveredBelow(w', |w'.positions|)
  {
    hide Inv, Permitted, Run, Apply, InFlightPids, Recovered;
    var loop := SyncFrom(w, env, w.orders, 0);
    SyncFromPermitted(w, env, w.orders, 0);
    if !loop.raised {
      var w1 := Run(w, loop.ws);
      RunKeepsInv(w, loop.ws);
      var sweep := SweepFrom(w1, env, InFlightPids(w1.orders), 0, |w1.positions|);
      AllInFlightPids(w1.orders);
      SweepFromDoes(w1, env, InFlightPids(w1.orders), 0, |w1.positions|);
      PermittedConcat(w, loop.ws, sweep);
      RunConcat(w, loop.ws, sweep);
    }
  }

  // ----- trader operations

  lemma ClosePermitted(w: World, env: Env, pid: nat, barrier: Barrier, limit: int)
    requires Inv(w) && pid < |w.positions|
    ensures Permitted(w, Close(w, env, pid, barrier, limit).ws)
  {
    hide Apply, Allowed, Permitted, Run, Inv, Submit, MayInsertOrder;
    var pos := w.positions[pid];
    PermitNothing(w);
    if pos.status.Open? {
      var row := pos.(status := Closing);
      var w2 := w.(positions := w.positions[pid := row], closeBarrier := w.closeBarrier[pid := barrier]);
      var first := [SetPosition(pid, row), SetCloseBarrier(pid, barrier)];
      var key := CloseKey(pos.signal, By(barrier), CloseAttempt(w, pid));
      CloseAdmitted(w, env, pid, barrier, limit);
      CloseFirst(w, pid, row, barrier);
      SubmitPermitted(w2, env, key, pid, ToClose, limit);
      PermittedConcat(w, first, Submit(w2, env, key, pid, ToClose, limit).ws);
    }
  }

  // The world a close is submitted in, and that its row is admitted there.
  lemma CloseAdmitted(w: World, env: Env, pid: nat, barrier: Barrier, limit: int)
    requires Inv(w) && pid < |w.positions| && w.positions[pid].status.Open?
    ensures var row := w.positions[pid].(status := Closing);
            var w2 := w.(positions := w.positions[pid := row], closeBarrier := w.closeBarrier[pid := barrier]);
            var key := CloseKey(row.signal, By(barrier), CloseAttempt(w, pid));
            && Inv(w2) && MayInsertOrder(w2, NewOrder(env, key, pid, ToClose, limit))
            && Permitted(w, [SetPosition(pid, row), SetCloseBarrier(pid, barrier)])
  {
    hide Apply, Allowed, Permitted, Run, Inv, Submit;
    var row := w.positions[pid].(status := Closing);
    var w1 := w.(positions := w.positions[pid := row]);
    var w2 := w1.(closeBarrier := w1.closeBarrier[pid := barrier]);
    var first := [SetPosition(pid, row), SetCloseBarrier(pid, barrier)];
    PermitNothing(w2);
    PermitSetCloseBarrier(w1, pid, barrier, []);
    PermitSetPosition(w, pid, row, [SetCloseBarrier(pid, barrier)] + []);
    assert first == [SetPosition(pid, row)] + ([SetCloseBarrier(pid, barrier)] + []);
    CloseFirst(w, pid, row, barrier);
    RunKeepsInv(w, first);
    CloseRowFree(w, pid);
  }

  // While a position is open, every close order it ever had is dead with a smaller attempt.
  lemma CloseRowFree(w: World, pid: nat)
    requires Inv(w) && pid < |w.positions| && w.positions[pid].status.Open?
    ensures AllDead(w.orders, pid, ToClose) && AllBelow(w.orders, pid, ToClose, CloseAttempt(w, pid))
  {
    forall o | 0 <= o < |w.orders| && Of(w.orders[o], pid, ToClose)
      ensures Dead(w.orders[o]) && w.orders[o].key.attempt < CloseAttempt(w, pid)
    {
      assert Suits(w.orders[o], w.positions[pid].status, CloseAttempt(w, pid));
    }
  }

  lemma NewPositionFree(w: World)
    requires OrdersFit(w) && CountersFit(w)
    ensures forall o :: 0 <= o < |w.orders| ==> w.orders[o].pid != |w.positions|
    ensures |w.positions| !in w.entryAttempt
  {
    forall o | 0 <= o < |w.orders| ensures w.orders[o].pid != |w.positions| {
      assert OrderFits(w, w.orders[o]);
    }
  }

  lemma FirstRowAdmitted(w: World, env: Env, p: Proposal)
    requires Inv(w) && !Halted(w) && UnitRisk(p).Dollars?
    ensures var w1 := w.(positions := w.positions + [NewPosition(env, p)]);
            MayInsertOrder(w1, NewOrder(env, OpenKey(p.signal, p.structure, 0), |w.positions|, ToOpen, p.net))
  {
    hide Reach;
    NewPositionFree(w);
    FirstPrice(w.cfg, p.net);
  }

  lemma UnitRiskRecorded(env: Env, p: Proposal)
    requires UnitRisk(p).Dollars?
    ensures var row := NewPosition(env, p);
            MaxLossPerSpread(row.structure, row.entry).Dollars? && row.maxLoss == RecordedRisk(row, row.entry)
  {
    hide MaxLossPerSpread;
  }

  lemma NewsAdmitted(w: World, env: Env, p: Proposal)
    requires Inv(w) && OneEach(p.structure.legs) && !Seen(w, p.signal) && UnitRisk(p).Dollars? && GateApproves(w, p)
    ensures var row := NewPosition(env, p);
            var w1 := w.(positions := w.positions + [row]);
            && Inv(w1) && Permitted(w, [InsertPosition(row)])
            && MayInsertOrder(w1, NewOrder(env, OpenKey(p.signal, p.structure, 0), |w.positions|, ToOpen, p.net))
  {
    hide Apply, Allowed, Permitted, Run, Inv, Reach, MayInsertOrder, MaxLossPerSpread, RecordedRisk, DefinedRisk;
    UnitRiskRecorded(env, p);
    var row := NewPosition(env, p);
    var w1 := w.(positions := w.positions + [row]);
    assert forall q :: 0 <= q < |w.positions| ==> Apart(w.positions[q], row);
    PermitNothing(w1);
    PermitInsertPosition(w, row, []);
    assert [InsertPosition(row)] + [] == [InsertPosition(row)];
    KeepInsertPosition(w, row);
    FirstRowAdmitted(w, env, p);
  }

  lemma NewsPermitted(w: World, env: Env, p: Proposal)
    requires Inv(w) && OneEach(p.structure.legs)
    ensures Permitted(w, News(w, env, p).ws)
  {
    hide Apply, Allowed, Permitted, Run, Inv, Submit, MayInsertOrder, OneEach, GateApproves;
    PermitNothing(w);
    if !Seen(w, p.signal) && !Halted(w) && UnitRisk(p).Dollars? && GateApproves(w, p) {
      var row := NewPosition(env, p);
      var w1 := w.(positions := w.positions + [row]);
      NewsAdmitted(w, env, p);
      RunInsertPosition(w, row, []);
      Run1(w, InsertPosition(row));
      var key := OpenKey(p.signal, p.structure, 0);
      SubmitPermitted(w1, env, key, |w.positions|, ToOpen, p.net);
      PermittedConcat(w, [InsertPosition(row)], Submit(w1, env, key, |w.positions|, ToOpen, p.net).ws);
    }
  }

  lemma FirstPrice(cfg: Config, net: int)
    requires Sane(cfg)
    ensures net as real <= Reach(cfg, net as real / 100.0 * 100.0)
  {
    assert net as real / 100.0 * 100.0 == net as real;
    ShareNonNegative(Abs(net as real), cfg.maxConcessionPct);
  }

}
