/**
 What one sync leaves of each order, stated from the broker's ticket, the clock and the rows
 alone: booked, ended, voided, expired, replaced at a worse price, or left alone.
 */
module Outcomes {
  import opened Wrappers
  import opened Structures
  import opened World
  import opened Ladder
  import opened Protocol
  import opened Lifecycle
  import opened LifecycleProofs
  import opened Effects
  import opened Runs
  import opened Endings
  import opened Turns

  // ----- an order the broker has completed

  ghost predicate Answers(w: World, env: Env, row: Order) { row.key in w.broker && row.key !in env.pollDown }

  ghost predicate Completed(w: World, env: Env, row: Order) {
    Answers(w, env, row) && w.broker[row.key].state.Complete?
  }

  // The price of a completed ticket: what was paid, over what was bought.
  ghost predicate AveragePrice(t: Ticket, price: real) { t.qty >= 1 && price * t.qty as real == t.paid }

  // An entry enters at its fill, with the spot of that moment if one could be read and the risk of that price.
  ghost predicate EnteredAt(was: Position, now: Position, price: real, spots: map<string, real>) {
    && now == was.(status := Open, entry := price, entrySpot := now.entrySpot, maxLoss := now.maxLoss)
    && (if was.structure.underlying in spots then now.entrySpot == spots[was.structure.underlying]
        else now.entrySpot == was.entrySpot)
    && (match MaxLossPerSpread(was.structure, price)
        case Dollars(d) => now.maxLoss == d * was.qty as real
        case _ => now.maxLoss == was.maxLoss)
  }

  // A close realises the position at its fill, under the barrier that asked for it.
  ghost predicate ExitedAt(was: Position, now: Position, price: real, asked: Option<Barrier>) {
    && now == was.(status := Closed, barrier := Some(asked.GetOr(Time)), realized := now.realized, win := Some(now.realized > 0.0))
    && now.realized == (-price - was.entry) * 100.0 * was.qty as real
  }

  function AskedBy(w: World, p: nat): Option<Barrier> { if p in w.closeBarrier then Some(w.closeBarrier[p]) else None }

  ghost predicate BooksFill(w: World, w': World, env: Env, j: nat, price: real)
    requires InTransit(w, j) && w.orders[j].key in w.broker
  {
    var row, p := w.orders[j], w.orders[j].pid;
    && j < |w'.orders| && w'.orders[j].status.Filled? && w'.orders[j].filledPrice == Some(price)
    && p < |w'.positions| && AveragePrice(w.broker[row.key], price)
    && if row.intent.ToOpen? then EnteredAt(w.positions[p], w'.positions[p], price, env.spots)
       else ExitedAt(w.positions[p], w'.positions[p], price, AskedBy(w, p))
  }

  // The turn of a completed order is its fill, at the average price, after the row is confirmed.
  lemma CompletedIsFill(v: World, env: Env, j: nat, price: real)
    requires Inv(v) && InTransit(v, j) && Completed(v, env, v.orders[j])
    requires AveragePrice(v.broker[v.orders[j].key], price)
    ensures var v0 := Run(v, Backfill(v, j));
      && InTransit(v0, j) && v0.positions == v.positions && v0.closeBarrier == v.closeBarrier
      && v0.orders[j].key == v.orders[j].key && v0.orders[j].pid == v.orders[j].pid && v0.orders[j].intent == v.orders[j].intent
      && Run(v, SyncOne(v, env, j).ws) == Run(v0, OnFill(v0, env, j, Some(price)))
  {
    hide Inv, Run, Apply, Permitted, Backfill, OnFill, Latest;
    AfterBackfill(v, j);
    BackfillRuns(v, j);
    AverageIs(v.broker[v.orders[j].key], price);
    RunConcat(v, Backfill(v, j), OnFill(Run(v, Backfill(v, j)), env, j, Some(price)));
  }

  lemma AverageIs(t: Ticket, price: real)
    requires AveragePrice(t, price)
    ensures Average(t) == price
  {
  }

  lemma EntryIsAt(env: Env, pos: Position, price: real)
    ensures Entered(env, pos, Some(price)).status.Open?
    ensures EnteredAt(pos, Entered(env, pos, Some(price)), price, env.spots)
  {
    hide MaxLossPerSpread;
  }

  lemma ExitIsAt(v: World, p: nat, pos: Position, price: real)
    ensures Exited(v, p, pos, Some(price)).status.Closed?
    ensures ExitedAt(pos, Exited(v, p, pos, Some(price)), price, AskedBy(v, p))
  {
  }

  lemma FillBooks(v: World, env: Env, j: nat, price: real)
    requires j < |v.orders| && v.orders[j].pid < |v.positions|
    ensures var v1, row, p := Run(v, OnFill(v, env, j, Some(price))), v.orders[j], v.orders[j].pid;
      && |v1.orders| == |v.orders| && v1.orders[j].status.Filled? && v1.orders[j].filledPrice == Some(price)
      && |v1.positions| == |v.positions| && Settled(v1.positions[p].status)
      && if row.intent.ToOpen? then EnteredAt(v.positions[p], v1.positions[p], price, env.spots)
         else ExitedAt(v.positions[p], v1.positions[p], price, AskedBy(v, p))
  {
    hide Run, OnFill, Entered, Exited, EnteredAt, ExitedAt, AskedBy;
    var pos := v.positions[v.orders[j].pid];
    EntryIsAt(env, pos, price);
    ExitIsAt(v, v.orders[j].pid, pos, price);
    FillRuns(v, env, j, Some(price));
  }

  lemma CompletedStep(v: World, env: Env, j: nat) returns (price: real)
    requires Inv(v) && InTransit(v, j) && Completed(v, env, v.orders[j])
    ensures var v1 := Run(v, SyncOne(v, env, j).ws);
            BooksFill(v, v1, env, j, price) && Settled(v1.positions[v.orders[j].pid].status)
  {
    hide Inv, Run, Backfill, OnFill, SyncOne, EnteredAt, ExitedAt;
    var t := v.broker[v.orders[j].key];
    TicketQty(v, j);
    price := t.paid / t.qty as real;
    CompletedIsFill(v, env, j, price);
    FillBooks(Run(v, Backfill(v, j)), env, j, price);
  }

  lemma TicketQty(v: World, j: nat)
    requires Inv(v) && j < |v.orders| && v.orders[j].key in v.broker
    ensures v.broker[v.orders[j].key].qty >= 1
  {
    assert OrderFits(v, v.orders[j]);
    assert TicketFits(v.orders[j], v.positions[v.orders[j].pid], v.broker[v.orders[j].key]);
    assert Sound(v.positions[v.orders[j].pid]);
  }

  lemma BooksFillBetween(w: World, v: World, v1: World, w': World, env: Env, j: nat, price: real)
    requires InTransit(w, j) && InTransit(v, j) && w.orders[j] == v.orders[j] && w.orders[j].key in w.broker
    requires Alike(w, v, w.orders[j].pid) && Alike(v1, w', w.orders[j].pid)
    requires w.orders[j].key in v.broker && BooksFill(v, v1, env, j, price)
    requires j < |v1.orders| && v1.orders[j].pid == w.orders[j].pid
    ensures BooksFill(w, w', env, j, price)
  {
    hide EnteredAt, ExitedAt;
    assert TicketOf(v.broker, w.orders[j].key) == TicketOf(w.broker, w.orders[j].key);
    assert w'.orders[j] == v1.orders[j];
  }

  // Whatever else a sync that returns has to do, an order the broker has completed and reports is booked:
  // its row filled at the average price, an entry's position open at that price, a close's closed on it.
  lemma SyncBooks(w: World, env: Env, j: nat) returns (price: real)
    requires Inv(w) && InTransit(w, j) && Completed(w, env, w.orders[j]) && !Sync(w, env).raised
    ensures BooksFill(w, Run(w, Sync(w, env).ws), env, j, price)
  {
    hide Inv, Run, SyncOne, Sync, BooksFill, HasInFlight, Abandoned, WrittenOff;
    var v := TurnStands(w, env, j);
    assert TicketOf(v.broker, w.orders[j].key) == TicketOf(w.broker, w.orders[j].key);
    price := CompletedStep(v, env, j);
    var v1 := Run(v, SyncOne(v, env, j).ws);
    StepKeepsRow(v, env, j);
    BooksFillBetween(w, v, v1, Run(w, Sync(w, env).ws), env, j, price);
  }

  lemma StepKeepsRow(v: World, env: Env, j: nat)
    requires Inv(v) && InTransit(v, j)
    ensures var v1 := Run(v, SyncOne(v, env, j).ws); j < |v1.orders| && v1.orders[j].pid == v.orders[j].pid
  {
    hide Inv, Run, SyncOne;
    SyncOneLocal(v, env, j);
    RunLocal(v, SyncOne(v, env, j).ws, j, v.orders[j].pid, v.orders);
    assert RowsOf(v.orders, j, v.orders[j].pid, v.orders);
  }

  // ----- an order that ends without a fill of its own

  // Row j ended so, its position failed, or open again with one attempt more.
  ghost predicate Ends(w: World, w': World, j: nat, status: OrderStatus)
    requires InTransit(w, j)
  {
    var p, open := w.orders[j].pid, w.orders[j].intent.ToOpen?;
    && j < |w'.orders| && w'.orders[j] == w.orders[j].(status := status, confirmed := w'.orders[j].confirmed)
    && p < |w'.positions| && w'.positions[p] == w.positions[p].(status := if open then Failed else Open)
    && CloseAttempt(w', p) == CloseAttempt(w, p) + (if open then 0 else 1)
  }

  // The broker has ended the order with this status, and says so.
  ghost predicate EndedWith(w: World, env: Env, row: Order, status: OrderStatus) {
    Answers(w, env, row) && w.broker[row.key].state == Gone(status)
  }

  lemma EndedTurn(v: World, env: Env, j: nat, status: OrderStatus)
    requires Inv(v) && InTransit(v, j) && EndedWith(v, env, v.orders[j], status)
    ensures var v1 := Run(v, SyncOne(v, env, j).ws);
            Ends(v, v1, j, status) && Settled(v1.positions[v.orders[j].pid].status)
  {
    hide Inv, Run, Backfill, OnDead, SyncOne, Noted, Ends;
    var v0 := Noted(v, j);
    NotedRuns(v, j);
    EndedIs(v, env, j, status);
    RunConcat(v, Backfill(v, j), OnDead(v0, j, status));
    DeathEnds(v, j, status);
    EndedSettles(v, Run(v0, OnDead(v0, j, status)), j, status);
  }

  lemma EndedSettles(v: World, v1: World, j: nat, status: OrderStatus)
    requires InTransit(v, j) && Ends(v, v1, j, status)
    ensures Settled(v1.positions[v.orders[j].pid].status)
  {
  }

  lemma DeathEnds(v: World, j: nat, status: OrderStatus)
    requires InTransit(v, j) && v.positions[v.orders[j].pid].status == if v.orders[j].intent.ToOpen? then Opening else Closing
    ensures Ends(v, Run(Noted(v, j), OnDead(Noted(v, j), j, status)), j, status)
  {
    hide Run, OnDead, Noted;
    var v0 := Noted(v, j);
    NotedRow(v, j);
    DeathRuns(v0, j, status);
    DeadIsEnded(v, v0, Run(v0, OnDead(v0, j, status)), j, status);
  }

  lemma NotedRow(v: World, j: nat)
    requires j < |v.orders|
    ensures var v0 := Noted(v, j);
      && |v0.orders| == |v.orders| && v0.orders[j] == v.orders[j].(status := v0.orders[j].status, confirmed := v0.orders[j].confirmed)
      && v0.positions == v.positions && v0.closeAttempt == v.closeAttempt
  {
  }

  lemma DeadIsEnded(v: World, v0: World, v1: World, j: nat, status: OrderStatus)
    requires InTransit(v, j) && |v0.orders| == |v.orders| && v0.positions == v.positions && v0.closeAttempt == v.closeAttempt
    requires v0.orders[j] == v.orders[j].(status := v0.orders[j].status, confirmed := v0.orders[j].confirmed)
    requires v1.orders == v0.orders[j := v0.orders[j].(status := status)]
    requires var p, open := v.orders[j].pid, v.orders[j].intent.ToOpen?;
      && v1.positions == v.positions[p := v.positions[p].(status := if open then Failed else Open)]
      && v1.closeAttempt == if open then v.closeAttempt else v.closeAttempt[p := CloseAttempt(v, p) + 1]
    ensures Ends(v, v1, j, status)
  {
  }

  lemma EndsBetween(w: World, v: World, v1: World, w': World, j: nat, status: OrderStatus)
    requires InTransit(w, j) && InTransit(v, j) && w.orders[j] == v.orders[j]
    requires Alike(w, v, w.orders[j].pid) && Alike(v1, w', w.orders[j].pid) && Ends(v, v1, j, status)
    ensures Ends(w, w', j, status)
  {
    assert w'.orders[j] == v1.orders[j];
  }

  // An order the broker ended is ended so in the table, and its position settled.
  lemma SyncEnds(w: World, env: Env, j: nat, status: OrderStatus)
    requires Inv(w) && InTransit(w, j) && EndedWith(w, env, w.orders[j], status) && !Sync(w, env).raised
    ensures Ends(w, Run(w, Sync(w, env).ws), j, status)
  {
    hide Inv, Run, SyncOne, Sync, Ends, HasInFlight, Abandoned, WrittenOff;
    var v := TurnStands(w, env, j);
    assert TicketOf(v.broker, w.orders[j].key) == TicketOf(w.broker, w.orders[j].key);
    EndedTurn(v, env, j, status);
    EndsBetween(w, v, Run(v, SyncOne(v, env, j).ws), Run(w, Sync(w, env).ws), j, status);
  }

  lemma WrittenOffEnds(w: World, v: World, v1: World, w': World, j: nat)
    requires InTransit(w, j) && InTransit(v, j) && w.orders[j] == v.orders[j] && Alike(w, v, w.orders[j].pid)
    requires j < |v1.orders| && v1.orders[j] == v.orders[j].(status := Canceled, confirmed := v1.orders[j].confirmed)
    requires w.orders[j].pid < |v1.positions| && v1.positions[w.orders[j].pid] == v.positions[w.orders[j].pid]
    requires CloseAttempt(v1, w.orders[j].pid) == CloseAttempt(v, w.orders[j].pid)
    requires WrittenOff(v1, w', j, w.orders[j].pid, w.orders[j].intent, Canceled)
    ensures Ends(w, w', j, Canceled)
  {
  }

  // Nobody answers for it, it was never confirmed, and its time is up: it ends as cancelled.
  lemma SyncVoids(w: World, env: Env, j: nat)
    requires Inv(w) && InTransit(w, j) && GivenUp(w, env, w.orders[j]) && !Sync(w, env).raised
    ensures Ends(w, Run(w, Sync(w, env).ws), j, Canceled)
  {
    hide Inv, Run, SyncOne, Sync, Ends, HasInFlight, WrittenOff, Latest;
    var v := TurnStands(w, env, j);
    assert TicketOf(v.broker, w.orders[j].key) == TicketOf(w.broker, w.orders[j].key);
    VoidStep(v, env, j);
    VoidLeaves(v, env, j);
    WrittenOffEnds(w, v, Run(v, SyncOne(v, env, j).ws), Run(w, Sync(w, env).ws), j);
  }

  lemma VoidLeaves(v: World, env: Env, j: nat)
    requires InTransit(v, j) && GivenUp(v, env, v.orders[j])
    ensures Run(v, SyncOne(v, env, j).ws) == v.(orders := v.orders[j := v.orders[j].(status := Canceled)])
  {
    hide Run, Apply;
    MarkRuns(v, j, v.orders[j].(status := Canceled));
  }

  // ----- a working order: when it is left alone, withdrawn, or replaced by a worse price

  ghost predicate Working(w: World, env: Env, row: Order) {
    Answers(w, env, row) && w.broker[row.key].state.Working? && row.key !in env.limbo
  }

  // Its entry's time is up: the budget runs from the position's birth.
  ghost predicate Expired(w: World, env: Env, row: Order)
    requires row.pid < |w.positions|
  {
    row.intent.ToOpen? && (env.now - w.positions[row.pid].openedAt) as real >= EntryBudget(w.cfg, w.positions[row.pid].spreadPct)
  }

  // Its next rung is due: in time, unhalted, before the deadline, with steps left and a price left to concede.
  ghost predicate RungDue(w: World, env: Env, row: Order)
    requires row.pid < |w.positions|
  {
    var pos, taken := w.positions[row.pid], EntryAttempt(w, row.pid);
    && row.intent.ToOpen? && !Expired(w, env, row)
    && w.halt.reason == "" && (w.cfg.deadline.Some? ==> env.now < w.cfg.deadline.value)
    && taken < w.cfg.ladderSteps && env.now >= pos.openedAt + w.cfg.stepSeconds * (taken + 1)
    && EntryRung(w.cfg, pos.entry * 100.0, pos.spreadPct, row.limit).Some?
  }

  // Tries a close has had; the first counts even if no counter was ever written.
  function Tries(w: World, p: nat): nat { if p in w.closeAttempt then w.closeAttempt[p] else 1 }

  ghost predicate RetryDue(w: World, env: Env, row: Order) {
    row.intent.ToClose? && env.now >= row.createdAt + w.cfg.closeRetry && Tries(w, row.pid) < w.cfg.closeMaxAttempts
  }

  // The broker will let go of it: its id is on the row, and the cancel gets through.
  ghost predicate LetsGo(env: Env, row: Order) { row.confirmed && row.key !in env.cancelDown }

  // The resting order cancelled with what it had filled, one fresh order of the whole size in its place.
  ghost predicate Replaces(w: World, w': World, env: Env, j: nat, key: OrderKey, limit: int)
    requires InTransit(w, j) && w.orders[j].key in w.broker
  {
    var row, p, pos := w.orders[j], w.orders[j].pid, w.positions[w.orders[j].pid];
    && j < |w'.orders| && w'.orders[j].status.Canceled?
    && TicketOf(w'.broker, row.key) == Some(w.broker[row.key].(state := Gone(Canceled)))
    && p < |w'.positions| && w'.positions[p] == pos
    && (if row.intent.ToOpen? then EntryAttempt(w', p) else CloseAttempt(w', p)) == key.attempt
    && (exists i :: |w.orders| <= i < |w'.orders|
                    && w'.orders[i] == Order(key, p, row.intent, Submitted, limit, true, None, env.now))
    && TicketOf(w'.broker, key) == Some(Ticket(row.intent, pos.structure.legs, pos.qty, limit, TicketState.Working, 0, 0.0))
  }

  // Still in flight and unchanged, but that an answered poll confirms a row that was not.
  ghost predicate Waits(w: World, w': World, env: Env, j: nat)
    requires InTransit(w, j)
  {
    var row, p := w.orders[j], w.orders[j].pid;
    && j < |w'.orders|
    && w'.orders[j] == (if Answers(w, env, row) && row.status.Pending? then row.(status := Submitted, confirmed := true) else row)
    && TicketOf(w'.broker, row.key) == TicketOf(w.broker, row.key)
    && p < |w'.positions| && w'.positions[p] == w.positions[p]
    && EntryAttempt(w', p) == EntryAttempt(w, p) && CloseAttempt(w', p) == CloseAttempt(w, p)
    && forall i :: 0 <= i < |w'.orders| && i != j && w'.orders[i].pid == p ==> i < |w.orders| && w'.orders[i] == w.orders[i]
  }

  // A poll that is answered confirms a row that was not.
  function Acknowledged(row: Order): Order {
    if row.status.Pending? then row.(status := Submitted, confirmed := true) else row
  }

  function Noted(v: World, j: nat): World
    requires j < |v.orders|
  {
    v.(orders := v.orders[j := Acknowledged(v.orders[j])])
  }

  lemma NotedRuns(v: World, j: nat)
    requires Inv(v) && InTransit(v, j)
    ensures Run(v, Backfill(v, j)) == Noted(v, j) && Inv(Noted(v, j)) && InTransit(Noted(v, j), j)
    ensures v.positions[v.orders[j].pid].status == if v.orders[j].intent.ToOpen? then Opening else Closing
  {
    hide Inv, Run, Apply, Permitted, Backfill, Latest;
    AfterBackfill(v, j);
    BackfillRuns(v, j);
    assert v.orders[j := v.orders[j]] == v.orders;
  }

  // The turn of a working order: confirmed if it was not yet, then what its age asks for.
  lemma WorkingTurn(v: World, env: Env, j: nat)
    requires Inv(v) && InTransit(v, j) && Working(v, env, v.orders[j])
    ensures InTransit(Noted(v, j), j)
    ensures var out := MaybeExpire(Noted(v, j), env, j, v.orders[j].confirmed);
            Run(v, SyncOne(v, env, j).ws) == Run(Noted(v, j), out.ws) && SyncOne(v, env, j).raised == out.raised
  {
    hide Inv, Run, Backfill, MaybeExpire, Noted;
    NotedRuns(v, j);
    RunConcat(v, Backfill(v, j), MaybeExpire(Noted(v, j), env, j, v.orders[j].confirmed).ws);
  }

  // ----- left alone

  ghost predicate Spared(w: World, env: Env, row: Order)
    requires row.pid < |w.positions|
  {
    !LetsGo(env, row) || (!Expired(w, env, row) && !RungDue(w, env, row) && !RetryDue(w, env, row))
  }

  lemma SparedMove(w: World, env: Env, row: Order)
    requires row.pid < |w.positions| && !Expired(w, env, row) && !RungDue(w, env, row) && !RetryDue(w, env, row)
    ensures Staleness(w, env, row).Rest?
  {
    hide EntryBudget, EntryRung, CloseRung;
  }

  lemma SparedTurn(v: World, env: Env, j: nat)
    requires Inv(v) && InTransit(v, j) && Working(v, env, v.orders[j]) && Spared(v, env, v.orders[j])
    ensures Waits(v, Run(v, SyncOne(v, env, j).ws), env, j)
  {
    hide Inv, Run, SyncOne, Staleness, EntryBudget, EntryRung, ReplaceEntry, ReplaceClose, Cancel, Latest;
    var v0 := Noted(v, j);
    WorkingTurn(v, env, j);
    if LetsGo(env, v.orders[j]) { SparedMove(v0, env, v0.orders[j]); }
    RunNothing(v0);
  }

  lemma WaitsBetween(w: World, v: World, v1: World, w': World, env: Env, j: nat)
    requires InTransit(w, j) && InTransit(v, j) && w.orders[j] == v.orders[j]
    requires Alike(w, v, w.orders[j].pid) && Alike(v1, w', w.orders[j].pid) && Waits(v, v1, env, j)
    ensures Waits(w, w', env, j)
  {
    assert w'.orders[j] == v1.orders[j];
    assert TicketOf(v.broker, w.orders[j].key) == TicketOf(w.broker, w.orders[j].key);
  }

  // Unanswered and not yet given up, or working and spared, or answered with a status nobody handles.
  ghost predicate LeftAlone(w: World, env: Env, row: Order)
    requires row.pid < |w.positions|
  {
    || (!Answers(w, env, row) && !GivenUp(w, env, row))
    || (Working(w, env, row) && Spared(w, env, row))
    || (Answers(w, env, row) && w.broker[row.key].state.Working? && row.key in env.limbo)
  }

  lemma UnansweredTurn(v: World, env: Env, j: nat)
    requires Inv(v) && InTransit(v, j) && !Answers(v, env, v.orders[j]) && !GivenUp(v, env, v.orders[j])
    ensures Waits(v, Run(v, SyncOne(v, env, j).ws), env, j)
  {
    hide Inv, Run;
    RunNothing(v);
  }

  lemma LimboTurn(v: World, env: Env, j: nat)
    requires Inv(v) && InTransit(v, j) && Answers(v, env, v.orders[j])
    requires v.broker[v.orders[j].key].state.Working? && v.orders[j].key in env.limbo
    ensures Waits(v, Run(v, SyncOne(v, env, j).ws), env, j)
  {
    hide Inv, Run, Backfill;
    BackfillRuns(v, j);
    RunConcat(v, Backfill(v, j), []);
    RunNothing(Run(v, Backfill(v, j)));
  }

  lemma LeftAloneCarries(w: World, v: World, env: Env, j: nat)
    requires Inv(w) && Inv(v) && InTransit(w, j) && InTransit(v, j) && w.orders[j] == v.orders[j] && Alike(w, v, w.orders[j].pid)
    ensures TicketOf(v.broker, w.orders[j].key) == TicketOf(w.broker, w.orders[j].key)
    ensures Expired(v, env, w.orders[j]) == Expired(w, env, w.orders[j]) && RungDue(v, env, w.orders[j]) == RungDue(w, env, w.orders[j])
    ensures Tries(v, w.orders[j].pid) == Tries(w, w.orders[j].pid) && RetryDue(v, env, w.orders[j]) == RetryDue(w, env, w.orders[j])
    ensures LeftAlone(v, env, w.orders[j]) == LeftAlone(w, env, w.orders[j])
  {
    hide Inv, EntryBudget, EntryRung;
    SaneOf(w);
    SaneOf(v);
  }

  // An order left alone waits: same row, same ticket, same position, no new order.
  lemma SyncWaits(w: World, env: Env, j: nat)
    requires Inv(w) && InTransit(w, j) && LeftAlone(w, env, w.orders[j]) && !Sync(w, env).raised
    ensures Waits(w, Run(w, Sync(w, env).ws), env, j)
  {
    hide Inv, Run, SyncOne, Sync, Waits, HasInFlight, Abandoned, WrittenOff, Expired, RungDue, RetryDue, GivenUp;
    var v := TurnStands(w, env, j);
    LeftAloneCarries(w, v, env, j);
    var row := v.orders[j];
    if !Answers(v, env, row) {
      UnansweredTurn(v, env, j);
    } else if row.key in env.limbo {
      LimboTurn(v, env, j);
    } else {
      SparedTurn(v, env, j);
    }
    WaitingFlies(v, Run(v, SyncOne(v, env, j).ws), env, j);
    WaitsBetween(w, v, Run(v, SyncOne(v, env, j).ws), Run(w, Sync(w, env).ws), env, j);
  }

  lemma WaitingFlies(v: World, v1: World, env: Env, j: nat)
    requires InTransit(v, j) && Waits(v, v1, env, j)
    ensures HasInFlight(v1.orders, v.orders[j].pid)
  {
  }

  // ----- withdrawn

  lemma ExpiredTurn(v: World, env: Env, j: nat)
    requires Inv(v) && InTransit(v, j) && Working(v, env, v.orders[j])
    requires Expired(v, env, v.orders[j]) && LetsGo(env, v.orders[j])
    ensures var v1, p := Run(v, SyncOne(v, env, j).ws), v.orders[j].pid;
      && Abandoned(v1, j, p, ToOpen) && v1.positions[p] == v.positions[p] && CloseAttempt(v1, p) == CloseAttempt(v, p)
      && v1.orders[j] == v.orders[j].(status := Canceled, confirmed := v1.orders[j].confirmed)
      && TicketOf(v1.broker, v.orders[j].key) == Some(v.broker[v.orders[j].key].(state := Gone(Canceled)))
  {
    hide Inv, Run, SyncOne, EntryBudget, EntryRung, Cancel, Latest, CancelGoes, MaybeExpire;
    var v0 := Noted(v, j);
    NotedRuns(v, j);
    WorkingTurn(v, env, j);
    GoesWhenLetGo(v0, env, v0.orders[j], v.orders[j]);
    assert v0.orders[j].confirmed == v.orders[j].confirmed;
    StaleEntryAbandoned(v0, env, j);
    NoneLeftInFlight(v0, j, v0.orders[j].(status := Canceled));
  }

  lemma GoesWhenLetGo(v0: World, env: Env, now: Order, row: Order)
    requires LetsGo(env, row) && now.key == row.key && row.key in v0.broker && v0.broker[row.key].state.Working?
    ensures CancelGoes(v0, env, now.key, row.confirmed)
  {
  }

  // Once the one order in flight is dead, its position waits for the sweep.
  lemma NoneLeftInFlight(w: World, j: nat, row: Order)
    requires Inv(w) && InTransit(w, j) && Dead(row) && SameOrder(w.orders[j], row)
    ensures var now := w.orders[j := row]; !HasInFlight(now, row.pid) && Latest(now, row.pid, row.intent) == Some(j)
  {
    hide Inv, Latest;
    SupersededRows(w);
    UndeadIsLatest(w.cfg, w.orders, j);
    LatestUpdate(w.orders, j, row, row.pid, row.intent);
    forall i | 0 <= i < |w.orders| && i != j && w.orders[i].pid == row.pid ensures !InFlight(w.orders[i]) {
      if InFlight(w.orders[i]) { OneInFlight(w, i, j); }
    }
  }

  lemma ExpiredIsEntry(w: World, env: Env, row: Order)
    requires row.pid < |w.positions| && Expired(w, env, row)
    ensures row.intent.ToOpen?
  {
  }

  // An entry past its budget is withdrawn and its position fails, with nothing put in its place.
  lemma SyncExpires(w: World, env: Env, j: nat)
    requires Inv(w) && InTransit(w, j) && !Sync(w, env).raised
    requires Working(w, env, w.orders[j]) && Expired(w, env, w.orders[j]) && LetsGo(env, w.orders[j])
    ensures var w' := Run(w, Sync(w, env).ws);
      && Ends(w, w', j, Canceled)
      && TicketOf(w'.broker, w.orders[j].key) == Some(w.broker[w.orders[j].key].(state := Gone(Canceled)))
  {
    hide Inv, Run, SyncOne, Sync, Ends, HasInFlight, Abandoned, Expired, Latest, RungDue, RetryDue, GivenUp;
    var v := TurnStands(w, env, j);
    LeftAloneCarries(w, v, env, j);
    ExpiredTurn(v, env, j);
    ExpiredIsEntry(w, env, w.orders[j]);
    var v1 := Run(v, SyncOne(v, env, j).ws);
    WrittenOffEnds(w, v, v1, Run(w, Sync(w, env).ws), j);
  }

  // ----- replaced

  function NextEntry(w: World, row: Order): OrderKey
    requires row.pid < |w.positions|
  {
    OpenKey(w.positions[row.pid].signal, w.positions[row.pid].structure, EntryAttempt(w, row.pid) + 1)
  }

  function NextLimit(w: World, row: Order): Option<int>
    requires row.pid < |w.positions|
  {
    EntryRung(w.cfg, w.positions[row.pid].entry * 100.0, w.positions[row.pid].spreadPct, row.limit)
  }

  lemma RungTurn(v: World, env: Env, j: nat, limit: int)
    requires Inv(v) && InTransit(v, j) && Working(v, env, v.orders[j]) && !SyncOne(v, env, j).raised
    requires RungDue(v, env, v.orders[j]) && LetsGo(env, v.orders[j]) && NextLimit(v, v.orders[j]) == Some(limit)
    ensures Replaces(v, Run(v, SyncOne(v, env, j).ws), env, j, NextEntry(v, v.orders[j]), limit)
  {
    hide Inv, Run, SyncOne, NextLimit, ReplaceEntry, MaybeExpire, Supplanted, Replaces;
    var v0 := Noted(v, j);
    NotedRuns(v, j);
    WorkingTurn(v, env, j);
    RungIsCarried(v, env, j, limit);
    RungStands(v0, env, j, limit);
    ReplacedBy(v, v0, Run(v, SyncOne(v, env, j).ws), env, j, NextEntry(v0, v0.orders[j]), limit);
    assert NextEntry(v0, v0.orders[j]) == NextEntry(v, v.orders[j]) by { SameNext(v, v0, v.orders[j], v0.orders[j]); }
  }

  lemma SameNext(v: World, v0: World, a: Order, b: Order)
    requires v0.positions == v.positions && v0.entryAttempt == v.entryAttempt && v0.cfg == v.cfg
    requires a.pid == b.pid < |v.positions| && a.limit == b.limit
    ensures NextEntry(v0, b) == NextEntry(v, a) && NextLimit(v0, b) == NextLimit(v, a)
  {
  }

  // The due rung of a row the poll has just confirmed is the one carried out.
  lemma RungIsCarried(v: World, env: Env, j: nat, limit: int)
    requires InTransit(v, j) && Working(v, env, v.orders[j])
    requires RungDue(v, env, v.orders[j]) && LetsGo(env, v.orders[j]) && NextLimit(v, v.orders[j]) == Some(limit)
    ensures var v0, n := Noted(v, j), EntryAttempt(v, v.orders[j].pid) + 1;
            && InTransit(v0, j) && Staleness(v0, env, v0.orders[j]) == Rung(n, limit)
            && MaybeExpire(v0, env, j, v.orders[j].confirmed) == ReplaceEntry(v0, env, j, n, limit)
  {
    hide ReplaceEntry, NextLimit, Staleness, CancelGoes;
    var v0 := Noted(v, j);
    GoesWhenLetGo(v0, env, v0.orders[j], v.orders[j]);
    SameNext(v, v0, v.orders[j], v0.orders[j]);
    RungMove(v0, env, v0.orders[j], limit);
  }

  lemma RungStands(v0: World, env: Env, j: nat, limit: int)
    requires Inv(v0) && InTransit(v0, j) && v0.orders[j].intent.ToOpen?
    requires v0.orders[j].key in v0.broker && v0.broker[v0.orders[j].key].state.Working?
    requires Staleness(v0, env, v0.orders[j]) == Rung(NextEntry(v0, v0.orders[j]).attempt, limit)
    requires !ReplaceEntry(v0, env, j, NextEntry(v0, v0.orders[j]).attempt, limit).raised
    ensures var key := NextEntry(v0, v0.orders[j]);
      var v1, row := Run(v0, ReplaceEntry(v0, env, j, key.attempt, limit).ws), NewOrder(env, key, v0.orders[j].pid, ToOpen, limit);
      && Supplanted(v0, v1, env, j, row) && key !in env.submitDown && key != v0.orders[j].key
      && EntryAttempt(v1, v0.orders[j].pid) == key.attempt
  {
    hide Inv, Run, ReplaceEntry, Staleness, Supplanted, MayLapse, Reasonable;
    SaneOf(v0);
    StalenessReasonable(v0, env, v0.orders[j]);
    MayWithdraw(v0, v0.orders[j].key);
    RungRuns(v0, env, j, NextEntry(v0, v0.orders[j]).attempt, limit);
    RungKeyNew(v0, j, NextEntry(v0, v0.orders[j]));
  }

  lemma RungKeyNew(w: World, j: nat, key: OrderKey)
    requires Inv(w) && InTransit(w, j) && key.attempt == Counter(w, w.orders[j].pid, w.orders[j].intent) + 1
    ensures key != w.orders[j].key
  {
    assert OrderFits(w, w.orders[j]);
  }

  lemma RungMove(w: World, env: Env, row: Order, limit: int)
    requires row.pid < |w.positions| && RungDue(w, env, row) && NextLimit(w, row) == Some(limit)
    ensures Staleness(w, env, row) == Rung(EntryAttempt(w, row.pid) + 1, limit)
  {
    hide EntryBudget, EntryRung;
  }

  lemma MayWithdraw(w: World, key: OrderKey)
    requires key in w.broker && w.broker[key].state.Working?
    ensures MayLapse(w, key, Canceled)
  {
  }

  lemma ReplacedBy(v: World, v0: World, v1: World, env: Env, j: nat, key: OrderKey, limit: int)
    requires InTransit(v, j) && v.orders[j].key in v.broker && |v0.orders| == |v.orders| && v0.positions == v.positions && v0.broker == v.broker
    requires v0.orders[j].key == v.orders[j].key && v0.orders[j].pid == v.orders[j].pid && v0.orders[j].intent == v.orders[j].intent
    requires key != v.orders[j].key
    requires var row := NewOrder(env, key, v.orders[j].pid, v.orders[j].intent, limit);
             Supplanted(v0, v1, env, j, row) && row.key !in env.submitDown
    requires (if v.orders[j].intent.ToOpen? then EntryAttempt(v1, v.orders[j].pid) else CloseAttempt(v1, v.orders[j].pid)) == key.attempt
    ensures Replaces(v, v1, env, j, key, limit)
  {
    assert v1.orders[|v.orders|] == NewOrder(env, key, v.orders[j].pid, v.orders[j].intent, limit).(status := Submitted, confirmed := true);
  }

  lemma ReplacedFlies(v: World, v1: World, env: Env, j: nat, key: OrderKey, limit: int)
    requires InTransit(v, j) && v.orders[j].key in v.broker && Replaces(v, v1, env, j, key, limit)
    ensures HasInFlight(v1.orders, v.orders[j].pid)
  {
    var i :| |v.orders| <= i < |v1.orders|
             && v1.orders[i] == Order(key, v.orders[j].pid, v.orders[j].intent, Submitted, limit, true, None, env.now);
    assert InFlight(v1.orders[i]);
  }

  lemma ReplacesBetween(w: World, v: World, v1: World, w': World, env: Env, j: nat, key: OrderKey, limit: int)
    requires InTransit(w, j) && InTransit(v, j) && w.orders[j] == v.orders[j] && w.orders[j].key in w.broker
    requires Alike(w, v, w.orders[j].pid) && Alike(v1, w', w.orders[j].pid)
    requires v.orders[j].key in v.broker && Replaces(v, v1, env, j, key, limit)
    requires v1.orders[j].key == v.orders[j].key && v1.orders[j].pid == v.orders[j].pid
    ensures Replaces(w, w', env, j, key, limit)
  {
    var p := w.orders[j].pid;
    var i :| |v.orders| <= i < |v1.orders|
             && v1.orders[i] == Order(key, p, w.orders[j].intent, Submitted, limit, true, None, env.now);
    assert w'.orders[i] == v1.orders[i];
    assert w'.orders[j] == v1.orders[j];
    assert TicketOf(v.broker, w.orders[j].key) == TicketOf(w.broker, w.orders[j].key);
  }

  lemma StepKeepsKey(v: World, env: Env, j: nat)
    requires Inv(v) && InTransit(v, j)
    ensures var v1 := Run(v, SyncOne(v, env, j).ws);
            j < |v1.orders| && v1.orders[j].key == v.orders[j].key && v1.orders[j].pid == v.orders[j].pid
  {
    hide Inv, Run, Permitted, SyncOne;
    SyncOnePermitted(v, env, j);
    KeepsKey(v, SyncOne(v, env, j).ws, j);
  }

  lemma {:induction false} KeepsKey(w: World, ws: seq<Write>, j: nat)
    requires Permitted(w, ws) && j < |w.orders|
    ensures j < |Run(w, ws).orders| && SameOrder(w.orders[j], Run(w, ws).orders[j])
    decreases ws
  {
    hide Apply, Allowed;
    if ws != [] {
      WriteKeepsKey(w, ws[0], j);
      KeepsKey(Apply(w, ws[0]), ws[1..], j);
    }
  }

  lemma WriteKeepsKey(w: World, x: Write, j: nat)
    requires Allowed(w, x) && j < |w.orders|
    ensures j < |Apply(w, x).orders| && SameOrder(w.orders[j], Apply(w, x).orders[j])
  {
    hide AddSpreads, Traded, Rewarded, Ended, FillPrice, AllDead, AllBelow, Backed, OrderFits;
  }

  // A due rung that the broker lets happen happens: the resting entry withdrawn, the next one working at
  // its dearer limit for the whole size.
  lemma SyncRungs(w: World, env: Env, j: nat, limit: int)
    requires Inv(w) && InTransit(w, j) && !Sync(w, env).raised
    requires Working(w, env, w.orders[j]) && RungDue(w, env, w.orders[j]) && LetsGo(env, w.orders[j])
    requires NextLimit(w, w.orders[j]) == Some(limit)
    ensures Replaces(w, Run(w, Sync(w, env).ws), env, j, NextEntry(w, w.orders[j]), limit)
  {
    hide Inv, Run, SyncOne, Sync, Replaces, HasInFlight, Abandoned, WrittenOff, RungDue, RetryDue, GivenUp, Expired, NextLimit, NextEntry;
    var v := TurnStands(w, env, j);
    LeftAloneCarries(w, v, env, j);
    NextCarries(w, v, w.orders[j]);
    RungTurn(v, env, j, limit);
    var v1 := Run(v, SyncOne(v, env, j).ws);
    ReplacedFlies(v, v1, env, j, NextEntry(w, w.orders[j]), limit);
    StepKeepsKey(v, env, j);
    ReplacesBetween(w, v, v1, Run(w, Sync(w, env).ws), env, j, NextEntry(w, w.orders[j]), limit);
  }

  lemma NextCarries(w: World, v: World, row: Order)
    requires row.pid < |w.positions| && Alike(w, v, row.pid)
    ensures NextLimit(v, row) == NextLimit(w, row) && NextEntry(v, row) == NextEntry(w, row)
  {
  }

  // ----- a close that escalates

  function NextClose(w: World, row: Order): OrderKey
    requires row.pid < |w.positions|
  {
    CloseKey(w.positions[row.pid].signal, Escalated, Tries(w, row.pid) + 1)
  }

  lemma EscalationIsCarried(v: World, env: Env, j: nat)
    requires InTransit(v, j) && Working(v, env, v.orders[j]) && RetryDue(v, env, v.orders[j]) && LetsGo(env, v.orders[j])
    ensures var v0, n, limit := Noted(v, j), NextClose(v, v.orders[j]).attempt, CloseRung(v.cfg, v.orders[j].limit);
            && InTransit(v0, j) && EscalateClose(v0, v0.orders[j]) == Escalate(n, limit)
            && MaybeExpire(v0, env, j, v.orders[j].confirmed) == ReplaceClose(v0, env, j, n, limit)
  {
    hide ReplaceClose, CloseRung, CancelGoes;
    var v0 := Noted(v, j);
    GoesWhenLetGo(v0, env, v0.orders[j], v.orders[j]);
  }

  lemma EscalationStands(v0: World, env: Env, j: nat, n: nat, limit: int, key: OrderKey)
    requires Inv(v0) && InTransit(v0, j) && v0.orders[j].intent.ToClose?
    requires v0.orders[j].key in v0.broker && v0.broker[v0.orders[j].key].state.Working?
    requires EscalateClose(v0, v0.orders[j]) == Escalate(n, limit) && !ReplaceClose(v0, env, j, n, limit).raised
    requires key == CloseKey(v0.positions[v0.orders[j].pid].signal, Escalated, n) && n > CloseAttempt(v0, v0.orders[j].pid)
    ensures var v1, row := Run(v0, ReplaceClose(v0, env, j, n, limit).ws), NewOrder(env, key, v0.orders[j].pid, ToClose, limit);
      && Supplanted(v0, v1, env, j, row) && key !in env.submitDown && key != v0.orders[j].key
      && CloseAttempt(v1, v0.orders[j].pid) == n
  {
    hide Inv, Run, ReplaceClose, EscalateClose, Supplanted, MayLapse;
    MayWithdraw(v0, v0.orders[j].key);
    EscalationRuns(v0, env, j, n, limit);
    RowFits(v0, j);
  }

  lemma TriesIsMore(w: World, p: nat)
    requires Inv(w)
    ensures Tries(w, p) >= CloseAttempt(w, p)
  {
  }

  lemma EscalationTurn(v: World, env: Env, j: nat)
    requires Inv(v) && InTransit(v, j) && Working(v, env, v.orders[j]) && !SyncOne(v, env, j).raised
    requires RetryDue(v, env, v.orders[j]) && LetsGo(env, v.orders[j])
    ensures Replaces(v, Run(v, SyncOne(v, env, j).ws), env, j, NextClose(v, v.orders[j]), CloseRung(v.cfg, v.orders[j].limit))
  {
    hide Inv, Run, SyncOne, CloseRung, EscalateClose, ReplaceClose, MaybeExpire, Supplanted, Replaces;
    var v0, key, limit := Noted(v, j), NextClose(v, v.orders[j]), CloseRung(v.cfg, v.orders[j].limit);
    NotedRuns(v, j);
    WorkingTurn(v, env, j);
    EscalationIsCarried(v, env, j);
    TriesIsMore(v, v.orders[j].pid);
    EscalationStands(v0, env, j, key.attempt, limit, key);
    ReplacedBy(v, v0, Run(v, SyncOne(v, env, j).ws), env, j, key, limit);
  }

  // A close that has rested its time escalates while it has tries left, if the broker lets go of it.
  lemma SyncEscalates(w: World, env: Env, j: nat)
    requires Inv(w) && InTransit(w, j) && !Sync(w, env).raised
    requires Working(w, env, w.orders[j]) && RetryDue(w, env, w.orders[j]) && LetsGo(env, w.orders[j])
    ensures Replaces(w, Run(w, Sync(w, env).ws), env, j, NextClose(w, w.orders[j]), CloseRung(w.cfg, w.orders[j].limit))
  {
    hide Inv, Run, SyncOne, Sync, Replaces, HasInFlight, Abandoned, WrittenOff, RungDue, GivenUp, Expired, CloseRung, RetryDue, Tries;
    var v := TurnStands(w, env, j);
    LeftAloneCarries(w, v, env, j);
    EscalationTurn(v, env, j);
    var v1, key, limit := Run(v, SyncOne(v, env, j).ws), NextClose(w, w.orders[j]), CloseRung(w.cfg, w.orders[j].limit);
    SameClose(w, v, w.orders[j]);
    ReplacedFlies(v, v1, env, j, key, limit);
    StepKeepsKey(v, env, j);
    ReplacesBetween(w, v, v1, Run(w, Sync(w, env).ws), env, j, key, limit);
  }

  lemma SameClose(w: World, v: World, row: Order)
    requires row.pid < |w.positions| && Alike(w, v, row.pid) && Tries(w, row.pid) == Tries(v, row.pid)
    ensures NextClose(v, row) == NextClose(w, row) && v.cfg == w.cfg
  {
  }

  // ----- a position whose order left flight without it

  lemma SweptTurn(w: World, env: Env, p: nat) returns (u: World, inFlight: set<nat>)
    requires Inv(w) && p < |w.positions| && !HasInFlight(w.orders, p) && !Sync(w, env).raised
    ensures Inv(u) && Alike(w, u, p) && p !in inFlight
    ensures Alike(Run(u, SweepOne(u, env, inFlight, p)), Run(w, Sync(w, env).ws), p)
  {
    hide Inv, Permitted, Run, Apply, InFlightPids, Recovered, SweepOne, Alike;
    var loop := SyncFrom(w, env, w.orders, 0);
    var w1 := Run(w, loop.ws);
    SyncFromPermitted(w, env, w.orders, 0);
    RunKeepsInv(w, loop.ws);
    LoopIsElsewhere(w, env, w.orders, 0, p);
    AlikeSize(w, w1, p);
    inFlight := InFlightPids(w1.orders);
    AllInFlightPids(w1.orders);
    SameFlight(w1, w1, p) by { AlikeItself(w1, p); }
    if HasInFlight(w1.orders, p) { NoneGained(w, w1, p); }
    u := SweepTurn(w1, env, inFlight, 0, |w1.positions|, p);
    AlikeChains(w, w1, u, p);
    RunConcat(w, loop.ws, SweepFrom(w1, env, inFlight, 0, |w1.positions|));
  }

  lemma NoneGained(v: World, w: World, p: nat)
    requires Alike(v, w, p)
    ensures HasInFlight(w.orders, p) ==> HasInFlight(v.orders, p)
  {
    if HasInFlight(w.orders, p) {
      var o :| 0 <= o < |w.orders| && w.orders[o].pid == p && InFlight(w.orders[o]);
      assert v.orders[o] == w.orders[o];
    }
  }

  function Awaits(st: Status): Intent { if st.Opening? then ToOpen else ToClose }

  lemma LatestCarries(v: World, w: World, p: nat, intent: Intent)
    requires Alike(v, w, p)
    ensures Latest(w.orders, p, intent) == Latest(v.orders, p, intent)
  {
    var a, b := Latest(v.orders, p, intent), Latest(w.orders, p, intent);
    if a.Some? { assert Of(w.orders[a.value], p, intent); }
    if b.Some? { assert Of(v.orders[b.value], p, intent); }
  }

  // The position is as the order row it waited for says: entered or exited at the row's price if that was
  // filled, failed or open again if it was dead.
  ghost predicate Finished(w: World, w': World, env: Env, p: nat, o: nat) {
    && p < |w.positions| && p < |w'.positions| && o < |w.orders|
    && var row, was, now := w.orders[o], w.positions[p], w'.positions[p];
       if row.status.Filled? then
         row.filledPrice.Some?
         && (if row.intent.ToOpen? then EnteredAt(was, now, row.filledPrice.value, env.spots)
             else ExitedAt(was, now, row.filledPrice.value, AskedBy(w, p)))
       else now == was.(status := if row.intent.ToOpen? then Failed else Open)
            && CloseAttempt(w', p) == CloseAttempt(w, p) + (if row.intent.ToOpen? then 0 else 1)
  }

  lemma SweepFinishes(u: World, env: Env, inFlight: set<nat>, p: nat, o: nat)
    requires Inv(u) && p < |u.positions| && p !in inFlight && !Settled(u.positions[p].status)
    requires Latest(u.orders, p, Awaits(u.positions[p].status)) == Some(o) && !InFlight(u.orders[o])
    ensures Finished(u, Run(u, SweepOne(u, env, inFlight, p)), env, p, o)
  {
    hide Inv, Run, OnFill, OnDead, Latest, EnteredAt, ExitedAt, Finished;
    RowFits(u, o);
    if u.orders[o].status.Filled? {
      FilledFinishes(u, env, p, o);
    } else {
      DeadFinishes(u, env, p, o);
    }
  }

  lemma FilledFinishes(u: World, env: Env, p: nat, o: nat)
    requires o < |u.orders| && u.orders[o].pid == p < |u.positions|
    requires u.orders[o].status.Filled? && u.orders[o].filledPrice.Some?
    ensures Finished(u, Run(u, OnFill(u, env, o, u.orders[o].filledPrice)), env, p, o)
  {
    hide Run, OnFill, EnteredAt, ExitedAt;
    FillBooks(u, env, o, u.orders[o].filledPrice.value);
  }

  lemma DeadFinishes(u: World, env: Env, p: nat, o: nat)
    requires o < |u.orders| && u.orders[o].pid == p < |u.positions| && !u.orders[o].status.Filled?
    requires u.positions[p].status == if u.orders[o].intent.ToOpen? then Opening else Closing
    ensures Finished(u, Run(u, OnDead(u, o, u.orders[o].status)), env, p, o)
  {
    hide Run, OnDead;
    DeathRuns(u, o, u.orders[o].status);
  }

  lemma FinishedBetween(w: World, u: World, u': World, w': World, env: Env, p: nat, o: nat)
    requires Alike(w, u, p) && Alike(u', w', p) && o < |w.orders| && w.orders[o].pid == p && Finished(u, u', env, p, o)
    ensures Finished(w, w', env, p, o)
  {
    hide EnteredAt, ExitedAt;
  }

  // What a crash left half resolved, a sync that returns finishes: a position waiting with no order in
  // flight gets the resolution its newest order row tells.
  lemma SyncFinishes(w: World, env: Env, p: nat, o: nat)
    requires Inv(w) && p < |w.positions| && !HasInFlight(w.orders, p) && !Sync(w, env).raised
    requires !Settled(w.positions[p].status) && Latest(w.orders, p, Awaits(w.positions[p].status)) == Some(o)
    ensures Finished(w, Run(w, Sync(w, env).ws), env, p, o)
  {
    hide Inv, Run, Sync, SweepOne, Alike, Finished;
    var u, inFlight := SweptTurn(w, env, p);
    AlikeSize(w, u, p);
    LatestCarries(w, u, p, Awaits(w.positions[p].status));
    NoneGained(w, u, p);
    SweepFinishes(u, env, inFlight, p, o);
    FinishedBetween(w, u, Run(u, SweepOne(u, env, inFlight, p)), Run(w, Sync(w, env).ws), env, p, o);
  }

  // ----- over whole runs

  // Whatever crashed before: at the end of any run, one sync that returns books every order the broker
  // has completed and reports.
  lemma EverySyncBooks(cfg: Config, acts: seq<Act>, env: Env, j: nat) returns (price: real)
    requires Sane(cfg) && ValidRun(Fresh(cfg), acts) && !Sync(After(Fresh(cfg), acts), env).raised
    requires var w := After(Fresh(cfg), acts);
             j < |w.orders| && InFlight(w.orders[j]) && Completed(w, env, w.orders[j])
    ensures var w := After(Fresh(cfg), acts);
            InTransit(w, j) && BooksFill(w, Run(w, Sync(w, env).ws), env, j, price)
  {
    hide Inv, Run, Sync, After, ValidRun, BooksFill;
    FreshInv(cfg);
    ReachableInv(Fresh(cfg), acts);
    RowFits(After(Fresh(cfg), acts), j);
    price := SyncBooks(After(Fresh(cfg), acts), env, j);
  }
}
