/**
 The whole effect of each operation: the world its writes leave, stated outright.
 */
module Effects {
  import opened Wrappers
  import opened Structures
  import opened World
  import opened Ladder
  import opened Protocol
  import opened Lifecycle
  import opened LifecycleProofs

  // ----- submissions

  lemma SendRuns(w: World, env: Env, o: nat, row: Order, pos: Position)
    requires o < |w.orders|
    ensures var out := Send(w, env, o, row, pos);
            if row.key in env.submitDown || row.key in w.broker then
              out.raised && Run(w, out.ws) == w.(orders := w.orders[o := row.(status := Rejected)])
            else
              !out.raised && Run(w, out.ws) == w.(broker := w.broker[row.key := NewTicket(row, pos)],
                                                 orders := w.orders[o := row.(status := Submitted, confirmed := true)])
  {
    hide Run, Apply, NewTicket;
    if row.key in env.submitDown || row.key in w.broker {
      var refused := row.(status := Rejected);
      RunSetOrder(w, o, refused, []);
      RunNothing(w.(orders := w.orders[o := refused]));
      assert [SetOrder(o, refused)] + [] == Send(w, env, o, row, pos).ws;
    } else {
      var sent, t := row.(status := Submitted, confirmed := true), NewTicket(row, pos);
      var w1 := w.(broker := w.broker[row.key := t]);
      RunAccept(w, row.key, t, [SetOrder(o, sent)] + []);
      RunSetOrder(w1, o, sent, []);
      RunNothing(w1.(orders := w1.orders[o := sent]));
      assert [Accept(row.key, t)] + ([SetOrder(o, sent)] + []) == Send(w, env, o, row, pos).ws;
    }
  }

  // What submitting a fresh row leaves: the row confirmed and working, or rejected.
  lemma SubmitRuns(w: World, env: Env, key: OrderKey, pid: nat, intent: Intent, limit: int)
    requires Inv(w) && MayInsertOrder(w, NewOrder(env, key, pid, intent, limit)) && pid < |w.positions|
    ensures var out, row := Submit(w, env, key, pid, intent, limit), NewOrder(env, key, pid, intent, limit);
      && out.raised == (key in env.submitDown)
      && Run(w, out.ws) ==
         if key in env.submitDown then w.(orders := w.orders + [row.(status := Rejected)])
         else w.(orders := w.orders + [row.(status := Submitted, confirmed := true)],
                 broker := w.broker[key := NewTicket(row, w.positions[pid])])
  {
    hide Inv, MayInsertOrder, Run, Apply, Submit;
    SubmitSends(w, env, key, pid, intent, limit);
    var row, pos, o := NewOrder(env, key, pid, intent, limit), w.positions[pid], |w.orders|;
    var w1 := w.(orders := w.orders + [row]);
    var sent, refused := row.(status := Submitted, confirmed := true), row.(status := Rejected);
    if key in env.submitDown {
      RunInsertOrder(w, row, [SetOrder(o, refused)] + []);
      RunSetOrder(w1, o, refused, []);
      RunNothing(w1.(orders := w1.orders[o := refused]));
      assert w1.orders[o := refused] == w.orders + [refused];
      assert Submit(w, env, key, pid, intent, limit).ws == [InsertOrder(row)] + ([SetOrder(o, refused)] + []);
    } else {
      var t := NewTicket(row, pos);
      RunInsertOrder(w, row, [Accept(key, t)] + ([SetOrder(o, sent)] + []));
      RunAccept(w1, key, t, [SetOrder(o, sent)] + []);
      var w2 := w1.(broker := w1.broker[key := t]);
      RunSetOrder(w2, o, sent, []);
      RunNothing(w2.(orders := w2.orders[o := sent]));
      assert w1.orders[o := sent] == w.orders + [sent];
      assert Submit(w, env, key, pid, intent, limit).ws == [InsertOrder(row)] + ([Accept(key, t)] + ([SetOrder(o, sent)] + []));
    }
  }

  // A submission of undefined risk or no size raises with nothing written; a known id that was sent or filled
  // is left alone; a known id that was not is sent under the row it has.
  lemma SubmitGuards(w: World, env: Env, key: OrderKey, pid: nat, intent: Intent, limit: int)
    requires pid < |w.positions|
    ensures var out, pos, known := Submit(w, env, key, pid, intent, limit), w.positions[pid], Find(w.orders, key);
      if !DefinedRisk(pos.structure.legs) || pos.qty < 1 then out.raised && Run(w, out.ws) == w
      else if known.Some? && (w.orders[known.value].status.Submitted? || w.orders[known.value].status.Filled?) then
        !out.raised && Run(w, out.ws) == w
      else known.Some? ==>
        var row := w.orders[known.value];
        && out.raised == (row.key in env.submitDown || row.key in w.broker)
        && Run(w, out.ws) ==
           if out.raised then w.(orders := w.orders[known.value := row.(status := Rejected)])
           else w.(broker := w.broker[row.key := Ticket(row.intent, pos.structure.legs, pos.qty, row.limit, Working, 0, 0.0)],
                   orders := w.orders[known.value := row.(status := Submitted, confirmed := true)])
  {
    hide Run, Send, DefinedRisk;
    RunNothing(w);
    var known := Find(w.orders, key);
    if known.Some? { SendRuns(w, env, known.value, w.orders[known.value], w.positions[pid]); }
  }

  ghost predicate Supplanted(w: World, w': World, env: Env, o: nat, row: Order)
    requires o < |w.orders| && row.pid < |w.positions|
  {
    && w'.orders == w.orders[o := w.orders[o].(status := Canceled)]
                    + [if row.key in env.submitDown then row.(status := Rejected)
                       else row.(status := Submitted, confirmed := true)]
    && w'.positions == w.positions && w'.holdings == w.holdings && w'.cash == w.cash
    && w'.broker == (var left := Ended(w.broker, w.orders[o].key, Canceled);
                     if row.key in env.submitDown then left else left[row.key := NewTicket(row, w.positions[row.pid])])
  }

  // A rung withdraws the resting order, counts the attempt and leaves one dearer order in its place.
  lemma RungRuns(w: World, env: Env, o: nat, n: nat, limit: int)
    requires Inv(w) && InTransit(w, o) && Reasonable(w, w.orders[o], Rung(n, limit))
    requires MayLapse(w, w.orders[o].key, Canceled)
    ensures var out, pid := ReplaceEntry(w, env, o, n, limit), w.orders[o].pid;
      var row := NewOrder(env, OpenKey(w.positions[pid].signal, w.positions[pid].structure, n), pid, ToOpen, limit);
      && out.raised == (row.key in env.submitDown) && Supplanted(w, Run(w, out.ws), env, o, row)
      && EntryAttempt(Run(w, out.ws), pid) == n && limit > w.orders[o].limit
  {
    hide Inv, Permitted, Run, Apply, MayInsertOrder, Submit, Cancel, Ended, MayLapse;
    var pid := w.orders[o].pid;
    var pos := w.positions[pid];
    var first := Cancel(w, o) + [SetEntryAttempt(pid, n)];
    var key := OpenKey(pos.signal, pos.structure, n);
    EntryStage(w, env, o, n, limit);
    CancelThenCount(w, o, SetEntryAttempt(pid, n));
    RunCount(Withdrawn(w, o), SetEntryAttempt(pid, n), []);
    SubmitRuns(Run(w, first), env, key, pid, ToOpen, limit);
    RunConcat(w, first, Submit(Run(w, first), env, key, pid, ToOpen, limit).ws);
  }

  // An escalation does the same for a close, at a limit no better for us and of the same sign.
  lemma EscalationRuns(w: World, env: Env, o: nat, n: nat, limit: int)
    requires Inv(w) && InTransit(w, o) && EscalateClose(w, w.orders[o]) == Escalate(n, limit) && w.orders[o].intent.ToClose?
    requires MayLapse(w, w.orders[o].key, Canceled)
    ensures var out, pid := ReplaceClose(w, env, o, n, limit), w.orders[o].pid;
      var row := NewOrder(env, CloseKey(w.positions[pid].signal, Escalated, n), pid, ToClose, limit);
      && out.raised == (row.key in env.submitDown) && Supplanted(w, Run(w, out.ws), env, o, row)
      && CloseAttempt(Run(w, out.ws), pid) == n && n <= w.cfg.closeMaxAttempts
      && limit >= w.orders[o].limit && (limit > 0 <==> w.orders[o].limit > 0)
  {
    hide Inv, Permitted, Run, Apply, MayInsertOrder, Submit, Cancel, Ended, MayLapse, CloseRung;
    var pid := w.orders[o].pid;
    var first := Cancel(w, o) + [SetCloseAttempt(pid, n)];
    var key := CloseKey(w.positions[pid].signal, Escalated, n);
    SaneOf(w);
    CloseMoveReasonable(w, w.orders[o]);
    CloseRungConcedes(w.cfg, w.orders[o].limit);
    CloseStage(w, env, o, n, limit);
    CancelThenCount(w, o, SetCloseAttempt(pid, n));
    RunCount(Withdrawn(w, o), SetCloseAttempt(pid, n), []);
    SubmitRuns(Run(w, first), env, key, pid, ToClose, limit);
    RunConcat(w, first, Submit(Run(w, first), env, key, pid, ToClose, limit).ws);
  }

  // An entry past its budget is withdrawn and not replaced, if the broker lets go of it.
  lemma StaleEntryAbandoned(w: World, env: Env, o: nat)
    requires InTransit(w, o) && w.orders[o].intent.ToOpen?
    requires var pos := w.positions[w.orders[o].pid];
             (env.now - pos.openedAt) as real >= EntryBudget(w.cfg, pos.spreadPct)
    requires CancelGoes(w, env, w.orders[o].key, w.orders[o].confirmed)
    ensures Run(w, MaybeExpire(w, env, o, w.orders[o].confirmed).ws) == Withdrawn(w, o)
    ensures !MaybeExpire(w, env, o, w.orders[o].confirmed).raised && Dead(Withdrawn(w, o).orders[o])
  {
    hide Run, Cancel, EntryBudget, CancelGoes;
    CancelRuns(w, o);
  }

  // ----- resolutions

  lemma MarkRuns(w: World, o: nat, row: Order)
    requires o < |w.orders|
    ensures Run(w, [SetOrder(o, row)]) == w.(orders := w.orders[o := row])
  {
    hide Run, Apply;
    RunSetOrder(w, o, row, []);
    RunNothing(w.(orders := w.orders[o := row]));
    assert [SetOrder(o, row)] + [] == [SetOrder(o, row)];
  }

  lemma FillRuns(w: World, env: Env, o: nat, price: Option<real>)
    requires o < |w.orders|
    ensures var row := w.orders[o].(status := Filled, filledPrice := price);
            var w1, w2 := w.(orders := w.orders[o := row]), Run(w, OnFill(w, env, o, price));
            if row.pid >= |w.positions| then w2 == w1
            else if row.intent.ToOpen? then
              w2 == w1.(positions := w.positions[row.pid := Entered(env, w.positions[row.pid], price)])
            else
              var out := Exited(w, row.pid, w.positions[row.pid], price);
              && out.win.Some?
              && w2 == w1.(positions := w.positions[row.pid := out],
                           bandit := if out.regime == "" then w.bandit
                                     else Rewarded(w.bandit, Cell(out.structure.kind, out.regime), out.win.value))
  {
    hide Run, Apply, Entered, Exited, Rewarded;
    var row := w.orders[o].(status := Filled, filledPrice := price);
    if row.pid >= |w.positions| {
      MarkRuns(w, o, row);
    } else if row.intent.ToOpen? {
      EnterRuns(w, env, o, price);
    } else {
      var out := Exited(w, row.pid, w.positions[row.pid], price);
      ExitedIsClosed(w, row.pid, w.positions[row.pid], price);
      ExitRuns(w, env, o, price, out);
      RewardRuns(w.(orders := w.orders[o := row], positions := w.positions[row.pid := out]), out);
    }
  }

  lemma ReopenRuns(w: World, o: nat, row: Order, next: Position, n: nat, w': World)
    requires o < |w.orders| && row == w.orders[o].(status := row.status)
    requires row.pid < |w.positions| && row.intent.ToClose? && w.positions[row.pid].status.Closing?
    requires next == w.positions[row.pid].(status := Open) && n == CloseAttempt(w, row.pid) + 1
    requires w' == w.(orders := w.orders[o := row], closeAttempt := w.closeAttempt[row.pid := n],
                      positions := w.positions[row.pid := next])
    ensures Run(w, OnDead(w, o, row.status)) == w'
  {
    hide Run, Apply;
    var w1 := w.(orders := w.orders[o := row]);
    var w2 := w1.(closeAttempt := w1.closeAttempt[row.pid := n]);
    RunSetOrder(w, o, row, [SetCloseAttempt(row.pid, n)] + ([SetPosition(row.pid, next)] + []));
    RunCount(w1, SetCloseAttempt(row.pid, n), [SetPosition(row.pid, next)] + []);
    RunSetPosition(w2, row.pid, next, []);
    RunNothing(w');
    assert OnDead(w, o, row.status)
        == [SetOrder(o, row)] + ([SetCloseAttempt(row.pid, n)] + ([SetPosition(row.pid, next)] + []));
  }

  lemma DeathRuns(w: World, o: nat, status: OrderStatus)
    requires o < |w.orders|
    ensures var row := w.orders[o].(status := status);
            var w1, w2 := w.(orders := w.orders[o := row]), Run(w, OnDead(w, o, status));
            if row.pid >= |w.positions| then w2 == w1
            else
              var pos := w.positions[row.pid];
              if row.intent.ToOpen? && pos.status.Opening? then
                w2 == w1.(positions := w.positions[row.pid := pos.(status := Failed)])
              else if row.intent.ToClose? && pos.status.Closing? then
                w2 == w1.(positions := w.positions[row.pid := pos.(status := Open)],
                          closeAttempt := w.closeAttempt[row.pid := CloseAttempt(w, row.pid) + 1])
              else w2 == w1
  {
    hide Run, Apply;
    var row := w.orders[o].(status := status);
    MarkRuns(w, o, row);
    if row.pid < |w.positions| {
      var pos := w.positions[row.pid];
      if row.intent.ToOpen? && pos.status.Opening? {
        var failed := pos.(status := Failed);
        MarkThenMove(w, o, row, failed, []);
        RunNothing(w.(orders := w.orders[o := row], positions := w.positions[row.pid := failed]));
        assert OnDead(w, o, status) == [SetOrder(o, row)] + ([SetPosition(row.pid, failed)] + []);
      } else if row.intent.ToClose? && pos.status.Closing? {
        var n, next := CloseAttempt(w, row.pid) + 1, pos.(status := Open);
        ReopenRuns(w, o, row, next, n, w.(orders := w.orders[o := row], closeAttempt := w.closeAttempt[row.pid := n],
                                          positions := w.positions[row.pid := next]));
      }
    }
  }

  // ----- the trader

  predicate Taken(w: World, p: Proposal) { !Seen(w, p.signal) && UnitRisk(p).Dollars? && GateApproves(w, p) }

  lemma NewsRefused(w: World, env: Env, p: Proposal)
    requires !Taken(w, p)
    ensures Run(w, News(w, env, p).ws) == w && !News(w, env, p).raised
  {
    hide Run, Apply, Submit, UnitRisk, DefinedRisk, LegsFree, Seen;
    RunNothing(w);
  }

  lemma NewsRuns(w: World, env: Env, p: Proposal)
    requires Taken(w, p)
    ensures var w1 := w.(positions := w.positions + [NewPosition(env, p)]);
            var out := Submit(w1, env, OpenKey(p.signal, p.structure, 0), |w.positions|, ToOpen, p.net);
            Run(w, News(w, env, p).ws) == Run(w1, out.ws) && News(w, env, p).raised == out.raised
  {
    hide Run, Apply, Submit, UnitRisk, DefinedRisk, LegsFree, Seen;
    var row := NewPosition(env, p);
    var w1 := w.(positions := w.positions + [row]);
    Run1(w, InsertPosition(row));
    RunInsertPosition(w, row, []);
    RunConcat(w, [InsertPosition(row)],
              Submit(w1, env, OpenKey(p.signal, p.structure, 0), |w.positions|, ToOpen, p.net).ws);
  }

  lemma SendCloseRuns(w: World, env: Env, pid: nat, barrier: Barrier, limit: int)
    requires pid < |w.positions|
    ensures var pos := w.positions[pid];
            var w1 := w.(positions := w.positions[pid := pos.(status := Closing)],
                         closeBarrier := w.closeBarrier[pid := barrier]);
            var out := Submit(w1, env, CloseKey(pos.signal, By(barrier), CloseAttempt(w, pid)), pid, ToClose, limit);
            if pos.status.Open? then
              Run(w, Close(w, env, pid, barrier, limit).ws) == Run(w1, out.ws)
              && Close(w, env, pid, barrier, limit).raised == out.raised
            else Run(w, Close(w, env, pid, barrier, limit).ws) == w && !Close(w, env, pid, barrier, limit).raised
  {
    hide Run, Apply, Submit;
    var pos := w.positions[pid];
    var row := pos.(status := Closing);
    var w1 := w.(positions := w.positions[pid := row], closeBarrier := w.closeBarrier[pid := barrier]);
    RunNothing(w);
    CloseFirst(w, pid, row, barrier);
    RunConcat(w, [SetPosition(pid, row), SetCloseBarrier(pid, barrier)],
              Submit(w1, env, CloseKey(pos.signal, By(barrier), CloseAttempt(w, pid)), pid, ToClose, limit).ws);
  }

  // ----- what a signal becomes, field by field

  // New, unhalted, priced, of defined risk, in some quantity, on contracts nobody live uses, and clear of
  // every check that does not read the tables.
  ghost predicate Tradeable(w: World, p: Proposal) {
    && (forall q :: 0 <= q < |w.positions| ==> w.positions[q].signal != p.signal)
    && w.halt.reason == "" && MaxLossPerSpread(p.structure, p.net as real / 100.0).Dollars?
    && DefinedRisk(p.structure.legs) && p.qty >= 1 && p.clears
    && (forall q, i :: 0 <= q < |w.positions| && 0 <= i < |p.structure.legs| && Live(w.positions[q].status) ==>
          p.structure.legs[i].symbol !in Symbols(w.positions[q].structure.legs))
  }

  lemma TradeableIsTaken(w: World, p: Proposal)
    ensures Tradeable(w, p) <==> Taken(w, p)
  {
    hide MaxLossPerSpread, DefinedRisk;
    var legs := p.structure.legs;
    if Taken(w, p) {
      forall q, i | 0 <= q < |w.positions| && 0 <= i < |legs| && Live(w.positions[q].status)
        ensures legs[i].symbol !in Symbols(w.positions[q].structure.legs)
      {
        assert legs[i].symbol in Symbols(legs);
      }
    }
  }

  // The position a signal asks for: its own quantity at its own price, with the loss that price implies.
  ghost predicate AskedFor(env: Env, p: Proposal, row: Position) {
    && row.signal == p.signal && row.structure == p.structure && row.qty == p.qty
    && row.entry * 100.0 == p.net as real && row.status.Opening? && row.openedAt == env.now
    && row.spreadPct == p.spreadPct && row.regime == p.regime && row.entrySpot == p.spot
    && row.barrier.None? && row.win.None? && row.realized == 0.0
    && (match MaxLossPerSpread(p.structure, p.net as real / 100.0)
        case Dollars(d) => row.maxLoss == d * p.qty as real
        case _ => false)
  }

  // What acting on a signal leaves: one position, one order row for it, and one order of its whole size at
  // the broker, unless the broker refuses it.
  ghost predicate Acted(w: World, w': World, env: Env, p: Proposal, raised: bool) {
    var key := OpenKey(p.signal, p.structure, 0);
    && raised == (key in env.submitDown)
    && |w'.positions| == |w.positions| + 1 && w'.positions[..|w.positions|] == w.positions
    && AskedFor(env, p, w'.positions[|w.positions|])
    && w'.orders == w.orders + [Order(key, |w.positions|, ToOpen, if raised then Rejected else Submitted, p.net, !raised, None, env.now)]
    && w'.broker == (if raised then w.broker
                     else w.broker[key := Ticket(ToOpen, p.structure.legs, p.qty, p.net, Working, 0, 0.0)])
    && w' == w.(positions := w'.positions, orders := w'.orders, broker := w'.broker)
  }

  // A signal is traded exactly when it is tradeable, and then as it was proposed; otherwise nothing happens.
  lemma NewsTrades(w: World, env: Env, p: Proposal)
    requires Inv(w) && OneEach(p.structure.legs)
    ensures var out := News(w, env, p);
            if Tradeable(w, p) then Acted(w, Run(w, out.ws), env, p, out.raised)
            else Run(w, out.ws) == w && !out.raised
  {
    hide Inv, Run, News, Submit, Tradeable, OneEach, NewPosition, UnitRisk, GateApproves, MayInsertOrder, Permitted, Taken, Seen;
    TradeableIsTaken(w, p);
    if Tradeable(w, p) {
      TakenMeans(w, p);
      NewsAdmitted(w, env, p);
      NewsRuns(w, env, p);
      var w1 := w.(positions := w.positions + [NewPosition(env, p)]);
      SubmitRuns(w1, env, OpenKey(p.signal, p.structure, 0), |w.positions|, ToOpen, p.net);
      AskedIsNew(env, p);
      assert w1.positions[..|w.positions|] == w.positions;
    } else {
      NewsRefused(w, env, p);
    }
  }

  lemma TakenMeans(w: World, p: Proposal)
    requires Taken(w, p)
    ensures !Seen(w, p.signal) && UnitRisk(p).Dollars? && GateApproves(w, p)
  {
  }

  lemma AskedIsNew(env: Env, p: Proposal)
    requires UnitRisk(p).Dollars?
    ensures AskedFor(env, p, NewPosition(env, p))
    ensures NewPosition(env, p).qty == p.qty && NewPosition(env, p).structure.legs == p.structure.legs
  {
    hide MaxLossPerSpread;
  }

  // What asking to close leaves of an open position: closing, under the barrier named, with one order of
  // its whole size at the broker, unless refused.
  ghost predicate AskedToClose(w: World, w': World, env: Env, pid: nat, barrier: Barrier, limit: int, raised: bool)
    requires pid < |w.positions|
  {
    var pos := w.positions[pid];
    var key := CloseKey(pos.signal, By(barrier), CloseAttempt(w, pid));
    && raised == (key in env.submitDown)
    && w'.positions == w.positions[pid := pos.(status := Closing)]
    && w'.closeBarrier == w.closeBarrier[pid := barrier]
    && w'.orders == w.orders + [Order(key, pid, ToClose, if raised then Rejected else Submitted, limit, !raised, None, env.now)]
    && w'.broker == (if raised then w.broker
                     else w.broker[key := Ticket(ToClose, pos.structure.legs, pos.qty, limit, Working, 0, 0.0)])
    && w' == w.(positions := w'.positions, closeBarrier := w'.closeBarrier, orders := w'.orders, broker := w'.broker)
  }

  lemma CloseSends(w: World, env: Env, pid: nat, barrier: Barrier, limit: int)
    requires Inv(w) && pid < |w.positions|
    ensures var out := Close(w, env, pid, barrier, limit);
            if w.positions[pid].status.Open? then AskedToClose(w, Run(w, out.ws), env, pid, barrier, limit, out.raised)
            else Run(w, out.ws) == w && !out.raised
  {
    hide Inv, Run, Close, Submit, MayInsertOrder, Permitted;
    SendCloseRuns(w, env, pid, barrier, limit);
    if w.positions[pid].status.Open? {
      var pos := w.positions[pid].(status := Closing);
      var w1 := w.(positions := w.positions[pid := pos], closeBarrier := w.closeBarrier[pid := barrier]);
      CloseAdmitted(w, env, pid, barrier, limit);
      SubmitRuns(w1, env, CloseKey(pos.signal, By(barrier), CloseAttempt(w, pid)), pid, ToClose, limit);
    }
  }
}
