/**
 Every operation of the trader is honest about the broker, so custody holds at
 every point of every run.
 */
module CustodyRuns {
  import opened Wrappers
  import opened Structures
  import opened World
  import opened Ladder
  import opened Protocol
  import opened Lifecycle
  import opened LifecycleProofs
  import opened Custody
  import opened Runs

  ghost predicate HonestRun(w: World, ws: seq<Write>, spared: iset<OrderKey>)
    decreases ws
  {
    ws == [] || (Honest(w, ws[0], spared) && HonestRun(Apply(w, ws[0]), ws[1..], spared))
  }

  lemma {:induction false} HonestConcat(w: World, a: seq<Write>, b: seq<Write>, spared: iset<OrderKey>)
    requires HonestRun(w, a, spared) && HonestRun(Run(w, a), b, spared)
    ensures HonestRun(w, a + b, spared)
    decreases a
  {
    hide Apply, Honest;
    if a == [] {
      assert a + b == b;
    } else {
      assert (a + b)[1..] == a[1..] + b;
      HonestConcat(Apply(w, a[0]), a[1..], b, spared);
    }
  }

  // Custody holds wherever a crash cuts an honest, permitted list.
  lemma {:induction false} CrashKeepsCust(w: World, ws: seq<Write>, k: nat, spared: iset<OrderKey>)
    requires Inv(w) && Cust(w) && Permitted(w, ws) && HonestRun(w, ws, spared) && k <= |ws|
    ensures Cust(Run(w, ws[..k]))
    decreases k
  {
    hide Inv, Cust, Apply, Allowed, Truthful;
    if k > 0 {
      WriteKeepsInv(w, ws[0]);
      WriteKeepsCust(w, ws[0]);
      assert ws[..k][1..] == ws[1..][..k - 1];
      CrashKeepsCust(Apply(w, ws[0]), ws[1..], k - 1, spared);
    }
  }

  lemma RunKeepsCust(w: World, ws: seq<Write>, spared: iset<OrderKey>)
    requires Inv(w) && Cust(w) && Permitted(w, ws) && HonestRun(w, ws, spared)
    ensures Cust(Run(w, ws)) && Inv(Run(w, ws))
  {
    hide Inv, Cust, Permitted, Run, HonestRun;
    CrashKeepsCust(w, ws, |ws|, spared);
    RunKeepsInv(w, ws);
    assert ws[..|ws|] == ws;
  }

  lemma HonestNothing(w: World, spared: iset<OrderKey>)
    ensures HonestRun(w, [], spared)
  {
  }

  lemma HonestFirst(w: World, a: Write, w1: World, rest: seq<Write>, spared: iset<OrderKey>)
    requires Honest(w, a, spared) && Apply(w, a) == w1 && HonestRun(w1, rest, spared)
    ensures HonestRun(w, [a] + rest, spared)
  {
    hide Honest, Apply;
    assert ([a] + rest)[1..] == rest;
  }

  // Only order rows can be dishonest.
  lemma {:induction false} HonestOthers(w: World, ws: seq<Write>, spared: iset<OrderKey>)
    requires forall i :: 0 <= i < |ws| ==> !ws[i].SetOrder?
    ensures HonestRun(w, ws, spared)
    decreases ws
  {
    hide Apply;
    if ws != [] {
      assert forall i :: 0 <= i < |ws[1..]| ==> ws[1..][i] == ws[i + 1];
      HonestOthers(Apply(w, ws[0]), ws[1..], spared);
    }
  }

  lemma HonestSetOrder(w: World, o: nat, row: Order, rest: seq<Write>, spared: iset<OrderKey>)
    requires o < |w.orders| && (Candid(row, w.broker, spared) || (Dead(w.orders[o]) && Dead(row)))
    requires HonestRun(w.(orders := w.orders[o := row]), rest, spared)
    ensures HonestRun(w, [SetOrder(o, row)] + rest, spared)
  {
    hide Apply, HonestRun, Run;
    RunSetOrder(w, o, row, rest);
    HonestFirst(w, SetOrder(o, row), w.(orders := w.orders[o := row]), rest, spared);
  }

  // ----- operation by operation

  lemma SendHonest(w: World, env: Env, row: Order, pos: Position, spared: iset<OrderKey>)
    requires row.key !in w.broker
    ensures HonestRun(w.(orders := w.orders + [row]), Send(w, env, |w.orders|, row, pos).ws, spared)
  {
    hide Apply, HonestRun, Run;
    var o := |w.orders|;
    var w1 := w.(orders := w.orders + [row]);
    if row.key in env.submitDown {
      HonestNothing(w1.(orders := w1.orders[o := row.(status := Rejected)]), spared);
      HonestSetOrder(w1, o, row.(status := Rejected), [], spared);
      assert [SetOrder(o, row.(status := Rejected))] + [] == Send(w, env, o, row, pos).ws;
    } else {
      var t, sent := NewTicket(row, pos), row.(status := Submitted, confirmed := true);
      var w2 := w1.(broker := w1.broker[row.key := t]);
      HonestNothing(w2.(orders := w2.orders[o := sent]), spared);
      HonestSetOrder(w2, o, sent, [], spared);
      RunAccept(w1, row.key, t, []);
      HonestFirst(w1, Accept(row.key, t), w2, [SetOrder(o, sent)] + [], spared);
      assert [Accept(row.key, t)] + ([SetOrder(o, sent)] + []) == Send(w, env, o, row, pos).ws;
    }
  }

  lemma SubmitHonest(w: World, env: Env, key: OrderKey, pid: nat, intent: Intent, limit: int, spared: iset<OrderKey>)
    requires Inv(w) && MayInsertOrder(w, NewOrder(env, key, pid, intent, limit))
    ensures HonestRun(w, Submit(w, env, key, pid, intent, limit).ws, spared)
  {
    hide Apply, HonestRun, Run, Inv, MayInsertOrder;
    var row := NewOrder(env, key, pid, intent, limit);
    InsertedHasPosition(w, row);
    SubmitSends(w, env, key, pid, intent, limit);
    SendHonest(w, env, row, w.positions[pid], spared);
    RunInsertOrder(w, row, []);
    HonestFirst(w, InsertOrder(row), w.(orders := w.orders + [row]), Send(w, env, |w.orders|, row, w.positions[pid]).ws, spared);
  }

  lemma InsertedHasPosition(w: World, row: Order)
    requires MayInsertOrder(w, row)
    ensures row.pid < |w.positions|
  {
  }

  lemma BackfillHonest(w: World, o: nat, spared: iset<OrderKey>)
    requires o < |w.orders| && w.orders[o].key in w.broker
    ensures HonestRun(w, Backfill(w, o), spared)
  {
    hide Apply, HonestRun, Run;
    HonestNothing(w, spared);
    if w.orders[o].status.Pending? {
      var row := w.orders[o].(status := Submitted, confirmed := true);
      HonestNothing(w.(orders := w.orders[o := row]), spared);
      HonestSetOrder(w, o, row, [], spared);
      assert [SetOrder(o, row)] + [] == Backfill(w, o);
    }
  }

  // A fill is honest when the broker has completed the ticket at that price.
  lemma OnFillHonest(w: World, env: Env, o: nat, price: Option<real>, spared: iset<OrderKey>)
    requires o < |w.orders| && Candid(FilledRow(w.orders[o], price), w.broker, spared)
    ensures HonestRun(w, OnFill(w, env, o, price), spared)
  {
    hide Apply, HonestRun, Run, Candid, Entered, Exited;
    var row := FilledRow(w.orders[o], price);
    var rest := OnFill(w, env, o, price)[1..];
    HonestOthers(w.(orders := w.orders[o := row]), rest, spared);
    HonestSetOrder(w, o, row, rest, spared);
    assert [SetOrder(o, row)] + rest == OnFill(w, env, o, price);
  }

  lemma OnDeadHonest(w: World, o: nat, status: OrderStatus, spared: iset<OrderKey>)
    requires o < |w.orders| && DeadStatus(status)
    requires Dead(w.orders[o]) || Candid(w.orders[o].(status := status), w.broker, spared)
    ensures HonestRun(w, OnDead(w, o, status), spared)
  {
    hide Apply, HonestRun, Run, Candid;
    var row := w.orders[o].(status := status);
    var rest := OnDead(w, o, status)[1..];
    HonestOthers(w.(orders := w.orders[o := row]), rest, spared);
    HonestSetOrder(w, o, row, rest, spared);
    assert [SetOrder(o, row)] + rest == OnDead(w, o, status);
  }

  lemma CancelHonest(w: World, o: nat, spared: iset<OrderKey>)
    requires o < |w.orders| && w.orders[o].key in w.broker
    ensures HonestRun(w, Cancel(w, o), spared)
  {
    hide Apply, HonestRun, Run;
    var row := w.orders[o].(status := Canceled);
    var w1 := w.(broker := Ended(w.broker, row.key, Canceled));
    HonestNothing(w1.(orders := w1.orders[o := row]), spared);
    HonestSetOrder(w1, o, row, [], spared);
    RunWithdraw(w, row.key, []);
    HonestFirst(w, Withdraw(row.key), w1, [SetOrder(o, row)] + [], spared);
    assert [Withdraw(row.key)] + ([SetOrder(o, row)] + []) == Cancel(w, o);
  }

  lemma CancelCountHonest(w: World, o: nat, x: Write, spared: iset<OrderKey>)
    requires o < |w.orders| && w.orders[o].key in w.broker && !x.SetOrder?
    ensures HonestRun(w, Cancel(w, o) + [x], spared)
  {
    hide Apply, HonestRun, Run, Cancel;
    CancelHonest(w, o, spared);
    HonestOthers(Run(w, Cancel(w, o)), [x], spared);
    HonestConcat(w, Cancel(w, o), [x], spared);
  }

  lemma ReplaceEntryHonest(w: World, env: Env, o: nat, n: nat, limit: int, spared: iset<OrderKey>)
    requires Inv(w) && InTransit(w, o) && Reasonable(w, w.orders[o], Rung(n, limit))
    requires MayLapse(w, w.orders[o].key, Canceled)
    ensures HonestRun(w, ReplaceEntry(w, env, o, n, limit).ws, spared)
  {
    hide Inv, MayInsertOrder, HonestRun, Run, Apply, Permitted, Submit, Reasonable;
    var pid := w.orders[o].pid;
    var first := Cancel(w, o) + [SetEntryAttempt(pid, n)];
    EntryStage(w, env, o, n, limit);
    CancelThenCount(w, o, SetEntryAttempt(pid, n));
    var w1, key := Run(w, first), OpenKey(w.positions[pid].signal, w.positions[pid].structure, n);
    CancelCountHonest(w, o, SetEntryAttempt(pid, n), spared);
    SubmitHonest(w1, env, key, pid, ToOpen, limit, spared);
    HonestConcat(w, first, Submit(w1, env, key, pid, ToOpen, limit).ws, spared);
  }

  lemma ReplaceCloseHonest(w: World, env: Env, o: nat, n: nat, limit: int, spared: iset<OrderKey>)
    requires Inv(w) && InTransit(w, o) && Reasonable(w, w.orders[o], Escalate(n, limit))
    requires MayLapse(w, w.orders[o].key, Canceled)
    ensures HonestRun(w, ReplaceClose(w, env, o, n, limit).ws, spared)
  {
    hide Inv, MayInsertOrder, HonestRun, Run, Apply, Permitted, Submit, Reasonable;
    var pid := w.orders[o].pid;
    var first := Cancel(w, o) + [SetCloseAttempt(pid, n)];
    CloseStage(w, env, o, n, limit);
    CancelThenCount(w, o, SetCloseAttempt(pid, n));
    var w1, key := Run(w, first), CloseKey(w.positions[pid].signal, Escalated, n);
    CancelCountHonest(w, o, SetCloseAttempt(pid, n), spared);
    SubmitHonest(w1, env, key, pid, ToClose, limit, spared);
    HonestConcat(w, first, Submit(w1, env, key, pid, ToClose, limit).ws, spared);
  }

  lemma CarryHonest(w: World, env: Env, o: nat, move: Move, confirmed: bool, spared: iset<OrderKey>)
    requires Inv(w) && InTransit(w, o) && Reasonable(w, w.orders[o], move)
    ensures HonestRun(w, Carry(w, env, o, move, confirmed).ws, spared)
  {
    hide Inv, Reasonable, HonestRun, ReplaceEntry, ReplaceClose, Cancel;
    HonestNothing(w, spared);
    if CancelGoes(w, env, w.orders[o].key, confirmed) {
      match move
      case Rung(n, limit) => ReplaceEntryHonest(w, env, o, n, limit, spared);
      case Escalate(n, limit) => ReplaceCloseHonest(w, env, o, n, limit, spared);
      case _ => CancelHonest(w, o, spared);
    }
  }

  // The broker answers for any order it holds that is about to be given up as unconfirmed.
  ghost predicate AnswersFor(w: World, env: Env, row: Order, spared: iset<OrderKey>) {
    row.key !in spared && row.status.Pending? && !row.confirmed && env.now - row.createdAt >= w.cfg.entryTimeout && row.key in w.broker
    ==> row.key !in env.pollDown
  }

  // It does so for every order but those spared that question.
  ghost predicate AnswersBut(w: World, env: Env, spared: iset<OrderKey>) {
    forall o :: 0 <= o < |w.orders| && InFlight(w.orders[o]) ==> AnswersFor(w, env, w.orders[o], spared)
  }

  ghost predicate Answers(w: World, env: Env) { AnswersBut(w, env, iset{}) }

  lemma VoidHonest(w: World, env: Env, o: nat, spared: iset<OrderKey>)
    requires o < |w.orders| && AnswersFor(w, env, w.orders[o], spared) && Poll(w, env, w.orders[o].key).NoAnswer?
    ensures HonestRun(w, MaybeVoid(w, env, o), spared)
  {
    hide HonestRun, Run, Apply;
    HonestNothing(w, spared);
    if MaybeVoid(w, env, o) != [] {
      var row := w.orders[o].(status := Canceled);
      HonestNothing(w.(orders := w.orders[o := row]), spared);
      HonestSetOrder(w, o, row, [], spared);
      assert [SetOrder(o, row)] + [] == MaybeVoid(w, env, o);
    }
  }

  // The poll's answer is the broker's own word about the row's ticket.
  ghost predicate Told(w: World, o: nat, answer: Answer)
    requires o < |w.orders|
  {
    var key := w.orders[o].key;
    && key in w.broker
    && (answer.FilledAt? ==> w.broker[key].state.Complete? && answer.price == Average(w.broker[key]))
    && (answer.DeadAs? ==> w.broker[key].state.Gone? && DeadStatus(answer.status))
  }

  lemma ResolutionHonest(w: World, env: Env, o: nat, answer: Answer, confirmed: bool, spared: iset<OrderKey>)
    requires Inv(w) && InTransit(w, o) && Told(w, o, answer)
    ensures HonestRun(w, Resolution(w, env, o, answer, confirmed).ws, spared)
  {
    hide Inv, HonestRun, OnFill, OnDead, Carry, Staleness, Reasonable;
    HonestNothing(w, spared);
    match answer
    case FilledAt(price) => OnFillHonest(w, env, o, Some(price), spared);
    case DeadAs(status) => OnDeadHonest(w, o, status, spared);
    case Resting =>
      SaneOf(w);
      StalenessReasonable(w, env, w.orders[o]);
      CarryHonest(w, env, o, Staleness(w, env, w.orders[o]), confirmed, spared);
    case _ =>
  }

  lemma SyncOneHonest(w: World, env: Env, o: nat, spared: iset<OrderKey>)
    requires Inv(w) && InTransit(w, o) && AnswersFor(w, env, w.orders[o], spared)
    ensures HonestRun(w, SyncOne(w, env, o).ws, spared)
  {
    hide Inv, HonestRun, Run, Apply, Resolution, MaybeVoid, Backfill;
    RowFits(w, o);
    BackfillRuns(w, o);
    var answer := Poll(w, env, w.orders[o].key);
    if answer.NoAnswer? {
      VoidHonest(w, env, o, spared);
    } else {
      var w1 := Run(w, Backfill(w, o));
      AfterBackfill(w, o);
      BackfillHonest(w, o, spared);
      ResolutionHonest(w1, env, o, answer, w.orders[o].confirmed, spared);
      HonestConcat(w, Backfill(w, o), Resolution(w1, env, o, answer, w.orders[o].confirmed).ws, spared);
    }
  }

  // ----- the loops

  ghost predicate AnswersAhead(w: World, env: Env, snapshot: seq<Order>, o: nat, spared: iset<OrderKey>) {
    forall j :: o <= j < |snapshot| && InFlight(snapshot[j]) ==> AnswersFor(w, env, snapshot[j], spared)
  }

  lemma LoopStepHonest(w: World, env: Env, snapshot: seq<Order>, o: nat, spared: iset<OrderKey>)
    requires Inv(w) && Ahead(w, snapshot, o) && o < |snapshot| && AnswersAhead(w, env, snapshot, o, spared)
    ensures HonestRun(w, LoopStep(w, env, snapshot, o).ws, spared)
    ensures AnswersAhead(Run(w, LoopStep(w, env, snapshot, o).ws), env, snapshot, o + 1, spared)
  {
    hide Inv, HonestRun, Run, Apply, SyncOne;
    HonestNothing(w, spared);
    LoopStepDoes(w, env, snapshot, o);
    if InFlight(snapshot[o]) {
      SyncOneHonest(w, env, o, spared);
    }
    var w1 := Run(w, LoopStep(w, env, snapshot, o).ws);
    forall j | o + 1 <= j < |snapshot| && InFlight(snapshot[j]) ensures AnswersFor(w1, env, snapshot[j], spared) {
      assert AnswersFor(w, env, snapshot[j], spared);
      assert w.orders[j].key !in w.broker ==> w.orders[j].key !in w1.broker;
    }
  }

  lemma {:induction false} SyncFromHonest(w: World, env: Env, snapshot: seq<Order>, o: nat, spared: iset<OrderKey>)
    requires Inv(w) && Ahead(w, snapshot, o) && AnswersAhead(w, env, snapshot, o, spared)
    ensures HonestRun(w, SyncFrom(w, env, snapshot, o).ws, spared)
    decreases |snapshot| - o
  {
    hide Inv, HonestRun, Run, Apply, LoopStep, AnswersFor;
    HonestNothing(w, spared);
    if o < |snapshot| {
      var x := LoopStep(w, env, snapshot, o);
      var w1 := Run(w, x.ws);
      LoopUnfolds(w, env, snapshot, o);
      LoopStepDoes(w, env, snapshot, o);
      LoopStepHonest(w, env, snapshot, o, spared);
      if !x.raised {
        SyncFromHonest(w1, env, snapshot, o + 1, spared);
        HonestConcat(w, x.ws, SyncFrom(w1, env, snapshot, o + 1).ws, spared);
      }
    }
  }

  lemma SweepOneHonest(w: World, env: Env, inFlight: set<nat>, pid: nat, spared: iset<OrderKey>)
    requires AllTruthful(w) && pid < |w.positions|
    ensures HonestRun(w, SweepOne(w, env, inFlight, pid), spared)
  {
    hide HonestRun, OnFill, OnDead;
    HonestNothing(w, spared);
    var st := w.positions[pid].status;
    if (st.Opening? || st.Closing?) && pid !in inFlight {
      var found := Latest(w.orders, pid, if st.Opening? then ToOpen else ToClose);
      if found.Some? {
        var o := found.value;
        assert Truthful(w.orders[o], w.broker);
        if w.orders[o].status.Filled? {
          assert FilledRow(w.orders[o], w.orders[o].filledPrice) == w.orders[o];
          OnFillHonest(w, env, o, w.orders[o].filledPrice, spared);
        } else if Dead(w.orders[o]) {
          OnDeadHonest(w, o, w.orders[o].status, spared);
        }
      }
    }
  }

  lemma {:induction false} SweepFromHonest(w: World, env: Env, inFlight: set<nat>, p: nat, n: nat, spared: iset<OrderKey>)
    requires Inv(w) && Cust(w) && p <= n == |w.positions| && InFlightPids(w.orders) <= inFlight
    requires forall q :: p <= q < n && q in inFlight ==> HasInFlight(w.orders, q)
    ensures HonestRun(w, SweepFrom(w, env, inFlight, p, n), spared)
    decreases n - p
  {
    hide Inv, HonestRun, Run, Apply, SweepOne, Permitted, InFlightPids, HasInFlight, HoldingsAgree, CashAgrees, Recovered;
    HonestNothing(w, spared);
    if p < n {
      var ws := SweepOne(w, env, inFlight, p);
      var w1 := Run(w, ws);
      SweepOneDoes(w, env, inFlight, p);
      SweepOneHonest(w, env, inFlight, p, spared);
      RunKeepsCust(w, ws, spared);
      ResolvesKeepsInFlight(w, w1, p, inFlight);
      SweepFromHonest(w1, env, inFlight, p + 1, n, spared);
      HonestConcat(w, ws, SweepFrom(w1, env, inFlight, p + 1, n), spared);
    }
  }

  lemma SyncHonest(w: World, env: Env, spared: iset<OrderKey>)
    requires Inv(w) && Cust(w) && AnswersBut(w, env, spared)
    ensures HonestRun(w, Sync(w, env).ws, spared)
  {
    hide Inv, Cust, HonestRun, Run, Apply, Permitted, InFlightPids, HasInFlight;
    var loop := SyncFrom(w, env, w.orders, 0);
    SyncFromHonest(w, env, w.orders, 0, spared);
    if !loop.raised {
      SyncFromPermitted(w, env, w.orders, 0);
      RunKeepsCust(w, loop.ws, spared);
      var w1 := Run(w, loop.ws);
      AllInFlightPids(w1.orders);
      SweepFromHonest(w1, env, InFlightPids(w1.orders), 0, |w1.positions|, spared);
      HonestConcat(w, loop.ws, SweepFrom(w1, env, InFlightPids(w1.orders), 0, |w1.positions|), spared);
    }
  }

  lemma CloseHonest(w: World, env: Env, pid: nat, barrier: Barrier, limit: int, spared: iset<OrderKey>)
    requires Inv(w) && pid < |w.positions|
    ensures HonestRun(w, Close(w, env, pid, barrier, limit).ws, spared)
  {
    hide Inv, HonestRun, Run, Apply, Permitted, Submit, MayInsertOrder;
    HonestNothing(w, spared);
    var pos := w.positions[pid];
    if pos.status.Open? {
      var row := pos.(status := Closing);
      var first := [SetPosition(pid, row), SetCloseBarrier(pid, barrier)];
      var w2 := w.(positions := w.positions[pid := row], closeBarrier := w.closeBarrier[pid := barrier]);
      CloseFirst(w, pid, row, barrier);
      CloseAdmitted(w, env, pid, barrier, limit);
      HonestOthers(w, first, spared);
      var key := CloseKey(pos.signal, By(barrier), CloseAttempt(w, pid));
      SubmitHonest(w2, env, key, pid, ToClose, limit, spared);
      HonestConcat(w, first, Submit(w2, env, key, pid, ToClose, limit).ws, spared);
    }
  }

  lemma NewsHonest(w: World, env: Env, p: Proposal, spared: iset<OrderKey>)
    requires Inv(w) && OneEach(p.structure.legs)
    ensures HonestRun(w, News(w, env, p).ws, spared)
  {
    hide Inv, HonestRun, Run, Apply, Permitted, Submit, MayInsertOrder, OneEach;
    HonestNothing(w, spared);
    if !Seen(w, p.signal) && !Halted(w) && UnitRisk(p).Dollars? && GateApproves(w, p) {
      var row := NewPosition(env, p);
      var w1 := w.(positions := w.positions + [row]);
      RunInsertPosition(w, row, []);
      Run1(w, InsertPosition(row));
      NewsAdmitted(w, env, p);
      HonestOthers(w, [InsertPosition(row)], spared);
      SubmitHonest(w1, env, OpenKey(p.signal, p.structure, 0), |w.positions|, ToOpen, p.net, spared);
      HonestConcat(w, [InsertPosition(row)],
                   Submit(w1, env, OpenKey(p.signal, p.structure, 0), |w.positions|, ToOpen, p.net).ws, spared);
    }
  }

  // ----- runs

  // The environment of a run: the broker answers for what it holds before it is given up.
  ghost predicate Answered(w: World, step: Step) {
    step.SyncStep? ==> Answers(w, step.env)
  }

  ghost predicate StepAnswersBut(w: World, step: Step, spared: iset<OrderKey>) {
    step.SyncStep? ==> AnswersBut(w, step.env, spared)
  }

  ghost predicate AnsweredRun(w: World, acts: seq<Act>)
    decreases acts
  {
    acts == [] || (Answered(w, acts[0].step) && AnsweredRun(Run(w, Done(w, acts[0])), acts[1..]))
  }

  lemma StepHonest(w: World, step: Step, spared: iset<OrderKey>)
    requires Inv(w) && Cust(w) && Enabled(w, step) && StepAnswersBut(w, step, spared)
    ensures HonestRun(w, StepWrites(w, step), spared)
  {
    hide Inv, Cust, HonestRun, Sync, News, Close, MayTrade, MayLapse, OneEach, Answers;
    match step
    case SyncStep(env) => SyncHonest(w, env, spared);
    case CloseStep(env, pid, barrier, limit) => CloseHonest(w, env, pid, barrier, limit, spared);
    case NewsStep(env, p) => NewsHonest(w, env, p, spared);
    case _ => HonestOthers(w, StepWrites(w, step), spared);
  }

  lemma ActKeepsCust(w: World, act: Act)
    requires Inv(w) && Cust(w) && Enabled(w, act.step)
    ensures Cust(Run(w, Done(w, act))) && Inv(Run(w, Done(w, act)))
  {
    hide Inv, Cust, HonestRun, Permitted, Enabled, Answered, StepWrites, Run;
    ActPermitted(w, act);
    StepPermitted(w, act.step);
    StepHonest(w, act.step, ALL_KEYS);
    var ws := StepWrites(w, act.step);
    CrashKeepsCust(w, ws, if act.survived < |ws| then act.survived else |ws|, ALL_KEYS);
    assert ws[..|ws|] == ws;
  }

  // Broker holdings and cash are accounted for at every point of every run, whatever fails.
  lemma {:induction false} ReachableCust(w: World, acts: seq<Act>)
    requires Inv(w) && Cust(w) && ValidRun(w, acts)
    ensures Cust(After(w, acts)) && Inv(After(w, acts))
    decreases acts
  {
    hide Inv, Cust, Enabled, Done, Run;
    if acts != [] {
      ActKeepsCust(w, acts[0]);
      ReachableCust(Run(w, Done(w, acts[0])), acts[1..]);
    }
  }

  // ----- when the broker answers, nothing it still holds is given up

  lemma WriteKeepsReleased(w: World, x: Write, spared: iset<OrderKey>)
    requires Inv(w) && ReleasedBut(w, spared) && Allowed(w, x) && Honest(w, x, spared)
    ensures ReleasedBut(Apply(w, x), spared)
  {
    hide Inv, AddSpreads, Rewarded, MayInsertPosition, MaySetPosition, OrderFits, AllDead, AllBelow, Truthful, TicketFits;
    var w' := Apply(w, x);
    AllKeysDiffer(w);
    forall o | 0 <= o < |w'.orders| && Dead(w'.orders[o]) && w'.orders[o].key !in spared
      ensures Released(w'.orders[o], w'.broker)
    {
      if o < |w.orders| && Dead(w.orders[o]) { assert Released(w.orders[o], w.broker); }
    }
  }

  lemma {:induction false} CrashKeepsReleased(w: World, ws: seq<Write>, k: nat, spared: iset<OrderKey>)
    requires Inv(w) && ReleasedBut(w, spared) && Permitted(w, ws) && HonestRun(w, ws, spared) && k <= |ws|
    ensures ReleasedBut(Run(w, ws[..k]), spared)
    decreases k
  {
    hide Inv, ReleasedBut, Apply, Allowed, Honest;
    if k > 0 {
      WriteKeepsInv(w, ws[0]);
      WriteKeepsReleased(w, ws[0], spared);
      assert ws[..k][1..] == ws[1..][..k - 1];
      CrashKeepsReleased(Apply(w, ws[0]), ws[1..], k - 1, spared);
    }
  }

  lemma ActKeepsReleased(w: World, act: Act)
    requires Inv(w) && Cust(w) && AllReleased(w) && Enabled(w, act.step) && Answered(w, act.step)
    ensures AllReleased(Run(w, Done(w, act)))
  {
    hide Inv, Cust, ReleasedBut, HonestRun, Permitted, Enabled, AnswersBut, StepWrites, Run;
    StepPermitted(w, act.step);
    StepHonest(w, act.step, iset{});
    var ws := StepWrites(w, act.step);
    CrashKeepsReleased(w, ws, if act.survived < |ws| then act.survived else |ws|, iset{});
    assert ws[..|ws|] == ws;
  }

  // In every run in which the broker answers for what it holds before it is given up, a dead row's
  // order is at the broker no more.
  lemma {:induction false} ReachableReleased(w: World, acts: seq<Act>)
    requires Inv(w) && Cust(w) && AllReleased(w) && ValidRun(w, acts) && AnsweredRun(w, acts)
    ensures AllReleased(After(w, acts))
    decreases acts
  {
    hide Inv, Cust, AllReleased, Enabled, Answered, Done, Run;
    if acts != [] {
      ActKeepsReleased(w, acts[0]);
      ActKeepsCust(w, acts[0]);
      ReachableReleased(Run(w, Done(w, acts[0])), acts[1..]);
    }
  }

  // Whoever answers, a sync leaves dead at the broker's back only orders that were in flight before it.
  ghost function FlightKeys(w: World): iset<OrderKey> {
    iset o | 0 <= o < |w.orders| && InFlight(w.orders[o]) :: w.orders[o].key
  }

  lemma SyncReleases(w: World, env: Env)
    requires Inv(w) && Cust(w) && AllReleased(w)
    ensures ReleasedBut(Run(w, Sync(w, env).ws), FlightKeys(w))
  {
    hide Inv, Cust, HonestRun, Sync, Run, Permitted;
    var ws := Sync(w, env).ws;
    SyncPermitted(w, env);
    assert ReleasedBut(w, FlightKeys(w)) && AnswersBut(w, env, FlightKeys(w));
    SyncHonest(w, env, FlightKeys(w));
    CrashKeepsReleased(w, ws, |ws|, FlightKeys(w));
    assert ws[..|ws|] == ws;
  }

  lemma FreshCust(cfg: Config)
    ensures Cust(Fresh(cfg))
  {
  }
}
