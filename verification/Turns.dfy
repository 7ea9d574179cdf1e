/**
 One sync, order by order: every order in flight gets its turn as if it were the only one,
 and nothing else the sync does touches its position.
 */
module Turns {
  import opened Wrappers
  import opened Structures
  import opened World
  import opened Ladder
  import opened Protocol
  import opened Lifecycle
  import opened LifecycleProofs
  import opened Effects
  import opened Runs
  import opened Endings

  // ----- everything that concerns one position

  ghost predicate Alike(v: World, w: World, p: nat) {
    && p < |v.positions| == |w.positions| && w.positions[p] == v.positions[p]
    && |v.orders| <= |w.orders|
    && (forall i :: 0 <= i < |w.orders| && w.orders[i].pid == p ==> i < |v.orders| && v.orders[i].pid == p)
    && (forall i :: 0 <= i < |v.orders| && v.orders[i].pid == p ==>
          w.orders[i] == v.orders[i] && TicketOf(w.broker, v.orders[i].key) == TicketOf(v.broker, v.orders[i].key))
    && EntryAttempt(w, p) == EntryAttempt(v, p) && CloseAttempt(w, p) == CloseAttempt(v, p)
    && w.closeBarrier == v.closeBarrier && w.cfg == v.cfg && w.halt == v.halt
  }

  lemma AlikeItself(w: World, p: nat)
    requires p < |w.positions|
    ensures Alike(w, w, p)
  {
  }

  lemma AlikeChains(u: World, v: World, w: World, p: nat)
    requires Alike(u, v, p) && Alike(v, w, p)
    ensures Alike(u, w, p)
  {
  }

  // What is local to another position's row leaves a position alike.
  lemma LocalIsElsewhere(w: World, ws: seq<Write>, o: nat, p: nat)
    requires Inv(w) && o < |w.orders| && p < |w.positions| && p != w.orders[o].pid
    requires AllLocal(ws, o, w.orders[o].pid, w.orders)
    ensures Alike(w, Run(w, ws), p)
  {
    hide Inv, Run;
    var q, w' := w.orders[o].pid, Run(w, ws);
    RunLocal(w, ws, o, q, w.orders);
    AllKeysDiffer(w);
    assert RowsOf(w.orders, o, q, w.orders);
    forall i | 0 <= i < |w.orders| && w.orders[i].pid == p
      ensures w'.orders[i] == w.orders[i] && TicketOf(w'.broker, w.orders[i].key) == TicketOf(w.broker, w.orders[i].key)
    {
      assert w.orders[i].key != w.orders[o].key;
    }
  }

  // ----- the loop

  lemma StepIsElsewhere(w: World, env: Env, snapshot: seq<Order>, o: nat, p: nat)
    requires Inv(w) && Ahead(w, snapshot, o) && o < |snapshot| && p < |w.positions|
    requires InFlight(snapshot[o]) ==> snapshot[o].pid != p
    ensures Alike(w, Run(w, LoopStep(w, env, snapshot, o).ws), p)
  {
    hide Inv, Run, SyncOne, Alike;
    RowFits(w, o);
    if InFlight(snapshot[o]) {
      SyncOneLocal(w, env, o);
      LocalIsElsewhere(w, SyncOne(w, env, o).ws, o, p);
    } else {
      RunNothing(w);
      AlikeItself(w, p);
    }
  }

  lemma {:induction false} LoopIsElsewhere(w: World, env: Env, snapshot: seq<Order>, o: nat, p: nat)
    requires Inv(w) && Ahead(w, snapshot, o) && p < |w.positions|
    requires forall k :: o <= k < |snapshot| && InFlight(snapshot[k]) ==> snapshot[k].pid != p
    ensures Alike(w, Run(w, SyncFrom(w, env, snapshot, o).ws), p)
    decreases |snapshot| - o
  {
    hide Inv, Run, Apply, Permitted, LoopStep, Alike, LeavesAlone;
    if o < |snapshot| {
      var x := LoopStep(w, env, snapshot, o);
      var w1 := Run(w, x.ws);
      LoopUnfolds(w, env, snapshot, o);
      LoopStepDoes(w, env, snapshot, o);
      StepIsElsewhere(w, env, snapshot, o, p);
      AlikeSize(w, w1, p);
      if !x.raised {
        LoopIsElsewhere(w1, env, snapshot, o + 1, p);
        AlikeChains(w, w1, Run(w1, SyncFrom(w1, env, snapshot, o + 1).ws), p);
      }
    } else {
      RunNothing(w);
      AlikeItself(w, p);
    }
  }

  lemma AlikeSize(v: World, w: World, p: nat)
    requires Alike(v, w, p)
    ensures p < |v.positions| == |w.positions| && w.positions[p] == v.positions[p]
  {
  }

  // No other order of its position is in flight.
  lemma OnlyOneInFlight(w: World, snapshot: seq<Order>, o: nat, j: nat, k: nat)
    requires Inv(w) && Ahead(w, snapshot, o) && o <= j < |snapshot| && o <= k < |snapshot| && k != j
    requires InFlight(snapshot[j]) && InFlight(snapshot[k])
    ensures snapshot[j].pid < |w.positions| && snapshot[k].pid != snapshot[j].pid
  {
    RowFits(w, j);
    if snapshot[k].pid == snapshot[j].pid { OneInFlight(w, j, k); }
  }

  // The world in which row j's turn comes, alike for its position to the one the loop began in.
  lemma {:induction false} LoopTurn(w: World, env: Env, snapshot: seq<Order>, o: nat, j: nat) returns (v: World)
    requires Inv(w) && Ahead(w, snapshot, o) && o <= j < |snapshot| && InFlight(snapshot[j])
    requires !SyncFrom(w, env, snapshot, o).raised
    ensures Inv(v) && InTransit(v, j) && v.orders[j] == snapshot[j] && Alike(w, v, snapshot[j].pid)
    ensures !SyncOne(v, env, j).raised && Inv(Run(v, SyncOne(v, env, j).ws))
    ensures Alike(Run(v, SyncOne(v, env, j).ws), Run(w, SyncFrom(w, env, snapshot, o).ws), snapshot[j].pid)
    decreases |snapshot| - o
  {
    hide Inv, Run, Apply, Permitted, LoopStep, SyncOne, Alike, LeavesAlone;
    var p := snapshot[j].pid;
    var x := LoopStep(w, env, snapshot, o);
    var w1 := Run(w, x.ws);
    RowFits(w, j);
    LoopUnfolds(w, env, snapshot, o);
    LoopStepDoes(w, env, snapshot, o);
    forall k | o <= k < |snapshot| && k != j && InFlight(snapshot[k]) ensures snapshot[k].pid != p {
      OnlyOneInFlight(w, snapshot, o, j, k);
    }
    if o < j {
      StepIsElsewhere(w, env, snapshot, o, p);
      v := LoopTurn(w1, env, snapshot, o + 1, j);
      AlikeChains(w, w1, v, p);
    } else {
      v := w;
      AlikeItself(w, p);
      LoopStepIs(w, env, snapshot, o);
      StepKeepsSize(w, env, snapshot, o);
      LoopIsElsewhere(w1, env, snapshot, o + 1, p);
    }
  }

  lemma StepKeepsSize(w: World, env: Env, snapshot: seq<Order>, o: nat)
    requires Inv(w) && Ahead(w, snapshot, o) && o < |snapshot|
    ensures |Run(w, LoopStep(w, env, snapshot, o).ws).positions| == |w.positions|
  {
    hide Inv, Run, Permitted, LoopStep;
    LoopStepDoes(w, env, snapshot, o);
  }

  // ----- the sweep

  lemma SweepOneElsewhere(w: World, env: Env, inFlight: set<nat>, q: nat, p: nat)
    requires Inv(w) && q < |w.positions| && p < |w.positions| && p != q
    ensures Alike(w, Run(w, SweepOne(w, env, inFlight, q)), p)
  {
    hide Inv, Run, OnFill, OnDead, Alike;
    RunNothing(w);
    AlikeItself(w, p);
    var st := w.positions[q].status;
    var found := Latest(w.orders, q, if st.Opening? then ToOpen else ToClose);
    if found.Some? {
      var o := found.value;
      FillLocal(w, env, o, w.orders[o].filledPrice, w.orders[o].status);
      LocalIsElsewhere(w, OnFill(w, env, o, w.orders[o].filledPrice), o, p);
      LocalIsElsewhere(w, OnDead(w, o, w.orders[o].status), o, p);
    }
  }

  ghost predicate Sweepable(w: World, inFlight: set<nat>, q: nat, n: nat) {
    && Inv(w) && q <= n == |w.positions| && InFlightPids(w.orders) <= inFlight
    && forall r :: q <= r < n && r in inFlight ==> HasInFlight(w.orders, r)
  }

  lemma SweepStep(w: World, env: Env, inFlight: set<nat>, q: nat, n: nat)
    requires Sweepable(w, inFlight, q, n) && q < n
    ensures var w1 := Run(w, SweepOne(w, env, inFlight, q));
            && Sweepable(w1, inFlight, q + 1, n)
            && Run(w, SweepFrom(w, env, inFlight, q, n)) == Run(w1, SweepFrom(w1, env, inFlight, q + 1, n))
  {
    hide Inv, Permitted, Run, Apply, Recovered, InFlightPids, SweepOne, HasInFlight;
    var ws := SweepOne(w, env, inFlight, q);
    var w1 := Run(w, ws);
    SweepOneDoes(w, env, inFlight, q);
    RunKeepsInv(w, ws);
    ResolvesKeepsInFlight(w, w1, q, inFlight);
    RunConcat(w, ws, SweepFrom(w1, env, inFlight, q + 1, n));
  }

  lemma {:induction false} SweepIsElsewhere(w: World, env: Env, inFlight: set<nat>, q: nat, n: nat, p: nat)
    requires Sweepable(w, inFlight, q, n) && p < q
    ensures Alike(w, Run(w, SweepFrom(w, env, inFlight, q, n)), p)
    decreases n - q
  {
    hide Inv, Run, SweepOne, Alike, InFlightPids, HasInFlight;
    RunNothing(w);
    AlikeItself(w, p);
    if q < n {
      var w1 := Run(w, SweepOne(w, env, inFlight, q));
      SweepStep(w, env, inFlight, q, n);
      SweepOneElsewhere(w, env, inFlight, q, p);
      SweepIsElsewhere(w1, env, inFlight, q + 1, n, p);
      AlikeChains(w, w1, Run(w, SweepFrom(w, env, inFlight, q, n)), p);
    }
  }

  // The world in which position p is swept, alike for it to the one the sweep began in.
  lemma {:induction false} SweepTurn(w: World, env: Env, inFlight: set<nat>, q: nat, n: nat, p: nat) returns (u: World)
    requires Sweepable(w, inFlight, q, n) && q <= p < n
    ensures Inv(u) && Alike(w, u, p)
    ensures Alike(Run(u, SweepOne(u, env, inFlight, p)), Run(w, SweepFrom(w, env, inFlight, q, n)), p)
    decreases n - q
  {
    hide Inv, Run, SweepOne, Alike, InFlightPids, HasInFlight;
    var w1 := Run(w, SweepOne(w, env, inFlight, q));
    SweepStep(w, env, inFlight, q, n);
    if q < p {
      SweepOneElsewhere(w, env, inFlight, q, p);
      u := SweepTurn(w1, env, inFlight, q + 1, n, p);
      AlikeChains(w, w1, u, p);
    } else {
      u := w;
      AlikeItself(w, p);
      SweepIsElsewhere(w1, env, inFlight, q + 1, n, p);
    }
  }

  // ----- the whole sync

  // An order in flight has its turn in a world alike for its position to the one the sync began in;
  // what the turn leaves is what the sweep finds, and what the sweep leaves stays.
  lemma OwnTurn(w: World, env: Env, j: nat) returns (v: World, u: World, inFlight: set<nat>)
    requires Inv(w) && InTransit(w, j) && !Sync(w, env).raised
    ensures var p := w.orders[j].pid;
      && Inv(v) && InTransit(v, j) && v.orders[j] == w.orders[j] && Alike(w, v, p)
      && !SyncOne(v, env, j).raised && Inv(Run(v, SyncOne(v, env, j).ws))
      && Inv(u) && Alike(Run(v, SyncOne(v, env, j).ws), u, p) && (p in inFlight <==> HasInFlight(u.orders, p))
      && Alike(Run(u, SweepOne(u, env, inFlight, p)), Run(w, Sync(w, env).ws), p)
  {
    hide Inv, Permitted, Run, Apply, InFlightPids, Recovered, SyncOne, SweepOne, Alike, LeavesAlone, HasInFlight;
    var p := w.orders[j].pid;
    var loop := SyncFrom(w, env, w.orders, 0);
    SyncFromPermitted(w, env, w.orders, 0);
    v := LoopTurn(w, env, w.orders, 0, j);
    var w1 := Run(w, loop.ws);
    RunKeepsInv(w, loop.ws);
    inFlight := InFlightPids(w1.orders);
    AllInFlightPids(w1.orders);
    LoopSize(v, env, j, w1);
    u := SweepTurn(w1, env, inFlight, 0, |w1.positions|, p);
    SameFlight(w1, u, p);
    AlikeChains(Run(v, SyncOne(v, env, j).ws), w1, u, p);
    RunConcat(w, loop.ws, SweepFrom(w1, env, inFlight, 0, |w1.positions|));
  }

  lemma LoopSize(v: World, env: Env, j: nat, w1: World)
    requires InTransit(v, j) && Alike(Run(v, SyncOne(v, env, j).ws), w1, v.orders[j].pid)
    ensures v.orders[j].pid < |w1.positions|
  {
    hide Run, SyncOne;
  }

  lemma SameFlight(w: World, u: World, p: nat)
    requires Alike(w, u, p)
    ensures p in InFlightPids(w.orders) <==> HasInFlight(u.orders, p)
  {
    if p in InFlightPids(w.orders) {
      var o :| 0 <= o < |w.orders| && InFlight(w.orders[o]) && w.orders[o].pid == p;
      assert u.orders[o] == w.orders[o];
    }
    if HasInFlight(u.orders, p) {
      var o :| 0 <= o < |u.orders| && u.orders[o].pid == p && InFlight(u.orders[o]);
      assert w.orders[o] == u.orders[o];
    }
  }

  // ----- how a turn's result comes through the sweep

  // A position that waits for nothing, or whose order still works, is as its turn left it.
  lemma TurnStands(w: World, env: Env, j: nat) returns (v: World)
    requires Inv(w) && InTransit(w, j) && !Sync(w, env).raised
    ensures var p := w.orders[j].pid;
      && Inv(v) && InTransit(v, j) && v.orders[j] == w.orders[j] && Alike(w, v, p) && !SyncOne(v, env, j).raised
      && var v1, w' := Run(v, SyncOne(v, env, j).ws), Run(w, Sync(w, env).ws);
         && p < |v1.positions|
         && (Settled(v1.positions[p].status) || HasInFlight(v1.orders, p) ==> Alike(v1, w', p))
         && (Abandoned(v1, j, p, w.orders[j].intent) ==> WrittenOff(v1, w', j, p, w.orders[j].intent, v1.orders[j].status))
  {
    hide Inv, Run, SyncOne, SweepOne, Alike, HasInFlight, Sync, Abandoned, WrittenOff;
    var p := w.orders[j].pid;
    var u, inFlight;
    v, u, inFlight := OwnTurn(w, env, j);
    var v1, w' := Run(v, SyncOne(v, env, j).ws), Run(w, Sync(w, env).ws);
    AlikeSize(v1, u, p);
    RunNothing(u);
    if HasInFlight(v1.orders, p) { FlightCarries(v1, u, p); }
    if Settled(v1.positions[p].status) || HasInFlight(v1.orders, p) {
      NothingToSweep(u, env, inFlight, p);
      AlikeChains(v1, u, w', p);
    }
    if Abandoned(v1, j, p, w.orders[j].intent) {
      AbandonedCarries(v1, u, j, p, w.orders[j].intent);
      AbandonedWrittenOff(u, env, inFlight, j, p, w.orders[j].intent);
      WrittenOffBetween(v1, u, Run(u, SweepOne(u, env, inFlight, p)), w', j, p, w.orders[j].intent);
    }
  }

  predicate Settled(s: Status) { !s.Opening? && !s.Closing? }

  lemma NothingToSweep(u: World, env: Env, inFlight: set<nat>, p: nat)
    requires p < |u.positions| && (Settled(u.positions[p].status) || p in inFlight)
    ensures SweepOne(u, env, inFlight, p) == []
  {
    hide OnFill, OnDead;
  }

  lemma FlightCarries(v: World, w: World, p: nat)
    requires Alike(v, w, p) && HasInFlight(v.orders, p)
    ensures HasInFlight(w.orders, p)
  {
    var o :| 0 <= o < |v.orders| && v.orders[o].pid == p && InFlight(v.orders[o]);
    assert w.orders[o] == v.orders[o];
  }

  lemma AbandonedCarries(v: World, w: World, j: nat, p: nat, intent: Intent)
    requires Alike(v, w, p) && Abandoned(v, j, p, intent)
    ensures Abandoned(w, j, p, intent) && w.orders[j] == v.orders[j]
  {
    assert w.orders[j] == v.orders[j];
    var last := Latest(w.orders, p, intent);
    assert last.Some?;
    assert Of(v.orders[last.value], p, intent);
  }

  // Row j dead with this status, its position failed, or open again with one attempt more.
  ghost predicate WrittenOff(v: World, w: World, j: nat, p: nat, intent: Intent, status: OrderStatus) {
    && j < |v.orders| && j < |w.orders| && p < |v.positions| && p < |w.positions|
    && w.orders[j] == v.orders[j].(status := status)
    && TicketOf(w.broker, v.orders[j].key) == TicketOf(v.broker, v.orders[j].key)
    && w.positions[p] == v.positions[p].(status := if intent.ToOpen? then Failed else Open)
    && CloseAttempt(w, p) == CloseAttempt(v, p) + (if intent.ToOpen? then 0 else 1)
  }

  lemma AbandonedWrittenOff(u: World, env: Env, inFlight: set<nat>, j: nat, p: nat, intent: Intent)
    requires Abandoned(u, j, p, intent) && p !in inFlight
    ensures WrittenOff(u, Run(u, SweepOne(u, env, inFlight, p)), j, p, intent, u.orders[j].status)
  {
    hide Run, OnDead, OnFill, Latest;
    DeathRuns(u, j, u.orders[j].status);
  }

  lemma WrittenOffBetween(v: World, u: World, u': World, w: World, j: nat, p: nat, intent: Intent)
    requires Alike(v, u, p) && Abandoned(v, j, p, intent) && WrittenOff(u, u', j, p, intent, v.orders[j].status) && Alike(u', w, p)
    ensures WrittenOff(v, w, j, p, intent, v.orders[j].status)
  {
  }
}
