/**
 Reconciliation over whole runs: exactly when the comparison agrees after a sync that
 returns normally, and the one sync that diverges by raising.
 */
module ReconcileRuns {
  import opened Wrappers
  import opened Structures
  import opened World
  import opened Ladder
  import opened Protocol
  import opened Lifecycle
  import opened LifecycleProofs
  import opened Effects
  import opened Custody
  import opened Runs
  import opened CustodyRuns
  import opened Reconcile
  import opened ReconcileProofs
  import opened Endings

  // A run, then a sync that returns normally, then whatever the broker does.
  ghost predicate Synced(cfg: Config, acts: seq<Act>, env: Env, moves: seq<Act>) {
    var w := After(Fresh(cfg), acts);
    && Sane(cfg) && ValidRun(Fresh(cfg), acts) && !Sync(w, env).raised
    && BrokerOnlyMoves(moves) && ValidRun(Run(w, Sync(w, env).ws), moves)
  }

  function Final(cfg: Config, acts: seq<Act>, env: Env, moves: seq<Act>): World {
    var w := After(Fresh(cfg), acts);
    After(Run(w, Sync(w, env).ws), moves)
  }

  ghost predicate OfAstray(w: World, x: string) {
    exists p :: 0 <= p < |w.positions| && x in Symbols(w.positions[p].structure.legs) && Astray(w, p)
  }

  // Once a sync has returned normally, for any fills and endings at the broker that follow, the
  // comparison agrees exactly when no position is astray: none whose first order a crash kept from
  // being recorded, none resolved although its order ended partly filled, none filled past its size.
  // The contracts that diverge are exactly the legs of those positions.
  lemma SyncThenReconcile(cfg: Config, acts: seq<Act>, env: Env, moves: seq<Act>, listing: seq<Listing>)
    requires Synced(cfg, acts, env, moves) && StraysApart(Final(cfg, acts, env, moves))
    requires Reports(listing, Final(cfg, acts, env, moves))
    ensures var w2 := Final(cfg, acts, env, moves);
      && (InSync(w2.orders, w2.positions, listing) <==> forall p :: 0 <= p < |w2.positions| ==> !Astray(w2, p))
      && (forall x :: !Judged(w2.orders, w2.positions, x, Listed(listing, x)).Agrees? <==> OfAstray(w2, x))
  {
    hide Inv, Cust, InSync, Astray, Judged, Synced, Final, Recovered, Symbols, StraysApart;
    var w2 := Final(cfg, acts, env, moves);
    SyncedFacts(cfg, acts, env, moves);
    ReconcileExact(w2, listing);
    forall p | 0 <= p < |w2.positions| ensures Fits(w2, p) <==> !Astray(w2, p) {
      FitsUnlessAstray(w2, p);
    }
    forall x ensures !Judged(w2.orders, w2.positions, x, Listed(listing, x)).Agrees? <==> OfAstray(w2, x) {
      SymbolJudged(w2, x);
    }
  }

  lemma SyncedFacts(cfg: Config, acts: seq<Act>, env: Env, moves: seq<Act>)
    requires Synced(cfg, acts, env, moves)
    ensures var w, w1, w2 := After(Fresh(cfg), acts), Run(After(Fresh(cfg), acts), Sync(After(Fresh(cfg), acts), env).ws),
                             Final(cfg, acts, env, moves);
      && Inv(w) && Cust(w) && Inherits(w, w1) && Inv(w1) && Cust(w1)
      && Inv(w2) && Cust(w2) && w2.orders == w1.orders && w2.positions == w1.positions
      && forall p :: 0 <= p < |w2.positions| ==> Recovered(w2, p)
  {
    hide Inv, Cust, Sync, Run, ValidRun, Recovered, Inherits, Permitted, HonestRun;
    FreshInv(cfg);
    FreshCust(cfg);
    ReachableCust(Fresh(cfg), acts);
    var w := After(Fresh(cfg), acts);
    var ws := Sync(w, env).ws;
    var w1 := Run(w, ws);
    SyncPermitted(w, env);
    SyncHonest(w, env, ALL_KEYS);
    RunKeepsCust(w, ws, ALL_KEYS);
    SyncRoutine(w, env);
    InheritsItself(w);
    RunInherits(w, w, ws);
    AfterMoves(w1, moves);
    var w2 := After(w1, moves);
    forall p | 0 <= p < |w2.positions| ensures Recovered(w2, p) {
      SameTablesRecovered(w1, w2, p);
    }
  }

  // Left-over contracts are apart whenever, before the sync, no dead row's order had begun to fill or
  // could still do so. What the sync itself gives up may fill later.
  lemma SyncedStraysApart(cfg: Config, acts: seq<Act>, env: Env, moves: seq<Act>)
    requires Synced(cfg, acts, env, moves) && Buried(After(Fresh(cfg), acts))
    ensures Recent(After(Fresh(cfg), acts), Final(cfg, acts, env, moves))
    ensures StraysApart(Final(cfg, acts, env, moves))
  {
    hide Inv, Cust, Sync, Run, ValidRun, Recovered, Tidy, AllReleased, ReleasedBut, Inherits, Recent, StraysApart;
    var w := After(Fresh(cfg), acts);
    var w1 := Run(w, Sync(w, env).ws);
    SyncedFacts(cfg, acts, env, moves);
    SyncReleases(w, env);
    RecentAfter(w, w1, moves);
    StraysAreApart(w, Final(cfg, acts, env, moves));
  }

  // Where the broker answered for every order it held before it was given up, none is still there.
  lemma AnsweredIsReleased(cfg: Config, acts: seq<Act>)
    requires Sane(cfg) && ValidRun(Fresh(cfg), acts) && AnsweredRun(Fresh(cfg), acts)
    ensures AllReleased(After(Fresh(cfg), acts))
  {
    hide Inv, Cust, ValidRun, AnsweredRun, After, ReleasedBut;
    FreshInv(cfg);
    FreshCust(cfg);
    FreshReleased(cfg);
    ReachableReleased(Fresh(cfg), acts);
  }

  lemma FreshReleased(cfg: Config)
    ensures AllReleased(Fresh(cfg))
  {
  }

  // How a lost order shows: a failed entry's spreads are broker-only, a reopened close's difference a
  // mismatch, or local-only when nothing of the position is left.
  lemma LostShows(cfg: Config, acts: seq<Act>, env: Env, moves: seq<Act>, p: nat, x: string)
    requires Synced(cfg, acts, env, moves) && StraysApart(Final(cfg, acts, env, moves))
    requires var w2 := Final(cfg, acts, env, moves);
      p < |w2.positions| && Lost(w2, p) && x in Symbols(w2.positions[p].structure.legs)
    ensures var w2 := Final(cfg, acts, env, moves);
      Judged(w2.orders, w2.positions, x, Held(w2.holdings, x))
      == if !Live(w2.positions[p].status) then BrokerOnly else if Net(w2, p) == 0 then LocalOnly else Mismatched
  {
    hide Inv, Cust, Judged, Synced, Final, Recovered, Symbols, Lost, StraysApart, Net;
    SyncedFacts(cfg, acts, env, moves);
    LostIsReported(Final(cfg, acts, env, moves), p, x);
  }

  // An order that the broker expired, cancelled or rejected on its own before the sync asked decides
  // its position: it fails, or reopens at full size. Every leg then agrees if the order had filled
  // nothing; otherwise every leg diverges, broker-only for an entry and a mismatch for a close.
  lemma EndedOrderDecides(cfg: Config, acts: seq<Act>, env: Env, moves: seq<Act>, o: nat, x: string)
    requires Synced(cfg, acts, env, moves) && Buried(After(Fresh(cfg), acts))
    requires var w := After(Fresh(cfg), acts); o < |w.orders| && EndedAndTold(w, env, w.orders[o])
    requires var w := After(Fresh(cfg), acts);
      w.orders[o].pid < |w.positions| && x in Symbols(w.positions[w.orders[o].pid].structure.legs)
    ensures var w, w2 := After(Fresh(cfg), acts), Final(cfg, acts, env, moves);
      var p, open := w.orders[o].pid, w.orders[o].intent.ToOpen?;
      var v := Judged(w2.orders, w2.positions, x, Held(w2.holdings, x));
      && p < |w2.positions| && w2.positions[p].status == (if open then Failed else Open)
      && (Astray(w2, p) <==> w.broker[w.orders[o].key].filled > 0)
      && (w.broker[w.orders[o].key].filled > 0 ==> v == if open then BrokerOnly else Mismatched)
      && (w.broker[w.orders[o].key].filled == 0 && !open ==> v.Agrees?)
  {
    hide Inv, Cust, Sync, Run, ValidRun, Recovered, Inherits, RowFill, Judged, Symbols, Buried, Released, EndedAndTold, Astray;
    var w := After(Fresh(cfg), acts);
    SyncedFacts(cfg, acts, env, moves);
    SyncSettles(w, env, o);
    EndedRow(w, env, o);
    EndedStays(cfg, acts, env, moves, o);
    SettledDecides(cfg, acts, env, moves, o, x);
  }

  // An order given up as unconfirmed, entry or close, decides its position by what it fills after all,
  // whenever it does: nothing, and every leg of a close agrees; anything, and every leg diverges,
  // broker-only for an entry, for a close a mismatch or, once it has filled all, local-only.
  lemma GivenUpDecides(cfg: Config, acts: seq<Act>, env: Env, moves: seq<Act>, o: nat, x: string)
    requires Synced(cfg, acts, env, moves) && Buried(After(Fresh(cfg), acts))
    requires var w := After(Fresh(cfg), acts); o < |w.orders| && GivenUp(w, env, w.orders[o])
    requires var w := After(Fresh(cfg), acts);
      w.orders[o].pid < |w.positions| && x in Symbols(w.positions[w.orders[o].pid].structure.legs)
    ensures var w, w2 := After(Fresh(cfg), acts), Final(cfg, acts, env, moves);
      var p, open := w.orders[o].pid, w.orders[o].intent.ToOpen?;
      var v, n := Judged(w2.orders, w2.positions, x, Held(w2.holdings, x)), RowFill(w.orders[o], w2.broker).n;
      && p < |w2.positions| && w2.positions[p].status == (if open then Failed else Open)
      && (Astray(w2, p) <==> n > 0)
      && (n > 0 ==> v == if open then BrokerOnly else if n == w2.positions[p].qty then LocalOnly else Mismatched)
      && (n == 0 && !open ==> v.Agrees?)
  {
    hide Inv, Cust, Sync, Run, ValidRun, Recovered, Inherits, RowFill, Judged, Symbols, Buried, Released, Astray;
    var w := After(Fresh(cfg), acts);
    var w1 := Run(w, Sync(w, env).ws);
    SyncedFacts(cfg, acts, env, moves);
    SyncAbandons(w, env, o);
    InheritsRow(w, w1, o);
    SameKeyFill(w1.orders[o], w.orders[o], Final(cfg, acts, env, moves).broker);
    SettledDecides(cfg, acts, env, moves, o, x);
  }

  // What a dead row whose position has failed or reopened comes to, by what its order has filled.
  lemma SettledDecides(cfg: Config, acts: seq<Act>, env: Env, moves: seq<Act>, o: nat, x: string)
    requires Synced(cfg, acts, env, moves) && Buried(After(Fresh(cfg), acts))
    requires var w, w2 := After(Fresh(cfg), acts), Final(cfg, acts, env, moves);
      && o < |w.orders| && InFlight(w.orders[o]) && o < |w2.orders| && Dead(w2.orders[o])
      && SettledAs(w2, w.orders[o].pid, DeadEnd(w.orders[o].intent))
      && w.orders[o].pid < |w.positions| && x in Symbols(w.positions[w.orders[o].pid].structure.legs)
    ensures var w, w2 := After(Fresh(cfg), acts), Final(cfg, acts, env, moves);
      var p, open := w.orders[o].pid, w.orders[o].intent.ToOpen?;
      var v, n := Judged(w2.orders, w2.positions, x, Held(w2.holdings, x)), RowFill(w2.orders[o], w2.broker).n;
      && p < |w2.positions| && (Astray(w2, p) <==> n > 0)
      && (n > 0 ==> v == if open then BrokerOnly else if n == w2.positions[p].qty then LocalOnly else Mismatched)
      && (n == 0 && !open ==> v.Agrees?)
      && n <= w2.positions[p].qty && (n > 0 && Released(w2.orders[o], w2.broker) ==> n < w2.positions[p].qty)
  {
    hide Inv, Cust, Sync, Run, ValidRun, Recovered, Inherits, Recent, RowFill, Released, Buried, Final, Synced, After,
      Judged, StraysApart, Symbols, Net, Stray, AtWork;
    var w := After(Fresh(cfg), acts);
    var w2 := Final(cfg, acts, env, moves);
    SyncedFacts(cfg, acts, env, moves);
    InheritsRow(w, Run(w, Sync(w, env).ws), o);
    SyncedStraysApart(cfg, acts, env, moves);
    EndedDecides(w, w2, o);
    RecentTrade(w, w2, w.orders[o].pid);
    EndedVerdict(w2, w.orders[o].pid, DeadEnd(w.orders[o].intent), x);
    EndedIsOrdered(w2, o);
  }

  lemma EndedIsOrdered(w: World, o: nat)
    requires o < |w.orders| && w.orders[o].pid < |w.positions|
    ensures !w.positions[w.orders[o].pid].status.Opening? ==> !NeverOrdered(w, w.orders[o].pid)
  {
  }

  // How a failed or reopened position's legs are judged by what is left over or missing.
  lemma EndedVerdict(w: World, p: nat, status: Status, x: string)
    requires Inv(w) && Cust(w) && StraysApart(w) && SettledAs(w, p, status) && !status.Closed? && Recovered(w, p)
    requires x in Symbols(w.positions[p].structure.legs) && !AtWork(w, p)
    ensures Lost(w, p) ==>
              Judged(w.orders, w.positions, x, Held(w.holdings, x))
              == if !status.Open? then BrokerOnly
                 else if Stray(w, p) == -(w.positions[p].qty as int) then LocalOnly else Mismatched
    ensures !Lost(w, p) && status.Open? ==> Judged(w.orders, w.positions, x, Held(w.holdings, x)).Agrees?
  {
    hide Inv, Cust, StraysApart, Recovered, Judged, Net, Stray, Regular, AtWork, Symbols, Unresolved, Tidy;
    NetByStatus(w, p);
    RecoveredResolves(w, p);
    if Lost(w, p) {
      LostIsReported(w, p, x);
    } else if status.Open? {
      PositionJudged(w, p, x);
    }
  }

  lemma EndedRow(w: World, env: Env, o: nat)
    requires o < |w.orders| && EndedAndTold(w, env, w.orders[o])
    ensures InFlight(w.orders[o]) && w.orders[o].key in w.broker && Released(w.orders[o], w.broker)
  {
  }

  // What an ended order had filled, it has filled for good.
  lemma EndedStays(cfg: Config, acts: seq<Act>, env: Env, moves: seq<Act>, o: nat)
    requires Synced(cfg, acts, env, moves)
    requires var w := After(Fresh(cfg), acts); o < |w.orders| && EndedAndTold(w, env, w.orders[o])
    ensures var w, w2 := After(Fresh(cfg), acts), Final(cfg, acts, env, moves);
      && o < |w2.orders| && w.orders[o].key in w.broker && Released(w2.orders[o], w2.broker)
      && RowFill(w2.orders[o], w2.broker).n == w.broker[w.orders[o].key].filled
  {
    hide Inv, Cust, Sync, Run, ValidRun, Recovered, Inherits, RowFill, Permitted;
    var w := After(Fresh(cfg), acts);
    var ws := Sync(w, env).ws;
    var w1 := Run(w, ws);
    SyncedFacts(cfg, acts, env, moves);
    SyncPermitted(w, env);
    GoneForever(w, ws, w.orders[o].key);
    InheritsRow(w, w1, o);
    InheritsFill(w, w1, o);
    MovesKeepDead(w1, moves, o);
  }

  lemma InheritsRow(w: World, w1: World, o: nat)
    requires Inherits(w, w1) && o < |w.orders|
    ensures o < |w1.orders| && SameOrder(w.orders[o], w1.orders[o])
  {
  }

  lemma InheritsFill(w: World, w1: World, o: nat)
    requires Inherits(w, w1) && o < |w.orders| && w.orders[o].key in w.broker
    ensures RowFill(w1.orders[o], w1.broker).n == w.broker[w.orders[o].key].filled
  {
  }

  lemma SameTablesRecovered(w: World, w': World, p: nat)
    requires p < |w.positions| && Recovered(w, p) && w'.orders == w.orders && w'.positions == w.positions
    ensures Recovered(w', p)
  {
  }

  // ----- runs in which no crash falls between the position row and the order row

  ghost predicate Ordered(w: World) {
    forall p :: 0 <= p < |w.positions| && w.positions[p].status.Opening? ==> HasEntry(w.orders, p)
  }

  ghost predicate HasEntry(orders: seq<Order>, p: nat) {
    exists o :: 0 <= o < |orders| && Of(orders[o], p, ToOpen)
  }

  lemma WriteKeepsOrdered(w: World, x: Write)
    requires Ordered(w) && Allowed(w, x) && !x.InsertPosition?
    ensures Ordered(Apply(w, x))
  {
    hide AddSpreads, Traded, Rewarded, Ended, HasEntry;
    var w' := Apply(w, x);
    assert |w'.positions| == |w.positions|;
    forall p | 0 <= p < |w'.positions| && w'.positions[p].status.Opening? ensures HasEntry(w'.orders, p) {
      ApplyEdge(w, x, p);
      assert w.positions[p].status.Opening?;
      EntryKept(w, x, p);
    }
  }

  lemma EntryKept(w: World, x: Write, p: nat)
    requires Allowed(w, x) && HasEntry(w.orders, p)
    ensures HasEntry(Apply(w, x).orders, p)
  {
    hide AddSpreads, Traded, Rewarded, Ended, MayInsertPosition, MaySetPosition, MayInsertOrder, Matches, MayTrade;
    var o :| 0 <= o < |w.orders| && Of(w.orders[o], p, ToOpen);
    assert o < |Apply(w, x).orders| && Of(Apply(w, x).orders[o], p, ToOpen);
  }

  predicate NoInsert(ws: seq<Write>) {
    forall i :: 0 <= i < |ws| ==> !ws[i].InsertPosition?
  }

  lemma {:induction false} RunKeepsOrdered(w: World, ws: seq<Write>)
    requires Ordered(w) && Permitted(w, ws) && NoInsert(ws)
    ensures Ordered(Run(w, ws))
    decreases ws
  {
    hide Apply, Allowed, Ordered;
    if ws != [] {
      WriteKeepsOrdered(w, ws[0]);
      assert forall i :: 0 <= i < |ws[1..]| ==> ws[1..][i] == ws[i + 1];
      RunKeepsOrdered(Apply(w, ws[0]), ws[1..]);
    }
  }

  lemma SubmitRoutine(w: World, env: Env, key: OrderKey, pid: nat, intent: Intent, limit: int)
    requires pid < |w.positions|
    ensures Routine(Submit(w, env, key, pid, intent, limit).ws)
  {
  }

  lemma SyncOneRoutine(w: World, env: Env, o: nat)
    requires o < |w.orders| && w.orders[o].pid < |w.positions|
    ensures Routine(SyncOne(w, env, o).ws)
  {
    hide Run, Submit, Staleness;
    BackfillRuns(w, o);
    var w1 := Run(w, Backfill(w, o));
    ResolutionRoutine(w1, env, o, Poll(w, env, w.orders[o].key), w.orders[o].confirmed);
  }

  lemma ResolutionRoutine(w: World, env: Env, o: nat, answer: Answer, confirmed: bool)
    requires o < |w.orders| && w.orders[o].pid < |w.positions|
    ensures Routine(Resolution(w, env, o, answer, confirmed).ws)
  {
    hide Run, Submit, Staleness, Entered, Exited;
    if answer.Resting? {
      var move := Staleness(w, env, w.orders[o]);
      var pid := w.orders[o].pid;
      match move
      case Rung(n, limit) =>
        CancelThenCount(w, o, SetEntryAttempt(pid, n));
        var w1 := Run(w, Cancel(w, o) + [SetEntryAttempt(pid, n)]);
        SubmitRoutine(w1, env, OpenKey(w.positions[pid].signal, w.positions[pid].structure, n), pid, ToOpen, limit);
      case Escalate(n, limit) =>
        CancelThenCount(w, o, SetCloseAttempt(pid, n));
        var w1 := Run(w, Cancel(w, o) + [SetCloseAttempt(pid, n)]);
        SubmitRoutine(w1, env, CloseKey(w.positions[pid].signal, Escalated, n), pid, ToClose, limit);
      case _ =>
    }
  }

  lemma {:induction false} SyncFromRoutine(w: World, env: Env, snapshot: seq<Order>, o: nat)
    ensures Routine(SyncFrom(w, env, snapshot, o).ws)
    decreases |snapshot| - o
  {
    hide Run, SyncOne;
    if o < |snapshot| {
      if InFlight(snapshot[o]) && o < |w.orders| && w.orders[o].pid < |w.positions| { SyncOneRoutine(w, env, o); }
      var x := LoopStep(w, env, snapshot, o);
      SyncFromRoutine(Run(w, x.ws), env, snapshot, o + 1);
    }
  }

  lemma SweepOneRoutine(w: World, env: Env, inFlight: set<nat>, pid: nat)
    requires pid < |w.positions|
    ensures Routine(SweepOne(w, env, inFlight, pid))
  {
    hide Entered, Exited, Latest;
  }

  lemma {:induction false} SweepRoutine(w: World, env: Env, inFlight: set<nat>, p: nat, n: nat)
    ensures Routine(SweepFrom(w, env, inFlight, p, n))
    decreases n - p
  {
    hide Run, SweepOne;
    if p < n && p < |w.positions| {
      SweepOneRoutine(w, env, inFlight, p);
      SweepRoutine(Run(w, SweepOne(w, env, inFlight, p)), env, inFlight, p + 1, n);
    }
  }

  lemma SyncRoutine(w: World, env: Env)
    ensures Routine(Sync(w, env).ws)
  {
    hide Run;
    var loop := SyncFrom(w, env, w.orders, 0);
    SyncFromRoutine(w, env, w.orders, 0);
    var w1 := Run(w, loop.ws);
    SweepRoutine(w1, env, InFlightPids(w1.orders), 0, |w1.positions|);
  }

  lemma CloseRoutine(w: World, env: Env, pid: nat, barrier: Barrier, limit: int)
    requires pid < |w.positions|
    ensures Routine(Close(w, env, pid, barrier, limit).ws)
  {
    hide Run, Submit;
    var row := w.positions[pid].(status := Closing);
    CloseFirst(w, pid, row, barrier);
    SubmitRoutine(Run(w, [SetPosition(pid, row), SetCloseBarrier(pid, barrier)]), env,
                      CloseKey(row.signal, By(barrier), CloseAttempt(w, pid)), pid, ToClose, limit);
  }

  // What an approved signal writes: the position, its order, then the wire.
  lemma NewsWrites(w: World, env: Env, p: Proposal)
    requires Inv(w) && OneEach(p.structure.legs) && !Seen(w, p.signal) && UnitRisk(p).Dollars? && GateApproves(w, p)
    ensures var row := NewPosition(env, p);
            var order := NewOrder(env, OpenKey(p.signal, p.structure, 0), |w.positions|, ToOpen, p.net);
            var w2 := w.(positions := w.positions + [row], orders := w.orders + [order]);
            News(w, env, p).ws == [InsertPosition(row)] + ([InsertOrder(order)] + Send(w2, env, |w.orders|, order, row).ws)
  {
    hide Inv, Run, Apply, Permitted, MayInsertOrder, OneEach;
    var row := NewPosition(env, p);
    var w1 := w.(positions := w.positions + [row]);
    NewsAdmitted(w, env, p);
    RunInsertPosition(w, row, []);
    Run1(w, InsertPosition(row));
    SubmitSends(w1, env, OpenKey(p.signal, p.structure, 0), |w.positions|, ToOpen, p.net);
  }

  lemma NewsKeepsOrdered(w: World, env: Env, p: Proposal, ws: seq<Write>, k: nat)
    requires Inv(w) && OneEach(p.structure.legs) && Ordered(w)
    requires k != 1 && k <= |News(w, env, p).ws| && ws == News(w, env, p).ws[..k] && Permitted(w, ws)
    ensures Ordered(Run(w, ws))
  {
    hide Inv, OneEach, News, Permitted, Run, Apply, Allowed, Ordered, GateApproves, Seen, Send;
    RunNothing(w);
    if k > 0 {
      NewsAsks(w, env, p);
      NewsWrites(w, env, p);
      var row := NewPosition(env, p);
      var order := NewOrder(env, OpenKey(p.signal, p.structure, 0), |w.positions|, ToOpen, p.net);
      var w1 := w.(positions := w.positions + [row]);
      var w2 := w1.(orders := w1.orders + [order]);
      var send := Send(w2, env, |w.orders|, order, row).ws;
      var rest := send[..k - 2];
      assert ws == [InsertPosition(row)] + ([InsertOrder(order)] + rest);
      RunInsertPosition(w, row, [InsertOrder(order)] + rest);
      RunInsertOrder(w1, order, rest);
      PermittedTail(w, InsertPosition(row), [InsertOrder(order)] + rest);
      PermittedTail(w1, InsertOrder(order), rest);
      FirstOrderOrdered(w, row, order);
      SendRoutine(w2, env, |w.orders|, order, row);
      RunKeepsOrdered(w2, rest);
    }
  }

  lemma NewsAsks(w: World, env: Env, p: Proposal)
    requires News(w, env, p).ws != []
    ensures !Seen(w, p.signal) && UnitRisk(p).Dollars? && GateApproves(w, p)
  {
  }

  lemma PermittedTail(w: World, a: Write, rest: seq<Write>)
    requires Permitted(w, [a] + rest)
    ensures Permitted(Apply(w, a), rest)
  {
    hide Apply, Allowed;
    assert ([a] + rest)[1..] == rest;
  }

  lemma SendRoutine(w: World, env: Env, r: nat, row: Order, pos: Position)
    ensures Routine(Send(w, env, r, row, pos).ws)
  {
  }

  lemma FirstOrderOrdered(w: World, row: Position, order: Order)
    requires Ordered(w) && Of(order, |w.positions|, ToOpen)
    ensures Ordered(w.(positions := w.positions + [row], orders := w.orders + [order]))
  {
    var orders := w.orders + [order];
    assert Of(orders[|w.orders|], |w.positions|, ToOpen);
    forall p | 0 <= p < |w.positions| && w.positions[p].status.Opening? ensures HasEntry(orders, p) {
      var o :| 0 <= o < |w.orders| && Of(w.orders[o], p, ToOpen);
      assert Of(orders[o], p, ToOpen);
    }
  }

  // No crash right after a new position row.
  ghost predicate Unsplit(acts: seq<Act>) {
    forall i :: 0 <= i < |acts| && acts[i].step.NewsStep? ==> acts[i].survived != 1
  }

  lemma ActKeepsOrdered(w: World, act: Act)
    requires Inv(w) && Enabled(w, act.step) && Ordered(w) && (act.step.NewsStep? ==> act.survived != 1)
    ensures Ordered(Run(w, Done(w, act)))
  {
    hide Inv, Ordered, Permitted, Run, Sync, Close, News, OneEach, MayTrade, MayLapse;
    ActPermitted(w, act);
    var ws, k := StepWrites(w, act.step), act.survived;
    match act.step
    case SyncStep(env) => SyncRoutine(w, env); RunKeepsOrdered(w, Done(w, act));
    case CloseStep(env, pid, barrier, limit) =>
      CloseRoutine(w, env, pid, barrier, limit);
      RunKeepsOrdered(w, Done(w, act));
    case NewsStep(env, p) =>
      assert ws[..|ws|] == ws;
      NewsLonger(w, env, p);
      NewsKeepsOrdered(w, env, p, Done(w, act), if k < |ws| then k else |ws|);
    case _ => RunKeepsOrdered(w, Done(w, act));
  }

  lemma NewsLonger(w: World, env: Env, p: Proposal)
    requires Inv(w) && OneEach(p.structure.legs)
    ensures |News(w, env, p).ws| != 1
  {
    hide Inv, OneEach, News, Seen, GateApproves;
    if News(w, env, p).ws != [] {
      NewsAsks(w, env, p);
      NewsWrites(w, env, p);
    }
  }

  lemma {:induction false} ReachableOrdered(w: World, acts: seq<Act>)
    requires Inv(w) && Ordered(w) && ValidRun(w, acts) && Unsplit(acts)
    ensures Ordered(After(w, acts))
    decreases acts
  {
    hide Inv, Ordered, Enabled, Done, Run, Permitted;
    if acts != [] {
      ActPermitted(w, acts[0]);
      ActKeepsOrdered(w, acts[0]);
      assert forall i :: 0 <= i < |acts[1..]| ==> acts[1..][i] == acts[i + 1];
      ReachableOrdered(Run(w, Done(w, acts[0])), acts[1..]);
    }
  }

  lemma SyncedOrdered(cfg: Config, acts: seq<Act>, env: Env, moves: seq<Act>)
    requires Synced(cfg, acts, env, moves) && Unsplit(acts)
    ensures var w2 := Final(cfg, acts, env, moves); forall p :: 0 <= p < |w2.positions| ==> !NeverOrdered(w2, p)
  {
    hide Inv, Sync, Run, ValidRun, InSync, BrokerOnlyMoves, Permitted;
    FreshInv(cfg);
    ReachableInv(Fresh(cfg), acts);
    ReachableOrdered(Fresh(cfg), acts);
    var w := After(Fresh(cfg), acts);
    var w1 := Run(w, Sync(w, env).ws);
    SyncPermitted(w, env);
    SyncRoutine(w, env);
    RunKeepsOrdered(w, Sync(w, env).ws);
    BrokerMovesKeepTables(w1, moves);
    var w2 := After(w1, moves);
    forall p | 0 <= p < |w2.positions| ensures !NeverOrdered(w2, p) {
      if w2.positions[p].status.Opening? { assert HasEntry(w2.orders, p); }
    }
  }

  // No false halt, whatever else crashed, failed or partly filled: when no crash falls between a
  // position row and its first order, only an order that ended partly filled can make them disagree.
  lemma NoFalseHalt(cfg: Config, acts: seq<Act>, env: Env, moves: seq<Act>, listing: seq<Listing>)
    requires Synced(cfg, acts, env, moves) && Unsplit(acts)
    requires Reports(listing, Final(cfg, acts, env, moves))
    ensures var w2 := Final(cfg, acts, env, moves);
      && (StraysApart(w2) ==>
            (InSync(w2.orders, w2.positions, listing) <==>
               forall p :: 0 <= p < |w2.positions| ==> !Lost(w2, p) && !Overfilled(w2, p)))
      && (Tidy(w2) ==> InSync(w2.orders, w2.positions, listing))
  {
    hide Inv, Cust, Synced, Final, InSync, Reports, NeverOrdered, Lost, Overfilled, StraysApart, Tidy, Recovered, Unresolved;
    var w2 := Final(cfg, acts, env, moves);
    SyncedOrdered(cfg, acts, env, moves);
    forall p | 0 <= p < |w2.positions| ensures Astray(w2, p) <==> Lost(w2, p) || Overfilled(w2, p) {}
    if StraysApart(w2) { SyncThenReconcile(cfg, acts, env, moves, listing); }
    if Tidy(w2) {
      SyncedFacts(cfg, acts, env, moves);
      forall p | 0 <= p < |w2.positions| ensures !Unresolved(w2.orders, p, w2.positions[p]) { RecoveredResolves(w2, p); }
      TidyExact(w2, listing);
    }
  }

  // The same in every reachable state, whatever went before: contract by contract.
  lemma EveryRunReconciles(cfg: Config, acts: seq<Act>, listing: seq<Listing>)
    requires Sane(cfg) && ValidRun(Fresh(cfg), acts)
    requires Reports(listing, After(Fresh(cfg), acts))
    ensures var w := After(Fresh(cfg), acts);
      InSync(w.orders, w.positions, listing) <==>
        && (forall q, x :: 0 <= q < |w.positions| && Uses(w, q, x) ==> Explained(w, q, x))
        && (forall x :: !Used(w, x) ==> Loose(w, x, |w.positions|) == 0)
  {
    hide Inv, Cust, InSync, Reports, Explained, Loose, Used, Uses, ValidRun;
    FreshInv(cfg);
    FreshCust(cfg);
    ReachableCust(Fresh(cfg), acts);
    ReconcileBySymbol(After(Fresh(cfg), acts), listing);
  }

  // ----- the one operation that leaves a divergence by raising

  // A rung whose submission is refused ends the sync with its order rejected and its position
  // still opening: reconciliation now disagrees, although the broker holds of it only what the
  // withdrawn order had filled, which is never all of it.
  lemma RejectedRungDiverges(w: World, env: Env, o: nat, n: nat, limit: int, listing: seq<Listing>)
    requires Inv(w) && Cust(w) && Tidy(w) && InTransit(w, o) && w.orders[o].intent.ToOpen? && w.orders[o].confirmed
    requires Staleness(w, env, w.orders[o]) == Rung(n, limit) && CancelGoes(w, env, w.orders[o].key, true)
    requires OpenKey(w.positions[w.orders[o].pid].signal, w.positions[w.orders[o].pid].structure, n) in env.submitDown
    requires Reports(listing, Run(w, MaybeExpire(w, env, o, true).ws))
    ensures MaybeExpire(w, env, o, true).raised
    ensures var w' := Run(w, MaybeExpire(w, env, o, true).ws);
      && !InSync(w'.orders, w'.positions, listing)
      && w.orders[o].pid < |w'.positions|
      && Net(w', w.orders[o].pid) == w.broker[w.orders[o].key].filled < w'.positions[w.orders[o].pid].qty
  {
    hide Inv, Cust, Permitted, Staleness, HonestRun, InSync, ReplaceEntry, Reasonable, Run, Net, Tidy, Fits, StraysApart;
    var out, pid := MaybeExpire(w, env, o, true), w.orders[o].pid;
    var w' := Run(w, out.ws);
    SaneOf(w);
    StalenessReasonable(w, env, w.orders[o]);
    CarryPermitted(w, env, o, Rung(n, limit), true);
    CarryHonest(w, env, o, Rung(n, limit), true, ALL_KEYS);
    RunKeepsCust(w, out.ws, ALL_KEYS);
    RungRuns(w, env, o, n, limit);
    RowFits(w, o);
    var row := NewOrder(env, OpenKey(w.positions[pid].signal, w.positions[pid].structure, n), pid, ToOpen, limit);
    EntryStage(w, env, o, n, limit);
    RejectedKeyUnknown(w, o, n, row);
    RejectedStrays(w, w', env, o, row);
    ReconcileExact(w', listing);
  }

  // The rung's id is new to the broker: entry attempts only grow.
  lemma RejectedKeyUnknown(w: World, o: nat, n: nat, row: Order)
    requires Inv(w) && InTransit(w, o) && row.pid == w.orders[o].pid && row.key.OpenKey?
    requires row.key.signal == w.positions[row.pid].signal && row.key.attempt == n && n > EntryAttempt(w, row.pid)
    ensures row.key !in w.broker && row.key != w.orders[o].key && Find(w.orders, row.key).None?
  {
    forall i | 0 <= i < |w.orders| ensures w.orders[i].key != row.key {
      assert OrderFits(w, w.orders[i]);
      if w.orders[i].pid != row.pid { assert w.positions[w.orders[i].pid].signal != w.positions[row.pid].signal; }
    }
    assert row.key in w.broker ==> Known(w.orders, row.key, w.broker[row.key]);
  }

  // After the refusal the withdrawn order's fills are the only stray ones.
  lemma RejectedStrays(w: World, w': World, env: Env, o: nat, row: Order)
    requires Inv(w) && Cust(w) && Tidy(w) && InTransit(w, o) && w.orders[o].intent.ToOpen?
    requires w.orders[o].key in w.broker && w.broker[w.orders[o].key].state.Working?
    requires row.pid == w.orders[o].pid && row.intent.ToOpen? && row.key in env.submitDown
    requires row.key !in w.broker && row.key != w.orders[o].key
    requires Supplanted(w, w', env, o, row) && Inv(w') && Cust(w')
    ensures StraysApart(w') && !Fits(w', row.pid)
    ensures Net(w', row.pid) == w.broker[w.orders[o].key].filled < w'.positions[row.pid].qty
  {
    hide Inv, Cust, Net, Stray, Regular, Transit, FillPrice, RowFill;
    var pid := row.pid;
    RowFits(w, o);
    RejectedRows(w, w', env, o, row);
    SupersededRows(w');
    LastDeadAllDead(w'.cfg, w'.orders, pid);
    StatusSays(w', pid);
    NetByStatus(w', pid);
    FilledBy(w', pid, ToOpen);
    FilledBy(w', pid, ToClose);
    forall p | 0 <= p < |w'.positions|
      ensures Stray(w', p) == if p == pid then w.broker[w.orders[o].key].filled as int else 0
    {
      StrayFrom(w', p, o);
    }
    FallenRest(w, o);
    forall p, q | 0 <= p < |w'.positions| && 0 <= q < |w'.positions| && p != q && Stray(w', p) != 0 && Counts(w', q)
      ensures Symbols(w'.positions[p].structure.legs) !! Symbols(w'.positions[q].structure.legs)
    {
      LiveApart(w', p, q);
    }
    assert Regular(w', pid) == 0 by { NothingRegular(w', pid); }
  }

  lemma NothingRegular(w: World, p: nat)
    requires LiveFill(w.orders, w.broker, p, ToOpen).n == 0 && LiveFill(w.orders, w.broker, p, ToClose).n == 0
    ensures Regular(w, p) == 0
  {
  }

  // A working order has not executed all of its size.
  lemma FallenRest(w: World, o: nat)
    requires Inv(w) && Cust(w) && o < |w.orders| && w.orders[o].key in w.broker && w.broker[w.orders[o].key].state.Working?
    ensures w.orders[o].pid < |w.positions| && w.broker[w.orders[o].key].filled < w.positions[w.orders[o].pid].qty
  {
    hide Inv, HoldingsAgree, CashAgrees, AllTruthful;
    TicketsFitOf(w, o);
    assert TicketSound(w.broker[w.orders[o].key]);
  }

  lemma StrayFrom(w: World, p: nat, o: nat)
    requires Cust(w) && o < |w.orders| && Dead(w.orders[o]) && w.orders[o].intent.ToOpen?
    requires forall i :: 0 <= i < |w.orders| && i != o && Dead(w.orders[i]) ==> RowFill(w.orders[i], w.broker).n == 0
    ensures Stray(w, p) == if p == w.orders[o].pid then RowFill(w.orders[o], w.broker).n as int else 0
  {
    hide RowFill, DeadFills;
    DeadFillsOf(w.orders, w.broker, p, ToOpen, o);
    DeadFillsOf(w.orders, w.broker, p, ToClose, o);
  }

  lemma SupplantedRefused(w: World, w': World, env: Env, o: nat, row: Order)
    requires o < |w.orders| && row.pid < |w.positions| && Supplanted(w, w', env, o, row) && row.key in env.submitDown
    ensures w'.orders == w.orders[o := w.orders[o].(status := Canceled)] + [row.(status := Rejected)]
    ensures w'.broker == Ended(w.broker, w.orders[o].key, Canceled)
  {
  }

  lemma EndedFill(w: World, o: nat, row: Order)
    requires o < |w.orders|
    ensures RowFill(row, Ended(w.broker, w.orders[o].key, Canceled)) == RowFill(row, w.broker)
  {
  }

  lemma RowFillIs(row: Order, broker: map<OrderKey, Ticket>)
    ensures RowFill(row, broker).n == if row.key in broker then broker[row.key].filled else 0
  {
  }

  lemma SameKeyFill(a: Order, b: Order, broker: map<OrderKey, Ticket>)
    requires a.key == b.key
    ensures RowFill(a, broker) == RowFill(b, broker)
  {
  }

  lemma RejectedRows(w: World, w': World, env: Env, o: nat, row: Order)
    requires Inv(w) && Tidy(w) && InTransit(w, o) && w.orders[o].key in w.broker
    requires row.pid == w.orders[o].pid && row.intent.ToOpen? && row.key in env.submitDown
    requires row.key !in w.broker && row.key != w.orders[o].key
    requires Supplanted(w, w', env, o, row)
    ensures |w'.orders| == |w.orders| + 1 && Of(w'.orders[|w.orders|], row.pid, ToOpen) && Dead(w'.orders[|w.orders|])
    ensures w'.orders[o] == w.orders[o].(status := Canceled)
    ensures RowFill(w'.orders[o], w'.broker).n == w.broker[w.orders[o].key].filled
    ensures forall i :: 0 <= i < |w'.orders| && i != o && Dead(w'.orders[i]) ==> RowFill(w'.orders[i], w'.broker).n == 0
  {
    hide Inv, RowFill, Supplanted, Ended;
    SupplantedRefused(w, w', env, o, row);
    var left := Ended(w.broker, w.orders[o].key, Canceled);
    forall i | 0 <= i < |w.orders| ensures RowFill(w.orders[i], left) == RowFill(w.orders[i], w.broker) {
      EndedFill(w, o, w.orders[i]);
    }
    EndedFill(w, o, row);
    RowFillIs(w.orders[o], w.broker);
    RowFillIs(row, w.broker);
    forall i | 0 <= i < |w'.orders| && i != o && Dead(w'.orders[i]) ensures RowFill(w'.orders[i], w'.broker).n == 0 {
      if i < |w.orders| {
        assert w'.orders[i] == w.orders[i];
      } else {
        SameKeyFill(w'.orders[i], row, w'.broker);
      }
    }
    SameKeyFill(w'.orders[o], w.orders[o], w'.broker);
  }

  lemma LastDeadAllDead(cfg: Config, orders: seq<Order>, pid: nat)
    requires Superseded(cfg, orders) && orders != []
    requires Of(orders[|orders| - 1], pid, ToOpen) && Dead(orders[|orders| - 1])
    ensures FillPrice(orders, pid, ToOpen).None? && !Transit(orders, pid, ToOpen)
  {
    var last := |orders| - 1;
    forall i | 0 <= i < |orders| && Of(orders[i], pid, ToOpen) ensures Dead(orders[i]) {
      assert i < last ==> Supersedes(cfg, orders[i], orders[last]);
    }
  }

  // ----- a partly filled entry on the ladder

  // A rung resubmits the whole size, so what the withdrawn order had filled comes on top: while the
  // new order works the band hides it, and once it fills the position holds more than its size.
  lemma RungCanOverfill(w: World, env: Env, o: nat, n: nat, limit: int, price: real)
    requires Inv(w) && InTransit(w, o) && Reasonable(w, w.orders[o], Rung(n, limit))
    requires MayLapse(w, w.orders[o].key, Canceled) && price <= limit as real / 100.0
    requires var pos := w.positions[w.orders[o].pid]; OpenKey(pos.signal, pos.structure, n) !in env.submitDown
    ensures var w', pid := Run(w, ReplaceEntry(w, env, o, n, limit).ws), w.orders[o].pid;
      var pos := w.positions[pid];
      var key := OpenKey(pos.signal, pos.structure, n);
      && w'.positions == w.positions && AtWork(w', pid) && Net(w', pid) == Net(w, pid)
      && MayTrade(w', key, pos.qty, price) && Net(Executed(w', key, pos.qty, price), pid) == Net(w, pid) + pos.qty
  {
    hide Inv, Run, ReplaceEntry, Net, Transit, MayLapse;
    var w', pid := Run(w, ReplaceEntry(w, env, o, n, limit).ws), w.orders[o].pid;
    var pos := w.positions[pid];
    var row := NewOrder(env, OpenKey(pos.signal, pos.structure, n), pid, ToOpen, limit);
    RowFits(w, o);
    SoundAt(w, pid);
    RungRuns(w, env, o, n, limit);
    RejectedKeyUnknown(w, o, n, row);
    SupplantedRow(w, w', env, o, row);
    SupplantedNet(w, w', env, o, row);
    InFlightIsTransit(w'.orders, |w.orders|);
    SupplantedKeys(w, w', env, o, row);
    TradeMoves(w', row.key, pos.qty, price, |w.orders|);
  }

  lemma SupplantedRow(w: World, w': World, env: Env, o: nat, row: Order)
    requires InTransit(w, o) && row.pid == w.orders[o].pid && Supplanted(w, w', env, o, row) && row.key !in env.submitDown
    ensures |w'.orders| == |w.orders| + 1
    ensures w'.orders[|w.orders|] == row.(status := Submitted, confirmed := true)
    ensures row.key in w'.broker && w'.broker[row.key] == NewTicket(row, w.positions[row.pid])
  {
  }

  lemma SupplantedKeys(w: World, w': World, env: Env, o: nat, row: Order)
    requires Inv(w) && InTransit(w, o) && row.pid == w.orders[o].pid && Supplanted(w, w', env, o, row)
    requires Find(w.orders, row.key).None?
    ensures KeysDiffer(w'.orders)
  {
    AllKeysDiffer(w);
    hide Inv;
  }

  lemma SupplantedNet(w: World, w': World, env: Env, o: nat, row: Order)
    requires InTransit(w, o)
    requires row.pid == w.orders[o].pid && Supplanted(w, w', env, o, row)
    requires row.key !in w.broker && Find(w.orders, row.key).None?
    ensures Net(w', row.pid) == Net(w, row.pid)
  {
    hide Fills;
    var kept := w'.orders[..|w.orders|];
    assert w'.orders == kept + [w'.orders[|w.orders|]];
    forall i | 0 <= i < |w.orders| ensures SameFill(w.orders[i], w.broker, kept[i], w'.broker) {}
    forall intent ensures Fills(w'.orders, w'.broker, row.pid, intent) == Fills(w.orders, w.broker, row.pid, intent) {
      FillsSame(w.orders, w.broker, kept, w'.broker, row.pid, intent);
      FillsAppend(kept, w'.orders[|w.orders|], w'.broker, row.pid, intent);
    }
  }

  // ----- an order given up while the broker still held it

  lemma {:induction false} ImpliedUnused(orders: seq<Order>, positions: seq<Position>, g: Group, x: string, n: nat)
    requires n <= |positions|
    requires forall p :: 0 <= p < n && Live(positions[p].status) ==> x !in Symbols(positions[p].structure.legs)
    ensures Implied(orders, positions, g, x, n) == 0
  {
    if n > 0 {
      ImpliedUnused(orders, positions, g, x, n - 1);
      if Live(positions[n - 1].status) { LegQtyOther(positions[n - 1].structure.legs, x, positions[n - 1].qty); }
    }
  }

  // The world after row o was voided and its position failed by the sweep.
  function Voided(w: World, o: nat): World
    requires o < |w.orders| && w.orders[o].pid < |w.positions|
  {
    var pid := w.orders[o].pid;
    w.(orders := w.orders[o := w.orders[o].(status := Canceled)],
       positions := w.positions[pid := w.positions[pid].(status := Failed)])
  }

  // It is what the void and the sweep that follows it leave.
  lemma VoidThenSweep(w: World, env: Env, o: nat)
    requires Inv(w) && InTransit(w, o) && w.orders[o].intent.ToOpen? && w.orders[o].status.Pending?
    requires !w.orders[o].confirmed && env.now - w.orders[o].createdAt >= w.cfg.entryTimeout
    ensures var w1, pid := Run(w, MaybeVoid(w, env, o)), w.orders[o].pid;
            pid < |w1.positions| && Run(w1, SweepOne(w1, env, {}, pid)) == Voided(w, o)
  {
    hide Inv, Run, Apply, OnDead, OnFill, Latest;
    var row, pid := w.orders[o].(status := Canceled), w.orders[o].pid;
    RowFits(w, o);
    SupersededRows(w);
    UndeadIsLatest(w.cfg, w.orders, o);
    MarkRuns(w, o, row);
    var w1 := w.(orders := w.orders[o := row]);
    LatestUpdate(w.orders, o, row, pid, ToOpen);
    DeathRuns(w1, o, Canceled);
    assert w1.orders[o := row] == w1.orders;
  }

  // Nothing live uses the contracts of a voided position.
  lemma VoidedImpliesNone(w: World, o: nat, n: nat, price: real, x: string)
    requires Inv(w) && InTransit(w, o) && w.orders[o].key in w.broker && Uses(w, w.orders[o].pid, x)
    ensures var w' := Executed(Voided(w, o), w.orders[o].key, n, price);
            forall g :: Implied(w'.orders, w'.positions, g, x, |w'.positions|) == 0
  {
    hide Inv, Implied, AddSpreads, Traded;
    var w' := Executed(Voided(w, o), w.orders[o].key, n, price);
    forall p | 0 <= p < |w'.positions| && Live(w'.positions[p].status)
      ensures x !in Symbols(w'.positions[p].structure.legs)
    {
      if Uses(w, p, x) { OneOwner(w, w.orders[o].pid, p, x); }
    }
    forall g ensures Implied(w'.orders, w'.positions, g, x, |w'.positions|) == 0 {
      ImpliedUnused(w'.orders, w'.positions, g, x, |w'.positions|);
    }
  }

  // An entry given up as unconfirmed that fills after all is reported broker-only on every leg,
  // unless what ended orders of other positions left of the same contract happens to offset it.
  lemma VoidedFillIsCaught(w: World, o: nat, n: nat, price: real, x: string)
    requires Inv(w) && Cust(w) && InTransit(w, o) && w.orders[o].intent.ToOpen? && w.orders[o].key in w.broker
    requires n >= 1 && x in Symbols(w.positions[w.orders[o].pid].structure.legs)
    ensures var w', pid := Executed(Voided(w, o), w.orders[o].key, n, price), w.orders[o].pid;
            var v := Judged(w'.orders, w'.positions, x, Held(w'.holdings, x));
            && (v.BrokerOnly? <==> LegQty(w.positions[pid].structure.legs, x, Regular(w, pid) + n) != -Loose(w, x, |w.positions|))
            && (v.Agrees? <==> !v.BrokerOnly?)
            && (Tidy(w) ==> v.BrokerOnly?)
  {
    hide Inv, Cust, Implied, AddSpreads, Net, Traded, Regular, Stray, Loose, Tidy;
    var pid := w.orders[o].pid;
    var legs := w.positions[pid].structure.legs;
    RowFits(w, o);
    SoundAt(w, pid);
    TicketsFitOf(w, o);
    assert Uses(w, pid, x);
    NetByStatus(w, pid);
    OwnerHolds(w, pid, x);
    AddSpreadsHeld(w.holdings, legs, n, x);
    LegQtyAdd(legs, x, Regular(w, pid), n);
    LegQtyZero(legs, x);
    LegBand(legs, x, Regular(w, pid) + n, 0);
    if Tidy(w) { TidyLoose(w, x, |w.positions|); }
    VoidedImpliesNone(w, o, n, price, x);
  }

  // What the broker holds of a live position's own contract.
  lemma OwnerHolds(w: World, p: nat, x: string)
    requires Inv(w) && Cust(w) && p < |w.positions| && Uses(w, p, x)
    ensures Held(w.holdings, x)
            == LegQty(w.positions[p].structure.legs, x, Regular(w, p)) + Loose(w, x, |w.positions|)
  {
    hide Inv, Regular, Loose, Total;
    forall q | 0 <= q < |w.positions| && q != p ensures !Uses(w, q, x) {
      if Uses(w, q, x) { OneOwner(w, p, q, x); }
    }
    SumsToOwner(w, x, |w.positions|, p);
    assert Held(w.holdings, x) == Total(w, x, |w.positions|);
  }

  lemma {:induction false} TidyLoose(w: World, x: string, n: nat)
    requires Cust(w) && Tidy(w) && n <= |w.positions|
    ensures Loose(w, x, n) == 0
  {
    hide Cust, Tidy, Stray;
    if n > 0 {
      TidyLoose(w, x, n - 1);
      TidyStray(w, n - 1);
      LegQtyZero(w.positions[n - 1].structure.legs, x);
    }
  }
}
