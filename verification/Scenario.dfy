/**
 A concrete run that meets the hypotheses of the run theorems: a put spread is
 entered, half of it fills, a sync finds it resting, and the books agree; had it
 expired first, or been given up for lack of a receipt, they would not.
 */
module Scenario {
  import opened Wrappers
  import opened Structures
  import opened World
  import opened Ladder
  import opened Protocol
  import opened Lifecycle
  import opened LifecycleProofs
  import opened Effects
  import opened Custody
  import opened Runs
  import opened CustodyRuns
  import opened Reconcile
  import opened ReconcileProofs
  import opened Endings
  import opened ReconcileRuns

  function Cfg(): Config { Config(240, 600, 3.0, 3, 30, 1, 0.5, 20.0, 60, 5, 10.0, None) }

  function Now(t: int): Env { Env(t, {}, {}, {}, {}, map[]) }

  function Spread(): Structure {
    Structure(BullPutSpread, "TLT",
      [Leg("TLT260918P00090000", Put, 90.0, 20260918, Short, 1), Leg("TLT260918P00088000", Put, 88.0, 20260918, Long, 1)])
  }

  // Two spreads sold for 50 cents each.
  function Signal(): Proposal { Proposal("TLT-1", Spread(), -50, 2, 2.0, "calm", 92.0, true) }

  function Key(): OrderKey { OpenKey("TLT-1", Spread(), 0) }

  function Bought(): seq<Act> { [Act(NewsStep(Now(0), Signal()), 9), Act(BrokerFills(Key(), 1, -0.5), 9)] }

  lemma SpreadFits()
    ensures DefinedRisk(Spread().legs) && OneEach(Spread().legs)
  {
    var legs := Spread().legs;
    assert legs[1..] == [legs[1]] && legs[1..][1..] == [];
    assert Contracts(legs[1..], Put, Long) == 1 + Contracts([], Put, Long);
    assert Contracts(legs[1..], Put, Short) == Contracts([], Put, Short);
    assert Contracts(legs[1..], Call, Long) == Contracts([], Call, Long);
    assert Contracts(legs[1..], Call, Short) == Contracts([], Call, Short);
  }

  // Two dollars wide, half a dollar received.
  lemma SpreadRisks()
    ensures UnitRisk(Signal()) == Dollars(150.0)
  {
    var legs := Spread().legs;
    assert legs[1..] == [legs[1]] && legs[1..][1..] == [];
    SpreadFits();
    assert Strikes(legs, Put) == [90.0, 88.0];
    assert Strikes(legs, Call) == [];
    assert Width(legs) == Some(2.0);
  }

  function Row(): Order { Order(Key(), 0, ToOpen, Submitted, -50, true, None, 0) }

  // The desk after the signal: one opening position, one working order.
  function EntrySent(): World {
    var w := Fresh(Cfg());
    var row := NewPosition(Now(0), Signal());
    w.(positions := [row], orders := [Row()], broker := map[Key() := NewTicket(Row(), row)])
  }

  lemma SignalEnters()
    ensures Inv(Fresh(Cfg())) && News(Fresh(Cfg()), Now(0), Signal()).ws != []
    ensures Run(Fresh(Cfg()), News(Fresh(Cfg()), Now(0), Signal()).ws) == EntrySent()
    ensures |News(Fresh(Cfg()), Now(0), Signal()).ws| <= 9
  {
    hide Run, Apply, Inv, Submit, MayInsertOrder, DefinedRisk, OneEach, UnitRisk;
    var w, env, p := Fresh(Cfg()), Now(0), Signal();
    FreshInv(Cfg());
    SpreadFits();
    SpreadRisks();
    assert GateApproves(w, p) && !Seen(w, p.signal);
    NewsRuns(w, env, p);
    NewsAdmitted(w, env, p);
    NewsWrites(w, env, p);
    SubmitRuns(w.(positions := w.positions + [NewPosition(env, p)]), env, Key(), 0, ToOpen, -50);
    assert w.positions + [NewPosition(env, p)] == [NewPosition(env, p)];
    assert w.orders + [Row()] == [Row()];
  }

  function HalfFilled(): World { Executed(EntrySent(), Key(), 1, -0.5) }

  lemma BrokerFillsOne()
    ensures MayTrade(EntrySent(), Key(), 1, -0.5)
    ensures Run(EntrySent(), [Trade(Key(), 1, -0.5)]) == HalfFilled()
  {
    hide Run, Executed;
    Run1(EntrySent(), Trade(Key(), 1, -0.5));
  }

  lemma FirstAct(w: World, act: Act, w1: World, rest: seq<Act>)
    requires Enabled(w, act.step) && Run(w, Done(w, act)) == w1 && ValidRun(w1, rest)
    ensures ValidRun(w, [act] + rest) && After(w, [act] + rest) == After(w1, rest)
  {
    hide Enabled, Done, Run;
    assert ([act] + rest)[1..] == rest;
  }

  lemma FirstSteps()
    ensures Enabled(Fresh(Cfg()), Bought()[0].step) && Run(Fresh(Cfg()), Done(Fresh(Cfg()), Bought()[0])) == EntrySent()
    ensures Enabled(EntrySent(), Bought()[1].step) && Run(EntrySent(), Done(EntrySent(), Bought()[1])) == HalfFilled()
  {
    hide Run, News, Executed, OneEach, MayTrade, UnitRisk;
    SpreadFits();
    SignalEnters();
    BrokerFillsOne();
  }

  lemma RunReaches()
    ensures ValidRun(Fresh(Cfg()), Bought()) && Unsplit(Bought())
    ensures After(Fresh(Cfg()), Bought()) == HalfFilled()
  {
    hide Run, News, Executed, Enabled, Done, UnitRisk, ValidRun, After;
    FirstSteps();
    NoMoves(HalfFilled());
    FirstAct(EntrySent(), Bought()[1], HalfFilled(), []);
    FirstAct(Fresh(Cfg()), Bought()[0], EntrySent(), [Bought()[1]] + []);
    assert Bought() == [Bought()[0]] + ([Bought()[1]] + []);
  }

  // Ten seconds on, the sync finds the entry resting, partly filled, and leaves it be.
  lemma SyncRests()
    ensures Sync(HalfFilled(), Now(10)) == Outcome([], false)
  {
    hide AddSpreads, OnFill, OnDead, EntryRung, ReplaceEntry, ReplaceClose, Run;
    var w, env := HalfFilled(), Now(10);
    assert w.orders == [Row()] && w.broker[Key()].state.Working?;
    assert Poll(w, env, Key()) == Answer.Resting;
    RunNothing(w);
    assert EntryBudget(w.cfg, w.positions[0].spreadPct) == 240.0;
    assert Staleness(w, env, w.orders[0]) == Rest;
    assert SyncOne(w, env, 0) == Outcome([], false);
    assert LoopStep(w, env, w.orders, 0) == Outcome([], false);
    assert SyncFrom(w, env, w.orders, 1) == Outcome([], false);
    assert SyncFrom(w, env, w.orders, 0) == Outcome([], false);
    assert 0 in InFlightPids(w.orders) by { InFlightPidsHas(w.orders, 0); }
    assert SweepOne(w, env, InFlightPids(w.orders), 0) == [];
    assert SweepFrom(w, env, InFlightPids(w.orders), 1, 1) == [];
    assert SweepFrom(w, env, InFlightPids(w.orders), 0, 1) == [];
  }

  function HalfListed(): seq<Listing> { [Listing("TLT260918P00090000", -1), Listing("TLT260918P00088000", 1)] }

  lemma ListingIsTrue()
    ensures Reports(HalfListed(), HalfFilled())
  {
    var l, legs := HalfListed(), Spread().legs;
    assert HalfFilled().holdings == AddSpreads(map[], legs, 1);
    forall x ensures Listed(l, x) == Held(AddSpreads(map[], legs, 1), x) {
      assert l[..1] == [l[0]] && l[..1][..0] == [];
      assert Listed(l[..1], x) == Listed([], x) + if l[0].symbol == x then l[0].qty else 0;
      AddSpreadsHeld(map[], legs, 1, x);
      assert legs[1..] == [legs[1]] && legs[1..][1..] == [];
      assert LegQty(legs[1..], x, 1) == (if legs[1].symbol == x then 1 else 0) + LegQty([], x, 1);
    }
  }

  // The run theorems speak of this run: half an entry at the broker, and no divergence reported.
  lemma HalfFilledEntryAgrees()
    ensures InSync(HalfFilled().orders, HalfFilled().positions, HalfListed())
    ensures Net(HalfFilled(), 0) == 1 && HalfFilled().positions[0].qty == 2
  {
    hide Sync, InSync, Run, ValidRun, Unsplit, News, Executed, Reports, Lost, Overfilled;
    var w := HalfFilled();
    RunReaches();
    SyncRests();
    ListingIsTrue();
    RunNothing(w);
    NoMoves(w);
    assert Tidy(w) by { HalfFilledRow(); }
    FreshIsSane();
    NoFalseHalt(Cfg(), Bought(), Now(10), [], HalfListed());
    HalfFilledRow();
  }

  lemma FreshIsSane()
    ensures Sane(Cfg())
  {
  }

  lemma NoMoves(w: World)
    ensures After(w, []) == w && ValidRun(w, [])
  {
  }

  lemma HalfFilledRow()
    ensures HalfFilled().orders == [Row()] && HalfFilled().positions[0].qty == 2
    ensures Net(HalfFilled(), 0) == 1
  {
    hide AddSpreads;
  }

  // ----- the same entry, expired at the bell with half of it filled

  function Expiring(): seq<Act> { Bought() + [Act(BrokerEnds(Key(), Expired), 9)] }

  function HalfExpired(): World {
    var w := HalfFilled();
    w.(broker := Ended(w.broker, Key(), Expired))
  }

  lemma BrokerExpires()
    ensures MayLapse(HalfFilled(), Key(), Expired)
    ensures Run(HalfFilled(), [Lapse(Key(), Expired)]) == HalfExpired()
    ensures HalfExpired().orders == [Row()] && Key() in HalfExpired().broker
    ensures HalfExpired().broker[Key()].state == Gone(Expired) && HalfExpired().broker[Key()].filled == 1
  {
    hide Run, AddSpreads;
    Run1(HalfFilled(), Lapse(Key(), Expired));
  }

  lemma LastStep()
    ensures var act := Act(BrokerEnds(Key(), Expired), 9);
      Enabled(HalfFilled(), act.step) && Run(HalfFilled(), Done(HalfFilled(), act)) == HalfExpired()
  {
    hide Run, HalfFilled, HalfExpired, MayLapse;
    BrokerExpires();
  }

  lemma ExpiryReaches()
    ensures ValidRun(Fresh(Cfg()), Expiring())
    ensures After(Fresh(Cfg()), Expiring()) == HalfExpired()
  {
    hide Run, News, Executed, Enabled, Done, UnitRisk, ValidRun, After, HalfExpired;
    FirstSteps();
    LastStep();
    NoMoves(HalfExpired());
    var a, b, c := Bought()[0], Bought()[1], Act(BrokerEnds(Key(), Expired), 9);
    FirstAct(HalfFilled(), c, HalfExpired(), []);
    FirstAct(EntrySent(), b, HalfFilled(), [c] + []);
    FirstAct(Fresh(Cfg()), a, EntrySent(), [b] + ([c] + []));
    assert Expiring() == [a] + ([b] + ([c] + []));
  }

  lemma ExpirySyncs()
    ensures !Sync(HalfExpired(), Now(10)).raised
  {
    hide Run, OnDead, HalfExpired, SweepFrom;
    var w, env := HalfExpired(), Now(10);
    BrokerExpires();
    ExpiredPosition();
    RunNothing(w);
    assert !SyncOne(w, env, 0).raised;
    assert LoopStep(w, env, w.orders, 0) == SyncOne(w, env, 0);
    var w1 := Run(w, LoopStep(w, env, w.orders, 0).ws);
    assert SyncFrom(w1, env, w.orders, 1) == Outcome([], false);
    assert !SyncFrom(w, env, w.orders, 0).raised;
  }

  lemma ExpiredPosition()
    ensures |HalfExpired().positions| == 1 && HalfExpired().positions[0].structure == Spread()
    ensures Buried(HalfExpired())
  {
    hide AddSpreads;
  }

  lemma ExpirySynced()
    ensures Synced(Cfg(), Expiring(), Now(10), [])
  {
    hide Sync, Run, HalfExpired;
    ExpiryReaches();
    ExpirySyncs();
    FreshIsSane();
    NoMoves(Run(HalfExpired(), Sync(HalfExpired(), Now(10)).ws));
  }

  // The sync fails the position, and the half the broker holds is reported broker-only on both legs.
  lemma HalfFilledExpiryDiverges(x: string)
    requires x in Symbols(Spread().legs)
    ensures var w2 := Final(Cfg(), Expiring(), Now(10), []);
      && |w2.positions| == 1 && w2.positions[0].status.Failed?
      && Judged(w2.orders, w2.positions, x, Held(w2.holdings, x)).BrokerOnly?
  {
    hide Sync, Run, Inv, Cust, Judged, Symbols, HalfExpired, Astray, Buried, Synced, Final, After, Inherits, Recovered;
    ExpirySynced();
    ExpiryReaches();
    BrokerExpires();
    ExpiredPosition();
    EndedOrderDecides(Cfg(), Expiring(), Now(10), [], 0, x);
    SyncedFacts(Cfg(), Expiring(), Now(10), []);
    OnePosition(HalfExpired(), Run(HalfExpired(), Sync(HalfExpired(), Now(10)).ws));
  }

  lemma OnePosition(w: World, w1: World)
    requires Inherits(w, w1)
    ensures |w1.positions| == |w.positions|
  {
  }

  // ----- the same signal, cut by a crash after the broker took the order; nobody answers until it is given up

  function Cut(): seq<Act> { [Act(NewsStep(Now(0), Signal()), 3)] }

  function Deaf(): Env { Env(300, {Key()}, {}, {}, {}, map[]) }

  function FillsAll(): seq<Act> { [Act(BrokerFills(Key(), 2, -0.5), 9)] }

  function Unreceipted(): World {
    var row, w := NewPosition(Now(0), Signal()), Fresh(Cfg());
    w.(positions := [row], orders := [CutOrder()], broker := map[Key() := NewTicket(CutOrder(), row)])
  }

  function CutOrder(): Order { NewOrder(Now(0), Key(), 0, ToOpen, -50) }

  // The three writes that survive: the position, its order, the wire.
  lemma CutWrites()
    ensures var row := NewPosition(Now(0), Signal());
      Done(Fresh(Cfg()), Cut()[0]) ==
      [InsertPosition(row)] + ([InsertOrder(CutOrder())] + ([Accept(Key(), NewTicket(CutOrder(), row))] + []))
  {
    hide Run, Apply, Inv, Submit, MayInsertOrder, DefinedRisk, OneEach, UnitRisk, News;
    var w, env, p := Fresh(Cfg()), Now(0), Signal();
    SpreadFits();
    SpreadRisks();
    FreshInv(Cfg());
    assert GateApproves(w, p) && !Seen(w, p.signal);
    NewsWrites(w, env, p);
    var row, order := NewPosition(env, p), CutOrder();
    var w2 := w.(positions := w.positions + [row], orders := w.orders + [order]);
    var send := Send(w2, env, 0, order, row).ws;
    assert send[0] == Accept(Key(), NewTicket(order, row)) && |send| == 2;
    assert News(w, env, p).ws[..3] == [InsertPosition(row)] + ([InsertOrder(order)] + ([send[0]] + []));
  }

  lemma CutRuns()
    ensures Run(Fresh(Cfg()), Done(Fresh(Cfg()), Cut()[0])) == Unreceipted()
  {
    hide Run, Apply, Done, UnitRisk;
    SpreadRisks();
    var w, row, order := Fresh(Cfg()), NewPosition(Now(0), Signal()), CutOrder();
    var t := NewTicket(order, row);
    var w1 := w.(positions := [row]);
    var w2 := w1.(orders := [order]);
    CutWrites();
    assert w.positions + [row] == [row] && w.orders + [order] == [order];
    RunInsertPosition(w, row, [InsertOrder(order)] + ([Accept(Key(), t)] + []));
    RunInsertOrder(w1, order, [Accept(Key(), t)] + []);
    RunAccept(w2, Key(), t, []);
    RunNothing(Unreceipted());
  }

  lemma CutReaches()
    ensures ValidRun(Fresh(Cfg()), Cut()) && After(Fresh(Cfg()), Cut()) == Unreceipted()
    ensures Inv(Unreceipted()) && Buried(Unreceipted())
  {
    hide Run, Inv, Done, OneEach, Unreceipted;
    SpreadFits();
    CutRuns();
    NoMoves(Unreceipted());
    assert Cut()[1..] == [];
    FreshInv(Cfg());
    ReachableInv(Fresh(Cfg()), Cut());
    UnreceiptedBuried();
  }

  lemma UnreceiptedBuried()
    ensures Buried(Unreceipted())
  {
  }

  lemma UnreceiptedRow()
    ensures var w := Unreceipted();
      && |w.positions| == 1 && w.positions[0].structure == Spread() && w.positions[0].qty == 2 && w.positions[0].status.Opening?
      && |w.orders| == 1 && w.orders[0].key == Key() && w.orders[0].pid == 0 && w.orders[0].intent.ToOpen?
      && GivenUp(w, Deaf(), w.orders[0]) && Key() in w.broker && w.broker[Key()].state.Working?
      && w.broker[Key()].filled == 0 && w.broker[Key()].qty == 2 && w.broker[Key()].limit == -50
      && w.cfg.entryTimeout == 240 && w.orders[0].createdAt == 0
  {
  }

  lemma DeafSync()
    ensures !Sync(Unreceipted(), Deaf()).raised
    ensures Run(Unreceipted(), Sync(Unreceipted(), Deaf()).ws) == Voided(Unreceipted(), 0)
  {
    hide Run, OnDead, OnFill, Unreceipted, Voided, Inv, InFlightPids, SweepOne;
    var w, env := Unreceipted(), Deaf();
    UnreceiptedRow();
    CutReaches();
    var void := MaybeVoid(w, env, 0);
    assert SyncOne(w, env, 0) == Outcome(void, false);
    assert LoopStep(w, env, w.orders, 0) == Outcome(void, false);
    var w1 := Run(w, void);
    assert SyncFrom(w1, env, w.orders, 1) == Outcome([], false);
    assert void + [] == void;
    assert SyncFrom(w, env, w.orders, 0) == Outcome(void, false);
    VoidThenSweep(w, env, 0);
    VoidedNone(w, env);
    var sweep := SweepOne(w1, env, {}, 0);
    assert SweepFrom(Run(w1, sweep), env, {}, 1, 1) == [];
    assert sweep + [] == sweep;
    assert SweepFrom(w1, env, InFlightPids(w1.orders), 0, 1) == sweep;
    RunConcat(w, void, sweep);
  }

  lemma VoidedNone(w: World, env: Env)
    requires |w.orders| == 1 && GivenUp(w, env, w.orders[0])
    ensures var w1 := Run(w, MaybeVoid(w, env, 0)); InFlightPids(w1.orders) == {} && w1.positions == w.positions
  {
    hide Run, Apply;
    var row := w.orders[0].(status := Canceled);
    MarkRuns(w, 0, row);
    assert w.orders[0 := row] == [row];
  }

  // The sync fails the position; the broker then fills the whole order, and both legs are broker-only.
  lemma LostReceiptIsReported(x: string)
    requires x in Symbols(Spread().legs)
    ensures var w2 := Final(Cfg(), Cut(), Deaf(), FillsAll());
      && |w2.positions| == 1 && w2.positions[0].status.Failed?
      && Judged(w2.orders, w2.positions, x, Held(w2.holdings, x)).BrokerOnly?
  {
    hide Sync, Run, Inv, Cust, Judged, Symbols, Unreceipted, Astray, Buried, Synced, Final, After, Inherits, Recovered, GivenUp;
    CutReaches();
    UnreceiptedRow();
    DeafSynced();
    GivenUpDecides(Cfg(), Cut(), Deaf(), FillsAll(), 0, x);
  }

  lemma DeafSynced()
    ensures Synced(Cfg(), Cut(), Deaf(), FillsAll())
    ensures var w2 := Final(Cfg(), Cut(), Deaf(), FillsAll());
      RowFill(Unreceipted().orders[0], w2.broker).n == 2 && |w2.positions| == 1
  {
    hide Sync, Run, Unreceipted, Voided, Executed, RowFill, ValidRun, After;
    CutReaches();
    UnreceiptedRow();
    DeafSync();
    FreshIsSane();
    LateFill();
  }

  lemma LateFill()
    ensures ValidRun(Voided(Unreceipted(), 0), FillsAll())
    ensures var w2 := After(Voided(Unreceipted(), 0), FillsAll());
      RowFill(Unreceipted().orders[0], w2.broker).n == 2 && |w2.positions| == 1
  {
    hide Run, Unreceipted, Executed, AddSpreads;
    UnreceiptedRow();
    var w, acts := Unreceipted(), FillsAll();
    var w1 := Voided(w, 0);
    Run1(w1, Trade(Key(), 2, -0.5));
    assert Done(w1, acts[0]) == [Trade(Key(), 2, -0.5)];
    var w2 := Executed(w1, Key(), 2, -0.5);
    assert acts[1..] == [];
    NoMoves(w2);
    assert ValidRun(w1, acts) && After(w1, acts) == w2;
    ExecutedBooks(w1, Key(), 2, -0.5);
  }
}
