/**
 After an emergency flatten: the broker's book is empty, the tables still say otherwise,
 and the repair closes what the broker's own fills account for. What the comparison then says.
 */
module Aftermath {
  import opened Arithmetic
  import opened Wrappers
  import opened Structures
  import opened World
  import opened Ladder
  import opened Protocol
  import opened Lifecycle
  import opened LifecycleProofs
  import opened Runs
  import opened Custody
  import opened Reconcile
  import opened ReconcileProofs
  import Repair

  // ----- claims on a contract, when no two live positions share one

  lemma {:induction false} ClaimsInOnce(legs: seq<Leg>, x: string)
    requires OneEach(legs)
    ensures Repair.ClaimsIn(legs, x) == if x in Symbols(legs) then 1 else 0
    decreases |legs|
  {
    if legs != [] {
      var n := |legs| - 1;
      var before := legs[..n];
      assert forall i :: 0 <= i < n ==> before[i] == legs[i];
      ClaimsInOnce(before, x);
      assert forall i :: 0 <= i < n ==> before[i].symbol in Symbols(before);
      if x in Symbols(before) {
        var i :| 0 <= i < n && before[i].symbol == x;
        assert legs[i].symbol == x;
      } else if x in Symbols(legs) {
        var i :| 0 <= i < |legs| && legs[i].symbol == x;
        assert i == n;
      }
      assert legs[n].symbol in Symbols(legs);
    }
  }

  lemma {:induction false} ClaimsOnce(w: World, x: string, n: nat)
    requires Inv(w) && n <= |w.positions|
    ensures Repair.Claims(w.positions, x, n) <= 1
    ensures Repair.Claims(w.positions, x, n) == 1 ==> exists p :: 0 <= p < n && Uses(w, p, x)
  {
    hide Inv, Symbols, Repair.ClaimsIn;
    if n > 0 {
      ClaimsOnce(w, x, n - 1);
      SoundAt(w, n - 1);
      ClaimsInOnce(w.positions[n - 1].structure.legs, x);
      if Uses(w, n - 1, x) && Repair.Claims(w.positions, x, n - 1) == 1 {
        var p :| 0 <= p < n - 1 && Uses(w, p, x);
        OneOwner(w, p, n - 1, x);
      }
    }
  }

  // ----- what an empty book leaves to repair

  // Every leg's closing executions since the position opened add up to its size.
  ghost predicate Accounted(w: World, fills: seq<Repair.Execution>, p: nat)
    requires p < |w.positions|
  {
    var row := w.positions[p];
    forall i :: 0 <= i < |row.structure.legs| ==>
      Repair.ClosedQty(fills, row.structure.legs[i], row.openedAt) == row.structure.legs[i].ratio * row.qty
  }

  // With nothing held, a live position is repaired exactly when the fills account for it.
  lemma EmptyBookExits(w: World, fills: seq<Repair.Execution>, p: nat)
    requires Inv(w) && p < |w.positions| && Live(w.positions[p].status)
    ensures Repair.Exiting(w.positions, map[], fills, p) <==> Accounted(w, fills, p)
  {
    hide Inv, Repair.HitQty, Repair.ClosedQty, Repair.LegsCash, Repair.Claims, Realized;
    SoundAt(w, p);
    var legs := w.positions[p].structure.legs;
    forall i | 0 <= i < |legs|
      ensures Repair.HitQty(fills, legs[i], w.positions[p].openedAt) == Repair.ClosedQty(fills, legs[i], w.positions[p].openedAt)
    {
      Repair.HitQtyIs(fills, legs[i], w.positions[p].openedAt);
    }
    forall i | 0 <= i < |legs| ensures Repair.Claims(w.positions, legs[i].symbol, |w.positions|) <= 1 {
      ClaimsOnce(w, legs[i].symbol, |w.positions|);
    }
  }

  // ----- the comparison

  lemma {:induction false} ImpliedToOwner(w: World, g: Group, x: string, n: nat, q: nat)
    requires n <= |w.positions| && forall p :: 0 <= p < n && p != q ==> !Uses(w, p, x)
    ensures Implied(w.orders, w.positions, g, x, n) == if q < n then Term(w, q, g, x) else 0
  {
    hide In;
    if n > 0 {
      ImpliedToOwner(w, g, x, n - 1, q);
      if n - 1 != q { UnusedTerm(w, n - 1, g, x); }
      assert Implied(w.orders, w.positions, g, x, n)
          == Implied(w.orders, w.positions, g, x, n - 1) + Term(w, n - 1, g, x);
    }
  }

  lemma UnusedTerm(w: World, p: nat, g: Group, x: string)
    requires p < |w.positions| && !Uses(w, p, x)
    ensures Term(w, p, g, x) == 0
  {
    if x !in Symbols(w.positions[p].structure.legs) {
      LegQtyOther(w.positions[p].structure.legs, x, w.positions[p].qty);
    }
  }

  // Against an empty book a live position's contract agrees exactly while an order of it is at work.
  lemma OwnerAgainstNothing(w: World, q: nat, x: string)
    requires Inv(w) && q < |w.positions| && Uses(w, q, x)
    ensures Judged(w.orders, w.positions, x, 0).Agrees? <==> AtWork(w, q)
  {
    hide Inv, Implied, Symbols, Transit;
    forall p | 0 <= p < |w.positions| && p != q ensures !Uses(w, p, x) {
      if Uses(w, p, x) { OneOwner(w, p, q, x); }
    }
    forall g ensures Implied(w.orders, w.positions, g, x, |w.positions|) == Term(w, q, g, x) {
      ImpliedToOwner(w, g, x, |w.positions|, q);
    }
    var legs, qty := w.positions[q].structure.legs, w.positions[q].qty;
    SoundAt(w, q);
    LegBand(legs, x, 0, qty);
    LegQtyZero(legs, x);
    hide LegQty;
  }

  lemma NobodyAgainstNothing(w: World, x: string)
    requires !Used(w, x)
    ensures Judged(w.orders, w.positions, x, 0).Agrees?
  {
    hide Implied, Uses;
    forall g ensures Implied(w.orders, w.positions, g, x, |w.positions|) == 0 {
      ImpliedToOwner(w, g, x, |w.positions|, |w.positions|);
    }
  }

  function AfterRepair(w: World, fills: seq<Repair.Execution>): seq<Position> {
    Repair.Settle(w.positions, Repair.Plans(w.positions, map[], fills, |w.positions|))
  }

  lemma LegOfRepairedOwner(w: World, fills: seq<Repair.Execution>, q: nat, x: string)
    requires Inv(w) && q < |w.positions| && Uses(w, q, x)
    ensures Repair.LegOfRepaired(w.positions, map[], fills, x) <==> Repair.Exiting(w.positions, map[], fills, q)
  {
    hide Inv, Repair.Resolve, Symbols;
    if Repair.LegOfRepaired(w.positions, map[], fills, x) {
      var p :| 0 <= p < |w.positions| && Repair.Exiting(w.positions, map[], fills, p)
               && x in Symbols(w.positions[p].structure.legs);
      OneOwner(w, p, q, x);
    }
  }

  lemma RepairedOwner(w: World, fills: seq<Repair.Execution>, q: nat, x: string)
    requires Inv(w) && q < |w.positions| && Uses(w, q, x)
    ensures Judged(w.orders, AfterRepair(w, fills), x, 0).Agrees? <==> AtWork(w, q) || Accounted(w, fills, q)
  {
    hide Inv, Repair.Resolve, Repair.Settle, Repair.Plans, Judged, AtWork, Accounted, Symbols, Repair.LegOfRepaired, Repair.Exiting;
    Repair.RepairExplainsOnlyItsOwn(w.orders, w.positions, map[], fills, x);
    OwnerAgainstNothing(w, q, x);
    LegOfRepairedOwner(w, fills, q, x);
    EmptyBookExits(w, fills, q);
  }

  // In any world of a run: once a flatten has left the broker's book empty and the repair has been
  // applied, the comparison is clean exactly when every live position has an order at work or each of
  // its legs' closing executions add up to its size; no other reason to skip a row remains.
  lemma FlattenThenRepair(cfg: Config, acts: seq<Act>, fills: seq<Repair.Execution>)
    requires Sane(cfg) && ValidRun(Fresh(cfg), acts)
    ensures var w := After(Fresh(cfg), acts);
      InSync(w.orders, AfterRepair(w, fills), []) <==>
        forall p :: 0 <= p < |w.positions| && Live(w.positions[p].status) ==> AtWork(w, p) || Accounted(w, fills, p)
  {
    hide Inv, Judged, AtWork, Accounted, AfterRepair, ValidRun, After;
    FreshInv(cfg);
    ReachableInv(Fresh(cfg), acts);
    var w := After(Fresh(cfg), acts);
    var after := AfterRepair(w, fills);
    assert forall x :: Listed([], x) == 0;
    if InSync(w.orders, after, []) {
      forall p | 0 <= p < |w.positions| && Live(w.positions[p].status) ensures AtWork(w, p) || Accounted(w, fills, p) {
        var x := FirstSymbol(w, p);
        assert Judged(w.orders, after, x, Listed([], x)).Agrees?;
        RepairedOwner(w, fills, p, x);
      }
    } else {
      var x :| !Judged(w.orders, after, x, Listed([], x)).Agrees?;
      if Used(w, x) {
        var q :| 0 <= q < |w.positions| && Uses(w, q, x);
        RepairedOwner(w, fills, q, x);
      } else {
        NobodyAgainstNothing(w, x);
        UnusedAfterRepair(w, fills, x);
      }
    }
  }

  lemma UnusedAfterRepair(w: World, fills: seq<Repair.Execution>, x: string)
    requires Judged(w.orders, w.positions, x, 0).Agrees?
    ensures Judged(w.orders, AfterRepair(w, fills), x, 0).Agrees?
  {
    hide Judged, Repair.Plans, Repair.Settle, Repair.LegOfRepaired;
    Repair.RepairExplainsOnlyItsOwn(w.orders, w.positions, map[], fills, x);
  }

  // With no order in flight it is clean exactly when every live position was resolved as an exit.
  lemma QuietRepairIsClean(cfg: Config, acts: seq<Act>, fills: seq<Repair.Execution>)
    requires Sane(cfg) && ValidRun(Fresh(cfg), acts)
    requires var w := After(Fresh(cfg), acts); forall o :: 0 <= o < |w.orders| ==> !InFlight(w.orders[o])
    ensures var w := After(Fresh(cfg), acts);
      InSync(w.orders, AfterRepair(w, fills), []) <==>
        forall p :: 0 <= p < |w.positions| && Live(w.positions[p].status) ==>
          Repair.Resolve(w.positions, map[], fills, p).Exit?
  {
    hide Inv, Accounted, AfterRepair, InSync, ValidRun, After, Repair.Resolve;
    FreshInv(cfg);
    ReachableInv(Fresh(cfg), acts);
    FlattenThenRepair(cfg, acts, fills);
    var w := After(Fresh(cfg), acts);
    forall p | 0 <= p < |w.positions| && Live(w.positions[p].status)
      ensures AtWork(w, p) || Accounted(w, fills, p) <==> Repair.Resolve(w.positions, map[], fills, p).Exit?
    {
      EmptyBookExits(w, fills, p);
    }
  }
}
