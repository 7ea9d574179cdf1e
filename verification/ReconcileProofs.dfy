/**
 What the comparison decides: it agrees exactly when every live position's orders
 explain what the broker holds of its contracts and orders that ended left nothing else behind.
 */
module ReconcileProofs {
  import opened Arithmetic
  import opened Wrappers
  import opened Structures
  import opened World
  import opened Protocol
  import opened Lifecycle
  import opened LifecycleProofs
  import opened Custody
  import opened Runs
  import opened CustodyRuns
  import opened Reconcile

  // ----- with nothing resting, the band is a point

  lemma {:induction false} NoTransitNoBand(orders: seq<Order>, positions: seq<Position>, x: string, n: nat)
    requires n <= |positions| && forall o :: 0 <= o < |orders| ==> !InFlight(orders[o])
    ensures Implied(orders, positions, Arriving, x, n) == 0 && Implied(orders, positions, Leaving, x, n) == 0
  {
    if n > 0 { NoTransitNoBand(orders, positions, x, n - 1); }
  }

  // No divergence is missed: with no order in flight, whatever either side holds, only equality agrees.
  lemma QuietExact(orders: seq<Order>, positions: seq<Position>, listing: seq<Listing>)
    requires forall o :: 0 <= o < |orders| ==> !InFlight(orders[o])
    ensures InSync(orders, positions, listing) <==>
            forall x :: Listed(listing, x) == Implied(orders, positions, Settled, x, |positions|)
  {
    if InSync(orders, positions, listing) {
      forall x ensures Listed(listing, x) == Implied(orders, positions, Settled, x, |positions|) {
        assert Judged(orders, positions, x, Listed(listing, x)).Agrees?;
        NoTransitNoBand(orders, positions, x, |positions|);
      }
    } else {
      var x :| !Judged(orders, positions, x, Listed(listing, x)).Agrees?;
      NoTransitNoBand(orders, positions, x, |positions|);
      assert Listed(listing, x) != Implied(orders, positions, Settled, x, |positions|);
    }
  }

  // ----- one contract, one leg

  lemma {:induction false} LegQtyOther(legs: seq<Leg>, x: string, n: int)
    requires x !in Symbols(legs)
    ensures LegQty(legs, x, n) == 0
  {
    if legs != [] {
      assert legs[0].symbol in Symbols(legs);
      assert forall i :: 0 <= i < |legs[1..]| ==> legs[1..][i] == legs[i + 1];
      LegQtyOther(legs[1..], x, n);
    }
  }

  lemma {:induction false} LegQtyAt(legs: seq<Leg>, i: nat, n: int)
    requires OneEach(legs) && i < |legs|
    ensures LegQty(legs, legs[i].symbol, n) == Signed(legs[i], n)
  {
    var tail := legs[1..];
    assert forall j :: 0 <= j < |tail| ==> tail[j] == legs[j + 1];
    if i == 0 {
      assert legs[0].symbol !in Symbols(tail);
      LegQtyOther(tail, legs[0].symbol, n);
    } else {
      LegQtyAt(tail, i - 1, n);
    }
  }

  predicate Between(a: int, b: int, x: int) { Min(a, b) <= x <= Max(a, b) }

  lemma SignedBetween(leg: Leg, n: int, q: nat)
    requires leg.ratio >= 1
    ensures Between(0, Signed(leg, q), Signed(leg, n)) <==> 0 <= n <= q
    ensures Signed(leg, n) == Signed(leg, q) <==> n == q
  {
    ScaledOrdered(leg.ratio, n, q);
    ScaledOrdered(leg.ratio, q, n);
    ScaledOrdered(leg.ratio, 0, n);
    ScaledOrdered(leg.ratio, 0, q);
  }

  lemma ScaledOrdered(r: int, n: int, q: int)
    requires r >= 1
    ensures n < q ==> r * n < r * q
    ensures n > q ==> r * n > r * q
  {
    if n < q { assert r * (q - n) > 0; }
    if n > q { assert r * (n - q) > 0; }
  }

  // A count of spreads sits between none and all of a structure on one of its contracts exactly when
  // it does as a number, and equals all of it only when it is all of it.
  lemma LegBand(legs: seq<Leg>, x: string, n: int, q: nat)
    requires OneEach(legs)
    ensures x in Symbols(legs) ==>
              && (Between(0, LegQty(legs, x, q), LegQty(legs, x, n)) <==> 0 <= n <= q)
              && (LegQty(legs, x, n) == LegQty(legs, x, q) <==> n == q)
    ensures x !in Symbols(legs) ==> LegQty(legs, x, n) == 0
  {
    if x in Symbols(legs) {
      var i :| 0 <= i < |legs| && legs[i].symbol == x;
      LegQtyAt(legs, i, n);
      LegQtyAt(legs, i, q);
      SignedBetween(legs[i], n, q);
    } else {
      LegQtyOther(legs, x, n);
    }
  }

  // ----- what a position holds, by its status

  // A live position the tables count as settled although its rows say otherwise.
  ghost predicate Unresolved(orders: seq<Order>, pid: nat, row: Position) {
    || (row.status.Opening? && !Transit(orders, pid, ToOpen) && FillPrice(orders, pid, ToOpen).None?)
    || (row.status.Closing? && !Transit(orders, pid, ToClose) && FillPrice(orders, pid, ToClose).Some?)
  }

  // A live position with an order of its current intent at work: its legs may be partly there.
  ghost predicate AtWork(w: World, p: nat)
    requires p < |w.positions|
  {
    || (w.positions[p].status.Opening? && Transit(w.orders, p, ToOpen))
    || (w.positions[p].status.Closing? && Transit(w.orders, p, ToClose))
  }

  lemma InFlightIsTransit(orders: seq<Order>, o: nat)
    requires o < |orders| && InFlight(orders[o])
    ensures Transit(orders, orders[o].pid, orders[o].intent)
  {
    assert Of(orders[o], orders[o].pid, orders[o].intent);
  }

  lemma FilledBy(w: World, p: nat, intent: Intent)
    requires Inv(w) && Cust(w) && p < |w.positions|
    ensures 0 <= LiveFill(w.orders, w.broker, p, intent).n <= w.positions[p].qty
    ensures FillPrice(w.orders, p, intent).Some? ==> LiveFill(w.orders, w.broker, p, intent).n == w.positions[p].qty
    ensures FillPrice(w.orders, p, intent).None? && !Transit(w.orders, p, intent) ==>
              LiveFill(w.orders, w.broker, p, intent).n == 0
  {
    hide Inv, HoldingsAgree, CashAgrees, OrderFits, Suits, Transit;
    var l := Latest(w.orders, p, intent);
    if l.Some? {
      var o := l.value;
      RowFits(w, o);
      if InFlight(w.orders[o]) { InFlightIsTransit(w.orders, o); }
      assert Truthful(w.orders[o], w.broker);
      if w.orders[o].key in w.broker {
        TicketsFitOf(w, o);
        assert TicketSound(w.broker[w.orders[o].key]);
      }
    }
  }

  lemma StatusSays(w: World, p: nat)
    requires Inv(w) && p < |w.positions|
    ensures var row := w.positions[p];
      && Backed(w.orders, p, row)
      && (row.status.Opening? || row.status.Failed? ==> Latest(w.orders, p, ToClose).None?)
      && (!row.status.Opening? ==> !Transit(w.orders, p, ToOpen))
      && (!row.status.Closing? ==> !Transit(w.orders, p, ToClose))
      && (row.status.Failed? ==> FillPrice(w.orders, p, ToOpen).None?)
      && (row.status.Open? ==> FillPrice(w.orders, p, ToClose).None?)
  {
    AllBackedAt(w, p);
    RowsSuit(w, p);
    hide Inv, Supersedes;
    if FillPrice(w.orders, p, ToOpen).Some? { assert Of(w.orders[Latest(w.orders, p, ToOpen).value], p, ToOpen); }
    if FillPrice(w.orders, p, ToClose).Some? { assert Of(w.orders[Latest(w.orders, p, ToClose).value], p, ToClose); }
  }

  lemma RowsSuit(w: World, p: nat)
    requires Inv(w) && p < |w.positions|
    ensures forall o :: 0 <= o < |w.orders| && w.orders[o].pid == p ==>
              Suits(w.orders[o], w.positions[p].status, CloseAttempt(w, p))
  {
  }

  // What the broker holds of a position is what its current orders account for, between none and
  // all of a live one, exactly all of it when settled and resolved, and nothing of a finished one;
  // plus whatever orders that ended had filled.
  lemma NetByStatus(w: World, p: nat)
    requires Inv(w) && Cust(w) && p < |w.positions|
    ensures Net(w, p) == Regular(w, p) + Stray(w, p)
    ensures 0 <= Regular(w, p) <= w.positions[p].qty
    ensures !Live(w.positions[p].status) ==> Regular(w, p) == 0
    ensures Live(w.positions[p].status) && !AtWork(w, p) ==>
              (Regular(w, p) == w.positions[p].qty <==> !Unresolved(w.orders, p, w.positions[p]))
    ensures Tidy(w) ==> Stray(w, p) == 0
  {
    SoundAt(w, p);
    StatusSays(w, p);
    FilledBy(w, p, ToOpen);
    FilledBy(w, p, ToClose);
    NetSplits(w, p);
    if Tidy(w) { TidyStray(w, p); }
    hide Inv, Cust, Transit, Latest, LiveFill, Net, Stray, Tidy;
  }

  lemma SoundAt(w: World, p: nat)
    requires Inv(w) && p < |w.positions|
    ensures Sound(w.positions[p])
  {
  }

  // ----- every symbol belongs to at most one live position

  function Term(w: World, p: nat, g: Group, x: string): int
    requires p < |w.positions|
  {
    var row := w.positions[p];
    if In(w.orders, p, row, g) then LegQty(row.structure.legs, x, row.qty) else 0
  }

  ghost predicate Uses(w: World, p: nat, x: string)
    requires p < |w.positions|
  {
    Live(w.positions[p].status) && x in Symbols(w.positions[p].structure.legs)
  }

  ghost predicate Used(w: World, x: string) { exists q :: 0 <= q < |w.positions| && Uses(w, q, x) }

  lemma UnusedIsZero(w: World, p: nat, x: string)
    requires Inv(w) && Cust(w) && p < |w.positions| && !Uses(w, p, x)
    ensures forall g :: Term(w, p, g, x) == 0
    ensures LegQty(w.positions[p].structure.legs, x, Net(w, p)) == LegQty(w.positions[p].structure.legs, x, Stray(w, p))
  {
    hide Inv, Cust, Net, Regular, Stray, AtWork, Tidy, Transit, Unresolved;
    NetByStatus(w, p);
    if Live(w.positions[p].status) {
      LegQtyOther(w.positions[p].structure.legs, x, Net(w, p));
      LegQtyOther(w.positions[p].structure.legs, x, Stray(w, p));
      LegQtyOther(w.positions[p].structure.legs, x, w.positions[p].qty);
    }
  }

  // Contracts of x the broker holds through orders that ended partly filled.
  function Loose(w: World, x: string, n: nat): int
    requires n <= |w.positions|
  {
    if n == 0 then 0 else Loose(w, x, n - 1) + LegQty(w.positions[n - 1].structure.legs, x, Stray(w, n - 1))
  }

  lemma {:induction false} SumsToOwner(w: World, x: string, n: nat, q: nat)
    requires Inv(w) && Cust(w) && n <= |w.positions|
    requires forall p :: 0 <= p < n && p != q ==> !Uses(w, p, x)
    ensures forall g :: Implied(w.orders, w.positions, g, x, n) == if q < n then Term(w, q, g, x) else 0
    ensures Total(w, x, n) ==
            Loose(w, x, n) + if q < n then LegQty(w.positions[q].structure.legs, x, Regular(w, q)) else 0
  {
    hide Inv, Cust, Net, In, Regular, Stray;
    if n > 0 {
      SumsToOwner(w, x, n - 1, q);
      if n - 1 != q {
        UnusedIsZero(w, n - 1, x);
      } else {
        NetSplits(w, q);
        LegQtyAdd(w.positions[q].structure.legs, x, Regular(w, q), Stray(w, q));
      }
      forall g ensures Implied(w.orders, w.positions, g, x, n)
                       == Implied(w.orders, w.positions, g, x, n - 1) + Term(w, n - 1, g, x) {}
    }
  }

  lemma OneOwner(w: World, p: nat, q: nat, x: string)
    requires Inv(w) && p < |w.positions| && q < |w.positions| && Uses(w, p, x) && Uses(w, q, x)
    ensures p == q
  {
    assert p < q ==> Apart(w.positions[p], w.positions[q]);
    assert q < p ==> Apart(w.positions[q], w.positions[p]);
  }

  ghost predicate Reports(listing: seq<Listing>, w: World) {
    forall x :: Listed(listing, x) == Held(w.holdings, x)
  }

  // ----- contract by contract, in every reachable state

  // What the broker may show of x if its owner is q.
  ghost predicate Explained(w: World, q: nat, x: string)
    requires q < |w.positions|
  {
    var legs := w.positions[q].structure.legs;
    var full, here := LegQty(legs, x, w.positions[q].qty), LegQty(legs, x, Regular(w, q)) + Loose(w, x, |w.positions|);
    if AtWork(w, q) then Between(0, full, here) else here == full
  }

  lemma OwnerJudged(w: World, q: nat, x: string)
    requires Inv(w) && Cust(w) && q < |w.positions| && Uses(w, q, x)
    ensures Judged(w.orders, w.positions, x, Held(w.holdings, x)).Agrees? <==> Explained(w, q, x)
  {
    forall p | 0 <= p < |w.positions| && p != q ensures !Uses(w, p, x) {
      if Uses(w, p, x) { OneOwner(w, p, q, x); }
    }
    SumsToOwner(w, x, |w.positions|, q);
    OwnerBand(w, q, x);
  }

  lemma OwnerBand(w: World, q: nat, x: string)
    requires Cust(w) && q < |w.positions| && Uses(w, q, x)
    requires forall g :: Implied(w.orders, w.positions, g, x, |w.positions|) == Term(w, q, g, x)
    requires Total(w, x, |w.positions|)
             == Loose(w, x, |w.positions|) + LegQty(w.positions[q].structure.legs, x, Regular(w, q))
    ensures Judged(w.orders, w.positions, x, Held(w.holdings, x)).Agrees? <==> Explained(w, q, x)
  {
    hide Regular, Loose, Implied, Total, LegQty, Transit, AllTruthful, TicketsSound;
    assert Held(w.holdings, x) == Total(w, x, |w.positions|);
  }

  // A contract no live position uses agrees exactly when no ended order left any of it behind.
  lemma NobodysSymbol(w: World, x: string)
    requires Inv(w) && Cust(w) && forall q :: 0 <= q < |w.positions| ==> !Uses(w, q, x)
    ensures var v := Judged(w.orders, w.positions, x, Held(w.holdings, x));
            (v.Agrees? <==> Loose(w, x, |w.positions|) == 0) && (!v.Agrees? ==> v.BrokerOnly?)
  {
    SumsToOwner(w, x, |w.positions|, |w.positions|);
    hide Inv, Loose;
    assert Held(w.holdings, x) == Total(w, x, |w.positions|);
  }

  // The comparison against the broker's true holdings, for every state a run can reach: it agrees
  // exactly when every live position's contracts are explained and no others are left over.
  lemma ReconcileBySymbol(w: World, listing: seq<Listing>)
    requires Inv(w) && Cust(w) && Reports(listing, w)
    ensures InSync(w.orders, w.positions, listing) <==>
            && (forall q, x :: 0 <= q < |w.positions| && Uses(w, q, x) ==> Explained(w, q, x))
            && (forall x :: !Used(w, x) ==> Loose(w, x, |w.positions|) == 0)
  {
    hide Inv, Cust, Judged, Explained, Loose, Uses;
    if InSync(w.orders, w.positions, listing) {
      forall q, x | 0 <= q < |w.positions| && Uses(w, q, x) ensures Explained(w, q, x) {
        assert Judged(w.orders, w.positions, x, Listed(listing, x)).Agrees?;
        OwnerJudged(w, q, x);
      }
      forall x | !Used(w, x) ensures Loose(w, x, |w.positions|) == 0 {
        assert Judged(w.orders, w.positions, x, Listed(listing, x)).Agrees?;
        NobodysSymbol(w, x);
      }
    } else {
      var x :| !Judged(w.orders, w.positions, x, Listed(listing, x)).Agrees?;
      if q :| 0 <= q < |w.positions| && Uses(w, q, x) {
        OwnerJudged(w, q, x);
        assert !Explained(w, q, x);
      } else {
        NobodysSymbol(w, x);
        assert !Used(w, x) && Loose(w, x, |w.positions|) != 0;
      }
    }
  }

  // ----- position by position, when no two of them share a left-over contract

  // What the broker holds of a position suits its status and working order.
  ghost predicate Fits(w: World, p: nat)
    requires p < |w.positions|
  {
    var row := w.positions[p];
    if !Live(row.status) then Net(w, p) == 0
    else if AtWork(w, p) then 0 <= Net(w, p) <= row.qty
    else Net(w, p) == row.qty
  }

  // Live, or with spreads left over by an order that ended.
  ghost predicate Counts(w: World, p: nat)
    requires p < |w.positions|
  {
    Live(w.positions[p].status) || Stray(w, p) != 0
  }

  ghost predicate StraysApart(w: World) {
    forall p, q :: 0 <= p < |w.positions| && 0 <= q < |w.positions| && p != q && Stray(w, p) != 0 && Counts(w, q) ==>
      Symbols(w.positions[p].structure.legs) !! Symbols(w.positions[q].structure.legs)
  }

  lemma {:induction false} LooseToOwner(w: World, x: string, n: nat, p: nat)
    requires n <= |w.positions|
    requires forall q :: 0 <= q < n && q != p && Stray(w, q) != 0 ==> x !in Symbols(w.positions[q].structure.legs)
    ensures Loose(w, x, n) == if p < n then LegQty(w.positions[p].structure.legs, x, Stray(w, p)) else 0
  {
    hide Stray;
    if n > 0 {
      LooseToOwner(w, x, n - 1, p);
      LegQtyZero(w.positions[n - 1].structure.legs, x);
      if n - 1 != p && Stray(w, n - 1) != 0 { LegQtyOther(w.positions[n - 1].structure.legs, x, Stray(w, n - 1)); }
    }
  }

  // Each of a position's contracts agrees exactly when the position's own count fits.
  lemma PositionJudged(w: World, p: nat, x: string)
    requires Inv(w) && Cust(w) && StraysApart(w) && p < |w.positions| && Counts(w, p)
    requires x in Symbols(w.positions[p].structure.legs)
    ensures Judged(w.orders, w.positions, x, Held(w.holdings, x)).Agrees? <==> Fits(w, p)
  {
    hide Inv, Cust, Judged, Stray, Regular, Net, Loose, AtWork, Tidy, Unresolved;
    LooseToOwner(w, x, |w.positions|, p);
    var row := w.positions[p];
    NetByStatus(w, p);
    SoundAt(w, p);
    LegBand(row.structure.legs, x, Net(w, p), row.qty);
    LegBand(row.structure.legs, x, Stray(w, p), 0);
    LegQtyZero(row.structure.legs, x);
    LegQtyAdd(row.structure.legs, x, Regular(w, p), Stray(w, p));
    if Live(row.status) {
      OwnerJudged(w, p, x);
    } else {
      NobodysSymbol(w, x);
    }
  }

  // A contract diverges exactly when it is a leg of a position whose count does not fit.
  lemma SymbolJudged(w: World, x: string)
    requires Inv(w) && Cust(w) && StraysApart(w)
    ensures Judged(w.orders, w.positions, x, Held(w.holdings, x)).Agrees? <==>
            forall p :: 0 <= p < |w.positions| && x in Symbols(w.positions[p].structure.legs) ==> Fits(w, p)
  {
    hide Inv, Cust, Judged, Fits, Stray, Loose, Symbols, Live;
    forall p | 0 <= p < |w.positions| && !Counts(w, p) ensures Fits(w, p) {
      FinishedFits(w, p);
    }
    if p :| 0 <= p < |w.positions| && Counts(w, p) && x in Symbols(w.positions[p].structure.legs) {
      PositionJudged(w, p, x);
      forall q | 0 <= q < |w.positions| && q != p && x in Symbols(w.positions[q].structure.legs) ensures !Counts(w, q) {
        if Counts(w, q) { CountsApart(w, p, q); }
      }
    } else {
      LooseToOwner(w, x, |w.positions|, |w.positions|);
      NobodysSymbol(w, x);
    }
  }

  lemma CountsApart(w: World, p: nat, q: nat)
    requires Inv(w) && StraysApart(w) && p < |w.positions| && q < |w.positions| && p != q
    requires Counts(w, p) && Counts(w, q)
    ensures Symbols(w.positions[p].structure.legs) !! Symbols(w.positions[q].structure.legs)
  {
    LiveApart(w, p, q);
    hide Inv, Stray, Symbols;
  }

  lemma LiveApart(w: World, p: nat, q: nat)
    requires Inv(w) && p < |w.positions| && q < |w.positions| && p != q
    ensures Live(w.positions[p].status) && Live(w.positions[q].status) ==>
              Symbols(w.positions[p].structure.legs) !! Symbols(w.positions[q].structure.legs)
  {
    assert p < q ==> Apart(w.positions[p], w.positions[q]);
    assert q < p ==> Apart(w.positions[q], w.positions[p]);
  }

  // With left-over contracts apart, the comparison agrees exactly when every position's count fits.
  lemma ReconcileExact(w: World, listing: seq<Listing>)
    requires Inv(w) && Cust(w) && StraysApart(w) && Reports(listing, w)
    ensures InSync(w.orders, w.positions, listing) <==> forall p :: 0 <= p < |w.positions| ==> Fits(w, p)
  {
    hide Inv, Cust, Judged, Fits, StraysApart, Symbols;
    if InSync(w.orders, w.positions, listing) {
      forall p | 0 <= p < |w.positions| ensures Fits(w, p) {
        var x := FirstSymbol(w, p);
        assert Judged(w.orders, w.positions, x, Listed(listing, x)).Agrees?;
        SymbolJudged(w, x);
      }
    } else {
      var x :| !Judged(w.orders, w.positions, x, Listed(listing, x)).Agrees?;
      SymbolJudged(w, x);
    }
  }

  lemma FinishedFits(w: World, p: nat)
    requires Inv(w) && Cust(w) && p < |w.positions| && !Counts(w, p)
    ensures Fits(w, p)
  {
    NetByStatus(w, p);
  }

  lemma FirstSymbol(w: World, p: nat) returns (x: string)
    requires Inv(w) && p < |w.positions|
    ensures x in Symbols(w.positions[p].structure.legs)
  {
    SoundAt(w, p);
    x := w.positions[p].structure.legs[0].symbol;
  }

  // ----- when no order that ended had begun to fill

  lemma TidyFits(w: World, p: nat)
    requires Inv(w) && Cust(w) && Tidy(w) && p < |w.positions|
    ensures Fits(w, p) <==> !Unresolved(w.orders, p, w.positions[p])
  {
    NetByStatus(w, p);
    hide Inv, Cust, Net, Stray, Regular, Transit, FillPrice, Tidy;
  }

  // Then the order rows alone decide it.
  lemma TidyExact(w: World, listing: seq<Listing>)
    requires Inv(w) && Cust(w) && Tidy(w) && Reports(listing, w)
    ensures InSync(w.orders, w.positions, listing) <==>
            forall p :: 0 <= p < |w.positions| ==> !Unresolved(w.orders, p, w.positions[p])
  {
    hide Inv, Cust, Unresolved, InSync, Fits, Tidy, Stray;
    forall p | 0 <= p < |w.positions|
      ensures Stray(w, p) == 0 && (Fits(w, p) <==> !Unresolved(w.orders, p, w.positions[p]))
    {
      TidyStray(w, p);
      TidyFits(w, p);
    }
    ReconcileExact(w, listing);
  }

  // A broker-only report means exactly that: something is held that no live position claims.
  lemma BrokerOnlyIsUnclaimed(w: World, x: string, held: int)
    requires Inv(w) && Cust(w)
    ensures Judged(w.orders, w.positions, x, held).BrokerOnly? <==>
            held != 0 && forall p :: 0 <= p < |w.positions| ==> !Uses(w, p, x)
  {
    hide Inv, Cust, Implied;
    if q :| 0 <= q < |w.positions| && Uses(w, q, x) {
      forall p | 0 <= p < |w.positions| && p != q ensures !Uses(w, p, x) {
        if Uses(w, p, x) { OneOwner(w, p, q, x); }
      }
      SumsToOwner(w, x, |w.positions|, q);
      SoundAt(w, q);
      LegBand(w.positions[q].structure.legs, x, 0, w.positions[q].qty);
      LegQtyZero(w.positions[q].structure.legs, x);
      OwnerCounted(w, q, x);
    } else {
      SumsToOwner(w, x, |w.positions|, |w.positions|);
    }
  }

  lemma OwnerCounted(w: World, q: nat, x: string)
    requires q < |w.positions| && Uses(w, q, x) && LegQty(w.positions[q].structure.legs, x, w.positions[q].qty) != 0
    ensures Term(w, q, Settled, x) != 0 || Term(w, q, Arriving, x) != 0
  {
    hide LegQty, Transit;
  }
}
