/**
 Squaring the store with the broker after an emergency flatten: each stranded
 position's exit rebuilt from the broker's own fills, or refused.
 */
module Repair {
  import opened Wrappers
  import opened Structures
  import opened World
  import opened Protocol
  import opened Custody
  import opened Reconcile
  import opened ReconcileProofs

  datatype Execution = Execution(symbol: string, side: string, qty: int, price: real, at: int)

  // Per contract: positive when we paid.
  function SignedCash(f: Execution): real { if "buy" <= f.side then f.price else -f.price }

  function ClosingSide(side: Side): string { if side == Long then "sell" else "buy" }

  predicate Hit(f: Execution, leg: Leg, since: int) {
    f.symbol == leg.symbol && ClosingSide(leg.side) <= f.side && f.at > since
  }

  // A later execution of the leg's contract the other way round: a long leg sold, a short one bought.
  predicate Closes(f: Execution, leg: Leg, since: int) {
    f.symbol == leg.symbol && f.at > since && (if leg.side.Long? then "sell" <= f.side else "buy" <= f.side)
  }

  // What an execution cost: paid when we bought, received when we sold.
  function Cost(f: Execution): real { (if "buy" <= f.side then f.price else -f.price) * f.qty as real }

  function ClosedQty(fills: seq<Execution>, leg: Leg, since: int): int {
    if fills == [] then 0
    else ClosedQty(fills[..|fills| - 1], leg, since) + if Closes(fills[|fills| - 1], leg, since) then fills[|fills| - 1].qty else 0
  }

  lemma HitCloses(f: Execution, leg: Leg, since: int)
    ensures Hit(f, leg, since) == Closes(f, leg, since) && SignedCash(f) * f.qty as real == Cost(f)
  {
  }

  lemma {:induction false} HitQtyIs(fills: seq<Execution>, leg: Leg, since: int)
    ensures HitQty(fills, leg, since) == ClosedQty(fills, leg, since)
  {
    hide Hit, Closes;
    if fills != [] {
      HitQtyIs(fills[..|fills| - 1], leg, since);
      HitCloses(fills[|fills| - 1], leg, since);
    }
  }

  function HitQty(fills: seq<Execution>, leg: Leg, since: int): int {
    if fills == [] then 0
    else
      var f := fills[|fills| - 1];
      HitQty(fills[..|fills| - 1], leg, since) + if Hit(f, leg, since) then f.qty else 0
  }

  function HitCash(fills: seq<Execution>, leg: Leg, since: int): real {
    if fills == [] then 0.0
    else
      var f := fills[|fills| - 1];
      HitCash(fills[..|fills| - 1], leg, since) + if Hit(f, leg, since) then SignedCash(f) * f.qty as real else 0.0
  }

  function LegsCash(fills: seq<Execution>, legs: seq<Leg>, since: int): real {
    if legs == [] then 0.0
    else LegsCash(fills, legs[..|legs| - 1], since) + HitCash(fills, legs[|legs| - 1], since)
  }

  // ----- who claims a contract

  function ClaimsIn(legs: seq<Leg>, x: string): nat {
    if legs == [] then 0
    else ClaimsIn(legs[..|legs| - 1], x) + if legs[|legs| - 1].symbol == x then 1 else 0
  }

  function Claims(rows: seq<Position>, x: string, n: nat): nat
    requires n <= |rows|
  {
    if n == 0 then 0
    else Claims(rows, x, n - 1) + if Live(rows[n - 1].status) then ClaimsIn(rows[n - 1].structure.legs, x) else 0
  }

  // ----- what one stranded position's exit was

  datatype Why = StillHeld | SharedLegs | NoQuantity | Unmatched

  datatype Resolution = Skip(pid: nat, why: Why) | Exit(pid: nat, price: real, realized: real)

  predicate AnyHeld(legs: seq<Leg>, held: map<string, int>) {
    exists i :: 0 <= i < |legs| && Held(held, legs[i].symbol) != 0
  }

  predicate AnyShared(rows: seq<Position>, legs: seq<Leg>) {
    exists i :: 0 <= i < |legs| && Claims(rows, legs[i].symbol, |rows|) > 1
  }

  predicate AnyUnmatched(fills: seq<Execution>, legs: seq<Leg>, since: int, qty: nat) {
    exists i :: 0 <= i < |legs| && HitQty(fills, legs[i], since) != legs[i].ratio * qty
  }

  function Resolve(rows: seq<Position>, held: map<string, int>, fills: seq<Execution>, p: nat): Resolution
    requires p < |rows|
  {
    var row := rows[p];
    var legs := row.structure.legs;
    if AnyHeld(legs, held) then Skip(p, StillHeld)
    else if AnyShared(rows, legs) then Skip(p, SharedLegs)
    else if row.qty == 0 then Skip(p, NoQuantity)
    else if AnyUnmatched(fills, legs, row.openedAt, row.qty) then Skip(p, Unmatched)
    else
      var price := LegsCash(fills, legs, row.openedAt) / row.qty as real;
      Exit(p, price, Realized(row.qty, row.entry, price))
  }

  function Plans(rows: seq<Position>, held: map<string, int>, fills: seq<Execution>, n: nat): seq<Resolution>
    requires n <= |rows|
  {
    if n == 0 then []
    else Plans(rows, held, fills, n - 1)
         + if Live(rows[n - 1].status) then [Resolve(rows, held, fills, n - 1)] else []
  }

  // ----- the loops

  method CountClaims(rows: seq<Position>) returns (claims: map<string, int>)
    ensures forall x :: Held(claims, x) == Claims(rows, x, |rows|)
  {
    claims := map[];
    var p := 0;
    while p < |rows|
      invariant 0 <= p <= |rows|
      invariant forall x :: Held(claims, x) == Claims(rows, x, p)
    {
      if Live(rows[p].status) {
        var legs := rows[p].structure.legs;
        var i := 0;
        while i < |legs|
          invariant 0 <= i <= |legs|
          invariant forall x :: Held(claims, x) == Claims(rows, x, p) + ClaimsIn(legs[..i], x)
        {
          assert legs[..i + 1][..i] == legs[..i];
          claims := claims[legs[i].symbol := Held(claims, legs[i].symbol) + 1];
          i := i + 1;
        }
        assert legs[..i] == legs;
      }
      p := p + 1;
    }
  }

  function Of(fills: seq<Execution>, x: string): seq<Execution> {
    if fills == [] then []
    else Of(fills[..|fills| - 1], x) + if fills[|fills| - 1].symbol == x then [fills[|fills| - 1]] else []
  }

  function Group(m: map<string, seq<Execution>>, x: string): seq<Execution> { if x in m then m[x] else [] }

  method GroupFills(fills: seq<Execution>) returns (bySymbol: map<string, seq<Execution>>)
    ensures forall x :: Group(bySymbol, x) == Of(fills, x)
  {
    bySymbol := map[];
    var k := 0;
    while k < |fills|
      invariant 0 <= k <= |fills|
      invariant forall x :: Group(bySymbol, x) == Of(fills[..k], x)
    {
      assert fills[..k + 1][..k] == fills[..k];
      bySymbol := bySymbol[fills[k].symbol := Group(bySymbol, fills[k].symbol) + [fills[k]]];
      k := k + 1;
    }
    assert fills[..k] == fills;
  }

  lemma {:induction false} HitsOfSymbol(fills: seq<Execution>, leg: Leg, since: int)
    ensures HitQty(Of(fills, leg.symbol), leg, since) == HitQty(fills, leg, since)
    ensures HitCash(Of(fills, leg.symbol), leg, since) == HitCash(fills, leg, since)
  {
    if fills != [] {
      var before, f := fills[..|fills| - 1], fills[|fills| - 1];
      HitsOfSymbol(before, leg, since);
      var all := Of(fills, leg.symbol);
      if f.symbol == leg.symbol {
        assert all[..|all| - 1] == Of(before, leg.symbol) && all[|all| - 1] == f;
      } else {
        assert all == Of(before, leg.symbol);
      }
    }
  }

  // Closing executions of one leg after the position opened: how many, and for how much.
  method MatchLeg(group: seq<Execution>, leg: Leg, since: int) returns (filled: int, cash: real)
    ensures filled == HitQty(group, leg, since) && cash == HitCash(group, leg, since)
  {
    filled, cash := 0, 0.0;
    var k := 0;
    while k < |group|
      invariant 0 <= k <= |group|
      invariant filled == HitQty(group[..k], leg, since) && cash == HitCash(group[..k], leg, since)
    {
      assert group[..k + 1][..k] == group[..k];
      if Hit(group[k], leg, since) {
        filled := filled + group[k].qty;
        cash := cash + SignedCash(group[k]) * group[k].qty as real;
      }
      k := k + 1;
    }
    assert group[..k] == group;
  }

  method MatchLegs(fills: seq<Execution>, bySymbol: map<string, seq<Execution>>, legs: seq<Leg>, since: int, qty: nat)
    returns (missing: bool, net: real)
    requires forall x :: Group(bySymbol, x) == Of(fills, x)
    ensures missing <==> AnyUnmatched(fills, legs, since, qty)
    ensures !missing ==> net == LegsCash(fills, legs, since)
  {
    missing, net := false, 0.0;
    var i := 0;
    while i < |legs|
      invariant 0 <= i <= |legs|
      invariant missing <==> exists j :: 0 <= j < i && HitQty(fills, legs[j], since) != legs[j].ratio * qty
      invariant !missing ==> net == LegsCash(fills, legs[..i], since)
    {
      HitsOfSymbol(fills, legs[i], since);
      assert legs[..i + 1][..i] == legs[..i];
      var filled, cash := MatchLeg(Group(bySymbol, legs[i].symbol), legs[i], since);
      if filled != legs[i].ratio * qty {
        missing := true;
      } else {
        net := net + cash;
      }
      i := i + 1;
    }
    assert legs[..i] == legs;
  }

  method ResolveRow(rows: seq<Position>, held: map<string, int>, fills: seq<Execution>,
                    claims: map<string, int>, bySymbol: map<string, seq<Execution>>, p: nat)
    returns (r: Resolution)
    requires p < |rows|
    requires forall x :: Held(claims, x) == Claims(rows, x, |rows|)
    requires forall x :: Group(bySymbol, x) == Of(fills, x)
    ensures r == Resolve(rows, held, fills, p)
  {
    var row := rows[p];
    var legs := row.structure.legs;
    var stillHeld, shared, i := false, false, 0;
    while i < |legs|
      invariant 0 <= i <= |legs|
      invariant stillHeld <==> exists j :: 0 <= j < i && Held(held, legs[j].symbol) != 0
      invariant shared <==> exists j :: 0 <= j < i && Claims(rows, legs[j].symbol, |rows|) > 1
    {
      stillHeld := stillHeld || Held(held, legs[i].symbol) != 0;
      shared := shared || Held(claims, legs[i].symbol) > 1;
      i := i + 1;
    }
    if stillHeld {
      return Skip(p, StillHeld);
    }
    if shared {
      return Skip(p, SharedLegs);
    }
    if row.qty == 0 {
      return Skip(p, NoQuantity);
    }
    var missing, net := MatchLegs(fills, bySymbol, legs, row.openedAt, row.qty);
    if missing {
      return Skip(p, Unmatched);
    }
    var price := net / row.qty as real;
    return Exit(p, price, Realized(row.qty, row.entry, price));
  }

  method Plan(rows: seq<Position>, held: map<string, int>, fills: seq<Execution>) returns (out: seq<Resolution>)
    ensures out == Plans(rows, held, fills, |rows|)
  {
    var claims := CountClaims(rows);
    var bySymbol := GroupFills(fills);
    out := [];
    var p := 0;
    while p < |rows|
      invariant 0 <= p <= |rows|
      invariant out == Plans(rows, held, fills, p)
    {
      if Live(rows[p].status) {
        var r := ResolveRow(rows, held, fills, claims, bySymbol, p);
        out := out + [r];
      }
      p := p + 1;
    }
  }

  // No label and no reward: a liquidation teaches nothing about the signal.
  function Repaired(row: Position, realized: real): Position {
    row.(status := Closed, barrier := Some(SupervisorFlatten), win := None, realized := realized)
  }

  function Settle(rows: seq<Position>, out: seq<Resolution>): seq<Position> {
    if out == [] then rows
    else
      var before, r := Settle(rows, out[..|out| - 1]), out[|out| - 1];
      if r.Exit? && r.pid < |before| then before[r.pid := Repaired(before[r.pid], r.realized)] else before
  }

  class Books {
    var positions: seq<Position>

    constructor (positions: seq<Position>)
      ensures this.positions == positions
    {
      this.positions := positions;
    }

    method Apply(out: seq<Resolution>) returns (written: nat)
      requires forall i :: 0 <= i < |out| ==> out[i].pid < |positions|
      modifies this
      ensures positions == Settle(old(positions), out)
      ensures written == Exits(out)
    {
      written := 0;
      var i := 0;
      while i < |out|
        invariant 0 <= i <= |out| && |positions| == |old(positions)|
        invariant positions == Settle(old(positions), out[..i]) && written == Exits(out[..i])
      {
        assert out[..i + 1][..i] == out[..i];
        if out[i].Exit? {
          positions := positions[out[i].pid := Repaired(positions[out[i].pid], out[i].realized)];
          written := written + 1;
        }
        i := i + 1;
      }
      assert out[..i] == out;
    }
  }

  function Exits(out: seq<Resolution>): nat {
    if out == [] then 0 else Exits(out[..|out| - 1]) + if out[|out| - 1].Exit? then 1 else 0
  }

  // ----- no fill is credited twice

  lemma {:induction false} ClaimsInAtLeast(legs: seq<Leg>, i: nat, j: nat)
    requires i < |legs| && j < |legs| && legs[i].symbol == legs[j].symbol
    ensures ClaimsIn(legs, legs[i].symbol) >= if i == j then 1 else 2
    decreases |legs|
  {
    var n := |legs| - 1;
    var before := legs[..n];
    if i < n && j < n {
      ClaimsInAtLeast(before, i, j);
    } else if i < n {
      ClaimsInAtLeast(before, i, i);
    } else if j < n {
      ClaimsInAtLeast(before, j, j);
    }
  }

  lemma {:induction false} ClaimsAtLeast(rows: seq<Position>, n: nat, p: nat, q: nat, i: nat, j: nat)
    requires n <= |rows| && p < n && q < n && Live(rows[p].status) && Live(rows[q].status)
    requires i < |rows[p].structure.legs| && j < |rows[q].structure.legs|
    requires rows[p].structure.legs[i].symbol == rows[q].structure.legs[j].symbol
    ensures Claims(rows, rows[p].structure.legs[i].symbol, n) >= if p == q && i == j then 1 else 2
  {
    var x := rows[p].structure.legs[i].symbol;
    if p < n - 1 && q < n - 1 {
      ClaimsAtLeast(rows, n - 1, p, q, i, j);
    } else if p < n - 1 {
      ClaimsAtLeast(rows, n - 1, p, p, i, i);
      ClaimsInAtLeast(rows[q].structure.legs, j, j);
    } else if q < n - 1 {
      ClaimsAtLeast(rows, n - 1, q, q, j, j);
      ClaimsInAtLeast(rows[p].structure.legs, i, i);
    } else {
      ClaimsInAtLeast(rows[p].structure.legs, i, j);
    }
  }

  ghost predicate Credited(rows: seq<Position>, fills: seq<Execution>, p: nat, i: nat, k: nat) {
    p < |rows| && i < |rows[p].structure.legs| && k < |fills|
    && Closes(fills[k], rows[p].structure.legs[i], rows[p].openedAt)
  }

  // What an exit was rebuilt from: contracts nobody else claims, none still held, each leg closed in full.
  lemma ExitIsEarned(rows: seq<Position>, held: map<string, int>, fills: seq<Execution>, p: nat, i: nat)
    requires p < |rows| && Resolve(rows, held, fills, p).Exit? && i < |rows[p].structure.legs|
    ensures Claims(rows, rows[p].structure.legs[i].symbol, |rows|) <= 1
    ensures Held(held, rows[p].structure.legs[i].symbol) == 0
    ensures rows[p].qty > 0 && ClosedQty(fills, rows[p].structure.legs[i], rows[p].openedAt)
                               == rows[p].structure.legs[i].ratio * rows[p].qty
  {
    hide Claims, LegsCash, HitQty, ClosedQty;
    HitQtyIs(fills, rows[p].structure.legs[i], rows[p].openedAt);
  }

  // Some other leg of a live row, of this position or another, is in the contract of this one.
  ghost predicate AlsoClaimed(rows: seq<Position>, p: nat, i: nat) {
    exists q, j ::
      && 0 <= q < |rows| && Live(rows[q].status) && 0 <= j < |rows[q].structure.legs| && (q != p || j != i)
      && p < |rows| && i < |rows[p].structure.legs| && rows[q].structure.legs[j].symbol == rows[p].structure.legs[i].symbol
  }

  lemma {:induction false} ClaimsInAtMost(legs: seq<Leg>, x: string, i: nat)
    requires forall j :: 0 <= j < |legs| && legs[j].symbol == x ==> j == i
    ensures ClaimsIn(legs, x) <= (if i < |legs| then 1 else 0)
    decreases |legs|
  {
    if legs != [] {
      var before := legs[..|legs| - 1];
      assert forall j :: 0 <= j < |before| ==> before[j] == legs[j];
      ClaimsInAtMost(before, x, i);
    }
  }

  lemma {:induction false} ClaimsAtMost(rows: seq<Position>, n: nat, x: string, p: nat, i: nat)
    requires n <= |rows|
    requires forall q, j ::
               0 <= q < n && Live(rows[q].status) && 0 <= j < |rows[q].structure.legs| && rows[q].structure.legs[j].symbol == x
               ==> q == p && j == i
    ensures Claims(rows, x, n) <= (if p < n then 1 else 0)
  {
    if n > 0 {
      ClaimsAtMost(rows, n - 1, x, p, i);
      if Live(rows[n - 1].status) {
        ClaimsInAtMost(rows[n - 1].structure.legs, x, if n - 1 == p then i else |rows[n - 1].structure.legs|);
      }
    }
  }

  lemma SharedIsClaimed(rows: seq<Position>, p: nat, i: nat)
    requires p < |rows| && Live(rows[p].status) && i < |rows[p].structure.legs|
    ensures Claims(rows, rows[p].structure.legs[i].symbol, |rows|) > 1 <==> AlsoClaimed(rows, p, i)
  {
    var x := rows[p].structure.legs[i].symbol;
    if AlsoClaimed(rows, p, i) {
      var q, j :| 0 <= q < |rows| && Live(rows[q].status) && 0 <= j < |rows[q].structure.legs| && (q != p || j != i)
                  && rows[q].structure.legs[j].symbol == x;
      ClaimsAtLeast(rows, |rows|, p, q, i, j);
    } else {
      ClaimsAtMost(rows, |rows|, x, p, i);
    }
  }

  // What decides a live row, hardest reason first: a leg of it still at the broker; a contract of it in
  // another live leg; no size; a leg not closed in full. Otherwise, and only otherwise, it is an exit.
  lemma ResolvesExactly(rows: seq<Position>, held: map<string, int>, fills: seq<Execution>, p: nat)
    requires p < |rows| && Live(rows[p].status)
    ensures var r, row := Resolve(rows, held, fills, p), rows[p];
      var legs := row.structure.legs;
      var still := exists i :: 0 <= i < |legs| && legs[i].symbol in held && held[legs[i].symbol] != 0;
      var shared := exists i :: 0 <= i < |legs| && AlsoClaimed(rows, p, i);
      var short := exists i :: 0 <= i < |legs| && ClosedQty(fills, legs[i], row.openedAt) != legs[i].ratio * row.qty;
      && r.pid == p
      && (r == Skip(p, StillHeld) <==> still)
      && (r == Skip(p, SharedLegs) <==> !still && shared)
      && (r == Skip(p, NoQuantity) <==> !still && !shared && row.qty == 0)
      && (r == Skip(p, Unmatched) <==> !still && !shared && row.qty > 0 && short)
      && (r.Exit? <==> !still && !shared && row.qty > 0 && !short)
  {
    hide Claims, LegsCash, HitQty, ClosedQty, AlsoClaimed, Realized;
    var legs, since := rows[p].structure.legs, rows[p].openedAt;
    forall i | 0 <= i < |legs|
      ensures Claims(rows, legs[i].symbol, |rows|) > 1 <==> AlsoClaimed(rows, p, i)
      ensures HitQty(fills, legs[i], since) == ClosedQty(fills, legs[i], since)
    {
      SharedIsClaimed(rows, p, i);
      HitQtyIs(fills, legs[i], since);
    }
    assert AnyHeld(legs, held) <==> exists i :: 0 <= i < |legs| && legs[i].symbol in held && held[legs[i].symbol] != 0;
    assert AnyShared(rows, legs) <==> exists i :: 0 <= i < |legs| && AlsoClaimed(rows, p, i);
    assert AnyUnmatched(fills, legs, since, rows[p].qty) <==>
           exists i :: 0 <= i < |legs| && ClosedQty(fills, legs[i], since) != legs[i].ratio * rows[p].qty;
  }

  // An execution that pays for a repaired position pays for one leg of it and no other position.
  lemma NoFillCreditedTwice(rows: seq<Position>, held: map<string, int>, fills: seq<Execution>,
                            p: nat, q: nat, i: nat, j: nat, k: nat)
    requires Credited(rows, fills, p, i, k) && Credited(rows, fills, q, j, k)
    requires Live(rows[p].status) && Live(rows[q].status) && Resolve(rows, held, fills, p).Exit?
    ensures p == q && i == j
  {
    ExitIsEarned(rows, held, fills, p, i);
    ClaimsAtLeast(rows, |rows|, p, q, i, j);
  }

  // ----- every dollar of the matched fills is booked once

  function Weight(fills: seq<Execution>, s: set<nat>, n: nat): real
    requires n <= |fills|
  {
    if n == 0 then 0.0
    else Weight(fills, s, n - 1) + if n - 1 in s then Cost(fills[n - 1]) else 0.0
  }

  lemma {:induction false} WeightUnion(fills: seq<Execution>, s: set<nat>, t: set<nat>, n: nat)
    requires n <= |fills| && s !! t
    ensures Weight(fills, s + t, n) == Weight(fills, s, n) + Weight(fills, t, n)
  {
    if n > 0 { WeightUnion(fills, s, t, n - 1); }
  }

  lemma {:induction false} WeightOfNone(fills: seq<Execution>, n: nat)
    requires n <= |fills|
    ensures Weight(fills, {}, n) == 0.0
  {
    if n > 0 { WeightOfNone(fills, n - 1); }
  }

  function LegHits(fills: seq<Execution>, leg: Leg, since: int): set<nat> {
    set k: nat | k < |fills| && Closes(fills[k], leg, since)
  }

  lemma {:induction false} HitCashIsWeight(fills: seq<Execution>, leg: Leg, since: int, n: nat)
    requires n <= |fills|
    ensures HitCash(fills[..n], leg, since) == Weight(fills, LegHits(fills, leg, since), n)
  {
    hide Hit, Closes, SignedCash, Cost;
    if n > 0 {
      assert fills[..n][..n - 1] == fills[..n - 1];
      HitCashIsWeight(fills, leg, since, n - 1);
      HitCloses(fills[n - 1], leg, since);
    }
  }

  function RowHits(fills: seq<Execution>, legs: seq<Leg>, since: int): set<nat> {
    set k: nat, i: nat | k < |fills| && i < |legs| && Closes(fills[k], legs[i], since) :: k
  }

  lemma HitsSplit(fills: seq<Execution>, legs: seq<Leg>, since: int)
    requires legs != [] && forall i, j :: 0 <= i < j < |legs| ==> legs[i].symbol != legs[j].symbol
    ensures var a, b := RowHits(fills, legs[..|legs| - 1], since), LegHits(fills, legs[|legs| - 1], since);
            RowHits(fills, legs, since) == a + b && a !! b
  {
    var before := legs[..|legs| - 1];
    forall k | k in RowHits(fills, before, since) ensures k in RowHits(fills, legs, since) {
      var i: nat :| i < |before| && Closes(fills[k], before[i], since);
      assert Closes(fills[k], legs[i], since);
    }
  }

  lemma {:induction false} LegsCashIsWeight(fills: seq<Execution>, legs: seq<Leg>, since: int)
    requires forall i, j :: 0 <= i < j < |legs| ==> legs[i].symbol != legs[j].symbol
    ensures LegsCash(fills, legs, since) == Weight(fills, RowHits(fills, legs, since), |fills|)
  {
    if legs == [] {
      WeightOfNone(fills, |fills|);
      assert RowHits(fills, legs, since) == {};
    } else {
      var before, last := legs[..|legs| - 1], legs[|legs| - 1];
      LegsCashIsWeight(fills, before, since);
      HitCashIsWeight(fills, last, since, |fills|);
      assert fills[..|fills|] == fills;
      var a, b := RowHits(fills, before, since), LegHits(fills, last, since);
      HitsSplit(fills, legs, since);
      WeightUnion(fills, a, b, |fills|);
    }
  }

  // The executions that pay for some repaired position among the first n.
  function PaidHits(rows: seq<Position>, held: map<string, int>, fills: seq<Execution>, n: nat): set<nat>
    requires n <= |rows|
  {
    if n == 0 then {}
    else
      var before := PaidHits(rows, held, fills, n - 1);
      if Exiting(rows, held, fills, n - 1)
      then before + RowHits(fills, rows[n - 1].structure.legs, rows[n - 1].openedAt) else before
  }

  predicate Exiting(rows: seq<Position>, held: map<string, int>, fills: seq<Execution>, p: nat)
    requires p < |rows|
  {
    Live(rows[p].status) && Resolve(rows, held, fills, p).Exit?
  }

  function TotalRealized(out: seq<Resolution>): real {
    if out == [] then 0.0
    else TotalRealized(out[..|out| - 1]) + if out[|out| - 1].Exit? then out[|out| - 1].realized else 0.0
  }

  function EntryCost(rows: seq<Position>, held: map<string, int>, fills: seq<Execution>, n: nat): real
    requires n <= |rows|
  {
    if n == 0 then 0.0
    else EntryCost(rows, held, fills, n - 1)
         + if Exiting(rows, held, fills, n - 1) then rows[n - 1].qty as real * rows[n - 1].entry else 0.0
  }

  lemma {:induction false} PaidHitsHas(rows: seq<Position>, held: map<string, int>, fills: seq<Execution>, n: nat, k: nat)
    returns (p: nat, i: nat)
    requires n <= |rows| && k in PaidHits(rows, held, fills, n)
    ensures p < n && Exiting(rows, held, fills, p) && Credited(rows, fills, p, i, k)
  {
    if Exiting(rows, held, fills, n - 1) && k in RowHits(fills, rows[n - 1].structure.legs, rows[n - 1].openedAt) {
      p := n - 1;
      i :| 0 <= i < |rows[p].structure.legs| && Closes(fills[k], rows[p].structure.legs[i], rows[p].openedAt);
    } else {
      p, i := PaidHitsHas(rows, held, fills, n - 1, k);
    }
  }

  lemma ExitLegsDiffer(rows: seq<Position>, held: map<string, int>, fills: seq<Execution>, p: nat)
    requires p < |rows| && Exiting(rows, held, fills, p)
    ensures var legs := rows[p].structure.legs;
            forall i, j :: 0 <= i < j < |legs| ==> legs[i].symbol != legs[j].symbol
  {
    var legs := rows[p].structure.legs;
    forall i, j | 0 <= i < j < |legs| ensures legs[i].symbol != legs[j].symbol {
      ExitIsEarned(rows, held, fills, p, i);
      if legs[i].symbol == legs[j].symbol { ClaimsAtLeast(rows, |rows|, p, p, i, j); }
    }
  }

  lemma ExitBooks(rows: seq<Position>, held: map<string, int>, fills: seq<Execution>, p: nat)
    requires p < |rows| && Exiting(rows, held, fills, p)
    ensures Resolve(rows, held, fills, p).realized ==
            -100.0 * Weight(fills, RowHits(fills, rows[p].structure.legs, rows[p].openedAt), |fills|)
            - 100.0 * (rows[p].qty as real * rows[p].entry)
  {
    hide Resolve, Realized, Weight, RowHits;
    var row := rows[p];
    var cash := LegsCash(fills, row.structure.legs, row.openedAt);
    ExitPriced(rows, held, fills, p);
    ExitLegsDiffer(rows, held, fills, p);
    LegsCashIsWeight(fills, row.structure.legs, row.openedAt);
    RealizedFromCash(row.qty, row.entry, cash);
  }

  lemma ExitPriced(rows: seq<Position>, held: map<string, int>, fills: seq<Execution>, p: nat)
    requires p < |rows| && Exiting(rows, held, fills, p)
    ensures var row := rows[p];
            row.qty > 0 && Resolve(rows, held, fills, p).realized
                           == Realized(row.qty, row.entry, LegsCash(fills, row.structure.legs, row.openedAt) / row.qty as real)
  {
    hide Realized, LegsCash, Claims;
  }

  lemma RealizedFromCash(qty: nat, entry: real, cash: real)
    requires qty > 0
    ensures Realized(qty, entry, cash / qty as real) == -100.0 * cash - 100.0 * (qty as real * entry)
  {
    var q, price := qty as real, cash / qty as real;
    assert price * q == cash;
    assert (-price - entry) * 100.0 * q == -100.0 * (price * q) - 100.0 * (entry * q);
  }

  // What applying a plan writes on each row: an exit is closed by the supervisor's flatten, without a label,
  // at what its fills and its entry come to; every other row stays as it is.
  lemma RepairWrites(rows: seq<Position>, held: map<string, int>, fills: seq<Execution>, p: nat)
    requires p < |rows|
    ensures var after := Settle(rows, Plans(rows, held, fills, |rows|));
      && |after| == |rows|
      && if Exiting(rows, held, fills, p) then
           var paid := Weight(fills, RowHits(fills, rows[p].structure.legs, rows[p].openedAt), |fills|);
           after[p] == rows[p].(status := Closed, barrier := Some(SupervisorFlatten), win := None,
                                realized := -100.0 * paid - 100.0 * (rows[p].qty as real * rows[p].entry))
         else after[p] == rows[p]
  {
    hide Resolve, Settle, Plans, Weight, RowHits;
    SettledRow(rows, held, fills, |rows|, p);
    if Exiting(rows, held, fills, p) { ExitBooks(rows, held, fills, p); }
  }

  // What a plan books in total is what its fills paid and received, less what the positions cost.
  lemma {:induction false} PlanBooksItsFills(rows: seq<Position>, held: map<string, int>, fills: seq<Execution>, n: nat)
    requires n <= |rows|
    ensures TotalRealized(Plans(rows, held, fills, n)) ==
            -100.0 * Weight(fills, PaidHits(rows, held, fills, n), |fills|) - 100.0 * EntryCost(rows, held, fills, n)
  {
    hide Resolve, Weight, RowHits;
    if n == 0 {
      WeightOfNone(fills, |fills|);
    } else {
      PlanBooksItsFills(rows, held, fills, n - 1);
      var out, p := Plans(rows, held, fills, n), n - 1;
      if Live(rows[p].status) {
        assert out[..|out| - 1] == Plans(rows, held, fills, p);
        if Exiting(rows, held, fills, p) {
          ExitBooks(rows, held, fills, p);
          NewHitsDisjoint(rows, held, fills, p);
          WeightUnion(fills, PaidHits(rows, held, fills, p),
                      RowHits(fills, rows[p].structure.legs, rows[p].openedAt), |fills|);
        }
      } else {
        assert out == Plans(rows, held, fills, p);
      }
    }
  }

  lemma NewHitsDisjoint(rows: seq<Position>, held: map<string, int>, fills: seq<Execution>, p: nat)
    requires p < |rows| && Exiting(rows, held, fills, p)
    ensures PaidHits(rows, held, fills, p) !! RowHits(fills, rows[p].structure.legs, rows[p].openedAt)
  {
    hide Resolve, PaidHits;
    forall k | k in RowHits(fills, rows[p].structure.legs, rows[p].openedAt)
      ensures k !in PaidHits(rows, held, fills, p)
    {
      if k in PaidHits(rows, held, fills, p) {
        var q, j := PaidHitsHas(rows, held, fills, p, k);
        var i :| 0 <= i < |rows[p].structure.legs| && Closes(fills[k], rows[p].structure.legs[i], rows[p].openedAt);
        NoFillCreditedTwice(rows, held, fills, p, q, i, j, k);
      }
    }
  }

  // ----- what reconciliation says afterwards

  lemma {:induction false} SettledRow(rows: seq<Position>, held: map<string, int>, fills: seq<Execution>, n: nat, p: nat)
    requires n <= |rows| && p < |rows|
    ensures var after := Settle(rows, Plans(rows, held, fills, n));
      && |after| == |rows|
      && after[p] == if p < n && Exiting(rows, held, fills, p)
                     then Repaired(rows[p], Resolve(rows, held, fills, p).realized) else rows[p]
  {
    hide Resolve, Settle, Plans;
    SettleNone(rows, held, fills);
    if n > 0 {
      SettledRow(rows, held, fills, n - 1, p);
      SettledRow(rows, held, fills, n - 1, n - 1);
      SettleOne(rows, held, fills, n - 1);
    }
  }

  lemma SettleNone(rows: seq<Position>, held: map<string, int>, fills: seq<Execution>)
    ensures Settle(rows, Plans(rows, held, fills, 0)) == rows
  {
  }

  // One more row of the plan settles one more position, or none.
  lemma SettleOne(rows: seq<Position>, held: map<string, int>, fills: seq<Execution>, n: nat)
    requires n < |rows|
    ensures var before, after := Settle(rows, Plans(rows, held, fills, n)), Settle(rows, Plans(rows, held, fills, n + 1));
            after == if Exiting(rows, held, fills, n) && n < |before|
                     then before[n := Repaired(before[n], Resolve(rows, held, fills, n).realized)] else before
  {
    hide Resolve, Repaired;
    var out := Plans(rows, held, fills, n + 1);
    PidOf(rows, held, fills, n);
    if Live(rows[n].status) {
      assert out[..|out| - 1] == Plans(rows, held, fills, n);
    } else {
      assert out == Plans(rows, held, fills, n);
    }
  }

  lemma PidOf(rows: seq<Position>, held: map<string, int>, fills: seq<Execution>, p: nat)
    requires p < |rows|
    ensures Resolve(rows, held, fills, p).pid == p
  {
  }

  ghost predicate LegOfRepaired(rows: seq<Position>, held: map<string, int>, fills: seq<Execution>, x: string) {
    exists p :: 0 <= p < |rows| && Exiting(rows, held, fills, p) && x in Symbols(rows[p].structure.legs)
  }

  lemma {:induction false} SettleLength(rows: seq<Position>, out: seq<Resolution>)
    ensures |Settle(rows, out)| == |rows|
  {
    if out != [] { SettleLength(rows, out[..|out| - 1]); }
  }

  lemma {:induction false} UntouchedSums(orders: seq<Order>, rows: seq<Position>, held: map<string, int>,
                                         fills: seq<Execution>, g: Group, x: string, n: nat)
    requires n <= |rows| && !LegOfRepaired(rows, held, fills, x)
    ensures |Settle(rows, Plans(rows, held, fills, |rows|))| == |rows|
    ensures Implied(orders, Settle(rows, Plans(rows, held, fills, |rows|)), g, x, n) == Implied(orders, rows, g, x, n)
  {
    hide Resolve, Settle, Plans;
    SettleLength(rows, Plans(rows, held, fills, |rows|));
    if n > 0 {
      UntouchedSums(orders, rows, held, fills, g, x, n - 1);
      SettledRow(rows, held, fills, |rows|, n - 1);
      if Exiting(rows, held, fills, n - 1) {
        LegQtyOther(rows[n - 1].structure.legs, x, rows[n - 1].qty);
      }
    }
  }

  // After the repair nobody live claims a repaired position's contract.
  lemma {:induction false} RepairedSums(orders: seq<Order>, rows: seq<Position>, held: map<string, int>,
                                        fills: seq<Execution>, g: Group, x: string, n: nat, q: nat)
    requires n <= |rows| && q < |rows| && Exiting(rows, held, fills, q) && x in Symbols(rows[q].structure.legs)
    ensures |Settle(rows, Plans(rows, held, fills, |rows|))| == |rows|
    ensures Implied(orders, Settle(rows, Plans(rows, held, fills, |rows|)), g, x, n) == 0
  {
    hide Resolve, Settle, Plans;
    SettleLength(rows, Plans(rows, held, fills, |rows|));
    if n > 0 {
      RepairedSums(orders, rows, held, fills, g, x, n - 1, q);
      SettledRow(rows, held, fills, |rows|, n - 1);
      if n - 1 != q && Live(rows[n - 1].status) {
        OnlyOneClaims(rows, held, fills, q, n - 1, x);
        LegQtyOther(rows[n - 1].structure.legs, x, rows[n - 1].qty);
      }
    }
  }

  lemma OnlyOneClaims(rows: seq<Position>, held: map<string, int>, fills: seq<Execution>, q: nat, p: nat, x: string)
    requires p < |rows| && q < |rows| && p != q && Exiting(rows, held, fills, q) && Live(rows[p].status)
    requires x in Symbols(rows[q].structure.legs)
    ensures x !in Symbols(rows[p].structure.legs)
  {
    if x in Symbols(rows[p].structure.legs) {
      var i :| 0 <= i < |rows[q].structure.legs| && rows[q].structure.legs[i].symbol == x;
      var j :| 0 <= j < |rows[p].structure.legs| && rows[p].structure.legs[j].symbol == x;
      ExitIsEarned(rows, held, fills, q, i);
      ClaimsAtLeast(rows, |rows|, q, p, i, j);
    }
  }

  // Applying a plan explains exactly its own contracts: any other divergence still stands.
  lemma RepairExplainsOnlyItsOwn(orders: seq<Order>, rows: seq<Position>, held: map<string, int>,
                                 fills: seq<Execution>, x: string)
    ensures var after := Settle(rows, Plans(rows, held, fills, |rows|));
      Judged(orders, after, x, Held(held, x)).Agrees? <==>
      Judged(orders, rows, x, Held(held, x)).Agrees? || LegOfRepaired(rows, held, fills, x)
  {
    hide Resolve, Settle, Plans, Implied;
    if LegOfRepaired(rows, held, fills, x) {
      var q :| 0 <= q < |rows| && Exiting(rows, held, fills, q) && x in Symbols(rows[q].structure.legs);
      RepairedSums(orders, rows, held, fills, Settled, x, |rows|, q);
      RepairedSums(orders, rows, held, fills, Arriving, x, |rows|, q);
      RepairedSums(orders, rows, held, fills, Leaving, x, |rows|, q);
      NothingHeld(rows, held, fills, q, x);
    } else {
      UntouchedSums(orders, rows, held, fills, Settled, x, |rows|);
      UntouchedSums(orders, rows, held, fills, Arriving, x, |rows|);
      UntouchedSums(orders, rows, held, fills, Leaving, x, |rows|);
    }
  }

  lemma NothingHeld(rows: seq<Position>, held: map<string, int>, fills: seq<Execution>, q: nat, x: string)
    requires q < |rows| && Exiting(rows, held, fills, q) && x in Symbols(rows[q].structure.legs)
    ensures Held(held, x) == 0
  {
    var i :| 0 <= i < |rows[q].structure.legs| && rows[q].structure.legs[i].symbol == x;
    ExitIsEarned(rows, held, fills, q, i);
  }
}
