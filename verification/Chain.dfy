/**
 From a view to concrete strikes: which contracts `build_structure` picks, the
 shape it promises for each kind, and the exact worst case of what it returns.
 */
module Chain {
  import opened Wrappers
  import opened Arithmetic
  import opened Structures

  datatype Quote = Quote(symbol: string, right: Right, strike: real, expiry: int, bid: real, ask: real, openInterest: int)
  {
    function Mid(): real { (bid + ask) / 2.0 }

    predicate Tradable() { bid > 0.0 && ask > bid }
  }

  datatype Geometry = Geometry(
    wingPct: real, minMovePct: real, reach: real, minOpenInterest: int, maxSpreadPct: real)

  const SLACK := 0.000000001

  // ----- one side of the chain, by strike

  function Insert(q: Quote, side: seq<Quote>): seq<Quote> {
    if side == [] || q.strike < side[0].strike then [q] + side else [side[0]] + Insert(q, side[1..])
  }

  function SideOf(chain: seq<Quote>, right: Right): seq<Quote> {
    if chain == [] then []
    else
      var q, rest := chain[|chain| - 1], SideOf(chain[..|chain| - 1], right);
      if q.right == right && q.Tradable() then Insert(q, rest) else rest
  }

  ghost predicate Sorted(side: seq<Quote>) {
    forall i, j :: 0 <= i < j < |side| ==> side[i].strike <= side[j].strike
  }

  lemma {:induction false} InsertKeeps(q: Quote, side: seq<Quote>)
    requires Sorted(side)
    ensures Sorted(Insert(q, side))
  {
    if side != [] && q.strike >= side[0].strike {
      var tail := side[1..];
      assert side == [side[0]] + tail;
      InsertKeeps(q, tail);
      InsertHas(q, tail);
      var all := Insert(q, tail);
      assert forall i :: 0 <= i < |all| ==> all[i] in all;
    }
  }

  lemma {:induction false} InsertHas(q: Quote, side: seq<Quote>)
    ensures forall x :: x in Insert(q, side) <==> x == q || x in side
  {
    if side != [] && q.strike >= side[0].strike {
      InsertHas(q, side[1..]);
      assert side == [side[0]] + side[1..];
    }
  }

  lemma {:induction false} SideSorted(chain: seq<Quote>, right: Right)
    ensures Sorted(SideOf(chain, right))
  {
    hide Insert;
    if chain != [] {
      SideSorted(chain[..|chain| - 1], right);
      InsertKeeps(chain[|chain| - 1], SideOf(chain[..|chain| - 1], right));
    }
  }

  lemma {:induction false} SideHas(chain: seq<Quote>, right: Right, q: Quote)
    ensures q in SideOf(chain, right) <==> q in chain && q.right == right && q.Tradable()
  {
    hide Insert;
    if chain != [] {
      var last, before := chain[|chain| - 1], chain[..|chain| - 1];
      SideHas(before, right, q);
      assert chain == before + [last];
      InsertHas(last, SideOf(before, right));
    }
  }

  // Exactly the tradable contracts of the side, in strike order.
  lemma SideIsSorted(chain: seq<Quote>, right: Right)
    ensures Sorted(SideOf(chain, right))
    ensures forall q :: q in SideOf(chain, right) <==> q in chain && q.right == right && q.Tradable()
  {
    SideSorted(chain, right);
    forall q ensures q in SideOf(chain, right) <==> q in chain && q.right == right && q.Tradable() {
      SideHas(chain, right, q);
    }
  }

  // The quotes of a list at one strike, and the tradable ones of a chain's side, both as listed.
  ghost function At(side: seq<Quote>, k: real): seq<Quote> {
    if side == [] then [] else (if side[0].strike == k then [side[0]] else []) + At(side[1..], k)
  }

  ghost function Quoted(chain: seq<Quote>, right: Right): seq<Quote> {
    if chain == [] then []
    else
      var q := chain[|chain| - 1];
      Quoted(chain[..|chain| - 1], right) + if q.right == right && q.bid > 0.0 && q.ask > q.bid then [q] else []
  }

  lemma {:induction false} AtAppend(side: seq<Quote>, q: Quote, k: real)
    ensures At(side + [q], k) == At(side, k) + if q.strike == k then [q] else []
  {
    if side == [] {
      assert [] + [q] == [q] && [q][1..] == [];
    } else {
      assert (side + [q])[1..] == side[1..] + [q];
      AtAppend(side[1..], q, k);
    }
  }

  lemma {:induction false} AtNone(side: seq<Quote>, k: real)
    requires forall i :: 0 <= i < |side| ==> side[i].strike != k
    ensures At(side, k) == []
  {
    if side != [] { AtNone(side[1..], k); }
  }

  lemma {:induction false} InsertAt(q: Quote, side: seq<Quote>, k: real)
    requires Sorted(side)
    ensures At(Insert(q, side), k) == At(side, k) + if q.strike == k then [q] else []
  {
    if side == [] || q.strike < side[0].strike {
      if q.strike == k { AtNone(side, k); }
      assert ([q] + side)[1..] == side;
    } else {
      InsertAt(q, side[1..], k);
      assert ([side[0]] + Insert(q, side[1..]))[1..] == Insert(q, side[1..]);
    }
  }

  // Nothing is lost or listed twice, and contracts of one strike stay in the order the chain has them.
  lemma {:induction false} SideIsStable(chain: seq<Quote>, right: Right, k: real)
    ensures At(SideOf(chain, right), k) == At(Quoted(chain, right), k)
  {
    hide Insert, Sorted, At;
    if chain != [] {
      var q, before := chain[|chain| - 1], chain[..|chain| - 1];
      SideIsStable(before, right, k);
      SideSorted(before, right);
      InsertAt(q, SideOf(before, right), k);
      AtAppend(Quoted(before, right), q, k);
      assert Quoted(before, right) + [] == Quoted(before, right);
    } else {
      assert SideOf(chain, right) == [] == Quoted(chain, right);
    }
  }

  function Off(q: Quote, target: real): real { Abs(q.strike - target) }

  // First of the contracts nearest the target.
  function Nearest(side: seq<Quote>, target: real): (r: Option<Quote>)
    ensures r.None? <==> side == []
    ensures r.Some? ==> exists i :: 0 <= i < |side| && IsNearest(side, target, i) && side[i] == r.value
  {
    if side == [] then None
    else
      var rest := Nearest(side[1..], target);
      var here := !(rest.Some? && Off(rest.value, target) < Off(side[0], target));
      NearestStep(side, target, rest, here);
      if here then Some(side[0]) else rest
  }

  // No contract is nearer the target than the i-th, and none before it is as near.
  ghost predicate IsNearest(side: seq<Quote>, target: real, i: nat) {
    i < |side|
    && (forall j :: 0 <= j < |side| ==> Off(side[i], target) <= Off(side[j], target))
    && (forall j :: 0 <= j < i ==> Off(side[i], target) < Off(side[j], target))
  }

  lemma NearestStep(side: seq<Quote>, target: real, rest: Option<Quote>, here: bool)
    requires side != [] && (rest.None? <==> side[1..] == [])
    requires rest.Some? ==> exists i :: 0 <= i < |side[1..]| && IsNearest(side[1..], target, i) && side[1..][i] == rest.value
    requires here <==> !(rest.Some? && Off(rest.value, target) < Off(side[0], target))
    ensures exists i :: 0 <= i < |side| && IsNearest(side, target, i) && side[i] == (if here then side[0] else rest.value)
  {
    hide Off;
    var tail := side[1..];
    if rest.Some? {
      var i :| 0 <= i < |tail| && IsNearest(tail, target, i) && tail[i] == rest.value;
      assert forall j :: 1 <= j < |side| ==> side[j] == tail[j - 1];
      if here { assert IsNearest(side, target, 0); } else { assert IsNearest(side, target, i + 1); }
    } else {
      assert IsNearest(side, target, 0);
    }
  }

  // Smallest step between neighbouring strikes.
  function Increment(side: seq<Quote>): (r: Option<real>)
    ensures r.Some? ==> r.value > 0.0
  {
    if |side| < 2 then None
    else
      var rest, step := Increment(side[1..]), side[1].strike - side[0].strike;
      if step > 0.0 && (rest.None? || step < rest.value) then Some(step) else rest
  }

  lemma {:induction false} IncrementIsLeast(side: seq<Quote>, i: nat, j: nat)
    requires Sorted(side) && i < j < |side| && side[i].strike < side[j].strike
    ensures Increment(side).Some? && Increment(side).value <= side[j].strike - side[i].strike
    decreases |side|
  {
    var tail := side[1..];
    assert forall k :: 0 <= k < |tail| ==> tail[k] == side[k + 1];
    if i > 0 {
      IncrementIsLeast(tail, i - 1, j - 1);
    } else if side[1].strike == side[0].strike {
      IncrementIsLeast(tail, 0, j - 1);
    }
  }

  lemma {:induction false} IncrementIsAStep(side: seq<Quote>) returns (k: nat)
    requires Increment(side).Some?
    ensures k + 1 < |side| && side[k + 1].strike - side[k].strike == Increment(side).value
    decreases |side|
  {
    var rest, step := Increment(side[1..]), side[1].strike - side[0].strike;
    if step > 0.0 && (rest.None? || step < rest.value) {
      k := 0;
    } else {
      k := IncrementIsAStep(side[1..]);
      k := k + 1;
    }
  }

  function WingSteps(target: real, step: real): (n: int)
    requires step > 0.0
    ensures n >= 1
  {
    Max(1, HalfEven(target / step))
  }

  function WingWidth(side: seq<Quote>, spot: real, pct: real): (r: Option<real>)
    ensures r.Some? <==> Increment(side).Some?
  {
    match Increment(side)
    case None => None
    case Some(step) => Some(step * WingSteps(spot * pct / 100.0, step) as real)
  }

  // The wing is a whole number of strike steps, at least one, within half a step of the width
  // asked for when that is at least a step.
  lemma WingWidthNearTarget(side: seq<Quote>, spot: real, pct: real) returns (n: int)
    requires WingWidth(side, spot, pct).Some?
    ensures var w, step, target := WingWidth(side, spot, pct).value, Increment(side).value, spot * pct / 100.0;
      && n >= 1 && w == step * n as real
      && (target >= step ==> -step / 2.0 <= w - target <= step / 2.0)
      && (target <= step ==> n == 1)
  {
    hide WingSteps;
    var step, target := Increment(side).value, spot * pct / 100.0;
    n := WingSteps(target, step);
    if target >= step { StepsNearTarget(target, step); }
    if target <= step { OneStepIsLeast(target, step); }
  }

  lemma OneStepIsLeast(target: real, step: real)
    requires step > 0.0 && target <= step
    ensures WingSteps(target, step) == 1
  {
    Divide(target, step, step);
    HalfEvenMonotone(target / step, 1.0);
    HalfEvenWhole(1);
    hide HalfEven;
  }

  lemma StepsNearTarget(target: real, step: real)
    requires 0.0 < step <= target
    ensures -step / 2.0 <= step * WingSteps(target, step) as real - target <= step / 2.0
  {
    AtLeastOneStep(target, step);
    Halves(step, target, HalfEven(target / step) as real);
  }

  lemma AtLeastOneStep(target: real, step: real)
    requires 0.0 < step <= target
    ensures WingSteps(target, step) == HalfEven(target / step)
  {
    Divide(step, target, step);
    HalfEvenMonotone(1.0, target / step);
    HalfEvenWhole(1);
    hide HalfEven;
  }

  lemma Halves(step: real, target: real, n: real)
    requires step > 0.0 && -0.5 <= n - target / step <= 0.5
    ensures -step / 2.0 <= step * n - target <= step / 2.0
  {
    var x := target / step;
    assert step * x == target;
    HalfOf(step, n - x);
    Expand(step, x, n - x, n);
  }

  lemma HalfOf(step: real, d: real)
    requires step > 0.0 && -0.5 <= d <= 0.5
    ensures -step / 2.0 <= step * d <= step / 2.0
  {
    Scale(-0.5, d, step);
    Scale(d, 0.5, step);
  }

  lemma Expand(step: real, x: real, d: real, n: real)
    requires n == x + d
    ensures step * n == step * x + step * d
  {
  }

  function Filter(side: seq<Quote>, keep: Quote -> bool): (r: seq<Quote>)
    ensures forall q :: q in r <==> q in side && keep(q)
  {
    if side == [] then []
    else
      assert forall q :: q in side <==> q == side[0] || q in side[1..];
      if keep(side[0]) then [side[0]] + Filter(side[1..], keep) else Filter(side[1..], keep)
  }

  function SpreadPct(bid: real, ask: real): real
    requires bid + ask > 0.0
  {
    100.0 * (ask - bid) / ((bid + ask) / 2.0)
  }

  predicate IsLiquid(q: Quote, g: Geometry) {
    q.openInterest >= g.minOpenInterest && q.Mid() > 0.0 && SpreadPct(q.bid, q.ask) <= g.maxSpreadPct
  }

  // The strikes the gate could accept, or the whole side when it could accept none.
  function LiquidSide(side: seq<Quote>, g: Geometry): (r: seq<Quote>)
    ensures r == side || forall q :: q in r <==> q in side && IsLiquid(q, g)
    ensures (exists q :: q in side && IsLiquid(q, g)) ==> forall q :: q in r ==> IsLiquid(q, g)
  {
    var liquid := Filter(side, q => IsLiquid(q, g));
    if liquid == [] then side else liquid
  }

  predicate Within(a: Option<Quote>, b: Option<Quote>, tolerance: real) {
    a.Some? && b.Some? && Abs(a.value.strike - b.value.strike) <= tolerance + SLACK
  }

  // Liquidity may move a leg by the tolerance; past it the geometrically right strike wins.
  function Pick(liquid: seq<Quote>, full: seq<Quote>, target: real, tolerance: real): (r: Option<Quote>)
    ensures r.Some? ==> r.value in liquid || r.value in full
    ensures r.None? <==> full == []
    ensures r.Some? && tolerance >= 0.0 ==> Within(r, Nearest(full, target), tolerance)
    ensures Within(Nearest(liquid, target), Nearest(full, target), tolerance) ==> r == Nearest(liquid, target)
  {
    match Nearest(full, target)
    case None => None
    case Some(geometric) =>
      match Nearest(liquid, target)
      case Some(best) => if Abs(best.strike - geometric.strike) <= tolerance + SLACK then Some(best) else Some(geometric)
      case None => Some(geometric)
  }

  // ----- the candidates a leg may be picked from

  function Below(side: seq<Quote>, k: real): seq<Quote> { Filter(side, (q: Quote) => q.strike < k) }

  function Above(side: seq<Quote>, k: real): seq<Quote> { Filter(side, (q: Quote) => q.strike > k) }

  function AtOrBelow(side: seq<Quote>, k: real): seq<Quote> { Filter(side, (q: Quote) => q.strike <= k + SLACK) }

  function AtOrAbove(side: seq<Quote>, k: real): seq<Quote> { Filter(side, (q: Quote) => q.strike >= k - SLACK) }

  // The liquid and the whole side, narrowed alike.
  datatype Sides = Sides(liquid: seq<Quote>, full: seq<Quote>)

  function SidesOf(chain: seq<Quote>, right: Right, g: Geometry): Sides {
    Sides(LiquidSide(SideOf(chain, right), g), SideOf(chain, right))
  }

  function PickAnywhere(s: Sides, target: real, tolerance: real): (r: Option<Quote>)
    ensures r.Some? ==> r.value in s.liquid || r.value in s.full
  {
    Pick(s.liquid, s.full, target, tolerance)
  }

  function PickBelow(s: Sides, k: real, target: real, tolerance: real): (r: Option<Quote>)
    ensures r.Some? ==> r.value.strike < k && (r.value in s.liquid || r.value in s.full)
  {
    Pick(Below(s.liquid, k), Below(s.full, k), target, tolerance)
  }

  function PickAbove(s: Sides, k: real, target: real, tolerance: real): (r: Option<Quote>)
    ensures r.Some? ==> r.value.strike > k && (r.value in s.liquid || r.value in s.full)
  {
    Pick(Above(s.liquid, k), Above(s.full, k), target, tolerance)
  }

  function PickAtOrBelow(s: Sides, k: real, tolerance: real): (r: Option<Quote>)
    ensures r.Some? ==> r.value.strike <= k + SLACK && (r.value in s.liquid || r.value in s.full)
  {
    Pick(AtOrBelow(s.liquid, k), AtOrBelow(s.full, k), k, tolerance)
  }

  function PickAtOrAbove(s: Sides, k: real, tolerance: real): (r: Option<Quote>)
    ensures r.Some? ==> r.value.strike >= k - SLACK && (r.value in s.liquid || r.value in s.full)
  {
    Pick(AtOrAbove(s.liquid, k), AtOrAbove(s.full, k), k, tolerance)
  }

  // ----- building

  datatype Built = Built(structure: Structure, net: real)

  function LegOf(q: Quote, side: Side): Leg { Leg(q.symbol, q.right, q.strike, q.expiry, side, 1) }

  function Finish(kind: Kind, underlying: string, legs: seq<Leg>, net: real): Option<Built> {
    if DefinedRisk(legs) then Some(Built(Structure(kind, underlying, legs), HalfEven(net * 100.0) as real / 100.0)) else None
  }

  function Move(spot: real, movePct: real, g: Geometry): real {
    spot * (if movePct >= g.minMovePct then movePct else g.minMovePct) / 100.0
  }

  // How far liquidity may move a primary leg.
  function Slide(width: real, g: Geometry): real { width * g.reach }

  // A short put at or past the move with a long put below it.
  function PutWing(puts: Sides, spot: real, move: real, width: real, g: Geometry): Option<(Quote, Quote)> {
    match PickAtOrBelow(puts, spot - move, Slide(width, g))
    case None => None
    case Some(short) =>
      match PickBelow(puts, short.strike, short.strike - width, width)
      case None => None
      case Some(long) => Some((short, long))
  }

  function CallWing(calls: Sides, spot: real, move: real, width: real, g: Geometry): Option<(Quote, Quote)> {
    match PickAtOrAbove(calls, spot + move, Slide(width, g))
    case None => None
    case Some(short) =>
      match PickAbove(calls, short.strike, short.strike + width, width)
      case None => None
      case Some(long) => Some((short, long))
  }

  // A long call at the money with a short call above it, at the move.
  function CallDebit(calls: Sides, spot: real, move: real, width: real, g: Geometry): Option<(Quote, Quote)> {
    match PickAnywhere(calls, spot, Slide(width, g))
    case None => None
    case Some(long) =>
      match PickAbove(calls, long.strike, spot + move, width)
      case None => None
      case Some(short) => Some((long, short))
  }

  function PutDebit(puts: Sides, spot: real, move: real, width: real, g: Geometry): Option<(Quote, Quote)> {
    match PickAnywhere(puts, spot, Slide(width, g))
    case None => None
    case Some(long) =>
      match PickBelow(puts, long.strike, spot - move, width)
      case None => None
      case Some(short) => Some((long, short))
  }

  function Build(kind: Kind, chain: seq<Quote>, spot: real, movePct: real, underlying: string, g: Geometry): Option<Built> {
    if spot <= 0.0 then None
    else
      var calls, puts := SidesOf(chain, Call, g), SidesOf(chain, Put, g);
      var move := Move(spot, movePct, g);
      var putWidth, callWidth := WingWidth(SideOf(chain, Put), spot, g.wingPct), WingWidth(SideOf(chain, Call), spot, g.wingPct);
      match kind
      case BullPutSpread =>
        if putWidth.None? then None
        else
          (match PutWing(puts, spot, move, putWidth.value, g)
           case None => None
           case Some((short, long)) =>
             Finish(kind, underlying, [LegOf(short, Short), LegOf(long, Long)], -(short.Mid() - long.Mid())))
      case BearCallSpread =>
        if callWidth.None? then None
        else
          (match CallWing(calls, spot, move, callWidth.value, g)
           case None => None
           case Some((short, long)) =>
             Finish(kind, underlying, [LegOf(short, Short), LegOf(long, Long)], -(short.Mid() - long.Mid())))
      case IronCondor =>
        if putWidth.None? || callWidth.None? then None
        else
          (match (PutWing(puts, spot, move, putWidth.value, g), CallWing(calls, spot, move, callWidth.value, g))
           case (Some((ps, pl)), Some((cs, cl))) =>
             Finish(kind, underlying, [LegOf(ps, Short), LegOf(pl, Long), LegOf(cs, Short), LegOf(cl, Long)],
                    -((ps.Mid() - pl.Mid()) + (cs.Mid() - cl.Mid())))
           case _ => None)
      case CallDebitSpread =>
        if callWidth.None? then None
        else
          (match CallDebit(calls, spot, move, callWidth.value, g)
           case None => None
           case Some((long, short)) =>
             Finish(kind, underlying, [LegOf(long, Long), LegOf(short, Short)], long.Mid() - short.Mid()))
      case PutDebitSpread =>
        if putWidth.None? then None
        else
          (match PutDebit(puts, spot, move, putWidth.value, g)
           case None => None
           case Some((long, short)) =>
             Finish(kind, underlying, [LegOf(long, Long), LegOf(short, Short)], long.Mid() - short.Mid()))
      case LongStrangle =>
        if callWidth.None? then None
        else
          (match (PickAbove(calls, spot, spot + move, callWidth.value), PickBelow(puts, spot, spot - move, callWidth.value))
           case (Some(c), Some(p)) =>
             Finish(kind, underlying, [LegOf(c, Long), LegOf(p, Long)], c.Mid() + p.Mid())
           case _ => None)
  }

  // ----- the shape each kind promises

  predicate PutPair(short: Leg, long: Leg) {
    short.right == Put && long.right == Put && short.side == Short && long.side == Long
    && short.ratio == 1 && long.ratio == 1
  }

  predicate CallPair(short: Leg, long: Leg) {
    short.right == Call && long.right == Call && short.side == Short && long.side == Long
    && short.ratio == 1 && long.ratio == 1
  }

  // Legs ordered as the kind requires, credit shorts at or beyond the expected move.
  ghost predicate Shaped(kind: Kind, legs: seq<Leg>, spot: real, move: real) {
    match kind
    case BullPutSpread =>
      |legs| == 2 && PutPair(legs[0], legs[1]) && legs[1].strike < legs[0].strike <= spot - move + SLACK
    case BearCallSpread =>
      |legs| == 2 && CallPair(legs[0], legs[1]) && spot + move - SLACK <= legs[0].strike < legs[1].strike
    case IronCondor =>
      |legs| == 4 && PutPair(legs[0], legs[1]) && CallPair(legs[2], legs[3])
      && legs[1].strike < legs[0].strike <= spot - move + SLACK
      && spot + move - SLACK <= legs[2].strike < legs[3].strike
    case CallDebitSpread =>
      |legs| == 2 && CallPair(legs[1], legs[0]) && legs[0].strike < legs[1].strike
    case PutDebitSpread =>
      |legs| == 2 && PutPair(legs[1], legs[0]) && legs[1].strike < legs[0].strike
    case LongStrangle =>
      |legs| == 2 && legs[0].right == Call && legs[1].right == Put && legs[0].side == legs[1].side == Long
      && legs[0].ratio == legs[1].ratio == 1 && legs[1].strike < spot < legs[0].strike
  }

  ghost predicate FromChain(legs: seq<Leg>, chain: seq<Quote>) {
    forall i :: 0 <= i < |legs| ==> LegFrom(legs[i], chain)
  }

  ghost predicate LegFrom(leg: Leg, chain: seq<Quote>) {
    exists q :: q in chain && q.Tradable() && leg == LegOf(q, leg.side)
  }

  lemma PickedFrom(chain: seq<Quote>, right: Right, g: Geometry, q: Quote, side: Side)
    requires q in SideOf(chain, right) || q in LiquidSide(SideOf(chain, right), g)
    ensures q.right == right && LegFrom(LegOf(q, side), chain)
  {
    SideIsSorted(chain, right);
  }

  lemma BuildFromChain(kind: Kind, chain: seq<Quote>, spot: real, movePct: real, underlying: string, g: Geometry)
    requires Build(kind, chain, spot, movePct, underlying, g).Some?
    ensures FromChain(Build(kind, chain, spot, movePct, underlying, g).value.structure.legs, chain)
  {
    hide SideOf, LiquidSide, Filter, DefinedRisk, HalfEven, LegFrom, Pick, PickAnywhere, PickBelow, PickAbove, PickAtOrBelow, PickAtOrAbove;
    hide WingWidth, Move;
    forall q, right, side | q in SideOf(chain, right) || q in LiquidSide(SideOf(chain, right), g)
      ensures LegFrom(LegOf(q, side), chain)
    {
      PickedFrom(chain, right, g, q, side);
    }
  }

  // Whatever chain, kind and move: a refusal, or a defined-risk structure of tradable quotes in the
  // kind's shape.
  lemma BuildKeepsShape(kind: Kind, chain: seq<Quote>, spot: real, movePct: real, underlying: string, g: Geometry)
    requires Build(kind, chain, spot, movePct, underlying, g).Some?
    ensures var s := Build(kind, chain, spot, movePct, underlying, g).value.structure;
      && s.kind == kind && s.underlying == underlying && DefinedRisk(s.legs)
      && Shaped(kind, s.legs, spot, Move(spot, movePct, g)) && FromChain(s.legs, chain)
  {
    hide SideOf, LiquidSide, Filter, DefinedRisk, HalfEven, FromChain, Pick, PickAnywhere, PickBelow, PickAbove, PickAtOrBelow, PickAtOrAbove;
    hide WingWidth;
    forall q, right | q in SideOf(chain, right) || q in LiquidSide(SideOf(chain, right), g) ensures q.right == right {
      PickedFrom(chain, right, g, q, Long);
    }
    BuildFromChain(kind, chain, spot, movePct, underlying, g);
  }

  // An option symbol names one contract.
  ghost predicate NamesContracts(chain: seq<Quote>) {
    forall a, b :: a in chain && b in chain && a.symbol == b.symbol ==> a.right == b.right && a.strike == b.strike
  }

  lemma ShapedApart(kind: Kind, legs: seq<Leg>, spot: real, move: real, i: nat, j: nat)
    requires Shaped(kind, legs, spot, move) && i < j < |legs|
    ensures legs[i].right != legs[j].right || legs[i].strike != legs[j].strike
    ensures legs[i].ratio == legs[j].ratio == 1
  {
  }

  // What is built has one leg per contract, each traded once.
  lemma BuiltIsOneEach(kind: Kind, chain: seq<Quote>, spot: real, movePct: real, underlying: string, g: Geometry)
    requires Build(kind, chain, spot, movePct, underlying, g).Some? && NamesContracts(chain)
    ensures var s := Build(kind, chain, spot, movePct, underlying, g).value.structure;
            |s.legs| >= 2 && DefinedRisk(s.legs) && OneEach(s.legs)
  {
    hide Build, Shaped, DefinedRisk, Move;
    var legs := Build(kind, chain, spot, movePct, underlying, g).value.structure.legs;
    BuildKeepsShape(kind, chain, spot, movePct, underlying, g);
    var move := Move(spot, movePct, g);
    DefinedRiskHasLegs(legs);
    forall i, j | 0 <= i < j < |legs|
      ensures legs[i].symbol != legs[j].symbol && legs[i].ratio == 1 && legs[j].ratio == 1
    {
      ShapedApart(kind, legs, spot, move, i, j);
      assert LegFrom(legs[i], chain) && LegFrom(legs[j], chain);
    }
    forall i | 0 <= i < |legs| ensures legs[i].ratio >= 1 {
      if i == 0 { assert legs[0].symbol != legs[1].symbol; } else { assert legs[0].symbol != legs[i].symbol; }
    }
  }

  lemma DefinedRiskHasLegs(legs: seq<Leg>)
    requires DefinedRisk(legs)
    ensures |legs| >= 2
  {
  }

  // ----- the worst case, exactly

  function Pnl(legs: seq<Leg>, net: real, price: real): real { 100.0 * (Payoff(legs, price) - net) }

  ghost predicate NeverWorse(legs: seq<Leg>, net: real, w: real) {
    forall price: real :: price >= 0.0 ==> Pnl(legs, net, price) >= w
  }

  ghost predicate Attained(legs: seq<Leg>, net: real, w: real) {
    exists price: real :: price >= 0.0 && Pnl(legs, net, price) == w
  }

  ghost predicate WorstIs(legs: seq<Leg>, net: real, w: real) { NeverWorse(legs, net, w) && Attained(legs, net, w) }

  lemma WorstIsUnique(legs: seq<Leg>, net: real, w: real, v: real)
    requires WorstIs(legs, net, w)
    ensures WorstIs(legs, net, v) <==> v == w
  {
    var p :| p >= 0.0 && Pnl(legs, net, p) == w;
    if WorstIs(legs, net, v) {
      var q: real :| q >= 0.0 && Pnl(legs, net, q) == v;
    }
  }

  function Gap(a: Leg, b: Leg): real { Abs(a.strike - b.strike) }

  // Per share, at expiry, for a shaped structure.
  function WorstPayoff(kind: Kind, legs: seq<Leg>): real
    requires |legs| >= (if kind.IronCondor? then 4 else 2)
  {
    match kind
    case IronCondor =>
      if Gap(legs[0], legs[1]) >= Gap(legs[2], legs[3]) then -Gap(legs[0], legs[1]) else -Gap(legs[2], legs[3])
    case BullPutSpread => -Gap(legs[0], legs[1])
    case BearCallSpread => -Gap(legs[0], legs[1])
    case _ => 0.0
  }

  lemma TwoLegs(a: Leg, b: Leg, s: real)
    requires a.ratio == 1 && b.ratio == 1
    ensures Payoff([a, b], s) ==
            (if a.side == Long then Intrinsic(a.right, a.strike, s) else -Intrinsic(a.right, a.strike, s))
            + (if b.side == Long then Intrinsic(b.right, b.strike, s) else -Intrinsic(b.right, b.strike, s))
  {
    OneLeg(a, s);
    OneLeg(b, s);
    assert [a, b][1..] == [b];
  }

  lemma OneLeg(a: Leg, s: real)
    requires a.ratio == 1
    ensures LegPayoff(a, s) == (if a.side == Long then Intrinsic(a.right, a.strike, s) else -Intrinsic(a.right, a.strike, s))
    ensures Payoff([a], s) == LegPayoff(a, s)
  {
    assert [a][1..] == [];
    assert Times(0, Intrinsic(a.right, a.strike, s)) == 0.0;
  }

  lemma FourLegs(a: Leg, b: Leg, c: Leg, d: Leg, s: real)
    ensures Payoff([a, b, c, d], s) == Payoff([a, b], s) + Payoff([c, d], s)
  {
    assert [a, b, c, d][1..] == [b, c, d] && [b, c, d][1..] == [c, d] && [a, b][1..] == [b] && [b][1..] == [];
    assert Payoff([a, b, c, d], s) == LegPayoff(a, s) + (LegPayoff(b, s) + Payoff([c, d], s));
    assert Payoff([a, b], s) == LegPayoff(a, s) + (LegPayoff(b, s) + Payoff([], s));
  }

  // A short put with a long put below: between -gap and nothing, the whole gap at or under the long strike.
  lemma PutPairPayoff(short: Leg, long: Leg, s: real)
    requires PutPair(short, long) && long.strike < short.strike
    ensures -Gap(short, long) <= Payoff([short, long], s) <= 0.0
    ensures s <= long.strike ==> Payoff([short, long], s) == -Gap(short, long)
    ensures s >= short.strike ==> Payoff([short, long], s) == 0.0
  {
    TwoLegs(short, long, s);
  }

  lemma CallPairPayoff(short: Leg, long: Leg, s: real)
    requires CallPair(short, long) && short.strike < long.strike
    ensures -Gap(short, long) <= Payoff([short, long], s) <= 0.0
    ensures s >= long.strike ==> Payoff([short, long], s) == -Gap(short, long)
    ensures s <= short.strike ==> Payoff([short, long], s) == 0.0
  {
    TwoLegs(short, long, s);
  }

  ghost predicate PayoffWorstIs(legs: seq<Leg>, w: real) {
    && (forall s: real :: s >= 0.0 ==> Payoff(legs, s) >= w)
    && (exists s: real :: s >= 0.0 && Payoff(legs, s) == w)
  }

  ghost predicate NonNegative(legs: seq<Leg>) { forall i :: 0 <= i < |legs| ==> legs[i].strike >= 0.0 }

  lemma PairWorst(kind: Kind, legs: seq<Leg>, spot: real, move: real)
    requires Shaped(kind, legs, spot, move) && NonNegative(legs) && spot >= 0.0 && !kind.IronCondor?
    ensures PayoffWorstIs(legs, WorstPayoff(kind, legs))
  {
    var a, b := legs[0], legs[1];
    assert legs == [a, b];
    var w := WorstPayoff(kind, legs);
    forall s: real | s >= 0.0 ensures Payoff(legs, s) >= w {
      TwoLegs(a, b, s);
    }
    // Where the loss is worst: at or past the strike furthest from profit.
    var at := match kind
      case BullPutSpread => b.strike
      case BearCallSpread => b.strike
      case CallDebitSpread => a.strike
      case PutDebitSpread => a.strike
      case _ => spot;
    TwoLegs(a, b, at);
    assert Payoff(legs, at) == w;
  }

  lemma CondorWorst(legs: seq<Leg>, spot: real, move: real)
    requires Shaped(IronCondor, legs, spot, move) && NonNegative(legs) && move >= SLACK
    ensures PayoffWorstIs(legs, WorstPayoff(IronCondor, legs))
  {
    var a, b, c, d := legs[0], legs[1], legs[2], legs[3];
    assert legs == [a, b, c, d];
    var w := WorstPayoff(IronCondor, legs);
    forall s: real | s >= 0.0 ensures Payoff(legs, s) >= w {
      FourLegs(a, b, c, d, s);
      PutPairPayoff(a, b, s);
      CallPairPayoff(c, d, s);
    }
    var at := if Gap(a, b) >= Gap(c, d) then b.strike else d.strike;
    FourLegs(a, b, c, d, at);
    PutPairPayoff(a, b, at);
    CallPairPayoff(c, d, at);
    assert Payoff(legs, at) == w;
  }

  lemma PnlWorst(legs: seq<Leg>, net: real, w: real)
    requires PayoffWorstIs(legs, w)
    ensures WorstIs(legs, net, 100.0 * (w - net))
  {
    var s: real :| s >= 0.0 && Payoff(legs, s) == w;
    assert Pnl(legs, net, s) == 100.0 * (w - net);
  }

  // The width `MaxLossPerSpread` budgets with is the payoff's worst case for a credit.
  lemma WidthOfPair(kind: Kind, legs: seq<Leg>, spot: real, move: real)
    requires (kind.BullPutSpread? || kind.BearCallSpread?) && Shaped(kind, legs, spot, move)
    ensures Width(legs) == Some(-WorstPayoff(kind, legs))
  {
    var a, b := legs[0], legs[1];
    assert legs == [a, b];
    PairStrikes(a, b);
    assert Strikes([], a.right) == [];
  }

  lemma PairStrikes(a: Leg, b: Leg)
    requires a.right == b.right
    ensures Strikes([a, b], a.right) == [a.strike, b.strike]
    ensures Strikes([a, b], if a.right == Call then Put else Call) == []
    ensures Highest([a.strike, b.strike]) - Lowest([a.strike, b.strike]) == Gap(a, b)
  {
    var other := if a.right == Call then Put else Call;
    assert [a, b][1..] == [b] && [b][1..] == [];
    assert Strikes([b], a.right) == [b.strike] + Strikes([], a.right);
    assert Strikes([b], other) == Strikes([], other);
    assert [a.strike, b.strike][1..] == [b.strike];
  }

  lemma {:induction false} StrikesConcat(x: seq<Leg>, y: seq<Leg>, right: Right)
    ensures Strikes(x + y, right) == Strikes(x, right) + Strikes(y, right)
    decreases x
  {
    if x == [] {
      assert x + y == y;
    } else {
      assert (x + y)[1..] == x[1..] + y;
      StrikesConcat(x[1..], y, right);
    }
  }

  lemma CondorStrikes(a: Leg, b: Leg, c: Leg, d: Leg)
    requires PutPair(a, b) && CallPair(c, d)
    ensures Strikes([a, b] + [c, d], Put) == [a.strike, b.strike]
    ensures Strikes([a, b] + [c, d], Call) == [c.strike, d.strike]
  {
    hide Strikes, Highest, Lowest;
    StrikesConcat([a, b], [c, d], Call);
    StrikesConcat([a, b], [c, d], Put);
    PairStrikes(a, b);
    PairStrikes(c, d);
  }

  lemma WidthOfCondor(legs: seq<Leg>, spot: real, move: real)
    requires Shaped(IronCondor, legs, spot, move)
    ensures Width(legs) == Some(-WorstPayoff(IronCondor, legs))
  {
    hide Strikes, Highest, Lowest, PutPair, CallPair;
    var a, b, c, d := legs[0], legs[1], legs[2], legs[3];
    assert legs == [a, b] + [c, d];
    CondorStrikes(a, b, c, d);
    GapIsSpan(a, b);
    GapIsSpan(c, d);
    WidestOf(Gap(c, d), Gap(a, b));
  }

  lemma GapIsSpan(a: Leg, b: Leg)
    ensures Highest([a.strike, b.strike]) - Lowest([a.strike, b.strike]) == Gap(a, b)
  {
    assert [a.strike, b.strike][1..] == [b.strike];
  }

  lemma WidestOf(x: real, y: real)
    ensures Highest([x] + [y]) == if x > y then x else y
  {
    assert ([x] + [y])[1..] == [y];
  }

  // For whatever the chain yields, the budgeted maximum loss is the exact worst P&L over all
  // terminal prices precisely when the net price carries its kind's sign; a credit kind priced
  // as a debit can lose more than its budget.
  lemma MaxLossIsExact(kind: Kind, chain: seq<Quote>, spot: real, movePct: real, underlying: string, g: Geometry, net: real)
    requires Build(kind, chain, spot, movePct, underlying, g).Some?
    requires forall q :: q in chain ==> q.strike >= 0.0
    requires kind.IronCondor? ==> Move(spot, movePct, g) >= SLACK
    requires MaxLossPerSpread(Build(kind, chain, spot, movePct, underlying, g).value.structure, net).Dollars?
    ensures var s := Build(kind, chain, spot, movePct, underlying, g).value.structure;
      var d := MaxLossPerSpread(s, net).amount;
      && (WorstIs(s.legs, net, -d) <==> if s.IsCredit() then net <= 0.0 else net > 0.0)
      && (s.IsCredit() && net > 0.0 ==> !NeverWorse(s.legs, net, -d))
  {
    hide Build, Shaped, PayoffWorstIs, DefinedRisk, RiskOf, Width, WorstIs, NeverWorse, Move, FromChain;
    var move := Move(spot, movePct, g);
    var s := Build(kind, chain, spot, movePct, underlying, g).value.structure;
    BuildKeepsShape(kind, chain, spot, movePct, underlying, g);
    ShapeSize(kind, s.legs, spot, move);
    ChainStrikes(s.legs, chain);
    BuildNeedsSpot(kind, chain, spot, movePct, underlying, g);
    var w := WorstPayoff(kind, s.legs);
    if kind.IronCondor? {
      CondorWorst(s.legs, spot, move);
      WidthOfCondor(s.legs, spot, move);
    } else {
      PairWorst(kind, s.legs, spot, move);
      if s.IsCredit() { WidthOfPair(kind, s.legs, spot, move); }
    }
    PnlWorst(s.legs, net, w);
    LossFormula(s, net, w);
    var d := MaxLossPerSpread(s, net).amount;
    WorstIsUnique(s.legs, net, 100.0 * (w - net), -d);
    if s.IsCredit() && net > 0.0 { WorstBelow(s.legs, net, 100.0 * (w - net), -d); }
  }

  lemma ShapeSize(kind: Kind, legs: seq<Leg>, spot: real, move: real)
    requires Shaped(kind, legs, spot, move)
    ensures |legs| >= if kind.IronCondor? then 4 else 2
  {
  }

  lemma BuildNeedsSpot(kind: Kind, chain: seq<Quote>, spot: real, movePct: real, underlying: string, g: Geometry)
    requires Build(kind, chain, spot, movePct, underlying, g).Some?
    ensures spot > 0.0
  {
    hide SideOf, LiquidSide, WingWidth, Finish, PutWing, CallWing, Pick, PickAbove, PickBelow, Move;
  }

  lemma ChainStrikes(legs: seq<Leg>, chain: seq<Quote>)
    requires FromChain(legs, chain) && forall q :: q in chain ==> q.strike >= 0.0
    ensures NonNegative(legs)
  {
    forall i | 0 <= i < |legs| ensures legs[i].strike >= 0.0 {
      assert LegFrom(legs[i], chain);
    }
  }

  lemma LossFormula(s: Structure, net: real, w: real)
    requires MaxLossPerSpread(s, net).Dollars?
    requires if s.IsCredit() then Width(s.legs) == Some(-w) else w == 0.0
    ensures MaxLossPerSpread(s, net).amount == if s.IsCredit() then (-w - Abs(net)) * 100.0 else Abs(net) * 100.0
    ensures !s.IsCredit() ==> net != 0.0
  {
    hide RiskOf, Width;
  }

  lemma WorstBelow(legs: seq<Leg>, net: real, w: real, v: real)
    requires WorstIs(legs, net, w) && w < v
    ensures !NeverWorse(legs, net, v)
  {
    var p: real :| p >= 0.0 && Pnl(legs, net, p) == w;
  }
}
