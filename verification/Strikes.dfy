/**
 Where `build_structure` puts its legs, what it charges for them, and when it refuses: stated of
 the chain's own quotes.
 */
module Strikes {
  import opened Arithmetic
  import opened Wrappers
  import opened Structures
  import opened Chain

  // ----- the quotes a leg may come from

  datatype Range = Anywhere | AtMost(k: real) | AtLeast(k: real) | Under(k: real) | Over(k: real)

  predicate Admits(range: Range, strike: real) {
    match range
    case Anywhere => true
    case AtMost(k) => strike <= k + 0.000000001
    case AtLeast(k) => strike >= k - 0.000000001
    case Under(k) => strike < k
    case Over(k) => strike > k
  }

  ghost predicate Offered(chain: seq<Quote>, right: Right, q: Quote) {
    q in chain && q.right == right && q.bid > 0.0 && q.ask > q.bid
  }

  ghost predicate Candidate(chain: seq<Quote>, right: Right, range: Range, q: Quote) {
    Offered(chain, right, q) && Admits(range, q.strike)
  }

  // A spread of at most this share of the mid.
  ghost predicate Narrow(bid: real, ask: real, pct: real) { 200.0 * (ask - bid) <= pct * (bid + ask) }

  // Enough contracts open, and a spread of at most the share of mid the gate accepts.
  ghost predicate Tight(q: Quote, g: Geometry) {
    q.openInterest >= g.minOpenInterest && Narrow(q.bid, q.ask, g.maxSpreadPct)
  }

  // Liquid enough for the gate, or on a side where no contract is.
  ghost predicate Preferred(chain: seq<Quote>, right: Right, g: Geometry, q: Quote) {
    Tight(q, g) || forall c :: Offered(chain, right, c) ==> !Tight(c, g)
  }

  lemma LiquidIsTight(q: Quote, g: Geometry)
    requires q.bid > 0.0 && q.ask > q.bid
    ensures IsLiquid(q, g) <==> Tight(q, g)
  {
    hide SpreadPct, Narrow;
    NarrowIs(q.bid, q.ask, g.maxSpreadPct);
  }

  lemma NarrowIs(bid: real, ask: real, pct: real)
    requires 0.0 < bid < ask
    ensures SpreadPct(bid, ask) <= pct <==> Narrow(bid, ask, pct)
  {
    var mid := (bid + ask) / 2.0;
    var x := SpreadPct(bid, ask);
    assert x * mid == 100.0 * (ask - bid);
    if x <= pct { Scale(x, pct, mid); } else { ScaleStrict(pct, x, mid); }
    assert pct * (bid + ask) == pct * mid * 2.0;
  }

  ghost predicate Closest(chain: seq<Quote>, right: Right, range: Range, target: real, q: Quote) {
    && Candidate(chain, right, range, q)
    && forall c :: Candidate(chain, right, range, c) ==> Abs(q.strike - target) <= Abs(c.strike - target)
  }

  ghost predicate ClosestPreferred(chain: seq<Quote>, right: Right, g: Geometry, range: Range, target: real, q: Quote) {
    && Candidate(chain, right, range, q) && Preferred(chain, right, g, q)
    && forall c :: Candidate(chain, right, range, c) && Preferred(chain, right, g, c) ==> Abs(q.strike - target) <= Abs(c.strike - target)
  }

  predicate Near(a: Quote, b: Quote, tolerance: real) { Abs(a.strike - b.strike) <= tolerance + 0.000000001 }

  // A closest preferred quote if it is near the closest of all; else that one.
  ghost predicate Picked(chain: seq<Quote>, right: Right, g: Geometry, range: Range, target: real, tolerance: real, q: Quote) {
    exists n :: Closest(chain, right, range, target, n)
      && ((ClosestPreferred(chain, right, g, range, target, q) && Near(q, n, tolerance))
          || (q == n && NoneNear(chain, right, g, range, target, tolerance, n)))
  }

  // No preferred quote is in range, or a closest one of them is too far from the closest of all.
  ghost predicate NoneNear(chain: seq<Quote>, right: Right, g: Geometry, range: Range, target: real, tolerance: real, n: Quote) {
    || (forall c :: Candidate(chain, right, range, c) ==> !Preferred(chain, right, g, c))
    || exists b :: ClosestPreferred(chain, right, g, range, target, b) && !Near(b, n, tolerance)
  }

  ghost predicate Barren(chain: seq<Quote>, right: Right, range: Range) {
    forall c :: !Candidate(chain, right, range, c)
  }

  function Narrowed(side: seq<Quote>, range: Range): seq<Quote> {
    match range
    case Anywhere => side
    case AtMost(k) => AtOrBelow(side, k)
    case AtLeast(k) => AtOrAbove(side, k)
    case Under(k) => Below(side, k)
    case Over(k) => Above(side, k)
  }

  lemma NarrowedHas(side: seq<Quote>, range: Range, q: Quote)
    ensures q in Narrowed(side, range) <==> q in side && Admits(range, q.strike)
  {
    hide Filter;
  }

  lemma FullHas(chain: seq<Quote>, right: Right, range: Range, q: Quote)
    ensures q in Narrowed(SideOf(chain, right), range) <==> Candidate(chain, right, range, q)
  {
    hide SideOf, Narrowed;
    SideIsSorted(chain, right);
    NarrowedHas(SideOf(chain, right), range, q);
  }

  lemma LiquidHas(chain: seq<Quote>, right: Right, g: Geometry, range: Range, q: Quote)
    ensures q in Narrowed(LiquidSide(SideOf(chain, right), g), range)
            <==> Candidate(chain, right, range, q) && Preferred(chain, right, g, q)
  {
    hide SideOf, Narrowed, Filter, IsLiquid, Tight;
    var side := SideOf(chain, right);
    forall c | Offered(chain, right, c) ensures IsLiquid(c, g) <==> Tight(c, g) { LiquidIsTight(c, g); }
    SideIsSorted(chain, right);
    NarrowedHas(LiquidSide(side, g), range, q);
    var liquid := Filter(side, q => IsLiquid(q, g));
    if liquid != [] { assert liquid[0] in liquid; }
  }

  // A nearest quote of a list is a closest among what the list holds.
  lemma {:induction false} NearestIsClosest(side: seq<Quote>, target: real)
    ensures var r := Nearest(side, target);
      && (r.None? ==> forall q :: q !in side)
      && (r.Some? ==> r.value in side && forall c :: c in side ==> Off(r.value, target) <= Off(c, target))
    decreases |side|
  {
    hide Off, IsNearest;
    if side != [] {
      NearestIsClosest(side[1..], target);
      assert forall c :: c in side <==> c == side[0] || c in side[1..];
    }
  }

  lemma NearestFull(chain: seq<Quote>, right: Right, range: Range, target: real)
    ensures var n := Nearest(Narrowed(SideOf(chain, right), range), target);
      && (n.None? <==> Barren(chain, right, range))
      && (n.Some? ==> Closest(chain, right, range, target, n.value))
  {
    hide SideOf, Narrowed, Nearest, Candidate;
    var full := Narrowed(SideOf(chain, right), range);
    forall q ensures q in full <==> Candidate(chain, right, range, q) { FullHas(chain, right, range, q); }
    NearestIsClosest(full, target);
  }

  lemma NearestLiquid(chain: seq<Quote>, right: Right, g: Geometry, range: Range, target: real)
    ensures var b := Nearest(Narrowed(LiquidSide(SideOf(chain, right), g), range), target);
      && (b.None? ==> forall c :: Candidate(chain, right, range, c) ==> !Preferred(chain, right, g, c))
      && (b.Some? ==> ClosestPreferred(chain, right, g, range, target, b.value))
  {
    hide SideOf, LiquidSide, Narrowed, Nearest, Candidate, Preferred;
    var liquid := Narrowed(LiquidSide(SideOf(chain, right), g), range);
    forall q ensures q in liquid <==> Candidate(chain, right, range, q) && Preferred(chain, right, g, q) {
      LiquidHas(chain, right, g, range, q);
    }
    NearestIsClosest(liquid, target);
  }

  // What `_pick` returns, of the chain's own quotes: nothing only when none is in range.
  lemma PickIs(chain: seq<Quote>, right: Right, g: Geometry, range: Range, target: real, tolerance: real)
    ensures var r := Pick(Narrowed(LiquidSide(SideOf(chain, right), g), range), Narrowed(SideOf(chain, right), range), target, tolerance);
      && (r.None? <==> Barren(chain, right, range))
      && (r.Some? ==> Picked(chain, right, g, range, target, tolerance, r.value))
  {
    hide SideOf, LiquidSide, Narrowed, Nearest, Candidate, Preferred, Closest, ClosestPreferred, Barren;
    NearestFull(chain, right, range, target);
    NearestLiquid(chain, right, g, range, target);
  }

  // ----- the wings

  // A primary leg may move so far for liquidity, in the widths the geometry allows.
  ghost predicate Slides(width: real, g: Geometry, slide: real) { slide == width * g.reach }

  // A short put at most at k and as near it as liquidity lets it be, a long put a width below it.
  ghost predicate PutsAt(chain: seq<Quote>, g: Geometry, k: real, width: real, short: Quote, long: Quote) {
    && (exists slide :: Slides(width, g, slide) && Picked(chain, Put, g, AtMost(k), k, slide, short))
    && Picked(chain, Put, g, Under(short.strike), short.strike - width, width, long)
  }

  ghost predicate CallsAt(chain: seq<Quote>, g: Geometry, k: real, width: real, short: Quote, long: Quote) {
    && (exists slide :: Slides(width, g, slide) && Picked(chain, Call, g, AtLeast(k), k, slide, short))
    && Picked(chain, Call, g, Over(short.strike), short.strike + width, width, long)
  }

  // A debit buys at the money.
  ghost predicate BoughtAt(chain: seq<Quote>, right: Right, g: Geometry, spot: real, width: real, long: Quote) {
    exists slide :: Slides(width, g, slide) && Picked(chain, right, g, Anywhere, spot, slide, long)
  }

  ghost predicate NoPuts(chain: seq<Quote>, g: Geometry, k: real, width: real) {
    || Barren(chain, Put, AtMost(k))
    || exists s, slide :: Slides(width, g, slide) && Picked(chain, Put, g, AtMost(k), k, slide, s) && Barren(chain, Put, Under(s.strike))
  }

  ghost predicate NoCalls(chain: seq<Quote>, g: Geometry, k: real, width: real) {
    || Barren(chain, Call, AtLeast(k))
    || exists s, slide :: Slides(width, g, slide) && Picked(chain, Call, g, AtLeast(k), k, slide, s) && Barren(chain, Call, Over(s.strike))
  }

  lemma SlideIs(width: real, g: Geometry)
    ensures Slides(width, g, Slide(width, g))
  {
  }

  lemma ShortPutIs(chain: seq<Quote>, k: real, tolerance: real, g: Geometry)
    ensures var r := PickAtOrBelow(SidesOf(chain, Put, g), k, tolerance);
      && (r.None? <==> Barren(chain, Put, AtMost(k)))
      && (r.Some? ==> Picked(chain, Put, g, AtMost(k), k, tolerance, r.value))
  {
    hide SideOf, LiquidSide, AtOrBelow, Pick, Picked, Barren;
    PickIs(chain, Put, g, AtMost(k), k, tolerance);
  }

  lemma ShortCallIs(chain: seq<Quote>, k: real, tolerance: real, g: Geometry)
    ensures var r := PickAtOrAbove(SidesOf(chain, Call, g), k, tolerance);
      && (r.None? <==> Barren(chain, Call, AtLeast(k)))
      && (r.Some? ==> Picked(chain, Call, g, AtLeast(k), k, tolerance, r.value))
  {
    hide SideOf, LiquidSide, AtOrAbove, Pick, Picked, Barren;
    PickIs(chain, Call, g, AtLeast(k), k, tolerance);
  }

  lemma BelowIs(chain: seq<Quote>, right: Right, k: real, target: real, tolerance: real, g: Geometry)
    ensures var r := PickBelow(SidesOf(chain, right, g), k, target, tolerance);
      && (r.None? <==> Barren(chain, right, Under(k)))
      && (r.Some? ==> Picked(chain, right, g, Under(k), target, tolerance, r.value))
  {
    hide SideOf, LiquidSide, Below, Pick, Picked, Barren;
    PickIs(chain, right, g, Under(k), target, tolerance);
  }

  lemma AboveIs(chain: seq<Quote>, right: Right, k: real, target: real, tolerance: real, g: Geometry)
    ensures var r := PickAbove(SidesOf(chain, right, g), k, target, tolerance);
      && (r.None? <==> Barren(chain, right, Over(k)))
      && (r.Some? ==> Picked(chain, right, g, Over(k), target, tolerance, r.value))
  {
    hide SideOf, LiquidSide, Above, Pick, Picked, Barren;
    PickIs(chain, right, g, Over(k), target, tolerance);
  }

  lemma PutWingNone(s: Sides, spot: real, move: real, width: real, g: Geometry)
    ensures var short := PickAtOrBelow(s, spot - move, Slide(width, g));
      PutWing(s, spot, move, width, g).None? <==>
        short.None? || PickBelow(s, short.value.strike, short.value.strike - width, width).None?
  {
    hide PickBelow, PickAtOrBelow, Slide;
  }

  lemma PutWingSome(s: Sides, spot: real, move: real, width: real, g: Geometry, short: Quote, long: Quote)
    requires PickAtOrBelow(s, spot - move, Slide(width, g)) == Some(short)
    requires PickBelow(s, short.strike, short.strike - width, width) == Some(long)
    ensures PutWing(s, spot, move, width, g) == Some((short, long))
  {
    hide PickBelow, PickAtOrBelow, Slide;
  }

  lemma CallWingNone(s: Sides, spot: real, move: real, width: real, g: Geometry)
    ensures var short := PickAtOrAbove(s, spot + move, Slide(width, g));
      CallWing(s, spot, move, width, g).None? <==>
        short.None? || PickAbove(s, short.value.strike, short.value.strike + width, width).None?
  {
    hide PickAbove, PickAtOrAbove, Slide;
  }

  lemma CallWingSome(s: Sides, spot: real, move: real, width: real, g: Geometry, short: Quote, long: Quote)
    requires PickAtOrAbove(s, spot + move, Slide(width, g)) == Some(short)
    requires PickAbove(s, short.strike, short.strike + width, width) == Some(long)
    ensures CallWing(s, spot, move, width, g) == Some((short, long))
  {
    hide PickAbove, PickAtOrAbove, Slide;
  }

  lemma PutWingIs(chain: seq<Quote>, spot: real, move: real, width: real, g: Geometry)
    ensures var r := PutWing(SidesOf(chain, Put, g), spot, move, width, g);
      && (r.None? ==> NoPuts(chain, g, spot - move, width))
      && (r.Some? ==> PutsAt(chain, g, spot - move, width, r.value.0, r.value.1))
  {
    hide SidesOf, PutWing, PickAtOrBelow, PickBelow, Picked, Barren, Slide, Slides;
    var s := SidesOf(chain, Put, g);
    SlideIs(width, g);
    PutWingNone(s, spot, move, width, g);
    ShortPutIs(chain, spot - move, Slide(width, g), g);
    var first := PickAtOrBelow(s, spot - move, Slide(width, g));
    if first.Some? {
      var short := first.value;
      BelowIs(chain, Put, short.strike, short.strike - width, width, g);
      var next := PickBelow(s, short.strike, short.strike - width, width);
      if next.Some? { PutWingSome(s, spot, move, width, g, short, next.value); }
    }
  }

  lemma CallWingIs(chain: seq<Quote>, spot: real, move: real, width: real, g: Geometry)
    ensures var r := CallWing(SidesOf(chain, Call, g), spot, move, width, g);
      && (r.None? ==> NoCalls(chain, g, spot + move, width))
      && (r.Some? ==> CallsAt(chain, g, spot + move, width, r.value.0, r.value.1))
  {
    hide SidesOf, CallWing, PickAtOrAbove, PickAbove, Picked, Barren, Slide, Slides;
    var s := SidesOf(chain, Call, g);
    SlideIs(width, g);
    CallWingNone(s, spot, move, width, g);
    ShortCallIs(chain, spot + move, Slide(width, g), g);
    var first := PickAtOrAbove(s, spot + move, Slide(width, g));
    if first.Some? {
      var short := first.value;
      AboveIs(chain, Call, short.strike, short.strike + width, width, g);
      var next := PickAbove(s, short.strike, short.strike + width, width);
      if next.Some? { CallWingSome(s, spot, move, width, g, short, next.value); }
    }
  }

  // ----- the legs of each kind

  // How far price is expected to reach, floored.
  ghost predicate Reaches(move: real, spot: real, movePct: real, g: Geometry) {
    move * 100.0 == spot * (if movePct >= g.minMovePct then movePct else g.minMovePct)
  }

  // The strikes of each kind's legs: a credit sells at or beyond the reach and buys a width further out; a
  // debit buys at the money and sells at the reach, within a width; a strangle buys both reaches.
  ghost predicate Placed(kind: Kind, chain: seq<Quote>, spot: real, move: real, g: Geometry, qs: seq<Quote>) {
    var puts, calls := WingWidth(SideOf(chain, Put), spot, g.wingPct), WingWidth(SideOf(chain, Call), spot, g.wingPct);
    match kind
    case BullPutSpread =>
      |qs| == 2 && puts.Some? && PutsAt(chain, g, spot - move, puts.value, qs[0], qs[1])
    case BearCallSpread =>
      |qs| == 2 && calls.Some? && CallsAt(chain, g, spot + move, calls.value, qs[0], qs[1])
    case IronCondor =>
      && |qs| == 4 && puts.Some? && calls.Some?
      && PutsAt(chain, g, spot - move, puts.value, qs[0], qs[1])
      && CallsAt(chain, g, spot + move, calls.value, qs[2], qs[3])
    case CallDebitSpread =>
      && |qs| == 2 && calls.Some?
      && BoughtAt(chain, Call, g, spot, calls.value, qs[0])
      && Picked(chain, Call, g, Over(qs[0].strike), spot + move, calls.value, qs[1])
    case PutDebitSpread =>
      && |qs| == 2 && puts.Some?
      && BoughtAt(chain, Put, g, spot, puts.value, qs[0])
      && Picked(chain, Put, g, Under(qs[0].strike), spot - move, puts.value, qs[1])
    case LongStrangle =>
      && |qs| == 2 && calls.Some?
      && Picked(chain, Call, g, Over(spot), spot + move, calls.value, qs[0])
      && Picked(chain, Put, g, Under(spot), spot - move, calls.value, qs[1])
  }

  // The sides each kind's legs are on, first leg first.
  function LegSides(kind: Kind): seq<Side> {
    match kind
    case BullPutSpread => [Short, Long]
    case BearCallSpread => [Short, Long]
    case IronCondor => [Short, Long, Short, Long]
    case CallDebitSpread => [Long, Short]
    case PutDebitSpread => [Long, Short]
    case LongStrangle => [Long, Long]
  }

  // Each leg is one contract of its quote.
  ghost predicate QuotedBy(legs: seq<Leg>, sides: seq<Side>, qs: seq<Quote>) {
    |legs| == |qs| == |sides| && forall i :: 0 <= i < |legs| ==>
      && legs[i].side == sides[i] && legs[i].symbol == qs[i].symbol && legs[i].right == qs[i].right && legs[i].strike == qs[i].strike
      && legs[i].expiry == qs[i].expiry && legs[i].ratio == 1
  }

  // What the legs cost at mid, per share: what is bought less what is sold.
  function Cost(legs: seq<Leg>, qs: seq<Quote>): real
    requires |legs| == |qs|
  {
    if legs == [] then 0.0
    else
      var mid := (qs[0].bid + qs[0].ask) / 2.0;
      (if legs[0].side.Long? then mid else -mid) + Cost(legs[1..], qs[1..])
  }

  // Whole cents, within half a cent of the cost.
  ghost predicate ToTheCent(net: real, cost: real) {
    net * 100.0 == (net * 100.0).Floor as real && -0.005 <= net - cost <= 0.005
  }

  lemma RoundedCents(x: real)
    ensures ToTheCent(HalfEven(x * 100.0) as real / 100.0, x)
  {
    CentsClose(x, HalfEven(x * 100.0));
  }

  lemma CentsClose(x: real, n: int)
    requires -0.5 <= n as real - x * 100.0 <= 0.5
    ensures ToTheCent(n as real / 100.0, x)
  {
    CentsAreWhole(n);
  }

  lemma CentsAreWhole(n: int)
    ensures var net := n as real / 100.0; net * 100.0 == n as real && net * 100.0 == (net * 100.0).Floor as real
  {
    var net := n as real / 100.0;
    assert net * 100.0 == n as real;
    assert (net * 100.0).Floor == n;
  }

  lemma CostOfTwo(a: Leg, b: Leg, p: Quote, q: Quote)
    ensures Cost([a, b], [p, q]) == (if a.side.Long? then p.Mid() else -p.Mid()) + (if b.side.Long? then q.Mid() else -q.Mid())
  {
    assert [a, b][1..] == [b] && [b][1..] == [] && [p, q][1..] == [q] && [q][1..] == [];
    assert Cost([], []) == 0.0;
  }

  lemma CostSplits(a: Leg, p: Quote, legs: seq<Leg>, qs: seq<Quote>)
    requires |legs| == |qs|
    ensures Cost([a] + legs, [p] + qs) == Cost([a], [p]) + Cost(legs, qs)
  {
    assert ([a] + legs)[1..] == legs && ([p] + qs)[1..] == qs && [a][1..] == [] && [p][1..] == [];
  }

  lemma CostOfFour(a: Leg, b: Leg, c: Leg, d: Leg, p: Quote, q: Quote, r: Quote, s: Quote)
    ensures Cost([a, b, c, d], [p, q, r, s]) == Cost([a, b], [p, q]) + Cost([c, d], [r, s])
  {
    assert Cost([a, b, c, d], [p, q, r, s]) == Cost([a], [p]) + Cost([b, c, d], [q, r, s]) by { CostSplits(a, p, [b, c, d], [q, r, s]); assert [a] + [b, c, d] == [a, b, c, d] && [p] + [q, r, s] == [p, q, r, s]; }
    assert Cost([b, c, d], [q, r, s]) == Cost([b], [q]) + Cost([c, d], [r, s]) by { CostSplits(b, q, [c, d], [r, s]); assert [b] + [c, d] == [b, c, d] && [q] + [r, s] == [q, r, s]; }
    assert Cost([a, b], [p, q]) == Cost([a], [p]) + Cost([b], [q]) by { CostSplits(a, p, [b], [q]); assert [a] + [b] == [a, b] && [p] + [q] == [p, q]; }
  }

  // ----- building, kind by kind

  function Leg2(kind: Kind, a: Quote, b: Quote): seq<Leg>
    requires !kind.IronCondor?
  {
    [LegOf(a, LegSides(kind)[0]), LegOf(b, LegSides(kind)[1])]
  }

  function Leg4(a: Quote, b: Quote, c: Quote, d: Quote): seq<Leg> {
    [LegOf(a, Short), LegOf(b, Long), LegOf(c, Short), LegOf(d, Long)]
  }

  // A structure of two quotes: defined risk, quoted, and priced at its cost.
  lemma FinishTwo(kind: Kind, underlying: string, a: Quote, b: Quote, net: real)
    requires !kind.IronCondor?
    requires net == (if LegSides(kind)[0].Long? then a.Mid() else -a.Mid()) + (if LegSides(kind)[1].Long? then b.Mid() else -b.Mid())
    ensures var r := Finish(kind, underlying, Leg2(kind, a, b), net);
      r.Some? ==> && r.value.structure == Structure(kind, underlying, Leg2(kind, a, b))
                  && QuotedBy(r.value.structure.legs, LegSides(kind), [a, b])
                  && ToTheCent(r.value.net, Cost(r.value.structure.legs, [a, b]))
  {
    hide DefinedRisk, HalfEven, Cost, ToTheCent;
    var legs := Leg2(kind, a, b);
    CostOfTwo(legs[0], legs[1], a, b);
    RoundedCents(net);
  }

  lemma FinishFour(underlying: string, a: Quote, b: Quote, c: Quote, d: Quote, net: real)
    requires net == -((a.Mid() - b.Mid()) + (c.Mid() - d.Mid()))
    ensures var r := Finish(IronCondor, underlying, Leg4(a, b, c, d), net);
      r.Some? ==> && r.value.structure == Structure(IronCondor, underlying, Leg4(a, b, c, d))
                  && QuotedBy(r.value.structure.legs, LegSides(IronCondor), [a, b, c, d])
                  && ToTheCent(r.value.net, Cost(r.value.structure.legs, [a, b, c, d]))
  {
    hide DefinedRisk, HalfEven, Cost, ToTheCent;
    var legs := Leg4(a, b, c, d);
    CostOfFour(legs[0], legs[1], legs[2], legs[3], a, b, c, d);
    CostOfTwo(legs[0], legs[1], a, b);
    CostOfTwo(legs[2], legs[3], c, d);
    RoundedCents(net);
  }

  // Why a chain cannot express the kind at all.
  ghost predicate Inexpressible(kind: Kind, chain: seq<Quote>, spot: real, move: real, g: Geometry) {
    var puts, calls := WingWidth(SideOf(chain, Put), spot, g.wingPct), WingWidth(SideOf(chain, Call), spot, g.wingPct);
    match kind
    case BullPutSpread => puts.None? || NoPuts(chain, g, spot - move, puts.value)
    case BearCallSpread => calls.None? || NoCalls(chain, g, spot + move, calls.value)
    case IronCondor =>
      || puts.None? || calls.None?
      || NoPuts(chain, g, spot - move, puts.value) || NoCalls(chain, g, spot + move, calls.value)
    case CallDebitSpread =>
      || calls.None?
      || exists l :: BoughtAt(chain, Call, g, spot, calls.value, l) && Barren(chain, Call, Over(l.strike))
    case PutDebitSpread =>
      || puts.None?
      || exists l :: BoughtAt(chain, Put, g, spot, puts.value, l) && Barren(chain, Put, Under(l.strike))
    case LongStrangle => calls.None? || Barren(chain, Call, Over(spot)) || Barren(chain, Put, Under(spot))
  }

  ghost predicate BuiltAs(kind: Kind, chain: seq<Quote>, spot: real, move: real, g: Geometry, underlying: string,
                          built: Built, qs: seq<Quote>)
  {
    && built.structure.kind == kind && built.structure.underlying == underlying
    && Placed(kind, chain, spot, move, g, qs) && QuotedBy(built.structure.legs, LegSides(kind), qs)
    && ToTheCent(built.net, Cost(built.structure.legs, qs))
  }

  ghost predicate MixedExpiries(qs: seq<Quote>) {
    exists i, j :: 0 <= i < |qs| && 0 <= j < |qs| && qs[i].expiry != qs[j].expiry
  }

  // What building yields: the kind's quotes at their cost, unless the chain cannot express the kind or the
  // quotes picked do not expire together.
  ghost predicate Yields(kind: Kind, chain: seq<Quote>, spot: real, move: real, g: Geometry, underlying: string,
                          r: Option<Built>, qs: seq<Quote>)
  {
    match r
    case Some(built) => BuiltAs(kind, chain, spot, move, g, underlying, built, qs) && !MixedExpiries(qs)
    case None =>
      || Inexpressible(kind, chain, spot, move, g)
      || (Placed(kind, chain, spot, move, g, qs) && MixedExpiries(qs))
  }

  lemma FinishRefuses(kind: Kind, underlying: string, legs: seq<Leg>, net: real)
    ensures Finish(kind, underlying, legs, net).Some? <==> DefinedRisk(legs)
    ensures Finish(kind, underlying, legs, net).Some? ==> Finish(kind, underlying, legs, net).value.structure.legs == legs
  {
    hide DefinedRisk;
  }

  // The rights each kind's legs are of, first leg first.
  function LegRights(kind: Kind): seq<Right> {
    match kind
    case BullPutSpread => [Put, Put]
    case BearCallSpread => [Call, Call]
    case IronCondor => [Put, Put, Call, Call]
    case CallDebitSpread => [Call, Call]
    case PutDebitSpread => [Put, Put]
    case LongStrangle => [Call, Put]
  }

  lemma PickedRight(chain: seq<Quote>, right: Right, g: Geometry, range: Range, target: real, tolerance: real, q: Quote)
    requires Picked(chain, right, g, range, target, tolerance, q)
    ensures Candidate(chain, right, range, q)
  {
    hide Candidate;
  }

  lemma PlacedRights(kind: Kind, chain: seq<Quote>, spot: real, move: real, g: Geometry, qs: seq<Quote>)
    requires Placed(kind, chain, spot, move, g, qs)
    ensures |qs| == |LegRights(kind)| && forall i :: 0 <= i < |qs| ==> Offered(chain, LegRights(kind)[i], qs[i])
  {
    hide Picked, SideOf, WingWidth;
    forall right, range, target, tolerance, q | Picked(chain, right, g, range, target, tolerance, q)
      ensures Offered(chain, right, q)
    {
      PickedRight(chain, right, g, range, target, tolerance, q);
    }
  }

  // Legs of the kind's sides and rights are of defined risk exactly when they expire together.
  lemma TwoDefined(kind: Kind, a: Quote, b: Quote)
    requires !kind.IronCondor? && [a.right, b.right] == LegRights(kind)
    ensures DefinedRisk(Leg2(kind, a, b)) <==> !MixedExpiries([a, b])
  {
    var legs := Leg2(kind, a, b);
    assert [a.right, b.right][0] == a.right && [a.right, b.right][1] == b.right;
    assert legs[1..] == [legs[1]] && legs[1..][1..] == [];
    forall right, side ensures Contracts(legs, right, side)
      == (if legs[0].right == right && legs[0].side == side then 1 else 0) + (if legs[1].right == right && legs[1].side == side then 1 else 0)
    {
      assert Contracts(legs[1..], right, side) == (if legs[1].right == right && legs[1].side == side then 1 else 0) + Contracts([], right, side);
    }
    assert [a, b][0] == a && [a, b][1] == b;
  }

  lemma FourDefined(a: Quote, b: Quote, c: Quote, d: Quote)
    requires [a.right, b.right, c.right, d.right] == LegRights(IronCondor)
    ensures DefinedRisk(Leg4(a, b, c, d)) <==> !MixedExpiries([a, b, c, d])
  {
    var legs, qs := Leg4(a, b, c, d), [a, b, c, d];
    var rights := [a.right, b.right, c.right, d.right];
    assert rights[0] == a.right && rights[1] == b.right && rights[2] == c.right && rights[3] == d.right;
    var puts, calls := Leg2(BullPutSpread, a, b), Leg2(BearCallSpread, c, d);
    assert legs == puts + calls;
    ContractsConcat(puts, calls, Put, Long);
    ContractsConcat(puts, calls, Put, Short);
    ContractsConcat(puts, calls, Call, Long);
    ContractsConcat(puts, calls, Call, Short);
    PairCounts(BullPutSpread, a, b, Put);
    PairCounts(BearCallSpread, c, d, Call);
    assert qs[0] == a && qs[1] == b && qs[2] == c && qs[3] == d;
    FourExpire(a, b, c, d);
    hide Contracts;
  }

  lemma FourExpire(a: Quote, b: Quote, c: Quote, d: Quote)
    ensures OneExpiry(Leg4(a, b, c, d)) <==> !MixedExpiries([a, b, c, d])
  {
    var legs, qs := Leg4(a, b, c, d), [a, b, c, d];
    assert forall i :: 0 <= i < 4 ==> legs[i].expiry == qs[i].expiry;
    if OneExpiry(legs) {
      forall i, j | 0 <= i < |qs| && 0 <= j < |qs| ensures qs[i].expiry == qs[j].expiry {
        assert legs[i].expiry == qs[i].expiry && legs[j].expiry == qs[j].expiry;
      }
    } else {
      assert qs[0].expiry != qs[1].expiry || qs[0].expiry != qs[2].expiry || qs[0].expiry != qs[3].expiry;
    }
  }

  lemma PairCounts(kind: Kind, a: Quote, b: Quote, right: Right)
    requires kind.BullPutSpread? || kind.BearCallSpread?
    requires a.right == right && b.right == right
    ensures forall r :: Contracts(Leg2(kind, a, b), r, Long) == (if r == right then 1 else 0)
                        && Contracts(Leg2(kind, a, b), r, Short) == (if r == right then 1 else 0)
  {
    var legs := Leg2(kind, a, b);
    assert legs[1..] == [legs[1]] && legs[1..][1..] == [];
    forall r, side ensures Contracts(legs, r, side)
      == (if legs[0].right == r && legs[0].side == side then 1 else 0) + (if legs[1].right == r && legs[1].side == side then 1 else 0)
    {
      assert Contracts(legs[1..], r, side) == (if legs[1].right == r && legs[1].side == side then 1 else 0) + Contracts([], r, side);
    }
  }

  lemma TwoYield(kind: Kind, chain: seq<Quote>, spot: real, move: real, g: Geometry, underlying: string, a: Quote, b: Quote, net: real)
    requires !kind.IronCondor? && Placed(kind, chain, spot, move, g, [a, b])
    requires net == (if LegSides(kind)[0].Long? then a.Mid() else -a.Mid()) + (if LegSides(kind)[1].Long? then b.Mid() else -b.Mid())
    ensures Yields(kind, chain, spot, move, g, underlying, Finish(kind, underlying, Leg2(kind, a, b), net), [a, b])
  {
    hide Finish, Placed, QuotedBy, ToTheCent, Cost, DefinedRisk, Leg2, Inexpressible;
    FinishTwo(kind, underlying, a, b, net);
    FinishRefuses(kind, underlying, Leg2(kind, a, b), net);
    PlacedRights(kind, chain, spot, move, g, [a, b]);
    assert [a, b][0] == a && [a, b][1] == b;
    assert [a.right, b.right] == LegRights(kind);
    TwoDefined(kind, a, b);
  }

  lemma FourYield(chain: seq<Quote>, spot: real, move: real, g: Geometry, underlying: string, a: Quote, b: Quote, c: Quote, d: Quote, net: real)
    requires Placed(IronCondor, chain, spot, move, g, [a, b, c, d])
    requires net == -((a.Mid() - b.Mid()) + (c.Mid() - d.Mid()))
    ensures Yields(IronCondor, chain, spot, move, g, underlying, Finish(IronCondor, underlying, Leg4(a, b, c, d), net), [a, b, c, d])
  {
    hide Finish, Placed, QuotedBy, ToTheCent, Cost, DefinedRisk, Leg4, Inexpressible;
    FinishFour(underlying, a, b, c, d, net);
    FinishRefuses(IronCondor, underlying, Leg4(a, b, c, d), net);
    PlacedRights(IronCondor, chain, spot, move, g, [a, b, c, d]);
    assert [a, b, c, d][0] == a && [a, b, c, d][1] == b && [a, b, c, d][2] == c && [a, b, c, d][3] == d;
    assert [a.right, b.right, c.right, d.right] == LegRights(IronCondor);
    FourDefined(a, b, c, d);
  }

  // ----- credit spreads

  lemma BullPutBuilds(chain: seq<Quote>, spot: real, movePct: real, underlying: string, g: Geometry, short: Quote, long: Quote)
    requires spot > 0.0 && WingWidth(SideOf(chain, Put), spot, g.wingPct).Some?
    requires PutWing(SidesOf(chain, Put, g), spot, Move(spot, movePct, g), WingWidth(SideOf(chain, Put), spot, g.wingPct).value, g)
             == Some((short, long))
    ensures Build(BullPutSpread, chain, spot, movePct, underlying, g)
            == Finish(BullPutSpread, underlying, Leg2(BullPutSpread, short, long), -(short.Mid() - long.Mid()))
  {
    hide SideOf, SidesOf, WingWidth, PutWing, CallWing, PutDebit, CallDebit, PickAbove, PickBelow, Move, Finish;
  }

  lemma BullPutNone(chain: seq<Quote>, spot: real, movePct: real, underlying: string, g: Geometry)
    requires spot > 0.0
    requires var w := WingWidth(SideOf(chain, Put), spot, g.wingPct);
             w.Some? ==> PutWing(SidesOf(chain, Put, g), spot, Move(spot, movePct, g), w.value, g).None?
    ensures Build(BullPutSpread, chain, spot, movePct, underlying, g).None?
  {
    hide SideOf, SidesOf, WingWidth, PutWing, CallWing, PutDebit, CallDebit, PickAbove, PickBelow, Move, Finish;
  }

  lemma BullPutYields(chain: seq<Quote>, spot: real, movePct: real, underlying: string, g: Geometry) returns (qs: seq<Quote>)
    requires spot > 0.0
    ensures Yields(BullPutSpread, chain, spot, Move(spot, movePct, g), g, underlying,
                    Build(BullPutSpread, chain, spot, movePct, underlying, g), qs)
  {
    hide Build, SideOf, SidesOf, WingWidth, PutWing, Move, Finish, Slide, PutsAt, NoPuts, DefinedRisk, QuotedBy;
    qs := [];
    var w, move := WingWidth(SideOf(chain, Put), spot, g.wingPct), Move(spot, movePct, g);
    if w.Some? {
      PutWingIs(chain, spot, move, w.value, g);
      var r := PutWing(SidesOf(chain, Put, g), spot, move, w.value, g);
      if r.Some? {
        var short, long := r.value.0, r.value.1;
        qs := [short, long];
        BullPutBuilds(chain, spot, movePct, underlying, g, short, long);
        TwoYield(BullPutSpread, chain, spot, move, g, underlying, short, long, -(short.Mid() - long.Mid()));
      } else {
        BullPutNone(chain, spot, movePct, underlying, g);
      }
    } else {
      BullPutNone(chain, spot, movePct, underlying, g);
    }
  }

  lemma BearCallBuilds(chain: seq<Quote>, spot: real, movePct: real, underlying: string, g: Geometry, short: Quote, long: Quote)
    requires spot > 0.0 && WingWidth(SideOf(chain, Call), spot, g.wingPct).Some?
    requires CallWing(SidesOf(chain, Call, g), spot, Move(spot, movePct, g), WingWidth(SideOf(chain, Call), spot, g.wingPct).value, g)
             == Some((short, long))
    ensures Build(BearCallSpread, chain, spot, movePct, underlying, g)
            == Finish(BearCallSpread, underlying, Leg2(BearCallSpread, short, long), -(short.Mid() - long.Mid()))
  {
    hide SideOf, SidesOf, WingWidth, PutWing, CallWing, PutDebit, CallDebit, PickAbove, PickBelow, Move, Finish;
  }

  lemma BearCallNone(chain: seq<Quote>, spot: real, movePct: real, underlying: string, g: Geometry)
    requires spot > 0.0
    requires var w := WingWidth(SideOf(chain, Call), spot, g.wingPct);
             w.Some? ==> CallWing(SidesOf(chain, Call, g), spot, Move(spot, movePct, g), w.value, g).None?
    ensures Build(BearCallSpread, chain, spot, movePct, underlying, g).None?
  {
    hide SideOf, SidesOf, WingWidth, PutWing, CallWing, PutDebit, CallDebit, PickAbove, PickBelow, Move, Finish;
  }

  lemma BearCallYields(chain: seq<Quote>, spot: real, movePct: real, underlying: string, g: Geometry) returns (qs: seq<Quote>)
    requires spot > 0.0
    ensures Yields(BearCallSpread, chain, spot, Move(spot, movePct, g), g, underlying,
                    Build(BearCallSpread, chain, spot, movePct, underlying, g), qs)
  {
    hide Build, SideOf, SidesOf, WingWidth, CallWing, Move, Finish, Slide, CallsAt, NoCalls, DefinedRisk, QuotedBy;
    qs := [];
    var w, move := WingWidth(SideOf(chain, Call), spot, g.wingPct), Move(spot, movePct, g);
    if w.Some? {
      CallWingIs(chain, spot, move, w.value, g);
      var r := CallWing(SidesOf(chain, Call, g), spot, move, w.value, g);
      if r.Some? {
        var short, long := r.value.0, r.value.1;
        qs := [short, long];
        BearCallBuilds(chain, spot, movePct, underlying, g, short, long);
        TwoYield(BearCallSpread, chain, spot, move, g, underlying, short, long, -(short.Mid() - long.Mid()));
      } else {
        BearCallNone(chain, spot, movePct, underlying, g);
      }
    } else {
      BearCallNone(chain, spot, movePct, underlying, g);
    }
  }

  lemma CondorBuilds(chain: seq<Quote>, spot: real, movePct: real, underlying: string, g: Geometry, a: Quote, b: Quote, c: Quote, d: Quote)
    requires spot > 0.0
    requires WingWidth(SideOf(chain, Put), spot, g.wingPct).Some? && WingWidth(SideOf(chain, Call), spot, g.wingPct).Some?
    requires PutWing(SidesOf(chain, Put, g), spot, Move(spot, movePct, g), WingWidth(SideOf(chain, Put), spot, g.wingPct).value, g)
             == Some((a, b))
    requires CallWing(SidesOf(chain, Call, g), spot, Move(spot, movePct, g), WingWidth(SideOf(chain, Call), spot, g.wingPct).value, g)
             == Some((c, d))
    ensures Build(IronCondor, chain, spot, movePct, underlying, g)
            == Finish(IronCondor, underlying, Leg4(a, b, c, d), -((a.Mid() - b.Mid()) + (c.Mid() - d.Mid())))
  {
    hide SideOf, SidesOf, WingWidth, PutWing, CallWing, PutDebit, CallDebit, PickAbove, PickBelow, Move, Finish;
  }

  lemma CondorNone(chain: seq<Quote>, spot: real, movePct: real, underlying: string, g: Geometry)
    requires spot > 0.0
    requires var p, c := WingWidth(SideOf(chain, Put), spot, g.wingPct), WingWidth(SideOf(chain, Call), spot, g.wingPct);
             p.Some? && c.Some? ==>
               || PutWing(SidesOf(chain, Put, g), spot, Move(spot, movePct, g), p.value, g).None?
               || CallWing(SidesOf(chain, Call, g), spot, Move(spot, movePct, g), c.value, g).None?
    ensures Build(IronCondor, chain, spot, movePct, underlying, g).None?
  {
    hide SideOf, SidesOf, WingWidth, PutWing, CallWing, PutDebit, CallDebit, PickAbove, PickBelow, Move, Finish;
  }

  lemma CondorYields(chain: seq<Quote>, spot: real, movePct: real, underlying: string, g: Geometry) returns (qs: seq<Quote>)
    requires spot > 0.0
    ensures Yields(IronCondor, chain, spot, Move(spot, movePct, g), g, underlying,
                    Build(IronCondor, chain, spot, movePct, underlying, g), qs)
  {
    hide Build, SideOf, SidesOf, WingWidth, PutWing, CallWing, Move, Finish, Slide, PutsAt, NoPuts, CallsAt, NoCalls, DefinedRisk, QuotedBy;
    qs := [];
    var move := Move(spot, movePct, g);
    var p, c := WingWidth(SideOf(chain, Put), spot, g.wingPct), WingWidth(SideOf(chain, Call), spot, g.wingPct);
    if p.None? || c.None? {
      CondorNone(chain, spot, movePct, underlying, g);
      return;
    }
    PutWingIs(chain, spot, move, p.value, g);
    CallWingIs(chain, spot, move, c.value, g);
    var x, y := PutWing(SidesOf(chain, Put, g), spot, move, p.value, g), CallWing(SidesOf(chain, Call, g), spot, move, c.value, g);
    if x.None? || y.None? {
      CondorNone(chain, spot, movePct, underlying, g);
      return;
    }
    var a, b, e, f := x.value.0, x.value.1, y.value.0, y.value.1;
    qs := [a, b, e, f];
    CondorBuilds(chain, spot, movePct, underlying, g, a, b, e, f);
    FourYield(chain, spot, move, g, underlying, a, b, e, f, -((a.Mid() - b.Mid()) + (e.Mid() - f.Mid())));
  }

  // ----- debits

  lemma MoneyIs(chain: seq<Quote>, right: Right, spot: real, width: real, g: Geometry)
    ensures var r := PickAnywhere(SidesOf(chain, right, g), spot, Slide(width, g));
      && (r.None? <==> Barren(chain, right, Anywhere))
      && (r.Some? ==> BoughtAt(chain, right, g, spot, width, r.value))
  {
    hide SideOf, LiquidSide, Pick, Picked, Barren, Slide, Slides;
    SlideIs(width, g);
    PickIs(chain, right, g, Anywhere, spot, Slide(width, g));
  }

  lemma WidthHasQuotes(chain: seq<Quote>, right: Right, spot: real, pct: real)
    requires WingWidth(SideOf(chain, right), spot, pct).Some?
    ensures !Barren(chain, right, Anywhere)
  {
    hide SideOf, WingSteps;
    var q := SideOf(chain, right)[0];
    assert q in SideOf(chain, right);
    SideIsSorted(chain, right);
    assert Candidate(chain, right, Anywhere, q);
  }

  lemma CallDebitIs(chain: seq<Quote>, spot: real, move: real, width: real, g: Geometry)
    requires !Barren(chain, Call, Anywhere)
    ensures var r := CallDebit(SidesOf(chain, Call, g), spot, move, width, g);
      && (r.None? ==> exists l :: BoughtAt(chain, Call, g, spot, width, l) && Barren(chain, Call, Over(l.strike)))
      && (r.Some? ==> BoughtAt(chain, Call, g, spot, width, r.value.0)
                      && Picked(chain, Call, g, Over(r.value.0.strike), spot + move, width, r.value.1))
  {
    hide SidesOf, CallDebit, PickAnywhere, PickAbove, Picked, BoughtAt, Barren, Slide;
    var s := SidesOf(chain, Call, g);
    MoneyIs(chain, Call, spot, width, g);
    CallDebitNone(s, spot, move, width, g);
    var long := PickAnywhere(s, spot, Slide(width, g)).value;
    AboveIs(chain, Call, long.strike, spot + move, width, g);
    var next := PickAbove(s, long.strike, spot + move, width);
    if next.Some? { CallDebitSome(s, spot, move, width, g, long, next.value); }
  }

  lemma CallDebitNone(s: Sides, spot: real, move: real, width: real, g: Geometry)
    ensures var long := PickAnywhere(s, spot, Slide(width, g));
      CallDebit(s, spot, move, width, g).None? <==> long.None? || PickAbove(s, long.value.strike, spot + move, width).None?
  {
    hide PickAnywhere, PickAbove, Slide;
  }

  lemma CallDebitSome(s: Sides, spot: real, move: real, width: real, g: Geometry, long: Quote, short: Quote)
    requires PickAnywhere(s, spot, Slide(width, g)) == Some(long)
    requires PickAbove(s, long.strike, spot + move, width) == Some(short)
    ensures CallDebit(s, spot, move, width, g) == Some((long, short))
  {
    hide PickAnywhere, PickAbove, Slide;
  }

  lemma CallDebitBuilds(chain: seq<Quote>, spot: real, movePct: real, underlying: string, g: Geometry, long: Quote, short: Quote)
    requires spot > 0.0 && WingWidth(SideOf(chain, Call), spot, g.wingPct).Some?
    requires CallDebit(SidesOf(chain, Call, g), spot, Move(spot, movePct, g), WingWidth(SideOf(chain, Call), spot, g.wingPct).value, g)
             == Some((long, short))
    ensures Build(CallDebitSpread, chain, spot, movePct, underlying, g)
            == Finish(CallDebitSpread, underlying, Leg2(CallDebitSpread, long, short), long.Mid() - short.Mid())
  {
    hide SideOf, SidesOf, WingWidth, PutWing, CallWing, PutDebit, CallDebit, PickAbove, PickBelow, Move, Finish;
  }

  lemma CallDebitRefuses(chain: seq<Quote>, spot: real, movePct: real, underlying: string, g: Geometry)
    requires spot > 0.0
    requires var w := WingWidth(SideOf(chain, Call), spot, g.wingPct);
             w.Some? ==> CallDebit(SidesOf(chain, Call, g), spot, Move(spot, movePct, g), w.value, g).None?
    ensures Build(CallDebitSpread, chain, spot, movePct, underlying, g).None?
  {
    hide SideOf, SidesOf, WingWidth, PutWing, CallWing, PutDebit, CallDebit, PickAbove, PickBelow, Move, Finish;
  }

  lemma CallDebitYields(chain: seq<Quote>, spot: real, movePct: real, underlying: string, g: Geometry) returns (qs: seq<Quote>)
    requires spot > 0.0
    ensures Yields(CallDebitSpread, chain, spot, Move(spot, movePct, g), g, underlying,
                    Build(CallDebitSpread, chain, spot, movePct, underlying, g), qs)
  {
    hide Build, SideOf, SidesOf, WingWidth, CallDebit, Move, Finish, Picked, BoughtAt, Barren, DefinedRisk, QuotedBy;
    qs := [];
    var w, move := WingWidth(SideOf(chain, Call), spot, g.wingPct), Move(spot, movePct, g);
    if w.None? {
      CallDebitRefuses(chain, spot, movePct, underlying, g);
      return;
    }
    WidthHasQuotes(chain, Call, spot, g.wingPct);
    CallDebitIs(chain, spot, move, w.value, g);
    var r := CallDebit(SidesOf(chain, Call, g), spot, move, w.value, g);
    if r.None? {
      CallDebitRefuses(chain, spot, movePct, underlying, g);
    } else {
      var long, short := r.value.0, r.value.1;
      qs := [long, short];
      CallDebitBuilds(chain, spot, movePct, underlying, g, long, short);
      TwoYield(CallDebitSpread, chain, spot, move, g, underlying, long, short, long.Mid() - short.Mid());
    }
  }

  lemma PutDebitIs(chain: seq<Quote>, spot: real, move: real, width: real, g: Geometry)
    requires !Barren(chain, Put, Anywhere)
    ensures var r := PutDebit(SidesOf(chain, Put, g), spot, move, width, g);
      && (r.None? ==> exists l :: BoughtAt(chain, Put, g, spot, width, l) && Barren(chain, Put, Under(l.strike)))
      && (r.Some? ==> BoughtAt(chain, Put, g, spot, width, r.value.0)
                      && Picked(chain, Put, g, Under(r.value.0.strike), spot - move, width, r.value.1))
  {
    hide SidesOf, PutDebit, PickAnywhere, PickBelow, Picked, BoughtAt, Barren, Slide;
    var s := SidesOf(chain, Put, g);
    MoneyIs(chain, Put, spot, width, g);
    PutDebitNone(s, spot, move, width, g);
    var long := PickAnywhere(s, spot, Slide(width, g)).value;
    BelowIs(chain, Put, long.strike, spot - move, width, g);
    var next := PickBelow(s, long.strike, spot - move, width);
    if next.Some? { PutDebitSome(s, spot, move, width, g, long, next.value); }
  }

  lemma PutDebitNone(s: Sides, spot: real, move: real, width: real, g: Geometry)
    ensures var long := PickAnywhere(s, spot, Slide(width, g));
      PutDebit(s, spot, move, width, g).None? <==> long.None? || PickBelow(s, long.value.strike, spot - move, width).None?
  {
    hide PickAnywhere, PickBelow, Slide;
  }

  lemma PutDebitSome(s: Sides, spot: real, move: real, width: real, g: Geometry, long: Quote, short: Quote)
    requires PickAnywhere(s, spot, Slide(width, g)) == Some(long)
    requires PickBelow(s, long.strike, spot - move, width) == Some(short)
    ensures PutDebit(s, spot, move, width, g) == Some((long, short))
  {
    hide PickAnywhere, PickBelow, Slide;
  }

  lemma PutDebitBuilds(chain: seq<Quote>, spot: real, movePct: real, underlying: string, g: Geometry, long: Quote, short: Quote)
    requires spot > 0.0 && WingWidth(SideOf(chain, Put), spot, g.wingPct).Some?
    requires PutDebit(SidesOf(chain, Put, g), spot, Move(spot, movePct, g), WingWidth(SideOf(chain, Put), spot, g.wingPct).value, g)
             == Some((long, short))
    ensures Build(PutDebitSpread, chain, spot, movePct, underlying, g)
            == Finish(PutDebitSpread, underlying, Leg2(PutDebitSpread, long, short), long.Mid() - short.Mid())
  {
    hide SideOf, SidesOf, WingWidth, PutWing, CallWing, PutDebit, CallDebit, PickAbove, PickBelow, Move, Finish;
  }

  lemma PutDebitRefuses(chain: seq<Quote>, spot: real, movePct: real, underlying: string, g: Geometry)
    requires spot > 0.0
    requires var w := WingWidth(SideOf(chain, Put), spot, g.wingPct);
             w.Some? ==> PutDebit(SidesOf(chain, Put, g), spot, Move(spot, movePct, g), w.value, g).None?
    ensures Build(PutDebitSpread, chain, spot, movePct, underlying, g).None?
  {
    hide SideOf, SidesOf, WingWidth, PutWing, CallWing, PutDebit, CallDebit, PickAbove, PickBelow, Move, Finish;
  }

  lemma PutDebitYields(chain: seq<Quote>, spot: real, movePct: real, underlying: string, g: Geometry) returns (qs: seq<Quote>)
    requires spot > 0.0
    ensures Yields(PutDebitSpread, chain, spot, Move(spot, movePct, g), g, underlying,
                    Build(PutDebitSpread, chain, spot, movePct, underlying, g), qs)
  {
    hide Build, SideOf, SidesOf, WingWidth, PutDebit, Move, Finish, Picked, BoughtAt, Barren, DefinedRisk, QuotedBy;
    qs := [];
    var w, move := WingWidth(SideOf(chain, Put), spot, g.wingPct), Move(spot, movePct, g);
    if w.None? {
      PutDebitRefuses(chain, spot, movePct, underlying, g);
      return;
    }
    WidthHasQuotes(chain, Put, spot, g.wingPct);
    PutDebitIs(chain, spot, move, w.value, g);
    var r := PutDebit(SidesOf(chain, Put, g), spot, move, w.value, g);
    if r.None? {
      PutDebitRefuses(chain, spot, movePct, underlying, g);
    } else {
      var long, short := r.value.0, r.value.1;
      qs := [long, short];
      PutDebitBuilds(chain, spot, movePct, underlying, g, long, short);
      TwoYield(PutDebitSpread, chain, spot, move, g, underlying, long, short, long.Mid() - short.Mid());
    }
  }

  lemma StrangleBuilds(chain: seq<Quote>, spot: real, movePct: real, underlying: string, g: Geometry, c: Quote, p: Quote)
    requires spot > 0.0 && WingWidth(SideOf(chain, Call), spot, g.wingPct).Some?
    requires var w, move := WingWidth(SideOf(chain, Call), spot, g.wingPct).value, Move(spot, movePct, g);
      && PickAbove(SidesOf(chain, Call, g), spot, spot + move, w) == Some(c)
      && PickBelow(SidesOf(chain, Put, g), spot, spot - move, w) == Some(p)
    ensures Build(LongStrangle, chain, spot, movePct, underlying, g)
            == Finish(LongStrangle, underlying, Leg2(LongStrangle, c, p), c.Mid() + p.Mid())
  {
    hide SideOf, SidesOf, WingWidth, PutWing, CallWing, PutDebit, CallDebit, PickAbove, PickBelow, Move, Finish;
  }

  lemma StrangleNone(chain: seq<Quote>, spot: real, movePct: real, underlying: string, g: Geometry)
    requires spot > 0.0
    requires var w, move := WingWidth(SideOf(chain, Call), spot, g.wingPct), Move(spot, movePct, g);
      w.Some? ==> || PickAbove(SidesOf(chain, Call, g), spot, spot + move, w.value).None?
                  || PickBelow(SidesOf(chain, Put, g), spot, spot - move, w.value).None?
    ensures Build(LongStrangle, chain, spot, movePct, underlying, g).None?
  {
    hide SideOf, SidesOf, WingWidth, PutWing, CallWing, PutDebit, CallDebit, PickAbove, PickBelow, Move, Finish;
  }

  lemma StrangleYields(chain: seq<Quote>, spot: real, movePct: real, underlying: string, g: Geometry) returns (qs: seq<Quote>)
    requires spot > 0.0
    ensures Yields(LongStrangle, chain, spot, Move(spot, movePct, g), g, underlying,
                    Build(LongStrangle, chain, spot, movePct, underlying, g), qs)
  {
    hide Build, SideOf, SidesOf, WingWidth, PickAbove, PickBelow, Move, Finish, Picked, Barren, DefinedRisk, QuotedBy;
    qs := [];
    var w, move := WingWidth(SideOf(chain, Call), spot, g.wingPct), Move(spot, movePct, g);
    if w.None? {
      StrangleNone(chain, spot, movePct, underlying, g);
      return;
    }
    AboveIs(chain, Call, spot, spot + move, w.value, g);
    BelowIs(chain, Put, spot, spot - move, w.value, g);
    var c, p := PickAbove(SidesOf(chain, Call, g), spot, spot + move, w.value), PickBelow(SidesOf(chain, Put, g), spot, spot - move, w.value);
    if c.None? || p.None? {
      StrangleNone(chain, spot, movePct, underlying, g);
    } else {
      qs := [c.value, p.value];
      StrangleBuilds(chain, spot, movePct, underlying, g, c.value, p.value);
      TwoYield(LongStrangle, chain, spot, move, g, underlying, c.value, p.value, c.value.Mid() + p.value.Mid());
    }
  }

  // ----- any kind

  lemma MoveReaches(spot: real, movePct: real, g: Geometry)
    ensures Reaches(Move(spot, movePct, g), spot, movePct, g)
  {
  }

  // `build_structure` on any chain: nothing without a positive spot; else the kind's strikes at their cost to
  // the cent, unless the chain cannot express the kind or the quotes picked do not expire together.
  lemma BuildYields(kind: Kind, chain: seq<Quote>, spot: real, movePct: real, underlying: string, g: Geometry)
    returns (move: real, qs: seq<Quote>)
    ensures var r := Build(kind, chain, spot, movePct, underlying, g);
      if spot <= 0.0 then r.None?
      else Reaches(move, spot, movePct, g) && Yields(kind, chain, spot, move, g, underlying, r, qs)
  {
    hide Yields, Move, Reaches, SideOf, SidesOf, WingWidth, PutWing, CallWing, Finish, Slide, Pick, PickAbove, PickBelow, PutDebit, CallDebit;
    move := Move(spot, movePct, g);
    qs := [];
    MoveReaches(spot, movePct, g);
    if spot > 0.0 {
      match kind
      case BullPutSpread => qs := BullPutYields(chain, spot, movePct, underlying, g);
      case BearCallSpread => qs := BearCallYields(chain, spot, movePct, underlying, g);
      case IronCondor => qs := CondorYields(chain, spot, movePct, underlying, g);
      case CallDebitSpread => qs := CallDebitYields(chain, spot, movePct, underlying, g);
      case PutDebitSpread => qs := PutDebitYields(chain, spot, movePct, underlying, g);
      case LongStrangle => qs := StrangleYields(chain, spot, movePct, underlying, g);
    }
  }

  // ----- the sign of the price, and what the structure can lose at it

  function MidOf(q: Quote): real { (q.bid + q.ask) / 2.0 }

  // The leg further out is quoted no dearer than the one nearer the money.
  ghost predicate CheaperWings(kind: Kind, qs: seq<Quote>) {
    match kind
    case IronCondor => |qs| == 4 && MidOf(qs[1]) <= MidOf(qs[0]) && MidOf(qs[3]) <= MidOf(qs[2])
    case LongStrangle => true
    case _ => |qs| == 2 && MidOf(qs[1]) <= MidOf(qs[0])
  }

  lemma CostSign(kind: Kind, chain: seq<Quote>, legs: seq<Leg>, qs: seq<Quote>)
    requires QuotedBy(legs, LegSides(kind), qs) && CheaperWings(kind, qs)
    requires forall i :: 0 <= i < |qs| ==> qs[i].bid > 0.0 && qs[i].ask > qs[i].bid
    ensures if Structure(kind, "", legs).IsCredit() then Cost(legs, qs) <= 0.0 else Cost(legs, qs) >= 0.0
  {
    if kind.IronCondor? {
      assert legs == [legs[0], legs[1], legs[2], legs[3]] && qs == [qs[0], qs[1], qs[2], qs[3]];
      CostOfFour(legs[0], legs[1], legs[2], legs[3], qs[0], qs[1], qs[2], qs[3]);
      CostOfTwo(legs[0], legs[1], qs[0], qs[1]);
      CostOfTwo(legs[2], legs[3], qs[2], qs[3]);
    } else {
      assert legs == [legs[0], legs[1]] && qs == [qs[0], qs[1]];
      CostOfTwo(legs[0], legs[1], qs[0], qs[1]);
    }
  }

  // Rounding to the cent does not cross zero.
  lemma CentsKeepSign(net: real, cost: real)
    requires ToTheCent(net, cost)
    ensures (cost <= 0.0 ==> net <= 0.0) && (cost >= 0.0 ==> net >= 0.0)
  {
    var n := (net * 100.0).Floor;
    assert net * 100.0 == n as real;
    if cost <= 0.0 { assert n as real <= 0.5; }
    if cost >= 0.0 { assert n as real >= -0.5; }
  }

  lemma BuiltSign(kind: Kind, chain: seq<Quote>, spot: real, move: real, g: Geometry, underlying: string, built: Built, qs: seq<Quote>)
    requires BuiltAs(kind, chain, spot, move, g, underlying, built, qs) && CheaperWings(kind, qs)
    ensures if built.structure.IsCredit() then built.net <= 0.0 else built.net >= 0.0
  {
    hide Placed, ToTheCent, Cost, CheaperWings;
    PlacedRights(kind, chain, spot, move, g, qs);
    CostSign(kind, chain, built.structure.legs, qs);
    CentsKeepSign(built.net, Cost(built.structure.legs, qs));
  }

  // Where each kind's further leg is quoted cheaper, as it should be, the price built carries the kind's
  // sign and the budgeted maximum loss at it is the exact worst P&L over all terminal prices.
  lemma BuiltLossIsExact(kind: Kind, chain: seq<Quote>, spot: real, movePct: real, underlying: string, g: Geometry)
    returns (move: real, qs: seq<Quote>)
    requires Build(kind, chain, spot, movePct, underlying, g).Some?
    requires forall q :: q in chain ==> q.strike >= 0.0
    requires kind.IronCondor? ==> Move(spot, movePct, g) >= SLACK
    requires var built := Build(kind, chain, spot, movePct, underlying, g).value;
             MaxLossPerSpread(built.structure, built.net).Dollars?
    ensures var built := Build(kind, chain, spot, movePct, underlying, g).value;
      && Reaches(move, spot, movePct, g) && BuiltAs(kind, chain, spot, move, g, underlying, built, qs)
      && (CheaperWings(kind, qs) ==>
            && (if built.structure.IsCredit() then built.net <= 0.0 else built.net >= 0.0)
            && WorstIs(built.structure.legs, built.net, -MaxLossPerSpread(built.structure, built.net).amount))
  {
    hide Build, BuiltAs, Reaches, CheaperWings, WorstIs, MaxLossPerSpread, NeverWorse, Inexpressible, Placed, Move;
    var built := Build(kind, chain, spot, movePct, underlying, g).value;
    move, qs := BuildYields(kind, chain, spot, movePct, underlying, g);
    MaxLossIsExact(kind, chain, spot, movePct, underlying, g, built.net);
    if CheaperWings(kind, qs) {
      BuiltSign(kind, chain, spot, move, g, underlying, built, qs);
      DebitNotFree(built.structure, built.net);
    }
  }

  lemma DebitNotFree(s: Structure, net: real)
    requires MaxLossPerSpread(s, net).Dollars?
    ensures !s.IsCredit() ==> net != 0.0
  {
    hide RiskOf, Width;
  }
}
