/**
 How many spreads: two budgets and a ceiling, the smallest wins; then the largest
 of those quantities whose delta fits the band the gate will check.
 */
module Sizing {
  import opened Arithmetic
  import opened Wrappers
  import opened Structures
  import opened World

  datatype Policy = Policy(
    rPct: real, maxPositionPct: real, minP: real, ceilingP: real, floorMult: real, ceilingMult: real,
    abstainMult: real, halveAfter: int)

  ghost predicate Sane(c: Policy) {
    && c.rPct > 0.0 && c.maxPositionPct >= 0.0 && 0.0 <= c.floorMult <= c.ceilingMult && c.abstainMult >= 0.0
  }

  // ----- tapers

  // How far past `start` a budget is used, of the way to its limit.
  function Spent(utilisation: real, start: real): real
    requires start < 1.0
  {
    (Smaller(utilisation, 1.0) - start) / (1.0 - start)
  }

  function Remaining(share: real, floor: real): real { 1.0 - Portion(1.0 - floor, share) }

  // Full size below `start`, `floor` at the limit, linear between.
  function Taper(utilisation: real, start: real, floor: real): real {
    if utilisation <= start || start >= 1.0 then 1.0
    else Larger(floor, Remaining(Spent(utilisation, start), floor))
  }

  lemma SpentGrows(u: real, v: real, start: real)
    requires start < 1.0 && start <= u <= v
    ensures 0.0 <= Spent(u, start) <= Spent(v, start) <= 1.0
    ensures v >= 1.0 ==> Spent(v, start) == 1.0
  {
    var a, b, d := Smaller(u, 1.0) - start, Smaller(v, 1.0) - start, 1.0 - start;
    Divide(0.0, a, d);
    Divide(a, b, d);
    Divide(b, d, d);
  }

  lemma RemainingFalls(x: real, y: real, floor: real)
    requires 0.0 <= x <= y <= 1.0 && 0.0 <= floor <= 1.0
    ensures floor <= Remaining(y, floor) <= Remaining(x, floor) <= 1.0
    ensures Remaining(1.0, floor) == floor
  {
    hide Portion;
    PortionGrows(1.0 - floor, x, y);
  }

  // Never above full size nor below its floor, and never rising as a budget is used up.
  lemma TaperFalls(u: real, v: real, start: real, floor: real)
    requires u <= v && 0.0 <= floor <= 1.0
    ensures floor <= Taper(v, start, floor) <= Taper(u, start, floor) <= 1.0
    ensures v >= 1.0 && start < 1.0 ==> Taper(v, start, floor) == floor
  {
    hide Spent, Remaining;
    if v > start && start < 1.0 {
      var a := if u <= start then start else u;
      SpentGrows(a, v, start);
      RemainingFalls(Spent(a, start), Spent(v, start), floor);
    }
  }

  // Full below its start, and from there a straight line down to its floor at the limit.
  lemma TaperIsLinear(u: real, start: real, floor: real)
    requires 0.0 <= floor <= 1.0
    ensures u <= start || start >= 1.0 ==> Taper(u, start, floor) == 1.0
    ensures start < u && u < 1.0 ==> (1.0 - Taper(u, start, floor)) * (1.0 - start) == (1.0 - floor) * (u - start)
  {
    hide Remaining;
    if start < u && u < 1.0 {
      var d, y := 1.0 - start, u - start;
      var x := Spent(u, start);
      assert x * d == y;
      SpentGrows(u, u, start);
      RemainingFalls(x, x, floor);
      Interpolates(1.0 - floor, x, d, y);
      assert Remaining(x, floor) == 1.0 - (1.0 - floor) * x by { RemainingIs(x, floor); }
      hide Spent;
    }
  }

  lemma RemainingIs(x: real, floor: real)
    ensures Remaining(x, floor) == 1.0 - (1.0 - floor) * x
  {
  }

  // ----- conviction

  function MetaMultiplier(p: real, c: Policy): real {
    if p < c.minP then 0.0
    else if p >= c.ceilingP then c.ceilingMult
    else c.floorMult + Portion(c.ceilingMult - c.floorMult, (p - c.minP) / (c.ceilingP - c.minP))
  }

  function Multiplier(p: real, abstaining: bool, c: Policy): real {
    if !abstaining then MetaMultiplier(p, c) else if p < c.minP then 0.0 else c.abstainMult
  }

  lemma MultiplierRises(p: real, q: real, abstaining: bool, c: Policy)
    requires Sane(c) && p <= q
    ensures 0.0 <= Multiplier(p, abstaining, c) <= Multiplier(q, abstaining, c)
  {
    if !abstaining {
      if c.minP <= q < c.ceilingP { MiddleRises(if p < c.minP then q else p, q, c); }
      if c.minP <= p < c.ceilingP <= q { MiddleRises(p, p, c); }
    }
  }

  lemma MiddleRises(p: real, q: real, c: Policy)
    requires Sane(c) && c.minP <= p <= q < c.ceilingP
    ensures c.floorMult <= MetaMultiplier(p, c) <= MetaMultiplier(q, c) <= c.ceilingMult
  {
    var d, h := c.ceilingP - c.minP, c.ceilingMult - c.floorMult;
    var x, y := (p - c.minP) / d, (q - c.minP) / d;
    Divide(0.0, p - c.minP, d);
    Divide(p - c.minP, q - c.minP, d);
    Divide(q - c.minP, d, d);
    hide Portion;
    PortionGrows(h, x, y);
    assert MetaMultiplier(p, c) == c.floorMult + Portion(h, x);
    assert MetaMultiplier(q, c) == c.floorMult + Portion(h, y);
  }

  // ----- sizing

  datatype Signal = Signal(
    equity: real, maxLoss: real, p: real, abstaining: bool, vol: Option<real>, targetVol: real, streak: int, context: real)

  datatype Sized = Qty(n: int) | BadRisk | DividedByZero

  function RiskUnit(s: Signal, c: Policy): real { s.equity * (c.rPct / 100.0) }

  function Budget(s: Signal, c: Policy): real {
    var r := RiskUnit(s, c) * Multiplier(s.p, s.abstaining, c) * Larger(0.0, Smaller(s.context, 1.0));
    if s.streak >= c.halveAfter then r / 2.0 else r
  }

  function VolBudget(s: Signal, c: Policy): real
    requires s.vol.Some? && s.vol.value > 0.0 && RiskUnit(s, c) != 0.0
  {
    s.equity * s.targetVol / s.vol.value * (c.rPct / 100.0) * (Budget(s, c) / RiskUnit(s, c))
  }

  function Cap(s: Signal, c: Policy): real { s.equity * (c.maxPositionPct / 100.0) }

  function Fits(budget: real, maxLoss: real): int
    requires maxLoss > 0.0
  {
    (budget / maxLoss).Floor
  }

  function HasVol(s: Signal): bool { s.vol.Some? && s.vol.value > 0.0 }

  function SizePosition(s: Signal, c: Policy): Sized {
    if s.maxLoss <= 0.0 then BadRisk
    else if Multiplier(s.p, s.abstaining, c) == 0.0 then Qty(0)
    else if HasVol(s) && RiskUnit(s, c) == 0.0 then DividedByZero
    else
      var fixed := Fits(Budget(s, c), s.maxLoss);
      var vol := if HasVol(s) then Fits(VolBudget(s, c), s.maxLoss) else fixed;
      var qty := Min(Min(fixed, vol), Fits(Cap(s, c), s.maxLoss));
      Qty(if qty < 1 then 0 else qty)
  }

  lemma FitsExactly(budget: real, maxLoss: real, n: int)
    requires maxLoss > 0.0
    ensures n <= Fits(budget, maxLoss) <==> n as real * maxLoss <= budget
  {
    var x := budget / maxLoss;
    DivideBack(budget, maxLoss);
    ScaledOrder(n as real, x, maxLoss);
  }

  // ----- what a size means, in the signal's own numbers

  // The multiplier a probability earns: none below the least one, the ceiling from the ceiling one on, in
  // between a straight line from the floor; a flat one while the labeler abstains.
  ghost predicate Conviction(p: real, abstaining: bool, c: Policy, m: real) {
    if p < c.minP then m == 0.0
    else if abstaining then m == c.abstainMult
    else if p >= c.ceilingP then m == c.ceilingMult
    else (m - c.floorMult) * (c.ceilingP - c.minP) == (c.ceilingMult - c.floorMult) * (p - c.minP)
  }

  lemma ConvictionIs(p: real, abstaining: bool, c: Policy)
    ensures Conviction(p, abstaining, c, Multiplier(p, abstaining, c))
    ensures forall m :: Conviction(p, abstaining, c, m) ==> m == Multiplier(p, abstaining, c)
  {
    if p >= c.minP && !abstaining && p < c.ceilingP {
      var d, h, x := c.ceilingP - c.minP, c.ceilingMult - c.floorMult, (p - c.minP) / (c.ceilingP - c.minP);
      assert x * d == p - c.minP;
      Interpolates(h, x, d, p - c.minP);
      forall m | Conviction(p, abstaining, c, m) ensures m == Multiplier(p, abstaining, c) {
        Cancels(m - c.floorMult, h * x, d);
      }
    }
  }

  lemma Interpolates(h: real, x: real, d: real, y: real)
    requires x * d == y
    ensures h * x * d == h * y
  {
    assert h * x * d == h * (x * d);
  }

  lemma Cancels(a: real, b: real, d: real)
    requires d > 0.0 && a * d == b * d
    ensures a == b
  {
    if a < b { ScaleStrict(a, b, d); }
    if b < a { ScaleStrict(b, a, d); }
  }

  // Dollars put at risk: the share of equity a trade may risk, times conviction, times how much of it the
  // context lets through, halved once the losing streak is long enough.
  ghost function Full(s: Signal, c: Policy, m: real): real { s.equity * c.rPct / 100.0 * m }

  ghost function Through(context: real): real {
    if context <= 0.0 then 0.0 else if context >= 1.0 then 1.0 else context
  }

  ghost predicate Staked(s: Signal, c: Policy, m: real, stake: real) {
    (if s.streak >= c.halveAfter then 2.0 * stake else stake) == Full(s, c, m) * Through(s.context)
  }

  lemma BudgetIsStake(s: Signal, c: Policy, m: real, stake: real)
    requires m == Multiplier(s.p, s.abstaining, c) && Staked(s, c, m, stake)
    ensures Budget(s, c) == stake
  {
    hide Multiplier;
    ShareOf(s.equity, c.rPct);
    var unit, x := RiskUnit(s, c), Larger(0.0, Smaller(s.context, 1.0));
    assert unit == s.equity * c.rPct / 100.0;
    hide RiskUnit;
    var r := unit * m * x;
    assert Budget(s, c) == if s.streak >= c.halveAfter then r / 2.0 else r;
  }

  // The same stake, scaled by the volatility aimed at over the volatility there is.
  lemma VolBudgetIs(s: Signal, c: Policy, stake: real)
    requires HasVol(s) && RiskUnit(s, c) != 0.0 && Budget(s, c) == stake
    ensures VolBudget(s, c) * s.vol.value == stake * s.targetVol
  {
    hide Budget;
    VolShare(s.equity, s.targetVol, s.vol.value, c.rPct / 100.0, RiskUnit(s, c), stake);
  }

  lemma VolShare(e: real, t: real, v: real, r: real, unit: real, b: real)
    requires v > 0.0 && unit != 0.0 && unit == e * r
    ensures e * t / v * r * (b / unit) * v == b * t
  {
    var x, y := e * t / v, b / unit;
    assert x * v == e * t && y * unit == b;
    assert x * r * y * v == x * v * r * y;
    assert e * t * r * y == e * r * y * t;
    assert unit * y * t == b * t;
  }

  // n spreads risk no more than the stake, than the cap on one position, and, where the underlying's
  // volatility is known, than the stake scaled to the volatility aimed at.
  ghost predicate Carried(s: Signal, c: Policy, stake: real, n: int) {
    && n as real * s.maxLoss <= stake
    && n as real * s.maxLoss * 100.0 <= s.equity * c.maxPositionPct
    && (s.vol.Some? && s.vol.value > 0.0 ==> n as real * s.maxLoss * s.vol.value <= stake * s.targetVol)
  }

  lemma CarriedIs(s: Signal, c: Policy, stake: real, n: int)
    requires Budget(s, c) == stake && (HasVol(s) ==> RiskUnit(s, c) != 0.0)
    ensures Carried(s, c, stake, n) <==>
      && n as real * s.maxLoss <= Budget(s, c) && n as real * s.maxLoss <= Cap(s, c)
      && (HasVol(s) ==> n as real * s.maxLoss <= VolBudget(s, c))
  {
    hide Budget, RiskUnit;
    var loss := n as real * s.maxLoss;
    CapIs(s, c, loss);
    hide Cap;
    if HasVol(s) {
      VolBudgetIs(s, c, stake);
      hide VolBudget;
      ScaledOrder(loss, VolBudget(s, c), s.vol.value);
    }
  }

  lemma CapIs(s: Signal, c: Policy, loss: real)
    ensures loss <= Cap(s, c) <==> loss * 100.0 <= s.equity * c.maxPositionPct
  {
    ShareOf(s.equity, c.maxPositionPct);
    var x := s.equity * c.maxPositionPct;
    assert Cap(s, c) == x / 100.0;
    hide Cap;
  }

  // The size of any signal: an error without a risk per spread, nothing without conviction, an error when
  // volatility has no risk unit to scale, and else the largest quantity the budgets carry, or nothing.
  lemma LargestWithinBudgets(s: Signal, c: Policy, m: real, stake: real, n: int)
    requires Conviction(s.p, s.abstaining, c, m) && Staked(s, c, m, stake) && n >= 1
    ensures var r := SizePosition(s, c);
      if s.maxLoss <= 0.0 then r.BadRisk?
      else if m == 0.0 then r == Qty(0)
      else if s.vol.Some? && s.vol.value > 0.0 && s.equity * c.rPct == 0.0 then r.DividedByZero?
      else r.Qty? && r.n >= 0 && (n <= r.n <==> Carried(s, c, stake, n))
  {
    hide Budget, VolBudget, Cap, Fits, Multiplier, RiskUnit, Conviction, Staked, Carried;
    ConvictionIs(s.p, s.abstaining, c);
    BudgetIsStake(s, c, m, stake);
    UnitIs(s, c);
    if s.maxLoss > 0.0 && (HasVol(s) ==> RiskUnit(s, c) != 0.0) {
      CarriedIs(s, c, stake, n);
      FitsExactly(Budget(s, c), s.maxLoss, n);
      FitsExactly(Cap(s, c), s.maxLoss, n);
      if HasVol(s) { FitsExactly(VolBudget(s, c), s.maxLoss, n); }
    }
  }

  lemma UnitIs(s: Signal, c: Policy)
    ensures RiskUnit(s, c) == 0.0 <==> s.equity * c.rPct == 0.0
  {
    ShareOf(s.equity, c.rPct);
  }

  // The haircuts bite: a context lets through at most its own share of the risk, none at zero or below, and a
  // losing streak that is long enough halves what is left.
  lemma HaircutsBite(s: Signal, c: Policy, m: real)
    requires Sane(c) && s.equity > 0.0 && Conviction(s.p, s.abstaining, c, m) && SizePosition(s, c).Qty?
    ensures var n := SizePosition(s, c).n;
      && n >= 0 && (s.context <= 0.0 ==> n == 0)
      && (n >= 1 ==>
            var risk := n as real * s.maxLoss;
            && risk <= Full(s, c, m) * Through(s.context) <= Full(s, c, m)
            && (s.streak >= c.halveAfter ==> 2.0 * risk <= Full(s, c, m) * Through(s.context)))
  {
    hide SizePosition, Conviction, Full, Carried;
    var base := Full(s, c, m) * Through(s.context);
    var stake := if s.streak >= c.halveAfter then base / 2.0 else base;
    var n := SizePosition(s, c).n;
    FullNonNegative(s, c, m);
    ThroughPart(Full(s, c, m), s.context);
    LargestWithinBudgets(s, c, m, stake, 1);
    SizedNeedsLoss(s, c);
    if n >= 1 {
      LargestWithinBudgets(s, c, m, stake, n);
      CarriedRisk(s, c, stake, n);
    }
  }

  lemma SizedNeedsLoss(s: Signal, c: Policy)
    requires SizePosition(s, c).Qty?
    ensures s.maxLoss > 0.0
  {
    hide Multiplier, RiskUnit, Fits, Budget, VolBudget, Cap;
  }

  lemma ThroughPart(full: real, context: real)
    requires full >= 0.0
    ensures 0.0 <= full * Through(context) <= full
    ensures context <= 0.0 ==> full * Through(context) == 0.0
  {
    Scale(0.0, Through(context), full);
    Scale(Through(context), 1.0, full);
  }

  lemma CarriedRisk(s: Signal, c: Policy, stake: real, n: int)
    requires Carried(s, c, stake, n) && n >= 1 && s.maxLoss > 0.0
    ensures 0.0 < n as real * s.maxLoss <= stake
  {
    ScaleStrict(0.0, n as real, s.maxLoss);
  }

  lemma FullNonNegative(s: Signal, c: Policy, m: real)
    requires Sane(c) && s.equity > 0.0 && Conviction(s.p, s.abstaining, c, m)
    ensures Full(s, c, m) >= 0.0
  {
    hide Conviction, Multiplier;
    ConvictionIs(s.p, s.abstaining, c);
    MultiplierRises(s.p, s.p, s.abstaining, c);
    Scale(0.0, s.equity, c.rPct);
    var unit := s.equity * c.rPct / 100.0;
    Scale(0.0, m, unit);
  }

  // The gate's size check.
  predicate PositionSizeOk(equity: real, maxLoss: real, qty: int, c: Policy) {
    qty >= 1 && qty as real * maxLoss <= equity * (c.maxPositionPct / 100.0)
  }

  lemma SizedPassesGate(s: Signal, c: Policy)
    requires SizePosition(s, c).Qty? && SizePosition(s, c).n >= 1
    ensures PositionSizeOk(s.equity, s.maxLoss, SizePosition(s, c).n, c)
  {
    hide Budget, VolBudget, Fits, Multiplier, RiskUnit;
    FitsExactly(Cap(s, c), s.maxLoss, SizePosition(s, c).n);
  }

  // More probability or context, or a shorter losing streak; all else alike.
  ghost predicate Better(a: Signal, b: Signal) {
    b == a.(p := b.p, context := b.context, streak := b.streak)
    && a.p <= b.p && a.context <= b.context && a.streak >= b.streak
  }

  lemma BudgetRises(a: Signal, b: Signal, c: Policy)
    requires Sane(c) && a.equity >= 0.0 && Better(a, b)
    ensures 0.0 <= Budget(a, c) <= Budget(b, c)
  {
    hide Multiplier;
    assert a.abstaining == b.abstaining && a.equity == b.equity;
    MultiplierRises(a.p, b.p, a.abstaining, c);
    Scale(0.0, a.equity, c.rPct / 100.0);
    var unit := RiskUnit(a, c);
    var ma, mb := Multiplier(a.p, a.abstaining, c), Multiplier(b.p, a.abstaining, c);
    var xa, xb := Larger(0.0, Smaller(a.context, 1.0)), Larger(0.0, Smaller(b.context, 1.0));
    ProductRises(unit, ma, mb, xa, xb);
  }

  lemma ProductRises(unit: real, ma: real, mb: real, xa: real, xb: real)
    requires unit >= 0.0 && 0.0 <= ma <= mb && 0.0 <= xa <= xb
    ensures 0.0 <= unit * ma * xa <= unit * mb * xb
  {
    Scale(0.0, ma, unit);
    Scale(ma, mb, unit);
    Scale(unit * ma, unit * mb, xa);
    Scale(0.0, xa, unit * ma);
    Scale(xa, xb, unit * mb);
  }

  lemma VolBudgetRises(a: Signal, b: Signal, c: Policy)
    requires Sane(c) && a.equity > 0.0 && a.targetVol >= 0.0 && Better(a, b) && HasVol(a) && RiskUnit(a, c) > 0.0
    ensures VolBudget(a, c) <= VolBudget(b, c)
  {
    hide Budget, Sane;
    BudgetRises(a, b, c);
    Divide(Budget(a, c), Budget(b, c), RiskUnit(a, c));
    var base := a.equity * a.targetVol / a.vol.value * (c.rPct / 100.0);
    VolBaseNonNegative(a, c);
    Scale(Budget(a, c) / RiskUnit(a, c), Budget(b, c) / RiskUnit(a, c), base);
  }

  lemma VolBaseNonNegative(s: Signal, c: Policy)
    requires Sane(c) && s.equity > 0.0 && s.targetVol >= 0.0 && HasVol(s)
    ensures s.equity * s.targetVol / s.vol.value * (c.rPct / 100.0) >= 0.0
  {
    Scale(0.0, s.targetVol, s.equity);
    Divide(0.0, s.equity * s.targetVol, s.vol.value);
    Scale(0.0, s.equity * s.targetVol / s.vol.value, c.rPct / 100.0);
  }

  lemma FitsRises(a: real, b: real, maxLoss: real)
    requires a <= b && maxLoss > 0.0
    ensures Fits(a, maxLoss) <= Fits(b, maxLoss)
  {
    FitsExactly(a, maxLoss, Fits(a, maxLoss));
    FitsExactly(b, maxLoss, Fits(a, maxLoss));
  }

  // Sizing never punishes a better signal: monotone in probability and context, antitone in streak.
  lemma SizeRises(a: Signal, b: Signal, c: Policy)
    requires Sane(c) && a.equity > 0.0 && a.maxLoss > 0.0 && a.targetVol >= 0.0 && Better(a, b)
    ensures SizePosition(a, c).Qty? && SizePosition(b, c).Qty? && SizePosition(a, c).n <= SizePosition(b, c).n
  {
    hide Budget, VolBudget, Cap, Fits, Multiplier, Sane;
    UnitPositive(a, c);
    MultiplierRises(a.p, b.p, a.abstaining, c);
    BudgetRises(a, b, c);
    FitsRises(Budget(a, c), Budget(b, c), a.maxLoss);
    if HasVol(a) {
      VolBudgetRises(a, b, c);
      FitsRises(VolBudget(a, c), VolBudget(b, c), a.maxLoss);
    }
    assert Cap(a, c) == Cap(b, c) by { SameCap(a, b, c); }
  }

  lemma UnitPositive(s: Signal, c: Policy)
    requires Sane(c) && s.equity > 0.0
    ensures RiskUnit(s, c) > 0.0
  {
    ScaleStrict(0.0, s.equity, c.rPct / 100.0);
  }

  lemma SameCap(a: Signal, b: Signal, c: Policy)
    requires a.equity == b.equity
    ensures Cap(a, c) == Cap(b, c)
  {
  }

  // ----- delta

  // Delta-dollars of one spread's legs; a leg without a quote adds nothing.
  function SpreadDelta(legs: seq<Leg>, deltas: map<string, real>, spot: real): real {
    if legs == [] then 0.0
    else
      var leg := legs[|legs| - 1];
      SpreadDelta(legs[..|legs| - 1], deltas, spot)
      + if leg.symbol in deltas
        then deltas[leg.symbol] * (if leg.side == Long then 1.0 else -1.0) * leg.ratio as real * 100.0 * spot
        else 0.0
  }

  // What a leg adds to a spread's delta-dollars: a hundred shares a contract, taken away when it is short.
  ghost function LegDelta(leg: Leg, deltas: map<string, real>, spot: real): real {
    if leg.symbol !in deltas then 0.0
    else
      var dollars := deltas[leg.symbol] * leg.ratio as real * 100.0 * spot;
      if leg.side == Long then dollars else -dollars
  }

  ghost function LegDeltas(legs: seq<Leg>, deltas: map<string, real>, spot: real): real {
    if legs == [] then 0.0 else LegDelta(legs[0], deltas, spot) + LegDeltas(legs[1..], deltas, spot)
  }

  lemma {:induction false} DeltaAddsUp(legs: seq<Leg>, deltas: map<string, real>, spot: real)
    ensures SpreadDelta(legs, deltas, spot) == LegDeltas(legs, deltas, spot)
    decreases |legs|
  {
    hide LegDelta;
    if legs != [] {
      var n := |legs| - 1;
      DeltaAddsUp(legs[..n], deltas, spot);
      OneDelta(legs, deltas, spot);
      LegDeltasLast(legs, deltas, spot);
    }
  }

  lemma {:induction false} LegDeltasLast(legs: seq<Leg>, deltas: map<string, real>, spot: real)
    requires legs != []
    ensures LegDeltas(legs, deltas, spot)
            == LegDeltas(legs[..|legs| - 1], deltas, spot) + LegDelta(legs[|legs| - 1], deltas, spot)
    decreases |legs|
  {
    hide LegDelta;
    if |legs| > 1 {
      LegDeltasLast(legs[1..], deltas, spot);
      assert legs[..|legs| - 1][1..] == legs[1..][..|legs| - 2];
    }
  }

  lemma OneDelta(legs: seq<Leg>, deltas: map<string, real>, spot: real)
    requires legs != []
    ensures SpreadDelta(legs, deltas, spot)
            == SpreadDelta(legs[..|legs| - 1], deltas, spot) + LegDelta(legs[|legs| - 1], deltas, spot)
  {
    var leg := legs[|legs| - 1];
    if leg.symbol in deltas { SignedShares(deltas[leg.symbol], leg.ratio as real, spot); }
  }

  lemma SignedShares(d: real, n: real, spot: real)
    ensures d * 1.0 * n * 100.0 * spot == d * n * 100.0 * spot
    ensures d * -1.0 * n * 100.0 * spot == -(d * n * 100.0 * spot)
  {
    assert d * -1.0 * n == -(d * n);
    var x := d * n * 100.0;
    assert -x * spot == -(x * spot);
  }

  // The book's delta with n more spreads on it.
  method PostTradeGreeks(book: real, legs: seq<Leg>, deltas: map<string, real>, spot: real, n: int) returns (total: real)
    ensures total == book + SpreadDelta(legs, deltas, spot) * n as real
  {
    total := book;
    var i := 0;
    while i < |legs|
      invariant 0 <= i <= |legs|
      invariant total == book + SpreadDelta(legs[..i], deltas, spot) * n as real
    {
      var leg := legs[i];
      assert legs[..i + 1][..i] == legs[..i];
      if leg.symbol in deltas {
        var sign := if leg.side == Long then 1.0 else -1.0;
        LegTerm(deltas[leg.symbol], sign, leg.ratio as real, n as real, spot);
        Distribute(SpreadDelta(legs[..i], deltas, spot), deltas[leg.symbol] * sign * leg.ratio as real * 100.0 * spot, n as real);
        total := total + deltas[leg.symbol] * sign * leg.ratio as real * n as real * 100.0 * spot;
      }
      i := i + 1;
    }
    assert legs[..i] == legs;
  }

  lemma LegTerm(d: real, sign: real, ratio: real, n: real, spot: real)
    ensures d * sign * ratio * n * 100.0 * spot == d * sign * ratio * 100.0 * spot * n
  {
    var a := d * sign * ratio;
    assert a * n * 100.0 * spot == a * 100.0 * spot * n;
  }

  lemma Distribute(a: real, b: real, n: real)
    ensures (a + b) * n == a * n + b * n
  {
  }

  function PostTrade(book: real, perSpread: real, n: int): real { book + perSpread * n as real }

  predicate InBand(book: real, perSpread: real, n: int, band: real) { Abs(PostTrade(book, perSpread, n)) <= band }

  // The largest quantity whose delta fits, or nothing.
  method FitDelta(requested: int, book: real, perSpread: real, band: real) returns (qty: int)
    ensures perSpread == 0.0 ==> qty == requested
    ensures perSpread != 0.0 && requested >= 1 ==> 0 <= qty <= requested
    ensures perSpread != 0.0 && qty >= 1 ==> InBand(book, perSpread, qty, band)
    ensures perSpread != 0.0 ==> forall n :: 1 <= n <= requested && n > qty ==> !InBand(book, perSpread, n, band)
  {
    qty := requested;
    if perSpread != 0.0 {
      while qty >= 1 && Abs(book + perSpread * qty as real) > band
        invariant qty <= requested && (requested >= 1 ==> qty >= 0)
        invariant forall n :: 1 <= n <= requested && n > qty ==> !InBand(book, perSpread, n, band)
        decreases qty
      {
        qty := qty - 1;
      }
    }
  }

  // Sizing's quantity, fitted: what the pipeline hands to the gate, from the Greeks it will be judged by.
  method FitAndJudge(requested: int, book: real, legs: seq<Leg>, deltas: map<string, real>, spot: real, band: real)
    returns (qty: int, vetoed: bool)
    requires requested >= 1
    ensures qty >= 1 ==> (vetoed <==> SpreadDelta(legs, deltas, spot) == 0.0 && Abs(book) > band)
    ensures SpreadDelta(legs, deltas, spot) == 0.0 ==> qty == requested
    ensures var each := SpreadDelta(legs, deltas, spot);
      each != 0.0 ==> 0 <= qty <= requested && (qty >= 1 ==> InBand(book, each, qty, band))
                      && forall n :: qty < n <= requested ==> !InBand(book, each, n, band)
  {
    var none := PostTradeGreeks(book, legs, deltas, spot, 0);
    var one := PostTradeGreeks(book, legs, deltas, spot, 1);
    qty := FitDelta(requested, none, one - none, band);
    var post := PostTradeGreeks(book, legs, deltas, spot, qty);
    vetoed := Abs(post) > band;
  }
}
