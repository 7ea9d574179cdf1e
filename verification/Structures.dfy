/**
 Defined-risk option structures: the coverage rule, the expiry payoff it bounds,
 and the maximum loss the rest of the system budgets with.
 */
module Structures {
  import opened Arithmetic
  import opened Wrappers

  datatype Right = Call | Put

  datatype Side = Long | Short

  datatype Kind =
    | BullPutSpread | BearCallSpread | IronCondor
    | CallDebitSpread | PutDebitSpread | LongStrangle

  datatype Leg = Leg(symbol: string, right: Right, strike: real, expiry: int, side: Side, ratio: nat)

  datatype Structure = Structure(kind: Kind, underlying: string, legs: seq<Leg>)
  {
    predicate IsCredit() {
      kind.BullPutSpread? || kind.BearCallSpread? || kind.IronCondor?
    }
  }

  datatype RiskError = TooFewLegs | MixedExpiries | Uncovered(right: Right)

  datatype Priced = Dollars(amount: real) | Undefined(risk: RiskError) | NoWidth | Implausible

  // ----- contract counts and strikes per right

  function Contracts(legs: seq<Leg>, right: Right, side: Side): nat
  {
    if legs == [] then 0
    else (if legs[0].right == right && legs[0].side == side then legs[0].ratio else 0)
         + Contracts(legs[1..], right, side)
  }

  function Strikes(legs: seq<Leg>, right: Right): (ks: seq<real>)
    ensures forall i :: 0 <= i < |legs| && legs[i].right == right ==> legs[i].strike in ks
    ensures forall k :: k in ks ==> exists i :: 0 <= i < |legs| && legs[i].right == right && legs[i].strike == k
  {
    if legs == [] then []
    else
      var rest := Strikes(legs[1..], right);
      assert forall k :: k in rest ==>
               exists i :: 1 <= i < |legs| && legs[i].right == right && legs[i].strike == k by {
        forall k | k in rest
          ensures exists i :: 1 <= i < |legs| && legs[i].right == right && legs[i].strike == k
        {
          var j :| 0 <= j < |legs[1..]| && legs[1..][j].right == right && legs[1..][j].strike == k;
          assert legs[j + 1] == legs[1..][j];
        }
      }
      if legs[0].right == right then [legs[0].strike] + rest else rest
  }

  function Highest(ks: seq<real>): (m: real)
    requires ks != []
    ensures m in ks && forall k :: k in ks ==> k <= m
  {
    if |ks| == 1 then ks[0]
    else
      var r := Highest(ks[1..]);
      assert forall k :: k in ks ==> k == ks[0] || k in ks[1..];
      if ks[0] > r then ks[0] else r
  }

  function Lowest(ks: seq<real>): (m: real)
    requires ks != []
    ensures m in ks && forall k :: k in ks ==> m <= k
  {
    if |ks| == 1 then ks[0]
    else
      var r := Lowest(ks[1..]);
      assert forall k :: k in ks ==> k == ks[0] || k in ks[1..];
      if ks[0] < r then ks[0] else r
  }

  // Distance between the outermost strikes of one right.
  function Span(legs: seq<Leg>, right: Right): (d: real)
    ensures d >= 0.0
  {
    var ks := Strikes(legs, right);
    if ks == [] then 0.0 else Highest(ks) - Lowest(ks)
  }

  // ----- the coverage rule

  predicate OneExpiry(legs: seq<Leg>) {
    forall i, j :: 0 <= i < |legs| && 0 <= j < |legs| ==> legs[i].expiry == legs[j].expiry
  }

  predicate Covered(legs: seq<Leg>, right: Right) {
    Contracts(legs, right, Short) <= Contracts(legs, right, Long)
  }

  predicate DefinedRisk(legs: seq<Leg>) {
    |legs| >= 2 && OneExpiry(legs) && Covered(legs, Call) && Covered(legs, Put)
  }

  // Each leg is its own contract, traded at least once.
  ghost predicate OneEach(legs: seq<Leg>) {
    && (forall i :: 0 <= i < |legs| ==> legs[i].ratio >= 1)
    && (forall i, j :: 0 <= i < j < |legs| ==> legs[i].symbol != legs[j].symbol)
  }

  datatype RiskCheck = Accepted | Refused(error: RiskError)

  lemma ContractsConcat(a: seq<Leg>, b: seq<Leg>, right: Right, side: Side)
    ensures Contracts(a + b, right, side) == Contracts(a, right, side) + Contracts(b, right, side)
  {
    if a == [] {
      assert a + b == b;
    } else {
      assert (a + b)[1..] == a[1..] + b;
      ContractsConcat(a[1..], b, right, side);
    }
  }

  // The check that runs at the gate and again at the last moment before the wire.
  method AssertDefinedRisk(structure: Structure) returns (r: RiskCheck)
    ensures r.Accepted? <==> DefinedRisk(structure.legs)
    ensures r == Refused(TooFewLegs) <==> |structure.legs| < 2
    ensures r == Refused(MixedExpiries) <==> |structure.legs| >= 2 && !OneExpiry(structure.legs)
    ensures r == RiskOf(structure.legs)
  {
    var legs := structure.legs;
    if |legs| < 2 {
      return Refused(TooFewLegs);
    }
    var i := 1;
    while i < |legs|
      invariant 1 <= i <= |legs|
      invariant forall j :: 0 <= j < i ==> legs[j].expiry == legs[0].expiry
    {
      if legs[i].expiry != legs[0].expiry {
        return Refused(MixedExpiries);
      }
      i := i + 1;
    }
    var rights := [Call, Put];
    var k := 0;
    while k < 2
      invariant 0 <= k <= 2
      invariant forall j :: 0 <= j < k ==> Covered(legs, rights[j])
    {
      var long, short, n := 0, 0, 0;
      while n < |legs|
        invariant 0 <= n <= |legs|
        invariant long == Contracts(legs[..n], rights[k], Long)
        invariant short == Contracts(legs[..n], rights[k], Short)
      {
        ContractsConcat(legs[..n], [legs[n]], rights[k], Long);
        ContractsConcat(legs[..n], [legs[n]], rights[k], Short);
        assert legs[..n + 1] == legs[..n] + [legs[n]];
        if legs[n].right == rights[k] && legs[n].side == Long {
          long := long + legs[n].ratio;
        }
        if legs[n].right == rights[k] && legs[n].side == Short {
          short := short + legs[n].ratio;
        }
        n := n + 1;
      }
      assert legs[..n] == legs;
      if short > long {
        assert k == 1 ==> Covered(legs, rights[0]);
        return Refused(Uncovered(rights[k]));
      }
      k := k + 1;
    }
    assert Covered(legs, rights[0]) && Covered(legs, rights[1]);
    return Accepted;
  }

  // ----- expiry payoff

  function Intrinsic(right: Right, strike: real, s: real): (v: real)
    ensures v >= 0.0
  {
    match right
    case Call => if s > strike then s - strike else 0.0
    case Put => if strike > s then strike - s else 0.0
  }

  // n contracts of something worth x each.
  function Times(n: nat, x: real): real {
    if n == 0 then 0.0 else x + Times(n - 1, x)
  }

  lemma {:induction false} TimesIsProduct(n: nat, x: real)
    ensures Times(n, x) == n as real * x
  {
    if n > 0 {
      TimesIsProduct(n - 1, x);
      assert n as real * x == (n - 1) as real * x + x;
    }
  }

  lemma {:induction false} TimesMono(n: nat, x: real, y: real)
    requires x <= y
    ensures Times(n, x) <= Times(n, y)
  {
    if n > 0 { TimesMono(n - 1, x, y); }
  }

  lemma {:induction false} TimesSplit(n: nat, m: nat, x: real)
    ensures Times(n + m, x) == Times(n, x) + Times(m, x)
  {
    if n > 0 { TimesSplit(n - 1, m, x); }
  }

  lemma {:induction false} TimesDiff(n: nat, x: real, y: real)
    ensures Times(n, x - y) == Times(n, x) - Times(n, y)
  {
    if n > 0 { TimesDiff(n - 1, x, y); }
  }

  lemma {:induction false} TimesZero(n: nat)
    ensures Times(n, 0.0) == 0.0
  {
    if n > 0 { TimesZero(n - 1); }
  }

  function LegPayoff(leg: Leg, s: real): real {
    var v := Times(leg.ratio, Intrinsic(leg.right, leg.strike, s));
    if leg.side == Long then v else -v
  }

  // Per-share value of the legs at expiry with the underlying at s.
  function Payoff(legs: seq<Leg>, s: real): real {
    if legs == [] then 0.0 else LegPayoff(legs[0], s) + Payoff(legs[1..], s)
  }

  function RightPayoff(legs: seq<Leg>, right: Right, s: real): real {
    if legs == [] then 0.0
    else (if legs[0].right == right then LegPayoff(legs[0], s) else 0.0) + RightPayoff(legs[1..], right, s)
  }

  lemma PayoffByRight(legs: seq<Leg>, s: real)
    ensures Payoff(legs, s) == RightPayoff(legs, Call, s) + RightPayoff(legs, Put, s)
  {
  }

  // Any long is worth at least the dearest-to-reach strike, any short at most the cheapest.
  lemma {:induction false} RightPayoffBound(legs: seq<Leg>, right: Right, floor: real, ceil: real, s: real)
    requires forall i :: 0 <= i < |legs| && legs[i].right == right ==>
               floor <= Intrinsic(right, legs[i].strike, s) <= ceil
    ensures RightPayoff(legs, right, s) >=
            Times(Contracts(legs, right, Long), floor) - Times(Contracts(legs, right, Short), ceil)
  {
    if legs != [] {
      var l, tail := legs[0], legs[1..];
      assert forall i :: 0 <= i < |tail| ==> tail[i] == legs[i + 1];
      RightPayoffBound(tail, right, floor, ceil, s);
      if l.right == right {
        var v := Intrinsic(right, l.strike, s);
        TimesMono(l.ratio, floor, v);
        TimesMono(l.ratio, v, ceil);
        TimesSplit(l.ratio, Contracts(tail, right, Long), floor);
        TimesSplit(l.ratio, Contracts(tail, right, Short), ceil);
      }
    }
  }

  // n longs worth at least `floor` against m <= n shorts worth at most `ceil`.
  lemma SpreadFloor(n: nat, m: nat, floor: real, ceil: real, span: real)
    requires m <= n && floor >= 0.0 && ceil - floor <= span
    ensures Times(n, floor) - Times(m, ceil) >= -Times(m, span)
  {
    TimesMono(m, ceil - floor, span);
    TimesDiff(m, ceil, floor);
    TimesSplit(m, n - m, floor);
    TimesMono(n - m, 0.0, floor);
    TimesZero(n - m);
  }

  lemma CoveredRightBound(legs: seq<Leg>, right: Right, s: real)
    requires Covered(legs, right)
    ensures RightPayoff(legs, right, s) >= -Times(Contracts(legs, right, Short), Span(legs, right))
  {
    var ks := Strikes(legs, right);
    var floor, ceil := 0.0, 0.0;
    if ks != [] {
      var a, b := Intrinsic(right, Highest(ks), s), Intrinsic(right, Lowest(ks), s);
      floor, ceil := if a < b then a else b, if a < b then b else a;
    }
    RightPayoffBound(legs, right, floor, ceil, s);
    SpreadFloor(Contracts(legs, right, Long), Contracts(legs, right, Short), floor, ceil, Span(legs, right));
  }

  function WorstByShorts(legs: seq<Leg>): real {
    Times(Contracts(legs, Call, Short), Span(legs, Call)) + Times(Contracts(legs, Put, Short), Span(legs, Put))
  }

  // What the coverage rule buys: a floor under the payoff at every terminal price.
  lemma DefinedRiskBoundsPayoff(legs: seq<Leg>, s: real)
    requires DefinedRisk(legs)
    ensures Payoff(legs, s) >= -WorstByShorts(legs)
  {
    PayoffByRight(legs, s);
    CoveredRightBound(legs, Call, s);
    CoveredRightBound(legs, Put, s);
  }

  // ----- why the call half of the rule is exactly what a floor needs

  ghost predicate StaysAbove(legs: seq<Leg>, b: real) {
    forall s: real :: s >= 0.0 ==> Payoff(legs, s) >= b
  }

  ghost predicate HasFloor(legs: seq<Leg>) {
    exists b: real :: StaysAbove(legs, b)
  }

  // Strike weight of the calls, signed as the payoff carries it.
  function CallIntercept(legs: seq<Leg>): real {
    if legs == [] then 0.0
    else
      var k := if legs[0].right == Call then Times(legs[0].ratio, legs[0].strike) else 0.0;
      (if legs[0].side == Long then -k else k) + CallIntercept(legs[1..])
  }

  // Past every strike the puts are worthless and the payoff is a straight line.
  lemma {:induction false} PayoffAbove(legs: seq<Leg>, s: real)
    requires forall i :: 0 <= i < |legs| ==> legs[i].strike <= s
    ensures Payoff(legs, s) ==
            Times(Contracts(legs, Call, Long), s) - Times(Contracts(legs, Call, Short), s) + CallIntercept(legs)
  {
    if legs != [] {
      var l, tail := legs[0], legs[1..];
      assert forall i :: 0 <= i < |tail| ==> tail[i] == legs[i + 1];
      PayoffAbove(tail, s);
      if l.right == Call {
        assert Intrinsic(Call, l.strike, s) == s - l.strike;
        TimesDiff(l.ratio, s, l.strike);
        TimesSplit(l.ratio, Contracts(tail, Call, Long), s);
        TimesSplit(l.ratio, Contracts(tail, Call, Short), s);
      } else {
        TimesZero(l.ratio);
      }
    }
  }

  function StrikeCeiling(legs: seq<Leg>): (c: real)
    ensures c >= 0.0 && forall i :: 0 <= i < |legs| ==> legs[i].strike <= c
  {
    if legs == [] then 0.0
    else
      var c := StrikeCeiling(legs[1..]);
      assert forall i :: 1 <= i < |legs| ==> legs[i] == legs[1..][i - 1];
      if legs[0].strike > c then legs[0].strike else c
  }

  // With more short calls than long, every proposed floor is broken at some price.
  lemma UncoveredCallsBreakFloor(legs: seq<Leg>, b: real) returns (s: real)
    requires !Covered(legs, Call)
    ensures s >= 0.0 && Payoff(legs, s) < b
  {
    var c, k := StrikeCeiling(legs), CallIntercept(legs);
    s := c + (if k > b then k - b + 1.0 else 1.0);
    PayoffAbove(legs, s);
    var n, m := Contracts(legs, Call, Long), Contracts(legs, Call, Short);
    TimesSplit(n + 1, m - n - 1, s);
    TimesMono(m - n - 1, 0.0, s);
    TimesZero(m - n - 1);
  }

  lemma PutPayoffFloor(legs: seq<Leg>, s: real)
    requires s >= 0.0
    ensures RightPayoff(legs, Put, s) >= -Times(Contracts(legs, Put, Short), StrikeCeiling(legs))
  {
    RightPayoffBound(legs, Put, 0.0, StrikeCeiling(legs), s);
    TimesZero(Contracts(legs, Put, Long));
  }

  // The expiry payoff of a leg list has a floor exactly when its calls are covered.
  lemma FloorIffCallsCovered(legs: seq<Leg>)
    ensures HasFloor(legs) <==> Covered(legs, Call)
  {
    if Covered(legs, Call) {
      var b := -Times(Contracts(legs, Call, Short), Span(legs, Call))
               - Times(Contracts(legs, Put, Short), StrikeCeiling(legs));
      forall s: real | s >= 0.0
        ensures Payoff(legs, s) >= b
      {
        PayoffByRight(legs, s);
        CoveredRightBound(legs, Call, s);
        PutPayoffFloor(legs, s);
      }
      assert StaysAbove(legs, b);
    } else if HasFloor(legs) {
      var b: real :| StaysAbove(legs, b);
      var s := UncoveredCallsBreakFloor(legs, b);
      assert false;
    }
  }

  // ----- maximum loss per spread

  function RiskOf(legs: seq<Leg>): RiskCheck {
    if |legs| < 2 then Refused(TooFewLegs)
    else if !OneExpiry(legs) then Refused(MixedExpiries)
    else if !Covered(legs, Call) then Refused(Uncovered(Call))
    else if !Covered(legs, Put) then Refused(Uncovered(Put))
    else Accepted
  }

  // The span of one right, when it carries at least two strikes.
  function Wing(legs: seq<Leg>, right: Right): (w: seq<real>) {
    if |Strikes(legs, right)| >= 2 then [Span(legs, right)] else []
  }

  // Widest wing over the rights that carry at least two strikes.
  function Width(legs: seq<Leg>): (w: Option<real>) {
    var widths := Wing(legs, Call) + Wing(legs, Put);
    if widths == [] then None else Some(Highest(widths))
  }

  function MaxLossPerSpread(structure: Structure, net: real): Priced {
    var risk := RiskOf(structure.legs);
    if risk.Refused? then Undefined(risk.error)
    else if !structure.IsCredit() then
      if Abs(net) <= 0.0 then Implausible else Dollars(Abs(net) * 100.0)
    else
      match Width(structure.legs)
      case None => NoWidth
      case Some(width) =>
        if Abs(net) >= width then Implausible else Dollars((width - Abs(net)) * 100.0)
  }

  // ----- the price of a loss, in strikes

  // Two legs of one right, this far apart.
  ghost predicate Wide(legs: seq<Leg>, right: Right, d: real) {
    exists i, j :: 0 <= i < j < |legs| && legs[i].right == right && legs[j].right == right
                   && Abs(legs[i].strike - legs[j].strike) == d
  }

  ghost predicate Paired(legs: seq<Leg>, right: Right) {
    exists i, j :: 0 <= i < j < |legs| && legs[i].right == right && legs[j].right == right
  }

  lemma StrikesTail(legs: seq<Leg>, right: Right)
    requires legs != []
    ensures |Strikes(legs, right)| == |Strikes(legs[1..], right)| + (if legs[0].right == right then 1 else 0)
  {
  }

  lemma LegIn(legs: seq<Leg>, right: Right, i: nat)
    requires i < |legs| && legs[i].right == right
    ensures legs[i].strike in Strikes(legs, right)
  {
  }

  lemma LegAt(legs: seq<Leg>, right: Right, k: real) returns (i: nat)
    requires k in Strikes(legs, right)
    ensures i < |legs| && legs[i].right == right && legs[i].strike == k
  {
    i :| 0 <= i < |legs| && legs[i].right == right && legs[i].strike == k;
  }

  lemma {:induction false} TwoStrikes(legs: seq<Leg>, right: Right, i: nat, j: nat)
    requires i < j < |legs| && legs[i].right == right && legs[j].right == right
    ensures |Strikes(legs, right)| >= 2
  {
    hide Strikes;
    StrikesTail(legs, right);
    var tail := legs[1..];
    if i > 0 {
      TwoStrikes(tail, right, i - 1, j - 1);
    } else {
      assert tail[j - 1] == legs[j];
      LegIn(tail, right, j - 1);
    }
  }

  lemma {:induction false} TwoLegsOf(legs: seq<Leg>, right: Right) returns (i: nat, j: nat)
    requires |Strikes(legs, right)| >= 2
    ensures i < j < |legs| && legs[i].right == right && legs[j].right == right
    decreases |legs|
  {
    var tail := legs[1..];
    StrikesTail(legs, right);
    if legs[0].right == right {
      var k := LegAt(tail, right, Strikes(tail, right)[0]);
      i, j := 0, k + 1;
    } else {
      i, j := TwoLegsOf(tail, right);
      i, j := i + 1, j + 1;
    }
  }

  lemma PairedCount(legs: seq<Leg>, right: Right)
    ensures |Strikes(legs, right)| >= 2 <==> Paired(legs, right)
  {
    hide Strikes;
    if |Strikes(legs, right)| >= 2 {
      var i, j := TwoLegsOf(legs, right);
    } else if Paired(legs, right) {
      var i, j :| 0 <= i < j < |legs| && legs[i].right == right && legs[j].right == right;
      TwoStrikes(legs, right, i, j);
    }
  }

  lemma SpanReached(legs: seq<Leg>, right: Right)
    requires Paired(legs, right)
    ensures Wide(legs, right, Span(legs, right))
  {
    PairedCount(legs, right);
    hide Strikes;
    var ks := Strikes(legs, right);
    var a := LegAt(legs, right, Highest(ks));
    var b := LegAt(legs, right, Lowest(ks));
    if a == b {
      var i, j :| 0 <= i < j < |legs| && legs[i].right == right && legs[j].right == right;
      LegIn(legs, right, i);
      LegIn(legs, right, j);
      assert legs[i].strike == legs[j].strike;
      assert Abs(legs[i].strike - legs[j].strike) == Span(legs, right);
    } else if a < b {
      assert Abs(legs[a].strike - legs[b].strike) == Span(legs, right);
    } else {
      assert Abs(legs[b].strike - legs[a].strike) == Span(legs, right);
    }
  }

  lemma SpanBounds(legs: seq<Leg>, right: Right, i: nat, j: nat)
    requires i < |legs| && j < |legs| && legs[i].right == right && legs[j].right == right
    ensures Abs(legs[i].strike - legs[j].strike) <= Span(legs, right)
  {
    hide Strikes;
    LegIn(legs, right, i);
    LegIn(legs, right, j);
  }

  // A span is the distance of some two legs, and of no two more.
  lemma SpanIsWidest(legs: seq<Leg>, right: Right)
    requires Paired(legs, right)
    ensures Wide(legs, right, Span(legs, right))
    ensures forall d :: Wide(legs, right, d) ==> d <= Span(legs, right)
  {
    hide Span;
    SpanReached(legs, right);
    forall d | Wide(legs, right, d) ensures d <= Span(legs, right) {
      var i, j :| 0 <= i < j < |legs| && legs[i].right == right && legs[j].right == right
                  && Abs(legs[i].strike - legs[j].strike) == d;
      SpanBounds(legs, right, i, j);
    }
  }

  // The widest distance between two legs of one right, over both rights; none without such a pair.
  lemma WidthIsWidest(legs: seq<Leg>)
    ensures Width(legs).None? <==> !Paired(legs, Call) && !Paired(legs, Put)
    ensures Width(legs).Some? ==>
              var w := Width(legs).value;
              (Wide(legs, Call, w) || Wide(legs, Put, w)) && forall d :: Wide(legs, Call, d) || Wide(legs, Put, d) ==> d <= w
  {
    hide Strikes, Span, Wide, Paired;
    WingIs(legs, Call);
    WingIs(legs, Put);
    var widths := Wing(legs, Call) + Wing(legs, Put);
    if widths != [] {
      assert Highest(widths) in widths;
      assert forall x :: x in Wing(legs, Call) || x in Wing(legs, Put) ==> x in widths;
    }
  }

  lemma WingIs(legs: seq<Leg>, right: Right)
    ensures Wing(legs, right) == if Paired(legs, right) then [Span(legs, right)] else []
    ensures Paired(legs, right) ==> Wide(legs, right, Span(legs, right))
    ensures forall d :: Wide(legs, right, d) ==> Paired(legs, right) && d <= Span(legs, right)
  {
    hide Span, Strikes;
    PairedCount(legs, right);
    if Paired(legs, right) { SpanIsWidest(legs, right); }
  }

  // What an accepted structure can lose, priced: a debit its price, unless that is nothing; a credit the
  // widest distance of its legs of one right less what it received, unless that is all of it or more.
  lemma PricedByStrikes(s: Structure, net: real)
    requires DefinedRisk(s.legs)
    ensures var r, paid := MaxLossPerSpread(s, net), if net < 0.0 then -net else net;
      if !s.IsCredit() then r == if net == 0.0 then Implausible else Dollars(paid * 100.0)
      else if !Paired(s.legs, Call) && !Paired(s.legs, Put) then r == NoWidth
      else
        exists w :: (Wide(s.legs, Call, w) || Wide(s.legs, Put, w))
          && (forall d :: Wide(s.legs, Call, d) || Wide(s.legs, Put, d) ==> d <= w)
          && r == if paid >= w then Implausible else Dollars((w - paid) * 100.0)
  {
    hide Width, Wide, Paired;
    WidthIsWidest(s.legs);
  }

  function Wings(legs: seq<Leg>, rights: seq<Right>): seq<real> {
    if rights == [] then [] else Wings(legs, rights[..|rights| - 1]) + Wing(legs, rights[|rights| - 1])
  }

  lemma NoWings(legs: seq<Leg>)
    ensures Wings(legs, []) == []
  {
  }

  lemma OneMoreWing(legs: seq<Leg>, rights: seq<Right>, k: nat)
    requires k < |rights|
    ensures Wings(legs, rights[..k + 1]) == Wings(legs, rights[..k]) + Wing(legs, rights[k])
  {
    assert rights[..k + 1][..k] == rights[..k];
  }

  lemma WingsOfBoth(legs: seq<Leg>)
    ensures Wings(legs, [Call, Put]) == Wing(legs, Call) + Wing(legs, Put)
  {
    hide Wing;
    assert [Call, Put][..1] == [Call] && [Call][..0] == [];
    assert Wings(legs, [Call]) == Wings(legs, []) + Wing(legs, Call);
    assert Wings(legs, [Call, Put]) == Wings(legs, [Call, Put][..1]) + Wing(legs, Put);
  }

  // The widest wing over the rights with at least two strikes governs a credit.
  method MaxLoss(structure: Structure, net: real) returns (r: Priced)
    ensures r == MaxLossPerSpread(structure, net)
  {
    var check := AssertDefinedRisk(structure);
    if check.Refused? {
      return Undefined(check.error);
    }
    if !structure.IsCredit() {
      return if Abs(net) <= 0.0 then Implausible else Dollars(Abs(net) * 100.0);
    }
    hide Wing, Highest, RiskOf, Wings;
    WingsOfBoth(structure.legs);
    var widths: seq<real> := [];
    var rights := [Call, Put];
    NoWings(structure.legs);
    var k := 0;
    while k < 2
      invariant 0 <= k <= 2 && widths == Wings(structure.legs, rights[..k])
    {
      OneMoreWing(structure.legs, rights, k);
      widths := widths + Wing(structure.legs, rights[k]);
      k := k + 1;
    }
    assert rights[..2] == rights;
    if widths == [] {
      return NoWidth;
    }
    var width := Highest(widths);
    return if Abs(net) >= width then Implausible else Dollars((width - Abs(net)) * 100.0);
  }
}
