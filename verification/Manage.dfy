/**
 The exit ladder: every open position is walked through the same barriers in order
 of severity, against its own ratcheted peak.
 */
module Manage {
  import opened Arithmetic
  import opened Wrappers
  import opened World

  datatype Rules = Rules(
    creditTakePct: real, debitTakePct: real, stopMultiple: real, debitStopPct: real,
    minHoursToExpiry: real, exitOnThesis: bool, thesisFraction: real,
    trailArmPct: real, trailKeepPct: real, breakevenPct: real,
    noWeekendCarry: bool, nearStopFraction: real, maxUnprotectedPct: real)

  ghost predicate Sensible(r: Rules) {
    && r.creditTakePct >= 0.0 && r.debitTakePct >= 0.0 && r.stopMultiple >= 0.0 && r.debitStopPct >= 0.0
    && r.trailArmPct >= 0.0 && r.trailKeepPct >= 0.0 && r.breakevenPct >= 0.0 && r.nearStopFraction >= 0.0
  }

  datatype Direction = Up | Down | EitherWay

  // What does not change from tick to tick.
  datatype Trade = Trade(
    credit: bool, qty: nat, entry: real, maxLossPerSpread: real, openedAt: int, horizonHours: real,
    direction: Direction, thesisMovePct: real, entrySpot: real)

  datatype Bell = Bell(friday: bool, equity: real, macroBeforeOpen: bool, corporate: bool)

  // One look at the market: the mark, the clock and the obligations of the moment.
  datatype Look = Look(
    now: int, mark: real, hoursToExpiry: real, spot: real,
    deadline: Option<int>, macro: bool, bell: Option<Bell>)

  datatype Decision = Hold | Close(barrier: Barrier, profitable: bool)

  function Pnl(t: Trade, mark: real): real { (mark - t.entry) * 100.0 * t.qty as real }

  // Dollars of premium, both directions.
  function Premium(t: Trade): real { Abs(t.entry) * 100.0 * t.qty as real }

  function Target(t: Trade, r: Rules): real {
    Premium(t) * ((if t.credit then r.creditTakePct else r.debitTakePct) / 100.0)
  }

  function MaxLoss(t: Trade): real { t.maxLossPerSpread * t.qty as real }

  function StopLoss(t: Trade, r: Rules): real {
    Premium(t) * (if t.credit then r.stopMultiple else r.debitStopPct / 100.0)
  }

  function StopLevel(t: Trade, r: Rules): real {
    if StopLoss(t, r) <= MaxLoss(t) then -StopLoss(t, r) else -MaxLoss(t)
  }

  // The peaks that arm the trailing lock and the break-even stop, and the share of a peak kept.
  function TrailArm(t: Trade, r: Rules): real { Target(t, r) * (r.trailArmPct / 100.0) }

  function BreakevenArm(t: Trade, r: Rules): real { Target(t, r) * (r.breakevenPct / 100.0) }

  function Keep(peak: real, r: Rules): real { peak * (r.trailKeepPct / 100.0) }

  function Moved(t: Trade, spot: real): real {
    if t.entrySpot <= 0.0 || spot <= 0.0 then 0.0 else (spot - t.entrySpot) / t.entrySpot * 100.0
  }

  // Movement completes a directional thesis one way only, and never completes short premium's.
  predicate ThesisAchieved(t: Trade, spot: real, r: Rules) {
    && t.thesisMovePct > 0.0 && t.entrySpot > 0.0
    && var need := t.thesisMovePct * r.thesisFraction;
       match t.direction
       case Up => Moved(t, spot) >= need
       case Down => -Moved(t, spot) >= need
       case EitherWay => !t.credit && Abs(Moved(t, spot)) >= need
  }

  predicate MayNotCarry(t: Trade, r: Rules, pnl: real, stop: real, bell: Bell) {
    || (r.noWeekendCarry && bell.friday)
    || (bell.macroBeforeOpen && t.credit)
    || bell.corporate
    || (pnl < 0.0
        && ((stop < 0.0 && pnl <= stop * r.nearStopFraction)
            || MaxLoss(t) - Abs(stop) > bell.equity * r.maxUnprotectedPct / 100.0))
  }

  predicate HorizonElapsed(t: Trade, now: int) { now as real >= t.openedAt as real + t.horizonHours * 3600.0 }

  predicate Due(deadline: Option<int>, now: int) { deadline.Some? && now >= deadline.value }

  function Evaluate(t: Trade, r: Rules, look: Look, peak: real): Decision {
    var pnl := Pnl(t, look.mark);
    var stop, target := StopLevel(t, r), Target(t, r);
    if Due(look.deadline, look.now) then Close(Deadline, pnl > 0.0)
    else if look.hoursToExpiry < r.minHoursToExpiry then Close(ExpiryRisk, pnl > 0.0)
    else if look.macro && t.credit then Close(MacroRisk, pnl > 0.0)
    else if r.exitOnThesis && ThesisAchieved(t, look.spot, r) then Close(Barrier.ThesisComplete, pnl > 0.0)
    else if pnl <= stop then Close(Barrier.Stop, false)
    else if look.bell.Some? && MayNotCarry(t, r, pnl, stop, look.bell.value) then Close(Barrier.Bell, pnl > 0.0)
    else if peak >= TrailArm(t, r) && pnl <= Keep(peak, r) then Close(Trail, pnl > 0.0)
    else if peak >= BreakevenArm(t, r) && pnl <= 0.0 then Close(Breakeven, pnl > 0.0)
    else if pnl >= target then Close(Profit, true)
    else if HorizonElapsed(t, look.now) && pnl > 0.0 then Close(Time, pnl > 0.0)
    else Hold
  }

  // ----- severity

  function Rank(b: Barrier): nat {
    match b
    case Deadline => 0
    case ExpiryRisk => 1
    case MacroRisk => 2
    case ThesisComplete => 3
    case Stop => 4
    case Bell => 5
    case Trail => 6
    case Breakeven => 7
    case Profit => 8
    case Time => 9
    case _ => 10
  }

  // Whether a barrier on its own would close the position.
  predicate Fires(b: Barrier, t: Trade, r: Rules, look: Look, peak: real) {
    var pnl := Pnl(t, look.mark);
    match b
    case Deadline => Due(look.deadline, look.now)
    case ExpiryRisk => look.hoursToExpiry < r.minHoursToExpiry
    case MacroRisk => look.macro && t.credit
    case ThesisComplete => r.exitOnThesis && ThesisAchieved(t, look.spot, r)
    case Stop => pnl <= StopLevel(t, r)
    case Bell => look.bell.Some? && MayNotCarry(t, r, pnl, StopLevel(t, r), look.bell.value)
    case Trail => peak >= TrailArm(t, r) && pnl <= Keep(peak, r)
    case Breakeven => peak >= BreakevenArm(t, r) && pnl <= 0.0
    case Profit => pnl >= Target(t, r)
    case Time => HorizonElapsed(t, look.now) && pnl > 0.0
    case _ => false
  }

  // ----- what warrants each barrier, in dollars and prices

  // The share of the forecast move that completes the thesis, as a fraction of the entry price.
  ghost function Needed(t: Trade, r: Rules): real { t.thesisMovePct * r.thesisFraction / 100.0 }

  ghost predicate Thesis(t: Trade, spot: real, need: real) {
    match t.direction
    case Up => spot >= t.entrySpot * (1.0 + need)
    case Down => spot <= t.entrySpot * (1.0 - need)
    case EitherWay => !t.credit && (spot >= t.entrySpot * (1.0 + need) || spot <= t.entrySpot * (1.0 - need))
  }

  // The position's P&L, the premium it was opened for and the most it can lose, in dollars.
  ghost predicate Dollars(t: Trade, mark: real, pnl: real, premium: real, most: real) {
    && pnl == (mark - t.entry) * 100.0 * t.qty as real
    && premium == (if t.entry >= 0.0 then t.entry else -t.entry) * 100.0 * t.qty as real
    && most == t.maxLossPerSpread * t.qty as real
  }

  // Its target, a share of the premium, and its stop, a loss in premiums or a share of them, capped at the
  // most it can lose.
  ghost predicate Aims(t: Trade, r: Rules, premium: real, most: real, target: real, stop: real) {
    && target == premium * (if t.credit then r.creditTakePct else r.debitTakePct) / 100.0
    && var loss := if t.credit then premium * r.stopMultiple else premium * r.debitStopPct / 100.0;
       stop == if loss <= most then loss else most
  }

  ghost predicate Carriable(t: Trade, r: Rules, pnl: real, most: real, stop: real, bell: Bell) {
    && !(r.noWeekendCarry && bell.friday) && !(bell.macroBeforeOpen && t.credit) && !bell.corporate
    && (pnl >= 0.0
        || ((stop <= 0.0 || pnl > -(stop * r.nearStopFraction))
            && (most - (if stop >= 0.0 then stop else -stop)) * 100.0 <= bell.equity * r.maxUnprotectedPct))
  }

  ghost predicate Warrants(b: Barrier, t: Trade, r: Rules, look: Look, peak: real,
                           pnl: real, most: real, target: real, stop: real)
  {
    match b
    case Deadline => look.deadline.Some? && look.now >= look.deadline.value
    case ExpiryRisk => look.hoursToExpiry < r.minHoursToExpiry
    case MacroRisk => look.macro && t.credit
    case ThesisComplete =>
      && r.exitOnThesis && t.thesisMovePct > 0.0 && t.entrySpot > 0.0
      && Thesis(t, if look.spot > 0.0 then look.spot else t.entrySpot, Needed(t, r))
    case Stop => pnl <= -stop
    case Bell => look.bell.Some? && !Carriable(t, r, pnl, most, stop, look.bell.value)
    case Trail => peak * 100.0 >= target * r.trailArmPct && pnl * 100.0 <= peak * r.trailKeepPct
    case Breakeven => peak * 100.0 >= target * r.breakevenPct && pnl <= 0.0
    case Profit => pnl >= target
    case Time => look.now as real >= t.openedAt as real + t.horizonHours * 3600.0 && pnl > 0.0
    case _ => false
  }

  function Change(entry: real, spot: real): real
    requires entry > 0.0
  {
    (spot - entry) / entry
  }

  lemma ChangeOrder(entry: real, spot: real, y: real)
    requires entry > 0.0
    ensures Change(entry, spot) <= y <==> spot <= entry * (1.0 + y)
    ensures Change(entry, spot) >= y <==> spot >= entry * (1.0 + y)
  {
    var x := Change(entry, spot);
    assert x * entry == spot - entry;
    ScaledOrder(x, y, entry);
    ScaledOrder(y, x, entry);
    OneMore(entry, y);
  }

  lemma OneMore(entry: real, y: real)
    ensures entry * (1.0 + y) == entry + y * entry
  {
  }

  lemma ThesisInPrices(t: Trade, spot: real, r: Rules)
    ensures ThesisAchieved(t, spot, r) <==>
      t.thesisMovePct > 0.0 && t.entrySpot > 0.0
      && Thesis(t, if spot > 0.0 then spot else t.entrySpot, Needed(t, r))
  {
    if t.entrySpot > 0.0 {
      var at, need := if spot > 0.0 then spot else t.entrySpot, t.thesisMovePct * r.thesisFraction;
      MovedIsChange(t, spot, at);
      ChangeOrder(t.entrySpot, at, need / 100.0);
      ChangeOrder(t.entrySpot, at, -(need / 100.0));
      hide Moved, Change;
      assert 1.0 - need / 100.0 == 1.0 + -(need / 100.0);
    }
  }

  lemma MovedIsChange(t: Trade, spot: real, at: real)
    requires t.entrySpot > 0.0 && at == if spot > 0.0 then spot else t.entrySpot
    ensures Moved(t, spot) == Change(t.entrySpot, at) * 100.0
  {
    if spot <= 0.0 { assert Change(t.entrySpot, at) == 0.0; }
  }

  lemma ThesisFires(t: Trade, r: Rules, look: Look, peak: real, pnl: real, most: real, target: real, stop: real)
    ensures Fires(Barrier.ThesisComplete, t, r, look, peak) <==>
            Warrants(Barrier.ThesisComplete, t, r, look, peak, pnl, most, target, stop)
  {
    hide ThesisAchieved, Thesis, Needed;
    ThesisInPrices(t, look.spot, r);
  }

  lemma AimsAre(t: Trade, r: Rules, mark: real, pnl: real, premium: real, most: real, target: real, stop: real)
    requires Dollars(t, mark, pnl, premium, most) && Aims(t, r, premium, most, target, stop)
    ensures Pnl(t, mark) == pnl && Premium(t) == premium && MaxLoss(t) == most
    ensures Target(t, r) == target && StopLevel(t, r) == -stop
  {
    assert Premium(t) == premium;
    assert MaxLoss(t) == most;
    TargetIs(t, r, premium, most, target, stop);
    StopIs(t, r, premium, most, target, stop);
  }

  lemma TargetIs(t: Trade, r: Rules, premium: real, most: real, target: real, stop: real)
    requires Premium(t) == premium && Aims(t, r, premium, most, target, stop)
    ensures Target(t, r) == target
  {
    hide Premium;
    ShareOf(premium, if t.credit then r.creditTakePct else r.debitTakePct);
  }

  lemma StopIs(t: Trade, r: Rules, premium: real, most: real, target: real, stop: real)
    requires Premium(t) == premium && MaxLoss(t) == most && Aims(t, r, premium, most, target, stop)
    ensures StopLevel(t, r) == -stop
  {
    hide Premium, MaxLoss;
    ShareOf(premium, r.debitStopPct);
  }

  lemma BellFires(t: Trade, r: Rules, pnl: real, most: real, stop: real, bell: Bell)
    requires MaxLoss(t) == most
    ensures MayNotCarry(t, r, pnl, -stop, bell) <==> !Carriable(t, r, pnl, most, stop, bell)
  {
    hide MaxLoss;
    var near := stop * r.nearStopFraction;
    assert -stop * r.nearStopFraction == -near;
    assert Abs(-stop) == if stop >= 0.0 then stop else -stop;
    var allowed := bell.equity * r.maxUnprotectedPct;
    assert most - Abs(-stop) > allowed / 100.0 <==> (most - Abs(-stop)) * 100.0 > allowed;
  }

  lemma ArmedAt(peak: real, target: real, pct: real)
    ensures peak >= target * (pct / 100.0) <==> peak * 100.0 >= target * pct
  {
    ShareOf(target, pct);
    var x := target * pct;
    assert peak >= x / 100.0 <==> peak * 100.0 >= x;
  }

  lemma KeptAt(pnl: real, peak: real, pct: real)
    ensures pnl <= peak * (pct / 100.0) <==> pnl * 100.0 <= peak * pct
  {
    ShareOf(peak, pct);
    var x := peak * pct;
    assert pnl <= x / 100.0 <==> pnl * 100.0 <= x;
  }

  // Each barrier fires exactly when the position's dollars, prices and clock warrant it.
  lemma FiresWhenWarranted(b: Barrier, t: Trade, r: Rules, look: Look, peak: real,
                           pnl: real, premium: real, most: real, target: real, stop: real)
    requires Dollars(t, look.mark, pnl, premium, most) && Aims(t, r, premium, most, target, stop)
    ensures Fires(b, t, r, look, peak) <==> Warrants(b, t, r, look, peak, pnl, most, target, stop)
  {
    hide Dollars, Aims, Pnl, Target, StopLevel, MayNotCarry, ThesisAchieved, Thesis, MaxLoss, Carriable;
    AimsAre(t, r, look.mark, pnl, premium, most, target, stop);
    match b
    case ThesisComplete => ThesisFires(t, r, look, peak, pnl, most, target, stop);
    case Bell => if look.bell.Some? { BellFires(t, r, pnl, most, stop, look.bell.value); }
    case Trail =>
      ArmedAt(peak, target, r.trailArmPct);
      KeptAt(pnl, peak, r.trailKeepPct);
    case Breakeven => ArmedAt(peak, target, r.breakevenPct);
    case _ =>
  }

  lemma MostSevereFires(t: Trade, r: Rules, look: Look, peak: real, b: Barrier)
    ensures var d := Evaluate(t, r, look, peak);
      && (d.Hold? ==> !Fires(b, t, r, look, peak))
      && (d.Close? ==> Fires(d.barrier, t, r, look, peak))
      && (d.Close? && Rank(b) < Rank(d.barrier) ==> !Fires(b, t, r, look, peak))
  {
    hide Pnl, StopLevel, Target, MayNotCarry, ThesisAchieved, HorizonElapsed, TrailArm, BreakevenArm, Keep, Due;
  }

  // A close names the most severe barrier that is warranted; a hold means that none is.
  lemma MostSevereWins(t: Trade, r: Rules, look: Look, peak: real, b: Barrier,
                       pnl: real, premium: real, most: real, target: real, stop: real)
    requires Dollars(t, look.mark, pnl, premium, most) && Aims(t, r, premium, most, target, stop)
    ensures var d := Evaluate(t, r, look, peak);
      && (d.Hold? ==> !Warrants(b, t, r, look, peak, pnl, most, target, stop))
      && (d.Close? ==> Warrants(d.barrier, t, r, look, peak, pnl, most, target, stop))
      && (d.Close? && Rank(b) < Rank(d.barrier) ==> !Warrants(b, t, r, look, peak, pnl, most, target, stop))
  {
    hide Evaluate, Fires, Warrants, Dollars, Aims, Rank;
    MostSevereFires(t, r, look, peak, b);
    FiresWhenWarranted(b, t, r, look, peak, pnl, premium, most, target, stop);
    var d := Evaluate(t, r, look, peak);
    if d.Close? { FiresWhenWarranted(d.barrier, t, r, look, peak, pnl, premium, most, target, stop); }
  }

  // With nothing more severe due, the thesis closes a trade exactly when the underlying has gone the share
  // of the forecast move that completes it, the way the trade needs: up, down, or for a debit either way.
  lemma ThesisCloses(t: Trade, r: Rules, look: Look, peak: real)
    requires r.exitOnThesis && t.thesisMovePct > 0.0 && t.entrySpot > 0.0 && look.spot > 0.0
    requires look.deadline.Some? ==> look.now < look.deadline.value
    requires look.hoursToExpiry >= r.minHoursToExpiry && !(look.macro && t.credit)
    ensures var need, d := t.thesisMovePct * r.thesisFraction / 100.0, Evaluate(t, r, look, peak);
      var rose, fell := look.spot >= t.entrySpot * (1.0 + need), look.spot <= t.entrySpot * (1.0 - need);
      (d.Close? && d.barrier.ThesisComplete?) <==>
        (match t.direction
         case Up => rose
         case Down => fell
         case EitherWay => !t.credit && (rose || fell))
  {
    hide Pnl, StopLevel, Target, MayNotCarry, ThesisAchieved, HorizonElapsed, TrailArm, BreakevenArm, Keep;
    ThesisInPrices(t, look.spot, r);
  }

  // ----- the peak kept by the store, over a path of looks

  function PeakAt(t: Trade, path: seq<Look>, i: nat): real
    requires i < |path|
  {
    Larger(if i == 0 then 0.0 else PeakAt(t, path, i - 1), Pnl(t, path[i].mark))
  }

  lemma {:induction false} PeakIsBest(t: Trade, path: seq<Look>, i: nat, j: nat)
    requires j <= i < |path|
    ensures PeakAt(t, path, i) >= Pnl(t, path[j].mark) && PeakAt(t, path, i) >= 0.0
    ensures PeakAt(t, path, i) == 0.0 || exists k :: 0 <= k <= i && PeakAt(t, path, i) == Pnl(t, path[k].mark)
  {
    hide Pnl;
    if i > 0 {
      if j < i { PeakIsBest(t, path, i - 1, j); } else { PeakIsBest(t, path, i - 1, i - 1); }
    }
  }

  function DecisionAt(t: Trade, r: Rules, path: seq<Look>, i: nat): Decision
    requires i < |path|
  {
    Evaluate(t, r, path[i], PeakAt(t, path, i))
  }

  // The first look that closes, if any does.
  function FirstClose(t: Trade, r: Rules, path: seq<Look>, i: nat): (f: Option<nat>)
    requires i <= |path|
    ensures f.Some? ==> i <= f.value < |path| && DecisionAt(t, r, path, f.value).Close?
                        && forall j :: i <= j < f.value ==> DecisionAt(t, r, path, j).Hold?
    ensures f.None? ==> forall j :: i <= j < |path| ==> DecisionAt(t, r, path, j).Hold?
    decreases |path| - i
  {
    if i == |path| then None else if DecisionAt(t, r, path, i).Close? then Some(i) else FirstClose(t, r, path, i + 1)
  }

  // ----- what holding means

  // A position held at look i of any path lies strictly between its stop and its target, keeps its
  // share of the best it ever was once armed, and past its horizon is not in profit.
  lemma HeldRun(t: Trade, r: Rules, path: seq<Look>, i: nat, j: nat)
    requires j <= i < |path| && DecisionAt(t, r, path, i).Hold?
    ensures var pnl, best := Pnl(t, path[i].mark), Pnl(t, path[j].mark);
      && StopLevel(t, r) < pnl < Target(t, r)
      && (best >= TrailArm(t, r) && r.trailKeepPct >= 0.0 ==> pnl > Keep(best, r))
      && (best >= BreakevenArm(t, r) ==> pnl > 0.0)
      && (HorizonElapsed(t, path[i].now) ==> pnl <= 0.0)
  {
    hide Pnl, StopLevel, Target, MayNotCarry, ThesisAchieved, HorizonElapsed, PeakAt, TrailArm, BreakevenArm;
    PeakIsBest(t, path, i, j);
    if r.trailKeepPct >= 0.0 {
      Scale(Pnl(t, path[j].mark), PeakAt(t, path, i), r.trailKeepPct / 100.0);
    }
  }

  lemma PremiumNonNegative(t: Trade)
    ensures Premium(t) >= 0.0
  {
    var a, q := Abs(t.entry) * 100.0, t.qty as real;
    Scale(0.0, a, q);
  }

  // A stop is a loss, never wider than the structure's worst case.
  lemma StopWithinMaxLoss(t: Trade, r: Rules)
    requires Sensible(r) && t.maxLossPerSpread >= 0.0
    ensures -MaxLoss(t) <= StopLevel(t, r) <= 0.0
    ensures Target(t, r) >= 0.0
  {
    hide Premium;
    PremiumNonNegative(t);
    Scale(0.0, t.maxLossPerSpread, t.qty as real);
    Scale(0.0, Premium(t), if t.credit then r.stopMultiple else r.debitStopPct / 100.0);
    Scale(0.0, Premium(t), (if t.credit then r.creditTakePct else r.debitTakePct) / 100.0);
  }

  // Every close is labelled by the sign of its P&L, but for one: a flat position with nothing to
  // aim for meets its zero target and is called a win.
  lemma LabelIsSign(t: Trade, r: Rules, look: Look, peak: real)
    requires Sensible(r) && t.maxLossPerSpread >= 0.0 && Evaluate(t, r, look, peak).Close?
    ensures var d := Evaluate(t, r, look, peak);
      (d.profitable <==> Pnl(t, look.mark) > 0.0)
      <==> !(d.barrier == Profit && Target(t, r) == 0.0 && Pnl(t, look.mark) == 0.0)
  {
    hide Pnl, StopLevel, Target, MayNotCarry, ThesisAchieved, HorizonElapsed;
    StopWithinMaxLoss(t, r);
  }

  // ----- tightening

  // Everything that may only bring an exit forward; the rest alike.
  ghost predicate Tighter(a: Rules, b: Rules) {
    && a.creditTakePct <= b.creditTakePct && a.debitTakePct <= b.debitTakePct
    && a.stopMultiple <= b.stopMultiple && a.debitStopPct <= b.debitStopPct
    && a.trailArmPct <= b.trailArmPct && a.breakevenPct <= b.breakevenPct && a.trailKeepPct >= b.trailKeepPct
    && a.minHoursToExpiry == b.minHoursToExpiry && a.exitOnThesis == b.exitOnThesis && a.thesisFraction == b.thesisFraction
    && a.noWeekendCarry == b.noWeekendCarry && a.nearStopFraction == b.nearStopFraction
    && a.maxUnprotectedPct == b.maxUnprotectedPct
  }

  lemma TighterLevels(t: Trade, a: Rules, b: Rules)
    requires Sensible(a) && Sensible(b) && Tighter(a, b) && t.maxLossPerSpread >= 0.0
    ensures StopLevel(t, b) <= StopLevel(t, a) && 0.0 <= Target(t, a) <= Target(t, b)
    ensures TrailArm(t, a) <= TrailArm(t, b) && BreakevenArm(t, a) <= BreakevenArm(t, b)
  {
    hide Premium, Target, StopLevel;
    TargetShrinks(t, a, b);
    StopRises(t, a, b);
    ScaleBoth(Target(t, a), Target(t, b), a.trailArmPct / 100.0, b.trailArmPct / 100.0);
    ScaleBoth(Target(t, a), Target(t, b), a.breakevenPct / 100.0, b.breakevenPct / 100.0);
  }

  lemma StopRises(t: Trade, a: Rules, b: Rules)
    requires Sensible(a) && Sensible(b) && Tighter(a, b)
    ensures StopLevel(t, b) <= StopLevel(t, a)
  {
    hide Premium, MaxLoss;
    PremiumNonNegative(t);
    Scale(if t.credit then a.stopMultiple else a.debitStopPct / 100.0,
          if t.credit then b.stopMultiple else b.debitStopPct / 100.0, Premium(t));
  }

  lemma TargetShrinks(t: Trade, a: Rules, b: Rules)
    requires Sensible(a) && Sensible(b) && Tighter(a, b)
    ensures 0.0 <= Target(t, a) <= Target(t, b)
  {
    hide Premium;
    PremiumNonNegative(t);
    var x := (if t.credit then a.creditTakePct else a.debitTakePct) / 100.0;
    var y := (if t.credit then b.creditTakePct else b.debitTakePct) / 100.0;
    Scale(0.0, Premium(t), x);
    Scale(x, y, Premium(t));
  }

  lemma TighterBell(t: Trade, a: Rules, b: Rules, pnl: real, bell: Bell)
    requires Sensible(a) && Sensible(b) && Tighter(a, b) && t.maxLossPerSpread >= 0.0
    requires pnl > StopLevel(t, a) && MayNotCarry(t, b, pnl, StopLevel(t, b), bell)
    ensures MayNotCarry(t, a, pnl, StopLevel(t, a), bell)
  {
    hide StopLevel, MaxLoss;
    TighterLevels(t, a, b);
    StopWithinMaxLoss(t, a);
    Scale(StopLevel(t, b), StopLevel(t, a), a.nearStopFraction);
  }

  // At one look with one peak, whatever the looser rules close the tighter rules close.
  lemma TighterCloses(t: Trade, a: Rules, b: Rules, look: Look, peak: real)
    requires Sensible(a) && Sensible(b) && Tighter(a, b) && t.maxLossPerSpread >= 0.0 && peak >= 0.0
    requires Evaluate(t, b, look, peak).Close?
    ensures Evaluate(t, a, look, peak).Close?
  {
    hide Pnl, StopLevel, Target, MayNotCarry, HorizonElapsed, TrailArm, BreakevenArm, Keep, Moved;
    var pnl := Pnl(t, look.mark);
    TighterLevels(t, a, b);
    KeepGrows(peak, a, b);
    assert ThesisAchieved(t, look.spot, a) == ThesisAchieved(t, look.spot, b) by { hide Evaluate; }
    hide ThesisAchieved;
    if look.bell.Some? && pnl > StopLevel(t, a) && MayNotCarry(t, b, pnl, StopLevel(t, b), look.bell.value) {
      TighterBell(t, a, b, pnl, look.bell.value);
    }
  }

  lemma KeepGrows(peak: real, a: Rules, b: Rules)
    requires Tighter(a, b) && peak >= 0.0
    ensures Keep(peak, b) <= Keep(peak, a)
  {
    Scale(b.trailKeepPct / 100.0, a.trailKeepPct / 100.0, peak);
  }

  // Tightening never moves the first close of a path later.
  lemma TighteningNeverLater(t: Trade, a: Rules, b: Rules, path: seq<Look>)
    requires Sensible(a) && Sensible(b) && Tighter(a, b) && t.maxLossPerSpread >= 0.0
    requires FirstClose(t, b, path, 0).Some?
    ensures FirstClose(t, a, path, 0).Some? && FirstClose(t, a, path, 0).value <= FirstClose(t, b, path, 0).value
  {
    hide Evaluate, PeakAt, Tighter, Sensible;
    var i := FirstClose(t, b, path, 0).value;
    PeakIsBest(t, path, i, i);
    TighterCloses(t, a, b, path[i], PeakAt(t, path, i));
    assert DecisionAt(t, a, path, i).Close?;
  }
}
