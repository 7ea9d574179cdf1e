/**
 Re-running a recorded P&L path through the barriers, against the live run that
 recorded it.
 */
module Replay {
  import opened Arithmetic
  import opened Wrappers
  import opened World
  import opened Manage

  // A closed position's row: the horizon may be missing, the maximum loss is for all its spreads.
  datatype Row = Row(trade: Trade, horizon: Option<real>, maxLoss: real, expiryDay: Option<int>)

  // A tick of the log; older ones carry no spot.
  datatype Recorded = Recorded(pnl: real, ts: int, spot: Option<real>)

  function Spreads(qty: nat): real { if qty == 0 then 1.0 else qty as real }

  // The position as the live manager sees it: a missing or zero horizon means a day.
  function LiveTrade(row: Row): Trade {
    row.trade.(horizonHours := if row.horizon.GetOr(0.0) == 0.0 then 24.0 else row.horizon.value,
               maxLossPerSpread := row.maxLoss / Spreads(row.trade.qty))
  }

  predicate HasSpot(ticks: seq<Recorded>) {
    forall i :: 0 <= i < |ticks| ==> ticks[i].spot.Some? && ticks[i].spot.value != 0.0
  }

  function ReplayTrade(row: Row, hasSpot: bool): Trade {
    var t := row.trade.(horizonHours := row.horizon.GetOr(0.0),
                        maxLossPerSpread := row.maxLoss / Spreads(row.trade.qty));
    if hasSpot then t else t.(direction := EitherWay, thesisMovePct := 0.0, entrySpot := 0.0)
  }

  const DAY: int := 86400

  // Whole days between the tick and the expiry date; an unknown expiry is far away.
  function ReplayHours(row: Row, now: int): real {
    match row.expiryDay
    case None => 720.0
    case Some(day) => Larger(0.0, 24.0 * (day - now / DAY) as real)
  }

  function DayDeadline(deadlines: map<int, int>, fallback: Option<int>, now: int): Option<int> {
    if now / DAY in deadlines then Some(deadlines[now / DAY]) else fallback
  }

  // The mark that produces exactly the recorded P&L.
  function MarkFor(t: Trade, pnl: real): real {
    if t.qty == 0 then t.entry else t.entry + pnl / (100.0 * t.qty as real)
  }

  function ReplayLook(row: Row, tick: Recorded, hasSpot: bool, deadlines: map<int, int>, fallback: Option<int>): Look {
    Look(tick.ts, MarkFor(row.trade, tick.pnl), ReplayHours(row, tick.ts), if hasSpot then tick.spot.GetOr(0.0) else 0.0,
         DayDeadline(deadlines, fallback, tick.ts), false, None)
  }

  function ReplayPath(row: Row, ticks: seq<Recorded>, hasSpot: bool, deadlines: map<int, int>, fallback: Option<int>): seq<Look> {
    seq(|ticks|, i requires 0 <= i < |ticks| => ReplayLook(row, ticks[i], hasSpot, deadlines, fallback))
  }

  // What a replayed tick shows: its own clock, its spot if every tick has one, the deadline of its day or else
  // the configured one, whole days to the expiry or thirty when that is unknown; no macro window and no bell.
  lemma ReplaySees(row: Row, tick: Recorded, hasSpot: bool, deadlines: map<int, int>, fallback: Option<int>)
    ensures var look, day := ReplayLook(row, tick, hasSpot, deadlines, fallback), tick.ts / 86400;
      && look.now == tick.ts && !look.macro && look.bell.None?
      && look.spot == (if hasSpot && tick.spot.Some? then tick.spot.value else 0.0)
      && look.deadline == (if day in deadlines then Some(deadlines[day]) else fallback)
      && look.hoursToExpiry == (if row.expiryDay.None? then 720.0
                                else if row.expiryDay.value <= day then 0.0 else 24.0 * (row.expiryDay.value - day) as real)
  {
    if row.expiryDay.Some? { Daily(row.expiryDay.value - tick.ts / 86400); }
  }

  lemma Daily(days: int)
    ensures Larger(0.0, 24.0 * days as real) == if days <= 0 then 0.0 else 24.0 * days as real
  {
  }

  // The trade a replay judges: the live one's size, entry and loss; its thesis only if spots were recorded.
  lemma ReplayJudges(row: Row, hasSpot: bool)
    ensures var t := ReplayTrade(row, hasSpot);
      && t.credit == row.trade.credit && t.qty == row.trade.qty && t.entry == row.trade.entry && t.openedAt == row.trade.openedAt
      && (row.trade.qty >= 1 ==> t.maxLossPerSpread * row.trade.qty as real == row.maxLoss)
      && t.horizonHours == (if row.horizon.Some? then row.horizon.value else 0.0)
      && (if hasSpot then t.direction == row.trade.direction && t.thesisMovePct == row.trade.thesisMovePct && t.entrySpot == row.trade.entrySpot
          else t.thesisMovePct == 0.0 && t.entrySpot == 0.0)
    ensures var t := LiveTrade(row);
      && t == row.trade.(horizonHours := t.horizonHours, maxLossPerSpread := t.maxLossPerSpread)
      && t.horizonHours == (if row.horizon.None? || row.horizon.value == 0.0 then 24.0 else row.horizon.value)
      && (row.trade.qty >= 1 ==> t.maxLossPerSpread * row.trade.qty as real == row.maxLoss)
  {
    if row.trade.qty >= 1 { Each(row.maxLoss, row.trade.qty as real); }
  }

  lemma Each(total: real, n: real)
    requires n > 0.0
    ensures total / n * n == total
  {
  }

  // ----- the replay loop

  datatype Fired = Fired(tick: nat, barrier: Barrier, pnl: real)

  method ReplayExits(row: Row, ticks: seq<Recorded>, rules: Rules, deadlines: map<int, int>, fallback: Option<int>)
    returns (fired: Option<Fired>)
    ensures var t, path := ReplayTrade(row, HasSpot(ticks)), ReplayPath(row, ticks, HasSpot(ticks), deadlines, fallback);
      var first := FirstClose(t, rules, path, 0);
      && (fired.Some? <==> first.Some?)
      && (fired.Some? ==> fired.value.tick == first.value && fired.value.tick < |ticks|
                          && fired.value.pnl == ticks[fired.value.tick].pnl
                          && fired.value.barrier == DecisionAt(t, rules, path, first.value).barrier)
  {
    hide Evaluate, Pnl, ReplayLook;
    var hasSpot := HasSpot(ticks);
    var t := ReplayTrade(row, hasSpot);
    ghost var path := ReplayPath(row, ticks, hasSpot, deadlines, fallback);
    var peak := 0.0;
    var i := 0;
    while i < |ticks|
      invariant 0 <= i <= |ticks|
      invariant peak == if i == 0 then 0.0 else PeakAt(t, path, i - 1)
      invariant FirstClose(t, rules, path, 0) == FirstClose(t, rules, path, i)
    {
      var look := ReplayLook(row, ticks[i], hasSpot, deadlines, fallback);
      PnlReplayed(row, ticks[i], hasSpot, deadlines, fallback);
      peak := Larger(peak, Pnl(t, look.mark));
      assert path[i] == look;
      assert peak == PeakAt(t, path, i);
      var decision := Evaluate(t, rules, look, peak);
      if decision.Close? {
        return Some(Fired(i, decision.barrier, ticks[i].pnl));
      }
      i := i + 1;
    }
    return None;
  }

  // The reconstructed mark gives the recorded P&L back, unless there is nothing to mark.
  lemma PnlReplayed(row: Row, tick: Recorded, hasSpot: bool, deadlines: map<int, int>, fallback: Option<int>)
    ensures Pnl(ReplayTrade(row, hasSpot), ReplayLook(row, tick, hasSpot, deadlines, fallback).mark)
            == if row.trade.qty == 0 then 0.0 else tick.pnl
  {
    if row.trade.qty != 0 { DivideBack(tick.pnl, row.trade.qty as real); }
  }

  lemma DivideBack(x: real, q: real)
    requires q != 0.0
    ensures x / (100.0 * q) * 100.0 * q == x
  {
    var y := x / (100.0 * q);
    assert y * (100.0 * q) == x;
    assert y * 100.0 * q == y * (100.0 * q);
  }

  // ----- the live side: a peak that ratchets in the store

  class OpenPosition {
    var peak: real

    constructor ()
      ensures peak == 0.0
    {
      peak := 0.0;
    }

    method RecordPeak(pnl: real) returns (p: real)
      modifies this
      ensures p == peak == Larger(old(peak), pnl)
    {
      if pnl > peak {
        peak := pnl;
      }
      p := peak;
    }

    // One pass of the manager over this position.
    method ManageLook(t: Trade, rules: Rules, look: Look) returns (d: Decision)
      modifies this
      ensures peak == Larger(old(peak), Pnl(t, look.mark)) && d == Evaluate(t, rules, look, peak)
    {
      var p := RecordPeak(Pnl(t, look.mark));
      d := Evaluate(t, rules, look, p);
    }

    // Managed look after look until it closes.
    method ManageUntilClosed(t: Trade, rules: Rules, path: seq<Look>) returns (closed: Option<nat>)
      requires peak == 0.0
      modifies this
      ensures closed == FirstClose(t, rules, path, 0)
    {
      hide Evaluate, Pnl;
      var i := 0;
      while i < |path|
        invariant 0 <= i <= |path|
        invariant peak == if i == 0 then 0.0 else PeakAt(t, path, i - 1)
        invariant FirstClose(t, rules, path, 0) == FirstClose(t, rules, path, i)
      {
        var d := ManageLook(t, rules, path[i]);
        assert peak == PeakAt(t, path, i);
        if d.Close? {
          return Some(i);
        }
        i := i + 1;
      }
      return None;
    }
  }

  // ----- the replay refines the live run

  // The log of a live path: its P&L, its clock, and its spot where one was recorded.
  ghost predicate Logs(row: Row, path: seq<Look>, ticks: seq<Recorded>) {
    |ticks| == |path| && forall i :: 0 <= i < |path| ==> LogsLook(row, path[i], ticks[i])
  }

  ghost predicate LogsLook(row: Row, look: Look, tick: Recorded) {
    tick.pnl == Pnl(LiveTrade(row), look.mark) && tick.ts == look.now
    && (tick.spot.Some? ==> tick.spot.value == look.spot)
  }

  // What a replay cannot see did not decide: macro windows, the bell, expiry, unrecorded spots.
  ghost predicate Replayable(row: Row, rules: Rules, look: Look, hasSpot: bool, deadlines: map<int, int>, fallback: Option<int>) {
    var t := LiveTrade(row);
    && look.hoursToExpiry >= rules.minHoursToExpiry && ReplayHours(row, look.now) >= rules.minHoursToExpiry
    && look.deadline == DayDeadline(deadlines, fallback, look.now)
    && !(look.macro && t.credit)
    && (look.bell.Some? ==> !MayNotCarry(t, rules, Pnl(t, look.mark), StopLevel(t, rules), look.bell.value))
    && (hasSpot || !(rules.exitOnThesis && ThesisAchieved(t, look.spot, rules)))
  }

  lemma SameLevels(row: Row, rules: Rules, hasSpot: bool)
    ensures StopLevel(ReplayTrade(row, hasSpot), rules) == StopLevel(LiveTrade(row), rules)
    ensures Target(ReplayTrade(row, hasSpot), rules) == Target(LiveTrade(row), rules)
  {
  }

  lemma SamePnl(row: Row, look: Look, tick: Recorded, hasSpot: bool, deadlines: map<int, int>, fallback: Option<int>)
    requires LogsLook(row, look, tick)
    ensures Pnl(ReplayTrade(row, hasSpot), ReplayLook(row, tick, hasSpot, deadlines, fallback).mark)
            == Pnl(LiveTrade(row), look.mark)
  {
    PnlReplayed(row, tick, hasSpot, deadlines, fallback);
    if row.trade.qty == 0 { ZeroSpreads(look.mark - row.trade.entry); }
  }

  lemma ZeroSpreads(x: real)
    ensures x * 100.0 * 0.0 == 0.0
  {
  }

  lemma SameDecision(row: Row, rules: Rules, look: Look, tick: Recorded, hasSpot: bool,
                     deadlines: map<int, int>, fallback: Option<int>, peak: real)
    requires row.horizon.Some? && row.horizon.value != 0.0
    requires LogsLook(row, look, tick) && Replayable(row, rules, look, hasSpot, deadlines, fallback)
    requires hasSpot ==> tick.spot.Some?
    ensures Evaluate(ReplayTrade(row, hasSpot), rules, ReplayLook(row, tick, hasSpot, deadlines, fallback), peak)
            == Evaluate(LiveTrade(row), rules, look, peak)
  {
    hide Pnl, StopLevel, Target, MayNotCarry, ReplayHours, DayDeadline, MarkFor;
    SameLevels(row, rules, hasSpot);
    SamePnl(row, look, tick, hasSpot, deadlines, fallback);
    assert HorizonElapsed(ReplayTrade(row, hasSpot), look.now) == HorizonElapsed(LiveTrade(row), look.now);
    assert ThesisAchieved(ReplayTrade(row, hasSpot), if hasSpot then look.spot else 0.0, rules)
           == (hasSpot && ThesisAchieved(LiveTrade(row), look.spot, rules)) by { hide HorizonElapsed, Evaluate; }
  }

  lemma {:induction false} SamePeak(row: Row, rules: Rules, path: seq<Look>, ticks: seq<Recorded>, hasSpot: bool,
                                    deadlines: map<int, int>, fallback: Option<int>, i: nat)
    requires Logs(row, path, ticks) && i < |path|
    ensures PeakAt(ReplayTrade(row, hasSpot), ReplayPath(row, ticks, hasSpot, deadlines, fallback), i)
            == PeakAt(LiveTrade(row), path, i)
  {
    hide Pnl, ReplayTrade, LiveTrade, ReplayLook, LogsLook;
    SamePnl(row, path[i], ticks[i], hasSpot, deadlines, fallback);
    if i > 0 { SamePeak(row, rules, path, ticks, hasSpot, deadlines, fallback, i - 1); }
  }

  // Under conditions a log can witness, the replay closes on the live run's first closing tick, for
  // the same barrier and with the same label.
  lemma {:induction false} ReplayMatchesLive(row: Row, rules: Rules, path: seq<Look>, ticks: seq<Recorded>,
                                             deadlines: map<int, int>, fallback: Option<int>, i: nat)
    requires row.horizon.Some? && row.horizon.value != 0.0 && Logs(row, path, ticks) && i <= |path|
    requires forall j :: 0 <= j < |path| ==> Replayable(row, rules, path[j], HasSpot(ticks), deadlines, fallback)
    ensures var t, again := ReplayTrade(row, HasSpot(ticks)), ReplayPath(row, ticks, HasSpot(ticks), deadlines, fallback);
      && FirstClose(t, rules, again, i) == FirstClose(LiveTrade(row), rules, path, i)
      && (forall j :: i <= j < |path| ==> DecisionAt(t, rules, again, j) == DecisionAt(LiveTrade(row), rules, path, j))
    decreases |path| - i
  {
    hide Evaluate, PeakAt, Replayable, LogsLook, ReplayTrade, LiveTrade, ReplayLook;
    if i < |path| {
      var hasSpot := HasSpot(ticks);
      SamePeak(row, rules, path, ticks, hasSpot, deadlines, fallback, i);
      SameDecision(row, rules, path[i], ticks[i], hasSpot, deadlines, fallback, PeakAt(LiveTrade(row), path, i));
      ReplayMatchesLive(row, rules, path, ticks, deadlines, fallback, i + 1);
    }
  }
}
