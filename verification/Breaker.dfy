/**
 The circuit breaker around every broker call. A call is an attempt that starts at
 one reading of the clock and, unless it is rejected, ends at a later one.
 */
module Breaker {
  import opened Arithmetic

  datatype State = Closed | Open | HalfOpen

  datatype Memory = Memory(state: State, failures: nat, openedAt: real)

  datatype Settings = Settings(threshold: int, cooldown: real)

  datatype Attempt = Attempt(start: real, end: real, succeeds: bool)

  datatype Outcome = Rejected | Succeeded | Failed

  // Reading the state lets an open breaker half-open once its cooldown is over.
  function Observed(m: Memory, c: Settings, now: real): Memory {
    if m.state.Open? && now - m.openedAt >= c.cooldown then m.(state := HalfOpen) else m
  }

  function AfterFailure(m: Memory, c: Settings, now: real): Memory {
    var n := m.failures + 1;
    if m.state.HalfOpen? || n >= c.threshold then Memory(Open, n, now) else m.(failures := n)
  }

  function Called(m: Memory, c: Settings, a: Attempt): (Memory, Outcome) {
    var seen := Observed(m, c, a.start);
    if seen.state.Open? then (seen, Rejected)
    else if a.succeeds then (Memory(Closed, 0, seen.openedAt), Succeeded)
    else (AfterFailure(seen, c, a.end), Failed)
  }

  class CircuitBreaker {
    const settings: Settings
    var state: State
    var failures: nat
    var openedAt: real

    constructor (settings: Settings)
      ensures this.settings == settings && View() == Fresh()
    {
      this.settings := settings;
      state, failures, openedAt := Closed, 0, 0.0;
    }

    function View(): Memory
      reads this
    {
      Memory(state, failures, openedAt)
    }

    method Observe(now: real) returns (s: State)
      modifies this
      ensures View() == Observed(old(View()), settings, now) && s == state
    {
      if state.Open? && now - openedAt >= settings.cooldown {
        state := HalfOpen;
      }
      return state;
    }

    method Call(a: Attempt) returns (outcome: Outcome)
      modifies this
      ensures (View(), outcome) == Called(old(View()), settings, a)
    {
      var s := Observe(a.start);
      if s.Open? {
        return Rejected;
      }
      if a.succeeds {
        failures := 0;
        state := Closed;
        return Succeeded;
      }
      failures := failures + 1;
      if state.HalfOpen? || failures >= settings.threshold {
        state := Open;
        openedAt := a.end;
      }
      return Failed;
    }
  }

  // ----- runs under a monotone clock

  function Fresh(): Memory { Memory(Closed, 0, 0.0) }

  function After(m: Memory, c: Settings, run: seq<Attempt>): Memory {
    if run == [] then m else Called(After(m, c, run[..|run| - 1]), c, run[|run| - 1]).0
  }

  function OutcomeAt(m: Memory, c: Settings, run: seq<Attempt>, i: nat): Outcome
    requires i < |run|
  {
    Called(After(m, c, run[..i]), c, run[i]).1
  }

  // A rejected attempt takes no time of its own.
  ghost predicate Monotone(run: seq<Attempt>) {
    && (forall i :: 0 <= i < |run| ==> run[i].start <= run[i].end)
    && (forall i, j :: 0 <= i < j < |run| ==> run[i].end <= run[j].start)
  }

  // Failures since the last success; rejections count for nothing.
  function Streak(m: Memory, c: Settings, run: seq<Attempt>): nat {
    if run == [] then 0
    else
      match OutcomeAt(m, c, run, |run| - 1)
      case Rejected => Streak(m, c, run[..|run| - 1])
      case Succeeded => 0
      case Failed => Streak(m, c, run[..|run| - 1]) + 1
  }

  // The counter is the current streak of failures, and a closed breaker is always short of its threshold.
  lemma {:induction false} ClosedMeansFewFailures(c: Settings, run: seq<Attempt>)
    ensures var m := After(Fresh(), c, run);
      && m.failures == Streak(Fresh(), c, run)
      && (m.state.Closed? ==> m.failures < Max(1, c.threshold))
      && (!m.state.Closed? ==> m.failures >= 1)
    decreases |run|
  {
    if run != [] { ClosedMeansFewFailures(c, run[..|run| - 1]); }
  }

  // An attempt is rejected exactly while the breaker is open and its cooldown is not over.
  lemma RejectedExactly(c: Settings, run: seq<Attempt>, i: nat)
    requires i < |run|
    ensures var m := After(Fresh(), c, run[..i]);
            OutcomeAt(Fresh(), c, run, i).Rejected? <==> m.state.Open? && run[i].start < m.openedAt + c.cooldown
  {
    hide After;
  }

  // What reaches the broker decides the state: a success closes the breaker with a clean slate; a failure
  // opens it, from then on, if it was not closed or was the last the threshold allows.
  lemma CallDecides(c: Settings, run: seq<Attempt>, i: nat)
    requires i < |run| && !OutcomeAt(Fresh(), c, run, i).Rejected?
    ensures var m, m' := After(Fresh(), c, run[..i]), After(Fresh(), c, run[..i + 1]);
      && (OutcomeAt(Fresh(), c, run, i).Succeeded? <==> run[i].succeeds)
      && (run[i].succeeds ==> m'.state.Closed? && m'.failures == 0)
      && (!run[i].succeeds ==>
            m'.failures == m.failures + 1
            && if !m.state.Closed? || m.failures + 1 >= c.threshold then m'.state.Open? && m'.openedAt == run[i].end
               else m'.state.Closed? && m'.openedAt == m.openedAt)
  {
    hide After;
    OneMore(c, run[..i + 1]);
    assert run[..i + 1][..i] == run[..i] && run[..i + 1][i] == run[i];
    assert After(Fresh(), c, run[..i + 1]) == Called(After(Fresh(), c, run[..i]), c, run[i]).0;
  }

  // Once open, the breaker stays as it is until the cooldown is over.
  lemma {:induction false} StaysOpen(c: Settings, run: seq<Attempt>, i: nat, j: nat)
    requires i < j <= |run| && After(Fresh(), c, run[..i + 1]).state.Open?
    requires forall k :: i < k < j ==> run[k].start - After(Fresh(), c, run[..i + 1]).openedAt < c.cooldown
    ensures After(Fresh(), c, run[..j]) == After(Fresh(), c, run[..i + 1])
    decreases j
  {
    if i + 1 < j {
      StaysOpen(c, run, i, j - 1);
      assert run[..j][..j - 1] == run[..j - 1];
    }
  }

  // Nothing reaches the broker within a cooldown of an opening.
  lemma NoCallDuringCooldown(c: Settings, run: seq<Attempt>, i: nat, j: nat)
    requires Monotone(run) && i < j < |run| && After(Fresh(), c, run[..i + 1]).state.Open?
    requires run[j].start - After(Fresh(), c, run[..i + 1]).openedAt < c.cooldown
    ensures OutcomeAt(Fresh(), c, run, j).Rejected?
  {
    forall k | i < k < j ensures run[k].start - After(Fresh(), c, run[..i + 1]).openedAt < c.cooldown {
      assert run[k].start <= run[k].end <= run[j].start;
    }
    StaysOpen(c, run, i, j);
  }

  // Calls that reached the broker.
  function Calls(m: Memory, c: Settings, run: seq<Attempt>): nat {
    if run == [] then 0
    else Calls(m, c, run[..|run| - 1]) + if OutcomeAt(m, c, run, |run| - 1).Rejected? then 0 else 1
  }

  function Cooldowns(n: nat, cooldown: real): real { if n == 0 then 0.0 else Cooldowns(n - 1, cooldown) + cooldown }

  lemma {:induction false} CooldownsProduct(n: nat, cooldown: real)
    ensures Cooldowns(n, cooldown) == n as real * cooldown
  {
    if n > 0 {
      CooldownsProduct(n - 1, cooldown);
      assert n as real * cooldown == (n - 1) as real * cooldown + cooldown;
    }
  }

  // While the broker only fails: closed until the threshold, then one call per cooldown.
  lemma OneMore(c: Settings, run: seq<Attempt>)
    ensures run == [] ==> After(Fresh(), c, run) == Fresh() && Calls(Fresh(), c, run) == 0
    ensures run != [] ==>
              var before, last := run[..|run| - 1], run[|run| - 1];
              var r := Called(After(Fresh(), c, before), c, last);
              && After(Fresh(), c, run) == r.0
              && Calls(Fresh(), c, run) == Calls(Fresh(), c, before) + (if r.1.Rejected? then 0 else 1)
  {
    hide Called;
  }

  // What an attempt that fails does to a breaker that is closed, or has been opened by failures.
  lemma FailedCall(m: Memory, c: Settings, a: Attempt)
    requires !a.succeeds && !m.state.HalfOpen?
    ensures var r := Called(m, c, a);
      && (r.1.Rejected? <==> m.state.Open? && a.start - m.openedAt < c.cooldown)
      && (r.1.Rejected? ==> r.0 == m)
      && (!r.1.Rejected? ==>
            r.0.failures == m.failures + 1
            && (if m.state.Open? || m.failures + 1 >= c.threshold then r.0.state.Open? && r.0.openedAt == a.end
                else r.0.state.Closed?))
  {
  }

  lemma NoCooldowns(cooldown: real)
    ensures Cooldowns(0, cooldown) == 0.0
  {
  }

  lemma OneCooldownMore(n: nat, cooldown: real)
    ensures Cooldowns(n + 1, cooldown) == Cooldowns(n, cooldown) + cooldown
  {
  }

  lemma {:induction false} FailingRun(c: Settings, run: seq<Attempt>, since: real)
    requires Monotone(run) && c.cooldown > 0.0 && forall i :: 0 <= i < |run| ==> !run[i].succeeds && since <= run[i].start
    ensures var m, n, limit := After(Fresh(), c, run), Calls(Fresh(), c, run), Max(1, c.threshold);
      && (n < limit ==> m.state.Closed? && m.failures == n)
      && (n >= limit ==> m.state.Open? && m.failures >= 1 && Cooldowns(n - limit, c.cooldown) <= m.openedAt - since)
      && (n > limit ==> exists i :: 0 <= i < |run| && Cooldowns(n - limit, c.cooldown) <= run[i].start - since)
    decreases |run|
  {
    hide After, Calls, Called, Cooldowns;
    OneMore(c, run);
    NoCooldowns(c.cooldown);
    if run != [] {
      var before, last := run[..|run| - 1], run[|run| - 1];
      assert forall i :: 0 <= i < |before| ==> before[i] == run[i];
      FailingRun(c, before, since);
      var m, n, limit := After(Fresh(), c, before), Calls(Fresh(), c, before), Max(1, c.threshold);
      if n > limit {
        var i :| 0 <= i < |before| && Cooldowns(n - limit, c.cooldown) <= before[i].start - since;
        assert run[i] == before[i];
      }
      FailedCall(m, c, last);
      if n >= limit && !Called(m, c, last).1.Rejected? {
        OneCooldownMore(n - limit, c.cooldown);
        assert Cooldowns(n + 1 - limit, c.cooldown) <= last.start - since;
        assert run[|run| - 1] == last;
      }
    }
  }

  // T seconds of a failing broker cost at most the threshold and one more call per cooldown.
  lemma OutageCostsFewCalls(c: Settings, run: seq<Attempt>, since: real, T: real)
    requires Monotone(run) && c.cooldown > 0.0 && T >= 0.0
    requires forall i :: 0 <= i < |run| ==> !run[i].succeeds && since <= run[i].start <= since + T
    ensures Calls(Fresh(), c, run) <= Max(1, c.threshold) + (T / c.cooldown).Floor
  {
    hide After, Calls, Cooldowns;
    FailingRun(c, run, since);
    var n, limit := Calls(Fresh(), c, run), Max(1, c.threshold);
    CooldownsFit(0, c.cooldown, T);
    if n > limit {
      var i :| 0 <= i < |run| && Cooldowns(n - limit, c.cooldown) <= run[i].start - since;
      CooldownsFit(n - limit, c.cooldown, T);
    }
  }

  lemma CooldownsFit(n: nat, cooldown: real, T: real)
    requires cooldown > 0.0 && T >= 0.0 && (n > 0 ==> Cooldowns(n, cooldown) <= T)
    ensures n <= (T / cooldown).Floor
  {
    CooldownsProduct(n, cooldown);
    assert Cooldowns(n, cooldown) <= T;
    Quotient(n as real, cooldown, T);
  }

  lemma Quotient(n: real, cooldown: real, T: real)
    requires cooldown > 0.0 && n * cooldown <= T
    ensures n <= T / cooldown
  {
    assert T / cooldown * cooldown == T;
    Unscale(n, T / cooldown, cooldown);
  }

}
