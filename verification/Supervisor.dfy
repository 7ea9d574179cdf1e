/**
 The halt: three independent writers of one flag, the watchdog that empties the
 book, and the ratchets its guards read.
 */
module Supervisor {
  import opened Arithmetic
  import opened Wrappers
  import opened World
  import opened Reconcile

  const RECONCILE := "reconcile"
  const ASSIGNMENT := "assignment"
  const SUPERVISOR := "supervisor"

  datatype Record =
    | Halting(source: string)
    | Resumed
    | GuardBreach(guard: string)
    | Flattened(closed: nat, attempts: nat)
    | FlattenIncomplete(closed: nat, remaining: seq<string>)

  // The state keys the halt lives in, and the log.
  datatype Board = Board(halt: Halt, seen: set<string>, peak: real, day: string, start: real, log: seq<Record>)

  predicate Standing(b: Board) { b.halt.reason != "" }

  // ----- guards

  datatype Limits = Limits(maxDrawdown: real, maxDailyLoss: real, heartbeatTimeout: real)

  datatype Verdict = Continue | Breach(guard: string)

  function EvaluateGuards(equity: real, start: real, peak: real, limits: Limits, kill: bool, heartbeatAge: real): Verdict {
    if kill then Breach("kill_switch")
    else if start <= 0.0 || peak <= 0.0 then Continue
    else if 100.0 * (equity - peak) / peak <= -limits.maxDrawdown then Breach("drawdown")
    else if 100.0 * (equity - start) / start <= -limits.maxDailyLoss then Breach("daily_loss")
    else if heartbeatAge > limits.heartbeatTimeout then Breach("heartbeat")
    else Continue
  }

  lemma PercentFloor(equity: real, base: real, pct: real)
    requires base > 0.0
    ensures 100.0 * (equity - base) / base <= -pct <==> 100.0 * equity <= base * (100.0 - pct)
  {
    var x := 100.0 * (equity - base) / base;
    assert x * base == 100.0 * (equity - base);
    if x <= -pct { Scale(x, -pct, base); } else { ScaleStrict(-pct, x, base); }
  }

  // The guards are floors under equity: trading continues exactly above both, heard from and not killed;
  // and a breach names the hardest of what fires.
  lemma GuardsAreFloors(equity: real, start: real, peak: real, limits: Limits, kill: bool, heartbeatAge: real)
    requires start > 0.0 && peak > 0.0
    ensures var v := EvaluateGuards(equity, start, peak, limits, kill, heartbeatAge);
      var deep := 100.0 * equity <= peak * (100.0 - limits.maxDrawdown);
      var down := 100.0 * equity <= start * (100.0 - limits.maxDailyLoss);
      && (v.Continue? <==> !kill && !deep && !down && heartbeatAge <= limits.heartbeatTimeout)
      && (v == Breach("kill_switch") <==> kill)
      && (v == Breach("drawdown") <==> !kill && deep)
      && (v == Breach("daily_loss") <==> !kill && !deep && down)
      && (v == Breach("heartbeat") <==> !kill && !deep && !down && heartbeatAge > limits.heartbeatTimeout)
  {
    PercentFloor(equity, peak, limits.maxDrawdown);
    PercentFloor(equity, start, limits.maxDailyLoss);
  }

  // Without a baseline only the kill switch fires.
  lemma NoBaselineNoGuard(equity: real, start: real, peak: real, limits: Limits, kill: bool, heartbeatAge: real)
    requires start <= 0.0 || peak <= 0.0
    ensures EvaluateGuards(equity, start, peak, limits, kill, heartbeatAge) == if kill then Breach("kill_switch") else Continue
  {
  }

  // ----- what each writer does

  datatype Activity = Activity(assignment: bool, id: string)

  function Fresh(events: seq<Activity>, seen: set<string>): seq<string> {
    if events == [] then []
    else
      var rest := Fresh(events[1..], seen);
      if events[0].assignment && events[0].id !in seen then [events[0].id] + rest else rest
  }

  lemma {:induction false} FreshAre(events: seq<Activity>, seen: set<string>)
    ensures forall id :: id in Fresh(events, seen) <==>
              exists i :: 0 <= i < |events| && events[i].assignment && events[i].id == id && id !in seen
  {
    if events != [] {
      var tail := events[1..];
      FreshAre(tail, seen);
      forall id ensures id in Fresh(events, seen) <==>
        exists i :: 0 <= i < |events| && events[i].assignment && events[i].id == id && id !in seen
      {
        if i :| 0 <= i < |events| && events[i].assignment && events[i].id == id && id !in seen {
          if i > 0 { assert tail[i - 1] == events[i]; }
        }
        if i :| 0 <= i < |tail| && tail[i].assignment && tail[i].id == id && id !in seen {
          assert events[i + 1] == tail[i];
        }
      }
    }
  }

  // What the broker answered during one flatten, as far as it answered: whether orders were cancelled,
  // closes per pass, the book listed after each pass, and the book listed at the end. The first call
  // without an answer raises.
  datatype Passes = Passes(canceled: bool, closed: seq<nat>, listed: seq<seq<string>>, leftovers: Option<seq<string>>)

  // The record a flatten from pass k leaves, none if a call raised, and how much it closed.
  function FlattenFrom(p: Passes, attempts: nat, k: nat, total: nat): (r: (Option<Record>, nat))
    requires k <= attempts
    decreases attempts - k
  {
    if k == attempts then
      (if p.leftovers.Some? then Some(FlattenIncomplete(total, p.leftovers.value)) else None, total)
    else if k >= |p.closed| then (None, total)
    else if k >= |p.listed| then (None, total + p.closed[k])
    else if p.listed[k] == [] then (Some(Flattened(total + p.closed[k], k + 1)), total + p.closed[k])
    else FlattenFrom(p, attempts, k + 1, total + p.closed[k])
  }

  function FlattenOf(p: Passes): (r: (Option<Record>, nat)) {
    if p.canceled then FlattenFrom(p, ATTEMPTS, 0, 0) else (None, 0)
  }

  const ATTEMPTS: nat := 4

  datatype Look = Look(
    equity: real, brokerPeak: Option<real>, day: string, kill: bool, heartbeatAge: real, detail: string,
    dryRun: bool, residue: Option<seq<string>>, passes: Passes)

  datatype Event =
    | Enforce(ok: bool, why: string)
    | CheckAssignments(events: seq<Activity>, why: string)
    | Tick(look: Look)

  // A divergence and an assignment are always described.
  ghost predicate Sensible(e: Event) {
    match e
    case Enforce(ok, why) => !ok ==> why != ""
    case CheckAssignments(_, why) => why != ""
    case Tick(look) => true
  }

  function Enforced(b: Board, ok: bool, why: string): Board {
    if !ok then b.(halt := b.halt.(reason := why, source := RECONCILE), log := b.log + [Halting(RECONCILE)])
    else if b.halt.reason != "" && b.halt.source == RECONCILE then
      b.(halt := b.halt.(reason := "", source := ""), log := b.log + [Resumed])
    else b
  }

  function Assigned(b: Board, events: seq<Activity>, why: string): Board {
    var unseen := Fresh(events, b.seen);
    if unseen == [] then b
    else b.(seen := b.seen + (set i | 0 <= i < |unseen| :: unseen[i]),
            halt := b.halt.(reason := why, source := ASSIGNMENT), log := b.log + [Halting(ASSIGNMENT)])
  }

  function Ratcheted(peak: real, equity: real, brokerPeak: Option<real>): real {
    var high := Larger(peak, equity);
    if brokerPeak.Some? && brokerPeak.value != 0.0 then Larger(high, brokerPeak.value) else high
  }

  function Measured(b: Board, look: Look): Board {
    b.(day := look.day, start := if b.day != look.day then look.equity else b.start,
       peak := Ratcheted(b.peak, look.equity, look.brokerPeak))
  }

  function Judgement(b: Board, look: Look, limits: Limits): Verdict {
    EvaluateGuards(look.equity, b.start, b.peak, limits, look.kill, look.heartbeatAge)
  }

  // A breach already acted on is not a new breach; what reappears under it is flattened again.
  predicate Handled(b: Board, v: Verdict) { v.Breach? && Standing(b) && b.halt.guard == v.guard }

  function Logged(log: seq<Record>, record: Option<Record>): seq<Record> {
    if record.Some? then log + [record.value] else log
  }

  // Whether the tick calls flatten: for a new breach, or for what reappeared under a handled one.
  predicate Flattens(m: Board, look: Look, v: Verdict) {
    v.Breach? && !look.dryRun && (Handled(m, v) ==> look.residue.Some? && look.residue.value != [])
  }

  // Whether one of the broker calls the tick makes goes unanswered and raises.
  predicate Raises(b: Board, look: Look, limits: Limits) {
    var m := Measured(b, look);
    var v := Judgement(m, look, limits);
    || (Flattens(m, look, v) && FlattenOf(look.passes).0.None?)
    || (Handled(m, v) && !look.dryRun && look.residue.None?)
  }

  // The halt is on the board before the flatten begins, so it survives one that raises.
  function Ticked(b: Board, look: Look, limits: Limits): Board {
    var m := Measured(b, look);
    var v := Judgement(m, look, limits);
    var halted := if v.Breach? && !Handled(m, v)
                  then m.(halt := Halt(v.guard + look.detail, SUPERVISOR, v.guard), log := m.log + [GuardBreach(v.guard)])
                  else m;
    if Flattens(m, look, v) then halted.(log := Logged(halted.log, FlattenOf(look.passes).0)) else halted
  }

  function Step(b: Board, e: Event, limits: Limits): Board
    requires Sensible(e)
  {
    match e
    case Enforce(ok, why) => Enforced(b, ok, why)
    case CheckAssignments(events, why) => Assigned(b, events, why)
    case Tick(look) => Ticked(b, look, limits)
  }

  // ----- the code

  class Watch {
    var halt: Halt
    var seen: set<string>
    var peak: real
    var day: string
    var start: real
    var log: seq<Record>

    constructor ()
      ensures Now() == Empty()
    {
      halt, seen, peak, day, start, log := Halt("", "", ""), {}, 0.0, "", 0.0, [];
    }

    function Now(): Board
      reads this
    {
      Board(halt, seen, peak, day, start, log)
    }

    // Compare tables and broker; `why` is the description of a divergence.
    method DoEnforce(orders: seq<Order>, positions: seq<Position>, listing: seq<Listing>, why: string) returns (r: Report)
      modifies this
      ensures r.ok <==> InSync(orders, positions, listing)
      ensures Now() == Enforced(old(Now()), r.ok, why)
      ensures !r.ok ==> halt == Halt(why, "reconcile", old(halt).guard) && log == old(log) + [Halting("reconcile")]
      ensures r.ok && old(halt).reason != "" && old(halt).source == "reconcile" ==>
                halt == Halt("", "", old(halt).guard) && log == old(log) + [Resumed]
      ensures r.ok && !(old(halt).reason != "" && old(halt).source == "reconcile") ==> halt == old(halt) && log == old(log)
      ensures (seen, peak, day, start) == old((seen, peak, day, start))
    {
      hide InSync, Judged;
      r := Reconciled(orders, positions, listing);
      if r.ok {
        if halt.reason != "" && halt.source == RECONCILE {
          halt := halt.(reason := "");
          halt := halt.(source := "");
          log := log + [Resumed];
        }
      } else {
        halt := halt.(reason := why);
        halt := halt.(source := RECONCILE);
        log := log + [Halting(RECONCILE)];
      }
    }

    method DoCheckAssignments(events: seq<Activity>, why: string) returns (unseen: seq<string>)
      modifies this
      ensures Now() == Assigned(old(Now()), events, why) && unseen == Fresh(events, old(seen))
      ensures forall id :: id in unseen <==> exists i :: 0 <= i < |events| && events[i].assignment && events[i].id == id && id !in old(seen)
      ensures unseen != [] ==> halt == Halt(why, "assignment", old(halt).guard) && log == old(log) + [Halting("assignment")]
      ensures unseen == [] ==> halt == old(halt) && log == old(log)
      ensures (forall id :: id in seen <==> id in old(seen) || id in unseen) && (peak, day, start) == old((peak, day, start))
    {
      FreshAre(events, seen);
      unseen := [];
      var i := |events|;
      while i > 0
        invariant 0 <= i <= |events| && unseen == Fresh(events[i..], seen)
        invariant unchanged(this)
      {
        i := i - 1;
        assert events[i..][1..] == events[i + 1..];
        if events[i].assignment && events[i].id !in seen {
          unseen := [events[i].id] + unseen;
        }
      }
      if unseen == [] {
        return;
      }
      seen := seen + (set i | 0 <= i < |unseen| :: unseen[i]);
      halt := halt.(reason := why, source := ASSIGNMENT);
      log := log + [Halting(ASSIGNMENT)];
    }

    // Retried passes: short legs must close before the long legs that cover them can.
    method FlattenAll(passes: Passes) returns (total: nat, raised: bool)
      modifies `log
      ensures total == FlattenOf(passes).1 && raised == FlattenOf(passes).0.None?
      ensures log == Logged(old(log), FlattenOf(passes).0)
    {
      total := 0;
      if !passes.canceled {
        return 0, true;
      }
      var attempt := 0;
      while attempt < ATTEMPTS
        invariant 0 <= attempt <= ATTEMPTS && log == old(log)
        invariant FlattenOf(passes) == FlattenFrom(passes, ATTEMPTS, attempt, total)
      {
        if attempt >= |passes.closed| {
          return total, true;
        }
        total := total + passes.closed[attempt];
        if attempt >= |passes.listed| {
          return total, true;
        }
        if passes.listed[attempt] == [] {
          log := log + [Flattened(total, attempt + 1)];
          return total, false;
        }
        attempt := attempt + 1;
      }
      if passes.leftovers.None? {
        return total, true;
      }
      log := log + [FlattenIncomplete(total, passes.leftovers.value)];
      raised := false;
    }

    method SessionBaseline(equity: real, today: string) returns (baseline: real)
      modifies `day, `start
      ensures day == today && start == baseline == if old(day) != today then equity else old(start)
    {
      if day != today {
        day := today;
        start := equity;
      }
      baseline := start;
    }

    method UpdatePeak(equity: real, brokerPeak: Option<real>) returns (highest: real)
      modifies `peak
      ensures peak == highest == Ratcheted(old(peak), equity, brokerPeak)
      ensures highest >= old(peak) && highest >= equity && (brokerPeak.Some? && brokerPeak.value != 0.0 ==> highest >= brokerPeak.value)
      ensures highest in {old(peak), equity} || (brokerPeak.Some? && brokerPeak.value != 0.0 && highest == brokerPeak.value)
    {
      highest := Larger(peak, equity);
      if brokerPeak.Some? && brokerPeak.value != 0.0 {
        highest := Larger(highest, brokerPeak.value);
      }
      if highest > peak {
        peak := highest;
      }
    }

    method DoTick(look: Look, limits: Limits) returns (v: Verdict, raised: bool)
      modifies this
      ensures Now() == Ticked(old(Now()), look, limits)
      ensures v == Judgement(Measured(old(Now()), look), look, limits)
      ensures raised == Raises(old(Now()), look, limits)
    {
      hide FlattenOf, EvaluateGuards;
      raised := false;
      var baseline := SessionBaseline(look.equity, look.day);
      var high := UpdatePeak(look.equity, look.brokerPeak);
      v := EvaluateGuards(look.equity, baseline, high, limits, look.kill, look.heartbeatAge);
      if v.Continue? {
        return;
      }
      var closed: nat;
      if halt.reason != "" && halt.guard == v.guard {
        if !look.dryRun {
          if look.residue.None? {
            raised := true;
          } else if look.residue.value != [] {
            closed, raised := FlattenAll(look.passes);
          }
        }
        return;
      }
      log := log + [GuardBreach(v.guard)];
      halt := Halt(v.guard + look.detail, SUPERVISOR, v.guard);
      if !look.dryRun {
        closed, raised := FlattenAll(look.passes);
      }
    }
  }

  // ----- runs of the three writers, in any interleaving

  function Empty(): Board { Board(Halt("", "", ""), {}, 0.0, "", 0.0, []) }

  ghost predicate AllSensible(es: seq<Event>) { forall i :: 0 <= i < |es| ==> Sensible(es[i]) }

  function After(b: Board, es: seq<Event>, limits: Limits): Board
    requires AllSensible(es)
  {
    if es == [] then b else Step(After(b, es[..|es| - 1], limits), es[|es| - 1], limits)
  }

  // Who wrote the halt last: a diverging reconciliation, a unseen assignment or a new breach.
  function LastWriter(b: Board, es: seq<Event>, limits: Limits): string
    requires AllSensible(es)
  {
    if es == [] then b.halt.source
    else
      var before, e := After(b, es[..|es| - 1], limits), es[|es| - 1];
      if e.Enforce? && !e.ok then RECONCILE
      else if e.CheckAssignments? && Fresh(e.events, before.seen) != [] then ASSIGNMENT
      else if e.Tick? && NewBreach(before, e.look, limits) then SUPERVISOR
      else LastWriter(b, es[..|es| - 1], limits)
  }

  predicate NewBreach(b: Board, look: Look, limits: Limits) {
    var m := Measured(b, look);
    var v := Judgement(m, look, limits);
    v.Breach? && !Handled(m, v)
  }

  lemma {:induction false} SourceIsLastWriter(es: seq<Event>, limits: Limits)
    requires AllSensible(es) && Standing(After(Empty(), es, limits))
    ensures After(Empty(), es, limits).halt.source == LastWriter(Empty(), es, limits)
    decreases |es|
  {
    hide EvaluateGuards, FlattenFrom, Fresh;
    if es != [] {
      var before, e := After(Empty(), es[..|es| - 1], limits), es[|es| - 1];
      if Standing(before) { SourceIsLastWriter(es[..|es| - 1], limits); }
    }
  }

  // The halt is lifted by exactly one thing: a clean reconciliation of a halt that a diverging
  // reconciliation wrote last.
  lemma ClearedOnlyByReconcile(es: seq<Event>, e: Event, limits: Limits)
    requires AllSensible(es) && Sensible(e) && Standing(After(Empty(), es, limits))
    ensures !Standing(Step(After(Empty(), es, limits), e, limits)) <==>
            e.Enforce? && e.ok && LastWriter(Empty(), es, limits) == RECONCILE
  {
    hide EvaluateGuards, FlattenFrom, Fresh;
    SourceIsLastWriter(es, limits);
    if e.Tick? { GuardsAreNamed(Measured(After(Empty(), es, limits), e.look), e.look, limits); }
  }

  lemma GuardsAreNamed(b: Board, look: Look, limits: Limits)
    ensures Judgement(b, look, limits).Breach? ==> Judgement(b, look, limits).guard != ""
  {
  }

  // A supervisor halt overwritten by a passing divergence is lifted while its guard still fires.
  lemma OverwrittenHaltIsLifted(look: Look, limits: Limits, why: string)
    requires look.kill && why != ""
    ensures AllSensible([Tick(look), Enforce(false, why), Tick(look), Enforce(true, "")])
    ensures var b := After(Empty(), [Tick(look), Enforce(false, why), Tick(look)], limits);
            && Handled(Measured(b, look), Judgement(Measured(b, look), look, limits))
            && !Standing(Enforced(b, true, ""))
  {
    hide FlattenFrom;
    var b1 := Ticked(Empty(), look, limits);
    var b2 := Enforced(b1, false, why);
    var b3 := Ticked(b2, look, limits);
    var es := [Tick(look), Enforce(false, why), Tick(look)];
    assert es[..2] == [Tick(look), Enforce(false, why)] && es[..2][..1] == [Tick(look)] && es[..1][..0] == [];
    assert After(Empty(), es[..1], limits) == b1;
    assert After(Empty(), es[..2], limits) == b2;
  }

  // ----- the watchdog's promise

  // A pass from k on was answered with an empty listing.
  ghost predicate SeenEmpty(p: Passes, attempts: nat, k: nat) {
    exists j :: k <= j < attempts && j < |p.closed| && j < |p.listed| && p.listed[j] == []
  }

  ghost predicate AllAnswered(p: Passes, attempts: nat) {
    |p.closed| >= attempts && |p.listed| >= attempts && p.leftovers.Some?
  }

  // Success exactly when some pass was followed by an empty listing; otherwise the shortfall, or, if a
  // call goes unanswered before that, nothing is recorded.
  lemma {:induction false} FlattenReports(p: Passes, attempts: nat, k: nat, total: nat)
    requires k <= attempts
    ensures var r := FlattenFrom(p, attempts, k, total);
      && (r.0.Some? && r.0.value.Flattened? <==> SeenEmpty(p, attempts, k))
      && (r.0.Some? && !SeenEmpty(p, attempts, k) ==> p.leftovers.Some? && r.0.value == FlattenIncomplete(r.1, p.leftovers.value))
      && (AllAnswered(p, attempts) ==> r.0.Some?)
    decreases attempts - k
  {
    if k < attempts && k < |p.closed| && k < |p.listed| && p.listed[k] != [] {
      FlattenReports(p, attempts, k + 1, total + p.closed[k]);
      assert SeenEmpty(p, attempts, k) <==> SeenEmpty(p, attempts, k + 1);
    }
  }

  // A flatten tries four passes, and none before the resting orders are known to be withdrawn.
  lemma FlattenTries(p: Passes)
    ensures FlattenOf(p).0.Some? ==> p.canceled
    ensures FlattenOf(p).0.Some? && FlattenOf(p).0.value.FlattenIncomplete? ==>
              |p.closed| >= 4 && |p.listed| >= 4 && forall j :: 0 <= j < 4 ==> p.listed[j] != []
    ensures p.canceled && SeenEmpty(p, 4, 0) ==> FlattenOf(p).0.Some? && FlattenOf(p).0.value.Flattened?
    ensures p.canceled && |p.closed| >= 4 && |p.listed| >= 4 && p.leftovers.Some? ==> FlattenOf(p).0.Some?
  {
    hide FlattenFrom;
    FlattenReports(p, ATTEMPTS, 0, 0);
    FlattenCounts(p, ATTEMPTS, 0, 0);
  }

  ghost function Sum(ns: seq<nat>): nat { if ns == [] then 0 else ns[0] + Sum(ns[1..]) }

  // What a flatten has closed is what its passes closed, up to the first that was followed by an empty listing.
  lemma {:induction false} FlattenCounts(p: Passes, attempts: nat, k: nat, total: nat)
    requires k <= attempts && k <= |p.closed| && k <= |p.listed|
    ensures var r := FlattenFrom(p, attempts, k, total);
      r.0.Some? ==>
        match r.0.value
        case Flattened(closed, n) =>
          && k < n <= attempts && n <= |p.closed| && n <= |p.listed| && p.listed[n - 1] == []
          && (forall j :: k <= j < n - 1 ==> p.listed[j] != []) && closed == r.1 == total + Sum(p.closed[k..n])
        case FlattenIncomplete(closed, _) =>
          && attempts <= |p.closed| && attempts <= |p.listed| && (forall j :: k <= j < attempts ==> p.listed[j] != [])
          && closed == r.1 == total + Sum(p.closed[k..attempts])
        case _ => false
    decreases attempts - k
  {
    if k < attempts && k < |p.closed| && k < |p.listed| {
      if p.listed[k] == [] {
        assert p.closed[k..k + 1] == [p.closed[k]] && [p.closed[k]][1..] == [];
        assert Sum([p.closed[k]]) == p.closed[k] + Sum([]);
      } else {
        FlattenCounts(p, attempts, k + 1, total + p.closed[k]);
        forall n | k < n <= |p.closed| ensures Sum(p.closed[k..n]) == p.closed[k] + Sum(p.closed[k + 1..n]) {
          assert p.closed[k..n][1..] == p.closed[k + 1..n];
        }
      }
    } else if k == attempts {
      assert p.closed[k..k] == [];
    }
  }

  // Everything a tick leaves: the ratchets moved, the halt written for a breach that is new, dry run or not,
  // and on the log that breach and what a flatten, if one was called for, had to report.
  lemma TickLeaves(b: Board, look: Look, limits: Limits)
    ensures var t := Ticked(b, look, limits);
      var v := EvaluateGuards(look.equity, t.start, t.peak, limits, look.kill, look.heartbeatAge);
      var isNew := v.Breach? && !(b.halt.reason != "" && b.halt.guard == v.guard);
      var flattens := v.Breach? && !look.dryRun && (isNew || (look.residue.Some? && look.residue.value != []));
      && t.seen == b.seen && t.day == look.day && t.start == (if b.day != look.day then look.equity else b.start)
      && t.peak == Ratcheted(b.peak, look.equity, look.brokerPeak)
      && t.halt == (if isNew then Halt(v.guard + look.detail, "supervisor", v.guard) else b.halt)
      && t.log == b.log + (if isNew then [GuardBreach(v.guard)] else [])
                  + (if flattens && FlattenOf(look.passes).0.Some? then [FlattenOf(look.passes).0.value] else [])
  {
    hide EvaluateGuards, FlattenOf, Ratcheted;
  }

  // What a flatten that ran to its end shows: the book seen empty, or the shortfall on record.
  ghost predicate Emptied(b: Board, look: Look) {
    || SeenEmpty(look.passes, ATTEMPTS, 0)
    || (look.passes.leftovers.Some? && b.log != [] && b.log[|b.log| - 1].FlattenIncomplete?
        && b.log[|b.log| - 1].remaining == look.passes.leftovers.value)
  }

  // Every live tick with a firing guard ends halted, and, unless a broker call raised, with the book
  // observed empty or the shortfall on record.
  lemma LiveBreachEmptiesOrReports(b: Board, look: Look, limits: Limits)
    requires !look.dryRun && Judgement(Measured(b, look), look, limits).Breach?
    ensures Standing(Ticked(b, look, limits))
    ensures !Raises(b, look, limits) ==>
              || Emptied(Ticked(b, look, limits), look)
              || (Handled(Measured(b, look), Judgement(Measured(b, look), look, limits)) && look.residue == Some([]))
  {
    hide EvaluateGuards, FlattenFrom, SeenEmpty;
    FlattenReports(look.passes, ATTEMPTS, 0, 0);
    GuardsAreNamed(Measured(b, look), look, limits);
  }

  // A tick whose flatten raises still ends halted under its guard with the breach on record, if it was a
  // new one; and the next tick that breaches and gets answers empties the book or reports what is left.
  lemma RaisedFlattenIsRetried(b: Board, look: Look, next: Look, limits: Limits)
    requires !look.dryRun && Raises(b, look, limits)
    requires !next.dryRun && next.passes.canceled && AllAnswered(next.passes, ATTEMPTS) && next.residue.Some?
    requires Judgement(Measured(Ticked(b, look, limits), next), next, limits).Breach?
    ensures var b1, v := Ticked(b, look, limits), Judgement(Measured(b, look), look, limits);
      && v.Breach? && Standing(b1) && b1.halt.guard == v.guard
      && b1.log == (if Handled(Measured(b, look), v) then b.log else b.log + [GuardBreach(v.guard)])
    ensures var b1 := Ticked(b, look, limits);
      var v := Judgement(Measured(b1, next), next, limits);
      && Standing(Ticked(b1, next, limits)) && !Raises(b1, next, limits)
      && (next.residue.value != [] || v.guard != b1.halt.guard ==> Emptied(Ticked(b1, next, limits), next))
  {
    hide EvaluateGuards, FlattenFrom, SeenEmpty;
    var b1 := Ticked(b, look, limits);
    GuardsAreNamed(Measured(b, look), look, limits);
    GuardsAreNamed(Measured(b1, next), next, limits);
    FlattenReports(next.passes, ATTEMPTS, 0, 0);
  }

  // ----- how often one breach is reported

  function Breaches(log: seq<Record>, guard: string): nat {
    if log == [] then 0 else Breaches(log[..|log| - 1], guard) + if log[|log| - 1] == GuardBreach(guard) then 1 else 0
  }

  lemma {:induction false} BreachesConcat(a: seq<Record>, b: seq<Record>, guard: string)
    ensures Breaches(a + b, guard) == Breaches(a, guard) + Breaches(b, guard)
    decreases |b|
  {
    if b == [] {
      assert a + b == a;
    } else {
      assert (a + b)[..|a + b| - 1] == a + b[..|b| - 1];
      BreachesConcat(a, b[..|b| - 1], guard);
    }
  }

  // The guard a tick breaches, if it breaches one.
  function Fired(b: Board, e: Event, limits: Limits): Option<string> {
    if e.Tick? then
      match Judgement(Measured(b, e.look), e.look, limits)
      case Continue => None
      case Breach(guard) => Some(guard)
    else None
  }

  function FiredAt(b: Board, es: seq<Event>, limits: Limits, i: nat): Option<string>
    requires AllSensible(es) && i < |es|
  {
    Fired(After(b, es[..i], limits), es[i], limits)
  }

  ghost predicate StandsThroughout(b: Board, es: seq<Event>, limits: Limits)
    requires AllSensible(es)
  {
    forall i :: 0 <= i < |es| ==> Standing(After(b, es[..i], limits))
  }

  // Some tick breaches a guard other than this one.
  ghost predicate OtherFires(b: Board, es: seq<Event>, limits: Limits, guard: string, i: nat)
    requires AllSensible(es)
  {
    i < |es| && FiredAt(b, es, limits, i).Some? && FiredAt(b, es, limits, i) != Some(guard)
  }

  // The guard fires again after another one has.
  ghost predicate Returns(b: Board, es: seq<Event>, limits: Limits, guard: string, i: nat, j: nat)
    requires AllSensible(es)
  {
    i < j < |es| && OtherFires(b, es, limits, guard, i) && FiredAt(b, es, limits, j) == Some(guard)
  }

  ghost predicate AnyOther(b: Board, es: seq<Event>, limits: Limits, guard: string)
    requires AllSensible(es)
  {
    exists i: nat :: OtherFires(b, es, limits, guard, i)
  }

  ghost predicate AnyReturn(b: Board, es: seq<Event>, limits: Limits, guard: string)
    requires AllSensible(es)
  {
    exists i: nat, j: nat :: Returns(b, es, limits, guard, i, j)
  }

  // Under a standing halt only a breach moves the marker, and it is recorded when the marker was elsewhere.
  lemma MarkerMoves(b: Board, e: Event, limits: Limits, guard: string)
    requires Sensible(e) && Standing(b)
    ensures var b', fired := Step(b, e, limits), Fired(b, e, limits);
      && b'.halt.guard == (if fired.Some? then fired.value else b.halt.guard)
      && Breaches(b'.log, guard) == Breaches(b.log, guard) + (if fired == Some(guard) && b.halt.guard != guard then 1 else 0)
  {
    hide EvaluateGuards, FlattenFrom, Fresh, Breaches;
    if e.Tick? {
      TickRecords(b, e.look, limits, guard);
    } else {
      OneRecord(b.log, Halting(RECONCILE), guard);
      OneRecord(b.log, Halting(ASSIGNMENT), guard);
      OneRecord(b.log, Resumed, guard);
    }
  }

  lemma OneRecord(log: seq<Record>, record: Record, guard: string)
    ensures Breaches(log + [record], guard) == Breaches(log, guard) + (if record == GuardBreach(guard) then 1 else 0)
  {
    assert (log + [record])[..|log|] == log;
  }

  lemma TickRecords(b: Board, look: Look, limits: Limits, guard: string)
    requires Standing(b)
    ensures var b', v := Ticked(b, look, limits), Judgement(Measured(b, look), look, limits);
      && b'.halt.guard == (if v.Breach? then v.guard else b.halt.guard)
      && Breaches(b'.log, guard) == Breaches(b.log, guard) + (if v == Breach(guard) && b.halt.guard != guard then 1 else 0)
  {
    hide EvaluateGuards, FlattenFrom, Breaches;
    var m := Measured(b, look);
    var v, flatten := Judgement(m, look, limits), FlattenOf(look.passes).0;
    FlattenReports(look.passes, ATTEMPTS, 0, 0);
    NotABreach(m.log, flatten, guard);
    if v.Breach? {
      OneRecord(m.log, GuardBreach(v.guard), guard);
      NotABreach(m.log + [GuardBreach(v.guard)], flatten, guard);
    }
  }

  lemma NotABreach(log: seq<Record>, record: Option<Record>, guard: string)
    requires record.Some? ==> record.value.Flattened? || record.value.FlattenIncomplete?
    ensures Breaches(Logged(log, record), guard) == Breaches(log, guard)
  {
    if record.Some? { OneRecord(log, record.value, guard); }
  }

  lemma PrefixFires(b: Board, es: seq<Event>, limits: Limits, guard: string, n: nat)
    requires AllSensible(es) && n <= |es|
    ensures forall i: nat :: OtherFires(b, es[..n], limits, guard, i) <==> i < n && OtherFires(b, es, limits, guard, i)
    ensures forall i: nat, j: nat ::
              Returns(b, es[..n], limits, guard, i, j) <==> j < n && Returns(b, es, limits, guard, i, j)
  {
    hide After, Fired;
    assert forall i: nat :: i <= n ==> es[..n][..i] == es[..i];
  }

  // What the marker and the count say after each prefix of the run.
  lemma {:induction false} MarkerTracks(b: Board, es: seq<Event>, limits: Limits, guard: string)
    requires AllSensible(es) && b.halt.guard == guard && StandsThroughout(b, es, limits)
    ensures var b' := After(b, es, limits);
      && Breaches(b'.log, guard) >= Breaches(b.log, guard)
      && (Breaches(b'.log, guard) > Breaches(b.log, guard) <==> AnyReturn(b, es, limits, guard))
      && (!AnyOther(b, es, limits, guard) ==> b'.halt.guard == guard)
      && (AnyOther(b, es, limits, guard) && !AnyReturn(b, es, limits, guard) ==> b'.halt.guard != guard)
    decreases |es|
  {
    hide Fired, Step, Breaches, Standing;
    if es != [] {
      var n := |es| - 1;
      var before := es[..n];
      assert forall i :: 0 <= i <= n ==> before[..i] == es[..i];
      MarkerTracks(b, before, limits, guard);
      PrefixFires(b, es, limits, guard, n);
      var was := After(b, before, limits);
      assert Standing(was);
      MarkerMoves(was, es[n], limits, guard);
      LastEvent(b, es, limits, guard);
    }
  }

  // How the last event extends what has fired.
  lemma LastEvent(b: Board, es: seq<Event>, limits: Limits, guard: string)
    requires AllSensible(es) && es != []
    ensures var n := |es| - 1;
      var fired := Fired(After(b, es[..n], limits), es[n], limits);
      && (AnyOther(b, es, limits, guard) <==>
            AnyOther(b, es[..n], limits, guard) || (fired.Some? && fired != Some(guard)))
      && (AnyReturn(b, es, limits, guard) <==>
            AnyReturn(b, es[..n], limits, guard) || (fired == Some(guard) && AnyOther(b, es[..n], limits, guard)))
  {
    hide Fired, After;
    var n := |es| - 1;
    PrefixFires(b, es, limits, guard, n);
    var fired := FiredAt(b, es, limits, n);
    if fired.Some? && fired != Some(guard) { assert OtherFires(b, es, limits, guard, n); }
    if AnyOther(b, es[..n], limits, guard) {
      var i: nat :| OtherFires(b, es[..n], limits, guard, i);
      assert OtherFires(b, es, limits, guard, i);
      if fired == Some(guard) { assert Returns(b, es, limits, guard, i, n); }
    }
    if AnyReturn(b, es[..n], limits, guard) {
      var i: nat, j: nat :| Returns(b, es[..n], limits, guard, i, j);
      assert Returns(b, es, limits, guard, i, j);
    }
    if AnyOther(b, es, limits, guard) {
      var i: nat :| OtherFires(b, es, limits, guard, i);
      if i < n { assert OtherFires(b, es[..n], limits, guard, i); }
    }
    if AnyReturn(b, es, limits, guard) {
      var i: nat, j: nat :| Returns(b, es, limits, guard, i, j);
      assert OtherFires(b, es[..n], limits, guard, i);
      if j < n { assert Returns(b, es[..n], limits, guard, i, j); }
    }
  }

  // Over every run in which its halt stands, a guard's breach is recorded again exactly if some tick
  // breaches another guard and a later tick breaches this one.
  lemma ReportedAgainExactly(b: Board, es: seq<Event>, limits: Limits, guard: string)
    requires AllSensible(es) && b.halt.guard == guard && StandsThroughout(b, es, limits)
    ensures Breaches(After(b, es, limits).log, guard) > Breaches(b.log, guard) <==>
            exists i: nat, j: nat ::
              && i < j < |es| && FiredAt(b, es, limits, i).Some? && FiredAt(b, es, limits, i) != Some(guard)
              && FiredAt(b, es, limits, j) == Some(guard)
  {
    hide Fired, Breaches, After, FiredAt;
    MarkerTracks(b, es, limits, guard);
    if AnyReturn(b, es, limits, guard) {
      var i: nat, j: nat :| Returns(b, es, limits, guard, i, j);
    }
    if i: nat, j: nat :|
      i < j < |es| && FiredAt(b, es, limits, i).Some? && FiredAt(b, es, limits, i) != Some(guard)
      && FiredAt(b, es, limits, j) == Some(guard)
    {
      assert Returns(b, es, limits, guard, i, j);
    }
  }

  // In particular a guard that alone fires is recorded once per standing halt, however long it fires.
  lemma StandingBreachReportedOnce(b: Board, es: seq<Event>, limits: Limits, guard: string)
    requires AllSensible(es) && b.halt.guard == guard && StandsThroughout(b, es, limits)
    requires forall i: nat :: i < |es| && FiredAt(b, es, limits, i).Some? ==> FiredAt(b, es, limits, i) == Some(guard)
    ensures var b' := After(b, es, limits);
            b'.halt.guard == guard && Breaches(b'.log, guard) == Breaches(b.log, guard)
  {
    hide Fired, Breaches, After;
    MarkerTracks(b, es, limits, guard);
  }

  // A dry-run tick that leaves both baselines where the equity is.
  lemma DryTick(b: Board, look: Look, limits: Limits)
    requires look.dryRun && look.day != "" && look.equity > 0.0 && look.brokerPeak.None?
    requires b == Empty() || (b.day == look.day && b.start == look.equity && b.peak == look.equity)
    requires limits.maxDrawdown > 0.0 && limits.maxDailyLoss > 0.0
    ensures var b', v := Ticked(b, look, limits), Judgement(Measured(b, look), look, limits);
      && b'.day == look.day && b'.start == look.equity && b'.peak == look.equity
      && v == (if look.kill then Breach("kill_switch")
               else if look.heartbeatAge > limits.heartbeatTimeout then Breach("heartbeat") else Continue)
      && (v.Breach? && !Handled(b, v) ==>
            b'.halt == Halt(v.guard + look.detail, SUPERVISOR, v.guard) && b'.log == b.log + [GuardBreach(v.guard)])
  {
    hide FlattenOf;
    NoChange(look.equity);
  }

  lemma NoChange(x: real)
    requires x > 0.0
    ensures 100.0 * (x - x) / x == 0.0
  {
  }

  // Two guards taking turns under one standing halt are each reported again.
  lemma AlternatingGuardsRepeat(kill: Look, quiet: Look, limits: Limits)
    requires kill.kill && kill.dryRun && !quiet.kill && quiet.dryRun && quiet.day == kill.day && kill.day != ""
    requires quiet.equity == kill.equity && kill.equity > 0.0 && kill.brokerPeak.None? && quiet.brokerPeak.None?
    requires limits.maxDrawdown > 0.0 && limits.maxDailyLoss > 0.0 && quiet.heartbeatAge > limits.heartbeatTimeout
    ensures var b := After(Empty(), [Tick(kill), Tick(quiet), Tick(kill)], limits);
            Standing(b) && Breaches(b.log, "kill_switch") == 2
  {
    hide Ticked, Judgement, Measured, Breaches;
    var b1 := Ticked(Empty(), kill, limits);
    var b2 := Ticked(b1, quiet, limits);
    DryTick(Empty(), kill, limits);
    DryTick(b1, quiet, limits);
    DryTick(b2, kill, limits);
    ThreeEvents(Tick(kill), Tick(quiet), Tick(kill), limits);
    NoBreaches("kill_switch");
    OneRecord([], GuardBreach("kill_switch"), "kill_switch");
    OneRecord(b1.log, GuardBreach("heartbeat"), "kill_switch");
    OneRecord(b2.log, GuardBreach("kill_switch"), "kill_switch");
  }

  lemma ThreeEvents(a: Event, b: Event, c: Event, limits: Limits)
    requires Sensible(a) && Sensible(b) && Sensible(c)
    ensures After(Empty(), [a, b, c], limits) == Step(Step(Step(Empty(), a, limits), b, limits), c, limits)
  {
    hide Step;
    var es := [a, b, c];
    assert es[..2] == [a, b] && [a, b][..1] == [a] && [a][..0] == [];
    assert After(Empty(), [a], limits) == Step(Empty(), a, limits);
    assert After(Empty(), [a, b], limits) == Step(Step(Empty(), a, limits), b, limits);
  }

  lemma NoBreaches(guard: string)
    ensures Breaches([], guard) == 0
  {
  }

  // ----- assignments and ratchets

  lemma {:induction false} FreshIsUnseen(events: seq<Activity>, seen: set<string>)
    ensures forall id :: id in Fresh(events, seen) <==>
              id !in seen && exists i :: 0 <= i < |events| && events[i].assignment && events[i].id == id
    ensures Fresh(events, seen) == [] <==> forall i :: 0 <= i < |events| && events[i].assignment ==> events[i].id in seen
  {
    if events != [] {
      FreshIsUnseen(events[1..], seen);
      assert forall i :: 1 <= i < |events| ==> events[i] == events[1..][i - 1];
    }
  }

  // Assignments halt once: after a check, checking the same activities again changes nothing.
  lemma AssignmentsHaltOnce(b: Board, events: seq<Activity>, why: string)
    ensures Assigned(Assigned(b, events, why), events, why) == Assigned(b, events, why)
    ensures Assigned(b, events, why) != b <==> exists i :: 0 <= i < |events| && events[i].assignment && events[i].id !in b.seen
  {
    var unseen := Fresh(events, b.seen);
    FreshIsUnseen(events, b.seen);
    FreshIsUnseen(events, Assigned(b, events, why).seen);
    if unseen != [] {
      assert unseen[0] in unseen && unseen[0] in Assigned(b, events, why).seen;
      assert forall id :: id in unseen ==> id in Assigned(b, events, why).seen;
    }
  }

  // The high-water mark never falls, and is never below any equity or broker peak it was shown.
  lemma {:induction false} PeakIsHighWater(b: Board, es: seq<Event>, limits: Limits, i: nat)
    requires AllSensible(es)
    ensures After(b, es, limits).peak >= b.peak
    ensures i < |es| && es[i].Tick? ==> After(b, es, limits).peak >= es[i].look.equity
    ensures i < |es| && es[i].Tick? && es[i].look.brokerPeak.Some? && es[i].look.brokerPeak.value != 0.0 ==>
              After(b, es, limits).peak >= es[i].look.brokerPeak.value
    decreases |es|
  {
    hide EvaluateGuards, FlattenFrom, Fresh;
    if es != [] {
      var before := es[..|es| - 1];
      PeakIsHighWater(b, before, limits, i);
    }
  }

  // The daily baseline is the equity of the first look of its day.
  lemma {:induction false} BaselineHoldsAllDay(b: Board, es: seq<Event>, limits: Limits, first: Look)
    requires AllSensible(es) && b.day != first.day
    requires es != [] && es[0] == Tick(first)
    requires forall i :: 0 <= i < |es| && es[i].Tick? ==> es[i].look.day == first.day
    ensures After(b, es, limits).day == first.day && After(b, es, limits).start == first.equity
    decreases |es|
  {
    hide EvaluateGuards, FlattenFrom, Fresh;
    if |es| > 1 {
      BaselineHoldsAllDay(b, es[..|es| - 1], limits, first);
    } else {
      assert es[..0] == [];
    }
  }
}
