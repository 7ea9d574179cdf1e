/**
 Price concessions. Limits are whole cents in the broker's orientation: positive
 is a debit we pay, negative a credit we must receive, so a concession is upward.
 */
module Ladder {
  import opened Wrappers
  import opened Arithmetic
  import opened Structures

  datatype Config = Config(
    entryTimeout: int, entryTimeoutMax: int, referenceSpread: real,
    ladderSteps: nat, stepSeconds: int, tick: int, spreadFraction: real, maxConcessionPct: real,
    closeRetry: int, closeMaxAttempts: nat, closeEscalationPct: real, deadline: Option<int>)

  ghost predicate Sane(cfg: Config) {
    cfg.tick >= 1 && cfg.maxConcessionPct >= 0.0 && cfg.closeEscalationPct >= 0.0
  }

  // 1e-9 dollars, in cents.
  const EPSILON := 0.0000001

  function Cap(cfg: Config, origin: real): real { Abs(origin) * cfg.maxConcessionPct / 100.0 }

  // The highest limit a ladder starting at `origin` cents may reach.
  function Reach(cfg: Config, origin: real): real { origin + Cap(cfg, origin) + 0.5 }

  // The step a rung asks for: a share of the quoted spread, at least a tick.
  function Wanted(cfg: Config, origin: real, spreadPct: real): (n: int)
    ensures n >= cfg.tick
  {
    Max(cfg.tick, HalfEven(Abs(origin) * spreadPct / 100.0 * cfg.spreadFraction))
  }

  // The next limit of a resting entry first priced at `origin` cents, if it may concede at all.
  function EntryRung(cfg: Config, origin: real, spreadPct: real, limit: int): Option<int> {
    var wanted := Wanted(cfg, origin, spreadPct);
    var conceded := limit as real - origin;
    var step := if conceded + wanted as real > Cap(cfg, origin) + EPSILON
                then HalfEven(Cap(cfg, origin) - conceded) else wanted;
    if step < cfg.tick || limit + step == 0 then None else Some(limit + step)
  }

  function Stretched(base: real, spreadPct: real, reference: real): real
    requires reference > 0.0
  {
    base * (spreadPct / reference)
  }

  // How long an entry may rest: the base, scaled by its quoted spread, up to the maximum.
  function EntryBudget(cfg: Config, spreadPct: real): real {
    var base := cfg.entryTimeout as real;
    if cfg.referenceSpread <= 0.0 || spreadPct <= cfg.referenceSpread then base
    else
      var scaled := Stretched(base, spreadPct, cfg.referenceSpread);
      if scaled < cfg.entryTimeoutMax as real then scaled else cfg.entryTimeoutMax as real
  }

  function CloseScale(cfg: Config): real { 1.0 + cfg.closeEscalationPct / 100.0 }

  function PaidUp(cfg: Config, limit: int): real { limit as real * CloseScale(cfg) }

  // The next limit of a resting close: a debit grows, a credit shrinks toward zero.
  function CloseRung(cfg: Config, limit: int): int {
    if CloseScale(cfg) == 0.0 then limit
    else if limit > 0 then HalfEven(PaidUp(cfg, limit))
    else HalfEven(limit as real / CloseScale(cfg))
  }

  // What grows by the factor, or what grows back by it, to the nearest cent.
  ghost predicate GaveUp(limit: real, next: real, factor: real) {
    if limit > 0.0 then -0.5 <= next - limit * factor <= 0.5
    else -0.5 * factor <= next * factor - limit <= 0.5 * factor
  }

  // A close's next limit gives up the configured share of its price.
  lemma CloseRungGivesUp(cfg: Config, limit: int)
    requires Sane(cfg)
    ensures GaveUp(limit as real, CloseRung(cfg, limit) as real, 1.0 + cfg.closeEscalationPct / 100.0)
  {
    var s := CloseScale(cfg);
    assert s == 1.0 + cfg.closeEscalationPct / 100.0 && s >= 1.0;
    hide HalfEven, CloseScale, GaveUp;
    if limit > 0 {
      GrownIs(limit as real, s, CloseRung(cfg, limit) as real);
    } else {
      ShrunkIs(limit as real, s, CloseRung(cfg, limit) as real);
    }
  }

  lemma GrownIs(limit: real, s: real, next: real)
    requires limit > 0.0 && -0.5 <= next - limit * s <= 0.5
    ensures GaveUp(limit, next, s)
  {
  }

  lemma ShrunkIs(limit: real, s: real, next: real)
    requires limit <= 0.0 && s >= 1.0 && -0.5 <= next - limit / s <= 0.5
    ensures GaveUp(limit, next, s)
  {
    var x := limit / s;
    var d := next - x;
    DivideBack(limit, s);
    Scale(-0.5, d, s);
    Scale(d, 0.5, s);
    Split(x, d, s);
    assert next == x + d;
  }

  lemma Split(x: real, d: real, s: real)
    ensures (x + d) * s == x * s + d * s
  {
  }

  lemma StretchedGrows(base: real, a: real, b: real, reference: real)
    requires base >= 0.0 && 0.0 < reference <= a <= b
    ensures base <= Stretched(base, a, reference) <= Stretched(base, b, reference)
  {
    Divide(reference, a, reference);
    Divide(a, b, reference);
    Scale(1.0, a / reference, base);
    Scale(a / reference, b / reference, base);
  }

  // A wider quote never shortens the time an entry may rest, and nothing rests past the cap.
  lemma EntryBudgetGrows(cfg: Config, a: real, b: real)
    requires a <= b && cfg.entryTimeout >= 0 && cfg.entryTimeoutMax >= cfg.entryTimeout
    ensures cfg.entryTimeout as real <= EntryBudget(cfg, a) <= EntryBudget(cfg, b) <= cfg.entryTimeoutMax as real
  {
    hide Stretched;
    var base, ref := cfg.entryTimeout as real, cfg.referenceSpread;
    if ref > 0.0 && b > ref {
      StretchedGrows(base, if a > ref then a else ref, b, ref);
    }
  }

  // Past the reference quote the time grows in proportion to the spread, until the maximum.
  lemma EntryBudgetScales(cfg: Config, spreadPct: real)
    ensures cfg.referenceSpread <= 0.0 || spreadPct <= cfg.referenceSpread ==>
              EntryBudget(cfg, spreadPct) == cfg.entryTimeout as real
    ensures cfg.referenceSpread > 0.0 && spreadPct > cfg.referenceSpread ==>
              var scaled, most := cfg.entryTimeout as real * spreadPct, cfg.entryTimeoutMax as real * cfg.referenceSpread;
              EntryBudget(cfg, spreadPct) * cfg.referenceSpread == Smaller(scaled, most)
  {
    var base, ref := cfg.entryTimeout as real, cfg.referenceSpread;
    if ref > 0.0 && spreadPct > ref {
      StretchedBack(base, spreadPct, ref);
      hide Stretched;
      ScaledOrder(Stretched(base, spreadPct, ref), cfg.entryTimeoutMax as real, ref);
      ScaledOrder(cfg.entryTimeoutMax as real, Stretched(base, spreadPct, ref), ref);
    }
  }

  lemma StretchedBack(base: real, spreadPct: real, reference: real)
    requires reference > 0.0
    ensures Stretched(base, spreadPct, reference) * reference == base * spreadPct
  {
    var x := spreadPct / reference;
    assert x * reference == spreadPct;
    assert base * x * reference == base * (x * reference);
  }

  // ----- one rung

  // The nearest cent to a share of the quoted spread, but at least a tick.
  ghost predicate Asks(cfg: Config, origin: real, spreadPct: real, wanted: int) {
    var share := Abs(origin) * spreadPct / 100.0 * cfg.spreadFraction;
    if wanted == cfg.tick then share <= cfg.tick as real + 0.5
    else wanted > cfg.tick && -0.5 <= wanted as real - share <= 0.5
  }

  // A rung takes the step it asks for if the cap leaves room for it, else what room is left to the nearest
  // cent; there is none when that is less than a tick or would leave no price at all.
  lemma EntryRungTakes(cfg: Config, origin: real, spreadPct: real, limit: int) returns (wanted: int, step: int)
    ensures Asks(cfg, origin, spreadPct, wanted)
    ensures var room := Abs(origin) * cfg.maxConcessionPct / 100.0 - (limit as real - origin);
      if wanted as real <= room + 0.0000001 then step == wanted else -0.5 <= step as real - room <= 0.5
    ensures EntryRung(cfg, origin, spreadPct, limit) ==
            if step < cfg.tick || limit + step == 0 then None else Some(limit + step)
  {
    wanted := Wanted(cfg, origin, spreadPct);
    WantedAsks(cfg, origin, spreadPct);
    hide Wanted, Asks, HalfEven;
    var conceded := limit as real - origin;
    var cap := Abs(origin) * cfg.maxConcessionPct / 100.0;
    assert Cap(cfg, origin) == cap;
    hide Cap;
    step := if conceded + wanted as real > cap + EPSILON then HalfEven(cap - conceded) else wanted;
  }

  lemma WantedAsks(cfg: Config, origin: real, spreadPct: real)
    ensures Asks(cfg, origin, spreadPct, Wanted(cfg, origin, spreadPct))
  {
    hide HalfEven;
  }

  lemma EntryRungConcedes(cfg: Config, origin: real, spreadPct: real, limit: int)
    requires Sane(cfg) && EntryRung(cfg, origin, spreadPct, limit).Some?
    ensures var next := EntryRung(cfg, origin, spreadPct, limit).value;
            next >= limit + cfg.tick && next != 0
            && next as real <= Reach(cfg, origin)
  {
  }

  // ----- whole ladders

  // The limits of one entry attempt: its first price, then one rung after another.
  ghost predicate Ladder(cfg: Config, spreadPct: real, limits: seq<int>)
  {
    && limits != []
    && forall i :: 0 < i < |limits| ==>
         EntryRung(cfg, limits[0] as real, spreadPct, limits[i - 1]) == Some(limits[i])
  }

  lemma {:induction false} LadderRises(cfg: Config, spreadPct: real, limits: seq<int>, i: nat, j: nat)
    requires Sane(cfg) && Ladder(cfg, spreadPct, limits) && i < j < |limits|
    ensures limits[i] + (j - i) <= limits[j]
    decreases j
  {
    assert EntryRung(cfg, limits[0] as real, spreadPct, limits[j - 1]) == Some(limits[j]);
    EntryRungConcedes(cfg, limits[0] as real, spreadPct, limits[j - 1]);
    if i < j - 1 {
      LadderRises(cfg, spreadPct, limits, i, j - 1);
    }
  }

  lemma LadderConcession(cfg: Config, spreadPct: real, limits: seq<int>, i: nat)
    requires Sane(cfg) && Ladder(cfg, spreadPct, limits) && i < |limits|
    ensures limits[i] >= limits[0]
    ensures limits[i] as real <= Reach(cfg, limits[0] as real)
  {
    if i > 0 {
      LadderRises(cfg, spreadPct, limits, 0, i);
      EntryRungConcedes(cfg, limits[0] as real, spreadPct, limits[i - 1]);
    } else {
      assert Cap(cfg, limits[0] as real) >= 0.0 by { ShareNonNegative(Abs(limits[0] as real), cfg.maxConcessionPct); }
    }
  }

  lemma ShareNonNegative(x: real, pct: real)
    requires x >= 0.0 && pct >= 0.0
    ensures x * pct / 100.0 >= 0.0
  {
  }

  // ----- which caps keep a credit a credit

  // No ladder of this configuration that starts as a credit ever leaves it.
  ghost predicate KeepsCredits(cfg: Config) {
    forall spreadPct: real, limits: seq<int>, i: nat ::
      spreadPct >= 0.0 && Ladder(cfg, spreadPct, limits) && i < |limits| && limits[0] < 0 ==> limits[i] < 0
  }

  lemma FullCapReach(cfg: Config, origin: real)
    requires cfg.maxConcessionPct <= 100.0 && origin <= 0.0
    ensures Reach(cfg, origin) <= 0.5
  {
    var x := Abs(origin);
    Scale(cfg.maxConcessionPct, 100.0, x);
    var y := x * cfg.maxConcessionPct;
    assert Cap(cfg, origin) == y / 100.0;
    assert y <= x * 100.0;
    assert y / 100.0 <= x;
  }

  // At a cap of 100% or less a credit entry never concedes its way to zero or past it.
  lemma CreditStaysCredit(cfg: Config, spreadPct: real, limits: seq<int>, i: nat)
    requires Sane(cfg) && Ladder(cfg, spreadPct, limits) && i < |limits|
    requires cfg.maxConcessionPct <= 100.0 && limits[0] < 0
    ensures limits[i] < 0
  {
    hide Reach, EntryRung;
    if i > 0 {
      FullCapReach(cfg, limits[0] as real);
      assert EntryRung(cfg, limits[0] as real, spreadPct, limits[i - 1]) == Some(limits[i]);
      EntryRungConcedes(cfg, limits[0] as real, spreadPct, limits[i - 1]);
    }
  }

  // One-cent steps stop at the guard against a zero limit, whatever the cap.
  lemma {:induction false} CentStepsStayCredit(cfg: Config, spreadPct: real, limits: seq<int>, i: nat)
    requires Sane(cfg) && spreadPct >= 0.0 && Ladder(cfg, spreadPct, limits) && i < |limits|
    requires cfg.spreadFraction <= 0.0 && cfg.tick == 1 && limits[0] < 0
    ensures limits[i] < 0
    decreases i
  {
    if i > 0 {
      CentStepsStayCredit(cfg, spreadPct, limits, i - 1);
      CentStep(cfg, limits[0] as real, spreadPct, limits[i - 1]);
    }
  }

  lemma CentStep(cfg: Config, origin: real, spreadPct: real, limit: int)
    requires spreadPct >= 0.0 && cfg.spreadFraction <= 0.0 && cfg.tick == 1 && limit < 0
    ensures var next := EntryRung(cfg, origin, spreadPct, limit); next.Some? ==> next.value < 0
  {
    hide Cap;
    var share := Abs(origin) * spreadPct / 100.0;
    Scale(0.0, spreadPct, Abs(origin));
    Scale(0.0, -cfg.spreadFraction, share);
    assert share * cfg.spreadFraction <= 0.0;
    HalfEvenMonotone(share * cfg.spreadFraction, 0.0);
    HalfEvenWhole(0);
    assert Wanted(cfg, origin, spreadPct) == 1;
    hide Wanted;
  }

  // Cents of credit at which a cap above 100% allows a concession of one cent more than the credit.
  function Flippable(cfg: Config, least: nat): (n: nat)
    requires cfg.maxConcessionPct > 100.0
    ensures n > least && n >= 1
  {
    var x := 100.0 / (cfg.maxConcessionPct - 100.0);
    least + 1 + (if x.Floor >= 0 then x.Floor else 0)
  }

  lemma FlippableCap(cfg: Config, n: nat)
    requires cfg.maxConcessionPct > 100.0 && n as real >= 100.0 / (cfg.maxConcessionPct - 100.0)
    ensures Cap(cfg, -(n as real)) >= n as real + 1.0
  {
    var x, over := n as real, cfg.maxConcessionPct - 100.0;
    assert 100.0 / over * over == 100.0;
    Scale(100.0 / over, x, over);
    assert x * (100.0 + over) == x * 100.0 + x * over;
  }

  lemma FlippableIsLarge(cfg: Config, least: nat)
    requires cfg.maxConcessionPct > 100.0
    ensures Flippable(cfg, least) as real >= 100.0 / (cfg.maxConcessionPct - 100.0)
  {
  }

  // The quoted spread at which a rung from n cents of credit wants n + 1 cents.
  function WideSpread(cfg: Config, n: nat): real
    requires n >= 1 && cfg.spreadFraction > 0.0
  {
    ScaleStrict(0.0, cfg.spreadFraction, n as real);
    100.0 * (n as real + 1.0) / (n as real * cfg.spreadFraction)
  }

  lemma WideSpreadWants(cfg: Config, n: nat)
    requires n >= 1 && cfg.spreadFraction > 0.0
    ensures n as real * WideSpread(cfg, n) / 100.0 * cfg.spreadFraction == n as real + 1.0
    ensures WideSpread(cfg, n) >= 0.0
  {
    var x, f, s := n as real, cfg.spreadFraction, WideSpread(cfg, n);
    ScaleStrict(0.0, f, x);
    assert s * (x * f) == 100.0 * (x + 1.0);
    Regroup(x, s, f);
    Divide(0.0, 100.0 * (x + 1.0), x * f);
  }

  lemma Regroup(x: real, s: real, f: real)
    ensures x * s / 100.0 * f == s * (x * f) / 100.0
  {
    assert x * s * f == s * (x * f);
  }

  // A step the cap leaves room for is taken whole.
  lemma WholeStep(cfg: Config, origin: real, spreadPct: real, limit: int)
    requires var step := Wanted(cfg, origin, spreadPct);
             limit as real - origin + step as real <= Cap(cfg, origin) && limit + step != 0
    ensures EntryRung(cfg, origin, spreadPct, limit) == Some(limit + Wanted(cfg, origin, spreadPct))
  {
    hide Cap, Wanted;
  }

  // One rung of a wide enough quote turns the credit into a debit.
  lemma WideQuoteFlips(cfg: Config, n: nat)
    requires Sane(cfg) && cfg.maxConcessionPct > 100.0 && cfg.spreadFraction > 0.0 && n >= cfg.tick
    requires n as real >= 100.0 / (cfg.maxConcessionPct - 100.0)
    ensures EntryRung(cfg, -(n as real), WideSpread(cfg, n), -(n as int)) == Some(1)
  {
    hide Cap, WideSpread, HalfEven, EntryRung;
    FlippableCap(cfg, n);
    WideSpreadWants(cfg, n);
    HalfEvenWhole(n + 1);
    assert Abs(-(n as real)) == n as real;
    assert Wanted(cfg, -(n as real), WideSpread(cfg, n)) == n + 1;
    WholeStep(cfg, -(n as real), WideSpread(cfg, n), -(n as int));
  }

  // With flat steps of two cents or more, the ladder that starts one cent short of a whole number of steps.
  function FlatLadder(cfg: Config, m: nat): (limits: seq<int>)
    ensures |limits| == m + 2 && forall i :: 0 <= i < m + 2 ==> limits[i] == 1 - cfg.tick * (m + 1 - i)
  {
    seq(m + 2, i => 1 - cfg.tick * (m + 1 - i))
  }

  lemma FlatStepFlips(cfg: Config, m: nat, i: nat)
    requires Sane(cfg) && cfg.maxConcessionPct > 100.0 && cfg.spreadFraction <= 0.0 && cfg.tick >= 2 && i <= m
    requires var n := cfg.tick * (m + 1) - 1; n as real >= 100.0 / (cfg.maxConcessionPct - 100.0)
    ensures var limits := FlatLadder(cfg, m);
            EntryRung(cfg, limits[0] as real, 0.0, limits[i]) == Some(limits[i + 1])
  {
    hide Cap, HalfEven;
    var n := cfg.tick * (m + 1) - 1;
    StepsAddUp(cfg.tick, m, i);
    FlippableCap(cfg, n);
    HalfEvenWhole(0);
    NoSpread(n as real, cfg.spreadFraction);
    assert Abs(-(n as real)) == n as real;
    assert Wanted(cfg, -(n as real), 0.0) == cfg.tick;
    hide EntryRung, Wanted;
    WholeStep(cfg, -(n as real), 0.0, FlatLadder(cfg, m)[i]);
  }

  lemma NoSpread(x: real, f: real)
    ensures x * 0.0 / 100.0 * f == 0.0
  {
  }

  lemma StepsAddUp(t: nat, m: nat, i: nat)
    requires t >= 2 && i <= m
    ensures t * (m + 1) >= 2
    ensures t * (m + 1 - i) == t * (m - i) + t && t * (m + 1) - t * (m + 1 - i) + t <= t * (m + 1)
    ensures 1 - t * (m - i) != 0
  {
    assert t * (m + 1 - i) == t * (m - i) + t;
    assert t * (m + 1) == t * (m + 1 - i) + t * i;
    ScaleInt(t, i, m);
    if m > i { ScaleInt(t, 1, m - i); }
  }

  lemma ScaleInt(t: nat, a: nat, b: nat)
    requires a <= b
    ensures t * a <= t * b
  {
    assert t * b == t * a + t * (b - a);
  }

  lemma WideQuoteLadder(cfg: Config) returns (spreadPct: real, limits: seq<int>)
    requires Sane(cfg) && cfg.maxConcessionPct > 100.0 && cfg.spreadFraction > 0.0
    ensures spreadPct >= 0.0 && Ladder(cfg, spreadPct, limits) && |limits| == 2 && limits[0] < 0 && limits[1] == 1
  {
    hide EntryRung, Flippable, WideSpread;
    var n := Flippable(cfg, cfg.tick);
    FlippableIsLarge(cfg, cfg.tick);
    WideQuoteFlips(cfg, n);
    WideSpreadWants(cfg, n);
    spreadPct, limits := WideSpread(cfg, n), [-(n as int), 1];
  }

  lemma FlatStepLadder(cfg: Config) returns (limits: seq<int>)
    requires Sane(cfg) && cfg.maxConcessionPct > 100.0 && cfg.spreadFraction <= 0.0 && cfg.tick >= 2
    ensures Ladder(cfg, 0.0, limits) && |limits| >= 2 && limits[0] < 0 && limits[|limits| - 1] == 1
  {
    hide EntryRung, Flippable;
    var m := Flippable(cfg, 1);
    FlippableIsLarge(cfg, 1);
    StepsAddUp(cfg.tick, m, 0);
    ScaleInt(m + 1, 2, cfg.tick);
    limits := FlatLadder(cfg, m);
    forall i | 0 < i < |limits|
      ensures EntryRung(cfg, limits[0] as real, 0.0, limits[i - 1]) == Some(limits[i])
    {
      FlatStepFlips(cfg, m, i - 1);
    }
  }

  // Above 100% some credit and some quote flip, in a single rung where quotes widen the step.
  lemma CreditCanFlip(cfg: Config) returns (spreadPct: real, limits: seq<int>)
    requires Sane(cfg) && cfg.maxConcessionPct > 100.0 && (cfg.spreadFraction > 0.0 || cfg.tick >= 2)
    ensures spreadPct >= 0.0 && Ladder(cfg, spreadPct, limits)
    ensures |limits| >= 2 && limits[0] < 0 && limits[|limits| - 1] == 1
    ensures cfg.spreadFraction > 0.0 ==> |limits| == 2
  {
    hide Ladder;
    if cfg.spreadFraction > 0.0 {
      spreadPct, limits := WideQuoteLadder(cfg);
    } else {
      limits := FlatStepLadder(cfg);
      spreadPct := 0.0;
    }
  }

  // Exactly which configurations keep every credit a credit: a cap of at most 100%, or flat one-cent steps.
  lemma CreditsKeptExactly(cfg: Config)
    requires Sane(cfg)
    ensures KeepsCredits(cfg) <==> cfg.maxConcessionPct <= 100.0 || (cfg.spreadFraction <= 0.0 && cfg.tick == 1)
  {
    hide Ladder;
    if cfg.maxConcessionPct <= 100.0 || (cfg.spreadFraction <= 0.0 && cfg.tick == 1) {
      forall spreadPct: real, limits: seq<int>, i: nat
        | spreadPct >= 0.0 && Ladder(cfg, spreadPct, limits) && i < |limits| && limits[0] < 0
        ensures limits[i] < 0
      {
        if cfg.maxConcessionPct <= 100.0 {
          CreditStaysCredit(cfg, spreadPct, limits, i);
        } else {
          CentStepsStayCredit(cfg, spreadPct, limits, i);
        }
      }
    } else {
      var spreadPct, limits := CreditCanFlip(cfg);
      var last: nat := |limits| - 1;
      assert !(limits[last] < 0);
    }
  }

  // ----- closes

  lemma ScaleUp(x: real, c: real)
    requires x >= 0.0 && c >= 1.0
    ensures x * c >= x
  {
  }

  lemma ScaleDown(x: real, c: real)
    requires x <= 0.0 && c >= 1.0
    ensures x <= x / c <= 0.0
  {
    var q := x / c;
    assert q * c == x;
    if q > 0.0 { ScaleUp(q, c); }
    if q < 0.0 { ScaleUp(-q, c); assert (-q) * c == -(q * c); }
  }

  // An escalated close limit is never better for us.
  lemma CloseRungConcedes(cfg: Config, limit: int)
    requires Sane(cfg)
    ensures limit <= CloseRung(cfg, limit)
    ensures limit > 0 ==> CloseRung(cfg, limit) > 0
    ensures limit <= 0 ==> CloseRung(cfg, limit) <= 0
  {
    var c := 1.0 + cfg.closeEscalationPct / 100.0;
    HalfEvenWhole(limit);
    HalfEvenWhole(0);
    if limit > 0 {
      ScaleUp(limit as real, c);
      HalfEvenMonotone(limit as real, limit as real * c);
    } else {
      ScaleDown(limit as real, c);
      HalfEvenMonotone(limit as real, limit as real / c);
      HalfEvenMonotone(limit as real / c, 0.0);
    }
  }

  // A close that must collect keeps demanding something exactly while a slice of it rounds above half a cent.
  lemma CreditCloseKeepsSign(cfg: Config, limit: int)
    requires Sane(cfg) && limit < 0
    ensures CloseRung(cfg, limit) < 0 <==> -limit as real > (1.0 + cfg.closeEscalationPct / 100.0) / 2.0
  {
    var c := 1.0 + cfg.closeEscalationPct / 100.0;
    RoundsBelowZero(limit as real / c);
    DivideByScale(limit as real, c);
  }

  lemma DivideByScale(x: real, c: real)
    requires c >= 1.0
    ensures x / c < -0.5 <==> -x > c / 2.0
  {
    var q := x / c;
    assert q * c == x;
    if q < -0.5 {
      assert (-q - 0.5) * c > 0.0;
    } else {
      assert (q + 0.5) * c >= 0.0;
    }
  }

  // What an escalation would concede before rounding.
  function Slice(cfg: Config, limit: int): real
    requires Sane(cfg)
  {
    ScaleAtLeastOne(cfg);
    if limit >= 0 then limit as real * cfg.closeEscalationPct / 100.0
    else -limit as real - -limit as real / CloseScale(cfg)
  }

  // An escalated close really moves exactly when its slice beats half a cent, ties going to even;
  // otherwise, as always at zero, it is resubmitted unchanged.
  lemma CloseRungStrict(cfg: Config, limit: int)
    requires Sane(cfg)
    ensures CloseRung(cfg, limit) > limit <==>
            Slice(cfg, limit) > 0.5 || (Slice(cfg, limit) == 0.5 && limit % 2 != 0)
    ensures CloseRung(cfg, limit) >= limit
  {
    CloseRungConcedes(cfg, limit);
    if limit >= 0 {
      DebitRungStrict(cfg, limit);
    } else {
      CreditRungStrict(cfg, limit);
    }
  }

  lemma DebitRungStrict(cfg: Config, limit: int)
    requires Sane(cfg) && limit >= 0
    ensures CloseRung(cfg, limit) > limit <==>
            Slice(cfg, limit) > 0.5 || (Slice(cfg, limit) == 0.5 && limit % 2 != 0)
  {
    hide HalfEven, CloseScale, PaidUp;
    var slice := limit as real * cfg.closeEscalationPct / 100.0;
    ShareNonNegative(limit as real, cfg.closeEscalationPct);
    ScaleAtLeastOne(cfg);
    if limit == 0 {
      CloseRungConcedes(cfg, limit);
    } else {
      PaySplit(cfg, limit);
      assert HalfEven(PaidUp(cfg, limit)) == HalfEven(limit as real + slice);
      RoundUpFrom(limit, slice);
    }
  }

  lemma CreditRungStrict(cfg: Config, limit: int)
    requires Sane(cfg) && limit < 0
    ensures CloseRung(cfg, limit) > limit <==>
            Slice(cfg, limit) > 0.5 || (Slice(cfg, limit) == 0.5 && limit % 2 != 0)
  {
    ScaleAtLeastOne(cfg);
    ScaleDown(limit as real, CloseScale(cfg));
    NegateDivision(-limit as real, CloseScale(cfg));
    hide HalfEven, CloseScale;
    var slice := Slice(cfg, limit);
    assert HalfEven(limit as real / CloseScale(cfg)) == HalfEven(limit as real + slice);
    RoundUpFrom(limit, slice);
  }

  lemma NegateDivision(x: real, c: real)
    requires c >= 1.0
    ensures -x / c == -(x / c)
  {
  }

  lemma ScaleAtLeastOne(cfg: Config)
    requires Sane(cfg)
    ensures CloseScale(cfg) >= 1.0
  {
  }

  lemma PaySplit(cfg: Config, limit: int)
    ensures PaidUp(cfg, limit) == limit as real + limit as real * cfg.closeEscalationPct / 100.0
  {
  }

  // A whole number plus a slice rounds past it when the slice beats a half, ties going to even.
  lemma RoundUpFrom(n: int, slice: real)
    requires slice >= 0.0
    ensures HalfEven(n as real + slice) > n <==> slice > 0.5 || (slice == 0.5 && n % 2 != 0)
  {
    var x := n as real + slice;
    if slice < 1.0 {
      assert x.Floor == n;
    } else {
      assert x.Floor >= n + 1;
    }
  }
}
