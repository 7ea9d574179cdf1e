/**
 Risk recorded from fills: over every run, whichever rung fills and whether a poll or the
 sweep books it, a position's entry and maximum loss stay within the ladder's concession
 of the approved ones.
 */
module Risk {
  import opened Arithmetic
  import opened Wrappers
  import opened Structures
  import opened World
  import opened Ladder
  import opened Protocol
  import opened Lifecycle
  import opened LifecycleProofs
  import opened Custody
  import opened Runs
  import opened CustodyRuns
  import opened Endings
  import opened ReconcileRuns
  import Ledger

  // ----- one fill

  // A fill at most c dearer than approved, on the same side of zero, adds at most c to the loss per share.
  lemma RiskDrift(s: Structure, approved: real, fill: real, c: real)
    requires MaxLossPerSpread(s, approved).Dollars? && MaxLossPerSpread(s, fill).Dollars?
    requires c >= 0.0 && fill <= approved + c
    requires ProperlySigned(s, approved) && ProperlySigned(s, fill)
    ensures MaxLossPerSpread(s, fill).amount <= MaxLossPerSpread(s, approved).amount + 100.0 * c
  {
    hide RiskOf, Width;
  }

  lemma AverageUnderLimit(t: Ticket)
    requires TicketSound(t) && t.state.Complete?
    ensures Average(t) <= t.limit as real / 100.0
  {
    Ledger.AverageTimesQty(t);
    var q, limit := t.qty as real, t.limit as real / 100.0;
    Unscale(Average(t), limit, q);
  }

  // Dollars per share the ladder may concede from a first price.
  function Concession(cfg: Config, entry: real): real { (Cap(cfg, entry * 100.0) + 0.5) / 100.0 }

  ghost predicate ProperlySigned(s: Structure, net: real) { if s.IsCredit() then net <= 0.0 else net >= 0.0 }

  lemma CapNonNegative(cfg: Config, origin: real)
    requires Sane(cfg)
    ensures Cap(cfg, origin) >= 0.0
  {
    ShareNonNegative(Abs(origin), cfg.maxConcessionPct);
  }

  // The ticket behind a recorded entry fill.
  lemma FillsTicket(w: World, pid: nat, price: real) returns (o: nat)
    requires Inv(w) && Cust(w) && pid < |w.positions| && FillPrice(w.orders, pid, ToOpen) == Some(price)
    ensures o < |w.orders| && Of(w.orders[o], pid, ToOpen) && OrderFits(w, w.orders[o])
    ensures price <= w.orders[o].limit as real / 100.0
  {
    hide Inv, HoldingsAgree, CashAgrees, OrderFits, Suits, Average;
    o := Latest(w.orders, pid, ToOpen).value;
    RowFits(w, o);
    assert Truthful(w.orders[o], w.broker);
    TicketsFitOf(w, o);
    AverageUnderLimit(w.broker[w.orders[o].key]);
  }

  // Whatever write opens a position records a price within the concession of the approved one; up to a
  // 100% cap a credit is recorded as a credit.
  lemma FillWithinConcession(w: World, pid: nat, row: Position)
    requires Inv(w) && Cust(w) && MaySetPosition(w, pid, row) && w.positions[pid].status.Opening? && row.status.Open?
    ensures var entry := w.positions[pid].entry;
      && row.entry <= entry + Concession(w.cfg, entry)
      && (w.cfg.maxConcessionPct <= 100.0 && entry < 0.0 ==> row.entry < 0.0)
  {
    hide Inv, Cust, FillPrice, AllDead, AllBelow, RecordedRisk, Cap;
    var entry := w.positions[pid].entry;
    var o := FillsTicket(w, pid, row.entry);
    if w.cfg.maxConcessionPct <= 100.0 && entry < 0.0 {
      FullCapReach(w.cfg, entry * 100.0);
    }
  }

  // ----- one position from its approval on

  predicate Carried(s: Status) { s.Open? || s.Closing? || s.Closed? }

  // `now` is a later state of the position approved as `was`.
  ghost predicate WithinApproved(cfg: Config, was: Position, now: Position) {
    && SameTrade(was, now)
    && (now.status.Opening? ==> now.entry == was.entry && now.maxLoss == was.maxLoss)
    && (Carried(now.status) ==>
          && now.entry <= was.entry + Concession(cfg, was.entry)
          && now.maxLoss == RecordedRisk(was, now.entry)
          && (cfg.maxConcessionPct <= 100.0 && was.entry < 0.0 ==> now.entry < 0.0))
  }

  lemma WriteKeepsApproved(w: World, x: Write, p: nat, was: Position)
    requires Inv(w) && Cust(w) && Allowed(w, x) && p < |w.positions| && WithinApproved(w.cfg, was, w.positions[p])
    ensures p < |Apply(w, x).positions| && WithinApproved(w.cfg, was, Apply(w, x).positions[p])
    ensures Apply(w, x).cfg == w.cfg
  {
    hide Inv, Cust, FillPrice, AllDead, AllBelow, Backed, Concession, AddSpreads, Traded, Ended, Rewarded, MaxLossPerSpread;
    ApplyGrows(w, x);
    if x.SetPosition? && x.pid == p {
      if w.positions[p].status.Opening? && x.row.status.Open? { FillWithinConcession(w, p, x.row); }
    }
  }

  lemma {:induction false} RunKeepsApproved(w: World, ws: seq<Write>, p: nat, was: Position)
    requires Inv(w) && Cust(w) && Permitted(w, ws) && HonestRun(w, ws, ALL_KEYS)
    requires p < |w.positions| && WithinApproved(w.cfg, was, w.positions[p])
    ensures p < |Run(w, ws).positions| && WithinApproved(w.cfg, was, Run(w, ws).positions[p])
    decreases ws
  {
    hide Inv, Cust, Apply, Allowed, Honest, WithinApproved;
    if ws != [] {
      WriteKeepsApproved(w, ws[0], p, was);
      WriteKeepsInv(w, ws[0]);
      WriteKeepsCust(w, ws[0]);
      RunKeepsApproved(Apply(w, ws[0]), ws[1..], p, was);
    }
  }

  lemma {:induction false} HonestPrefix(w: World, ws: seq<Write>, k: nat)
    requires HonestRun(w, ws, ALL_KEYS) && k <= |ws|
    ensures HonestRun(w, ws[..k], ALL_KEYS)
    decreases k
  {
    hide Honest, Apply;
    if k > 0 {
      assert ws[..k][1..] == ws[1..][..k - 1];
      HonestPrefix(Apply(w, ws[0]), ws[1..], k - 1);
    }
  }

  lemma ActHonest(w: World, act: Act)
    requires Inv(w) && Cust(w) && Enabled(w, act.step)
    ensures HonestRun(w, Done(w, act), ALL_KEYS)
  {
    hide Inv, Cust, HonestRun, Enabled, StepWrites;
    StepHonest(w, act.step, ALL_KEYS);
    if act.survived < |StepWrites(w, act.step)| { HonestPrefix(w, StepWrites(w, act.step), act.survived); }
  }

  lemma {:induction false} RunsKeepApproved(w: World, acts: seq<Act>, p: nat, was: Position)
    requires Inv(w) && Cust(w) && ValidRun(w, acts)
    requires p < |w.positions| && WithinApproved(w.cfg, was, w.positions[p])
    ensures p < |After(w, acts).positions| && WithinApproved(w.cfg, was, After(w, acts).positions[p])
    decreases acts
  {
    hide Inv, Cust, Enabled, Done, Run, Permitted, HonestRun, WithinApproved;
    if acts != [] {
      ActPermitted(w, acts[0]);
      ActHonest(w, acts[0]);
      ActKeepsCust(w, acts[0]);
      RunKeepsApproved(w, Done(w, acts[0]), p, was);
      RunKeepsConfig(w, Done(w, acts[0]));
      RunsKeepApproved(Run(w, Done(w, acts[0])), acts[1..], p, was);
    }
  }

  // ----- every position starts approved

  // An opening position carries the maximum loss of the price it asks for.
  ghost predicate Approved(row: Position) {
    MaxLossPerSpread(row.structure, row.entry).Dollars? && row.maxLoss == RecordedRisk(row, row.entry)
  }

  ghost predicate OpeningsApproved(w: World) {
    forall p :: 0 <= p < |w.positions| && w.positions[p].status.Opening? ==> Approved(w.positions[p])
  }

  lemma WriteKeepsOpenings(w: World, x: Write)
    requires OpeningsApproved(w) && Allowed(w, x)
    ensures OpeningsApproved(Apply(w, x))
  {
    hide MaxLossPerSpread, FillPrice, AllDead, AllBelow, Backed, AddSpreads, Traded, Ended, Rewarded, Sound;
  }

  lemma {:induction false} RunKeepsOpenings(w: World, ws: seq<Write>)
    requires OpeningsApproved(w) && Permitted(w, ws)
    ensures OpeningsApproved(Run(w, ws))
    decreases ws
  {
    hide OpeningsApproved, Apply, Allowed;
    if ws != [] {
      WriteKeepsOpenings(w, ws[0]);
      RunKeepsOpenings(Apply(w, ws[0]), ws[1..]);
    }
  }

  lemma {:induction false} ReachableOpenings(w: World, acts: seq<Act>)
    requires Inv(w) && OpeningsApproved(w) && ValidRun(w, acts)
    ensures OpeningsApproved(After(w, acts))
    decreases acts
  {
    hide Inv, OpeningsApproved, Enabled, Done, Run, Permitted;
    if acts != [] {
      ActPermitted(w, acts[0]);
      RunKeepsOpenings(w, Done(w, acts[0]));
      ReachableOpenings(Run(w, Done(w, acts[0])), acts[1..]);
    }
  }

  // ----- runs cut in two

  lemma {:induction false} CutRun(w: World, acts: seq<Act>, i: nat)
    requires i <= |acts| && ValidRun(w, acts)
    ensures After(w, acts) == After(After(w, acts[..i]), acts[i..])
    ensures ValidRun(w, acts[..i])
    ensures ValidRun(After(w, acts[..i]), acts[i..])
    decreases i
  {
    hide Enabled, Done, Run;
    if i > 0 {
      assert acts[..i][1..] == acts[1..][..i - 1] && acts[1..][i - 1..] == acts[i..];
      CutRun(Run(w, Done(w, acts[0])), acts[1..], i - 1);
    } else {
      assert acts[..0] == [] && acts[0..] == acts;
    }
  }

  // ----- the run theorem

  // Whatever a position was approved at, once held it records a price within the ladder's concession
  // and the maximum loss of that price; on its kind's side of zero that is at most a hundred times
  // concession and quantity above the approved loss.
  lemma FillRiskBounded(cfg: Config, acts: seq<Act>, i: nat, p: nat)
    requires Sane(cfg) && ValidRun(Fresh(cfg), acts) && i <= |acts|
    requires var early := After(Fresh(cfg), acts[..i]); p < |early.positions| && early.positions[p].status.Opening?
    ensures p < |After(Fresh(cfg), acts).positions|
    ensures var was, now := After(Fresh(cfg), acts[..i]).positions[p], After(Fresh(cfg), acts).positions[p];
      && Approved(was) && SameTrade(was, now)
      && (Carried(now.status) ==>
            && now.entry <= was.entry + Concession(cfg, was.entry)
            && now.maxLoss == RecordedRisk(was, now.entry)
            && (ProperlySigned(was.structure, was.entry) && ProperlySigned(was.structure, now.entry) ==>
                  now.maxLoss <= was.maxLoss + 100.0 * Concession(cfg, was.entry) * was.qty as real))
  {
    hide Inv, Cust, Concession, MaxLossPerSpread, ValidRun, After, OpeningsApproved;
    var w := ApprovedThen(cfg, acts, i, p);
    var was := w.positions[p];
    var now := After(Fresh(cfg), acts).positions[p];
    if Carried(now.status) && ProperlySigned(was.structure, was.entry) && ProperlySigned(was.structure, now.entry) {
      RecordedWithin(cfg, was, now.entry);
    }
  }

  lemma ApprovedThen(cfg: Config, acts: seq<Act>, i: nat, p: nat) returns (w: World)
    requires Sane(cfg) && ValidRun(Fresh(cfg), acts) && i <= |acts|
    requires var early := After(Fresh(cfg), acts[..i]); p < |early.positions| && early.positions[p].status.Opening?
    ensures w == After(Fresh(cfg), acts[..i]) && Approved(w.positions[p])
    ensures p < |After(Fresh(cfg), acts).positions|
    ensures WithinApproved(cfg, w.positions[p], After(Fresh(cfg), acts).positions[p])
  {
    hide Inv, Cust, Concession, MaxLossPerSpread, ValidRun, After;
    w := After(Fresh(cfg), acts[..i]);
    FreshInv(cfg);
    FreshCust(cfg);
    CutRun(Fresh(cfg), acts, i);
    ReachableCust(Fresh(cfg), acts[..i]);
    ConfigKept(Fresh(cfg), acts[..i]);
    ReachableOpenings(Fresh(cfg), acts[..i]);
    RunsKeepApproved(w, acts[i..], p, w.positions[p]);
  }

  lemma RecordedWithin(cfg: Config, was: Position, fill: real)
    requires Sane(cfg) && Approved(was) && fill <= was.entry + Concession(cfg, was.entry)
    requires ProperlySigned(was.structure, was.entry) && ProperlySigned(was.structure, fill)
    ensures RecordedRisk(was, fill) <= was.maxLoss + 100.0 * Concession(cfg, was.entry) * was.qty as real
  {
    hide MaxLossPerSpread, Cap;
    var c, q := Concession(cfg, was.entry), was.qty as real;
    CapNonNegative(cfg, was.entry * 100.0);
    ScaleRisk(0.0, 100.0 * c, 0.0, q);
    if MaxLossPerSpread(was.structure, fill).Dollars? {
      RiskDrift(was.structure, was.entry, fill, c);
      ScaleRisk(MaxLossPerSpread(was.structure, fill).amount, MaxLossPerSpread(was.structure, was.entry).amount, 100.0 * c, q);
    }
  }

  lemma ScaleRisk(a: real, b: real, c: real, q: real)
    requires a <= b + c && q >= 0.0
    ensures a * q <= b * q + c * q
  {
    assert (b + c - a) * q >= 0.0;
  }

  // Under a cap of at most 100%, exactly where the ladder keeps credits, a position approved as a
  // credit is held as one, so a credit kind needs no assumption about its fill.
  lemma CreditFillsAsCredit(cfg: Config, acts: seq<Act>, i: nat, p: nat)
    requires Sane(cfg) && ValidRun(Fresh(cfg), acts) && i <= |acts|
    requires var early := After(Fresh(cfg), acts[..i]); p < |early.positions| && early.positions[p].status.Opening?
    requires cfg.maxConcessionPct <= 100.0 && After(Fresh(cfg), acts[..i]).positions[p].entry < 0.0
    ensures p < |After(Fresh(cfg), acts).positions|
    ensures var was, now := After(Fresh(cfg), acts[..i]).positions[p], After(Fresh(cfg), acts).positions[p];
      Carried(now.status) ==>
        && now.entry < 0.0
        && (was.structure.IsCredit() ==>
              now.maxLoss <= was.maxLoss + 100.0 * Concession(cfg, was.entry) * was.qty as real)
  {
    hide Inv, Cust, Concession, MaxLossPerSpread, ValidRun, After;
    var w := ApprovedThen(cfg, acts, i, p);
    var was := w.positions[p];
    var now := After(Fresh(cfg), acts).positions[p];
    if Carried(now.status) && was.structure.IsCredit() { RecordedWithin(cfg, was, now.entry); }
  }

  // ----- and every position a run ever had was opening at some point of it

  lemma {:induction false} NewcomersOpening(w: World, ws: seq<Write>, n: nat)
    requires Permitted(w, ws) && n <= |w.positions| && forall i :: 0 <= i < |ws| ==> !ws[i].SetPosition?
    requires forall p :: n <= p < |w.positions| ==> w.positions[p].status.Opening?
    ensures forall p :: n <= p < |Run(w, ws).positions| ==> Run(w, ws).positions[p].status.Opening?
    decreases ws
  {
    hide Apply, Allowed;
    if ws != [] {
      NewcomerOpening(w, ws[0], n);
      assert forall i :: 0 <= i < |ws[1..]| ==> ws[1..][i] == ws[i + 1];
      NewcomersOpening(Apply(w, ws[0]), ws[1..], n);
    }
  }

  lemma NewcomerOpening(w: World, x: Write, n: nat)
    requires Allowed(w, x) && n <= |w.positions| && !x.SetPosition?
    requires forall p :: n <= p < |w.positions| ==> w.positions[p].status.Opening?
    ensures n <= |Apply(w, x).positions|
    ensures forall p :: n <= p < |Apply(w, x).positions| ==> Apply(w, x).positions[p].status.Opening?
  {
    hide AddSpreads, Traded, Ended, Rewarded, Sound, MayInsertOrder, Matches, MayTrade;
  }

  lemma {:induction false} NoNewcomers(w: World, ws: seq<Write>)
    requires forall i :: 0 <= i < |ws| ==> !ws[i].InsertPosition?
    ensures |Run(w, ws).positions| == |w.positions|
    decreases ws
  {
    hide Apply;
    if ws != [] {
      assert |Apply(w, ws[0]).positions| == |w.positions| by { NoNewcomer(w, ws[0]); }
      assert forall i :: 0 <= i < |ws[1..]| ==> ws[1..][i] == ws[i + 1];
      NoNewcomers(Apply(w, ws[0]), ws[1..]);
    }
  }

  lemma NoNewcomer(w: World, x: Write)
    requires !x.InsertPosition?
    ensures |Apply(w, x).positions| == |w.positions|
  {
    hide AddSpreads, Traded, Ended, Rewarded;
  }

  lemma NewsMovesNone(w: World, env: Env, p: Proposal)
    ensures forall i :: 0 <= i < |News(w, env, p).ws| ==> !News(w, env, p).ws[i].SetPosition?
  {
    hide Run, UnitRisk, GateApproves, Seen;
    if News(w, env, p).ws != [] { Run1(w, InsertPosition(NewPosition(env, p))); }
  }

  // Only a signal adds a position, and leaves it opening.
  lemma ActAddsOpening(w: World, act: Act)
    requires Inv(w) && Enabled(w, act.step)
    ensures forall p :: |w.positions| <= p < |Run(w, Done(w, act)).positions| ==>
              Run(w, Done(w, act)).positions[p].status.Opening?
  {
    hide Inv, Permitted, Run, Sync, Close, News, OneEach, MayTrade, MayLapse;
    ActPermitted(w, act);
    match act.step
    case SyncStep(env) => SyncRoutine(w, env); NoNewcomers(w, Done(w, act));
    case CloseStep(env, pid, barrier, limit) => CloseRoutine(w, env, pid, barrier, limit); NoNewcomers(w, Done(w, act));
    case NewsStep(env, p) => NewsMovesNone(w, env, p); NewcomersOpening(w, Done(w, act), |w.positions|);
    case _ => NoNewcomers(w, Done(w, act));
  }

  // Every position of a run was once opening, so the bounds above speak of every held one.
  lemma {:induction false} BornOpening(cfg: Config, acts: seq<Act>, p: nat) returns (i: nat)
    requires Sane(cfg) && ValidRun(Fresh(cfg), acts)
    requires p < |After(Fresh(cfg), acts).positions|
    ensures i <= |acts|
    ensures var early := After(Fresh(cfg), acts[..i]); p < |early.positions| && early.positions[p].status.Opening?
    decreases |acts|
  {
    hide Inv, Enabled, Done, Run;
    assert acts != [];
    var n := |acts| - 1;
    var before := acts[..n];
    CutRun(Fresh(cfg), acts, n);
    var w := After(Fresh(cfg), before);
    assert acts[n..] == [acts[n]] && acts[n..][1..] == [];
    if p < |w.positions| {
      i := BornOpening(cfg, before, p);
      assert before[..i] == acts[..i];
    } else {
      FreshInv(cfg);
      ReachableInv(Fresh(cfg), before);
      ActAddsOpening(w, acts[n]);
      i := |acts|;
      assert acts[..i] == acts;
    }
  }
}
