/**
 Whole runs: any interleaving of trader operations, broker moves and halt changes,
 each trader operation possibly cut short by a crash after any of its writes.
 */
module Runs {
  import opened Wrappers
  import opened Structures
  import opened World
  import opened Ladder
  import opened Protocol
  import opened Lifecycle
  import opened LifecycleProofs

  datatype Step =
    | SyncStep(env: Env)
    | CloseStep(env: Env, pid: nat, barrier: Barrier, limit: int)
    | NewsStep(env: Env, proposal: Proposal)
    | BrokerFills(key: OrderKey, n: nat, price: real)
    | BrokerEnds(key: OrderKey, status: OrderStatus)
    | HaltChanges(halt: Halt)

  // `survived` writes of the step are durable; at least as many as it has means no crash.
  datatype Act = Act(step: Step, survived: nat)

  ghost predicate Enabled(w: World, step: Step) {
    match step
    case CloseStep(_, pid, _, _) => pid < |w.positions|
    case NewsStep(_, p) => OneEach(p.structure.legs)
    case BrokerFills(key, n, price) => MayTrade(w, key, n, price)
    case BrokerEnds(key, status) => MayLapse(w, key, status)
    case _ => true
  }

  function StepWrites(w: World, step: Step): seq<Write> {
    match step
    case SyncStep(env) => Sync(w, env).ws
    case CloseStep(env, pid, barrier, limit) => if pid < |w.positions| then Close(w, env, pid, barrier, limit).ws else []
    case NewsStep(env, p) => News(w, env, p).ws
    case BrokerFills(key, n, price) => [Trade(key, n, price)]
    case BrokerEnds(key, status) => [Lapse(key, status)]
    case HaltChanges(h) => [SetHalt(h)]
  }

  function Done(w: World, act: Act): seq<Write> {
    var ws := StepWrites(w, act.step);
    if act.survived < |ws| then ws[..act.survived] else ws
  }

  function After(w: World, acts: seq<Act>): World
    decreases acts
  {
    if acts == [] then w else After(Run(w, Done(w, acts[0])), acts[1..])
  }

  ghost predicate ValidRun(w: World, acts: seq<Act>)
    decreases acts
  {
    acts == [] || (Enabled(w, acts[0].step) && ValidRun(Run(w, Done(w, acts[0])), acts[1..]))
  }

  function Fresh(cfg: Config): World {
    World(cfg, [], [], map[], map[], map[], map[], Halt("", "", ""), map[], map[], 0.0)
  }

  lemma FreshInv(cfg: Config)
    requires Sane(cfg)
    ensures Inv(Fresh(cfg))
  {
  }

  lemma StepPermitted(w: World, step: Step)
    requires Inv(w) && Enabled(w, step)
    ensures Permitted(w, StepWrites(w, step))
  {
    hide Inv, Permitted, Sync, News, Close, MayTrade, MayLapse, OneEach;
    match step
    case SyncStep(env) => SyncPermitted(w, env);
    case CloseStep(env, pid, barrier, limit) => ClosePermitted(w, env, pid, barrier, limit);
    case NewsStep(env, p) => NewsPermitted(w, env, p);
    case BrokerFills(key, n, price) => PermitOne(w, Trade(key, n, price));
    case BrokerEnds(key, status) => PermitOne(w, Lapse(key, status));
    case HaltChanges(h) => PermitOne(w, SetHalt(h));
  }

  lemma {:induction false} PermittedPrefix(w: World, ws: seq<Write>, k: nat)
    requires Permitted(w, ws) && k <= |ws|
    ensures Permitted(w, ws[..k])
    decreases k
  {
    if k > 0 {
      assert ws[..k][1..] == ws[1..][..k - 1];
      PermittedPrefix(Apply(w, ws[0]), ws[1..], k - 1);
    }
  }

  lemma ActPermitted(w: World, act: Act)
    requires Inv(w) && Enabled(w, act.step)
    ensures Permitted(w, Done(w, act)) && Inv(Run(w, Done(w, act)))
  {
    hide Inv, Permitted, Enabled, StepWrites, Run;
    StepPermitted(w, act.step);
    if act.survived < |StepWrites(w, act.step)| {
      PermittedPrefix(w, StepWrites(w, act.step), act.survived);
    }
    RunKeepsInv(w, Done(w, act));
  }

  // The invariant holds in every reachable world, crashes included.
  lemma {:induction false} ReachableInv(w: World, acts: seq<Act>)
    requires Inv(w) && ValidRun(w, acts)
    ensures Inv(After(w, acts))
    decreases acts
  {
    hide Inv, Permitted, Enabled, Done, Run;
    if acts != [] {
      ActPermitted(w, acts[0]);
      ReachableInv(Run(w, Done(w, acts[0])), acts[1..]);
    }
  }

  // From an empty store: unique ids, at most one working order a position, and its intent
  // matches the position's transitional status.
  lemma EveryRunDisciplined(cfg: Config, acts: seq<Act>, i: nat, j: nat)
    requires Sane(cfg) && ValidRun(Fresh(cfg), acts)
    requires var w := After(Fresh(cfg), acts); i < |w.orders| && j < |w.orders| && i != j
    ensures var w := After(Fresh(cfg), acts);
            && w.orders[i].key != w.orders[j].key
            && w.orders[i].pid < |w.positions|
            && (InFlight(w.orders[i]) ==>
                  w.positions[w.orders[i].pid].status == if w.orders[i].intent.ToOpen? then Opening else Closing)
            && (InFlight(w.orders[i]) && InFlight(w.orders[j]) ==> w.orders[i].pid != w.orders[j].pid)
  {
    FreshInv(cfg);
    ReachableInv(Fresh(cfg), acts);
    var w := After(Fresh(cfg), acts);
    if i < j { KeysUnique(w, i, j); } else { KeysUnique(w, j, i); }
    assert OrderFits(w, w.orders[i]);
    assert Suits(w.orders[i], w.positions[w.orders[i].pid].status, CloseAttempt(w, w.orders[i].pid));
    if InFlight(w.orders[i]) && InFlight(w.orders[j]) && w.orders[i].pid == w.orders[j].pid {
      OneInFlight(w, i, j);
    }
  }

  // Closed and failed positions are the same row for the rest of every run.
  lemma {:induction false} FinalForever(w: World, acts: seq<Act>, p: nat)
    requires Inv(w) && ValidRun(w, acts) && p < |w.positions| && !Live(w.positions[p].status)
    ensures var w' := After(w, acts); p < |w'.positions| && w'.positions[p] == w.positions[p]
    decreases acts
  {
    hide Inv, Permitted, Enabled, Done, Run;
    if acts != [] {
      ActPermitted(w, acts[0]);
      FinalIsFinal(w, Done(w, acts[0]), p);
      FinalForever(Run(w, Done(w, acts[0])), acts[1..], p);
    }
  }

  // Whatever crashed before, a sync that returns normally strands nothing it could resolve.
  lemma SyncRecovers(cfg: Config, acts: seq<Act>, env: Env)
    requires Sane(cfg) && ValidRun(Fresh(cfg), acts) && !Sync(After(Fresh(cfg), acts), env).raised
    ensures var w := After(Fresh(cfg), acts);
            var w' := Run(w, Sync(w, env).ws);
            forall p :: 0 <= p < |w'.positions| ==> Recovered(w', p)
  {
    FreshInv(cfg);
    ReachableInv(Fresh(cfg), acts);
    SyncPermitted(After(Fresh(cfg), acts), env);
  }

  // The rungs of one entry: strictly rising, bounded in number, bounded in concession.
  lemma EntryLadderBounded(cfg: Config, acts: seq<Act>, i: nat, j: nat)
    requires Sane(cfg) && ValidRun(Fresh(cfg), acts)
    requires var w := After(Fresh(cfg), acts);
             i < j < |w.orders| && w.orders[i].intent.ToOpen? && Of(w.orders[j], w.orders[i].pid, ToOpen)
    ensures var w := After(Fresh(cfg), acts);
            && w.orders[i].limit < w.orders[j].limit
            && w.orders[i].key.attempt < w.orders[j].key.attempt <= cfg.ladderSteps
            && (w.orders[i].key.attempt == 0 ==> w.orders[j].limit as real <= Reach(cfg, w.orders[i].limit as real))
  {
    FreshInv(cfg);
    ReachableInv(Fresh(cfg), acts);
    ConfigKept(Fresh(cfg), acts);
    var w := After(Fresh(cfg), acts);
    assert Supersedes(w.cfg, w.orders[i], w.orders[j]);
    assert OrderFits(w, w.orders[j]);
  }

  lemma {:induction false} ConfigKept(w: World, acts: seq<Act>)
    ensures After(w, acts).cfg == w.cfg
    decreases acts
  {
    hide Done, Run;
    if acts != [] {
      RunKeepsConfig(w, Done(w, acts[0]));
      ConfigKept(Run(w, Done(w, acts[0])), acts[1..]);
    }
  }

  // ----- how often a close escalates over a position's whole life

  predicate EscalationOf(row: Order, pid: nat) {
    row.pid == pid && row.intent.ToClose? && row.key.CloseKey? && row.key.reason.Escalated?
  }

  function Escalations(orders: seq<Order>, pid: nat): nat {
    if orders == [] then 0
    else Escalations(orders[..|orders| - 1], pid) + (if EscalationOf(orders[|orders| - 1], pid) then 1 else 0)
  }

  ghost predicate AttemptsRise(orders: seq<Order>, pid: nat, max: nat) {
    && (forall i, j :: 0 <= i < j < |orders| && EscalationOf(orders[i], pid) && EscalationOf(orders[j], pid) ==>
          orders[i].key.attempt < orders[j].key.attempt)
    && (forall i :: 0 <= i < |orders| && EscalationOf(orders[i], pid) ==> 2 <= orders[i].key.attempt <= max)
  }

  lemma {:induction false} RisingAttemptsCount(orders: seq<Order>, pid: nat, max: nat)
    requires AttemptsRise(orders, pid, max)
    ensures Escalations(orders, pid) > 0 ==> Escalations(orders, pid) <= max - 1
    decreases |orders|
  {
    if orders != [] {
      var last, before := orders[|orders| - 1], orders[..|orders| - 1];
      if EscalationOf(last, pid) {
        assert AttemptsRise(before, pid, last.key.attempt - 1) by {
          forall i | 0 <= i < |before| && EscalationOf(before[i], pid)
            ensures 2 <= before[i].key.attempt <= last.key.attempt - 1
          {
            assert orders[i] == before[i];
          }
        }
        RisingAttemptsCount(before, pid, last.key.attempt - 1);
      } else {
        assert AttemptsRise(before, pid, max);
        RisingAttemptsCount(before, pid, max);
      }
    }
  }

  // Reopening never resets the count: one position escalates its closes at most max - 1 times.
  lemma EscalationsBounded(cfg: Config, acts: seq<Act>, pid: nat)
    requires Sane(cfg) && ValidRun(Fresh(cfg), acts)
    ensures var n := Escalations(After(Fresh(cfg), acts).orders, pid);
            n == 0 || n <= cfg.closeMaxAttempts - 1
  {
    FreshInv(cfg);
    ReachableInv(Fresh(cfg), acts);
    ConfigKept(Fresh(cfg), acts);
    var w := After(Fresh(cfg), acts);
    forall i, j | 0 <= i < j < |w.orders| && EscalationOf(w.orders[i], pid) && EscalationOf(w.orders[j], pid)
      ensures w.orders[i].key.attempt < w.orders[j].key.attempt
    {
      assert Of(w.orders[j], w.orders[i].pid, w.orders[i].intent);
      assert Supersedes(w.cfg, w.orders[i], w.orders[j]);
    }
    forall i | 0 <= i < |w.orders| && EscalationOf(w.orders[i], pid)
      ensures 2 <= w.orders[i].key.attempt <= cfg.closeMaxAttempts
    {
      assert OrderFits(w, w.orders[i]);
    }
    RisingAttemptsCount(w.orders, pid, cfg.closeMaxAttempts);
  }
}
