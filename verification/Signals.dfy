/**
 From a built structure to the protocol: what `build_structure` returns is a signal the
 runs speak of, and the risk its position starts with is the structure's exact worst loss.
 */
module Signals {
  import opened Wrappers
  import opened Structures
  import opened Chain
  import opened World
  import opened Protocol
  import opened Lifecycle
  import opened Effects
  import opened Runs

  // The signal carries what the chain yielded, at the price it was quoted.
  ghost predicate Proposes(p: Proposal, kind: Kind, chain: seq<Quote>, spot: real, movePct: real, underlying: string,
                           g: Geometry)
  {
    var built := Build(kind, chain, spot, movePct, underlying, g);
    built.Some? && p.structure == built.value.structure && p.net as real / 100.0 == built.value.net
  }

  // A signal built from a chain whose symbols name one contract each may be acted on in any world.
  lemma BuiltSignalEnabled(w: World, env: Env, p: Proposal, kind: Kind, chain: seq<Quote>, spot: real, movePct: real,
                           underlying: string, g: Geometry)
    requires Proposes(p, kind, chain, spot, movePct, underlying, g) && NamesContracts(chain)
    ensures Enabled(w, NewsStep(env, p)) && DefinedRisk(p.structure.legs)
  {
    hide Build, NamesContracts, OneEach, DefinedRisk;
    BuiltIsOneEach(kind, chain, spot, movePct, underlying, g);
  }

  // Acting on it starts a position of the proposed quantity, whose maximum loss is that quantity times the
  // worst P&L of the structure over all terminal prices, exactly when the price carries its kind's sign.
  lemma BuiltSignalRisk(w: World, env: Env, p: Proposal, kind: Kind, chain: seq<Quote>, spot: real, movePct: real,
                        underlying: string, g: Geometry)
    requires Inv(w) && Tradeable(w, p) && NamesContracts(chain)
    requires Proposes(p, kind, chain, spot, movePct, underlying, g)
    requires forall q :: q in chain ==> q.strike >= 0.0
    requires kind.IronCondor? ==> Chain.Move(spot, movePct, g) >= SLACK
    ensures var w' := Run(w, News(w, env, p).ws);
      && |w'.positions| == |w.positions| + 1
      && var row, worst := w'.positions[|w.positions|], -(w'.positions[|w.positions|].maxLoss / p.qty as real);
         && row.qty == p.qty && row.structure == p.structure && row.entry == p.net as real / 100.0
         && (WorstIs(row.structure.legs, row.entry, worst) <==>
               if row.structure.IsCredit() then row.entry <= 0.0 else row.entry > 0.0)
         && (row.structure.IsCredit() && row.entry > 0.0 ==> !NeverWorse(row.structure.legs, row.entry, worst))
  {
    hide Build, MaxLossPerSpread, WorstIs, NeverWorse, Chain.Move, Inv, Run, News, NamesContracts, OneEach;
    BuiltSignalEnabled(w, env, p, kind, chain, spot, movePct, underlying, g);
    NewsTrades(w, env, p);
    MaxLossIsExact(kind, chain, spot, movePct, underlying, g, p.net as real / 100.0);
    var row, d := Run(w, News(w, env, p).ws).positions[|w.positions|], MaxLossPerSpread(p.structure, p.net as real / 100.0).amount;
    PerSpread(row.maxLoss, d, p.qty);
  }

  lemma PerSpread(total: real, each: real, n: nat)
    requires n >= 1 && total == each * n as real
    ensures total / n as real == each
  {
  }
}
