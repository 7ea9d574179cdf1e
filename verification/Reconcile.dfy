/**
 The comparison of tables and broker that decides whether trading halts: each
 option symbol may sit anywhere between the corners its working orders span.
 */
module Reconcile {
  import opened Arithmetic
  import opened Wrappers
  import opened Structures
  import opened World
  import opened Protocol
  import opened Custody

  // ----- the specification

  predicate Transit(orders: seq<Order>, pid: nat, intent: Intent) {
    exists o :: 0 <= o < |orders| && InFlight(orders[o]) && Of(orders[o], pid, intent)
  }

  // Where a live position's legs are counted; a leaving position is settled as well.
  datatype Group = Settled | Arriving | Leaving

  predicate In(orders: seq<Order>, pid: nat, row: Position, g: Group) {
    match g
    case Arriving => row.status.Opening? && Transit(orders, pid, ToOpen)
    case Settled => Live(row.status) && !(row.status.Opening? && Transit(orders, pid, ToOpen))
    case Leaving => row.status.Closing? && Transit(orders, pid, ToClose)
  }

  // Signed contracts of x implied by the first n positions of one group.
  function Implied(orders: seq<Order>, positions: seq<Position>, g: Group, x: string, n: nat): int
    requires n <= |positions|
  {
    if n == 0 then 0
    else
      var row := positions[n - 1];
      Implied(orders, positions, g, x, n - 1)
      + if In(orders, n - 1, row, g) then LegQty(row.structure.legs, x, row.qty) else 0
  }

  datatype Listing = Listing(symbol: string, qty: int)

  function Listed(listing: seq<Listing>, x: string): int {
    if listing == [] then 0
    else Listed(listing[..|listing| - 1], x) + if listing[|listing| - 1].symbol == x then listing[|listing| - 1].qty else 0
  }

  datatype Verdict = Agrees | BrokerOnly | LocalOnly | Mismatched

  function Judge(base: int, a: int, l: int, b: int): Verdict {
    if Min(Min(base, base + a), Min(base - l, base + a - l)) <= b
       <= Max(Max(base, base + a), Max(base - l, base + a - l)) then Agrees
    else if base == 0 && a == 0 && l == 0 then BrokerOnly
    else if b == 0 then LocalOnly
    else Mismatched
  }

  function Judged(orders: seq<Order>, positions: seq<Position>, x: string, held: int): Verdict {
    var n := |positions|;
    Judge(Implied(orders, positions, Settled, x, n), Implied(orders, positions, Arriving, x, n),
          Implied(orders, positions, Leaving, x, n), held)
  }

  ghost predicate InSync(orders: seq<Order>, positions: seq<Position>, listing: seq<Listing>) {
    forall x :: Judged(orders, positions, x, Listed(listing, x)).Agrees?
  }

  // ----- the loops

  function SumOf(rows: seq<Position>, x: string): int {
    if rows == [] then 0
    else SumOf(rows[..|rows| - 1], x) + LegQty(rows[|rows| - 1].structure.legs, x, rows[|rows| - 1].qty)
  }

  method LegQuantities(rows: seq<Position>) returns (totals: map<string, int>)
    ensures forall x :: Held(totals, x) == SumOf(rows, x)
    ensures forall x :: x in totals ==> totals[x] != 0
  {
    totals := map[];
    var i := 0;
    while i < |rows|
      invariant 0 <= i <= |rows|
      invariant forall x :: Held(totals, x) == SumOf(rows[..i], x)
    {
      var legs, qty := rows[i].structure.legs, rows[i].qty;
      ghost var before := totals;
      var j := 0;
      while j < |legs|
        invariant 0 <= j <= |legs|
        invariant AddSpreads(totals, legs[j..], qty) == AddSpreads(before, legs, qty)
      {
        var signed := if legs[j].side == Long then legs[j].ratio * qty else -(legs[j].ratio * qty);
        var symbol := legs[j].symbol;
        assert legs[j..][1..] == legs[j + 1..];
        totals := totals[symbol := (if symbol in totals then totals[symbol] else 0) + signed];
        j := j + 1;
      }
      forall x ensures Held(totals, x) == SumOf(rows[..i + 1], x) {
        AddSpreadsHeld(before, legs, qty, x);
        assert rows[..i + 1][..i] == rows[..i];
      }
      i := i + 1;
    }
    assert rows[..i] == rows;
    totals := map x | x in totals && totals[x] != 0 :: totals[x];
  }

  method BrokerLegQuantities(listing: seq<Listing>) returns (totals: map<string, int>)
    ensures forall x :: Held(totals, x) == Listed(listing, x)
  {
    totals := map[];
    var i := 0;
    while i < |listing|
      invariant 0 <= i <= |listing|
      invariant forall x :: Held(totals, x) == Listed(listing[..i], x)
    {
      assert listing[..i + 1][..i] == listing[..i];
      if listing[i].qty != 0 {
        totals := totals[listing[i].symbol := Held(totals, listing[i].symbol) + listing[i].qty];
      }
      i := i + 1;
    }
    assert listing[..i] == listing;
  }

  method Gather(orders: seq<Order>, positions: seq<Position>)
    returns (settled: seq<Position>, arriving: seq<Position>, leaving: seq<Position>)
    ensures forall x :: SumOf(settled, x) == Implied(orders, positions, Settled, x, |positions|)
    ensures forall x :: SumOf(arriving, x) == Implied(orders, positions, Arriving, x, |positions|)
    ensures forall x :: SumOf(leaving, x) == Implied(orders, positions, Leaving, x, |positions|)
  {
    settled, arriving, leaving := [], [], [];
    var p := 0;
    while p < |positions|
      invariant 0 <= p <= |positions|
      invariant forall x :: SumOf(settled, x) == Implied(orders, positions, Settled, x, p)
      invariant forall x :: SumOf(arriving, x) == Implied(orders, positions, Arriving, x, p)
      invariant forall x :: SumOf(leaving, x) == Implied(orders, positions, Leaving, x, p)
    {
      var row := positions[p];
      SumOfAppend(settled, row);
      SumOfAppend(arriving, row);
      SumOfAppend(leaving, row);
      if Live(row.status) {
        if row.status.Opening? && Transit(orders, p, ToOpen) {
          arriving := arriving + [row];
        } else {
          settled := settled + [row];
          if row.status.Closing? && Transit(orders, p, ToClose) {
            leaving := leaving + [row];
          }
        }
      }
      p := p + 1;
    }
  }

  lemma SumOfAppend(rows: seq<Position>, row: Position)
    ensures forall x :: SumOf(rows + [row], x) == SumOf(rows, x) + LegQty(row.structure.legs, x, row.qty)
  {
    assert (rows + [row])[..|rows|] == rows;
  }

  datatype Report = Report(
    ok: bool, localOnly: set<string>, brokerOnly: set<string>, mismatch: set<string>, inFlight: set<OrderKey>)

  // Every symbol is judged, also those only the broker or only a zero total knows.
  method Compare(settled: map<string, int>, arriving: map<string, int>, leaving: map<string, int>, broker: map<string, int>)
    returns (localOnly: set<string>, brokerOnly: set<string>, mismatch: set<string>)
    ensures forall x :: x in brokerOnly <==> JudgedIn(settled, arriving, leaving, broker, x).BrokerOnly?
    ensures forall x :: x in localOnly <==> JudgedIn(settled, arriving, leaving, broker, x).LocalOnly?
    ensures forall x :: x in mismatch <==> JudgedIn(settled, arriving, leaving, broker, x).Mismatched?
  {
    hide JudgedIn, Filed, FiledBut;
    localOnly, brokerOnly, mismatch := {}, {}, {};
    var todo := settled.Keys + arriving.Keys + leaving.Keys + broker.Keys;
    NothingFiled(settled, arriving, leaving, broker);
    while todo != {}
      invariant FiledBut(settled, arriving, leaving, broker, todo, localOnly, brokerOnly, mismatch)
      decreases |todo|
    {
      var s :| s in todo;
      var v := JudgedIn(settled, arriving, leaving, broker, s);
      FileOne(settled, arriving, leaving, broker, todo, s, localOnly, brokerOnly, mismatch);
      todo := todo - {s};
      match v
      case Agrees =>
      case BrokerOnly => brokerOnly := brokerOnly + {s};
      case LocalOnly => localOnly := localOnly + {s};
      case Mismatched => mismatch := mismatch + {s};
    }
    AllFiled(settled, arriving, leaving, broker, localOnly, brokerOnly, mismatch);
  }

  // A symbol is in exactly the list its verdict names.
  predicate Filed(v: Verdict, x: string, localOnly: set<string>, brokerOnly: set<string>, mismatch: set<string>) {
    (x in brokerOnly <==> v.BrokerOnly?) && (x in localOnly <==> v.LocalOnly?) && (x in mismatch <==> v.Mismatched?)
  }

  ghost predicate FiledBut(settled: map<string, int>, arriving: map<string, int>, leaving: map<string, int>,
                           broker: map<string, int>, todo: set<string>,
                           localOnly: set<string>, brokerOnly: set<string>, mismatch: set<string>)
  {
    forall x :: Filed(if x in todo then Agrees else JudgedIn(settled, arriving, leaving, broker, x), x,
                      localOnly, brokerOnly, mismatch)
  }

  lemma NothingFiled(settled: map<string, int>, arriving: map<string, int>, leaving: map<string, int>, broker: map<string, int>)
    ensures FiledBut(settled, arriving, leaving, broker, settled.Keys + arriving.Keys + leaving.Keys + broker.Keys, {}, {}, {})
  {
    hide JudgedIn;
    UnknownAgrees(settled, arriving, leaving, broker);
  }

  lemma FileOne(settled: map<string, int>, arriving: map<string, int>, leaving: map<string, int>, broker: map<string, int>,
                todo: set<string>, s: string, localOnly: set<string>, brokerOnly: set<string>, mismatch: set<string>)
    requires s in todo && FiledBut(settled, arriving, leaving, broker, todo, localOnly, brokerOnly, mismatch)
    ensures var v := JudgedIn(settled, arriving, leaving, broker, s);
            FiledBut(settled, arriving, leaving, broker, todo - {s},
                     if v.LocalOnly? then localOnly + {s} else localOnly,
                     if v.BrokerOnly? then brokerOnly + {s} else brokerOnly,
                     if v.Mismatched? then mismatch + {s} else mismatch)
  {
    hide JudgedIn;
    var v := JudgedIn(settled, arriving, leaving, broker, s);
    forall x
      ensures Filed(if x in todo - {s} then Agrees else JudgedIn(settled, arriving, leaving, broker, x), x,
                    if v.LocalOnly? then localOnly + {s} else localOnly,
                    if v.BrokerOnly? then brokerOnly + {s} else brokerOnly,
                    if v.Mismatched? then mismatch + {s} else mismatch)
    {
      assert Filed(if x in todo then Agrees else JudgedIn(settled, arriving, leaving, broker, x), x,
                   localOnly, brokerOnly, mismatch);
    }
  }

  lemma AllFiled(settled: map<string, int>, arriving: map<string, int>, leaving: map<string, int>, broker: map<string, int>,
                 localOnly: set<string>, brokerOnly: set<string>, mismatch: set<string>)
    requires FiledBut(settled, arriving, leaving, broker, {}, localOnly, brokerOnly, mismatch)
    ensures forall x :: x in brokerOnly <==> JudgedIn(settled, arriving, leaving, broker, x).BrokerOnly?
    ensures forall x :: x in localOnly <==> JudgedIn(settled, arriving, leaving, broker, x).LocalOnly?
    ensures forall x :: x in mismatch <==> JudgedIn(settled, arriving, leaving, broker, x).Mismatched?
  {
    hide JudgedIn;
    forall x ensures Filed(JudgedIn(settled, arriving, leaving, broker, x), x, localOnly, brokerOnly, mismatch) {
      assert Filed(if x in {} then Agrees else JudgedIn(settled, arriving, leaving, broker, x), x,
                   localOnly, brokerOnly, mismatch);
    }
  }

  lemma UnknownAgrees(settled: map<string, int>, arriving: map<string, int>, leaving: map<string, int>, broker: map<string, int>)
    ensures forall x :: x !in settled.Keys + arriving.Keys + leaving.Keys + broker.Keys ==>
              JudgedIn(settled, arriving, leaving, broker, x).Agrees?
  {
  }

  function JudgedIn(settled: map<string, int>, arriving: map<string, int>, leaving: map<string, int>,
                    broker: map<string, int>, x: string): Verdict
  {
    Judge(Held(settled, x), Held(arriving, x), Held(leaving, x), Held(broker, x))
  }

  method Reconciled(orders: seq<Order>, positions: seq<Position>, listing: seq<Listing>) returns (r: Report)
    ensures forall x :: x in r.brokerOnly <==> Judged(orders, positions, x, Listed(listing, x)).BrokerOnly?
    ensures forall x :: x in r.localOnly <==> Judged(orders, positions, x, Listed(listing, x)).LocalOnly?
    ensures forall x :: x in r.mismatch <==> Judged(orders, positions, x, Listed(listing, x)).Mismatched?
    ensures r.ok <==> InSync(orders, positions, listing)
    ensures r.inFlight == set o | 0 <= o < |orders| && InFlight(orders[o]) :: orders[o].key
  {
    hide Judge, SumOf, Implied, Listed, Held;
    var settledRows, arrivingRows, leavingRows := Gather(orders, positions);
    var settled := LegQuantities(settledRows);
    var arriving := LegQuantities(arrivingRows);
    var leaving := LegQuantities(leavingRows);
    var broker := BrokerLegQuantities(listing);
    var localOnly, brokerOnly, mismatch := Compare(settled, arriving, leaving, broker);
    forall x ensures Judged(orders, positions, x, Listed(listing, x)) == JudgedIn(settled, arriving, leaving, broker, x) {}
    r := Report(localOnly == {} && brokerOnly == {} && mismatch == {}, localOnly, brokerOnly, mismatch,
                set o | 0 <= o < |orders| && InFlight(orders[o]) :: orders[o].key);
    assert forall x :: Judged(orders, positions, x, Listed(listing, x)).Agrees? <==>
                       x !in localOnly && x !in brokerOnly && x !in mismatch;
    if !r.ok {
      var x :| x in brokerOnly + localOnly + mismatch;
      assert !Judged(orders, positions, x, Listed(listing, x)).Agrees?;
    }
  }
}
