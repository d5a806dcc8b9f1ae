/** A wallet's consistency metrics from its activity: per-market accumulators, then sums over the resolved markets. */
module Stats {
  import opened Seqs

  /** One activity row; kind and side are the upstream texts. */
  datatype Activity = Activity(conditionId: string, kind: string, side: string, usdc: real, size: real, timestamp: int)

  datatype Market = Market(net: real, cost: real, redeemed: bool, bought: real, shares: real, lastTs: int)
  {
    /** Redeemed, or opened and then sold back to flat. */
    predicate Resolved()
    {
      redeemed || (bought > 0.0 && -(bought * EPS) <= shares <= bought * EPS)
    }
  }

  const EPS := 0.001
  const NEW_MARKET := Market(0.0, 0.0, false, 0.0, 0.0, 0)

  datatype Stats = Stats(
    winRate: real, resolvedMarkets: nat, realizedPnl: real, capitalDeployed: real,
    roi: real, series: seq<real>, tradedMarkets: nat)

  // ---- What one row and one market mean ----

  predicate Buys(a: Activity) { a.kind == "TRADE" && a.side == "BUY" }
  predicate Sells(a: Activity) { a.kind == "TRADE" && a.side == "SELL" }
  predicate Redeems(a: Activity) { a.kind == "REDEEM" }

  function CashIn(a: Activity): real
  {
    if Buys(a) || a.kind == "SPLIT" then -a.usdc
    else if Sells(a) || Redeems(a) || a.kind == "MERGE" then a.usdc
    else 0.0
  }

  function CostOf(a: Activity): real { if Buys(a) || a.kind == "SPLIT" then a.usdc else 0.0 }

  function BoughtOf(a: Activity): real { if Buys(a) then a.size else 0.0 }

  function SharesOf(a: Activity): real { if Buys(a) then a.size else if Sells(a) then -a.size else 0.0 }

  /** The latest timestamp, or 0 when none is later. */
  function Latest(rows: seq<Activity>): int
  {
    if rows == [] then 0
    else
      var t := Latest(rows[..|rows| - 1]);
      if rows[|rows| - 1].timestamp > t then rows[|rows| - 1].timestamp else t
  }

  predicate AnyRedeem(rows: seq<Activity>) { exists a :: a in rows && Redeems(a) }

  function Totals(rows: seq<Activity>): Market
  {
    Market(RealSum(CashIn, rows), RealSum(CostOf, rows), AnyRedeem(rows),
           RealSum(BoughtOf, rows), RealSum(SharesOf, rows), Latest(rows))
  }

  function RowsOf(acts: seq<Activity>, id: string): seq<Activity>
  {
    Filter((a: Activity) => a.conditionId == id, acts)
  }

  function MarketOf(acts: seq<Activity>, id: string): Market { Totals(RowsOf(acts, id)) }

  function Ids(acts: seq<Activity>): set<string> { set a | a in acts :: a.conditionId }

  function ResolvedIds(acts: seq<Activity>): set<string>
  {
    set id | id in Ids(acts) && MarketOf(acts, id).Resolved()
  }

  // ---- The metrics of a list of markets ----

  function NetOf(m: Market): real { m.net }
  function Invested(m: Market): real { m.cost }
  predicate HasCost(m: Market) { m.cost > 0.0 }
  predicate Won(m: Market) { m.net > 0.0 }
  function ReturnOf(m: Market): real { if m.cost > 0.0 then m.net / m.cost else 0.0 }

  function Ratio(a: real, b: real): real { if b > 0.0 then a / b else 0.0 }

  function Metrics(ms: seq<Market>, traded: nat): Stats
  {
    var paid := Filter(HasCost, ms);
    Stats(Ratio(|Filter(Won, ms)| as real, |ms| as real), |ms|,
          RealSum(NetOf, paid), RealSum(Invested, paid),
          Ratio(RealSum(NetOf, paid), RealSum(Invested, paid)),
          Map(ReturnOf, paid), traded)
  }

  /** The resolved markets, one each, oldest first (ties in any order). */
  ghost predicate OldestFirst(acts: seq<Activity>, ids: seq<string>)
  {
    && Distinct(ids) && (forall id :: id in ids <==> id in ResolvedIds(acts))
    && forall i, j :: 0 <= i < j < |ids| ==> MarketOf(acts, ids[i]).lastTs <= MarketOf(acts, ids[j]).lastTs
  }

  function Of(acts: seq<Activity>): string -> Market { id => MarketOf(acts, id) }

  function StatsOf(acts: seq<Activity>, ids: seq<string>): Stats
  {
    Metrics(Map(Of(acts), ids), |Ids(acts)|)
  }

  // ---- Compute ----

  /** A market's totals with one row more. */
  function Grown(m: Market, a: Activity): Market
  {
    Market(m.net + CashIn(a), m.cost + CostOf(a), m.redeemed || Redeems(a),
           m.bought + BoughtOf(a), m.shares + SharesOf(a),
           if a.timestamp > m.lastTs then a.timestamp else m.lastTs)
  }

  lemma TotalsSnoc(rows: seq<Activity>, a: Activity)
    ensures Totals(rows + [a]) == Grown(Totals(rows), a)
  {
    hide RealSum;
    RealSumSnoc(CashIn, rows, a);
    RealSumSnoc(CostOf, rows, a);
    RealSumSnoc(BoughtOf, rows, a);
    RealSumSnoc(SharesOf, rows, a);
    assert (rows + [a])[..|rows|] == rows;
    assert forall x :: x in rows + [a] <==> x in rows || x == a;
  }

  lemma RowsSnoc(acts: seq<Activity>, a: Activity, id: string)
    ensures RowsOf(acts + [a], id) == RowsOf(acts, id) + if a.conditionId == id then [a] else []
  {
    assert (acts + [a])[..|acts|] == acts;
  }

  lemma NoRows(acts: seq<Activity>, id: string)
    requires id !in Ids(acts)
    ensures RowsOf(acts, id) == [] && MarketOf(acts, id) == NEW_MARKET
  {
    var own := (a: Activity) => a.conditionId == id;
    if RowsOf(acts, id) != [] {
      FilterMember(own, acts, RowsOf(acts, id)[0]);
    }
  }

  /** One row's effect on its market, the source's switch. */
  method Accumulate(m: Market, a: Activity) returns (r: Market)
    ensures forall rows :: m == Totals(rows) ==> r == Totals(rows + [a])
  {
    hide Totals;
    r := m;
    if a.timestamp > r.lastTs {
      r := r.(lastTs := a.timestamp);
    }
    if a.kind == "TRADE" {
      if a.side == "BUY" {
        r := r.(net := r.net - a.usdc, cost := r.cost + a.usdc, bought := r.bought + a.size, shares := r.shares + a.size);
      } else if a.side == "SELL" {
        r := r.(net := r.net + a.usdc, shares := r.shares - a.size);
      }
    } else if a.kind == "REDEEM" {
      r := r.(net := r.net + a.usdc, redeemed := true);
    } else if a.kind == "MERGE" {
      r := r.(net := r.net + a.usdc);
    } else if a.kind == "SPLIT" {
      r := r.(net := r.net - a.usdc, cost := r.cost + a.usdc);
    }
    assert r == Grown(m, a);
    forall rows | m == Totals(rows) ensures r == Totals(rows + [a]) {
      TotalsSnoc(rows, a);
    }
  }

  ghost predicate Accumulated(acts: seq<Activity>, markets: map<string, Market>)
  {
    markets.Keys == Ids(acts) && forall id :: id in markets ==> markets[id] == MarketOf(acts, id)
  }

  lemma AccumulatedNext(acts: seq<Activity>, a: Activity, markets: map<string, Market>, m: Market)
    requires Accumulated(acts, markets)
    requires m == Totals(RowsOf(acts, a.conditionId) + [a])
    ensures Accumulated(acts + [a], markets[a.conditionId := m])
  {
    hide Totals, RowsOf;
    var next := markets[a.conditionId := m];
    assert Ids(acts + [a]) == Ids(acts) + {a.conditionId} by {
      assert forall x :: x in acts + [a] <==> x in acts || x == a;
    }
    forall id | id in next ensures next[id] == MarketOf(acts + [a], id) {
      RowsSnoc(acts, a, id);
      assert RowsOf(acts, id) + [] == RowsOf(acts, id);
    }
  }

  method Group(acts: seq<Activity>) returns (markets: map<string, Market>)
    ensures Accumulated(acts, markets)
  {
    hide Totals, RowsOf, Accumulated, Ids;
    markets := map[];
    NothingAccumulated();
    assert acts[..0] == [];
    for i := 0 to |acts|
      invariant Accumulated(acts[..i], markets)
    {
      var a := acts[i];
      var m := NEW_MARKET;
      if a.conditionId in markets {
        m := markets[a.conditionId];
      }
      FoundMarket(acts[..i], a.conditionId, markets, m);
      m := Accumulate(m, a);
      AccumulatedNext(acts[..i], a, markets, m);
      assert acts[..i + 1] == acts[..i] + [a];
      markets := markets[a.conditionId := m];
    }
    assert acts[..|acts|] == acts;
  }

  lemma NothingAccumulated()
    ensures Accumulated([], map[])
  {}

  lemma FoundMarket(acts: seq<Activity>, id: string, markets: map<string, Market>, m: Market)
    requires Accumulated(acts, markets)
    requires m == if id in markets then markets[id] else NEW_MARKET
    ensures m == Totals(RowsOf(acts, id))
  {
    hide Totals, RowsOf;
    if id !in markets {
      NoRows(acts, id);
    }
  }

  ghost predicate SortedBy(f: string -> int, ids: seq<string>)
  {
    forall i, j :: 0 <= i < j < |ids| ==> f(ids[i]) <= f(ids[j])
  }

  function Insert(f: string -> int, ids: seq<string>, id: string): seq<string>
  {
    if ids == [] || f(ids[|ids| - 1]) <= f(id) then ids + [id]
    else Insert(f, ids[..|ids| - 1], id) + [ids[|ids| - 1]]
  }

  lemma {:induction false} InsertKeeps(f: string -> int, ids: seq<string>, id: string)
    requires SortedBy(f, ids) && Distinct(ids) && id !in ids
    ensures SortedBy(f, Insert(f, ids, id)) && Distinct(Insert(f, ids, id))
    ensures forall x :: x in Insert(f, ids, id) <==> x in ids || x == id
  {
    if ids != [] && f(ids[|ids| - 1]) > f(id) {
      var rest, last := ids[..|ids| - 1], ids[|ids| - 1];
      InsertKeeps(f, rest, id);
      var t := Insert(f, rest, id);
      forall i | 0 <= i < |t| ensures f(t[i]) <= f(last) && t[i] != last {
        assert t[i] in rest || t[i] == id;
      }
      AppendKeeps(f, t, last);
      assert forall x :: x in ids <==> x in rest || x == last;
    } else {
      assert forall i :: 0 <= i < |ids| ==> ids[i] in ids;
      AppendKeeps(f, ids, id);
    }
  }

  lemma AppendKeeps(f: string -> int, t: seq<string>, last: string)
    requires SortedBy(f, t) && Distinct(t)
    requires forall i :: 0 <= i < |t| ==> f(t[i]) <= f(last) && t[i] != last
    ensures SortedBy(f, t + [last]) && Distinct(t + [last])
    ensures forall x :: x in t + [last] <==> x in t || x == last
  {}

  function TimeIn(markets: map<string, Market>): string -> int
  {
    id => if id in markets then markets[id].lastTs else 0
  }

  /** The resolved markets' ids, collected in any order and then sorted by lastTs. */
  method ResolvedOldestFirst(markets: map<string, Market>) returns (ids: seq<string>)
    ensures SortedBy(TimeIn(markets), ids) && Distinct(ids)
    ensures forall id :: id in ids <==> id in markets && markets[id].Resolved()
  {
    ids := [];
    var todo := markets.Keys;
    while todo != {}
      invariant todo <= markets.Keys && SortedBy(TimeIn(markets), ids) && Distinct(ids)
      invariant forall id :: id in ids <==> id in markets && id !in todo && markets[id].Resolved()
      decreases todo
    {
      var id :| id in todo;
      todo := todo - {id};
      if markets[id].Resolved() {
        InsertKeeps(TimeIn(markets), ids, id);
        ids := Insert(TimeIn(markets), ids, id);
      }
    }
  }

  /** The summing loop. */
  method Summarize(ms: seq<Market>, traded: nat) returns (s: Stats)
    ensures s == Metrics(ms, traded)
  {
    hide ReturnOf, RealSum;
    NoMetrics();
    var resolved, wins := 0, 0;
    var pnl, capital, series := 0.0, 0.0, [];
    for i := 0 to |ms|
      invariant resolved == i && wins == |Filter(Won, ms[..i])|
      invariant pnl == RealSum(NetOf, Filter(HasCost, ms[..i]))
      invariant capital == RealSum(Invested, Filter(HasCost, ms[..i]))
      invariant series == Map(ReturnOf, Filter(HasCost, ms[..i]))
    {
      var m := ms[i];
      assert ms[..i + 1][..i] == ms[..i];
      resolved := resolved + 1;
      if m.net > 0.0 {
        wins := wins + 1;
      }
      if m.cost > 0.0 {
        RealSumSnoc(NetOf, Filter(HasCost, ms[..i]), m);
        RealSumSnoc(Invested, Filter(HasCost, ms[..i]), m);
        pnl := pnl + m.net;
        capital := capital + m.cost;
        assert m.net / m.cost == ReturnOf(m) by { ReturnDefined(m); }
        series := series + [m.net / m.cost];
      }
    }
    assert ms[..|ms|] == ms;
    var winRate, roi := 0.0, 0.0;
    if resolved > 0 {
      winRate := wins as real / resolved as real;
    }
    if capital > 0.0 {
      roi := pnl / capital;
    }
    s := Stats(winRate, resolved, pnl, capital, roi, series, traded);
  }

  lemma NoMetrics()
    ensures RealSum(NetOf, []) == 0.0 && RealSum(Invested, []) == 0.0
  {}

  lemma ReturnDefined(m: Market)
    requires m.cost > 0.0
    ensures ReturnOf(m) == m.net / m.cost
  {}

  method Compute(acts: seq<Activity>) returns (s: Stats)
    ensures exists ids :: OldestFirst(acts, ids) && s == StatsOf(acts, ids)
  {
    hide MarketOf, Metrics, SortedBy, Distinct;
    var markets := Group(acts);
    var ids := ResolvedOldestFirst(markets);
    var ms := [];
    for i := 0 to |ids|
      invariant ms == Map(Of(acts), ids[..i])
    {
      assert ids[i] in ids && ids[i] in markets;
      assert ids[..i + 1][..i] == ids[..i];
      ms := ms + [markets[ids[i]]];
    }
    assert ids[..|ids|] == ids;
    OrderFound(acts, markets, ids);
    s := Summarize(ms, |markets|);
    assert s == StatsOf(acts, ids);
  }

  lemma OrderFound(acts: seq<Activity>, markets: map<string, Market>, ids: seq<string>)
    requires Accumulated(acts, markets) && SortedBy(TimeIn(markets), ids) && Distinct(ids)
    requires forall id :: id in ids <==> id in markets && markets[id].Resolved()
    ensures OldestFirst(acts, ids) && |markets| == |Ids(acts)|
  {
    hide MarketOf, Distinct;
    assert |markets| == |markets.Keys|;
    forall i, j | 0 <= i < j < |ids| ensures MarketOf(acts, ids[i]).lastTs <= MarketOf(acts, ids[j]).lastTs {
      assert ids[i] in ids && ids[j] in ids;
      assert TimeIn(markets)(ids[i]) <= TimeIn(markets)(ids[j]);
    }
  }
}
