/** What the metrics mean: independence of the activity's order, and ROI as a cost-weighted mean of the returns. */
module StatsLaws {
  import opened Seqs
  import opened Stats

  // ---- The order of the activity does not matter ----

  lemma {:induction false} LatestBounds(rows: seq<Activity>)
    ensures Latest(rows) >= 0 && forall a :: a in rows ==> a.timestamp <= Latest(rows)
    ensures Latest(rows) == 0 || exists a :: a in rows && a.timestamp == Latest(rows)
  {
    if rows != [] {
      var rest, last := rows[..|rows| - 1], rows[|rows| - 1];
      LatestBounds(rest);
      assert forall a :: a in rows <==> a in rest || a == last;
    }
  }

  lemma SameElements<T(!new)>(s: seq<T>, t: seq<T>)
    requires multiset(s) == multiset(t)
    ensures forall x :: x in s <==> x in t
  {
    forall x ensures x in s <==> x in t {
      assert x in s <==> x in multiset(s);
    }
  }

  lemma TotalsPermuted(rows: seq<Activity>, rows': seq<Activity>)
    requires multiset(rows) == multiset(rows')
    ensures Totals(rows) == Totals(rows')
  {
    hide RealSum, Latest;
    SameElements(rows, rows');
    RealSumPermutation(CashIn, rows, rows');
    RealSumPermutation(CostOf, rows, rows');
    RealSumPermutation(BoughtOf, rows, rows');
    RealSumPermutation(SharesOf, rows, rows');
    LatestBounds(rows);
    LatestBounds(rows');
  }

  lemma MarketsPermuted(acts: seq<Activity>, acts': seq<Activity>)
    requires multiset(acts) == multiset(acts')
    ensures Ids(acts) == Ids(acts') && forall id :: MarketOf(acts, id) == MarketOf(acts', id)
  {
    hide Totals, Filter;
    SameElements(acts, acts');
    forall id ensures MarketOf(acts, id) == MarketOf(acts', id) {
      FilterPermutation((a: Activity) => a.conditionId == id, acts, acts');
      TotalsPermuted(RowsOf(acts, id), RowsOf(acts', id));
    }
  }

  lemma MetricsPermuted(ms: seq<Market>, ms': seq<Market>, traded: nat)
    requires multiset(ms) == multiset(ms')
    ensures var s, s' := Metrics(ms, traded), Metrics(ms', traded);
            s.(series := []) == s'.(series := []) && multiset(s.series) == multiset(s'.series)
  {
    hide Filter, RealSum;
    FilterPermutation(Won, ms, ms');
    FilterPermutation(HasCost, ms, ms');
    PermutationLength(ms, ms');
    PermutationLength(Filter(Won, ms), Filter(Won, ms'));
    var paid, paid' := Filter(HasCost, ms), Filter(HasCost, ms');
    RealSumPermutation(NetOf, paid, paid');
    RealSumPermutation(Invested, paid, paid');
    MapPermutation(ReturnOf, paid, paid');
  }

  lemma PermutationLength<T>(s: seq<T>, t: seq<T>)
    requires multiset(s) == multiset(t)
    ensures |s| == |t|
  {
    assert |multiset(s)| == |s| && |multiset(t)| == |t|;
  }

  /** Permuting the activity changes no metric; the returns keep their values, ties in time aside their order. */
  lemma StatsPermuted(acts: seq<Activity>, acts': seq<Activity>, ids: seq<string>, ids': seq<string>)
    requires multiset(acts) == multiset(acts')
    requires OldestFirst(acts, ids) && OldestFirst(acts', ids')
    ensures var s, s' := StatsOf(acts, ids), StatsOf(acts', ids');
            s.(series := []) == s'.(series := []) && multiset(s.series) == multiset(s'.series)
  {
    hide Metrics, MarketOf, Distinct;
    MarketsPermuted(acts, acts');
    assert ResolvedIds(acts) == ResolvedIds(acts');
    DistinctPermutation(ids, ids');
    assert Map(Of(acts), ids') == Map(Of(acts'), ids');
    MapPermutation(Of(acts), ids, ids');
    MetricsPermuted(Map(Of(acts), ids), Map(Of(acts'), ids'), |Ids(acts)|);
  }

  // ---- ROI as a mean ----

  function Weighted(m: Market): real { m.cost * ReturnOf(m) }

  lemma {:induction false} WeightedSum(ms: seq<Market>)
    requires forall m :: m in ms ==> HasCost(m)
    ensures RealSum(NetOf, ms) == RealSum(Weighted, ms)
  {
    if ms != [] {
      var rest, last := ms[..|ms| - 1], ms[|ms| - 1];
      assert forall m :: m in rest ==> m in ms;
      assert last in ms;
      WeightedSum(rest);
    }
  }

  /** Realized profit is the sum, over the resolved markets with a cost basis, of cost times return. */
  lemma ProfitIsCostTimesReturn(acts: seq<Activity>, ids: seq<string>)
    ensures StatsOf(acts, ids).realizedPnl == RealSum(Weighted, Filter(HasCost, Map(Of(acts), ids)))
  {
    var ms := Map(Of(acts), ids);
    FilterMembers(HasCost, ms);
    WeightedSum(Filter(HasCost, ms));
  }

  lemma {:induction false} WeightedBetween(ms: seq<Market>, lo: real, hi: real)
    requires forall m :: m in ms ==> HasCost(m) && lo <= ReturnOf(m) <= hi
    ensures lo * RealSum(Invested, ms) <= RealSum(NetOf, ms) <= hi * RealSum(Invested, ms)
    ensures ms != [] ==> RealSum(Invested, ms) > 0.0
    ensures ms == [] ==> RealSum(Invested, ms) == 0.0
  {
    if ms != [] {
      var rest, last := ms[..|ms| - 1], ms[|ms| - 1];
      assert forall m :: m in rest ==> m in ms;
      assert last in ms;
      WeightedBetween(rest, lo, hi);
      MeanStep(lo, hi, RealSum(Invested, rest), RealSum(NetOf, rest), last.cost, last.net);
    }
  }

  lemma MeanStep(lo: real, hi: real, c: real, n: real, cost: real, net: real)
    requires lo * c <= n <= hi * c && cost > 0.0 && lo <= net / cost <= hi
    ensures lo * (c + cost) <= n + net <= hi * (c + cost)
  {
    var q := net / cost;
    assert q * cost == net;
    Between(lo, q, hi, cost);
  }

  lemma Between(lo: real, x: real, hi: real, c: real)
    requires lo <= x <= hi && c > 0.0
    ensures lo * c <= x * c <= hi * c
  {}

  lemma DividedBetween(lo: real, net: real, hi: real, c: real)
    requires c > 0.0 && lo * c <= net <= hi * c
    ensures lo <= net / c <= hi
  {
    var q := net / c;
    assert q * c == net;
    assert q < lo ==> (lo - q) * c > 0.0;
    assert q > hi ==> (q - hi) * c > 0.0;
  }

  /** ROI lies between any bounds on the returns, so between their smallest and largest; without returns it is 0. */
  lemma RoiBetweenReturns(acts: seq<Activity>, ids: seq<string>, lo: real, hi: real)
    requires forall r :: r in StatsOf(acts, ids).series ==> lo <= r <= hi
    ensures var s := StatsOf(acts, ids);
            && (s.series != [] <==> s.capitalDeployed > 0.0)
            && (s.series != [] ==> lo <= s.roi <= hi)
            && (s.series == [] ==> s.roi == 0.0 && s.realizedPnl == 0.0)
  {
    hide MarketOf, Filter, RealSum;
    var s := StatsOf(acts, ids);
    var paid := Filter(HasCost, Map(Of(acts), ids));
    FilterMembers(HasCost, Map(Of(acts), ids));
    forall m | m in paid ensures HasCost(m) && lo <= ReturnOf(m) <= hi {
      var i :| 0 <= i < |paid| && paid[i] == m;
      assert s.series[i] == ReturnOf(m) && s.series[i] in s.series;
    }
    WeightedBetween(paid, lo, hi);
    if s.series != [] {
      DividedBetween(lo, s.realizedPnl, hi, s.capitalDeployed);
    }
  }

  /** The win rate is a share of the resolved markets. */
  lemma WinRateIsAShare(acts: seq<Activity>, ids: seq<string>)
    ensures 0.0 <= StatsOf(acts, ids).winRate <= 1.0
  {
    hide MarketOf;
    var ms := Map(Of(acts), ids);
    FilterShorter(Won, ms);
    if ms != [] {
      DividedBetween(0.0, |Filter(Won, ms)| as real, 1.0, |ms| as real);
    }
  }

  lemma {:induction false} FilterShorter<T>(p: T -> bool, s: seq<T>)
    ensures |Filter(p, s)| <= |s|
  {
    if s != [] {
      FilterShorter(p, s[..|s| - 1]);
    }
  }
}
