/**
 The metrics stated over the activity itself, kind by kind: what came in, what went out, which
 markets count and which were won. No accumulator appears in the statements.
 */
module StatsMeaning {
  import opened Seqs
  import opened Stats
  import StatsLaws

  function Usd(a: Activity): real { a.usdc }
  function Size(a: Activity): real { a.size }

  /** The rows of a market of one kind; of a trade's side, when one is given. */
  function Own(id: string, kind: string, side: Option<string>): Activity -> bool
  {
    (a: Activity) => a.conditionId == id && a.kind == kind && (side.None? || a.side == side.value)
  }

  /** What v adds up to over those rows. */
  function Flow(acts: seq<Activity>, v: Activity -> real, id: string, kind: string, side: Option<string>): real
  {
    RealSum(v, Filter(Own(id, kind, side), acts))
  }

  /** Cash got by selling, redeeming and merging, less cash paid for buying and splitting. */
  function NetCash(acts: seq<Activity>, id: string): real
  {
    Flow(acts, Usd, id, "TRADE", Some("SELL")) + Flow(acts, Usd, id, "REDEEM", None) + Flow(acts, Usd, id, "MERGE", None)
    - Flow(acts, Usd, id, "TRADE", Some("BUY")) - Flow(acts, Usd, id, "SPLIT", None)
  }

  /** Cash put in. */
  function PutIn(acts: seq<Activity>, id: string): real
  {
    Flow(acts, Usd, id, "TRADE", Some("BUY")) + Flow(acts, Usd, id, "SPLIT", None)
  }

  function SharesBought(acts: seq<Activity>, id: string): real { Flow(acts, Size, id, "TRADE", Some("BUY")) }
  function SharesSold(acts: seq<Activity>, id: string): real { Flow(acts, Size, id, "TRADE", Some("SELL")) }

  ghost predicate WasRedeemed(acts: seq<Activity>, id: string)
  {
    exists a :: a in acts && a.conditionId == id && a.kind == "REDEEM"
  }

  /** Redeemed, or bought and sold again up to a thousandth. */
  ghost predicate IsClosed(acts: seq<Activity>, id: string)
  {
    || WasRedeemed(acts, id)
    || (&& SharesBought(acts, id) > 0.0
        && SharesBought(acts, id) - SharesSold(acts, id) <= 0.001 * SharesBought(acts, id)
        && SharesSold(acts, id) - SharesBought(acts, id) <= 0.001 * SharesBought(acts, id))
  }

  /** t is the latest time of the market's rows; 0 when none is positive. */
  ghost predicate IsLatest(acts: seq<Activity>, id: string, t: int)
  {
    && t >= 0 && (forall a :: a in acts && a.conditionId == id ==> a.timestamp <= t)
    && (t == 0 || exists a :: a in acts && a.conditionId == id && a.timestamp == t)
  }

  // ---- The accumulators mean that ----

  lemma FlowSnoc(acts: seq<Activity>, a: Activity, v: Activity -> real, id: string, kind: string, side: Option<string>)
    ensures Flow(acts + [a], v, id, kind, side)
            == Flow(acts, v, id, kind, side) + if Own(id, kind, side)(a) then v(a) else 0.0
  {
    assert (acts + [a])[..|acts|] == acts;
    RealSumSnoc(v, Filter(Own(id, kind, side), acts), a);
  }

  lemma FlowsSnoc(acts: seq<Activity>, a: Activity, id: string)
    ensures var more := acts + [a];
            && NetCash(more, id) == NetCash(acts, id) + (if a.conditionId == id then CashIn(a) else 0.0)
            && PutIn(more, id) == PutIn(acts, id) + (if a.conditionId == id then CostOf(a) else 0.0)
            && SharesBought(more, id) == SharesBought(acts, id) + (if a.conditionId == id then BoughtOf(a) else 0.0)
            && SharesBought(more, id) - SharesSold(more, id)
               == SharesBought(acts, id) - SharesSold(acts, id) + (if a.conditionId == id then SharesOf(a) else 0.0)
            && (WasRedeemed(more, id) <==> WasRedeemed(acts, id) || (a.conditionId == id && Redeems(a)))
  {
    hide Flow;
    FlowSnoc(acts, a, Usd, id, "TRADE", Some("SELL"));
    FlowSnoc(acts, a, Usd, id, "TRADE", Some("BUY"));
    FlowSnoc(acts, a, Usd, id, "REDEEM", None);
    FlowSnoc(acts, a, Usd, id, "MERGE", None);
    FlowSnoc(acts, a, Usd, id, "SPLIT", None);
    FlowSnoc(acts, a, Size, id, "TRADE", Some("BUY"));
    FlowSnoc(acts, a, Size, id, "TRADE", Some("SELL"));
    assert forall x :: x in acts + [a] <==> x in acts || x == a;
    KindsDiffer();
  }

  lemma KindsDiffer()
    ensures "TRADE" != "REDEEM" && "TRADE" != "MERGE" && "TRADE" != "SPLIT" && "REDEEM" != "MERGE"
    ensures "REDEEM" != "SPLIT" && "MERGE" != "SPLIT" && "BUY" != "SELL"
  {
    assert "TRADE"[0] != "REDEEM"[0] && "TRADE"[0] != "MERGE"[0] && "TRADE"[0] != "SPLIT"[0];
    assert "REDEEM"[0] != "MERGE"[0] && "REDEEM"[0] != "SPLIT"[0] && "MERGE"[0] != "SPLIT"[0] && "BUY"[0] != "SELL"[0];
  }

  lemma NothingFlowed(id: string)
    ensures NetCash([], id) == PutIn([], id) == SharesBought([], id) == SharesSold([], id) == 0.0
    ensures !WasRedeemed([], id) && MarketOf([], id) == NEW_MARKET
  {}

  /** A market's accumulators are its flows, kind by kind. */
  lemma {:induction false} MarketByKind(acts: seq<Activity>, id: string)
    ensures var m := MarketOf(acts, id);
            && m.net == NetCash(acts, id) && m.cost == PutIn(acts, id)
            && m.bought == SharesBought(acts, id) && m.shares == SharesBought(acts, id) - SharesSold(acts, id)
            && (m.redeemed <==> WasRedeemed(acts, id))
            && (m.Resolved() <==> IsClosed(acts, id))
  {
    hide NetCash, PutIn, SharesBought, SharesSold, WasRedeemed, CashIn, CostOf, BoughtOf, SharesOf, Redeems, Totals, RowsOf;
    if acts == [] {
      NothingFlowed(id);
    } else {
      var rest, a := acts[..|acts| - 1], acts[|acts| - 1];
      assert acts == rest + [a];
      MarketByKind(rest, id);
      FlowsSnoc(rest, a, id);
      RowsSnoc(rest, a, id);
      TotalsSnoc(RowsOf(rest, id), a);
      assert RowsOf(rest, id) + [] == RowsOf(rest, id);
    }
  }

  lemma LatestOfMarket(acts: seq<Activity>, id: string)
    ensures IsLatest(acts, id, MarketOf(acts, id).lastTs)
  {
    hide Filter, Latest, RealSum;
    StatsLaws.LatestBounds(RowsOf(acts, id));
    FilterMembers((a: Activity) => a.conditionId == id, acts);
  }

  // ---- The metrics ----

  ghost function ClosedIds(acts: seq<Activity>): set<string>
  {
    set a | a in acts && IsClosed(acts, a.conditionId) :: a.conditionId
  }

  ghost function WonIds(acts: seq<Activity>): set<string>
  {
    set id | id in ClosedIds(acts) && NetCash(acts, id) > 0.0
  }

  function NetIn(acts: seq<Activity>): string -> real { id => NetCash(acts, id) }
  function PutInto(acts: seq<Activity>): string -> real { id => PutIn(acts, id) }
  function Funded(acts: seq<Activity>): string -> bool { id => PutIn(acts, id) > 0.0 }

  /**
   The closed markets count, the won share of them is the win rate; profit, capital and ROI are
   over those in which money was put, and their returns come oldest first.
   */
  ghost predicate Describes(s: Stats, acts: seq<Activity>, ids: seq<string>)
  {
    && (forall id :: id in ids <==> id in ClosedIds(acts))
    && (forall i, j, t, u :: 0 <= i < j < |ids| && IsLatest(acts, ids[i], t) && IsLatest(acts, ids[j], u) ==> t <= u)
    && s.resolvedMarkets == |ClosedIds(acts)| && s.tradedMarkets == |set a | a in acts :: a.conditionId|
    && (if ClosedIds(acts) == {} then s.winRate == 0.0
        else s.winRate == |WonIds(acts)| as real / |ClosedIds(acts)| as real)
    && var funded := Filter(Funded(acts), ids);
    && s.realizedPnl == RealSum(NetIn(acts), funded) && s.capitalDeployed == RealSum(PutInto(acts), funded)
    && s.roi == (if s.capitalDeployed > 0.0 then s.realizedPnl / s.capitalDeployed else 0.0)
    && |s.series| == |funded|
    && forall i :: 0 <= i < |funded| ==> PutIn(acts, funded[i]) > 0.0 && s.series[i] == NetCash(acts, funded[i]) / PutIn(acts, funded[i])
  }

  /** Filtering mapped elements is mapping the filtered ones. */
  lemma {:induction false} FilterMap<A(!new), B>(p: B -> bool, f: A -> B, q: A -> bool, s: seq<A>)
    requires forall x :: p(f(x)) == q(x)
    ensures Filter(p, Map(f, s)) == Map(f, Filter(q, s))
  {
    if s != [] {
      var rest, last := s[..|s| - 1], s[|s| - 1];
      FilterMap(p, f, q, rest);
      assert Map(f, s)[..|rest|] == Map(f, rest);
    }
  }

  lemma {:induction false} RealSumMap<A(!new), B>(v: B -> real, f: A -> B, w: A -> real, s: seq<A>)
    requires forall x :: v(f(x)) == w(x)
    ensures RealSum(v, Map(f, s)) == RealSum(w, s)
  {
    if s != [] {
      var rest := s[..|s| - 1];
      RealSumMap(v, f, w, rest);
      assert Map(f, s)[..|rest|] == Map(f, rest);
    }
  }

  /** A distinct list has as many elements as the set of them. */
  lemma {:induction false} DistinctSize<T(!new)>(s: seq<T>, all: set<T>)
    requires Distinct(s) && forall x :: x in s <==> x in all
    ensures |s| == |all|
  {
    if s == [] {
      assert all == {};
    } else {
      var rest, last := s[..|s| - 1], s[|s| - 1];
      assert forall x :: x in s <==> x in rest || x == last;
      assert last !in rest;
      DistinctSize(rest, all - {last});
    }
  }

  lemma ResolvedAreClosed(acts: seq<Activity>)
    ensures ResolvedIds(acts) == ClosedIds(acts)
  {
    hide MarketOf, IsClosed;
    forall id ensures MarketOf(acts, id).Resolved() <==> IsClosed(acts, id) {
      MarketByKind(acts, id);
    }
  }

  lemma WinRateExactly(acts: seq<Activity>, ids: seq<string>)
    requires OldestFirst(acts, ids)
    ensures var s := StatsOf(acts, ids);
            && s.resolvedMarkets == |ClosedIds(acts)|
            && (if ClosedIds(acts) == {} then s.winRate == 0.0
                else s.winRate == |WonIds(acts)| as real / |ClosedIds(acts)| as real)
  {
    hide MarketOf, IsClosed, NetCash, RealSum, Filter, ClosedIds, Distinct;
    ResolvedAreClosed(acts);
    DistinctSize(ids, ClosedIds(acts));
    forall id ensures Won(Of(acts)(id)) == (NetCash(acts, id) > 0.0) {
      MarketByKind(acts, id);
    }
    var won := (id: string) => NetCash(acts, id) > 0.0;
    FilterMap(Won, Of(acts), won, ids);
    FilterDistinct(won, ids);
    FilterMembers(won, ids);
    DistinctSize(Filter(won, ids), WonIds(acts));
  }

  lemma ReturnsExactly(acts: seq<Activity>, ids: seq<string>)
    ensures var s := StatsOf(acts, ids);
            var funded := Filter(Funded(acts), ids);
            && s.realizedPnl == RealSum(NetIn(acts), funded) && s.capitalDeployed == RealSum(PutInto(acts), funded)
            && |s.series| == |funded|
            && forall i :: 0 <= i < |funded| ==> PutIn(acts, funded[i]) > 0.0 && s.series[i] == NetCash(acts, funded[i]) / PutIn(acts, funded[i])
  {
    hide MarketOf, PutIn, NetCash, RealSum, Filter;
    forall id ensures Of(acts)(id).net == NetCash(acts, id) && Of(acts)(id).cost == PutIn(acts, id) {
      MarketByKind(acts, id);
    }
    FilterMap(HasCost, Of(acts), Funded(acts), ids);
    var funded := Filter(Funded(acts), ids);
    RealSumMap(NetOf, Of(acts), NetIn(acts), funded);
    RealSumMap(Invested, Of(acts), PutInto(acts), funded);
    FilterMembers(Funded(acts), ids);
    forall i | 0 <= i < |funded|
      ensures PutIn(acts, funded[i]) > 0.0
      ensures StatsOf(acts, ids).series[i] == NetCash(acts, funded[i]) / PutIn(acts, funded[i])
    {
      assert funded[i] in funded;
      assert Map(Of(acts), funded)[i] == Of(acts)(funded[i]);
    }
  }

  lemma LatestUnique(acts: seq<Activity>, id: string, t: int, u: int)
    requires IsLatest(acts, id, t) && IsLatest(acts, id, u)
    ensures t == u
  {}

  /** Compute's metrics are what the activity says. */
  lemma StatsExactly(acts: seq<Activity>, ids: seq<string>)
    requires OldestFirst(acts, ids)
    ensures Describes(StatsOf(acts, ids), acts, ids)
  {
    hide MarketOf, IsClosed, NetCash, PutIn, RealSum, Filter, IsLatest, Distinct;
    ResolvedAreClosed(acts);
    WinRateExactly(acts, ids);
    ReturnsExactly(acts, ids);
    forall i, j, t, u | 0 <= i < j < |ids| && IsLatest(acts, ids[i], t) && IsLatest(acts, ids[j], u) ensures t <= u {
      LatestOfMarket(acts, ids[i]);
      LatestOfMarket(acts, ids[j]);
      LatestUnique(acts, ids[i], t, MarketOf(acts, ids[i]).lastTs);
      LatestUnique(acts, ids[j], u, MarketOf(acts, ids[j]).lastTs);
    }
  }
}
