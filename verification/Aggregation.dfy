/** What AggregateByTx guarantees about any list of fills. */
module Aggregation {
  import opened Arith
  import opened Seqs
  import opened Decimal
  import opened Decode

  // ---- Grouping is a partition ----

  /** Every fill is in the group of its own key, as often as in the input, and in no other group. */
  lemma EachFillInOneGroup(fills: seq<Fill>, f: Fill, k: Key)
    ensures multiset(Group(fills, k))[f] == if k == KeyOf(f) then multiset(fills)[f] else 0
    ensures f in fills ==> KeyOf(f) in Order(fills)
    ensures Distinct(Order(fills))
  {
    FilterMultiset((g: Fill) => KeyOf(g) == k, fills, f);
    OrderDistinct(fills);
    GroupMember(fills, KeyOf(f), f);
    OrderIsNonEmptyGroups(fills, KeyOf(f));
  }

  // ---- Conservation ----

  function GroupTotals(v: Fill -> nat, fills: seq<Fill>, ks: seq<Key>): nat
  {
    if ks == [] then 0 else GroupTotals(v, fills, ks[..|ks| - 1]) + Sum(v, Group(fills, ks[|ks| - 1]))
  }

  lemma {:induction false} GroupTotalsSnoc(v: Fill -> nat, fills: seq<Fill>, f: Fill, ks: seq<Key>)
    requires Distinct(ks)
    ensures GroupTotals(v, fills + [f], ks) == GroupTotals(v, fills, ks) + if KeyOf(f) in ks then v(f) else 0
  {
    if ks != [] {
      var rest, k := ks[..|ks| - 1], ks[|ks| - 1];
      GroupTotalsSnoc(v, fills, f, rest);
      GroupSnoc(fills, f, k);
      SumSnoc(v, Group(fills, k), f);
      assert KeyOf(f) in ks <==> KeyOf(f) in rest || KeyOf(f) == k;
    }
  }

  lemma {:induction false} GroupTotalsAll(v: Fill -> nat, fills: seq<Fill>)
    ensures GroupTotals(v, fills, Order(fills)) == Sum(v, fills)
  {
    if fills != [] {
      var rest, f := fills[..|fills| - 1], fills[|fills| - 1];
      assert fills == rest + [f];
      GroupTotalsAll(v, rest);
      OrderDistinct(rest);
      GroupTotalsSnoc(v, rest, f, Order(rest));
      if KeyOf(f) !in Order(rest) {
        OrderIsNonEmptyGroups(rest, KeyOf(f));
        GroupSnoc(rest, f, KeyOf(f));
        SumSnoc(v, [], f);
        assert Order(fills)[..|Order(rest)|] == Order(rest);
        assert [] + [f] == [f];
      }
    }
  }

  /** A measure under which every group weighs what its merged fill does. */
  ghost predicate Additive(v: Fill -> nat, fills: seq<Fill>)
  {
    forall k :: Group(fills, k) != [] ==> v(Merged(k, Group(fills, k))) == Sum(v, Group(fills, k))
  }

  lemma {:induction false} MergedPrefix(v: Fill -> nat, fills: seq<Fill>, n: nat)
    requires Additive(v, fills) && n <= |Order(fills)|
    ensures Sum(v, MergedFills(fills)[..n]) == GroupTotals(v, fills, Order(fills)[..n])
  {
    hide Order, Group, Merged;
    if n > 0 {
      MergedPrefix(v, fills, n - 1);
      var ms, o := MergedFills(fills)[..n], Order(fills)[..n];
      assert ms[..n - 1] == MergedFills(fills)[..n - 1] && o[..n - 1] == Order(fills)[..n - 1];
    }
  }

  lemma MergedConserve(v: Fill -> nat, fills: seq<Fill>)
    requires Additive(v, fills)
    ensures Sum(v, MergedFills(fills)) == Sum(v, fills)
  {
    MergedPrefix(v, fills, |Order(fills)|);
    assert MergedFills(fills)[..|Order(fills)|] == MergedFills(fills);
    assert Order(fills)[..|Order(fills)|] == Order(fills);
    GroupTotalsAll(v, fills);
  }

  /** Merging loses no money and no shares. */
  lemma MergedFillsConserve(fills: seq<Fill>)
    ensures Sum(Usdc, MergedFills(fills)) == Sum(Usdc, fills)
    ensures Sum(Shares, MergedFills(fills)) == Sum(Shares, fills)
  {
    hide Group, MinIndex;
    MergedConserve(Usdc, fills);
    MergedConserve(Shares, fills);
  }

  /** The share count a trade's size text stands for. */
  function SizeOf(t: Trade): nat
  {
    if |FractionPart(t.size)| <= USDC_DECIMALS then Units(t.size, USDC_DECIMALS) else 0
  }

  lemma SizeText(m: Fill)
    ensures SizeOf(TradeFromFill(m)) == m.shares
  {
    FixedStringRoundTrip(m.shares, USDC_DECIMALS);
  }

  /** Reading the size texts of the published trades back adds up to exactly the filled shares. */
  lemma PublishedSizesConserveShares(fills: seq<Fill>)
    ensures Sum(SizeOf, Aggregate(fills)) == Sum(Shares, fills)
  {
    MergedFillsConserve(fills);
    var ms := MergedFills(fills);
    forall i | 0 <= i < |ms| ensures SizeOf(TradeFromFill(ms[i])) == Shares(ms[i]) {
      SizeText(ms[i]);
    }
    SumMap(SizeOf, TradeFromFill, Shares, ms);
    SumPermutation(SizeOf, Aggregate(fills), Map(TradeFromFill, ms));
  }

  /** The shares of the fills of one wallet, token and side. */
  function SharesOn(wallet: Address, token: nat, buy: bool): Fill -> nat
  {
    (f: Fill) => if f.wallet == wallet && f.tokenId == token && f.buy == buy then f.shares else 0
  }

  /** The size text of the trades of one wallet, token and side, read back. */
  function SizeOn(wallet: Address, token: nat, side: string): Trade -> nat
  {
    (t: Trade) => if t.wallet == wallet && t.tokenId == token && t.side == side then SizeOf(t) else 0
  }

  lemma {:induction false} SharesOnOneKey(wallet: Address, token: nat, buy: bool, g: seq<Fill>, k: Key)
    requires forall f :: f in g ==> KeyOf(f) == k
    ensures Sum(SharesOn(wallet, token, buy), g)
            == if k.wallet == wallet && k.token == token && k.buy == buy then Sum(Shares, g) else 0
  {
    if g != [] {
      var rest := g[..|g| - 1];
      assert forall f :: f in rest ==> f in g;
      SharesOnOneKey(wallet, token, buy, rest, k);
      assert g[|g| - 1] in g;
    }
  }

  lemma SharesOnAdditive(wallet: Address, token: nat, buy: bool, fills: seq<Fill>)
    ensures Additive(SharesOn(wallet, token, buy), fills)
  {
    hide Group, MinIndex, Sum;
    forall k | Group(fills, k) != []
      ensures SharesOn(wallet, token, buy)(Merged(k, Group(fills, k))) == Sum(SharesOn(wallet, token, buy), Group(fills, k))
    {
      forall f | f in Group(fills, k) ensures KeyOf(f) == k {
        GroupMember(fills, k, f);
      }
      SharesOnOneKey(wallet, token, buy, Group(fills, k), k);
    }
  }

  /** And so they do for each wallet, token and side apart. */
  lemma PublishedSidesConserveShares(fills: seq<Fill>, wallet: Address, token: nat, buy: bool)
    ensures Sum(SizeOn(wallet, token, if buy then "buy" else "sell"), Aggregate(fills))
            == Sum(SharesOn(wallet, token, buy), fills)
  {
    hide SortTrades, SizeOf, PriceString, FixedString, Sum, MergedFills;
    var side := if buy then "buy" else "sell";
    SharesOnAdditive(wallet, token, buy, fills);
    MergedConserve(SharesOn(wallet, token, buy), fills);
    var ms := MergedFills(fills);
    forall i | 0 <= i < |ms|
      ensures SizeOn(wallet, token, side)(TradeFromFill(ms[i])) == SharesOn(wallet, token, buy)(ms[i])
    {
      SizeText(ms[i]);
      SideTexts();
    }
    SumMap(SizeOn(wallet, token, side), TradeFromFill, SharesOn(wallet, token, buy), ms);
    SumPermutation(SizeOn(wallet, token, side), Aggregate(fills), Map(TradeFromFill, ms));
  }

  lemma SideTexts()
    ensures "buy" != "sell"
  {}

  // ---- Price ----

  /** The average price of a group lies between any bounds lo/scale and hi/scale on its fills' prices. */
  lemma {:induction false} AverageBetweenBounds(g: seq<Fill>, lo: nat, hi: nat, scale: nat)
    requires forall i :: 0 <= i < |g| ==> lo * g[i].shares <= g[i].usdc * scale <= hi * g[i].shares
    ensures lo * Sum(Shares, g) <= Sum(Usdc, g) * scale <= hi * Sum(Shares, g)
  {
    hide Sum;
    if g != [] {
      var rest, f := g[..|g| - 1], g[|g| - 1];
      assert forall i :: 0 <= i < |rest| ==> rest[i] == g[i];
      AverageBetweenBounds(rest, lo, hi, scale);
      assert g == rest + [f] && lo * f.shares <= f.usdc * scale <= hi * f.shares;
      SumSnoc(Usdc, rest, f);
      SumSnoc(Shares, rest, f);
      BoundsAdd(lo, hi, scale, Sum(Shares, rest), Sum(Usdc, rest), f.shares, f.usdc);
    } else {
      NothingSummed(lo, hi, scale);
    }
  }

  lemma NothingSummed(lo: nat, hi: nat, scale: nat)
    ensures lo * Sum(Shares, []) <= Sum(Usdc, []) * scale <= hi * Sum(Shares, [])
  {}

  lemma BoundsAdd(lo: int, hi: int, scale: int, shares: int, usdc: int, s: int, u: int)
    requires lo * shares <= usdc * scale <= hi * shares && lo * s <= u * scale <= hi * s
    ensures lo * (shares + s) <= (usdc + u) * scale <= hi * (shares + s)
  {
    Distribute(usdc, u, 0, scale);
    Distribute(shares, s, 0, lo);
    Distribute(shares, s, 0, hi);
  }

  // ---- Order of the input does not matter ----

  /** A transaction lives in one block. */
  ghost predicate OneBlockPerTx(fills: seq<Fill>)
  {
    forall i, j :: 0 <= i < |fills| && 0 <= j < |fills| && fills[i].txHash == fills[j].txHash ==>
      fills[i].blockNumber == fills[j].blockNumber
  }

  lemma MinIndexPermutation(g: seq<Fill>, h: seq<Fill>)
    requires g != [] && h != [] && multiset(g) == multiset(h)
    ensures MinIndex(g) == MinIndex(h)
  {
    MinIndexIsLeast(g);
    MinIndexIsLeast(h);
    var i :| 0 <= i < |g| && g[i].logIndex == MinIndex(g);
    var j :| 0 <= j < |h| && h[j].logIndex == MinIndex(h);
    assert g[i] in multiset(h) && h[j] in multiset(g);
    var i' :| 0 <= i' < |h| && h[i'] == g[i];
    var j' :| 0 <= j' < |g| && g[j'] == h[j];
  }

  lemma MergedPermutation(a: seq<Fill>, b: seq<Fill>, k: Key)
    requires multiset(a) == multiset(b) && OneBlockPerTx(a)
    requires Group(a, k) != []
    ensures Group(b, k) != [] && Merged(k, Group(a, k)) == Merged(k, Group(b, k))
  {
    var g, h := Group(a, k), Group(b, k);
    FilterPermutation((f: Fill) => KeyOf(f) == k, a, b);
    assert multiset(g) == multiset(h);
    assert h != [] by { assert g[0] in multiset(h); }
    SumPermutation(Usdc, g, h);
    SumPermutation(Shares, g, h);
    MinIndexPermutation(g, h);
    GroupMember(a, k, g[0]);
    GroupMember(b, k, h[0]);
    assert h[0] in multiset(a);
  }

  lemma MergedFillsMember(fills: seq<Fill>, m: Fill)
    ensures m in MergedFills(fills) <==>
            exists k :: Group(fills, k) != [] && m == Merged(k, Group(fills, k))
  {
    var ms := MergedFills(fills);
    if m in ms {
      var i :| 0 <= i < |ms| && ms[i] == m;
      assert m == Merged(Order(fills)[i], Group(fills, Order(fills)[i]));
    }
    if k :| Group(fills, k) != [] && m == Merged(k, Group(fills, k)) {
      OrderIsNonEmptyGroups(fills, k);
      var i :| 0 <= i < |Order(fills)| && Order(fills)[i] == k;
      assert ms[i] == m;
    }
  }

  /** The key a published trade's group has. */
  function KeyOfTrade(t: Trade): Key { Key(t.txHash, t.wallet, t.tokenId, t.side == "buy") }

  /**
   t reports exactly the group of its key: the size text reads the summed shares, the price
   text is within half of 10^-6 of money over shares (a tie rounding up, "0" without shares),
   the log index is the group's least and the block that of one of its fills.
   */
  ghost predicate Reports(t: Trade, g: seq<Fill>)
  {
    && g != []
    && (t.side == "buy" || t.side == "sell")
    && |FractionPart(t.size)| <= 6 && Units(t.size, 6) == Sum(Shares, g)
    && |FractionPart(t.price)| <= 6
    && (Sum(Shares, g) == 0 ==> t.price == "0")
    && (Sum(Shares, g) > 0 ==>
          -(Sum(Shares, g) as int) < 2 * (Units(t.price, 6) * Sum(Shares, g) - Sum(Usdc, g) * 1_000_000) <= Sum(Shares, g))
    && (exists f :: f in g && f.logIndex == t.logIndex)
    && (forall f :: f in g ==> t.logIndex <= f.logIndex)
    && (exists f :: f in g && f.blockNumber == t.blockNumber)
  }

  lemma MillionIsPow10()
    ensures USDC_DECIMALS == 6 && Pow10(6) == 1_000_000
  {}

  lemma MergedReports(k: Key, g: seq<Fill>)
    requires g != []
    ensures KeyOfTrade(TradeFromFill(Merged(k, g))) == k
    ensures Reports(TradeFromFill(Merged(k, g)), g)
  {
    hide FixedString, PriceString, Sum, Pow10, Units, MinIndex;
    MillionIsPow10();
    SideTexts();
    var m := Merged(k, g);
    FixedStringRoundTrip(m.shares, 6);
    MinIndexIsLeast(g);
    var i :| 0 <= i < |g| && g[i].logIndex == MinIndex(g);
    assert g[i] in g && g[0] in g;
    if m.shares > 0 {
      PriceStringNearest(m.usdc, m.shares);
    } else {
      NoShares(m.usdc);
    }
  }

  lemma NoShares(usdc: nat)
    ensures PriceString(usdc, 0) == "0" && FractionPart("0") == ""
  {}

  /** Every published trade reports the fills of its own key, and no two trades have one key. */
  lemma PublishedReports(fills: seq<Fill>)
    ensures forall t :: t in Aggregate(fills) ==> Reports(t, Group(fills, KeyOfTrade(t)))
    ensures Distinct(Map(KeyOfTrade, Aggregate(fills)))
  {
    hide SortTrades, Group, Order, Reports, Merged, KeyOfTrade, TradeFromFill;
    var ms, o := MergedFills(fills), Order(fills);
    var ts := Map(TradeFromFill, ms);
    forall i | 0 <= i < |ms| ensures KeyOfTrade(ts[i]) == o[i] && Reports(ts[i], Group(fills, o[i])) {
      MergedReports(o[i], Group(fills, o[i]));
    }
    forall t | t in Aggregate(fills) ensures Reports(t, Group(fills, KeyOfTrade(t))) {
      assert t in multiset(Aggregate(fills)) && t in ts;
      var i :| 0 <= i < |ts| && ts[i] == t;
    }
    OrderDistinct(fills);
    assert Map(KeyOfTrade, ts) == o;
    MapPermutation(KeyOfTrade, ts, Aggregate(fills));
    PermutationDistinct(o, Map(KeyOfTrade, Aggregate(fills)));
  }

  /** A published trade has the wallet and the block of a fill merged into it. */
  lemma FillOfTrade(fills: seq<Fill>, t: Trade) returns (f: Fill)
    requires t in Aggregate(fills)
    ensures f in fills && f.wallet == t.wallet && f.blockNumber == t.blockNumber
  {
    hide Aggregate, Group, Sum, Units;
    PublishedReports(fills);
    var g := Group(fills, KeyOfTrade(t));
    f :| f in g && f.blockNumber == t.blockNumber;
    GroupMember(fills, KeyOfTrade(t), f);
  }

  lemma MergedFillsDistinct(fills: seq<Fill>)
    ensures Distinct(MergedFills(fills))
  {
    OrderDistinct(fills);
    var ms, o := MergedFills(fills), Order(fills);
    forall i, j | 0 <= i < j < |ms| ensures ms[i] != ms[j] {
      assert KeyOf(ms[i]) == o[i] && KeyOf(ms[j]) == o[j];
    }
  }

  /** Permuting the fills permutes the merged fills, so the published trades are the same multiset. */
  lemma AggregatePermutation(a: seq<Fill>, b: seq<Fill>)
    requires multiset(a) == multiset(b) && OneBlockPerTx(a)
    ensures multiset(MergedFills(a)) == multiset(MergedFills(b))
    ensures multiset(Aggregate(a)) == multiset(Aggregate(b))
  {
    forall i, j | 0 <= i < |b| && 0 <= j < |b| && b[i].txHash == b[j].txHash
      ensures b[i].blockNumber == b[j].blockNumber
    {
      assert b[i] in multiset(a) && b[j] in multiset(a);
    }
    MergedFillsDistinct(a);
    MergedFillsDistinct(b);
    forall m ensures m in MergedFills(a) <==> m in MergedFills(b) {
      MergedFillsMember(a, m);
      MergedFillsMember(b, m);
      if k :| Group(a, k) != [] && m == Merged(k, Group(a, k)) {
        MergedPermutation(a, b, k);
      }
      if k :| Group(b, k) != [] && m == Merged(k, Group(b, k)) {
        MergedPermutation(b, a, k);
      }
    }
    DistinctPermutation(MergedFills(a), MergedFills(b));
    MapPermutation(TradeFromFill, MergedFills(a), MergedFills(b));
  }

  // ---- Identity of the published trades ----

  datatype TradeId = TradeId(txHash: nat, logIndex: nat, wallet: Address)

  function IdOf(t: Trade): TradeId { TradeId(t.txHash, t.logIndex, t.wallet) }
  function FillId(f: Fill): TradeId { TradeId(f.txHash, f.logIndex, f.wallet) }

  /** One log gives one wallet fills in one group only. */
  ghost predicate OneGroupPerLog(fills: seq<Fill>)
  {
    forall i, j :: 0 <= i < |fills| && 0 <= j < |fills| && FillId(fills[i]) == FillId(fills[j]) ==>
      KeyOf(fills[i]) == KeyOf(fills[j])
  }

  lemma MergedIdIsAFill(fills: seq<Fill>, i: nat)
    requires i < |MergedFills(fills)|
    ensures exists f :: f in fills && KeyOf(f) == Order(fills)[i] && FillId(f) == FillId(MergedFills(fills)[i])
  {
    var k := Order(fills)[i];
    var g := Group(fills, k);
    assert MergedFills(fills)[i] == Merged(k, g);
    MinIndexIsLeast(g);
    var j :| 0 <= j < |g| && g[j].logIndex == MinIndex(g);
    GroupMember(fills, k, g[j]);
  }

  /** The published trades carry pairwise different (TxHash, LogIndex, Wallet). */
  lemma PublishedIdsDistinct(fills: seq<Fill>)
    requires OneGroupPerLog(fills)
    ensures Distinct(Map(IdOf, Aggregate(fills)))
  {
    var ms := MergedFills(fills);
    var ids := Map(FillId, ms);
    OrderDistinct(fills);
    forall i, j | 0 <= i < j < |ids| ensures ids[i] != ids[j] {
      MergedIdIsAFill(fills, i);
      MergedIdIsAFill(fills, j);
      var f :| f in fills && KeyOf(f) == Order(fills)[i] && FillId(f) == ids[i];
      var g :| g in fills && KeyOf(g) == Order(fills)[j] && FillId(g) == ids[j];
      assert Order(fills)[i] != Order(fills)[j];
    }
    MapPermutation(IdOf, Map(TradeFromFill, ms), Aggregate(fills));
    assert Map(IdOf, Map(TradeFromFill, ms)) == ids;
    PermutationDistinct(ids, Map(IdOf, Aggregate(fills)));
  }

  /** The trade that f was merged into: same group, and a log index no later than f's. */
  predicate Covers(t: Trade, f: Fill)
  {
    && t.wallet == f.wallet && t.tokenId == f.tokenId && t.txHash == f.txHash
    && t.side == (if f.buy then "buy" else "sell")
    && t.logIndex <= f.logIndex
  }

  /** Every fill is covered by a published trade. */
  lemma EveryFillCovered(fills: seq<Fill>, f: Fill)
    requires f in fills
    ensures exists j :: 0 <= j < |Aggregate(fills)| && Covers(Aggregate(fills)[j], f)
  {
    hide PriceString, FixedString, SortTrades;
    var k := KeyOf(f);
    GroupMember(fills, k, f);
    OrderIsNonEmptyGroups(fills, k);
    MinIndexIsLeast(Group(fills, k));
    var i :| 0 <= i < |Order(fills)| && Order(fills)[i] == k;
    var ts := Map(TradeFromFill, MergedFills(fills));
    assert MergedFills(fills)[i] == Merged(k, Group(fills, k));
    assert Covers(ts[i], f);
    assert ts[i] in multiset(Aggregate(fills));
    var j :| 0 <= j < |Aggregate(fills)| && Aggregate(fills)[j] == ts[i];
  }

  // ---- Aggregating in batches ----

  /** No transaction has fills on both sides. */
  ghost predicate TxDisjoint(a: seq<Fill>, b: seq<Fill>)
  {
    forall i, j :: 0 <= i < |a| && 0 <= j < |b| ==> a[i].txHash != b[j].txHash
  }

  lemma {:induction false} OrderConcat(a: seq<Fill>, b: seq<Fill>)
    requires TxDisjoint(a, b)
    ensures Order(a + b) == Order(a) + Order(b)
  {
    if b == [] {
      assert a + b == a;
    } else {
      var rest, f := b[..|b| - 1], b[|b| - 1];
      assert (a + b)[..|a + b| - 1] == a + rest;
      OrderConcat(a, rest);
      if KeyOf(f) in Order(a) {
        OrderIsNonEmptyGroups(a, KeyOf(f));
        var g := Group(a, KeyOf(f))[0];
        GroupMember(a, KeyOf(f), g);
        assert false;
      }
    }
  }

  lemma GroupForeign(a: seq<Fill>, b: seq<Fill>, k: Key)
    requires TxDisjoint(a, b)
    ensures Group(a, k) != [] ==> Group(a + b, k) == Group(a, k)
    ensures Group(b, k) != [] ==> Group(a + b, k) == Group(b, k)
  {
    FilterConcat((f: Fill) => KeyOf(f) == k, a, b);
    if Group(a, k) != [] {
      GroupMember(a, k, Group(a, k)[0]);
    }
    if Group(b, k) != [] {
      GroupMember(b, k, Group(b, k)[0]);
    }
    if Group(a, k) != [] && Group(b, k) != [] {
      assert false;
    }
  }

  /** Aggregating two transaction-disjoint batches separately publishes what one batch would. */
  lemma AggregateConcat(a: seq<Fill>, b: seq<Fill>)
    requires TxDisjoint(a, b)
    ensures MergedFills(a + b) == MergedFills(a) + MergedFills(b)
    ensures multiset(Aggregate(a + b)) == multiset(Aggregate(a)) + multiset(Aggregate(b))
  {
    hide MergedFills, SortTrades, TradeFromFill;
    MergedConcat(a, b);
    assert Map(TradeFromFill, MergedFills(a + b)) ==
           Map(TradeFromFill, MergedFills(a)) + Map(TradeFromFill, MergedFills(b));
  }

  lemma MergedConcat(a: seq<Fill>, b: seq<Fill>)
    requires TxDisjoint(a, b)
    ensures MergedFills(a + b) == MergedFills(a) + MergedFills(b)
  {
    hide Order, Group, Merged, TxDisjoint;
    OrderConcat(a, b);
    var o := Order(a + b);
    forall i | 0 <= i < |o| ensures MergedFills(a + b)[i] == (MergedFills(a) + MergedFills(b))[i] {
      OrderIsNonEmptyGroups(a, o[i]);
      OrderIsNonEmptyGroups(b, o[i]);
      GroupForeign(a, b, o[i]);
    }
  }
}
