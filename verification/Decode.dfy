/**
 Decoded OrderFilled events, the fills they mean for a wallet, and their aggregation
 into one trade per (transaction, wallet, token, side): the watcher's decode package
 from an already decoded event on.

 Transaction hashes, addresses and token ids are numbers: the source compares their
 fixed-width lower-case hex text, which orders them the same way.
 */
module Decode {
  import opened Seqs
  import opened Decimal

  type Address = nat

  /** The decoded event (either ABI), with the coordinates of its log. */
  datatype OrderFilled = OrderFilled(
    maker: Address, taker: Address, makerBuys: bool, tokenId: nat,
    makerAmount: nat, takerAmount: nat,
    txHash: nat, logIndex: nat, blockNumber: nat)
  {
    /** The fill as seen by `wallet`; None when it is neither maker nor taker. */
    function FillFor(wallet: Address): Option<Fill>
    {
      if wallet != maker && wallet != taker then None
      else
        var usdc := if makerBuys then makerAmount else takerAmount;
        var shares := if makerBuys then takerAmount else makerAmount;
        var buys := if wallet == taker then !makerBuys else makerBuys;
        Some(Fill(wallet, tokenId, buys, usdc, shares, txHash, logIndex, blockNumber))
    }
  }

  datatype Fill = Fill(
    wallet: Address, tokenId: nat, buy: bool, usdc: nat, shares: nat,
    txHash: nat, logIndex: nat, blockNumber: nat)

  datatype Trade = Trade(
    wallet: Address, tokenId: nat, side: string, price: string, size: string,
    txHash: nat, logIndex: nat, blockNumber: nat)

  datatype Key = Key(tx: nat, wallet: Address, token: nat, buy: bool)

  /** Running totals of one group. */
  datatype Acc = Acc(usdc: nat, shares: nat, minIdx: nat, blk: nat)

  function KeyOf(f: Fill): Key { Key(f.txHash, f.wallet, f.tokenId, f.buy) }
  function Usdc(f: Fill): nat { f.usdc }
  function Shares(f: Fill): nat { f.shares }

  /** Maker and taker of one event see the same money and shares on opposite sides. */
  lemma FillsMirror(of: OrderFilled)
    requires of.maker != of.taker
    ensures of.FillFor(of.maker).Some? && of.FillFor(of.taker).Some?
    ensures var m, t := of.FillFor(of.maker).value, of.FillFor(of.taker).value;
            m.(wallet := of.taker, buy := !m.buy) == t
  {}

  function TradeFromFill(f: Fill): Trade
  {
    Trade(f.wallet, f.tokenId, if f.buy then "buy" else "sell",
          PriceString(f.usdc, f.shares), FixedString(f.shares, USDC_DECIMALS),
          f.txHash, f.logIndex, f.blockNumber)
  }

  // ---- Grouping ----

  /** Group keys in order of first appearance. */
  function Order(fills: seq<Fill>): seq<Key>
  {
    if fills == [] then []
    else
      var o := Order(fills[..|fills| - 1]);
      var k := KeyOf(fills[|fills| - 1]);
      if k in o then o else o + [k]
  }

  lemma {:induction false} OrderDistinct(fills: seq<Fill>)
    ensures Distinct(Order(fills))
  {
    if fills != [] {
      OrderDistinct(fills[..|fills| - 1]);
    }
  }

  /** The fills of one group, in order. */
  function Group(fills: seq<Fill>, k: Key): seq<Fill>
  {
    Filter((f: Fill) => KeyOf(f) == k, fills)
  }

  lemma GroupSnoc(fills: seq<Fill>, f: Fill, k: Key)
    ensures Group(fills + [f], k) == if KeyOf(f) == k then Group(fills, k) + [f] else Group(fills, k)
  {
    assert (fills + [f])[..|fills|] == fills;
  }

  /** The listed keys are those of the non-empty groups. */
  lemma {:induction false} OrderIsNonEmptyGroups(fills: seq<Fill>, k: Key)
    ensures k in Order(fills) <==> Group(fills, k) != []
  {
    if fills != [] {
      var rest, last := fills[..|fills| - 1], fills[|fills| - 1];
      assert fills == rest + [last];
      OrderIsNonEmptyGroups(rest, k);
      GroupSnoc(rest, last, k);
    }
  }

  lemma GroupMember(fills: seq<Fill>, k: Key, f: Fill)
    ensures f in Group(fills, k) <==> f in fills && KeyOf(f) == k
  {
    FilterMember((f: Fill) => KeyOf(f) == k, fills, f);
  }

  function MinIndex(g: seq<Fill>): nat
    requires g != []
  {
    var last := g[|g| - 1].logIndex;
    if |g| == 1 then last
    else
      var m := MinIndex(g[..|g| - 1]);
      if last < m then last else m
  }

  lemma {:induction false} MinIndexIsLeast(g: seq<Fill>)
    requires g != []
    ensures exists i :: 0 <= i < |g| && g[i].logIndex == MinIndex(g)
    ensures forall i :: 0 <= i < |g| ==> MinIndex(g) <= g[i].logIndex
  {
    if |g| > 1 {
      var h := g[..|g| - 1];
      MinIndexIsLeast(h);
      var i :| 0 <= i < |h| && h[i].logIndex == MinIndex(h);
      assert g[i] == h[i] && forall j :: 0 <= j < |h| ==> g[j] == h[j];
    } else {
      assert g[0].logIndex == MinIndex(g);
    }
  }

  /** A group as a single fill: summed amounts, least log index, block of its first fill. */
  function Merged(k: Key, g: seq<Fill>): Fill
    requires g != []
  {
    Fill(k.wallet, k.token, k.buy, Sum(Usdc, g), Sum(Shares, g), k.tx, MinIndex(g), g[0].blockNumber)
  }

  lemma OrderedGroupsNonEmpty(fills: seq<Fill>)
    ensures forall i :: 0 <= i < |Order(fills)| ==> Group(fills, Order(fills)[i]) != []
  {
    forall i | 0 <= i < |Order(fills)| ensures Group(fills, Order(fills)[i]) != [] {
      OrderIsNonEmptyGroups(fills, Order(fills)[i]);
    }
  }

  /** One merged fill per group, in order of first appearance. */
  function MergedFills(fills: seq<Fill>): (ms: seq<Fill>)
    ensures |ms| == |Order(fills)|
    ensures forall i :: 0 <= i < |ms| ==>
              Group(fills, Order(fills)[i]) != [] && ms[i] == Merged(Order(fills)[i], Group(fills, Order(fills)[i]))
  {
    OrderedGroupsNonEmpty(fills);
    seq(|Order(fills)|, i requires 0 <= i < |Order(fills)| => Merged(Order(fills)[i], Group(fills, Order(fills)[i])))
  }

  // ---- Sorting ----

  predicate Before(a: Trade, b: Trade)
  {
    a.txHash < b.txHash || (a.txHash == b.txHash && a.logIndex < b.logIndex)
  }

  ghost predicate Sorted(ts: seq<Trade>)
  {
    forall i, j :: 0 <= i < j < |ts| ==> !Before(ts[j], ts[i])
  }

  /** Inserts t behind every element that does not come after it. */
  function Insert(ts: seq<Trade>, t: Trade): (r: seq<Trade>)
    requires Sorted(ts)
    ensures Sorted(r) && multiset(r) == multiset(ts) + multiset{t}
  {
    if ts == [] || !Before(t, ts[|ts| - 1]) then ts + [t]
    else
      var rest := Insert(ts[..|ts| - 1], t);
      SnocMultiset(ts);
      SortedSnoc(rest, ts[..|ts| - 1], t, ts[|ts| - 1]);
      rest + [ts[|ts| - 1]]
  }

  lemma SortedSnoc(rest: seq<Trade>, ts: seq<Trade>, t: Trade, last: Trade)
    requires Sorted(rest) && multiset(rest) == multiset(ts) + multiset{t}
    requires Before(t, last) && Sorted(ts + [last])
    ensures Sorted(rest + [last])
  {
    forall i | 0 <= i < |rest| ensures !Before(last, rest[i]) {
      assert rest[i] in multiset(rest);
      assert rest[i] == t || rest[i] in ts;
      if rest[i] in ts {
        var j :| 0 <= j < |ts| && ts[j] == rest[i];
        assert !Before((ts + [last])[|ts|], (ts + [last])[j]);
      }
    }
  }

  /** Insertion sort by (TxHash, LogIndex); equal elements keep their order. */
  function SortTrades(ts: seq<Trade>): (r: seq<Trade>)
    ensures Sorted(r) && multiset(r) == multiset(ts)
  {
    if ts == [] then []
    else
      SnocMultiset(ts);
      Insert(SortTrades(ts[..|ts| - 1]), ts[|ts| - 1])
  }

  /** The specification of AggregateByTx. */
  function Aggregate(fills: seq<Fill>): seq<Trade>
  {
    SortTrades(Map(TradeFromFill, MergedFills(fills)))
  }

  // ---- The loop ----

  function AccOf(g: seq<Fill>): Acc
    requires g != []
  {
    Acc(Sum(Usdc, g), Sum(Shares, g), MinIndex(g), g[0].blockNumber)
  }

  ghost predicate Accumulated(groups: map<Key, Acc>, order: seq<Key>, fills: seq<Fill>)
  {
    && order == Order(fills)
    && (forall k :: k in groups <==> k in order)
    && (forall k :: k in groups ==> Group(fills, k) != [] && groups[k] == AccOf(Group(fills, k)))
  }

  function Grow(a: Acc, f: Fill): Acc
  {
    Acc(a.usdc + f.usdc, a.shares + f.shares, if f.logIndex < a.minIdx then f.logIndex else a.minIdx, a.blk)
  }

  lemma AccSnoc(g: seq<Fill>, f: Fill)
    ensures AccOf(g + [f]) == Grow(if g == [] then Acc(0, 0, f.logIndex, f.blockNumber) else AccOf(g), f)
  {
    SumSnoc(Usdc, g, f);
    SumSnoc(Shares, g, f);
    assert (g + [f])[..|g|] == g;
    assert g == [] ==> g + [f] == [f];
  }

  function NextGroups(groups: map<Key, Acc>, f: Fill): map<Key, Acc>
  {
    var k := KeyOf(f);
    groups[k := Grow(if k in groups then groups[k] else Acc(0, 0, f.logIndex, f.blockNumber), f)]
  }

  lemma OrderSnoc(fills: seq<Fill>, f: Fill)
    ensures Order(fills + [f]) == if KeyOf(f) in Order(fills) then Order(fills) else Order(fills) + [KeyOf(f)]
  {
    assert (fills + [f])[..|fills|] == fills;
  }

  /** One iteration: fill f joins its group, or opens it. */
  lemma AccumulatedSnoc(groups: map<Key, Acc>, order: seq<Key>, fills: seq<Fill>, f: Fill)
    requires Accumulated(groups, order, fills)
    ensures Accumulated(NextGroups(groups, f), if KeyOf(f) in groups then order else order + [KeyOf(f)], fills + [f])
  {
    OrderSnoc(fills, f);
    hide Order, Group, AccOf, Grow;
    var next := NextGroups(groups, f);
    forall k | k in next
      ensures Group(fills + [f], k) != [] && next[k] == AccOf(Group(fills + [f], k))
    {
      GroupSnoc(fills, f, k);
      if k == KeyOf(f) {
        OrderIsNonEmptyGroups(fills, k);
        AccSnoc(Group(fills, k), f);
      }
    }
  }

  lemma NothingAccumulated()
    ensures Accumulated(map[], [], [])
  {}

  /** First loop: accumulates each fill into its group, remembering first-appearance order. */
  method Accumulate(fills: seq<Fill>) returns (groups: map<Key, Acc>, order: seq<Key>)
    ensures Accumulated(groups, order, fills)
  {
    hide Accumulated;
    groups := map[];
    order := [];
    NothingAccumulated();
    assert fills[..0] == [];
    for i := 0 to |fills|
      invariant Accumulated(groups, order, fills[..i])
    {
      var f := fills[i];
      var k := KeyOf(f);
      AccumulatedSnoc(groups, order, fills[..i], f);
      assert fills[..i + 1] == fills[..i] + [f];
      ghost var next := NextGroups(groups, f);
      if k !in groups {
        groups := groups[k := Acc(0, 0, f.logIndex, f.blockNumber)];
        order := order + [k];
      }
      groups := groups[k := Grow(groups[k], f)];
      assert groups == next;
    }
    assert fills[..|fills|] == fills;
  }

  /** The accumulator of a group as a fill. */
  function FillOf(k: Key, a: Acc): Fill
  {
    Fill(k.wallet, k.token, k.buy, a.usdc, a.shares, k.tx, a.minIdx, a.blk)
  }

  lemma AccumulatedFill(groups: map<Key, Acc>, order: seq<Key>, fills: seq<Fill>, i: nat)
    requires Accumulated(groups, order, fills) && i < |order|
    ensures i < |MergedFills(fills)| && order[i] in groups
    ensures FillOf(order[i], groups[order[i]]) == MergedFills(fills)[i]
  {
    var k := order[i];
    assert k in groups;
    assert MergedFills(fills)[i] == Merged(k, Group(fills, k));
  }

  /** Second loop: one merged fill per group. */
  method Merge(groups: map<Key, Acc>, order: seq<Key>, ghost fills: seq<Fill>) returns (merged: seq<Fill>)
    requires Accumulated(groups, order, fills)
    ensures merged == MergedFills(fills)
  {
    merged := [];
    for i := 0 to |order|
      invariant |merged| == i <= |MergedFills(fills)|
      invariant forall j :: 0 <= j < i ==> merged[j] == MergedFills(fills)[j]
    {
      AccumulatedFill(groups, order, fills, i);
      merged := merged + [FillOf(order[i], groups[order[i]])];
    }
  }

  /** Combines the fills of one wallet, token, side and transaction into one trade. */
  method AggregateByTx(fills: seq<Fill>) returns (trades: seq<Trade>)
    ensures trades == Aggregate(fills)
    ensures forall i, j :: 0 <= i < j < |trades| ==>
              trades[i].txHash < trades[j].txHash
              || (trades[i].txHash == trades[j].txHash && trades[i].logIndex <= trades[j].logIndex)
  {
    var groups, order := Accumulate(fills);
    var merged := Merge(groups, order, fills);
    trades := SortTrades(Map(TradeFromFill, merged));
  }
}
