/**
 What an exchange event moves, read from the event alone, and its agreement with the fills
 and the published sizes: the maker gives the maker amount and the taker the taker amount,
 money being what the buying maker, or the taker of a selling one, gives.
 */
module Transfers {
  import opened Seqs
  import opened Decode
  import opened Aggregation
  import opened Engine
  import opened ChainWatch
  import opened ChainSafety
  import opened ChainBatching

  datatype Asset = Money | Tokens

  function MakerGives(ev: Event): Asset { if ev.makerBuys then Money else Tokens }
  function TakerGives(ev: Event): Asset { if ev.makerBuys then Tokens else Money }

  /** What `w` hands over in one log, for its token: its own amount, of the asset it gives. */
  function Given(w: Address, token: nat, a: Asset): Log -> nat
  {
    (l: Log) =>
      if l.event.None? || l.event.value.tokenId != token then 0
      else
        var ev := l.event.value;
        (if ev.maker == w && MakerGives(ev) == a then ev.makerAmount else 0)
        + (if ev.taker == w && TakerGives(ev) == a then ev.takerAmount else 0)
  }

  /** What `w` gets in one log: what its counterparty hands over. */
  function Got(w: Address, token: nat, a: Asset): Log -> nat
  {
    (l: Log) =>
      if l.event.None? || l.event.value.tokenId != token then 0
      else
        var ev := l.event.value;
        (if ev.maker == w && TakerGives(ev) == a then ev.takerAmount else 0)
        + (if ev.taker == w && MakerGives(ev) == a then ev.makerAmount else 0)
  }

  /** The money of the fills of one wallet, token and side. */
  function UsdcOn(w: Address, token: nat, buy: bool): Fill -> nat
  {
    (f: Fill) => if f.wallet == w && f.tokenId == token && f.buy == buy then f.usdc else 0
  }

  /** A wallet's fills of a token are its transfers: tokens got and given, money given and got. */
  ghost predicate FillsAreTransfers(fills: seq<Fill>, logs: seq<Log>, w: Address, token: nat)
  {
    && Sum(SharesOn(w, token, true), fills) == Sum(Got(w, token, Tokens), logs)
    && Sum(SharesOn(w, token, false), fills) == Sum(Given(w, token, Tokens), logs)
    && Sum(UsdcOn(w, token, true), fills) == Sum(Given(w, token, Money), logs)
    && Sum(UsdcOn(w, token, false), fills) == Sum(Got(w, token, Money), logs)
  }

  /** Maker and taker are two, or nothing moves. */
  predicate TwoParties(l: Log)
  {
    l.event.Some? ==>
      l.event.value.maker != l.event.value.taker || (l.event.value.makerAmount == 0 && l.event.value.takerAmount == 0)
  }

  lemma SumsOfNone<T>(v: T -> nat)
    ensures Sum(v, []) == 0
  {}

  lemma SumOfOne<T>(v: T -> nat, x: T)
    ensures Sum(v, [x]) == v(x)
  {
    SumSnoc(v, [], x);
    assert [] + [x] == [x];
  }

  /** The fills of one log: none, one or two. */
  lemma SumOverFills(v: Fill -> nat, l: Log, watched: set<Address>)
    ensures Sum(v, FillsIn(l, watched)) ==
            if l.event.None? then 0
            else
              var of := DecodeLog(l).value;
              (if of.maker in watched then v(of.FillFor(of.maker).value) else 0)
              + (if of.taker in watched then v(of.FillFor(of.taker).value) else 0)
  {
    hide Sum;
    SumsOfNone(v);
    if l.event.Some? {
      var of := DecodeLog(l).value;
      var m, t := of.FillFor(of.maker).value, of.FillFor(of.taker).value;
      SumOfOne(v, m);
      SumOfOne(v, t);
      SumConcat(v, if of.maker in watched then [m] else [], if of.taker in watched then [t] else []);
    }
  }

  lemma LogTransfers(l: Log, watched: set<Address>, w: Address, token: nat)
    requires w in watched && (Relevant(l, watched) ==> TwoParties(l))
    ensures FillsAreTransfers(FillsIn(l, watched), [l], w, token)
  {
    hide Sum, FillsIn;
    SumOverFills(SharesOn(w, token, true), l, watched);
    SumOverFills(SharesOn(w, token, false), l, watched);
    SumOverFills(UsdcOn(w, token, true), l, watched);
    SumOverFills(UsdcOn(w, token, false), l, watched);
    SumOfOne(Got(w, token, Tokens), l);
    SumOfOne(Given(w, token, Tokens), l);
    SumOfOne(Given(w, token, Money), l);
    SumOfOne(Got(w, token, Money), l);
  }

  /** A log's fills are its transfers for every watched wallet and token exactly when nobody trades with itself. */
  lemma TransfersExactly(l: Log, watched: set<Address>)
    ensures (forall w, token :: w in watched ==> FillsAreTransfers(FillsIn(l, watched), [l], w, token))
            <==> (Relevant(l, watched) ==> TwoParties(l))
  {
    hide Sum, FillsIn;
    if Relevant(l, watched) && !TwoParties(l) {
      SelfTradeCountedTwice(l, watched);
    } else {
      forall w, token | w in watched ensures FillsAreTransfers(FillsIn(l, watched), [l], w, token) {
        LogTransfers(l, watched, w, token);
      }
    }
  }

  /** A trade with itself is reported twice on the taker's side and never on the maker's. */
  lemma SelfTradeCountedTwice(l: Log, watched: set<Address>)
    requires Relevant(l, watched) && !TwoParties(l)
    ensures var ev := l.event.value;
            var shares := if ev.makerBuys then ev.takerAmount else ev.makerAmount;
            && Sum(SharesOn(ev.maker, ev.tokenId, !ev.makerBuys), FillsIn(l, watched)) == 2 * shares
            && Sum(SharesOn(ev.maker, ev.tokenId, ev.makerBuys), FillsIn(l, watched)) == 0
    ensures !FillsAreTransfers(FillsIn(l, watched), [l], l.event.value.maker, l.event.value.tokenId)
  {
    hide Sum, FillsIn;
    var ev := l.event.value;
    var w, token := ev.maker, ev.tokenId;
    SumOverFills(SharesOn(w, token, true), l, watched);
    SumOverFills(SharesOn(w, token, false), l, watched);
    SumOverFills(UsdcOn(w, token, true), l, watched);
    SumOverFills(UsdcOn(w, token, false), l, watched);
    SumOfOne(Got(w, token, Tokens), l);
    SumOfOne(Given(w, token, Tokens), l);
    SumOfOne(Given(w, token, Money), l);
    SumOfOne(Got(w, token, Money), l);
  }

  lemma TransfersAdd(a: seq<Fill>, b: seq<Fill>, rest: seq<Log>, l: Log, w: Address, token: nat)
    requires FillsAreTransfers(a, rest, w, token) && FillsAreTransfers(b, [l], w, token)
    ensures FillsAreTransfers(a + b, rest + [l], w, token)
  {
    hide Sum;
    SumConcat(SharesOn(w, token, true), a, b);
    SumConcat(SharesOn(w, token, false), a, b);
    SumConcat(UsdcOn(w, token, true), a, b);
    SumConcat(UsdcOn(w, token, false), a, b);
    SumConcat(Got(w, token, Tokens), rest, [l]);
    SumConcat(Given(w, token, Tokens), rest, [l]);
    SumConcat(Given(w, token, Money), rest, [l]);
    SumConcat(Got(w, token, Money), rest, [l]);
  }

  /** Over any batch, a watched wallet's buys and sells of a token are exactly what it got and gave. */
  lemma {:induction false} BatchTransfers(logs: seq<Log>, watched: set<Address>, w: Address, token: nat)
    requires w in watched && forall l :: l in logs ==> TwoParties(l)
    ensures FillsAreTransfers(FillsOf(logs, watched), logs, w, token)
  {
    hide FillsIn, FillsOf, Sum, FillsAreTransfers, TwoParties;
    if logs == [] {
      NoFills(watched);
      NothingMoved(w, token);
    } else {
      var rest, l := logs[..|logs| - 1], logs[|logs| - 1];
      assert logs == rest + [l];
      assert forall m :: m in rest ==> m in logs;
      BatchTransfers(rest, watched, w, token);
      LogTransfers(l, watched, w, token);
      FillsOfSnoc(rest, l, watched);
      TransfersAdd(FillsOf(rest, watched), FillsIn(l, watched), rest, l, w, token);
    }
  }

  lemma NothingMoved(w: Address, token: nat)
    ensures FillsAreTransfers([], [], w, token)
  {}

  /** A batch's published sizes, per wallet, token and side, are the tokens got and given. */
  lemma TradesAreTransfers(logs: seq<Log>, watched: set<Address>, w: Address, token: nat)
    requires w in watched && forall l :: l in logs ==> TwoParties(l)
    ensures var trades := Aggregate(FillsOf(logs, watched));
            && Sum(SizeOn(w, token, "buy"), trades) == Sum(Got(w, token, Tokens), logs)
            && Sum(SizeOn(w, token, "sell"), trades) == Sum(Given(w, token, Tokens), logs)
  {
    hide Aggregate, FillsOf, Sum;
    BatchTransfers(logs, watched, w, token);
    PublishedSidesConserveShares(FillsOf(logs, watched), w, token, true);
    PublishedSidesConserveShares(FillsOf(logs, watched), w, token, false);
  }

  // ---- Over a scan ----

  /** Logs that move nothing for w can be left out of the sum. */
  lemma {:induction false} SumOfUnseen(v: Log -> nat, logs: seq<Log>, watched: set<Address>)
    requires forall l :: l in logs && !Relevant(l, watched) ==> v(l) == 0
    ensures Sum(v, Unseen(logs, watched, map[])) == Sum(v, logs)
  {
    if logs != [] {
      var rest, l := logs[..|logs| - 1], logs[|logs| - 1];
      assert logs == rest + [l] && l in logs;
      assert forall m :: m in rest ==> m in logs;
      SumOfUnseen(v, rest, watched);
      UnseenSnoc(rest, l, watched, map[]);
      SumSnoc(v, Unseen(rest, watched, map[]), l);
    }
  }

  /**
   A failure-free backfill by a restarted process publishes, in however many chunks, buys and
   sells of each watched wallet that add up to the tokens it got and gave in the range.
   */
  lemma BackfillTransfers(e: Env, st: WState, from: nat, to: nat, w: Address, token: nat)
    requires AllDone(e) && ChainOk(e) && Inv(e, st, false) && st.seen == map[]
    requires Scanned(e, st, from) && (st.origin.None? ==> from >= to)
    requires w in e.watched && forall l :: l in LogsIn(e.chain, from, to) ==> TwoParties(l)
    ensures var st1 := Backfill(e, st, from, to, true).0;
            && st.bus <= st1.bus
            && var sent := TradesSince(st1.bus, |st.bus|);
            && Sum(SizeOn(w, token, "buy"), sent) == Sum(Got(w, token, Tokens), LogsIn(e.chain, from, to))
            && Sum(SizeOn(w, token, "sell"), sent) == Sum(Given(w, token, Tokens), LogsIn(e.chain, from, to))
  {
    hide Backfill, LogsIn, Inv, Scanned, ChainOk, AllDone, Aggregate, FillsOf, Unseen, Sum, TwoParties;
    ChunkPositive(e);
    BackfillPublishesOneShot(e, st, from, to, true);
    var st1 := Backfill(e, st, from, to, true).0;
    var logs := LogsIn(e.chain, from, to);
    var unseen := Unseen(logs, e.watched, map[]);
    forall l | l in unseen ensures TwoParties(l) {
      UnseenMember(logs, e.watched, map[], l);
    }
    TradesAreTransfers(unseen, e.watched, w, token);
    SumOfUnseen(Got(w, token, Tokens), logs, e.watched);
    SumOfUnseen(Given(w, token, Tokens), logs, e.watched);
    var trades := Aggregate(FillsOf(unseen, e.watched));
    SumPermutation(SizeOn(w, token, "buy"), TradesSince(st1.bus, |st.bus|), trades);
    SumPermutation(SizeOn(w, token, "sell"), TradesSince(st1.bus, |st.bus|), trades);
  }
}
