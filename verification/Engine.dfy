/** The watcher's pure core: raw logs to deduplicated, watched, aggregated trades. */
module Engine {
  import opened Seqs
  import opened Decode
  import opened Dedup
  import opened Watchset

  /** What a well-formed OrderFilled log carries besides its coordinates. */
  datatype Event = Event(
    maker: Address, taker: Address, makerBuys: bool, tokenId: nat, makerAmount: nat, takerAmount: nat)

  /** A raw exchange log; `event` is None when it does not decode. */
  datatype Log = Log(txHash: nat, index: nat, block: nat, removed: bool, event: Option<Event>)

  function Id(l: Log): LogId { LogId(l.txHash, l.index) }

  function DecodeLog(l: Log): Option<OrderFilled>
  {
    match l.event
    case None => None
    case Some(ev) => Some(OrderFilled(ev.maker, ev.taker, ev.makerBuys, ev.tokenId,
                                      ev.makerAmount, ev.takerAmount, l.txHash, l.index, l.block))
  }

  /** Decodable, with a watched maker or taker. */
  predicate Relevant(l: Log, watched: set<Address>)
  {
    l.event.Some? && (l.event.value.maker in watched || l.event.value.taker in watched)
  }

  /** The watched wallets' fills of one log, maker first. */
  function FillsIn(l: Log, watched: set<Address>): seq<Fill>
  {
    if l.event.None? then []
    else
      var of := DecodeLog(l).value;
      (if of.maker in watched then [of.FillFor(of.maker).value] else []) +
      (if of.taker in watched then [of.FillFor(of.taker).value] else [])
  }

  function FillsOf(logs: seq<Log>, watched: set<Address>): seq<Fill>
  {
    Flat((l: Log) => FillsIn(l, watched), logs)
  }

  /** The relevant logs not marked seen, in order. */
  function Unseen(logs: seq<Log>, watched: set<Address>, seen: map<LogId, nat>): seq<Log>
  {
    Filter((l: Log) => Relevant(l, watched) && Id(l) !in seen, logs)
  }

  lemma UnseenMember(logs: seq<Log>, watched: set<Address>, seen: map<LogId, nat>, l: Log)
    ensures l in Unseen(logs, watched, seen) <==> l in logs && Relevant(l, watched) && Id(l) !in seen
  {
    FilterMember((l: Log) => Relevant(l, watched) && Id(l) !in seen, logs, l);
  }

  lemma FillsOfConcat(a: seq<Log>, b: seq<Log>, watched: set<Address>)
    ensures FillsOf(a + b, watched) == FillsOf(a, watched) + FillsOf(b, watched)
  {
    FlatConcat((l: Log) => FillsIn(l, watched), a, b);
  }

  lemma FillsOfSnoc(logs: seq<Log>, l: Log, watched: set<Address>)
    ensures FillsOf(logs + [l], watched) == FillsOf(logs, watched) + FillsIn(l, watched)
  {
    FlatSnoc((l: Log) => FillsIn(l, watched), logs, l);
  }

  lemma FillsOfMember(logs: seq<Log>, watched: set<Address>, f: Fill)
    ensures f in FillsOf(logs, watched) <==> exists l :: l in logs && f in FillsIn(l, watched)
  {
    FlatMember((l: Log) => FillsIn(l, watched), logs, f);
  }

  // ---- Both sides of a trade ----

  function BoughtShares(f: Fill): nat { if f.buy then f.shares else 0 }
  function SoldShares(f: Fill): nat { if f.buy then 0 else f.shares }
  function PaidUsdc(f: Fill): nat { if f.buy then f.usdc else 0 }
  function ReceivedUsdc(f: Fill): nat { if f.buy then 0 else f.usdc }

  /** Both parties are watched, and they are two. */
  predicate BothWatched(l: Log, watched: set<Address>)
  {
    l.event.Some? ==> l.event.value.maker in watched && l.event.value.taker in watched && l.event.value.maker != l.event.value.taker
  }

  /** When both parties of every log are watched, shares bought are shares sold and money paid is money received. */
  lemma {:induction false} BuysMatchSells(logs: seq<Log>, watched: set<Address>)
    requires forall l :: l in logs ==> BothWatched(l, watched)
    ensures Sum(BoughtShares, FillsOf(logs, watched)) == Sum(SoldShares, FillsOf(logs, watched))
    ensures Sum(PaidUsdc, FillsOf(logs, watched)) == Sum(ReceivedUsdc, FillsOf(logs, watched))
  {
    hide FillsIn, FillsOf, Sum;
    if logs == [] {
      NoFills(watched);
    } else {
      var rest, l := logs[..|logs| - 1], logs[|logs| - 1];
      assert logs == rest + [l];
      BuysMatchSells(rest, watched);
      FillsOfSnoc(rest, l, watched);
      var a, b := FillsOf(rest, watched), FillsIn(l, watched);
      SidesMatch(l, watched);
      SumConcat(BoughtShares, a, b);
      SumConcat(SoldShares, a, b);
      SumConcat(PaidUsdc, a, b);
      SumConcat(ReceivedUsdc, a, b);
    }
  }

  lemma NoFills(watched: set<Address>)
    ensures FillsOf([], watched) == [] && forall v: Fill -> nat :: Sum(v, []) == 0
  {}

  lemma SidesMatch(l: Log, watched: set<Address>)
    requires BothWatched(l, watched)
    ensures Sum(BoughtShares, FillsIn(l, watched)) == Sum(SoldShares, FillsIn(l, watched))
    ensures Sum(PaidUsdc, FillsIn(l, watched)) == Sum(ReceivedUsdc, FillsIn(l, watched))
  {
    if l.event.Some? {
      var of := DecodeLog(l).value;
      FillsMirror(of);
      var m, t := of.FillFor(of.maker).value, of.FillFor(of.taker).value;
      assert FillsIn(l, watched) == [m] + [t];
      SumTwo(BoughtShares, m, t);
      SumTwo(SoldShares, m, t);
      SumTwo(PaidUsdc, m, t);
      SumTwo(ReceivedUsdc, m, t);
    } else {
      NoFills(watched);
    }
  }

  lemma SumTwo(v: Fill -> nat, a: Fill, b: Fill)
    ensures Sum(v, [a] + [b]) == v(a) + v(b)
  {
    SumSnoc(v, [], a);
    SumSnoc(v, [a], b);
    assert [] + [a] == [a];
  }

  /** The fills of permuted logs are permuted. */
  lemma FillsOfPermutation(a: seq<Log>, b: seq<Log>, watched: set<Address>)
    requires multiset(a) == multiset(b)
    ensures multiset(FillsOf(a, watched)) == multiset(FillsOf(b, watched))
  {
    FlatPermutation((l: Log) => FillsIn(l, watched), a, b);
  }

  /** Every fill is a watched wallet's, with the token of the event and the coordinates of its log. */
  lemma FillCoordinates(l: Log, watched: set<Address>, f: Fill)
    requires f in FillsIn(l, watched)
    ensures l.event.Some? && f.wallet in watched && f.tokenId == l.event.value.tokenId
    ensures f.txHash == l.txHash && f.logIndex == l.index && f.blockNumber == l.block
  {}

  lemma UnseenSnoc(logs: seq<Log>, l: Log, watched: set<Address>, seen: map<LogId, nat>)
    ensures Unseen(logs + [l], watched, seen) ==
            if Relevant(l, watched) && Id(l) !in seen then Unseen(logs, watched, seen) + [l]
            else Unseen(logs, watched, seen)
  {
    assert (logs + [l])[..|logs|] == logs;
  }

  function MaxBlock(logs: seq<Log>): (m: nat)
    ensures forall i :: 0 <= i < |logs| ==> logs[i].block <= m
    ensures if logs == [] then m == 0 else exists i :: 0 <= i < |logs| && logs[i].block == m
  {
    if logs == [] then 0
    else
      var m, b := MaxBlock(logs[..|logs| - 1]), logs[|logs| - 1].block;
      if b > m then b else m
  }

  lemma MaxBlockSnoc(logs: seq<Log>, l: Log)
    ensures MaxBlock(logs + [l]) == if l.block > MaxBlock(logs) then l.block else MaxBlock(logs)
  {
    assert (logs + [l])[..|logs|] == logs;
  }

  /** The fills of a decoded log, as the loop body collects them. */
  method CollectFills(l: Log, wset: Set) returns (fills: seq<Fill>)
    requires l.event.Some?
    ensures fills == FillsIn(l, wset.m)
  {
    var of := DecodeLog(l).value;
    fills := [];
    if wset.Has(of.maker) {
      var f := of.FillFor(of.maker);
      if f.Some? {
        fills := fills + [f.value];
      }
    }
    if wset.Has(of.taker) {
      var f := of.FillFor(of.taker);
      if f.Some? {
        fills := fills + [f.value];
      }
    }
  }

  lemma NothingConsumed(watched: set<Address>, seen: map<LogId, nat>)
    ensures Unseen([], watched, seen) == [] && FillsOf([], watched) == [] && MaxBlock([]) == 0
  {}

  /**
   Decodes each log, keeps the watched and unseen ones, and aggregates their fills.
   Nothing is marked seen here: the consumed logs are reported to the caller.
   */
  method ProcessBatch(logs: seq<Log>, wset: Set, seen: Seen)
    returns (trades: seq<Trade>, consumed: seq<Log>, maxBlock: nat)
    ensures consumed == Unseen(logs, wset.m, seen.block)
    ensures trades == Aggregate(FillsOf(consumed, wset.m))
    ensures maxBlock == MaxBlock(logs)
  {
    hide MaxBlock, Unseen, FillsOf, FillsIn, Aggregate;
    NothingConsumed(wset.m, seen.block);
    var fills: seq<Fill> := [];
    consumed := [];
    maxBlock := 0;
    assert logs[..0] == [];
    for i := 0 to |logs|
      invariant consumed == Unseen(logs[..i], wset.m, seen.block)
      invariant fills == FillsOf(consumed, wset.m)
      invariant maxBlock == MaxBlock(logs[..i])
    {
      var l := logs[i];
      UnseenSnoc(logs[..i], l, wset.m, seen.block);
      MaxBlockSnoc(logs[..i], l);
      assert logs[..i + 1] == logs[..i] + [l];
      if l.block > maxBlock {
        maxBlock := l.block;
      }
      var of := DecodeLog(l);
      if of.None? {
        continue;
      }
      if !wset.Has(of.value.maker) && !wset.Has(of.value.taker) {
        continue;
      }
      if seen.Has(l.txHash, l.index) {
        continue;
      }
      FillsOfSnoc(consumed, l, wset.m);
      consumed := consumed + [l];
      var more := CollectFills(l, wset);
      fills := fills + more;
    }
    assert logs[..|logs|] == logs;
    trades := AggregateByTx(fills);
  }
}
