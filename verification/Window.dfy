/**
 The consensus window: recent trade events per (token, side), the distinct-wallet cohort,
 and the high-water fire policy. Sides, tokens and wallets are the normalized texts; a
 wallet is a number, ordered as its fixed-width hex text is. Times are nanoseconds.
 */
module Window {
  import opened Effects
  import opened Seqs
  import opened Sorted

  const NANOS: nat := 1_000_000_000

  /** Seconds of an instant, rounded down. */
  function Unix(nanos: int): int { nanos / NANOS }

  datatype Key = Key(token: string, side: string)

  /** A detected trade; size and price are None when their text does not parse. */
  datatype Trade = Trade(key: Key, wallet: nat, size: Option<real>, price: Option<real>)

  datatype Row = Row(key: Key, wallet: nat, usdc: real, at: int)

  datatype Cohort = Cohort(wallets: seq<nat>, combinedUsd: real)

  datatype Config = Config(window: nat, minWallets: int)

  /** The two tables. */
  datatype Tables = Tables(events: seq<Row>, fired: map<Key, nat>)

  const EMPTY := Tables([], map[])

  function UsdcValue(size: Option<real>, price: Option<real>): real
  {
    if size.None? || price.None? then 0.0 else size.value * price.value
  }

  function RowOf(tr: Trade, now: int): Row
  {
    Row(tr.key, tr.wallet, UsdcValue(tr.size, tr.price), Unix(now))
  }

  function Cutoff(cfg: Config, now: int): int { Unix(now - cfg.window) }

  function Since(rows: seq<Row>, cutoff: int): seq<Row>
  {
    Filter((r: Row) => r.at >= cutoff, rows)
  }

  function OfKey(rows: seq<Row>, k: Key): seq<Row>
  {
    Filter((r: Row) => r.key == k, rows)
  }

  function WalletOf(r: Row): nat { r.wallet }
  function UsdOf(r: Row): real { r.usdc }

  /** The distinct wallets and the summed value of a key's rows. */
  function CohortOf(group: seq<Row>): Cohort
  {
    Cohort(SortNats(Map(WalletOf, group)), RealSum(UsdOf, group))
  }

  /** Fired rows whose key still has an event. */
  function Reaped(fired: map<Key, nat>, events: seq<Row>): map<Key, nat>
  {
    map k | k in fired && OfKey(events, k) != [] :: fired[k]
  }

  function High(fired: map<Key, nat>, k: Key): nat { if k in fired then fired[k] else 0 }

  /** The high-water policy: the fired table after a cohort of `count`, and whether it fires. */
  function Decide(cfg: Config, fired: map<Key, nat>, k: Key, count: nat): (map<Key, nat>, bool)
  {
    if count < cfg.minWallets then (if High(fired, k) != 0 then fired - {k} else fired, false)
    else if count > High(fired, k) then (fired[k := count], true)
    else (fired, false)
  }

  datatype Answer = Answer(cohort: Cohort, fire: bool)

  /** One committed Record transaction. */
  function Record(cfg: Config, t: Tables, tr: Trade, now: int): (Tables, Answer)
  {
    var cutoff := Cutoff(cfg, now);
    var events := Since(t.events + [RowOf(tr, now)], cutoff);
    var c := CohortOf(Since(OfKey(events, tr.key), cutoff));
    var (fired, fire) := Decide(cfg, Reaped(t.fired, events), tr.key, |c.wallets|);
    (Tables(events, fired), Answer(c, fire))
  }

  // ---- The store ----

  /** One line of SELECT wallet, SUM(usdc) … GROUP BY wallet. */
  datatype GroupLine = GroupLine(wallet: nat, usd: real)

  function LineUsd(g: GroupLine): real { g.usd }
  function LineWallet(g: GroupLine): nat { g.wallet }

  /** The query's lines, in order of first appearance (the source sorts them afterwards). */
  function GroupByWallet(rows: seq<Row>): seq<GroupLine>
  {
    if rows == [] then []
    else AddToLine(GroupByWallet(rows[..|rows| - 1]), rows[|rows| - 1].wallet, rows[|rows| - 1].usdc)
  }

  function AddToLine(lines: seq<GroupLine>, w: nat, usd: real): seq<GroupLine>
  {
    if lines == [] then [GroupLine(w, usd)]
    else if lines[|lines| - 1].wallet == w
    then lines[..|lines| - 1] + [GroupLine(w, lines[|lines| - 1].usd + usd)]
    else AddToLine(lines[..|lines| - 1], w, usd) + [lines[|lines| - 1]]
  }

  lemma {:induction false} AddToLineEffect(lines: seq<GroupLine>, w: nat, usd: real)
    ensures RealSum(LineUsd, AddToLine(lines, w, usd)) == RealSum(LineUsd, lines) + usd
    ensures forall x :: x in Map(LineWallet, AddToLine(lines, w, usd)) <==> x in Map(LineWallet, lines) || x == w
  {
    var t := AddToLine(lines, w, usd);
    if lines == [] {
      assert [GroupLine(w, usd)][..0] == [];
      assert Map(LineWallet, t) == [w];
    } else {
      var rest, last := lines[..|lines| - 1], lines[|lines| - 1];
      assert lines == rest + [last];
      assert Map(LineWallet, lines) == Map(LineWallet, rest) + [last.wallet];
      if last.wallet == w {
        RealSumSnoc(LineUsd, rest, GroupLine(w, last.usd + usd));
        assert Map(LineWallet, t) == Map(LineWallet, rest) + [w];
      } else {
        AddToLineEffect(rest, w, usd);
        RealSumSnoc(LineUsd, AddToLine(rest, w, usd), last);
        assert Map(LineWallet, t) == Map(LineWallet, AddToLine(rest, w, usd)) + [last.wallet];
      }
    }
  }

  /** Grouping keeps the wallets and the total. */
  lemma {:induction false} GroupByWalletEffect(rows: seq<Row>)
    ensures RealSum(LineUsd, GroupByWallet(rows)) == RealSum(UsdOf, rows)
    ensures forall x :: x in Map(LineWallet, GroupByWallet(rows)) <==> x in Map(WalletOf, rows)
  {
    if rows != [] {
      var rest, last := rows[..|rows| - 1], rows[|rows| - 1];
      GroupByWalletEffect(rest);
      AddToLineEffect(GroupByWallet(rest), last.wallet, last.usdc);
      assert rows == rest + [last];
      assert Map(WalletOf, rows) == Map(WalletOf, rest) + [last.wallet];
    }
  }

  /** The sorted wallets and the sum over the lines are those of the rows. */
  lemma LinesGiveCohort(group: seq<Row>)
    ensures var lines := GroupByWallet(group);
            Cohort(SortNats(Map(LineWallet, lines)), RealSum(LineUsd, lines)) == CohortOf(group)
  {
    hide GroupByWallet, RealSum;
    GroupByWalletEffect(group);
    IncreasingUnique(SortNats(Map(LineWallet, GroupByWallet(group))), SortNats(Map(WalletOf, group)));
  }

  lemma NothingSummed()
    ensures RealSum(LineUsd, []) == 0.0
  {}

  class Store {
    const cfg: Config
    var tradeEvents: seq<Row>
    var fired: map<Key, nat>

    function Contents(): Tables
      reads this
    {
      Tables(tradeEvents, fired)
    }

    constructor (cfg: Config)
      ensures this.cfg == cfg && Contents() == EMPTY
    {
      this.cfg := cfg;
      tradeEvents := [];
      fired := map[];
    }

    /** Reads the cohort off the grouped query. */
    method ReadCohort(group: seq<Row>) returns (c: Cohort)
      ensures c == CohortOf(group)
    {
      hide GroupByWallet, SortNats, RealSum, CohortOf;
      var lines := GroupByWallet(group);
      LinesGiveCohort(group);
      NothingSummed();
      var wallets: seq<nat> := [];
      var usd := 0.0;
      for i := 0 to |lines|
        invariant wallets == Map(LineWallet, lines[..i])
        invariant usd == RealSum(LineUsd, lines[..i])
      {
        assert lines[..i + 1] == lines[..i] + [lines[i]];
        RealSumSnoc(LineUsd, lines[..i], lines[i]);
        wallets := wallets + [lines[i].wallet];
        usd := usd + lines[i].usd;
      }
      assert lines[..|lines|] == lines;
      c := Cohort(SortNats(wallets), usd);
    }

    method DecideFire(k: Key, count: nat) returns (fire: bool)
      modifies this
      ensures (fired, fire) == Decide(cfg, old(fired), k, count)
      ensures tradeEvents == old(tradeEvents)
    {
      var prev := if k in fired then fired[k] else 0;
      if count < cfg.minWallets {
        if prev != 0 {
          fired := fired - {k};
        }
        return false;
      }
      if count > prev {
        fired := fired[k := count];
        return true;
      }
      return false;
    }

    /** Inserts the event, prunes, reaps, reads the cohort and decides, all in one transaction. */
    method RecordTrade(tr: Trade, now: int, how: Outcome) returns (a: Option<Answer>)
      modifies this
      ensures Contents() == if how == Failed then old(Contents()) else Record(cfg, old(Contents()), tr, now).0
      ensures a == if how == Done then Some(Record(cfg, old(Contents()), tr, now).1) else None
    {
      hide Since, OfKey, CohortOf, Reaped;
      var before := Contents();
      var cutoff := Cutoff(cfg, now);
      tradeEvents := tradeEvents + [RowOf(tr, now)];
      tradeEvents := Since(tradeEvents, cutoff);
      fired := Reaped(fired, tradeEvents);
      var c := ReadCohort(Since(OfKey(tradeEvents, tr.key), cutoff));
      var fire := DecideFire(tr.key, |c.wallets|);
      if how == Failed {
        tradeEvents, fired := before.events, before.fired;
      }
      a := if how == Done then Some(Answer(c, fire)) else None;
    }
  }
}
