/** The tracker's state: the selected pair and the trade log that the
    socket handlers feed through `processTrade`. */
module Tracker {
  import opened Records
  import opened Threshold
  import opened Normalise
  import opened TradeLog

  class WhaleTracker {
    /** The selected pair; it picks the cutoff and the instruments. */
    var pair: string
    /** The log, newest entry first. */
    var trades: seq<Entry>

    ghost predicate Valid()
      reads this
    {
      |trades| <= MaxLog
    }

    /** A fresh tracker follows `BTCUSDT` with an empty log. */
    constructor ()
      ensures Valid()
      ensures pair == "BTCUSDT" && trades == []
    {
      pair := "BTCUSDT";
      trades := [];
    }

    /** Choosing another pair changes the cutoff for later trades; the log is
        kept as it is. */
    method SelectPair(p: string)
      requires Valid()
      modifies this`pair
      ensures Valid()
      ensures pair == p && trades == old(trades)
    {
      pair := p;
    }

    /** `processTrade`: drop a trade below the cutoff of the selected pair,
        otherwise put it, stamped with `now`, at the head of the log and keep
        at most `Kept` older entries behind it. */
    method ProcessTrade(t: Trade, now: int)
      requires Valid()
      modifies this`trades
      ensures Valid()
      ensures t.usd < GetThreshold(pair) ==> trades == old(trades)
      ensures GetThreshold(pair) <= t.usd ==>
                |trades| == 1 + (if |old(trades)| <= Kept then |old(trades)| else Kept) &&
                trades[0] == Entry(now, t) &&
                trades[1..] == old(trades)[..|trades| - 1]
      ensures trades == Step(pair, old(trades), t, now)
    {
      var th := GetThreshold(pair);
      if t.usd < th {
        return;
      }
      var kept := if |trades| <= Kept then trades else trades[..Kept];
      trades := [Entry(now, t)] + kept;
    }

    /** The Binance handler: one trade per message. */
    method OnBinanceMessage(d: BinanceMessage, now: int)
      requires Valid()
      modifies this`trades
      ensures Valid()
      ensures trades == Step(pair, old(trades), FromBinance(d), now)
    {
      ProcessTrade(FromBinance(d), now);
    }

    /** The Bybit handler: nothing for a message without `data`, otherwise
        `processTrade` on each element in order. */
    method OnBybitMessage(msg: BybitMessage, now: int)
      requires Valid()
      modifies this`trades
      ensures Valid()
      ensures trades == StepAll(pair, old(trades), FromBybit(msg), now)
      ensures trades == Take(MaxLog, NewestFirst(pair, FromBybit(msg), now) + old(trades))
    {
      StepAllIsTake(pair, trades, FromBybit(msg), now);
      if msg.data.None? {
        return;
      }
      var data := msg.data.value;
      var i := 0;
      while i < |data|
        invariant 0 <= i <= |data|
        invariant Valid()
        invariant StepAll(pair, trades, FromBybitTrades(data[i..]), now)
               == StepAll(pair, old(trades), FromBybit(msg), now)
      {
        assert FromBybitTrades(data[i..])[1..] == FromBybitTrades(data[i + 1..]);
        ProcessTrade(FromBybitTrade(data[i]), now);
        i := i + 1;
      }
      assert data[i..] == [];
    }

    /** The Coinbase handler: a `match` becomes a trade whose time is the
        clock reading `receivedAt`, and the entry id is the later reading
        `now`; other messages are ignored. */
    method OnCoinbaseMessage(d: CoinbaseMessage, receivedAt: int, now: int)
      requires Valid()
      modifies this`trades
      ensures Valid()
      ensures d.kind != "match" ==> trades == old(trades)
      ensures d.kind == "match" ==>
                trades == Step(pair, old(trades), FromCoinbase(d, receivedAt).value, now)
    {
      var r := FromCoinbase(d, receivedAt);
      if r.Some? {
        ProcessTrade(r.value, now);
      }
    }
  }
}
