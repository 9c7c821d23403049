/** How the selected pair becomes each exchange's instrument name and the
    connection target or subscribe message that carries it. */
module Instruments {
  import opened Strings
  import opened Threshold

  const BinanceStreamBase: string := "wss://stream.binance.com:9443/ws/"
  const BybitEndpoint: string := "wss://stream.bybit.com/v5/public/spot"
  const CoinbaseEndpoint: string := "wss://ws-feed.exchange.coinbase.com"

  const TradeSuffix: string := "@trade"
  const TopicPrefix: string := "publicTrade."
  const Quote: string := "USDT"
  const DashQuote: string := "-USDT"

  /** `{op, args}` sent to Bybit once its socket opens. */
  datatype BybitSubscription = BybitSubscription(op: string, args: seq<string>)

  /** `{type, product_ids, channels}` sent to Coinbase once its socket opens. */
  datatype CoinbaseSubscription =
    CoinbaseSubscription(kind: string, productIds: seq<string>, channels: seq<string>)

  /** Binance stream name: the lower-cased pair followed by `@trade`. */
  function BinanceStream(pair: string): (r: string)
    ensures |r| == |pair| + |TradeSuffix|
    ensures r[|pair|..] == TradeSuffix
    ensures r[..|pair|] == ToLower(pair)
  {
    ToLower(pair) + TradeSuffix
  }

  /** The Binance socket URL, which names the stream (no subscribe message). */
  function BinanceEndpoint(pair: string): (r: string)
    ensures |r| == |BinanceStreamBase| + |BinanceStream(pair)|
    ensures r[..|BinanceStreamBase|] == BinanceStreamBase
    ensures r[|BinanceStreamBase|..] == BinanceStream(pair)
  {
    BinanceStreamBase + BinanceStream(pair)
  }

  /** Bybit topic: `publicTrade.` followed by the pair as selected. */
  function BybitTopic(pair: string): (r: string)
    ensures |r| == |TopicPrefix| + |pair|
    ensures r[..|TopicPrefix|] == TopicPrefix
    ensures r[|TopicPrefix|..] == pair
  {
    TopicPrefix + pair
  }

  function BybitSubscribe(pair: string): (m: BybitSubscription)
    ensures m.op == "subscribe" && m.args == [BybitTopic(pair)]
  {
    BybitSubscription("subscribe", [BybitTopic(pair)])
  }

  /** Coinbase product id: the first `USDT` of the pair becomes `-USDT`. */
  function CoinbaseProductId(pair: string): (r: string)
    ensures NoOccurrence(pair, Quote) ==> r == pair
    ensures forall j :: IsFirstOccurrence(pair, Quote, j) ==>
              r == pair[..j] + DashQuote + pair[j + |Quote|..]
  {
    ReplaceFirst(pair, Quote, DashQuote)
  }

  function CoinbaseSubscribe(pair: string): (m: CoinbaseSubscription)
    ensures m.kind == "subscribe" && m.channels == ["matches"]
    ensures m.productIds == [CoinbaseProductId(pair)]
  {
    CoinbaseSubscription("subscribe", [CoinbaseProductId(pair)], ["matches"])
  }

  /** Distinct pairs subscribe to distinct Bybit topics. */
  lemma BybitTopicInjective(a: string, b: string)
    requires BybitTopic(a) == BybitTopic(b)
    ensures a == b
  {
  }

  /** `BTCUSDT` lowered. */
  lemma LowerDefaultPair()
    ensures ToLower("BTCUSDT") == "btcusdt"
  {
    var r := ToLower("BTCUSDT");
    assert r[0] == LowerChar('B') == 'b';
    assert r[1] == LowerChar('T') == 't';
    assert r[2] == LowerChar('C') == 'c';
    assert r[3] == LowerChar('U') == 'u';
    assert r[4] == LowerChar('S') == 's';
    assert r[5] == LowerChar('D') == 'd';
    assert r[6] == LowerChar('T') == 't';
  }

  /** Binance stream names ignore letter case: a pair and its lower-cased
      form share one stream. */
  lemma BinanceStreamOfLowered(pair: string)
    ensures BinanceStream(ToLower(pair)) == BinanceStream(pair)
  {
    ToLowerIdempotent(pair);
  }

  /** The instance of the default pair: `BTCUSDT` and `btcusdt` share the
      stream `btcusdt@trade`. */
  lemma BinanceStreamIgnoresCase()
    ensures BinanceStream("BTCUSDT") == BinanceStream("btcusdt") == "btcusdt" + TradeSuffix
  {
    LowerDefaultPair();
    ToLowerIdempotent("BTCUSDT");
  }

  /** A pair quoted in USDT, whose base does not itself contain `USDT`, gets
      the dash before the quote: `BTCUSDT` becomes `BTC-USDT`. */
  lemma {:induction false} CoinbaseProductOfQuoted(base: string)
    requires NoOccurrence(base, Quote)
    ensures CoinbaseProductId(base + Quote) == base + DashQuote
  {
    var s := base + Quote;
    var n := |base|;
    assert s[n..n + 4] == Quote;
    forall k | 0 <= k < n
      ensures !OccursAt(s, Quote, k)
    {
      if k + 4 <= n {
        assert s[k..k + 4] == base[k..k + 4];
        assert !OccursAt(base, Quote, k);
      } else {
        // the window starting at k reaches the quote's leading 'U' at a
        // position where `USDT` itself has 'S', 'D' or 'T'
        var m := n - k;
        assert s[k..k + 4][m] == s[n] == 'U';
        assert Quote[m] != 'U';
      }
    }
    assert IsFirstOccurrence(s, Quote, n);
    assert s[..n] == base && s[n + 4..] == [];
  }

  /** Only the first `USDT` is rewritten. */
  lemma CoinbaseProductFirstOnly()
    ensures CoinbaseProductId("USDTUSDT") == "-USDTUSDT"
  {
    assert IsFirstOccurrence("USDTUSDT", Quote, 0);
  }

  /** A pair without `USDT` is sent unchanged. */
  lemma CoinbaseProductUnquoted()
    ensures CoinbaseProductId("ETHBTC") == "ETHBTC"
  {
    forall j | 0 <= j <= 2
      ensures !OccursAt("ETHBTC", Quote, j)
    {
      assert "ETHBTC"[j..j + 4][0] == "ETHBTC"[j] != 'U';
    }
  }

  /** The Binance socket of the default pair:
      `wss://stream.binance.com:9443/ws/btcusdt@trade`. */
  lemma BinanceDefaultPair()
    ensures BinanceEndpoint("BTCUSDT") == BinanceStreamBase + "btcusdt" + TradeSuffix
  {
    BinanceStreamIgnoresCase();
    assert BinanceStreamBase + ("btcusdt" + TradeSuffix)
        == BinanceStreamBase + "btcusdt" + TradeSuffix;
  }

  /** The Coinbase product of the default pair. */
  lemma CoinbaseDefaultPair()
    ensures CoinbaseSubscribe("BTCUSDT").productIds == ["BTC-USDT"]
  {
    assert forall j :: !OccursAt("BTC", Quote, j);
    CoinbaseProductOfQuoted("BTC");
    assert "BTC" + Quote == "BTCUSDT";
    assert "BTC" + DashQuote == "BTC-USDT";
  }

  /** A string no longer than `USDT` contains it only by being it. */
  lemma ShortNoQuote(base: string)
    requires |base| <= |Quote| && base != Quote
    ensures NoOccurrence(base, Quote)
  {
  }

  /** Every pair the selector offers is `<base>USDT` and reaches Coinbase
      as `<base>-USDT`. */
  lemma TablePairsCoinbaseProducts()
    ensures forall i :: 0 <= i < |Pairs| ==>
              CoinbaseProductId(Pairs[i]) == Pairs[i][..|Pairs[i]| - |Quote|] + DashQuote
  {
    var bases := ["BTC", "ETH", "SOL", "BNB", "XRP", "DOGE", "AVAX", "ADA", "LINK", "TRX"];
    assert "BTC" + Quote == "BTCUSDT";
    assert "ETH" + Quote == "ETHUSDT";
    assert "SOL" + Quote == "SOLUSDT";
    assert "BNB" + Quote == "BNBUSDT";
    assert "XRP" + Quote == "XRPUSDT";
    assert "DOGE" + Quote == "DOGEUSDT";
    assert "AVAX" + Quote == "AVAXUSDT";
    assert "ADA" + Quote == "ADAUSDT";
    assert "LINK" + Quote == "LINKUSDT";
    assert "TRX" + Quote == "TRXUSDT";
    assert Pairs == [bases[0] + Quote, bases[1] + Quote, bases[2] + Quote,
                     bases[3] + Quote, bases[4] + Quote, bases[5] + Quote,
                     bases[6] + Quote, bases[7] + Quote, bases[8] + Quote,
                     bases[9] + Quote];
    forall i | 0 <= i < |Pairs|
      ensures CoinbaseProductId(Pairs[i]) == Pairs[i][..|Pairs[i]| - |Quote|] + DashQuote
    {
      var base := bases[i];
      ShortNoQuote(base);
      CoinbaseProductOfQuoted(base);
      assert Pairs[i][..|Pairs[i]| - |Quote|] == base;
    }
  }
}
