/** The three per-exchange mappings from an already decoded socket message
    to canonical trades. Numeric fields arrive as numbers (the decoding of
    the JSON text and of numeric strings is outside the model). */
module Normalise {
  import opened Records

  /** A Binance `trade` event: `m` (buyer is maker), `p`, `q` and `T`. */
  datatype BinanceMessage = BinanceMessage(
    buyerIsMaker: bool,
    price: real,
    quantity: real,
    tradeTime: int)

  /** One element of a Bybit `publicTrade` batch: `S`, `p`, `v` and `TS`. */
  datatype BybitTrade = BybitTrade(
    side: string,
    price: real,
    size: real,
    timestamp: int)

  /** A Bybit message; subscription acknowledgements and other frames carry
      no `data` array. */
  datatype BybitMessage = BybitMessage(data: Option<seq<BybitTrade>>)

  /** A Coinbase feed message: `type`, and for a `match` its `side`, `price`
      and `size`. */
  datatype CoinbaseMessage = CoinbaseMessage(
    kind: string,
    side: string,
    price: real,
    size: real)

  /** A Binance event as a trade: a maker buyer means the aggressor sold. */
  function FromBinance(d: BinanceMessage): (t: Trade)
    ensures t.exchange == BinanceTag
    ensures t.side == Sell <==> d.buyerIsMaker
    ensures t.side == Buy <==> !d.buyerIsMaker
    ensures t.price == d.price && t.amount == d.quantity && t.time == d.tradeTime
    ensures NotionalConsistent(t)
  {
    Trade(BinanceTag, if d.buyerIsMaker then Sell else Buy,
          d.price, d.quantity, d.price * d.quantity, d.tradeTime)
  }

  /** One Bybit batch element as a trade; the side string is kept as sent. */
  function FromBybitTrade(e: BybitTrade): (t: Trade)
    ensures t.exchange == BybitTag && t.side == e.side
    ensures t.price == e.price && t.amount == e.size && t.time == e.timestamp
    ensures NotionalConsistent(t)
  {
    Trade(BybitTag, e.side, e.price, e.size, e.price * e.size, e.timestamp)
  }

  /** The trades of a Bybit batch, one per element, in batch order. */
  function FromBybitTrades(es: seq<BybitTrade>): (ts: seq<Trade>)
    ensures |ts| == |es|
    ensures forall i :: 0 <= i < |es| ==> ts[i] == FromBybitTrade(es[i])
  {
    if es == [] then [] else [FromBybitTrade(es[0])] + FromBybitTrades(es[1..])
  }

  /** A Bybit message as trades: none without `data`, else its batch. */
  function FromBybit(msg: BybitMessage): (ts: seq<Trade>)
    ensures msg.data.None? ==> ts == []
    ensures msg.data.Some? ==> |ts| == |msg.data.value|
    ensures forall i :: 0 <= i < |ts| ==>
              msg.data.Some? && ts[i] == FromBybitTrade(msg.data.value[i])
    ensures forall i :: 0 <= i < |ts| ==>
              ts[i].exchange == BybitTag && NotionalConsistent(ts[i])
  {
    match msg.data
    case None => []
    case Some(es) => FromBybitTrades(es)
  }

  /** A Coinbase `match` as a trade stamped with the local clock reading
      `receivedAt`; any other message type yields nothing. */
  function FromCoinbase(d: CoinbaseMessage, receivedAt: int): (r: Option<Trade>)
    ensures r.Some? <==> d.kind == "match"
    ensures r.Some? ==> r.value.exchange == CoinbaseTag
    ensures r.Some? ==> (r.value.side == Buy <==> d.side == "buy")
    ensures r.Some? ==> (r.value.side == Sell <==> d.side != "buy")
    ensures r.Some? ==> r.value.price == d.price && r.value.amount == d.size
    ensures r.Some? ==> r.value.time == receivedAt
    ensures r.Some? ==> NotionalConsistent(r.value)
  {
    if d.kind == "match" then
      var usd := d.size * d.price;
      Some(Trade(CoinbaseTag, if d.side == "buy" then Buy else Sell,
                 d.price, d.size, usd, receivedAt))
    else
      None
  }

  /** Binance and Coinbase only ever produce the two canonical sides. */
  lemma CanonicalSides(b: BinanceMessage, c: CoinbaseMessage, receivedAt: int)
    ensures FromBinance(b).side in {Buy, Sell}
    ensures FromCoinbase(c, receivedAt).Some? ==>
              FromCoinbase(c, receivedAt).value.side in {Buy, Sell}
  {
  }

  /** Coinbase side matching is exact: `"BUY"` or `"Buy"` from the feed
      counts as a sale. */
  lemma CoinbaseSideIsCaseSensitive(receivedAt: int)
    ensures FromCoinbase(CoinbaseMessage("match", "Buy", 1.0, 1.0), receivedAt).value.side == Sell
  {
  }
}
