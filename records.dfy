/** The canonical trade record every exchange message is normalised into,
    and the log entry the tracker keeps for each admitted trade. */
module Records {

  /** `null`-free stand-in for a field that a decoded message may lack. */
  datatype Option<+T> = None | Some(value: T)

  /** Exchange tags written into the `exchange` field. */
  const BinanceTag: string := "BINANCE"
  const BybitTag: string := "BYBIT"
  const CoinbaseTag: string := "COINBASE"

  /** Canonical side strings produced by the Binance and Coinbase mappings
      (the Bybit mapping copies the exchange's own side string). */
  const Buy: string := "BUY"
  const Sell: string := "SELL"

  /** `{exchange, side, price, amount, usd, time}`: one normalised trade. */
  datatype Trade = Trade(
    exchange: string,
    side: string,
    price: real,
    amount: real,
    usd: real,
    time: int)

  /** A trade once admitted to the log: the trade's fields plus the clock
      reading taken as its `id`. */
  datatype Entry = Entry(id: int, trade: Trade)

  /** The notional value of a trade is its price times its amount. */
  predicate NotionalConsistent(t: Trade)
  {
    t.usd == t.price * t.amount
  }
}
