# WhaleTracker Pro trade pipeline, in Dafny

WhaleTracker Pro is a single React component. It opens trade sockets to
Binance, Bybit and Coinbase for one selected pair (`BTCUSDT` at first) and
shows only large trades. This project models the logic inside that
component:

- **Threshold table** (`Threshold`). Ten pairs have a fixed USD cutoff. Any
  other pair gets 2000. The lookup is `thresholdMap[pair] || 2000`.
- **Instrument names** (`Instruments`, on top of `Strings`).
  - Binance: the lower-cased pair plus `@trade`, inside the socket URL.
  - Bybit: the topic `publicTrade.<pair>`, sent in a subscribe message.
  - Coinbase: the pair with its first `USDT` replaced by `-USDT`, sent in a
    subscribe message on the `matches` channel.
- **Message normalisers** (`Normalise`). Each exchange message becomes the
  canonical record `{exchange, side, price, amount, usd, time}` (`Records.Trade`).
  - Binance: one trade per event.
  - Bybit: one trade per element of `data`, or none when `data` is absent.
  - Coinbase: one trade per `match` message, nothing for any other type.
- **Gate and rolling log** (`TradeLog` as values, `Tracker.WhaleTracker` as
  state).
  - `processTrade` drops a trade whose `usd` is strictly below the cutoff of
    the selected pair.
  - Otherwise it puts the trade at the head of the log, stamped with a clock
    reading as its `id`, and keeps `prev.slice(0, 50)` behind it. The log
    therefore never holds more than 51 entries.

Clock readings (`Date.now()`) are parameters: `now` is the entry id, and
`receivedAt` is the Coinbase trade time. Messages arrive already decoded:
every numeric field is a number (`real` for prices, sizes and notional
values, `int` for times).

What the code does not have, and so the model does not either:
- The cutoff is a fixed table; nothing computes it from market volume.
- There is no deduplication, whale tier, cross-exchange correlation,
  reconnection or OKX feed.
- The log keeps at most 51 entries.
- The Bybit trade time is read from the element's `TS` field.

## Model

| member | source | states |
|---|---|---|
| Threshold.GetThreshold | src/App.js:25-38 | each listed pair gets its table value even though a zero entry would fall back to the default (no entry is zero); any other pair gets 2000; every cutoff lies between 500 and 15000 |
| Threshold.PairsAreTableKeys | src/App.js:179-183 | the selector lists exactly the table's pairs, each once |
| Threshold.ThresholdExamples | src/App.js:25-38 | BTCUSDT gets 15000, DOGEUSDT and TRXUSDT get 500; an unlisted pair, or a listed one in lower case, gets 2000 |
| Strings.ToLower | src/App.js:57 | `toLowerCase` keeps the length, lowers each ASCII capital and leaves no capital behind |
| Strings.ToLowerIdempotent | src/App.js:57 | lowering an already lowered pair changes nothing |
| Strings.IndexOf | src/App.js:110 | the index found is the first occurrence of the pattern; no index means the pattern occurs nowhere |
| Strings.ReplaceFirst | src/App.js:110 | `replace` with a string pattern rewrites only the first occurrence, and leaves a string without the pattern unchanged |
| Instruments.BinanceStream | src/App.js:57-61 | the stream name is the lower-cased pair followed by `@trade` |
| Instruments.BinanceEndpoint | src/App.js:60-62 | the socket URL is the fixed Binance base followed by the stream name |
| Instruments.LowerDefaultPair | src/App.js:57 | the default pair `BTCUSDT` lowers to `btcusdt` |
| Instruments.BinanceStreamOfLowered | src/App.js:57-61 | every pair shares its Binance stream with its lower-cased form |
| Instruments.BinanceStreamIgnoresCase | src/App.js:57-61 | `BTCUSDT` and `btcusdt` share the stream `btcusdt@trade` |
| Instruments.BinanceDefaultPair | src/App.js:60-62 | the default pair opens `wss://stream.binance.com:9443/ws/btcusdt@trade` |
| Instruments.BybitTopic | src/App.js:83 | the topic is `publicTrade.` followed by the pair unchanged |
| Instruments.BybitSubscribe | src/App.js:80-85 | the subscribe message is `op: "subscribe"` with that single topic |
| Instruments.BybitTopicInjective | src/App.js:83 | distinct pairs subscribe to distinct topics |
| Instruments.CoinbaseProductId | src/App.js:110 | the product id is the pair with its first `USDT` replaced by `-USDT`, or the pair itself when it has no `USDT` |
| Instruments.CoinbaseSubscribe | src/App.js:107-113 | the subscribe message is `type: "subscribe"` on channel `matches` with that single product id |
| Instruments.CoinbaseProductOfQuoted | src/App.js:110 | a pair `<base>USDT` whose base has no `USDT` becomes `<base>-USDT` |
| Instruments.CoinbaseProductFirstOnly | src/App.js:110 | `USDTUSDT` becomes `-USDTUSDT`; only the first occurrence is rewritten |
| Instruments.CoinbaseProductUnquoted | src/App.js:110 | a pair without `USDT` (`ETHBTC`) is sent unchanged |
| Instruments.CoinbaseDefaultPair | src/App.js:110 | the default pair subscribes to `BTC-USDT` |
| Instruments.ShortNoQuote | src/App.js:110 | a string of at most four characters other than `USDT` does not contain `USDT` |
| Instruments.TablePairsCoinbaseProducts | src/App.js:110 | every selectable pair reaches Coinbase as `<base>-USDT` |
| Normalise.FromBinance | src/App.js:64-73 | tag `BINANCE`; side `SELL` exactly when the buyer is the maker, else `BUY`; price, amount and time copied; usd is price times amount |
| Normalise.FromBybitTrade | src/App.js:91-99 | tag `BYBIT`; side copied verbatim; price, amount and time copied; usd is price times amount |
| Normalise.FromBybitTrades | src/App.js:91-100 | one trade per batch element, in batch order |
| Normalise.FromBybit | src/App.js:88-101 | no trades without `data`; otherwise one per element, each tagged `BYBIT` with usd equal to price times amount |
| Normalise.FromCoinbase | src/App.js:116-128 | a trade exactly for type `match`; tag `COINBASE`; side `BUY` iff the feed side is `buy`, else `SELL`; time is the supplied clock value; usd is price times amount |
| Normalise.CanonicalSides | src/App.js:68 | Binance and Coinbase trades only ever carry `BUY` or `SELL` |
| Normalise.CoinbaseSideIsCaseSensitive | src/App.js:122 | a feed side `Buy` is recorded as `SELL` |
| TradeLog.Take | src/App.js:153 | `slice(0, n)` keeps the first n elements, or all of a shorter list |
| TradeLog.Admits | src/App.js:142-143 | a trade passes exactly when its usd is not below the selected pair's cutoff; a trade at the cutoff passes |
| TradeLog.Prepend | src/App.js:148-154 | the new entry is element 0, followed by the first min(50, old length) old entries in order; at most 51 entries |
| TradeLog.PrependIsTake | src/App.js:148-154 | head insertion equals the new entry in front of the whole old log, cut to 51 |
| TradeLog.Step | src/App.js:141-155 | a trade below the cutoff leaves the log unchanged; one at or above it is inserted at the head; the bound of 51 is kept |
| TradeLog.GateBoundary | src/App.js:142-143 | for BTCUSDT a 15000 trade is inserted and a 14999.5 trade is dropped |
| TradeLog.StepAll | src/App.js:91-100 | the log after `processTrade` runs on each trade in order: within 51 entries whenever the old log was, and unchanged when no trade passes the gate |
| TradeLog.NewestFirst | src/App.js:91-100 | the entries a batch adds are exactly its admitted trades, stamped with the clock reading; when all pass, they stand in reverse batch order |
| TradeLog.TakeOfTake | src/App.js:153 | cutting the old log before a prepend and cutting again after it is the same as cutting once |
| TradeLog.StepAllIsTake | src/App.js:91-100 | a run of `processTrade` calls leaves the admitted trades, newest first, in front of the old log, cut to 51 |
| TradeLog.LogAfterBatchOnly | src/App.js:141-155 | after a batch the log holds only old entries and admitted trades of the batch, stamped with the clock reading |
| TradeLog.LogAfterBatchAll | src/App.js:141-155 | when a batch admits at most 51 trades, every admitted trade is in the log afterwards |
| Tracker.WhaleTracker.constructor | src/App.js:12-13 | a new tracker follows `BTCUSDT` with an empty log |
| Tracker.WhaleTracker.SelectPair | src/App.js:169 | selecting a pair changes only the pair; the log is kept |
| Tracker.WhaleTracker.ProcessTrade | src/App.js:141-155 | below the cutoff of the selected pair the log is unchanged; otherwise the new log is the stamped trade followed by the first min(50, old length) old entries |
| Tracker.WhaleTracker.OnBinanceMessage | src/App.js:64-74 | the Binance handler performs one gated insertion of the normalised trade |
| Tracker.WhaleTracker.OnBybitMessage | src/App.js:88-101 | the Bybit handler leaves the log unchanged without `data`; otherwise it runs the gate over each element in order, with the closed form of `StepAllIsTake` |
| Tracker.WhaleTracker.OnCoinbaseMessage | src/App.js:116-129 | the Coinbase handler ignores non-`match` messages and performs one gated insertion otherwise |

## Left out

- Sockets: opening them, the `onopen` subscribe sends, and `close` in the effect cleanup (src/App.js:56-136). These are network I/O and callback lifecycle. The subscribe message contents are modelled; the JSON text they are serialised to is not.
- Audio: unlocking and playback (src/App.js:43-51, 145-146). These are browser side effects.
- Rendering and styling (src/App.js:160-205). Only the state change made by the pair selector is modelled (`SelectPair`).
- `JSON.parse` and `Number(...)` conversions. Messages are modelled as already-decoded records. A field that is missing or not numeric would give `undefined` or `NaN` in JavaScript.
- IEEE doubles. Prices, sizes and notional values are exact reals. In the source a `NaN` notional passes the gate, because `NaN < th` is false; the model has no such value.
- `Strings.ToLower`: lowers ASCII letters only. JavaScript's `toLowerCase` also lowers non-ASCII letters; the selectable pairs are ASCII.
- `Threshold.GetThreshold`: covers only the table's own keys. In JavaScript a name such as `constructor` would read an inherited property of the object instead of falling back to 2000; the selector never offers such a name.
- `Normalise.FromBybit`: `data` is either absent or an array. Present-but-falsy values (`null`, `0`, `""`) behave like an absent one in the source. A non-array `data` would throw in `forEach`; that case is not modelled.
- `Tracker.WhaleTracker.OnBybitMessage`: stamps every entry of one message with the same clock reading `now`. The source reads `Date.now()` once per admitted element, and those readings may differ.
- Entry ids: `id` is a clock reading. Nothing makes ids unique, and no uniqueness is claimed.
- React scheduling: `setTrades` runs its functional updates in call order. The model applies them at once, one per `processTrade` call. A message delivered to a socket after the pair changed but before that socket closed would still be gated with the old pair; this is not modelled.
