# barter-data value model in Dafny

This project models the value layer of barter-data's `src/model.rs`. That layer holds
the types a caller uses to say what market data to stream and the envelope in which
normalised data comes back:

- `StreamKind` (trades, candles and klines of an interval, order-book deltas, order books)
  and its canonical rendering, which prefixes the rendering of a `Subscription`;
- the string newtypes `Interval`, `SubscriptionId` and `StreamId`, with their `From`,
  `new`, `Display`, `Debug`, `AsRef`, `Deref` and custom `Deserialize` impls;
- `Subscription`, an (instrument, stream kind) pair, with its three constructors and
  its rendering;
- `StreamMeta` (a per-stream sequence counter), `MarketEvent`, `MarketData`, `Trade`,
  `Direction` and `SubscriptionMeta`;
- the derived `Eq`/`Ord` impls, modelled because the types derive them. The `HashMap`
  of subscription ids (`SubscriptionIds`, a Dafny `map` here) depends on `Eq` and on
  `Hash`, which is not modelled.

Files:

- `ordering.dfy` (module `Ord`) holds Rust's `Ordering`, `Ordering::then` and the
  lexicographic order on `str`. It also proves that this order is a total order in
  the sense of `Ord`.
- `model.dfy` (module `Model`) holds the model of `src/model.rs`.

The file's only behaviour is construction, rendering and comparison, so it is modelled
as datatypes, total functions and lemmas. Types from other crates are abstract types:
`Instrument`, `Symbol`, `InstrumentKind`, `WsMessage`, `DateTime<Utc>` and `f64`. The
operations on them that `model.rs` calls are passed in as function parameters:

- the instrument's rendering;
- `Instrument::from((base, quote, kind))`;
- the caller's `Into<Instrument>`;
- the instrument's `Ord`.

`Sequence` is a newtype over the naturals.

The doc comment of `Interval` (src/model.rs:203-205) presents it as a time-interval token
such as "1m" or "1h", but `From` and `new` (src/model.rs:233-249) check nothing: every
string, including the empty one, is wrapped verbatim. The model follows the code, and
`IntervalRoundTrip` holds for all strings.

## Model

| member | source | states |
|---|---|---|
| `Model.IntervalRoundTrip` | src/model.rs:215-249 | For every string `s`, the empty one included, `Interval::new(s)` equals `Interval::from(s)`. `Display`, `Debug` and `as_ref` of it all give back `s`, and deserialising `Ok(s)` yields `Ok(Interval::new(s))`: no validation, no normalisation. |
| `Model.IntervalRecovered` | src/model.rs:207-240 | Every interval is rebuilt exactly from its rendering. `as_ref`, `Display` and `Debug` agree. |
| `Model.DeserializeIntervalError` | src/model.rs:227-231 | The custom deserialiser fails exactly when reading the string fails, and it passes on that same error. |
| `Model.IntervalCmpTotal` | src/model.rs:206-207 | Intervals are equal exactly when their strings are. Derived `Ord` compares them as their strings, and it is a total order. |
| `Model.StreamKindDisplayExact` | src/model.rs:125-136 | The exact tokens: `trades`, `candles_` + interval, `klines_` + interval, `order_book_deltas`, `order_books`. The interval text is inserted verbatim. |
| `Model.StreamKindDisplayInjective` | src/model.rs:127-133 | Two stream kinds render to the same token if and only if they are equal. |
| `Model.StreamKindDeclarationOrder` | src/model.rs:115-123 | Trades < Candles(_) < Klines(_) < OrderBookDeltas < OrderBooks. Two candles, or two klines, compare by their interval strings. |
| `Model.StreamKindCmpTotal` | src/model.rs:115-123 | The derived order on stream kinds is a total order: `Equal` exactly on equal kinds, antisymmetric and transitive. |
| `Model.DirectionOrder` | src/model.rs:51-55 | Buy < Sell, and the derived order on directions is total. |
| `Model.SubscriptionConstructorsAgree` | src/model.rs:77-111 | `Subscription::new(i, k)`, `From((i, k))` and `From((base, quote, instrument_kind, k))` build the same structural value. That value holds the converted instrument and `k`. |
| `Model.SubscriptionRendering` | src/model.rs:65-75 | `Display` equals `Debug`. It is the kind's token immediately followed by the instrument's rendering, with no separator. |
| `Model.SubscriptionDebugSameInstrument` | src/model.rs:65-69 | For subscriptions on one instrument, the renderings are equal if and only if the subscriptions are. |
| `Model.SubscriptionDebugAmbiguous` | src/model.rs:65-69 | Without a separator, two distinct subscriptions on different instruments can render to the same text. Example: a `1m` candle stream on an instrument shown as `x`, and a `1` candle stream on one shown as `mx`. |
| `Model.SubscriptionCmpOrder` | src/model.rs:59-63 | Given a total order on instruments, subscriptions compare by instrument first. Only on the same instrument does the stream kind decide. |
| `Model.SubscriptionCmpTotal` | src/model.rs:59-63 | The derived order on subscriptions is a total order whenever the instruments' order is. |
| `Model.SubscriptionIdRoundTrip` | src/model.rs:170-201 | `SubscriptionId::from(s)` gives back `s` through `Display`, `Debug` and `as_ref`. Deserialising `Ok(s)` wraps `s` unchanged. |
| `Model.SubscriptionIdRecovered` | src/model.rs:167-201 | Every id is rebuilt exactly from its rendering. Its renderings agree. |
| `Model.DeserializeSubscriptionIdError` | src/model.rs:188-192 | Id deserialisation fails exactly when reading the string fails, with the same error. |
| `Model.SubscriptionIdCmpTotal` | src/model.rs:167-168 | Two ids are equal exactly when their strings are equal. They are ordered as their strings, and that order is total. |
| `Model.StreamMetaNew` | src/model.rs:259-266 | A new stream meta has sequence 0 and holds the given subscription. |
| `Model.StreamMetaNewInitial` | src/model.rs:253-266 | Distinct subscriptions give distinct initial metas. Under the derived `Ord` (sequence first, then subscription), the initial meta is less than or equal to every meta of its subscription, and equal only to itself, given a total order on instruments. |
| `Model.StreamIdRoundTrip` | src/model.rs:273-311 | `StreamId::from(s)` gives back `s` through `Display`, `Debug`, `as_ref` and `Deref`. Deserialising `Ok(s)` wraps `s` unchanged. |
| `Model.StreamIdRecovered` | src/model.rs:270-311 | Every stream id is rebuilt exactly from its rendering. Its four renderings agree. |
| `Model.DeserializeStreamIdError` | src/model.rs:299-303 | Stream-id deserialisation fails exactly when reading the string fails, with the same error. |
| `Model.StreamIdCmpTotal` | src/model.rs:270-271 | Stream ids are equal exactly when their strings are, and they are totally ordered as their strings. |
| `Model.MarketEventNew` | src/model.rs:19-25 | `MarketEvent::new(sequence, data)` stores both arguments unchanged. |
| `Model.MarketEventNewBijective` | src/model.rs:13-25 | Every event is `new` applied to its own fields. `new` is injective. |

## Left out

- `src/exchange/binance/spot/mod.rs` is left out. It holds only websocket URL constants, `ExchangeServer` impls returning them, and type-level stream-selector wiring.
- The order-book updater (`BinanceSpotBookUpdater`) and the multi-book transformer are left out: their modules (`l2`, `transformer::book`) are not part of this model. This also covers snapshot/delta gap detection, resync and the sequence increment per emitted event.
- `barter_integration` types (`Instrument`, `Symbol`, `InstrumentKind`, `WsMessage`) are abstract or parameters: their source is not part of this model. This covers the instrument's rendering, its `From` on a triple, `Into<Instrument>` and its `Ord`.
- `Trade.price`, `Trade.quantity` (`f64`) and the two `DateTime<Utc>` timestamps are abstract fields. Floating point and the time type are foreign.
- The derived `Debug` impls of `MarketEvent`, `MarketData`, `Trade`, `Direction`, `StreamKind`, `SubscriptionMeta` and `StreamMeta` are not modelled. For `StreamKind`, the derived `Debug` (such as `Candles(1m)`) differs from the `Display` token (`candles_1m`). Only the hand-written `Debug` impls of `Subscription`, `Interval`, `SubscriptionId` and `StreamId` are modelled.
- The derived `PartialOrd` of `MarketEvent`, `MarketData` and `Trade` is not modelled: it compares `f64` fields.
- The derived `Hash` impls are not modelled, and `SubscriptionIds` is a Dafny `map` rather than a `HashMap`.
- The serde derives and the `#[serde(tag = "type", rename_all = "snake_case")]` encoding of `StreamKind` are library behaviour. Only the wrapping step of the three custom deserialisers is modelled, over the result of reading a string.
- `Sequence` is a newtype over `nat`. Its definition and its `Ord` are in `barter_integration`, which is not part of this model. Its `Ord` is taken to be numeric comparison (`StreamMetaCmp`).
- `Sequence` is unbounded: its fixed integer width is not modelled, and this file only ever creates the value 0.
- `SubscriptionMeta.expectedResponses` is a `nat`: the `usize` bound is not modelled. `SubscriptionMeta` has no operations in this file.
- `Interval::new` applied to an `Interval` (the reflexive `Into`) is the identity. It is not modelled separately: `IntervalNew` takes the string form.
- String order is by code point. Rust compares UTF-8 bytes, which gives the same order on well-formed text.
