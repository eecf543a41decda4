/**
 * The value model of barter-data's `src/model.rs`: stream kinds and their
 * canonical rendering, the string newtypes (`Interval`, `SubscriptionId`,
 * `StreamId`), `Subscription`, `StreamMeta`, `MarketEvent` and
 * `SubscriptionMeta`, with the derived equality and ordering these types
 * declare. The `HashMap` of subscription ids depends on `Eq` and on `Hash`;
 * hashing is not modelled.
 */
module Model {
  import opened Ord

  // ---------------------------------------------------------------------------
  // Types owned by other crates (barter_integration, chrono, std). Their
  // definitions are not part of this model; they are kept abstract, and the
  // operations on them that model.rs calls are passed in as parameters.
  // ---------------------------------------------------------------------------

  /** `barter_integration::Instrument` (base, quote, instrument kind). */
  type Instrument(==, !new)
  /** `barter_integration::Symbol`. */
  type Symbol
  /** `barter_integration::InstrumentKind`. */
  type InstrumentKind
  /** `barter_integration::socket::protocol::websocket::WsMessage`. */
  type WsMessage
  /** `chrono::DateTime<Utc>`. */
  type DateTimeUtc
  /** IEEE-754 `f64`; no arithmetic on it happens in this file. */
  type F64

  /**
   * `barter_integration::Sequence`: a synthetic, per-stream counter. Its definition
   * is not part of this model; its `Ord` is taken to be numeric comparison.
   */
  newtype Sequence = n: int | 0 <= n

  /** The outcome of `String::deserialize`, before a newtype wraps it. */
  datatype Result<T, E> = Ok(value: T) | Err(error: E)

  // ---------------------------------------------------------------------------
  // Interval: a time-bucket token ("1m", "1h", ...) kept verbatim.
  // ---------------------------------------------------------------------------

  datatype Interval = Interval(value: string)

  /** `impl From<S: Into<String>> for Interval`: no validation, no normalisation. */
  function IntervalFrom(input: string): Interval
  {
    Interval(input)
  }

  /** `Interval::new`, which defers to `Into<Interval>`, i.e. to `From`. */
  function IntervalNew(input: string): Interval
  {
    IntervalFrom(input)
  }

  /** `impl Display for Interval`. */
  function IntervalDisplay(interval: Interval): string
  {
    interval.value
  }

  /** `impl Debug for Interval`. */
  function IntervalDebug(interval: Interval): string
  {
    interval.value
  }

  /** `impl AsRef<str> for Interval`. */
  function IntervalAsRef(interval: Interval): string
  {
    interval.value
  }

  /** The custom `Deserialize`: the deserialised string is handed to `Interval::new`. */
  function DeserializeInterval<E>(input: Result<string, E>): Result<Interval, E>
  {
    match input
    case Ok(s) => Ok(IntervalNew(s))
    case Err(e) => Err(e)
  }

  /** Derived `Ord` on the single `String` field. */
  function IntervalCmp(a: Interval, b: Interval): Ordering
  {
    StrCmp(a.value, b.value)
  }

  /** Every string, the empty one included, survives construction and rendering unchanged. */
  lemma IntervalRoundTrip<E>(s: string)
    ensures IntervalNew(s) == IntervalFrom(s)
    ensures IntervalDisplay(IntervalNew(s)) == s
    ensures IntervalDebug(IntervalNew(s)) == s
    ensures IntervalAsRef(IntervalNew(s)) == s
    ensures DeserializeInterval<E>(Ok(s)) == Ok(IntervalNew(s))
  {
  }

  /** Every interval is rebuilt from its rendering, so rendering loses nothing. */
  lemma IntervalRecovered(interval: Interval)
    ensures IntervalFrom(IntervalDisplay(interval)) == interval
    ensures IntervalAsRef(interval) == IntervalDisplay(interval) == IntervalDebug(interval)
  {
  }

  /** Deserialisation of intervals fails exactly when reading the string failed, with that error. */
  lemma DeserializeIntervalError<E>(input: Result<string, E>)
    ensures DeserializeInterval(input).Err? <==> input.Err?
    ensures input.Err? ==> DeserializeInterval(input).error == input.error
  {
  }

  /** Derived `Eq`/`Ord`: two intervals compare exactly as their strings do, and that is a total order. */
  lemma IntervalCmpTotal()
    ensures forall a: Interval, b: Interval :: a == b <==> IntervalDisplay(a) == IntervalDisplay(b)
    ensures forall s, t :: IntervalCmp(IntervalNew(s), IntervalNew(t)) == StrCmp(s, t)
    ensures IsTotalOrder(IntervalCmp)
  {
    StrCmpTotal();
    forall a: Interval, b: Interval, c: Interval
      | IntervalCmp(a, b) == Less && IntervalCmp(b, c) == Less
      ensures IntervalCmp(a, c) == Less
    {
      StrCmpTransitive(a.value, b.value, c.value);
    }
  }

  // ---------------------------------------------------------------------------
  // StreamKind and its canonical rendering.
  // ---------------------------------------------------------------------------

  datatype StreamKind =
    | Trades
    | Candles(candleInterval: Interval)
    | Klines(klineInterval: Interval)
    | OrderBookDeltas
    | OrderBooks

  /** `impl Display for StreamKind`: the token that prefixes a `Subscription`'s rendering. */
  function StreamKindDisplay(kind: StreamKind): string
  {
    match kind
    case Trades => "trades"
    case Candles(interval) => "candles_" + IntervalDisplay(interval)
    case Klines(interval) => "klines_" + IntervalDisplay(interval)
    case OrderBookDeltas => "order_book_deltas"
    case OrderBooks => "order_books"
  }

  /** The rendering of every stream kind, written out. */
  lemma StreamKindDisplayExact(interval: Interval)
    ensures StreamKindDisplay(Trades) == "trades"
    ensures StreamKindDisplay(Candles(interval)) == "candles_" + interval.value
    ensures StreamKindDisplay(Klines(interval)) == "klines_" + interval.value
    ensures StreamKindDisplay(OrderBookDeltas) == "order_book_deltas"
    ensures StreamKindDisplay(OrderBooks) == "order_books"
  {
  }

  /**
   * Distinct stream kinds never render to the same token: the first
   * character tells the variant family apart, the length separates the two
   * order-book kinds, and the interval text follows its prefix verbatim.
   */
  lemma {:induction false} StreamKindDisplayInjective(a: StreamKind, b: StreamKind)
    ensures StreamKindDisplay(a) == StreamKindDisplay(b) <==> a == b
  {
    var s, t := StreamKindDisplay(a), StreamKindDisplay(b);
    if s == t {
      assert |s| > 0 && s[0] == t[0];
      match a
      case Trades =>
        assert s[0] == 't';
      case Candles(i) =>
        assert s[0] == 'c';
        assert b.Candles?;
        assert i.value == s[8..] == t[8..] == b.candleInterval.value;
      case Klines(i) =>
        assert s[0] == 'k';
        assert b.Klines?;
        assert i.value == s[7..] == t[7..] == b.klineInterval.value;
      case OrderBookDeltas =>
        assert s[0] == 'o' && |s| == 17;
      case OrderBooks =>
        assert s[0] == 'o' && |s| == 11;
    }
  }

  /** Declaration order of the variants, used by the derived `Ord`. */
  function StreamKindVariant(kind: StreamKind): nat
  {
    match kind
    case Trades => 0
    case Candles(_) => 1
    case Klines(_) => 2
    case OrderBookDeltas => 3
    case OrderBooks => 4
  }

  /** Derived `Ord for StreamKind`: variant first, then the interval of two candles or two klines. */
  function StreamKindCmp(a: StreamKind, b: StreamKind): Ordering
  {
    match (a, b)
    case (Candles(x), Candles(y)) => IntervalCmp(x, y)
    case (Klines(x), Klines(y)) => IntervalCmp(x, y)
    case _ => NatCmp(StreamKindVariant(a), StreamKindVariant(b))
  }

  /** Trades < Candles(_) < Klines(_) < OrderBookDeltas < OrderBooks; equal variants compare their interval strings. */
  lemma StreamKindDeclarationOrder(i: Interval, j: Interval)
    ensures StreamKindCmp(Trades, Candles(i)) == Less
    ensures StreamKindCmp(Candles(i), Klines(j)) == Less
    ensures StreamKindCmp(Klines(i), OrderBookDeltas) == Less
    ensures StreamKindCmp(OrderBookDeltas, OrderBooks) == Less
    ensures StreamKindCmp(Candles(i), Candles(j)) == StrCmp(i.value, j.value)
    ensures StreamKindCmp(Klines(i), Klines(j)) == StrCmp(i.value, j.value)
  {
  }

  lemma StreamKindCmpTotal()
    ensures IsTotalOrder(StreamKindCmp)
  {
    IntervalCmpTotal();
    NatCmpTotal();
    forall a: StreamKind, b: StreamKind ensures StreamKindCmp(a, b) == Equal <==> a == b {
      if a.Candles? && b.Candles? {
        assert IntervalCmp(a.candleInterval, b.candleInterval) == Equal <==> a.candleInterval == b.candleInterval;
      } else if a.Klines? && b.Klines? {
        assert IntervalCmp(a.klineInterval, b.klineInterval) == Equal <==> a.klineInterval == b.klineInterval;
      } else {
        assert NatCmp(StreamKindVariant(a), StreamKindVariant(b)) == Equal <==> StreamKindVariant(a) == StreamKindVariant(b);
      }
    }
    forall a: StreamKind, b: StreamKind, c: StreamKind
      | StreamKindCmp(a, b) == Less && StreamKindCmp(b, c) == Less
      ensures StreamKindCmp(a, c) == Less
    {
      if a.Candles? && b.Candles? && c.Candles? {
        assert IntervalCmp(a.candleInterval, c.candleInterval) == Less;
      } else if a.Klines? && b.Klines? && c.Klines? {
        assert IntervalCmp(a.klineInterval, c.klineInterval) == Less;
      }
    }
  }

  // ---------------------------------------------------------------------------
  // Direction of a trade.
  // ---------------------------------------------------------------------------

  datatype Direction = Buy | Sell

  /** Derived `Ord for Direction`: declaration order. */
  function DirectionCmp(a: Direction, b: Direction): Ordering
  {
    NatCmp(if a == Buy then 0 else 1, if b == Buy then 0 else 1)
  }

  lemma DirectionOrder()
    ensures DirectionCmp(Buy, Sell) == Less
    ensures IsTotalOrder(DirectionCmp)
  {
  }

  // ---------------------------------------------------------------------------
  // Subscription: an (Instrument, StreamKind) pair.
  // ---------------------------------------------------------------------------

  datatype Subscription = Subscription(instrument: Instrument, kind: StreamKind)

  /** `Subscription::new`, with the caller's `Into<Instrument>` conversion as `into`. */
  function SubscriptionNew<X>(instrument: X, kind: StreamKind, into: X -> Instrument): Subscription
  {
    Subscription(into(instrument), kind)
  }

  /** `impl From<(I, StreamKind)> for Subscription`. */
  function SubscriptionFromPair<X>(pair: (X, StreamKind), into: X -> Instrument): Subscription
  {
    Subscription(into(pair.0), pair.1)
  }

  /**
   * `impl From<(S, S, InstrumentKind, StreamKind)> for Subscription`, with
   * `Instrument::from((base, quote, kind))` as `instrumentFrom`.
   */
  function SubscriptionFromParts<S>(
    parts: (S, S, InstrumentKind, StreamKind),
    instrumentFrom: (S, S, InstrumentKind) -> Instrument): Subscription
  {
    Subscription(instrumentFrom(parts.0, parts.1, parts.2), parts.3)
  }

  /** `impl Debug for Subscription`: the kind's token immediately followed by the instrument's rendering. */
  function SubscriptionDebug(subscription: Subscription, showInstrument: Instrument -> string): string
  {
    StreamKindDisplay(subscription.kind) + showInstrument(subscription.instrument)
  }

  /** `impl Display for Subscription`, which formats with `{:?}`. */
  function SubscriptionDisplay(subscription: Subscription, showInstrument: Instrument -> string): string
  {
    SubscriptionDebug(subscription, showInstrument)
  }

  /** Derived `Ord for Subscription`: instrument first, then kind. */
  function SubscriptionCmp(a: Subscription, b: Subscription, instrumentCmp: (Instrument, Instrument) -> Ordering): Ordering
  {
    Then(instrumentCmp(a.instrument, b.instrument), StreamKindCmp(a.kind, b.kind))
  }

  /** All three ways of building a subscription give the same structural value. */
  lemma SubscriptionConstructorsAgree<X, S>(
    instrument: X, kind: StreamKind, into: X -> Instrument,
    base: S, quote: S, instrumentKind: InstrumentKind,
    instrumentFrom: (S, S, InstrumentKind) -> Instrument)
    ensures SubscriptionNew(instrument, kind, into) == SubscriptionFromPair((instrument, kind), into)
    ensures SubscriptionNew(instrument, kind, into).instrument == into(instrument)
    ensures SubscriptionNew(instrument, kind, into).kind == kind
    ensures SubscriptionFromParts((base, quote, instrumentKind, kind), instrumentFrom)
         == SubscriptionNew(instrumentFrom(base, quote, instrumentKind), kind, x => x)
  {
  }

  /** `Display` equals `Debug`, which starts with the kind's token and ends with the instrument's rendering. */
  lemma SubscriptionRendering(subscription: Subscription, showInstrument: Instrument -> string)
    ensures SubscriptionDisplay(subscription, showInstrument) == SubscriptionDebug(subscription, showInstrument)
    ensures var r, k := SubscriptionDebug(subscription, showInstrument), StreamKindDisplay(subscription.kind);
      && |r| == |k| + |showInstrument(subscription.instrument)|
      && r[..|k|] == k
      && r[|k|..] == showInstrument(subscription.instrument)
  {
  }

  /** For one instrument, the rendering tells the stream kinds apart. */
  lemma {:induction false} SubscriptionDebugSameInstrument(a: Subscription, b: Subscription, showInstrument: Instrument -> string)
    requires a.instrument == b.instrument
    ensures SubscriptionDebug(a, showInstrument) == SubscriptionDebug(b, showInstrument) <==> a == b
  {
    var r, s := SubscriptionDebug(a, showInstrument), SubscriptionDebug(b, showInstrument);
    if r == s {
      var n := |r| - |showInstrument(a.instrument)|;
      assert StreamKindDisplay(a.kind) == r[..n] == s[..n] == StreamKindDisplay(b.kind);
      StreamKindDisplayInjective(a.kind, b.kind);
    }
  }

  /**
   * No separator stands between the two parts, so across instruments the
   * rendering can coincide: a one-minute candle stream on an instrument
   * rendered `x` and a candle stream with interval "1" on an instrument
   * rendered `mx` both read "candles_1mx".
   */
  lemma SubscriptionDebugAmbiguous(i: Instrument, j: Instrument, showInstrument: Instrument -> string)
    requires showInstrument(j) == "m" + showInstrument(i)
    ensures SubscriptionDebug(Subscription(i, Candles(Interval("1m"))), showInstrument)
         == SubscriptionDebug(Subscription(j, Candles(Interval("1"))), showInstrument)
    ensures Subscription(i, Candles(Interval("1m"))) != Subscription(j, Candles(Interval("1")))
  {
    assert Interval("1m") != Interval("1") by { assert |"1m"| != |"1"|; }
  }

  /** Given a total order on instruments, subscriptions compare by instrument first, then by kind. */
  lemma SubscriptionCmpOrder(a: Subscription, b: Subscription, instrumentCmp: (Instrument, Instrument) -> Ordering)
    requires IsTotalOrder(instrumentCmp)
    ensures a.instrument != b.instrument ==> SubscriptionCmp(a, b, instrumentCmp) == instrumentCmp(a.instrument, b.instrument)
    ensures a.instrument == b.instrument ==> SubscriptionCmp(a, b, instrumentCmp) == StreamKindCmp(a.kind, b.kind)
  {
  }

  /** The derived order on subscriptions is a total order whenever the instruments' order is. */
  lemma SubscriptionCmpTotal(instrumentCmp: (Instrument, Instrument) -> Ordering)
    requires IsTotalOrder(instrumentCmp)
    ensures IsTotalOrder((a: Subscription, b: Subscription) => SubscriptionCmp(a, b, instrumentCmp))
  {
    StreamKindCmpTotal();
    var cmp := (a: Subscription, b: Subscription) => SubscriptionCmp(a, b, instrumentCmp);
    forall a: Subscription, b: Subscription ensures cmp(a, b) == Equal <==> a == b {
      assert instrumentCmp(a.instrument, b.instrument) == Equal <==> a.instrument == b.instrument;
      assert StreamKindCmp(a.kind, b.kind) == Equal <==> a.kind == b.kind;
    }
    forall a: Subscription, b: Subscription ensures cmp(b, a) == Reverse(cmp(a, b)) {
      assert instrumentCmp(b.instrument, a.instrument) == Reverse(instrumentCmp(a.instrument, b.instrument));
      assert StreamKindCmp(b.kind, a.kind) == Reverse(StreamKindCmp(a.kind, b.kind));
    }
    forall a: Subscription, b: Subscription, c: Subscription | cmp(a, b) == Less && cmp(b, c) == Less
      ensures cmp(a, c) == Less
    {
      var ab, bc := instrumentCmp(a.instrument, b.instrument), instrumentCmp(b.instrument, c.instrument);
      if ab == Equal && bc == Equal {
        assert StreamKindCmp(a.kind, c.kind) == Less;
      } else if ab == Equal {
        assert a.instrument == b.instrument;
      } else if bc == Equal {
        assert b.instrument == c.instrument;
      } else {
        assert instrumentCmp(a.instrument, c.instrument) == Less;
      }
    }
  }

  // ---------------------------------------------------------------------------
  // SubscriptionId and SubscriptionMeta.
  // ---------------------------------------------------------------------------

  /** The exchange-specific string that ties an inbound message to its subscription. */
  datatype SubscriptionId = SubscriptionId(value: string)

  /** `impl From<S: Into<String>> for SubscriptionId`. */
  function SubscriptionIdFrom(input: string): SubscriptionId
  {
    SubscriptionId(input)
  }

  /** `impl Display for SubscriptionId`. */
  function SubscriptionIdDisplay(id: SubscriptionId): string
  {
    id.value
  }

  /** `impl Debug for SubscriptionId`. */
  function SubscriptionIdDebug(id: SubscriptionId): string
  {
    id.value
  }

  /** `impl AsRef<str> for SubscriptionId`. */
  function SubscriptionIdAsRef(id: SubscriptionId): string
  {
    id.value
  }

  /** The custom `Deserialize`: the deserialised string is wrapped as is. */
  function DeserializeSubscriptionId<E>(input: Result<string, E>): Result<SubscriptionId, E>
  {
    match input
    case Ok(s) => Ok(SubscriptionId(s))
    case Err(e) => Err(e)
  }

  /** Derived `Ord` on the single `String` field. */
  function SubscriptionIdCmp(a: SubscriptionId, b: SubscriptionId): Ordering
  {
    StrCmp(a.value, b.value)
  }

  lemma SubscriptionIdRoundTrip<E>(s: string)
    ensures SubscriptionIdDisplay(SubscriptionIdFrom(s)) == s
    ensures SubscriptionIdDebug(SubscriptionIdFrom(s)) == s
    ensures SubscriptionIdAsRef(SubscriptionIdFrom(s)) == s
    ensures DeserializeSubscriptionId<E>(Ok(s)) == Ok(SubscriptionIdFrom(s))
  {
  }

  lemma SubscriptionIdRecovered(id: SubscriptionId)
    ensures SubscriptionIdFrom(SubscriptionIdDisplay(id)) == id
    ensures SubscriptionIdAsRef(id) == SubscriptionIdDisplay(id) == SubscriptionIdDebug(id)
  {
  }

  lemma DeserializeSubscriptionIdError<E>(input: Result<string, E>)
    ensures DeserializeSubscriptionId(input).Err? <==> input.Err?
    ensures input.Err? ==> DeserializeSubscriptionId(input).error == input.error
  {
  }

  /** Two ids are equal exactly when their strings are, and they are ordered as their strings. */
  lemma SubscriptionIdCmpTotal()
    ensures forall a: SubscriptionId, b: SubscriptionId :: a == b <==> SubscriptionIdDisplay(a) == SubscriptionIdDisplay(b)
    ensures forall s, t :: SubscriptionIdCmp(SubscriptionIdFrom(s), SubscriptionIdFrom(t)) == StrCmp(s, t)
    ensures IsTotalOrder(SubscriptionIdCmp)
  {
    StrCmpTotal();
    forall a: SubscriptionId, b: SubscriptionId, c: SubscriptionId
      | SubscriptionIdCmp(a, b) == Less && SubscriptionIdCmp(b, c) == Less
      ensures SubscriptionIdCmp(a, c) == Less
    {
      StrCmpTransitive(a.value, b.value, c.value);
    }
  }

  /** Which subscription each id belongs to. A `HashMap` in the source; its hashing is not modelled. */
  type SubscriptionIds = map<SubscriptionId, Subscription>

  /**
   * The build artifact of a connection's subscription step: which subscription
   * each id belongs to, how many acknowledgements to expect, and the payloads
   * to send.
   */
  datatype SubscriptionMeta = SubscriptionMeta(
    ids: SubscriptionIds,
    expectedResponses: nat,
    subscriptions: seq<WsMessage>)

  // ---------------------------------------------------------------------------
  // StreamMeta and StreamId.
  // ---------------------------------------------------------------------------

  datatype StreamMeta = StreamMeta(sequence: Sequence, subscription: Subscription)

  /** `StreamMeta::new`: a fresh stream starts its counter at zero. */
  function StreamMetaNew(subscription: Subscription): (meta: StreamMeta)
    ensures meta.sequence == 0
    ensures meta.subscription == subscription
  {
    StreamMeta(0, subscription)
  }

  /** Derived `Ord for StreamMeta`: sequence first, then subscription. */
  function StreamMetaCmp(a: StreamMeta, b: StreamMeta, instrumentCmp: (Instrument, Instrument) -> Ordering): Ordering
  {
    Then(NatCmp(a.sequence as nat, b.sequence as nat), SubscriptionCmp(a.subscription, b.subscription, instrumentCmp))
  }

  /**
   * Distinct subscriptions get distinct initial metas, and, given a total
   * order on instruments, the initial meta of a subscription is less than or
   * equal to every meta of that subscription under the derived order.
   */
  lemma StreamMetaNewInitial(a: Subscription, b: Subscription, meta: StreamMeta,
                             instrumentCmp: (Instrument, Instrument) -> Ordering)
    requires IsTotalOrder(instrumentCmp)
    ensures StreamMetaNew(a) == StreamMetaNew(b) <==> a == b
    ensures meta.subscription == a ==> StreamMetaCmp(StreamMetaNew(a), meta, instrumentCmp) != Greater
    ensures meta.subscription == a ==>
      (StreamMetaCmp(StreamMetaNew(a), meta, instrumentCmp) == Equal <==> meta == StreamMetaNew(a))
  {
    if meta.subscription == a {
      StreamKindCmpTotal();
      assert instrumentCmp(a.instrument, a.instrument) == Equal;
      assert StreamKindCmp(a.kind, a.kind) == Equal;
    }
  }

  /** An identifier of a stream that has been subscribed to. */
  datatype StreamId = StreamId(value: string)

  /** `impl From<S: Into<String>> for StreamId`. */
  function StreamIdFrom(input: string): StreamId
  {
    StreamId(input)
  }

  /** `impl Display for StreamId`. */
  function StreamIdDisplay(id: StreamId): string
  {
    id.value
  }

  /** `impl Debug for StreamId`. */
  function StreamIdDebug(id: StreamId): string
  {
    id.value
  }

  /** `impl AsRef<str> for StreamId`. */
  function StreamIdAsRef(id: StreamId): string
  {
    id.value
  }

  /** `impl Deref for StreamId` (target `String`). */
  function StreamIdDeref(id: StreamId): string
  {
    id.value
  }

  /** The custom `Deserialize`: the deserialised string is wrapped as is. */
  function DeserializeStreamId<E>(input: Result<string, E>): Result<StreamId, E>
  {
    match input
    case Ok(s) => Ok(StreamId(s))
    case Err(e) => Err(e)
  }

  /** Derived `Ord` on the single `String` field. */
  function StreamIdCmp(a: StreamId, b: StreamId): Ordering
  {
    StrCmp(a.value, b.value)
  }

  lemma StreamIdRoundTrip<E>(s: string)
    ensures StreamIdDisplay(StreamIdFrom(s)) == s
    ensures StreamIdDebug(StreamIdFrom(s)) == s
    ensures StreamIdAsRef(StreamIdFrom(s)) == s
    ensures StreamIdDeref(StreamIdFrom(s)) == s
    ensures DeserializeStreamId<E>(Ok(s)) == Ok(StreamIdFrom(s))
  {
  }

  lemma StreamIdRecovered(id: StreamId)
    ensures StreamIdFrom(StreamIdDisplay(id)) == id
    ensures StreamIdDeref(id) == StreamIdAsRef(id) == StreamIdDisplay(id) == StreamIdDebug(id)
  {
  }

  lemma DeserializeStreamIdError<E>(input: Result<string, E>)
    ensures DeserializeStreamId(input).Err? <==> input.Err?
    ensures input.Err? ==> DeserializeStreamId(input).error == input.error
  {
  }

  lemma StreamIdCmpTotal()
    ensures forall a: StreamId, b: StreamId :: a == b <==> StreamIdDisplay(a) == StreamIdDisplay(b)
    ensures forall s, t :: StreamIdCmp(StreamIdFrom(s), StreamIdFrom(t)) == StrCmp(s, t)
    ensures IsTotalOrder(StreamIdCmp)
  {
    StrCmpTotal();
    forall a: StreamId, b: StreamId, c: StreamId
      | StreamIdCmp(a, b) == Less && StreamIdCmp(b, c) == Less
      ensures StreamIdCmp(a, c) == Less
    {
      StrCmpTransitive(a.value, b.value, c.value);
    }
  }

  // ---------------------------------------------------------------------------
  // The normalised event.
  // ---------------------------------------------------------------------------

  /** Normalised public trade. */
  datatype Trade = Trade(
    id: string,
    exchange: string,
    instrument: Instrument,
    receivedTimestamp: DateTimeUtc,
    exchangeTimestamp: DateTimeUtc,
    price: F64,
    quantity: F64,
    direction: Direction)

  datatype MarketData =
    | TradeData(trade: Trade)
    | Candle
    | Kline
    | OrderBook

  datatype MarketEvent = MarketEvent(sequence: Sequence, data: MarketData)

  /** `MarketEvent::new`: stores both arguments unchanged. */
  function MarketEventNew(sequence: Sequence, data: MarketData): (event: MarketEvent)
    ensures event.sequence == sequence
    ensures event.data == data
  {
    MarketEvent(sequence, data)
  }

  /** Every event is the result of `new` on its own fields, and `new` is injective. */
  lemma MarketEventNewBijective(event: MarketEvent, s: Sequence, t: Sequence, d: MarketData, e: MarketData)
    ensures MarketEventNew(event.sequence, event.data) == event
    ensures MarketEventNew(s, d) == MarketEventNew(t, e) <==> s == t && d == e
  {
  }
}
