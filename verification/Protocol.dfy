/** The op-envelope wire protocol (`src/ws/protocol.rs`): channels, cursor keys,
    the frames in both directions, and what a frame means for a resume cursor.
    Frames are modelled after parsing and before serialisation. */
module Protocol {
  import opened Common

  datatype Channel =
    | Trades(tradesMarket: string)
    | Book(bookMarket: string)
    | Candles(candlesMarket: string, candlesInterval: string)
    | Orders
    | Fills
    | Positions
    | Balances
    | Liquidations

  /** The channel names of the wire, and any other text in a name's place. */
  datatype ChannelName =
    | TradesName | BookName | CandlesName | OrdersName | FillsName | PositionsName | BalancesName | LiquidationsName
    | Unlisted(text: string)

  /** How the server names a stream. Candles at two intervals are one stream. */
  datatype Key = Key(name: ChannelName, market: Option<string>)

  /** What the client writes on a socket. */
  datatype Outbound =
    | Subscribe(channel: ChannelName, market: Option<string>, interval: Option<string>, since: Option<nat>)
    | Unsubscribe(channel: ChannelName, market: Option<string>, interval: Option<string>)
    | Pong
    | CloseFrame

  /** A decoded frame from the server. Payloads are kept as their raw text. */
  datatype ServerMessage =
    | Subscribed(channel: ChannelName, market: Option<string>, interval: Option<string>, seqAtJoin: nat)
    | Unsubscribed(channel: ChannelName, market: Option<string>, interval: Option<string>)
    | Event(channel: ChannelName, market: Option<string>, interval: Option<string>, sequence: nat, payload: string)
    | OutOfSync(channel: ChannelName, market: Option<string>, oldestSeq: Option<nat>)
    | Error(message: Option<string>)

  /** A websocket frame as the read half yields it. A data frame that does not
      parse into a known message is `Data(None)`. */
  datatype Frame = Data(message: Option<ServerMessage>) | Ping | Closing | Other

  function Name(c: Channel): ChannelName {
    match c
    case Trades(_) => TradesName
    case Book(_) => BookName
    case Candles(_, _) => CandlesName
    case Orders => OrdersName
    case Fills => FillsName
    case Positions => PositionsName
    case Balances => BalancesName
    case Liquidations => LiquidationsName
  }

  function Market(c: Channel): Option<string> {
    match c
    case Trades(market) => Some(market)
    case Book(market) => Some(market)
    case Candles(market, _) => Some(market)
    case _ => None
  }

  function Interval(c: Channel): Option<string> {
    if c.Candles? then Some(c.candlesInterval) else None
  }

  predicate IsPrivate(c: Channel) {
    c.Orders? || c.Fills? || c.Positions? || c.Balances? || c.Liquidations?
  }

  function CursorKey(c: Channel): Key { Key(Name(c), Market(c)) }

  function SubscribeFrame(c: Channel, since: Option<nat>): Outbound {
    Subscribe(Name(c), Market(c), Interval(c), since)
  }

  function UnsubscribeFrame(c: Channel): Outbound {
    Unsubscribe(Name(c), Market(c), Interval(c))
  }

  predicate KnownName(name: ChannelName) { !name.Unlisted? }

  /** The key of an inbound frame: an unknown channel name collapses to "". */
  function KeyOf(channel: ChannelName, market: Option<string>): Key {
    Key(if KnownName(channel) then channel else Unlisted(""), market)
  }

  function CursorAdvance(m: ServerMessage): Option<(Key, nat)> {
    match m
    case Event(channel, market, _, n, _) => Some((KeyOf(channel, market), n))
    case Subscribed(channel, market, _, n) => Some((KeyOf(channel, market), n))
    case _ => None
  }

  function CursorReset(m: ServerMessage): Option<Key> {
    match m
    case OutOfSync(channel, market, _) => Some(KeyOf(channel, market))
    case _ => None
  }

  /** The streams a reset names: a `None` market names every market. */
  predicate Covers(reset: Key, k: Key) {
    k.name == reset.name && (reset.market.Some? ==> k.market == reset.market)
  }

  /** A frame the server labels `(channel, market)` moves the cursor of a held
      channel exactly when those are the name and market the channel subscribed
      with: unknown names never reach a held cursor, and the interval is ignored. */
  lemma FrameKeyMeetsChannelKey(c: Channel, channel: ChannelName, market: Option<string>)
    ensures KeyOf(channel, market) == CursorKey(c) <==> channel == Name(c) && market == Market(c)
  {
  }

  /** What is written tells the channel, its interval included, and the cursor. */
  lemma SubscribeTellsAll(c: Channel, s: Option<nat>, d: Channel, t: Option<nat>)
    ensures SubscribeFrame(c, s) == SubscribeFrame(d, t) <==> c == d && s == t
    ensures UnsubscribeFrame(c) == UnsubscribeFrame(d) <==> c == d
  {
  }

  /** Two channels share a cursor exactly when they differ at most in interval. */
  lemma SameKeySameStream(c: Channel, d: Channel)
    ensures CursorKey(c) == CursorKey(d) <==>
            c == d || (c.Candles? && d.Candles? && c.candlesMarket == d.candlesMarket)
  {
  }
}
