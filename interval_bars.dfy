/**
 * The interval-bar adapter: the positional parser for completed-bar messages, the watch commands
 * sent to the streaming-bars connection, and the single-subscriber bar event. The connection object
 * is modelled only by the commands it receives (`sent`), and each call of the registered handler
 * by a `Delivery` appended to `barsRaised`.
 */
module IntervalBars {
  import opened Wrappers
  import opened Text
  import opened Numbers
  import opened Timestamps
  import opened EventSlots

  /** A completed bar as the adapter fills it. */
  datatype Bar = Bar(symbol: string, provider: string, requestId: string, dateTime: DateTime,
                     open: Decimal, high: Decimal, low: Decimal, close: Decimal, volume: int)

  /** What a caller asks for: the security's symbol, the bar length in seconds, and its request id. */
  datatype BarDataRequest = BarDataRequest(symbol: string, barLength: Decimal, id: string)

  /** Commands issued to the streaming-bars connection, with the arguments in the connection's order. */
  datatype BarCommand =
    | BarWatch(symbol: string, intervalLength: int, beginDate: string, days: int, maxPoints: int,
               beginFilterTime: string, endFilterTime: string, requestId: string, intervalType: string,
               updateInterval: int)
    | BarUnwatch(symbol: string, requestId: string)
    | UnwatchAll

  // ---------------------------------------------------------------------------------------------
  // Parsing completed-bar messages

  /**
   * A completed-bar message to a bar. Index 0 is the request id, 2 the symbol, 3 the timestamp,
   * 4 to 7 open, high, low and close, 9 the volume; any failure, an index past the end included,
   * discards the whole message.
   */
  function ParseBarData(provider: string, message: string): (r: Option<Bar>)
    ensures r.Some? ==> r.value.provider == provider && ValidDateTime(r.value.dateTime)
    ensures r.Some? ==> Int64Min <= r.value.volume <= Int64Max
  {
    BarOfFields(provider, Split(message, ','))
  }

  function BarOfFields(provider: string, fields: seq<string>): Option<Bar>
  {
    if |fields| < 10 then None
    else
      match (ParseTimestamp(fields[3]), ParseDecimal(fields[4]), ParseDecimal(fields[5]),
             ParseDecimal(fields[6]), ParseDecimal(fields[7]), ParseInt64(fields[9]))
      case (Some(t), Some(o), Some(h), Some(l), Some(c), Some(v)) =>
        Some(Bar(fields[2], provider, fields[0], t, o, h, l, c, v))
      case _ => None
  }

  /** The fields a message must have for a bar to come out: the all-or-nothing rule. */
  predicate WellFormedBarFields(fields: seq<string>)
  {
    |fields| >= 10 && ParseTimestamp(fields[3]).Some? &&
    ParseDecimal(fields[4]).Some? && ParseDecimal(fields[5]).Some? &&
    ParseDecimal(fields[6]).Some? && ParseDecimal(fields[7]).Some? &&
    ParseInt64(fields[9]).Some?
  }

  /** A bar is produced exactly when the fields are well formed. */
  lemma ParseBarDataAccepts(provider: string, message: string)
    ensures ParseBarData(provider, message).Some? <==> WellFormedBarFields(Split(message, ','))
  {
  }

  /** Where each part of a parsed bar comes from; its instant is valid and its volume fits in 64 bits. */
  lemma ParseBarDataFields(provider: string, message: string)
    requires ParseBarData(provider, message).Some?
    ensures var b, f := ParseBarData(provider, message).value, Split(message, ',');
      b.requestId == f[0] && b.symbol == f[2] && b.provider == provider &&
      ParseTimestamp(f[3]) == Some(b.dateTime) && ValidDateTime(b.dateTime) &&
      ParseDecimal(f[4]) == Some(b.open) && ParseDecimal(f[5]) == Some(b.high) &&
      ParseDecimal(f[6]) == Some(b.low) && ParseDecimal(f[7]) == Some(b.close) &&
      ParseInt64(f[9]) == Some(b.volume) && Int64Min <= b.volume <= Int64Max
  {
  }

  /** Fewer than ten fields: the volume index is past the end, so no bar. */
  lemma ShortMessageRejected(provider: string, message: string)
    requires |Split(message, ',')| < 10
    ensures ParseBarData(provider, message).None?
  {
  }

  /** Fields 1 and 8 and everything after field 9 play no part. */
  lemma ParseBarDataIgnoresOtherFields(provider: string, m1: string, m2: string)
    requires var f, g := Split(m1, ','), Split(m2, ',');
      |f| >= 10 && |g| >= 10 && f[0] == g[0] && f[2..8] == g[2..8] && f[9] == g[9]
    ensures ParseBarData(provider, m1) == ParseBarData(provider, m2)
  {
    var f, g := Split(m1, ','), Split(m2, ',');
    assert f[2] == g[2] && f[3] == g[3] && f[4] == g[4] && f[5] == g[5] && f[6] == g[6] && f[7] == g[7] by {
      assert forall i :: 2 <= i < 8 ==> f[i] == f[2..8][i - 2] && g[i] == g[2..8][i - 2];
    }
  }

  /** A timestamp's text holds digits, '-', ' ' and ':' only. */
  lemma TimestampTextNoComma(t: DateTime, dayWidth: nat)
    ensures ',' !in TimestampText(t, dayWidth)
  {
    PaddedDigitsValue(t.year, 4);
    PaddedDigitsValue(t.month, 2);
    PaddedDigitsValue(t.day, dayWidth);
    PaddedDigitsValue(t.hour, 2);
    PaddedDigitsValue(t.minute, 2);
    PaddedDigitsValue(t.second, 2);
    DigitsOnly(PaddedDigits(t.year, 4));
    DigitsOnly(PaddedDigits(t.month, 2));
    DigitsOnly(PaddedDigits(t.day, dayWidth));
    DigitsOnly(PaddedDigits(t.hour, 2));
    DigitsOnly(PaddedDigits(t.minute, 2));
    DigitsOnly(PaddedDigits(t.second, 2));
  }

  /**
   * The ten leading fields of a completed-bar message for `b`: `field1` and `field8` stand for the
   * fields the adapter does not read, `dayWidth` for the width the day is written with.
   */
  function BarFields(b: Bar, field1: string, field8: string, dayWidth: nat): (r: seq<string>)
    ensures |r| == 10
  {
    [b.requestId, field1, b.symbol, TimestampText(b.dateTime, dayWidth)] +
    [FormatDecimal(b.open), FormatDecimal(b.high), FormatDecimal(b.low), FormatDecimal(b.close)] +
    [field8, FormatInteger(b.volume)]
  }

  lemma BarFieldsNoComma(b: Bar, field1: string, field8: string, dayWidth: nat, trailing: seq<string>)
    requires ',' !in b.requestId && ',' !in field1 && ',' !in b.symbol && ',' !in field8
    requires NoneContains(trailing, ',')
    ensures NoneContains(BarFields(b, field1, field8, dayWidth) + trailing, ',')
  {
    var stamp := TimestampText(b.dateTime, dayWidth);
    TimestampTextNoComma(b.dateTime, dayWidth);
    NoneContainsFour(b.requestId, field1, b.symbol, stamp, ',');
    NoneContainsFour(FormatDecimal(b.open), FormatDecimal(b.high), FormatDecimal(b.low), FormatDecimal(b.close), ',');
    NoneContainsTwo(field8, FormatInteger(b.volume), ',');
    var head := [b.requestId, field1, b.symbol, stamp];
    var prices := [FormatDecimal(b.open), FormatDecimal(b.high), FormatDecimal(b.low), FormatDecimal(b.close)];
    NoneContainsConcat(head, prices, ',');
    NoneContainsConcat(head + prices, [field8, FormatInteger(b.volume)], ',');
    NoneContainsConcat(head + prices + [field8, FormatInteger(b.volume)], trailing, ',');
  }

  /** Positions in a bar message: four leading fields, the four prices and two more, then the rest. */
  lemma BarPositions(head: seq<string>, prices: seq<string>, tail: seq<string>, trailing: seq<string>)
    requires |head| == 4 && |prices| == 4 && |tail| == 2
    ensures var f := head + prices + tail + trailing;
      |f| == 10 + |trailing| && f[0] == head[0] && f[2] == head[2] && f[3] == head[3] &&
      f[4] == prices[0] && f[5] == prices[1] && f[6] == prices[2] && f[7] == prices[3] && f[9] == tail[1]
  {
  }

  lemma BarOfGoodFields(provider: string, fields: seq<string>, b: Bar)
    requires |fields| >= 10 && fields[0] == b.requestId && fields[2] == b.symbol && b.provider == provider
    requires ParseTimestamp(fields[3]) == Some(b.dateTime)
    requires ParseDecimal(fields[4]) == Some(b.open) && ParseDecimal(fields[5]) == Some(b.high)
    requires ParseDecimal(fields[6]) == Some(b.low) && ParseDecimal(fields[7]) == Some(b.close)
    requires ParseInt64(fields[9]) == Some(b.volume)
    ensures BarOfFields(provider, fields) == Some(b)
  {
  }

  /**
   * Round trip: a valid bar written as a completed-bar message, with either day width and whatever
   * fields 1, 8 and the trailing fields hold, parses back to that bar.
   */
  lemma ParseBarMessage(b: Bar, field1: string, field8: string, dayWidth: nat, trailing: seq<string>)
    requires ValidDateTime(b.dateTime) && (dayWidth == 1 || dayWidth == 2)
    requires Int64Min <= b.volume <= Int64Max
    requires ',' !in b.requestId && ',' !in field1 && ',' !in b.symbol && ',' !in field8
    requires NoneContains(trailing, ',')
    ensures ParseBarData(b.provider, Join(BarFields(b, field1, field8, dayWidth) + trailing, ',')) == Some(b)
  {
    var fields := BarFields(b, field1, field8, dayWidth) + trailing;
    BarFieldsNoComma(b, field1, field8, dayWidth, trailing);
    SplitJoin(fields, ',');
    BarPositions([b.requestId, field1, b.symbol, TimestampText(b.dateTime, dayWidth)],
                   [FormatDecimal(b.open), FormatDecimal(b.high), FormatDecimal(b.low), FormatDecimal(b.close)],
                   [field8, FormatInteger(b.volume)], trailing);
    ParseTimestampText(b.dateTime, dayWidth);
    ParseFormatDecimal(b.open);
    ParseFormatDecimal(b.high);
    ParseFormatDecimal(b.low);
    ParseFormatDecimal(b.close);
    ParseFormatInt64(b.volume);
    BarOfGoodFields(b.provider, fields, b);
  }

  // ---------------------------------------------------------------------------------------------
  // The adapter object

  class BarData {
    /** The provider name stamped on every bar. */
    const providerName: string
    var barHandler: Option<Handler>
    /** Commands issued to the streaming-bars connection, oldest first. */
    var sent: seq<BarCommand>
    /** Calls of the bar handler, oldest first. */
    var barsRaised: seq<Delivery<Bar>>

    constructor (providerName: string)
      ensures this.providerName == providerName
      ensures barHandler.None? && sent == [] && barsRaised == []
    {
      this.providerName := providerName;
      barHandler := None;
      sent, barsRaised := [], [];
    }

    method AddBarDataHandler(h: Handler)
      modifies this`barHandler
      ensures barHandler == AddHandler(old(barHandler), h)
    {
      if barHandler.None? {
        barHandler := Some(h);
      }
    }

    method RemoveBarDataHandler(h: Handler)
      modifies this`barHandler
      ensures barHandler == RemoveHandler(old(barHandler), h)
    {
      if barHandler == Some(h) {
        barHandler := None;
      }
    }

    /**
     * Watches one-day, 100-point second bars of the upper-cased symbol under the request's id,
     * whatever the connection state. A bar length outside the 32-bit range makes the cast throw
     * before anything is sent: `overflow` reports that and `sent` is left as it was.
     */
    method Subscribe(request: BarDataRequest) returns (overflow: bool)
      modifies this`sent
      ensures overflow <==> Int32OfDecimal(request.barLength).None?
      ensures overflow ==> sent == old(sent)
      ensures !overflow ==> sent == old(sent) + [BarWatch(ToUpper(request.symbol), Int32OfDecimal(request.barLength).value,
                                                          "", 1, 100, "", "", request.id, "s", 0)]
    {
      var length := Int32OfDecimal(request.barLength);
      if length.None? {
        return true;
      }
      sent := sent + [BarWatch(ToUpper(request.symbol), length.value, "", 1, 100, "", "", request.id, "s", 0)];
      return false;
    }

    /** Stops watching the upper-cased symbol under the request's id, whatever the connection state. */
    method Unsubscribe(request: BarDataRequest)
      modifies this`sent
      ensures sent == old(sent) + [BarUnwatch(ToUpper(request.symbol), request.id)]
    {
      sent := sent + [BarUnwatch(ToUpper(request.symbol), request.id)];
    }

    /** Sends one unwatch-all command. */
    method Stop()
      modifies this`sent
      ensures sent == old(sent) + [UnwatchAll]
    {
      sent := sent + [UnwatchAll];
    }

    /** A completed bar reaches the handler only when it parsed and a handler is registered. */
    method OnReceiveData(message: string)
      modifies this`barsRaised
      ensures barsRaised == old(barsRaised) + RaiseIfSome(barHandler, ParseBarData(providerName, message))
    {
      var bar := ParseBarData(providerName, message);
      if bar.Some? && barHandler.Some? {
        barsRaised := barsRaised + [Delivery(barHandler.value, bar.value)];
      }
    }
  }
}
