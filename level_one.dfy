/**
 * The level-one adapter: the connection state machine driven by system messages, the positional
 * parser for summary and update messages, and the watch commands sent to the feed. The feed
 * connection object is modelled only by the commands it receives (`sent`), and each call of a
 * registered handler by a `Delivery` appended to the log of the event it belongs to.
 */
module LevelOne {
  import opened Wrappers
  import opened Text
  import opened Numbers
  import opened EventSlots

  /** A bid or an ask: price and size arrive together. */
  datatype Quote = Quote(price: Decimal, size: Decimal)

  /**
   * A tick as the adapter fills it. `bid`/`ask` are `None` when the adapter leaves those properties
   * at their defaults. No timestamp is set by this adapter.
   */
  datatype Tick = Tick(symbol: string, provider: string, lastPrice: Decimal, lastSize: Decimal,
                       bid: Option<Quote>, ask: Option<Quote>)

  const ServerConnected := "SERVER CONNECTED"
  const ServerDisconnected := "SERVER DISCONNECTED"

  /** The field list selected for update messages once the server is connected. */
  const UpdateFieldNames := "Symbol,Most Recent Trade,Most Recent Trade Size,Bid,Bid Size,Ask,Ask Size"

  /** Commands issued to the level-one feed connection. */
  datatype Command =
    | ReqWatch(symbol: string)
    | ReqUnwatch(symbol: string)
    | SelectUpdateFieldName(fieldNames: string)
    | ReqUnwatchAll

  // ---------------------------------------------------------------------------------------------
  // Parsing summary and update messages

  predicate IsDecimal(s: string)
  {
    ParseDecimal(s).Some?
  }

  /**
   * The optional quote whose price is at index `i` and size at `i + 1`: `Some(None)` when the
   * price field is empty, `None` when the size field is missing or either field is not a decimal.
   */
  function QuoteAt(fields: seq<string>, i: nat): (r: Option<Option<Quote>>)
    requires i < |fields|
    ensures r == Some(None) <==> fields[i] == ""
    ensures r.Some? && r.value.Some? ==> i + 1 < |fields|
  {
    if fields[i] == "" then Some(None)
    else if i + 1 == |fields| then None
    else
      match (ParseDecimal(fields[i]), ParseDecimal(fields[i + 1]))
      case (Some(price), Some(size)) => Some(Some(Quote(price, size)))
      case _ => None
  }

  /**
   * A summary or update message to a tick. Index 1 is the symbol, 2/3 the last trade, 4/5 the bid,
   * 6/7 the ask; indices 1, 4 and 6 are always read, so fewer than seven fields is a failure.
   */
  function ParseMarketData(provider: string, message: string): (r: Option<Tick>)
    ensures r.Some? ==> r.value.provider == provider
  {
    TickOfFields(provider, Split(message, ','))
  }

  function TickOfFields(provider: string, fields: seq<string>): Option<Tick>
  {
    if |fields| < 7 then None
    else
      match (QuoteAt(fields, 4), QuoteAt(fields, 6), ParseDecimal(fields[2]), ParseDecimal(fields[3]))
      case (Some(bid), Some(ask), Some(last), Some(size)) => Some(Tick(fields[1], provider, last, size, bid, ask))
      case _ => None
  }

  /** The fields a message must have for a tick to come out: the all-or-nothing rule. */
  predicate WellFormedTickFields(fields: seq<string>)
  {
    |fields| >= 7 && IsDecimal(fields[2]) && IsDecimal(fields[3]) &&
    (fields[4] != "" ==> IsDecimal(fields[4]) && IsDecimal(fields[5])) &&
    (fields[6] != "" ==> |fields| >= 8 && IsDecimal(fields[6]) && IsDecimal(fields[7]))
  }

  /** A tick is produced exactly when the fields are well formed. */
  lemma ParseMarketDataAccepts(provider: string, message: string)
    ensures ParseMarketData(provider, message).Some? <==> WellFormedTickFields(Split(message, ','))
  {
  }

  /** Where each part of a parsed tick comes from. */
  lemma ParseMarketDataFields(provider: string, message: string)
    requires ParseMarketData(provider, message).Some?
    ensures var t, fields := ParseMarketData(provider, message).value, Split(message, ',');
      t.symbol == fields[1] && t.provider == provider &&
      ParseDecimal(fields[2]) == Some(t.lastPrice) && ParseDecimal(fields[3]) == Some(t.lastSize) &&
      (t.bid.Some? <==> fields[4] != "") &&
      (t.bid.Some? ==> ParseDecimal(fields[4]) == Some(t.bid.value.price) && ParseDecimal(fields[5]) == Some(t.bid.value.size)) &&
      (t.ask.Some? <==> fields[6] != "") &&
      (t.ask.Some? ==> ParseDecimal(fields[6]) == Some(t.ask.value.price) && ParseDecimal(fields[7]) == Some(t.ask.value.size))
  {
  }

  /** Field 0 and everything after field 7 play no part: messages that agree on the fields read give the same tick. */
  lemma ParseMarketDataIgnoresOtherFields(provider: string, m1: string, m2: string)
    requires var f, g := Split(m1, ','), Split(m2, ',');
      |f| >= 7 && |g| >= 7 && f[1..7] == g[1..7] &&
      (f[6] != "" ==> |f| >= 8 && |g| >= 8 && f[7] == g[7])
    ensures ParseMarketData(provider, m1) == ParseMarketData(provider, m2)
  {
    var f, g := Split(m1, ','), Split(m2, ',');
    assert f[1] == g[1] && f[2] == g[2] && f[3] == g[3] && f[4] == g[4] && f[5] == g[5] && f[6] == g[6] by {
      assert forall i :: 1 <= i < 7 ==> f[i] == f[1..7][i - 1] && g[i] == g[1..7][i - 1];
    }
    assert QuoteAt(f, 4) == QuoteAt(g, 4);
    assert QuoteAt(f, 6) == QuoteAt(g, 6);
  }

  /** The two wire fields of an optional quote; an absent quote is two empty fields. */
  function QuoteFields(q: Option<Quote>): (r: seq<string>)
    ensures |r| == 2 && ',' !in r[0] && ',' !in r[1]
  {
    match q
    case None => ["", ""]
    case Some(Quote(price, size)) => [FormatDecimal(price), FormatDecimal(size)]
  }

  lemma QuoteAtFields(fields: seq<string>, i: nat, q: Option<Quote>)
    requires i + 1 < |fields| && fields[i] == QuoteFields(q)[0] && fields[i + 1] == QuoteFields(q)[1]
    ensures QuoteAt(fields, i) == Some(q)
  {
    match q {
      case None =>
      case Some(Quote(price, size)) =>
        ParseFormatDecimal(price);
        ParseFormatDecimal(size);
    }
  }

  lemma TickOfGoodFields(provider: string, fields: seq<string>, last: Decimal, size: Decimal,
                         bid: Option<Quote>, ask: Option<Quote>)
    requires |fields| >= 7
    requires ParseDecimal(fields[2]) == Some(last) && ParseDecimal(fields[3]) == Some(size)
    requires QuoteAt(fields, 4) == Some(bid) && QuoteAt(fields, 6) == Some(ask)
    ensures TickOfFields(provider, fields) == Some(Tick(fields[1], provider, last, size, bid, ask))
  {
  }

  /** The eight leading fields of a tick message. */
  function TickFields(field0: string, symbol: string, last: Decimal, size: Decimal,
                      bid: Option<Quote>, ask: Option<Quote>): (r: seq<string>)
    ensures |r| == 8
  {
    [field0, symbol, FormatDecimal(last), FormatDecimal(size)] + QuoteFields(bid) + QuoteFields(ask)
  }

  lemma QuoteFieldsNoComma(q: Option<Quote>)
    ensures NoneContains(QuoteFields(q), ',')
  {
    var r := QuoteFields(q);
    assert r == [r[0], r[1]];
  }

  lemma TickFieldsNoComma(field0: string, symbol: string, last: Decimal, size: Decimal,
                          bid: Option<Quote>, ask: Option<Quote>)
    requires ',' !in field0 && ',' !in symbol
    ensures NoneContains(TickFields(field0, symbol, last, size, bid, ask), ',')
  {
    NoneContainsFour(field0, symbol, FormatDecimal(last), FormatDecimal(size), ',');
    QuoteFieldsNoComma(bid);
    QuoteFieldsNoComma(ask);
    var head := [field0, symbol, FormatDecimal(last), FormatDecimal(size)];
    NoneContainsConcat(head, QuoteFields(bid), ',');
    NoneContainsConcat(head + QuoteFields(bid), QuoteFields(ask), ',');
  }

  /** Positions in a tick message: four leading fields, the bid's two and the ask's two, then the rest. */
  lemma TickPositions(head: seq<string>, b: seq<string>, a: seq<string>, trailing: seq<string>)
    requires |head| == 4 && |b| == 2 && |a| == 2
    ensures var f := head + b + a + trailing;
      |f| == 8 + |trailing| && f[1] == head[1] && f[2] == head[2] && f[3] == head[3] &&
      f[4] == b[0] && f[5] == b[1] && f[6] == a[0] && f[7] == a[1]
  {
  }

  lemma TickFieldsPositions(field0: string, symbol: string, last: Decimal, size: Decimal,
                            bid: Option<Quote>, ask: Option<Quote>, trailing: seq<string>)
    ensures var f := TickFields(field0, symbol, last, size, bid, ask) + trailing;
      |f| == 8 + |trailing| &&
      f[1] == symbol && f[2] == FormatDecimal(last) && f[3] == FormatDecimal(size) &&
      f[4] == QuoteFields(bid)[0] && f[5] == QuoteFields(bid)[1] &&
      f[6] == QuoteFields(ask)[0] && f[7] == QuoteFields(ask)[1]
  {
    TickPositions([field0, symbol, FormatDecimal(last), FormatDecimal(size)], QuoteFields(bid), QuoteFields(ask), trailing);
  }

  lemma DecimalField(fields: seq<string>, i: nat, d: Decimal)
    requires i < |fields| && fields[i] == FormatDecimal(d)
    ensures ParseDecimal(fields[i]) == Some(d)
  {
    ParseFormatDecimal(d);
  }

  /** The fields of a written tick message split back out unchanged. */
  lemma TickMessageSplits(field0: string, symbol: string, last: Decimal, size: Decimal,
                          bid: Option<Quote>, ask: Option<Quote>, trailing: seq<string>)
    requires ',' !in field0 && ',' !in symbol && NoneContains(trailing, ',')
    ensures var fields := TickFields(field0, symbol, last, size, bid, ask) + trailing;
      Split(Join(fields, ','), ',') == fields
  {
    var head := TickFields(field0, symbol, last, size, bid, ask);
    TickFieldsNoComma(field0, symbol, last, size, bid, ask);
    NoneContainsConcat(head, trailing, ',');
    SplitJoin(head + trailing, ',');
  }

  /** The symbol and the last trade of a written tick read back from fields 1 to 3. */
  lemma TickTradeParses(field0: string, symbol: string, last: Decimal, size: Decimal,
                        bid: Option<Quote>, ask: Option<Quote>, trailing: seq<string>)
    ensures var fields := TickFields(field0, symbol, last, size, bid, ask) + trailing;
      |fields| >= 8 && fields[1] == symbol &&
      ParseDecimal(fields[2]) == Some(last) && ParseDecimal(fields[3]) == Some(size)
  {
    var fields := TickFields(field0, symbol, last, size, bid, ask) + trailing;
    TickFieldsPositions(field0, symbol, last, size, bid, ask, trailing);
    DecimalField(fields, 2, last);
    DecimalField(fields, 3, size);
  }

  /** The bid (`i == 4`) or the ask (`i == 6`) of a written tick reads back from its two fields. */
  lemma TickQuoteParses(field0: string, symbol: string, last: Decimal, size: Decimal,
                        bid: Option<Quote>, ask: Option<Quote>, trailing: seq<string>, i: nat)
    requires i == 4 || i == 6
    ensures var fields := TickFields(field0, symbol, last, size, bid, ask) + trailing;
      i < |fields| && QuoteAt(fields, i) == Some(if i == 4 then bid else ask)
  {
    var fields := TickFields(field0, symbol, last, size, bid, ask) + trailing;
    TickFieldsPositions(field0, symbol, last, size, bid, ask, trailing);
    QuoteAtFields(fields, i, if i == 4 then bid else ask);
  }

  /** Round trip: a tick written as a message, whatever field 0 and the trailing fields hold, parses back to that tick. */
  lemma ParseTickMessage(provider: string, field0: string, symbol: string, last: Decimal, size: Decimal,
                         bid: Option<Quote>, ask: Option<Quote>, trailing: seq<string>)
    requires ',' !in field0 && ',' !in symbol && NoneContains(trailing, ',')
    ensures ParseMarketData(provider, Join(TickFields(field0, symbol, last, size, bid, ask) + trailing, ','))
      == Some(Tick(symbol, provider, last, size, bid, ask))
  {
    TickMessageSplits(field0, symbol, last, size, bid, ask, trailing);
    TickTradeParses(field0, symbol, last, size, bid, ask, trailing);
    TickQuoteParses(field0, symbol, last, size, bid, ask, trailing, 4);
    TickQuoteParses(field0, symbol, last, size, bid, ask, trailing, 6);
    TickOfGoodFields(provider, TickFields(field0, symbol, last, size, bid, ask) + trailing, last, size, bid, ask);
  }

  /** The seven fields of a tick message that ends at an empty ask price. */
  function SevenFields(field0: string, symbol: string, last: Decimal, size: Decimal, bid: Option<Quote>): (r: seq<string>)
    ensures |r| == 7
  {
    [field0, symbol, FormatDecimal(last), FormatDecimal(size)] + QuoteFields(bid) + [""]
  }

  lemma SevenFieldsSplit(field0: string, symbol: string, last: Decimal, size: Decimal, bid: Option<Quote>)
    requires ',' !in field0 && ',' !in symbol
    ensures var fields := SevenFields(field0, symbol, last, size, bid);
      Split(Join(fields, ','), ',') == fields
  {
    var head := [field0, symbol, FormatDecimal(last), FormatDecimal(size)];
    NoneContainsFour(field0, symbol, FormatDecimal(last), FormatDecimal(size), ',');
    QuoteFieldsNoComma(bid);
    assert NoneContains([""], ',');
    NoneContainsConcat(head, QuoteFields(bid), ',');
    NoneContainsConcat(head + QuoteFields(bid), [""], ',');
    SplitJoin(SevenFields(field0, symbol, last, size, bid), ',');
  }

  lemma SevenFieldsTrade(field0: string, symbol: string, last: Decimal, size: Decimal, bid: Option<Quote>)
    ensures var fields := SevenFields(field0, symbol, last, size, bid);
      fields[1] == symbol && ParseDecimal(fields[2]) == Some(last) && ParseDecimal(fields[3]) == Some(size)
  {
    var fields := SevenFields(field0, symbol, last, size, bid);
    SevenPositions([field0, symbol, FormatDecimal(last), FormatDecimal(size)], QuoteFields(bid), "");
    DecimalField(fields, 2, last);
    DecimalField(fields, 3, size);
  }

  lemma SevenFieldsQuotes(field0: string, symbol: string, last: Decimal, size: Decimal, bid: Option<Quote>)
    ensures var fields := SevenFields(field0, symbol, last, size, bid);
      QuoteAt(fields, 4) == Some(bid) && QuoteAt(fields, 6) == Some(None)
  {
    var fields := SevenFields(field0, symbol, last, size, bid);
    SevenPositions([field0, symbol, FormatDecimal(last), FormatDecimal(size)], QuoteFields(bid), "");
    QuoteAtFields(fields, 4, bid);
  }

  /** With the ask price empty, a message that stops after it (exactly seven fields) still yields a tick. */
  lemma SevenFieldsWithoutAsk(provider: string, field0: string, symbol: string, last: Decimal, size: Decimal,
                              bid: Option<Quote>)
    requires ',' !in field0 && ',' !in symbol
    ensures ParseMarketData(provider, Join(SevenFields(field0, symbol, last, size, bid), ','))
      == Some(Tick(symbol, provider, last, size, bid, None))
  {
    SevenFieldsSplit(field0, symbol, last, size, bid);
    SevenFieldsTrade(field0, symbol, last, size, bid);
    SevenFieldsQuotes(field0, symbol, last, size, bid);
    TickOfGoodFields(provider, SevenFields(field0, symbol, last, size, bid), last, size, bid, None);
  }

  /** Positions in a seven-field tick message: four leading fields, the bid's two and an empty ask price. */
  lemma SevenPositions(head: seq<string>, b: seq<string>, x: string)
    requires |head| == 4 && |b| == 2
    ensures var f := head + b + [x];
      |f| == 7 && f[1] == head[1] && f[2] == head[2] && f[3] == head[3] &&
      f[4] == b[0] && f[5] == b[1] && f[6] == x
  {
  }

  /** A non-empty ask price with no ask size field after it discards the whole record. */
  lemma AskWithoutSizeRejected(provider: string, message: string)
    requires var f := Split(message, ','); |f| == 7 && f[6] != ""
    ensures ParseMarketData(provider, message).None?
  {
  }

  // ---------------------------------------------------------------------------------------------
  // The connection state machine

  datatype SystemOutcome = SystemOutcome(connected: bool, commands: seq<Command>, raised: seq<Delivery<bool>>)

  /**
   * One system message: the connected marker is checked first; each branch acts only when it
   * changes the flag, and then selects the update fields (on connect) and raises the event.
   */
  function SystemStep(connected: bool, slot: Option<Handler>, message: string): (r: SystemOutcome)
    ensures r.connected == (Contains(message, ServerConnected) || (connected && !Contains(message, ServerDisconnected)))
    ensures r.commands == (if !connected && r.connected then [SelectUpdateFieldName(UpdateFieldNames)] else [])
    ensures r.raised == (if r.connected != connected then Raise(slot, r.connected) else [])
  {
    if Contains(message, ServerConnected) then
      if !connected then SystemOutcome(true, [SelectUpdateFieldName(UpdateFieldNames)], Raise(slot, true))
      else SystemOutcome(connected, [], [])
    else if Contains(message, ServerDisconnected) then
      if connected then SystemOutcome(false, [], Raise(slot, false))
      else SystemOutcome(connected, [], [])
    else SystemOutcome(connected, [], [])
  }

  /** The state machine over a sequence of system messages, effects concatenated in order. */
  function RunSystem(connected: bool, slot: Option<Handler>, messages: seq<string>): SystemOutcome
    decreases |messages|
  {
    if messages == [] then SystemOutcome(connected, [], [])
    else
      var first := SystemStep(connected, slot, messages[0]);
      var rest := RunSystem(first.connected, slot, messages[1..]);
      SystemOutcome(rest.connected, first.commands + rest.commands, first.raised + rest.raised)
  }

  /** While the adapter is connected, a connect message changes nothing, sends nothing and raises nothing. */
  lemma ConnectWhileConnected(slot: Option<Handler>, message: string)
    requires Contains(message, ServerConnected)
    ensures SystemStep(true, slot, message) == SystemOutcome(true, [], [])
  {
  }

  /** A message carrying both markers is a connect, since that marker is checked first. */
  lemma BothMarkersConnect(connected: bool, slot: Option<Handler>, message: string)
    requires Contains(message, ServerConnected) && Contains(message, ServerDisconnected)
    ensures SystemStep(connected, slot, message).connected
  {
  }

  /** A message without either marker changes nothing. */
  lemma OtherMessagesIgnored(connected: bool, slot: Option<Handler>, message: string)
    requires !Contains(message, ServerConnected) && !Contains(message, ServerDisconnected)
    ensures SystemStep(connected, slot, message) == SystemOutcome(connected, [], [])
  {
  }

  predicate AllSelections(commands: seq<Command>)
  {
    forall i :: 0 <= i < |commands| ==> commands[i] == SelectUpdateFieldName(UpdateFieldNames)
  }

  /** Every command the state machine sends is the selection of the update fields. */
  lemma {:induction false} RunSystemOnlySelects(connected: bool, slot: Option<Handler>, messages: seq<string>)
    ensures AllSelections(RunSystem(connected, slot, messages).commands)
    decreases |messages|
  {
    if messages != [] {
      var first := SystemStep(connected, slot, messages[0]);
      RunSystemOnlySelects(first.connected, slot, messages[1..]);
      var rest := RunSystem(first.connected, slot, messages[1..]);
      var r := RunSystem(connected, slot, messages);
      assert r.commands == first.commands + rest.commands;
      forall i | 0 <= i < |r.commands| ensures r.commands[i] == SelectUpdateFieldName(UpdateFieldNames) {
        if i >= |first.commands| {
          assert r.commands[i] == rest.commands[i - |first.commands|];
        } else {
          assert r.commands[i] == first.commands[i];
        }
      }
    }
  }

  /**
   * Notifications that all go to `h`, the first carrying the opposite of `start` and each one
   * the opposite of the one before: no two consecutive notifications report the same state.
   */
  predicate Alternates(raised: seq<Delivery<bool>>, h: Handler, start: bool)
  {
    (forall i :: 0 <= i < |raised| ==> raised[i].handler == h) &&
    (|raised| > 0 ==> raised[0].payload == !start) &&
    (forall i :: 0 < i < |raised| ==> raised[i].payload != raised[i - 1].payload)
  }

  /** The state last notified, or `start` when nothing was. */
  function LastNotified(raised: seq<Delivery<bool>>, start: bool): bool
  {
    if raised == [] then start else raised[|raised| - 1].payload
  }

  lemma AlternatesPrepend(rest: seq<Delivery<bool>>, h: Handler, start: bool)
    requires Alternates(rest, h, !start)
    ensures Alternates([Delivery(h, !start)] + rest, h, start)
  {
    var r := [Delivery(h, !start)] + rest;
    forall i | 0 < i < |r| ensures r[i].payload != r[i - 1].payload {
      assert r[i] == rest[i - 1];
      if i > 1 {
        assert r[i - 1] == rest[i - 2];
      }
    }
    forall i | 0 <= i < |r| ensures r[i].handler == h {
      if i > 0 {
        assert r[i] == rest[i - 1];
      }
    }
  }

  lemma LastNotifiedPrepend(rest: seq<Delivery<bool>>, d: Delivery<bool>, start: bool)
    ensures LastNotified([d] + rest, start) == LastNotified(rest, d.payload)
  {
  }

  /**
   * Duplicate notifications are suppressed over any run: with a handler registered, the
   * notifications alternate starting from the opposite of the initial state.
   */
  lemma {:induction false} RunSystemAlternates(connected: bool, h: Handler, messages: seq<string>)
    ensures Alternates(RunSystem(connected, Some(h), messages).raised, h, connected)
    decreases |messages|
  {
    if messages != [] {
      var first := SystemStep(connected, Some(h), messages[0]);
      RunSystemAlternates(first.connected, h, messages[1..]);
      var rest := RunSystem(first.connected, Some(h), messages[1..]);
      if first.connected != connected {
        assert first.raised == [Delivery(h, !connected)];
        AlternatesPrepend(rest.raised, h, connected);
      }
    }
  }

  /** Over any run with a handler registered, the final state is the last one notified. */
  lemma {:induction false} RunSystemEndsNotified(connected: bool, h: Handler, messages: seq<string>)
    ensures RunSystem(connected, Some(h), messages).connected == LastNotified(RunSystem(connected, Some(h), messages).raised, connected)
    decreases |messages|
  {
    if messages != [] {
      var first := SystemStep(connected, Some(h), messages[0]);
      RunSystemEndsNotified(first.connected, h, messages[1..]);
      var rest := RunSystem(first.connected, Some(h), messages[1..]);
      if first.connected != connected {
        assert first.raised == [Delivery(h, !connected)];
        LastNotifiedPrepend(rest.raised, Delivery(h, !connected), connected);
      }
    }
  }

  /** The number of notifications that report a connection. */
  function Connects(raised: seq<Delivery<bool>>): nat
  {
    if raised == [] then 0 else (if raised[0].payload then 1 else 0) + Connects(raised[1..])
  }

  /** With a handler registered, one field selection is sent per connection notified. */
  lemma {:induction false} RunSystemSelectsPerConnect(connected: bool, h: Handler, messages: seq<string>)
    ensures var r := RunSystem(connected, Some(h), messages);
      |r.commands| == Connects(r.raised)
    decreases |messages|
  {
    if messages != [] {
      var first := SystemStep(connected, Some(h), messages[0]);
      RunSystemSelectsPerConnect(first.connected, h, messages[1..]);
      var rest := RunSystem(first.connected, Some(h), messages[1..]);
      var r := RunSystem(connected, Some(h), messages);
      if first.connected != connected {
        assert r.raised == [Delivery(h, first.connected)] + rest.raised;
        assert r.raised[1..] == rest.raised;
      } else {
        assert r.raised == rest.raised;
      }
    }
  }

  /** The flag and the commands do not depend on whether a connection handler is registered. */
  lemma {:induction false} RunSystemIgnoresHandler(connected: bool, s1: Option<Handler>, s2: Option<Handler>,
                                                  messages: seq<string>)
    ensures RunSystem(connected, s1, messages).connected == RunSystem(connected, s2, messages).connected
    ensures RunSystem(connected, s1, messages).commands == RunSystem(connected, s2, messages).commands
    decreases |messages|
  {
    if messages != [] {
      RunSystemIgnoresHandler(SystemStep(connected, s1, messages[0]).connected, s1, s2, messages[1..]);
    }
  }

  /** Two connect messages in a row from Disconnected: one field selection and one notification. */
  lemma ConnectTwice(h: Handler, m1: string, m2: string)
    requires Contains(m1, ServerConnected) && Contains(m2, ServerConnected)
    ensures RunSystem(false, Some(h), [m1, m2])
      == SystemOutcome(true, [SelectUpdateFieldName(UpdateFieldNames)], [Delivery(h, true)])
  {
    assert [m1, m2][1..] == [m2];
    assert RunSystem(true, Some(h), [m2]) == SystemOutcome(true, [], []) by {
      assert [m2][1..] == [];
    }
  }

  // ---------------------------------------------------------------------------------------------
  // The adapter

  class LevelOneData {
    /** The provider name stamped on every tick. */
    const providerName: string
    var connected: bool
    var connectionHandler: Option<Handler>
    var dataHandler: Option<Handler>
    /** Commands issued to the feed connection, oldest first. */
    var sent: seq<Command>
    /** Calls of the connection handler, oldest first. */
    var connectionRaised: seq<Delivery<bool>>
    /** Calls of the tick handler, oldest first. */
    var ticksRaised: seq<Delivery<Tick>>

    constructor (providerName: string)
      ensures this.providerName == providerName
      ensures !connected && connectionHandler.None? && dataHandler.None?
      ensures sent == [] && connectionRaised == [] && ticksRaised == []
    {
      this.providerName := providerName;
      connected := false;
      connectionHandler, dataHandler := None, None;
      sent, connectionRaised, ticksRaised := [], [], [];
    }

    method AddConnectionHandler(h: Handler)
      modifies this`connectionHandler
      ensures connectionHandler == AddHandler(old(connectionHandler), h)
    {
      if connectionHandler.None? {
        connectionHandler := Some(h);
      }
    }

    method RemoveConnectionHandler(h: Handler)
      modifies this`connectionHandler
      ensures connectionHandler == RemoveHandler(old(connectionHandler), h)
    {
      if connectionHandler == Some(h) {
        connectionHandler := None;
      }
    }

    method AddDataHandler(h: Handler)
      modifies this`dataHandler
      ensures dataHandler == AddHandler(old(dataHandler), h)
    {
      if dataHandler.None? {
        dataHandler := Some(h);
      }
    }

    method RemoveDataHandler(h: Handler)
      modifies this`dataHandler
      ensures dataHandler == RemoveHandler(old(dataHandler), h)
    {
      if dataHandler == Some(h) {
        dataHandler := None;
      }
    }

    /** Watches the upper-cased symbol, but only while connected; otherwise nothing happens. */
    method Subscribe(symbol: string)
      modifies this`sent
      ensures connected ==> sent == old(sent) + [ReqWatch(ToUpper(symbol))]
      ensures !connected ==> sent == old(sent)
    {
      if connected {
        sent := sent + [ReqWatch(ToUpper(symbol))];
      }
    }

    /** Stops watching the upper-cased symbol, but only while connected; otherwise nothing happens. */
    method Unsubscribe(symbol: string)
      modifies this`sent
      ensures connected ==> sent == old(sent) + [ReqUnwatch(ToUpper(symbol))]
      ensures !connected ==> sent == old(sent)
    {
      if connected {
        sent := sent + [ReqUnwatch(ToUpper(symbol))];
      }
    }

    /** Sends one unwatch-all command, connected or not. */
    method Stop()
      modifies this`sent
      ensures sent == old(sent) + [ReqUnwatchAll]
    {
      sent := sent + [ReqUnwatchAll];
    }

    method SetDynamicFieldSets()
      modifies this`sent
      ensures sent == old(sent) + [SelectUpdateFieldName(UpdateFieldNames)]
    {
      sent := sent + [SelectUpdateFieldName(UpdateFieldNames)];
    }

    method RaiseConnectionEvent()
      modifies this`connectionRaised
      ensures connectionRaised == old(connectionRaised) + Raise(connectionHandler, connected)
    {
      if connectionHandler.Some? {
        connectionRaised := connectionRaised + [Delivery(connectionHandler.value, connected)];
      }
    }

    method OnSystemMessage(message: string)
      modifies this`connected, this`sent, this`connectionRaised
      ensures var r := SystemStep(old(connected), connectionHandler, message);
        connected == r.connected && sent == old(sent) + r.commands &&
        connectionRaised == old(connectionRaised) + r.raised
    {
      if Contains(message, ServerConnected) {
        if !connected {
          connected := true;
          SetDynamicFieldSets();
          RaiseConnectionEvent();
        }
      } else if Contains(message, ServerDisconnected) {
        if connected {
          connected := false;
          RaiseConnectionEvent();
        }
      }
    }

    method OnSummaryMessage(message: string)
      modifies this`ticksRaised
      ensures ticksRaised == old(ticksRaised) + RaiseIfSome(dataHandler, ParseMarketData(providerName, message))
    {
      var tick := ParseMarketData(providerName, message);
      if tick.Some? && dataHandler.Some? {
        ticksRaised := ticksRaised + [Delivery(dataHandler.value, tick.value)];
      }
    }

    method OnUpdateMessage(message: string)
      modifies this`ticksRaised
      ensures ticksRaised == old(ticksRaised) + RaiseIfSome(dataHandler, ParseMarketData(providerName, message))
    {
      var tick := ParseMarketData(providerName, message);
      if tick.Some? && dataHandler.Some? {
        ticksRaised := ticksRaised + [Delivery(dataHandler.value, tick.value)];
      }
    }
  }
}
