# IQFeed market-data adapters, modelled in Dafny

This project models the two provider classes of the TradeSharp IQFeed connector.

- `LevelOneData` receives level-one (quote and trade) messages from the IQFeed connection object. It keeps a connected flag and selects the update fields when the server connects. It turns summary and update messages into ticks and raises connection and tick events.
- `BarData` receives completed interval-bar messages from the streaming-bars connection object. It turns them into bars, issues bar watch and unwatch commands, and raises a bar event.

Both classes follow the same pattern. Every inbound message is a comma-separated string read by field position. A record is produced only when every field it reads parses; otherwise the whole message is discarded. Each event keeps at most one subscriber.

Modules:

- `Wrappers`: the `Option` type.
- `Text`: `String.Split(',')` and its inverse, `Join`; ordinal `String.Contains`; `ToUpperInvariant` on ASCII.
- `Numbers`:
  - `Convert.ToDecimal` and `Convert.ToInt64`, read as under the invariant culture.
  - The `(int)` cast of a decimal.
  - `Decimal` is a mantissa and a scale, so "101.50" keeps its scale of 2, as the runtime's decimal does.
  - The formatting a sender uses, which is the partner of the parsers in the round-trip lemmas.
- `Timestamps`: `DateTime.ParseExact` with the pattern `yyyy-MM-d HH:mm:ss`, plus the text a sender writes for an instant.
- `EventSlots`: the single-subscriber `add`/`remove` accessors and the raising of an event. A handler is an opaque identity, and each handler call is recorded as a `Delivery`.
- `LevelOne`:
  - The tick parser and the connection state machine, as functions.
  - The class `LevelOneData`. Its fields are the connected flag, the two handler slots, the log of commands sent to the connection object, and the logs of handler calls.
- `IntervalBars`: the bar parser and the class `BarData`.
- `Scenarios`: two sample messages, one tick and one bar, parsed to their records.

Behaviour the code does not have, although a reader might expect it:

- There is no subscription registry: `Stop` only sends the unwatch-all command.
- Neither adapter validates a symbol or a bar length before sending. Symbols are only upper-cased.
- `LevelOneData.Subscribe` and `Unsubscribe` send nothing while disconnected. `BarData` sends whatever the state.
- `ParseMarketData` reads the clock but never stores the reading in the tick. The modelled `Tick` therefore has no timestamp.
- The message callbacks take no lock.

## Model

| member | source | states |
|---|---|---|
| EventSlots.AddHandler | TradeSharp.MarketDataProvider.IQFeed/Provider/LevelOneData.cs:79-85 | after `add` the slot is occupied; an occupied slot keeps its handler, an empty one takes the new handler |
| EventSlots.RemoveHandler | TradeSharp.MarketDataProvider.IQFeed/Provider/LevelOneData.cs:86 | after `remove h` the slot never holds `h`; removing the stored handler empties the slot, removing any other handler changes nothing |
| EventSlots.Raise | TradeSharp.MarketDataProvider.IQFeed/Provider/LevelOneData.cs:258-261 | raising makes exactly one call, with the payload, when a handler is stored, and none otherwise |
| EventSlots.RaiseIfSome | TradeSharp.MarketDataProvider.IQFeed/Provider/LevelOneData.cs:214-220 | a handler is called exactly when a record was parsed and a handler is stored, and it receives that record |
| EventSlots.FirstHandlerKept | TradeSharp.MarketDataProvider.IQFeed/Provider/LevelOneData.cs:77-87 | a stored handler stays stored through any sequence of accessor calls that does not remove it |
| EventSlots.FirstRegistrantWins | TradeSharp.MarketDataProvider.IQFeed/Provider/BarData.cs:74-84 | starting empty, with only `add` calls, the first handler added is the one stored |
| EventSlots.ReplaceAfterRemove | TradeSharp.MarketDataProvider.IQFeed/Provider/LevelOneData.cs:92-102 | once the stored handler is removed, the next handler added takes the slot |
| Text.Split | TradeSharp.MarketDataProvider.IQFeed/Provider/LevelOneData.cs:308 | splitting yields at least one field and no field contains the separator |
| Text.SplitLength | TradeSharp.MarketDataProvider.IQFeed/Provider/LevelOneData.cs:308 | the number of fields is one more than the number of separators |
| Text.SplitField | TradeSharp.MarketDataProvider.IQFeed/Provider/BarData.cs:201 | a field without separator, then a separator, comes back as that field followed by the fields of the rest |
| Text.SplitNoSeparator | TradeSharp.MarketDataProvider.IQFeed/Provider/BarData.cs:201 | a string without the separator is one field |
| Text.SplitJoin | TradeSharp.MarketDataProvider.IQFeed/Provider/BarData.cs:201 | splitting fields joined by the separator gives back exactly those fields when none holds the separator |
| Text.JoinSplit | TradeSharp.MarketDataProvider.IQFeed/Provider/LevelOneData.cs:308 | joining the fields of any message gives back the message: splitting loses nothing |
| Text.Contains | TradeSharp.MarketDataProvider.IQFeed/Provider/LevelOneData.cs:248 | the ordinal `String.Contains`; it holds only when the pattern is no longer than the text, and `ContainsOccurrence` characterises it |
| Text.ContainsOccurrence | TradeSharp.MarketDataProvider.IQFeed/Provider/LevelOneData.cs:248 | the ordinal substring test holds exactly when the pattern occurs at some position |
| Text.ToUpper | TradeSharp.MarketDataProvider.IQFeed/Provider/LevelOneData.cs:185 | upper-casing keeps the length, maps each character on its own, and leaves no lower-case ASCII letter |
| Text.ToUpperIdempotent | TradeSharp.MarketDataProvider.IQFeed/Provider/BarData.cs:151 | upper-casing a symbol twice is upper-casing it once |
| Numbers.ParseDecimal | TradeSharp.MarketDataProvider.IQFeed/Provider/LevelOneData.cs:331 | an empty field never parses as a decimal |
| Numbers.ParseUnsignedDecimal | TradeSharp.MarketDataProvider.IQFeed/Provider/BarData.cs:211-214 | an unsigned numeral never yields a negative mantissa |
| Numbers.ParseWholeDigits | TradeSharp.MarketDataProvider.IQFeed/Provider/BarData.cs:211-214 | a run of digits without a point reads as its value with scale 0 |
| Numbers.ParseFractionDigits | TradeSharp.MarketDataProvider.IQFeed/Provider/BarData.cs:211-214 | digits, a point and digits read as the digits run together, with the scale equal to the number of fraction digits |
| Numbers.SignedText | TradeSharp.MarketDataProvider.IQFeed/Provider/LevelOneData.cs:331-332 | a leading '-' negates the value of the unsigned numeral after it and keeps its scale |
| Numbers.ParseFormatDecimal | TradeSharp.MarketDataProvider.IQFeed/Provider/LevelOneData.cs:319-332 | every decimal, written out, reads back with the same mantissa and the same scale |
| Numbers.ParseInt64 | TradeSharp.MarketDataProvider.IQFeed/Provider/BarData.cs:216 | an accepted volume always lies in the signed 64-bit range |
| Numbers.ParseIntegerText | TradeSharp.MarketDataProvider.IQFeed/Provider/BarData.cs:216 | an optional '-' followed by digits reads as the digits' value, negated for '-' |
| Numbers.ParseFormatInt64 | TradeSharp.MarketDataProvider.IQFeed/Provider/BarData.cs:216 | every 64-bit value, written out, reads back as itself |
| Numbers.WholeMagnitude | TradeSharp.MarketDataProvider.IQFeed/Provider/BarData.cs:151 | the whole part of a decimal's magnitude is the largest whole number whose scaled value does not exceed it |
| Numbers.Int32OfDecimal | TradeSharp.MarketDataProvider.IQFeed/Provider/BarData.cs:151 | the `(int)` cast truncates toward zero and keeps the sign, its result fits in 32 bits, and it fails exactly when the truncated magnitude exceeds the 32-bit range for that sign |
| Timestamps.ParseTimestamp | TradeSharp.MarketDataProvider.IQFeed/Provider/BarData.cs:205 | an accepted timestamp names a real instant of years 1 to 9999 |
| Timestamps.ParseFields | TradeSharp.MarketDataProvider.IQFeed/Provider/BarData.cs:205 | the date and time pieces are accepted only as a real instant |
| Timestamps.ParseTimestampText | TradeSharp.MarketDataProvider.IQFeed/Provider/BarData.cs:205 | every valid instant, written with a one- or two-digit day, parses back to itself |
| Timestamps.TimestampIsText | TradeSharp.MarketDataProvider.IQFeed/Provider/BarData.cs:205 | conversely, every accepted text is one of the two renderings of the instant it parses to |
| LevelOne.QuoteAt | TradeSharp.MarketDataProvider.IQFeed/Provider/LevelOneData.cs:317-328 | reads the optional quote at a price index: no quote exactly when the price field is empty, and a quote only when a size field follows; `QuoteAtFields` gives its round trip |
| LevelOne.ParseMarketData | TradeSharp.MarketDataProvider.IQFeed/Provider/LevelOneData.cs:304-341 | splits a summary or update message on ',' and builds a tick stamped with the provider name, or nothing; `ParseMarketDataAccepts`, `ParseMarketDataFields` and `ParseTickMessage` describe it |
| LevelOne.ParseMarketDataAccepts | TradeSharp.MarketDataProvider.IQFeed/Provider/LevelOneData.cs:304-341 | a tick comes out exactly when the last price and size parse, and a non-empty bid or ask price has a size field and both parse; at least seven fields are needed |
| LevelOne.ParseMarketDataFields | TradeSharp.MarketDataProvider.IQFeed/Provider/LevelOneData.cs:308-334 | field 1 is the symbol and fields 2/3 the last trade; the bid is present exactly when field 4 is non-empty, read from fields 4/5; the ask likewise from 6/7 |
| LevelOne.ParseMarketDataIgnoresOtherFields | TradeSharp.MarketDataProvider.IQFeed/Provider/LevelOneData.cs:314-332 | field 0 and every field after 7 have no effect on the tick |
| LevelOne.QuoteAtFields | TradeSharp.MarketDataProvider.IQFeed/Provider/LevelOneData.cs:317-328 | the two written fields of a quote, or two empty fields for no quote, read back as that optional quote |
| LevelOne.TickOfGoodFields | TradeSharp.MarketDataProvider.IQFeed/Provider/LevelOneData.cs:304-334 | fields whose values all parse give the tick built from those values |
| LevelOne.ParseTickMessage | TradeSharp.MarketDataProvider.IQFeed/Provider/LevelOneData.cs:304-341 | round trip: any tick written as a message, whatever field 0 and any trailing fields hold, parses back to that tick |
| LevelOne.SevenFieldsWithoutAsk | TradeSharp.MarketDataProvider.IQFeed/Provider/LevelOneData.cs:323-328 | a message that stops at an empty ask price, seven fields in all, still gives a tick without an ask |
| LevelOne.AskWithoutSizeRejected | TradeSharp.MarketDataProvider.IQFeed/Provider/LevelOneData.cs:324-340 | a non-empty ask price in the last of seven fields throws on the missing size, so the whole message is discarded |
| LevelOne.SystemStep | TradeSharp.MarketDataProvider.IQFeed/Provider/LevelOneData.cs:246-277 | the new flag is "connect marker present, or connected and no disconnect marker"; the fields are selected only on a change to connected; the event is raised only when the flag changes, carrying the new state |
| LevelOne.ConnectWhileConnected | TradeSharp.MarketDataProvider.IQFeed/Provider/LevelOneData.cs:248-263 | a connect message while connected changes nothing, sends nothing and raises nothing |
| LevelOne.BothMarkersConnect | TradeSharp.MarketDataProvider.IQFeed/Provider/LevelOneData.cs:248-264 | a message holding both markers counts as a connect, because that marker is checked first |
| LevelOne.OtherMessagesIgnored | TradeSharp.MarketDataProvider.IQFeed/Provider/LevelOneData.cs:246-277 | a message without either marker changes nothing |
| LevelOne.RunSystemOnlySelects | TradeSharp.MarketDataProvider.IQFeed/Provider/LevelOneData.cs:293-297 | over any sequence of system messages, every command sent is the selection of the seven update fields |
| LevelOne.RunSystemAlternates | TradeSharp.MarketDataProvider.IQFeed/Provider/LevelOneData.cs:250-275 | over any run, the notifications all go to the registered handler; the first reports the opposite of the initial state and no two in a row report the same state |
| LevelOne.RunSystemEndsNotified | TradeSharp.MarketDataProvider.IQFeed/Provider/LevelOneData.cs:250-275 | over any run, the final flag is the state last notified, or the initial state when nothing was notified |
| LevelOne.RunSystemSelectsPerConnect | TradeSharp.MarketDataProvider.IQFeed/Provider/LevelOneData.cs:250-261 | over any run, one field selection is sent per connection notified |
| LevelOne.RunSystemIgnoresHandler | TradeSharp.MarketDataProvider.IQFeed/Provider/LevelOneData.cs:258-273 | the flag and the commands sent do not depend on whether a connection handler is registered |
| LevelOne.ConnectTwice | TradeSharp.MarketDataProvider.IQFeed/Provider/LevelOneData.cs:248-263 | two connect messages from disconnected give one field selection and one notification |
| LevelOne.LevelOneData.constructor | TradeSharp.MarketDataProvider.IQFeed/Provider/LevelOneData.cs:110-117 | a new adapter is disconnected, has no handlers, and has sent and raised nothing |
| LevelOne.LevelOneData.AddConnectionHandler | TradeSharp.MarketDataProvider.IQFeed/Provider/LevelOneData.cs:79-85 | the connection slot becomes the `add` accessor's result |
| LevelOne.LevelOneData.RemoveConnectionHandler | TradeSharp.MarketDataProvider.IQFeed/Provider/LevelOneData.cs:86 | the connection slot becomes the `remove` accessor's result |
| LevelOne.LevelOneData.AddDataHandler | TradeSharp.MarketDataProvider.IQFeed/Provider/LevelOneData.cs:94-100 | the tick slot becomes the `add` accessor's result |
| LevelOne.LevelOneData.RemoveDataHandler | TradeSharp.MarketDataProvider.IQFeed/Provider/LevelOneData.cs:101 | the tick slot becomes the `remove` accessor's result |
| LevelOne.LevelOneData.Subscribe | TradeSharp.MarketDataProvider.IQFeed/Provider/LevelOneData.cs:180-187 | while connected, one watch of the upper-cased symbol is appended to the commands; while disconnected, nothing is sent |
| LevelOne.LevelOneData.Unsubscribe | TradeSharp.MarketDataProvider.IQFeed/Provider/LevelOneData.cs:193-200 | while connected, one unwatch of the upper-cased symbol is appended; while disconnected, nothing is sent |
| LevelOne.LevelOneData.Stop | TradeSharp.MarketDataProvider.IQFeed/Provider/LevelOneData.cs:346-350 | one unwatch-all command is appended, whatever the state |
| LevelOne.LevelOneData.SetDynamicFieldSets | TradeSharp.MarketDataProvider.IQFeed/Provider/LevelOneData.cs:293-297 | the selection of the seven update fields, in their order, is appended |
| LevelOne.LevelOneData.RaiseConnectionEvent | TradeSharp.MarketDataProvider.IQFeed/Provider/LevelOneData.cs:258-261 | the stored connection handler, if any, is called once with the current flag |
| LevelOne.LevelOneData.OnSystemMessage | TradeSharp.MarketDataProvider.IQFeed/Provider/LevelOneData.cs:246-277 | the flag, the commands and the notifications become those of one `SystemStep`, which the lemmas above constrain |
| LevelOne.LevelOneData.OnSummaryMessage | TradeSharp.MarketDataProvider.IQFeed/Provider/LevelOneData.cs:208-221 | the tick handler is called once with the parsed tick when parsing succeeds and a handler is stored; otherwise nothing happens |
| LevelOne.LevelOneData.OnUpdateMessage | TradeSharp.MarketDataProvider.IQFeed/Provider/LevelOneData.cs:227-240 | the same as a summary message |
| IntervalBars.ParseBarData | TradeSharp.MarketDataProvider.IQFeed/Provider/BarData.cs:196-226 | splits a completed-bar message on ',' and builds a bar stamped with the provider name, with a valid instant and a 64-bit volume, or nothing; `ParseBarDataAccepts`, `ParseBarDataFields` and `ParseBarMessage` describe it |
| IntervalBars.ParseBarDataAccepts | TradeSharp.MarketDataProvider.IQFeed/Provider/BarData.cs:196-226 | a bar comes out exactly when there are at least ten fields and the timestamp, the four prices and the volume all parse |
| IntervalBars.ParseBarDataFields | TradeSharp.MarketDataProvider.IQFeed/Provider/BarData.cs:201-216 | field 0 is the request id, 2 the symbol, 3 a valid timestamp, 4 to 7 open, high, low and close, and 9 a 64-bit volume |
| IntervalBars.ShortMessageRejected | TradeSharp.MarketDataProvider.IQFeed/Provider/BarData.cs:216-225 | with fewer than ten fields, reading the volume fails and the message is discarded |
| IntervalBars.ParseBarDataIgnoresOtherFields | TradeSharp.MarketDataProvider.IQFeed/Provider/BarData.cs:203-216 | fields 1 and 8 and every field after 9 have no effect on the bar |
| IntervalBars.BarOfGoodFields | TradeSharp.MarketDataProvider.IQFeed/Provider/BarData.cs:201-219 | fields whose values all parse give the bar built from those values |
| IntervalBars.ParseBarMessage | TradeSharp.MarketDataProvider.IQFeed/Provider/BarData.cs:196-226 | round trip: any bar with a valid instant and a 64-bit volume, written as a message with either day width and any unread fields, parses back to that bar |
| IntervalBars.BarData.constructor | TradeSharp.MarketDataProvider.IQFeed/Provider/BarData.cs:92-99 | a new adapter has no handler and has sent and raised nothing |
| IntervalBars.BarData.AddBarDataHandler | TradeSharp.MarketDataProvider.IQFeed/Provider/BarData.cs:76-82 | the bar slot becomes the `add` accessor's result |
| IntervalBars.BarData.RemoveBarDataHandler | TradeSharp.MarketDataProvider.IQFeed/Provider/BarData.cs:83 | the bar slot becomes the `remove` accessor's result |
| IntervalBars.BarData.Subscribe | TradeSharp.MarketDataProvider.IQFeed/Provider/BarData.cs:148-160 | a watch is appended for the upper-cased symbol: bar length cast to int, empty begin date, 1 day, 100 points, empty filters, the request id, interval type "s", update interval 0; if the cast overflows, the overflow is reported and nothing is sent |
| IntervalBars.BarData.Unsubscribe | TradeSharp.MarketDataProvider.IQFeed/Provider/BarData.cs:166-170 | one unwatch of the upper-cased symbol under the request id is appended |
| IntervalBars.BarData.Stop | TradeSharp.MarketDataProvider.IQFeed/Provider/BarData.cs:231-234 | one unwatch-all command is appended |
| IntervalBars.BarData.OnReceiveData | TradeSharp.MarketDataProvider.IQFeed/Provider/BarData.cs:176-189 | the bar handler is called once with the parsed bar when parsing succeeds and a handler is stored; otherwise nothing happens |
| Scenarios.TickScenario | TradeSharp.MarketDataProvider.IQFeed/Provider/LevelOneData.cs:304-341 | the message `REQ1,AAPL,101.50,100,101.25,50,101.75,50` gives symbol AAPL, last 101.50/100, bid 101.25/50 and ask 101.75/50 |
| Scenarios.BarScenario | TradeSharp.MarketDataProvider.IQFeed/Provider/BarData.cs:196-226 | the message `AAOOA,60,AAPL,2015-02-1 09:30:00,100.0,101.0,99.5,100.5,0,1500` gives request AAOOA, symbol AAPL, 2015-02-01 09:30:00, prices 100.0/101.0/99.5/100.5 and volume 1500 |

## Left out

- Opening the connections (`OpenLevelOneDataConnection`, `OpenBarDataConnection`, `RegisterEvents`, `UnregisterEvents`, `SetProtocol("5.2")`): these create COM objects and hook their callbacks. The model starts from an adapter whose connection object exists and whose callbacks are the `On…` methods.
- `Stop` before a connection was opened dereferences a null connection object in the source. The model always has a connection object.
- `OnErrorMessage` only logs. All logging is left out, including the logging in the `catch` blocks, which the model reduces to a `None` result.
- `DateTime.UtcNow` in `ParseMarketData` is read but never used, so the clock is left out.
- The `Tick` and `Bar` domain classes and `Security` are not part of this model. The records hold only the fields the adapters set.
- Null strings and null requests are not modelled. Every string is a value.
- Concurrency and re-entrancy of the callbacks are not modelled. The connection object calls one callback at a time.
- The `IqFeedConnector` facade and the integration tests are not part of this model.
- Text.ToUpper: does not model culture-specific or non-ASCII upper-casing, because symbols are ASCII and the invariant culture maps other characters in ways this model does not need.
- Numbers.ParseDecimal: assumes the invariant culture. `Convert.ToDecimal(string)` reads with the current culture, so under a culture whose decimal separator is ',' or whose group separator is '.', the same field reads differently ("101.50" is 10150 under de-DE). The model also leaves out the 28-to-29-digit precision limit with its rounding and overflow, and two forms the `Number` style accepts: a trailing sign and trailing NUL characters. The style's rejection of parentheses, currency symbols and exponents is modelled. Its group separator, ',', cannot occur in a field split on ','.
- Numbers.ParseInt64: assumes the invariant culture, where `Convert.ToInt64(string)` uses the current one (its negative sign, for one). Trailing NUL characters, which the runtime accepts, are not modelled.
- EventSlots.AddHandler: a handler is a single non-null delegate. In the source, `+=` with a null delegate leaves the event empty (LevelOneData.cs:83), and `-=` with part of a multicast delegate leaves the rest registered (LevelOneData.cs:86). Neither case is modelled; `AddHandler(None, h)` always stores `h`.
- Numbers.Int32OfDecimal: assumes `BarLength` is a `decimal`. Its declaration is in a domain library that is not part of this model. The integration test sets it to 60.
- Timestamps.ParseTimestamp: does not model the other calendars, time zones or white-space styles that `ParseExact` supports, because the adapter passes the invariant culture and no style.
