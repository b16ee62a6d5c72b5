/**
 * `processEvent` (markets/market.go) without its channels: one event becomes
 * the trace of what it sends, the records on the market channel and the
 * errors on the error channel, each in sending order.
 */
module Normalizer {
  import opened Wrappers
  import opened Text
  import opened Markets

  /** The separator between the two team names of an event. */
  const EventSeparator := " @ "

  /** The state that marks an event as live. */
  const LiveState := "LIVE"

  /** What one event sends: records, then at most one error that ended it. */
  datatype Trace = Trace(records: seq<Market>, errors: seq<Error>)

  /** The record sent for one successfully parsed selection. */
  function Emit(fixtureId: string, betType: string, isLive: bool, selection: Selection, o: Outcome): Market {
    Market(fixtureId, betType, isLive, selection.odds, o.number, o.sideType)
  }

  /**
   * The inner loop, after `sent` has been sent: one record per selection,
   * until the first selection that does not parse, whose error ends the trace.
   */
  function SelectionsTrace(parsers: Parsers, fixtureId: string, isLive: bool, betType: string,
                           sent: seq<Market>, selections: seq<Selection>): Trace
    decreases |selections|
  {
    if |selections| == 0 then Trace(sent, [])
    else
      var o := GetMarketType(parsers, betType, selections[0]);
      if o.err.Some? then Trace(sent, [o.err.value])
      else SelectionsTrace(parsers, fixtureId, isLive, betType,
                           sent + [Emit(fixtureId, betType, isLive, selections[0], o)], selections[1..])
  }

  /**
   * The outer loop, after `sent` has been sent: each market's selections in
   * turn, until a market name missing from the lookup table or a selection
   * error ends the trace.
   */
  function MarketsTrace(parsers: Parsers, fixtureId: string, isLive: bool,
                        sent: seq<Market>, markets: seq<MarketEvent>): Trace
    decreases |markets|
  {
    if |markets| == 0 then Trace(sent, [])
    else
      match LookupBetType(markets[0].marketName)
      case None => Trace(sent, [InvalidBetType(markets[0].marketName)])
      case Some(betType) =>
        var here := SelectionsTrace(parsers, fixtureId, isLive, betType, sent, markets[0].selections);
        if here.errors != [] then here
        else MarketsTrace(parsers, fixtureId, isLive, here.records, markets[1..])
  }

  /**
   * The whole of `processEvent`: the name split on the first " @ ", the start
   * parsed as RFC 3339, then the markets. An event whose name or start is
   * rejected sends exactly one error and no record.
   */
  function EventTrace(parsers: Parsers, event: Event): (r: Trace)
    ensures !Cut(event.name, EventSeparator).found ==> r == Trace([], [InvalidEventName(event.name)])
    ensures Cut(event.name, EventSeparator).found && parsers.parseTime(event.start).None? ==>
      r == Trace([], [InvalidEventDate(event.start)])
  {
    var cut := Cut(event.name, EventSeparator);
    if !cut.found then Trace([], [InvalidEventName(event.name)])
    else
      match parsers.parseTime(event.start)
      case None => Trace([], [InvalidEventDate(event.start)])
      case Some(eventDate) =>
        MarketsTrace(parsers, FindFixture(cut.before, cut.after, eventDate), event.state == LiveState, [], event.markets)
  }

  /**
   * The inner loop of `processEvent`: sends one record per selection after
   * `sent`, and stops at the first selection whose name does not parse.
   */
  method SendSelections(parsers: Parsers, fixtureId: string, isLive: bool, betType: string,
                        sent: seq<Market>, selections: seq<Selection>)
    returns (records: seq<Market>, failure: Option<Error>)
    ensures SelectionsTrace(parsers, fixtureId, isLive, betType, sent, selections) ==
            Trace(records, if failure.Some? then [failure.value] else [])
  {
    records := sent;
    assert selections[0..] == selections;
    var s := 0;
    while s < |selections|
      invariant 0 <= s <= |selections|
      invariant SelectionsTrace(parsers, fixtureId, isLive, betType, sent, selections) ==
                SelectionsTrace(parsers, fixtureId, isLive, betType, records, selections[s..])
    {
      var selection := selections[s];
      assert selections[s..][0] == selection && selections[s..][1..] == selections[s + 1..];
      var outcome := GetMarketType(parsers, betType, selection);
      if outcome.err.Some? {
        return records, outcome.err;
      }
      records := records + [Market(fixtureId, betType, isLive, selection.odds, outcome.number, outcome.sideType)];
      s := s + 1;
    }
    assert selections[s..] == [];
    failure := None;
  }

  /**
   * `processEvent` as a sequential emitter: `records` and `errors` are what it
   * sends on its two channels, and every `return` leaves the event at once.
   */
  method ProcessEvent(parsers: Parsers, event: Event) returns (records: seq<Market>, errors: seq<Error>)
    ensures Trace(records, errors) == EventTrace(parsers, event)
  {
    records, errors := [], [];
    var cut := Cut(event.name, EventSeparator);
    if !cut.found {
      errors := errors + [InvalidEventName(event.name)];
      return;
    }
    var parsed := parsers.parseTime(event.start);
    if parsed.None? {
      errors := errors + [InvalidEventDate(event.start)];
      return;
    }
    var fixtureId := FindFixture(cut.before, cut.after, parsed.value);
    var isLive := event.state == LiveState;
    ghost var whole := EventTrace(parsers, event);
    assert event.markets[0..] == event.markets;

    var m := 0;
    while m < |event.markets|
      invariant 0 <= m <= |event.markets|
      invariant errors == []
      invariant whole == MarketsTrace(parsers, fixtureId, isLive, records, event.markets[m..])
    {
      var market := event.markets[m];
      assert event.markets[m..][0] == market && event.markets[m..][1..] == event.markets[m + 1..];
      var betType := LookupBetType(market.marketName);
      if betType.None? {
        errors := errors + [InvalidBetType(market.marketName)];
        return;
      }
      var failure;
      records, failure := SendSelections(parsers, fixtureId, isLive, betType.value, records, market.selections);
      if failure.Some? {
        errors := errors + [failure.value];
        return;
      }
      m := m + 1;
    }
    assert event.markets[m..] == [];
  }
}
