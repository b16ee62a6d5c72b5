/**
 * What one event's trace is, stated against an independent description: the
 * event's selections flattened in market-then-selection order, and the record
 * each of them is due.
 */
module Properties {
  import opened Wrappers
  import opened Text
  import opened Markets
  import opened Normalizer

  /** A selection together with the bet type of the market it belongs to. */
  datatype Placed = Placed(betType: string, selection: Selection)

  /** Every market name is a key of the lookup table. */
  predicate KnownMarkets(markets: seq<MarketEvent>) {
    forall i | 0 <= i < |markets| :: LookupBetType(markets[i].marketName).Some?
  }

  /** The selections of one market, each tagged with the market's bet type. */
  function Placements(betType: string, selections: seq<Selection>): (r: seq<Placed>)
    ensures |r| == |selections|
    ensures forall i :: 0 <= i < |r| ==> r[i] == Placed(betType, selections[i])
  {
    seq(|selections|, i requires 0 <= i < |selections| => Placed(betType, selections[i]))
  }

  /** All selections of the markets, market by market, in order. */
  function Flatten(markets: seq<MarketEvent>): seq<Placed>
    requires KnownMarkets(markets)
    decreases |markets|
  {
    if |markets| == 0 then []
    else Placements(LookupBetType(markets[0].marketName).value, markets[0].selections) + Flatten(markets[1..])
  }

  /** The total number of selections over the markets. */
  function SelectionCount(markets: seq<MarketEvent>): nat
    decreases |markets|
  {
    if |markets| == 0 then 0 else |markets[0].selections| + SelectionCount(markets[1..])
  }

  /** Every placed selection parses under its bet type. */
  predicate Parses(parsers: Parsers, placed: seq<Placed>) {
    forall k | 0 <= k < |placed| :: GetMarketType(parsers, placed[k].betType, placed[k].selection).err.None?
  }

  /** The records due for the placed selections, one each, in the same order. */
  function Expected(parsers: Parsers, fixtureId: string, isLive: bool, placed: seq<Placed>): (r: seq<Market>)
    ensures |r| == |placed|
  {
    seq(|placed|, k requires 0 <= k < |placed| =>
      Emit(fixtureId, placed[k].betType, isLive, placed[k].selection,
           GetMarketType(parsers, placed[k].betType, placed[k].selection)))
  }

  lemma Assoc<T>(a: seq<T>, b: seq<T>, c: seq<T>)
    ensures a + b + c == a + (b + c)
  {
  }

  lemma ExpectedAppend(parsers: Parsers, fixtureId: string, isLive: bool, a: seq<Placed>, b: seq<Placed>)
    ensures Expected(parsers, fixtureId, isLive, a + b) ==
            Expected(parsers, fixtureId, isLive, a) + Expected(parsers, fixtureId, isLive, b)
  {
    var lhs, rhs := Expected(parsers, fixtureId, isLive, a + b),
                    Expected(parsers, fixtureId, isLive, a) + Expected(parsers, fixtureId, isLive, b);
    forall k | 0 <= k < |lhs| ensures lhs[k] == rhs[k] {
      if k < |a| { assert (a + b)[k] == a[k]; } else { assert (a + b)[k] == b[k - |a|]; }
    }
  }

  lemma ParsesAppend(parsers: Parsers, a: seq<Placed>, b: seq<Placed>)
    ensures Parses(parsers, a + b) <==> Parses(parsers, a) && Parses(parsers, b)
  {
    if Parses(parsers, a) && Parses(parsers, b) {
      forall k | 0 <= k < |a + b|
        ensures GetMarketType(parsers, (a + b)[k].betType, (a + b)[k].selection).err.None?
      {
        if k < |a| { assert (a + b)[k] == a[k]; } else { assert (a + b)[k] == b[k - |a|]; }
      }
    }
    if Parses(parsers, a + b) {
      forall k | 0 <= k < |a| ensures GetMarketType(parsers, a[k].betType, a[k].selection).err.None? {
        assert (a + b)[k] == a[k];
      }
      forall k | 0 <= k < |b| ensures GetMarketType(parsers, b[k].betType, b[k].selection).err.None? {
        assert (a + b)[|a| + k] == b[k];
      }
    }
  }

  /** Flattening counts every selection once. */
  lemma {:induction false} FlattenLength(markets: seq<MarketEvent>)
    requires KnownMarkets(markets)
    ensures |Flatten(markets)| == SelectionCount(markets)
    decreases |markets|
  {
    if |markets| > 0 {
      FlattenLength(markets[1..]);
    }
  }

  /** Splitting off a market's first selection, for the records due. */
  lemma ExpectedCons(parsers: Parsers, fixtureId: string, isLive: bool, betType: string, selections: seq<Selection>)
    requires |selections| > 0
    ensures Expected(parsers, fixtureId, isLive, Placements(betType, selections)) ==
      [Emit(fixtureId, betType, isLive, selections[0], GetMarketType(parsers, betType, selections[0]))] +
      Expected(parsers, fixtureId, isLive, Placements(betType, selections[1..]))
  {
    var placed := Placements(betType, selections);
    var rest := Placements(betType, selections[1..]);
    assert placed == [placed[0]] + rest;
    ExpectedAppend(parsers, fixtureId, isLive, [placed[0]], rest);
  }

  /** Splitting off a market's first selection, for parsing. */
  lemma ParsesCons(parsers: Parsers, betType: string, selections: seq<Selection>)
    requires |selections| > 0
    ensures Parses(parsers, Placements(betType, selections)) <==>
      GetMarketType(parsers, betType, selections[0]).err.None? &&
      Parses(parsers, Placements(betType, selections[1..]))
  {
    var placed := Placements(betType, selections);
    var rest := Placements(betType, selections[1..]);
    assert placed == [placed[0]] + rest;
    ParsesAppend(parsers, [placed[0]], rest);
  }

  /** When every selection parses, the inner loop sends exactly their records. */
  lemma {:induction false} SelectionsAllParse(parsers: Parsers, fixtureId: string, isLive: bool, betType: string,
                                              sent: seq<Market>, selections: seq<Selection>)
    requires Parses(parsers, Placements(betType, selections))
    ensures SelectionsTrace(parsers, fixtureId, isLive, betType, sent, selections) ==
            Trace(sent + Expected(parsers, fixtureId, isLive, Placements(betType, selections)), [])
    decreases |selections|
  {
    if |selections| == 0 {
      assert sent + [] == sent;
    } else {
      ExpectedCons(parsers, fixtureId, isLive, betType, selections);
      ParsesCons(parsers, betType, selections);
      var first := Emit(fixtureId, betType, isLive, selections[0], GetMarketType(parsers, betType, selections[0]));
      var rest := Expected(parsers, fixtureId, isLive, Placements(betType, selections[1..]));
      SelectionsAllParse(parsers, fixtureId, isLive, betType, sent + [first], selections[1..]);
      Assoc(sent, [first], rest);
    }
  }

  /**
   * When the selections `ok` parse and `bad` does not, the inner loop sends the
   * records of `ok`, then `bad`'s error, and nothing for the selections after.
   */
  lemma {:induction false} SelectionsStop(parsers: Parsers, fixtureId: string, isLive: bool, betType: string,
                                          sent: seq<Market>, ok: seq<Selection>, bad: Selection, rest: seq<Selection>)
    requires Parses(parsers, Placements(betType, ok))
    requires GetMarketType(parsers, betType, bad).err.Some?
    ensures SelectionsTrace(parsers, fixtureId, isLive, betType, sent, ok + [bad] + rest) ==
            Trace(sent + Expected(parsers, fixtureId, isLive, Placements(betType, ok)),
                  [GetMarketType(parsers, betType, bad).err.value])
    decreases |ok|
  {
    var selections := ok + [bad] + rest;
    if |ok| == 0 {
      assert selections[0] == bad;
      assert sent + Expected(parsers, fixtureId, isLive, Placements(betType, ok)) == sent;
    } else {
      ExpectedCons(parsers, fixtureId, isLive, betType, ok);
      ParsesCons(parsers, betType, ok);
      assert selections[0] == ok[0];
      assert selections[1..] == ok[1..] + [bad] + rest;
      var first := Emit(fixtureId, betType, isLive, ok[0], GetMarketType(parsers, betType, ok[0]));
      var others := Expected(parsers, fixtureId, isLive, Placements(betType, ok[1..]));
      SelectionsStop(parsers, fixtureId, isLive, betType, sent + [first], ok[1..], bad, rest);
      Assoc(sent, [first], others);
    }
  }

  /** A first market that is known and whose selections all parse sends its records and hands over to the rest. */
  lemma MarketsFirstPasses(parsers: Parsers, fixtureId: string, isLive: bool,
                           sent: seq<Market>, markets: seq<MarketEvent>, betType: string)
    requires |markets| > 0
    requires LookupBetType(markets[0].marketName) == Some(betType)
    requires Parses(parsers, Placements(betType, markets[0].selections))
    ensures MarketsTrace(parsers, fixtureId, isLive, sent, markets) ==
      MarketsTrace(parsers, fixtureId, isLive,
                   sent + Expected(parsers, fixtureId, isLive, Placements(betType, markets[0].selections)), markets[1..])
  {
    SelectionsAllParse(parsers, fixtureId, isLive, betType, sent, markets[0].selections);
  }

  /** When every market is known and every selection parses, the outer loop sends exactly their records. */
  lemma {:induction false} MarketsAllValid(parsers: Parsers, fixtureId: string, isLive: bool,
                                           sent: seq<Market>, markets: seq<MarketEvent>)
    requires KnownMarkets(markets) && Parses(parsers, Flatten(markets))
    ensures MarketsTrace(parsers, fixtureId, isLive, sent, markets) ==
            Trace(sent + Expected(parsers, fixtureId, isLive, Flatten(markets)), [])
    decreases |markets|
  {
    if |markets| == 0 {
      assert sent + [] == sent;
    } else {
      var betType := LookupBetType(markets[0].marketName).value;
      var first := Placements(betType, markets[0].selections);
      KnownCons(parsers, markets);
      MarketsFirstPasses(parsers, fixtureId, isLive, sent, markets, betType);
      var sentFirst := sent + Expected(parsers, fixtureId, isLive, first);
      MarketsAllValid(parsers, fixtureId, isLive, sentFirst, markets[1..]);
      ExpectedAppend(parsers, fixtureId, isLive, first, Flatten(markets[1..]));
      Assoc(sent, Expected(parsers, fixtureId, isLive, first), Expected(parsers, fixtureId, isLive, Flatten(markets[1..])));
    }
  }

  /** A known, parsing list of markets with its first market split off. */
  lemma KnownCons(parsers: Parsers, markets: seq<MarketEvent>)
    requires |markets| > 0
    requires KnownMarkets(markets) && Parses(parsers, Flatten(markets))
    ensures LookupBetType(markets[0].marketName).Some?
    ensures KnownMarkets(markets[1..])
    ensures Parses(parsers, Placements(LookupBetType(markets[0].marketName).value, markets[0].selections))
    ensures Parses(parsers, Flatten(markets[1..]))
  {
    assert KnownMarkets(markets[1..]) by {
      forall i | 0 <= i < |markets[1..]| ensures LookupBetType(markets[1..][i].marketName).Some? {
        assert markets[1..][i] == markets[i + 1];
      }
    }
    ParsesAppend(parsers, Placements(LookupBetType(markets[0].marketName).value, markets[0].selections),
                 Flatten(markets[1..]));
  }

  /**
   * When the markets `ok` are known and parse and `bad` has a name missing from
   * the lookup table, the outer loop sends the records of `ok`, then one error,
   * and nothing for the markets after.
   */
  lemma {:induction false} MarketsStopAtUnknown(parsers: Parsers, fixtureId: string, isLive: bool,
                                                sent: seq<Market>, ok: seq<MarketEvent>, bad: MarketEvent,
                                                rest: seq<MarketEvent>)
    requires KnownMarkets(ok) && Parses(parsers, Flatten(ok))
    requires LookupBetType(bad.marketName).None?
    ensures MarketsTrace(parsers, fixtureId, isLive, sent, ok + [bad] + rest) ==
            Trace(sent + Expected(parsers, fixtureId, isLive, Flatten(ok)), [InvalidBetType(bad.marketName)])
    decreases |ok|
  {
    var markets := ok + [bad] + rest;
    if |ok| == 0 {
      assert markets[0] == bad;
      assert sent + Expected(parsers, fixtureId, isLive, Flatten(ok)) == sent;
    } else {
      KnownCons(parsers, ok);
      assert markets[0] == ok[0];
      assert markets[1..] == ok[1..] + [bad] + rest;
      var firstType := LookupBetType(ok[0].marketName).value;
      var first := Placements(firstType, ok[0].selections);
      MarketsFirstPasses(parsers, fixtureId, isLive, sent, markets, firstType);
      var sentFirst := sent + Expected(parsers, fixtureId, isLive, first);
      MarketsStopAtUnknown(parsers, fixtureId, isLive, sentFirst, ok[1..], bad, rest);
      ExpectedAppend(parsers, fixtureId, isLive, first, Flatten(ok[1..]));
      Assoc(sent, Expected(parsers, fixtureId, isLive, first), Expected(parsers, fixtureId, isLive, Flatten(ok[1..])));
    }
  }

  /**
   * When the markets `ok` are known and parse, and market `bad` is known but its
   * selection `badSelection` does not parse (after `okSelections`, which do),
   * the outer loop sends the records of `ok` and of `okSelections`, then that
   * selection's error, and nothing after it.
   */
  lemma {:induction false} MarketsStopAtSelection(parsers: Parsers, fixtureId: string, isLive: bool,
                                                  sent: seq<Market>, ok: seq<MarketEvent>, bad: MarketEvent,
                                                  rest: seq<MarketEvent>, betType: string,
                                                  okSelections: seq<Selection>, badSelection: Selection,
                                                  restSelections: seq<Selection>)
    requires KnownMarkets(ok) && Parses(parsers, Flatten(ok))
    requires LookupBetType(bad.marketName) == Some(betType)
    requires bad.selections == okSelections + [badSelection] + restSelections
    requires Parses(parsers, Placements(betType, okSelections))
    requires GetMarketType(parsers, betType, badSelection).err.Some?
    ensures MarketsTrace(parsers, fixtureId, isLive, sent, ok + [bad] + rest) ==
            Trace(sent + Expected(parsers, fixtureId, isLive, Flatten(ok) + Placements(betType, okSelections)),
                  [GetMarketType(parsers, betType, badSelection).err.value])
    decreases |ok|
  {
    var markets := ok + [bad] + rest;
    var tail := Placements(betType, okSelections);
    if |ok| == 0 {
      assert markets[0] == bad;
      SelectionsStop(parsers, fixtureId, isLive, betType, sent, okSelections, badSelection, restSelections);
      assert Flatten(ok) + tail == tail;
    } else {
      KnownCons(parsers, ok);
      assert markets[0] == ok[0];
      assert markets[1..] == ok[1..] + [bad] + rest;
      var firstType := LookupBetType(ok[0].marketName).value;
      var first := Placements(firstType, ok[0].selections);
      var others := Flatten(ok[1..]);
      MarketsFirstPasses(parsers, fixtureId, isLive, sent, markets, firstType);
      var sentFirst := sent + Expected(parsers, fixtureId, isLive, first);
      MarketsStopAtSelection(parsers, fixtureId, isLive, sentFirst, ok[1..], bad, rest, betType,
                             okSelections, badSelection, restSelections);
      ExpectedAppend(parsers, fixtureId, isLive, first, others + tail);
      assert Flatten(ok) == first + others;
      Assoc(first, others, tail);
      Assoc(sent, Expected(parsers, fixtureId, isLive, first), Expected(parsers, fixtureId, isLive, others + tail));
    }
  }

  /** A trace with no error saw only parsing selections. */
  lemma {:induction false} SelectionsErrorFree(parsers: Parsers, fixtureId: string, isLive: bool, betType: string,
                                               sent: seq<Market>, selections: seq<Selection>)
    ensures SelectionsTrace(parsers, fixtureId, isLive, betType, sent, selections).errors == [] ==>
            Parses(parsers, Placements(betType, selections))
    decreases |selections|
  {
    if |selections| > 0 {
      var o := GetMarketType(parsers, betType, selections[0]);
      if o.err.None? {
        SelectionsErrorFree(parsers, fixtureId, isLive, betType,
                            sent + [Emit(fixtureId, betType, isLive, selections[0], o)], selections[1..]);
        ParsesCons(parsers, betType, selections);
      }
    }
  }

  /** A trace with no error saw only known markets and parsing selections. */
  lemma {:induction false} MarketsErrorFree(parsers: Parsers, fixtureId: string, isLive: bool,
                                            sent: seq<Market>, markets: seq<MarketEvent>)
    ensures MarketsTrace(parsers, fixtureId, isLive, sent, markets).errors == [] ==>
            KnownMarkets(markets) && Parses(parsers, Flatten(markets))
    decreases |markets|
  {
    if |markets| > 0 && LookupBetType(markets[0].marketName).Some? {
      var betType := LookupBetType(markets[0].marketName).value;
      var here := SelectionsTrace(parsers, fixtureId, isLive, betType, sent, markets[0].selections);
      if here.errors == [] {
        SelectionsErrorFree(parsers, fixtureId, isLive, betType, sent, markets[0].selections);
        MarketsErrorFree(parsers, fixtureId, isLive, here.records, markets[1..]);
        if MarketsTrace(parsers, fixtureId, isLive, sent, markets).errors == [] {
          assert KnownMarkets(markets) by {
            forall i | 0 <= i < |markets| ensures LookupBetType(markets[i].marketName).Some? {
              if i > 0 { assert markets[i] == markets[1..][i - 1]; }
            }
          }
          ParsesAppend(parsers, Placements(betType, markets[0].selections), Flatten(markets[1..]));
        }
      }
    }
  }

  /** The three bet types the lookup table can produce. */
  predicate IsBetType(betType: string) {
    betType == Moneyline || betType == Spread || betType == Total
  }

  /** Every record carries the given fixture identifier and liveness and a bet type of the table. */
  predicate Uniform(records: seq<Market>, fixtureId: string, isLive: bool) {
    forall k | 0 <= k < |records| ::
      records[k].fixtureId == fixtureId && records[k].isLive == isLive && IsBetType(records[k].betType)
  }

  /** The inner loop keeps every record uniform and sends at most one error. */
  lemma {:induction false} SelectionsUniform(parsers: Parsers, fixtureId: string, isLive: bool, betType: string,
                                             sent: seq<Market>, selections: seq<Selection>)
    requires IsBetType(betType) && Uniform(sent, fixtureId, isLive)
    ensures var r := SelectionsTrace(parsers, fixtureId, isLive, betType, sent, selections);
      Uniform(r.records, fixtureId, isLive) && |r.errors| <= 1
    decreases |selections|
  {
    if |selections| > 0 {
      var o := GetMarketType(parsers, betType, selections[0]);
      if o.err.None? {
        var next := sent + [Emit(fixtureId, betType, isLive, selections[0], o)];
        assert Uniform(next, fixtureId, isLive) by {
          forall k | 0 <= k < |next|
            ensures next[k].fixtureId == fixtureId && next[k].isLive == isLive && IsBetType(next[k].betType)
          {
            if k < |sent| { assert next[k] == sent[k]; }
          }
        }
        SelectionsUniform(parsers, fixtureId, isLive, betType, next, selections[1..]);
      }
    }
  }

  /** The outer loop keeps every record uniform and sends at most one error. */
  lemma {:induction false} MarketsUniform(parsers: Parsers, fixtureId: string, isLive: bool,
                                          sent: seq<Market>, markets: seq<MarketEvent>)
    requires Uniform(sent, fixtureId, isLive)
    ensures var r := MarketsTrace(parsers, fixtureId, isLive, sent, markets);
      Uniform(r.records, fixtureId, isLive) && |r.errors| <= 1
    decreases |markets|
  {
    if |markets| > 0 && LookupBetType(markets[0].marketName).Some? {
      var betType := LookupBetType(markets[0].marketName).value;
      SelectionsUniform(parsers, fixtureId, isLive, betType, sent, markets[0].selections);
      var here := SelectionsTrace(parsers, fixtureId, isLive, betType, sent, markets[0].selections);
      if here.errors == [] {
        MarketsUniform(parsers, fixtureId, isLive, here.records, markets[1..]);
      }
    }
  }

  /** The event's name splits on " @ " and its start parses. */
  predicate HeaderOk(parsers: Parsers, event: Event) {
    Cut(event.name, EventSeparator).found && parsers.parseTime(event.start).Some?
  }

  /** The fixture identifier of an event whose name and start are accepted. */
  function FixtureOf(parsers: Parsers, event: Event): string
    requires HeaderOk(parsers, event)
  {
    var cut := Cut(event.name, EventSeparator);
    FindFixture(cut.before, cut.after, parsers.parseTime(event.start).value)
  }

  /** A name written `team1 + " @ " + team2`, with no '@' in `team1`, splits into those two teams. */
  lemma CutOfTeams(team1: string, team2: string)
    requires '@' !in team1
    ensures Cut(team1 + EventSeparator + team2, EventSeparator) == CutResult(team1, team2, true)
  {
    var s := team1 + EventSeparator + team2;
    forall j | 0 <= j < |team1| ensures !OccursAt(s, EventSeparator, j) {
      var c := if j + 1 < |team1| then team1[j + 1] else ' ';
      assert s[j + 1] == c && c != '@';
      assert s[j..j + 3][1] != EventSeparator[1];
    }
    assert s[|team1|..|team1| + 3] == EventSeparator;
    CutAt(s, EventSeparator, |team1|);
    assert s[..|team1|] == team1 && s[|team1| + 3..] == team2;
  }

  /**
   * Two events with different team pairs reach the same fixture identifier:
   * "a, Team 2: b @ c" and "a @ b, Team 2: c" split into the two pairs of
   * `FixtureCollision` when `a` and `b` contain no '@'.
   */
  lemma EventFixtureCollision(parsers: Parsers, first: Event, second: Event, a: string, b: string, c: string)
    requires '@' !in a && '@' !in b
    requires first.name == a + ", Team 2: " + b + EventSeparator + c
    requires second.name == a + EventSeparator + b + ", Team 2: " + c
    requires first.start == second.start && parsers.parseTime(first.start).Some?
    ensures HeaderOk(parsers, first) && HeaderOk(parsers, second)
    ensures Cut(first.name, EventSeparator).before != Cut(second.name, EventSeparator).before
    ensures FixtureOf(parsers, first) == FixtureOf(parsers, second)
  {
    var team1 := a + ", Team 2: " + b;
    assert '@' !in team1;
    CutOfTeams(team1, c);
    assert second.name == a + EventSeparator + (b + ", Team 2: " + c);
    CutOfTeams(a, b + ", Team 2: " + c);
    FixtureCollision(a, b, c, parsers.parseTime(first.start).value);
  }

  /**
   * An event sends at most one error; every record it sends carries the
   * event's fixture identifier, is live exactly when the state is "LIVE", and
   * has one of the table's three bet types.
   */
  lemma EventRecordsUniform(parsers: Parsers, event: Event)
    ensures |EventTrace(parsers, event).errors| <= 1
    ensures EventTrace(parsers, event).records != [] ==> HeaderOk(parsers, event)
    ensures HeaderOk(parsers, event) ==>
      Uniform(EventTrace(parsers, event).records, FixtureOf(parsers, event), event.state == LiveState)
  {
    if HeaderOk(parsers, event) {
      MarketsUniform(parsers, FixtureOf(parsers, event), event.state == LiveState, [], event.markets);
    }
  }

  /**
   * An event whose name and start are accepted, whose market names are all in
   * the table and whose selections all parse sends one record per selection,
   * in market-then-selection order, and no error.
   */
  lemma EventAllValid(parsers: Parsers, event: Event)
    requires HeaderOk(parsers, event)
    requires KnownMarkets(event.markets) && Parses(parsers, Flatten(event.markets))
    ensures EventTrace(parsers, event) ==
      Trace(Expected(parsers, FixtureOf(parsers, event), event.state == LiveState, Flatten(event.markets)), [])
    ensures |EventTrace(parsers, event).records| == SelectionCount(event.markets)
  {
    MarketsAllValid(parsers, FixtureOf(parsers, event), event.state == LiveState, [], event.markets);
    FlattenLength(event.markets);
    assert [] + Expected(parsers, FixtureOf(parsers, event), event.state == LiveState, Flatten(event.markets)) ==
           Expected(parsers, FixtureOf(parsers, event), event.state == LiveState, Flatten(event.markets));
  }

  /**
   * A market name missing from the table sends one error and ends the event:
   * the records of the markets before it stay sent, none come after it.
   */
  lemma EventStopsAtUnknownMarket(parsers: Parsers, event: Event,
                                  ok: seq<MarketEvent>, bad: MarketEvent, rest: seq<MarketEvent>)
    requires HeaderOk(parsers, event)
    requires event.markets == ok + [bad] + rest
    requires KnownMarkets(ok) && Parses(parsers, Flatten(ok))
    requires LookupBetType(bad.marketName).None?
    ensures EventTrace(parsers, event) ==
      Trace(Expected(parsers, FixtureOf(parsers, event), event.state == LiveState, Flatten(ok)),
            [InvalidBetType(bad.marketName)])
  {
    var fixtureId, isLive := FixtureOf(parsers, event), event.state == LiveState;
    MarketsStopAtUnknown(parsers, fixtureId, isLive, [], ok, bad, rest);
    assert [] + Expected(parsers, fixtureId, isLive, Flatten(ok)) == Expected(parsers, fixtureId, isLive, Flatten(ok));
  }

  /**
   * A selection that does not parse sends its error and ends the event: the
   * records of the selections before it, in this and earlier markets, stay
   * sent, none come after it.
   */
  lemma EventStopsAtBadSelection(parsers: Parsers, event: Event,
                                 ok: seq<MarketEvent>, bad: MarketEvent, rest: seq<MarketEvent>, betType: string,
                                 okSelections: seq<Selection>, badSelection: Selection, restSelections: seq<Selection>)
    requires HeaderOk(parsers, event)
    requires event.markets == ok + [bad] + rest
    requires KnownMarkets(ok) && Parses(parsers, Flatten(ok))
    requires LookupBetType(bad.marketName) == Some(betType)
    requires bad.selections == okSelections + [badSelection] + restSelections
    requires Parses(parsers, Placements(betType, okSelections))
    requires GetMarketType(parsers, betType, badSelection).err.Some?
    ensures EventTrace(parsers, event) ==
      Trace(Expected(parsers, FixtureOf(parsers, event), event.state == LiveState,
                     Flatten(ok) + Placements(betType, okSelections)),
            [GetMarketType(parsers, betType, badSelection).err.value])
  {
    var fixtureId, isLive := FixtureOf(parsers, event), event.state == LiveState;
    var placed := Flatten(ok) + Placements(betType, okSelections);
    MarketsStopAtSelection(parsers, fixtureId, isLive, [], ok, bad, rest, betType,
                           okSelections, badSelection, restSelections);
    assert [] + Expected(parsers, fixtureId, isLive, placed) == Expected(parsers, fixtureId, isLive, placed);
  }

  /**
   * An event sends no error exactly when its name and start are accepted, all
   * its market names are in the table and all its selections parse.
   */
  lemma EventErrorFreeIffValid(parsers: Parsers, event: Event)
    ensures EventTrace(parsers, event).errors == [] <==>
      HeaderOk(parsers, event) && KnownMarkets(event.markets) && Parses(parsers, Flatten(event.markets))
  {
    if HeaderOk(parsers, event) {
      var fixtureId, isLive := FixtureOf(parsers, event), event.state == LiveState;
      MarketsErrorFree(parsers, fixtureId, isLive, [], event.markets);
      if KnownMarkets(event.markets) && Parses(parsers, Flatten(event.markets)) {
        MarketsAllValid(parsers, fixtureId, isLive, [], event.markets);
      }
    }
  }
}
