/**
 * The records of the betting-market feed, the market-name lookup table, the
 * selection parser and the fixture identifier (markets/market.go).
 */
module Markets {
  import opened Wrappers
  import opened Text

  /**
   * A parsed event start. The normaliser uses a parsed time only through its
   * `%v` rendering inside the fixture identifier, so it is kept as that text.
   */
  datatype Time = Time(rendering: string)

  /**
   * The two library parsers the core calls: `strconv.ParseFloat(_, 64)` and
   * `time.Parse(time.RFC3339, _)`, each a partial function whose internals are
   * not modelled (None is the error return).
   */
  datatype Parsers = Parsers(parseFloat: string -> Option<real>, parseTime: string -> Option<Time>)

  /** One flat output record: one per successfully parsed selection. */
  datatype Market = Market(
    fixtureId: string,
    betType: string,
    isLive: bool,
    odds: real,
    number: real,
    sideType: string)

  /** One outcome of a market, e.g. "Lakers -5.5" at some odds. */
  datatype Selection = Selection(name: string, odds: real)

  /** One raw market of an event: its display name and its selections. */
  datatype MarketEvent = MarketEvent(marketName: string, selections: seq<Selection>)

  /** One raw event of the feed. */
  datatype Event = Event(id: int, name: string, start: string, state: string, markets: seq<MarketEvent>)

  /** The kinds of error the normaliser sends, each with the text it reports. */
  datatype Error =
    | InvalidEventName(name: string)
    | InvalidEventDate(start: string)
    | InvalidBetType(marketName: string)
    | InvalidSpreadFormat(selection: string)
    | InvalidSpreadNumber(selection: string)
    | InvalidTotalFormat(selection: string)
    | InvalidTotalNumber(selection: string)

  const Moneyline := "Moneyline"
  const Spread := "Spread"
  const Total := "Total"

  /** The closed table from raw market names to bet types. */
  const MarketNameMap: map<string, string> :=
    map["Money line" := Moneyline, "Points Spread" := Spread, "Total Points" := Total]

  /** The lookup `marketNameMap[name]` with its `exists` flag. */
  function LookupBetType(marketName: string): (r: Option<string>)
    ensures r == Some(Moneyline) <==> marketName == "Money line"
    ensures r == Some(Spread) <==> marketName == "Points Spread"
    ensures r == Some(Total) <==> marketName == "Total Points"
    ensures r.Some? ==> r.value == Moneyline || r.value == Spread || r.value == Total
  {
    if marketName in MarketNameMap then Some(MarketNameMap[marketName]) else None
  }

  /** `k` is the position of the last space in `name`. */
  predicate LastSpaceAt(name: string, k: int) {
    0 <= k < |name| && name[k] == ' ' && ' ' !in name[k + 1..]
  }

  /** What `getMarketType` returns: the line, the side label and the error. */
  datatype Outcome = Outcome(number: real, sideType: string, err: Option<Error>)

  /**
   * `getMarketType`: Moneyline keeps the whole name; Spread and Total split the
   * name at its last space into a side label and a numeric token, Total
   * lowercasing the label; any other tag yields zero line, empty label, no error.
   */
  function GetMarketType(parsers: Parsers, betType: string, selection: Selection): Outcome {
    var name := selection.name;
    if betType == Moneyline then
      Outcome(0.0, name, None)
    else if betType == Spread then
      var lastSpace := LastIndex(name, ' ');
      if lastSpace == -1 then
        Outcome(0.0, "", Some(InvalidSpreadFormat(name)))
      else
        match parsers.parseFloat(name[lastSpace + 1..])
        case None => Outcome(0.0, "", Some(InvalidSpreadNumber(name)))
        case Some(spread) => Outcome(spread, name[..lastSpace], None)
    else if betType == Total then
      var lastSpace := LastIndex(name, ' ');
      if lastSpace == -1 then
        Outcome(0.0, "", Some(InvalidTotalFormat(name)))
      else
        match parsers.parseFloat(name[lastSpace + 1..])
        case None => Outcome(0.0, "", Some(InvalidTotalNumber(name)))
        case Some(total) => Outcome(total, Lower(name[..lastSpace]), None)
    else
      Outcome(0.0, "", None)
  }

  /**
   * What `getMarketType` promises for each tag: an error comes with zero line
   * and empty label; Moneyline always succeeds with the name verbatim; a tag
   * outside the three is ignored; Spread and Total reject a name without a
   * space, and on success the label is the text before the last space (as is
   * for Spread, lowercased for Total) and the line is the parse of the text
   * after it.
   */
  lemma GetMarketTypeSpec(parsers: Parsers, betType: string, selection: Selection)
    ensures var r := GetMarketType(parsers, betType, selection);
      && (r.err.Some? ==> r.number == 0.0 && r.sideType == "")
      && (betType == Moneyline ==> r == Outcome(0.0, selection.name, None))
      && (betType != Moneyline && betType != Spread && betType != Total ==> r == Outcome(0.0, "", None))
      && (betType == Spread && ' ' !in selection.name ==> r.err == Some(InvalidSpreadFormat(selection.name)))
      && (betType == Total && ' ' !in selection.name ==> r.err == Some(InvalidTotalFormat(selection.name)))
      && (betType == Spread && r.err.None? ==>
            var k := |r.sideType|;
            LastSpaceAt(selection.name, k) && r.sideType == selection.name[..k] &&
            selection.name == r.sideType + " " + selection.name[k + 1..] &&
            parsers.parseFloat(selection.name[k + 1..]) == Some(r.number))
      && (betType == Total && r.err.None? ==>
            var k := |r.sideType|;
            LastSpaceAt(selection.name, k) && r.sideType == Lower(selection.name[..k]) &&
            parsers.parseFloat(selection.name[k + 1..]) == Some(r.number))
      && (betType == Total ==> Lower(r.sideType) == r.sideType)
  {
    var name := selection.name;
    var lastSpace := LastIndex(name, ' ');
    if lastSpace != -1 {
      assert name == name[..lastSpace] + " " + name[lastSpace + 1..];
      LowerIdempotent(name[..lastSpace]);
    }
  }

  /** In `side + " " + token` with no space in `token`, the last space is the one after `side`. */
  lemma LastSpaceOfSplit(side: string, token: string)
    requires ' ' !in token
    ensures LastIndex(side + " " + token, ' ') == |side|
  {
    var name := side + " " + token;
    assert name[|side|] == ' ';
    assert name[|side| + 1..] == token;
  }

  /**
   * Any Spread selection written `side + " " + token`, with no space in the
   * token, yields exactly that side (case kept) and the token's number, or the
   * number error when the token does not parse.
   */
  lemma SpreadOfSplit(parsers: Parsers, side: string, token: string, odds: real)
    requires ' ' !in token
    ensures var name := side + " " + token;
      GetMarketType(parsers, Spread, Selection(name, odds)) ==
        match parsers.parseFloat(token)
        case Some(x) => Outcome(x, side, None)
        case None => Outcome(0.0, "", Some(InvalidSpreadNumber(name)))
  {
    var name := side + " " + token;
    LastSpaceOfSplit(side, token);
    assert name[..|side|] == side;
    assert name[|side| + 1..] == token;
  }

  /**
   * Any Total selection written `side + " " + token`, with no space in the
   * token, yields the lowercased side and the token's number, or the number
   * error when the token does not parse.
   */
  lemma TotalOfSplit(parsers: Parsers, side: string, token: string, odds: real)
    requires ' ' !in token
    ensures var name := side + " " + token;
      GetMarketType(parsers, Total, Selection(name, odds)) ==
        match parsers.parseFloat(token)
        case Some(x) => Outcome(x, Lower(side), None)
        case None => Outcome(0.0, "", Some(InvalidTotalNumber(name)))
  {
    var name := side + " " + token;
    LastSpaceOfSplit(side, token);
    assert name[..|side|] == side;
    assert name[|side| + 1..] == token;
  }

  /** `findFixture`: the teams and the rendered start, in a fixed text layout. */
  function FindFixture(team1: string, team2: string, eventDate: Time): string {
    "Team 1: " + team1 + ", Team 2: " + team2 + ", Event Date: " + eventDate.rendering + "\n"
  }

  /** For the same two teams, the fixture identifier tells start times apart. */
  lemma FixtureDeterminesDate(team1: string, team2: string, date1: Time, date2: Time)
    ensures FindFixture(team1, team2, date1) == FindFixture(team1, team2, date2) <==> date1 == date2
  {
    var prefix := "Team 1: " + team1 + ", Team 2: " + team2 + ", Event Date: ";
    var f1, f2 := FindFixture(team1, team2, date1), FindFixture(team1, team2, date2);
    assert f1 == prefix + date1.rendering + "\n";
    assert f2 == prefix + date2.rendering + "\n";
    if f1 == f2 {
      assert |date1.rendering| == |date2.rendering|;
      assert date1.rendering == f1[|prefix|..|prefix| + |date1.rendering|];
      assert date2.rendering == f2[|prefix|..|prefix| + |date2.rendering|];
    }
  }

  /**
   * Different team pairs can share a fixture identifier: when a team name
   * itself contains the ", Team 2: " text of the layout, the pair
   * (a + ", Team 2: " + b, c) and the pair (a, b + ", Team 2: " + c) differ
   * but render the same.
   */
  lemma FixtureCollision(a: string, b: string, c: string, eventDate: Time)
    ensures a + ", Team 2: " + b != a
    ensures FindFixture(a + ", Team 2: " + b, c, eventDate) == FindFixture(a, b + ", Team 2: " + c, eventDate)
  {
  }

}
