# Betting-market normaliser, modelled in Dafny

The system reads a feed of sporting events. Each event has a name of the form
`"<team 1> @ <team 2>"`, an RFC 3339 start time, a state, and a list of markets.
Each market has a market name and a list of selections. The normaliser turns
every selection into one flat record. A record holds:

- the fixture identifier;
- the bet type (`Moneyline`, `Spread` or `Total`);
- whether the event is live;
- the selection's odds;
- the numeric line parsed from the end of the selection's name;
- the side label.

Anything it cannot read becomes an error.

The model covers the sequential core of `markets/market.go`:

- the `marketNameMap` lookup table;
- `getMarketType`, which splits a selection name at its last space;
- `findFixture`, which builds the fixture identifier;
- `processEvent`, which walks one event and sends records and errors.

The files are:

- `wrappers.dfy` holds `Option`.
- `text.dfy` holds the parts of Go's `strings` package that the core uses: `Cut`, `LastIndex` with a one-character needle, and `ToLower`.
- `markets.dfy` holds the record types, the lookup table, `getMarketType` and `findFixture`.
- `normalizer.dfy` holds `processEvent`. It is the imperative method `ProcessEvent`, which runs the loop over markets; the loop over one market's selections is the method `SendSelections`, which returns the error of a failing selection so that `ProcessEvent` returns at once, as the Go code does. Both are proved equal to a functional trace specification (`EventTrace`, `MarketsTrace`, `SelectionsTrace`).
- `properties.dfy` states what a trace is against an independent description. That description flattens the selections in market-then-selection order and gives the record due for each.

`strconv.ParseFloat` and `time.Parse` are not modelled. They are parameters, held in a `Parsers` value: each is a total function that returns `None` where the Go call returns an error. A parsed time is represented by its `%v` text, because that text is the only thing the core uses.

The two channels of `processEvent` become two output sequences, in the order things are sent: `records` for `marketCh` and `errors` for `errorCh`.

**Two behaviours of the code that a reader might not expect. The model follows the code.**

1. **Errors.** One might expect an unknown market name to skip only that market's selections, and an unparsable selection to skip only that selection. The code instead `return`s from `processEvent` at the first such error (markets/market.go:121-124 and 128-131). So the rest of the event is dropped, and each event sends at most one error. `Properties.EventStopsAtUnknownMarket` and `Properties.EventStopsAtBadSelection` state this behaviour.
2. **Fixture identifiers.** One might expect identifiers that differ whenever the team pair or the start time differs. `findFixture` concatenates text, so a team name that contains `", Team 2: "` makes two different team pairs share an identifier. `Markets.FixtureCollision` states this for every such pair, and `Properties.EventFixtureCollision` shows that the event names "a, Team 2: b @ c" and "a @ b, Team 2: c" reach it through `processEvent`'s own split. For a fixed team pair the start time is still recovered (`Markets.FixtureDeterminesDate`).

## Model

| member | source | states |
|---|---|---|
| Markets.GetMarketType | markets/market.go:146-185 | `getMarketType` itself; it carries no contract of its own, which is stated in `Markets.GetMarketTypeSpec`, `Markets.SpreadOfSplit` and `Markets.TotalOfSplit`. |
| Markets.FindFixture | markets/market.go:82-84 | `findFixture` itself; its contract is in `Markets.FixtureDeterminesDate` and `Markets.FixtureCollision`. |
| Markets.LookupBetType | markets/market.go:46-50 | The table maps exactly "Money line" to Moneyline, "Points Spread" to Spread and "Total Points" to Total, each iff. Every other name is absent, and nothing outside those three tags is ever produced. |
| Markets.GetMarketTypeSpec | markets/market.go:146-185 | An error always comes with line 0 and an empty label. Moneyline returns the name verbatim and never fails. A tag outside the three returns (0, "", no error). Spread and Total reject a name with no space (format error). On success the label is the text before the LAST space, kept as-is for Spread and lowercased for Total. The line is the parse of the text after that space. A Total label is always in lower case. |
| Markets.SpreadOfSplit | markets/market.go:152-165 | Take any name `side + " " + token` whose token has no space. For Spread it yields exactly `side` (case kept) and the token's number, or the number error when the token does not parse. This is the converse of the split in `GetMarketTypeSpec`. |
| Markets.TotalOfSplit | markets/market.go:167-180 | Take any name `side + " " + token` whose token has no space. For Total it yields the lowercased `side` and the token's number, or the number error when the token does not parse. |
| Markets.FixtureDeterminesDate | markets/market.go:82-84 | For the same two teams, two fixture identifiers are equal iff the rendered start times are equal. |
| Markets.FixtureCollision | markets/market.go:82-84 | For any texts a, b, c and start time, the different team pairs (a + ", Team 2: " + b, c) and (a, b + ", Team 2: " + c) get the same fixture identifier. |
| Text.Cut | markets/market.go:104 | When found, the name is exactly `before + " @ " + after`. When not found, the result is (name, "", false). |
| Text.CutFirst | markets/market.go:104 | The split is at the FIRST occurrence: no earlier index starts the separator, and the part before contains no separator. `found` is false exactly when the separator does not occur at all. |
| Text.CutAt | markets/market.go:104 | When `i` is the first index where the separator occurs, the split is exactly the text before index `i` and the text after that occurrence, with `found` true. |
| Text.LastIndex | markets/market.go:153 | The result is -1 iff the character does not occur. Otherwise it indexes that character, and no occurrence follows it. |
| Text.Lower | markets/market.go:180 | Keeps the length of the text; the rest of its contract is in `Text.LowerAt`, `Text.LowerIdempotent` and `Text.LowerHasNoUpper`. |
| Text.LowerAt | markets/market.go:180 | Lowercasing works character by character: each upper-case ASCII letter becomes its own lower-case letter (the code 'A'..'Z' shifted to 'a'..'z'), and every other character is kept. |
| Text.LowerIdempotent | markets/market.go:180 | Lowercasing a lowercased text changes nothing. |
| Text.LowerHasNoUpper | markets/market.go:180 | A lowercased text contains no upper-case ASCII letter. |
| Normalizer.EventTrace | markets/market.go:104-114 | A name without " @ " sends exactly one InvalidEventName error and no record. A name that splits but has an unparsable start sends exactly one InvalidEventDate error and no record. |
| Normalizer.SelectionsTrace | markets/market.go:126-141 | The trace of the inner loop; its contract is in `Properties.SelectionsAllParse`, `Properties.SelectionsStop`, `Properties.SelectionsErrorFree` and `Properties.SelectionsUniform`, and `Normalizer.SendSelections` is proved equal to it. |
| Normalizer.MarketsTrace | markets/market.go:119-142 | The trace of the outer loop; its contract is in `Properties.MarketsAllValid`, `Properties.MarketsStopAtUnknown`, `Properties.MarketsStopAtSelection`, `Properties.MarketsErrorFree` and `Properties.MarketsUniform`. |
| Normalizer.SendSelections | markets/market.go:126-141 | The inner loop sends one record per selection after those already sent, and stops with the error of the first selection that does not parse. Its result equals the trace specification `SelectionsTrace`. |
| Normalizer.ProcessEvent | markets/market.go:101-144 | The records and errors the method sends, with its early returns, are exactly `EventTrace` of the event. |
| Properties.SelectionsAllParse | markets/market.go:126-141 | When every selection of a market parses, the inner loop appends exactly their due records, in order, and sends no error. |
| Properties.SelectionsStop | markets/market.go:126-131 | Given selections `ok + [bad] + rest`, where `ok` parse and `bad` does not, the inner loop sends the records of `ok`, then `bad`'s error, and nothing for `rest`. |
| Properties.MarketsAllValid | markets/market.go:119-142 | When every market name is in the table and every selection parses, the outer loop appends exactly the flattened selections' records and sends no error. |
| Properties.MarketsStopAtUnknown | markets/market.go:119-124 | Given markets `ok + [bad] + rest`, where `bad`'s name is not in the table, the outer loop sends the records of `ok`, one InvalidBetType error, and nothing for `rest`. |
| Properties.MarketsStopAtSelection | markets/market.go:119-131 | When a known market's selection fails after `okSelections`, the outer loop sends the records of the earlier markets and of `okSelections`, then that error, and nothing after. |
| Properties.SelectionsErrorFree | markets/market.go:126-131 | If the inner loop sends no error, every selection parsed. |
| Properties.MarketsErrorFree | markets/market.go:119-131 | If the outer loop sends no error, every market name was known and every selection parsed. |
| Properties.SelectionsUniform | markets/market.go:133-140 | Every record the inner loop adds carries the event's fixture identifier and liveness, and a bet type from the table, and it sends at most one error. |
| Properties.MarketsUniform | markets/market.go:119-140 | The same holds for the outer loop, and it sends at most one error. |
| Properties.FlattenLength | markets/market.go:119-126 | The flattened selections number exactly the sum of the markets' selection counts. |
| Properties.EventRecordsUniform | markets/market.go:116-117 | An event sends at most one error. Any record implies that the name and start were accepted. Every record carries `findFixture` of the split name and parsed start, and is live iff the state is "LIVE". |
| Properties.EventAllValid | markets/market.go:119-142 | For an accepted event with known markets and parsing selections, the records are exactly one per selection, in market-then-selection order, with no error. Their number is the total selection count. |
| Properties.EventStopsAtUnknownMarket | markets/market.go:119-124 | The first unknown market name ends the whole event. Earlier markets' records stay sent, one InvalidBetType error follows, and no later market is looked at. |
| Properties.EventStopsAtBadSelection | markets/market.go:126-131 | The first unparsable selection ends the whole event. Earlier records stay sent, its error follows, and no later selection or market is looked at. |
| Properties.CutOfTeams | markets/market.go:104 | A name `team1 + " @ " + team2` with no '@' in `team1` splits into exactly those two teams. |
| Properties.EventFixtureCollision | markets/market.go:104-116 | Two events named "a, Team 2: b @ c" and "a @ b, Team 2: c" (no '@' in a or b) with the same accepted start are both accepted, split into different first teams, and get the same fixture identifier. |
| Properties.EventErrorFreeIffValid | markets/market.go:101-144 | An event sends no error iff its name splits on " @ ", its start parses, all its market names are in the table and all its selections parse. |

## Left out

- `ProcessMarkets` and `processChans` are not modelled. They are the goroutine-per-event fan-out, the two channels, the `WaitGroup` and the collecting goroutine. Concurrency is outside this model. Three consequences follow:
  - Records from different events can interleave in any order. This model fixes the order within one event only.
  - `ProcessMarkets` reads the collected errors after closing the channels without waiting for the collector. That is a data race.
  - The goroutines take `&event` of the loop variable.
- The `MarketDB` global, which the collector appends to, is not modelled. It is shared mutable state touched only by the concurrent part.
- JSON decoding of the payload and its `"failed to parse JSON"` error are not modelled. The model starts from decoded `Event` values.
- `strconv.ParseFloat` and `time.Parse` with RFC 3339 are parameters of the model. Their internals belong to the Go standard library.
- The exact `%v` rendering of a `time.Time` is not modelled. A parsed time is represented by its rendering text, so the fixture layout is modelled but the time text is not.
- Error messages are modelled as an `Error` datatype of kinds, each carrying the offending text. The `fmt.Errorf` wording is not modelled.
- Odds and lines are `float64` in the source. Here they are `real`; the odds are passed through unchanged and the line is whatever the parser returns. A `real` has no NaN or infinity, so the model's parser cannot return what Go's `strconv.ParseFloat` returns, with no error, for tokens such as "NaN" or "Inf": for a selection like "Over NaN" Go sends a record whose line is NaN, a value the model cannot produce.
- Go strings are byte sequences. Here they are sequences of `char`; the separators and the space are single ASCII characters, so indices agree for ASCII text.
- Text.Lower: lowercases only the ASCII letters A-Z. Go's `strings.ToLower` also lowercases non-ASCII upper-case letters.
- `main.go`, the program entry point that fetches and prints the feed, is not part of this model.
