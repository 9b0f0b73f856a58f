# Tides-uk core in Dafny

This project models the core of a small tide-display web application. The core has
three parts:

- **Chart builder** (`generate_tide_chart`). It turns a list of `{time, height}` records
  into a 600 by 200 SVG line chart of height against the hour of the day. It returns one
  placeholder when the list is empty and another when no record decodes.
- **Admiralty API client** (`TideClient`). It covers `_headers` and the part of
  `get_tides` that runs without the network:
  - resolving the station;
  - decoding the tidal-event and tidal-level responses;
  - filtering and stably sorting the levels by time;
  - finding the first event after the current time.
- **Scraper conversion** (`fetch_tide_levels`). It turns each API event into
  `{type, time, height}`, where the height is written as `"%.2f m"`. It skips malformed
  events and returns `[]` when there is no API key.

Python's behaviour is written out where the code depends on it:

- truthiness, `a or b`, `dict.get` and `len`;
- `float()` of strings, numbers and booleans;
- `str.replace`, and the white space `float()` skips;
- `str(int)`, `"%.2f"`, `round(x, 2)`, `" L ".join` and `xml.sax.saxutils.escape`;
- string ordering, and `sorted` with its `TypeError`.

The HTTP responses, the clock reading, `datetime.fromisoformat`/`isoformat` and
`str(float)` are parameters.

Modules:

- `Wrappers`: `Option` and `Result`.
- `PyJson`: the decoded JSON values.
- `PyText`: string and number text.
- `PyDateTime`: datetimes and comparing them. `Calendar` is a value holding the two ISO
  functions.
- `TideSvg`: the chart builder.
- `Admiralty`: the client, with `class TideClient`.
- `TideScrape`: the scraper.
- `RoundTrip`: lemmas that feed the scraper's output into the chart builder.

The state-changing loops are `method`s proved against specification functions:

- `GenerateTideChart`'s decode and scaling loops;
- `CollectEvents` and `CollectLevels`;
- `NextEvent`'s search with `break`;
- `GetTides`;
- `FetchTideLevels` and its loops.

All the properties of the results are proved as lemmas about those functions.

## Model

| member | source | states |
|---|---|---|
| PyText.NatToString | tide_svg.py:52 | `str(n)` for n ≥ 0: nonempty decimal digits, no leading zero, whose value is n |
| PyText.IntToString | tide_svg.py:52 | `str(i)`: the digits of i, preceded by `-` exactly when i is negative |
| PyText.ReplaceWithoutOccurrence | tide_svg.py:18 | `s.replace(pat, rep)` returns `s` unchanged when `pat` does not occur in it |
| PyText.ReplaceAtFirstOccurrence | tide_svg.py:18 | at the leftmost occurrence of `pat`, `s.replace` keeps the text before it, writes `rep` and carries on after the occurrence: every occurrence is replaced, leftmost first, without overlap |
| PyText.ReplaceUnitSuffix | tide_svg.py:18 | removing `" m"` from a blank-free text followed by `" m"` gives back the text |
| PyText.RoundHalfEven | tide_scrape.py:38 | the rounding of `round`: within 0.5 of the argument, and even on a tie |
| PyText.ParseFloatNeedsDigit | tide_svg.py:18 | `float()` raises on text that holds no decimal digit, such as `"abc"` |
| PyText.ParsePointed | tide_svg.py:18 | the unsigned body that `float()` reads: digits, a point and digits are the whole part plus the fraction scaled by its length |
| PyText.ParseFixed2Digits | tide_svg.py:18 | the unsigned body that `float()` reads: two-decimal text is the value of its hundredths |
| PyText.ParseSigned | tide_svg.py:18 | `float()` of unpadded unsigned decimal text, optionally after a minus sign, is its value, negated when the sign is there |
| PyText.ParseFixed2 | tide_scrape.py:42 | `float()` reads back two-decimal fixed text: the value of its hundredths, negated when it carries a minus sign |
| PyText.JoinSnoc | tide_svg.py:40 | `sep.join` of one more part adds the separator and that part at the end |
| PyText.Escape | tide_svg.py:54 | `escape` never shortens its input, returns it unchanged when it has no `&`, `<` or `>`, and leaves no `<` or `>` in its result |
| Admiralty.TruthyIsNonEmpty | tide_client.py:22 | a list, string or dict is truthy iff its `len` is not 0; None is falsy; a number is truthy iff it is not 0 |
| PyJson.Or | tide_client.py:50 | `a or b` is `a` when `a` is truthy and `b` otherwise; it is truthy iff either operand is |
| PyJson.Get | tide_client.py:24 | `d.get(key)` is the stored value for a present key and None for an absent one |
| PyJson.ToFloat | tide_client.py:52 | `float(v)`: a number converts to itself, `True` and `False` to 1.0 and 0.0, a string is parsed, and None, a list or a dict raise |
| PyDateTime.HourOf | tide_svg.py:19 | `dt.hour` lies in 0..23 |
| PyDateTime.MinuteOf | tide_svg.py:19 | `dt.minute` lies in 0..59 |
| PyDateTime.Plus | tide_client.py:32 | adding a timedelta moves the wall clock by exactly that amount and keeps the timezone |
| PyDateTime.UtcNow | tide_client.py:30 | `datetime.now(timezone.utc)` is aware with offset 0 at the clock reading |
| PyDateTime.IsLater | tide_client.py:81 | `t > now` raises TypeError when exactly one is aware; two aware datetimes compare their instants (wall clock minus offset), two naive ones their wall clocks |
| TideSvg.HourOfDay | tide_svg.py:19 | `hour + minute / 60` lies in [0, 24) |
| TideSvg.DecodeRecord | tide_svg.py:16-22 | a decoded point's hour lies in the day |
| TideSvg.DecodeRecordKeepsParsable | tide_svg.py:16-22 | a record is kept iff it is a dict with a `time` that `fromisoformat` accepts and a `height` that `float` accepts after every `" m"` is removed; the point is that hour and that height |
| TideSvg.Decodes | tide_svg.py:15-22 | each record is tried on its own, in input order |
| TideSvg.SomesAtSomeIndices | tide_svg.py:15-22 | keeping the successful decodes keeps exactly the successful positions, in increasing order, each with its own value |
| TideSvg.DecodedPoints | tide_svg.py:14-22 | the decode loop yields at most one point per record |
| TideSvg.DecodedPointsInDay | tide_svg.py:14-22 | every decoded point has an hour in the day |
| TideSvg.KeptIndices | tide_svg.py:14-22 | the positions of the kept records lie within the input |
| TideSvg.DecodedPointsSnoc | tide_svg.py:15-22 | one more record adds exactly its own decode at the end |
| TideSvg.DecodedPointsAreKeptRecords | tide_svg.py:14-22 | the k-th point is the decode of the k-th kept record; kept positions strictly increase (input order is kept); a position is kept iff its record decodes |
| TideSvg.DecodeAll | tide_svg.py:14-22 | the decode loop builds exactly the decoded points |
| TideSvg.NoPointsIffNoRecordDecodes | tide_svg.py:24-25 | there are no points exactly when no record decodes |
| TideSvg.Heights | tide_svg.py:29 | `ys` holds the points' heights, in order |
| TideSvg.MinOf | tide_svg.py:30 | `min(ys)` is an element of `ys` and bounds every element from below |
| TideSvg.MaxOf | tide_svg.py:30 | `max(ys)` is an element of `ys` and bounds every element from above |
| TideSvg.HeightRange | tide_svg.py:31 | `h_range` is positive: `max - min` when they differ, else 1 |
| TideSvg.PixelXLinear | tide_svg.py:37 | `px` is linear in the hour: hour 0 is at x = 0, the 24 hours span the 600 pixels, and a later hour lies further right |
| TideSvg.PixelYInverted | tide_svg.py:38 | `py` is linear in the height and inverted: the minimum is at y = 200, one `h_range` spans the 200 pixels, and a greater height lies higher up |
| TideSvg.PixelXBounds | tide_svg.py:37 | an hour in [0, 24) maps to an x in [0, 600) |
| TideSvg.PixelYBounds | tide_svg.py:38 | a height between min and max maps to a y in [0, 200], the minimum to 200 and, in a non-flat series, the maximum to 0 |
| TideSvg.ScaledWith | tide_svg.py:36-39 | the scaling loop gives one pixel pair per point: the i-th is `(PixelX(hour_i), PixelY(height_i, lo, range))`, the x and y maps whose shape `PixelXLinear` and `PixelYInverted` state |
| TideSvg.Pixels | tide_svg.py:28-39 | the scaled series has one pixel pair per point, the i-th point placed at `PixelX` of its hour and `PixelY` of its height with the series' minimum and `h_range` |
| TideSvg.PixelsInChartBox | tide_svg.py:30-39 | every y lies in [0, 200] and every x of an in-day point in [0, 600); lowest points sit at 200, highest ones of a non-flat series at 0, and a flat series lies entirely at 200 |
| TideSvg.PathPairs | tide_svg.py:35-39 | `path_points` holds one entry per point, the i-th being `f"{px},{py}"` of the i-th point's pixel pair |
| TideSvg.ScalePath | tide_svg.py:28-39 | the scaling loop, after computing the minimum, maximum and range of the heights, builds exactly the pixel pairs of the points |
| TideSvg.PathDExtends | tide_svg.py:40 | the path data of one pair are `"M "` and the pair; each further pair is appended after `" L "` |
| TideSvg.PyRange | tide_svg.py:52 | `range(start, stop, step)`: the i-th value is `start + i*step`, all below `stop`, and no further value fits |
| TideSvg.GridIsFiveLines | tide_svg.py:52 | the grid lines are at exactly y = 0, 40, 80, 120, 160 |
| TideSvg.GridLinesAppend | tide_svg.py:52 | the grid markup holds one `<line>` element per grid value, in the order of the values |
| TideSvg.ChartSvgFrame | tide_svg.py:43-59 | the path data sit in the `d` attribute of the one path element, and text without `&`, `<` or `>` appears there unchanged |
| TideSvg.JoinedPairsCounts | tide_svg.py:40 | joining pairs that each hold one comma and no `L` with `" L "` gives one comma per pair and one `L` fewer than pairs |
| TideSvg.ChartPathHasOnePairPerPoint | tide_svg.py:35-40 | the path data start with `"M "`, hold one `px,py` pair per point and one `L` between consecutive pairs |
| TideSvg.GenerateTideChart | tide_svg.py:4-61 | an empty list gives "No data"; a list with no decodable record gives "No valid tide data"; otherwise the chart document around the escaped path of the decoded points, in input order |
| Admiralty.PyLen | tide_client.py:22 | `len(v)` is the number of items, characters or keys of a list, string or dict, and is undefined for anything else |
| Admiralty.StationFromSearch | tide_client.py:21-26 | a falsy result, a dict without `Stations` or with an empty `Stations`, a nonempty list not holding the string `Stations`, or a nonempty string not containing `Stations` raises ValueError "No station found"; the search succeeds iff `Stations` is a nonempty list whose first entry is a dict with a truthy `StationId`, which is then the id; a falsy id raises "StationId missing"; a list or string that does hold `Stations`, a number, a boolean, or a `Stations` without a length raises TypeError; a first entry that is not a dict, or a nonempty string `Stations`, raises AttributeError; a nonempty dict `Stations` raises KeyError |
| Admiralty.ResolveStation | tide_client.py:20-28 | an explicit id is used as is; otherwise a truthy name is searched; with neither, ValueError "station_id required"; a resolved id is never None |
| Admiralty.Window | tide_client.py:30-32 | the window starts at `now` and ends exactly `hours` hours later, in the same timezone |
| Admiralty.EventItems | tide_client.py:49-50 | the events are the response when it is a list, otherwise its `Predictions` list, `[]` when that is falsy; a truthy `Predictions` that is a dict or a string raises AttributeError, a number or `True` TypeError; any other response raises AttributeError |
| Admiralty.LevelItems | tide_client.py:62-65 | the levels are the response when it is a list, or its `Predictions` when it is a list, else none |
| Admiralty.EventHeight | tide_client.py:51-54 | the height is None when `Height` is absent, else `float(Height)` or None where that raises |
| Admiralty.DecodeEvent | tide_client.py:50-59 | the event's `dateTime` is `DateTime or Time`, its type is `EventType` and its height is as above |
| Admiralty.DecodeEvents | tide_client.py:48-59 | one event per item |
| Admiralty.CollectEvents | tide_client.py:48-59 | the loop decodes every item in order whatever its height, and raises AttributeError when an item is not a dict |
| Admiralty.LevelHeight | tide_client.py:67-70 | the height is None when `Height or Value` is None, else `float` of `Height` when it is truthy, else of `Value` |
| Admiralty.DecodeLevel | tide_client.py:66-71 | the level's time is `Time or DateTime` and its height is as above |
| Admiralty.DecodeLevels | tide_client.py:61-71 | one level per item |
| Admiralty.CollectLevels | tide_client.py:61-71 | the loop decodes every item in order, and raises AttributeError when an item is not a dict |
| Admiralty.KeptLevelsAppend | tide_client.py:74 | filtering a concatenation filters each part in turn, so the kept levels keep response order |
| Admiralty.KeptLevelsSingle | tide_client.py:74 | `KeepLevel`: a single level is kept as it is when it has a truthy time and a height, else dropped |
| Admiralty.ZeroHeightLevelIsDropped | tide_client.py:68 | a level with height 0 and no `Value` gets no height and is dropped |
| Admiralty.KeptLevels | tide_client.py:74 | every kept level has a truthy time and a height, and no more levels than given |
| Admiralty.KeptLevelsCounts | tide_client.py:74 | the filter keeps each qualifying level as often as it occurs and no other |
| Admiralty.DatedEvents | tide_client.py:75 | every kept event has a non-None `dateTime` |
| Admiralty.DatedEventsCounts | tide_client.py:75 | the filter keeps each event with a time as often as it occurs and no other |
| Admiralty.DatedEventsAppend | tide_client.py:75 | filtering a concatenation filters each part in turn, so the events with a time keep response order |
| Admiralty.DatedEventsSingle | tide_client.py:75 | a single event is kept as it is when it has a time, else dropped |
| Admiralty.StrLtProperPrefix | tide_client.py:74 | string `<`: a proper prefix sorts before the longer string |
| Admiralty.StrLtAtFirstDifference | tide_client.py:74 | string `<`: the first position where two strings differ decides their order |
| Admiralty.StrLtIrreflexive | tide_client.py:74 | no string sorts before itself |
| Admiralty.StrLtTotal | tide_client.py:74 | of two different strings one sorts before the other |
| Admiralty.StrLtTransitive | tide_client.py:74 | string order is transitive |
| Admiralty.KeyLtIrreflexive | tide_client.py:74 | no sort key is below itself |
| Admiralty.KeyLtTotal | tide_client.py:74 | any two sort keys are ordered |
| Admiralty.KeyLeTransitive | tide_client.py:74 | key order is transitive |
| Admiralty.InsertPermutes | tide_client.py:74 | inserting adds exactly the element |
| Admiralty.InsertSorted | tide_client.py:74 | inserting into a sorted list keeps it sorted |
| Admiralty.InsertWithKey | tide_client.py:74 | an inserted element goes before every element with an equal key, which keeps the sort stable |
| Admiralty.InsertionSortSpec | tide_client.py:74 | `InsertionSort`'s result is sorted by time, a permutation of its input, and stable: the levels with an equal time keep their input order |
| Admiralty.SortLevels | tide_client.py:74 | `sorted(..., key=time)` succeeds iff the times are mutually comparable, else raises TypeError; its result is sorted, a permutation and stable |
| Admiralty.FirstAfter | tide_client.py:77-85 | a found next event is one of the events, and its time parses and is after now |
| Admiralty.IsAfterPlainTime | tide_client.py:79-81 | a `dateTime` without `Z` is parsed as it is, and the event counts iff it parses and lies after now |
| Admiralty.IsAfterZuluTime | tide_client.py:79-81 | a `dateTime` that ends in its only `Z` is parsed with `+00:00` in its place |
| Admiralty.FirstAfterIsFirst | tide_client.py:77-85 | the result is None iff no event qualifies, and otherwise the first qualifying event in list order |
| Admiralty.NextEvent | tide_client.py:77-85 | the search loop with `break` returns that first qualifying event |
| Admiralty.TidesOf | tide_client.py:19-94 | a station error is raised as is; once the station resolves, the outcome is that of the lookup-free part `TidesFor` at the clock reading, with the resolved id |
| Admiralty.TidesFor | tide_client.py:30-94 | a result carries the given station id |
| Admiralty.TidesForOutcome | tide_client.py:48-75 | the dict is returned iff the events response yields its `Predictions`, every event and every level is a dict, and the kept level times are mutually comparable; otherwise, in source order, the events error, AttributeError for a non-dict event, AttributeError for a non-dict level, TypeError from `sorted` |
| Admiralty.TidesForShape | tide_client.py:30-94 | `from`/`to` are the ISO texts of `now` and `now + hours`; events all have a time; levels all have a truthy time and a height and are sorted; the next event is the first returned event after now |
| Admiralty.TidesOfShape | tide_client.py:19-94 | the same for the whole `get_tides`, with a station id that is never None |
| Admiralty.TidesForOrder | tide_client.py:48-75 | the returned events are the decoded events with a time, in response order; the returned levels with any one time are the kept levels with that time, in response order |
| Admiralty.TidesForCounts | tide_client.py:48-75 | the returned levels are the decoded qualifying levels, each as often as in the response, and likewise the events with a time |
| Admiralty.TideClient.constructor | tide_client.py:7-8 | the key is the given one when truthy, else the environment's |
| Admiralty.TideClient.Headers | tide_client.py:10-11 | the headers are empty iff the key is falsy, and otherwise hold exactly the subscription-key header with the key |
| Admiralty.TideClient.GetTides | tide_client.py:19-94 | `get_tides` returns or raises exactly what `TidesOf` states for the given responses and clock |
| TideScrape.Numeric | tide_scrape.py:38 | `round` accepts exactly numbers and booleans; a number is itself, `True` and `False` are 1 and 0 |
| TideScrape.Hundredths | tide_scrape.py:38 | `round(x, 2)` in hundredths is within half a hundredth of x, with the sign of x, and even on a tie |
| TideScrape.HeightText | tide_scrape.py:42 | the height text ends in `" m"` after a point and two digits, starts with `-` iff the value is negative, and writes the whole part of the rounded magnitude as `str` writes a nonnegative int (no sign, padding or leading zero) |
| TideScrape.DecodeTideEvent | tide_scrape.py:36-45 | an event is emitted iff it is a dict with a parsable string `DateTime`, a numeric `Height` and an `EventType`; the entry copies the type, re-serialises the time and formats the height |
| TideScrape.DecodedTides | tide_scrape.py:34-45 | the output has no more entries than the input |
| TideScrape.DecodedTidesAppend | tide_scrape.py:34-45 | decoding a concatenation decodes each part in turn, so survivors keep input order |
| TideScrape.DecodedTidesSingle | tide_scrape.py:36-45 | one event contributes exactly its own decode |
| TideScrape.StringsAreSkipped | tide_scrape.py:35-37 | strings (the items of a string, or the keys of a dict) emit nothing |
| TideScrape.QueryWindow | tide_scrape.py:15-17 | `to_date` is exactly one day after `from_date` |
| TideScrape.Chars | tide_scrape.py:35 | iterating a string yields its characters, in order |
| TideScrape.ScrapeEvents | tide_scrape.py:34-45 | a list gives its decoded events, a string or a dict gives nothing, and a value that is not iterable raises TypeError |
| TideScrape.ConvertEvents | tide_scrape.py:34-45 | the conversion loop emits the decoded events |
| TideScrape.DictKeysAreSkipped | tide_scrape.py:34-45 | looping over a dict's keys, in any order, emits nothing, as `ScrapeEvents` states |
| TideScrape.ConvertKeys | tide_scrape.py:35-45 | the loop over a dict's keys, which appends whatever a key decodes to, emits nothing |
| TideScrape.FetchTideLevels | tide_scrape.py:11-45 | no key gives `[]`; a failed request gives `[]`; otherwise the converted events of the response |
| TideScrape.HeightTextRoundTrip | tide_scrape.py:38-42 | removing `" m"` from the emitted height and parsing it gives the rounded height |
| RoundTrip.AsRecord | tide_scrape.py:39-43 | an entry is the dict with keys `type`, `time` and `height`, holding the event's `EventType`, the time text and the height text |
| RoundTrip.AsRecords | tide_scrape.py:34-45 | one dict per entry |
| RoundTrip.ChartReadsScrapedTide | tide_svg.py:16-20 | with ISO texts that read back, the chart decodes an entry to its time's hour and its rounded height |
| RoundTrip.ChartReadsScrapedEvent | tide_svg.py:16-20 | a scraped event becomes the chart point of its `DateTime`'s hour and its rounded `Height` |
| RoundTrip.ScrapedTidesComeFromEvents | tide_scrape.py:34-45 | every emitted entry is the decode of an input event |
| RoundTrip.AllSomesKept | tide_svg.py:14-22 | when every decode succeeds, every one is kept |
| RoundTrip.AllDecodableKeepsAll | tide_svg.py:14-22 | records that all decode give one point each |
| RoundTrip.ChartKeepsEveryScrapedTide | tide_svg.py:14-22 | the chart drops none of the scraper's entries |

## Left out

- HTTP is not modelled: `requests.get`, `raise_for_status`, `.json()`, the timeouts and the URLs built from the station id and the window. The decoded responses are parameters. In `fetch_tide_levels`, `None` stands for any failed request or decode.
- `station_search` is reduced to the decoded search response it returns, for the same reason.
- Environment reads (`os.getenv`) are not modelled: the key is passed explicitly. `print` messages are left out.
- `app.py` (the Flask routes and the sample data) is not part of this model.
- `datetime.fromisoformat` and `isoformat` are the two functions of a `Calendar` parameter, not an ISO-8601 parser. `RoundTrip` assumes only that one reads back what the other writes.
- `datetime.now` is the clock reading `nowMicros`. In `fetch_tide_levels` the window only shapes the request, so the method takes no clock.
- Default arguments are not modelled: `api_key=None`, `station=None`, `station_id=None` and `hours=24` are passed explicitly, with None as `Option.None` or `Null`.
- `str(float)` of the pixel coordinates is the parameter `show`. `ChartPathHasOnePairPerPoint` assumes only that it writes no comma and no `L`.
- Floating point is not modelled: heights and pixels are exact reals, so binary rounding, NaN and infinities are missing.
- `PyText.RoundHalfEven`: rounds the exact value, not its nearest double. `round(2.675, 2)` gives 2.67 in Python but 2.68 here.
- `TideScrape.HeightText`: a JSON `-0.0` height prints `"0.00 m"` here. Python prints `"-0.00 m"`, because reals carry no negative zero. A negative value that rounds to zero does print `"-0.00 m"`.
- `PyText.ParseFloat` accepts ASCII white space, an optional sign, and ASCII digits with at most one point and at least one digit (`5`, `5.`, `.5`), then ASCII white space. It has no exponent, underscores or `inf`/`nan`.
- `PyText.ParseFloat` refuses non-ASCII decimal digits and non-ASCII white space, which Python's `float()` accepts: `float("１２")` is 12.0 in Python and None here.
- `Admiralty.SortLevels`: two list-valued times are modelled as a TypeError, although Python compares lists. A single level, or all-string or all-number times, sort as in Python. Numbers and strings mixed always raise, as in Python.
- `Admiralty.Window`: `hours` is an integer. Python's `timedelta` also accepts a float.
- `TideSvg.GenerateTideChart` takes a list. A falsy non-list `tides` such as None gives "No data" in Python and is not modelled.
- The text of generic Python exception messages is not modelled. Only the `ValueError` messages of `get_tides` are kept.
- The code does not extend events by whole days, restrict them to a window, sort them inside the chart, accept `"4.52m"` without a blank, or draw labels. The model follows the code and claims none of these.
