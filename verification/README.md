# ttdash core, modelled in Dafny

ttdash is a Raspberry Pi e-paper dashboard. Every few seconds it fetches the
subway arrivals of one station, the weather forecast, an air-quality reading and
bus arrivals. It decides whether the panel needs a redraw, draws an image and
pushes it to the panel over SPI. When a newer build is published, it replaces
its own executable and re-execs.

This project models the deterministic logic inside that program. The
network, decoding, hashing, clocks, raster drawing and hardware become
parameters.

| file | module | models |
|---|---|---|
| `errors.dfy` | `Errors` | `src/result.rs`: the error type, its display text, description, cause and `From` conversions; `Option`, `Result` (with `:-`) and `Outcome`, which records a Rust panic |
| `text.dfy` | `Text` | The standard-library text operations the code relies on: decimal rendering (`{}`), `str::parse::<i32>`, `trim` (Unicode White_Space), `split`, and integer division that truncates toward zero |
| `update.dfy` | `Update` | `src/update.rs`: versions, their order, text and parser; `local_version`, `updater_configured`, `binary_update_available`; `upgrade_to` as methods of a `Host` class whose fields are the file map, the permission map and an event log |
| `duration.dfy` | `WeatherDuration` | `parse_duration` of `src/weather.rs`, the designator form of durations from section 4.4.3.2 of ISO 8601:2004. It is a loop method proved against a scanner function. |
| `weather.dfy` | `Weather` | The rest of `src/weather.rs` that is in scope: `parse_time_and_duration`, `parse_grid_entry`, the series parsing of `fetch_grid_forecast`, `densify_grid_forecast` (a map-filling method), BTreeMap iteration order, the day-grouping loop and `get_weather_display_ext` |
| `purpleair.dfy` | `PurpleAir` | `get_air_quality_ext` over decoded results |
| `bustime.dfy` | `BusTime` | `parse_response` over decoded stop visits, and `get_garfield_bus_arrivals` |
| `subway.dfy` | `Subway` | `ProcessedData::empty` and `process_data`: filtering, splitting by direction, a stable sort, the big countdown |
| `drawing.dfy` | `Countdown`, `Drawing` | `src/drawing.rs`: `countdown_summary`, the outbound text, the dew-point bucket and boxes, the day labels, and the positions and choices of `draw_subway_arrivals`, `draw_daily_forecast`, `draw_weather` and `generate_image` |
| `display.dfy` | `Display` | `src/display.rs`: the panel's command and data writes as an append-only log of `(dc level, byte)`, the init sequence, gray quantisation and two-pixels-per-byte packing |
| `dashboard.dfy` | `Dashboard` | `src/main.rs`: the `TTDash` state as a class, `update_weather`, `update_air_quality`, `one_iteration`, the main loop's snapshot of the last data drawn, `short_level`, and the start-up assertion |

How the outside world enters the model:
- **Time.** Instants are whole seconds since the epoch. Every clock read is a parameter: `now` in `process_data`, and in `one_iteration` `World.now`, `World.busNow` and `World.busStamp`.
- **Calendar and RFC 3339.** The US/Eastern calendar is a pair of functions giving the local day and local hour. The local day is required to be monotone. A local day is a day number counted from 1 January of year 1, which is day 1 (a Monday), as chrono's `num_days_from_ce` counts; `Drawing.WeekdayFromSunday` takes it mod 7. RFC 3339 parsing is also a function parameter.
- **Fetches and decoding.** Fetched bodies and their decoding are parameters that either succeed with a decoded record or fail with an error.
- **The MD5 digest** is an uninterpreted function from bytes to hex text.
- **Operating-system refusals.** Steps the operating system refuses are a set of `Step`s. The download is a `Transfer`.
- **Floating point.** `f32` values are `real`.

### Behaviour worth knowing

These are properties of the code as written, and the model keeps them:
- `parse_version` drops every piece that is not an `i32`, so "3.x.5" is version 3.5 (`Update.ThreePointFiveQuirk`).
- `parse_duration` silently drops digits with no designator, so "PT5" and "P" both last 0 seconds.
- The day-grouping loop never inserts the day it is on when the loop ends, so the last local day of the forecast is never in `days` (`Weather.LastDayNeverInserted`).
- The outbound text filters to "R" trains before it formats them, so its branch for other lines is dead. Five non-R trains give the empty text (`Drawing.NoRAmongFirstFive`).
- The half-hour redraw does not check the age of the data. A subway feed whose timestamp went back in time is drawn, and becomes the loop's snapshot, once the last drawing is more than 1800 s old (`Dashboard.OlderDataOnlyOnTimeout`).
- Bus waits use `Duration::whole_minutes`, which truncates toward zero. A bus that left 30 s ago shows 0 minutes, where a floored division would give -1 (`Dashboard.WithinAMinuteIsZero`).
- With an odd image width, the last pixel of each row is never sent (`Display.OddWidthDropsLastPixel`).

### Behaviour of the code the model keeps

- The remote version descriptor is deserialised into `TTDashUpgradeTarget` (src/update.rs:36-41). Its `version` is the structure `{major, minor}`, and its checksum field is `md5sum`. Decoding failures are `JsonError`s.
- `binary_update_available` fetches the remote target even when no local version is built in. Its result is then `None` (src/update.rs:85-105).
- The dew-point comments in src/drawing.rs list ranges "56-60", "61-65" and so on. The code computes `(dew_point - 50) / 5` clamped to 0..5, so bucket k > 0 covers `[50 + 5k, 55 + 5k)` and everything from 75 up is bucket 5 (`Drawing.DewPointBucket`).
- `one_iteration` and `generate_image` come from different revisions. `one_iteration` calls `generate_image` with six arguments (src/main.rs:193-199), while src/drawing.rs:26-29 takes four. The model keeps each file's own signature. In `Dashboard`, drawing, saving the PNG and showing the image are the three results `World.image`, `World.saved` and `World.shown`.

## Model

| member | source | states |
|---|---|---|
| Errors.MakeError | src/result.rs:24-26 | `make_error(s)` is the SimpleError variant, whose description is "SimpleError", and it carries exactly `s` |
| Errors.Render | src/result.rs:28-60 | The display text is the variant's fixed prefix ("Simple Error: ", "Chrono Parse Error: ", …, "SPI Error: ") followed by the carried text |
| Errors.RenderHeadIdentifiesVariant | src/result.rs:28-60 | The first two characters of the display text already determine the variant |
| Errors.RenderInjective | src/result.rs:28-60 | Two errors with the same display text are the same error |
| Errors.DescriptionIdentifiesVariant | src/result.rs:63-75 | Two errors have the same description iff they are of the same variant |
| Errors.Description | src/result.rs:63-75 | Every description is a variant name that ends in "Error" |
| Errors.Cause | src/result.rs:77-79 | No error has a cause |
| Errors.FromChrono | src/result.rs:82-86 | A chrono parse error becomes ChronoParseError, carrying its text |
| Errors.FromGpio | src/result.rs:88-92 | A GPIO error becomes GpioError, carrying its text |
| Errors.FromHttp | src/result.rs:94-98 | A reqwest error becomes HttpError, carrying its text |
| Errors.FromIo | src/result.rs:100-104 | An I/O error becomes IoError, carrying its text |
| Errors.FromJson | src/result.rs:106-110 | A serde_json error becomes JsonError, carrying its text |
| Errors.FromXml | src/result.rs:112-116 | A serde_xml error becomes XmlError, carrying its text |
| Errors.FromProst | src/result.rs:118-122 | A prost decode error becomes ProstDecodeError, carrying its text |
| Errors.FromSpi | src/result.rs:124-128 | An SPI error becomes SpiError, carrying its text |
| Text.NatToString | src/update.rs:24-34 | The decimal text of a natural number is non-empty, all digits, and one digit long iff the number is below 10 |
| Text.NatToStringValue | src/update.rs:24-34 | The decimal text denotes the number |
| Text.IntToString | src/update.rs:24-34 | The `{}` text of an integer starts with '-' iff it is negative, and the rest is the decimal text of its magnitude |
| Text.ParseI32 | src/update.rs:47 | `parse::<i32>` succeeds iff the text is an optional "+" or "-" followed by one or more digits whose signed value is in the i32 range, and then the value is that signed value (leading zeros allowed) |
| Text.PlusAndLeadingZeros | src/update.rs:47 | "+007" parses to 7: a plus sign and leading zeros are accepted |
| Text.ParseIntToString | src/update.rs:43-58 | Parsing the `{}` text of any i32, negative ones included, gives it back |
| Text.TrimStart | src/update.rs:44-45 | It removes exactly the leading white space: what is removed is all white space, and what is kept does not start with any |
| Text.TrimEnd | src/update.rs:44-45 | It removes exactly the trailing white space |
| Text.Trim | src/update.rs:45 | `trim` gives a piece of the text that neither starts nor ends with white space, and everything cut off before and after it is white space |
| Text.TrimKeeps | src/update.rs:45 | A character of the trimmed text occurs in the original |
| Text.TrimUnchanged | src/update.rs:45 | Text that neither starts nor ends with white space is left unchanged |
| Text.Split | src/update.rs:46 | `split('.')` gives at least one piece, no piece contains the separator, and joining the pieces with it gives back the text |
| Text.SplitWithout | src/update.rs:46 | Text without the separator is a single piece |
| Text.SplitAfter | src/update.rs:46 | Splitting `a + sep + b`, where `a` has no separator, gives `a` followed by the pieces of `b` |
| Text.SplitCount | src/update.rs:46 | There are two or more pieces iff the separator occurs |
| Text.JoinEnds | src/drawing.rs:111 | `join(sep)` of a non-empty list starts with the first part and ends with the last |
| Text.TruncDiv | src/main.rs:145-148 | Division that truncates toward zero: the remainder has the sign of the dividend and is smaller than the divisor |
| Update.LessIsStrictTotalOrder | src/update.rs:18-22 | The derived order on `(major, minor)` is irreflexive, transitive, asymmetric and total |
| Update.Less | src/update.rs:18-22 | The derived order compares `major` first: a different major decides, and `minor` decides only between equal majors; a version is never less than itself |
| Update.Format | src/update.rs:24-34 | The text of a version splits on "." into exactly the decimal texts of `major` and `minor` |
| Update.ParseVersion | src/update.rs:43-58 | A version parses only from text that contains a "."; every failure is the SimpleError "Invalid version string: " followed by the untrimmed input |
| Update.IntegerPieces | src/update.rs:47-48 | `filter_map(parse)` keeps at most one integer per piece. Which pieces survive is stated by the lemmas below |
| Update.VersionRoundTrip | src/update.rs:24-58 | Parsing the text of any version, negative components included, gives the version back |
| Update.FormatInjective | src/update.rs:24-34 | Different versions have different texts |
| Update.IntegerPiecesSkipJunk | src/update.rs:44-48 | A piece that is not an i32 is dropped from between two numbers |
| Update.JunkPieceIgnored | src/update.rs:43-58 | "major.junk.minor", with a dot-free middle piece that is not an i32, parses as major.minor |
| Update.ThreePointFiveQuirk | src/update.rs:43-58 | "3.x.5" parses as version 3.5 |
| Update.SingleNumberRejected | src/update.rs:50-53 | The text of a single number is not a version |
| Update.TwoRejected | src/update.rs:50-53 | "2" gives the error "Invalid version string: 2" |
| Update.LocalVersion | src/update.rs:70-79 | No built-in version gives "No local version set"; otherwise the result is the parse of the built-in text |
| Update.UpdaterConfigured | src/update.rs:81-83 | True iff a version is built in and it parses |
| Update.BinaryUpdateAvailable | src/update.rs:85-105 | Some iff the local version parses, the descriptor was obtained, and the remote version is strictly greater; the result is then the remote target |
| Update.NoDowngradeOrReinstall | src/update.rs:91-95 | An equal or older remote version gives None |
| Update.ScenarioNewerMinor | src/update.rs:85-105 | Local "1.2" and remote 1.3 give the remote target |
| Update.ScenarioSameVersion | src/update.rs:85-105 | Local "2.0" and remote 2.0 give None |
| Update.ScenarioOlderVersion | src/update.rs:85-105 | Local "2.1" and remote 2.0 give None |
| Update.StagingPath | src/update.rs:128-129 | The staging file is "/tmp/ttdash-download-" followed by the version's text |
| Update.StagingPathInjective | src/update.rs:128-129 | Different versions are staged in different files |
| Update.StagingIsNotBackup | src/update.rs:128-150 | No staging path is the backup path "/tmp/ttdash.prev" |
| Update.Host.Stage | src/update.rs:131-141 | Details below the table |
| Update.Host.ReplaceBackup | src/update.rs:149-150 | The old backup is removed, whatever happens next. On success the backup holds argv0's bytes and mode. A failed copy is an IoError and leaves no backup |
| Update.Host.Rename | src/update.rs:151 | On success the staged bytes and mode move to the target name; a refused rename changes nothing |
| Update.SwapOutcome | src/update.rs:147-158 | Exec happens exactly when mode change, backup copy, rename and exec are all allowed, argv0 exists and is not the backup path, and no argument holds a NUL. A refused filesystem step is an IoError; a NUL in argv0 or argv, or a refused exec, panics |
| Update.UpgradeOutcome | src/update.rs:126-158 | The checksum panic is raised exactly when the staged file was not already good, the download completed, and its digest differs from the target's. Exec happens exactly when good bytes are staged, no step is refused and the arguments are C strings. A refused create is an IoError; an incomplete download is an HttpError |
| Update.InstallEvents | src/update.rs:136-158 | Only a successful install logs an exec. On success the log is the download (unless a good file was already staged), the permission change and the exec. A good staged file is not downloaded again; otherwise the download comes first |
| Update.Host.Execv | src/update.rs:153-158 | Exec happens exactly when argv0 and every argument are C strings and execv is allowed. Otherwise the panic names the first failing check. Files and modes are unchanged, and only an exec is logged |
| Update.Host.Swap | src/update.rs:147-158 | Details below the table |
| Update.Host.UpgradeTo | src/update.rs:126-161 | Details below the table |
| WeatherDuration.ParseDuration | src/weather.rs:261-308 | The loop method returns what the scanner function `DurationOf` gives for the input; the properties of `DurationOf` are the lemmas below |
| WeatherDuration.MissingPrefixRejected | src/weather.rs:262-266 | Input that does not start with 'P' gives "Malformed duration " followed by the input |
| WeatherDuration.ForeignCharacterRejected | src/weather.rs:285-300 | Any character after the 'P' that is not a digit, 'T', 'D', 'H', 'M' or 'S' makes the parse fail |
| WeatherDuration.DesignatorOutsideDatePart | src/weather.rs:274-299 | Before 'T', any designator other than 'D' after a number fails ("P1M", "P1Y") |
| WeatherDuration.DesignatorOutsideTimePart | src/weather.rs:269-299 | After 'T', any designator other than 'H', 'M' or 'S' fails ("PT1D") |
| WeatherDuration.WrongRegionRejected | src/weather.rs:292-299 | A designator that the current part's table does not have stops the scan at that character |
| WeatherDuration.DurationOfRejected | src/weather.rs:299 | A stopped scan gives the "Bad duration string" error naming the input and the index |
| WeatherDuration.DurationOfFinished | src/weather.rs:307 | A scan that reaches the end gives its running total |
| WeatherDuration.AccumulateFromZero | src/weather.rs:289-290 | `acc = 10 * acc + d`, started at 0, gives the number the digits denote |
| WeatherDuration.ScanDigits | src/weather.rs:289-290 | A run of digits only feeds `acc` |
| WeatherDuration.ScanComponent | src/weather.rs:292-297 | A number followed by a designator adds number × unit to the total and resets `acc` |
| WeatherDuration.ScanDesignatorT | src/weather.rs:286-287 | A 'T' switches to the time part and changes nothing else, so a repeated 'T' stays there |
| WeatherDuration.ScanTimeComponents | src/weather.rs:285-305 | The hour, minute and second components, scanned in the time part, add up their worths |
| WeatherDuration.TailFinishes | src/weather.rs:285-305 | Digits and 'T's at the end finish the scan and leave the total unchanged |
| WeatherDuration.ParseRendered | src/weather.rs:261-308 | Every duration written in designator form ("P[nD][T[nH][nM][nS]]") parses to its number of seconds |
| WeatherDuration.RenderedWithTail | src/weather.rs:277-307 | The same holds with trailing digits and 'T's appended: dangling digits are dropped |
| WeatherDuration.NinetyMinutesTenSeconds | src/weather.rs:505-507 | "PT1H30M10S" is 90 minutes plus 10 seconds |
| WeatherDuration.ThirtySixHours | src/weather.rs:508 | "P1DT12H" is 36 hours |
| WeatherDuration.DanglingDigitsDropped | src/weather.rs:277-307 | "PT5" lasts 0 seconds |
| WeatherDuration.BarePrefixIsZero | src/weather.rs:277-307 | "P" lasts 0 seconds |
| Weather.NoSeparatorRejected | src/weather.rs:311-316 | Input without a "/" gives "Couldn't parse time+duration string: '…'" |
| Weather.StartBeforeFirstSlash | src/weather.rs:310-319 | The start time is parsed from exactly the text before the first "/", and a start that does not parse gives chrono's error |
| Weather.IntervalParsed | src/weather.rs:310-320 | "start/duration" succeeds iff both halves parse, and gives their values. An unparsable start gives its ChronoParseError |
| Weather.ExtraPartsIgnored | src/weather.rs:311-319 | Parts after the second "/" do not change the result |
| Weather.ParseGridEntry | src/weather.rs:322-329 | An entry parses iff its `validTime` does; it keeps the value and takes the time and duration, or fails with that error |
| Weather.CToFMonotone | src/weather.rs:156-158 | The Celsius-to-Fahrenheit conversion keeps the order of temperatures |
| Weather.CToF | src/weather.rs:156-158 | The Fahrenheit value converts back to the Celsius one by (f - 32) × 5 / 9 |
| Weather.ParseSeries | src/weather.rs:375-388 | A series is Ok iff every entry parses, and the entries are then the parsed ones in order, converted where asked. Otherwise the error is that of the first entry that fails |
| Weather.GridForecastOf | src/weather.rs:367-394 | A fetch error is passed through. Otherwise the forecast is Ok iff all three series parse, precipitation unconverted and the other two in Fahrenheit |
| Weather.CoversHour | src/weather.rs:401-403 | An entry covers exactly the instants `time + i hours` for `0 <= i <` its whole hours |
| Weather.SubHourCoversNothing | src/weather.rs:402 | An entry shorter than an hour, such as PT30M, covers no hour |
| Weather.LaterEntryWins | src/weather.rs:401-408 | On an hour covered by several entries of a series, the last one's value is the one kept |
| Weather.ApplySeries | src/weather.rs:401-409 | One series pass sets its own field of each hour it covers to the last covering entry's value, starting new hours from zero; other fields and other hours are unchanged |
| Weather.DensifyGridForecast | src/weather.rs:396-432 | It never fails. Its hours are those that some entry of some series covers, and each field holds its own series' last covering value, or 0 |
| Weather.Ascending | src/weather.rs:203 | Iterating the BTreeMap visits every entry once, with strictly increasing keys |
| Weather.Kept | src/weather.rs:199-207 | The kept buckets are exactly the input buckets at or after `now - 3600`: every kept one is such an input bucket, and every such input bucket is kept |
| Weather.KeptAppend | src/weather.rs:199-207 | The skip keeps order: the buckets kept from `a + b` are those kept from `a` followed by those kept from `b` |
| Weather.MinTIsMinimum | src/weather.rs:235-237 | A day's `min_t` is the least of its temperatures and is one of them |
| Weather.MaxTIsMaximum | src/weather.rs:239-241 | A day's `max_t` is the greatest of its temperatures and is one of them |
| Weather.DayMinAtMostMax | src/weather.rs:235-241 | In each day, `min_t <= max_t` |
| Weather.GroupDays | src/weather.rs:199-248 | The loop's days and first temperature are those of `GroupingOf`, applied to the buckets at or after `now - 3600`: one summary per local day except the day of the last bucket |
| Weather.LastDayNeverInserted | src/weather.rs:208-229 | The local day of the last bucket is never in `days`, and every day that is in it has `min_t <= max_t` |
| Weather.GetWeatherDisplayExt | src/weather.rs:169-255 | A fetch error passes through, and so does a series parse error (the first failing entry's error) and a failed current-temperature fetch after a good forecast. With both, the result is Ok iff some entry of some series covers an hour; otherwise the only error is "No overall_min_t data". A result holds the observed temperature, and its `days` are the grouping of the densified hours, in increasing time order (there is at least one) |
| PurpleAir.WithData | src/purpleair.rs:43-44 | The filter keeps exactly the results that carry a pm2.5 value: each kept one is such an input result, and each such input result is kept |
| PurpleAir.WithDataAppend | src/purpleair.rs:43-44 | The filter keeps order: filtering `a + b` gives the filtered `a` followed by the filtered `b` |
| PurpleAir.SelectReading | src/purpleair.rs:43-51 | The selection succeeds iff some result carries a value, the reading is the value of one of the results, and every failure is "Result didn't have one valid result" |
| PurpleAir.GetAirQualityExt | src/purpleair.rs:36-52 | Fetch and decoding errors pass through; otherwise the result is the selection from the decoded results |
| PurpleAir.FirstValueWins | src/purpleair.rs:43-51 | The reading is the value of the first result that carries one |
| PurpleAir.SkipNone | src/purpleair.rs:44-45 | Results without a value are skipped, wherever they are |
| PurpleAir.NoValueIsError | src/purpleair.rs:46 | No result with a value gives "Result didn't have one valid result" |
| PurpleAir.ReadingExists | src/purpleair.rs:43-46 | The selection succeeds iff some result carries a value |
| PurpleAir.FirstWithValue | src/purpleair.rs:43-45 | There is a first result with a value, and none before it has one |
| PurpleAir.PM25MissingUnreachable | src/purpleair.rs:49-50 | The "pm2.5 missing" error never happens |
| BusTime.StopUrlsDiffer | src/bustime.rs:70-72 | The uptown stop (308208) and the downtown stop (308215) are asked for with different URLs |
| BusTime.StopUrl | src/bustime.rs:70-72 | The URL starts with the stop-monitoring endpoint and ends with the B63 line filter, with the key and the stop between them |
| BusTime.StopUrlInjective | src/bustime.rs:70-72 | For one key, equal URLs mean equal stops |
| BusTime.FetchAndParse | src/bustime.rs:80-88 | A fetch error is returned unchanged; a list of instants comes only from a fetched body that decodes to exactly one delivery, and it holds one instant per visit of that delivery, in order |
| BusTime.VisitTime | src/bustime.rs:96-104 | The expected arrival is used when present, otherwise the aimed one. A missing aimed time panics on `unwrap`, and an unparsable time panics with "parsing date" |
| BusTime.VisitTimes | src/bustime.rs:95-105 | One timestamp per visit, in input order, when no visit panics; otherwise the panic of the first visit that panics |
| BusTime.ParseResponse | src/bustime.rs:90-106 | A decoding error passes through. Anything but exactly one delivery fails the assertion. Otherwise the result is the times of that delivery's visits |
| BusTime.GetGarfieldBusArrivals | src/bustime.rs:69-78 | Uptown is fetched first, then downtown. Either failure (or panic) is the result; otherwise both lists, from their own stops |
| BusTime.ExpectedThenAimed | src/bustime.rs:95-128 | Visits with an expected time, followed by visits with only an aimed time, give those times in order |
| Subway.Empty | src/subway.rs:19-28 | `ProcessedData::empty()`: no trains, no big countdown, empty name, timestamp 0 |
| Subway.FutureOf | src/subway.rs:55-59 | A line's kept arrivals are at most its arrivals |
| Subway.FutureOfMembers | src/subway.rs:55-59 | A train is kept from a line iff it is on that line, among its arrivals, and strictly after `now` |
| Subway.UpcomingMembers | src/subway.rs:52-69 | A train is in a direction's list iff some line of that direction has it as an arrival strictly after `now` |
| Subway.SortByTime | src/subway.rs:74-75 | The sort keeps the length. Its order, permutation and stability are the three lemmas below |
| Subway.SortSorted | src/subway.rs:74-75 | The sorted list is ascending by timestamp |
| Subway.SortPermutes | src/subway.rs:74-75 | The sorted list is a permutation of its input |
| Subway.SortStable | src/subway.rs:74-75 | Trains with equal timestamps keep their input order |
| Subway.InsertSorted | src/subway.rs:74-75 | Inserting into a sorted list keeps it sorted |
| Subway.InsertPermutes | src/subway.rs:74-75 | Inserting adds exactly the one element |
| Subway.ProcessData | src/subway.rs:48-88 | The nested loops and sorts return `Ok(Processed(data, now))`; the properties of `Processed` are the lemmas below |
| Subway.EmptyRule | src/subway.rs:71-72 | The result is `empty()` iff no uptown train is after `now`, whatever the downtown trains; a big countdown exists iff one is |
| Subway.ListsSortedPermutations | src/subway.rs:49-81 | When some uptown train is after `now`, both lists are sorted, stable permutations of the filtered arrivals of their direction, and hold exactly the trains after `now` |
| Subway.BigCountdownIsEarliest | src/subway.rs:76-83 | When some uptown train is after `now`, the big countdown is the countdown to the earliest one. Its line is that train's line, and among trains with that time it is the first in input order |
| Countdown.CountdownSummary | src/drawing.rs:118-125 | "<1" iff the wait is under 60 s, negative waits included; otherwise the decimal text of the whole minutes |
| Countdown.CountdownOneChar | src/drawing.rs:118-125 | The countdown is one character long iff the wait is from 60 s up to, but not including, 600 s |
| Drawing.VersionLabel | src/drawing.rs:38 | The version text, or "UNKNOWN VERSION" |
| Drawing.BigCountdownX | src/drawing.rs:63-68 | x = 70 iff the text is one byte long, else x = 10 |
| Drawing.Utf8Len | src/drawing.rs:64 | `str::len` counts UTF-8 bytes: between one and four per character, and exactly one per character iff every character is ASCII |
| Drawing.BigCountdownShifted | src/drawing.rs:60-69 | The big countdown is drawn at 70 iff the wait is from 60 s up to, but not including, 600 s |
| Drawing.Emblem | src/drawing.rs:70-72 | An emblem is drawn, with the line's name, iff the line is not "R" |
| Drawing.BigCountdownOf | src/drawing.rs:60-75 | The big number is drawn iff there is one, with its text and position. Its emblem follows the line, and a missing line counts as "R" |
| Drawing.ArrivalRows | src/drawing.rs:77-92 | At most five rows. Row k shows the k-th train's countdown at y = 90 + 40k, with an emblem iff its line is not "R" |
| Drawing.RTrains | src/drawing.rs:101-103 | The filter keeps exactly the "R" trains: each kept one is an "R" train of the input, and each "R" train of the input is kept |
| Drawing.RTrainsAppend | src/drawing.rs:101-103 | The filter keeps order: filtering `a + b` gives the filtered `a` followed by the filtered `b` |
| Drawing.OutboundLabels | src/drawing.rs:104-109 | One label per train, in order |
| Drawing.Countdowns | src/drawing.rs:104-106 | One countdown per train, in order |
| Drawing.OutboundText | src/drawing.rs:98-112 | No outbound train gives "NO BAY RIDGE TRAINS"; otherwise the text is the countdowns of the "R" trains among the first five, joined by ", ", so the branch that appends a line name never shows |
| Drawing.NoRAmongFirstFive | src/drawing.rs:98-112 | With no "R" train among the first five, the outbound text is empty |
| Drawing.DrawSubwayArrivals | src/drawing.rs:48-116 | The panel has the station name, the big countdown of the data, one row for each of the first five upcoming trains (its countdown, time, emblem, at y = 90 + 40k), and the outbound text |
| Drawing.DewPointBucket | src/drawing.rs:248-250 | The bucket is within 0..5. It is 0 below 55 and 5 from 75 up; in between, bucket b holds dew points in `[50 + 5b, 55 + 5b)` |
| Drawing.DewPointBucketMonotone | src/drawing.rs:248-250 | A higher dew point never gives a lower bucket |
| Drawing.RealToI32 | src/drawing.rs:248 | `as i32` saturates: at or above i32::MAX gives i32::MAX, at or below i32::MIN gives i32::MIN, and in between it truncates toward zero |
| Drawing.DewPointBoxes | src/drawing.rs:252-262 | Five boxes, 45 apart at y = top + 200; box i is filled iff i < bucket |
| Drawing.FilledBoxesCount | src/drawing.rs:255-261 | The number of filled boxes is the bucket |
| Drawing.DayLabel | src/drawing.rs:161-170 | Weekday i from Sunday gives "SMTWRFS"[i], and "?" out of range |
| Drawing.DayLabelNeverUnknown | src/drawing.rs:170 | A real weekday never gives "?" |
| Drawing.WeekdayFromSunday | src/drawing.rs:170 | The weekday of any day, counted from Sunday, is between 0 and 6 |
| Drawing.WeekdaySucceeds | src/drawing.rs:170 | `num_days_from_sunday` puts day 1 of the common era on a Monday, and each next day on the next weekday, Saturday wrapping to Sunday |
| Drawing.DailyForecast | src/drawing.rs:153-216 | No days gives "missing first entry". Otherwise one column for each of the first four days, at `left + 10 + dayCount · 53 + 16` |
| Drawing.ColumnsLeftToRight | src/drawing.rs:168-177 | For days in increasing order, the first label is at `left + 26` and each later column is at least a day width further right |
| Drawing.DrawWeather | src/drawing.rs:218-265 | No days gives "missing first entry". Otherwise, for the days in increasing date order: at most four day columns at y = 240 laid out from x = 400, the current temperature, the first day's min/max, and five dew boxes from x = 400 at y = 200, the first DewPointBucket(max dew point as i32) of them filled |
| Drawing.GenerateImage | src/drawing.rs:26-41 | Fails iff a weather display with no days is given. Otherwise a 640 × 384 frame whose subway panel is the one of the data (station, big countdown, rows, outbound text), with a weather panel iff weather is given and then the panel of that display, and the version label |
| Display.InitEndsWithDataStart | src/display.rs:69-119 | The init sequence ends with DATA_START_TRANSMISSION and contains it nowhere else |
| Display.ResolutionMatchesPanel | src/display.rs:105-109 | TCON_RESOLUTION's four data bytes encode 640 and 384, the drawing's width and height |
| Display.Quantise | src/display.rs:129-148 | Each gray maps to the level of its band: 0 iff gray < 64, 1 iff 64 ≤ gray ≤ 128, 2 iff 128 < gray ≤ 192, and 3 iff gray > 192 |
| Display.QuantiseMonotone | src/display.rs:129-148 | A lighter gray never gets a lower level |
| Display.UnpackByte | src/display.rs:129-148 | A packed byte's high nibble is the left pixel's level and its low nibble the right pixel's |
| Display.OrLowNibble | src/display.rs:139-148 | OR-ing the odd pixel's level into the even pixel's high nibble gives the packed byte |
| Display.PackedRow | src/display.rs:126-151 | A row gives `width / 2` bytes; byte k packs pixels 2k and 2k + 1 |
| Display.PackedRowEven | src/display.rs:129-138 | An even-x pixel sends nothing |
| Display.PackedRowOdd | src/display.rs:139-150 | An odd-x pixel sends the byte of itself and its left neighbour |
| Display.DataWrites | src/display.rs:150 | Each byte is one data write, in order |
| Display.PackedLength | src/display.rs:126-153 | An image of `h` rows of width `w` sends `h · (w / 2)` bytes |
| Display.PackedAt | src/display.rs:126-153 | Row-major order: byte `y · (w / 2) + k` packs pixels 2k and 2k + 1 of row y |
| Display.EvenWidthSendsAll | src/display.rs:126-153 | With an even width, exactly width · height / 2 bytes are sent |
| Display.OddWidthDropsLastPixel | src/display.rs:126-153 | With an odd width, the last pixel of a row does not affect what is sent |
| Display.EPaper.SendCommand | src/display.rs:46-51 | DC is low, and exactly the one command byte is appended to the log |
| Display.EPaper.SendData | src/display.rs:53-58 | DC is high, and exactly the one data byte is appended to the log |
| Display.EPaper.InitDisplay | src/display.rs:69-119 | The log grows by exactly the init sequence, and DC ends low |
| Display.EPaper.DisplayImage | src/display.rs:121-158 | The log grows by the data writes of the packed image and then DISPLAY_REFRESH: the refresh comes after all pixel bytes |
| Display.EPaper.SetupAndDisplayImage | src/display.rs:28-44 | A GPIO or SPI error is returned with nothing written. Otherwise the init sequence, then the packed image, then the refresh |
| Dashboard.UpgradeEnd | src/main.rs:97-112 | The upgrade step ends the iteration iff auto-update is on, an update is available, and the exec or a panic ends it. It ends with the argv[0] panic when there are no arguments, with the upgrade's panic when it aborts, and as replaced by the new program and arguments when it execs. A returned error is only logged |
| Dashboard.UpgradeOnlyWhenAvailable | src/main.rs:97-112 | The process is replaced only with auto-update on, a newer version available, and a successful exec |
| Dashboard.UpgradeFailureIsLogged | src/main.rs:103-106 | An upgrade that returns an error leaves the iteration as if no upgrade had been tried |
| Dashboard.WaitMinutes | src/main.rs:145-148 | The whole minutes of `ts - now`, truncated toward zero on both sides of `now` |
| Dashboard.WithinAMinuteIsZero | src/main.rs:145-148 | Less than a minute either side of `now` is 0 minutes, where a floored division would give -1 |
| Dashboard.Waits | src/main.rs:150-151 | One wait per arrival, in order, each the truncated minutes |
| Dashboard.BusDisplay | src/main.rs:155-159 | The bus data holds the waits of the uptown and downtown arrivals in order, and the second clock read |
| Dashboard.RedrawNeeded | src/main.rs:165-190 | Redraw iff the big countdown changed on data that is not older, or it was never drawn, or the last drawing is more than 1800 s old |
| Dashboard.OlderDataOnlyOnTimeout | src/main.rs:167-190 | Data older than what was shown is redrawn iff the last drawing is more than 1800 s old |
| Dashboard.DrawResult | src/main.rs:192-207 | Drawing succeeds iff the image, the PNG save (when asked) and the panel (when asked) all succeed; an image error comes first |
| Dashboard.SubwayErrorChangesNothing | src/main.rs:115 | A subway error ends the iteration with that error, and no held field changes |
| Dashboard.WeatherRefreshRule | src/main.rs:119-125 | The weather is replaced and stamped iff none is held or it is more than 1800 s old, and the fetch succeeds; otherwise both fields are kept |
| Dashboard.AirQualityRefreshRule | src/main.rs:127-135 | Air quality is replaced and stamped iff credentials exist, none is held or it is more than 60 s old, and the fetch succeeds; otherwise both fields are kept |
| Dashboard.BusRefreshRule | src/main.rs:137-163 | With credentials, a successful fetch replaces the bus data and a failed one keeps it. The iteration is aborted iff parsing panicked |
| Dashboard.RedrawIsReported | src/main.rs:165-213 | The iteration returns the drawn subway data iff no upgrade ends it, the subway fetch succeeds, the bus parser does not panic, a redraw is needed, and drawing succeeds. Exactly then `last_redraw` becomes `now`; otherwise it is kept |
| Dashboard.TTDash.constructor | src/main.rs:51-80 | Nothing held, both timestamps at `now`, never drawn |
| Dashboard.TTDash.UpdateWeather | src/main.rs:89-94 | On success the weather and its timestamp are set; on error the error is returned and nothing changes |
| Dashboard.TTDash.UpdateAirQuality | src/main.rs:82-87 | On success the reading and its timestamp are set; on error the error is returned and nothing changes |
| Dashboard.TTDash.RefreshHeld | src/main.rs:119-163 | The three refresh blocks leave the fields `Refreshed` gives, and report a bus parsing panic |
| Dashboard.TTDash.OneIteration | src/main.rs:96-214 | The new fields and the way the iteration ends are those of `Iteration`, whose properties are the lemmas above |
| Dashboard.ShownSnoc | src/main.rs:313-320 | Each iteration's end updates the snapshot as the loop does |
| Dashboard.RanOnSnoc | src/main.rs:297-327 | A run extended by one more iteration of the loop body is still a run |
| Dashboard.LastDrawnIsShown | src/main.rs:312-320 | The snapshot is the data of the last iteration that drew; errors and None leave it unchanged |
| Dashboard.NothingDrawnIsEmpty | src/main.rs:297-320 | Until something is drawn, the snapshot is `ProcessedData::empty()` |
| Dashboard.MainLoop | src/main.rs:297-327 | Each iteration is one `Iteration` of the loop body on its world, from the dashboard state the previous one left and the snapshot of the ends so far; the first state is the initial one and the last is the final one. With one-shot there is at most one iteration, and exactly one when any world is given. Only a panic or an exec stops the loop early |
| Dashboard.ShortLevel | src/main.rs:217-225 | Every level but Trace gives a single letter; Trace gives "TRACE" |
| Dashboard.ShortLevelInjective | src/main.rs:217-225 | Different levels give different texts |
| Dashboard.StartupCheck | src/main.rs:308-310 | With auto-update on, start-up panics iff no built-in version parses |

Contracts that the table summarises ("Details below the table"):

- **Update.Host.Stage.**
  - If the staged file already has the expected digest, nothing is fetched and nothing changes.
  - Otherwise the file is created or truncated, then filled with what the download delivered.
  - A refused create is an IoError; an incomplete transfer is an HttpError.
- **Update.Host.Swap.**
  - Steps, in order: mode 0o777, backup, rename, exec.
  - The outcome is `SwapOutcome` of the files before the swap: the first refused step or bad argument decides it, and exec happens exactly when there is none.
  - On exec, argv0 holds the staged bytes with mode 0o777, the backup holds the old argv0, the staging file is gone, and exec gets argv0 and argv unchanged.
  - A returned error leaves argv0 as it was, when argv0 is not the backup path.
  - No other path's bytes or mode change. The log gains the permission change, if it was allowed, and then the exec, if it happened.
- **Update.Host.UpgradeTo.** The outcome is `UpgradeOutcome` of the files before the install. So a digest mismatch after staging panics, and only a mismatch raises that panic. Exec happens exactly when good bytes are staged, no step is refused and the arguments are C strings. The next three points hold when argv0 is neither the staging file nor the backup.
  - argv0 is never written unless the staged file's digest equals `target.md5sum`.
  - The checksum panic leaves argv0 untouched.
  - Every returned error leaves argv0 untouched.
  - Nothing but the staging file, the backup and argv0 changes, neither in bytes nor in mode.
  - The new events are exactly `InstallEvents` on every path. So a good staged file is not downloaded again, and only a successful install logs an exec.
  - On success, argv0 holds the verified bytes with mode 0o777, `/tmp/ttdash.prev` holds the old program, the staging file is gone, and exec receives argv0 and argv unchanged.

## Left out

- **Network fetches and body reading:** `available_target`, `real_fetch`, `fetch_data`, `fetch_and_parse`'s HTTP part, `real_fetch_json_fn` and the download stream. Their results are parameters.
- **JSON, XML and protobuf decoding.** The model starts from decoded records.
- **`md5sum`:** the file read, the MD5 digest and the hex encoding are one uninterpreted function of a file's bytes.
- **`set_permissions` and `execv`** are log events on the `Host`, and the operating system's refusals are a set of `Step`s. Two details follow from this:
  - What happens after a successful exec is outside the program.
  - A refused exec is the panic of `unwrap` (`Aborted("execv failed")`).
- **Panic messages** are the fixed first part of Rust's text. The values that `assert_eq!` prints and the error that `expect` appends are not modelled.
- **`remove_file(...).ok()`** of the backup always succeeds in the model. Its errors are ignored in the code anyway.
- **Float arithmetic.** `f32` is `real`, so there is no rounding, NaN or infinity.
  - `ctof` is exact. Its order-preservation and its inverse are stated.
  - The precipitation bar height (src/drawing.rs:203) and the `{:.0}` formatting of temperatures are not modelled.
- Weather.GetWeatherDisplayExt: `overall_min_t` and `overall_max_t` (src/weather.rs:251-252) are not in the model's `WeatherDisplay`. They take the extremes keyed by `temperature as u32`, an f32 cast that saturates at 0. Only the error they raise on an empty forecast is modelled.
- Weather.GetWeatherDisplayExt: `current_t_f.or(first_forecast_t)` always takes the observed temperature. A failed observation has already returned its error, so "No current_t data" is unreachable and not modelled.
- Weather.GridForecastOf: the `anyhow` context that `fetch_grid_forecast` attaches to a fetch, JSON or series error (src/weather.rs:370-373, 390-392) is not modelled. A series error is the failing entry's own error.
- Drawing.DewPointBucket: `dew_point - 50` (src/drawing.rs:250) overflows i32 when the `as i32` cast has saturated at i32::MIN (a panic in a debug build). The model subtracts on unbounded integers, so such a dew point gives bucket 0.
- **Time-zone conversion and RFC 3339 parsing** are function parameters. Chrono's overflow of `Duration` and `DateTime` arithmetic is not modelled: durations are unbounded naturals.
- WeatherDuration.ParseDuration: the character index in the "Bad duration string" message counts Unicode scalar values, as `chars().enumerate()` does. The `acc` accumulator is an unbounded natural, so i64 overflow of a very long digit run is not modelled.
- Dashboard.WaitMinutes: `whole_minutes` of an `OffsetDateTime` difference, whose nanoseconds are below a second, is modelled on whole seconds.
- **Raster drawing** (imageproc, rusttype, fonts, `draw_raindrop`, `draw_subway_line_emblem`): only the positions, texts and choices are modelled, as values. `chrono_tz` formatting of the arrival clock time ("%-I:%M") is not modelled.
- **GPIO and SPI hardware.** `wait_until_idle`, the reset pulse and the sleeps are not modelled. A failed `spi.write` or pin `expect` (a panic) is not modelled.
- Display.EPaper.SetupAndDisplayImage: only the two `?` errors (GPIO, SPI) are modelled.
- **The image buffer.** `generate_image`'s image becomes a `Frame` of panels. `Display` takes the image as rows of gray bytes.
- **Main-program plumbing:** logging (`format_log` and the logger), getopts parsing, the credential files, the debug-server thread (src/debug.rs) and the five-second sleep.
  - The main loop runs over a finite sequence of `World`s, one per iteration.
- **src/structs.rs** is a stale copy of `ProcessedData` that is not declared as a module, so it is not compiled.
- **Panics.** A panic inside drawing, upgrading or the bus parser ends the process. The model reports it as an iteration end (`Aborted`), and the main loop stops there.
- Update.IntegerPieces: its own contract is only the length bound. Which pieces survive is stated by `IntegerPiecesSkipJunk`, `JunkPieceIgnored` and `VersionRoundTrip`.
- Subway.FutureOf: its own contract is only the length bound. Its members are stated by `FutureOfMembers`.
- Subway.SortByTime: its own contract is only the length. Order, permutation and stability are `SortSorted`, `SortPermutes` and `SortStable`.
