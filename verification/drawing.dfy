/**
  `countdown_summary` (src/drawing.rs): the text of a wait, in whole
  minutes, as the dashboard prints it. It sits in a module of its own
  because the arrival processing (module Subway) calls it and the rest of
  the drawing code (module Drawing) reads the processed data.
*/
module Countdown {
  import opened Text

  const LESS_THAN_A_MINUTE := "<1"

  /**
    The wait from `nowTs` to `arrivalTs`: "<1" under a minute (negative
    waits included), else the number of whole minutes. The division is
    Rust's, on a positive wait, so it is the floor.
  */
  function CountdownSummary(nowTs: int, arrivalTs: int): (s: string)
    ensures s == LESS_THAN_A_MINUTE <==> arrivalTs - nowTs < 60
    ensures arrivalTs - nowTs >= 60 ==>
              s != [] && AllDigits(s) && DigitsValue(s) * 60 <= arrivalTs - nowTs < (DigitsValue(s) + 1) * 60
  {
    var wait := arrivalTs - nowTs;
    if wait < 60 then LESS_THAN_A_MINUTE
    else
      NatToStringValue(TruncDiv(wait, 60));
      IntToString(TruncDiv(wait, 60))
  }

  /** A countdown is one character long exactly when the wait is between one and ten minutes. */
  lemma CountdownOneChar(nowTs: int, arrivalTs: int)
    ensures |CountdownSummary(nowTs, arrivalTs)| == 1 <==> 60 <= arrivalTs - nowTs < 600
  {
    var wait := arrivalTs - nowTs;
    if wait >= 60 {
      assert CountdownSummary(nowTs, arrivalTs) == NatToString(wait / 60);
    }
  }
}

/**
  The layout decisions of src/drawing.rs: where the big countdown, the
  arrival rows, the day columns and the dew-point boxes go, which texts
  they show, and when drawing fails. The raster operations themselves
  (fonts, lines, circles, curves) are not modelled.
*/
module Drawing {
  import opened Errors
  import opened Text
  import opened Countdown
  import opened Subway
  import Weather

  const EPD_WIDTH := 640
  const EPD_HEIGHT := 384
  const UNKNOWN_VERSION := "UNKNOWN VERSION"
  const NO_OUTBOUND := "NO BAY RIDGE TRAINS"
  const MISSING_FIRST_ENTRY := "missing first entry"
  const R_LINE := "R"

  /** The version label in the corner: the given text, else "UNKNOWN VERSION". */
  function VersionLabel(version: Option<string>): (s: string)
    ensures version.Some? ==> s == version.value
    ensures version.None? ==> s == UNKNOWN_VERSION
  {
    version.GetOr(UNKNOWN_VERSION)
  }

  /** How many bytes UTF-8 needs for one character. */
  function Utf8Width(c: char): nat {
    if c as int < 0x80 then 1
    else if c as int < 0x800 then 2
    else if c as int < 0x1_0000 then 3
    else 4
  }

  /** `str::len`: the length of the UTF-8 encoding, in bytes. */
  function Utf8Len(s: string): (n: nat)
    ensures |s| <= n <= 4 * |s|
    ensures n == |s| <==> forall i :: 0 <= i < |s| ==> s[i] as int < 0x80
    decreases |s|
  {
    if s == [] then 0 else Utf8Width(s[0]) + Utf8Len(s[1..])
  }

  /** The x position of the big countdown: 70 for a one-byte text, 10 otherwise. */
  function BigCountdownX(text: string): (x: int)
    ensures x == 70 <==> Utf8Len(text) == 1
    ensures x == 10 <==> Utf8Len(text) != 1
  {
    if Utf8Len(text) == 1 then 70 else 10
  }

  /** The big countdown is drawn at x = 70 exactly when the wait is one to nine whole minutes. */
  lemma BigCountdownShifted(nowTs: int, arrivalTs: int)
    ensures BigCountdownX(CountdownSummary(nowTs, arrivalTs)) == 70 <==> 60 <= arrivalTs - nowTs < 600
  {
    var s := CountdownSummary(nowTs, arrivalTs);
    CountdownOneChar(nowTs, arrivalTs);
    if |s| == 1 {
      assert IsDigit(s[0]);
      assert Utf8Len(s) == Utf8Width(s[0]) + Utf8Len(s[1..]);
    }
  }

  /** The big countdown and the emblem of its line, drawn only for lines other than R. */
  datatype BigCountdown = BigCountdown(text: string, x: int, emblem: Option<string>)

  /** One row of the arrival list. */
  datatype Row = Row(countdown: string, arrivalTs: int, y: int, emblem: Option<string>)

  /** The emblem drawn next to a train of `line`: none for the R. */
  function Emblem(line: string): (e: Option<string>)
    ensures e.Some? <==> line != R_LINE
    ensures e.Some? ==> e.value == line
  {
    if line != R_LINE then Some(line) else None
  }

  /** The big countdown of `draw_subway_arrivals`; a missing line counts as the R. */
  function BigCountdownOf(data: ProcessedData): (b: Option<BigCountdown>)
    ensures b.Some? <==> data.bigCountdown.Some?
    ensures b.Some? ==> b.value.text == data.bigCountdown.value && b.value.x == BigCountdownX(b.value.text)
    ensures b.Some? ==> (b.value.emblem.Some? <==> data.bigCountdownLine.Some? && data.bigCountdownLine.value != R_LINE)
  {
    var bigLine := data.bigCountdownLine.GetOr(R_LINE);
    match data.bigCountdown
    case Some(text) => Some(BigCountdown(text, BigCountdownX(text), Emblem(bigLine)))
    case None => None
  }

  function Min(a: int, b: int): int { if a < b then a else b }

  /**
    The loop of `draw_subway_arrivals` over the first five upcoming
    trains, stepping `y` down by 40 from 90.
  */
  method ArrivalRows(now: int, trains: seq<(int, string)>) returns (rows: seq<Row>)
    ensures |rows| == Min(5, |trains|)
    ensures forall k :: 0 <= k < |rows| ==>
              rows[k] == Row(CountdownSummary(now, trains[k].0), trains[k].0, 90 + 40 * k, Emblem(trains[k].1))
  {
    var y := 90;
    var yStep := 40;
    rows := [];
    var shown := trains[..Min(5, |trains|)];
    for k := 0 to |shown|
      invariant y == 90 + 40 * k
      invariant |rows| == k
      invariant forall j :: 0 <= j < k ==>
                  rows[j] == Row(CountdownSummary(now, trains[j].0), trains[j].0, 90 + 40 * j, Emblem(trains[j].1))
    {
      var (ts, line) := shown[k];
      rows := rows + [Row(CountdownSummary(now, ts), ts, y, Emblem(line))];
      y := y + yStep;
    }
  }

  /** The trains of the R line, in order. */
  function RTrains(trains: seq<(int, string)>): (r: seq<(int, string)>)
    ensures |r| <= |trains|
    ensures forall i :: 0 <= i < |r| ==> r[i].1 == R_LINE && r[i] in trains
    ensures forall i :: 0 <= i < |trains| && trains[i].1 == R_LINE ==> trains[i] in r
    decreases |trains|
  {
    if trains == [] then []
    else (if trains[0].1 == R_LINE then [trains[0]] else []) + RTrains(trains[1..])
  }

  /** The filter keeps order: filtering a concatenation concatenates what each part keeps. */
  lemma {:induction false} RTrainsAppend(a: seq<(int, string)>, b: seq<(int, string)>)
    ensures RTrains(a + b) == RTrains(a) + RTrains(b)
    decreases |a|
  {
    if a != [] {
      RTrainsAppend(a[1..], b);
      assert (a + b)[1..] == a[1..] + b;
    } else {
      assert a + b == b;
    }
  }

  /** The label of one outbound train: its countdown, with the line in parentheses unless it is the R. */
  function OutboundLabel(now: int, train: (int, string)): string {
    if train.1 == R_LINE then CountdownSummary(now, train.0)
    else CountdownSummary(now, train.0) + " (" + train.1 + ")"
  }

  function OutboundLabels(now: int, trains: seq<(int, string)>): (r: seq<string>)
    ensures |r| == |trains|
    ensures forall i :: 0 <= i < |r| ==> r[i] == OutboundLabel(now, trains[i])
  {
    seq(|trains|, i requires 0 <= i < |trains| => OutboundLabel(now, trains[i]))
  }

  /**
    The outbound line of text: "NO BAY RIDGE TRAINS" for no outbound train,
    else the labels of the R trains among the first five, joined by ", ".
    The branch that appends the line name is dead: every label is a plain
    countdown, because only R trains get that far.
  */
  function OutboundText(now: int, outbound: seq<(int, string)>): (r: string)
    ensures outbound == [] ==> r == NO_OUTBOUND
    ensures outbound != [] ==> r == Join(Countdowns(now, RTrains(outbound[..Min(5, |outbound|)])), ", ")
  {
    if outbound == [] then NO_OUTBOUND
    else
      var rs := RTrains(outbound[..Min(5, |outbound|)]);
      assert OutboundLabels(now, rs) == Countdowns(now, rs);
      Join(OutboundLabels(now, rs), ", ")
  }

  /** The plain countdowns of a list of trains. */
  function Countdowns(now: int, trains: seq<(int, string)>): (r: seq<string>)
    ensures |r| == |trains|
    ensures forall i :: 0 <= i < |r| ==> r[i] == CountdownSummary(now, trains[i].0)
  {
    seq(|trains|, i requires 0 <= i < |trains| => CountdownSummary(now, trains[i].0))
  }

  /** Outbound trains with no R among the first five give an empty text, not the "NO BAY RIDGE TRAINS" one. */
  lemma {:induction false} NoRAmongFirstFive(now: int, outbound: seq<(int, string)>)
    requires outbound != []
    requires forall i :: 0 <= i < Min(5, |outbound|) ==> outbound[i].1 != R_LINE
    ensures OutboundText(now, outbound) == ""
  {
    var shown := outbound[..Min(5, |outbound|)];
    assert forall i :: 0 <= i < |shown| ==> shown[i].1 != R_LINE;
    NoRTrains(shown);
  }

  lemma {:induction false} NoRTrains(trains: seq<(int, string)>)
    requires forall i :: 0 <= i < |trains| ==> trains[i].1 != R_LINE
    ensures RTrains(trains) == []
    decreases |trains|
  {
    if trains != [] {
      assert forall i :: 0 <= i < |trains[1..]| ==> trains[1..][i] == trains[i + 1];
      NoRTrains(trains[1..]);
    }
  }

  /** The subway half of the screen. */
  datatype SubwayPanel = SubwayPanel(station: string, big: Option<BigCountdown>, rows: seq<Row>, outbound: string)

  /**
    The subway half drawn from `data`: the station name, the big countdown,
    a row for each of the first five uptown trains, and the outbound text.
  */
  predicate SubwayPanelOf(now: int, data: ProcessedData, panel: SubwayPanel) {
    && panel.station == data.stationName
    && panel.big == BigCountdownOf(data)
    && |panel.rows| == Min(5, |data.upcomingTrains|)
    && (forall k :: 0 <= k < |panel.rows| ==>
          panel.rows[k] == Row(CountdownSummary(now, data.upcomingTrains[k].0), data.upcomingTrains[k].0,
                               90 + 40 * k, Emblem(data.upcomingTrains[k].1)))
    && panel.outbound == OutboundText(now, data.upcomingOutboundTrains)
  }

  /** `draw_subway_arrivals`, with the clock reading `now` as a parameter. */
  method DrawSubwayArrivals(now: int, data: ProcessedData) returns (panel: SubwayPanel)
    ensures SubwayPanelOf(now, data, panel)
  {
    var rows := ArrivalRows(now, data.upcomingTrains);
    panel := SubwayPanel(data.stationName, BigCountdownOf(data), rows, OutboundText(now, data.upcomingOutboundTrains));
  }

  /**
    The dew-point bucket: (dew point - 50) / 5 with Rust's truncating
    division, clamped to 0..5.
  */
  function DewPointBucket(dewPoint: int): (b: int)
    ensures 0 <= b <= 5
    ensures dewPoint < 55 ==> b == 0
    ensures dewPoint >= 75 ==> b == 5
    ensures 55 <= dewPoint < 75 ==> 50 + 5 * b <= dewPoint < 55 + 5 * b
  {
    var bucket := TruncDiv(dewPoint - 50, 5);
    if bucket > 5 then 5 else if bucket < 0 then 0 else bucket
  }

  /** A higher dew point never gives a lower bucket. */
  lemma DewPointBucketMonotone(a: int, b: int)
    requires a <= b
    ensures DewPointBucket(a) <= DewPointBucket(b)
  {
    if 55 <= a < 75 && 55 <= b < 75 {
      var ba, bb := DewPointBucket(a), DewPointBucket(b);
      assert 50 + 5 * ba <= a <= b < 55 + 5 * bb;
    }
  }

  /**
    `as i32` on a float: the value truncated toward zero, saturated at the
    ends of the 32-bit range.
  */
  function RealToI32(r: real): (n: int)
    ensures I32_MIN <= n <= I32_MAX
    ensures r >= I32_MAX as real ==> n == I32_MAX
    ensures r <= I32_MIN as real ==> n == I32_MIN
    ensures 0.0 <= r < I32_MAX as real ==> n >= 0 && n as real <= r < (n + 1) as real
    ensures I32_MIN as real < r < 0.0 ==> n <= 0 && (n - 1) as real < r <= n as real
  {
    var t := if r >= 0.0 then r.Floor else -((-r).Floor);
    if t < I32_MIN then I32_MIN else if t > I32_MAX then I32_MAX else t
  }

  /** One dew-point box: its left edge, its top, and whether it is filled. */
  datatype DewBox = DewBox(x: int, y: int, filled: bool)

  /** The loop that draws the five dew-point boxes: 35 wide, 10 apart, the first `bucket` ones filled. */
  method DewPointBoxes(leftX: int, topY: int, bucket: int) returns (boxes: seq<DewBox>)
    ensures |boxes| == 5
    ensures forall i :: 0 <= i < 5 ==> boxes[i] == DewBox(leftX + i * 45, topY + 200, i < bucket)
  {
    var boxWidth, boxGap := 35, 10;
    boxes := [];
    for i := 0 to 5
      invariant |boxes| == i
      invariant forall j :: 0 <= j < i ==> boxes[j] == DewBox(leftX + j * 45, topY + 200, j < bucket)
    {
      boxes := boxes + [DewBox(leftX + i * (boxWidth + boxGap), topY + 200, i < bucket)];
    }
  }

  /** How many boxes are filled. */
  function FilledCount(boxes: seq<DewBox>): nat
    decreases |boxes|
  {
    if boxes == [] then 0 else (if boxes[0].filled then 1 else 0) + FilledCount(boxes[1..])
  }

  /** A bucket of 0..5 fills exactly that many boxes, and they are the leftmost ones. */
  lemma {:induction false} FilledBoxesCount(boxes: seq<DewBox>, bucket: int)
    requires 0 <= bucket <= |boxes|
    requires forall i :: 0 <= i < |boxes| ==> (boxes[i].filled <==> i < bucket)
    ensures FilledCount(boxes) == bucket
    decreases |boxes|
  {
    if boxes != [] {
      var next := if boxes[0].filled then bucket - 1 else bucket;
      forall i | 0 <= i < |boxes[1..]| ensures (boxes[1..][i].filled <==> i < next) {
        assert boxes[1..][i] == boxes[i + 1];
      }
      FilledBoxesCount(boxes[1..], next);
    }
  }

  /** The weekday letters from Sunday. */
  const DAY_LABELS: seq<string> := ["S", "M", "T", "W", "R", "F", "S"]

  /** The letter of a weekday counted from Sunday, "?" outside 0..6. */
  function DayLabel(weekdayFromSunday: int): (s: string)
    ensures 0 <= weekdayFromSunday < 7 ==> s == DAY_LABELS[weekdayFromSunday]
    ensures !(0 <= weekdayFromSunday < 7) ==> s == "?"
    ensures |s| == 1
  {
    if 0 <= weekdayFromSunday < 7 then DAY_LABELS[weekdayFromSunday] else "?"
  }

  /**
    The weekday from Sunday of the day numbered `daysFromCE` in the
    proleptic Gregorian calendar (day 1, 1 January of year 1, is a Monday).
  */
  function WeekdayFromSunday(daysFromCE: int): (w: int)
    ensures 0 <= w < 7
  {
    daysFromCE % 7
  }

  /** Day 1 of the common era is a Monday, and each next day is the next weekday, Saturday wrapping to Sunday. */
  lemma WeekdaySucceeds(daysFromCE: int)
    ensures WeekdayFromSunday(1) == 1
    ensures WeekdayFromSunday(daysFromCE + 1) == (WeekdayFromSunday(daysFromCE) + 1) % 7
  {
  }

  /** The "?" label never shows for a real date. */
  lemma DayLabelNeverUnknown(daysFromCE: int)
    ensures DayLabel(WeekdayFromSunday(daysFromCE)) != "?"
  {
  }

  /** The layout of one day column of the daily forecast. */
  datatype DayColumn = DayColumn(dayLabel: string, labelX: int, labelY: int, highX: int, highY: int, maxT: real)

  const HOUR_WIDTH := 2
  const DAY_WIDTH := 24 * HOUR_WIDTH + 5
  const LEFT_OFFSET := 10

  /** Where the column of a day `dayCount` days after the first shown one goes. */
  function ColumnOf(leftX: int, topY: int, daysFromCE: int, dayCount: int, day: Weather.WeatherDay): DayColumn {
    DayColumn(DayLabel(WeekdayFromSunday(daysFromCE)),
              leftX + LEFT_OFFSET + dayCount * DAY_WIDTH + 8 * HOUR_WIDTH, topY,
              leftX + LEFT_OFFSET + dayCount * DAY_WIDTH + 4 * HOUR_WIDTH, topY + 30,
              day.maxT)
  }

  /**
    The day loop of `draw_daily_forecast` over the days in increasing date
    order (keys are day numbers from the common era): at most four columns,
    each placed by its distance in days from the first day; no day at all
    is an error.
  */
  method DailyForecast(leftX: int, topY: int, days: seq<(int, Weather.WeatherDay)>)
    returns (r: Result<seq<DayColumn>>)
    ensures r.Err? <==> days == []
    ensures r.Err? ==> r.error == MakeError(MISSING_FIRST_ENTRY)
    ensures r.Ok? ==> |r.value| == Min(4, |days|)
    ensures r.Ok? ==> forall k :: 0 <= k < |r.value| ==>
              r.value[k] == ColumnOf(leftX, topY, days[k].0, days[k].0 - days[0].0, days[k].1)
  {
    if days == [] {
      return Err(MakeError(MISSING_FIRST_ENTRY));
    }
    var firstDate := days[0].0;
    var columns: seq<DayColumn> := [];
    var shown := days[..Min(4, |days|)];
    for k := 0 to |shown|
      invariant |columns| == k
      invariant forall j :: 0 <= j < k ==>
                  columns[j] == ColumnOf(leftX, topY, days[j].0, days[j].0 - firstDate, days[j].1)
    {
      var (date, info) := shown[k];
      columns := columns + [ColumnOf(leftX, topY, date, date - firstDate, info)];
    }
    return Ok(columns);
  }

  /** Over strictly increasing dates, the columns go left to right, the first one at the left edge. */
  lemma ColumnsLeftToRight(leftX: int, topY: int, days: seq<(int, Weather.WeatherDay)>, cols: seq<DayColumn>)
    requires Weather.StrictlyAscending(days) && |cols| <= |days|
    requires forall k :: 0 <= k < |cols| ==> cols[k] == ColumnOf(leftX, topY, days[k].0, days[k].0 - days[0].0, days[k].1)
    ensures |cols| > 0 ==> cols[0].labelX == leftX + LEFT_OFFSET + 8 * HOUR_WIDTH
    ensures forall j, k :: 0 <= j < k < |cols| ==> cols[j].labelX + DAY_WIDTH <= cols[k].labelX
  {
    forall j, k | 0 <= j < k < |cols| ensures cols[j].labelX + DAY_WIDTH <= cols[k].labelX {
      assert days[j].0 < days[k].0;
    }
  }

  /** The weather half of the screen, without the temperatures' text. */
  datatype WeatherPanel = WeatherPanel(columns: seq<DayColumn>, currentT: real, firstMinT: real, firstMaxT: real,
                                       dewBoxes: seq<DewBox>)

  /**
    The weather half drawn from `display`, whose days in increasing order
    are `entries`: a column for each of the first four days at y = 240, the
    current temperature, the first day's extremes, and five dew-point boxes
    at (400 + 45 i, 200) of which the first day's bucket are filled.
  */
  predicate WeatherPanelFrom(display: Weather.WeatherDisplay, entries: seq<(int, Weather.WeatherDay)>, panel: WeatherPanel) {
    && Weather.StrictlyAscending(entries) && Weather.EntriesOf(entries, display.days)
    && Weather.KeysOf(entries) == display.days.Keys && entries != []
    && |panel.columns| == Min(4, |entries|)
    && (forall k :: 0 <= k < |panel.columns| ==>
          panel.columns[k] == ColumnOf(400, 240, entries[k].0, entries[k].0 - entries[0].0, entries[k].1))
    && panel.currentT == display.currentT
    && panel.firstMinT == entries[0].1.minT && panel.firstMaxT == entries[0].1.maxT
    && |panel.dewBoxes| == 5
    && (forall i :: 0 <= i < 5 ==>
          panel.dewBoxes[i] == DewBox(400 + i * 45, 200, i < DewPointBucket(RealToI32(entries[0].1.maxDewPoint))))
  }

  /** `panel` is the weather half drawn from `display`, for the enumeration of its days in increasing order. */
  ghost predicate WeatherPanelOf(display: Weather.WeatherDisplay, panel: WeatherPanel) {
    exists entries :: WeatherPanelFrom(display, entries, panel)
  }

  /** The first key of an ascending enumeration of a map is its least key. */
  lemma FirstKeyLeast<V>(entries: seq<(int, V)>, m: map<int, V>)
    requires Weather.StrictlyAscending(entries) && Weather.KeysOf(entries) == m.Keys && entries != []
    ensures forall e :: e in m ==> entries[0].0 <= e
  {
    forall e | e in m ensures entries[0].0 <= e {
      assert e in Weather.KeysOf(entries);
      var i :| 0 <= i < |entries| && entries[i].0 == e;
      if i > 0 { assert entries[0].0 < entries[i].0; }
    }
  }

  /**
    `draw_weather`: the daily forecast at (400, 240), then the first day's
    extremes and its dew-point boxes; no day at all is an error.
  */
  method DrawWeather(display: Weather.WeatherDisplay) returns (r: Result<WeatherPanel>)
    ensures r.Err? <==> |display.days| == 0
    ensures r.Err? ==> r.error == MakeError(MISSING_FIRST_ENTRY)
    ensures r.Ok? ==> |r.value.dewBoxes| == 5 && r.value.currentT == display.currentT
    ensures r.Ok? ==> exists d :: d in display.days && (forall e :: e in display.days ==> d <= e)
                                && r.value.firstMinT == display.days[d].minT && r.value.firstMaxT == display.days[d].maxT
                                && FilledCount(r.value.dewBoxes) == DewPointBucket(RealToI32(display.days[d].maxDewPoint))
    ensures r.Ok? ==> WeatherPanelOf(display, r.value)
  {
    var leftX, topY := 400, 0;
    var days := Weather.Ascending(display.days);
    assert days == [] <==> |display.days| == 0 by {
      if days == [] {
        forall x ensures x !in display.days.Keys { assert x !in Weather.KeysOf(days); }
        Weather.EmptyIfNoElement(display.days.Keys);
      } else {
        assert days[0].0 in Weather.KeysOf(days);
      }
    }
    var columns :- DailyForecast(leftX, topY + 240, days);
    var (first, info) := days[0];
    assert first in display.days;
    FirstKeyLeast(days, display.days);
    var bucket := DewPointBucket(RealToI32(info.maxDewPoint));
    var boxes := DewPointBoxes(leftX, topY, bucket);
    FilledBoxesCount(boxes, bucket);
    r := Ok(WeatherPanel(columns, display.currentT, info.minT, info.maxT, boxes));
    assert WeatherPanelFrom(display, days, r.value);
  }

  /** Everything `generate_image` places on the 640 x 384 screen. */
  datatype Frame = Frame(width: int, height: int, subway: SubwayPanel, weather: Option<WeatherPanel>, version: string)

  /**
    `generate_image`: the subway half always; the weather half when a
    forecast is held, whose failure fails the whole image; the version
    label last.
  */
  method GenerateImage(now: int, data: ProcessedData, weather: Option<Weather.WeatherDisplay>, version: Option<string>)
    returns (r: Result<Frame>)
    ensures r.Err? <==> weather.Some? && |weather.value.days| == 0
    ensures r.Ok? ==> && r.value.width == EPD_WIDTH && r.value.height == EPD_HEIGHT
                      && SubwayPanelOf(now, data, r.value.subway)
                      && (r.value.weather.Some? <==> weather.Some?)
                      && (weather.Some? ==> WeatherPanelOf(weather.value, r.value.weather.value))
                      && r.value.version == VersionLabel(version)
  {
    var subway := DrawSubwayArrivals(now, data);
    var panel: Option<WeatherPanel> := None;
    if weather.Some? {
      var drawn :- DrawWeather(weather.value);
      panel := Some(drawn);
    }
    return Ok(Frame(EPD_WIDTH, EPD_HEIGHT, subway, panel, VersionLabel(version)));
  }
}
