/**
  The forecast side of src/weather.rs: the start/duration interval form of
  the grid's `validTime`, the grid entries, the map-filling pass that turns
  the sparse grid into hourly buckets, and the loop that groups the hourly
  buckets into local days.

  Instants are seconds since the epoch (chrono orders `DateTime` values by
  instant, whatever their offset), durations are seconds, and `f32` values
  are reals. RFC 3339 parsing and the US/Eastern calendar are parameters.
*/
module Weather {
  import opened Errors
  import opened Text
  import opened WeatherDuration

  /** How `DateTime::parse_from_rfc3339` ends: an instant, or chrono's error text. */
  datatype TimeParse = Parsed(seconds: int) | Unparsable(reason: string)

  /** `parse_time_and_duration`: "start/duration"; parts after the second are ignored. */
  function ParseTimeAndDuration(input: string, rfc3339: string -> TimeParse): Result<(int, nat)> {
    var parts := Split(input, '/');
    if |parts| < 2 then Err(MakeError("Couldn't parse time+duration string: '" + input + "'"))
    else
      match rfc3339(parts[0])
      case Unparsable(reason) => Err(FromChrono(reason))
      case Parsed(t) =>
        match DurationOf(parts[1])
        case Err(e) => Err(e)
        case Ok(d) => Ok((t, d))
  }

  /** The start is the text before the first '/', and a start that does not parse is chrono's error. */
  lemma {:induction false} StartBeforeFirstSlash(input: string, rfc3339: string -> TimeParse)
    ensures var r := ParseTimeAndDuration(input, rfc3339);
            r.Ok? ==> exists k :: StartEndsAt(input, k) && rfc3339(input[..k]) == Parsed(r.value.0)
    ensures forall k :: StartEndsAt(input, k) && rfc3339(input[..k]).Unparsable? ==>
              ParseTimeAndDuration(input, rfc3339) == Err(FromChrono(rfc3339(input[..k]).reason))
  {
    var parts := Split(input, '/');
    if |parts| >= 2 {
      assert input == parts[0] + "/" + Join(parts[1..], "/");
      assert StartEndsAt(input, |parts[0]|) && input[..|parts[0]|] == parts[0];
    }
  }

  /** `k` is the position of the first '/' of `input`. */
  predicate StartEndsAt(input: string, k: int) {
    0 <= k < |input| && input[k] == '/' && '/' !in input[..k]
  }

  /** Without a '/', the input is rejected before anything is parsed. */
  lemma {:induction false} NoSeparatorRejected(input: string, rfc3339: string -> TimeParse)
    requires '/' !in input
    ensures ParseTimeAndDuration(input, rfc3339)
         == Err(SimpleError("Couldn't parse time+duration string: '" + input + "'"))
  {
    SplitCount(input, '/');
  }

  /**
    With one '/', the result is the start instant and the duration when
    both parse; a bad start is reported before a bad duration.
  */
  lemma {:induction false} IntervalParsed(start: string, dur: string, rfc3339: string -> TimeParse)
    requires '/' !in start && '/' !in dur
    ensures var r := ParseTimeAndDuration(start + "/" + dur, rfc3339);
            && (r.Ok? <==> rfc3339(start).Parsed? && DurationOf(dur).Ok?)
            && (r.Ok? ==> r.value == (rfc3339(start).seconds, DurationOf(dur).value))
            && (rfc3339(start).Unparsable? ==> r == Err(ChronoParseError(rfc3339(start).reason)))
            && (rfc3339(start).Parsed? && DurationOf(dur).Err? ==> r == Err(DurationOf(dur).error))
  {
    SplitAfter(start, '/', dur);
    SplitWithout(dur, '/');
  }

  /** Everything after a second '/' is ignored. */
  lemma {:induction false} ExtraPartsIgnored(start: string, dur: string, extra: string, rfc3339: string -> TimeParse)
    requires '/' !in start && '/' !in dur
    ensures ParseTimeAndDuration(start + "/" + dur + "/" + extra, rfc3339)
         == ParseTimeAndDuration(start + "/" + dur, rfc3339)
  {
    assert start + "/" + dur + "/" + extra == start + ['/'] + (dur + ['/'] + extra);
    SplitAfter(start, '/', dur + ['/'] + extra);
    SplitAfter(dur, '/', extra);
    SplitAfter(start, '/', dur);
    SplitWithout(dur, '/');
  }

  /** A decoded `NwsApiGridValue`. */
  datatype RawValue = RawValue(validTime: string, value: real)

  /** The three decoded series of the grid endpoint. */
  datatype RawGrid = RawGrid(precipProb: seq<RawValue>, temperature: seq<RawValue>, dewPoint: seq<RawValue>)

  /** `GridForecastEntry`. */
  datatype GridEntry = GridEntry(time: int, duration: nat, value: real)

  /** `GridForecast`. */
  datatype GridForecast = GridForecast(precipProb: seq<GridEntry>, temperature: seq<GridEntry>, dewPoint: seq<GridEntry>)

  /** `parse_grid_entry`. */
  function ParseGridEntry(raw: RawValue, rfc3339: string -> TimeParse): (r: Result<GridEntry>)
    ensures r.Ok? <==> ParseTimeAndDuration(raw.validTime, rfc3339).Ok?
    ensures r.Ok? ==> r.value.value == raw.value
    ensures r.Ok? ==> (r.value.time, r.value.duration) == ParseTimeAndDuration(raw.validTime, rfc3339).value
    ensures r.Err? ==> r.error == ParseTimeAndDuration(raw.validTime, rfc3339).error
  {
    var (time, duration) :- ParseTimeAndDuration(raw.validTime, rfc3339);
    Ok(GridEntry(time, duration, raw.value))
  }

  /** `ctof`: Celsius to Fahrenheit, undone by the usual inverse. */
  function CToF(c: real): (f: real)
    ensures (f - 32.0) * 5.0 / 9.0 == c
  {
    32.0 + c * 9.0 / 5.0
  }

  /** Converting to Fahrenheit keeps the order of temperatures. */
  lemma CToFMonotone(a: real, b: real)
    ensures a < b <==> CToF(a) < CToF(b)
  {
  }

  function Converted(e: GridEntry, fahrenheit: bool): GridEntry {
    if fahrenheit then e.(value := CToF(e.value)) else e
  }

  /** Every entry of the series parses. */
  predicate AllParse(values: seq<RawValue>, rfc3339: string -> TimeParse) {
    forall i :: 0 <= i < |values| ==> ParseGridEntry(values[i], rfc3339).Ok?
  }

  /** `out` holds the parsed entries of `values`, converted, in order. */
  predicate ParsedAll(values: seq<RawValue>, rfc3339: string -> TimeParse, fahrenheit: bool, out: seq<GridEntry>) {
    && |out| == |values|
    && forall i :: 0 <= i < |values| ==>
         ParseGridEntry(values[i], rfc3339).Ok? && out[i] == Converted(ParseGridEntry(values[i], rfc3339).value, fahrenheit)
  }

  /** Entry `k` is the first one that fails to parse, and it fails with `e`. */
  predicate FailsFirstAt(values: seq<RawValue>, rfc3339: string -> TimeParse, k: int, e: TTDashError) {
    && 0 <= k < |values|
    && ParseGridEntry(values[k], rfc3339) == Err(e)
    && forall j :: 0 <= j < k ==> ParseGridEntry(values[j], rfc3339).Ok?
  }

  lemma ParsedCons(values: seq<RawValue>, rfc3339: string -> TimeParse, fahrenheit: bool, rest: seq<GridEntry>)
    requires values != [] && ParseGridEntry(values[0], rfc3339).Ok?
    requires ParsedAll(values[1..], rfc3339, fahrenheit, rest)
    ensures ParsedAll(values, rfc3339, fahrenheit,
                      [Converted(ParseGridEntry(values[0], rfc3339).value, fahrenheit)] + rest)
  {
    var out := [Converted(ParseGridEntry(values[0], rfc3339).value, fahrenheit)] + rest;
    forall i | 1 <= i < |values|
      ensures ParseGridEntry(values[i], rfc3339).Ok?
      ensures out[i] == Converted(ParseGridEntry(values[i], rfc3339).value, fahrenheit)
    {
      assert values[i] == values[1..][i - 1] && out[i] == rest[i - 1];
    }
  }

  lemma FailsLater(values: seq<RawValue>, rfc3339: string -> TimeParse, k: int, e: TTDashError)
    requires values != [] && ParseGridEntry(values[0], rfc3339).Ok?
    requires FailsFirstAt(values[1..], rfc3339, k, e)
    ensures FailsFirstAt(values, rfc3339, k + 1, e)
  {
    var tail := values[1..];
    assert values[k + 1] == tail[k];
    forall j | 1 <= j < k + 1 ensures ParseGridEntry(values[j], rfc3339).Ok? {
      assert values[j] == tail[j - 1];
      assert ParseGridEntry(tail[j - 1], rfc3339).Ok?;
    }
  }

  /**
    One series, parsed entry by entry and collected: the first entry that
    fails to parse decides the error.
  */
  function ParseSeries(values: seq<RawValue>, rfc3339: string -> TimeParse, fahrenheit: bool): (r: Result<seq<GridEntry>>)
    ensures r.Ok? <==> AllParse(values, rfc3339)
    ensures r.Ok? ==> ParsedAll(values, rfc3339, fahrenheit, r.value)
    ensures r.Err? ==> exists k :: FailsFirstAt(values, rfc3339, k, r.error)
    decreases |values|
  {
    if values == [] then Ok([])
    else
      var head := ParseGridEntry(values[0], rfc3339);
      if head.Err? then
        assert FailsFirstAt(values, rfc3339, 0, head.error);
        Err(head.error)
      else
        var tail := ParseSeries(values[1..], rfc3339, fahrenheit);
        if tail.Err? then
          var k :| FailsFirstAt(values[1..], rfc3339, k, tail.error);
          FailsLater(values, rfc3339, k, tail.error);
          Err(tail.error)
        else
          ParsedCons(values, rfc3339, fahrenheit, tail.value);
          Ok([Converted(head.value, fahrenheit)] + tail.value)
  }

  /**
    `fetch_grid_forecast` after the fetch and the JSON decoding: the
    precipitation series, then the temperatures and the dew points, the
    last two converted to Fahrenheit.
  */
  function GridForecastOf(fetched: Result<RawGrid>, rfc3339: string -> TimeParse): (r: Result<GridForecast>)
    ensures fetched.Err? ==> r == Err(fetched.error)
    ensures r.Ok? <==> fetched.Ok? && ParseSeries(fetched.value.precipProb, rfc3339, false).Ok?
                       && ParseSeries(fetched.value.temperature, rfc3339, true).Ok?
                       && ParseSeries(fetched.value.dewPoint, rfc3339, true).Ok?
  {
    var raw :- fetched;
    var precip :- ParseSeries(raw.precipProb, rfc3339, false);
    var temps :- ParseSeries(raw.temperature, rfc3339, true);
    var dews :- ParseSeries(raw.dewPoint, rfc3339, true);
    Ok(GridForecast(precip, temps, dews))
  }

  /** `DenseGridHour`. */
  datatype DenseHour = DenseHour(precipProb: real, temperature: real, dewPoint: real)

  const EMPTY_HOUR := DenseHour(0.0, 0.0, 0.0)

  /** The field of a dense hour that one series writes. */
  datatype Field = PrecipProb | Temperature | DewPoint

  function Get(h: DenseHour, f: Field): real {
    match f
    case PrecipProb => h.precipProb
    case Temperature => h.temperature
    case DewPoint => h.dewPoint
  }

  function Set(h: DenseHour, f: Field, v: real): (r: DenseHour)
    ensures Get(r, f) == v
    ensures forall g :: g != f ==> Get(r, g) == Get(h, g)
  {
    match f
    case PrecipProb => h.(precipProb := v)
    case Temperature => h.(temperature := v)
    case DewPoint => h.(dewPoint := v)
  }

  /** `Duration::num_hours`: whole hours, the remainder truncated. */
  function WholeHours(e: GridEntry): int {
    TruncDiv(e.duration, SECONDS_PER_HOUR)
  }

  /** Instant `t` is one of the first `n` hours that start at `e.time`. */
  predicate CoversFirst(e: GridEntry, n: int, t: int) {
    var k := t - e.time;
    0 <= k && k % SECONDS_PER_HOUR == 0 && k / SECONDS_PER_HOUR < n
  }

  /** Instant `t` is one of the whole hours of entry `e`. */
  predicate Covers(e: GridEntry, t: int) {
    CoversFirst(e, WholeHours(e), t)
  }

  /** The hours of an entry are exactly `time + i` hours for `0 <= i < num_hours`. */
  lemma CoversHour(e: GridEntry, t: int)
    ensures Covers(e, t) <==> exists i :: 0 <= i < WholeHours(e) && t == e.time + i * SECONDS_PER_HOUR
  {
    if Covers(e, t) {
      var i := (t - e.time) / SECONDS_PER_HOUR;
      assert t == e.time + i * SECONDS_PER_HOUR;
    }
  }

  /** A duration shorter than an hour (such as PT30M) covers no hour. */
  lemma SubHourCoversNothing(e: GridEntry, t: int)
    requires e.duration < SECONDS_PER_HOUR
    ensures !Covers(e, t)
  {
  }

  /** The value that the last entry of a series covering `t` gives it. */
  function LastValue(series: seq<GridEntry>, t: int): Option<real>
    decreases |series|
  {
    if series == [] then None
    else if Covers(series[|series| - 1], t) then Some(series[|series| - 1].value)
    else LastValue(series[..|series| - 1], t)
  }

  /** A later entry overwrites an earlier one on the hours they share. */
  lemma {:induction false} LaterEntryWins(before: seq<GridEntry>, e: GridEntry, after: seq<GridEntry>, t: int)
    requires Covers(e, t) && LastValue(after, t).None?
    ensures LastValue(before + [e] + after, t) == Some(e.value)
    decreases |after|
  {
    var s := before + [e] + after;
    if after == [] {
      assert s[..|s| - 1] == before && s[|s| - 1] == e;
    } else {
      var init := after[..|after| - 1];
      assert s[..|s| - 1] == before + [e] + init;
      assert s[|s| - 1] == after[|after| - 1];
      LaterEntryWins(before, e, init, t);
    }
  }

  /** A bucket as it is before a series touches it. */
  function Slot(m: map<int, DenseHour>, t: int): DenseHour {
    if t in m then m[t] else EMPTY_HOUR
  }

  /**
    `m` is `base` after one series wrote its field: the hours of the series
    are added (new ones start from zeros) and get the series' last value,
    and every other field is left alone.
  */
  ghost predicate SeriesApplied(base: map<int, DenseHour>, m: map<int, DenseHour>, series: seq<GridEntry>, f: Field) {
    && (forall t :: t in m <==> t in base || LastValue(series, t).Some?)
    && (forall t :: t in m ==> m[t] == Set(Slot(base, t), f, LastValue(series, t).GetOr(Get(Slot(base, t), f))))
  }

  lemma SetTwice(h: DenseHour, f: Field, a: real, b: real)
    ensures Set(Set(h, f, a), f, b) == Set(h, f, b)
  {
  }

  lemma HourOffset(e: GridEntry, i: int)
    requires 0 <= i
    ensures var k := e.time + i * SECONDS_PER_HOUR - e.time;
            k % SECONDS_PER_HOUR == 0 && k / SECONDS_PER_HOUR == i
  {
  }

  /** One of the three loops of `densify_grid_forecast`. */
  method ApplySeries(base: map<int, DenseHour>, series: seq<GridEntry>, f: Field) returns (m: map<int, DenseHour>)
    ensures SeriesApplied(base, m, series, f)
  {
    m := base;
    for k := 0 to |series|
      invariant SeriesApplied(base, m, series[..k], f)
    {
      var e := series[k];
      ghost var before := m;
      var n := WholeHours(e);
      var hours := if n < 0 then 0 else n;
      for i := 0 to hours
        invariant forall t :: t in m <==> t in before || CoversFirst(e, i, t)
        invariant forall t :: t in m ==> m[t] == if CoversFirst(e, i, t) then Set(Slot(before, t), f, e.value) else before[t]
      {
        var hour := e.time + i * SECONDS_PER_HOUR;
        HourOffset(e, i);
        var entry := if hour in m then m[hour] else EMPTY_HOUR;
        m := m[hour := Set(entry, f, e.value)];
      }
      assert series[..k + 1][..k] == series[..k] && series[..k + 1][k] == e;
      forall t | t in m
        ensures m[t] == Set(Slot(base, t), f, LastValue(series[..k + 1], t).GetOr(Get(Slot(base, t), f)))
      {
        if Covers(e, t) && t in before {
          SetTwice(Slot(base, t), f, LastValue(series[..k], t).GetOr(Get(Slot(base, t), f)), e.value);
        }
      }
    }
    assert series[..|series|] == series;
  }

  /** The hours that some entry of the series covers. */
  ghost predicate InSeries(series: seq<GridEntry>, t: int) {
    LastValue(series, t).Some?
  }

  /**
    `densify_grid_forecast`: it never fails; its hours are those of all
    three series, and each field holds the value of the last entry of its
    own series that covers the hour, or 0.
  */
  method DensifyGridForecast(sparse: GridForecast) returns (r: Result<map<int, DenseHour>>)
    ensures r.Ok?
    ensures forall t :: t in r.value <==>
              InSeries(sparse.precipProb, t) || InSeries(sparse.temperature, t) || InSeries(sparse.dewPoint, t)
    ensures forall t :: t in r.value ==>
              r.value[t] == DenseHour(LastValue(sparse.precipProb, t).GetOr(0.0),
                                      LastValue(sparse.temperature, t).GetOr(0.0),
                                      LastValue(sparse.dewPoint, t).GetOr(0.0))
  {
    var m1 := ApplySeries(map[], sparse.precipProb, PrecipProb);
    var m2 := ApplySeries(m1, sparse.temperature, Temperature);
    var m3 := ApplySeries(m2, sparse.dewPoint, DewPoint);
    return Ok(m3);
  }

  /** Keys strictly increase along the sequence. */
  predicate StrictlyAscending<V>(s: seq<(int, V)>) {
    forall i, j :: 0 <= i < j < |s| ==> s[i].0 < s[j].0
  }

  /** A set with no element is empty (set extensionality, spelled out). */
  lemma EmptyIfNoElement(s: set<int>)
    ensures (forall x :: x !in s) ==> s == {}
  {
    if forall x :: x !in s {
      var none: set<int> := {};
      assert forall x :: x in s <==> x in none;
      assert s == none;
    }
  }

  lemma {:induction false} MinimumExists(s: set<int>) returns (m: int)
    requires s != {}
    ensures m in s && forall u :: u in s ==> m <= u
    decreases |s|
  {
    EmptyIfNoElement(s);
    var x :| x in s;
    if s == {x} {
      m := x;
    } else {
      var y := MinimumExists(s - {x});
      m := if x < y then x else y;
      forall u | u in s ensures m <= u {
        if u != x { assert u in s - {x}; }
      }
    }
  }

  /** The keys that occur in a sequence of entries. */
  function KeysOf<V>(s: seq<(int, V)>): set<int> {
    set i | 0 <= i < |s| :: s[i].0
  }

  lemma KeysOfSnoc<V>(s: seq<(int, V)>, x: (int, V))
    ensures KeysOf(s + [x]) == KeysOf(s) + {x.0}
  {
    var next := s + [x];
    forall k | k in KeysOf(next) ensures k in KeysOf(s) + {x.0} {
      var i :| 0 <= i < |next| && next[i].0 == k;
      if i < |s| { assert next[i] == s[i]; }
    }
    forall k | k in KeysOf(s) ensures k in KeysOf(next) {
      var i :| 0 <= i < |s| && s[i].0 == k;
      assert next[i] == s[i];
    }
    assert next[|s|] == x;
  }

  /** Every key of `s` is below every element of `rest`. */
  predicate AllBelow<V>(s: seq<(int, V)>, rest: set<int>) {
    forall i, u :: 0 <= i < |s| && u in rest ==> s[i].0 < u
  }

  /** Appending the least remaining key keeps the entries ascending and below the rest. */
  lemma AppendLeast<V>(before: seq<(int, V)>, rest: set<int>, t: int, v: V)
    requires t in rest && forall u :: u in rest ==> t <= u
    requires StrictlyAscending(before) && AllBelow(before, rest)
    ensures StrictlyAscending(before + [(t, v)]) && AllBelow(before + [(t, v)], rest - {t})
  {
    var next := before + [(t, v)];
    forall i, u | 0 <= i < |next| && u in rest - {t} ensures next[i].0 < u {
      if i < |before| { assert next[i] == before[i]; }
    }
    forall i, j | 0 <= i < j < |next| ensures next[i].0 < next[j].0 {
      assert next[i] == before[i];
      if j < |before| { assert next[j] == before[j]; }
    }
  }

  /** Moving the key `t` from `rest` to the entries keeps their union. */
  lemma MoveKey<V>(before: seq<(int, V)>, rest: set<int>, t: int, v: V)
    requires t in rest
    ensures KeysOf(before + [(t, v)]) + (rest - {t}) == KeysOf(before) + rest
  {
    KeysOfSnoc(before, (t, v));
  }

  /** Every entry is an entry of `m`. */
  predicate EntriesOf<V(==)>(s: seq<(int, V)>, m: map<int, V>) {
    forall i :: 0 <= i < |s| ==> s[i].0 in m && m[s[i].0] == s[i].1
  }

  lemma EntriesOfSnoc<V>(s: seq<(int, V)>, m: map<int, V>, t: int)
    requires EntriesOf(s, m) && t in m
    ensures EntriesOf(s + [(t, m[t])], m)
  {
    var next := s + [(t, m[t])];
    forall i | 0 <= i < |next| ensures next[i].0 in m && m[next[i].0] == next[i].1 {
      if i < |s| { assert next[i] == s[i]; }
    }
  }

  /** Iteration over a `BTreeMap`: every entry once, in increasing key order. */
  method Ascending<V(==)>(m: map<int, V>) returns (entries: seq<(int, V)>)
    ensures StrictlyAscending(entries)
    ensures EntriesOf(entries, m)
    ensures KeysOf(entries) == m.Keys
  {
    var rest := m.Keys;
    entries := [];
    while rest != {}
      invariant KeysOf(entries) + rest == m.Keys
      invariant StrictlyAscending(entries) && AllBelow(entries, rest)
      invariant EntriesOf(entries, m)
      decreases |rest|
    {
      ghost var least := MinimumExists(rest);
      var t :| t in rest && forall u :: u in rest ==> t <= u;
      AppendLeast(entries, rest, t, m[t]);
      MoveKey(entries, rest, t, m[t]);
      EntriesOfSnoc(entries, m, t);
      entries := entries + [(t, m[t])];
      rest := rest - {t};
    }
  }

  /** `WeatherDisplayDay`; `precipByHour` is keyed by the local hour of day. */
  datatype WeatherDay = WeatherDay(minT: real, maxT: real, maxDewPoint: real, precipByHour: map<int, real>)

  /** The local calendar is monotone: a later instant is never on an earlier day. */
  ghost predicate MonotoneDays(localDay: int -> int) {
    forall t1, t2 :: t1 <= t2 ==> localDay(t1) <= localDay(t2)
  }

  /** The buckets not skipped: those at or after `minTs`. */
  function Kept(hours: seq<(int, DenseHour)>, minTs: int): (r: seq<(int, DenseHour)>)
    ensures |r| <= |hours|
    ensures forall i :: 0 <= i < |r| ==> r[i] in hours && r[i].0 >= minTs
    ensures forall i :: 0 <= i < |hours| && hours[i].0 >= minTs ==> hours[i] in r
    decreases |hours|
  {
    if hours == [] then []
    else
      var last := hours[|hours| - 1];
      Kept(hours[..|hours| - 1], minTs) + (if last.0 >= minTs then [last] else [])
  }

  /** The buckets of one local day. */
  function On(hours: seq<(int, DenseHour)>, day: int, localDay: int -> int): (r: seq<(int, DenseHour)>)
    ensures forall i :: 0 <= i < |r| ==> r[i] in hours && localDay(r[i].0) == day
    decreases |hours|
  {
    if hours == [] then []
    else
      var last := hours[|hours| - 1];
      On(hours[..|hours| - 1], day, localDay) + (if localDay(last.0) == day then [last] else [])
  }

  /** The lowest temperature, the first one kept on ties. */
  function MinT(hours: seq<(int, DenseHour)>): real
    requires hours != []
    decreases |hours|
  {
    var t := hours[|hours| - 1].1.temperature;
    if |hours| == 1 then t
    else var m := MinT(hours[..|hours| - 1]); if t < m then t else m
  }

  function MaxT(hours: seq<(int, DenseHour)>): real
    requires hours != []
    decreases |hours|
  {
    var t := hours[|hours| - 1].1.temperature;
    if |hours| == 1 then t
    else var m := MaxT(hours[..|hours| - 1]); if t > m then t else m
  }

  function MaxDew(hours: seq<(int, DenseHour)>): real
    requires hours != []
    decreases |hours|
  {
    var d := hours[|hours| - 1].1.dewPoint;
    if |hours| == 1 then d
    else var m := MaxDew(hours[..|hours| - 1]); if d > m then d else m
  }

  /** Precipitation by local hour; a repeated local hour keeps the later bucket. */
  function PrecipMap(hours: seq<(int, DenseHour)>, localHour: int -> int): map<int, real>
    decreases |hours|
  {
    if hours == [] then map[]
    else
      var last := hours[|hours| - 1];
      PrecipMap(hours[..|hours| - 1], localHour)[localHour(last.0) := last.1.precipProb]
  }

  /** The summary of one day. */
  function Summary(hours: seq<(int, DenseHour)>, localHour: int -> int): WeatherDay
    requires hours != []
  {
    WeatherDay(MinT(hours), MaxT(hours), MaxDew(hours), PrecipMap(hours, localHour))
  }

  /** The days that the kept buckets fall on. */
  function DaySet(hours: seq<(int, DenseHour)>, localDay: int -> int): set<int> {
    set i | 0 <= i < |hours| :: localDay(hours[i].0)
  }

  /** The minimum is a lower bound of the temperatures and one of them. */
  lemma {:induction false} MinTIsMinimum(hours: seq<(int, DenseHour)>)
    requires hours != []
    ensures forall i :: 0 <= i < |hours| ==> MinT(hours) <= hours[i].1.temperature
    ensures exists i :: 0 <= i < |hours| && MinT(hours) == hours[i].1.temperature
    decreases |hours|
  {
    if |hours| > 1 {
      var init := hours[..|hours| - 1];
      MinTIsMinimum(init);
      var k :| 0 <= k < |init| && MinT(init) == init[k].1.temperature;
      assert hours[k] == init[k];
      assert forall i :: 0 <= i < |init| ==> hours[i] == init[i];
      if hours[|hours| - 1].1.temperature < MinT(init) {
        assert MinT(hours) == hours[|hours| - 1].1.temperature;
      } else {
        assert MinT(hours) == hours[k].1.temperature;
      }
    } else {
      assert MinT(hours) == hours[0].1.temperature;
    }
  }

  /** The maximum is an upper bound of the temperatures and one of them. */
  lemma {:induction false} MaxTIsMaximum(hours: seq<(int, DenseHour)>)
    requires hours != []
    ensures forall i :: 0 <= i < |hours| ==> hours[i].1.temperature <= MaxT(hours)
    ensures exists i :: 0 <= i < |hours| && MaxT(hours) == hours[i].1.temperature
    decreases |hours|
  {
    if |hours| > 1 {
      var init := hours[..|hours| - 1];
      MaxTIsMaximum(init);
      var k :| 0 <= k < |init| && MaxT(init) == init[k].1.temperature;
      assert hours[k] == init[k];
      assert forall i :: 0 <= i < |init| ==> hours[i] == init[i];
      if hours[|hours| - 1].1.temperature > MaxT(init) {
        assert MaxT(hours) == hours[|hours| - 1].1.temperature;
      } else {
        assert MaxT(hours) == hours[k].1.temperature;
      }
    } else {
      assert MaxT(hours) == hours[0].1.temperature;
    }
  }

  /** Every emitted day has `min_t <= max_t`. */
  lemma {:induction false} DayMinAtMostMax(hours: seq<(int, DenseHour)>, localHour: int -> int)
    requires hours != []
    ensures Summary(hours, localHour).minT <= Summary(hours, localHour).maxT
  {
    MinTIsMinimum(hours);
    MaxTIsMaximum(hours);
  }

  /**
    The days that the loop has inserted once it has seen the kept buckets
    `kept`: one summary per day except the day of the last bucket, which is
    still open.
  */
  function DaysOf(kept: seq<(int, DenseHour)>, localDay: int -> int, localHour: int -> int): map<int, WeatherDay>
    requires kept != []
  {
    map d | d in DaySet(kept, localDay) && d != localDay(kept[|kept| - 1].0) :: DaySummary(kept, d, localDay, localHour)
  }

  /** The summary of the buckets of one day that has some. */
  function DaySummary(kept: seq<(int, DenseHour)>, d: int, localDay: int -> int, localHour: int -> int): WeatherDay
    requires d in DaySet(kept, localDay)
  {
    OnNonEmpty(kept, d, localDay);
    Summary(On(kept, d, localDay), localHour)
  }

  lemma {:induction false} OnNonEmpty(hours: seq<(int, DenseHour)>, d: int, localDay: int -> int)
    requires d in DaySet(hours, localDay)
    ensures On(hours, d, localDay) != []
    decreases |hours|
  {
    var last := hours[|hours| - 1];
    if localDay(last.0) != d {
      var init := hours[..|hours| - 1];
      var i :| 0 <= i < |hours| && localDay(hours[i].0) == d;
      assert init[i] == hours[i];
      OnNonEmpty(init, d, localDay);
    }
  }

  /** What the grouping loop leaves behind. */
  datatype Grouping = Grouping(days: map<int, WeatherDay>, firstForecastT: Option<real>)

  /** What the loop leaves behind after it has seen the kept buckets `kept`. */
  function GroupingOf(kept: seq<(int, DenseHour)>, localDay: int -> int, localHour: int -> int): Grouping {
    if kept == [] then Grouping(map[], None)
    else Grouping(DaysOf(kept, localDay, localHour), Some(kept[0].1.temperature))
  }

  /** The state of the loop between two buckets. */
  ghost predicate LoopState(kept: seq<(int, DenseHour)>, localDay: int -> int, localHour: int -> int,
                            days: map<int, WeatherDay>, currentDate: Option<int>,
                            minT: Option<real>, maxT: Option<real>, maxDew: Option<real>,
                            precip: map<int, real>, first: Option<real>)
  {
    if kept == [] then
      days == map[] && currentDate.None? && first.None?
    else
      var cur := localDay(kept[|kept| - 1].0);
      var today := On(kept, cur, localDay);
      && today != []
      && currentDate == Some(cur)
      && days == DaysOf(kept, localDay, localHour)
      && minT == Some(MinT(today)) && maxT == Some(MaxT(today)) && maxDew == Some(MaxDew(today))
      && precip == PrecipMap(today, localHour)
      && first == Some(kept[0].1.temperature)
  }

  /** Appending a bucket of another day leaves a day's buckets alone. */
  lemma OnSnocOther(kept: seq<(int, DenseHour)>, e: (int, DenseHour), d: int, localDay: int -> int)
    requires localDay(e.0) != d
    ensures On(kept + [e], d, localDay) == On(kept, d, localDay)
  {
    assert (kept + [e])[..|kept|] == kept;
  }

  /** Appending a bucket of a day adds it to that day's buckets. */
  lemma OnSnocSame(kept: seq<(int, DenseHour)>, e: (int, DenseHour), localDay: int -> int)
    ensures On(kept + [e], localDay(e.0), localDay) == On(kept, localDay(e.0), localDay) + [e]
  {
    assert (kept + [e])[..|kept|] == kept;
  }

  /** A day with no bucket has no buckets. */
  lemma {:induction false} OnAbsent(kept: seq<(int, DenseHour)>, d: int, localDay: int -> int)
    requires d !in DaySet(kept, localDay)
    ensures On(kept, d, localDay) == []
    decreases |kept|
  {
    if kept != [] {
      var init := kept[..|kept| - 1];
      forall i | 0 <= i < |init| ensures localDay(init[i].0) != d {
        assert init[i] == kept[i];
      }
      OnAbsent(init, d, localDay);
    }
  }

  lemma DaySetSnoc(kept: seq<(int, DenseHour)>, e: (int, DenseHour), localDay: int -> int)
    ensures DaySet(kept + [e], localDay) == DaySet(kept, localDay) + {localDay(e.0)}
  {
    var next := kept + [e];
    forall d | d in DaySet(next, localDay) ensures d in DaySet(kept, localDay) + {localDay(e.0)} {
      var i :| 0 <= i < |next| && localDay(next[i].0) == d;
      if i < |kept| { assert next[i] == kept[i]; }
    }
    forall d | d in DaySet(kept, localDay) ensures d in DaySet(next, localDay) {
      var i :| 0 <= i < |kept| && localDay(kept[i].0) == d;
      assert next[i] == kept[i];
    }
    assert next[|kept|] == e;
  }

  /** A bucket on a day other than the open one is on a day not seen before. */
  lemma {:induction false} NewDayAbsent(kept: seq<(int, DenseHour)>, e: (int, DenseHour), localDay: int -> int)
    requires MonotoneDays(localDay) && kept != [] && StrictlyAscending(kept + [e])
    requires localDay(e.0) != localDay(kept[|kept| - 1].0)
    ensures localDay(e.0) !in DaySet(kept, localDay)
  {
    var next := kept + [e];
    var last := kept[|kept| - 1];
    assert next[|kept| - 1] == last && next[|kept|] == e;
    forall i | 0 <= i < |kept| ensures localDay(kept[i].0) < localDay(e.0) {
      assert next[i] == kept[i];
      assert kept[i].0 <= last.0;
    }
  }

  lemma LastDayIn(kept: seq<(int, DenseHour)>, localDay: int -> int)
    requires kept != []
    ensures localDay(kept[|kept| - 1].0) in DaySet(kept, localDay)
  {
  }

  lemma NewDayKeys(kept: seq<(int, DenseHour)>, e: (int, DenseHour), localDay: int -> int, localHour: int -> int)
    requires kept != [] && localDay(e.0) !in DaySet(kept, localDay)
    ensures DaysOf(kept + [e], localDay, localHour).Keys == DaySet(kept, localDay)
  {
    var next := kept + [e];
    assert next[|next| - 1] == e;
    DaysOfKeys(next, localDay, localHour);
    DaySetSnoc(kept, e, localDay);
    RemoveAdded(DaySet(kept, localDay), localDay(e.0));
  }

  /** Adding an absent element and taking it away again changes nothing. */
  lemma RemoveAdded(s: set<int>, x: int)
    requires x !in s
    ensures s + {x} - {x} == s
  {
    assert forall y :: y in s + {x} - {x} <==> y in s;
  }

  lemma NewDayValue(kept: seq<(int, DenseHour)>, e: (int, DenseHour), d: int, localDay: int -> int, localHour: int -> int)
    requires kept != [] && localDay(e.0) !in DaySet(kept, localDay) && d in DaySet(kept, localDay)
    ensures d in DaySet(kept + [e], localDay)
    ensures DaySummary(kept + [e], d, localDay, localHour) == DaySummary(kept, d, localDay, localHour)
  {
    DaySetSnoc(kept, e, localDay);
    OnSnocOther(kept, e, d, localDay);
  }

  /** The closed days are the days seen except the open one. */
  lemma DaysOfKeys(kept: seq<(int, DenseHour)>, localDay: int -> int, localHour: int -> int)
    requires kept != []
    ensures DaysOf(kept, localDay, localHour).Keys == DaySet(kept, localDay) - {localDay(kept[|kept| - 1].0)}
  {
  }

  /** Closing the open day makes every day seen a key. */
  lemma ClosedKeys(kept: seq<(int, DenseHour)>, localDay: int -> int, localHour: int -> int, w: WeatherDay)
    requires kept != []
    ensures DaysOf(kept, localDay, localHour)[localDay(kept[|kept| - 1].0) := w].Keys == DaySet(kept, localDay)
  {
    LastDayIn(kept, localDay);
    DaysOfKeys(kept, localDay, localHour);
  }

  /** Two maps with the same keys and the same value at each key are equal. */
  lemma SameMap(a: map<int, WeatherDay>, b: map<int, WeatherDay>)
    requires a.Keys == b.Keys && forall d :: d in a ==> a[d] == b[d]
    ensures a == b
  {
    assert forall d :: d in a <==> d in b;
    assert forall d :: d in a ==> a[d] == b[d];
    assert a == b;
  }

  /** A bucket on a new day closes the open day. */
  lemma {:induction false} NewDayDays(kept: seq<(int, DenseHour)>, e: (int, DenseHour),
                                      localDay: int -> int, localHour: int -> int)
    requires kept != [] && localDay(e.0) !in DaySet(kept, localDay)
    ensures localDay(kept[|kept| - 1].0) in DaySet(kept, localDay)
    ensures DaysOf(kept + [e], localDay, localHour)
         == DaysOf(kept, localDay, localHour)[localDay(kept[|kept| - 1].0) :=
                                               DaySummary(kept, localDay(kept[|kept| - 1].0), localDay, localHour)]
  {
    var cur := localDay(kept[|kept| - 1].0);
    LastDayIn(kept, localDay);
    var after := DaysOf(kept + [e], localDay, localHour);
    var closed := DaysOf(kept, localDay, localHour)[cur := DaySummary(kept, cur, localDay, localHour)];
    assert after.Keys == closed.Keys by {
      NewDayKeys(kept, e, localDay, localHour);
      ClosedKeys(kept, localDay, localHour, DaySummary(kept, cur, localDay, localHour));
    }
    assert forall d :: d in after ==> after[d] == closed[d] by {
      forall d | d in after
        ensures after[d] == closed[d]
      {
        NewDayValue(kept, e, d, localDay, localHour);
      }
    }
    SameMap(after, closed);
  }

  /** A bucket on the open day leaves the closed days alone. */
  lemma {:induction false} SameDayDays(kept: seq<(int, DenseHour)>, e: (int, DenseHour),
                                       localDay: int -> int, localHour: int -> int)
    requires kept != [] && localDay(e.0) == localDay(kept[|kept| - 1].0)
    ensures DaysOf(kept + [e], localDay, localHour) == DaysOf(kept, localDay, localHour)
  {
    var next := kept + [e];
    LastDayIn(kept, localDay);
    DaySetSnoc(kept, e, localDay);
    assert next[|next| - 1] == e;
    forall d | d in DaySet(kept, localDay) && d != localDay(e.0)
      ensures On(next, d, localDay) == On(kept, d, localDay)
    {
      OnSnocOther(kept, e, d, localDay);
    }
  }

  /** The first bucket kept opens the first day; no day is closed yet. */
  lemma FirstTurn(e: (int, DenseHour), localDay: int -> int, localHour: int -> int)
    ensures LoopState([e], localDay, localHour, map[], Some(localDay(e.0)),
                      Some(e.1.temperature), Some(e.1.temperature), Some(e.1.dewPoint),
                      map[localHour(e.0) := e.1.precipProb], Some(e.1.temperature))
  {
    DaysOfKeys([e], localDay, localHour);
    assert DaySet([e], localDay) == {localDay(e.0)};
    assert On([e], localDay(e.0), localDay) == [e];
  }

  /** One turn of the loop that opens a new day after another one. */
  lemma {:induction false} NewDayTurn(kept: seq<(int, DenseHour)>, e: (int, DenseHour),
                                      localDay: int -> int, localHour: int -> int,
                                      days: map<int, WeatherDay>, currentDate: Option<int>,
                                      minT: Option<real>, maxT: Option<real>, maxDew: Option<real>,
                                      precip: map<int, real>, first: Option<real>)
    requires kept != [] && localDay(e.0) !in DaySet(kept, localDay)
    requires LoopState(kept, localDay, localHour, days, currentDate, minT, maxT, maxDew, precip, first)
    ensures currentDate.Some? && minT.Some? && maxT.Some? && maxDew.Some?
    ensures LoopState(kept + [e], localDay, localHour,
                      days[currentDate.value := WeatherDay(minT.value, maxT.value, maxDew.value, precip)],
                      Some(localDay(e.0)), Some(e.1.temperature), Some(e.1.temperature), Some(e.1.dewPoint),
                      map[localHour(e.0) := e.1.precipProb], first)
  {
    var next := kept + [e];
    assert next[|next| - 1] == e && next[0] == kept[0];
    NewDayDays(kept, e, localDay, localHour);
    OnAbsent(kept, localDay(e.0), localDay);
    OnSnocSame(kept, e, localDay);
  }

  /** One more bucket updates the running extremes and the precipitation map. */
  lemma SummarySnoc(today: seq<(int, DenseHour)>, e: (int, DenseHour), localHour: int -> int)
    requires today != []
    ensures MinT(today + [e]) == if e.1.temperature < MinT(today) then e.1.temperature else MinT(today)
    ensures MaxT(today + [e]) == if e.1.temperature > MaxT(today) then e.1.temperature else MaxT(today)
    ensures MaxDew(today + [e]) == if e.1.dewPoint > MaxDew(today) then e.1.dewPoint else MaxDew(today)
    ensures PrecipMap(today + [e], localHour) == PrecipMap(today, localHour)[localHour(e.0) := e.1.precipProb]
  {
    assert (today + [e])[..|today|] == today;
  }

  /** One turn of the loop that stays on the open day. */
  lemma {:induction false} SameDayTurn(kept: seq<(int, DenseHour)>, e: (int, DenseHour),
                                       localDay: int -> int, localHour: int -> int,
                                       days: map<int, WeatherDay>, currentDate: Option<int>,
                                       minT: Option<real>, maxT: Option<real>, maxDew: Option<real>,
                                       precip: map<int, real>, first: Option<real>)
    requires LoopState(kept, localDay, localHour, days, currentDate, minT, maxT, maxDew, precip, first)
    requires Some(localDay(e.0)) == currentDate
    ensures minT.Some? && maxT.Some? && maxDew.Some? && first.Some?
    ensures LoopState(kept + [e], localDay, localHour, days, currentDate,
                      if e.1.temperature < minT.value then Some(e.1.temperature) else minT,
                      if e.1.temperature > maxT.value then Some(e.1.temperature) else maxT,
                      if e.1.dewPoint > maxDew.value then Some(e.1.dewPoint) else maxDew,
                      precip[localHour(e.0) := e.1.precipProb], first)
  {
    var next := kept + [e];
    var cur := localDay(e.0);
    assert kept != [];
    assert next[|next| - 1] == e && next[0] == kept[0];
    var today := On(kept, cur, localDay);
    assert On(next, cur, localDay) == today + [e] by { OnSnocSame(kept, e, localDay); }
    assert DaysOf(next, localDay, localHour) == days by { SameDayDays(kept, e, localDay, localHour); }
    SummarySnoc(today, e, localHour);
  }

  lemma KeptStep(hours: seq<(int, DenseHour)>, i: int, minTs: int)
    requires 0 <= i < |hours|
    ensures Kept(hours[..i + 1], minTs) == Kept(hours[..i], minTs) + (if hours[i].0 >= minTs then [hours[i]] else [])
  {
    assert hours[..i + 1][..i] == hours[..i];
  }

  /** The filter keeps order: filtering a concatenation concatenates what each part keeps. */
  lemma {:induction false} KeptAppend(a: seq<(int, DenseHour)>, b: seq<(int, DenseHour)>, minTs: int)
    ensures Kept(a + b, minTs) == Kept(a, minTs) + Kept(b, minTs)
    decreases |b|
  {
    if b != [] {
      var init := b[..|b| - 1];
      KeptAppend(a, init, minTs);
      assert (a + b)[..|a + b| - 1] == a + init;
    } else {
      assert a + b == a;
    }
  }

  lemma {:induction false} KeptAscending(hours: seq<(int, DenseHour)>, minTs: int)
    requires StrictlyAscending(hours)
    ensures StrictlyAscending(Kept(hours, minTs))
    decreases |hours|
  {
    if hours != [] {
      var init := hours[..|hours| - 1];
      KeptAscending(init, minTs);
      var k := Kept(init, minTs);
      forall i | 0 <= i < |k| ensures k[i].0 < hours[|hours| - 1].0 {
        var j :| 0 <= j < |init| && init[j] == k[i];
      }
    }
  }

  /** In the loop, a kept bucket whose day differs from the open one is on a day not seen before. */
  lemma FreshDay(hours: seq<(int, DenseHour)>, i: int, minTs: int, localDay: int -> int)
    requires StrictlyAscending(hours) && MonotoneDays(localDay)
    requires 0 <= i < |hours| && hours[i].0 >= minTs && Kept(hours[..i], minTs) != []
    requires localDay(hours[i].0) != localDay(Kept(hours[..i], minTs)[|Kept(hours[..i], minTs)| - 1].0)
    ensures localDay(hours[i].0) !in DaySet(Kept(hours[..i], minTs), localDay)
  {
    var kept := Kept(hours[..i], minTs);
    KeptStep(hours, i, minTs);
    assert StrictlyAscending(hours[..i + 1]);
    KeptAscending(hours[..i + 1], minTs);
    NewDayAbsent(kept, hours[i], localDay);
  }

  /** The loop state is what the buckets seen so far determine. */
  lemma LoopResult(kept: seq<(int, DenseHour)>, localDay: int -> int, localHour: int -> int,
                   days: map<int, WeatherDay>, currentDate: Option<int>,
                   minT: Option<real>, maxT: Option<real>, maxDew: Option<real>,
                   precip: map<int, real>, first: Option<real>)
    requires LoopState(kept, localDay, localHour, days, currentDate, minT, maxT, maxDew, precip, first)
    ensures Grouping(days, first) == GroupingOf(kept, localDay, localHour)
  {
  }

  /**
    The day-grouping loop of `get_weather_display_ext`, over the dense
    buckets in increasing time order: buckets before `now - 3600` are
    skipped; each change of local day inserts the summary of the day just
    ended; the day of the last bucket is never inserted.
  */
  method GroupDays(now: int, hours: seq<(int, DenseHour)>, localDay: int -> int, localHour: int -> int)
    returns (g: Grouping)
    requires StrictlyAscending(hours) && MonotoneDays(localDay)
    ensures g == GroupingOf(Kept(hours, now - 3600), localDay, localHour)
  {
    var days: map<int, WeatherDay> := map[];
    var currentDate: Option<int> := None;
    var minT: Option<real> := None;
    var maxT: Option<real> := None;
    var maxDew: Option<real> := None;
    var precip: map<int, real> := map[];
    var minTs := now - 3600;
    var first: Option<real> := None;

    for i := 0 to |hours|
      invariant LoopState(Kept(hours[..i], minTs), localDay, localHour, days, currentDate, minT, maxT, maxDew, precip, first)
    {
      var (t, values) := hours[i];
      KeptStep(hours, i, minTs);
      if t < minTs {
        continue;
      }
      ghost var kept := Kept(hours[..i], minTs);
      if Some(localDay(t)) != currentDate {
        if kept == [] {
          FirstTurn(hours[i], localDay, localHour);
        } else {
          FreshDay(hours, i, minTs, localDay);
          NewDayTurn(kept, hours[i], localDay, localHour, days, currentDate, minT, maxT, maxDew, precip, first);
        }
        match currentDate {
          case Some(d) =>
            days := days[d := WeatherDay(minT.value, maxT.value, maxDew.value, precip)];
          case None =>
        }
        currentDate := Some(localDay(t));
        minT, maxT, maxDew := None, None, None;
        precip := map[];
      } else {
        SameDayTurn(kept, hours[i], localDay, localHour, days, currentDate, minT, maxT, maxDew, precip, first);
      }

      first := if first.None? then Some(values.temperature) else first;
      minT := if minT.None? || values.temperature < minT.value then Some(values.temperature) else minT;
      maxT := if maxT.None? || values.temperature > maxT.value then Some(values.temperature) else maxT;
      maxDew := if maxDew.None? || values.dewPoint > maxDew.value then Some(values.dewPoint) else maxDew;
      precip := precip[localHour(t) := values.precipProb];
    }
    assert hours[..|hours|] == hours;
    LoopResult(Kept(hours, minTs), localDay, localHour, days, currentDate, minT, maxT, maxDew, precip, first);
    g := Grouping(days, first);
  }

  /** The last local day reached is never in `days`. */
  lemma LastDayNeverInserted(kept: seq<(int, DenseHour)>, localDay: int -> int, localHour: int -> int)
    requires kept != []
    ensures localDay(kept[|kept| - 1].0) !in GroupingOf(kept, localDay, localHour).days
    ensures forall d :: d in GroupingOf(kept, localDay, localHour).days ==>
              GroupingOf(kept, localDay, localHour).days[d].minT <= GroupingOf(kept, localDay, localHour).days[d].maxT
  {
    forall d | d in GroupingOf(kept, localDay, localHour).days
      ensures GroupingOf(kept, localDay, localHour).days[d].minT <= GroupingOf(kept, localDay, localHour).days[d].maxT
    {
      OnNonEmpty(kept, d, localDay);
      DayMinAtMostMax(On(kept, d, localDay), localHour);
    }
  }

  /** `WeatherDisplay`, without the two overall extremes. */
  datatype WeatherDisplay = WeatherDisplay(currentT: real, days: map<int, WeatherDay>)

  /**
    `entries` is the densified forecast of `sparse` in increasing time
    order: every hour that an entry of some series covers, once, each with
    the values `DensifyGridForecast` gives it.
  */
  ghost predicate DenseHours(sparse: GridForecast, entries: seq<(int, DenseHour)>) {
    && StrictlyAscending(entries)
    && (forall t :: t in KeysOf(entries) <==>
          InSeries(sparse.precipProb, t) || InSeries(sparse.temperature, t) || InSeries(sparse.dewPoint, t))
    && (forall i :: 0 <= i < |entries| ==>
          entries[i].1 == DenseHour(LastValue(sparse.precipProb, entries[i].0).GetOr(0.0),
                                    LastValue(sparse.temperature, entries[i].0).GetOr(0.0),
                                    LastValue(sparse.dewPoint, entries[i].0).GetOr(0.0)))
  }

  /** Some entry of some series of `sparse` covers an hour: the densified forecast is not empty. */
  ghost predicate SomeHourCovered(sparse: GridForecast) {
    exists t :: InSeries(sparse.precipProb, t) || InSeries(sparse.temperature, t) || InSeries(sparse.dewPoint, t)
  }

  /**
    `get_weather_display_ext` with the two fetches as parameters: the grid
    (already decoded) and the current temperature (already read from the
    observation page). The current temperature always wins over the first
    forecast temperature, since a failed read has already returned.
  */
  method GetWeatherDisplayExt(now: int, grid: Result<RawGrid>, currentTemp: Result<real>,
                              rfc3339: string -> TimeParse, localDay: int -> int, localHour: int -> int)
    returns (r: Result<WeatherDisplay>)
    requires MonotoneDays(localDay)
    ensures grid.Err? ==> r == Err(grid.error)
    ensures grid.Ok? && GridForecastOf(grid, rfc3339).Err? ==> r == Err(GridForecastOf(grid, rfc3339).error)
    ensures GridForecastOf(grid, rfc3339).Ok? && currentTemp.Err? ==> r == Err(currentTemp.error)
    ensures GridForecastOf(grid, rfc3339).Ok? && currentTemp.Ok? ==>
              (r.Ok? <==> SomeHourCovered(GridForecastOf(grid, rfc3339).value))
    ensures r.Ok? ==> GridForecastOf(grid, rfc3339).Ok? && currentTemp.Ok? && r.value.currentT == currentTemp.value
    ensures r.Err? && GridForecastOf(grid, rfc3339).Ok? && currentTemp.Ok? ==>
              r.error == SimpleError("No overall_min_t data")
    ensures r.Ok? ==> exists entries :: DenseHours(GridForecastOf(grid, rfc3339).value, entries) && entries != []
                        && r.value.days == GroupingOf(Kept(entries, now - 3600), localDay, localHour).days
  {
    var forecast :- GridForecastOf(grid, rfc3339);
    var densified := DensifyGridForecast(forecast);
    var dense := densified.value;
    var current :- currentTemp;
    var entries := Ascending(dense);
    var grouping := GroupDays(now, entries, localDay, localHour);
    if |dense| == 0 {
      forall t ensures !(InSeries(forecast.precipProb, t) || InSeries(forecast.temperature, t) || InSeries(forecast.dewPoint, t)) {
        assert t !in dense;
      }
      return Err(MakeError("No overall_min_t data"));
    }
    assert DenseHours(forecast, entries) by {
      forall i | 0 <= i < |entries|
        ensures entries[i].0 in KeysOf(entries) && entries[i].1 == dense[entries[i].0]
      {
      }
    }
    assert entries[0].0 in KeysOf(entries);
    return Ok(WeatherDisplay(current, grouping.days));
  }
}
