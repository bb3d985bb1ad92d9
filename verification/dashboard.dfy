/**
  The main loop of src/main.rs: the `TTDash` state that each iteration
  refreshes (weather, air quality, bus arrivals), the decision to redraw
  the panel, and the snapshot of the data last drawn.

  Clocks, the network, the upgrade and the panel are outside the model:
  an iteration is given what each of them answered (a `World`), and the
  switches it was started with (a `Config`). Timestamps are whole seconds.
*/
module Dashboard {
  import opened Errors
  import opened Text
  import Update
  import Subway
  import Weather
  import PurpleAir
  import BusTime

  /** A held forecast is refetched once it is more than half an hour old. */
  const WEATHER_MAX_AGE := 60 * 30
  /** A held air-quality reading is refetched once it is more than a minute old. */
  const AIR_QUALITY_MAX_AGE := 60
  /** Without a new countdown the panel is redrawn once the last drawing is more than half an hour old. */
  const REDRAW_MAX_AGE := 60 * 30

  /** The panic of `std::env::args().nth(0).expect("argv0")`. */
  const ARGV0_PANIC := "argv0"
  /** The panic of `assert!(update::updater_configured())`. */
  const UPDATER_PANIC := "assertion failed: update::updater_configured()"

  /** `bustime::BusTimeDisplayData`: whole minutes until each bus, and when they were computed. */
  datatype BusTimeDisplayData = BusTimeDisplayData(uptownWaits: seq<int>, downtownWaits: seq<int>, timestamp: int)

  /** The command-line switches that reach `one_iteration`; a credential only matters by being present. */
  datatype Config = Config(display: bool, pngOut: bool, autoUpdate: bool, purpleair: bool, bustime: bool)

  /**
    What the outside world answers during one iteration: the build-time
    version and the remote descriptor (`binary_update_available`), the
    process arguments and how `upgrade_to` ends, the subway data
    (`fetch_and_process_data`), the clock read after it, the weather and
    air-quality fetches, the bus arrivals with the two clock reads around
    them, and how drawing, saving the PNG and showing the image end.
  */
  datatype World = World(
    built: Option<string>,
    remote: Result<Update.UpgradeTarget>,
    argv: seq<string>,
    upgrade: Update.InstallOutcome,
    subway: Result<Subway.ProcessedData>,
    now: int,
    weather: Result<Weather.WeatherDisplay>,
    air: Result<PurpleAir.AirQuality>,
    bus: Outcome<Result<BusTime.GarfieldBusArrivals>>,
    busNow: int,
    busStamp: int,
    image: Result<()>,
    saved: Result<()>,
    shown: Result<()>)

  /**
    How an iteration ends: it returns to the loop, the process panics, or
    the upgrade replaces the process image.
  */
  datatype IterationEnd =
    | Finished(result: Result<Option<Subway.ProcessedData>>)
    | Aborted(message: string)
    | Replaced(program: string, args: seq<string>)

  /**
    The upgrade step: attempted only with `--auto-update` and when a newer
    version is published. A failed upgrade is only logged and the iteration
    goes on; a panic or a successful exec ends it.
  */
  function UpgradeEnd(cfg: Config, w: World): (r: Option<IterationEnd>)
    ensures r.Some? <==>
              cfg.autoUpdate && Update.BinaryUpdateAvailable(w.built, w.remote).Some?
              && (w.argv == [] || !w.upgrade.Failed?)
    ensures r.Some? && w.argv == [] ==> r.value == Aborted(ARGV0_PANIC)
    ensures r.Some? && w.argv != [] && w.upgrade.Aborted? ==> r.value == Aborted(w.upgrade.message)
    ensures r.Some? && w.argv != [] && w.upgrade.Execed? ==> r.value == Replaced(w.upgrade.program, w.upgrade.args)
  {
    if !cfg.autoUpdate then None
    else match Update.BinaryUpdateAvailable(w.built, w.remote)
      case None => None
      case Some(_) =>
        if w.argv == [] then Some(Aborted(ARGV0_PANIC))
        else match w.upgrade
          case Failed(_) => None
          case Aborted(m) => Some(Aborted(m))
          case Execed(program, args) => Some(Replaced(program, args))
  }

  /** Weather is fetched when none is held or the held forecast is more than half an hour old. */
  predicate WeatherDue(held: Option<Weather.WeatherDisplay>, fetchedAt: int, now: int) {
    held.None? || now - fetchedAt > WEATHER_MAX_AGE
  }

  /** Air quality is fetched when none is held or the held reading is more than a minute old. */
  predicate AirQualityDue(held: Option<PurpleAir.AirQuality>, fetchedAt: int, now: int) {
    held.None? || now - fetchedAt > AIR_QUALITY_MAX_AGE
  }

  /**
    `ts_to_wait_minutes`: the whole minutes of `ts - now`, truncated toward
    zero as `Duration::whole_minutes` does, so a bus that left less than a
    minute ago still shows 0.
  */
  function WaitMinutes(ts: int, now: int): (m: int)
    ensures ts >= now ==> m >= 0 && m * 60 <= ts - now < (m + 1) * 60
    ensures ts < now ==> m <= 0 && (m - 1) * 60 < ts - now <= m * 60
  {
    TruncDiv(ts - now, 60)
  }

  /** Less than a minute either side of `now` is 0 minutes, unlike a floored division. */
  lemma WithinAMinuteIsZero(now: int, d: int)
    requires 0 <= d < 60
    ensures WaitMinutes(now + d, now) == 0 && WaitMinutes(now - d, now) == 0
    ensures d > 0 ==> (now - d - now) / 60 == -1
  {
  }

  /** The waits of a list of arrivals, in the same order. */
  function Waits(timestamps: seq<int>, now: int): (w: seq<int>)
    ensures |w| == |timestamps|
    ensures forall i :: 0 <= i < |w| && timestamps[i] >= now ==> w[i] * 60 <= timestamps[i] - now < (w[i] + 1) * 60
    ensures forall i :: 0 <= i < |w| && timestamps[i] < now ==> (w[i] - 1) * 60 < timestamps[i] - now <= w[i] * 60
  {
    seq(|timestamps|, i requires 0 <= i < |timestamps| => WaitMinutes(timestamps[i], now))
  }

  /** The bus data built from a successful fetch: one wait per arrival, in the same order. */
  function BusDisplay(arrivals: BusTime.GarfieldBusArrivals, now: int, stamp: int): (d: BusTimeDisplayData)
    ensures |d.uptownWaits| == |arrivals.uptown| && |d.downtownWaits| == |arrivals.downtown|
    ensures forall i :: 0 <= i < |d.uptownWaits| ==> d.uptownWaits[i] == WaitMinutes(arrivals.uptown[i], now)
    ensures forall i :: 0 <= i < |d.downtownWaits| ==> d.downtownWaits[i] == WaitMinutes(arrivals.downtown[i], now)
    ensures d.timestamp == stamp
  {
    BusTimeDisplayData(Waits(arrivals.uptown, now), Waits(arrivals.downtown, now), stamp)
  }

  /**
    The redraw decision of `one_iteration`: a new big countdown from data
    that is not older than the data on the panel; otherwise a panel never
    drawn; otherwise a drawing more than half an hour old.
  */
  function RedrawNeeded(prev: Subway.ProcessedData, cur: Subway.ProcessedData, lastRedraw: Option<int>, now: int): (r: bool)
    ensures r <==> (prev.bigCountdown != cur.bigCountdown && cur.dataTimestamp >= prev.dataTimestamp)
                   || lastRedraw.None?
                   || now - lastRedraw.value > REDRAW_MAX_AGE
  {
    var dataWentBackInTime := cur.dataTimestamp < prev.dataTimestamp;
    if prev.bigCountdown != cur.bigCountdown && !dataWentBackInTime then true
    else if lastRedraw.None? then true
    else now - lastRedraw.value > REDRAW_MAX_AGE
  }

  /**
    Older data never redraws the panel on its own account, but the half-hour
    redraw does not look at the data's age: data older than what is shown is
    then drawn and becomes the snapshot.
  */
  lemma OlderDataOnlyOnTimeout(prev: Subway.ProcessedData, cur: Subway.ProcessedData, last: int, now: int)
    requires cur.dataTimestamp < prev.dataTimestamp
    ensures RedrawNeeded(prev, cur, Some(last), now) <==> now - last > REDRAW_MAX_AGE
  {
  }

  /**
    The drawing step once a redraw is due: `generate_image`, then the PNG
    when one was asked for, then the panel when it is in use; the first
    error is the iteration's.
  */
  function DrawResult(cfg: Config, w: World): (r: Result<()>)
    ensures r.Ok? <==> w.image.Ok? && (cfg.pngOut ==> w.saved.Ok?) && (cfg.display ==> w.shown.Ok?)
    ensures w.image.Err? ==> r == Err(w.image.error)
  {
    if w.image.Err? then Err(w.image.error)
    else if cfg.pngOut && w.saved.Err? then Err(w.saved.error)
    else if cfg.display && w.shown.Err? then Err(w.shown.error)
    else Ok(())
  }

  /** The fields of `TTDash` that the loop updates; fonts and colours are left out. */
  datatype Held = Held(
    weatherDisplay: Option<Weather.WeatherDisplay>,
    forecastTimestamp: int,
    airQuality: Option<PurpleAir.AirQuality>,
    airQualityTimestamp: int,
    busTimeData: Option<BusTimeDisplayData>,
    lastRedraw: Option<int>)

  /**
    The refresh steps of `one_iteration`: the weather when it is due, the
    air quality when credentials exist and it is due, the bus arrivals when
    credentials exist; a failed fetch keeps what was held.
  */
  function Refreshed(cfg: Config, w: World, h: Held): Held {
    var withWeather :=
      if WeatherDue(h.weatherDisplay, h.forecastTimestamp, w.now) && w.weather.Ok?
      then h.(weatherDisplay := Some(w.weather.value), forecastTimestamp := w.now)
      else h;
    var withAir :=
      if cfg.purpleair && AirQualityDue(h.airQuality, h.airQualityTimestamp, w.now) && w.air.Ok?
      then withWeather.(airQuality := Some(w.air.value), airQualityTimestamp := w.now)
      else withWeather;
    if cfg.bustime && w.bus.Returned? && w.bus.value.Ok?
    then withAir.(busTimeData := Some(BusDisplay(w.bus.value.value, w.busNow, w.busStamp)))
    else withAir
  }

  /**
    One iteration of the loop, as a function of what the world answers:
    the fields held afterwards and how the iteration ends.
  */
  function Iteration(cfg: Config, w: World, prev: Subway.ProcessedData, h: Held): (Held, IterationEnd) {
    match UpgradeEnd(cfg, w)
    case Some(end) => (h, end)
    case None => AfterUpgrade(cfg, w, prev, h)
  }

  /** The rest of an iteration once the upgrade step has let it go on. */
  function AfterUpgrade(cfg: Config, w: World, prev: Subway.ProcessedData, h: Held): (Held, IterationEnd) {
    if w.subway.Err? then (h, Finished(Err(w.subway.error)))
    else
      var refreshed := Refreshed(cfg, w, h);
      if cfg.bustime && w.bus.Panicked? then (refreshed, Aborted(w.bus.message))
      else if !RedrawNeeded(prev, w.subway.value, h.lastRedraw, w.now) then (refreshed, Finished(Ok(None)))
      else match DrawResult(cfg, w)
        case Err(e) => (refreshed, Finished(Err(e)))
        case Ok(_) => (refreshed.(lastRedraw := Some(w.now)), Finished(Ok(Some(w.subway.value))))
  }

  /** Whether an iteration redrew the panel. */
  predicate Drew(end: IterationEnd) {
    end.Finished? && end.result.Ok? && end.result.value.Some?
  }

  /**
    The new data is returned, and the redraw time set to `now`, exactly
    when the panel is redrawn; otherwise the redraw time is kept.
  */
  lemma RedrawIsReported(cfg: Config, w: World, prev: Subway.ProcessedData, h: Held)
    ensures var (after, end) := Iteration(cfg, w, prev, h);
            && (Drew(end) <==> UpgradeEnd(cfg, w).None? && w.subway.Ok? && !(cfg.bustime && w.bus.Panicked?)
                               && RedrawNeeded(prev, w.subway.value, h.lastRedraw, w.now) && DrawResult(cfg, w).Ok?)
            && (Drew(end) ==> after.lastRedraw == Some(w.now) && end.result.value.value == w.subway.value)
            && (!Drew(end) ==> after.lastRedraw == h.lastRedraw)
  {
  }

  /**
    Weather is refetched exactly when none is held or the held forecast is
    more than half an hour old; a failed fetch leaves both fields as they were.
  */
  lemma WeatherRefreshRule(cfg: Config, w: World, prev: Subway.ProcessedData, h: Held)
    requires UpgradeEnd(cfg, w).None? && w.subway.Ok?
    ensures var after := Iteration(cfg, w, prev, h).0;
            if WeatherDue(h.weatherDisplay, h.forecastTimestamp, w.now) && w.weather.Ok?
            then after.weatherDisplay == Some(w.weather.value) && after.forecastTimestamp == w.now
            else after.weatherDisplay == h.weatherDisplay && after.forecastTimestamp == h.forecastTimestamp
  {
  }

  /**
    Air quality is refetched only with credentials, and then exactly when
    none is held or the held reading is more than a minute old; a failed
    fetch leaves both fields as they were.
  */
  lemma AirQualityRefreshRule(cfg: Config, w: World, prev: Subway.ProcessedData, h: Held)
    requires UpgradeEnd(cfg, w).None? && w.subway.Ok?
    ensures var after := Iteration(cfg, w, prev, h).0;
            if cfg.purpleair && AirQualityDue(h.airQuality, h.airQualityTimestamp, w.now) && w.air.Ok?
            then after.airQuality == Some(w.air.value) && after.airQualityTimestamp == w.now
            else after.airQuality == h.airQuality && after.airQualityTimestamp == h.airQualityTimestamp
  {
  }

  /**
    Bus arrivals are refetched on every iteration with credentials; a
    fetch that fails leaves the held data as it was, and one that succeeds
    replaces it. A panic while parsing ends the iteration.
  */
  lemma BusRefreshRule(cfg: Config, w: World, prev: Subway.ProcessedData, h: Held)
    requires UpgradeEnd(cfg, w).None? && w.subway.Ok?
    ensures var (after, end) := Iteration(cfg, w, prev, h);
            && (if cfg.bustime && w.bus.Returned? && w.bus.value.Ok?
                then after.busTimeData == Some(BusDisplay(w.bus.value.value, w.busNow, w.busStamp))
                else after.busTimeData == h.busTimeData)
            && (end.Aborted? <==> cfg.bustime && w.bus.Panicked?)
  {
  }

  /** Without subway data the iteration fails with the fetch's error and nothing held changes. */
  lemma SubwayErrorChangesNothing(cfg: Config, w: World, prev: Subway.ProcessedData, h: Held)
    requires UpgradeEnd(cfg, w).None? && w.subway.Err?
    ensures Iteration(cfg, w, prev, h) == (h, Finished(Err(w.subway.error)))
  {
  }

  /** The process is replaced only with `--auto-update`, a newer version published and an exec that succeeded. */
  lemma UpgradeOnlyWhenAvailable(cfg: Config, w: World, prev: Subway.ProcessedData, h: Held)
    ensures Iteration(cfg, w, prev, h).1.Replaced? ==>
              cfg.autoUpdate && Update.BinaryUpdateAvailable(w.built, w.remote).Some? && w.upgrade.Execed?
  {
    if UpgradeEnd(cfg, w).None? {
      assert !Iteration(cfg, w, prev, h).1.Replaced?;
    }
  }

  /**
    A failed upgrade is only logged: the iteration goes on as it does
    without `--auto-update`, whose upgrade step never stops it.
  */
  lemma UpgradeFailureIsLogged(cfg: Config, w: World, prev: Subway.ProcessedData, h: Held)
    requires w.argv != [] && w.upgrade.Failed?
    ensures Iteration(cfg, w, prev, h) == AfterUpgrade(cfg, w, prev, h)
    ensures Iteration(cfg.(autoUpdate := false), w, prev, h) == AfterUpgrade(cfg.(autoUpdate := false), w, prev, h)
  {
  }

  /** The `TTDash` state. */
  class TTDash {
    var weatherDisplay: Option<Weather.WeatherDisplay>
    var forecastTimestamp: int
    var airQuality: Option<PurpleAir.AirQuality>
    var airQualityTimestamp: int
    var busTimeData: Option<BusTimeDisplayData>
    var lastRedraw: Option<int>

    /** The fields, as a value. */
    function State(): Held
      reads this
    {
      Held(weatherDisplay, forecastTimestamp, airQuality, airQualityTimestamp, busTimeData, lastRedraw)
    }

    /** `TTDash::new`: nothing held, both fetch times set to the start time. */
    constructor (now: int)
      ensures State() == Held(None, now, None, now, None, None)
    {
      weatherDisplay := None;
      forecastTimestamp := now;
      airQuality := None;
      airQualityTimestamp := now;
      busTimeData := None;
      lastRedraw := None;
    }

    /** `update_weather`: keep the fetched forecast and the time; a failed fetch changes nothing. */
    method UpdateWeather(fetched: Result<Weather.WeatherDisplay>, now: int) returns (r: Result<()>)
      modifies this
      ensures fetched.Ok? ==> r == Ok(()) && State() == old(State()).(weatherDisplay := Some(fetched.value), forecastTimestamp := now)
      ensures fetched.Err? ==> r == Err(fetched.error) && State() == old(State())
    {
      var display :- fetched;
      weatherDisplay := Some(display);
      forecastTimestamp := now;
      return Ok(());
    }

    /** `update_air_quality`: keep the fetched reading and the time; a failed fetch changes nothing. */
    method UpdateAirQuality(fetched: Result<PurpleAir.AirQuality>, now: int) returns (r: Result<()>)
      modifies this
      ensures fetched.Ok? ==> r == Ok(()) && State() == old(State()).(airQuality := Some(fetched.value), airQualityTimestamp := now)
      ensures fetched.Err? ==> r == Err(fetched.error) && State() == old(State())
    {
      var reading :- fetched;
      airQuality := Some(reading);
      airQualityTimestamp := now;
      return Ok(());
    }

    /**
      The refresh steps of `one_iteration`, before the redraw decision.
      Returns the message of a panic raised while fetching the bus arrivals.
    */
    method RefreshHeld(cfg: Config, w: World) returns (busPanic: Option<string>)
      modifies this
      ensures busPanic == (if cfg.bustime && w.bus.Panicked? then Some(w.bus.message) else None)
      ensures State() == Refreshed(cfg, w, old(State()))
    {
      var now := w.now;
      if weatherDisplay.None? || now - forecastTimestamp > WEATHER_MAX_AGE {
        var _ := UpdateWeather(w.weather, now);
      }

      if cfg.purpleair {
        if airQuality.None? || now - airQualityTimestamp > AIR_QUALITY_MAX_AGE {
          var _ := UpdateAirQuality(w.air, now);
        }
      }

      if cfg.bustime {
        match w.bus {
          case Panicked(m) => return Some(m);
          case Returned(Ok(arrivals)) =>
            busTimeData := Some(BusTimeDisplayData(Waits(arrivals.uptown, w.busNow),
                                                   Waits(arrivals.downtown, w.busNow), w.busStamp));
          case Returned(Err(_)) =>
        }
      }

      return None;
    }

    /**
      `one_iteration`. Logged errors (upgrade, weather, air quality, bus)
      do not end it; the subway fetch and the drawing steps do, through `?`.
    */
    method OneIteration(cfg: Config, w: World, prev: Subway.ProcessedData) returns (end: IterationEnd)
      modifies this
      ensures (State(), end) == Iteration(cfg, w, prev, old(State()))
    {
      var upgradeEnd := UpgradeEnd(cfg, w);
      if upgradeEnd.Some? {
        return upgradeEnd.value;
      }

      if w.subway.Err? {
        return Finished(Err(w.subway.error));
      }
      var processed := w.subway.value;

      var now := w.now;
      var busPanic := RefreshHeld(cfg, w);
      if busPanic.Some? {
        return Aborted(busPanic.value);
      }

      if RedrawNeeded(prev, processed, lastRedraw, now) {
        var drawn := DrawResult(cfg, w);
        if drawn.Err? {
          return Finished(Err(drawn.error));
        }
        lastRedraw := Some(now);
        return Finished(Ok(Some(processed)));
      } else {
        return Finished(Ok(None));
      }
    }
  }

  /** The snapshot the loop keeps after one iteration: replaced only by data that was drawn. */
  function NextSnapshot(prev: Subway.ProcessedData, end: IterationEnd): Subway.ProcessedData {
    if end.Finished? && end.result.Ok? && end.result.value.Some? then end.result.value.value else prev
  }

  /** The snapshot after a run of iterations, starting from `ProcessedData::empty`. */
  function Shown(ends: seq<IterationEnd>): Subway.ProcessedData {
    if ends == [] then Subway.Empty() else NextSnapshot(Shown(ends[..|ends| - 1]), ends[|ends| - 1])
  }

  lemma ShownSnoc(ends: seq<IterationEnd>, end: IterationEnd)
    ensures Shown(ends + [end]) == NextSnapshot(Shown(ends), end)
  {
    assert (ends + [end])[..|ends|] == ends;
  }

  /** The snapshot is the data of the last iteration that drew. */
  lemma {:induction false} LastDrawnIsShown(ends: seq<IterationEnd>, k: int)
    requires 0 <= k < |ends| && Drew(ends[k])
    requires forall j :: k < j < |ends| ==> !Drew(ends[j])
    ensures Shown(ends) == ends[k].result.value.value
    decreases |ends|
  {
    var n := |ends|;
    if k < n - 1 {
      var init := ends[..n - 1];
      assert init[k] == ends[k];
      forall j | k < j < |init| ensures !Drew(init[j]) {
        assert init[j] == ends[j];
      }
      LastDrawnIsShown(init, k);
    }
  }

  /** Until something is drawn the snapshot is `ProcessedData::empty`: errors and `None` leave it alone. */
  lemma {:induction false} NothingDrawnIsEmpty(ends: seq<IterationEnd>)
    requires forall j :: 0 <= j < |ends| ==> !Drew(ends[j])
    ensures Shown(ends) == Subway.Empty()
    decreases |ends|
  {
    if ends != [] {
      var init := ends[..|ends| - 1];
      forall j | 0 <= j < |init| ensures !Drew(init[j]) {
        assert init[j] == ends[j];
      }
      NothingDrawnIsEmpty(init);
    }
  }

  /**
    `states` are the fields before each of the iterations that produced
    `ends` and after the last one: iteration j ran on world j, from state j,
    with the snapshot the earlier iterations left.
  */
  predicate RanOn(cfg: Config, worlds: seq<World>, ends: seq<IterationEnd>, states: seq<Held>) {
    && |ends| <= |worlds| && |states| == |ends| + 1
    && forall j :: 0 <= j < |ends| ==>
         (states[j + 1], ends[j]) == Iteration(cfg, worlds[j], Shown(ends[..j]), states[j])
  }

  lemma RanOnSnoc(cfg: Config, worlds: seq<World>, ends: seq<IterationEnd>, states: seq<Held>,
                  end: IterationEnd, after: Held)
    requires RanOn(cfg, worlds, ends, states) && |ends| < |worlds|
    requires (after, end) == Iteration(cfg, worlds[|ends|], Shown(ends), states[|ends|])
    ensures RanOn(cfg, worlds, ends + [end], states + [after])
  {
    var ends', states' := ends + [end], states + [after];
    forall j | 0 <= j < |ends'|
      ensures (states'[j + 1], ends'[j]) == Iteration(cfg, worlds[j], Shown(ends'[..j]), states'[j])
    {
      assert ends'[..j] == ends[..j];
    }
  }

  /**
    The loop of `main`, over the worlds its first iterations meet: the
    snapshot handed to each iteration is the data last drawn; a panic or an
    exec ends the process, and `--one-shot` stops after one iteration. The
    five-second sleep between iterations is not modelled. `states` are the
    fields of `dash` before each iteration and after the last one.
  */
  method MainLoop(dash: TTDash, cfg: Config, oneShot: bool, worlds: seq<World>)
    returns (prev: Subway.ProcessedData, ends: seq<IterationEnd>, ghost states: seq<Held>)
    modifies dash
    ensures prev == Shown(ends)
    ensures |ends| <= |worlds|
    ensures RanOn(cfg, worlds, ends, states)
    ensures states[0] == old(dash.State()) && dash.State() == states[|ends|]
    ensures oneShot ==> |ends| <= 1
    ensures forall j :: 0 <= j < |ends| - 1 ==> ends[j].Finished?
    ensures worlds != [] ==> |ends| > 0
    ensures 0 < |ends| < |worlds| ==> oneShot || !ends[|ends| - 1].Finished?
  {
    prev := Subway.Empty();
    ends := [];
    states := [dash.State()];
    var i := 0;
    while i < |worlds|
      invariant 0 <= i <= |worlds| && |ends| == i
      invariant prev == Shown(ends)
      invariant RanOn(cfg, worlds, ends, states)
      invariant states[0] == old(dash.State()) && dash.State() == states[|ends|]
      invariant forall j :: 0 <= j < |ends| ==> ends[j].Finished?
      invariant oneShot ==> i == 0
    {
      var end := dash.OneIteration(cfg, worlds[i], prev);
      ShownSnoc(ends, end);
      RanOnSnoc(cfg, worlds, ends, states, end, dash.State());
      ends := ends + [end];
      states := states + [dash.State()];
      prev := NextSnapshot(prev, end);
      if !end.Finished? || oneShot {
        return;
      }
      i := i + 1;
    }
  }

  /** `log::Level`. */
  datatype Level = Error | Warn | Info | Debug | Trace

  /** `short_level`: one letter for the four usual levels, the level's own name otherwise. */
  function ShortLevel(level: Level): (s: string)
    ensures |s| == 1 <==> !level.Trace?
    ensures level.Trace? ==> s == "TRACE"
  {
    match level
    case Error => "E"
    case Warn => "W"
    case Info => "I"
    case Debug => "D"
    case _ => "TRACE"
  }

  /** Different levels never print the same tag. */
  lemma ShortLevelInjective(a: Level, b: Level)
    requires ShortLevel(a) == ShortLevel(b)
    ensures a == b
  {
  }

  /** The start-up check of `main`: with `--auto-update` the updater must be configured, or the program panics. */
  function StartupCheck(autoUpdate: bool, built: Option<string>): (r: Outcome<()>)
    ensures r.Panicked? <==> autoUpdate && (built.None? || Update.ParseVersion(built.value).Err?)
    ensures r.Panicked? ==> r.message == UPDATER_PANIC
  {
    if autoUpdate && !Update.UpdaterConfigured(built) then Panicked(UPDATER_PANIC) else Returned(())
  }
}
