/**
  The B63 bus arrivals at 5th Av / Garfield Pl (src/bustime.rs): each
  direction's stop-monitoring response, already decoded from JSON, becomes
  one arrival instant per monitored stop visit.

  Instants are integers (whole seconds since the epoch); the RFC 3339 parser
  is a parameter that returns `None` on text it rejects. A panic (`assert_eq!`,
  `unwrap`, `expect`) is an `Outcome.Panicked`.
*/
module BusTime {
  import opened Errors

  /** `MTAMonitoredCall`: the four optional times of one call at the stop. */
  datatype MonitoredCall = MonitoredCall(aimedArrival: Option<string>, expectedArrival: Option<string>,
                                         aimedDeparture: Option<string>, expectedDeparture: Option<string>)

  /** `MTAMonitoredStopVisit` with its `MTAMonitoredVehicleJourney`. */
  datatype StopVisit = StopVisit(lineRef: string, vehicleRef: string, call: MonitoredCall)

  /** `MTAStopMonitoringDelivery`. */
  datatype Delivery = Delivery(visits: seq<StopVisit>)

  /** `GarfieldBusArrivals`. */
  datatype GarfieldBusArrivals = GarfieldBusArrivals(uptown: seq<int>, downtown: seq<int>)

  const UPTOWN_STOP := "308208"
  const DOWNTOWN_STOP := "308215"

  // The panic messages below are the fixed first part of what Rust prints:
  // `assert_eq!` goes on with both values and `expect` with the parse error.
  const ONE_DELIVERY_PANIC := "assertion `left == right` failed"
  const PARSE_PANIC := "parsing date"
  const UNWRAP_PANIC := "called `Option::unwrap()` on a `None` value"

  /** The stop-monitoring URL of one stop on the B63. */
  function StopUrl(apiKey: string, stop: string): (u: string)
    ensures |u| == |STOP_MONITORING| + |apiKey| + |MONITORING_REF| + |stop| + |B63_LINE|
    ensures u[..|STOP_MONITORING|] == STOP_MONITORING && u[|u| - |B63_LINE|..] == B63_LINE
  {
    STOP_MONITORING + apiKey + MONITORING_REF + stop + B63_LINE
  }

  const STOP_MONITORING := "https://bustime.mta.info/api/siri/stop-monitoring.json?key="
  const MONITORING_REF := "&OperatorRef=MTA&MonitoringRef="
  const B63_LINE := "&LineRef=MTA%20NYCT_B63"

  /** For one key, the URL tells the stop: different stops give different URLs. */
  lemma StopUrlInjective(apiKey: string, a: string, b: string)
    requires StopUrl(apiKey, a) == StopUrl(apiKey, b)
    ensures a == b
  {
    var i := |STOP_MONITORING| + |apiKey| + |MONITORING_REF|;
    assert a == StopUrl(apiKey, a)[i..i + |a|];
    assert b == StopUrl(apiKey, b)[i..i + |b|];
  }

  /** The two directions are asked about different stops, whatever the key. */
  lemma StopUrlsDiffer(apiKey: string)
    ensures StopUrl(apiKey, UPTOWN_STOP) != StopUrl(apiKey, DOWNTOWN_STOP)
  {
    if StopUrl(apiKey, UPTOWN_STOP) == StopUrl(apiKey, DOWNTOWN_STOP) {
      StopUrlInjective(apiKey, UPTOWN_STOP, DOWNTOWN_STOP);
    }
  }

  /** The instant of one visit: the expected arrival when there is one, else the aimed one. */
  function VisitTime(v: StopVisit, rfc3339: string -> Option<int>): (r: Outcome<int>)
    ensures v.call.expectedArrival.Some? ==>
              r == (if rfc3339(v.call.expectedArrival.value).Some? then Returned(rfc3339(v.call.expectedArrival.value).value)
                    else Panicked(PARSE_PANIC))
    ensures v.call.expectedArrival.None? && v.call.aimedArrival.None? ==> r == Panicked(UNWRAP_PANIC)
    ensures v.call.expectedArrival.None? && v.call.aimedArrival.Some? ==>
              r == (if rfc3339(v.call.aimedArrival.value).Some? then Returned(rfc3339(v.call.aimedArrival.value).value)
                    else Panicked(PARSE_PANIC))
  {
    var call := v.call;
    if call.expectedArrival.Some? then
      match rfc3339(call.expectedArrival.value)
      case Some(t) => Returned(t)
      case None => Panicked(PARSE_PANIC)
    else if call.aimedArrival.None? then Panicked(UNWRAP_PANIC)
    else
      match rfc3339(call.aimedArrival.value)
      case Some(t) => Returned(t)
      case None => Panicked(PARSE_PANIC)
  }

  /** Every visit yields an instant. */
  predicate AllTimed(visits: seq<StopVisit>, rfc3339: string -> Option<int>) {
    forall i :: 0 <= i < |visits| ==> VisitTime(visits[i], rfc3339).Returned?
  }

  /** `ts` holds the instant of each visit, in order. */
  predicate TimesOf(visits: seq<StopVisit>, rfc3339: string -> Option<int>, ts: seq<int>) {
    && |ts| == |visits|
    && forall i :: 0 <= i < |visits| ==> VisitTime(visits[i], rfc3339) == Returned(ts[i])
  }

  /** Visit `k` is the first one that panics, and it panics with `m`. */
  predicate PanicsFirstAt(visits: seq<StopVisit>, rfc3339: string -> Option<int>, k: int, m: string) {
    && 0 <= k < |visits|
    && VisitTime(visits[k], rfc3339) == Panicked(m)
    && forall j :: 0 <= j < k ==> VisitTime(visits[j], rfc3339).Returned?
  }

  lemma TimesCons(visits: seq<StopVisit>, rfc3339: string -> Option<int>, t: int, ts: seq<int>)
    requires visits != [] && VisitTime(visits[0], rfc3339) == Returned(t)
    requires TimesOf(visits[1..], rfc3339, ts)
    ensures TimesOf(visits, rfc3339, [t] + ts)
  {
    forall i | 1 <= i < |visits| ensures VisitTime(visits[i], rfc3339) == Returned(([t] + ts)[i]) {
      assert visits[i] == visits[1..][i - 1];
    }
  }

  lemma PanicsLater(visits: seq<StopVisit>, rfc3339: string -> Option<int>, k: int, m: string)
    requires visits != [] && VisitTime(visits[0], rfc3339).Returned?
    requires PanicsFirstAt(visits[1..], rfc3339, k, m)
    ensures PanicsFirstAt(visits, rfc3339, k + 1, m)
  {
    assert visits[k + 1] == visits[1..][k];
    forall j | 1 <= j < k + 1 ensures VisitTime(visits[j], rfc3339).Returned? {
      assert visits[j] == visits[1..][j - 1];
    }
  }

  /** `map(...).collect()` over the visits: one instant per visit, in order; the first visit that panics ends it. */
  function VisitTimes(visits: seq<StopVisit>, rfc3339: string -> Option<int>): (r: Outcome<seq<int>>)
    ensures r.Returned? <==> AllTimed(visits, rfc3339)
    ensures r.Returned? ==> TimesOf(visits, rfc3339, r.value)
    ensures r.Panicked? ==> exists k :: PanicsFirstAt(visits, rfc3339, k, r.message)
    decreases |visits|
  {
    if visits == [] then Returned([])
    else
      var head := VisitTime(visits[0], rfc3339);
      if head.Panicked? then
        assert PanicsFirstAt(visits, rfc3339, 0, head.message);
        Panicked(head.message)
      else
        var tail := VisitTimes(visits[1..], rfc3339);
        if tail.Panicked? then
          var k :| PanicsFirstAt(visits[1..], rfc3339, k, tail.message);
          PanicsLater(visits, rfc3339, k, tail.message);
          Panicked(tail.message)
        else
          TimesCons(visits, rfc3339, head.value, tail.value);
          Returned([head.value] + tail.value)
  }

  /**
    `parse_response` after the JSON decoding: exactly one delivery is
    required (else the assertion panics), and its visits give the instants.
  */
  function ParseResponse(decoded: Result<seq<Delivery>>, rfc3339: string -> Option<int>): (r: Outcome<Result<seq<int>>>)
    ensures decoded.Err? ==> r == Returned(Err(decoded.error))
    ensures decoded.Ok? && |decoded.value| != 1 ==> r == Panicked(ONE_DELIVERY_PANIC)
    ensures r.Returned? && r.value.Ok? ==>
              decoded.Ok? && |decoded.value| == 1 && TimesOf(decoded.value[0].visits, rfc3339, r.value.value)
    ensures decoded.Ok? && |decoded.value| == 1 ==>
              (r.Returned? <==> AllTimed(decoded.value[0].visits, rfc3339))
  {
    match decoded
    case Err(e) => Returned(Err(e))
    case Ok(deliveries) =>
      if |deliveries| != 1 then Panicked(ONE_DELIVERY_PANIC)
      else
        match VisitTimes(deliveries[0].visits, rfc3339)
        case Panicked(m) => Panicked(m)
        case Returned(ts) => Returned(Ok(ts))
  }

  /** `fetch_and_parse`: the body of the URL, decoded and parsed; fetch errors reach the caller. */
  function FetchAndParse(url: string, fetch: string -> Result<string>, decode: string -> Result<seq<Delivery>>,
                         rfc3339: string -> Option<int>): (r: Outcome<Result<seq<int>>>)
    ensures fetch(url).Err? ==> r == Returned(Err(fetch(url).error))
    ensures r.Returned? && r.value.Ok? ==>
              && fetch(url).Ok? && decode(fetch(url).value).Ok? && |decode(fetch(url).value).value| == 1
              && TimesOf(decode(fetch(url).value).value[0].visits, rfc3339, r.value.value)
  {
    match fetch(url)
    case Err(e) => Returned(Err(e))
    case Ok(body) => ParseResponse(decode(body), rfc3339)
  }

  /**
    `get_garfield_bus_arrivals`: the uptown stop first, then the downtown
    one; an error from either is the result.
  */
  function GetGarfieldBusArrivals(apiKey: string, fetch: string -> Result<string>,
                                  decode: string -> Result<seq<Delivery>>, rfc3339: string -> Option<int>)
    : (r: Outcome<Result<GarfieldBusArrivals>>)
    ensures var up := FetchAndParse(StopUrl(apiKey, UPTOWN_STOP), fetch, decode, rfc3339);
            var down := FetchAndParse(StopUrl(apiKey, DOWNTOWN_STOP), fetch, decode, rfc3339);
            && (up.Returned? && up.value.Err? ==> r == Returned(Err(up.value.error)))
            && (up.Returned? && up.value.Ok? && down.Returned? && down.value.Err? ==> r == Returned(Err(down.value.error)))
            && (r.Returned? && r.value.Ok? <==>
                  up.Returned? && up.value.Ok? && down.Returned? && down.value.Ok?)
            && (r.Returned? && r.value.Ok? ==>
                  r.value.value == GarfieldBusArrivals(up.value.value, down.value.value))
  {
    match FetchAndParse(StopUrl(apiKey, UPTOWN_STOP), fetch, decode, rfc3339)
    case Panicked(m) => Panicked(m)
    case Returned(Err(e)) => Returned(Err(e))
    case Returned(Ok(uptown)) =>
      match FetchAndParse(StopUrl(apiKey, DOWNTOWN_STOP), fetch, decode, rfc3339)
      case Panicked(m) => Panicked(m)
      case Returned(Err(e)) => Returned(Err(e))
      case Returned(Ok(downtown)) => Returned(Ok(GarfieldBusArrivals(uptown, downtown)))
  }

  /**
    The shape of the recorded response: visits whose call has an expected
    arrival use it, and visits with only an aimed arrival fall back to it.
  */
  lemma {:induction false} ExpectedThenAimed(expected: seq<string>, aimed: seq<string>, rfc3339: string -> Option<int>,
                                            ts: seq<int>)
    requires |expected| == |ts| && forall i :: 0 <= i < |expected| ==> rfc3339(expected[i]) == Some(ts[i])
    requires forall i :: 0 <= i < |aimed| ==> rfc3339(aimed[i]).Some?
    ensures var visits := seq(|expected|, i requires 0 <= i < |expected| =>
                                StopVisit("MTA NYCT_B63", "", MonitoredCall(Some(expected[i]), Some(expected[i]), None, None)))
                        + seq(|aimed|, i requires 0 <= i < |aimed| =>
                                StopVisit("MTA NYCT_B63", "", MonitoredCall(Some(aimed[i]), None, None, None)));
            VisitTimes(visits, rfc3339)
              == Returned(ts + seq(|aimed|, i requires 0 <= i < |aimed| => rfc3339(aimed[i]).value))
  {
    var visits := seq(|expected|, i requires 0 <= i < |expected| =>
                        StopVisit("MTA NYCT_B63", "", MonitoredCall(Some(expected[i]), Some(expected[i]), None, None)))
                + seq(|aimed|, i requires 0 <= i < |aimed| =>
                        StopVisit("MTA NYCT_B63", "", MonitoredCall(Some(aimed[i]), None, None, None)));
    var want := ts + seq(|aimed|, i requires 0 <= i < |aimed| => rfc3339(aimed[i]).value);
    forall i | 0 <= i < |visits| ensures VisitTime(visits[i], rfc3339) == Returned(want[i]) {
      if i >= |expected| {
        assert visits[i].call == MonitoredCall(Some(aimed[i - |expected|]), None, None, None);
      }
    }
    var r := VisitTimes(visits, rfc3339);
    assert r.Returned?;
    assert r.value == want;
  }
}
