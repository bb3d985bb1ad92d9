/**
  The air-quality reading (src/purpleair.rs): one HTTP fetch of the sensor's
  JSON page, decoded into a list of per-channel results, of which the first
  one that carries a PM2.5 value is kept.

  The fetch and the JSON decoding are parameters; the pm2.5 value, an `f32`
  in the source, is a `real`.
*/
module PurpleAir {
  import opened Errors

  /** `PurpleAirResult`: one channel of the sensor; `p_2_5_um` may be absent. */
  datatype PurpleAirResult = PurpleAirResult(id: int, sensorLabel: string, rawPm25: Option<real>)

  /** `AirQuality`. */
  datatype AirQuality = AirQuality(rawPm25: real)

  const NO_VALID_RESULT := "Result didn't have one valid result"
  const PM25_MISSING := "pm2.5 missing"

  /** The URL of the sensor's JSON page. */
  function SensorUrl(id: string, key: string): string {
    "https://www.purpleair.com/json?show=" + id + "&key=" + key
  }

  /** The results that carry a PM2.5 value, in order (`filter(|r| r.raw_pm25_ugm3.is_some())`). */
  function WithData(results: seq<PurpleAirResult>): (r: seq<PurpleAirResult>)
    ensures |r| <= |results|
    ensures forall i :: 0 <= i < |r| ==> r[i].rawPm25.Some? && r[i] in results
    ensures forall i :: 0 <= i < |results| && results[i].rawPm25.Some? ==> results[i] in r
    decreases |results|
  {
    if results == [] then []
    else (if results[0].rawPm25.Some? then [results[0]] else []) + WithData(results[1..])
  }

  /**
    The selection of `get_air_quality_ext` once the page is decoded: the
    first result with data, or an error; the second `ok_or` is kept as
    written although the filter has already checked the value.
  */
  function SelectReading(results: seq<PurpleAirResult>): (r: Result<AirQuality>)
    ensures r.Ok? <==> exists x :: x in results && x.rawPm25.Some?
    ensures r.Ok? ==> exists x :: x in results && x.rawPm25 == Some(r.value.rawPm25)
    ensures r.Err? ==> r.error == MakeError(NO_VALID_RESULT)
  {
    var withData := WithData(results);
    if |withData| == 0 then Err(MakeError(NO_VALID_RESULT))
    else
      var first := withData[0];
      if first.rawPm25.None? then Err(MakeError(PM25_MISSING))
      else Ok(AirQuality(first.rawPm25.value))
  }

  /**
    `get_air_quality_ext`: fetch the page, decode it, select. Fetch and
    decoding errors reach the caller unchanged.
  */
  function GetAirQualityExt(id: string, key: string, fetchJson: string -> Result<string>,
                            decode: string -> Result<seq<PurpleAirResult>>): (r: Result<AirQuality>)
    ensures fetchJson(SensorUrl(id, key)).Err? ==> r == Err(fetchJson(SensorUrl(id, key)).error)
    ensures fetchJson(SensorUrl(id, key)).Ok? ==>
              var decoded := decode(fetchJson(SensorUrl(id, key)).value);
              r == if decoded.Err? then Err(decoded.error) else SelectReading(decoded.value)
  {
    var raw :- fetchJson(SensorUrl(id, key));
    var results :- decode(raw);
    SelectReading(results)
  }

  /** The filter keeps order: filtering a concatenation concatenates what each part keeps. */
  lemma {:induction false} WithDataAppend(a: seq<PurpleAirResult>, b: seq<PurpleAirResult>)
    ensures WithData(a + b) == WithData(a) + WithData(b)
    decreases |a|
  {
    if a != [] {
      var head := if a[0].rawPm25.Some? then [a[0]] else [];
      WithDataAppend(a[1..], b);
      assert (a + b)[1..] == a[1..] + b;
      assert WithData(a + b) == head + WithData(a[1..] + b);
      assert WithData(a) == head + WithData(a[1..]);
    } else {
      assert a + b == b;
    }
  }

  /** The reading is the value of the first result that has one; results without a value are skipped wherever they are. */
  lemma {:induction false} FirstValueWins(results: seq<PurpleAirResult>, k: int)
    requires 0 <= k < |results| && results[k].rawPm25.Some?
    requires forall j :: 0 <= j < k ==> results[j].rawPm25.None?
    ensures SelectReading(results) == Ok(AirQuality(results[k].rawPm25.value))
  {
    SkipNone(results, k);
  }

  /** Dropping results without a value does not change what the filter keeps. */
  lemma {:induction false} SkipNone(results: seq<PurpleAirResult>, k: int)
    requires 0 <= k <= |results|
    requires forall j :: 0 <= j < k ==> results[j].rawPm25.None?
    ensures WithData(results) == WithData(results[k..])
    decreases k
  {
    if k > 0 {
      SkipNone(results[1..], k - 1);
      assert results[1..][k - 1..] == results[k..];
    }
  }

  /** With no value anywhere, the reading fails with "Result didn't have one valid result". */
  lemma {:induction false} NoValueIsError(results: seq<PurpleAirResult>)
    requires forall j :: 0 <= j < |results| ==> results[j].rawPm25.None?
    ensures SelectReading(results) == Err(MakeError(NO_VALID_RESULT))
  {
    SkipNone(results, |results|);
  }

  /** The selection succeeds exactly when some result has a value. */
  lemma {:induction false} ReadingExists(results: seq<PurpleAirResult>)
    ensures SelectReading(results).Ok? <==> exists j :: 0 <= j < |results| && results[j].rawPm25.Some?
  {
    if exists j :: 0 <= j < |results| && results[j].rawPm25.Some? {
      var k := FirstWithValue(results);
      FirstValueWins(results, k);
    } else {
      NoValueIsError(results);
    }
  }

  /** The index of the first result with a value, when there is one. */
  lemma {:induction false} FirstWithValue(results: seq<PurpleAirResult>) returns (k: int)
    requires exists j :: 0 <= j < |results| && results[j].rawPm25.Some?
    ensures 0 <= k < |results| && results[k].rawPm25.Some?
    ensures forall j :: 0 <= j < k ==> results[j].rawPm25.None?
    decreases |results|
  {
    if results[0].rawPm25.Some? {
      k := 0;
    } else {
      var j :| 0 <= j < |results| && results[j].rawPm25.Some?;
      assert results[1..][j - 1] == results[j];
      var k' := FirstWithValue(results[1..]);
      k := k' + 1;
      forall i | 0 <= i < k ensures results[i].rawPm25.None? {
        if i > 0 { assert results[i] == results[1..][i - 1]; }
      }
    }
  }

  /** The "pm2.5 missing" error can never be returned: the filter has already checked the value. */
  lemma PM25MissingUnreachable(results: seq<PurpleAirResult>)
    ensures SelectReading(results) != Err(MakeError(PM25_MISSING))
  {
    if |WithData(results)| > 0 {
      assert WithData(results)[0].rawPm25.Some?;
    }
  }
}
