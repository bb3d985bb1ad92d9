/**
  `parse_duration` (src/weather.rs): the designator form of durations from
  section 4.4.3.2 of ISO 8601:2004, as far as the forecast service uses it.
  A leading 'P', then numbers each followed by a designator: only 'D' in
  the date part, and only 'H', 'M' and 'S' in the time part that a 'T'
  opens. Durations are counted in seconds.
*/
module WeatherDuration {
  import opened Errors
  import opened Text

  const SECONDS_PER_MINUTE: nat := 60
  const SECONDS_PER_HOUR: nat := 3600
  const SECONDS_PER_DAY: nat := 86400

  /** `ParseRegion`. */
  datatype Region = DatePart | TimePart

  /**
    The two designator tables: what one unit of a designator is worth in
    seconds, if the designator is accepted in the region.
  */
  function UnitSeconds(region: Region, c: char): Option<nat> {
    match region
    case DatePart => if c == 'D' then Some(SECONDS_PER_DAY) else None
    case TimePart =>
      if c == 'H' then Some(SECONDS_PER_HOUR)
      else if c == 'M' then Some(SECONDS_PER_MINUTE)
      else if c == 'S' then Some(1)
      else None
  }

  /** The loop's variables: the region, the number read so far, and the running total. */
  datatype ScanState = ScanState(region: Region, acc: nat, total: nat)

  const START := ScanState(DatePart, 0, 0)

  /** How a scan ends: with its final state, or rejected at an index of the scanned text. */
  datatype ScanEnd = Finished(state: ScanState) | Rejected(at: nat)

  /** One character of the loop; `None` when the character is rejected. */
  function Step(st: ScanState, c: char): Option<ScanState> {
    if c == 'T' then Some(st.(region := TimePart))
    else if IsDigit(c) then Some(st.(acc := 10 * st.acc + DigitValue(c)))
    else match UnitSeconds(st.region, c)
      case Some(unit) => Some(ScanState(st.region, 0, st.total + st.acc * unit))
      case None => None
  }

  /** Moves a rejection index `k` characters to the right. */
  function Shift(e: ScanEnd, k: nat): ScanEnd {
    match e
    case Finished(_) => e
    case Rejected(i) => Rejected(i + k)
  }

  /** The whole loop over `body`, from state `st`. */
  function Scan(body: string, st: ScanState): ScanEnd
    decreases |body|
  {
    if body == [] then Finished(st)
    else match Step(st, body[0])
      case None => Rejected(0)
      case Some(next) => Shift(Scan(body[1..], next), 1)
  }

  /** The message for input that does not start with 'P'. */
  function MalformedMessage(input: string): string {
    "Malformed duration " + input
  }

  /** The message for a character rejected at index `i` after the 'P'. */
  function BadCharMessage(input: string, i: nat): string {
    "Bad duration string '" + input + "' at char #" + NatToString(i) + ". "
  }

  /** What `parse_duration` returns for `input`. */
  function DurationOf(input: string): Result<nat> {
    if input == [] || input[0] != 'P' then Err(MakeError(MalformedMessage(input)))
    else match Scan(input[1..], START)
      case Finished(st) => Ok(st.total)
      case Rejected(i) => Err(MakeError(BadCharMessage(input, i)))
  }

  /**
    `parse_duration`: the character loop. The index in the error message
    counts the characters after the 'P', from zero.
  */
  method ParseDuration(input: string) returns (r: Result<nat>)
    ensures r == DurationOf(input)
  {
    if input == [] || input[0] != 'P' {
      return Err(MakeError(MalformedMessage(input)));
    }
    var body := input[1..];
    var region, acc: nat, result: nat := DatePart, 0, 0;
    for i := 0 to |body|
      invariant Scan(body, START) == Shift(Scan(body[i..], ScanState(region, acc, result)), i)
    {
      var c := body[i];
      ghost var st := ScanState(region, acc, result);
      if c == 'T' {
        region := TimePart;
      } else if IsDigit(c) {
        acc := 10 * acc + DigitValue(c);
      } else {
        var unit := UnitSeconds(region, c);
        if unit.None? {
          assert DurationOf(input) == Err(MakeError(BadCharMessage(input, i))) by {
            Halt(body, i, st);
            DurationOfRejected(input, i);
          }
          return Err(MakeError(BadCharMessage(input, i)));
        }
        result := result + acc * unit.value;
        acc := 0;
      }
      assert Scan(body, START) == Shift(Scan(body[i + 1..], ScanState(region, acc, result)), i + 1) by {
        Advance(body, i, st, ScanState(region, acc, result));
      }
    }
    assert DurationOf(input) == Ok(result) by {
      assert body[|body|..] == [];
      DurationOfFinished(input, ScanState(region, acc, result));
    }
    return Ok(result);
  }

  /** One accepted character moves the scan one index on. */
  lemma Advance(body: string, i: nat, st: ScanState, next: ScanState)
    requires i < |body| && Step(st, body[i]) == Some(next)
    ensures Shift(Scan(body[i..], st), i) == Shift(Scan(body[i + 1..], next), i + 1)
  {
    assert body[i..][1..] == body[i + 1..];
  }

  /** A rejected character ends the scan at its index. */
  lemma Halt(body: string, i: nat, st: ScanState)
    requires i < |body| && Step(st, body[i]).None?
    ensures Shift(Scan(body[i..], st), i) == Rejected(i)
  {
  }

  /** Input without the leading 'P' is rejected as malformed. */
  lemma MissingPrefixRejected(input: string)
    requires input == [] || input[0] != 'P'
    ensures DurationOf(input) == Err(SimpleError("Malformed duration " + input))
  {
  }

  /** A character that is neither a digit, 'T', nor one of D, H, M, S. */
  predicate Foreign(c: char) {
    !IsDigit(c) && c != 'T' && c != 'D' && c != 'H' && c != 'M' && c != 'S'
  }

  lemma {:induction false} ScanRejectsForeign(body: string, st: ScanState, k: nat)
    requires k < |body| && Foreign(body[k])
    ensures Scan(body, st).Rejected? && Scan(body, st).at <= k
    decreases |body|
  {
    if k > 0 {
      match Step(st, body[0])
      case None =>
      case Some(next) =>
        assert body[1..][k - 1] == body[k];
        ScanRejectsForeign(body[1..], next, k - 1);
    }
  }

  /** Any character outside the digits, 'T' and the four designators makes the input an error. */
  lemma {:induction false} ForeignCharacterRejected(input: string, k: nat)
    requires input != [] && input[0] == 'P'
    requires 1 <= k < |input| && Foreign(input[k])
    ensures DurationOf(input).Err?
  {
    assert input[1..][k - 1] == input[k];
    ScanRejectsForeign(input[1..], START, k - 1);
  }

  /** `acc` after reading a run of digits, most significant first. */
  function Accumulate(acc: nat, ds: string): nat
    requires AllDigits(ds)
    decreases |ds|
  {
    if ds == [] then acc else Accumulate(10 * acc + DigitValue(ds[0]), ds[1..])
  }

  lemma {:induction false} AccumulateSnoc(acc: nat, ds: string, d: char)
    requires AllDigits(ds) && IsDigit(d)
    ensures AllDigits(ds + [d])
    ensures Accumulate(acc, ds + [d]) == 10 * Accumulate(acc, ds) + DigitValue(d)
    decreases |ds|
  {
    assert AllDigits(ds + [d]);
    if ds != [] {
      assert (ds + [d])[1..] == ds[1..] + [d];
      AccumulateSnoc(10 * acc + DigitValue(ds[0]), ds[1..], d);
    }
  }

  /** Reading digits from zero gives the number they denote. */
  lemma {:induction false} AccumulateFromZero(ds: string)
    requires AllDigits(ds)
    ensures Accumulate(0, ds) == DigitsValue(ds)
    decreases |ds|
  {
    if ds != [] {
      var init := ds[..|ds| - 1];
      AccumulateFromZero(init);
      AccumulateSnoc(0, init, ds[|ds| - 1]);
      assert init + [ds[|ds| - 1]] == ds;
    }
  }

  /** A run of digits only feeds `acc`. */
  lemma {:induction false} ScanDigits(ds: string, rest: string, st: ScanState)
    requires AllDigits(ds)
    ensures Scan(ds + rest, st) == Shift(Scan(rest, st.(acc := Accumulate(st.acc, ds))), |ds|)
    decreases |ds|
  {
    if ds == [] {
      assert ds + rest == rest;
    } else {
      assert (ds + rest)[1..] == ds[1..] + rest;
      ScanDigits(ds[1..], rest, st.(acc := 10 * st.acc + DigitValue(ds[0])));
    }
  }

  /** One component of a rendered duration: a number and its designator. */
  function Component(n: Option<nat>, designator: char): string {
    match n
    case None => ""
    case Some(v) => NatToString(v) + [designator]
  }

  /** A component adds its number times its unit to the total, and resets `acc`. */
  lemma {:induction false} ScanComponent(n: Option<nat>, designator: char, rest: string, st: ScanState)
    requires st.acc == 0
    requires n.Some? ==> UnitSeconds(st.region, designator).Some?
    ensures Scan(Component(n, designator) + rest, st)
         == Shift(Scan(rest, st.(total := st.total + Worth(n, st.region, designator))), |Component(n, designator)|)
  {
    match n
    case None =>
      assert Component(n, designator) + rest == rest;
    case Some(v) =>
      var ds := NatToString(v);
      assert Component(n, designator) + rest == ds + ([designator] + rest);
      ScanDigits(ds, [designator] + rest, st);
      AccumulateFromZero(ds);
      NatToStringValue(v);
      assert ([designator] + rest)[1..] == rest;
  }

  /** What a component is worth in seconds. */
  function Worth(n: Option<nat>, region: Region, designator: char): nat {
    match (n, UnitSeconds(region, designator))
    case (Some(v), Some(unit)) => v * unit
    case _ => 0
  }

  /** A duration in designator form, each component present or not. */
  datatype Designators = Designators(days: Option<nat>, hours: Option<nat>, minutes: Option<nat>, seconds: Option<nat>)

  function TimeComponents(d: Designators): string {
    Component(d.hours, 'H') + Component(d.minutes, 'M') + Component(d.seconds, 'S')
  }

  /** The ISO 8601 text of a duration; 'T' is written only when a time component follows. */
  function Render(d: Designators): string {
    "P" + Component(d.days, 'D')
        + (if d.hours.None? && d.minutes.None? && d.seconds.None? then "" else "T" + TimeComponents(d))
  }

  /** The length of a duration in seconds. */
  function Seconds(d: Designators): nat {
    d.days.GetOr(0) * SECONDS_PER_DAY + d.hours.GetOr(0) * SECONDS_PER_HOUR
      + d.minutes.GetOr(0) * SECONDS_PER_MINUTE + d.seconds.GetOr(0)
  }

  lemma ShiftFinished(e: ScanEnd, k: nat, st: ScanState)
    requires e == Finished(st)
    ensures Shift(e, k) == Finished(st)
  {
  }

  lemma ShiftShift(e: ScanEnd, a: nat, b: nat)
    ensures Shift(Shift(e, a), b) == Shift(e, a + b)
  {
  }

  /** What the time components add to the total. */
  function TimeWorthOf(d: Designators): nat {
    Worth(d.hours, TimePart, 'H') + Worth(d.minutes, TimePart, 'M') + Worth(d.seconds, TimePart, 'S')
  }

  /** The time components are worth the seconds they denote. */
  lemma TimeWorth(d: Designators)
    ensures TimeWorthOf(d) == Seconds(d.(days := None))
  {
  }

  /** Three scans in a row compose, their shifts adding up. */
  lemma ChainThree(a: string, b: string, c: string, rest: string, st0: ScanState, st1: ScanState, st2: ScanState, st3: ScanState)
    requires Scan(a + (b + (c + rest)), st0) == Shift(Scan(b + (c + rest), st1), |a|)
    requires Scan(b + (c + rest), st1) == Shift(Scan(c + rest, st2), |b|)
    requires Scan(c + rest, st2) == Shift(Scan(rest, st3), |c|)
    ensures Scan(a + b + c + rest, st0) == Shift(Scan(rest, st3), |a + b + c|)
  {
    AppendAssoc(a + b, c, rest);
    AppendAssoc(a, b, c + rest);
    ShiftShift(Scan(rest, st3), |c|, |b|);
    ShiftShift(Scan(rest, st3), |c| + |b|, |a|);
  }

  /** The time components, scanned in the time part, add up their worths. */
  lemma {:induction false} ScanTimeComponents(d: Designators, rest: string, total: nat)
    ensures Scan(TimeComponents(d) + rest, ScanState(TimePart, 0, total))
         == Shift(Scan(rest, ScanState(TimePart, 0, total + TimeWorthOf(d))), |TimeComponents(d)|)
  {
    var h, m, s := Component(d.hours, 'H'), Component(d.minutes, 'M'), Component(d.seconds, 'S');
    var st0 := ScanState(TimePart, 0, total);
    var st1 := st0.(total := st0.total + Worth(d.hours, st0.region, 'H'));
    var st2 := st1.(total := st1.total + Worth(d.minutes, st1.region, 'M'));
    var st3 := st2.(total := st2.total + Worth(d.seconds, st2.region, 'S'));
    assert st3 == ScanState(TimePart, 0, total + TimeWorthOf(d));
    assert Scan(h + (m + (s + rest)), st0) == Shift(Scan(m + (s + rest), st1), |h|) by {
      ScanComponent(d.hours, 'H', m + (s + rest), st0);
    }
    assert Scan(m + (s + rest), st1) == Shift(Scan(s + rest, st2), |m|) by {
      ScanComponent(d.minutes, 'M', s + rest, st1);
    }
    assert Scan(s + rest, st2) == Shift(Scan(rest, st3), |s|) by {
      ScanComponent(d.seconds, 'S', rest, st2);
    }
    ChainThree(h, m, s, rest, st0, st1, st2, st3);
  }

  /** A 'T' switches to the time part and nothing else. */
  lemma ScanDesignatorT(rest: string, st: ScanState)
    ensures Scan("T" + rest, st) == Shift(Scan(rest, st.(region := TimePart)), 1)
  {
    assert ("T" + rest)[1..] == rest;
  }

  /**
    Every duration in designator form parses to its length: the result is
    the sum of each number times its unit.
  */
  lemma {:induction false} ParseRendered(d: Designators)
    ensures DurationOf(Render(d)) == Ok(Seconds(d))
  {
    RenderedWithTail(d, "");
    assert Render(d) + "" == Render(d);
  }

  /** A scan that finishes makes the whole parse succeed with the total. */
  lemma DurationOfFinished(input: string, st: ScanState)
    requires input != [] && input[0] == 'P' && Scan(input[1..], START) == Finished(st)
    ensures DurationOf(input) == Ok(st.total)
  {
  }

  /** Only digits and 'T'. */
  predicate Inert(tail: string) {
    forall i :: 0 <= i < |tail| ==> IsDigit(tail[i]) || tail[i] == 'T'
  }

  /**
    Anything made only of digits and 'T' after a rendered duration changes
    nothing: digits without a designator are dropped, and a repeated 'T'
    only stays in the time part.
  */
  lemma {:induction false} RenderedWithTail(d: Designators, tail: string)
    requires Inert(tail)
    ensures DurationOf(Render(d) + tail) == Ok(Seconds(d))
  {
    var input := Render(d) + tail;
    var days := Component(d.days, 'D');
    if d.hours.None? && d.minutes.None? && d.seconds.None? {
      assert input[1..] == days + tail;
      var fin := ScanDaysOnly(d, tail);
      DurationOfFinished(input, fin);
    } else {
      var times := TimeComponents(d) + tail;
      assert input[1..] == days + ("T" + times);
      var fin := ScanDaysAndTimes(d, tail);
      DurationOfFinished(input, fin);
    }
  }

  lemma {:induction false} ScanDaysOnly(d: Designators, tail: string) returns (fin: ScanState)
    requires Inert(tail) && d.hours.None? && d.minutes.None? && d.seconds.None?
    ensures Scan(Component(d.days, 'D') + tail, START) == Finished(fin) && fin.total == Seconds(d)
  {
    var days := Component(d.days, 'D');
    var afterDays := START.(total := Worth(d.days, DatePart, 'D'));
    TailFinishes(tail, afterDays);
    fin := Scan(tail, afterDays).state;
    calc {
      Scan(days + tail, START);
      { ScanComponent(d.days, 'D', tail, START); }
      Shift(Scan(tail, afterDays), |days|);
      Finished(fin);
    }
  }

  lemma {:induction false} ScanDaysAndTimes(d: Designators, tail: string) returns (fin: ScanState)
    requires Inert(tail)
    ensures Scan(Component(d.days, 'D') + ("T" + (TimeComponents(d) + tail)), START) == Finished(fin)
    ensures fin.total == Seconds(d)
  {
    var days := Component(d.days, 'D');
    var times := TimeComponents(d) + tail;
    var afterDays := START.(total := Worth(d.days, DatePart, 'D'));
    var inTime := ScanState(TimePart, 0, afterDays.total);
    var afterTimes := ScanState(TimePart, 0, afterDays.total + TimeWorthOf(d));
    TimeWorth(d);
    TailFinishes(tail, afterTimes);
    fin := Scan(tail, afterTimes).state;
    calc {
      Scan(days + ("T" + times), START);
      { ScanComponent(d.days, 'D', "T" + times, START); }
      Shift(Scan("T" + times, afterDays), |days|);
      { ScanDesignatorT(times, afterDays); }
      Shift(Shift(Scan(times, inTime), 1), |days|);
      { ScanTimeComponents(d, tail, afterDays.total); }
      Shift(Shift(Shift(Scan(tail, afterTimes), |TimeComponents(d)|), 1), |days|);
      Finished(fin);
    }
  }

  /** A tail of digits and 'T' finishes without changing the total. */
  lemma {:induction false} TailFinishes(tail: string, st: ScanState)
    requires Inert(tail)
    ensures Scan(tail, st).Finished? && Scan(tail, st).state.total == st.total
    decreases |tail|
  {
    if tail != [] {
      var next := if tail[0] == 'T' then st.(region := TimePart) else st.(acc := 10 * st.acc + DigitValue(tail[0]));
      assert Step(st, tail[0]) == Some(next);
      TailFinishes(tail[1..], next);
    }
  }

  /**
    A designator that the region does not accept is rejected at its own
    index: before 'T' only 'D' is accepted, after it only 'H', 'M', 'S'.
  */
  lemma {:induction false} WrongRegionRejected(ds: string, c: char, rest: string, st: ScanState)
    requires AllDigits(ds) && !IsDigit(c) && c != 'T' && UnitSeconds(st.region, c).None?
    ensures Scan(ds + [c] + rest, st) == Rejected(|ds|)
  {
    assert ds + [c] + rest == ds + ([c] + rest);
    ScanDigits(ds, [c] + rest, st);
  }

  /** A rejected scan makes the whole parse fail with the index in the message. */
  lemma DurationOfRejected(input: string, i: nat)
    requires input != [] && input[0] == 'P' && Scan(input[1..], START) == Rejected(i)
    ensures DurationOf(input) == Err(MakeError(BadCharMessage(input, i)))
  {
  }

  /**
    Before the 'T', a number followed by anything but 'D', 'T' or a digit is
    rejected at that character: months ('M') and years ('Y') are not accepted.
  */
  lemma {:induction false} DesignatorOutsideDatePart(n: nat, c: char, rest: string)
    requires !IsDigit(c) && c != 'T' && c != 'D'
    ensures var input := "P" + NatToString(n) + [c] + rest;
            DurationOf(input) == Err(MakeError(BadCharMessage(input, |NatToString(n)|)))
  {
    var ds := NatToString(n);
    var input := "P" + ds + [c] + rest;
    assert input[1..] == ds + [c] + rest;
    WrongRegionRejected(ds, c, rest, START);
    DurationOfRejected(input, |ds|);
  }

  /**
    After the 'T', a number followed by anything but 'H', 'M', 'S', 'T' or a
    digit is rejected at that character: days belong before the 'T'.
  */
  lemma {:induction false} DesignatorOutsideTimePart(n: nat, c: char, rest: string)
    requires !IsDigit(c) && c != 'T' && c != 'H' && c != 'M' && c != 'S'
    ensures var input := "PT" + NatToString(n) + [c] + rest;
            DurationOf(input) == Err(MakeError(BadCharMessage(input, 1 + |NatToString(n)|)))
  {
    var ds := NatToString(n);
    var input := "PT" + NatToString(n) + [c] + rest;
    var inTime := START.(region := TimePart);
    var tail := ds + [c] + rest;
    assert input[1..] == "T" + tail;
    calc {
      Scan("T" + tail, START);
      { ScanDesignatorT(tail, START); }
      Shift(Scan(tail, inTime), 1);
      { WrongRegionRejected(ds, c, rest, inTime); }
      Rejected(1 + |ds|);
    }
    DurationOfRejected(input, 1 + |ds|);
  }

  lemma NinetyMinutesTenSeconds(input: string)
    requires input == "PT1H30M10S"
    ensures DurationOf(input) == Ok(90 * SECONDS_PER_MINUTE + 10)
  {
    var d := Designators(None, Some(1), Some(30), Some(10));
    assert Render(d) == input by {
      assert TimeComponents(d) == "1H30M10S" by {
        assert Component(d.hours, 'H') == "1H" by { assert NatToString(1) == "1"; }
        assert Component(d.minutes, 'M') == "30M" by { assert NatToString(30) == "30"; }
        assert Component(d.seconds, 'S') == "10S" by { assert NatToString(10) == "10"; }
      }
    }
    assert DurationOf(Render(d)) == Ok(Seconds(d)) by {
      ParseRendered(d);
    }
  }

  lemma ThirtySixHours(input: string)
    requires input == "P1DT12H"
    ensures DurationOf(input) == Ok(36 * SECONDS_PER_HOUR)
  {
    var d := Designators(Some(1), Some(12), None, None);
    assert Render(d) == input by {
      assert Component(d.days, 'D') == "1D" by { assert NatToString(1) == "1"; }
      assert TimeComponents(d) == "12H" by { assert NatToString(12) == "12"; }
    }
    assert DurationOf(Render(d)) == Ok(Seconds(d)) by {
      ParseRendered(d);
    }
  }

  lemma DanglingDigitsDropped(input: string)
    requires input == "PT5"
    ensures DurationOf(input) == Ok(0)
  {
    var d := Designators(None, None, None, None);
    assert Render(d) + "T5" == input;
    RenderedWithTail(d, "T5");
  }

  lemma BarePrefixIsZero(input: string)
    requires input == "P"
    ensures DurationOf(input) == Ok(0)
  {
    ParseRendered(Designators(None, None, None, None));
  }
}
