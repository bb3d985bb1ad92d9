/**
  The arrival processing of src/subway.rs: the station status, already
  decoded from its protocol buffer, is split by direction, filtered to the
  trains still to come, sorted by time, and summarised by the countdown
  to the first uptown train.
*/
module Subway {
  import opened Errors
  import opened Countdown
  import opened Text

  datatype Direction = Uptown | Downtown

  /** One line's arrivals in one direction (a `LineArrivals` message; absent fields read as their defaults). */
  datatype LineStatus = LineStatus(line: string, direction: Direction, arrivals: seq<int>)

  /** The `StationStatus` message. */
  datatype StationStatus = StationStatus(name: string, lines: seq<LineStatus>, dataTimestamp: int)

  /** `ProcessedData`: trains are (arrival timestamp, line) pairs. */
  datatype ProcessedData = ProcessedData(
    upcomingTrains: seq<(int, string)>,
    upcomingOutboundTrains: seq<(int, string)>,
    bigCountdown: Option<string>,
    bigCountdownLine: Option<string>,
    stationName: string,
    dataTimestamp: int)

  /** `ProcessedData::empty`. */
  function Empty(): (d: ProcessedData)
    ensures d.upcomingTrains == [] && d.upcomingOutboundTrains == []
    ensures d.bigCountdown.None? && d.bigCountdownLine.None?
    ensures d.stationName == "" && d.dataTimestamp == 0
  {
    ProcessedData([], [], None, None, "", 0)
  }

  /** The arrivals of one line after `now`, in their order, each paired with the line. */
  function FutureOf(arrivals: seq<int>, line: string, now: int): (r: seq<(int, string)>)
    ensures |r| <= |arrivals|
  {
    if arrivals == [] then []
    else
      var ts := arrivals[|arrivals| - 1];
      FutureOf(arrivals[..|arrivals| - 1], line, now) + (if ts > now then [(ts, line)] else [])
  }

  /** The arrivals after `now` of every line going in `dir`, line by line, as the two loops push them. */
  function Upcoming(lines: seq<LineStatus>, dir: Direction, now: int): seq<(int, string)> {
    if lines == [] then []
    else
      var last := lines[|lines| - 1];
      Upcoming(lines[..|lines| - 1], dir, now) + (if last.direction == dir then FutureOf(last.arrivals, last.line, now) else [])
  }

  lemma FutureOfSnoc(arrivals: seq<int>, j: int, line: string, now: int)
    requires 0 <= j < |arrivals|
    ensures FutureOf(arrivals[..j + 1], line, now)
            == FutureOf(arrivals[..j], line, now) + (if arrivals[j] > now then [(arrivals[j], line)] else [])
  {
    assert arrivals[..j + 1][..j] == arrivals[..j];
  }

  lemma UpcomingSnoc(lines: seq<LineStatus>, i: int, dir: Direction, now: int)
    requires 0 <= i < |lines|
    ensures Upcoming(lines[..i + 1], dir, now)
            == Upcoming(lines[..i], dir, now)
               + (if lines[i].direction == dir then FutureOf(lines[i].arrivals, lines[i].line, now) else [])
  {
    assert lines[..i + 1][..i] == lines[..i];
  }

  /** Whether `train` is an arrival after `now` of some line going in `dir`. */
  predicate ArrivesAfter(lines: seq<LineStatus>, dir: Direction, now: int, train: (int, string)) {
    exists i :: 0 <= i < |lines| && lines[i].direction == dir && lines[i].line == train.1
                && train.0 in lines[i].arrivals && train.0 > now
  }

  lemma {:induction false} FutureOfMembers(arrivals: seq<int>, line: string, now: int, train: (int, string))
    ensures train in FutureOf(arrivals, line, now) <==> train.1 == line && train.0 in arrivals && train.0 > now
  {
    if arrivals != [] {
      var n := |arrivals|;
      FutureOfMembers(arrivals[..n - 1], line, now, train);
      assert arrivals == arrivals[..n - 1] + [arrivals[n - 1]];
    }
  }

  /** Exactly the arrivals after `now` of the lines going in `dir` are kept; nothing else gets in. */
  lemma {:induction false} UpcomingMembers(lines: seq<LineStatus>, dir: Direction, now: int, train: (int, string))
    ensures train in Upcoming(lines, dir, now) <==> ArrivesAfter(lines, dir, now, train)
  {
    if lines != [] {
      var n := |lines|;
      var init, last := lines[..n - 1], lines[n - 1];
      UpcomingMembers(init, dir, now, train);
      FutureOfMembers(last.arrivals, last.line, now, train);
      if ArrivesAfter(lines, dir, now, train) {
        var i :| 0 <= i < n && lines[i].direction == dir && lines[i].line == train.1
                 && train.0 in lines[i].arrivals && train.0 > now;
        if i < n - 1 {
          assert init[i] == lines[i];
        }
      }
      if ArrivesAfter(init, dir, now, train) {
        var i :| 0 <= i < n - 1 && init[i].direction == dir && init[i].line == train.1
                 && train.0 in init[i].arrivals && train.0 > now;
        assert lines[i] == init[i];
      }
    }
  }

  /** Ascending by timestamp. */
  predicate SortedByTime(s: seq<(int, string)>) {
    forall i, j :: 0 <= i < j < |s| ==> s[i].0 <= s[j].0
  }

  /** Insert `x` before the first entry whose timestamp is not smaller. */
  function InsertFirst(r: seq<(int, string)>, x: (int, string)): (res: seq<(int, string)>)
    ensures |res| == |r| + 1
  {
    if r == [] then [x]
    else if x.0 <= r[0].0 then [x] + r
    else [r[0]] + InsertFirst(r[1..], x)
  }

  /** Inserting adds exactly the one entry. */
  lemma {:induction false} InsertPermutes(r: seq<(int, string)>, x: (int, string))
    ensures multiset(InsertFirst(r, x)) == multiset(r) + multiset{x}
  {
    if r != [] && x.0 > r[0].0 {
      InsertPermutes(r[1..], x);
      assert r == [r[0]] + r[1..];
    }
  }

  /**
    `sort_by_key(|x| x.0)`, a stable sort, written as an insertion of each
    entry in front of the sorted rest.
  */
  function SortByTime(s: seq<(int, string)>): (r: seq<(int, string)>)
    ensures |r| == |s|
  {
    if s == [] then [] else InsertFirst(SortByTime(s[1..]), s[0])
  }

  /** The sort is a permutation. */
  lemma {:induction false} SortPermutes(s: seq<(int, string)>)
    ensures multiset(SortByTime(s)) == multiset(s)
  {
    if s != [] {
      SortPermutes(s[1..]);
      InsertPermutes(SortByTime(s[1..]), s[0]);
      assert s == [s[0]] + s[1..];
    }
  }

  /** Every timestamp is at least `t`. */
  predicate AtLeast(s: seq<(int, string)>, t: int) {
    forall i :: 0 <= i < |s| ==> t <= s[i].0
  }

  lemma InsertAtLeast(r: seq<(int, string)>, x: (int, string), t: int)
    requires AtLeast(r, t) && t <= x.0
    ensures AtLeast(InsertFirst(r, x), t)
  {
    var res := InsertFirst(r, x);
    InsertPermutes(r, x);
    forall i | 0 <= i < |res| ensures t <= res[i].0 {
      assert res[i] in multiset(r) + multiset{x};
      if res[i] != x {
        assert res[i] in r;
      }
    }
  }

  lemma ConsSorted(h: (int, string), s: seq<(int, string)>)
    requires SortedByTime(s) && AtLeast(s, h.0)
    ensures SortedByTime([h] + s)
  {
    var res := [h] + s;
    forall i, j | 0 <= i < j < |res| ensures res[i].0 <= res[j].0 {
      assert res[j] == s[j - 1];
      if i > 0 { assert res[i] == s[i - 1]; }
    }
  }

  lemma {:induction false} InsertSorted(r: seq<(int, string)>, x: (int, string))
    requires SortedByTime(r)
    ensures SortedByTime(InsertFirst(r, x))
  {
    if r == [] {
    } else if x.0 <= r[0].0 {
      assert AtLeast(r, x.0) by {
        forall i | 0 <= i < |r| ensures x.0 <= r[i].0 { if i > 0 { assert r[0].0 <= r[i].0; } }
      }
      ConsSorted(x, r);
    } else {
      var tail := r[1..];
      assert SortedByTime(tail) by {
        forall i, j | 0 <= i < j < |tail| ensures tail[i].0 <= tail[j].0 { assert tail[i] == r[i + 1] && tail[j] == r[j + 1]; }
      }
      assert AtLeast(tail, r[0].0) by {
        forall i | 0 <= i < |tail| ensures r[0].0 <= tail[i].0 { assert tail[i] == r[i + 1]; }
      }
      InsertSorted(tail, x);
      InsertAtLeast(tail, x, r[0].0);
      ConsSorted(r[0], InsertFirst(tail, x));
    }
  }

  /** The sort puts the timestamps in ascending order. */
  lemma {:induction false} SortSorted(s: seq<(int, string)>)
    ensures SortedByTime(SortByTime(s))
  {
    if s != [] {
      SortSorted(s[1..]);
      InsertSorted(SortByTime(s[1..]), s[0]);
    }
  }

  /** The entries with timestamp `k`, in order. */
  function Select(s: seq<(int, string)>, k: int): seq<(int, string)> {
    if s == [] then [] else (if s[0].0 == k then [s[0]] else []) + Select(s[1..], k)
  }

  lemma SelectCons(h: (int, string), s: seq<(int, string)>, k: int)
    ensures Select([h] + s, k) == (if h.0 == k then [h] else []) + Select(s, k)
  {
    assert ([h] + s)[1..] == s;
  }

  lemma SwapHeads(a: seq<(int, string)>, b: seq<(int, string)>, s: seq<(int, string)>)
    requires a == [] || b == []
    ensures a + (b + s) == b + (a + s)
  {
    if a == [] {
      assert a + (b + s) == b + s == b + (a + s);
    } else {
      assert a + (b + s) == a + s == b + (a + s);
    }
  }

  lemma {:induction false} SelectInsert(r: seq<(int, string)>, x: (int, string), k: int)
    ensures Select(InsertFirst(r, x), k) == (if x.0 == k then [x] else []) + Select(r, k)
  {
    if r == [] {
      SelectCons(x, [], k);
    } else if x.0 <= r[0].0 {
      SelectCons(x, r, k);
    } else {
      var inner := InsertFirst(r[1..], x);
      SelectCons(r[0], inner, k);
      SelectInsert(r[1..], x, k);
      assert r == [r[0]] + r[1..];
      SelectCons(r[0], r[1..], k);
      SwapHeads(if r[0].0 == k then [r[0]] else [], if x.0 == k then [x] else [], Select(r[1..], k));
    }
  }

  /** The sort is stable: the entries sharing a timestamp keep their input order. */
  lemma {:induction false} SortStable(s: seq<(int, string)>, k: int)
    ensures Select(SortByTime(s), k) == Select(s, k)
  {
    if s != [] {
      SortStable(s[1..], k);
      SelectInsert(SortByTime(s[1..]), s[0], k);
    }
  }

  /** What `process_data` returns, with the clock reading `now` as a parameter. */
  function Processed(data: StationStatus, now: int): ProcessedData {
    var up := Upcoming(data.lines, Uptown, now);
    if up == [] then Empty()
    else
      var trains := SortByTime(up);
      ProcessedData(trains, SortByTime(Upcoming(data.lines, Downtown, now)),
                    Some(CountdownSummary(now, trains[0].0)), Some(trains[0].1),
                    data.name, data.dataTimestamp)
  }

  /**
    `process_data`: the two nested loops push the future arrivals of each
    direction, then both lists are sorted. It never fails.
  */
  method ProcessData(data: StationStatus, now: int) returns (r: Result<ProcessedData>)
    ensures r == Ok(Processed(data, now))
  {
    var arrivals: seq<(int, string)> := [];
    var outboundArrivals: seq<(int, string)> := [];
    for i := 0 to |data.lines|
      invariant arrivals == Upcoming(data.lines[..i], Uptown, now)
      invariant outboundArrivals == Upcoming(data.lines[..i], Downtown, now)
    {
      var line := data.lines[i];
      UpcomingSnoc(data.lines, i, Uptown, now);
      UpcomingSnoc(data.lines, i, Downtown, now);
      match line.direction
      case Uptown =>
        ghost var before := arrivals;
        for j := 0 to |line.arrivals|
          invariant arrivals == before + FutureOf(line.arrivals[..j], line.line, now)
        {
          FutureOfSnoc(line.arrivals, j, line.line, now);
          if line.arrivals[j] > now {
            AppendAssoc(before, FutureOf(line.arrivals[..j], line.line, now), [(line.arrivals[j], line.line)]);
            arrivals := arrivals + [(line.arrivals[j], line.line)];
          } else {
            assert FutureOf(line.arrivals[..j + 1], line.line, now) == FutureOf(line.arrivals[..j], line.line, now) + [];
          }
        }
        assert line.arrivals[..|line.arrivals|] == line.arrivals;
      case Downtown =>
        ghost var before := outboundArrivals;
        for j := 0 to |line.arrivals|
          invariant outboundArrivals == before + FutureOf(line.arrivals[..j], line.line, now)
        {
          FutureOfSnoc(line.arrivals, j, line.line, now);
          if line.arrivals[j] > now {
            AppendAssoc(before, FutureOf(line.arrivals[..j], line.line, now), [(line.arrivals[j], line.line)]);
            outboundArrivals := outboundArrivals + [(line.arrivals[j], line.line)];
          } else {
            assert FutureOf(line.arrivals[..j + 1], line.line, now) == FutureOf(line.arrivals[..j], line.line, now) + [];
          }
        }
        assert line.arrivals[..|line.arrivals|] == line.arrivals;
    }
    assert data.lines[..|data.lines|] == data.lines;
    if |arrivals| == 0 {
      return Ok(Empty());
    }
    arrivals := SortByTime(arrivals);
    outboundArrivals := SortByTime(outboundArrivals);
    var firstArrivalTs := arrivals[0].0;
    var firstArrivalLine := arrivals[0].1;
    return Ok(ProcessedData(arrivals, outboundArrivals, Some(CountdownSummary(now, firstArrivalTs)),
                            Some(firstArrivalLine), data.name, data.dataTimestamp));
  }

  /**
    With no uptown train still to come the result is `empty()`: the
    outbound trains, the station name and the data timestamp are dropped.
    Otherwise there is a big countdown.
  */
  lemma EmptyRule(data: StationStatus, now: int)
    ensures Processed(data, now) == Empty() <==> forall t :: !ArrivesAfter(data.lines, Uptown, now, t)
    ensures Processed(data, now).bigCountdown.Some? <==> exists t :: ArrivesAfter(data.lines, Uptown, now, t)
  {
    var up := Upcoming(data.lines, Uptown, now);
    if up == [] {
      forall t ensures !ArrivesAfter(data.lines, Uptown, now, t) {
        UpcomingMembers(data.lines, Uptown, now, t);
      }
    } else {
      UpcomingMembers(data.lines, Uptown, now, up[0]);
    }
  }

  /**
    Each list holds exactly the trains after `now` of its direction
    (uptown in `upcoming_trains`, downtown in `upcoming_outbound_trains`),
    as a permutation of the order the loops met them, sorted by time and
    stable among equal times.
  */
  lemma ListsSortedPermutations(data: StationStatus, now: int)
    requires Upcoming(data.lines, Uptown, now) != []
    ensures var p := Processed(data, now);
            && multiset(p.upcomingTrains) == multiset(Upcoming(data.lines, Uptown, now))
            && multiset(p.upcomingOutboundTrains) == multiset(Upcoming(data.lines, Downtown, now))
            && SortedByTime(p.upcomingTrains) && SortedByTime(p.upcomingOutboundTrains)
            && (forall k :: Select(p.upcomingTrains, k) == Select(Upcoming(data.lines, Uptown, now), k))
            && (forall k :: Select(p.upcomingOutboundTrains, k) == Select(Upcoming(data.lines, Downtown, now), k))
            && (forall t :: t in p.upcomingTrains <==> ArrivesAfter(data.lines, Uptown, now, t))
            && (forall t :: t in p.upcomingOutboundTrains <==> ArrivesAfter(data.lines, Downtown, now, t))
  {
    var up, down := Upcoming(data.lines, Uptown, now), Upcoming(data.lines, Downtown, now);
    SortSorted(up);
    SortSorted(down);
    SortPermutes(up);
    SortPermutes(down);
    forall k ensures Select(SortByTime(up), k) == Select(up, k) && Select(SortByTime(down), k) == Select(down, k) {
      SortStable(up, k);
      SortStable(down, k);
    }
    forall t ensures (t in SortByTime(up) <==> ArrivesAfter(data.lines, Uptown, now, t))
                  && (t in SortByTime(down) <==> ArrivesAfter(data.lines, Downtown, now, t)) {
      UpcomingMembers(data.lines, Uptown, now, t);
      UpcomingMembers(data.lines, Downtown, now, t);
      assert t in SortByTime(up) <==> t in multiset(SortByTime(up));
      assert t in SortByTime(down) <==> t in multiset(SortByTime(down));
    }
  }

  lemma {:induction false} SelectHead(s: seq<(int, string)>)
    requires s != []
    ensures Select(s, s[0].0) != [] && Select(s, s[0].0)[0] == s[0]
  {
  }

  /**
    The big countdown is the countdown to the earliest uptown train, and
    its line is the line of that train; among trains due at the same
    earliest time, the first one the loops met.
  */
  lemma BigCountdownIsEarliest(data: StationStatus, now: int)
    requires Upcoming(data.lines, Uptown, now) != []
    ensures var p := Processed(data, now);
            exists t :: && ArrivesAfter(data.lines, Uptown, now, t)
                        && (forall u :: ArrivesAfter(data.lines, Uptown, now, u) ==> t.0 <= u.0)
                        && p.bigCountdown == Some(CountdownSummary(now, t.0))
                        && p.bigCountdownLine == Some(t.1)
                        && Select(Upcoming(data.lines, Uptown, now), t.0) != []
                        && Select(Upcoming(data.lines, Uptown, now), t.0)[0] == t
  {
    var up := Upcoming(data.lines, Uptown, now);
    var trains := SortByTime(up);
    var t := trains[0];
    SortPermutes(up);
    assert t in multiset(up);
    UpcomingMembers(data.lines, Uptown, now, t);
    SortSorted(up);
    forall u | ArrivesAfter(data.lines, Uptown, now, u) ensures t.0 <= u.0 {
      UpcomingMembers(data.lines, Uptown, now, u);
      assert u in multiset(trains);
      var j :| 0 <= j < |trains| && trains[j] == u;
      if j > 0 { assert trains[0].0 <= trains[j].0; }
    }
    SortStable(up, t.0);
    SelectHead(trains);
  }
}
