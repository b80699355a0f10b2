/** The shot journal of shot_journal.py: bounded summaries and one retained curve. The point
    lists are objects, because the latest curve is the very list the finished shot filled. */
module Journal {
  import opened Bytes
  import opened Outcomes
  import opened Decoding
  import opened Activity

  const MAX_RECORDS := 30
  const MAX_POINTS := 600

  datatype Coverage = ObservedStart | Partial | Sparse | Truncated

  /** elapsed is in microseconds since the shot started. */
  datatype Point = Point(elapsed: int, pressure: int, volume: int, scale: int)

  /** The shot in progress. */
  datatype Draft = Draft(duration: int, peak: int, pumped: int, source: Source, coverage: Coverage, samples: int)

  /** A completed shot; endedAt is printed in UTC, so equal texts are equal instants. */
  datatype Record = Record(endedAt: int, draft: Draft, scale: int)

  /** The journal as values: points is empty between shots, whatever list it names then. */
  datatype State = State(
    records: seq<Record>, curve: seq<Point>, updatedAt: Option<int>,
    current: Option<Draft>, points: seq<Point>, started: Option<int>, last: Option<Sample>)

  /** One of the three shot modes and nothing else; ambiguity is not a normal shot. */
  predicate Normal(s: Sample) {
    s.state.Mode() == Mode.Profile || s.state.Mode() == Mode.Manual || s.state.Mode() == Mode.FreeVariable
  }

  lemma NormalIsActive(s: Sample)
    ensures Normal(s) ==> s.Active() && !s.Idle()
    ensures s.Idle() ==> !s.Active()
    ensures !s.Active() ==> !Normal(s)
  {}

  /** Exactly one of the three shot flags is set, no cleaning flag and no unknown coil. */
  lemma NormalExactly(s: Sample)
    ensures Normal(s) <==> s.state in {
      OperatingState(true, false, false, false, false), OperatingState(false, true, false, false, false),
      OperatingState(false, false, false, true, false)}
  {}

  predicate Dropped(a: Sample, b: Sample) {
    b.Timer() < a.Timer() || b.Volume() < a.Volume()
  }

  predicate Close(a: Sample, b: Sample) {
    0 <= b.at - a.at <= 2_000_000
  }

  function Max(a: int, b: int): (m: int)
    ensures m >= a && m >= b && (m == a || m == b)
  {
    if a < b then b else a
  }

  function PointOf(s: Sample, started: int): Point {
    Point(s.at - started, s.telemetry.pressure, s.Volume(), s.telemetry.scale)
  }

  // ----- one sample -----

  function Begun(j: State, s: Sample, coverage: Coverage): State {
    j.(current := Some(Draft(s.Timer(), 0, s.Volume(), s.source, coverage, 0)), started := Some(s.at), points := [])
  }

  /** A gap makes the shot sparse, and one poll makes it a polled shot. */
  function Judged(d: Draft, last: Option<Sample>, s: Sample): Draft {
    d.(coverage := if last.Some? && !Close(last.value, s) then Sparse else d.coverage,
       source := if s.source.Capture? then d.source else Poll)
  }

  function Measured(d: Draft, s: Sample): Draft {
    d.(duration := s.Timer(), peak := Max(d.peak, s.telemetry.pressure), pumped := Max(d.pumped, s.Volume()),
       samples := d.samples + 1)
  }

  /** An active sample of the shot in progress: a counter that went down discards what was before. */
  function Continued(j: State, s: Sample, previousActive: bool): State
    requires j.current.Some?
  {
    var d := j.current.value;
    if j.last.Some? && previousActive && Dropped(j.last.value, s)
    then j.(current := Some(Measured(d.(peak := 0, pumped := 0, samples := 0), s)), started := Some(s.at), points := [])
    else j.(current := Some(Measured(d, s)))
  }

  function Plotted(j: State, s: Sample): State
    requires j.current.Some? && j.started.Some?
  {
    if !(s.source.Capture? && j.current.value.source.Capture?) then j
    else if |j.points| < MAX_POINTS then j.(points := j.points + [PointOf(s, j.started.value)])
    else j.(current := Some(j.current.value.(coverage := Truncated)))
  }

  function Newest(records: seq<Record>): seq<Record> {
    if |records| <= MAX_RECORDS then records else records[|records| - MAX_RECORDS..]
  }

  function Ended(d: Draft, last: Option<Sample>, s: Sample): Record {
    var duration := if last.Some? && Close(last.value, s) && s.Timer() >= last.value.Timer() then s.Timer() else d.duration;
    Record(s.at, d.(duration := duration), s.telemetry.scale)
  }

  function Completed(j: State, s: Sample): State
    requires j.current.Some?
  {
    var d := j.current.value;
    j.(records := Newest(j.records + [Ended(d, j.last, s)]),
       curve := if d.source.Capture? then j.points else [],
       updatedAt := Some(s.at), current := None, points := [])
  }

  function Noted(j: State, s: Sample, previousActive: bool, initialized: bool): State
    requires j.current.Some? ==> j.started.Some?
  {
    var begun :=
      if Normal(s) && j.current.None?
      then Begun(j, s, if initialized && !previousActive then ObservedStart else Partial) else j;
    var done :=
      if begun.current.None? then begun
      else
        var judged := begun.(current := Some(Judged(begun.current.value, begun.last, s)));
        if Normal(s) then Plotted(Continued(judged, s, previousActive), s)
        else if s.Idle() then Completed(Plotted(judged, s), s)
        else judged.(current := None, points := []);
    done.(last := Some(s))
  }

  /** refine_volume: the tracker corrects the newest record, if it is the shot it means. */
  predicate Refines(j: State, endedAt: int) {
    j.records != [] && j.records[|j.records| - 1].endedAt == endedAt
  }

  /** The report of a capture sample also adds a point to a curve that has points and room. */
  predicate Plots(j: State, endedAt: int, s: Sample) {
    Refines(j, endedAt) && s.source.Capture? && j.curve != [] && |j.curve| < MAX_POINTS
  }

  /** The one report that raises a TypeError: the point needs a start time, and no shot has
      started since the journal was loaded. The volume has been corrected by then. */
  predicate Raises(j: State, endedAt: int, s: Sample) {
    Plots(j, endedAt, s) && j.started.None?
  }

  function Refined(j: State, endedAt: int, volume: int, s: Sample): State {
    if !Refines(j, endedAt) then j
    else
      var n := |j.records| - 1;
      var r := j.records[n];
      var k := j.(records := j.records[n := r.(draft := r.draft.(pumped := volume))]);
      if Plots(j, endedAt, s) && j.started.Some?
      then k.(curve := j.curve + [PointOf(s, j.started.value).(volume := volume)], updatedAt := Some(s.at))
      else k
  }

  // ----- bounds -----

  predicate Bounded(j: State) {
    && |j.records| <= MAX_RECORDS && |j.curve| <= MAX_POINTS && |j.points| <= MAX_POINTS
    && (j.current.Some? ==> j.started.Some?)
  }

  lemma NotedBounded(j: State, s: Sample, previousActive: bool, initialized: bool)
    requires Bounded(j)
    ensures Bounded(Noted(j, s, previousActive, initialized))
    ensures var k := Noted(j, s, previousActive, initialized);
      |k.records| <= 30 && |k.curve| <= 600 && |k.points| <= 600
  {}

  /** The newest thirty records, all of them when there are no more. */
  lemma NewestExactly(records: seq<Record>)
    ensures |Newest(records)| == (if |records| < 30 then |records| else 30)
    ensures Newest(records) == records[|records| - |Newest(records)|..]
  {}

  /** A correction changes the volume of the newest record and nothing else of the records, and
      only if that is the shot meant; a capture adds its point to a curve that has points and
      fewer than 600, with the time since the shot's start. */
  lemma RefinedExactly(j: State, endedAt: int, volume: int, s: Sample)
    ensures var k, n := Refined(j, endedAt, volume, s), |j.records|;
      if n == 0 || j.records[n - 1].endedAt != endedAt then k == j
      else
        && |k.records| == n && k.records[..n - 1] == j.records[..n - 1]
        && k.records[n - 1].draft.pumped == volume
        && k.records[n - 1] == j.records[n - 1].(draft := j.records[n - 1].draft.(pumped := volume))
        && (if s.source == Capture && 1 <= |j.curve| < 600 && j.started.Some? then
              && k.curve == j.curve + [Point(s.at - j.started.value, s.telemetry.pressure, volume, s.telemetry.scale)]
              && k.updatedAt == Some(s.at)
            else k.curve == j.curve && k.updatedAt == j.updatedAt)
  {}

  lemma RefinedBounded(j: State, endedAt: int, volume: int, s: Sample)
    requires Bounded(j)
    ensures Bounded(Refined(j, endedAt, volume, s))
  {}

  // ----- what a record means -----

  /** The first sample of the shot that is running at the end of h. */
  function Start(h: seq<Sample>): (i: nat)
    requires h != []
    ensures i < |h|
    decreases |h|
  {
    if |h| > 1 && Normal(h[|h| - 2]) then Start(h[..|h| - 1]) else |h| - 1
  }

  /** The first sample that counts: the start, or the latest one where a counter went down. */
  function Fresh(h: seq<Sample>): (i: nat)
    requires h != []
    ensures Start(h) <= i < |h|
    decreases |h|
  {
    if |h| > 1 && Normal(h[|h| - 2]) && !Dropped(h[|h| - 2], h[|h| - 1]) then Fresh(h[..|h| - 1]) else |h| - 1
  }

  predicate AllCaptured(h: seq<Sample>) {
    forall k | 0 <= k < |h| :: h[k].source.Capture?
  }

  predicate GapAt(h: seq<Sample>, k: nat)
    requires 0 < k < |h|
  {
    !Close(h[k - 1], h[k])
  }

  /** Some gap before or within the shot is not between zero and two seconds. */
  predicate BadGap(h: seq<Sample>)
    requires h != []
  {
    exists k | Start(h) <= k < |h| && k > 0 :: GapAt(h, k)
  }

  /** The running capture ran out of points at some time. */
  predicate Overflowed(h: seq<Sample>)
    requires h != []
    decreases |h|
  {
    || (AllCaptured(h[Start(h)..]) && |h| - Fresh(h) > MAX_POINTS)
    || (|h| > 1 && Normal(h[|h| - 2]) && Overflowed(h[..|h| - 1]))
  }

  function Curve(window: seq<Sample>): (points: seq<Point>)
    ensures |points| == |window|
    ensures forall k | 0 <= k < |window| :: points[k] == PointOf(window[k], window[0].at)
  {
    seq(|window|, k requires 0 <= k < |window| => PointOf(window[k], window[0].at))
  }

  function FirstPoints(points: seq<Point>): seq<Point> {
    if |points| <= MAX_POINTS then points else points[..MAX_POINTS]
  }

  /** The highest pressure of a window. */
  ghost predicate IsPeak(peak: int, window: seq<Sample>) {
    && (forall k | 0 <= k < |window| :: window[k].telemetry.pressure <= peak)
    && (exists k | 0 <= k < |window| :: window[k].telemetry.pressure == peak)
  }

  /** The amounts are those of the samples since the shot's counters last started. */
  ghost predicate Amounts(d: Draft, window: seq<Sample>)
    requires window != []
  {
    var last := window[|window| - 1];
    d.duration == last.Timer() && d.pumped == last.Volume() && d.samples == |window| && IsPeak(d.peak, window)
  }

  /** The source and the coverage are those of the whole shot. */
  predicate Quality(d: Draft, h: seq<Sample>)
    requires h != []
  {
    && (d.source.Capture? <==> AllCaptured(h[Start(h)..]))
    && (d.coverage.Sparse? || d.coverage.Truncated? <==> BadGap(h) || Overflowed(h))
    && (d.coverage.ObservedStart? ==> Start(h) > 0 && !h[Start(h) - 1].Active())
    && (d.coverage.Partial? ==> Start(h) == 0 || h[Start(h) - 1].Active())
  }

  ghost predicate Describes(d: Draft, h: seq<Sample>)
    requires h != []
  {
    Amounts(d, h[Fresh(h)..]) && Quality(d, h)
  }

  ghost predicate Measures(j: State, h: seq<Sample>) {
    && (h == [] ==> j.last.None? && j.current.None?)
    && (h != [] ==> j.last == Some(h[|h| - 1]) && (j.current.Some? <==> Normal(h[|h| - 1])))
    && (j.current.Some? ==>
          && Describes(j.current.value, h) && j.started == Some(h[Fresh(h)].at)
          && (j.current.value.source.Capture? ==> j.points == FirstPoints(Curve(h[Fresh(h)..]))))
  }

  lemma WindowMore(h: seq<Sample>, s: Sample)
    requires h != []
    ensures Start(h + [s]) == (if Normal(h[|h| - 1]) then Start(h) else |h|)
    ensures Fresh(h + [s]) == (if Normal(h[|h| - 1]) && !Dropped(h[|h| - 1], s) then Fresh(h) else |h|)
  {
    hide Normal, Dropped;
    assert (h + [s])[..|h|] == h;
  }

  lemma WindowGrows(h: seq<Sample>, s: Sample)
    requires h != []
    ensures (h + [s])[Fresh(h + [s])..] ==
      (if Normal(h[|h| - 1]) && !Dropped(h[|h| - 1], s) then h[Fresh(h)..] + [s] else [s])
  {
    hide Normal, Dropped, Start, Fresh;
    WindowMore(h, s);
  }

  lemma GapMore(h: seq<Sample>, s: Sample)
    requires h != []
    ensures BadGap(h + [s]) <==> (Normal(h[|h| - 1]) && BadGap(h)) || !Close(h[|h| - 1], s)
  {
    var more := h + [s];
    assert GapAt(more, |h|) == !Close(h[|h| - 1], s);
    forall k | 0 < k < |h| ensures GapAt(more, k) == GapAt(h, k) {}
    WindowMore(h, s);
    hide GapAt, Close, Normal, Start, Fresh;
    if Normal(h[|h| - 1]) && BadGap(h) {
      var k :| Start(h) <= k < |h| && k > 0 && GapAt(h, k);
      assert GapAt(more, k);
    }
  }

  lemma CapturedMore(h: seq<Sample>, s: Sample)
    requires h != [] && Normal(h[|h| - 1])
    ensures var more := h + [s];
      AllCaptured(more[Start(more)..]) <==> AllCaptured(h[Start(h)..]) && s.source.Capture?
  {
    hide Normal, Start;
    WindowMore(h, s);
    var more := h + [s];
    var rest := h[Start(h)..];
    assert more[Start(h)..] == rest + [s];
    assert (rest + [s])[|rest|] == s;
    assert forall k | 0 <= k < |rest| :: (rest + [s])[k] == rest[k];
  }

  lemma OverflowMore(h: seq<Sample>, s: Sample)
    requires h != []
    ensures var more := h + [s];
      Overflowed(more) <==> (AllCaptured(more[Start(more)..]) && |more| - Fresh(more) > MAX_POINTS)
                            || (Normal(h[|h| - 1]) && Overflowed(h))
  {
    hide AllCaptured;
    assert (h + [s])[..|h|] == h;
  }

  lemma PeakMore(peak: int, window: seq<Sample>, s: Sample)
    requires IsPeak(peak, window)
    ensures IsPeak(Max(peak, s.telemetry.pressure), window + [s])
  {
    var more := window + [s];
    var k :| 0 <= k < |window| && window[k].telemetry.pressure == peak;
    assert more[k].telemetry.pressure == peak && more[|window|] == s;
  }

  lemma CurveMore(window: seq<Sample>, s: Sample)
    requires window != []
    ensures Curve(window + [s]) == Curve(window) + [PointOf(s, window[0].at)]
    ensures FirstPoints(Curve(window + [s])) ==
      (if |FirstPoints(Curve(window))| < MAX_POINTS
       then FirstPoints(Curve(window)) + [PointOf(s, window[0].at)] else FirstPoints(Curve(window)))
  {
    hide PointOf;
    assert (window + [s])[0] == window[0];
  }

  /** The draft after the first sample of a shot. */
  function First(last: Option<Sample>, s: Sample, coverage: Coverage): Draft {
    Measured(Judged(Draft(s.Timer(), 0, s.Volume(), s.source, coverage, 0), last, s), s)
  }

  lemma FirstNoted(j: State, s: Sample, previousActive: bool, initialized: bool)
    requires j.current.None? && Normal(s)
    ensures var k := Noted(j, s, previousActive, initialized);
      && k.last == Some(s) && k.started == Some(s.at)
      && k.current == Some(First(j.last, s, if initialized && !previousActive then ObservedStart else Partial))
      && (k.current.value.source.Capture? ==> k.points == [PointOf(s, s.at)])
  {
    hide Normal, Close, PointOf, Dropped;
  }

  lemma FirstDescribes(last: Option<Sample>, h: seq<Sample>, s: Sample)
    requires last == (if h == [] then None else Some(h[|h| - 1])) && (h != [] ==> !Normal(h[|h| - 1]))
    ensures Describes(First(last, s, if h != [] && !h[|h| - 1].Active() then ObservedStart else Partial), h + [s])
    ensures Fresh(h + [s]) == |h|
  {
    hide Normal, Close, IsPeak;
    var more := h + [s];
    if h != [] {
      WindowMore(h, s);
      GapMore(h, s);
      OverflowMore(h, s);
      assert more[|h| - 1] == h[|h| - 1];
    }
    assert more[|h|..] == [s] && Start(more) == Fresh(more) == |h|;
    hide Start, Fresh;
    CapturedOne(s);
    hide AllCaptured;
    PeakOne(s);
  }

  lemma CapturedOne(s: Sample)
    ensures AllCaptured([s]) <==> s.source.Capture?
  {
    assert [s][0] == s;
  }

  lemma FirstDraft(j: State, h: seq<Sample>, s: Sample)
    requires Measures(j, h) && Normal(s) && (h == [] || !Normal(h[|h| - 1]))
    ensures Measures(Noted(j, s, h != [] && h[|h| - 1].Active(), h != []), h + [s])
  {
    hide Normal, Noted, First, Describes, PointOf, Fresh, FirstPoints, Curve;
    FirstNoted(j, s, h != [] && h[|h| - 1].Active(), h != []);
    FirstDescribes(j.last, h, s);
    assert (h + [s])[|h|..] == [s];
    CurveOne(s);
  }

  /** The draft after one more sample of a running shot; full: no point can be added. */
  function Next(d: Draft, last: Sample, s: Sample, full: bool): Draft {
    var judged := Judged(d, Some(last), s);
    var counted := Measured(if Dropped(last, s) then judged.(peak := 0, pumped := 0, samples := 0) else judged, s);
    if judged.source.Capture? && full then counted.(coverage := Truncated) else counted
  }

  lemma NextAmounts(d: Draft, window: seq<Sample>, last: Sample, s: Sample, full: bool)
    requires window != [] && last == window[|window| - 1] && Amounts(d, window)
    ensures Amounts(Next(d, last, s, full), if Dropped(last, s) then [s] else window + [s])
  {
    hide Close, IsPeak;
    PeakOne(s);
    PeakMore(d.peak, window, s);
  }

  lemma NextQuality(d: Draft, h: seq<Sample>, s: Sample, full: bool)
    requires h != [] && Normal(h[|h| - 1]) && Quality(d, h)
    requires full <==> !Dropped(h[|h| - 1], s) && |h| - Fresh(h) >= MAX_POINTS
    ensures Quality(Next(d, h[|h| - 1], s, full), h + [s])
  {
    hide Normal, Close, BadGap, Overflowed, Start, Fresh, AllCaptured, Dropped, Max;
    WindowMore(h, s);
    GapMore(h, s);
    OverflowMore(h, s);
    CapturedMore(h, s);
  }

  lemma NextDescribes(d: Draft, h: seq<Sample>, s: Sample, full: bool)
    requires h != [] && Normal(h[|h| - 1]) && Describes(d, h)
    requires full <==> !Dropped(h[|h| - 1], s) && |h| - Fresh(h) >= MAX_POINTS
    ensures Describes(Next(d, h[|h| - 1], s, full), h + [s])
  {
    hide Normal, Start, Fresh, Quality, Amounts, Next, Dropped;
    WindowGrows(h, s);
    NextAmounts(d, h[Fresh(h)..], h[|h| - 1], s, full);
    NextQuality(d, h, s, full);
  }

  lemma PeakOne(s: Sample)
    ensures IsPeak(Max(0, s.telemetry.pressure), [s])
  {
    assert [s][0] == s;
  }

  lemma RunningNoted(j: State, h: seq<Sample>, s: Sample)
    requires h != [] && Measures(j, h) && Normal(s) && Normal(h[|h| - 1])
    ensures var last := h[|h| - 1];
      var full := !Dropped(last, s) && |j.points| >= MAX_POINTS;
      var k := Noted(j, s, last.Active(), true);
      && k.last == Some(s) && k.current == Some(Next(j.current.value, last, s, full))
      && k.started == (if Dropped(last, s) then Some(s.at) else j.started)
      && (k.current.value.source.Capture? ==>
            (k.points == (if Dropped(last, s) then [PointOf(s, s.at)]
                          else if full then j.points else j.points + [PointOf(s, j.started.value)])))
  {
    NormalIsActive(h[|h| - 1]);
    hide Normal, Close, PointOf, Dropped, Describes;
  }

  lemma RunningDraft(j: State, h: seq<Sample>, s: Sample)
    requires h != [] && Measures(j, h) && Normal(s) && Normal(h[|h| - 1])
    ensures Measures(Noted(j, s, h[|h| - 1].Active(), true), h + [s])
  {
    var last, d := h[|h| - 1], j.current.value;
    var full := !Dropped(last, s) && |h| - Fresh(h) >= MAX_POINTS;
    RunningNoted(j, h, s);
    NextDescribes(d, h, s, full);
    NotFullEither(d, last, s, full);
    hide Normal, PointOf, Dropped, Noted, Describes, Next, Start, Fresh, FirstPoints, Curve;
    RunningPoints(h[Fresh(h)..], h, s);
    PointsCount(h[Fresh(h)..]);
  }

  lemma RunningPoints(window: seq<Sample>, h: seq<Sample>, s: Sample)
    requires h != [] && Normal(h[|h| - 1]) && window == h[Fresh(h)..]
    ensures var w := (h + [s])[Fresh(h + [s])..];
      && w[0].at == (if Dropped(h[|h| - 1], s) then s.at else window[0].at)
      && FirstPoints(Curve(w)) ==
           (if Dropped(h[|h| - 1], s) then [PointOf(s, s.at)]
            else if |window| >= MAX_POINTS then FirstPoints(Curve(window))
            else FirstPoints(Curve(window)) + [PointOf(s, window[0].at)])
  {
    WindowGrows(h, s);
    hide Normal, PointOf, Dropped, Start, Fresh, FirstPoints, Curve;
    if Dropped(h[|h| - 1], s) {
      CurveOne(s);
    } else {
      CurveMore(window, s);
      PointsCount(window);
    }
  }

  lemma NotFullEither(d: Draft, last: Sample, s: Sample, full: bool)
    ensures !d.source.Capture? ==> Next(d, last, s, full) == Next(d, last, s, !full)
    ensures Next(d, last, s, full).source.Capture? ==> d.source.Capture?
  {}

  lemma PointsCount(window: seq<Sample>)
    ensures |FirstPoints(Curve(window))| == (if |window| <= MAX_POINTS then |window| else MAX_POINTS)
  {}

  lemma CurveOne(s: Sample)
    ensures FirstPoints(Curve([s])) == [PointOf(s, s.at)]
  {
    assert Curve([s]) == [PointOf(s, s.at)];
  }

  /** Whatever was refined in between, a noted history is measured: the draft of a running
      shot always describes exactly the samples since its counters last started. */
  lemma MeasuresMore(j: State, h: seq<Sample>, s: Sample)
    requires Measures(j, h)
    ensures Measures(Noted(j, s, h != [] && h[|h| - 1].Active(), h != []), h + [s])
  {
    if !Normal(s) {
      hide Describes, Fresh;
    } else if h == [] || !Normal(h[|h| - 1]) {
      hide *;
      FirstDraft(j, h, s);
    } else {
      hide *;
      RunningDraft(j, h, s);
    }
  }

  lemma CompletedNoted(j: State, s: Sample, last: Sample)
    requires j.current.Some? && j.started.Some? && j.last == Some(last) && s.Idle()
    ensures var k, d := Noted(j, s, last.Active(), true), j.current.value;
      var captured := d.source.Capture? && s.source.Capture?;
      var full := |j.points| >= MAX_POINTS;
      && k.current.None? && k.records != [] && k.updatedAt == Some(s.at)
      && k.records == Newest(j.records + [k.records[|k.records| - 1]])
      && k.records[|k.records| - 1].endedAt == s.at && k.records[|k.records| - 1].scale == s.telemetry.scale
      && k.records[|k.records| - 1].draft == d.(
           duration := if Close(last, s) && s.Timer() >= last.Timer() then s.Timer() else d.duration,
           source := if captured then Capture else Poll,
           coverage := if captured && full then Truncated else if !Close(last, s) then Sparse else d.coverage)
      && k.curve == (if !captured then [] else if full then j.points else j.points + [PointOf(s, j.started.value)])
  {
    NormalIsActive(s);
    hide Close, PointOf;
  }

  /** A completed shot: the record counts the active samples since the counters last started,
      with their highest pressure and their last volume; the curve is their first 600 points
      and the completing one, and is kept only when every sample was captured. */
  lemma RecordOf(j: State, h: seq<Sample>, s: Sample)
    requires Measures(j, h) && h != [] && Normal(h[|h| - 1]) && s.Idle()
    ensures var last, window := h[|h| - 1], h[Fresh(h)..];
      var captured := AllCaptured(h[Start(h)..]) && s.source.Capture?;
      var k := Noted(j, s, last.Active(), true);
      && k.current.None? && k.updatedAt == Some(s.at)
      && k.records != [] && k.records == Newest(j.records + [k.records[|k.records| - 1]])
      && var r := k.records[|k.records| - 1];
      && r.endedAt == s.at && r.scale == s.telemetry.scale
      && r.draft.samples == |window| && r.draft.pumped == last.Volume() && IsPeak(r.draft.peak, window)
      && r.draft.duration == (if Close(last, s) && s.Timer() >= last.Timer() then s.Timer() else last.Timer())
      && (r.draft.source.Capture? <==> captured)
      && (r.draft.coverage.Sparse? || r.draft.coverage.Truncated? <==>
            (BadGap(h) || Overflowed(h) || !Close(last, s) || (captured && |window| >= MAX_POINTS)))
      && k.curve == (if captured then FirstPoints(Curve(window + [s])) else [])
  {
    hide Normal, Close, PointOf, Noted, Start, Fresh, FirstPoints, Curve, IsPeak, BadGap, Overflowed, AllCaptured, Newest;
    CompletedNoted(j, s, h[|h| - 1]);
    CurveMore(h[Fresh(h)..], s);
    PointsCount(h[Fresh(h)..]);
  }

  // ----- storage -----

  /** A stored record as found: a field is missing when it is absent, of another type, not
      finite, or not a known word. */
  datatype RawRecord = RawRecord(
    endedAt: Option<int>, duration: Option<int>, peak: Option<int>, pumped: Option<int>, scale: Option<int>,
    samples: Option<int>, source: Option<Source>, coverage: Option<Coverage>)

  /** A stored journal: records and curve are missing when they are not lists. */
  datatype Saved = Saved(records: Option<seq<RawRecord>>, curve: Option<seq<Option<Point>>>, updatedAt: Option<int>)

  predicate Whole(r: RawRecord) {
    && r.endedAt.Some? && r.duration.Some? && r.peak.Some? && r.pumped.Some? && r.scale.Some? && r.samples.Some?
    && r.source.Some? && r.coverage.Some?
  }

  function Read(r: RawRecord): Record
    requires Whole(r)
  {
    Record(r.endedAt.value,
           Draft(r.duration.value, r.peak.value, r.pumped.value, r.source.value, r.coverage.value, r.samples.value),
           r.scale.value)
  }

  function Raw(r: Record): RawRecord {
    RawRecord(Some(r.endedAt), Some(r.draft.duration), Some(r.draft.peak), Some(r.draft.pumped), Some(r.scale),
              Some(r.draft.samples), Some(r.draft.source), Some(r.draft.coverage))
  }

  /** The whole records, in order. */
  function Kept(raw: seq<RawRecord>): (records: seq<Record>)
    ensures |records| <= |raw|
  {
    if raw == [] then []
    else Kept(raw[..|raw| - 1]) + (if Whole(raw[|raw| - 1]) then [Read(raw[|raw| - 1])] else [])
  }

  function NewestRaw(raw: seq<RawRecord>): seq<RawRecord> {
    if |raw| <= MAX_RECORDS then raw else raw[|raw| - MAX_RECORDS..]
  }

  /** Records that are not whole are left out wherever they stand; the others keep their order. */
  lemma {:induction false} KeptAppend(a: seq<RawRecord>, b: seq<RawRecord>)
    ensures Kept(a + b) == Kept(a) + Kept(b)
    decreases |b|
  {
    hide Whole, Read;
    if b == [] {
      assert a + b == a;
    } else {
      var n := |b| - 1;
      assert (a + b)[..|a + b| - 1] == a + b[..n];
      KeptAppend(a, b[..n]);
    }
  }

  lemma KeptOne(raw: RawRecord)
    ensures Kept([raw]) == if Whole(raw) then [Read(raw)] else []
    ensures Whole(raw) ==> Raw(Read(raw)) == raw
  {
    assert [raw][..0] == [];
  }

  /** And so for the points of a curve. */
  lemma {:induction false} DrawnAppend(a: seq<Option<Point>>, b: seq<Option<Point>>)
    ensures Drawn(a + b) == Drawn(a) + Drawn(b)
    decreases |a|
  {
    if a == [] {
      assert a + b == b;
    } else {
      assert (a + b)[1..] == a[1..] + b;
      DrawnAppend(a[1..], b);
    }
  }

  function Drawn(points: seq<Option<Point>>): seq<Point> {
    if points == [] then [] else (if points[0].Some? then [points[0].value] else []) + Drawn(points[1..])
  }

  function Restored(j: State, data: Option<Saved>): State {
    if data.None? then j
    else
      var d := data.value;
      j.(records := if d.records.Some? then Kept(NewestRaw(d.records.value)) else j.records,
         curve := if d.curve.Some? then FirstPoints(Drawn(d.curve.value)) else j.curve,
         updatedAt := d.updatedAt)
  }

  function RawAll(records: seq<Record>): (raw: seq<RawRecord>)
    ensures |raw| == |records| && forall i | 0 <= i < |records| :: raw[i] == Raw(records[i])
  {
    seq(|records|, i requires 0 <= i < |records| => Raw(records[i]))
  }

  function SomeAll(points: seq<Point>): (raw: seq<Option<Point>>)
    ensures |raw| == |points| && forall i | 0 <= i < |points| :: raw[i] == Some(points[i])
  {
    seq(|points|, i requires 0 <= i < |points| => Some(points[i]))
  }

  function Dumped(j: State): Saved {
    Saved(Some(RawAll(j.records)), Some(SomeAll(j.curve)), j.updatedAt)
  }

  lemma {:induction false} KeptRaw(records: seq<Record>)
    ensures Kept(RawAll(records)) == records
  {
    if records != [] {
      var n := |records| - 1;
      assert RawAll(records)[..n] == RawAll(records[..n]);
      KeptRaw(records[..n]);
      assert records[..n] + [records[n]] == records;
    }
  }

  lemma {:induction false} DrawnSome(points: seq<Point>)
    ensures Drawn(SomeAll(points)) == points
  {
    if points != [] {
      assert SomeAll(points)[1..] == SomeAll(points[1..]);
      DrawnSome(points[1..]);
    }
  }

  /** A stored journal comes back as it was, into any journal that is not in a shot. */
  lemma DumpRestores(saved: State, j: State)
    requires Bounded(saved)
    ensures Restored(j, Some(Dumped(saved))) ==
      j.(records := saved.records, curve := saved.curve, updatedAt := saved.updatedAt)
  {
    KeptRaw(saved.records);
    DrawnSome(saved.curve);
  }

  /** Even a document of an old deployment is read within bounds. */
  lemma RestoredBounded(j: State, data: Option<Saved>)
    requires Bounded(j)
    ensures Bounded(Restored(j, data))
  {}

  // ----- the object -----

  /** A Python list of points: several fields may name the same one. */
  class PointList {
    var items: seq<Point>

    constructor (items: seq<Point>)
      ensures this.items == items
    {
      this.items := items;
    }

    method Append(point: Point)
      modifies this
      ensures items == old(items) + [point]
    {
      items := items + [point];
    }
  }

  class ShotJournal {
    var records: seq<Record>
    var latestCurve: PointList
    var updatedAt: Option<int>
    var current: Option<Draft>
    var points: PointList
    var started: Option<int>
    var last: Option<Sample>

    /** The list that a shot in progress fills is not the list of the previous curve. */
    ghost predicate Valid()
      reads this, points, latestCurve
    {
      Bounded(Now()) && (current.Some? ==> points != latestCurve)
    }

    ghost function Now(): State
      reads this, points, latestCurve
    {
      State(records, latestCurve.items, updatedAt, current, if current.Some? then points.items else [], started, last)
    }

    constructor ()
      ensures Valid() && fresh(points) && fresh(latestCurve)
      ensures Now() == State([], [], None, None, [], None, None)
    {
      records, updatedAt, current, started, last := [], None, None, None, None;
      points := new PointList([]);
      latestCurve := new PointList([]);
    }

    method Dump() returns (data: Saved)
      requires Valid()
      ensures data == Dumped(Now())
    {
      data := Saved(Some(RawAll(records)), Some(SomeAll(latestCurve.items)), updatedAt);
    }

    /** The records a document gives: the newest thirty, without the ones that are not whole. */
    method ReadRecords(raw: seq<RawRecord>) returns (kept: seq<Record>)
      ensures kept == Kept(NewestRaw(raw)) && |kept| <= MAX_RECORDS
    {
      var newest := NewestRaw(raw);
      kept := [];
      for i := 0 to |newest|
        invariant kept == Kept(newest[..i])
      {
        assert newest[..i + 1][..i] == newest[..i];
        if Whole(newest[i]) {
          kept := kept + [Read(newest[i])];
        }
      }
      assert newest[..|newest|] == newest;
    }

    method Restore(data: Option<Saved>)
      requires Valid()
      modifies this`records, this`latestCurve, this`updatedAt
      ensures Valid() && Now() == Restored(old(Now()), data)
      ensures latestCurve == old(latestCurve) || fresh(latestCurve)
    {
      RestoredBounded(Now(), data);
      if data.None? {
        return;
      }
      if data.value.records.Some? {
        records := ReadRecords(data.value.records.value);
      }
      if data.value.curve.Some? {
        latestCurve := new PointList(FirstPoints(Drawn(data.value.curve.value)));
      }
      updatedAt := data.value.updatedAt;
    }

    method Begin(s: Sample, coverage: Coverage)
      requires Valid() && current.None?
      modifies this`current, this`started, this`points
      ensures Valid() && Now() == Begun(old(Now()), s, coverage)
      ensures current.Some? && fresh(points)
    {
      current := Some(Draft(s.Timer(), 0, s.Volume(), s.source, coverage, 0));
      started := Some(s.at);
      points := new PointList([]);
    }

    method Judge(s: Sample)
      requires Valid() && current.Some?
      modifies this`current
      ensures Valid() && Now() == old(Now()).(current := Some(Judged(old(current).value, last, s)))
      ensures current.Some?
    {
      if last.Some? && !Close(last.value, s) {
        current := Some(current.value.(coverage := Sparse));
      }
      if s.source != Capture {
        current := Some(current.value.(source := Poll));
      }
    }

    method Continue(s: Sample, previousActive: bool)
      requires Valid() && current.Some?
      modifies this`current, this`started, this`points
      ensures Valid() && Now() == Continued(old(Now()), s, previousActive)
      ensures current.Some? && (points == old(points) || fresh(points))
    {
      if last.Some? && previousActive && Dropped(last.value, s) {
        points := new PointList([]);
        started := Some(s.at);
        current := Some(current.value.(peak := 0, pumped := 0, samples := 0));
      }
      var d := current.value;
      current := Some(d.(duration := s.Timer(), peak := Max(d.peak, s.telemetry.pressure),
                         pumped := Max(d.pumped, s.Volume()), samples := d.samples + 1));
    }

    method Plot(s: Sample)
      requires Valid() && current.Some?
      modifies this`current, points
      ensures Valid() && Now() == Plotted(old(Now()), s)
      ensures current.Some? && latestCurve.items == old(latestCurve.items)
    {
      if s.source.Capture? && current.value.source.Capture? {
        if |points.items| < MAX_POINTS {
          points.Append(PointOf(s, started.value));
        } else {
          current := Some(current.value.(coverage := Truncated));
        }
      }
    }

    /** The finished list of points becomes the latest curve; it is not copied. */
    method Complete(s: Sample)
      requires Valid() && current.Some?
      modifies this`current, this`records, this`latestCurve, this`updatedAt
      ensures Valid() && Now() == Completed(old(Now()), s)
      ensures latestCurve == points || fresh(latestCurve)
    {
      var d := current.value;
      if last.Some? && Close(last.value, s) && s.Timer() >= last.value.Timer() {
        d := d.(duration := s.Timer());
      }
      records := Newest(records + [Record(s.at, d, s.telemetry.scale)]);
      if d.source.Capture? {
        latestCurve := points;
      } else {
        latestCurve := new PointList([]);
      }
      updatedAt := Some(s.at);
      current := None;
    }

    /** A shot in progress writes only its own list: the previous curve stays what it was,
        and stays the latest one until the shot completes. */
    method Observe(s: Sample, previousActive: bool, initialized: bool)
      requires Valid()
      modifies this, if current.Some? then {points} else {}
      ensures Valid() && Now() == Noted(old(Now()), s, previousActive, initialized)
      ensures old(latestCurve).items == old(latestCurve.items)
      ensures latestCurve == old(latestCurve) || (s.Idle() && old(current).Some?)
      ensures points == old(points) || fresh(points)
      ensures latestCurve == old(latestCurve) || latestCurve == old(points) || fresh(latestCurve)
    {
      hide Begun, Judged, Continued, Plotted, Completed, Normal;
      if Normal(s) && current.None? {
        Begin(s, if initialized && !previousActive then ObservedStart else Partial);
      }
      if current.Some? {
        Judge(s);
        if Normal(s) {
          Continue(s, previousActive);
          Plot(s);
        } else if s.Idle() {
          Plot(s);
          Complete(s);
        } else {
          current := None;
          points := new PointList([]);
        }
      }
      last := Some(s);
    }

    /** The newest record gets the corrected volume in any case; the curve a point only when
        the start time is known. */
    method RefineVolume(endedAt: int, volume: int, s: Sample) returns (raised: bool)
      requires Valid()
      modifies this`records, this`updatedAt, latestCurve
      ensures Valid() && Now() == Refined(old(Now()), endedAt, volume, s)
      ensures raised <==> Raises(old(Now()), endedAt, s)
    {
      var n := |records| - 1;
      if n < 0 || records[n].endedAt != endedAt {
        return false;
      }
      records := records[n := records[n].(draft := records[n].draft.(pumped := volume))];
      if s.source.Capture? && latestCurve.items != [] && |latestCurve.items| < MAX_POINTS {
        if started.None? {
          return true;
        }
        latestCurve.Append(Point(s.at - started.value, s.telemetry.pressure, volume, s.telemetry.scale));
        updatedAt := Some(s.at);
      }
      return false;
    }
  }
}
