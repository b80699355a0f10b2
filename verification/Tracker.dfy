/** The activity tracker of activity.py as the object it is, with its journal: after any
    samples its fields are exactly what the history of samples says they should be. */
module Tracker {
  import opened Bytes
  import opened Outcomes
  import opened Decoding
  import opened Activity
  import J = Journal

  /** The durable facts. */
  datatype Totals = Totals(
    shots: nat, water: nat, lastShot: Option<int>, lastVolume: Option<nat>, lastCleaning: Option<int>)

  predicate CleaningEnds(h: seq<Sample>, k: nat)
    requires 0 < k < |h|
  {
    h[k - 1].state.cleaning && !h[k].state.cleaning
  }

  /** The latest sample at which the cleaning flag went off; zero when there was none. */
  function CleaningEnd(h: seq<Sample>): (i: nat)
    ensures i == 0 ==> forall k | 0 < k < |h| :: !CleaningEnds(h, k)
    ensures i > 0 ==> i < |h| && CleaningEnds(h, i) && forall k | i < k < |h| :: !CleaningEnds(h, k)
    decreases |h|
  {
    if |h| < 2 then 0
    else if CleaningEnds(h, |h| - 1) then |h| - 1
    else
      var i := CleaningEnd(h[..|h| - 1]);
      assert forall k | 0 < k < |h| - 1 :: CleaningEnds(h[..|h| - 1], k) == CleaningEnds(h, k);
      i
  }

  function LastCleaning(before: Option<int>, h: seq<Sample>): Option<int> {
    if CleaningEnd(h) > 0 then Some(h[CleaningEnd(h)].at) else before
  }

  /** What a tracker that was loaded with base must show after the samples h. */
  function Tally(base: Totals, h: seq<Sample>): Totals {
    var i := LastFall(h);
    Totals(
      base.shots + Observed(Shots, h), base.water + Observed(Water, h),
      if i > 0 then Some(h[i].at) else base.lastShot,
      if i > 0 then Some(ShotVolume(h, i)) else base.lastVolume,
      LastCleaning(base.lastCleaning, h))
  }

  /** The start and the timer of the tail that is still open after h. */
  function Tail(h: seq<Sample>): Option<(int, Word)> {
    var i := LastFall(h);
    if i > 0 && Opens(h, i) && TailEnd(h, i) == |h| - 1 then Some((h[i].at, h[i].Timer())) else None
  }

  function TailAfter(tail: Option<(int, Word)>, a: Sample, s: Sample): Option<(int, Word)> {
    if a.Active() && !s.Active() then
      if Calm(a, s) && s.Timer() >= a.Timer() then Some((s.at, s.Timer())) else None
    else if tail.Some? && Calm(a, s) && 0 <= s.at - tail.value.0 <= TAIL && s.Timer() == tail.value.1 then tail
    else None
  }

  /** The totals after one more sample, from the totals, the open tail and the sample before. */
  function Accounted(t: Totals, tail: Option<(int, Word)>, a: Sample, s: Sample): Totals {
    var ended := a.Active() && !s.Active();
    Totals(
      t.shots + Between(Shots, a, s), t.water + Between(Water, a, s),
      if ended then Some(s.at) else t.lastShot,
      if TailAfter(tail, a, s).Some? then Some(s.Volume()) else if ended then Some(a.Volume()) else t.lastVolume,
      if a.state.cleaning && !s.state.cleaning then Some(s.at) else t.lastCleaning)
  }

  lemma FallMore(h: seq<Sample>, s: Sample)
    requires h != [] && h[|h| - 1].Active() && !s.Active()
    ensures var a, more := h[|h| - 1], h + [s];
      && LastFall(more) == |h| && more[|h|] == s
      && ShotVolume(more, |h|) == (if Calm(a, s) && s.Timer() >= a.Timer() then s.Volume() else a.Volume())
      && Tail(more) == TailAfter(Tail(h), a, s)
  {
    LastFallMore(h, s);
    TailEndUnique(h + [s], |h|, |h|, |h|);
    hide Calm, TailEnd, LastFall;
  }

  lemma NoFallMore(h: seq<Sample>, s: Sample)
    requires h != [] && (!h[|h| - 1].Active() || s.Active())
    ensures var a, more, i := h[|h| - 1], h + [s], LastFall(h);
      && LastFall(more) == i && (i > 0 ==> more[i] == h[i])
      && (i > 0 ==> ShotVolume(more, i) == (if Tail(more).Some? then s.Volume() else ShotVolume(h, i)))
      && Tail(more) == TailAfter(Tail(h), a, s)
  {
    LastFallMore(h, s);
    var i := LastFall(h);
    if i > 0 {
      hide Calm, TailEnd, LastFall, Extends, Opens;
      TailEndMore(h, i, s);
      Same(h, i, s);
    }
  }

  lemma Same(h: seq<Sample>, i: nat, s: Sample)
    requires 0 < i < |h|
    ensures var a, more := h[|h| - 1], h + [s];
      && Opens(more, i) == Opens(h, i) && more[i] == h[i] && more[i - 1] == h[i - 1] && more[|h|] == s
      && Extends(more, i, |h|) == (Calm(a, s) && 0 <= s.at - h[i].at <= TAIL && s.Timer() == h[i].Timer())
      && forall k | 0 <= k < |h| :: more[k] == h[k]
  {
    hide Calm;
  }

  /** What an open tail says about the latest sample. */
  lemma TailOpen(base: Totals, h: seq<Sample>)
    requires Tail(h).Some?
    ensures h != [] && !h[|h| - 1].Active() && LastFall(h) > 0
    ensures Tally(base, h).lastVolume == Some(h[|h| - 1].Volume())
    ensures Tally(base, h).lastShot == Some(Tail(h).value.0)
  {
    hide Calm, LastFall, TailEnd, Opens, Observed, LastCleaning, Extends;
    var i := LastFall(h);
    if i < |h| - 1 { ExtendsIdle(h, i, |h| - 1); } else { assert Falls(h, i); }
  }

  lemma ExtendsIdle(h: seq<Sample>, i: nat, j: nat)
    requires 0 < i < j < |h| && Extends(h, i, j)
    ensures !h[j].Active()
  {
    J.NormalIsActive(h[j]);
  }

  /** The history says the same as the totals, the open tail and the latest sample alone. */
  lemma TallyMore(base: Totals, h: seq<Sample>, s: Sample)
    requires h != []
    ensures Tally(base, h + [s]) == Accounted(Tally(base, h), Tail(h), h[|h| - 1], s)
    ensures Tail(h + [s]) == TailAfter(Tail(h), h[|h| - 1], s)
  {
    hide Calm, ShotVolume, LastFall, TailEnd, Between, Observed, TailAfter;
    ObservedMore(Shots, h, s);
    ObservedMore(Water, h, s);
    assert (h + [s])[..|h|] == h;
    hide Tail;
    if h[|h| - 1].Active() && !s.Active() { FallMore(h, s); FallTail(h, s); }
    else { NoFallMore(h, s); NoFallTail(h, s); }
  }

  lemma TailStep(h: seq<Sample>, s: Sample)
    requires h != []
    ensures Tail(h + [s]) == TailAfter(Tail(h), h[|h| - 1], s)
    ensures Tail(h).Some? ==> !h[|h| - 1].Active()
  {
    hide Tail, TailAfter, Tally;
    TallyMore(NOTHING, h, s);
    if Tail(h).Some? { TailOpen(NOTHING, h); }
  }

  lemma FallTail(h: seq<Sample>, s: Sample)
    requires h != [] && h[|h| - 1].Active() && !s.Active()
    ensures Tail(h + [s]).Some? <==> Calm(h[|h| - 1], s) && s.Timer() >= h[|h| - 1].Timer()
  {
    hide Calm, Tail;
    FallMore(h, s);
  }

  lemma NoFallTail(h: seq<Sample>, s: Sample)
    requires h != [] && (!h[|h| - 1].Active() || s.Active())
    ensures Tail(h + [s]).Some? ==> LastFall(h) > 0
  {
    LastFallMore(h, s);
  }

  lemma TallyOne(base: Totals, s: Sample)
    ensures Tally(base, [s]) == base && Tail([s]) == None && Tally(base, []) == base && Tail([]) == None
  {}

  // ----- the journal beside the totals -----

  /** If the newest record is the tracker's last shot, both give the same volume. */
  predicate Agrees(records: seq<J.Record>, t: Totals) {
    records != [] && t.lastShot == Some(records[|records| - 1].endedAt) ==>
      (t.lastVolume.Some? && t.lastVolume.value == records[|records| - 1].draft.pumped)
  }

  /** The tracker has new facts about a completed shot for the journal. */
  predicate Reports(base: Totals, h: seq<Sample>, s: Sample)
    requires h != []
  {
    var a, u := h[|h| - 1], Tally(base, h + [s]);
    && (Between(Water, a, s) > 0 || (a.Active() && !s.Active()))
    && !s.Active() && u.lastShot.Some? && u.lastVolume.Some?
    && (u.lastShot.value == s.at || Tail(h + [s]).Some?)
  }

  function NotedNext(j: J.State, h: seq<Sample>, s: Sample): J.State
    requires J.Bounded(j)
  {
    J.Noted(j, s, h != [] && h[|h| - 1].Active(), h != [])
  }

  /** The journal after it has noted s and the tracker has reported. */
  function Reported(noted: J.State, base: Totals, h: seq<Sample>, s: Sample): J.State {
    var u := Tally(base, h + [s]);
    if h != [] && Reports(base, h, s)
    then J.Refined(noted, u.lastShot.value, u.lastVolume.value, s)
    else noted
  }

  function JournalAfter(j: J.State, base: Totals, h: seq<Sample>, s: Sample): J.State
    requires J.Bounded(j)
  {
    Reported(NotedNext(j, h, s), base, h, s)
  }

  /** The report of this sample raises in the source: see Journal.Raises. */
  predicate Fails(j: J.State, base: Totals, h: seq<Sample>, s: Sample)
    requires J.Bounded(j)
  {
    ReportRaises(NotedNext(j, h, s), base, h, s)
  }

  predicate ReportRaises(noted: J.State, base: Totals, h: seq<Sample>, s: Sample) {
    h != [] && Reports(base, h, s) && J.Raises(noted, Tally(base, h + [s]).lastShot.value, s)
  }

  /** agreed: the document that was loaded agreed with itself. */
  ghost predicate Joint(j: J.State, base: Totals, h: seq<Sample>, agreed: bool) {
    J.Bounded(j) && J.Measures(j, h) && (agreed ==> Agrees(j.records, Tally(base, h)))
  }

  /** A record is added only when a shot in progress meets an idle sample. */
  lemma NotedQuietly(j: J.State, s: Sample, previousActive: bool, initialized: bool)
    requires J.Bounded(j)
    ensures var k := J.Noted(j, s, previousActive, initialized);
      && (j.current.None? || !s.Idle() ==> k.records == j.records)
      && (k.started == j.started || k.started.Some?)
      && (j.current.Some? ==> k.started.Some?)
      && k.last == Some(s)
  {
    J.NormalIsActive(s);
    hide J.Normal, J.Judged, J.Measured, J.Ended, J.PointOf, J.Newest, J.Dropped;
  }

  /** Noting a sample adds a record only when the tracker sees a shot end as well. */
  lemma NotedRecords(j: J.State, h: seq<Sample>, s: Sample)
    requires J.Bounded(j) && J.Measures(j, h)
    ensures var k := NotedNext(j, h, s);
      && (k.records == j.records
          || (h != [] && h[|h| - 1].Active() && !s.Active() && k.records != [] && k.records[|k.records| - 1].endedAt == s.at
              && k.started.Some?))
      && (k.started == j.started || k.started.Some?)
      && k.last == Some(s)
  {
    hide J.Normal, J.Describes, J.Fresh, J.Curve, J.FirstPoints, J.Noted;
    NotedQuietly(j, s, h != [] && h[|h| - 1].Active(), h != []);
    if j.current.Some? && s.Idle() {
      J.NormalIsActive(h[|h| - 1]);
      J.NormalIsActive(s);
      J.CompletedNoted(j, s, h[|h| - 1]);
    }
  }

  /** Only a capture sample can fail, and only before the first shot since loading, on a
      restored record and curve: once a shot has started no report raises any more. */
  lemma FailsOnlyFresh(j: J.State, base: Totals, h: seq<Sample>, s: Sample)
    requires Joint(j, base, h, false) && Fails(j, base, h, s)
    ensures j.started.None? && s.source.Capture? && j.curve != [] && j.records != []
    ensures Tally(base, h + [s]).lastShot == Some(j.records[|j.records| - 1].endedAt)
  {
    hide J.Measures, Tally, Tail, Reports, J.Noted;
    NotedRecords(j, h, s);
    ReportsKnow(base, h, s);
    NotedCurve(j, h, s);
  }

  /** A curve is replaced only when a shot completes. */
  lemma NotedCurve(j: J.State, h: seq<Sample>, s: Sample)
    requires J.Bounded(j)
    ensures j.current.None? ==> NotedNext(j, h, s).curve == j.curve
    ensures j.current.Some? ==> j.started.Some?
  {
    J.NormalIsActive(s);
    hide J.Normal, J.Judged, J.Measured, J.Ended, J.PointOf, J.Newest, J.Dropped;
  }

  /** A tail that is open after s was open before it, unless s completed the shot. */
  lemma TailWas(h: seq<Sample>, s: Sample)
    requires h != []
    ensures Tail(h + [s]).Some? ==> Tail(h).Some? || (h[|h| - 1].Active() && !s.Active())
  {
    hide Tail, Calm;
    if h[|h| - 1].Active() && !s.Active() {} else { NoFallMore(h, s); }
  }

  lemma RefinedAgrees(j: J.State, t: Totals, s: Sample)
    requires t.lastShot.Some? && t.lastVolume.Some?
    ensures Agrees(J.Refined(j, t.lastShot.value, t.lastVolume.value, s).records, t)
  {}

  /** Refining touches the newest record and the curve, nothing else. */
  lemma RefinedKeeps(j: J.State, endedAt: int, volume: int, s: Sample)
    ensures var k := J.Refined(j, endedAt, volume, s);
      && k.current == j.current && k.points == j.points && k.started == j.started && k.last == j.last
      && |k.records| == |j.records|
      && (forall i | 0 <= i < |j.records| - 1 :: k.records[i] == j.records[i])
      && forall i | 0 <= i < |j.records| :: k.records[i].endedAt == j.records[i].endedAt
  {
    hide J.PointOf;
  }

  lemma MeasuredAfter(j: J.State, k: J.State, h: seq<Sample>)
    requires J.Measures(j, h)
    requires k.current == j.current && k.points == j.points && k.started == j.started && k.last == j.last
    ensures J.Measures(k, h)
  {
    hide J.Describes, J.Fresh, J.Curve, J.FirstPoints;
  }

  lemma AgreesQuietly(j: J.State, base: Totals, h: seq<Sample>, s: Sample)
    requires h != [] && Joint(j, base, h, true) && !Reports(base, h, s)
    ensures Agrees(NotedNext(j, h, s).records, Tally(base, h + [s]))
  {
    hide J.Measures, J.Bounded, Tally, Tail, TailAfter, NotedNext;
    var a, t, u := h[|h| - 1], Tally(base, h), Tally(base, h + [s]);
    NotedRecords(j, h, s);
    TallyMore(base, h, s);
    if Tail(h + [s]).Some? {
      TailOpen(base, h + [s]);
      TailWas(h, s);
      if Tail(h).Some? { TailOpen(base, h); TailGrows(h, s); }
    }
  }

  lemma TailGrows(h: seq<Sample>, s: Sample)
    requires h != [] && Tail(h + [s]).Some?
    ensures s.Volume() >= h[|h| - 1].Volume() && !s.Active()
  {
    hide Tail;
    TailStep(h, s);
    J.NormalIsActive(s);
  }

  /** Journal and tracker agree in every reachable state: they do before the first sample,
      and every sample keeps it, whatever it shows and whenever it comes. */
  lemma JointMore(j: J.State, base: Totals, h: seq<Sample>, s: Sample, agreed: bool)
    requires Joint(j, base, h, agreed)
    ensures Joint(JournalAfter(j, base, h, s), base, h + [s], agreed)
  {
    hide J.Measures, J.Bounded, Tally, Tail, Reports, J.Noted, J.Refined, J.Refines, Agrees;
    J.NotedBounded(j, s, h != [] && h[|h| - 1].Active(), h != []);
    J.MeasuresMore(j, h, s);
    var k, u := NotedNext(j, h, s), Tally(base, h + [s]);
    if h == [] {
      TallyOne(base, s);
      assert [] + [s] == [s];
      NotedRecords(j, h, s);
    } else if Reports(base, h, s) {
      ReportsKnow(base, h, s);
      J.RefinedBounded(k, u.lastShot.value, u.lastVolume.value, s);
      RefinedKeeps(k, u.lastShot.value, u.lastVolume.value, s);
      MeasuredAfter(k, J.Refined(k, u.lastShot.value, u.lastVolume.value, s), h + [s]);
      RefinedAgrees(k, u, s);
    } else if agreed {
      AgreesQuietly(j, base, h, s);
    }
  }

  lemma ReportsKnow(base: Totals, h: seq<Sample>, s: Sample)
    requires h != [] && Reports(base, h, s)
    ensures Tally(base, h + [s]).lastShot.Some? && Tally(base, h + [s]).lastVolume.Some?
  {}

  lemma JointFacts(j: J.State, base: Totals, h: seq<Sample>, s: Sample, agreed: bool)
    requires Joint(j, base, h, agreed)
    ensures var k := JournalAfter(j, base, h, s);
      Joint(k, base, h + [s], agreed) && (agreed ==> Agrees(k.records, Tally(base, h + [s])))
  {
    hide Tally, Tail, J.Noted, J.Measures, J.Bounded, Agrees, Reported;
    JointMore(j, base, h, s, agreed);
  }

  lemma AgreesIgnoresCleaning(records: seq<J.Record>, t: Totals, at: Option<int>)
    ensures Agrees(records, t) == Agrees(records, t.(lastCleaning := at))
  {}

  // ----- storage -----

  /** A stored document; a field is missing when it is absent or not of the right kind. */
  datatype Stored = Stored(
    journal: Option<J.Saved>, shots: Option<nat>, water: Option<nat>, volume: Option<nat>,
    lastShot: Option<int>, lastCleaning: Option<int>)

  function Loaded(t: Totals, data: Option<Stored>): Totals {
    if data.None? then t
    else
      var d := data.value;
      Totals(
        if d.shots.Some? then d.shots.value else t.shots, if d.water.Some? then d.water.value else t.water,
        d.lastShot, if d.volume.Some? then d.volume else t.lastVolume, d.lastCleaning)
  }

  function Saved(t: Totals, j: J.State): Stored {
    Stored(Some(J.Dumped(j)), Some(t.shots), Some(t.water), t.lastVolume, t.lastShot, t.lastCleaning)
  }

  const NOTHING := Totals(0, 0, None, None, None)
  const BLANK := J.State([], [], None, None, [], None, None)

  /** A new tracker that loads what another saved shows the same totals, records and curve,
      and still agrees with its journal; the tail and the running shot are forgotten. */
  lemma ReloadKeeps(t: Totals, j: J.State)
    requires J.Bounded(j) && Agrees(j.records, t)
    ensures Loaded(NOTHING, Some(Saved(t, j))) == t
    ensures var k := J.Restored(BLANK, Some(J.Dumped(j)));
      && k.records == j.records && k.curve == j.curve && k.updatedAt == j.updatedAt
      && Joint(k, t, [], true)
  {
    J.DumpRestores(j, BLANK);
    TallyOne(t, Sample(Telemetry(0, false, 0, 0, 0), OperatingState(false, false, false, false, false), 0, Poll));
  }

  lemma TailOne(s: Sample)
    ensures Tail([s]).None?
  {}

  /** Whether the durable facts change. */
  predicate Changes(a: Sample, s: Sample) {
    || Between(Shots, a, s) > 0 || Between(Water, a, s) > 0 || (a.Active() && !s.Active())
    || (a.state.cleaning && !s.state.cleaning)
  }

  lemma ShotsNotReported(a: Sample, s: Sample)
    ensures Between(Shots, a, s) > 0 ==> s.Active()
  {}

  /** A sample that is said to change nothing changes no total, and the journal is not told; a
      sample that adds water or a shot is said to change something. */
  lemma ChangesExactly(base: Totals, h: seq<Sample>, s: Sample)
    requires h != []
    ensures !Changes(h[|h| - 1], s) ==> Tally(base, h + [s]) == Tally(base, h) && !Reports(base, h, s)
    ensures Tally(base, h + [s]).water > Tally(base, h).water || Tally(base, h + [s]).shots > Tally(base, h).shots
      ==> Changes(h[|h| - 1], s)
  {
    hide Tally, Tail, Calm, Between;
    TallyMore(base, h, s);
    TailWas(h, s);
    if !Changes(h[|h| - 1], s) && Tail(h + [s]).Some? {
      TailOpen(base, h);
      TailGrows(h, s);
      SameWater(h[|h| - 1], s);
    }
  }

  lemma SameWater(a: Sample, s: Sample)
    requires s.Volume() >= a.Volume() && Between(Water, a, s) == 0
    ensures s.Volume() == a.Volume()
  {}

  lemma FirstTally(base: Totals, h: seq<Sample>, s: Sample)
    requires h == []
    ensures h + [s] == [s] && Tally(base, h + [s]) == Tally(base, h) && Tail(h).None?
  {
    TallyOne(base, s);
    assert [] + [s] == [s];
  }

  lemma LastCleaningMore(base: Totals, h: seq<Sample>, s: Sample)
    requires h != []
    ensures Tally(base, h + [s]).lastCleaning ==
      if h[|h| - 1].state.cleaning && !s.state.cleaning then Some(s.at) else Tally(base, h).lastCleaning
  {
    hide Tally, Tail;
    TallyMore(base, h, s);
  }

  lemma CalmMeans(a: Sample, s: Sample)
    ensures Calm(a, s) ==> !s.Active() && s.Volume() >= a.Volume()
  {
    J.NormalIsActive(s);
  }

  lemma BlankJoint(t: Totals, j: J.State)
    requires J.Bounded(j) && j.current.None? && j.last.None?
    ensures Joint(j, t, [], Agrees(j.records, t)) && Tally(t, []) == t && Tail([]).None?
  {}

  lemma BlankStart()
    ensures Joint(BLANK, NOTHING, [], true) && Tally(NOTHING, []) == NOTHING && Tail([]).None?
  {
    hide Joint, Tally, Tail;
    BlankJoint(NOTHING, BLANK);
  }

  lemma LoadedNothing(t: Totals)
    ensures Loaded(t, None) == t
  {}

  lemma LoadJoint(j: J.State, base: Totals, agreed: bool, data: Option<J.Saved>, t: Totals)
    requires Joint(j, base, [], agreed)
    ensures var k := J.Restored(j, data);
      Joint(k, t, [], Agrees(k.records, t)) && Tally(t, []) == t && Tail([]).None? && Tally(base, []) == base
  {
    J.RestoredBounded(j, data);
    BlankJoint(t, J.Restored(j, data));
  }

  // ----- the object -----

  class ActivityTracker {
    var observedShots: nat
    var observedWater: nat
    var lastShot: Option<int>
    var lastShotVolume: Option<nat>
    var lastCleaning: Option<int>
    var shotActive: bool
    var cleaningActive: bool
    const journal: J.ShotJournal
    var initialized: bool
    var previousVolume: Option<nat>
    var peak: int
    var previousAt: Option<int>
    var previousTimer: Option<nat>
    var tailStartedAt: Option<int>
    var tailTimer: Option<nat>
    /** The totals as loaded, whether they agreed with the journal, and every sample since. */
    ghost var base: Totals
    ghost var agreed: bool
    ghost var history: seq<Sample>

    ghost function Durable(): Totals
      reads this`observedShots, this`observedWater, this`lastShot, this`lastShotVolume, this`lastCleaning
    {
      Totals(observedShots, observedWater, lastShot, lastShotVolume, lastCleaning)
    }

    /** The runtime fields remember the latest sample and the open tail. */
    ghost predicate Remembers(h: seq<Sample>)
      reads this`initialized, this`shotActive, this`cleaningActive, this`previousVolume, this`peak
      reads this`tailStartedAt, this`tailTimer
    {
      && (h == [] ==> !initialized && !shotActive && !cleaningActive && previousVolume.None? && peak == 0)
      && (h != [] ==>
            var a := h[|h| - 1];
            initialized && shotActive == a.Active() && cleaningActive == a.state.cleaning
            && previousVolume == Some(a.Volume()) && peak == (if a.Active() then a.Volume() else 0))
      && HoldsTail(Tail(h))
    }

    ghost predicate Clocks(h: seq<Sample>)
      reads this`previousAt, this`previousTimer
    {
      if h == [] then previousAt.None? && previousTimer.None?
      else previousAt == Some(h[|h| - 1].at) && previousTimer == Some(h[|h| - 1].Timer())
    }

    ghost predicate Valid()
      reads this, journal, journal.points, journal.latestCurve
    {
      && journal.Valid() && Durable() == Tally(base, history) && Remembers(history) && Clocks(history)
      && Joint(journal.Now(), base, history, agreed)
    }

    constructor ()
      ensures Valid() && history == [] && Durable() == NOTHING && journal.Now() == BLANK
      ensures fresh(journal) && fresh(journal.points) && fresh(journal.latestCurve)
    {
      hide Joint, Tally, Tail, J.Bounded, Agrees;
      observedShots, observedWater, lastShot, lastShotVolume, lastCleaning := 0, 0, None, None, None;
      shotActive, cleaningActive, initialized, peak := false, false, false, 0;
      previousVolume, previousAt, previousTimer, tailStartedAt, tailTimer := None, None, None, None, None;
      journal := new J.ShotJournal();
      base, agreed, history := NOTHING, true, [];
      new;
      BlankStart();
    }

    method LoadTotals(d: Stored)
      modifies this`observedShots, this`observedWater, this`lastShot, this`lastShotVolume, this`lastCleaning
      ensures Durable() == Loaded(old(Durable()), Some(d))
    {
      if d.shots.Some? {
        observedShots := d.shots.value;
      }
      if d.water.Some? {
        observedWater := d.water.value;
      }
      if d.volume.Some? {
        lastShotVolume := d.volume;
      }
      lastShot, lastCleaning := d.lastShot, d.lastCleaning;
    }

    /** async_load, before the first sample; any document is read. */
    method Load(data: Option<Stored>)
      requires Valid() && history == []
      modifies this, journal
      ensures Valid() && history == [] && Durable() == Loaded(old(Durable()), data)
      ensures journal.Now() == if data.Some? then J.Restored(old(journal.Now()), data.value.journal) else old(journal.Now())
      ensures agreed == if data.Some? then Agrees(journal.Now().records, Durable()) else old(agreed)
    {
      hide J.Restored, Joint, Tally, Tail, Agrees, Loaded, J.ShotJournal.Valid, J.ShotJournal.Now, Remembers, Durable;
      if data.None? {
        assert Loaded(Durable(), data) == Durable() by { LoadedNothing(Durable()); }
        return;
      }
      LoadJoint(journal.Now(), base, agreed, data.value.journal, Loaded(Durable(), data));
      journal.Restore(data.value.journal);
      LoadTotals(data.value);
      base, agreed := Durable(), Agrees(journal.Now().records, Durable());
    }

    method Dump() returns (data: Stored)
      requires Valid()
      ensures data == Saved(Durable(), journal.Now())
    {
      var j := journal.Dump();
      data := Stored(Some(j), Some(observedShots), Some(observedWater), lastShotVolume, lastShot, lastCleaning);
    }

    ghost predicate HoldsTail(tail: Option<(int, Word)>)
      reads this`tailStartedAt, this`tailTimer
    {
      && tailStartedAt.Some? == tail.Some?
      && (tail.Some? ==> tailStartedAt == Some(tail.value.0) && tailTimer == Some(tail.value.1))
    }

    /** Unless the sample completes a shot, what is left is the tail of the longer history:
        the window closes for good exactly when the maximal tail has ended. */
    method CloseTail(s: Sample, calm: bool, ghost h: seq<Sample>)
      requires h != [] && HoldsTail(Tail(h)) && calm == Calm(h[|h| - 1], s)
      modifies this`tailStartedAt
      ensures !(h[|h| - 1].Active() && !s.Active()) ==> HoldsTail(Tail(h + [s]))
      ensures h[|h| - 1].Active() ==> HoldsTail(None)
    {
      hide Calm, Tail;
      TailStep(h, s);
      if tailStartedAt.Some? {
        var age := s.at - tailStartedAt.value;
        if !calm || !(0 <= age <= TAIL) || Some(s.Timer()) != tailTimer {
          tailStartedAt := None;
        }
      }
    }

    method ContinuousIdle(s: Sample, gap: Option<int>) returns (calm: bool)
      ensures calm == (s.Idle() && !s.telemetry.alarm && gap.Some? && 0 <= gap.value <= TAIL_MAX_SAMPLE_GAP
                       && previousVolume.Some? && s.Volume() >= previousVolume.value)
    {
      calm := s.Idle() && !s.telemetry.alarm && gap.Some? && 0 <= gap.value <= TAIL_MAX_SAMPLE_GAP
        && previousVolume.Some? && s.Volume() >= previousVolume.value;
    }

    /** The total grows as the total over the history does. */
    method CountWater(s: Sample, ghost h: seq<Sample>) returns (added: bool)
      requires h != [] && previousVolume == Some(h[|h| - 1].Volume())
      modifies this`observedWater
      ensures observedWater - old(observedWater) == Observed(Water, h + [s]) - Observed(Water, h)
      ensures added <==> Observed(Water, h + [s]) > Observed(Water, h)
    {
      ObservedMore(Water, h, s);
      var delta := if s.Volume() >= previousVolume.value then s.Volume() - previousVolume.value else s.Volume();
      added := delta > 0;
      if added {
        observedWater := observedWater + delta;
      }
    }

    /** While a shot runs its peak is the latest counter; the first inactive sample completes it. */
    method FollowShot(s: Sample, calm: bool, before: Option<nat>) returns (ended: bool)
      requires shotActive ==> previousVolume.Some? && before.Some? && peak == previousVolume.value >= 0
      requires !shotActive ==> peak == if s.Active() then s.Volume() else 0
      modifies this`peak, this`lastShot, this`lastShotVolume, this`tailStartedAt, this`tailTimer
      ensures ended == (shotActive && !s.Active())
      ensures peak == if s.Active() then s.Volume() else 0
      ensures lastShot == if ended then Some(s.at) else old(lastShot)
      ensures lastShotVolume == if ended then Some(old(peak)) else old(lastShotVolume)
      ensures var opens := ended && calm && s.Timer() >= before.value;
        && tailStartedAt == (if opens then Some(s.at) else old(tailStartedAt))
        && tailTimer == (if opens then Some(s.Timer()) else old(tailTimer))
    {
      ended := false;
      if s.Active() {
        if shotActive && previousVolume.Some?
           && (s.Volume() < previousVolume.value || (before.Some? && s.Timer() < before.value))
        {
          peak := 0;
        }
        peak := J.Max(peak, s.Volume());
      } else if shotActive {
        ended := true;
        lastShot, lastShotVolume := Some(s.at), Some(peak);
        peak := 0;
        if calm && before.Some? && s.Timer() >= before.value {
          tailStartedAt, tailTimer := Some(s.at), Some(s.Timer());
        }
      }
    }

    /** Everything after the first sample, up to the report to the journal. */
    method Account(s: Sample, gap: Option<int>, before: Option<nat>, ghost h: seq<Sample>, ghost a: Sample)
      returns (changed: bool)
      requires h != [] && a == h[|h| - 1]
      requires shotActive == a.Active() && previousVolume == Some(a.Volume()) && before == Some(a.Timer())
      requires gap == Some(s.at - a.at) && peak == (if a.Active() then a.Volume() else 0)
      requires HoldsTail(Tail(h)) && (Tail(h).Some? ==> !a.Active() && lastShotVolume == Some(a.Volume()))
      modifies this`observedShots, this`observedWater, this`lastShot, this`lastShotVolume
      modifies this`peak, this`tailStartedAt, this`tailTimer
      ensures Durable() == Accounted(old(Durable()), Tail(h), a, s).(lastCleaning := lastCleaning)
      ensures HoldsTail(Tail(h + [s]))
      ensures peak == if s.Active() then s.Volume() else 0
      ensures changed <==> Between(Shots, a, s) > 0 || Between(Water, a, s) > 0 || (a.Active() && !s.Active())
    {
      hide Tail;
      var calm := ContinuousIdle(s, gap);
      assert calm == Calm(a, s);
      CalmMeans(a, s);
      TailStep(h, s);
      ObservedMore(Water, h, s);
      hide Calm, Observed;
      changed := false;
      if s.Active() && !shotActive {
        observedShots := observedShots + 1;
        peak := s.Volume();
        changed := true;
      }
      CloseTail(s, calm, h);
      if previousVolume.Some? {
        var added := CountWater(s, h);
        changed := changed || added;
      }
      var ended := FollowShot(s, calm, before);
      changed := changed || ended;
      if tailStartedAt.Some? && lastShotVolume.Some? && s.Volume() > lastShotVolume.value {
        lastShotVolume := Some(s.Volume());
        changed := true;
      }
    }

    /** The first sample only starts the comparison. */
    method FirstSample(s: Sample, ghost h: seq<Sample>) returns (changed: bool)
      requires h == [] && Durable() == Tally(base, h) && HoldsTail(Tail(h))
      modifies this`initialized, this`shotActive, this`cleaningActive, this`previousVolume, this`peak
      ensures Durable() == Tally(base, h + [s]) && Remembers(h + [s])
      ensures journal.Now() == Reported(journal.Now(), base, h, s) && !changed
    {
      hide Tally, Tail, HoldsTail;
      FirstTally(base, h, s);
      TailOne(s);
      initialized, shotActive, cleaningActive := true, s.Active(), s.state.cleaning;
      previousVolume := Some(s.Volume());
      peak := if s.Active() then s.Volume() else 0;
      changed := false;
    }

    predicate Reporting(s: Sample, changed: bool)
      reads this`lastShot, this`lastShotVolume, this`tailStartedAt
    {
      && lastShot.Some? && lastShotVolume.Some? && changed && !s.Active()
      && (lastShot.value == s.at || tailStartedAt.Some?)
    }

    method Report(s: Sample, changed: bool) returns (raised: bool)
      requires journal.Valid()
      modifies journal`records, journal`updatedAt, journal.latestCurve
      ensures journal.Valid()
      ensures journal.Now() ==
        if Reporting(s, changed) then J.Refined(old(journal.Now()), lastShot.value, lastShotVolume.value, s)
        else old(journal.Now())
      ensures raised == (Reporting(s, changed) && J.Raises(old(journal.Now()), lastShot.value, s))
    {
      hide J.ShotJournal.Valid, J.Refines, J.Refined, J.Raises;
      raised := false;
      if Reporting(s, changed) {
        raised := journal.RefineVolume(lastShot.value, lastShotVolume.value, s);
      }
    }

    /** Totals, tail and peak take the sample in, and the journal hears of it. */
    method CountAndReport(s: Sample, gap: Option<int>, before: Option<nat>, ghost h: seq<Sample>)
      returns (changed: bool, raised: bool)
      requires h != [] && Durable() == Tally(base, h) && Remembers(h) && journal.Valid()
      requires gap == Some(s.at - h[|h| - 1].at) && before == Some(h[|h| - 1].Timer())
      modifies this`observedShots, this`observedWater, this`lastShot, this`lastShotVolume
      modifies this`peak, this`tailStartedAt, this`tailTimer
      modifies journal`records, journal`updatedAt, journal.latestCurve
      ensures Durable() == Tally(base, h + [s]).(lastCleaning := lastCleaning)
      ensures HoldsTail(Tail(h + [s])) && peak == (if s.Active() then s.Volume() else 0) && journal.Valid()
      ensures journal.Now() == Reported(old(journal.Now()), base, h, s)
      ensures raised == ReportRaises(old(journal.Now()), base, h, s)
      ensures var a := h[|h| - 1];
        changed == (Between(Shots, a, s) > 0 || Between(Water, a, s) > 0 || (a.Active() && !s.Active()))
    {
      hide J.ShotJournal.Valid, J.ShotJournal.Now, J.Refined, J.Raises, Tally, Tail, TailAfter, Between, Accounted;
      ghost var a := h[|h| - 1];
      TallyMore(base, h, s);
      if Tail(h).Some? { TailOpen(base, h); }
      changed := Account(s, gap, before, h, a);
      ShotsNotReported(a, s);
      raised := Report(s, changed);
    }

    /** The end of a cleaning, and what the next sample will be compared with. */
    method Finish(s: Sample, counted: bool, ghost h: seq<Sample>) returns (changed: bool)
      requires h != [] && initialized && cleaningActive == h[|h| - 1].state.cleaning
      requires Durable() == Tally(base, h + [s]).(lastCleaning := lastCleaning)
      requires Tally(base, h + [s]).lastCleaning ==
        if h[|h| - 1].state.cleaning && !s.state.cleaning then Some(s.at) else lastCleaning
      requires HoldsTail(Tail(h + [s])) && peak == (if s.Active() then s.Volume() else 0)
      modifies this`lastCleaning, this`shotActive, this`cleaningActive, this`previousVolume
      ensures Durable() == Tally(base, h + [s]) && Remembers(h + [s])
      ensures changed == (counted || (h[|h| - 1].state.cleaning && !s.state.cleaning))
    {
      hide Tally, Tail, HoldsTail;
      changed := counted;
      if cleaningActive && !s.state.cleaning {
        lastCleaning := Some(s.at);
        changed := true;
      }
      shotActive, cleaningActive, previousVolume := s.Active(), s.state.cleaning, Some(s.Volume());
    }

    /** Every sample but the first. */
    method NextSample(s: Sample, gap: Option<int>, before: Option<nat>, ghost h: seq<Sample>)
      returns (changed: bool, raised: bool)
      requires h != [] && Durable() == Tally(base, h) && Remembers(h) && journal.Valid()
      requires gap == Some(s.at - h[|h| - 1].at) && before == Some(h[|h| - 1].Timer())
      modifies this`observedShots, this`observedWater, this`lastShot, this`lastShotVolume, this`lastCleaning
      modifies this`peak, this`tailStartedAt, this`tailTimer, this`shotActive, this`cleaningActive, this`previousVolume
      modifies journal`records, journal`updatedAt, journal.latestCurve
      ensures journal.Valid() && journal.Now() == Reported(old(journal.Now()), base, h, s)
      ensures raised == ReportRaises(old(journal.Now()), base, h, s)
      ensures !raised ==> Durable() == Tally(base, h + [s]) && Remembers(h + [s]) && changed == Changes(h[|h| - 1], s)
      ensures raised ==> Durable() == Tally(base, h + [s]).(lastCleaning := old(lastCleaning))
    {
      hide J.ShotJournal.Valid, J.ShotJournal.Now, J.Refined, J.Refines, J.Bounded;
      hide Tally, Tail, Between, Reports, HoldsTail, Reported, ReportRaises;
      LastCleaningMore(base, h, s);
      assert lastCleaning == Tally(base, h).lastCleaning;
      assert initialized && cleaningActive == h[|h| - 1].state.cleaning;
      var counted: bool;
      counted, raised := CountAndReport(s, gap, before, h);
      changed := counted;
      if raised {
        return;
      }
      hide Durable, Remembers;
      changed := Finish(s, counted, h);
    }

    /** What follows once the journal has noted the sample. */
    method Follow(s: Sample) returns (changed: bool, raised: bool)
      requires Durable() == Tally(base, history) && Remembers(history) && Clocks(history) && journal.Valid()
      modifies this, journal`records, journal`updatedAt, journal.latestCurve
      ensures base == old(base) && agreed == old(agreed)
      ensures journal.Valid() && journal.Now() == Reported(old(journal.Now()), base, old(history), s)
      ensures raised == ReportRaises(old(journal.Now()), base, old(history), s)
      ensures !raised ==>
        && history == old(history) + [s] && Durable() == Tally(base, history) && Remembers(history) && Clocks(history)
        && changed == (old(history) != [] && Changes(old(history)[|old(history)| - 1], s))
      ensures raised ==> Durable() == Tally(base, old(history) + [s]).(lastCleaning := old(lastCleaning))
    {
      hide J.ShotJournal.Valid, J.ShotJournal.Now, J.Refined, J.Raises, J.Bounded;
      hide Tally, Tail, Reports, Reported, HoldsTail, Durable, Changes;
      ghost var h := history;
      assert initialized == (h != []) && HoldsTail(Tail(h));
      hide Remembers;
      var gap := if previousAt.Some? then Some(s.at - previousAt.value) else None;
      var before := previousTimer;
      previousAt, previousTimer := Some(s.at), Some(s.Timer());
      raised := false;
      if !initialized {
        changed := FirstSample(s, h);
      } else {
        hide ReportRaises;
        changed, raised := NextSample(s, gap, before, h);
        if raised {
          return;
        }
      }
      history := history + [s];
    }

    /** After any sample the totals are those of the whole history, the journal has noted it,
        and the two agree whenever they did when they were loaded. In the one case in which
        the source raises, all this holds but for the end of a cleaning and the comparison
        with the next sample. */
    method Observe(s: Sample) returns (changed: bool, raised: bool)
      requires Valid()
      modifies this, journal, journal.points, journal.latestCurve
      ensures base == old(base) && agreed == old(agreed) && journal.Valid()
      ensures journal.Now() == JournalAfter(old(journal.Now()), base, old(history), s)
      ensures agreed ==> Agrees(journal.Now().records, Durable())
      ensures raised == Fails(old(journal.Now()), base, old(history), s)
      ensures !raised ==>
        && Valid() && history == old(history) + [s] && Durable() == Tally(base, history)
        && changed == (old(history) != [] && Changes(old(history)[|old(history)| - 1], s))
      ensures raised ==> Durable() == Tally(base, old(history) + [s]).(lastCleaning := old(lastCleaning))
    {
      hide J.ShotJournal.Valid, J.ShotJournal.Now, J.Noted, J.Refined, J.Bounded;
      hide Joint, Reported, Tally, Tail, Agrees, ReportRaises, Reports, HoldsTail, Changes, Durable;
      JointFacts(journal.Now(), base, history, s, agreed);
      assert shotActive == (history != [] && history[|history| - 1].Active()) && initialized == (history != []);
      hide Remembers, Clocks;
      journal.Observe(s, shotActive, initialized);
      changed, raised := Follow(s);
      ghost var h := old(history) + [s];
      AgreesIgnoresCleaning(journal.Now().records, Tally(base, h), old(lastCleaning));
    }
  }
}
