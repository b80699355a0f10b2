/** What the activity tracker of activity.py claims, stated over the whole history of samples:
    totals that are true lower bounds, and the volume of the latest completed shot. */
module Activity {
  import opened Bytes
  import opened Outcomes
  import opened Decoding

  /** Shot-tail policy, in microseconds. */
  const TAIL := 5_000_000
  const TAIL_MAX_SAMPLE_GAP := 2_000_000

  datatype Source = Poll | Capture

  /** One validated sample; at is the instant it was observed, in microseconds. */
  datatype Sample = Sample(telemetry: Telemetry, state: OperatingState, at: int, source: Source) {
    predicate Active() { state.profile || state.manual || state.freeVariable }

    predicate Idle() { state.Mode() == Mode.Idle }

    function Volume(): Word { telemetry.volume }

    function Timer(): Word { telemetry.brewTime }
  }

  // ----- totals -----

  datatype Quantity = Water | Shots

  /** What two consecutive samples add. A counter that went down was reset to zero between
      them, so what it shows now is new. */
  function Between(q: Quantity, a: Sample, b: Sample): nat {
    match q
    case Water => if b.Volume() >= a.Volume() then b.Volume() - a.Volume() else b.Volume()
    case Shots => if !a.Active() && b.Active() then 1 else 0
  }

  function Observed(q: Quantity, h: seq<Sample>): nat
    decreases |h|
  {
    if |h| < 2 then 0 else Observed(q, h[..|h| - 1]) + Between(q, h[|h| - 2], h[|h| - 1])
  }

  lemma ObservedMore(q: Quantity, h: seq<Sample>, s: Sample)
    requires h != []
    ensures Observed(q, h + [s]) == Observed(q, h) + Between(q, h[|h| - 1], s)
  {
    assert (h + [s])[..|h|] == h;
  }

  /** Skipping a sample never adds. */
  lemma Triangle(q: Quantity, a: Sample, b: Sample, c: Sample)
    ensures Between(q, a, c) <= Between(q, a, b) + Between(q, b, c)
    ensures Between(q, a, a) == 0
  {}

  lemma {:induction false} Span(q: Quantity, h: seq<Sample>)
    requires h != []
    ensures Between(q, h[0], h[|h| - 1]) <= Observed(q, h)
    decreases |h|
  {
    hide Between;
    if |h| == 1 {
      Triangle(q, h[0], h[0], h[0]);
    } else {
      var prefix := h[..|h| - 1];
      Span(q, prefix);
      Triangle(q, h[0], h[|h| - 2], h[|h| - 1]);
    }
  }

  lemma {:induction false} Split(q: Quantity, h: seq<Sample>, k: nat)
    requires k < |h|
    ensures Observed(q, h) == Observed(q, h[..k + 1]) + Observed(q, h[k..])
    decreases |h|
  {
    hide Between;
    if k == |h| - 1 {
      assert h[..k + 1] == h;
    } else {
      var prefix := h[..|h| - 1];
      Split(q, prefix, k);
      assert prefix[..k + 1] == h[..k + 1];
      assert h[k..][..|h| - k - 1] == prefix[k..];
    }
  }

  predicate Picks(p: seq<nat>, n: nat) {
    && (forall i | 0 <= i < |p| :: p[i] < n)
    && (forall i, j | 0 <= i < j < |p| :: p[i] < p[j])
  }

  /** The samples a sparser sampling would have kept. */
  function Pick(h: seq<Sample>, p: seq<nat>): (kept: seq<Sample>)
    requires Picks(p, |h|)
    ensures |kept| == |p| && forall i | 0 <= i < |p| :: kept[i] == h[p[i]]
  {
    seq(|p|, i requires 0 <= i < |p| => h[p[i]])
  }

  /** Sampling more densely never lowers a total. */
  lemma {:induction false} Denser(q: Quantity, h: seq<Sample>, p: seq<nat>)
    requires Picks(p, |h|)
    ensures Observed(q, Pick(h, p)) <= Observed(q, h)
    decreases |p|
  {
    hide Between;
    if |p| >= 2 {
      var n := |p|;
      var i, j := p[n - 2], p[n - 1];
      Denser(q, h[..i + 1], p[..n - 1]);
      assert Pick(h[..i + 1], p[..n - 1]) == Pick(h, p)[..n - 1];
      Span(q, h[i..j + 1]);
      Split(q, h[..j + 1], i);
      assert h[..j + 1][..i + 1] == h[..i + 1] && h[..j + 1][i..] == h[i..j + 1];
      Split(q, h, j);
    }
  }

  // ----- a machine nobody sees in full -----

  /** The counter register, whether a shot runs, and what really happened so far. */
  datatype Moment = Moment(counter: Word, running: bool, pumped: nat, shots: nat)

  /** The machine pumps (its register wraps at sixteen bits), resets its counter to zero, or
      starts or ends a shot. */
  predicate Next(a: Moment, b: Moment) {
    || (b.pumped >= a.pumped && b == a.(pumped := b.pumped, counter := (a.counter + b.pumped - a.pumped) % 0x10000))
    || b == a.(counter := 0)
    || b == a.(running := !a.running, shots := a.shots + (if a.running then 0 else 1))
  }

  predicate Trace(m: seq<Moment>) {
    forall i | 0 <= i < |m| - 1 :: Next(m[i], m[i + 1])
  }

  predicate Sees(s: Sample, m: Moment) {
    s.Volume() == m.counter && s.Active() == m.running
  }

  function Truth(q: Quantity, m: Moment): nat {
    match q
    case Water => m.pumped
    case Shots => m.shots
  }

  /** Since moment a, either every pumped millilitre shows in the counter of b, or the counter
      of b shows at most what was pumped since; and a start left its mark. */
  predicate Later(a: Moment, b: Moment) {
    && b.pumped >= a.pumped && b.shots >= a.shots
    && (b.counter - a.counter == b.pumped - a.pumped || b.counter <= b.pumped - a.pumped)
    && (!a.running && b.running ==> b.shots > a.shots)
  }

  lemma LaterNext(a: Moment, b: Moment, c: Moment)
    requires Later(a, b) && Next(b, c)
    ensures Later(a, c)
  {}

  lemma {:induction false} TraceLater(m: seq<Moment>, i: nat, j: nat)
    requires Trace(m) && i <= j < |m|
    ensures Later(m[i], m[j])
    decreases j
  {
    hide Next, Later;
    if i < j {
      TraceLater(m, i, j - 1);
      LaterNext(m[i], m[j - 1], m[j]);
    } else {
      LaterSelf(m[i]);
    }
  }

  lemma LaterSelf(a: Moment)
    ensures Later(a, a)
  {}

  lemma BetweenTrue(q: Quantity, a: Moment, b: Moment, s: Sample, t: Sample)
    requires Later(a, b) && Sees(s, a) && Sees(t, b)
    ensures Between(q, s, t) <= Truth(q, b) - Truth(q, a)
  {}

  /** For every machine and every sampling of it, the observed water is at most the water
      really pumped since the first sample, and the observed shots at most the shots started. */
  lemma {:induction false} LowerBound(q: Quantity, h: seq<Sample>, m: seq<Moment>, p: seq<nat>)
    requires Trace(m) && |h| == |p| > 0
    requires forall i | 0 <= i < |p| :: p[i] < |m| && Sees(h[i], m[p[i]])
    requires forall i, j | 0 <= i < j < |p| :: p[i] <= p[j]
    ensures Observed(q, h) <= Truth(q, m[p[|p| - 1]]) - Truth(q, m[p[0]])
    decreases |h|
  {
    hide Trace, Next, Later, Truth, Between, Sees;
    if |h| > 1 {
      var n := |h|;
      LowerBound(q, h[..n - 1], m, p[..n - 1]);
      TraceLater(m, p[n - 2], p[n - 1]);
      BetweenTrue(q, m[p[n - 2]], m[p[n - 1]], h[n - 2], h[n - 1]);
    }
  }

  /** m and p are a machine and a sampling of it that show exactly h. */
  ghost predicate Samples(h: seq<Sample>, m: seq<Moment>, p: seq<nat>) {
    && Trace(m) && |p| == |h| > 0
    && (forall i | 0 <= i < |p| :: p[i] < |m| && Sees(h[i], m[p[i]]))
    && (forall i, j | 0 <= i < j < |p| :: p[i] <= p[j])
  }

  /** The moments that lead from one sample to the next with nothing wasted: a counter that
      went down is reset, the rest is pumped, and the shot is started or ended. */
  function Thrifty(a: Moment, s: Sample): (m: seq<Moment>)
    ensures |m| == 3
  {
    var reset := if s.Volume() < a.counter then a.(counter := 0) else a;
    var pumped := reset.(counter := s.Volume(), pumped := a.pumped + s.Volume() - reset.counter);
    [reset, pumped, if s.Active() == a.running then pumped
                    else pumped.(running := s.Active(), shots := a.shots + (if a.running then 0 else 1))]
  }

  lemma ThriftySteps(a: Moment, s: Sample)
    ensures var m := Thrifty(a, s); Next(a, m[0]) && Next(m[0], m[1]) && Next(m[1], m[2]) && Sees(s, m[2])
  {
    var m := Thrifty(a, s);
    assert m[0] == a || m[0] == a.(counter := 0);
  }

  lemma ThriftyExact(a: Moment, s: Sample, t: Sample)
    requires Sees(s, a)
    ensures forall q: Quantity :: Truth(q, Thrifty(a, t)[2]) - Truth(q, a) == Between(q, s, t)
  {}

  lemma TraceMore(m: seq<Moment>, more: seq<Moment>)
    requires Trace(m) && m != [] && |more| == 3
    requires Next(m[|m| - 1], more[0]) && Next(more[0], more[1]) && Next(more[1], more[2])
    ensures Trace(m + more)
  {
    hide Next;
    var all := m + more;
    forall i | 0 <= i < |all| - 1 ensures Next(all[i], all[i + 1]) {
      if i < |m| - 1 { assert Next(m[i], m[i + 1]); }
    }
  }

  /** The bounds are tight: whatever was sampled, some machine did exactly what was observed,
      in water and in shots, so no larger total would be sound. */
  lemma {:induction false} Tight(h: seq<Sample>) returns (m: seq<Moment>, p: seq<nat>)
    requires h != []
    ensures Samples(h, m, p)
    ensures forall q: Quantity :: Observed(q, h) == Truth(q, m[p[|p| - 1]]) - Truth(q, m[p[0]])
    decreases |h|
  {
    hide Trace, Next, Truth, Between, Thrifty, Sees;
    if |h| == 1 {
      m, p := [FirstMoment(h[0])], [0];
      TraceOne(h[0]);
    } else {
      var n := |h| - 1;
      var m0, p0 := Tight(h[..n]);
      var a := m0[p0[n - 1]];
      var start := m0[..p0[n - 1] + 1];
      var more := Thrifty(a, h[n]);
      TracePrefix(m0, p0[n - 1] + 1);
      ThriftySteps(a, h[n]);
      ThriftyExact(a, h[n - 1], h[n]);
      TraceMore(start, more);
      m, p := start + more, p0 + [|start| + 2];
      forall q: Quantity ensures Observed(q, h) == Observed(q, h[..n]) + Between(q, h[n - 1], h[n]) {
        assert h[..n] + [h[n]] == h;
        ObservedMore(q, h[..n], h[n]);
      }
    }
  }

  function FirstMoment(s: Sample): Moment { Moment(s.Volume(), s.Active(), 0, 0) }

  lemma TraceOne(s: Sample)
    ensures Trace([FirstMoment(s)]) && Sees(s, FirstMoment(s))
  {}

  lemma TracePrefix(m: seq<Moment>, n: nat)
    requires Trace(m) && n <= |m|
    ensures Trace(m[..n])
  {
    hide Next;
  }

  // ----- the latest completed shot -----

  predicate Falls(h: seq<Sample>, i: nat)
    requires 0 < i < |h|
  {
    h[i - 1].Active() && !h[i].Active()
  }

  /** The sample that completed the latest shot; zero when none did. */
  function LastFall(h: seq<Sample>): (i: nat)
    ensures i == 0 ==> forall k | 0 < k < |h| :: !Falls(h, k)
    ensures i > 0 ==> i < |h| && Falls(h, i) && forall k | i < k < |h| :: !Falls(h, k)
    decreases |h|
  {
    if |h| < 2 then 0
    else if Falls(h, |h| - 1) then |h| - 1
    else
      var i := LastFall(h[..|h| - 1]);
      assert forall k | 0 < k < |h| - 1 :: Falls(h[..|h| - 1], k) == Falls(h, k);
      i
  }

  /** Nothing but settling water can explain b after a. */
  predicate Calm(a: Sample, b: Sample) {
    b.Idle() && !b.telemetry.alarm && 0 <= b.at - a.at <= TAIL_MAX_SAMPLE_GAP && b.Volume() >= a.Volume()
  }

  predicate Opens(h: seq<Sample>, i: nat)
    requires 0 < i < |h|
  {
    Calm(h[i - 1], h[i]) && h[i].Timer() >= h[i - 1].Timer()
  }

  predicate Extends(h: seq<Sample>, i: nat, j: nat)
    requires 0 < i < j < |h|
  {
    Calm(h[j - 1], h[j]) && 0 <= h[j].at - h[i].at <= TAIL && h[j].Timer() == h[i].Timer()
  }

  /** The last sample of the maximal tail of the shot that sample i completed. */
  function TailEnd(h: seq<Sample>, i: nat, from: nat := i): (j: nat)
    requires 0 < i <= from < |h|
    ensures from <= j < |h|
    ensures forall k | from < k <= j :: Extends(h, i, k)
    ensures j + 1 < |h| ==> !Extends(h, i, j + 1)
    decreases |h| - from
  {
    if from + 1 < |h| && Extends(h, i, from + 1) then TailEnd(h, i, from + 1) else from
  }

  /** The counter at the end of the tail, or at the last active sample when there is no tail. */
  function ShotVolume(h: seq<Sample>, i: nat): Word
    requires 0 < i < |h|
  {
    if Opens(h, i) then h[TailEnd(h, i)].Volume() else h[i - 1].Volume()
  }

  /** The tail is the longest: any run of extending samples that stops is the tail. */
  lemma {:induction false} TailEndUnique(h: seq<Sample>, i: nat, from: nat, j: nat)
    requires 0 < i <= from <= j < |h|
    requires forall k | from < k <= j :: Extends(h, i, k)
    requires j + 1 < |h| ==> !Extends(h, i, j + 1)
    ensures TailEnd(h, i, from) == j
    decreases |h| - from
  {
    hide Extends;
    if from < j { TailEndUnique(h, i, from + 1, j); }
  }

  /** One more sample extends an open tail or leaves the tail as it is. */
  lemma TailEndMore(h: seq<Sample>, i: nat, s: Sample)
    requires 0 < i < |h|
    ensures TailEnd(h + [s], i) ==
      (if TailEnd(h, i) == |h| - 1 && Extends(h + [s], i, |h|) then |h| else TailEnd(h, i))
  {
    hide Calm;
    var j := TailEnd(h, i);
    var more := h + [s];
    forall k | i < k <= j ensures Extends(more, i, k) { assert Extends(h, i, k); }
    if j < |h| - 1 { assert Extends(more, i, j + 1) == Extends(h, i, j + 1); }
    hide Extends;
    TailEndUnique(more, i, i, if j == |h| - 1 && Extends(more, i, |h|) then |h| else j);
  }

  /** A closed tail never reopens, whatever is sampled later. */
  lemma {:induction false} NeverReopens(h: seq<Sample>, i: nat, more: seq<Sample>)
    requires 0 < i < |h| && TailEnd(h, i) < |h| - 1
    ensures TailEnd(h + more, i) == TailEnd(h, i)
    ensures ShotVolume(h + more, i) == ShotVolume(h, i)
    decreases |more|
  {
    hide Extends, Calm;
    if more == [] {
      assert h + more == h;
    } else {
      var last := more[|more| - 1];
      NeverReopens(h, i, more[..|more| - 1]);
      TailEndMore(h + more[..|more| - 1], i, last);
      assert h + more[..|more| - 1] + [last] == h + more;
    }
  }

  /** During its tail a shot keeps its end time and the count of shots stands still, while
      its volume only grows. */
  lemma {:induction false} TailKeeps(h: seq<Sample>, i: nat, j: nat)
    requires 0 < i <= j < |h| && Falls(h, i) && Opens(h, i) && j <= TailEnd(h, i)
    ensures LastFall(h[..j + 1]) == i
    ensures Observed(Shots, h[..j + 1]) == Observed(Shots, h[..i])
    ensures h[i - 1].Volume() <= h[i].Volume() <= h[j].Volume()
    ensures ShotVolume(h[..j + 1], i) == h[j].Volume()
    ensures !h[j].Active()
    decreases j
  {
    var g := h[..j + 1];
    TailPrefix(h, i, j);
    if j == i {
      assert g[..i] == h[..i];
    } else {
      TailKeeps(h, i, j - 1);
      assert Extends(h, i, j);
      assert g[..j] == h[..j];
    }
  }

  lemma TailPrefix(h: seq<Sample>, i: nat, j: nat)
    requires 0 < i <= j < |h| && j <= TailEnd(h, i)
    ensures TailEnd(h[..j + 1], i) == j && Opens(h[..j + 1], i) == Opens(h, i)
  {
    hide Calm;
    var g := h[..j + 1];
    forall k | i < k <= j ensures Extends(g, i, k) { assert Extends(h, i, k); }
    TailEndUnique(g, i, i, j);
  }

  /** At sample k the water only settles: it is idle without alarm, at most two seconds after
      the sample before and not below it, at most five seconds after sample i, and the timer
      stands still since then. */
  predicate SettlesAt(h: seq<Sample>, i: nat, k: nat)
    requires 0 < i <= k < |h|
  {
    && h[k].state == OperatingState(false, false, false, false, false) && !h[k].telemetry.alarm
    && 0 <= h[k].at - h[k - 1].at <= 2_000_000 && h[k].Volume() >= h[k - 1].Volume()
    && h[k].Timer() == h[i].Timer() && 0 <= h[k].at - h[i].at <= 5_000_000
  }

  /** From sample i, which completed a shot and did not turn the timer back, to sample j the
      water only settles. */
  predicate Settling(h: seq<Sample>, i: nat, j: nat)
    requires 0 < i <= j < |h|
  {
    h[i].Timer() >= h[i - 1].Timer() && forall k | i <= k <= j :: SettlesAt(h, i, k)
  }

  lemma IdleFlags(s: Sample)
    ensures s.Idle() <==> s.state == OperatingState(false, false, false, false, false)
  {}

  lemma SettlesAtMeans(h: seq<Sample>, i: nat, k: nat)
    requires 0 < i <= k < |h|
    ensures SettlesAt(h, i, k) <==> (if k == i then Calm(h[i - 1], h[i]) else Extends(h, i, k))
  {
    IdleFlags(h[k]);
    hide Sample.Idle;
  }

  lemma SettlingStep(h: seq<Sample>, i: nat, j: nat)
    requires 0 < i <= j < |h|
    ensures Settling(h, i, i) <==> Opens(h, i)
    ensures j > i ==> (Settling(h, i, j) <==> Settling(h, i, j - 1) && Extends(h, i, j))
  {
    hide SettlesAt, Extends, Calm;
    SettlesAtMeans(h, i, i);
    SettlesAtMeans(h, i, j);
  }

  lemma {:induction false} SettlingMeans(h: seq<Sample>, i: nat, j: nat)
    requires 0 < i <= j < |h|
    ensures Settling(h, i, j) <==> Opens(h, i) && j <= TailEnd(h, i)
    decreases j
  {
    hide Settling, Opens, Extends;
    SettlingStep(h, i, j);
    if j > i {
      SettlingMeans(h, i, j - 1);
      if Opens(h, i) && j - 1 == TailEnd(h, i) { assert !Extends(h, i, j); }
    }
  }

  /** The volume of a completed shot: the counter where the water stopped settling, and the
      last counter of the running shot when it never settled. */
  lemma ShotVolumeExactly(h: seq<Sample>, i: nat, j: nat)
    requires 0 < i <= j < |h|
    ensures Settling(h, i, j) && (j + 1 < |h| ==> !Settling(h, i, j + 1)) ==> ShotVolume(h, i) == h[j].Volume()
    ensures !Settling(h, i, i) ==> ShotVolume(h, i) == h[i - 1].Volume()
  {
    hide Settling, Opens, Extends;
    SettlingMeans(h, i, i);
    SettlingMeans(h, i, j);
    if j + 1 < |h| { SettlingMeans(h, i, j + 1); }
  }

  lemma LastFallMore(h: seq<Sample>, s: Sample)
    ensures LastFall(h + [s]) == (if h != [] && h[|h| - 1].Active() && !s.Active() then |h| else LastFall(h))
  {
    assert (h + [s])[..|h|] == h;
  }
}
