/** The two guarded toggles: the stored profile and the cleaning program
    (control_session.py lines 219-256, cleaning.py, control.py lines 79-184). */
module Starts {
  import opened Bytes
  import opened Outcomes
  import opened Reads
  import opened Commands
  import opened Decoding
  import opened Machine
  import opened Boiler
  import opened Profile

  /** What a start may have sent when it ends without confirmation. Only the death of the
      process can leave a press without its release. */
  ghost predicate Pulsed(before: seq<Deed>, after: seq<Deed>, kind: Kind, d: Locks, died: bool) {
    || after == before
    || after == before + [Sent(kind.Release(), d)]
    || after == before + [Sent(kind.Press(), d), Sent(kind.Release(), d)]
    || (died && after == before + [Sent(kind.Press(), d)])
  }

  /** A confirmation rests on an accepted state reply that names the running mode. */
  ghost predicate ShowsMode(frame: Frame, mode: Mode) {
    IsReply(frame, ReadState) && DecodeOperatingState(frame).Success? && DecodeOperatingState(frame).value.Mode() == mode
  }

  ghost predicate Started(before: seq<Deed>, after: seq<Deed>, kind: Kind, d: Locks) {
    && |after| == |before| + 3
    && after[|before| + 2].Confirmed?
    && after == before + [Sent(kind.Press(), d), Sent(kind.Release(), d), Confirmed(kind, after[|before| + 2].state)]
    && ShowsMode(after[|before| + 2].state, kind.Running())
  }

  lemma PressEffect(kind: Kind)
    ensures forall memory: Memory :: Effect(memory, kind.Press()) == memory
  {}

  /** The try and finally around a press. */
  method Pulse(link: Link, kind: Kind) returns (r: Result<()>)
    modifies link`failed, link.world`env, link.world`cancelled, link.world`deeds, link.world`readings
    ensures r != Failure(Rejected)
    ensures Pulsed(old(link.world.deeds), link.world.deeds, kind, link.world.disk, r == Failure(Died))
    ensures r.Success? ==>
      var d := link.world.disk;
      link.world.deeds == old(link.world.deeds) + [Sent(kind.Press(), d), Sent(kind.Release(), d)]
    // a machine that answers takes the press and nothing else
    ensures old(link.Reliable()) ==>
      && r.Success? && link.Reliable() && link.world.env.memory == old(link.world.env).memory
      && link.world.env.coils == Swing(old(link.world.env).coils, kind.Press())
  {
    hide IsReply, HonestReply, Swing, Effect;
    PressEffect(kind);
    r := Success(());
    var pressed := link.Transact(kind.Press());
    if pressed.Success? {
      r := link.Sleep();
    } else {
      r := Failure(pressed.error);
    }
    if r == Failure(Died) {
      return;
    }
    var released := link.ReleasePress(kind.Release());
    if released.Failure? {
      r := released;
    }
  }

  /** Up to five state reads: running confirms, idle waits, anything else is an error. */
  method Confirm(link: Link, kind: Kind) returns (r: Result<OperatingState>)
    modifies link`failed, link.world`env, link.world`cancelled, link.world`deeds, link.world`readings
    ensures r != Failure(Rejected)
    ensures r.Failure? ==> link.world.deeds == old(link.world.deeds)
    ensures r.Success? ==>
      && |link.world.deeds| == |old(link.world.deeds)| + 1
      && link.world.deeds[|old(link.world.deeds)|].Confirmed?
      && link.world.deeds == old(link.world.deeds) + [Confirmed(kind, link.world.deeds[|old(link.world.deeds)|].state)]
      && ShowsMode(link.world.deeds[|old(link.world.deeds)|].state, kind.Running())
      && r.value.Mode() == kind.Running()
    // a machine that answers and runs the program is confirmed
    ensures old(link.Reliable()) && StateOfCoils(old(link.world.env).coils).Mode() == kind.Running() ==>
      r.Success? && link.Reliable() && SameMachine(old(link.world.env), link.world.env)
  {
    hide IsReply, DecodeOperatingState, OperatingState.Mode, StateOfCoils;
    for i := 0 to 5
      invariant link.world.deeds == old(link.world.deeds)
      invariant old(link.Reliable()) && StateOfCoils(old(link.world.env).coils).Mode() == kind.Running() ==>
        i == 0 && link.Reliable() && SameMachine(old(link.world.env), link.world.env)
    {
      var state, frame := QueryState(link);
      if state.Failure? {
        return Failure(state.error);
      }
      if state.value.Mode() == kind.Running() {
        link.world.deeds := link.world.deeds + [Confirmed(kind, frame)];
        return state;
      }
      if state.value.Mode() != Idle {
        return Failure(Protocol);
      }
      var _ :- link.Sleep();
    }
    return Failure(Protocol);
  }

  lemma StartedIs(before: seq<Deed>, pulsed: seq<Deed>, after: seq<Deed>, kind: Kind, d: Locks)
    requires pulsed == before + [Sent(kind.Press(), d), Sent(kind.Release(), d)]
    requires |after| == |pulsed| + 1 && after[|pulsed|].Confirmed?
    requires after == pulsed + [Confirmed(kind, after[|pulsed|].state)]
    requires ShowsMode(after[|pulsed|].state, kind.Running())
    ensures Started(before, after, kind, d)
  {}

  /** The machine went from one state to that of its pressed program, and still answers. */
  ghost predicate Toggled(link: Link, before: Env, kind: Kind)
    reads link, link.world
  {
    && link.Reliable() && before.Honest? && link.world.env.memory == before.memory
    && link.world.env.coils == Swing(before.coils, kind.Press())
    && StateOfCoils(link.world.env.coils).Mode() == kind.Running()
  }

  /** Every guard of the profile start holds: brew boiler on, no water alarm, stored mode,
      the one known recipe, and idle. */
  predicate Brewable(memory: Memory, coils: Coils) {
    && memory[7] == 0 && memory[1406] == 0 && memory[87] == 2
    && ValidPilot(Bank(memory, false)) && StateOfCoils(coils).Mode() == Idle
  }

  lemma FirstRegister(frame: Frame)
    requires |frame| >= 7
    ensures |Registers(frame)| >= 1 && Registers(frame)[0] == Join(frame[3], frame[4])
  {}

  /** The profile mode is the first register of its reply. */
  method QueryProfileMode(link: Link) returns (r: Result<Word>)
    modifies link`failed, link.world`env, link.world`cancelled, link.world`deeds, link.world`readings
    ensures Quiet(link)
    ensures r.Failure? ==> r.error != Rejected
    ensures old(link.Reliable()) ==> r == Success(old(link.world.env).memory[87])
  {
    hide IsReply, Registers, RegisterReply;
    var mode :- QueryFrame(link, ReadProfileMode);
    FirstRegister(mode);
    return Success(Join(mode[3], mode[4]));
  }

  method CheckBrewBoiler(link: Link) returns (r: Result<()>)
    modifies link`failed, link.world`env, link.world`cancelled, link.world`deeds, link.world`readings
    ensures Quiet(link)
    ensures old(link.Reliable()) ==> r == if old(link.world.env).memory[7] == 0 then Success(()) else Failure(Rejected)
  {
    hide IsReply;
    var configuration :- QueryConfiguration(link);
    if configuration.BrewEnabled() != Some(true) {
      return Failure(Rejected);
    }
    return Success(());
  }

  method CheckWater(link: Link) returns (r: Result<()>)
    modifies link`failed, link.world`env, link.world`cancelled, link.world`deeds, link.world`readings
    ensures Quiet(link)
    ensures old(link.Reliable()) ==> r == if old(link.world.env).memory[1406] == 0 then Success(()) else Failure(Rejected)
  {
    hide IsReply;
    var telemetry :- QueryTelemetry(link);
    if telemetry.alarm {
      return Failure(Rejected);
    }
    return Success(());
  }

  /** The guards of the profile start, in their order; they only read. */
  method CheckBrewable(link: Link) returns (r: Result<()>)
    modifies link`failed, link.world`env, link.world`cancelled, link.world`deeds, link.world`readings
    ensures Quiet(link)
    ensures old(link.Reliable()) ==>
      r == if Brewable(old(link.world.env).memory, old(link.world.env).coils) then Success(()) else Failure(Rejected)
  {
    hide OperatingState.Mode, ValidPilot, StateOfCoils, Bank;
    var _ :- CheckBrewBoiler(link);
    var _ :- CheckWater(link);
    var mode :- QueryProfileMode(link);
    if mode != 2 {
      return Failure(Rejected);
    }
    var bank :- ReadProfileBank(link, false);
    if !ValidPilot(bank) {
      return Failure(Rejected);
    }
    r := RequireIdle(link);
  }

  lemma BrewableIdle(memory: Memory, coils: Coils)
    requires Brewable(memory, coils)
    ensures StateOfCoils(coils).Mode() == Idle
  {}

  /** Guards, one pulse, confirmation. Rejections come before anything was pressed; on a
      machine that answers the start is rejected exactly when a guard fails, and otherwise the
      profile runs and is confirmed. */
  method StartStoredProfile(link: Link) returns (r: Result<OperatingState>)
    modifies link`failed, link.world`env, link.world`cancelled, link.world`deeds, link.world`readings
    ensures old(link.Reliable()) ==>
      && link.Reliable()
      && (r == Failure(Rejected) <==> !Brewable(old(link.world.env).memory, old(link.world.env).coils))
      && (r.Success? <==> Brewable(old(link.world.env).memory, old(link.world.env).coils))
      && (r.Success? ==> Toggled(link, old(link.world.env), Brew))
    ensures r == Failure(Rejected) ==> link.world.deeds == old(link.world.deeds)
    ensures r.Failure? ==> Pulsed(old(link.world.deeds), link.world.deeds, Brew, link.world.disk, r.error == Died)
    ensures r.Success? ==> Started(old(link.world.deeds), link.world.deeds, Brew, link.world.disk)
  {
    hide IsReply, OperatingState.Mode, Started, ShowsMode, HonestReply, StateOfCoils, Swing, Brewable;
    ghost var env := link.world.env;
    ghost var answers := link.Reliable();
    var _ :- CheckBrewable(link);
    if answers {
      BrewableIdle(env.memory, env.coils);
      SwingStarts(env.coils, Brew);
    }
    var _ :- Pulse(link, Brew);
    ghost var pulsed := link.world.deeds;
    r := Confirm(link, Brew);
    if r.Success? {
      StartedIs(old(link.world.deeds), pulsed, link.world.deeds, Brew, link.world.disk);
    }
  }

  // ----- cleaning -----

  /** The time n rounds of running and resting take, one after the other. */
  function Elapsed(run: nat, rest: nat, n: nat): nat {
    if n == 0 then 0 else Elapsed(run, rest, n - 1) + run + rest
  }

  lemma {:induction false} ElapsedTimes(run: nat, rest: nat, n: nat)
    ensures Elapsed(run, rest, n) == (run + rest) * n
  {
    if n > 0 { ElapsedTimes(run, rest, n - 1); }
  }

  /** A program is accepted exactly when its rounds are one to ten, each phase takes one
      second to a minute, and all of it two minutes at most; the budget is the time it takes. */
  lemma EnvelopeExactly(c: Configuration)
    requires |c.raw| == 37
    ensures var run, rest, n := c.CleaningTime(), c.CleaningRest(), c.Repetitions();
      && (CleaningDuration(c).Success? <==>
            (10 <= run <= 600 && 10 <= rest <= 600 && 1 <= n <= 10 && Elapsed(run, rest, n) <= 1200))
      && (CleaningDuration(c).Success? ==> 20 <= CleaningDuration(c).value == Elapsed(run, rest, n) <= 1200)
  {
    ElapsedTimes(c.CleaningTime(), c.CleaningRest(), c.Repetitions());
  }

  /** Tenths of a second of one whole program, or a rejection outside the envelope. */
  function CleaningDuration(c: Configuration): (r: Result<nat>)
    requires |c.raw| == 37
    ensures r.Failure? ==> r.error == Rejected
    ensures r.Success? ==> r.value <= 1200
  {
    var duration := (c.CleaningTime() + c.CleaningRest()) * c.Repetitions();
    if 10 <= c.CleaningTime() <= 600 && 10 <= c.CleaningRest() <= 600 && 1 <= c.Repetitions() <= 10 && duration <= 1200
    then Success(duration)
    else Failure(Rejected)
  }

  /** Every guard of the cleaning start holds: a program within the envelope, brew boiler on,
      no water alarm, and idle. */
  predicate Cleanable(memory: Memory, coils: Coils) {
    && CleaningDuration(Configuration(memory[..37])).Success? && memory[7] == 0 && memory[1406] == 0
    && StateOfCoils(coils).Mode() == Idle
  }

  /** The guards of the cleaning start, in their order; they only read. */
  method CheckCleanable(link: Link) returns (r: Result<Configuration>)
    modifies link`failed, link.world`env, link.world`cancelled, link.world`deeds, link.world`readings
    ensures Quiet(link)
    ensures r.Success? ==> |r.value.raw| == 37 && CleaningDuration(r.value).Success?
    ensures old(link.Reliable()) ==>
      r == if Cleanable(old(link.world.env).memory, old(link.world.env).coils)
           then Success(Configuration(old(link.world.env).memory[..37])) else Failure(Rejected)
  {
    hide OperatingState.Mode, CleaningDuration, StateOfCoils, IsConfigurationReading;
    var before :- QueryConfiguration(link);
    var _ :- CleaningDuration(before);
    if before.BrewEnabled() != Some(true) {
      return Failure(Rejected);
    }
    var _ :- CheckWater(link);
    var _ :- RequireIdle(link);
    return Success(before);
  }

  lemma CleanableIdle(memory: Memory, coils: Coils)
    requires Cleanable(memory, coils)
    ensures StateOfCoils(coils).Mode() == Idle
  {}

  /** As for the profile; the program returned is the one checked before the press. */
  method StartCleaning(link: Link) returns (r: Result<(Configuration, OperatingState)>)
    modifies link`failed, link.world`env, link.world`cancelled, link.world`deeds, link.world`readings
    ensures old(link.Reliable()) ==>
      && link.Reliable()
      && (r == Failure(Rejected) <==> !Cleanable(old(link.world.env).memory, old(link.world.env).coils))
      && (r.Success? <==> Cleanable(old(link.world.env).memory, old(link.world.env).coils))
      && (r.Success? ==> Toggled(link, old(link.world.env), Clean)
                         && r.value.0.raw == old(link.world.env).memory[..37])
    ensures r == Failure(Rejected) ==> link.world.deeds == old(link.world.deeds)
    ensures r.Failure? ==> Pulsed(old(link.world.deeds), link.world.deeds, Clean, link.world.disk, r.error == Died)
    ensures r.Success? ==> Started(old(link.world.deeds), link.world.deeds, Clean, link.world.disk)
    ensures r.Success? ==> |r.value.0.raw| == 37 && CleaningDuration(r.value.0).Success? && r.value.1.Mode() == Cleaning
  {
    hide IsReply, OperatingState.Mode, Started, ShowsMode, CleaningDuration, StateOfCoils, Swing, Cleanable;
    ghost var env := link.world.env;
    ghost var answers := link.Reliable();
    var before :- CheckCleanable(link);
    if answers {
      CleanableIdle(env.memory, env.coils);
      SwingStarts(env.coils, Clean);
    }
    var _ :- Pulse(link, Clean);
    ghost var pulsed := link.world.deeds;
    var after :- QueryConfiguration(link);
    if after.raw != before.raw {
      return Failure(Protocol);
    }
    var state :- Confirm(link, Clean);
    StartedIs(old(link.world.deeds), pulsed, link.world.deeds, Clean, link.world.disk);
    return Success((before, state));
  }

  datatype Sample = Sample(telemetry: Telemetry, mode: Mode)

  datatype CleaningResult = CleaningResult(samples: nat, peak: Word, elapsed: nat, duration: nat)

  function Peak(samples: seq<Sample>): (p: Word)
    requires samples != []
    ensures forall s | s in samples :: s.telemetry.pressure <= p
    ensures exists s :: s in samples && s.telemetry.pressure == p
  {
    var last := samples[|samples| - 1].telemetry.pressure;
    if |samples| == 1 then
      assert samples[0] in samples;
      last
    else
      var rest := samples[..|samples| - 1];
      assert samples == rest + [samples[|samples| - 1]];
      assert samples[|samples| - 1] in samples;
      if Peak(rest) >= last then Peak(rest) else last
  }

  /** Idle samples at the end of the run. */
  function IdleRun(samples: seq<Sample>): nat {
    if samples == [] || samples[|samples| - 1].mode != Idle then 0 else 1 + IdleRun(samples[..|samples| - 1])
  }

  /** One connection through the whole program: start, then watch until the programmed time
      has passed and two samples in a row are idle. The monitor presses nothing. */
  method ExecuteCleaning(link: Link)
    returns (r: Result<CleaningResult>, observed: seq<Sample>, ghost times: seq<nat>)
    modifies link`failed, link.world`env, link.world`cancelled, link.world`deeds, link.world`readings
    ensures r == Failure(Rejected) ==> link.world.deeds == old(link.world.deeds)
    ensures r.Failure? ==>
      || Pulsed(old(link.world.deeds), link.world.deeds, Clean, link.world.disk, r.error == Died)
      || Started(old(link.world.deeds), link.world.deeds, Clean, link.world.disk)
    ensures r.Success? ==> Started(old(link.world.deeds), link.world.deeds, Clean, link.world.disk)
    ensures r.Success? ==> Finished(r.value, observed, times)
    // on a machine that answers it is rejected exactly when a guard fails; otherwise the program
    // runs, and is watched to its end or until the time is over
    ensures |times| == |observed|
    ensures old(link.Reliable()) ==> link.Reliable()
    ensures old(link.Reliable()) ==>
      if Cleanable(old(link.world.env).memory, old(link.world.env).coils) then
        var budget := CleaningDuration(Configuration(old(link.world.env).memory[..37]));
        && budget.Success? && Started(old(link.world.deeds), link.world.deeds, Clean, link.world.disk)
        && (if r.Success? then r.value.duration == budget.value
            else r == Failure(Timeout) && Waited(observed, times, budget.value))
      else r == Failure(Rejected)
  {
    hide IsReply, OperatingState.Mode, Started, Pulsed, ShowsMode, CleaningDuration, StateOfCoils, Swing, Finished, Waited;
    observed, times := [], [];
    ghost var env := link.world.env;
    if link.Reliable() { CleanableMeans(env.memory, env.coils); }
    hide Cleanable;
    var started := StartCleaning(link);
    if started.Failure? {
      return Failure(started.error), [], [];
    }
    var (configuration, state) := started.value;
    var duration := CleaningDuration(configuration);
    if duration.Failure? {
      // The program that was checked before the press is checked again, so it passes.
      assert false;
    }
    var telemetry := QueryTelemetry(link);
    if telemetry.Failure? {
      return Failure(telemetry.error), [], [];
    }
    r, observed, times := Monitor(link, configuration, duration.value, Sample(telemetry.value, Cleaning));
  }

  lemma CleanableMeans(memory: Memory, coils: Coils)
    ensures Cleanable(memory, coils) ==>
      memory[1406] == 0 && CleaningDuration(Configuration(memory[..37])).Success?
  {}

  /** The running summary of the samples seen so far. */
  ghost predicate Watched(observed: seq<Sample>, first: Sample, count: nat, peak: Word, idle: nat) {
    && observed != [] && observed[0] == first && count == |observed|
    && peak == Peak(observed) && idle == IdleRun(observed)
    && (forall s | s in observed :: s.mode in {Cleaning, Idle})
    && (forall s | s in observed[1..] :: !s.telemetry.alarm)
  }

  lemma SummaryMore(observed: seq<Sample>, s: Sample)
    requires observed != []
    ensures Peak(observed + [s]) == if s.telemetry.pressure > Peak(observed) then s.telemetry.pressure else Peak(observed)
    ensures IdleRun(observed + [s]) == if s.mode == Idle then IdleRun(observed) + 1 else 0
  {
    var more := observed + [s];
    assert more[..|more| - 1] == observed && more[|more| - 1] == s;
  }

  lemma WatchMore(observed: seq<Sample>, first: Sample, count: nat, peak: Word, idle: nat, s: Sample)
    requires Watched(observed, first, count, peak, idle)
    requires s.mode in {Cleaning, Idle} && !s.telemetry.alarm
    ensures Watched(observed + [s], first, count + 1,
      if s.telemetry.pressure > peak then s.telemetry.pressure else peak, if s.mode == Idle then idle + 1 else 0)
  {
    hide Peak, IdleRun;
    SummaryMore(observed, s);
    assert (observed + [s])[1..] == observed[1..] + [s];
  }

  /** One telemetry and one state read; anything but cleaning or idle is an error. */
  method QuerySample(link: Link) returns (r: Result<Sample>)
    modifies link`failed, link.world`env, link.world`cancelled, link.world`deeds, link.world`readings
    ensures link.world.deeds == old(link.world.deeds)
    ensures r != Failure(Rejected)
    ensures r.Success? ==> r.value.mode in {Cleaning, Idle} && !r.value.telemetry.alarm
    ensures old(link.Reliable()) ==>
      var mode := StateOfCoils(old(link.world.env).coils).Mode();
      && link.Reliable() && SameMachine(old(link.world.env), link.world.env)
      && (r.Success? <==> mode in {Cleaning, Idle} && old(link.world.env).memory[1406] == 0)
      && (r.Success? ==> r.value.mode == mode)
  {
    hide IsReply, OperatingState.Mode, StateOfCoils;
    var telemetry :- QueryTelemetry(link);
    var state, _ := QueryState(link);
    if state.Failure? {
      return Failure(state.error);
    }
    var mode := state.value.Mode();
    if (mode != Cleaning && mode != Idle) || telemetry.alarm {
      return Failure(Protocol);
    }
    return Success(Sample(telemetry, mode));
  }

  lemma WatchFirst(first: Sample)
    requires first.mode == Cleaning
    ensures Watched([first], first, 1, first.telemetry.pressure, 0)
  {}

  lemma WatchedMeans(observed: seq<Sample>, first: Sample, count: nat, peak: Word, idle: nat)
    requires Watched(observed, first, count, peak, idle) && first.mode == Cleaning
    ensures |observed| == count > idle && observed[0] == first && peak == Peak(observed) && idle == IdleRun(observed)
    ensures forall s | s in observed :: s.mode in {Cleaning, Idle}
    ensures forall s | s in observed[1..] :: !s.telemetry.alarm
  {
    IdleRunBound(observed);
  }

  /** A clock that never goes back. */
  function Later(now: nat, ticks: int): (later: nat)
    ensures later >= now
  {
    if ticks > 0 then now + ticks else now
  }

  /** At its last sample the monitor may stop: the programmed time has passed and the last
      two samples are idle. */
  ghost predicate Stops(observed: seq<Sample>, times: seq<nat>, duration: nat)
    requires |times| == |observed| > 0
  {
    && times[|times| - 1] >= duration
    && |observed| >= 2 && observed[|observed| - 1].mode == Idle && observed[|observed| - 2].mode == Idle
  }

  lemma IdleRunTwo(samples: seq<Sample>)
    ensures IdleRun(samples) >= 2 <==>
      |samples| >= 2 && samples[|samples| - 1].mode == Idle && samples[|samples| - 2].mode == Idle
  {
    if |samples| >= 2 { assert samples[..|samples| - 1][|samples| - 2] == samples[|samples| - 2]; }
  }

  /** At no sample after the first could it have stopped. */
  ghost predicate Waited(observed: seq<Sample>, times: seq<nat>, duration: nat)
    requires |times| == |observed|
  {
    |observed| <= 1 ||
    (!Stops(observed, times, duration) && Waited(observed[..|observed| - 1], times[..|observed| - 1], duration))
  }

  lemma WaitedMore(observed: seq<Sample>, times: seq<nat>, s: Sample, t: nat, duration: nat)
    requires |times| == |observed| > 0 && Waited(observed, times, duration)
    ensures Waited(observed + [s], times + [t], duration) <==> !Stops(observed + [s], times + [t], duration)
    ensures var more, later := observed + [s], times + [t]; more[..|more| - 1] == observed && later[..|more| - 1] == times
  {
    hide Stops;
    var more, later := observed + [s], times + [t];
    assert more[..|more| - 1] == observed && later[..|more| - 1] == times;
  }

  /** What a finished program looks like: it stopped at the first sample at which it could. */
  ghost predicate Finished(c: CleaningResult, observed: seq<Sample>, times: seq<nat>) {
    && |observed| == |times| == c.samples >= 3 && c.peak == Peak(observed)
    && c.elapsed == times[|times| - 1] && Stops(observed, times, c.duration)
    && Waited(observed[..|observed| - 1], times[..|observed| - 1], c.duration)
    && c.elapsed >= 5 * (c.samples - 2)
    && observed[0].mode == Cleaning
    && (forall s | s in observed :: s.mode in {Cleaning, Idle})
    && (forall s | s in observed[1..] :: !s.telemetry.alarm)
  }

  /** The machine still answers, without alarm, in one of the two states a program may show. */
  ghost predicate Watchable(link: Link, configuration: Configuration)
    reads link, link.world
  {
    && link.Reliable() && link.world.env.memory[1406] == 0 && configuration.raw == link.world.env.memory[..37]
    && StateOfCoils(link.world.env.coils).Mode() in {Cleaning, Idle}
  }

  /** Watch the program until the programmed time has passed and two samples in a row are idle. */
  method Monitor(link: Link, configuration: Configuration, duration: nat, first: Sample)
    returns (r: Result<CleaningResult>, observed: seq<Sample>, ghost times: seq<nat>)
    requires |configuration.raw| == 37 && first.mode == Cleaning
    modifies link`failed, link.world`env, link.world`cancelled, link.world`deeds, link.world`readings
    ensures link.world.deeds == old(link.world.deeds)
    ensures r != Failure(Rejected)
    ensures r.Success? ==> Finished(r.value, observed, times) && r.value.duration == duration && observed[0] == first
    // on a machine that answers it gives up only when its time is over, having waited for as long as it could
    ensures |times| == |observed|
    ensures old(Watchable(link, configuration)) ==> Watchable(link, configuration)
    ensures old(Watchable(link, configuration)) ==> r.Success? || (r == Failure(Timeout) && Waited(observed, times, duration))
  {
    hide IsReply, OperatingState.Mode, Watched, Peak, IdleRun, StateOfCoils, Waited, Stops;
    observed, times := [first], [0];
    WatchFirst(first);
    WaitedFirst(first, duration);
    ghost var watchable := Watchable(link, configuration);
    var idleSamples, sampleCount := 0, 1;
    var peak: Word := first.telemetry.pressure;
    // The clock runs by itself: each read takes some time, each sleep half a second or more.
    var elapsed := 0;
    while elapsed <= duration + 200
      invariant link.world.deeds == old(link.world.deeds)
      invariant sampleCount >= 1 && Watched(observed, first, sampleCount, peak, idleSamples)
      invariant |times| == |observed| == sampleCount && Waited(observed, times, duration)
      invariant elapsed >= 5 * (sampleCount - 1)
      invariant watchable ==> Watchable(link, configuration)
      decreases duration + 200 - elapsed
    {
      var sample := QuerySample(link);
      if sample.Failure? {
        return Failure(sample.error), observed, times;
      }
      WatchMore(observed, first, sampleCount, peak, idleSamples, sample.value);
      sampleCount := sampleCount + 1;
      peak := if sample.value.telemetry.pressure > peak then sample.value.telemetry.pressure else peak;
      idleSamples := if sample.value.mode == Idle then idleSamples + 1 else 0;
      var reading: int := *;
      elapsed := Later(elapsed, reading);
      WaitedMore(observed, times, sample.value, elapsed, duration);
      observed, times := observed + [sample.value], times + [elapsed];
      WatchedStops(observed, times, first, sampleCount, peak, idleSamples, duration);
      if elapsed >= duration && idleSamples >= 2 {
        var after := QueryConfiguration(link);
        if after.Failure? {
          return Failure(after.error), observed, times;
        }
        if after.value.raw != configuration.raw {
          return Failure(Protocol), observed, times;
        }
        return Success(CleaningResult(sampleCount, peak, elapsed, duration)), observed, times;
      }
      var slept := link.Sleep();
      if slept.Failure? {
        return Failure(slept.error), observed, times;
      }
      var waiting: int := *;
      elapsed := Later(elapsed + 5, waiting);
    }
    return Failure(Timeout), observed, times;
  }

  lemma WaitedFirst(first: Sample, duration: nat)
    ensures Waited([first], [0], duration)
  {}

  lemma WatchedStops(observed: seq<Sample>, times: seq<nat>, first: Sample, count: nat, peak: Word, idle: nat, duration: nat)
    requires Watched(observed, first, count, peak, idle) && first.mode == Cleaning && |times| == |observed|
    ensures Stops(observed, times, duration) <==> times[|times| - 1] >= duration && idle >= 2
    ensures |observed| == count > idle && observed[0] == first && peak == Peak(observed)
    ensures forall s | s in observed :: s.mode in {Cleaning, Idle}
    ensures forall s | s in observed[1..] :: !s.telemetry.alarm
  {
    IdleRunTwo(observed);
    WatchedMeans(observed, first, count, peak, idle);
  }

  lemma {:induction false} IdleRunBound(samples: seq<Sample>)
    ensures IdleRun(samples) <= |samples|
    ensures samples != [] && samples[0].mode != Idle ==> IdleRun(samples) < |samples|
  {
    if samples != [] && samples[|samples| - 1].mode == Idle {
      IdleRunBound(samples[..|samples| - 1]);
    }
  }

  // ----- pulse discipline -----

  function Count(deeds: seq<Deed>, c: Command): nat {
    if deeds == [] then 0
    else Count(deeds[..|deeds| - 1], c)
         + (if deeds[|deeds| - 1].Sent? && deeds[|deeds| - 1].command == c then 1 else 0)
  }

  /** However a start ends it pressed at most once, never after its release, and released
      exactly once if it pressed; only a dead process may owe the release. */
  lemma PulseDiscipline(before: seq<Deed>, after: seq<Deed>, kind: Kind, d: Locks, died: bool)
    requires Pulsed(before, after, kind, d, died) || Started(before, after, kind, d)
    ensures before <= after
    ensures var own := after[|before|..];
      && Count(own, kind.Press()) <= 1
      && Count(own, kind.Release()) <= 1
      && (Count(own, kind.Press()) == 1 && !died ==> Count(own, kind.Release()) == 1)
      && (forall i, j | 0 <= i < j < |own| :: own[i] == Sent(kind.Release(), d) ==> own[j] != Sent(kind.Press(), d))
      && (forall i | 0 <= i < |own| :: own[i].Sent? ==> own[i].command in {kind.Press(), kind.Release()})
  {
    hide ShowsMode;
    var own := after[|before|..];
    var press, release := Sent(kind.Press(), d), Sent(kind.Release(), d);
    CountPair(press, release, kind.Press());
    CountPair(press, release, kind.Release());
    if Started(before, after, kind, d) {
      assert own[..2] == [press, release];
    }
  }

  lemma CountPair(a: Deed, b: Deed, c: Command)
    ensures Count([a], c) == if a.Sent? && a.command == c then 1 else 0
    ensures Count([a, b], c) == Count([a], c) + if b.Sent? && b.command == c then 1 else 0
  {
    assert [a, b][..1] == [a] && [a][..0] == [];
  }
}
