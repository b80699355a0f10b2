/** Reads with a decoder, the idle guard, and the boiler transaction
    (control_session.py lines 184-216, controls.py lines 18-57). */
module Boiler {
  import opened Bytes
  import opened Crc
  import opened Outcomes
  import opened Reads
  import opened Commands
  import opened Decoding
  import opened Machine

  predicate SameMachine(a: Env, b: Env) {
    a.Honest? ==> b.Honest? && b.memory == a.memory && b.coils == a.coils
  }

  /** Nothing was sent but reads, and a reliable link stays reliable. */
  twostate predicate Quiet(link: Link)
    reads link, link.world
  {
    && link.world.deeds == old(link.world.deeds)
    && old(link.world.readings) <= link.world.readings
    && SameMachine(old(link.world.env), link.world.env)
    && (old(link.Reliable()) ==> link.Reliable())
  }

  method QueryConfiguration(link: Link) returns (r: Result<Configuration>)
    modifies link`failed, link.world`env, link.world`cancelled, link.world`deeds, link.world`readings
    ensures Quiet(link)
    ensures r.Failure? ==> r.error != Rejected
    ensures r.Success? ==>
      && |r.value.raw| == 37
      && |link.world.readings| == |old(link.world.readings)| + 1
      && IsConfigurationReading(link.world.readings[|old(link.world.readings)|], r.value)
    ensures old(link.Reliable()) ==> r == Success(Configuration(old(link.world.env).memory[..37]))
    ensures old(link.world.env).Honest? && r.Success? ==> r.value.raw == old(link.world.env).memory[..37]
  {
    hide IsReply, DecodeConfiguration, Registers, RegisterReply;
    var frame :- link.Transact(ReadConfiguration);
    DecodesConfiguration(frame);
    if old(link.world.env).Honest? {
      RegisterReplyDecodes(old(link.world.env).memory[0..37], ReadConfiguration);
    }
    r := DecodeConfiguration(frame);
  }

  ghost predicate IsConfigurationReading(reading: Reading, configuration: Configuration) {
    reading.command == ReadConfiguration && DecodeConfiguration(reading.frame) == Success(configuration)
  }

  /** One of the readings from the k-th on decodes to this configuration. */
  ghost predicate WasRead(readings: seq<Reading>, k: nat, configuration: Configuration) {
    exists i | k <= i < |readings| :: IsConfigurationReading(readings[i], configuration)
  }

  method QueryTelemetry(link: Link) returns (r: Result<Telemetry>)
    modifies link`failed, link.world`env, link.world`cancelled, link.world`deeds, link.world`readings
    ensures Quiet(link)
    ensures r.Failure? ==> r.error != Rejected
    ensures old(link.Reliable()) ==> r.Success? && r.value.alarm == (old(link.world.env).memory[1406] != 0)
  {
    hide IsReply, ParseTelemetry, Registers, RegisterReply;
    var frame :- link.Transact(ReadTelemetry);
    DecodesTelemetry(frame);
    if old(link.world.env).Honest? {
      RegisterReplyDecodes(old(link.world.env).memory[1404..1426], ReadTelemetry);
    }
    r := ParseTelemetry(frame);
  }

  method QueryState(link: Link) returns (r: Result<OperatingState>, frame: Frame)
    modifies link`failed, link.world`env, link.world`cancelled, link.world`deeds, link.world`readings
    ensures Quiet(link)
    ensures r.Failure? ==> r.error != Rejected
    ensures r.Success? ==> IsReply(frame, ReadState) && DecodeOperatingState(frame) == r
    ensures old(link.Reliable()) ==> r == Success(StateOfCoils(old(link.world.env).coils))
  {
    hide IsReply, DecodeOperatingState, StateOfCoils, CoilReply;
    var reply := link.Transact(ReadState);
    if reply.Failure? {
      return Failure(reply.error), [];
    }
    DecodesState(reply.value);
    if old(link.world.env).Honest? {
      CoilReplyDecodes(old(link.world.env).coils);
    }
    return DecodeOperatingState(reply.value), reply.value;
  }

  /** Reject unless the machine reports idle. */
  method RequireIdle(link: Link) returns (r: Result<()>)
    modifies link`failed, link.world`env, link.world`cancelled, link.world`deeds, link.world`readings
    ensures Quiet(link)
    ensures old(link.Reliable()) ==>
      r == if StateOfCoils(old(link.world.env).coils).Mode() == Idle then Success(()) else Failure(Rejected)
  {
    hide StateOfCoils, OperatingState.Mode;
    var state, _ := QueryState(link);
    if state.Failure? {
      return Failure(state.error);
    }
    if state.value.Mode() != Idle {
      return Failure(Rejected);
    }
    return Success(());
  }

  // ----- boiler settings -----

  datatype BoilerSetting = SteamEnabled | BrewEnabled | SteamTarget | BrewTarget {
    function Register(): Word {
      match this
      case SteamEnabled => 6
      case BrewEnabled => 7
      case SteamTarget => 8
      case BrewTarget => 9
    }

    predicate Switch() { SteamEnabled? || BrewEnabled? }
  }

  /** Zero switches a boiler on. */
  function Encoding(enabled: bool): Word { if enabled then 0 else 1 }

  function BoilerRequest(setting: BoilerSetting, encoded: Word): Frame {
    AppendCrc([1, 6, High(setting.Register()), Low(setting.Register()), High(encoded), Low(encoded)])
  }

  /** The one control command a switch may use. */
  function SwitchCommand(setting: BoilerSetting, enabled: bool): Command
    requires setting.Switch()
  {
    if setting.SteamEnabled? then (if enabled then SteamOn else SteamOff)
    else (if enabled then BrewOn else BrewOff)
  }

  /** The command table in declaration order. */
  function Table(): seq<Command> {
    [ReadConfiguration, ReadTelemetry, ReadState, ReadProfileMode, ReadProfileModes,
     Head(false), Tail(false), Head(true), Tail(true),
     Chunk(false, 0), Chunk(false, 1), Chunk(false, 2), Chunk(false, 3), Chunk(false, 4), Chunk(false, 5),
     Chunk(false, 6), Chunk(false, 7), Chunk(false, 8), Chunk(false, 9), Chunk(false, 10),
     Chunk(true, 0), Chunk(true, 1), Chunk(true, 2), Chunk(true, 3), Chunk(true, 4), Chunk(true, 5),
     Chunk(true, 6), Chunk(true, 7), Chunk(true, 8), Chunk(true, 9), Chunk(true, 10),
     PilotHeader, PilotStage, SteamOn, SteamOff, BrewOn, BrewOff,
     ProfilePress, ProfileRelease, CleaningPress, CleaningRelease]
  }

  lemma SwitchRequest(setting: BoilerSetting, enabled: bool)
    requires setting.Switch()
    ensures BoilerRequest(setting, Encoding(enabled)) == Request(SwitchCommand(setting, enabled))
  {
    hide AppendCrc;
  }

  /** A request frame determines the command, for the single register writes. */
  lemma RequestDetermines(c: Command, d: Command)
    requires d.Function() == 6 && Request(c) == Request(d)
    ensures c == d
  {
    hide AppendCrc, Prologue;
    WriteRequestLength(c);
    WriteRequestLength(d);
    PrologueDetermines(c, d);
  }

  lemma PrologueDetermines(c: Command, d: Command)
    requires d.Function() == 6 && Prologue(c) == Prologue(d)
    ensures c == d
  {
    assert Prologue(c)[1] == Prologue(d)[1] && Prologue(c)[3] == Prologue(d)[3] && Prologue(c)[5] == Prologue(d)[5];
  }

  lemma SwitchInTable(setting: BoilerSetting, enabled: bool)
    requires setting.Switch()
    ensures SwitchCommand(setting, enabled) in Table()
  {
    assert Table()[33] == SteamOn && Table()[34] == SteamOff && Table()[35] == BrewOn && Table()[36] == BrewOff;
  }

  /** The first command of the table whose request is this frame. */
  method FindSwitch(setting: BoilerSetting, enabled: bool) returns (c: Command)
    requires setting.Switch()
    ensures c == SwitchCommand(setting, enabled)
  {
    hide Request, BoilerRequest, SwitchCommand, Table;
    var request := BoilerRequest(setting, Encoding(enabled));
    ghost var d := SwitchCommand(setting, enabled);
    SwitchRequest(setting, enabled);
    SwitchInTable(setting, enabled);
    var table := Table();
    var i := 0;
    while i < |table| && Request(table[i]) != request
      invariant 0 <= i <= |table|
      invariant d !in table[..i]
    {
      assert table[..i + 1] == table[..i] + [table[i]];
      i := i + 1;
    }
    assert table[..|table|] == table;
    c := table[i];
    SwitchFunction(setting, enabled);
    RequestDetermines(c, d);
  }

  lemma SwitchFunction(setting: BoilerSetting, enabled: bool)
    requires setting.Switch()
    ensures var c := SwitchCommand(setting, enabled);
      && c.Function() == 6 && c.Address() == setting.Register() && c.Value() == Encoding(enabled) && !c.IsRead()
  {}

  /** Register memory with one switch set. */
  function Switched(memory: Memory, setting: BoilerSetting, enabled: bool): Memory {
    memory[setting.Register() := Encoding(enabled)]
  }

  lemma SwitchEffect(memory: Memory, setting: BoilerSetting, enabled: bool)
    requires setting.Switch()
    ensures Effect(memory, SwitchCommand(setting, enabled)) == Switched(memory, setting, enabled)
    ensures Switched(memory, setting, enabled)[..37] == memory[..37][setting.Register() := Encoding(enabled)]
  {}

  datatype Verdict = Refused | AlreadySet | Written

  /** What an honest machine behind a faultless link does with a request. */
  function BoilerVerdict(memory: Memory, coils: Coils, setting: BoilerSetting, enabled: bool): Verdict {
    var current := memory[setting.Register()];
    if !setting.Switch() || StateOfCoils(coils).Mode() != Idle || current > 1 then Refused
    else if current == Encoding(enabled) then AlreadySet
    else if enabled && memory[1406] != 0 then Refused
    else Written
  }

  /** Read, check, write at most once, and read everything back. */
  method SetBoiler(link: Link, setting: BoilerSetting, enabled: bool) returns (r: Result<Configuration>)
    modifies link`failed, link.world`env, link.world`cancelled, link.world`deeds, link.world`readings
    // at most the one command that encodes the request, and none at all when rejected
    ensures link.world.deeds == old(link.world.deeds)
      || (setting.Switch() && r != Failure(Rejected)
          && link.world.deeds == old(link.world.deeds) + [Sent(SwitchCommand(setting, enabled), link.world.disk)])
    // the configuration returned is the first one read, with only that register set
    ensures r.Success? ==>
      exists first: Configuration ::
        && |first.raw| == 37
        && |link.world.readings| > |old(link.world.readings)|
        && IsConfigurationReading(link.world.readings[|old(link.world.readings)|], first)
        && r.value.raw == first.raw[setting.Register() := Encoding(enabled)]
    // and it is itself one of the configurations read
    ensures r.Success? ==> WasRead(link.world.readings, |old(link.world.readings)|, r.value)
    // a register that already holds the request draws no write, however the link behaves
    ensures old(link.world.env).Honest? && old(link.world.env).memory[setting.Register()] == Encoding(enabled) ==>
      link.world.deeds == old(link.world.deeds)
    // real memory changes nowhere else, and has changed there on success
    ensures old(link.world.env).Honest? ==>
      && link.world.env.Honest?
      && (link.world.env.memory == old(link.world.env).memory
          || link.world.env.memory == Switched(old(link.world.env).memory, setting, enabled))
      && (r.Success? ==> link.world.env.memory == Switched(old(link.world.env).memory, setting, enabled))
    // with nothing going wrong the outcome is decided by the machine alone
    ensures old(link.Reliable()) ==> link.Reliable()
    ensures old(link.Reliable()) ==>
      match BoilerVerdict(old(link.world.env).memory, old(link.world.env).coils, setting, enabled)
      case Refused => r == Failure(Rejected)
      case AlreadySet => r.Success? && link.world.deeds == old(link.world.deeds)
      case Written => r.Success? && link.world.deeds == old(link.world.deeds) + [Sent(SwitchCommand(setting, enabled), link.world.disk)]
  {
    hide IsConfigurationReading, StateOfCoils, OperatingState.Mode, SwitchCommand, Switched;
    if !setting.Switch() {
      return Failure(Rejected);
    }
    ghost var world := link.world;
    ghost var k := |world.readings|;
    var register := setting.Register();
    var before :- QueryConfiguration(link);
    assert IsConfigurationReading(world.readings[k], before);
    var _ :- RequireIdle(link);
    if before.raw[register] > 1 {
      return Failure(Rejected);
    }
    if before.raw[register] == Encoding(enabled) {
      assert before.raw == before.raw[register := Encoding(enabled)];
      if world.env.Honest? { SwitchedAlready(world.env.memory, setting, enabled); }
      return Success(before);
    }
    if enabled {
      var telemetry :- QueryTelemetry(link);
      if telemetry.alarm {
        return Failure(Rejected);
      }
      var _ :- RequireIdle(link);
    }
    assert IsConfigurationReading(world.readings[k], before);
    r := WriteAndVerify(link, setting, enabled, before);
    assert IsConfigurationReading(world.readings[k], before);
  }

  /** The write and its full readback; nothing from here on is a rejection. */
  method WriteAndVerify(link: Link, setting: BoilerSetting, enabled: bool, before: Configuration)
    returns (r: Result<Configuration>)
    requires setting.Switch() && |before.raw| == 37
    modifies link`failed, link.world`env, link.world`cancelled, link.world`deeds, link.world`readings
    ensures r != Failure(Rejected)
    ensures link.world.deeds == old(link.world.deeds)
      || link.world.deeds == old(link.world.deeds) + [Sent(SwitchCommand(setting, enabled), link.world.disk)]
    ensures old(link.world.readings) <= link.world.readings
    ensures r.Success? ==> r.value.raw == before.raw[setting.Register() := Encoding(enabled)]
    // the value was read after the write
    ensures r.Success? ==> WasRead(link.world.readings, |old(link.world.readings)| + 1, r.value)
    ensures old(link.world.env).Honest? ==>
      && link.world.env.Honest?
      && (link.world.env.memory == old(link.world.env).memory
          || link.world.env.memory == Switched(old(link.world.env).memory, setting, enabled))
      && (r.Success? ==> link.world.env.memory == Switched(old(link.world.env).memory, setting, enabled))
    ensures old(link.Reliable()) ==> link.Reliable()
    ensures old(link.Reliable()) && before.raw == old(link.world.env).memory[..37] ==>
      r.Success? && link.world.deeds == old(link.world.deeds) + [Sent(SwitchCommand(setting, enabled), link.world.disk)]
  {
    hide IsConfigurationReading, SwitchCommand, Switched, Effect, IsReply, HonestReply;
    hide Command.Function, Command.Address, Command.Value, Command.IsRead, BoilerSetting.Switch;
    if link.world.env.Honest? { SwitchEffect(link.world.env.memory, setting, enabled); }
    SwitchFunction(setting, enabled);
    var command := FindSwitch(setting, enabled);
    var _ :- link.Transact(command);
    var after :- QueryConfiguration(link);
    var expected := before.raw[setting.Register() := Encoding(enabled)];
    if after.raw != expected {
      return Failure(Protocol);
    }
    return Success(after);
  }

  lemma SwitchedAlready(memory: Memory, setting: BoilerSetting, enabled: bool)
    ensures memory[setting.Register()] == Encoding(enabled) ==> Switched(memory, setting, enabled) == memory
  {}

  /** Asking twice, on the same connection or on another, writes once at most: after the first
      success the second request sends nothing, whatever goes wrong with it. */
  method SetBoilerTwice(first: Link, second: Link, setting: BoilerSetting, enabled: bool)
    returns (r: Result<Configuration>, again: Result<Configuration>)
    requires first.world == second.world
    modifies first`failed, second`failed
    modifies first.world`env, first.world`cancelled, first.world`deeds, first.world`readings
    ensures old(first.world.env).Honest? && r.Success? ==>
      |first.world.deeds| <= |old(first.world.deeds)| + 1
      && (old(first.world.env).memory[setting.Register()] == Encoding(enabled) ==> first.world.deeds == old(first.world.deeds))
      && first.world.env.Honest?
      && first.world.env.memory == Switched(old(first.world.env).memory, setting, enabled)
  {
    hide IsConfigurationReading, StateOfCoils, OperatingState.Mode, SwitchCommand, BoilerVerdict, WasRead;
    r := SetBoiler(first, setting, enabled);
    again := SetBoiler(second, setting, enabled);
  }

  /** On a faultless link the verdict of the second request is that nothing is to be done. */
  lemma SecondRequestIsQuiet(memory: Memory, coils: Coils, setting: BoilerSetting, enabled: bool)
    requires BoilerVerdict(memory, coils, setting, enabled) != Refused
    ensures BoilerVerdict(Switched(memory, setting, enabled), coils, setting, enabled) == AlreadySet
  {}
}
