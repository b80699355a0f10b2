/** Profile banks, the pilot recipe and its preparation (control_session.py lines 259-396). */
module Profile {
  import opened Bytes
  import opened Outcomes
  import opened Reads
  import opened Commands
  import opened Decoding
  import opened Machine
  import opened Boiler

  const BANK := 167

  function Base(bound: bool): Word { if bound then 2560 else 2048 }

  function Bank(memory: Memory, bound: bool): (bank: seq<Word>)
    ensures |bank| == BANK
  {
    memory[Base(bound)..Base(bound) + BANK]
  }

  /** The words read by the first k chunk commands. */
  function ChunkEnd(k: nat): nat { if k >= 11 then BANK else 16 * k }

  method ReadChunk(link: Link, bound: bool, k: ChunkIndex) returns (r: Result<seq<Word>>)
    modifies link`failed, link.world`env, link.world`cancelled, link.world`deeds, link.world`readings
    ensures Quiet(link)
    ensures r.Failure? ==> r.error != Rejected
    ensures r.Success? ==> |r.value| == ChunkEnd(k + 1) - ChunkEnd(k)
    ensures old(link.world.env).Honest? && r.Success? ==>
      r.value == old(link.world.env).memory[Base(bound) + ChunkEnd(k)..Base(bound) + ChunkEnd(k + 1)]
    ensures old(link.Reliable()) ==> r.Success?
  {
    hide IsReply, Registers, RegisterReply;
    var c := Chunk(bound, k);
    var frame :- link.Transact(c);
    RegistersCount(frame, c);
    if old(link.world.env).Honest? {
      RegisterReplyDecodes(old(link.world.env).memory[c.Address()..c.Address() + c.Value()], c);
    }
    return Success(Registers(frame));
  }

  /** Eleven chunk reads of at most sixteen words are one read of the whole bank. */
  method ReadProfileBank(link: Link, bound: bool) returns (r: Result<seq<Word>>)
    modifies link`failed, link.world`env, link.world`cancelled, link.world`deeds, link.world`readings
    ensures Quiet(link)
    ensures r.Failure? ==> r.error != Rejected
    ensures r.Success? ==> |r.value| == BANK
    ensures old(link.world.env).Honest? && r.Success? ==> r.value == Bank(old(link.world.env).memory, bound)
    ensures old(link.Reliable()) ==> r.Success?
  {
    var words := [];
    for k := 0 to 11
      invariant Quiet(link)
      invariant |words| == ChunkEnd(k)
      invariant old(link.world.env).Honest? ==>
        words == old(link.world.env).memory[Base(bound)..Base(bound) + ChunkEnd(k)]
    {
      var more :- ReadChunk(link, bound, k);
      if old(link.world.env).Honest? {
        Adjacent(old(link.world.env).memory, Base(bound), Base(bound) + ChunkEnd(k), Base(bound) + ChunkEnd(k + 1));
      }
      words := words + more;
    }
    return Success(words);
  }

  lemma Adjacent(memory: Memory, a: nat, b: nat, c: nat)
    requires a <= b <= c <= 0x10000
    ensures memory[a..b] + memory[b..c] == memory[a..c]
  {}

  // ----- the pilot recipe -----

  /** An exact match with the attended recipe, no interpretation. */
  predicate ValidPilot(bank: seq<Word>) {
    && |bank| == BANK
    && bank[..7] == PilotHeader.Block()
    && bank[8..14] == PilotStage.Block()
  }

  /** The two banks in memory, and the recipe in words: 65 mL, one stage of 28 seconds at
      9.0 bar. */
  lemma RecipeExactly(memory: Memory)
    ensures Bank(memory, false) == memory[2048..2215] && Bank(memory, true) == memory[2560..2727]
    ensures ValidPilot(Bank(memory, false)) <==>
      memory[2048..2055] == [1, 1, 1, 1, 65, 0, 0] && memory[2056..2062] == [28, 90, 0, 0, 1, 0]
    ensures ValidPilot(Bank(memory, true)) <==>
      memory[2560..2567] == [1, 1, 1, 1, 65, 0, 0] && memory[2568..2574] == [28, 90, 0, 0, 1, 0]
  {
    var a, b := Bank(memory, false), Bank(memory, true);
    assert a[..7] == memory[2048..2055] && a[8..14] == memory[2056..2062];
    assert b[..7] == memory[2560..2567] && b[8..14] == memory[2568..2574];
  }

  function StageOver(bank: seq<Word>): (after: seq<Word>)
    requires |bank| == BANK
    ensures |after| == BANK
  {
    bank[..8] + PilotStage.Block() + bank[14..]
  }

  function HeaderOver(bank: seq<Word>): (after: seq<Word>)
    requires |bank| == BANK
    ensures |after| == BANK
  {
    PilotHeader.Block() + bank[7..]
  }

  /** The bank a preparation is to leave behind. */
  function Intended(bank: seq<Word>): (after: seq<Word>)
    requires |bank| == BANK
    ensures |after| == BANK
  {
    HeaderOver(StageOver(bank))
  }

  lemma OverlayExactly(bank: seq<Word>, header: seq<Word>, stage: seq<Word>)
    requires |bank| == BANK && |header| == 7 && |stage| == 6
    ensures var after := header + (bank[..8] + stage + bank[14..])[7..];
      && after[..7] == header && after[8..14] == stage
      && (forall i | 0 <= i < BANK && !(i < 7 || 8 <= i < 14) :: after[i] == bank[i])
      && (after == bank <==> bank[..7] == header && bank[8..14] == stage)
  {
    var after := header + (bank[..8] + stage + bank[14..])[7..];
    assert after == header + [bank[7]] + stage + bank[14..];
    assert bank == bank[..7] + [bank[7]] + bank[8..14] + bank[14..];
  }

  /** Offsets 7 and 14 to 166 keep their words; all others carry the recipe. */
  lemma IntendedExactly(bank: seq<Word>)
    requires |bank| == BANK
    ensures ValidPilot(Intended(bank))
    ensures forall i | 0 <= i < BANK && !(i < 7 || 8 <= i < 14) :: Intended(bank)[i] == bank[i]
    ensures Intended(bank) == bank <==> ValidPilot(bank)
  {
    var header, stage := PilotHeader.Block(), PilotStage.Block();
    assert |header| == 7 && |stage| == 6;
    OverlayExactly(bank, header, stage);
  }

  /** The bank after the first n of the two writes, terminal stage first. */
  function AfterWrites(bank: seq<Word>, n: nat): (after: seq<Word>)
    requires |bank| == BANK && n <= 2
    ensures |after| == BANK
  {
    if n == 0 then bank else if n == 1 then StageOver(bank) else Intended(bank)
  }

  /** Wherever the writes stop, the start guard accepts the bank only if it already is
      the intended final bank. */
  lemma CrashSafe(bank: seq<Word>, n: nat)
    requires |bank| == BANK && n <= 2
    ensures ValidPilot(AfterWrites(bank, n)) <==> AfterWrites(bank, n) == Intended(bank)
  {
    hide Intended;
    IntendedExactly(bank);
    if n == 1 {
      IntendedExactly(StageOver(bank));
      IntendedTwice(bank);
    }
  }

  /** Writing over a partial or complete preparation gives the same bank. */
  lemma IntendedTwice(bank: seq<Word>)
    requires |bank| == BANK
    ensures Intended(StageOver(bank)) == Intended(bank)
    ensures Intended(Intended(bank)) == Intended(bank)
  {
    assert StageOver(StageOver(bank)) == StageOver(bank);
    IntendedExactly(Intended(bank));
    IntendedExactly(bank);
  }

  function WithStage(memory: Memory): Memory { Effect(memory, PilotStage) }

  function WithPilot(memory: Memory): Memory { Effect(WithStage(memory), PilotHeader) }

  lemma PilotMemory(memory: Memory)
    ensures Bank(WithStage(memory), false) == StageOver(Bank(memory, false))
    ensures Bank(WithPilot(memory), false) == Intended(Bank(memory, false))
    ensures Bank(WithPilot(memory), true) == Bank(memory, true)
    ensures WithPilot(memory)[..2048] == memory[..2048] && WithPilot(memory)[2215..] == memory[2215..]
    ensures WithPilot(memory) == memory <==> Intended(Bank(memory, false)) == Bank(memory, false)
  {
    var m1, m2 := WithStage(memory), WithPilot(memory);
    StageMemory(memory);
    HeaderMemory(m1);
    if Bank(m2, false) == Bank(memory, false) {
      Reassemble(memory);
      Reassemble(m2);
    }
  }

  lemma Reassemble(memory: Memory)
    ensures memory == memory[..2048] + Bank(memory, false) + memory[2215..]
  {}

  lemma StageMemory(memory: Memory)
    ensures Bank(WithStage(memory), false) == StageOver(Bank(memory, false))
    ensures WithStage(memory)[..2048] == memory[..2048] && WithStage(memory)[2215..] == memory[2215..]
  {
    var after := WithStage(memory);
    assert after == memory[..2056] + PilotStage.Block() + memory[2062..];
  }

  lemma HeaderMemory(memory: Memory)
    ensures Bank(Effect(memory, PilotHeader), false) == HeaderOver(Bank(memory, false))
    ensures Effect(memory, PilotHeader)[..2048] == memory[..2048] && Effect(memory, PilotHeader)[2215..] == memory[2215..]
  {
    var after := Effect(memory, PilotHeader);
    assert after == memory[..2048] + PilotHeader.Block() + memory[2055..];
  }

  // ----- preparation -----

  datatype Snapshot = Snapshot(active: seq<Word>, bound: seq<Word>, modes: Frame, configuration: Frame) {
    predicate SameSettings(other: Snapshot) { modes == other.modes && configuration == other.configuration }
  }

  /** The replies an honest machine gives to the four snapshot reads. */
  function HonestSnapshot(memory: Memory): Snapshot {
    Snapshot(Bank(memory, false), Bank(memory, true),
             RegisterReply(memory[87..89]), RegisterReply(memory[0..37]))
  }

  /** Everything that must hold before a preparation may begin. */
  predicate Preparable(memory: Memory, coils: Coils) {
    && StateOfCoils(coils).Mode() == Idle
    && memory[1406] == 0
    && memory[87..89] == [2, 2]
    && ValidPilot(Bank(memory, true))
  }

  lemma ReplyLengthOf(frame: Frame, c: Command)
    requires IsReply(frame, c) && c.Function() == 3
    ensures |frame| == 2 * c.Value() + 5
  {
    hide IsReply;
    ReplyHeader(frame, c);
  }

  /** One register read kept as the whole frame. */
  method QueryFrame(link: Link, c: Command) returns (r: Result<Frame>)
    requires c.Function() == 3 && c.Value() <= 125 && c.Address() + c.Value() <= 0x10000
    modifies link`failed, link.world`env, link.world`cancelled, link.world`deeds, link.world`readings
    ensures Quiet(link)
    ensures r.Failure? ==> r.error != Rejected
    ensures r.Success? ==> |r.value| == 2 * c.Value() + 5
    ensures old(link.world.env).Honest? && r.Success? ==>
      var words := old(link.world.env).memory[c.Address()..c.Address() + c.Value()];
      r.value == RegisterReply(words) && Registers(r.value) == words
    ensures old(link.Reliable()) ==> r.Success?
  {
    hide IsReply, Registers, RegisterReply;
    r := link.Transact(c);
    if r.Success? {
      ReplyLengthOf(r.value, c);
      if old(link.world.env).Honest? {
        RegisterReplyDecodes(old(link.world.env).memory[c.Address()..c.Address() + c.Value()], c);
      }
    }
  }

  method Inspect(link: Link) returns (r: Result<Snapshot>)
    modifies link`failed, link.world`env, link.world`cancelled, link.world`deeds, link.world`readings
    ensures Quiet(link)
    ensures r.Success? ==> |r.value.active| == BANK && ValidPilot(r.value.bound)
    ensures old(link.world.env).Honest? && r.Success? ==> r.value == HonestSnapshot(old(link.world.env).memory)
    ensures old(link.Reliable()) ==>
      (r.Success? <==> Preparable(old(link.world.env).memory, old(link.world.env).coils))
      && (r.Failure? ==> r.error == Rejected)
  {
    hide IsReply, Registers, RegisterReply, StateOfCoils, OperatingState.Mode, ValidPilot, Bank;
    var _ :- RequireIdle(link);
    var configuration :- QueryFrame(link, ReadConfiguration);
    var telemetry :- QueryTelemetry(link);
    if telemetry.alarm {
      return Failure(Rejected);
    }
    var modes :- QueryFrame(link, ReadProfileModes);
    if Registers(modes) != [2, 2] {
      return Failure(Rejected);
    }
    var active :- ReadProfileBank(link, false);
    var bound :- ReadProfileBank(link, true);
    if !ValidPilot(bound) {
      return Failure(Rejected);
    }
    return Success(Snapshot(active, bound, modes, configuration));
  }

  /** The caller's storage of the snapshot; it may fail, and then nothing is written. */
  method Backup(link: Link) returns (r: Result<()>)
    modifies link`failed, link.world`env, link.world`cancelled, link.world`deeds
    ensures SameMachine(old(link.world.env), link.world.env)
    ensures old(link.Reliable()) ==> link.Reliable() && r.Success?
    ensures r.Success? ==> link.world.deeds == old(link.world.deeds) + [BackedUp]
    ensures r.Failure? ==> link.world.deeds == old(link.world.deeds)
  {
    var (choice, env) := Pause(link.world.env);
    link.world.env := env;
    if !choice.Reply? {
      var e := link.world.Admit(choice.error);
      return Failure(e);
    }
    link.world.deeds := link.world.deeds + [BackedUp];
    return Success(());
  }

  method SettingsUnchanged(link: Link, snapshot: Snapshot) returns (r: Result<bool>)
    modifies link`failed, link.world`env, link.world`cancelled, link.world`deeds, link.world`readings
    ensures Quiet(link)
    ensures r.Failure? ==> r.error != Rejected
    ensures old(link.world.env).Honest? && r.Success? ==>
      (r.value <==> HonestSnapshot(old(link.world.env).memory).SameSettings(snapshot))
    ensures old(link.Reliable()) ==> r.Success?
  {
    hide IsReply, RegisterReply;
    var modes :- QueryFrame(link, ReadProfileModes);
    if modes != snapshot.modes {
      return Success(false);
    }
    var configuration :- QueryFrame(link, ReadConfiguration);
    return Success(configuration == snapshot.configuration);
  }

  /** Every backed-up word again, immediately before the writes. */
  method Recheck(link: Link, snapshot: Snapshot) returns (r: Result<()>)
    modifies link`failed, link.world`env, link.world`cancelled, link.world`deeds, link.world`readings
    ensures Quiet(link)
    ensures old(link.world.env).Honest? && r.Success? ==> snapshot == HonestSnapshot(old(link.world.env).memory)
    ensures old(link.Reliable()) && StateOfCoils(old(link.world.env).coils).Mode() == Idle ==>
      (r.Success? <==> snapshot == HonestSnapshot(old(link.world.env).memory))
  {
    hide IsReply, RegisterReply, StateOfCoils, OperatingState.Mode, Bank;
    var active :- ReadProfileBank(link, false);
    if active != snapshot.active {
      return Failure(Rejected);
    }
    var bound :- ReadProfileBank(link, true);
    if bound != snapshot.bound {
      return Failure(Rejected);
    }
    var same :- SettingsUnchanged(link, snapshot);
    if !same {
      return Failure(Rejected);
    }
    r := RequireIdle(link);
  }

  /** Terminal stage first, header last, and nothing when the bank is as intended. */
  method WriteRecipe(link: Link, active: seq<Word>) returns (r: Result<nat>)
    requires |active| == BANK
    modifies link`failed, link.world`env, link.world`cancelled, link.world`deeds, link.world`readings
    ensures r != Failure(Rejected)
    ensures var d := link.world.disk;
      || link.world.deeds == old(link.world.deeds)
      || link.world.deeds == old(link.world.deeds) + [Sent(PilotStage, d)]
      || link.world.deeds == old(link.world.deeds) + [Sent(PilotStage, d), Sent(PilotHeader, d)]
    ensures ValidPilot(active) ==> link.world.deeds == old(link.world.deeds)
    ensures r.Success? ==> r.value == if ValidPilot(active) then 0 else 2
    ensures r.Success? ==> |link.world.deeds| == |old(link.world.deeds)| + r.value
    ensures old(link.world.env).Honest? ==>
      && link.world.env.Honest? && link.world.env.coils == old(link.world.env).coils
      && link.world.env.memory in
           {old(link.world.env).memory, WithStage(old(link.world.env).memory), WithPilot(old(link.world.env).memory)}
      && (r.Success? && active == Bank(old(link.world.env).memory, false) ==>
           link.world.env.memory == WithPilot(old(link.world.env).memory))
    ensures old(link.Reliable()) ==> r.Success? && link.Reliable()
  {
    hide Intended, ValidPilot, Bank, Effect, IsReply, HonestReply;
    IntendedExactly(active);
    if old(link.world.env).Honest? { PilotMemory(old(link.world.env).memory); }
    if Intended(active) == active {
      return Success(0);
    }
    var _ :- link.Transact(PilotStage);
    var _ :- link.Transact(PilotHeader);
    return Success(2);
  }

  /** Full readback of both banks and all settings, and idle once more. */
  method VerifyPrepared(link: Link, snapshot: Snapshot) returns (r: Result<()>)
    requires |snapshot.active| == BANK
    modifies link`failed, link.world`env, link.world`cancelled, link.world`deeds, link.world`readings
    ensures Quiet(link)
    ensures r != Failure(Rejected)
    ensures old(link.world.env).Honest? && r.Success? ==>
      HonestSnapshot(old(link.world.env).memory) == snapshot.(active := Intended(snapshot.active))
    ensures old(link.Reliable()) && StateOfCoils(old(link.world.env).coils).Mode() == Idle ==>
      (r.Success? <==> HonestSnapshot(old(link.world.env).memory) == snapshot.(active := Intended(snapshot.active)))
  {
    hide IsReply, RegisterReply, StateOfCoils, OperatingState.Mode, Bank, Intended;
    var after :- ReadProfileBank(link, false);
    var bound :- ReadProfileBank(link, true);
    if after != Intended(snapshot.active) || bound != snapshot.bound {
      return Failure(Protocol);
    }
    var same :- SettingsUnchanged(link, snapshot);
    if !same {
      return Failure(Protocol);
    }
    var state, _ := QueryState(link);
    if state.Failure? {
      return Failure(state.error);
    }
    if state.value.Mode() != Idle {
      return Failure(Protocol);
    }
    return Success(());
  }

  /** What a preparation may have done by the time it ends, however it ends. */
  ghost predicate PreparationDeeds(before: seq<Deed>, after: seq<Deed>, d: Locks) {
    || after == before
    || after == before + [BackedUp]
    || after == before + [BackedUp, Sent(PilotStage, d)]
    || after == before + [BackedUp, Sent(PilotStage, d), Sent(PilotHeader, d)]
  }

  /** Copy the one known recipe into active storage; never activate it. */
  method PrepareProfile(link: Link) returns (r: Result<nat>)
    modifies link`failed, link.world`env, link.world`cancelled, link.world`deeds, link.world`readings
    // writes come after the completed backup, in order, and not at all when rejected
    ensures PreparationDeeds(old(link.world.deeds), link.world.deeds, link.world.disk)
    ensures r == Failure(Rejected) ==>
      link.world.deeds == old(link.world.deeds) || link.world.deeds == old(link.world.deeds) + [BackedUp]
    ensures r.Success? ==> |link.world.deeds| == |old(link.world.deeds)| + 1 + r.value
    // real memory is at one of the three points the two writes can leave it
    ensures old(link.world.env).Honest? ==>
      && link.world.env.Honest?
      && link.world.env.memory in
           {old(link.world.env).memory, WithStage(old(link.world.env).memory), WithPilot(old(link.world.env).memory)}
      && (r.Success? ==>
           && link.world.env.memory == WithPilot(old(link.world.env).memory)
           && r.value == if ValidPilot(Bank(old(link.world.env).memory, false)) then 0 else 2)
    // an active bank that already is the recipe draws no write, however the link behaves
    ensures old(link.world.env).Honest? && ValidPilot(Bank(old(link.world.env).memory, false)) ==>
      link.world.deeds == old(link.world.deeds) || link.world.deeds == old(link.world.deeds) + [BackedUp]
    // with nothing going wrong it succeeds exactly when the machine is preparable
    ensures old(link.Reliable()) ==> link.Reliable()
    ensures old(link.Reliable()) ==>
      if Preparable(old(link.world.env).memory, old(link.world.env).coils) then r.Success? else r == Failure(Rejected)
  {
    hide StateOfCoils, OperatingState.Mode, ValidPilot, Bank, Intended, WithStage, WithPilot, RegisterReply;
    ghost var env := link.world.env;
    if env.Honest? { PreparedSnapshot(env.memory); }
    var snapshot :- Inspect(link);
    var _ :- Backup(link);
    var _ :- Recheck(link, snapshot);
    var writes :- WriteRecipe(link, snapshot.active);
    var _ :- VerifyPrepared(link, snapshot);
    return Success(writes);
  }

  /** A second preparation, after a first that succeeded, writes nothing whatever goes wrong
      with it: both together send the two writes at most, and back up at most twice. */
  method PrepareTwice(first: Link, second: Link) returns (r: Result<nat>, again: Result<nat>)
    requires first.world == second.world
    modifies first`failed, second`failed
    modifies first.world`env, first.world`cancelled, first.world`deeds, first.world`readings
    ensures old(first.world.env).Honest? && r.Success? ==>
      var done := old(first.world.deeds) + (if r.value == 0 then [BackedUp]
        else [BackedUp, Sent(PilotStage, first.world.disk), Sent(PilotHeader, first.world.disk)]);
      && (first.world.deeds == done || first.world.deeds == done + [BackedUp])
      && first.world.env.Honest? && first.world.env.memory == WithPilot(old(first.world.env).memory)
    ensures old(first.world.env).Honest? && r.Success? && again.Success? ==> again.value == 0
  {
    hide StateOfCoils, OperatingState.Mode, ValidPilot, Bank, Intended, WithStage, WithPilot, Preparable;
    ghost var memory := if first.world.env.Honest? then first.world.env.memory else seq(0x10000, _ => 0);
    r := PrepareProfile(first);
    PreparedBank(memory);
    again := PrepareProfile(second);
  }

  lemma PreparedBank(memory: Memory)
    ensures ValidPilot(Bank(WithPilot(memory), false)) && WithPilot(WithPilot(memory)) == WithPilot(memory)
    ensures WithStage(WithPilot(memory)) == WithPilot(memory)
  {
    hide Intended, WithPilot, ValidPilot, Bank, WithStage;
    PilotMemory(memory);
    PilotMemory(WithPilot(memory));
    IntendedExactly(Bank(memory, false));
    IntendedTwice(Bank(memory, false));
    StageOnPrepared(WithPilot(memory));
  }

  lemma StageOnPrepared(memory: Memory)
    requires ValidPilot(Bank(memory, false))
    ensures WithStage(memory) == memory
  {
    hide WithStage, Bank;
    StageMemory(memory);
    var bank := Bank(memory, false);
    assert bank == bank[..8] + bank[8..14] + bank[14..];
    Reassemble(memory);
    Reassemble(WithStage(memory));
  }

  lemma PreparedSnapshot(memory: Memory)
    ensures var s := HonestSnapshot(memory);
      |s.active| == BANK && HonestSnapshot(WithPilot(memory)) == s.(active := Intended(s.active))
  {
    hide RegisterReply, Bank, Intended, WithPilot;
    PilotMemory(memory);
    var after := WithPilot(memory);
    assert after[87..89] == after[..2048][87..89] == memory[87..89];
    assert after[0..37] == after[..2048][0..37] == memory[0..37];
  }

  /** A second preparation of a prepared machine writes nothing, and a start accepts it. */
  lemma RepeatWritesNothing(memory: Memory, coils: Coils)
    requires Preparable(memory, coils)
    ensures Preparable(WithPilot(memory), coils)
    ensures ValidPilot(Bank(WithPilot(memory), false))
    ensures WithPilot(WithPilot(memory)) == WithPilot(memory)
  {
    hide StateOfCoils, OperatingState.Mode, Intended, WithPilot, ValidPilot, Bank;
    var after := WithPilot(memory);
    PilotMemory(memory);
    PilotMemory(after);
    IntendedExactly(Bank(memory, false));
    IntendedTwice(Bank(memory, false));
    assert after[87..89] == after[..2048][87..89] == memory[87..89];
    assert after[1406] == after[..2048][1406] == memory[1406];
  }
}
