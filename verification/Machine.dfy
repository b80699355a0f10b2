/** The world a control transaction runs in: a machine, a link that may fail at every
    await, a durable lock store, and a record of everything that was sent or decided. */
module Machine {
  import opened Bytes
  import opened Outcomes
  import opened Reads
  import opened Commands
  import opened Decoding

  /** What happens to one exchange with an honest machine: nothing wrong, never sent, lost
      before it took effect, or cut off after it took effect. */
  datatype Fault = Fine | Unsent(error: Error) | Lost(error: Error) | Cut(error: Error)

  /** The adversary's choice at one await. */
  datatype Choice = Reply(frame: Frame) | Fails(error: Error) | NeverSent(error: Error)

  type Memory = m: seq<Word> | |m| == 0x10000 witness seq(0x10000, _ => 0)
  type Coils = c: seq<Byte> | |c| == 3 witness [0, 0, 0]

  /** Either an adversary that answers anything a command accepts, or real register memory
      behind an unreliable link. */
  datatype Env =
    | Adversary(script: seq<Choice>)
    | Honest(memory: Memory, coils: Coils, faults: seq<Fault>)

  /** The operating coils after a command has taken effect. Switching coil 150 on toggles the
      stored profile and switching coil 155 on toggles the cleaning program; switching either
      off, and every other command, leaves the machine as it is. */
  function Swing(coils: Coils, c: Command): Coils {
    if c.Function() != 5 || c.Value() != 0xFF00 then coils
    else if c.Address() == 150 then [Flip(coils[0], 1), coils[1], coils[2]]
    else if c.Address() == 155 then [Flip(coils[0], 0x20), coils[1], coils[2]]
    else coils
  }

  function Flip(b: Byte, weight: Byte): Byte
    requires weight == 1 || weight == 0x20
  {
    var v: int := b;
    if BitSet(b, weight) then v - weight else v + weight
  }

  lemma ReleaseEffect(c: Command)
    requires c.IsRelease()
    ensures forall memory: Memory :: Effect(memory, c) == memory
    ensures forall coils: Coils :: Swing(coils, c) == coils
  {}

  lemma SwingOnly(c: Command)
    ensures c.Function() != 5 ==> forall coils: Coils :: Swing(coils, c) == coils
  {}

  /** From idle each press starts its own program and no other. */
  lemma SwingStarts(coils: Coils, kind: Kind)
    requires StateOfCoils(coils).Mode() == Idle
    ensures StateOfCoils(Swing(coils, kind.Press())).Mode() == kind.Running()
    ensures Swing(coils, kind.Release()) == coils && Swing(Swing(coils, kind.Press()), kind.Release()) == Swing(coils, kind.Press())
  {
    ModesExactly(coils);
    assert coils == [0, 0, 0];
    ModesExactly([1, 0, 0]);
    ModesExactly([0x20, 0, 0]);
    assert !BitSet(0, 1) && !BitSet(0, 0x20);
    hide StateOfCoils, OperatingState.Mode;
  }

  /** Register memory after a command has taken effect; coil writes leave it alone. */
  function Effect(memory: Memory, c: Command): Memory {
    match c.Function()
    case 6 => memory[c.Address() := c.Value()]
    case 16 => WriteBlock(memory, c.Address(), c.Block())
    case _ => memory
  }

  function WriteBlock(memory: Memory, address: Word, words: seq<Word>): (after: Memory)
    ensures address + |words| <= 0x10000 ==>
      after[address..address + |words|] == words
  {
    if address + |words| > 0x10000 then memory
    else memory[..address] + words + memory[address + |words|..]
  }

  function HonestReply(memory: Memory, coils: Coils, c: Command): Frame {
    if c.Function() == 1 then CoilReply(coils)
    else if c.Function() == 3 then RegisterReply(memory[c.Address()..c.Address() + c.Value()])
    else AppendCrcOf(c)
  }

  function AppendCrcOf(c: Command): Frame { Crc.AppendCrc(Prologue(c)) }

  lemma HonestReplyAccepted(memory: Memory, coils: Coils, c: Command)
    ensures IsReply(HonestReply(memory, coils, c), c)
  {
    hide IsReply, RegisterReply, CoilReply;
    if c.Function() == 1 {
      CoilReplyDecodes(coils);
    } else if c.Function() == 3 {
      RegisterReplyDecodes(memory[c.Address()..c.Address() + c.Value()], c);
    } else {
      EchoAccepted(c);
    }
  }

  lemma EchoAccepted(c: Command)
    requires !c.IsRead()
    ensures IsReply(AppendCrcOf(c), c)
  {}

  function NextFault(faults: seq<Fault>): Fault { if faults == [] then Fine else faults[0] }

  function LaterFaults(faults: seq<Fault>): seq<Fault> { if faults == [] then [] else faults[1..] }

  /** One request and its answer. */
  function Exchange(env: Env, c: Command): (Choice, Env) {
    match env
    case Adversary(script) =>
      if script == [] then (Fails(Timeout), env) else (script[0], Adversary(script[1..]))
    case Honest(memory, coils, faults) =>
      match NextFault(faults)
      case Fine => (Reply(HonestReply(memory, coils, c)), Honest(Effect(memory, c), Swing(coils, c), LaterFaults(faults)))
      case Unsent(e) => (NeverSent(e), Honest(memory, coils, LaterFaults(faults)))
      case Lost(e) => (Fails(e), Honest(memory, coils, LaterFaults(faults)))
      case Cut(e) => (Fails(e), Honest(Effect(memory, c), Swing(coils, c), LaterFaults(faults)))
  }

  /** Any other await: a reply stands for going on. */
  function Pause(env: Env): (Choice, Env) {
    match env
    case Adversary(script) =>
      if script == [] then (Reply([]), env) else (script[0], Adversary(script[1..]))
    case Honest(memory, coils, faults) =>
      var later := Honest(memory, coils, LaterFaults(faults));
      match NextFault(faults)
      case Fine => (Reply([]), later)
      case Unsent(e) => (NeverSent(e), later)
      case Lost(e) => (NeverSent(e), later)
      case Cut(e) => (Fails(e), later)
  }

  // ----- the record -----

  /** The two toggles whose outcome can be uncertain. */
  datatype Kind = Brew | Clean {
    function Press(): Command { if Brew? then ProfilePress else CleaningPress }

    function Release(): Command { if Brew? then ProfileRelease else CleaningRelease }

    /** The state read that confirms the toggle. */
    function Running(): Mode { if Brew? then Profile else Cleaning }
  }

  datatype Locks = Locks(profile: bool, preparation: bool, cleaning: bool) {
    function Of(kind: Kind): bool { if kind.Brew? then profile else cleaning }

    function Without(kind: Kind): Locks { if kind.Brew? then this.(profile := false) else this.(cleaning := false) }
  }

  /** Everything but reads: control commands with the durable locks at that instant,
      confirmed starts and acknowledgements with the state read they rest on, backups. */
  datatype Deed =
    | Sent(command: Command, durable: Locks)
    | Confirmed(kind: Kind, state: Frame)
    | Acknowledged(kind: Kind, state: Frame)
    | BackedUp

  datatype Reading = Reading(command: Command, frame: Frame)

  class World {
    var env: Env
    var cancelled: bool
    var disk: Locks
    var deeds: seq<Deed>
    var readings: seq<Reading>

    constructor (env: Env, disk: Locks)
      ensures this.env == env && this.disk == disk && !cancelled && deeds == [] && readings == []
    {
      this.env, this.disk, cancelled, deeds, readings := env, disk, false, [], [];
    }

    /** ControlRejected is never raised by the link, and a task is cancelled at most once. */
    method Admit(error: Error) returns (e: Error)
      modifies this`cancelled
      ensures e != Rejected
      ensures e == Died <==> error == Died
    {
      e := if error == Rejected || (error == Cancelled && cancelled) then Timeout else error;
      if e == Cancelled {
        cancelled := true;
      }
    }
  }

  /** A control session as its transactions see it: after any failure it is quarantined. */
  class Link {
    const world: World
    var failed: bool

    constructor (world: World)
      ensures this.world == world && !failed
    {
      this.world, failed := world, false;
    }

    ghost predicate Reliable()
      reads this, world
    {
      !failed && world.env.Honest? && world.env.faults == []
    }

    method Transact(c: Command) returns (r: Result<Frame>)
      modifies this`failed, world`env, world`cancelled, world`deeds, world`readings
      // what every exchange of the session guarantees
      ensures Exchanged(c, old(failed), failed, r)
      ensures r.Failure? ==> r.error != Rejected
      ensures old(failed) ==> r.Failure? && r.error != Died
      // the record
      ensures c.IsRead() || old(failed) ==> world.deeds == old(world.deeds)
      ensures world.deeds == old(world.deeds) || world.deeds == old(world.deeds) + [Sent(c, world.disk)]
      ensures r.Success? && !c.IsRead() ==> world.deeds == old(world.deeds) + [Sent(c, world.disk)]
      ensures r.Success? ==> world.readings == old(world.readings) + [Reading(c, r.value)]
      ensures r.Failure? ==> world.readings == old(world.readings)
      // the machine
      ensures old(world.env).Honest? ==>
        && world.env.Honest?
        && (world.env.coils == old(world.env).coils || world.env.coils == Swing(old(world.env).coils, c))
        && (world.env.memory == old(world.env).memory || world.env.memory == Effect(old(world.env).memory, c))
        && (r.Success? ==>
             && world.env.memory == Effect(old(world.env).memory, c)
             && world.env.coils == Swing(old(world.env).coils, c)
             && r.value == HonestReply(old(world.env).memory, old(world.env).coils, c))
      ensures c.Function() != 5 ==> (old(world.env).Honest? ==> world.env.coils == old(world.env).coils)
      ensures old(Reliable()) ==> Reliable() && r.Success?
      ensures old(world.env).Honest? && !c.IsRead() && world.deeds == old(world.deeds) ==>
        world.env.memory == old(world.env).memory && world.env.coils == old(world.env).coils
    {
      hide IsReply, Effect, HonestReply, Swing;
      SwingOnly(c);
      if failed {
        return Failure(Unavailable);
      }
      var (choice, env) := Exchange(world.env, c);
      if world.env.Honest? { HonestReplyAccepted(world.env.memory, world.env.coils, c); }
      world.env := env;
      if choice.NeverSent? {
        failed := true;
        var e := world.Admit(choice.error);
        return Failure(e);
      }
      if !c.IsRead() {
        world.deeds := world.deeds + [Sent(c, world.disk)];
      }
      if choice.Reply? && IsReply(choice.frame, c) {
        world.readings := world.readings + [Reading(c, choice.frame)];
        return Success(choice.frame);
      }
      failed := true;
      var e := world.Admit(if choice.Fails? then choice.error else Protocol);
      return Failure(e);
    }

    /** A sleep; a disconnection meanwhile is noticed by the next exchange. */
    method Sleep() returns (r: Result<()>)
      modifies this`failed, world`env, world`cancelled
      ensures r.Failure? ==> r.error == Cancelled || r.error == Died
      ensures old(world.env).Honest? ==>
        world.env.Honest? && world.env.coils == old(world.env).coils && world.env.memory == old(world.env).memory
      ensures old(Reliable()) ==> Reliable() && r.Success?
    {
      var (choice, env) := Pause(world.env);
      world.env := env;
      if choice.Reply? {
        return Success(());
      }
      var e := world.Admit(choice.error);
      if e == Cancelled || e == Died {
        return Failure(e);
      }
      failed := true;
      return Success(());
    }

    /** release_press in its own shielded task: through the session while it is clean,
        past it when it is quarantined; sent once either way unless the process dies. */
    method ReleasePress(c: Command) returns (r: Result<()>)
      requires c.IsRelease()
      modifies this`failed, world`env, world`cancelled, world`deeds
      ensures r.Failure? ==> r.error != Rejected
      ensures world.deeds == old(world.deeds) + [Sent(c, world.disk)]
        || (r == Failure(Died) && world.deeds == old(world.deeds))
      // the machine
      ensures old(world.env).Honest? ==>
        world.env.Honest? && world.env.coils == old(world.env).coils && world.env.memory == old(world.env).memory
      ensures old(Reliable()) ==> Reliable() && r.Success?
    {
      hide IsReply, HonestReply, Swing, Effect;
      ReleaseEffect(c);
      if world.env.Honest? { HonestReplyAccepted(world.env.memory, world.env.coils, c); }
      var (choice, env) := Exchange(world.env, c);
      world.env := env;
      if choice == NeverSent(Died) {
        return Failure(Died);
      }
      if choice.NeverSent? {
        failed := true;
      }
      world.deeds := world.deeds + [Sent(c, world.disk)];
      if failed {
        if choice.Fails? && choice.error != Rejected {
          r := Failure(choice.error);
        } else {
          r := Success(());
        }
      } else if choice.Reply? && IsReply(choice.frame, c) {
        r := Success(());
      } else {
        failed := true;
        r := Failure(if choice == Fails(Died) then Died else Protocol);
      }
      if r.Success? || r.error != Died {
        // The shielding await: a cancellation is raised only after the release is over.
        var interrupted := Sleep();
        if r.Success? {
          r := interrupted;
        } else if interrupted == Failure(Died) {
          r := interrupted;
        }
      }
    }
  }
}
