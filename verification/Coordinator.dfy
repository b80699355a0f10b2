/** The three durable uncertainty locks of coordinator.py and the operations under its
    connection lock, against any machine, any failed await and the death of the process. */
module Coordinator {
  import opened Bytes
  import opened Outcomes
  import opened Reads
  import opened Commands
  import opened Decoding
  import opened Machine
  import opened Boiler
  import opened Profile
  import opened Starts

  // ----- what the record of deeds must satisfy -----

  predicate Presses(deed: Deed, kind: Kind) { deed.Sent? && deed.command == kind.Press() }

  /** A confirmed running state, or an acknowledgement after a fresh idle read. */
  predicate Settles(deed: Deed, kind: Kind) {
    (deed.Confirmed? && deed.kind == kind) || (deed.Acknowledged? && deed.kind == kind)
  }

  /** The latest press has not been settled. */
  function Unsettled(deeds: seq<Deed>, kind: Kind): bool {
    if deeds == [] then false
    else
      var last := deeds[|deeds| - 1];
      if Presses(last, kind) then true
      else if Settles(last, kind) then false
      else Unsettled(deeds[..|deeds| - 1], kind)
  }

  /** Any two presses of a toggle have a settlement between them. */
  ghost predicate Separated(deeds: seq<Deed>, kind: Kind) {
    forall i, j | 0 <= i < j < |deeds| && Presses(deeds[i], kind) && Presses(deeds[j], kind) ::
      exists m :: i < m < j && Settles(deeds[m], kind)
  }

  /** The durable lock was set when a press went out; settlements rest on the right reply. */
  ghost predicate Sound(deed: Deed) {
    match deed
    case Sent(c, durable) => (c == ProfilePress ==> durable.profile) && (c == CleaningPress ==> durable.cleaning)
    case Confirmed(kind, frame) => ShowsMode(frame, kind.Running())
    case Acknowledged(_, frame) => ShowsMode(frame, Idle)
    case BackedUp => true
  }

  ghost predicate Safe(deeds: seq<Deed>) {
    && Separated(deeds, Brew) && Separated(deeds, Clean)
    && forall deed | deed in deeds :: Sound(deed)
  }

  lemma UnsettledMore(deeds: seq<Deed>, deed: Deed, kind: Kind)
    ensures Unsettled(deeds + [deed], kind) ==
      if Presses(deed, kind) then true else if Settles(deed, kind) then false else Unsettled(deeds, kind)
  {
    assert (deeds + [deed])[..|deeds|] == deeds;
  }

  /** When nothing is unsettled every press so far has a settlement after it. */
  lemma {:induction false} SettledAfter(deeds: seq<Deed>, kind: Kind, i: nat) returns (m: nat)
    requires i < |deeds| && Presses(deeds[i], kind) && !Unsettled(deeds, kind)
    ensures i < m < |deeds| && Settles(deeds[m], kind)
  {
    var last := |deeds| - 1;
    if Settles(deeds[last], kind) {
      m := last;
    } else {
      m := SettledAfter(deeds[..last], kind, i);
    }
  }

  lemma SeparatedMore(deeds: seq<Deed>, deed: Deed, kind: Kind)
    requires Separated(deeds, kind) && (Presses(deed, kind) ==> !Unsettled(deeds, kind))
    ensures Separated(deeds + [deed], kind)
  {
    var more := deeds + [deed];
    forall i, j | 0 <= i < j < |more| && Presses(more[i], kind) && Presses(more[j], kind)
      ensures exists m :: i < m < j && Settles(more[m], kind)
    {
      if j < |deeds| {
        var m :| i < m < j && Settles(deeds[m], kind);
        assert Settles(more[m], kind);
      } else {
        var m := SettledAfter(deeds, kind, i);
        assert Settles(more[m], kind);
      }
    }
  }

  lemma SafeMore(deeds: seq<Deed>, deed: Deed)
    requires Safe(deeds) && Sound(deed)
    requires Presses(deed, Brew) ==> !Unsettled(deeds, Brew)
    requires Presses(deed, Clean) ==> !Unsettled(deeds, Clean)
    ensures Safe(deeds + [deed])
  {
    hide Separated, Sound;
    SeparatedMore(deeds, deed, Brew);
    SeparatedMore(deeds, deed, Clean);
  }

  /** A deed that neither presses nor settles a start. */
  predicate Neutral(deed: Deed) {
    deed.BackedUp? || (deed.Sent? && !deed.command.IsPress())
  }

  lemma NeutralMore(deeds: seq<Deed>, deed: Deed)
    requires Neutral(deed)
    ensures Safe(deeds) ==> Safe(deeds + [deed])
    ensures forall kind :: Unsettled(deeds + [deed], kind) == Unsettled(deeds, kind)
  {
    hide Safe, Unsettled;
    forall kind ensures Unsettled(deeds + [deed], kind) == Unsettled(deeds, kind) { UnsettledMore(deeds, deed, kind); }
    if Safe(deeds) { SafeMore(deeds, deed); }
  }

  lemma SettleMore(deeds: seq<Deed>, deed: Deed, kind: Kind)
    requires Settles(deed, kind) && Sound(deed)
    ensures Safe(deeds) ==> Safe(deeds + [deed])
    ensures !Unsettled(deeds + [deed], kind)
    ensures forall other | other != kind :: Unsettled(deeds + [deed], other) == Unsettled(deeds, other)
  {
    hide Safe, Unsettled, Sound;
    forall k ensures Unsettled(deeds + [deed], k) == if Settles(deed, k) then false else Unsettled(deeds, k) {
      UnsettledMore(deeds, deed, k);
    }
    if Safe(deeds) { SafeMore(deeds, deed); }
  }

  lemma PressMore(deeds: seq<Deed>, kind: Kind, d: Locks)
    requires d.Of(kind) && !Unsettled(deeds, kind)
    ensures Safe(deeds) ==> Safe(deeds + [Sent(kind.Press(), d)])
    ensures forall other | other != kind :: Unsettled(deeds + [Sent(kind.Press(), d)], other) == Unsettled(deeds, other)
  {
    hide Safe, Unsettled;
    var deed := Sent(kind.Press(), d);
    forall other ensures other != kind ==> Unsettled(deeds + [deed], other) == Unsettled(deeds, other) {
      UnsettledMore(deeds, deed, other);
    }
    if Safe(deeds) { SafeMore(deeds, deed); }
  }

  /** A start under its durable lock keeps the record safe, however it ends. */
  lemma PulsedSafe(before: seq<Deed>, after: seq<Deed>, kind: Kind, d: Locks, died: bool)
    requires Safe(before) && !Unsettled(before, kind) && d.Of(kind)
    requires Pulsed(before, after, kind, d, died) || Started(before, after, kind, d)
    ensures Safe(after)
    ensures forall other | other != kind :: Unsettled(after, other) == Unsettled(before, other)
    ensures Started(before, after, kind, d) ==> !Unsettled(after, kind)
  {
    hide Safe, Unsettled, ShowsMode;
    var press, release := Sent(kind.Press(), d), Sent(kind.Release(), d);
    PressMore(before, kind, d);
    NeutralMore(before, release);
    NeutralMore(before + [press], release);
    assert before + [press, release] == before + [press] + [release];
    if Started(before, after, kind, d) {
      var confirmed := after[|before| + 2];
      SettleMore(before + [press, release], confirmed, kind);
      assert after == before + [press, release] + [confirmed];
    }
  }

  lemma PreparationSafe(before: seq<Deed>, after: seq<Deed>, d: Locks)
    requires Safe(before) && PreparationDeeds(before, after, d)
    ensures Safe(after)
    ensures forall kind :: Unsettled(after, kind) == Unsettled(before, kind)
  {
    hide Safe, Unsettled;
    var b1 := before + [BackedUp];
    var b2 := b1 + [Sent(PilotStage, d)];
    NeutralMore(before, BackedUp);
    NeutralMore(b1, Sent(PilotStage, d));
    NeutralMore(b2, Sent(PilotHeader, d));
    assert before + [BackedUp, Sent(PilotStage, d)] == b2;
    assert before + [BackedUp, Sent(PilotStage, d), Sent(PilotHeader, d)] == b2 + [Sent(PilotHeader, d)];
  }

  // ----- the coordinator -----

  /** Each lock set in a is set in b. */
  predicate Within(a: Locks, b: Locks) {
    (a.profile ==> b.profile) && (a.preparation ==> b.preparation) && (a.cleaning ==> b.cleaning)
  }

  datatype Operation =
    | ProfileStart(pendingSchedule: bool)
    | CleaningStart
    | Preparation(pendingSchedule: bool)
    | Acknowledgement(kind: Kind)
    | BoilerSwitch(setting: BoilerSetting, enabled: bool)
    | Reload
  {
    /** The only control commands the operation may send. */
    function Commands(): set<Command> {
      match this
      case ProfileStart(_) => {ProfilePress, ProfileRelease}
      case CleaningStart => {CleaningPress, CleaningRelease}
      case Preparation(_) => {PilotStage, PilotHeader}
      case BoilerSwitch(setting, enabled) => if setting.Switch() then {SwitchCommand(setting, enabled)} else {}
      case _ => {}
    }

    predicate Starts(kind: Kind) { (ProfileStart? && kind.Brew?) || (CleaningStart? && kind.Clean?) }
  }

  // ----- what operations may add to the record -----

  /** The record is only extended, by commands of the operation, with one press at most. */
  ghost predicate Adds(before: seq<Deed>, after: seq<Deed>, op: Operation) {
    && before <= after
    && (forall k | |before| <= k < |after| && after[k].Sent? :: after[k].command in op.Commands())
    && (forall kind: Kind :: Count(after, kind.Press()) <= Count(before, kind.Press()) + (if op.Starts(kind) then 1 else 0))
  }

  /** How many of the operations ask for a start. */
  function Requests(operations: seq<Operation>, kind: Kind): nat {
    if operations == [] then 0
    else Requests(operations[..|operations| - 1], kind) + (if operations[|operations| - 1].Starts(kind) then 1 else 0)
  }

  ghost predicate Asked(operations: seq<Operation>, c: Command) {
    exists i | 0 <= i < |operations| :: c in operations[i].Commands()
  }

  /** Nothing is sent that no operation asked for, and no start is pressed more often than asked. */
  ghost predicate Granted(operations: seq<Operation>, before: seq<Deed>, after: seq<Deed>) {
    && before <= after
    && (forall k | |before| <= k < |after| && after[k].Sent? :: Asked(operations, after[k].command))
    && (forall kind: Kind :: Count(after, kind.Press()) <= Count(before, kind.Press()) + Requests(operations, kind))
  }

  lemma AskedMore(operations: seq<Operation>, op: Operation, c: Command)
    requires Asked(operations, c) || c in op.Commands()
    ensures Asked(operations + [op], c)
  {
    hide Operation.Commands;
    var more := operations + [op];
    if c in op.Commands() {
      assert c in more[|operations|].Commands();
    } else {
      var i :| 0 <= i < |operations| && c in operations[i].Commands();
      assert c in more[i].Commands();
    }
  }

  lemma GrantedMore(operations: seq<Operation>, op: Operation, before: seq<Deed>, middle: seq<Deed>, after: seq<Deed>)
    requires Granted(operations, before, middle) && Adds(middle, after, op)
    ensures Granted(operations + [op], before, after)
  {
    hide Asked, Operation.Commands, Count, Operation.Starts;
    assert (operations + [op])[..|operations|] == operations;
    forall k | |before| <= k < |after| && after[k].Sent? ensures Asked(operations + [op], after[k].command) {
      if k < |middle| { assert middle[k] == after[k]; }
      AskedMore(operations, op, after[k].command);
    }
  }

  lemma CountMore(deeds: seq<Deed>, deed: Deed, c: Command)
    ensures Count(deeds + [deed], c) == Count(deeds, c) + (if deed.Sent? && deed.command == c then 1 else 0)
  {
    assert (deeds + [deed])[..|deeds|] == deeds;
  }

  lemma AddsNothing(deeds: seq<Deed>, op: Operation)
    ensures Adds(deeds, deeds, op)
  {
    hide Count;
  }

  /** One more deed of the operation; a press only when nothing was pressed before. */
  lemma AddsMore(before: seq<Deed>, after: seq<Deed>, deed: Deed, op: Operation)
    requires Adds(before, after, op) && (deed.Sent? ==> deed.command in op.Commands() && !deed.command.IsPress())
    ensures Adds(before, after + [deed], op)
  {
    hide Count, Operation.Commands, Operation.Starts;
    forall kind: Kind ensures Count(after + [deed], kind.Press()) == Count(after, kind.Press()) {
      CountMore(after, deed, kind.Press());
    }
  }

  lemma AddsPress(before: seq<Deed>, kind: Kind, d: Locks, op: Operation)
    requires op.Starts(kind)
    ensures Adds(before, before + [Sent(kind.Press(), d)], op)
  {
    hide Count;
    forall other: Kind ensures Count(before + [Sent(kind.Press(), d)], other.Press())
      == Count(before, other.Press()) + (if other == kind then 1 else 0)
    {
      CountMore(before, Sent(kind.Press(), d), other.Press());
    }
  }

  lemma PulsedAdds(before: seq<Deed>, after: seq<Deed>, kind: Kind, d: Locks, died: bool, op: Operation)
    requires Pulsed(before, after, kind, d, died) || Started(before, after, kind, d)
    requires op.Starts(kind)
    ensures Adds(before, after, op)
  {
    hide Adds, ShowsMode;
    var press, release := Sent(kind.Press(), d), Sent(kind.Release(), d);
    AddsNothing(before, op);
    AddsMore(before, before, release, op);
    AddsPress(before, kind, d, op);
    AddsMore(before, before + [press], release, op);
    assert before + [press, release] == before + [press] + [release];
    if Started(before, after, kind, d) {
      assert after == before + [press, release] + [after[|before| + 2]];
      AddsMore(before, before + [press, release], after[|before| + 2], op);
    }
  }

  lemma NothingPulsed(deeds: seq<Deed>, kind: Kind, d: Locks)
    ensures forall died: bool :: Pulsed(deeds, deeds, kind, d, died)
  {}

  lemma PreparedNothing(deeds: seq<Deed>, d: Locks)
    ensures PreparationDeeds(deeds, deeds, d)
  {}

  lemma PreparationAdds(before: seq<Deed>, after: seq<Deed>, d: Locks, op: Operation)
    requires PreparationDeeds(before, after, d) && op.Preparation?
    ensures Adds(before, after, op)
  {
    hide Adds;
    var b1 := before + [BackedUp];
    var b2 := b1 + [Sent(PilotStage, d)];
    AddsNothing(before, op);
    AddsMore(before, before, BackedUp, op);
    AddsMore(before, b1, Sent(PilotStage, d), op);
    AddsMore(before, b2, Sent(PilotHeader, d), op);
    assert before + [BackedUp, Sent(PilotStage, d)] == b2;
    assert before + [BackedUp, Sent(PilotStage, d), Sent(PilotHeader, d)] == b2 + [Sent(PilotHeader, d)];
  }

  // ----- the coordinator itself -----

  /** Real memory behind a link and a store on which nothing goes wrong. */
  predicate Faultless(env: Env) {
    env.Honest? && env.faults == []
  }

  class Coordinator {
    const world: World
    var locks: Locks

    /** What holds between operations, and so at every acquisition of the connection lock. */
    ghost predicate Valid()
      reads this, world
    {
      && Within(world.disk, locks)
      && Safe(world.deeds)
      && (forall kind :: Unsettled(world.deeds, kind) ==> world.disk.Of(kind))
      && !(locks.profile && (locks.preparation || locks.cleaning))
    }

    /** async_load_control_state on a store that holds what an earlier process left. */
    constructor (world: World)
      requires Safe(world.deeds) && forall kind :: Unsettled(world.deeds, kind) ==> world.disk.Of(kind)
      requires !(world.disk.profile && (world.disk.preparation || world.disk.cleaning))
      ensures this.world == world && locks == world.disk && Valid()
    {
      this.world := world;
      locks := world.disk;
    }

    method Load()
      requires Valid()
      modifies this`locks
      ensures Valid() && locks == world.disk
    {
      locks := world.disk;
    }

    /** async_save: it may fail before or after the document reached the disk. */
    method Store(document: Locks) returns (r: Result<()>)
      modifies world`env, world`cancelled, world`disk
      ensures r != Failure(Rejected)
      ensures world.disk == document || (r.Failure? && world.disk == old(world.disk))
      ensures Faultless(old(world.env)) ==> r.Success? && world.env == old(world.env)
    {
      var (choice, env) := Pause(world.env);
      world.env := env;
      if !choice.NeverSent? {
        world.disk := document;
      }
      if choice.Reply? {
        return Success(());
      }
      var e := world.Admit(choice.error);
      return Failure(e);
    }

    method SaveProfileLock(locked: bool) returns (r: Result<()>)
      requires Within(world.disk, locks)
      modifies this`locks, world`env, world`cancelled, world`disk
      ensures Within(world.disk, locks) && r != Failure(Rejected)
      ensures r.Success? ==> world.disk == locks == old(locks).(profile := locked)
      ensures Faultless(old(world.env)) ==> r.Success? && world.env == old(world.env)
      ensures locks == old(locks).(profile := if locked then true else if r.Success? then false else old(locks).profile)
      ensures world.disk == old(world.disk) || world.disk == old(locks).(profile := locked)
      ensures (old(world.disk).preparation ==> world.disk.preparation) && (old(world.disk).cleaning ==> world.disk.cleaning)
    {
      if locked {
        locks := locks.(profile := true);
      }
      r := Store(Locks(locked, locks.preparation, locks.cleaning));
      if r.Success? {
        locks := locks.(profile := locked);
      }
    }

    method SavePreparationLock(locked: bool) returns (r: Result<()>)
      requires Within(world.disk, locks)
      modifies this`locks, world`env, world`cancelled, world`disk
      ensures Within(world.disk, locks) && r != Failure(Rejected)
      ensures r.Success? ==> world.disk == locks == old(locks).(preparation := locked)
      ensures Faultless(old(world.env)) ==> r.Success? && world.env == old(world.env)
      ensures locks == old(locks).(preparation := if locked then true else if r.Success? then false else old(locks).preparation)
      ensures world.disk == old(world.disk) || world.disk == old(locks).(preparation := locked)
      ensures (old(world.disk).profile ==> world.disk.profile) && (old(world.disk).cleaning ==> world.disk.cleaning)
    {
      if locked {
        locks := locks.(preparation := true);
      }
      r := Store(Locks(locks.profile, locked, locks.cleaning));
      if r.Success? {
        locks := locks.(preparation := locked);
      }
    }

    method SaveCleaningLock(locked: bool) returns (r: Result<()>)
      requires Within(world.disk, locks)
      modifies this`locks, world`env, world`cancelled, world`disk
      ensures Within(world.disk, locks) && r != Failure(Rejected)
      ensures r.Success? ==> world.disk == locks == old(locks).(cleaning := locked)
      ensures Faultless(old(world.env)) ==> r.Success? && world.env == old(world.env)
      ensures locks == old(locks).(cleaning := if locked then true else if r.Success? then false else old(locks).cleaning)
      ensures world.disk == old(world.disk) || world.disk == old(locks).(cleaning := locked)
      ensures (old(world.disk).profile ==> world.disk.profile) && (old(world.disk).preparation ==> world.disk.preparation)
    {
      if locked {
        locks := locks.(cleaning := true);
      }
      r := Store(Locks(locks.profile, locks.preparation, locked));
      if r.Success? {
        locks := locks.(cleaning := locked);
      }
    }

    /** The activity totals have a store of their own. */
    method SaveActivity() returns (r: Result<()>)
      modifies world`env, world`cancelled
      ensures r != Failure(Rejected)
      ensures Faultless(old(world.env)) ==> r.Success? && world.env == old(world.env)
    {
      var (choice, env) := Pause(world.env);
      world.env := env;
      if choice.Reply? {
        return Success(());
      }
      var e := world.Admit(choice.error);
      return Failure(e);
    }

    /** Entering a session: a fresh connection, or an error before any command. */
    method Connect() returns (r: Result<Link>)
      modifies world`env, world`cancelled
      ensures r.Failure? ==> r.error != Rejected
      ensures r.Success? ==> fresh(r.value) && r.value.world == world && !r.value.failed
      ensures Faultless(old(world.env)) ==> r.Success? && world.env == old(world.env)
    {
      var (choice, env) := Pause(world.env);
      world.env := env;
      if !choice.Reply? {
        var e := world.Admit(choice.error);
        return Failure(e);
      }
      var link := new Link(world);
      return Success(link);
    }

    /** Leaving it: a failed cleanup is an error only when there is no other, except that a
        cancellation is always raised. A dead process leaves nothing. */
    method Disconnect<T>(body: Result<T>) returns (r: Result<T>)
      modifies world`env, world`cancelled
      ensures r == body || (r.Failure? && r.error != Rejected)
      ensures body == Failure(Died) ==> r == body
      ensures Faultless(old(world.env)) ==> r == body && world.env == old(world.env)
    {
      if body == Failure(Died) {
        return body;
      }
      var (choice, env) := Pause(world.env);
      world.env := env;
      if choice.Reply? {
        return body;
      }
      var e := world.Admit(choice.error);
      if e == Died || e == Cancelled || body.Success? {
        return Failure(e);
      }
      return body;
    }

    method ExecuteProfile() returns (r: Result<()>)
      modifies world`env, world`cancelled, world`deeds, world`readings
      ensures r == Failure(Rejected) ==> world.deeds == old(world.deeds)
      ensures r.Success? ==> Started(old(world.deeds), world.deeds, Brew, world.disk)
      ensures Pulsed(old(world.deeds), world.deeds, Brew, world.disk, r == Failure(Died))
        || Started(old(world.deeds), world.deeds, Brew, world.disk)
      ensures Faultless(old(world.env)) ==>
        && Faultless(world.env)
        && (r.Success? <==> Brewable(old(world.env).memory, old(world.env).coils))
        && (r == Failure(Rejected) <==> !Brewable(old(world.env).memory, old(world.env).coils))
    {
      hide Started, Brewable, Swing, StateOfCoils, OperatingState.Mode;
      assert Pulsed(old(world.deeds), world.deeds, Brew, world.disk, false);
      var link :- Connect();
      var body := StartStoredProfile(link);
      var r0: Result<()>;
      if body.Success? {
        var telemetry := QueryTelemetry(link);
        r0 := if telemetry.Success? then Success(()) else Failure(telemetry.error);
      } else {
        assert Pulsed(old(world.deeds), world.deeds, Brew, world.disk, body.error == Died);
        r0 := Failure(body.error);
      }
      r := Disconnect(r0);
    }

    method ExecuteCleaningProgram() returns (r: Result<()>)
      modifies world`env, world`cancelled, world`deeds, world`readings
      ensures r == Failure(Rejected) ==> world.deeds == old(world.deeds)
      ensures r.Success? ==> Started(old(world.deeds), world.deeds, Clean, world.disk)
      ensures Pulsed(old(world.deeds), world.deeds, Clean, world.disk, r == Failure(Died))
        || Started(old(world.deeds), world.deeds, Clean, world.disk)
      ensures Faultless(old(world.env)) ==>
        && Faultless(world.env)
        && (r == Failure(Rejected) <==> !Cleanable(old(world.env).memory, old(world.env).coils))
        && (Cleanable(old(world.env).memory, old(world.env).coils) ==>
              (r.Success? || r == Failure(Timeout)) && Started(old(world.deeds), world.deeds, Clean, world.disk))
    {
      hide Started, Finished, Waited, Cleanable, CleaningDuration;
      assert Pulsed(old(world.deeds), world.deeds, Clean, world.disk, false);
      var link :- Connect();
      var body, _, _ := ExecuteCleaning(link);
      var r0: Result<()>;
      if body.Success? {
        r0 := Success(());
      } else {
        r0 := Failure(body.error);
        assert Pulsed(old(world.deeds), world.deeds, Clean, world.disk, body.error == Died)
          || Started(old(world.deeds), world.deeds, Clean, world.disk);
      }
      r := Disconnect(r0);
    }

    method ExecutePreparation() returns (r: Result<()>)
      modifies world`env, world`cancelled, world`deeds, world`readings
      ensures PreparationDeeds(old(world.deeds), world.deeds, world.disk)
      ensures r == Failure(Rejected) ==> world.deeds == old(world.deeds) || world.deeds == old(world.deeds) + [BackedUp]
      ensures Faultless(old(world.env)) ==>
        && Faultless(world.env)
        && (r.Success? <==> Preparable(old(world.env).memory, old(world.env).coils))
        && (r == Failure(Rejected) <==> !Preparable(old(world.env).memory, old(world.env).coils))
        && (r.Success? ==> world.env.memory == WithPilot(old(world.env).memory))
    {
      hide WithStage, WithPilot, Preparable, ValidPilot;
      var link :- Connect();
      var body := PrepareProfile(link);
      r := Disconnect(if body.Success? then Success(()) else Failure(body.error));
    }

    /** One fresh state read that must be idle. */
    method VerifyIdle() returns (r: Result<Frame>)
      modifies world`env, world`cancelled, world`deeds, world`readings
      ensures world.deeds == old(world.deeds)
      ensures r.Success? ==> ShowsMode(r.value, Idle)
      ensures Faultless(old(world.env)) ==>
        Faultless(world.env) && (r.Success? <==> StateOfCoils(old(world.env).coils).Mode() == Idle)
    {
      hide IsReply, OperatingState.Mode, StateOfCoils;
      var link :- Connect();
      var state, frame := QueryState(link);
      var body := if state.Failure? then Failure(state.error)
                  else if state.value.Mode() != Idle then Failure(Rejected)
                  else Success(frame);
      r := Disconnect(body);
    }

    /** The guard of the profile start and of the preparation. */
    predicate Blocked(pendingSchedule: bool)
      reads this`locks
    {
      locks.profile || locks.preparation || locks.cleaning || pendingSchedule
    }

    /** async_start_profile: never queued, never repeated while its result is uncertain. */
    method Start(pendingSchedule: bool) returns (r: Result<()>)
      requires Valid()
      modifies this`locks, world`env, world`cancelled, world`disk, world`deeds, world`readings
      ensures Valid()
      ensures old(world.disk).preparation ==> world.disk.preparation
      ensures (old(locks).profile || old(locks).preparation || old(locks).cleaning || pendingSchedule)
        ==> r.Failure? && world.deeds == old(world.deeds) && world.disk == old(world.disk)
      ensures r.Success? ==> Started(old(world.deeds), world.deeds, Brew, Locks(true, false, false)) && !world.disk.profile
      ensures r == Failure(Rejected) ==> world.deeds == old(world.deeds)
      ensures Pulsed(old(world.deeds), world.deeds, Brew, Locks(true, false, false), r == Failure(Died))
        || Started(old(world.deeds), world.deeds, Brew, Locks(true, false, false))
      // a start that was let in is unlocked, durably, exactly when it succeeds or is rejected
      ensures r.Success? || r == Failure(Rejected) ==> world.disk == locks == old(locks)
      ensures !old(Blocked(pendingSchedule)) && r.Failure? && r.error != Rejected ==> locks == Locks(true, false, false)
      // with nothing going wrong the machine alone decides
      ensures Faultless(old(world.env)) && !old(Blocked(pendingSchedule)) ==>
        && (r.Success? <==> Brewable(old(world.env).memory, old(world.env).coils))
        && (r == Failure(Rejected) <==> !Brewable(old(world.env).memory, old(world.env).coils))
    {
      hide Safe, Unsettled, Started, Pulsed, Brewable;
      NothingPulsed(world.deeds, Brew, Locks(true, false, false));
      if locks.profile || locks.preparation || locks.cleaning || pendingSchedule {
        return Failure(Unavailable);
      }
      var _ :- SaveProfileLock(true);
      var result := ExecuteProfile();
      PulsedSafe(old(world.deeds), world.deeds, Brew, world.disk, result == Failure(Died));
      if result.Success? || result.error == Rejected {
        var cleared := SaveProfileLock(false);
        r := if cleared.Failure? then cleared else result;
      } else {
        r := result;
      }
    }

    method StartCleaning() returns (r: Result<()>)
      requires Valid()
      modifies this`locks, world`env, world`cancelled, world`disk, world`deeds, world`readings
      ensures Valid()
      ensures old(world.disk).preparation ==> world.disk.preparation
      ensures (old(locks).profile || old(locks).cleaning)
        ==> r.Failure? && world.deeds == old(world.deeds) && world.disk == old(world.disk)
      ensures r.Success? ==>
        && Started(old(world.deeds), world.deeds, Clean, Locks(false, old(locks).preparation, true))
        && !world.disk.cleaning
      ensures r == Failure(Rejected) ==> world.deeds == old(world.deeds)
      // a start that was let in is unlocked, durably, exactly when it succeeds or is rejected
      ensures r.Success? || r == Failure(Rejected) ==> world.disk == locks == old(locks)
      ensures !(old(locks).profile || old(locks).cleaning) && r.Failure? && r.error != Rejected ==>
        locks == old(locks).(cleaning := true)
      // with nothing going wrong the machine alone decides, but for the end of the watching
      ensures Faultless(old(world.env)) && !(old(locks).profile || old(locks).cleaning) ==>
        && (r == Failure(Rejected) <==> !Cleanable(old(world.env).memory, old(world.env).coils))
        && (Cleanable(old(world.env).memory, old(world.env).coils) ==>
              (r.Success? || r == Failure(Timeout))
              && Started(old(world.deeds), world.deeds, Clean, Locks(false, old(locks).preparation, true)))
      ensures var d := Locks(false, old(locks).preparation, true);
        Pulsed(old(world.deeds), world.deeds, Clean, d, r == Failure(Died)) || Started(old(world.deeds), world.deeds, Clean, d)
    {
      hide Safe, Unsettled, Started, Pulsed, Cleanable;
      NothingPulsed(world.deeds, Clean, Locks(false, locks.preparation, true));
      if locks.cleaning || locks.profile {
        return Failure(Unavailable);
      }
      var _ :- SaveCleaningLock(true);
      var result := ExecuteCleaningProgram();
      PulsedSafe(old(world.deeds), world.deeds, Clean, world.disk, result == Failure(Died));
      if result.Success? {
        var _ :- SaveActivity();
      }
      if result.Success? || result.error == Rejected {
        var cleared := SaveCleaningLock(false);
        r := if cleared.Failure? then cleared else result;
      } else {
        r := result;
      }
    }

    method Prepare(pendingSchedule: bool) returns (r: Result<()>)
      requires Valid()
      modifies this`locks, world`env, world`cancelled, world`disk, world`deeds, world`readings
      ensures Valid()
      ensures old(world.disk).preparation ==> world.disk.preparation
      ensures (old(locks).profile || old(locks).preparation || old(locks).cleaning || pendingSchedule)
        ==> r.Failure? && world.deeds == old(world.deeds) && world.disk == old(world.disk)
      ensures PreparationDeeds(old(world.deeds), world.deeds, Locks(false, true, false))
      ensures r == Failure(Rejected) ==> world.deeds == old(world.deeds) || world.deeds == old(world.deeds) + [BackedUp]
      // a preparation that was let in is unlocked, durably, exactly when it succeeds or is rejected
      ensures r.Success? || r == Failure(Rejected) ==> world.disk == locks == old(locks)
      ensures !old(Blocked(pendingSchedule)) && r.Failure? && r.error != Rejected ==> locks == Locks(false, true, false)
      // with nothing going wrong the machine alone decides
      ensures Faultless(old(world.env)) && !old(Blocked(pendingSchedule)) ==>
        && (r.Success? <==> Preparable(old(world.env).memory, old(world.env).coils))
        && (r == Failure(Rejected) <==> !Preparable(old(world.env).memory, old(world.env).coils))
        && (r.Success? ==> world.env.Honest? && world.env.memory == WithPilot(old(world.env).memory))
    {
      hide Safe, Unsettled, Preparable, WithPilot, PreparationDeeds;
      PreparedNothing(world.deeds, Locks(false, true, false));
      if locks.profile || locks.preparation || locks.cleaning || pendingSchedule {
        return Failure(Unavailable);
      }
      var _ :- SavePreparationLock(true);
      var result := ExecutePreparation();
      PreparationSafe(old(world.deeds), world.deeds, world.disk);
      if result.Success? || result.error == Rejected {
        var cleared := SavePreparationLock(false);
        r := if cleared.Failure? then cleared else result;
      } else {
        r := result;
      }
    }

    /** Both acknowledgements: only after a fresh idle read, and they command nothing. */
    method Acknowledge(kind: Kind) returns (r: Result<()>)
      requires Valid()
      modifies this`locks, world`env, world`cancelled, world`disk, world`deeds, world`readings
      ensures Valid()
      ensures old(world.disk).preparation ==> world.disk.preparation
      ensures r.Success? ==> !world.disk.Of(kind) && !locks.Of(kind) && world.disk == locks
      // no other lock is touched, and this one only on success
      ensures r.Failure? ==> locks == old(locks)
      ensures r.Success? ==> locks == old(locks).Without(kind)
      ensures Faultless(old(world.env)) ==> (r.Success? <==> StateOfCoils(old(world.env).coils).Mode() == Idle)
      ensures world.deeds == old(world.deeds)
        || (exists frame :: ShowsMode(frame, Idle) && world.deeds == old(world.deeds) + [Acknowledged(kind, frame)])
    {
      hide Safe, Unsettled, ShowsMode, StateOfCoils, OperatingState.Mode;
      var idle := VerifyIdle();
      if idle.Failure? {
        return Failure(Unavailable);
      }
      var frame := idle.value;
      world.deeds := world.deeds + [Acknowledged(kind, frame)];
      SettleMore(old(world.deeds), Acknowledged(kind, frame), kind);
      if kind.Brew? {
        r := SaveProfileLock(false);
      } else {
        r := SaveCleaningLock(false);
      }
    }

    /** async_set_boiler is not guarded by the locks and never touches them; it sends the one
        command that was asked for, or nothing. */
    method Boiler(setting: BoilerSetting, enabled: bool) returns (r: Result<()>)
      requires Valid()
      modifies world`env, world`cancelled, world`deeds, world`readings
      ensures Valid()
      ensures world.deeds == old(world.deeds)
        || (setting.Switch() && r != Failure(Rejected)
            && world.deeds == old(world.deeds) + [Sent(SwitchCommand(setting, enabled), world.disk)])
      ensures Faultless(old(world.env)) ==>
        match BoilerVerdict(old(world.env).memory, old(world.env).coils, setting, enabled)
        case Refused => r == Failure(Rejected)
        case _ => r.Success? && world.env.Honest? && world.env.memory == Switched(old(world.env).memory, setting, enabled)
    {
      hide Safe, Unsettled, SwitchCommand, BoilerVerdict, Switched;
      var link :- Connect();
      var body := SetBoiler(link, setting, enabled);
      if setting.Switch() {
        NotAPress(setting, enabled);
        NeutralMore(old(world.deeds), Sent(SwitchCommand(setting, enabled), world.disk));
      }
      r := Disconnect(if body.Success? then Success(()) else Failure(body.error));
    }

    /** One operation of any kind; a dead process is loaded again. */
    method Perform(op: Operation)
      requires Valid()
      modifies this`locks, world`env, world`cancelled, world`disk, world`deeds, world`readings
      ensures Valid() && Adds(old(world.deeds), world.deeds, op)
      ensures old(world.disk).preparation ==> world.disk.preparation
    {
      hide Safe, Unsettled, Started, Pulsed, Adds, ShowsMode;
      world.cancelled := false;
      AddsNothing(world.deeds, op);
      ghost var before := world.deeds;
      ghost var cleaning := Locks(false, locks.preparation, true);
      var r: Result<()>;
      match op
      case ProfileStart(pending) =>
        r := Start(pending);
        PulsedAdds(before, world.deeds, Brew, Locks(true, false, false), r == Failure(Died), op);
      case CleaningStart =>
        r := StartCleaning();
        PulsedAdds(before, world.deeds, Clean, cleaning, r == Failure(Died), op);
      case Preparation(pending) =>
        r := Prepare(pending);
        PreparationAdds(before, world.deeds, Locks(false, true, false), op);
      case Acknowledgement(kind) =>
        r := Acknowledge(kind);
        if world.deeds != before { AddsMore(before, before, world.deeds[|before|], op); }
      case BoilerSwitch(setting, enabled) =>
        r := Boiler(setting, enabled);
        if world.deeds != before {
          NotAPress(setting, enabled);
          AddsMore(before, before, world.deeds[|before|], op);
        }
      case Reload => r := Failure(Died);
      if r == Failure(Died) {
        Load();
      }
    }

    /** Any sequence of operations, failures, deaths and reloads: the record is only extended,
        nothing is sent that was not asked for, and no start is pressed more often than asked. */
    method Run(operations: seq<Operation>)
      requires Valid()
      modifies this`locks, world`env, world`cancelled, world`disk, world`deeds, world`readings
      ensures Valid() && Granted(operations, old(world.deeds), world.deeds)
      ensures Safe(world.deeds)
      ensures old(world.disk).preparation ==> world.disk.preparation
    {
      hide Safe, Unsettled, Granted, Adds;
      GrantedNothing(world.deeds);
      for i := 0 to |operations|
        invariant Valid() && Granted(operations[..i], old(world.deeds), world.deeds)
        invariant old(world.disk).preparation ==> world.disk.preparation
      {
        ghost var before := world.deeds;
        Perform(operations[i]);
        GrantedMore(operations[..i], operations[i], old(world.deeds), before, world.deeds);
        assert operations[..i + 1] == operations[..i] + [operations[i]];
      }
      assert operations[..|operations|] == operations;
    }
  }

  lemma GrantedNothing(deeds: seq<Deed>)
    ensures Granted([], deeds, deeds)
  {}

  lemma NotAPress(setting: BoilerSetting, enabled: bool)
    requires setting.Switch()
    ensures !SwitchCommand(setting, enabled).IsPress()
  {}
}
