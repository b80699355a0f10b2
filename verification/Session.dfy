/** The single-flight session of session.py with the command acceptor of
    control_session.py, one event per stretch of code between two awaits. */
module Session {
  import opened Bytes
  import opened Outcomes
  import opened Reads
  import opened Commands

  datatype Operation = Plain(op: ReadOperation) | Control(c: Command)

  predicate Answers(frame: Frame, o: Operation) {
    match o
    case Plain(op) => IsReadReply(frame, op)
    case Control(c) => IsReply(frame, c)
  }

  /** The future an exchange awaits. */
  datatype Future = Waiting | Resolved(frame: Frame) | Raised(error: Error) | Abandoned {
    predicate Done() { !Waiting? }
  }

  /** One frame handed to a caller, with every byte delivered while it held the session. */
  datatype Return = Return(operation: Operation, frame: Frame, window: seq<Byte>)

  datatype Event =
    | OpenBegin
    | OpenEnd(failed: Option<Error>)
    | Begin(operation: Operation)
    | SendEnd(failed: Option<Error>)
    | Notify(fragment: seq<Byte>)
    | Disconnect
    | Interrupt(error: Error)
    | Wake
    | DirectRelease(c: Command)
    | Close

  /** The exchange that holds the lock. sending: its send has not returned yet.
      interrupt: a timeout or cancellation waits to be raised in it. */
  datatype Exchange = Exchange(operation: Operation, sending: bool, future: Future, interrupt: Option<Error>)

  datatype Buffers = Buffers(stream: seq<Byte>, streamFailed: bool, command: seq<Byte>)

  /** What happened so far: bytes delivered to the current exchange, requests sent, frames
      returned, and releases sent past a failure. */
  datatype Log = Log(window: seq<Byte>, sent: seq<Operation>, returned: seq<Return>, releases: seq<Command>)

  datatype SessionState = SessionState(
    used: bool, opening: bool, active: bool, failure: Option<Error>,
    exchange: Option<Exchange>, buffers: Buffers, log: Log)

  function Fresh(): SessionState {
    SessionState(false, false, false, None, None, Buffers([], false, []), Log([], [], [], []))
  }

  function Settle(x: Option<Exchange>, error: Error): Option<Exchange> {
    if x.Some? && x.value.future.Waiting? then Some(x.value.(future := Raised(error))) else x
  }

  function Invalidate(s: SessionState, error: Error): SessionState {
    s.(failure := if s.failure.None? then Some(error) else s.failure, exchange := Settle(s.exchange, error))
  }

  function Shut(s: SessionState): SessionState {
    Invalidate(s.(active := false), Unavailable)
  }

  function FailExchange(s: SessionState, error: Error): SessionState {
    Invalidate(s, error).(exchange := None)
  }

  function Answer(s: SessionState, r: Return): SessionState {
    s.(exchange := None, log := s.log.(returned := s.log.returned + [r]))
  }

  /** The owner resumes with its future done, or with an interruption to raise. */
  function Resume(s: SessionState): SessionState
    requires s.exchange.Some?
  {
    var x := s.exchange.value;
    if x.interrupt.Some? then FailExchange(s, x.interrupt.value)
    else
      match x.future
      case Raised(error) => FailExchange(s, error)
      case Resolved(frame) =>
        if !s.active || s.failure.Some? then FailExchange(s, Unavailable)
        else Answer(s, Return(x.operation, frame, s.log.window))
      case _ => s
  }

  function OnPlain(s: SessionState, fragment: seq<Byte>, op: ReadOperation): SessionState
    requires s.exchange.Some?
  {
    var b := s.buffers;
    if b.streamFailed then Invalidate(s, Protocol)
    else
      match FeedOnce(b.stream, fragment)
      case Corrupt => Invalidate(s.(buffers := b.(streamFailed := true, stream := [])), Protocol)
      case Parsed(frames, rest) =>
        var t := s.(buffers := b.(stream := rest));
        match ReadAccept(b.stream, fragment, op)
        case Wait(_) => t
        case Refuse(error) => Invalidate(t, error)
        case Deliver(frame) => t.(exchange := Some(s.exchange.value.(future := Resolved(frame))))
  }

  function OnControl(s: SessionState, fragment: seq<Byte>, c: Command): SessionState
    requires s.exchange.Some?
  {
    var b := s.buffers;
    var t := s.(buffers := b.(command := b.command + fragment));
    match ControlAccept(b.command, fragment, c)
    case Wait(_) => t
    case Refuse(error) => Invalidate(t, error)
    case Deliver(frame) =>
      t.(buffers := b.(command := []), exchange := Some(s.exchange.value.(future := Resolved(frame))))
  }

  function OnData(s: SessionState, fragment: seq<Byte>): SessionState {
    if fragment == [] || s.failure.Some? then s
    else if s.exchange.None? || s.exchange.value.future.Done() then Invalidate(s, Protocol)
    else
      match s.exchange.value.operation
      case Plain(op) => OnPlain(s, fragment, op)
      case Control(c) => OnControl(s, fragment, c)
  }

  /** The bytes of an exchange are recorded whatever becomes of them. */
  function Record(s: SessionState, fragment: seq<Byte>): SessionState {
    if s.exchange.Some? then s.(log := s.log.(window := s.log.window + fragment)) else s
  }

  function Start(s: SessionState, o: Operation): SessionState {
    s.(exchange := Some(Exchange(o, true, Waiting, None)), log := s.log.(window := [], sent := s.log.sent + [o]))
  }

  function Interrupted(x: Exchange, error: Error): Exchange {
    x.(interrupt := Some(error), future := if x.future.Waiting? then Abandoned else x.future)
  }

  /** An event that is not possible in a state leaves it alone. */
  function Step(s: SessionState, e: Event): SessionState {
    match e
    case OpenBegin => if s.used then s else s.(used := true, opening := true)
    case OpenEnd(failed) =>
      if !s.opening then s
      else if failed.Some? then Shut(Invalidate(s.(opening := false), failed.value))
      else if s.failure.Some? then Shut(s.(opening := false))
      else s.(opening := false, active := true)
    case Begin(o) =>
      if s.exchange.Some? || !s.active || s.failure.Some? then s else Start(s, o)
    case SendEnd(failed) =>
      if s.exchange.None? || !s.exchange.value.sending then s
      else if failed.Some? then FailExchange(s, failed.value)
      else if s.exchange.value.future.Done() then Resume(s)
      else s.(exchange := Some(s.exchange.value.(sending := false)))
    case Notify(fragment) => OnData(Record(s, fragment), fragment)
    case Disconnect => Invalidate(s, Unavailable)
    case Interrupt(error) =>
      if s.exchange.None? || s.exchange.value.sending then s
      else s.(exchange := Some(Interrupted(s.exchange.value, error)))
    case Wake =>
      if s.exchange.None? || s.exchange.value.sending || !s.exchange.value.future.Done() then s
      else Resume(s)
    case DirectRelease(c) =>
      if s.failure.None? || !c.IsRelease() then s else s.(log := s.log.(releases := s.log.releases + [c]))
    case Close => Shut(s.(opening := false))
  }

  function Run(s: SessionState, events: seq<Event>): SessionState
    decreases events
  {
    if events == [] then s else Run(Step(s, events[0]), events[1..])
  }

  // ----- what every reachable state satisfies -----

  /** Each returned frame is the whole of its window and answers the request of its rank. */
  ghost predicate Correlated(log: Log) {
    && |log.returned| <= |log.sent| <= |log.returned| + 1
    && forall k | 0 <= k < |log.returned| :: Matches(log.returned[k], log.sent[k])
  }

  ghost predicate Matches(r: Return, o: Operation) {
    r.frame == r.window && r.operation == o && Answers(r.frame, o)
  }

  ghost predicate Balanced(s: SessionState) {
    s.failure.None? ==> |s.log.sent| == |s.log.returned| + (if s.exchange.Some? then 1 else 0)
  }

  /** While nothing has failed the buffers and the future hold exactly what was delivered. */
  ghost predicate Clean(x: Option<Exchange>, b: Buffers, window: seq<Byte>) {
    && !b.streamFailed
    && match x
       case None => b.stream == [] && b.command == []
       case Some(x) =>
         match x.future
         case Waiting =>
           if x.operation.Plain? then b.stream == window && b.command == [] else b.stream == [] && b.command == window
         case Resolved(frame) =>
           b.stream == [] && b.command == [] && frame == window && Answers(window, x.operation)
         case Raised(_) => false
         case Abandoned => x.interrupt.Some?
  }

  ghost predicate Inv(s: SessionState) {
    && Correlated(s.log)
    && Balanced(s)
    && (s.failure.None? ==> Clean(s.exchange, s.buffers, s.log.window))
    && (s.exchange.Some? ==> s.log.sent != [] && s.exchange.value.operation == s.log.sent[|s.log.sent| - 1])
    && (s.failure.Some? && s.exchange.Some? ==> !s.exchange.value.future.Waiting?)
    && (s.log.releases != [] ==> s.failure.Some?)
  }

  lemma FreshInv()
    ensures Inv(Fresh())
  {}

  lemma InvalidateInv(s: SessionState, t: SessionState, error: Error)
    requires Inv(s)
    requires t.failure == s.failure && t.exchange == s.exchange && t.log.sent == s.log.sent
    requires t.log.returned == s.log.returned && t.log.releases == s.log.releases
    ensures Inv(Invalidate(t, error)) && Inv(FailExchange(t, error)) && Inv(Shut(t))
  {
    hide Matches, Clean;
  }

  lemma AnswerInv(s: SessionState, frame: Frame)
    requires Inv(s) && s.failure.None? && s.exchange.Some? && s.exchange.value.future == Resolved(frame)
    ensures Inv(Answer(s, Return(s.exchange.value.operation, frame, s.log.window)))
  {
    hide Answers;
  }

  lemma ResumeInv(s: SessionState)
    requires Inv(s) && s.exchange.Some? && s.exchange.value.future.Done()
    ensures Inv(Resume(s))
  {
    hide Inv, FailExchange, Answer;
    var x := s.exchange.value;
    InvalidateInv(s, s, Unavailable);
    if x.interrupt.Some? { InvalidateInv(s, s, x.interrupt.value); }
    match x.future
    case Raised(error) => InvalidateInv(s, s, error);
    case Resolved(frame) => if s.failure.None? { AnswerInv(s, frame); }
    case _ =>
  }

  lemma OnPlainInv(s: SessionState, fragment: seq<Byte>, op: ReadOperation)
    requires Inv(s) && s.failure.None? && fragment != []
    requires s.exchange.Some? && s.exchange.value.future.Waiting? && s.exchange.value.operation == Plain(op)
    ensures Inv(OnPlain(Record(s, fragment), fragment, op))
  {
    hide IsReadReply, FeedOnce, ValidateReadResponse, Invalidate;
    ReadAcceptSound(s.buffers.stream, fragment, op);
    var r := Record(s, fragment);
    forall t: SessionState, error: Error | t.failure == s.failure && t.exchange == s.exchange && t.log == r.log
      ensures Inv(Invalidate(t, error))
    {
      InvalidateInv(s, t, error);
    }
  }

  lemma OnControlInv(s: SessionState, fragment: seq<Byte>, c: Command)
    requires Inv(s) && s.failure.None? && fragment != []
    requires s.exchange.Some? && s.exchange.value.future.Waiting? && s.exchange.value.operation == Control(c)
    ensures Inv(OnControl(Record(s, fragment), fragment, c))
  {
    hide IsReply, ControlAccept, Invalidate;
    ControlAcceptSound(s.buffers.command, fragment, c);
    var r := Record(s, fragment);
    forall t: SessionState, error: Error | t.failure == s.failure && t.exchange == s.exchange && t.log == r.log
      ensures Inv(Invalidate(t, error))
    {
      InvalidateInv(s, t, error);
    }
  }

  lemma RecordInv(s: SessionState, fragment: seq<Byte>)
    requires Inv(s) && (s.failure.Some? || fragment == [])
    ensures Inv(Record(s, fragment))
  {
    hide Matches;
    assert s.log.window + [] == s.log.window;
  }

  lemma NotifyInv(s: SessionState, fragment: seq<Byte>)
    requires Inv(s)
    ensures Inv(Step(s, Notify(fragment)))
  {
    hide Matches, OnPlain, OnControl, Invalidate, Record, Inv;
    var r := Record(s, fragment);
    RecordKeeps(s, fragment);
    if fragment == [] || s.failure.Some? {
      RecordInv(s, fragment);
    } else if s.exchange.Some? && s.exchange.value.future.Waiting? {
      match s.exchange.value.operation
      case Plain(op) => OnPlainInv(s, fragment, op);
      case Control(c) => OnControlInv(s, fragment, c);
    } else {
      InvalidateInv(s, r, Protocol);
    }
  }

  lemma InvCorrelates(s: SessionState)
    requires Inv(s)
    ensures Correlated(s.log)
  {}

  lemma RecordKeeps(s: SessionState, fragment: seq<Byte>)
    ensures var r := Record(s, fragment);
      && r.failure == s.failure && r.exchange == s.exchange && r.log.sent == s.log.sent
      && r.log.returned == s.log.returned && r.log.releases == s.log.releases
  {}

  lemma OpenInv(s: SessionState, e: Event)
    requires Inv(s) && (e.OpenBegin? || e.OpenEnd? || e.Close? || e.Disconnect?)
    ensures Inv(Step(s, e))
  {
    hide Matches, Clean, Invalidate;
    var t := s.(opening := false);
    InvalidateInv(s, s, Unavailable);
    InvalidateInv(s, t, Unavailable);
    if e.OpenEnd? && e.failed.Some? {
      InvalidateInv(s, t, e.failed.value);
      InvalidateInv(Invalidate(t, e.failed.value), Invalidate(t, e.failed.value), Unavailable);
    }
  }

  lemma BeginInv(s: SessionState, o: Operation)
    requires Inv(s)
    ensures Inv(Step(s, Begin(o)))
  {
    hide Matches;
  }

  lemma InterruptInv(s: SessionState, error: Error)
    requires Inv(s)
    ensures Inv(Step(s, Interrupt(error)))
  {
    hide Matches;
  }

  lemma SendEndInv(s: SessionState, failed: Option<Error>)
    requires Inv(s)
    ensures Inv(Step(s, SendEnd(failed)))
  {
    hide Matches, Resume, FailExchange;
    if s.exchange.Some? {
      if failed.Some? { InvalidateInv(s, s, failed.value); }
      if s.exchange.value.future.Done() { ResumeInv(s); }
    }
  }

  lemma StepInv(s: SessionState, e: Event)
    requires Inv(s)
    ensures Inv(Step(s, e))
  {
    match e
    case OpenBegin | OpenEnd(_) | Close | Disconnect => hide *; OpenInv(s, e);
    case Begin(o) => hide *; BeginInv(s, o);
    case SendEnd(failed) => hide *; SendEndInv(s, failed);
    case Notify(fragment) => hide *; NotifyInv(s, fragment);
    case Interrupt(error) => hide *; InterruptInv(s, error);
    case Wake =>
      hide Matches, Resume;
      if s.exchange.Some? && s.exchange.value.future.Done() { ResumeInv(s); }
    case DirectRelease(c) => hide Matches;
  }

  lemma {:induction false} RunInv(s: SessionState, events: seq<Event>)
    requires Inv(s)
    ensures Inv(Run(s, events))
    decreases events
  {
    hide Inv, Step;
    if events != [] {
      StepInv(s, events[0]);
      RunInv(Step(s, events[0]), events[1..]);
    }
  }

  /** In every run the k-th returned frame answers the k-th request sent and is exactly
      the bytes delivered while that exchange held the session, cut and interleaved with
      failures in any way; at most the last request is unanswered. */
  lemma ExactCorrelation(events: seq<Event>)
    ensures Correlated(Run(Fresh(), events).log)
  {
    hide Step, Clean, Correlated;
    FreshInv();
    RunInv(Fresh(), events);
  }

  lemma QuarantineStep(s: SessionState, e: Event)
    requires s.failure.Some?
    ensures var t := Step(s, e);
      && t.failure == s.failure && t.log.sent == s.log.sent && t.log.returned == s.log.returned
      && (t.log.releases == s.log.releases ||
           (e.DirectRelease? && e.c.IsRelease() && t.log.releases == s.log.releases + [e.c]))
  {
    hide OnPlain, OnControl;
  }

  /** Once a failure is set no later event sends a request or returns a frame; only
      momentary releases may still go out. */
  lemma {:induction false} Quarantine(s: SessionState, events: seq<Event>)
    requires s.failure.Some?
    ensures var t := Run(s, events);
      && t.failure == s.failure && t.log.sent == s.log.sent && t.log.returned == s.log.returned
      && s.log.releases <= t.log.releases
      && forall k | |s.log.releases| <= k < |t.log.releases| :: t.log.releases[k].IsRelease()
    decreases events
  {
    hide Step;
    if events != [] {
      QuarantineStep(s, events[0]);
      Quarantine(Step(s, events[0]), events[1..]);
    }
  }

  // ----- one exchange, as its caller sees it -----

  /** What the caller gets when its exchange is over: the frame returned meanwhile, or the
      failure of the session. */
  function Outcome(before: SessionState, after: SessionState): Result<Frame>
    requires |after.log.returned| > |before.log.returned| || after.failure.Some?
  {
    if |after.log.returned| > |before.log.returned|
    then Success(after.log.returned[|after.log.returned| - 1].frame)
    else Failure(after.failure.value)
  }

  /** While an exchange is going on nothing else is sent or returned. */
  ghost predicate Busy(s: SessionState, o: Operation, sent: seq<Operation>, returned: seq<Return>) {
    && s.exchange.Some? && s.exchange.value.operation == o
    && s.log.sent == sent && s.log.returned == returned
  }

  /** It is over: one accepted reply on a clean session, or a failed session and none. */
  ghost predicate Over(s: SessionState, o: Operation, sent: seq<Operation>, returned: seq<Return>) {
    && s.exchange.None? && s.log.sent == sent
    && ((s.failure.Some? && s.log.returned == returned)
        || (s.failure.None? && |s.log.returned| == |returned| + 1 && s.log.returned[..|returned|] == returned
            && Matches(s.log.returned[|returned|], o)))
  }

  lemma ResumeEnds(s: SessionState, o: Operation)
    requires Inv(s) && s.exchange.Some? && s.exchange.value.operation == o && s.exchange.value.future.Done()
    ensures var t := Resume(s);
      Busy(t, o, s.log.sent, s.log.returned) || Over(t, o, s.log.sent, s.log.returned)
  {
    hide Answers;
  }

  lemma BusyData(s: SessionState, fragment: seq<Byte>, o: Operation)
    requires s.exchange.Some? && s.exchange.value.operation == o
    ensures Busy(OnData(Record(s, fragment), fragment), o, s.log.sent, s.log.returned)
  {
    hide FeedOnce, ControlAccept, ReadAccept;
  }

  lemma BusyStep(s: SessionState, e: Event, o: Operation)
    requires Inv(s) && s.exchange.Some? && s.exchange.value.operation == o
    ensures var t := Step(s, e);
      Busy(t, o, s.log.sent, s.log.returned) || Over(t, o, s.log.sent, s.log.returned)
  {
    match e
    case Notify(fragment) =>
      hide OnData, Record, Inv;
      BusyData(s, fragment, o);
    case SendEnd(failed) =>
      hide Resume, Matches, Clean;
      if s.exchange.value.future.Done() { ResumeEnds(s, o); }
    case Wake =>
      hide Resume, Matches, Clean;
      if s.exchange.value.future.Done() { ResumeEnds(s, o); }
    case _ => hide Inv, Resume, OnData;
  }

  lemma {:induction false} BusyRun(s: SessionState, events: seq<Event>, o: Operation)
    requires Inv(s) && s.exchange.Some? && s.exchange.value.operation == o
    requires forall i | 0 <= i < |events| :: Run(s, events[..i]).exchange.Some?
    ensures var t := Run(s, events);
      Busy(t, o, s.log.sent, s.log.returned) || Over(t, o, s.log.sent, s.log.returned)
    decreases |events|
  {
    hide Step, Inv, Over;
    if events != [] {
      var n := |events| - 1;
      var before := events[..n];
      forall i | 0 <= i < n ensures Run(s, before[..i]).exchange.Some? { assert before[..i] == events[..i]; }
      BusyRun(s, before, o);
      RunInv(s, before);
      RunLast(s, events);
      var u := Run(s, before);
      OverMeans(u, o, s.log.sent, s.log.returned);
      BusyStep(u, events[n], o);
    }
  }

  lemma OverMeans(s: SessionState, o: Operation, sent: seq<Operation>, returned: seq<Return>)
    ensures Over(s, o, sent, returned) ==> s.exchange.None?
  {}

  lemma {:induction false} RunLast(s: SessionState, events: seq<Event>)
    requires events != []
    ensures Run(s, events) == Step(Run(s, events[..|events| - 1]), events[|events| - 1])
    decreases events
  {
    hide Step;
    if |events| > 1 {
      RunLast(Step(s, events[0]), events[1..]);
      assert events[..|events| - 1][1..] == events[1..][..|events| - 2];
    }
  }

  /** Every exchange of a command, with anything happening meanwhile, sends its request once
      at most and ends as the transactions rely on: this is what Machine.Link.Transact
      promises of one exchange. A session that has failed sends nothing. */
  lemma ExchangeEnds(s: SessionState, c: Command, events: seq<Event>)
    requires Inv(s) && s.exchange.None? && (s.active || s.failure.Some?)
    requires var t0 := Step(s, Begin(Control(c)));
      Run(t0, events).exchange.None? && forall i | 0 <= i < |events| :: Run(t0, events[..i]).exchange.Some?
    ensures var t := Run(Step(s, Begin(Control(c))), events);
      && (|t.log.returned| > |s.log.returned| || t.failure.Some?)
      && Exchanged(c, s.failure.Some?, t.failure.Some?, Outcome(s, t))
      && t.log.sent == (if s.failure.Some? then s.log.sent else s.log.sent + [Control(c)])
      && (Outcome(s, t).Success? ==>
            (|t.log.returned| == |s.log.returned| + 1 && t.log.returned[|s.log.returned|].window == Outcome(s, t).value))
  {
    hide Inv, IsReply;
    var t0 := Step(s, Begin(Control(c)));
    assert events[..0] == [] && Run(t0, events[..0]) == t0;
    if s.failure.None? {
      BeginInv(s, Control(c));
      BusyRun(t0, events, Control(c));
    }
  }

  // ----- an undisturbed exchange succeeds -----

  function Notifies(fragments: seq<seq<Byte>>): (events: seq<Event>)
    ensures |events| == |fragments| && forall i | 0 <= i < |events| :: events[i] == Notify(fragments[i])
  {
    seq(|fragments|, i requires 0 <= i < |fragments| => Notify(fragments[i]))
  }

  lemma {:induction false} RunAppend(s: SessionState, a: seq<Event>, b: seq<Event>)
    ensures Run(s, a + b) == Run(Run(s, a), b)
    decreases a
  {
    hide Step;
    if a == [] {
      assert a + b == b;
    } else {
      assert (a + b)[1..] == a[1..] + b;
      RunAppend(Step(s, a[0]), a[1..], b);
    }
  }

  lemma RunOne(s: SessionState, e: Event)
    ensures Run(s, [e]) == Step(s, e)
  {
    hide Step;
    assert [e][1..] == [];
  }

  /** What changes while an exchange only takes in bytes: its window and its future. */
  ghost predicate Receiving(s: SessionState, t: SessionState, bytes: seq<Byte>, future: Future) {
    && t.failure.None? && t.active == s.active && s.exchange.Some?
    && t.log.window == s.log.window + bytes && t.log.sent == s.log.sent && t.log.returned == s.log.returned
    && t.exchange == Some(s.exchange.value.(future := future))
  }

  lemma NotifyReceives(s: SessionState, fragment: seq<Byte>, more: seq<Byte>, o: Operation)
    requires Inv(s) && s.failure.None? && s.exchange.Some? && s.exchange.value.operation == o
    requires s.exchange.value.future.Waiting? && fragment != [] && Answers(s.log.window + fragment + more, o)
    ensures Inv(Step(s, Notify(fragment)))
    ensures Receiving(s, Step(s, Notify(fragment)), fragment,
                      if more == [] then Resolved(s.log.window + fragment) else Waiting)
  {
    StepInv(s, Notify(fragment));
    CleanBuffers(s);
    NotifyDispatches(s, fragment);
    hide Inv, Step, Record, OnPlain, OnControl, Answers, Receiving;
    match o
    case Plain(op) => PlainReceives(s, fragment, more, op);
    case Control(c) => ControlReceives(s, fragment, more, c);
  }

  lemma NotifyDispatches(s: SessionState, fragment: seq<Byte>)
    requires s.failure.None? && s.exchange.Some? && s.exchange.value.future.Waiting? && fragment != []
    ensures Record(s, fragment).exchange == s.exchange
    ensures Step(s, Notify(fragment)) ==
      match s.exchange.value.operation
      case Plain(op) => OnPlain(Record(s, fragment), fragment, op)
      case Control(c) => OnControl(Record(s, fragment), fragment, c)
  {
    hide OnPlain, OnControl;
  }

  lemma PlainReceives(s: SessionState, fragment: seq<Byte>, more: seq<Byte>, op: ReadOperation)
    requires s.failure.None? && s.exchange.Some? && s.exchange.value.operation == Plain(op)
    requires s.exchange.value.future.Waiting?
    requires !s.buffers.streamFailed && s.buffers.stream == s.log.window && Answers(s.log.window + fragment + more, Plain(op))
    ensures Receiving(s, OnPlain(Record(s, fragment), fragment, op), fragment,
                      if more == [] then Resolved(s.log.window + fragment) else Waiting)
  {
    hide ReadAccept, IsReadReply, FeedOnce;
    ReadAcceptComplete(s.log.window, fragment, more, op);
    ReadAccepts(s.log.window, fragment, op);
  }

  lemma ControlReceives(s: SessionState, fragment: seq<Byte>, more: seq<Byte>, c: Command)
    requires s.failure.None? && s.exchange.Some? && s.exchange.value.operation == Control(c)
    requires s.exchange.value.future.Waiting?
    requires s.buffers.command == s.log.window && Answers(s.log.window + fragment + more, Control(c))
    ensures Receiving(s, OnControl(Record(s, fragment), fragment, c), fragment,
                      if more == [] then Resolved(s.log.window + fragment) else Waiting)
  {
    hide ControlAccept, IsReply;
    ControlAcceptComplete(s.log.window, fragment, more, c);
  }

  lemma CleanBuffers(s: SessionState)
    requires Inv(s) && s.failure.None? && s.exchange.Some? && s.exchange.value.future.Waiting?
    ensures !s.buffers.streamFailed
    ensures s.exchange.value.operation.Plain? ==> s.buffers.stream == s.log.window
    ensures s.exchange.value.operation.Control? ==> s.buffers.command == s.log.window
  {}

  lemma ReadAccepts(buffer: seq<Byte>, fragment: seq<Byte>, op: ReadOperation)
    ensures !ReadAccept(buffer, fragment, op).Refuse? ==> FeedOnce(buffer, fragment).Parsed?
  {
    hide FeedOnce, ValidateReadResponse;
  }

  lemma {:induction false} AllReceived(s: SessionState, fragments: seq<seq<Byte>>, rest: seq<Byte>, o: Operation)
    requires Inv(s) && s.failure.None? && s.exchange.Some? && s.exchange.value.operation == o
    requires s.exchange.value.future.Waiting? && NoneEmpty(fragments)
    requires Answers(s.log.window + Concat(fragments) + rest, o)
    ensures var t := Run(s, Notifies(fragments));
      && Inv(t)
      && Receiving(s, t, Concat(fragments),
           if rest == [] && fragments != [] then Resolved(s.log.window + Concat(fragments)) else Waiting)
    decreases fragments
  {
    hide Inv, Step, Answers;
    if fragments == [] {
      assert s.log.window + [] == s.log.window;
    } else {
      var f, later := fragments[0], fragments[1..];
      var more := Concat(later) + rest;
      var t := Step(s, Notify(f));
      assert s.log.window + Concat(fragments) + rest == s.log.window + f + more;
      assert Notifies(fragments)[1..] == Notifies(later);
      NotifyReceives(s, f, more, o);
      if more == [] {
        NothingLater(later);
        RunNothing(t);
        assert later == [] && rest == [] && Concat(fragments) == f;
        assert Run(s, Notifies(fragments)) == t;
      } else {
        assert s.log.window + Concat(fragments) == t.log.window + Concat(later);
        assert t.log.window + Concat(later) + rest == s.log.window + f + more;
        AllReceived(t, later, rest, o);
        if later == [] { assert rest != []; }
      }
    }
  }

  predicate NoneEmpty(fragments: seq<seq<Byte>>) {
    forall i | 0 <= i < |fragments| :: fragments[i] != []
  }

  lemma NothingLater(fragments: seq<seq<Byte>>)
    requires Concat(fragments) == [] && NoneEmpty(fragments)
    ensures fragments == []
  {}

  /** The events of one exchange that nothing disturbs. */
  function Undisturbed(o: Operation, early: seq<seq<Byte>>, late: seq<seq<Byte>>): seq<Event> {
    [Begin(o)] + Notifies(early) + [SendEnd(None)] + Notifies(late) + [Wake]
  }

  /** An undisturbed exchange of a free session succeeds: however its answer is cut up, and
      wherever in it the send returns, exactly that answer is returned, and the session is free
      and unfailed again. */
  lemma Completes(s: SessionState, o: Operation, early: seq<seq<Byte>>, late: seq<seq<Byte>>)
    requires Inv(s) && s.active && s.failure.None? && s.exchange.None?
    requires NoneEmpty(early) && NoneEmpty(late)
    requires Answers(Concat(early) + Concat(late), o)
    ensures var t, answer := Run(s, Undisturbed(o, early, late)), Concat(early) + Concat(late);
      && t.log.returned == s.log.returned + [Return(o, answer, answer)]
      && t.log.sent == s.log.sent + [o]
      && t.exchange.None? && t.failure.None? && t.active && Inv(t)
  {
    hide Inv, Step, Answers, Run;
    var t0 := Step(s, Begin(o));
    BeginsWaiting(s, o);
    AnswerNotEmpty(Concat(early) + Concat(late), o);
    assert t0.log.window + Concat(early) + Concat(late) == Concat(early) + Concat(late);
    AllReceived(t0, early, Concat(late), o);
    var t1 := Run(t0, Notifies(early));
    var t2 := Step(t1, SendEnd(None));
    Joins(s, o, early, late);
    StepInv(t1, SendEnd(None));
    if Concat(late) == [] {
      NothingLater(late);
      assert t0.log.window + Concat(early) == Concat(early) == Concat(early) + Concat(late);
      EarlyAnswer(t1, o, Concat(early));
      RunNothing(t2);
      WakesIdle(t2);
    } else {
      SendReturns(t1, o);
      assert t2.log.window + Concat(late) + [] == Concat(early) + Concat(late);
      AllReceived(t2, late, [], o);
      var t3 := Run(t2, Notifies(late));
      LateAnswer(t3, o, Concat(early) + Concat(late));
      StepInv(t3, Wake);
    }
  }

  lemma BeginsWaiting(s: SessionState, o: Operation)
    requires Inv(s) && s.active && s.failure.None? && s.exchange.None?
    ensures var t := Step(s, Begin(o));
      && Inv(t) && t.active && t.failure.None? && t.exchange == Some(Exchange(o, true, Waiting, None))
      && t.log.window == [] && t.log.sent == s.log.sent + [o] && t.log.returned == s.log.returned
  {
    BeginInv(s, o);
  }

  lemma AnswerNotEmpty(frame: Frame, o: Operation)
    requires Answers(frame, o)
    ensures frame != []
  {
    match o
    case Plain(_) =>
    case Control(c) =>
      hide IsReply;
      ReplyHeader(frame, c);
  }

  lemma Joins(s: SessionState, o: Operation, early: seq<seq<Byte>>, late: seq<seq<Byte>>)
    ensures Run(s, Undisturbed(o, early, late)) ==
      Step(Run(Step(Run(Step(s, Begin(o)), Notifies(early)), SendEnd(None)), Notifies(late)), Wake)
  {
    hide Step, Run;
    var a := [Begin(o)];
    var b := a + Notifies(early);
    var c := b + [SendEnd(None)];
    var d := c + Notifies(late);
    RunAppend(s, a, Notifies(early));
    RunAppend(s, b, [SendEnd(None)]);
    RunAppend(s, c, Notifies(late));
    RunAppend(s, d, [Wake]);
    RunOne(s, Begin(o));
    RunOne(Run(s, b), SendEnd(None));
    RunOne(Run(s, d), Wake);
  }

  lemma RunNothing(s: SessionState)
    ensures Run(s, Notifies([])) == s
  {}

  lemma WakesIdle(s: SessionState)
    requires s.exchange.None?
    ensures Step(s, Wake) == s
  {}

  lemma SendReturns(s: SessionState, o: Operation)
    requires s.exchange == Some(Exchange(o, true, Waiting, None))
    ensures Step(s, SendEnd(None)) == s.(exchange := Some(Exchange(o, false, Waiting, None)))
  {}

  lemma EarlyAnswer(s: SessionState, o: Operation, frame: Frame)
    requires s.exchange == Some(Exchange(o, true, Resolved(frame), None)) && s.active && s.failure.None?
    ensures Step(s, SendEnd(None)) == Answer(s, Return(o, frame, s.log.window))
  {}

  lemma LateAnswer(s: SessionState, o: Operation, frame: Frame)
    requires s.exchange == Some(Exchange(o, false, Resolved(frame), None)) && s.active && s.failure.None?
    ensures Step(s, Wake) == Answer(s, Return(o, frame, s.log.window))
  {}

  // ----- a disturbed session is quarantined -----

  /** The session is disturbed by a disconnection or by closing it, by a send that fails, by
      bytes nobody waits for, and by bytes the acceptor of its exchange refuses. */
  ghost predicate Disturbs(s: SessionState, e: Event) {
    match e
    case Disconnect | Close => true
    case OpenEnd(failed) => s.opening && failed.Some?
    case SendEnd(failed) => s.exchange.Some? && s.exchange.value.sending
                            && (failed.Some? || (s.exchange.value.interrupt.Some? && s.exchange.value.future.Done()))
    case Wake => s.exchange.Some? && !s.exchange.value.sending && s.exchange.value.interrupt.Some?
                 && s.exchange.value.future.Done()
    case Notify(fragment) =>
      fragment != [] && (
        s.exchange.None? || s.exchange.value.future.Done()
        || match s.exchange.value.operation
           case Plain(op) => ReadAccept(s.log.window, fragment, op).Refuse?
           case Control(c) => ControlAccept(s.log.window, fragment, c).Refuse?)
    case _ => false
  }

  /** After a disturbance the session has failed, so Quarantine holds from then on; and a
      session that had not failed fails in no other way. */
  lemma DisturbedExactly(s: SessionState, e: Event)
    requires Inv(s) && s.failure.None? && (s.exchange.Some? ==> s.active)
    ensures Step(s, e).failure.Some? <==> Disturbs(s, e)
  {
    match e
    case Notify(fragment) =>
      hide Inv, OnPlain, OnControl;
      if fragment != [] && s.exchange.Some? && s.exchange.value.future.Waiting? {
        CleanBuffers(s);
        match s.exchange.value.operation
        case Plain(op) => PlainRefuses(s, fragment, op);
        case Control(c) => ControlRefuses(s, fragment, c);
      }
    case _ =>
      hide OnData, Record, Matches, Answers;
  }

  lemma PlainRefuses(s: SessionState, fragment: seq<Byte>, op: ReadOperation)
    requires s.failure.None? && s.exchange.Some? && !s.buffers.streamFailed && s.buffers.stream == s.log.window
    ensures OnPlain(Record(s, fragment), fragment, op).failure.Some? <==> ReadAccept(s.log.window, fragment, op).Refuse?
  {
    hide ReadAccept, FeedOnce;
    RefusedWhole(s.log.window, fragment, op);
  }

  lemma ControlRefuses(s: SessionState, fragment: seq<Byte>, c: Command)
    requires s.failure.None? && s.exchange.Some? && s.buffers.command == s.log.window
    ensures OnControl(Record(s, fragment), fragment, c).failure.Some? <==> ControlAccept(s.log.window, fragment, c).Refuse?
  {
    hide ControlAccept;
  }

  lemma RefusedWhole(buffer: seq<Byte>, fragment: seq<Byte>, op: ReadOperation)
    ensures FeedOnce(buffer, fragment).Corrupt? ==> ReadAccept(buffer, fragment, op).Refuse?
  {
    hide FeedOnce, ValidateReadResponse;
  }

  // ----- the session object -----

  /** The object the source mutates. sending and interrupt stand for where its suspended
      owner is; every method is one stretch of code between two awaits. */
  class ControlSession {
    var used: bool
    var opening: bool
    var active: bool
    var failure: Option<Error>
    var operation: Option<Operation>
    var pending: Option<Future>
    var sending: bool
    var interrupt: Option<Error>
    var commandBuffer: seq<Byte>
    const stream: ReadResponseStream
    ghost var log: Log

    ghost predicate Valid()
      reads this
    {
      pending.Some? <==> operation.Some?
    }

    ghost function Now(): SessionState
      reads this, stream
      requires Valid()
    {
      var exchange := if pending.Some? then Some(Exchange(operation.value, sending, pending.value, interrupt)) else None;
      SessionState(used, opening, active, failure, exchange, Buffers(stream.buffer, stream.failed, commandBuffer), log)
    }

    constructor ()
      ensures Valid() && fresh(stream) && Now() == Fresh() && Inv(Now())
    {
      used, opening, active, failure := false, false, false, None;
      operation, pending, sending, interrupt := None, None, false, None;
      commandBuffer := [];
      stream := new ReadResponseStream();
      log := Log([], [], [], []);
    }

    method Fail(error: Error)
      requires Valid()
      modifies this`failure, this`pending
      ensures Valid() && Now() == Invalidate(old(Now()), error)
    {
      if failure.None? {
        failure := Some(error);
      }
      if pending.Some? && !pending.value.Done() {
        pending := Some(Raised(error));
      }
    }

    method CloseNow()
      requires Valid()
      modifies this`active, this`opening, this`failure, this`pending
      ensures Valid() && Now() == Step(old(Now()), Close)
    {
      opening, active := false, false;
      Fail(Unavailable);
    }

    /** __aenter__ up to the await of the transport; a used session refuses. */
    method EnterBegin() returns (r: Result<()>)
      requires Valid()
      modifies this`used, this`opening
      ensures Valid() && Now() == Step(old(Now()), OpenBegin)
      ensures r.Failure? <==> old(used)
    {
      if used {
        return Failure(Unavailable);
      }
      used, opening := true, true;
      return Success(());
    }

    /** The rest of __aenter__, once the transport has opened or failed to. */
    method EnterEnd(failed: Option<Error>) returns (r: Result<()>)
      requires Valid() && opening
      modifies this`active, this`opening, this`failure, this`pending
      ensures Valid() && Now() == Step(old(Now()), OpenEnd(failed))
      ensures r.Success? <==> failed.None? && old(failure).None?
      ensures r.Success? ==> active
    {
      opening := false;
      if failed.Some? {
        Fail(failed.value);
        CloseNow();
        return Failure(failed.value);
      }
      active := true;
      if failure.Some? {
        CloseNow();
        return Failure(Unavailable);
      }
      return Success(());
    }

    method OnDisconnect()
      requires Valid()
      modifies this`failure, this`pending
      ensures Valid() && Now() == Step(old(Now()), Disconnect)
    {
      Fail(Unavailable);
    }

    method OnPlainData(fragment: seq<Byte>, op: ReadOperation)
      requires Valid() && pending.Some? && operation == Some(Plain(op))
      requires fragment != [] && failure.None? && !pending.value.Done()
      modifies this`failure, this`pending, stream
      ensures Valid() && Now() == OnPlain(old(Now()), fragment, op)
    {
      hide FeedOnce, ValidateReadResponse;
      var frames := stream.Feed(fragment);
      if frames.Failure? {
        Fail(frames.error);
      } else if frames.value != [] {
        if |frames.value| != 1 || stream.buffer != [] {
          Fail(Protocol);
        } else {
          var payload := ValidateReadResponse(frames.value[0], op);
          if payload.Failure? {
            Fail(payload.error);
          } else {
            pending := Some(Resolved(frames.value[0]));
          }
        }
      }
    }

    method OnControlData(fragment: seq<Byte>, c: Command)
      requires Valid() && pending.Some? && operation == Some(Control(c))
      requires fragment != [] && failure.None? && !pending.value.Done()
      modifies this`failure, this`pending, this`commandBuffer
      ensures Valid() && Now() == OnControl(old(Now()), fragment, c)
    {
      hide ControlAccept;
      var verdict := ControlAccept(commandBuffer, fragment, c);
      commandBuffer := commandBuffer + fragment;
      match verdict
      case Wait(_) =>
      case Refuse(error) => Fail(error);
      case Deliver(frame) =>
        commandBuffer := [];
        pending := Some(Resolved(frame));
    }

    method Notified(fragment: seq<Byte>)
      requires Valid()
      modifies this`failure, this`pending, this`commandBuffer, this`log, stream
      ensures Valid() && Now() == Step(old(Now()), Notify(fragment))
    {
      hide OnPlain, OnControl;
      if pending.Some? {
        log := log.(window := log.window + fragment);
      }
      if fragment == [] || failure.Some? {
        return;
      }
      if pending.None? || pending.value.Done() {
        Fail(Protocol);
        return;
      }
      match operation.value
      case Plain(op) => OnPlainData(fragment, op);
      case Control(c) => OnControlData(fragment, c);
    }

    /** _exchange from the lock to its first suspension; false when it refuses to start. */
    method BeginExchange(o: Operation) returns (started: bool)
      requires Valid() && pending.None?
      modifies this`operation, this`pending, this`sending, this`interrupt, this`log
      ensures Valid() && Now() == Step(old(Now()), Begin(o))
      ensures started <==> active && failure.None?
    {
      if !active || failure.Some? {
        return false;
      }
      operation, pending, sending, interrupt := Some(o), Some(Waiting), true, None;
      log := log.(window := [], sent := log.sent + [o]);
      return true;
    }

    /** The except and finally clauses of _exchange. */
    method Abort(error: Error)
      requires Valid() && pending.Some?
      modifies this`failure, this`operation, this`pending
      ensures Valid() && Now() == FailExchange(old(Now()), error)
    {
      Fail(error);
      operation, pending := None, None;
    }

    /** The transport's send has returned or raised. */
    method SendReturned(failed: Option<Error>) returns (r: Option<Result<Frame>>)
      requires Valid() && pending.Some? && sending
      modifies this`failure, this`operation, this`pending, this`sending, this`log
      ensures Valid() && Now() == Step(old(Now()), SendEnd(failed))
      ensures r.Some? && r.value.Success? ==> log.returned != [] && log.returned[|log.returned| - 1].frame == r.value.value
    {
      if failed.Some? {
        Abort(failed.value);
        return Some(Failure(failed.value));
      }
      if !pending.value.Done() {
        sending := false;
        return None;
      }
      r := Resumed();
    }

    /** A timeout or cancellation reaches the exchange while it awaits its future. */
    method InterruptExchange(error: Error)
      requires Valid() && pending.Some? && !sending
      modifies this`interrupt, this`pending
      ensures Valid() && Now() == Step(old(Now()), Interrupt(error))
    {
      interrupt := Some(error);
      if pending.value.Waiting? {
        pending := Some(Abandoned);
      }
    }

    /** The code after the awaited future: raise, or recheck the session and return. */
    method Resumed() returns (r: Option<Result<Frame>>)
      requires Valid() && pending.Some? && pending.value.Done()
      modifies this`failure, this`operation, this`pending, this`log
      ensures Valid() && Now() == Resume(old(Now()))
      ensures !old(sending) ==> Now() == Step(old(Now()), Wake)
      ensures r.Some? && r.value.Success? ==> log.returned != [] && log.returned[|log.returned| - 1].frame == r.value.value
    {
      if interrupt.Some? {
        r := Some(Failure(interrupt.value));
        Abort(interrupt.value);
        return;
      }
      match pending.value
      case Raised(error) =>
        Abort(error);
        r := Some(Failure(error));
      case Resolved(frame) =>
        if !active || failure.Some? {
          Abort(Unavailable);
          r := Some(Failure(Unavailable));
        } else {
          log := log.(returned := log.returned + [Return(operation.value, frame, log.window)]);
          operation, pending := None, None;
          r := Some(Success(frame));
        }
      case _ => r := None;
    }

    /** release_press on a quarantined session: one send, nothing awaited in return. */
    method SendReleaseOnly(c: Command)
      requires Valid() && failure.Some? && c.IsRelease()
      modifies this`log
      ensures Valid() && Now() == Step(old(Now()), DirectRelease(c))
    {
      log := log.(releases := log.releases + [c]);
    }

    /** One event, as the method that stands for it; an event that is not possible is no call. */
    method Happen(e: Event)
      requires Valid()
      modifies this, stream
      ensures Valid() && Now() == Step(old(Now()), e)
    {
      hide OnData, Record, Resume, Invalidate, FailExchange;
      match e
      case OpenBegin => var _ := EnterBegin();
      case OpenEnd(failed) =>
        if opening {
          var _ := EnterEnd(failed);
        }
      case Begin(o) =>
        if pending.None? {
          var _ := BeginExchange(o);
        }
      case SendEnd(failed) =>
        if pending.Some? && sending {
          var _ := SendReturned(failed);
        }
      case Notify(fragment) => Notified(fragment);
      case Disconnect => OnDisconnect();
      case Interrupt(error) =>
        if pending.Some? && !sending {
          InterruptExchange(error);
        }
      case Wake =>
        if pending.Some? && !sending && pending.value.Done() {
          var _ := Resumed();
        }
      case DirectRelease(c) =>
        if failure.Some? && c.IsRelease() {
          SendReleaseOnly(c);
        }
      case Close => CloseNow();
    }

    /** Any sequence of events drives the object exactly as it drives the state machine, so a
        session that was correlated stays so. */
    method Live(events: seq<Event>)
      requires Valid() && Inv(Now())
      modifies this, stream
      ensures Valid() && Inv(Now()) && Now() == Run(old(Now()), events)
      ensures Correlated(log)
    {
      hide Step, Inv;
      for i := 0 to |events|
        invariant Valid() && Inv(Now())
        invariant Run(old(Now()), events) == Run(Now(), events[i..])
      {
        StepInv(Now(), events[i]);
        assert events[i..][0] == events[i] && events[i..][1..] == events[i + 1..];
        Happen(events[i]);
      }
      assert events[|events|..] == [];
      InvCorrelates(Now());
    }
  }
}
