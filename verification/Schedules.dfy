/** The boiler scheduler of schedules.py: pending and last-attempt markers, one store whose
    writes are first in first out with the document taken at the call, and the death of the
    process at any await. */
module Schedules {
  import opened Outcomes

  datatype Boiler = Brew | Steam

  datatype Flags = Flags(brew: bool, steam: bool) {
    function Of(b: Boiler): bool { if b.Brew? then brew else steam }

    function With(b: Boiler, value: bool): Flags { if b.Brew? then this.(brew := value) else this.(steam := value) }
  }

  datatype Edge = Edge(boiler: Boiler, on: bool)

  type Attempts = map<Edge, nat>

  datatype Document = Document(pending: Flags, attempts: Attempts)

  /** Why a document is written: a run marks, a verified run or an acknowledgement clears,
      a pause or the end of an acknowledgement only notes. */
  datatype Purpose = Mark(edge: Edge) | Clear(boiler: Boiler) | AckClear(boiler: Boiler) | Note

  /** A write not yet finished. alive: its task still waits and will adopt the document.
      owned: that task holds the connection lock. */
  datatype Write = Write(document: Document, purpose: Purpose, alive: bool, owned: bool)

  /** What the holder of the connection lock is awaiting. */
  datatype Holder =
    | Nobody
    | Marking(edge: Edge, day: nat)
    | Executing(edge: Edge)
    | Clearing(edge: Edge)
    | Pausing(boiler: Boiler)
    | Verifying(boiler: Boiler)
    | Acknowledging(boiler: Boiler)
    | Other

  /** A transaction began, with the date of its marker; a verified result or an acknowledgement was durably cleared. */
  datatype Happening = Begun(edge: Edge, day: nat) | Settled(boiler: Boiler)

  datatype State = State(
    pending: Flags, attempts: Attempts, disk: Document, queue: seq<Write>, holder: Holder,
    today: nat, log: seq<Happening>)

  datatype Event =
    | Tick
    | Run(edge: Edge)
    | Pause
    | StoreEnds(raised: bool, landed: bool)
    | ExecutionEnds(verified: bool)
    | Cancel
    | AckBegins(boiler: Boiler)
    | AckVerified(idle: bool)
    | OtherBegins
    | OtherEnds
    | Death(landed: bool)

  function Fresh(): State {
    var nothing := Document(Flags(false, false), map[]);
    State(nothing.pending, nothing.attempts, nothing, [], Nobody, 0, [])
  }

  /** A call of _save: the document is taken now, whatever self.pending becomes later. */
  function Save(s: State, pending: Flags, purpose: Purpose, owned: bool): State {
    s.(queue := s.queue + [Write(Document(pending, s.attempts), purpose, true, owned)])
  }

  /** All guards of async_run pass with the connection lock held. */
  predicate MayRun(s: State, edge: Edge) {
    && s.holder == Nobody
    && !s.pending.Of(edge.boiler)
    && !(edge in s.attempts && s.attempts[edge] == s.today)
  }

  /** Both markers are set in place and their durable write is requested. */
  function MarkRun(s: State, edge: Edge): State {
    var t := s.(pending := s.pending.With(edge.boiler, true), attempts := s.attempts[edge := s.today],
                holder := Marking(edge, s.today));
    Save(t, t.pending, Mark(edge), true)
  }

  /** A failed or cancelled run pauses its schedule before it gives up the lock. */
  function BeginPause(s: State, boiler: Boiler): State {
    Save(s.(holder := Pausing(boiler)), s.pending, Note, true)
  }

  /** The document reaches the disk; a clearing document settles its boiler. */
  function Land(s: State, w: Write): State {
    var settled := if w.purpose.Clear? || w.purpose.AckClear? then [Settled(w.purpose.boiler)] else [];
    s.(disk := w.document, log := s.log + settled)
  }

  /** The owner of a finished write goes on. */
  function Continue(s: State, raised: bool): State {
    match s.holder
    case Marking(edge, day) =>
      if raised then BeginPause(s, edge.boiler)
      else s.(holder := Executing(edge), log := s.log + [Begun(edge, day)])
    case Clearing(edge) => if raised then BeginPause(s, edge.boiler) else s.(holder := Nobody)
    case Pausing(_) => s.(holder := Nobody)
    case Acknowledging(_) =>
      if raised then s.(holder := Nobody) else Save(s.(holder := Nobody), s.pending, Note, false)
    case _ => s
  }

  /** The write in front ends. It may raise whether or not the document landed. */
  function FinishWrite(s: State, raised: bool, landed: bool): State
    requires s.queue != []
  {
    var w := s.queue[0];
    var t := s.(queue := s.queue[1..]);
    var u := if landed || !raised then Land(t, w) else t;
    var v := if !raised && w.alive then u.(pending := w.document.pending) else u;
    if w.alive && w.owned then Continue(v, raised) else v
  }

  function Orphan(queue: seq<Write>): (orphaned: seq<Write>)
    ensures |orphaned| == |queue|
    ensures forall i | 0 <= i < |queue| ::
      orphaned[i] == if queue[i].owned then queue[i].(alive := false, owned := false) else queue[i]
  {
    seq(|queue|, i requires 0 <= i < |queue| =>
      if queue[i].owned then queue[i].(alive := false, owned := false) else queue[i])
  }

  /** An event that is not possible in a state leaves it alone. */
  function Step(s: State, e: Event): State {
    match e
    case Tick => s.(today := s.today + 1)
    case Run(edge) => if MayRun(s, edge) then MarkRun(s, edge) else s
    case Pause => Save(s, s.pending, Note, false)
    case StoreEnds(raised, landed) => if s.queue == [] then s else FinishWrite(s, raised, landed)
    case ExecutionEnds(verified) =>
      if !s.holder.Executing? then s
      else if verified then
        var b := s.holder.edge.boiler;
        Save(s.(holder := Clearing(s.holder.edge)), s.pending.With(b, false), Clear(b), true)
      else BeginPause(s, s.holder.edge.boiler)
    case Cancel =>
      (match s.holder
       case Marking(edge, _) => BeginPause(s.(queue := Orphan(s.queue)), edge.boiler)
       case Executing(edge) => BeginPause(s, edge.boiler)
       case Clearing(edge) => BeginPause(s.(queue := Orphan(s.queue)), edge.boiler)
       case Pausing(_) => s.(queue := Orphan(s.queue), holder := Nobody)
       case Verifying(_) => s.(holder := Nobody)
       case Acknowledging(_) => s.(queue := Orphan(s.queue), holder := Nobody)
       case _ => s)
    case AckBegins(b) => if s.holder == Nobody then s.(holder := Verifying(b)) else s
    case AckVerified(idle) =>
      if !s.holder.Verifying? then s
      else if idle then
        var b := s.holder.boiler;
        Save(s.(holder := Acknowledging(b)), s.pending.With(b, false), AckClear(b), true)
      else s.(holder := Nobody)
    case OtherBegins => if s.holder == Nobody then s.(holder := Other) else s
    case OtherEnds => if s.holder == Other then s.(holder := Nobody) else s
    case Death(landed) =>
      var t := if landed && s.queue != [] then Land(s, s.queue[0]) else s;
      t.(pending := t.disk.pending, attempts := t.disk.attempts, queue := [], holder := Nobody)
  }

  function Steps(s: State, events: seq<Event>): State
    decreases events
  {
    if events == [] then s else Steps(Step(s, events[0]), events[1..])
  }

  // ----- at most one transaction per boiler, edge and date -----

  predicate Below(a: Attempts, b: Attempts) {
    forall e | e in a :: e in b && a[e] <= b[e]
  }

  /** Attempt markers only grow along the disk, the queue and memory. */
  ghost predicate Chain(s: State) {
    && Below(s.disk.attempts, s.attempts)
    && (forall i | 0 <= i < |s.queue| ::
          Below(s.disk.attempts, s.queue[i].document.attempts) && Below(s.queue[i].document.attempts, s.attempts))
    && (forall i, j | 0 <= i < j < |s.queue| ::
          Below(s.queue[i].document.attempts, s.queue[j].document.attempts))
    && (forall e | e in s.attempts :: s.attempts[e] <= s.today)
  }

  ghost predicate NoneOwned(queue: seq<Write>) {
    forall i | 0 <= i < |queue| :: !queue[i].owned
  }

  /** Only a holder that waits for a write owns one, and only one. */
  ghost predicate Owned(s: State) {
    && (s.holder.Nobody? || s.holder.Executing? || s.holder.Verifying? || s.holder.Other? ==> NoneOwned(s.queue))
    && (forall i, j | 0 <= i < j < |s.queue| :: !(s.queue[i].owned && s.queue[j].owned))
    && (forall i | 0 <= i < |s.queue| && s.queue[i].owned :: s.queue[i].alive)
  }

  /** The write a marking run waits for carries its markers. */
  ghost predicate Marked(s: State) {
    s.holder.Marking? ==>
      && s.holder.edge in s.attempts && s.attempts[s.holder.edge] == s.holder.day
      && forall i | 0 <= i < |s.queue| && s.queue[i].owned ::
           && s.queue[i].document.pending.Of(s.holder.edge.boiler)
           && !s.queue[i].purpose.Clear? && !s.queue[i].purpose.AckClear?
           && s.holder.edge in s.queue[i].document.attempts
           && s.queue[i].document.attempts[s.holder.edge] == s.holder.day
  }

  /** Every transaction begun is on the disk, and the one being marked is newer than all. */
  ghost predicate Recorded(log: seq<Happening>, disk: Attempts, holder: Holder) {
    && (forall k | 0 <= k < |log| && log[k].Begun? :: log[k].edge in disk && log[k].day <= disk[log[k].edge])
    && (holder.Marking? ==>
          forall k | 0 <= k < |log| && log[k].Begun? && log[k].edge == holder.edge :: log[k].day < holder.day)
  }

  /** No edge began twice on one date. */
  ghost predicate OncePerDate(log: seq<Happening>) {
    forall i, j | 0 <= i < j < |log| && log[i].Begun? && log[j].Begun? && log[i].edge == log[j].edge ::
      log[i].day < log[j].day
  }

  ghost predicate Inv(s: State) {
    && Chain(s) && Owned(s) && Marked(s)
    && Recorded(s.log, s.disk.attempts, s.holder) && OncePerDate(s.log)
  }

  lemma FreshInv()
    ensures Inv(Fresh())
  {}

  lemma BelowTrans(a: Attempts, b: Attempts, c: Attempts)
    requires Below(a, b) && Below(b, c)
    ensures Below(a, c)
  {}

  /** Recording a write that the holder, if it owns it, has just requested. */
  lemma SaveInv(s: State, pending: Flags, purpose: Purpose, owned: bool)
    requires Inv(s)
    requires owned ==> NoneOwned(s.queue) && (s.holder.Pausing? || s.holder.Clearing? || s.holder.Acknowledging?)
    ensures Inv(Save(s, pending, purpose, owned))
  {
    hide Below, Recorded, OncePerDate;
    BelowSelf(s.attempts);
  }

  lemma BelowSelf(a: Attempts)
    ensures Below(a, a)
  {}

  /** Giving up the lock, or moving on to a stage that marks nothing. */
  lemma HolderInv(s: State, holder: Holder)
    requires Inv(s) && !holder.Marking? && NoneOwned(s.queue)
    ensures Inv(s.(holder := holder))
  {
    hide Below, OncePerDate;
  }

  lemma MarkInv(s: State, edge: Edge)
    requires Inv(s) && MayRun(s, edge)
    ensures Inv(MarkRun(s, edge))
  {
    hide OncePerDate;
    assert Below(s.attempts, s.attempts[edge := s.today]);
    forall a: Attempts | Below(a, s.attempts) ensures Below(a, s.attempts[edge := s.today]) {
      BelowTrans(a, s.attempts, s.attempts[edge := s.today]);
    }
    hide Below;
    MarkChain(s, edge);
  }

  lemma MarkChain(s: State, edge: Edge)
    requires Inv(s) && MayRun(s, edge)
    ensures Chain(MarkRun(s, edge))
    ensures forall k | 0 <= k < |s.log| && s.log[k].Begun? && s.log[k].edge == edge :: s.log[k].day < s.today
  {
    hide OncePerDate, Owned, Marked;
  }

  lemma BeginPauseInv(s: State, boiler: Boiler)
    requires Inv(s) && NoneOwned(s.queue)
    ensures Inv(BeginPause(s, boiler))
  {
    hide Inv;
    HolderInv(s, Pausing(boiler));
    SaveInv(s.(holder := Pausing(boiler)), s.pending, Note, true);
  }

  lemma OrphanInv(s: State)
    requires Inv(s)
    ensures Inv(s.(queue := Orphan(s.queue))) && NoneOwned(Orphan(s.queue))
  {
    hide Below, Recorded, OncePerDate;
  }

  lemma CancelInv(s: State)
    requires Inv(s)
    ensures Inv(Step(s, Cancel))
  {
    hide Inv, Orphan, BeginPause;
    OrphanInv(s);
    var t := s.(queue := Orphan(s.queue));
    HolderInv(t, Nobody);
    match s.holder
    case Marking(edge, _) => BeginPauseInv(t, edge.boiler);
    case Executing(edge) => NotOwning(s); BeginPauseInv(s, edge.boiler);
    case Clearing(edge) => BeginPauseInv(t, edge.boiler);
    case Verifying(_) => NotOwning(s); HolderInv(s, Nobody);
    case _ =>
  }

  lemma NotOwning(s: State)
    requires Inv(s) && (s.holder.Nobody? || s.holder.Executing? || s.holder.Verifying? || s.holder.Other?)
    ensures NoneOwned(s.queue)
  {}

  lemma PopInv(s: State)
    requires Inv(s) && s.queue != []
    ensures Inv(s.(queue := s.queue[1..]))
    ensures s.queue[0].owned ==> NoneOwned(s.queue[1..])
  {
    hide Below, Recorded, OncePerDate;
  }

  lemma LandInv(s: State, w: Write)
    requires s.queue != [] && w == s.queue[0] && Inv(s)
    ensures Inv(Land(s.(queue := s.queue[1..]), w))
  {
    var t := Land(s.(queue := s.queue[1..]), w);
    PopInv(s);
    LandRecorded(s, w);
    hide Below, Recorded, OncePerDate;
    assert Chain(t);
  }

  lemma LandRecorded(s: State, w: Write)
    requires s.queue != [] && w == s.queue[0] && Inv(s)
    ensures var t := Land(s.(queue := s.queue[1..]), w);
      Recorded(t.log, t.disk.attempts, t.holder) && OncePerDate(t.log)
  {
    hide Marked, Owned;
    assert Below(s.disk.attempts, w.document.attempts);
  }

  lemma AdoptInv(s: State, pending: Flags)
    requires Inv(s)
    ensures Inv(s.(pending := pending))
  {
    hide Below, Recorded, OncePerDate;
  }

  /** A marking run whose write has landed begins, for the first time on its date. */
  lemma BeginInv(s: State)
    requires Inv(s) && s.holder.Marking? && NoneOwned(s.queue)
    requires s.holder.edge in s.disk.attempts && s.disk.attempts[s.holder.edge] >= s.holder.day
    ensures Inv(Continue(s, false))
  {
    hide Below;
  }

  lemma ContinueInv(s: State, raised: bool)
    requires Inv(s) && NoneOwned(s.queue)
    requires s.holder.Marking? && !raised ==>
      s.holder.edge in s.disk.attempts && s.disk.attempts[s.holder.edge] >= s.holder.day
    ensures Inv(Continue(s, raised))
  {
    hide Inv, BeginPause, Save;
    HolderInv(s, Nobody);
    match s.holder
    case Marking(edge, _) => if raised { BeginPauseInv(s, edge.boiler); } else { BeginInv(s); }
    case Clearing(edge) => if raised { BeginPauseInv(s, edge.boiler); }
    case Acknowledging(_) => if !raised { SaveInv(s.(holder := Nobody), s.pending, Note, false); }
    case _ =>
  }

  lemma FinishInv(s: State, raised: bool, landed: bool)
    requires Inv(s) && s.queue != []
    ensures Inv(FinishWrite(s, raised, landed))
  {
    hide Inv, Continue, Land;
    var w := s.queue[0];
    var t := s.(queue := s.queue[1..]);
    PopInv(s);
    LandInv(s, w);
    LandOnlyDisk(t, w);
    var u := if landed || !raised then Land(t, w) else t;
    AdoptInv(u, w.document.pending);
    var v := if !raised && w.alive then u.(pending := w.document.pending) else u;
    if w.alive && w.owned {
      FrontIsMark(s);
      ContinueInv(v, raised);
    }
  }

  lemma LandOnlyDisk(s: State, w: Write)
    ensures var t := Land(s, w);
      && t.disk == w.document && t.pending == s.pending && t.attempts == s.attempts && t.queue == s.queue
      && t.holder == s.holder && t.today == s.today
      && t.log == s.log + (if w.purpose.Clear? || w.purpose.AckClear? then [Settled(w.purpose.boiler)] else [])
  {}

  lemma FrontIsMark(s: State)
    requires Inv(s) && s.queue != [] && s.queue[0].owned
    ensures s.queue[0].alive
    ensures s.holder.Marking? || s.holder.Clearing? || s.holder.Pausing? || s.holder.Acknowledging?
    ensures s.holder.Marking? ==>
      && s.holder.edge in s.queue[0].document.attempts
      && s.queue[0].document.attempts[s.holder.edge] == s.holder.day
      && s.queue[0].document.pending.Of(s.holder.edge.boiler)
      && !s.queue[0].purpose.Clear? && !s.queue[0].purpose.AckClear?
  {}

  lemma DeathInv(s: State, landed: bool)
    requires Inv(s)
    ensures Inv(Step(s, Death(landed)))
  {
    if landed && s.queue != [] { LandRecorded(s, s.queue[0]); }
    hide OncePerDate;
  }

  lemma StepInv(s: State, e: Event)
    requires Inv(s)
    ensures Inv(Step(s, e))
  {
    match e
    case Tick => hide Below, Recorded, OncePerDate;
    case Run(edge) =>
      hide Inv, MarkRun;
      if MayRun(s, edge) { MarkInv(s, edge); }
    case Pause => hide *; PauseInv(s);
    case StoreEnds(raised, landed) =>
      hide Inv, FinishWrite;
      if s.queue != [] { FinishInv(s, raised, landed); }
    case ExecutionEnds(verified) =>
      hide Inv, Save, BeginPause;
      if s.holder.Executing? {
        NotOwning(s);
        var b := s.holder.edge.boiler;
        HolderInv(s, Clearing(s.holder.edge));
        SaveInv(s.(holder := Clearing(s.holder.edge)), s.pending.With(b, false), Clear(b), true);
        BeginPauseInv(s, b);
      }
    case Cancel => hide *; CancelInv(s);
    case AckBegins(b) =>
      hide Inv;
      if s.holder == Nobody {
        NotOwning(s);
        HolderInv(s, Verifying(b));
      }
    case AckVerified(idle) =>
      hide Inv, Save;
      if s.holder.Verifying? {
        NotOwning(s);
        var b := s.holder.boiler;
        HolderInv(s, Nobody);
        HolderInv(s, Acknowledging(b));
        SaveInv(s.(holder := Acknowledging(b)), s.pending.With(b, false), AckClear(b), true);
      }
    case OtherBegins =>
      hide Inv;
      if s.holder == Nobody {
        NotOwning(s);
        HolderInv(s, Other);
      }
    case OtherEnds =>
      hide Inv;
      if s.holder == Other {
        NotOwning(s);
        HolderInv(s, Nobody);
      }
    case Death(landed) => hide *; DeathInv(s, landed);
  }

  lemma PauseInv(s: State)
    requires Inv(s)
    ensures Inv(Step(s, Pause))
  {
    hide Inv, Save;
    SaveInv(s, s.pending, Note, false);
  }

  lemma {:induction false} StepsInv(s: State, events: seq<Event>)
    requires Inv(s)
    ensures Inv(Steps(s, events))
    decreases events
  {
    hide Inv, Step;
    if events != [] {
      StepInv(s, events[0]);
      StepsInv(Step(s, events[0]), events[1..]);
    }
  }

  /** Whatever is cancelled, fails, races or dies, and wherever the dates turn, no edge of a
      boiler begins a transaction twice on one date. */
  lemma AtMostOncePerDate(events: seq<Event>)
    ensures OncePerDate(Steps(Fresh(), events).log)
  {
    hide Step, Chain, Owned, Marked, Recorded, OncePerDate;
    FreshInv();
    StepsInv(Fresh(), events);
  }

  // ----- no second transaction before the first is settled -----

  predicate BeginsFor(h: Happening, b: Boiler) { h.Begun? && h.edge.boiler == b }

  /** The latest transaction of a boiler has not been settled. */
  function Unsettled(log: seq<Happening>, b: Boiler): bool {
    if log == [] then false
    else
      var last := log[|log| - 1];
      if BeginsFor(last, b) then true
      else if last == Settled(b) then false
      else Unsettled(log[..|log| - 1], b)
  }

  /** Between two transactions of a boiler its pending marker was durably cleared. */
  ghost predicate Separated(log: seq<Happening>, b: Boiler) {
    forall i, j | 0 <= i < j < |log| && BeginsFor(log[i], b) && BeginsFor(log[j], b) ::
      exists m :: i < m < j && log[m] == Settled(b)
  }

  lemma UnsettledMore(log: seq<Happening>, h: Happening, b: Boiler)
    ensures Unsettled(log + [h], b) ==
      if BeginsFor(h, b) then true else if h == Settled(b) then false else Unsettled(log, b)
  {
    assert (log + [h])[..|log|] == log;
  }

  lemma {:induction false} SettledAfter(log: seq<Happening>, b: Boiler, i: nat) returns (m: nat)
    requires i < |log| && BeginsFor(log[i], b) && !Unsettled(log, b)
    ensures i < m < |log| && log[m] == Settled(b)
  {
    var last := |log| - 1;
    if log[last] == Settled(b) {
      m := last;
    } else {
      m := SettledAfter(log[..last], b, i);
    }
  }

  lemma SeparatedMore(log: seq<Happening>, h: Happening, b: Boiler)
    requires Separated(log, b) && (BeginsFor(h, b) ==> !Unsettled(log, b))
    ensures Separated(log + [h], b)
  {
    var more := log + [h];
    forall i, j | 0 <= i < j < |more| && BeginsFor(more[i], b) && BeginsFor(more[j], b)
      ensures exists m :: i < m < j && more[m] == Settled(b)
    {
      if j < |log| {
        var m :| i < m < j && log[m] == Settled(b);
        assert more[m] == Settled(b);
      } else {
        var m := SettledAfter(log, b, i);
        assert more[m] == Settled(b);
      }
    }
  }

  predicate ClearsFor(w: Write, b: Boiler) {
    (w.purpose.Clear? || w.purpose.AckClear?) && w.purpose.boiler == b
  }

  /** An unsettled boiler is pending in memory, on disk and in every queued document that
      is not its own clearing. */
  ghost predicate Kept(s: State, b: Boiler) {
    Unsettled(s.log, b) ==>
      && s.pending.Of(b) && s.disk.pending.Of(b)
      && forall i | 0 <= i < |s.queue| :: s.queue[i].document.pending.Of(b) || ClearsFor(s.queue[i], b)
  }

  /** While a run of this boiler is being marked, nothing queued behind its write, and
      nothing still to be adopted before it, shows the boiler clear. */
  ghost predicate MarkKept(s: State, b: Boiler) {
    s.holder.Marking? && s.holder.edge.boiler == b ==>
      && s.pending.Of(b) && !Unsettled(s.log, b)
      && NoStale(s, b)
      && forall i, j | 0 <= j <= i < |s.queue| && s.queue[j].owned :: s.queue[i].document.pending.Of(b)
  }

  ghost predicate Guarded(s: State, b: Boiler) {
    Kept(s, b) && MarkKept(s, b) && Separated(s.log, b)
  }

  /** No unfinished save will write back a document that shows the boiler clear. */
  predicate NoStale(s: State, b: Boiler) {
    forall i | 0 <= i < |s.queue| && s.queue[i].alive :: s.queue[i].document.pending.Of(b)
  }

  ghost predicate CleanStep(s: State, e: Event) {
    e.Run? && MayRun(s, e.edge) ==> NoStale(s, e.edge.boiler)
  }

  ghost predicate CleanRun(s: State, events: seq<Event>)
    decreases events
  {
    events == [] || (CleanStep(s, events[0]) && CleanRun(Step(s, events[0]), events[1..]))
  }

  /** Writing down what memory holds now, or a clearing of another boiler or of an idle one. */
  lemma SaveGuarded(s: State, pending: Flags, purpose: Purpose, owned: bool, b: Boiler)
    requires Guarded(s, b) && !s.holder.Marking?
    requires pending.Of(b) == s.pending.Of(b) || ((purpose == Clear(b) || purpose == AckClear(b)))
    ensures Guarded(Save(s, pending, purpose, owned), b)
  {
    hide Unsettled, Separated;
  }

  lemma NoteGuarded(s: State, b: Boiler)
    requires Guarded(s, b)
    ensures Guarded(Save(s, s.pending, Note, false), b)
  {
    hide Unsettled, Separated;
  }

  lemma HolderGuarded(s: State, holder: Holder, b: Boiler)
    requires Kept(s, b) && Separated(s.log, b) && !holder.Marking?
    ensures Guarded(s.(holder := holder), b)
  {
    hide Unsettled, Separated;
  }

  lemma BeginPauseGuarded(s: State, boiler: Boiler, b: Boiler)
    requires Kept(s, b) && Separated(s.log, b)
    ensures Guarded(BeginPause(s, boiler), b)
  {
    hide Guarded, Kept, Separated;
    HolderGuarded(s, Pausing(boiler), b);
    SaveGuarded(s.(holder := Pausing(boiler)), s.pending, Note, true, b);
  }

  lemma MarkGuarded(s: State, edge: Edge, b: Boiler)
    requires Inv(s) && Guarded(s, b) && MayRun(s, edge)
    requires edge.boiler == b ==> NoStale(s, b)
    ensures Guarded(MarkRun(s, edge), b)
  {
    hide Unsettled, Separated, Chain, Recorded, OncePerDate, Marked;
  }

  lemma OrphanGuarded(s: State, holder: Holder, b: Boiler)
    requires Guarded(s, b) && !holder.Marking?
    ensures Guarded(s.(queue := Orphan(s.queue), holder := holder), b)
  {
    hide Unsettled, Separated;
  }

  lemma CancelGuarded(s: State, b: Boiler)
    requires Guarded(s, b)
    ensures Guarded(Step(s, Cancel), b)
  {
    hide Kept, MarkKept, Separated, Orphan, Save;
    OrphanGuarded(s, Nobody, b);
    HolderGuarded(s, Nobody, b);
    var t := s.(queue := Orphan(s.queue));
    match s.holder
    case Marking(edge, _) =>
      OrphanGuarded(s, Pausing(edge.boiler), b);
      SaveGuarded(t.(holder := Pausing(edge.boiler)), s.pending, Note, true, b);
    case Executing(edge) => BeginPauseGuarded(s, edge.boiler, b);
    case Clearing(edge) =>
      OrphanGuarded(s, Pausing(edge.boiler), b);
      SaveGuarded(t.(holder := Pausing(edge.boiler)), s.pending, Note, true, b);
    case _ =>
  }

  /** The front write lands and is adopted, or not. */
  lemma PopGuarded(s: State, raised: bool, landed: bool, b: Boiler)
    requires Inv(s) && Guarded(s, b) && s.queue != []
    ensures var w := s.queue[0];
      var t := s.(queue := s.queue[1..]);
      var u := if landed || !raised then Land(t, w) else t;
      var v := if !raised && w.alive then u.(pending := w.document.pending) else u;
      && Kept(v, b) && Separated(v.log, b)
      && (w.owned || MarkKept(v, b))
      && (w.owned && s.holder.Marking? && s.holder.edge.boiler == b ==>
           && !Unsettled(v.log, b) && v.pending.Of(b) && (!raised ==> v.disk.pending.Of(b))
           && forall i | 0 <= i < |v.queue| :: v.queue[i].document.pending.Of(b))
  {
    hide Unsettled, Separated, Inv;
    var w := s.queue[0];
    LandLog(s.log, w, b);
    if w.owned { FrontIsMark(s); }
    assert forall i | 0 <= i < |s.queue| - 1 :: s.queue[1..][i] == s.queue[i + 1];
  }

  lemma LandLog(log: seq<Happening>, w: Write, b: Boiler)
    requires Separated(log, b)
    ensures var more := log + (if w.purpose.Clear? || w.purpose.AckClear? then [Settled(w.purpose.boiler)] else []);
      Separated(more, b) && Unsettled(more, b) == (Unsettled(log, b) && !ClearsFor(w, b))
  {
    hide Unsettled, Separated;
    assert log + [] == log;
    if w.purpose.Clear? || w.purpose.AckClear? {
      UnsettledMore(log, Settled(w.purpose.boiler), b);
      SeparatedMore(log, Settled(w.purpose.boiler), b);
    }
  }

  lemma FinishGuarded(s: State, raised: bool, landed: bool, b: Boiler)
    requires Inv(s) && Guarded(s, b) && s.queue != []
    ensures Guarded(FinishWrite(s, raised, landed), b)
  {
    hide Inv, Continue, Land, Kept, Separated, Unsettled;
    var w := s.queue[0];
    var t := s.(queue := s.queue[1..]);
    PopGuarded(s, raised, landed, b);
    LandOnlyDisk(t, w);
    var u := if landed || !raised then Land(t, w) else t;
    var v := if !raised && w.alive then u.(pending := w.document.pending) else u;
    if w.owned {
      FrontIsMark(s);
      ContinueGuarded(v, raised, b);
    }
  }

  lemma ContinueGuarded(s: State, raised: bool, b: Boiler)
    requires Kept(s, b) && Separated(s.log, b)
    requires s.holder.Marking? && s.holder.edge.boiler == b ==>
      && !Unsettled(s.log, b) && s.pending.Of(b) && (!raised ==> s.disk.pending.Of(b))
      && forall i | 0 <= i < |s.queue| :: s.queue[i].document.pending.Of(b)
    ensures s.holder.Nobody? || s.holder.Executing? || s.holder.Verifying? || s.holder.Other? || Guarded(Continue(s, raised), b)
  {
    hide Separated, Unsettled, BeginPause, Save;
    HolderGuarded(s, Nobody, b);
    match s.holder
    case Marking(edge, day) =>
      BeginPauseGuarded(s, edge.boiler, b);
      if !raised {
        UnsettledMore(s.log, Begun(edge, day), b);
        SeparatedMore(s.log, Begun(edge, day), b);
      }
    case Clearing(edge) => BeginPauseGuarded(s, edge.boiler, b);
    case Acknowledging(_) => NoteGuarded(s.(holder := Nobody), b);
    case _ =>
  }

  lemma DeathGuarded(s: State, landed: bool, b: Boiler)
    requires Guarded(s, b)
    ensures Guarded(Step(s, Death(landed)), b)
  {
    if landed && s.queue != [] { LandLog(s.log, s.queue[0], b); }
    hide Unsettled, Separated;
  }

  lemma StepGuarded(s: State, e: Event, b: Boiler)
    requires Inv(s) && Guarded(s, b) && CleanStep(s, e)
    ensures Guarded(Step(s, e), b)
  {
    match e
    case Tick => hide Unsettled, Separated;
    case Run(edge) =>
      hide Inv, Guarded, MarkRun, NoStale;
      if MayRun(s, edge) { MarkGuarded(s, edge, b); }
    case Pause => NoteGuarded(s, b);
    case StoreEnds(raised, landed) =>
      hide Inv, Guarded, FinishWrite;
      if s.queue != [] { FinishGuarded(s, raised, landed, b); }
    case ExecutionEnds(verified) =>
      hide Unsettled, Separated, Save, BeginPause, Inv;
      if s.holder.Executing? {
        var boiler := s.holder.edge.boiler;
        HolderGuarded(s, Clearing(s.holder.edge), b);
        SaveGuarded(s.(holder := Clearing(s.holder.edge)), s.pending.With(boiler, false), Clear(boiler), true, b);
        BeginPauseGuarded(s, boiler, b);
      }
    case Cancel => hide *; CancelGuarded(s, b);
    case AckBegins(boiler) =>
      hide Unsettled, Separated, Inv;
      HolderGuarded(s, Verifying(boiler), b);
    case AckVerified(idle) =>
      hide Unsettled, Separated, Save, Inv;
      HolderGuarded(s, Nobody, b);
      if s.holder.Verifying? {
        var boiler := s.holder.boiler;
        HolderGuarded(s, Acknowledging(boiler), b);
        SaveGuarded(s.(holder := Acknowledging(boiler)), s.pending.With(boiler, false), AckClear(boiler), true, b);
      }
    case OtherBegins => hide Unsettled, Separated, Inv; HolderGuarded(s, Other, b);
    case OtherEnds => hide Unsettled, Separated, Inv; HolderGuarded(s, Nobody, b);
    case Death(landed) => hide *; DeathGuarded(s, landed, b);
  }

  lemma {:induction false} StepsGuarded(s: State, events: seq<Event>, b: Boiler)
    requires Inv(s) && Guarded(s, b) && CleanRun(s, events)
    ensures Guarded(Steps(s, events), b)
    decreases events
  {
    hide Inv, Step, Guarded, CleanStep;
    if events != [] {
      StepInv(s, events[0]);
      StepGuarded(s, events[0], b);
      StepsGuarded(Step(s, events[0]), events[1..], b);
    }
  }

  /** As long as no run is marked while an unfinished save still shows its boiler clear, an
      unsettled transaction is followed by none for that boiler: only a durably cleared
      verified result, or an acknowledgement after a fresh idle read, lets the next begin. */
  lemma NoneWhileUnsettled(events: seq<Event>, b: Boiler)
    requires CleanRun(Fresh(), events)
    ensures Separated(Steps(Fresh(), events).log, b)
  {
    hide Step, CleanStep, Inv;
    FreshInv();
    assert Guarded(Fresh(), b);
    StepsGuarded(Fresh(), events, b);
  }

  // ----- exactly when a mark is safe -----

  lemma {:induction false} StepsAppend(s: State, a: seq<Event>, b: seq<Event>)
    ensures Steps(s, a + b) == Steps(Steps(s, a), b)
    decreases a
  {
    hide Step;
    if a == [] {
      assert a + b == b;
    } else {
      assert (a + b)[1..] == a[1..] + b;
      StepsAppend(Step(s, a[0]), a[1..], b);
    }
  }

  lemma {:induction false} CleanAppend(s: State, a: seq<Event>, b: seq<Event>)
    requires CleanRun(s, a) && CleanRun(Steps(s, a), b)
    ensures CleanRun(s, a + b)
    decreases a
  {
    hide Step, CleanStep;
    if a == [] {
      assert a + b == b;
    } else {
      assert (a + b)[1..] == a[1..] + b;
      CleanAppend(Step(s, a[0]), a[1..], b);
    }
  }

  function Stored(): Event { StoreEnds(false, true) }

  function StoredTimes(n: nat): (events: seq<Event>)
    ensures |events| == n
    ensures forall i | 0 <= i < n :: events[i] == Stored()
  {
    if n == 0 then [] else [Stored()] + StoredTimes(n - 1)
  }

  lemma StoreOther(s: State)
    requires s.queue != [] && !s.queue[0].owned
    ensures var w, t := s.queue[0], Step(s, Stored());
      && t.queue == s.queue[1..] && t.holder == s.holder && t.attempts == s.attempts && t.today == s.today
      && t.pending == (if w.alive then w.document.pending else s.pending)
      && (w.purpose == Note ==> t.log == s.log)
  {
    assert s.log + [] == s.log;
  }

  /** Writes of other tasks finish one after the other while the holder waits. */
  lemma {:induction false} Drain(s: State, n: nat)
    requires n <= |s.queue| && forall i | 0 <= i < n :: !s.queue[i].owned
    ensures var t := Steps(s, StoredTimes(n));
      && t.queue == s.queue[n..] && t.holder == s.holder && t.attempts == s.attempts && t.today == s.today
      && (n > 0 && s.queue[n - 1].alive ==> t.pending == s.queue[n - 1].document.pending)
    ensures CleanRun(s, StoredTimes(n))
    decreases n
  {
    hide Step;
    if n > 0 {
      StoreOther(s);
      var t := Step(s, Stored());
      assert StoredTimes(n)[1..] == StoredTimes(n - 1);
      assert forall i | 0 <= i < n - 1 :: t.queue[i] == s.queue[i + 1];
      Drain(t, n - 1);
      assert t.queue[n - 1..] == s.queue[n..];
    }
  }

  /** The run so far: marked, with a stale document adopted and written down again behind
      the mark. */
  function PoisonPrefix(n: nat, k: nat): seq<Event>
    requires k < n
  {
    StoredTimes(k + 1) + [Pause] + StoredTimes(n - k - 1)
  }

  lemma Poisoned(s: State, k: nat) returns (t: State)
    requires s.holder.Marking? && |s.queue| >= 1 && k < |s.queue| - 1
    requires forall i | 0 <= i < |s.queue| - 1 :: !s.queue[i].owned
    requires s.queue[k].alive
    ensures t == Steps(s, PoisonPrefix(|s.queue| - 1, k))
    ensures CleanRun(s, PoisonPrefix(|s.queue| - 1, k))
    ensures t.holder == s.holder && t.attempts == s.attempts && t.today == s.today
    ensures |t.queue| == 2 && t.queue[0] == s.queue[|s.queue| - 1]
    ensures t.queue[1] == Write(Document(s.queue[k].document.pending, s.attempts), Note, true, false)
  {
    hide StoredTimes, Steps, CleanRun;
    var n := |s.queue| - 1;
    Drain(s, k + 1);
    var a := Steps(s, StoredTimes(k + 1));
    var b := Step(a, Pause);
    PauseRun(a);
    StepsAppend(s, StoredTimes(k + 1), [Pause]);
    CleanAppend(s, StoredTimes(k + 1), [Pause]);
    assert forall i | 0 <= i < n - k :: b.queue[i] == s.queue[i + k + 1];
    Drain(b, n - k - 1);
    StepsAppend(s, StoredTimes(k + 1) + [Pause], StoredTimes(n - k - 1));
    CleanAppend(s, StoredTimes(k + 1) + [Pause], StoredTimes(n - k - 1));
    t := Steps(b, StoredTimes(n - k - 1));
    assert b.queue[n - k - 1..] == [s.queue[n], b.queue[n - k]];
  }

  lemma PauseRun(s: State)
    ensures Steps(s, [Pause]) == Step(s, Pause) && CleanRun(s, [Pause])
  {
    hide Step;
  }

  /** Begin, lose the marker, fail, and begin again on the next date. */
  function Repeat(edge: Edge): seq<Event> {
    [Stored(), Stored(), ExecutionEnds(false), Stored(), Tick, Run(edge), Stored()]
  }

  lemma StepsCons(s: State, e: seq<Event>)
    requires e != []
    ensures Steps(s, e) == Steps(Step(s, e[0]), e[1..])
    ensures CleanRun(s, e) <==> CleanStep(s, e[0]) && CleanRun(Step(s, e[0]), e[1..])
  {
    hide Step, CleanStep;
  }

  lemma RunSeven(s: State, e: seq<Event>)
    requires |e| == 7
    ensures var s1 := Step(s, e[0]); var s2 := Step(s1, e[1]); var s3 := Step(s2, e[2]); var s4 := Step(s3, e[3]);
      var s5 := Step(s4, e[4]); var s6 := Step(s5, e[5]);
      && Steps(s, e) == Step(s6, e[6])
      && ((!e[0].Run? && !e[1].Run? && !e[2].Run? && !e[3].Run? && !e[4].Run? && CleanStep(s5, e[5]) && !e[6].Run?)
            ==> CleanRun(s, e))
  {
    hide Step, Steps, CleanRun, NoStale;
    var s1 := Step(s, e[0]);
    var s2 := Step(s1, e[1]);
    var s3 := Step(s2, e[2]);
    var s4 := Step(s3, e[3]);
    var s5 := Step(s4, e[4]);
    var s6 := Step(s5, e[5]);
    StepsCons(s, e);
    StepsCons(s1, e[1..]);
    StepsCons(s2, e[2..]);
    StepsCons(s3, e[3..]);
    StepsCons(s4, e[4..]);
    StepsCons(s5, e[5..]);
    StepsCons(s6, e[6..]);
    assert e[1..][1..] == e[2..] && e[2..][1..] == e[3..] && e[3..][1..] == e[4..];
    assert e[4..][1..] == e[5..] && e[5..][1..] == e[6..] && e[6..][1..] == [];
    StepsNone(Step(s6, e[6]));
  }

  lemma StepsNone(s: State)
    ensures Steps(s, []) == s && CleanRun(s, [])
  {}

  /** The transaction begins, a stale note lands behind its mark, the result is not verified
      and the pause is stored: the markers read as if nothing had happened. */
  lemma FirstHalf(s: State, edge: Edge) returns (t: State)
    requires s.holder == Marking(edge, s.today)
    requires |s.queue| == 2 && s.queue[0].alive && s.queue[0].owned && s.queue[0].purpose == Mark(edge)
    requires s.queue[1].alive && !s.queue[1].owned && s.queue[1].purpose == Note
    ensures t == Step(Step(Step(Step(s, Stored()), Stored()), ExecutionEnds(false)), Stored())
    ensures t.queue == [] && t.holder == Nobody && t.pending == s.queue[1].document.pending
    ensures t.log == s.log + [Begun(edge, s.today)] && t.attempts == s.attempts && t.today == s.today
  {
    var s1 := Step(s, Stored());
    assert s1.holder == Executing(edge) && s1.queue == [s.queue[1]] && s1.log == s.log + [Begun(edge, s.today)] by {
      assert s.log + [] == s.log;
    }
    var s3 := FailsQuietly(s1, edge);
    t := Step(s3, Stored());
    assert s3.log + [] == s3.log;
  }

  lemma FailsQuietly(s1: State, edge: Edge) returns (s3: State)
    requires s1.holder == Executing(edge) && |s1.queue| == 1
    requires s1.queue[0].alive && !s1.queue[0].owned && s1.queue[0].purpose == Note
    ensures s3 == Step(Step(s1, Stored()), ExecutionEnds(false))
    ensures s3.holder == Pausing(edge.boiler) && s3.pending == s1.queue[0].document.pending
    ensures s3.queue == [Write(Document(s3.pending, s1.attempts), Note, true, true)]
    ensures s3.log == s1.log && s3.attempts == s1.attempts && s3.today == s1.today
  {
    StoreOther(s1);
    var s2 := Step(s1, Stored());
    s3 := Step(s2, ExecutionEnds(false));
  }

  /** With the markers clear and the next date begun, the same edge runs again. */
  lemma SecondHalf(s: State, edge: Edge)
    requires s.queue == [] && s.holder == Nobody && !s.pending.Of(edge.boiler)
    requires edge in s.attempts && s.attempts[edge] == s.today
    ensures Step(Step(Step(s, Tick), Run(edge)), Stored()).log == s.log + [Begun(edge, s.today + 1)]
    ensures CleanStep(Step(s, Tick), Run(edge))
  {
    var t := Step(Step(s, Tick), Run(edge));
    assert t.holder == Marking(edge, s.today + 1) && t.log == s.log && |t.queue| == 1;
    assert t.log + [] == t.log;
  }

  lemma RepeatBegins(s: State, edge: Edge)
    requires s.holder == Marking(edge, s.today) && edge in s.attempts && s.attempts[edge] == s.today
    requires |s.queue| == 2 && s.queue[0].alive && s.queue[0].owned && s.queue[0].purpose == Mark(edge)
    requires s.queue[1].alive && !s.queue[1].owned && s.queue[1].purpose == Note
    requires !s.queue[1].document.pending.Of(edge.boiler)
    ensures Steps(s, Repeat(edge)).log == s.log + [Begun(edge, s.today), Begun(edge, s.today + 1)]
    ensures CleanRun(s, Repeat(edge))
  {
    hide Step, Steps, CleanRun, CleanStep;
    RunSeven(s, Repeat(edge));
    var t := FirstHalf(s, edge);
    SecondHalf(t, edge);
  }

  /** Right after a mark the old writes are still in front, and none of them is owned. */
  lemma MarkedQueue(s: State, edge: Edge)
    requires Inv(s) && MayRun(s, edge)
    ensures var t := Step(s, Run(edge));
      && t.holder == Marking(edge, t.today) && t.today == s.today && edge in t.attempts && t.attempts[edge] == t.today
      && |t.queue| == |s.queue| + 1 && (forall i | 0 <= i < |s.queue| :: t.queue[i] == s.queue[i] && !t.queue[i].owned)
      && t.queue[|s.queue|].alive && t.queue[|s.queue|].owned && t.queue[|s.queue|].purpose == Mark(edge)
  {
    hide Chain, Recorded, OncePerDate, Marked;
    NotOwning(s);
  }

  /** The continuation that turns the k-th unfinished save against a mark: it lands and is
      adopted, a pause writes the adopted document down again behind the mark's own write,
      and that second document lands after the transaction has begun. */
  lemma StaleSaveAt(s: State, edge: Edge, k: nat)
    requires Inv(s) && MayRun(s, edge)
    requires k < |s.queue| && s.queue[k].alive && !s.queue[k].document.pending.Of(edge.boiler)
    ensures var marked, events := Step(s, Run(edge)), PoisonPrefix(|s.queue|, k) + Repeat(edge);
      CleanRun(marked, events) && !Separated(Steps(marked, events).log, edge.boiler)
  {
    hide Inv, Step, Steps, CleanRun, Separated, PoisonPrefix, Repeat;
    var marked := Step(s, Run(edge));
    MarkedQueue(s, edge);
    var t := Poisoned(marked, k);
    RepeatBegins(t, edge);
    StepsAppend(marked, PoisonPrefix(|s.queue|, k), Repeat(edge));
    CleanAppend(marked, PoisonPrefix(|s.queue|, k), Repeat(edge));
    TwiceInARow(t.log, edge, s.today);
  }

  /** A mark made while an unfinished save still shows the boiler clear can be followed by
      two transactions with nothing settled in between, and no later mark is at fault. */
  lemma StaleSaveRepeats(s: State, edge: Edge) returns (events: seq<Event>)
    requires Inv(s) && MayRun(s, edge) && !NoStale(s, edge.boiler)
    ensures CleanRun(Step(s, Run(edge)), events)
    ensures !Separated(Steps(Step(s, Run(edge)), events).log, edge.boiler)
  {
    hide Inv, Step, Steps, CleanRun, Separated, PoisonPrefix, Repeat;
    var k :| 0 <= k < |s.queue| && s.queue[k].alive && !s.queue[k].document.pending.Of(edge.boiler);
    StaleSaveAt(s, edge, k);
    events := PoisonPrefix(|s.queue|, k) + Repeat(edge);
  }

  lemma TwiceInARow(log: seq<Happening>, edge: Edge, day: nat)
    ensures !Separated(log + [Begun(edge, day), Begun(edge, day + 1)], edge.boiler)
  {
    var more := log + [Begun(edge, day), Begun(edge, day + 1)];
    assert BeginsFor(more[|log|], edge.boiler) && BeginsFor(more[|log| + 1], edge.boiler);
  }

  /** The exact condition. Marking a run is safe, for every clean continuation, if and only
      if no unfinished save still shows its boiler clear at that moment. */
  lemma SafeMarkExactly(s: State, edge: Edge)
    requires Inv(s) && Guarded(s, edge.boiler) && MayRun(s, edge)
    ensures NoStale(s, edge.boiler) <==>
      forall events :: CleanRun(Step(s, Run(edge)), events) ==>
        Separated(Steps(Step(s, Run(edge)), events).log, edge.boiler)
  {
    hide Inv, Guarded, CleanRun, Separated;
    var marked := Step(s, Run(edge));
    if NoStale(s, edge.boiler) {
      StepInv(s, Run(edge));
      MarkGuarded(s, edge, edge.boiler);
      forall events | CleanRun(marked, events) ensures Separated(Steps(marked, events).log, edge.boiler) {
        StepsGuarded(marked, events, edge.boiler);
        GuardedSeparated(Steps(marked, events), edge.boiler);
      }
    } else {
      var events := StaleSaveRepeats(s, edge);
      assert CleanRun(marked, events) && !Separated(Steps(marked, events).log, edge.boiler);
    }
  }

  lemma GuardedSeparated(s: State, b: Boiler)
    requires Guarded(s, b)
    ensures Separated(s.log, b)
  {}

  /** A run in which the brew boiler is switched on again although nothing settled the
      first attempt: a pause is still being written when the run is marked; its document is
      adopted and a second pause writes it down again before the mark is stored; the
      transaction begins, the second document lands, and the transaction fails. */
  function LosingRun(): seq<Event> {
    var on := Edge(Brew, true);
    [Pause, Run(on), Stored(), Pause, Stored(), Stored(), ExecutionEnds(false), Stored(), Tick, Run(on), Stored()]
  }

  /** The unconditional claim fails: in this run two transactions begin, on two days, with no
      verified result and no acknowledgement between them. */
  lemma PendingCanBeLost()
    ensures !Separated(Steps(Fresh(), LosingRun()).log, Brew)
  {
    hide Inv, Separated, Steps;
    var on := Edge(Brew, true);
    FreshInv();
    StepInv(Fresh(), Pause);
    StaleSaveAt(Step(Fresh(), Pause), on, 0);
    assert StoredTimes(1) == [Stored()] && StoredTimes(0) == [];
    assert LosingRun() == [Pause, Run(on)] + (PoisonPrefix(1, 0) + Repeat(on));
    StepsTwo(Fresh(), Pause, Run(on), PoisonPrefix(1, 0) + Repeat(on));
  }

  /** One stale save alone does no harm: the mark's own write puts the marker back, in memory
      and on disk, before the transaction begins. */
  lemma MarkRestores(s: State, edge: Edge)
    requires Inv(s) && MayRun(s, edge)
    ensures var marked := Step(s, Run(edge)); var t := Steps(marked, StoredTimes(|s.queue| + 1));
      t.queue == [] && t.holder == Executing(edge) && t.pending.Of(edge.boiler) && t.disk.pending.Of(edge.boiler)
  {
    hide Inv, Steps, CleanRun, Continue;
    var marked, n := Step(s, Run(edge)), |s.queue|;
    MarkedQueue(s, edge);
    MarkedDocument(s, edge);
    hide Step;
    Drain(marked, n);
    var u := Steps(marked, StoredTimes(n));
    assert u.queue == [marked.queue[n]];
    StoredTimesMore(n);
    StepsAppend(marked, StoredTimes(n), [Stored()]);
    StepsCons(u, [Stored()]);
    assert [Stored()][1..] == [];
    StepsNone(Step(u, Stored()));
    StoreMark(u, edge, s.today);
  }

  lemma MarkedDocument(s: State, edge: Edge)
    requires MayRun(s, edge)
    ensures Step(s, Run(edge)).queue[|s.queue|].document.pending.Of(edge.boiler)
  {}

  lemma StoreMark(u: State, edge: Edge, day: nat)
    requires u.holder == Marking(edge, day) && |u.queue| == 1
    requires u.queue[0].alive && u.queue[0].owned && u.queue[0].document.pending.Of(edge.boiler)
    ensures var t := Step(u, Stored());
      t.queue == [] && t.holder == Executing(edge) && t.pending.Of(edge.boiler) && t.disk.pending.Of(edge.boiler)
  {}

  lemma {:induction false} StoredTimesMore(n: nat)
    ensures StoredTimes(n + 1) == StoredTimes(n) + [Stored()]
  {}

  lemma StepsTwo(s: State, e: Event, f: Event, later: seq<Event>)
    ensures Steps(s, [e, f] + later) == Steps(Step(Step(s, e), f), later)
  {
    hide Step;
    StepsAppend(s, [e, f], later);
  }

  // ----- what a settled boiler looks like -----

  /** Every queued document that will settle a boiler shows it clear. */
  ghost predicate ClearsShow(queue: seq<Write>) {
    forall i | 0 <= i < |queue| && (queue[i].purpose.Clear? || queue[i].purpose.AckClear?) ::
      !queue[i].document.pending.Of(queue[i].purpose.boiler)
  }

  lemma SaveShows(s: State, pending: Flags, purpose: Purpose, owned: bool)
    requires ClearsShow(s.queue)
    requires purpose.Clear? || purpose.AckClear? ==> !pending.Of(purpose.boiler)
    ensures ClearsShow(Save(s, pending, purpose, owned).queue)
  {}

  lemma WithShows(pending: Flags, b: Boiler, value: bool)
    ensures pending.With(b, value).Of(b) == value
    ensures forall other: Boiler | other != b :: pending.With(b, value).Of(other) == pending.Of(other)
  {}

  /** A step that settles a boiler shows it clear on disk. */
  ghost predicate Shows(s: State, t: State) {
    && ClearsShow(t.queue)
    && (t.log != s.log ==> t.log != [] && forall b: Boiler | t.log[|t.log| - 1] == Settled(b) :: !t.disk.pending.Of(b))
  }

  lemma ContinueShows(s: State, raised: bool)
    requires ClearsShow(s.queue)
    ensures ClearsShow(Continue(s, raised).queue) && Continue(s, raised).disk == s.disk
    ensures Continue(s, raised).log == s.log || (|Continue(s, raised).log| > 0 && Continue(s, raised).log[|s.log|..] != []
      && Continue(s, raised).log[|Continue(s, raised).log| - 1].Begun?)
  {
    hide Flags.Of, Flags.With;
  }

  lemma FinishShows(s: State, raised: bool, landed: bool)
    requires s.queue != [] && ClearsShow(s.queue)
    ensures Shows(s, FinishWrite(s, raised, landed))
  {
    hide Flags.Of, Flags.With, Continue;
    assert forall i | 0 <= i < |s.queue| - 1 :: s.queue[1..][i] == s.queue[i + 1];
    assert s.log + [] == s.log;
    var w := s.queue[0];
    var t := s.(queue := s.queue[1..]);
    var u := if landed || !raised then Land(t, w) else t;
    var v := if !raised && w.alive then u.(pending := w.document.pending) else u;
    ContinueShows(v, raised);
  }

  lemma StepShows(s: State, e: Event)
    requires ClearsShow(s.queue)
    ensures Shows(s, Step(s, e))
  {
    match e
    case StoreEnds(raised, landed) =>
      hide FinishWrite, ClearsShow;
      if s.queue != [] { FinishShows(s, raised, landed); }
    case Death(landed) =>
      hide Flags.Of;
      assert s.log + [] == s.log;
    case ExecutionEnds(_) =>
      hide Flags.Of, Flags.With;
      if s.holder.Executing? { WithShows(s.pending, s.holder.edge.boiler, false); }
    case AckVerified(_) =>
      hide Flags.Of, Flags.With;
      if s.holder.Verifying? { WithShows(s.pending, s.holder.boiler, false); }
    case _ =>
      hide Flags.Of, Flags.With;
  }

  lemma {:induction false} RunShows(s: State, events: seq<Event>)
    requires ClearsShow(s.queue)
    ensures ClearsShow(Steps(s, events).queue)
    decreases events
  {
    hide Step, ClearsShow;
    if events != [] {
      StepShows(s, events[0]);
      RunShows(Step(s, events[0]), events[1..]);
    }
  }

  /** In every run, whenever the log says that a boiler is settled, the disk shows it clear. */
  lemma SettledShows(events: seq<Event>, e: Event, b: Boiler)
    ensures var s := Steps(Fresh(), events); var t := Step(s, e);
      t.log != s.log && t.log[|t.log| - 1] == Settled(b) ==> !t.disk.pending.Of(b)
  {
    hide Step, Steps, ClearsShow;
    assert ClearsShow(Fresh().queue) by { NothingShows(); }
    RunShows(Fresh(), events);
    StepShows(Steps(Fresh(), events), e);
  }

  lemma NothingShows()
    ensures ClearsShow(Fresh().queue)
  {}

  // ----- what a write that nothing disturbs leads to -----

  /** Writes of other tasks land first, and the owner goes on after its own. */
  lemma DrainOwned(s: State) returns (u: State)
    requires s.queue != [] && forall i | 0 <= i < |s.queue| - 1 :: !s.queue[i].owned
    requires s.queue[|s.queue| - 1].owned && s.queue[|s.queue| - 1].alive
    ensures u.queue == [s.queue[|s.queue| - 1]] && u.holder == s.holder && u.attempts == s.attempts && u.today == s.today
    ensures Steps(s, StoredTimes(|s.queue|)) == Step(u, Stored())
  {
    hide Step, Steps;
    var n := |s.queue| - 1;
    Drain(s, n);
    u := Steps(s, StoredTimes(n));
    StoredTimesMore(n);
    StepsAppend(s, StoredTimes(n), [Stored()]);
    StepsCons(u, [Stored()]);
    assert [Stored()][1..] == [];
    StepsNone(Step(u, Stored()));
  }

  /** A verified result clears its boiler and nothing else, in memory and on disk, and frees
      the lock, whatever was still being written. */
  lemma ResultClears(s: State, edge: Edge)
    requires Inv(s) && s.holder == Executing(edge)
    ensures var t := Steps(Step(s, ExecutionEnds(true)), StoredTimes(|s.queue| + 1));
      && t.queue == [] && t.holder == Nobody
      && t.pending == t.disk.pending && t.attempts == t.disk.attempts == s.attempts
      && !t.pending.Of(edge.boiler)
      && (forall other: Boiler | other != edge.boiler :: t.pending.Of(other) == s.pending.Of(other))
      && t.log != [] && t.log[|t.log| - 1] == Settled(edge.boiler)
  {
    hide Inv, Steps, Flags.Of, Flags.With;
    var u := Step(s, ExecutionEnds(true));
    NotOwning(s);
    WithShows(s.pending, edge.boiler, false);
    assert forall i | 0 <= i < |s.queue| :: u.queue[i] == s.queue[i];
    var v := DrainOwned(u);
  }

  /** An acknowledgement after a fresh idle read does the same, and notes it once more. */
  lemma AcknowledgementClears(s: State, b: Boiler)
    requires Inv(s) && s.holder == Verifying(b)
    ensures var t := Step(Steps(Step(s, AckVerified(true)), StoredTimes(|s.queue| + 1)), Stored());
      && t.queue == [] && t.holder == Nobody
      && t.pending == t.disk.pending && t.attempts == t.disk.attempts == s.attempts
      && !t.pending.Of(b) && (forall other: Boiler | other != b :: t.pending.Of(other) == s.pending.Of(other))
      && t.log != [] && t.log[|t.log| - 1] == Settled(b)
  {
    hide Inv, Steps, Flags.Of, Flags.With;
    var u := Step(s, AckVerified(true));
    NotOwning(s);
    WithShows(s.pending, b, false);
    assert forall i | 0 <= i < |s.queue| :: u.queue[i] == s.queue[i];
    var v := DrainOwned(u);
    var w := Step(v, Stored());
    assert w.log + [] == w.log;
  }

  /** Any other result leaves every marker as it is, on disk as well, and frees the lock. */
  lemma FailureKeeps(s: State, edge: Edge)
    requires Inv(s) && s.holder == Executing(edge)
    ensures var t := Steps(Step(s, ExecutionEnds(false)), StoredTimes(|s.queue| + 1));
      && t.queue == [] && t.holder == Nobody
      && t.pending == t.disk.pending == s.pending && t.attempts == t.disk.attempts == s.attempts
  {
    hide Inv, Steps, Flags.Of, Flags.With;
    var u := Step(s, ExecutionEnds(false));
    NotOwning(s);
    assert forall i | 0 <= i < |s.queue| :: u.queue[i] == s.queue[i];
    var v := DrainOwned(u);
  }

  /** A cancellation at any await of a run pauses it: the markers stay and the lock is freed. */
  lemma CancelKeeps(s: State, edge: Edge, day: nat)
    requires Inv(s) && (s.holder == Marking(edge, day) || s.holder == Executing(edge) || s.holder == Clearing(edge))
    ensures var u := Step(s, Cancel); var t := Steps(u, StoredTimes(|u.queue|));
      t.queue == [] && t.holder == Nobody && t.pending == t.disk.pending == s.pending && t.attempts == s.attempts
  {
    hide Steps, Flags.Of, Flags.With, Chain, Marked, Recorded, OncePerDate;
    var u := Step(s, Cancel);
    if s.holder.Executing? { NotOwning(s); }
    var n := |u.queue| - 1;
    assert u.queue[n] == Write(Document(s.pending, s.attempts), Note, true, true);
    assert forall i | 0 <= i < n :: !u.queue[i].owned;
    hide Inv, Orphan;
    var v := DrainOwned(u);
  }

  /** A day on which nothing goes wrong: the edge runs once, is settled, leaves no marker, does
      not run again on that date, and may run on the next. */
  lemma HealthyDay(s: State, edge: Edge)
    requires Inv(s) && s.queue == [] && MayRun(s, edge)
    ensures var t := Step(Step(Step(Step(s, Run(edge)), Stored()), ExecutionEnds(true)), Stored());
      && t.log == s.log + [Begun(edge, s.today), Settled(edge.boiler)]
      && t.queue == [] && t.holder == Nobody && t.today == s.today
      && !t.pending.Of(edge.boiler) && t.attempts == s.attempts[edge := s.today]
      && (forall other: Boiler | other != edge.boiler :: t.pending.Of(other) == s.pending.Of(other))
      && t.disk == Document(t.pending, t.attempts)
      && !MayRun(t, edge) && MayRun(Step(t, Tick), edge)
  {
    hide Inv, Flags.Of, Flags.With;
    WithShows(s.pending, edge.boiler, true);
    var s1 := Step(s, Run(edge));
    var marked := s.pending.With(edge.boiler, true);
    WithShows(marked, edge.boiler, false);
    var s2 := Step(s1, Stored());
    assert s1.log + [] == s1.log;
    assert s2.holder == Executing(edge) && s2.queue == [] && s2.pending == marked && s2.log == s.log + [Begun(edge, s.today)];
    var s3 := Step(s2, ExecutionEnds(true));
    var s4 := Step(s3, Stored());
    assert s4.log == s2.log + [Settled(edge.boiler)];
  }

  /** After the death of the process only what is on disk counts. */
  lemma DeathForgets(s: State, landed: bool)
    ensures var t := Step(s, Death(landed));
      && t.queue == [] && t.holder == Nobody && t.pending == t.disk.pending && t.attempts == t.disk.attempts
      && (t.disk == s.disk || (s.queue != [] && t.disk == s.queue[0].document))
  {}
}
