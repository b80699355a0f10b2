/** schedules.py as the object it is: its markers are fields that a run sets in place and that
    a finished save replaces by the document it wrote. Each method is the code between two
    awaits, and is one step of the scheduler's state machine. */
module Scheduler {
  import opened Schedules

  /** What holds of every reachable state, and of those reached by safe marks only. */
  ghost predicate Sound(s: State, clean: bool) {
    Inv(s) && (clean ==> Guarded(s, Brew) && Guarded(s, Steam))
  }

  lemma StepSound(s: State, e: Event, clean: bool)
    requires Sound(s, clean)
    ensures Sound(Step(s, e), clean && CleanStep(s, e))
  {
    hide Inv, Guarded, Step, CleanStep;
    StepInv(s, e);
    if clean && CleanStep(s, e) {
      StepGuarded(s, e, Brew);
      StepGuarded(s, e, Steam);
    }
  }

  class BoilerSchedules {
    var pending: Flags
    var lastAttempts: Attempts
    var disk: Document
    var writes: seq<Write>
    var holder: Holder
    var today: nat
    ghost var log: seq<Happening>
    /** No run was marked while an unfinished save still showed its boiler clear. */
    ghost var clean: bool

    ghost function Now(): State
      reads this
    {
      State(pending, lastAttempts, disk, writes, holder, today, log)
    }

    ghost predicate Valid()
      reads this
    {
      Sound(Now(), clean)
    }

    constructor ()
      ensures Valid() && Now() == Fresh() && clean
    {
      pending, lastAttempts := Flags(false, false), map[];
      disk := Document(Flags(false, false), map[]);
      writes, holder, today, log, clean := [], Nobody, 0, [], true;
      new;
      FreshInv();
      assert Guarded(Fresh(), Brew) && Guarded(Fresh(), Steam);
    }

    /** What a caller may rely on after any sequence of calls. */
    lemma Promises()
      requires Valid()
      ensures OncePerDate(log)
      ensures clean ==> Separated(log, Brew) && Separated(log, Steam)
    {}

    /** The local date moves on. */
    method Midnight()
      requires Valid()
      modifies this`today
      ensures Valid() && Now() == Step(old(Now()), Tick) && today == old(today) + 1
    {
      hide Sound;
      StepSound(Now(), Tick, clean);
      today := today + 1;
    }

    /** Another operation of the coordinator takes the connection lock, if it is free. */
    method OtherEnters() returns (entered: bool)
      requires Valid()
      modifies this`holder
      ensures Valid() && Now() == Step(old(Now()), OtherBegins)
      ensures entered <==> old(holder) == Nobody
    {
      hide Sound;
      StepSound(Now(), OtherBegins, clean);
      entered := holder == Nobody;
      if entered {
        holder := Other;
      }
    }

    method OtherLeaves()
      requires Valid() && holder == Other
      modifies this`holder
      ensures Valid() && Now() == Step(old(Now()), OtherEnds) && holder == Nobody
    {
      hide Sound;
      StepSound(Now(), OtherEnds, clean);
      holder := Nobody;
    }

    /** The call of _save: the document is taken now. */
    method Request(document: Flags, purpose: Purpose, owned: bool)
      modifies this`writes
      ensures Now() == Save(old(Now()), document, purpose, owned)
    {
      writes := writes + [Write(Document(document, lastAttempts), purpose, true, owned)];
    }

    method Run(edge: Edge) returns (marked: bool)
      requires Valid()
      modifies this
      ensures Valid() && Now() == Step(old(Now()), Event.Run(edge)) && marked == MayRun(old(Now()), edge)
      ensures marked == (old(holder) == Nobody && !old(pending).Of(edge.boiler)
                         && (edge !in old(lastAttempts) || old(lastAttempts)[edge] != today))
      ensures clean == (old(clean) && CleanStep(old(Now()), Event.Run(edge)))
    {
      hide Sound, CleanStep;
      StepSound(Now(), Event.Run(edge), clean);
      ghost var safe := CleanStep(Now(), Event.Run(edge));
      marked := false;
      if holder == Nobody && !pending.Of(edge.boiler) {
        if !(edge in lastAttempts && lastAttempts[edge] == today) {
          pending := pending.With(edge.boiler, true);
          lastAttempts := lastAttempts[edge := today];
          holder := Marking(edge, today);
          Request(pending, Mark(edge), true);
          marked := true;
        }
      }
      clean := clean && safe;
    }

    /** A pause outside any run: what memory holds is noted, without the lock. */
    method Pause()
      requires Valid()
      modifies this`writes
      ensures Valid() && Now() == Step(old(Now()), Event.Pause)
    {
      hide Sound;
      StepSound(Now(), Event.Pause, clean);
      Request(pending, Note, false);
    }

    /** The except clauses of async_run: note the pause before the lock is released. */
    method PauseRun(boiler: Boiler)
      modifies this`writes, this`holder
      ensures Now() == BeginPause(old(Now()), boiler)
    {
      holder := Pausing(boiler);
      Request(pending, Note, true);
    }

    /** The owner of the finished write is resumed. */
    method Resume(raised: bool)
      modifies this`writes, this`holder, this`log
      ensures Now() == Continue(old(Now()), raised)
    {
      match holder
      case Marking(edge, day) =>
        if raised {
          PauseRun(edge.boiler);
        } else {
          holder, log := Executing(edge), log + [Begun(edge, day)];
        }
      case Clearing(edge) =>
        if raised {
          PauseRun(edge.boiler);
        } else {
          holder := Nobody;
        }
      case Pausing(_) => holder := Nobody;
      case Acknowledging(_) =>
        holder := Nobody;
        if !raised {
          Request(pending, Note, false);
        }
      case _ =>
    }

    method StoreEnds(raised: bool, landed: bool)
      requires Valid() && writes != []
      modifies this`pending, this`disk, this`writes, this`holder, this`log
      ensures Valid() && Now() == Step(old(Now()), Event.StoreEnds(raised, landed))
    {
      hide Sound, Continue;
      StepSound(Now(), Event.StoreEnds(raised, landed), clean);
      var write := writes[0];
      writes := writes[1..];
      if landed || !raised {
        disk := write.document;
        if write.purpose.Clear? || write.purpose.AckClear? {
          log := log + [Settled(write.purpose.boiler)];
        } else {
          assert log + [] == log;
        }
      }
      if !raised && write.alive {
        pending := write.document.pending;
      }
      if write.alive && write.owned {
        Resume(raised);
      }
    }

    /** execute_boiler returned the requested setting, or did anything else. */
    method ExecutionEnds(verified: bool)
      requires Valid() && holder.Executing?
      modifies this`writes, this`holder
      ensures Valid() && Now() == Step(old(Now()), Event.ExecutionEnds(verified))
    {
      hide Sound;
      StepSound(Now(), Event.ExecutionEnds(verified), clean);
      var boiler := holder.edge.boiler;
      if verified {
        holder := Clearing(holder.edge);
        Request(pending.With(boiler, false), Clear(boiler), true);
      } else {
        PauseRun(boiler);
      }
    }

    method AckBegins(boiler: Boiler) returns (entered: bool)
      requires Valid()
      modifies this`holder
      ensures Valid() && Now() == Step(old(Now()), Event.AckBegins(boiler))
      ensures entered <==> old(holder) == Nobody
    {
      hide Sound;
      StepSound(Now(), Event.AckBegins(boiler), clean);
      entered := holder == Nobody;
      if entered {
        holder := Verifying(boiler);
      }
    }

    method AckVerified(idle: bool)
      requires Valid() && holder.Verifying?
      modifies this`writes, this`holder
      ensures Valid() && Now() == Step(old(Now()), Event.AckVerified(idle))
    {
      hide Sound;
      StepSound(Now(), Event.AckVerified(idle), clean);
      if idle {
        var boiler := holder.boiler;
        holder := Acknowledging(boiler);
        Request(pending.With(boiler, false), AckClear(boiler), true);
      } else {
        holder := Nobody;
      }
    }

    /** The task that holds the lock is cancelled where it waits. */
    method Cancelled()
      requires Valid()
      modifies this`writes, this`holder
      ensures Valid() && Now() == Step(old(Now()), Cancel)
    {
      hide Sound, Orphan;
      StepSound(Now(), Cancel, clean);
      if holder.Marking? || holder.Clearing? {
        writes := Orphan(writes);
        PauseRun(holder.edge.boiler);
      } else if holder.Executing? {
        PauseRun(holder.edge.boiler);
      } else if holder.Pausing? || holder.Acknowledging? {
        writes, holder := Orphan(writes), Nobody;
      } else if holder.Verifying? {
        holder := Nobody;
      }
    }

    /** The process dies, perhaps with the front document on disk, and async_load runs again. */
    method Reload(landed: bool)
      requires Valid()
      modifies this`pending, this`lastAttempts, this`disk, this`writes, this`holder, this`log
      ensures Valid() && Now() == Step(old(Now()), Death(landed))
      ensures pending == disk.pending && lastAttempts == disk.attempts && writes == [] && holder == Nobody
    {
      hide Sound;
      StepSound(Now(), Death(landed), clean);
      if landed && writes != [] {
        if writes[0].purpose.Clear? || writes[0].purpose.AckClear? {
          log := log + [Settled(writes[0].purpose.boiler)];
        } else {
          assert log + [] == log;
        }
        disk := writes[0].document;
      }
      pending, lastAttempts := disk.pending, disk.attempts;
      writes, holder := [], Nobody;
    }

    /** One event, as the method that stands for it; an event that is not possible is no call. */
    method Happen(e: Event)
      requires Valid()
      modifies this
      ensures Valid() && Now() == Step(old(Now()), e) && clean == (old(clean) && CleanStep(old(Now()), e))
    {
      hide Sound, MarkRun, FinishWrite, Orphan, NoStale, BeginPause;
      match e
      case Tick => Midnight();
      case Run(edge) => var _ := Run(edge);
      case Pause => Pause();
      case StoreEnds(raised, landed) =>
        if writes != [] {
          StoreEnds(raised, landed);
        }
      case ExecutionEnds(verified) =>
        if holder.Executing? {
          ExecutionEnds(verified);
        }
      case Cancel => Cancelled();
      case AckBegins(boiler) => var _ := AckBegins(boiler);
      case AckVerified(idle) =>
        if holder.Verifying? {
          AckVerified(idle);
        }
      case OtherBegins => var _ := OtherEnters();
      case OtherEnds =>
        if holder == Other {
          OtherLeaves();
        }
      case Death(landed) => Reload(landed);
    }

    /** Any sequence of events drives the object exactly as it drives the state machine. */
    method Live(events: seq<Event>)
      requires Valid()
      modifies this
      ensures Valid() && Now() == Steps(old(Now()), events)
      ensures OncePerDate(log)
      ensures clean == (old(clean) && CleanRun(old(Now()), events))
      ensures clean ==> Separated(log, Brew) && Separated(log, Steam)
    {
      hide Step, CleanStep, OncePerDate, Separated, Sound;
      for i := 0 to |events|
        invariant Valid()
        invariant Steps(old(Now()), events) == Steps(Now(), events[i..])
        invariant (old(clean) && CleanRun(old(Now()), events)) == (clean && CleanRun(Now(), events[i..]))
      {
        StepsCons(Now(), events[i..]);
        assert events[i..][1..] == events[i + 1..];
        Happen(events[i]);
      }
      StepsNone(Now());
      Promises();
    }
  }
}
