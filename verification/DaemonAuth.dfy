/**
  The two-phase authentication protocol is transparent. A request answered with
  AuthRequired can be erased from the run: the other threads could have taken
  the same steps without it, and everything ends as it did.
 */
module DaemonAuth {
  import opened Wrappers
  import opened Records
  import opened Daemon
  import opened DaemonInvariant

  /** Phases of a request that may still be answered with AuthRequired. */
  predicate Asking(p: Phase) {
    || p.AddWantIndex? || p.AddIndexed?
    || p.RefreshWantIndex? || p.RefreshWantConn? || p.RefreshLocked?
    || p.RemoveWantIndex? || p.RemoveIndexed? || p.RemoveWantConn? || p.RemoveLocked?
    || p.EditWantConn? || p.EditLocked?
  }

  predicate Refused(p: Phase) {
    p == Done(AuthRequired)
  }

  /** A section that keeps asking, or ends with AuthRequired, changed nothing. */
  lemma AskingChangesNothing(lang: Language, d: Shared, p: Phase, c: Choice)
    requires Runnable(p) && Asking(p)
    requires Asking(Section(lang, d, p, c).1) || Refused(Section(lang, d, p, c).1)
    ensures Section(lang, d, p, c).0 == d
  {
    hide Section, AddSection;
    if p.AddIndexed? {
      AddAskingChangesNothing(lang, d, p, c);
    } else {
      OtherAskingChangesNothing(lang, d, p, c);
    }
  }

  lemma AddAskingChangesNothing(lang: Language, d: Shared, p: Phase, c: Choice)
    requires p.AddIndexed?
    requires Asking(Section(lang, d, p, c).1) || Refused(Section(lang, d, p, c).1)
    ensures Section(lang, d, p, c).0 == d
  {
    hide NameTaken, FoundIdentity, Effective;
  }

  lemma OtherAskingChangesNothing(lang: Language, d: Shared, p: Phase, c: Choice)
    requires Runnable(p) && Asking(p) && !p.AddIndexed?
    requires Asking(Section(lang, d, p, c).1) || Refused(Section(lang, d, p, c).1)
    ensures Section(lang, d, p, c).0 == d
  {
    hide FoundIdentity, Effective, Authorized, Refreshed, Save, AddSection;
  }

  /** Only a request that is still asking is answered with AuthRequired. */
  lemma OnlyAskingIsRefused(lang: Language, d: Shared, p: Phase, c: Choice)
    requires Runnable(p) && !Asking(p)
    ensures var p' := Section(lang, d, p, c).1; !Asking(p') && !Refused(p')
  {
    hide NameTaken, HelperOn, Reparses;
  }

  lemma AcquiredAsking(p: Phase)
    requires Wants(p).Some?
    ensures Asking(Acquired(p)) <==> Asking(p)
    ensures !Refused(Acquired(p)) && !Refused(p)
  {
  }

  // ---- erasing a thread ---------------------------------------------------------------------------

  predicate StepOf(step: Step, t: nat) {
    && (step.Arrive? || step.Acquire? || step.Run? || step.Stop?)
    && step.thread == t
  }

  /** The run without the steps of thread `t`. */
  function Without(steps: seq<Step>, t: nat): seq<Step> {
    if steps == [] then [] else (if StepOf(steps[0], t) then [] else [steps[0]]) + Without(steps[1..], t)
  }

  /** The state in which thread `t` never started its request. */
  function Erased(s: State, t: nat): State {
    s.(threads := s.threads[t := Idle])
  }

  /** A step of another thread is possible and does the same without `t`. */
  lemma OtherStep(lang: Language, s: State, step: Step, t: nat)
    requires Enabled(s, step) && !StepOf(step, t)
    ensures Enabled(Erased(s, t), step) && Apply(lang, Erased(s, t), step) == Erased(Apply(lang, s, step), t)
  {
    hide Section, Accepted, FirstPhase, Acquired, HelperOn;
    var e := Erased(s, t);
    if step.Acquire? {
      assert PhaseOf(e, step.thread) == PhaseOf(s, step.thread);
      forall u | u in e.threads
        ensures !Holds(e.threads[u], Wants(PhaseOf(e, step.thread)).value)
      {
        IdleHolds(Wants(PhaseOf(e, step.thread)).value);
      }
    }
    if ThreadStep(step) {
      assert PhaseOf(e, step.thread) == PhaseOf(s, step.thread);
      assert Apply(lang, e, step).threads == Erased(Apply(lang, s, step), t).threads;
    }
  }

  predicate ThreadStep(step: Step) {
    step.Arrive? || step.Acquire? || step.Run? || step.Stop?
  }

  lemma IdleHolds(lock: Lock)
    ensures !Holds(Idle, lock)
  {
  }

  /** The phase of `t` changes only by its own steps. */
  lemma OtherStepPhase(lang: Language, s: State, step: Step, t: nat)
    requires Enabled(s, step) && !StepOf(step, t)
    ensures PhaseOf(Apply(lang, s, step), t) == PhaseOf(s, t)
  {
    hide Section, FirstPhase, Acquired;
  }

  predicate NoArrival(steps: seq<Step>, t: nat) {
    forall i :: 0 <= i < |steps| ==> !(steps[i].Arrive? && steps[i].thread == t)
  }

  /** A thread that committed to its request is not refused later on. */
  lemma {:induction false} CommittedNotRefused(lang: Language, s: State, steps: seq<Step>, t: nat)
    requires Possible(lang, s, steps) && NoArrival(steps, t)
    requires !Asking(PhaseOf(s, t)) && (!Refused(PhaseOf(s, t)) || (steps != [] && StepOf(steps[0], t)))
    ensures !Refused(PhaseOf(End(lang, s, steps), t))
    decreases |steps|
  {
    hide Section, Acquired, Asking, FirstPhase;
    if steps != [] {
      var next := Apply(lang, s, steps[0]);
      OwnStepCommits(lang, s, steps[0], t);
      CommittedNotRefused(lang, next, steps[1..], t);
    }
  }

  lemma OwnStepCommits(lang: Language, s: State, step: Step, t: nat)
    requires Enabled(s, step) && !Asking(PhaseOf(s, t)) && !(step.Arrive? && step.thread == t)
    requires !Refused(PhaseOf(s, t)) || StepOf(step, t)
    ensures !Asking(PhaseOf(Apply(lang, s, step), t)) && !Refused(PhaseOf(Apply(lang, s, step), t))
  {
    hide Section, Acquired, FirstPhase;
    if !StepOf(step, t) {
      OtherStepPhase(lang, s, step, t);
    } else if step.Run? {
      OnlyAskingIsRefused(lang, s.shared, PhaseOf(s, t), step.choice);
    } else if step.Acquire? {
      AcquiredAsking(PhaseOf(s, t));
    }
  }

  /** An own step that keeps asking, or is refused, is invisible once `t` is erased. */
  lemma OwnStep(lang: Language, s: State, step: Step, t: nat)
    requires Enabled(s, step) && StepOf(step, t) && !step.Arrive? && Asking(PhaseOf(s, t))
    requires var p := PhaseOf(Apply(lang, s, step), t); Asking(p) || Refused(p)
    ensures Erased(Apply(lang, s, step), t) == Erased(s, t)
  {
    hide Section, Acquired;
    if step.Run? {
      AskingChangesNothing(lang, s.shared, PhaseOf(s, t), step.choice);
    }
    assert Erased(Apply(lang, s, step), t).threads == Erased(s, t).threads;
  }

  lemma {:induction false} AskingErases(lang: Language, s: State, steps: seq<Step>, t: nat)
    requires Possible(lang, s, steps) && NoArrival(steps, t)
    requires Asking(PhaseOf(s, t)) || Refused(PhaseOf(s, t))
    requires Refused(PhaseOf(End(lang, s, steps), t))
    ensures Possible(lang, Erased(s, t), Without(steps, t))
    ensures End(lang, Erased(s, t), Without(steps, t)) == Erased(End(lang, s, steps), t)
    decreases |steps|
  {
    hide Enabled, Apply, Asking, Refused, Erased;
    if steps != [] {
      var step, rest := steps[0], steps[1..];
      var next := Apply(lang, s, step);
      if StepOf(step, t) {
        if !Asking(PhaseOf(s, t)) {
          CommittedNotRefused(lang, s, steps, t);
        }
        if !Asking(PhaseOf(next, t)) && !Refused(PhaseOf(next, t)) {
          CommittedNotRefused(lang, next, rest, t);
        }
        OwnStep(lang, s, step, t);
        AskingErases(lang, next, rest, t);
        WithoutOwn(steps, t);
      } else {
        OtherStepPhase(lang, s, step, t);
        OtherStep(lang, s, step, t);
        AskingErases(lang, next, rest, t);
        assert Without(steps, t) == [step] + Without(rest, t);
        assert Without(steps, t)[1..] == Without(rest, t);
      }
    }
  }

  /**
    A request that arrives on `t` and is answered with AuthRequired leaves the
    run as if it had never been made; the later attempt with a form starts from
    the state a single attempt would have started from.
   */
  lemma AuthRequiredIsTransparent(lang: Language, s: State, steps: seq<Step>, t: nat)
    requires steps != [] && steps[0].Arrive? && steps[0].thread == t
    requires Possible(lang, s, steps) && NoArrival(steps[1..], t)
    requires Refused(PhaseOf(End(lang, s, steps), t))
    ensures Possible(lang, Erased(s, t), Without(steps, t))
    ensures End(lang, Erased(s, t), Without(steps, t)) == Erased(End(lang, s, steps), t)
  {
    hide Asking, FirstPhase, Accepted, Without, NoArrival;
    var next := Apply(lang, s, steps[0]);
    FirstIsAskingOrCommitted(steps[0].request, steps[0].uid);
    if !Asking(PhaseOf(next, t)) {
      CommittedNotRefused(lang, next, steps[1..], t);
    }
    AskingErases(lang, next, steps[1..], t);
    assert Erased(next, t).threads == Erased(s, t).threads;
    WithoutOwn(steps, t);
  }

  lemma FirstIsAskingOrCommitted(request: Request, uid: nat)
    ensures !Refused(FirstPhase(request, uid))
  {
  }

  lemma WithoutOwn(steps: seq<Step>, t: nat)
    requires steps != [] && StepOf(steps[0], t)
    ensures Without(steps, t) == Without(steps[1..], t)
  {
  }
}
