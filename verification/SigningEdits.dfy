/**
 When an edit of the spec opens the cooldown gate: whose status write came last,
 and what its pass had read.
 */
module SigningEdits {
  import opened Wrappers
  import opened Renewal
  import opened SigningProtocol
  import opened SigningCopies
  import SigningRuns

  /** The action is a status patch that takes effect. */
  predicate Writes(s: State, a: Action) {
    a.Proceed? && TookEffect(a.outcome) && (s.pc.Stamping? || s.pc.Recording? || s.pc.Reporting? || s.pc.Failing?)
  }

  /** Where the pass whose status patch took effect last had read the publication. */
  function LastWriter(s: State, actions: seq<Action>): Option<nat> {
    if actions == [] then None
    else
      var before, a := actions[..|actions| - 1], actions[|actions| - 1];
      if Writes(Run(s, before), a) then Some(Run(s, before).readAt) else LastWriter(s, before)
  }

  // -- Counting edits ---------------------------------------------------------------------------

  function Edits(log: seq<Event>, n: nat): nat
    requires n <= |log|
  {
    if n == 0 then 0 else Edits(log, n - 1) + if log[n - 1].SpecEdited? then 1 else 0
  }

  lemma {:induction false} EditsStay(log: seq<Event>, longer: seq<Event>, n: nat)
    requires n <= |log| && log <= longer
    ensures Edits(longer, n) == Edits(log, n)
  {
    if n > 0 {
      EditsStay(log, longer, n - 1);
      assert longer[n - 1] == log[n - 1];
    }
  }

  lemma {:induction false} EditsCount(log: seq<Event>, lo: nat, hi: nat)
    requires lo <= hi <= |log|
    ensures Edits(log, lo) <= Edits(log, hi)
    ensures Edits(log, lo) < Edits(log, hi) <==> EditedIn(log, lo, hi)
    decreases hi
  {
    if lo < hi {
      var last := hi - 1;
      EditsCount(log, lo, last);
      if log[last].SpecEdited? {
        assert EditedIn(log, lo, hi);
      } else if EditedIn(log, lo, hi) {
        var k :| lo <= k < hi && log[k].SpecEdited?;
        assert EditedIn(log, lo, last);
      } else {
        assert !EditedIn(log, lo, last);
      }
    }
  }

  // -- What one step does to the generations --------------------------------------------------------

  /** The step adds to the log, and at most one edit: its own. */
  ghost predicate Records(s: State, t: State, edits: nat) {
    && s.log <= t.log && Edits(t.log, |t.log|) == Edits(s.log, |s.log|) + edits
    && t.world.generation == s.world.generation + edits
  }

  /** The generation stored moves only with a status write. */
  predicate Observes(s: State, t: State, writes: bool)
    requires writes ==> !s.pc.Idle?
  {
    t.world.stored.observedGeneration ==
    if writes then Some(s.pc.pub.generation) else s.world.stored.observedGeneration
  }

  /** A pass keeps what it read, and one that begins reads what is there. */
  predicate KeepsRead(s: State, t: State) {
    !t.pc.Idle? ==>
      if s.pc.Idle? then t.readAt == |s.log| < |t.log| && t.pc.pub.generation == s.world.generation
      else t.readAt == s.readAt && t.pc.pub.generation == s.pc.pub.generation
  }

  /** What one step does, when it is at most this many edits and perhaps a write. */
  ghost predicate StepsOnce(s: State, t: State, edits: nat, writes: bool)
    requires writes ==> !s.pc.Idle?
  {
    Records(s, t, edits) && Observes(s, t, writes) && KeepsRead(s, t)
  }

  lemma OneEvent(log: seq<Event>, e: Event)
    ensures Edits(log + [e], |log| + 1) == Edits(log, |log|) + if e.SpecEdited? then 1 else 0
  {
    EditsStay(log, log + [e], |log|);
  }

  lemma AppendRecords(s: State, t: State, e: Event)
    requires t.log == s.log + [e] && !e.SpecEdited? && t.world.generation == s.world.generation
    ensures Records(s, t, 0)
  {
    OneEvent(s.log, e);
  }

  lemma DecidingStep(s: State, o: Outcome)
    requires s.pc.Idle? || s.pc.Building? || s.pc.Inspecting? || s.pc.Gating?
    ensures StepsOnce(s, Deciding(s, o), 0, false)
  {
    var t := Deciding(s, o);
    if s.pc.Idle? && o.Done? {
      AppendRecords(s, t, PublicationRead);
    } else if s.pc.Inspecting? && !o.Done? {
      AppendRecords(s, t, HostUnreadable);
    }
  }

  lemma OpeningStep(s: State, o: Outcome, d: string)
    requires s.pc.Stamping? || s.pc.Rotating? || s.pc.Recording? || s.pc.Creating?
    ensures StepsOnce(s, Opening(s, o, d), 0, TookEffect(o) && (s.pc.Stamping? || s.pc.Recording?))
  {
    if s.pc.Stamping? && TookEffect(o) {
      AppendRecords(s, Opening(s, o, d), RoundOpened(s.pc.pub, s.pc.decision));
    }
  }

  lemma ResolvingStep(s: State, o: Outcome)
    requires s.pc.Fetching? || s.pc.Deleting? || s.pc.Checking? || s.pc.Importing?
    ensures StepsOnce(s, Resolving(s, o), 0, false)
  {
    var t := Resolving(s, o);
    if s.pc.Deleting? && TookEffect(o) {
      AppendRecords(s, t, RequestDeleted(s.pc.request, s.pc.verdict));
    } else if s.pc.Checking? && !o.Done? {
      AppendRecords(s, t, HostUnreadable);
    } else if s.pc.Importing? {
      var called := s.(log := s.log + [ImportCalled(s.pc.cert, s.world.hostKey)]);
      AppendRecords(s, called, ImportCalled(s.pc.cert, s.world.hostKey));
      if TookEffect(o) { AppendRecords(called, t, ImportApplied(s.pc.cert)); }
    }
  }

  lemma ClosingStep(s: State, o: Outcome)
    requires s.pc.Reporting? || s.pc.Failing?
    ensures StepsOnce(s, Closing(s, o), 0, TookEffect(o))
  {
    if Closing(s, o).log != s.log { AppendRecords(s, Closing(s, o), ErrorStored); }
  }

  lemma MovingStep(s: State, a: Action)
    requires !a.Proceed?
    ensures StepsOnce(s, Move(s, a), if a.EditSpec? then 1 else 0, false)
  {
    match a {
      case EditSpec(_) => OneEvent(s.log, SpecEdited);
      case ClearSigning => OneEvent(s.log, SigningCleared);
      case ReplaceHostCertificate(served) => OneEvent(s.log, HostReplaced(served));
      case _ =>
    }
  }

  lemma EffectStep(s: State, o: Outcome, d: string, t: State)
    requires !s.pc.Idle? && t == Effect(s, o, d)
    ensures StepsOnce(s, t, 0, TookEffect(o) && (s.pc.Stamping? || s.pc.Recording? || s.pc.Reporting? || s.pc.Failing?))
  {
    match s.pc {
      case Building(_) | Inspecting(_) | Gating(_, _) =>
        assert t == Deciding(s, o);
        DecidingStep(s, o);
      case Stamping(_, _, _) | Rotating(_, _, _) | Recording(_, _, _, _, _) | Creating(_, _, _) =>
        assert t == Opening(s, o, d);
        OpeningStep(s, o, d);
      case Fetching(_, _) | Deleting(_, _, _) | Checking(_, _, _) | Importing(_, _, _) =>
        assert t == Resolving(s, o);
        ResolvingStep(s, o);
      case Reporting(_, _, _, _) | Failing(_, _) =>
        assert t == Closing(s, o);
        ClosingStep(s, o);
    }
  }

  lemma AdvanceStep(s: State, a: Action, t: State)
    requires a.Proceed? && t == Advance(s, a.outcome, a.csrDigest, a.retryIn)
    ensures StepsOnce(s, t, 0, Writes(s, a))
  {
    if a.outcome.Died? {
    } else if s.pc.Idle? {
      var begun := s.(retryDelay := a.retryIn);
      assert t == Deciding(begun, a.outcome);
      DecidingStep(begun, a.outcome);
    } else {
      EffectStep(s, a.outcome, a.csrDigest, t);
    }
  }

  lemma OneStep(s: State, a: Action)
    ensures StepsOnce(s, Step(s, a), if a.EditSpec? then 1 else 0, Writes(s, a))
  {
    var t := Step(s, a);
    if a.Proceed? {
      AdvanceStep(s, a, t);
    } else {
      assert t == Move(s, a);
      MovingStep(s, a);
    }
  }

  // -- Over every run ------------------------------------------------------------------------------------

  /** The generation stored is the one the last writer's pass read; each counts the edits since `base`. */
  ghost predicate Generations(base: int, t: State, writer: Option<nat>) {
    && t.world.generation == base + Edits(t.log, |t.log|)
    && (writer.Some? ==> writer.value < |t.log|)
    && t.world.stored.observedGeneration == (
         match writer case None => None case Some(r) => Some(base + Edits(t.log, r)))
    && (!t.pc.Idle? ==>
          && t.readAt < |t.log| && t.pc.pub.generation == base + Edits(t.log, t.readAt)
          && (writer.Some? ==> writer.value <= t.readAt))
  }

  lemma StepKeepsGenerations(base: int, s: State, t: State, edits: nat, writes: bool, writer: Option<nat>, after: Option<nat>)
    requires Generations(base, s, writer) && (writes ==> !s.pc.Idle?)
    requires StepsOnce(s, t, edits, writes)
    requires after == if writes then Some(s.readAt) else writer
    ensures Generations(base, t, after)
  {
    if writer.Some? { EditsStay(s.log, t.log, writer.value); }
    if !s.pc.Idle? { EditsStay(s.log, t.log, s.readAt); }
    EditsStay(s.log, t.log, |s.log|);
  }

  lemma {:induction false} RunsKeepGenerations(s: State, actions: seq<Action>)
    requires Initial(s)
    ensures Generations(s.world.generation, Run(s, actions), LastWriter(s, actions))
  {
    if actions != [] {
      var before, a := actions[..|actions| - 1], actions[|actions| - 1];
      RunsKeepGenerations(s, before);
      var t := Run(s, before);
      OneStep(t, a);
      StepKeepsGenerations(s.world.generation, t, Step(t, a), if a.EditSpec? then 1 else 0, Writes(t, a),
                           LastWriter(s, before), LastWriter(s, actions));
    }
  }

  /** At the gate. */
  lemma GateCountsEdits(base: int, t: State, writer: Option<nat>)
    requires CopyIsCurrent(t) && Generations(base, t, writer) && t.pc.Gating?
    ensures SpecChanged(t.pc.pub.status, t.pc.pub.generation) <==>
            writer.Some? && EditedIn(t.log, writer.value, t.readAt)
  {
    assert t.pc.pub.status.observedGeneration == t.world.stored.observedGeneration;
    if writer.Some? { EditsCount(t.log, writer.value, t.readAt); }
  }

  /**
   In any run, the gate opens for a pass exactly when the cooldown is over, or
   the spec was edited between what the pass read and what the pass whose status
   write took effect last had read. So a write by a pass that had read before the
   edit does not spend it, and one by a pass that had read after it does.
   */
  lemma EditOpensTheGateExactly(s: State, actions: seq<Action>)
    requires Initial(s) && Run(s, actions).pc.Gating?
    ensures var t, writer := Run(s, actions), LastWriter(s, actions);
      AfterGate(t.pc.pub, t.pc.decision, t.world.now).Stamping? <==>
        || CooldownRemaining(t.pc.pub.status, t.world.now).None?
        || (writer.Some? && EditedIn(t.log, writer.value, t.readAt))
  {
    SigningRuns.RunsAreSafe(s, actions);
    RunsKeepGenerations(s, actions);
    GateCountsEdits(s.world.generation, Run(s, actions), LastWriter(s, actions));
  }
}
