/**
 What holds at every moment of every run of the host-keyed signing protocol:
 any interleaving of a pass's effects with what the world does, each effect
 done, failed, done but reported as failed, or cut off by the process dying.
 */
module SigningRuns {
  import opened Wrappers
  import opened Status
  import opened Renewal
  import opened SigningProtocol
  import opened SigningCopies
  import opened SigningKeys
  import opened SigningThrottle
  import opened SigningImports
  import opened SigningReadiness
  import opened SigningTiming

  ghost predicate Safe(first: Option<Pem>, s: State) {
    && CopyIsCurrent(s)
    && KeySafety(s)
    && Throttle(s)
    && ImportSafety(first, s)
    && ReadinessSafety(s)
    && TimingSafety(s)
  }

  lemma InitiallySafe(s: State)
    requires Initial(s)
    ensures Safe(s.world.served, s)
  {
    assert forall fingerprint :: !Held(s.log, fingerprint);
  }

  lemma DecidingIsSafe(first: Option<Pem>, s: State, o: Outcome)
    requires Safe(first, s) && (s.pc.Idle? || s.pc.Building? || s.pc.Inspecting? || s.pc.Gating?)
    ensures Safe(first, Deciding(s, o))
  {
    DecidingKeepsCopy(s, o);
    DecidingKeepsKeys(s, o);
    if s.pc.Gating? { GatingKeepsThrottle(s, o); } else { ReadingKeepsThrottle(s, o); }
    DecidingKeepsImports(first, s, o);
    DecidingKeepsReadiness(s, o);
    DecidingKeepsTiming(s, o);
  }

  lemma StampingIsSafe(first: Option<Pem>, s: State, o: Outcome, d: string)
    requires Safe(first, s) && (s.pc.Stamping? || s.pc.Rotating?)
    ensures Safe(first, Opening(s, o, d))
  {
    OpeningKeepsCopy(s, o, d);
    OpeningKeepsKeys(s, o, d);
    if s.pc.Stamping? { StampingKeepsThrottle(s, o, d); } else { RotatingKeepsThrottle(s, o, d); }
    OpeningKeepsImports(first, s, o, d);
    OpeningKeepsReadiness(s, o, d);
    StampingKeepsTiming(s, o, d);
  }

  lemma SubmittingIsSafe(first: Option<Pem>, s: State, o: Outcome, d: string)
    requires Safe(first, s) && (s.pc.Recording? || s.pc.Creating?)
    ensures Safe(first, Opening(s, o, d))
  {
    OpeningKeepsCopy(s, o, d);
    OpeningKeepsKeys(s, o, d);
    SubmittingKeepsThrottle(s, o, d);
    OpeningKeepsImports(first, s, o, d);
    OpeningKeepsReadiness(s, o, d);
    SubmittingKeepsTiming(s, o, d);
  }

  lemma ResolvingIsSafe(first: Option<Pem>, s: State, o: Outcome)
    requires Safe(first, s) && (s.pc.Fetching? || s.pc.Deleting? || s.pc.Checking? || s.pc.Importing?)
    ensures Safe(first, Resolving(s, o))
  {
    ResolvingKeepsCopy(s, o);
    ResolvingKeepsTiming(s, o);
    match s.pc {
      case Fetching(_, _) =>
        FetchingKeepsThrottle(s, o);
        FetchingKeepsKeys(s, o);
        FetchingKeepsImports(first, s, o);
        FetchingKeepsReadiness(s, o);
      case Deleting(_, _, _) =>
        DeletingKeepsThrottle(s, o);
        DeletingKeepsKeys(s, o);
        DeletingKeepsImports(first, s, o);
        DeletingKeepsReadiness(s, o);
      case Checking(_, _, _) =>
        InstallingKeepsThrottle(s, o);
        ImportingKeepsKeys(s, o);
        CheckingKeepsImports(first, s, o);
        ImportingKeepsReadiness(s, o);
      case Importing(_, _, _) =>
        InstallingKeepsThrottle(s, o);
        ImportingKeepsKeys(s, o);
        ImportingKeepsImports(first, s, o);
        ImportingKeepsReadiness(s, o);
    }
  }

  lemma ClosingIsSafe(first: Option<Pem>, s: State, o: Outcome)
    requires Safe(first, s) && (s.pc.Reporting? || s.pc.Failing?)
    ensures Safe(first, Closing(s, o))
  {
    ClosingKeepsCopy(s, o);
    ClosingKeepsKeys(s, o);
    ClosingKeepsThrottle(s, o);
    ClosingKeepsImports(first, s, o);
    ClosingKeepsReadiness(s, o);
    ClosingKeepsTiming(s, o);
  }

  lemma MovingIsSafe(first: Option<Pem>, s: State, a: Action)
    requires Safe(first, s) && !a.Proceed?
    ensures Safe(first, Move(s, a))
  {
    MovingKeepsCopy(s, a);
    MovingKeepsKeys(s, a);
    MovingKeepsThrottle(s, a);
    MovingKeepsImports(first, s, a);
    MovingKeepsReadiness(s, a);
    MovingKeepsTiming(s, a);
  }

  /** What the backoff would answer is no part of any promise. */
  lemma RetryDelayIsFree(first: Option<Pem>, s: State, retryIn: int)
    requires Safe(first, s) && s.pc.Idle?
    ensures Safe(first, s.(retryDelay := retryIn))
  {
  }

  /** The process may die between any two effects. */
  lemma DyingIsSafe(first: Option<Pem>, s: State)
    requires Safe(first, s)
    ensures Safe(first, s.(pc := Idle))
  {
  }

  lemma EffectIsSafe(first: Option<Pem>, s: State, o: Outcome, d: string, t: State)
    requires Safe(first, s) && !s.pc.Idle? && t == Effect(s, o, d)
    ensures Safe(first, t)
  {
    match s.pc {
      case Building(_) | Inspecting(_) | Gating(_, _) =>
        assert t == Deciding(s, o);
        DecidingIsSafe(first, s, o);
      case Stamping(_, _, _) | Rotating(_, _, _) =>
        assert t == Opening(s, o, d);
        StampingIsSafe(first, s, o, d);
      case Recording(_, _, _, _, _) | Creating(_, _, _) =>
        assert t == Opening(s, o, d);
        SubmittingIsSafe(first, s, o, d);
      case Fetching(_, _) | Deleting(_, _, _) | Checking(_, _, _) | Importing(_, _, _) =>
        assert t == Resolving(s, o);
        ResolvingIsSafe(first, s, o);
      case Reporting(_, _, _, _) | Failing(_, _) =>
        assert t == Closing(s, o);
        ClosingIsSafe(first, s, o);
    }
  }

  lemma AdvanceIsSafe(first: Option<Pem>, s: State, a: Action, t: State)
    requires Safe(first, s) && a.Proceed? && t == Advance(s, a.outcome, a.csrDigest, a.retryIn)
    ensures Safe(first, t)
  {
    if a.outcome.Died? {
      DyingIsSafe(first, s);
    } else if s.pc.Idle? {
      RetryDelayIsFree(first, s, a.retryIn);
      assert t == Deciding(s.(retryDelay := a.retryIn), a.outcome);
      DecidingIsSafe(first, s.(retryDelay := a.retryIn), a.outcome);
    } else {
      EffectIsSafe(first, s, a.outcome, a.csrDigest, t);
    }
  }

  lemma StepIsSafe(first: Option<Pem>, s: State, a: Action)
    requires Safe(first, s)
    ensures Safe(first, Step(s, a))
  {
    var t := Step(s, a);
    if a.Proceed? {
      AdvanceIsSafe(first, s, a, t);
    } else {
      assert t == Move(s, a);
      MovingIsSafe(first, s, a);
    }
  }

  /** Every reachable state is safe. */
  lemma {:induction false} RunsAreSafe(s: State, actions: seq<Action>)
    requires Initial(s)
    ensures Safe(s.world.served, Run(s, actions))
  {
    if actions == [] {
      InitiallySafe(s);
    } else {
      var before := actions[..|actions| - 1];
      RunsAreSafe(s, before);
      StepIsSafe(s.world.served, Run(s, before), actions[|actions| - 1]);
    }
  }

  // -- The promises, over every run ---------------------------------------------------------

  /**
   Two consecutive rounds that reach the host are stamped an hour apart, unless
   the spec was edited or the stamp cleared between the reads of their passes.
   */
  lemma RotationIsThrottled(s: State, actions: seq<Action>, i: nat)
    requires Initial(s) && i + 1 < |Run(s, actions).rounds|
    ensures var end := Run(s, actions);
            var earlier, later := end.rounds[i], end.rounds[i + 1];
            || later.stamp >= earlier.stamp + 3600
            || EditedIn(end.log, earlier.readAt, later.readAt)
            || ClearedIn(end.log, earlier.readAt, later.readAt)
  {
    RunsAreSafe(s, actions);
    var end := Run(s, actions);
    assert Spaced(end.log, end.rounds[i], end.rounds[i + 1].stamp, end.rounds[i + 1].readAt);
  }

  /** Rounds stamped within less than an hour of each other number at most one more than the edits and clears. */
  lemma RoundsInAnHour(s: State, actions: seq<Action>, i: nat, j: nat)
    requires Initial(s) && i <= j < |Run(s, actions).rounds|
    requires var rounds := Run(s, actions).rounds; rounds[j].stamp < rounds[i].stamp + 3600
    ensures var end := Run(s, actions);
            && end.rounds[i].readAt <= end.rounds[j].readAt
            && j - i + 1 <= 1 + Interventions(end.log, end.rounds[i].readAt, end.rounds[j].readAt)
  {
    RunsAreSafe(s, actions);
    RoundsNeedInterventions(Run(s, actions).log, Run(s, actions).rounds, i, j);
  }

  /** Every live request's CSR comes from the key the host holds now, and every import was of that key's certificate. */
  lemma KeysAgree(s: State, actions: seq<Action>)
    requires Initial(s)
    ensures var end := Run(s, actions);
            && (forall name | name in end.world.requests :: end.world.requests[name].key == end.world.hostKey)
            && (forall k | 0 <= k < |end.log| && end.log[k].ImportCalled? :: end.log[k].cert.key == end.log[k].hostKey)
  {
    RunsAreSafe(s, actions);
  }

  /** Every live request is the one the status names, so there is at most one. */
  lemma NoRequestIsOrphaned(s: State, actions: seq<Action>)
    requires Initial(s)
    ensures var w := Run(s, actions).world;
            && (forall name | name in w.requests :: PendingOf(w.stored) == Some(name))
            && |w.requests| <= 1
  {
    RunsAreSafe(s, actions);
    AtMostOneRequest(Run(s, actions).world);
  }

  /** The host serves a certificate with this fingerprint. */
  ghost predicate IsWith(served: Option<Pem>, fingerprint: string) {
    exists cert :: served == Some(Leaf(cert)) && cert.fingerprint == fingerprint
  }

  /** The host serves none, something unreadable, or a certificate with another fingerprint. */
  ghost predicate IsWithout(served: Option<Pem>, fingerprint: string) {
    forall cert | served == Some(Leaf(cert)) :: cert.fingerprint != fingerprint
  }

  /**
   An import is called only by a pass that could not read the host, or found it
   serving another certificate or none: at the pass's own read of the publication
   or at some moment after it.
   */
  lemma ImportedOnlyWhenMissing(s: State, actions: seq<Action>, k: nat)
    requires Initial(s)
    requires var log := Run(s, actions).log; k < |log| && log[k].ImportCalled?
    ensures var log := Run(s, actions).log;
            || (exists j :: 0 < ReadEnd(log[..k]) <= j < k && log[j].HostUnreadable?)
            || (exists j :: 0 < ReadEnd(log[..k]) <= j <= k
                            && IsWithout(ServedAfter(s.world.served, log[..j]), log[k].cert.fingerprint))
  {
    RunsAreSafe(s, actions);
    var log, fingerprint := Run(s, actions).log, Run(s, actions).log[k].cert.fingerprint;
    assert CalledFor(s.world.served, log[..k], fingerprint);
    if UnreadableInPass(log[..k]) {
      var j :| ReadEnd(log[..k]) <= j < k && log[..k][j].HostUnreadable?;
      assert log[j].HostUnreadable?;
    } else {
      var j :| ReadEnd(log[..k]) <= j <= k && !Serves(ServedAfter(s.world.served, log[..k][..j]), fingerprint);
      assert log[..k][..j] == log[..j];
    }
  }

  /**
   A certificate whose import took effect is imported again only after it was
   replaced on the host or another was imported, or by a pass that could not
   read the host.
   */
  lemma ImportsHappenOnce(s: State, actions: seq<Action>, i: nat, k: nat)
    requires Initial(s)
    requires var log := Run(s, actions).log;
             && i < k < |log| && log[i].ImportApplied? && log[k].ImportCalled?
             && log[i].cert.fingerprint == log[k].cert.fingerprint
    ensures var log := Run(s, actions).log;
            || (exists j | i < j < k :: Replaces(log[j], log[k].cert.fingerprint))
            || (exists j :: 0 < ReadEnd(log[..k]) <= j < k && log[j].HostUnreadable?)
  {
    RunsAreSafe(s, actions);
    var log, prefix := Run(s, actions).log, Run(s, actions).log[..k];
    var fingerprint := log[k].cert.fingerprint;
    assert ReadEnd(prefix) > 0 && CalledFor(s.world.served, prefix, fingerprint);
    if UnreadableInPass(prefix) {
      var j :| ReadEnd(prefix) <= j < k && prefix[j].HostUnreadable?;
      assert log[j].HostUnreadable?;
    } else {
      assert prefix[i] == log[i] && !Held(prefix, fingerprint);
      var j :| i < j < |prefix| && Replaces(prefix[j], fingerprint);
      assert log[j] == prefix[j];
    }
  }

  /**
   A request is deleted as delivered only by a pass in which the host served its
   certificate: at the pass's own read of the publication or at some moment after it.
   */
  lemma DeletedOnlyAfterServed(s: State, actions: seq<Action>, k: nat)
    requires Initial(s)
    requires var log := Run(s, actions).log; k < |log| && log[k].RequestDeleted? && log[k].verdict.Delivered?
    ensures var log := Run(s, actions).log;
            exists j :: 0 < ReadEnd(log[..k]) <= j <= k
                        && IsWith(ServedAfter(s.world.served, log[..j]), log[k].verdict.fingerprint)
  {
    RunsAreSafe(s, actions);
    var log, fingerprint := Run(s, actions).log, Run(s, actions).log[k].verdict.fingerprint;
    assert ServedInPass(s.world.served, log[..k], fingerprint);
    var j :| ReadEnd(log[..k]) <= j <= k && Serves(ServedAfter(s.world.served, log[..k][..j]), fingerprint);
    assert log[..k][..j] == log[..j];
  }

  /**
   Published is Ready and Error is not. Pending is Ready exactly when the last
   round was opened for a certificate that was ours, covered every name and was
   in date, and no Error has been stored since.
   */
  lemma ReadyThroughRenewal(s: State, actions: seq<Action>)
    requires Initial(s)
    ensures var end := Run(s, actions);
      && (end.world.stored.phase == Some(Published) ==> IsReady(end.world.stored))
      && (end.world.stored.phase == Some(Error) ==> !IsReady(end.world.stored))
      && (end.world.stored.phase == Some(Pending) ==>
            (IsReady(end.world.stored) <==>
             exists i :: 0 <= i < |end.log| && end.log[i].RoundOpened? && WasServing(end.log[i].pub, end.log[i].decision)
                         && forall k | i < k < |end.log| :: !end.log[k].RoundOpened? && !end.log[k].ErrorStored?))
  {
    RunsAreSafe(s, actions);
    var end := Run(s, actions);
    forall i | 0 <= i < |end.log| && end.log[i].RoundOpened?
      ensures end.log[i].decision.reason == RoutineRenewal <==> WasServing(end.log[i].pub, end.log[i].decision)
    {
      var pub, d := end.log[i].pub, end.log[i].decision;
      assert Decided(pub, d);
      RoutineExactlyWhenServing(d.installed, pub.spec, pub.status, d.decidedAt, d.reason);
    }
  }

  /** The host was found serving a certificate that was published by us, covers every name and was in date. */
  predicate WasServing(pub: Pub, d: Decision) {
    && d.installed.Some? && d.installed.value.Leaf?
    && PublishedOf(pub.status) == Some(d.installed.value.cert.fingerprint)
    && (forall name | name in pub.spec.dnsNames :: name in d.installed.value.cert.dnsNames)
    && d.installed.value.cert.notBefore as real <= d.decidedAt < d.installed.value.cert.notAfter as real
  }

  /** When a request is given up as never answered, the cooldown is already over, so its five-second retry is honest. */
  lemma TimeoutRetryIsNotRefused(s: State, actions: seq<Action>, next: Pub, d: Decision, later: real)
    requires Initial(s)
    requires var pc := Run(s, actions).pc; pc.Deleting? && pc.verdict.TimedOut?
    requires next.status.lastSigningTime == Run(s, actions).pc.pub.status.lastSigningTime
    requires later >= Run(s, actions).world.now
    ensures AfterGate(next, d, later).Stamping?
  {
    RunsAreSafe(s, actions);
  }
}
