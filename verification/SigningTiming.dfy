/**
 Retry times that keep their word, and a host that is left in peace.
 */
module SigningTiming {
  import opened Wrappers
  import opened Status
  import opened Renewal
  import opened SigningProtocol
  import opened SigningCopies
  import opened SigningKeys
  import opened SigningThrottle

  // -- The stamp comes before the request -----------------------------------------------

  /** The stamp in a status is no later than any live request's creation. */
  predicate StampPrecedes(status: Status, w: World) {
    forall name | name in w.requests ::
      status.lastSigningTime.Some? ==> status.lastSigningTime.value <= w.requests[name].created
  }

  ghost predicate TimingSafety(s: State) {
    && StampPrecedes(s.world.stored, s.world)
    && (s.world.stored.lastSigningTime.Some? ==> s.world.stored.lastSigningTime.value <= s.world.now.Floor)
    && (s.pc.Building? || s.pc.Fetching? ==> StampPrecedes(s.pc.pub.status, s.world))
    && (s.pc.Deleting? && s.pc.verdict.TimedOut? ==> CooldownRemaining(s.pc.pub.status, s.world.now).None?)
  }

  lemma DecidingKeepsTiming(s: State, o: Outcome)
    requires TimingSafety(s) && (s.pc.Idle? || s.pc.Building? || s.pc.Inspecting? || s.pc.Gating?)
    ensures TimingSafety(Deciding(s, o))
  {
  }

  lemma StampingKeepsTiming(s: State, o: Outcome, d: string)
    requires CopyIsCurrent(s) && KeySafety(s) && StampInForce(s) && TimingSafety(s) && (s.pc.Stamping? || s.pc.Rotating?)
    ensures TimingSafety(Opening(s, o, d))
  {
  }

  lemma SubmittingKeepsTiming(s: State, o: Outcome, d: string)
    requires KeySafety(s) && StampInForce(s) && TimingSafety(s) && (s.pc.Recording? || s.pc.Creating?)
    ensures TimingSafety(Opening(s, o, d))
  {
  }

  lemma ResolvingKeepsTiming(s: State, o: Outcome)
    requires KeySafety(s) && TimingSafety(s)
    requires s.pc.Fetching? || s.pc.Deleting? || s.pc.Checking? || s.pc.Importing?
    ensures TimingSafety(Resolving(s, o))
  {
  }

  lemma ClosingKeepsTiming(s: State, o: Outcome)
    requires StampInForce(s) && TimingSafety(s) && (s.pc.Reporting? || s.pc.Failing?)
    ensures TimingSafety(Closing(s, o))
  {
  }

  lemma FloorMonotone(x: real, y: real)
    requires x <= y
    ensures x.Floor <= y.Floor
  {
  }

  lemma MovingKeepsTiming(s: State, a: Action)
    requires TimingSafety(s) && !a.Proceed?
    ensures TimingSafety(Move(s, a))
  {
    if a.Tick? && s.world.now <= a.to {
      FloorMonotone(s.world.now, a.to);
    }
  }

  // -- Coming back when told to -----------------------------------------------------------

  /** The three answers that name a time: refused by the cooldown, restarted, or not usable. */
  predicate NamesARetry(pub: Pub, d: Decision, now: real, answer: Pc) {
    || (answer == AfterGate(pub, d, now) && answer.Reporting?)
    || answer == Restarting(pub, now)
    || answer == AfterDelete(pub, NotUsable, now)
  }

  /** A pass run when such an answer said to, or later, over the same stamp, is not refused by the cooldown. */
  lemma RetryIsNotRefused(pub: Pub, d: Decision, now: real, answer: Pc, next: Pub, e: Decision, later: real)
    requires NamesARetry(pub, d, now, answer)
    requires next.status.lastSigningTime == pub.status.lastSigningTime
    requires answer.requeue.Some? && later >= now + answer.requeue.value
    ensures AfterGate(next, e, later).Stamping?
  {
    assert answer.requeue.value >= RestartDelay(pub.status, now);
    RetryMeetsNoCooldown(next.status, now, later);
  }

  /** Every such answer does name a time, five seconds past the end of the cooldown or from now. */
  lemma EveryRefusalNamesATime(pub: Pub, d: Decision, now: real, answer: Pc)
    requires NamesARetry(pub, d, now, answer)
    ensures answer.Reporting? && answer.requeue == Some(RestartDelay(pub.status, now))
    ensures answer.write.nextRetry == Some((now + RestartDelay(pub.status, now)).Floor)
  {
  }

  /**
   An edit lets a round open only until a status write has recorded its
   generation: over a status last written at `pub`'s generation, a pass opens a
   round exactly when the spec was edited after that or the cooldown is over. So
   a pass that fails after an edit, and whose failure is recorded, spends it.
   */
  lemma EditIsSpentByAnyWrite(pub: Pub, w: Write, at: int, next: Pub, d: Decision, now: real)
    requires next.status == Merge(pub.status, PatchFor(pub, w, at))
    ensures AfterGate(next, d, now).Stamping? <==>
            next.generation != pub.generation || CooldownRemaining(next.status, now).None?
  {
  }

  // -- What a failure announces ---------------------------------------------------------------

  /** What a step tells of the pass's failing. */
  predicate FailsAlong(s: State, t: State) {
    !s.pc.Idle? && !t.pc.Idle? ==>
      && t.retryDelay == s.retryDelay
      && (s.pc.Failing? ==> t.pc == s.pc)
      && (!s.pc.Failing? && t.pc.Failing? ==> t.pc.at == s.world.now.Floor)
  }

  lemma StepFailsAlong(s: State, a: Action, t: State)
    requires t == Step(s, a)
    ensures FailsAlong(s, t)
  {
  }

  /** Once it has failed, a pass waits to record the instant of that, and meanwhile keeps its backoff. */
  lemma {:induction false} FailureWaits(states: seq<State>, p: nat, m: nat)
    requires p <= m < |states| && forall k | p <= k <= m :: !states[k].pc.Idle?
    requires forall k, next | p <= k < next <= m && next == k + 1 :: FailsAlong(states[k], states[next])
    ensures states[m].retryDelay == states[p].retryDelay
    ensures states[p].pc.Failing? ==> states[m].pc == states[p].pc
    decreases m
  {
    if p < m {
      FailureWaits(states, p, m - 1);
    }
  }

  lemma FailureIsStored(s: State, a: Action, t: State)
    requires s.pc.Failing? && a.Proceed? && TookEffect(a.outcome) && t == Step(s, a)
    ensures var stored := t.world.stored;
      && stored.phase == Some(Error) && !IsReady(stored) && stored.reason == Some(ReconcileError)
      && stored.nextRetryTime == Some(s.pc.at + s.retryDelay)
  {
    WrittenConditions(s.pc.pub.status, Some(s.pc.pub.generation), FailWrite(s.pc.at + s.retryDelay), s.pc.at);
  }

  lemma ReadTakesBackoff(s: State, a: Action, t: State)
    requires s.pc.Idle? && a.Proceed? && t == Step(s, a) && !t.pc.Idle?
    ensures t.retryDelay == a.retryIn
  {
  }

  /**
   In the states a run goes through: action `p` reads the publication, with a
   backoff in store for the pass, action `n` of that pass raises, and action `m`
   records it. The publication is then in Error and not Ready, and announces
   the second of the failure plus that backoff.
   */
  lemma FailureNamesItsRetry(states: seq<State>, actions: seq<Action>, p: nat, n: nat, m: nat)
    requires GoesThrough(states, actions) && p < n < m < |actions|
    requires states[p].pc.Idle? && actions[p].Proceed? && forall k | p < k <= m :: !states[k].pc.Idle?
    requires !states[n].pc.Failing? && states[n + 1].pc.Failing?
    requires actions[m].Proceed? && TookEffect(actions[m].outcome)
    ensures var stored := states[m + 1].world.stored;
      && stored.phase == Some(Error) && !IsReady(stored) && stored.reason == Some(ReconcileError)
      && stored.nextRetryTime == Some(states[n].world.now.Floor + actions[p].retryIn)
  {
    forall k, next | p <= k < next <= m && next == k + 1 ensures FailsAlong(states[k], states[next]) {
      assert states[k + 1] == Step(states[k], actions[k]);
      StepFailsAlong(states[k], actions[k], states[next]);
    }
    assert states[p + 1] == Step(states[p], actions[p]);
    ReadTakesBackoff(states[p], actions[p], states[p + 1]);
    FailureWaits(states, p + 1, m);
    FailureWaits(states, n + 1, m);
    assert states[m + 1] == Step(states[m], actions[m]);
    FailureIsStored(states[m], actions[m], states[m + 1]);
  }

  // -- Quiescence ---------------------------------------------------------------------------

  /** The publication names this certificate as published, nothing is pending, and the host serves it, in date and not due. */
  predicate Settled(w: World, cert: Certificate) {
    && w.served == Some(Leaf(cert))
    && PublishedOf(w.stored) == Some(cert.fingerprint)
    && PendingOf(w.stored).None?
    && Satisfied(w.spec, cert, w.now)
  }

  predicate Satisfied(spec: Spec, cert: Certificate, now: real) {
    && RenewBeforeProblem(Some(Leaf(cert)), spec).None?
    && Names(spec) - cert.dnsNames == {}
    && RenewalDue(cert, RenewBefore(spec), now) == Success(false)
  }

  /** The pass in hand, if any, is one that will find nothing to do. */
  predicate NothingToDo(s: State, cert: Certificate) {
    match s.pc
    case Idle | Failing(_, _) => true
    case Building(pub) =>
      pub.spec == s.world.spec && PublishedOf(pub.status) == Some(cert.fingerprint) && PendingOf(pub.status).None?
    case Inspecting(pub) => pub.spec == s.world.spec && PublishedOf(pub.status) == Some(cert.fingerprint)
    case Reporting(_, write, _, _) => write == UpToDateWrite(cert.fingerprint)
    case _ => false
  }

  predicate Quiet(s: State, cert: Certificate) {
    Settled(s.world, cert) && NothingToDo(s, cert)
  }

  /** Anything may fail or die, but the host's answers are readable, nobody interferes, and the window has not opened. */
  predicate Undisturbed(a: Action, spec: Spec, cert: Certificate) {
    match a
    case Proceed(o, _, _) => !o.Blank?
    case Tick(to) => RenewalDue(cert, RenewBefore(spec), to) == Success(false)
    case ClearSigning => true
    case _ => false
  }

  /** Everything but the clock and the stored status. */
  predicate OnlyStatusMoved(before: World, after: World) {
    after == before.(now := after.now, stored := after.stored)
  }

  /** What a step leaves quiet: everything but the clock and the stored status. */
  ghost predicate StaysQuiet(s: State, t: State, cert: Certificate) {
    Quiet(t, cert) && OnlyStatusMoved(s.world, t.world) && t.rounds == s.rounds
  }

  lemma QuietDecision(s: State, o: Outcome, cert: Certificate)
    requires Quiet(s, cert) && !o.Blank? && (s.pc.Idle? || s.pc.Building? || s.pc.Inspecting?)
    ensures StaysQuiet(s, Deciding(s, o), cert)
  {
    NotDueIsInDate(cert, RenewBefore(s.world.spec), s.world.now);
  }

  lemma QuietReport(s: State, o: Outcome, cert: Certificate)
    requires Quiet(s, cert) && (s.pc.Reporting? || s.pc.Failing?)
    ensures StaysQuiet(s, Closing(s, o), cert)
  {
  }

  lemma QuietMove(s: State, a: Action, cert: Certificate)
    requires Quiet(s, cert) && !a.Proceed? && Undisturbed(a, s.world.spec, cert)
    ensures StaysQuiet(s, Move(s, a), cert)
  {
  }

  lemma QuietStep(s: State, a: Action, cert: Certificate)
    requires Quiet(s, cert) && Undisturbed(a, s.world.spec, cert)
    ensures StaysQuiet(s, Step(s, a), cert)
  {
    if !a.Proceed? {
      QuietMove(s, a, cert);
    } else if !a.outcome.Died? {
      match s.pc {
        case Idle => QuietDecision(s.(retryDelay := a.retryIn), a.outcome, cert);
        case Building(_) | Inspecting(_) => QuietDecision(s, a.outcome, cert);
        case Reporting(_, _, _, _) | Failing(_, _) => QuietReport(s, a.outcome, cert);
      }
    }
  }

  lemma NotDueIsInDate(cert: Certificate, renewBefore: Option<string>, now: real)
    requires RenewalDue(cert, renewBefore, now) == Success(false)
    ensures InDate(cert, now)
  {
  }

  /** A settled publication stays settled, and only its status is written, for as long as the window stays closed. */
  lemma {:induction false} SettledStaysQuiet(s: State, actions: seq<Action>, cert: Certificate)
    requires Quiet(s, cert)
    requires forall a | a in actions :: Undisturbed(a, s.world.spec, cert)
    ensures StaysQuiet(s, Run(s, actions), cert)
  {
    if actions != [] {
      var before := actions[..|actions| - 1];
      SettledStaysQuiet(s, before, cert);
      QuietStep(Run(s, before), actions[|actions| - 1], cert);
    }
  }
}
