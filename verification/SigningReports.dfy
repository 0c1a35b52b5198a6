/**
 What a pass answers and what it leaves in the status belong together: every
 reason stands for one way a pass can end, and has its phase, its readiness, its
 requeue and its retry time.
 */
module SigningReports {
  import opened Wrappers
  import opened Status
  import opened Renewal
  import opened SigningProtocol
  import opened SigningCopies
  import opened SigningReadiness
  import opened SigningRuns

  // -- What a report says ----------------------------------------------------------------------------

  /** The event is the deletion of a request for this reason. */
  predicate IsDeletion(e: Event, verdict: Verdict) { e.RequestDeleted? && e.verdict == verdict }

  /** A request was deleted for this since the log was this long. */
  ghost predicate DeletedAs(log: seq<Event>, since: nat, verdict: Verdict) {
    exists k :: since < k < |log| && IsDeletion(log[k], verdict)
  }

  /** The retry time names the moment the requeue asks for, to the second. */
  predicate Announces(retry: Option<int>, at: int, requeue: Option<real>) {
    && retry.Some? && requeue.Some? && requeue.value >= 5.0
    && at as real + requeue.value - 1.0 < retry.value as real < at as real + requeue.value + 1.0
  }

  /** What a report about to be made says goes together, and rests on what the pass has done. */
  ghost predicate ReportTells(s: State)
    requires s.pc.Reporting?
  {
    var w, requeue := s.pc.write, s.pc.requeue;
    && !w.markSigning
    && match w.reason
       case None =>
         && w.phase == Published && w.ready.None? && requeue.None? && w.nextRetry.None? && w.publishedFingerprint.Some?
         && (w.markPublished <==> w.pendingRequest == Null)
         && (w.markPublished ==> DeletedAs(s.log, s.readAt, Delivered(w.publishedFingerprint.value)))
       case Some(Misconfigured) => Fails(w, Keep) && requeue.None? && w.nextRetry.None?
       case Some(SigningCooldown) => Fails(w, Keep) && Announces(w.nextRetry, s.pc.at, requeue)
       case Some(SigningRequestPending) =>
         && w.phase == Pending && w.pendingRequest == Keep && requeue == Some(120.0) && w.nextRetry.None?
         && PendingOf(s.pc.pub.status).Some?
       case Some(SigningRequestFailed) =>
         w.phase == Pending && w.pendingRequest == Null && Announces(w.nextRetry, s.pc.at, requeue)
       case Some(SigningRequestNotSigned) =>
         && Fails(w, Null) && requeue == Some(5.0) && Announces(w.nextRetry, s.pc.at, requeue)
         && DeletedAs(s.log, s.readAt, TimedOut)
       case Some(UnusableCertificate) =>
         && Fails(w, Null) && Announces(w.nextRetry, s.pc.at, requeue) && DeletedAs(s.log, s.readAt, NotUsable)
       case Some(_) => false
  }

  predicate Fails(w: Write, pending: Update<string>) {
    w.phase == Error && w.ready.None? && w.pendingRequest == pending
  }

  ghost predicate ReportSafety(s: State) {
    match s.pc
    case Reporting(_, _, _, _) => ReportTells(s)
    case Fetching(pub, request) => PendingOf(pub.status) == Some(request)
    case Recording(_, _, request, _, _) => request != ""
    case Creating(pub, request, _) =>
      && request != ""
      && pub.status.phase == Some(Pending) && pub.status.reason == Some(SigningRequestPending)
      && pub.status.pendingRequestName == Some(request) && pub.status.nextRetryTime.None?
    case _ => true
  }

  // -- Steps -----------------------------------------------------------------------------------------------

  lemma DeletedLater(log: seq<Event>, longer: seq<Event>, since: nat, verdict: Verdict)
    requires DeletedAs(log, since, verdict) && log <= longer
    ensures DeletedAs(longer, since, verdict)
  {
    var k :| since < k < |log| && IsDeletion(log[k], verdict);
    assert IsDeletion(longer[k], verdict);
  }

  lemma FloorAnnounces(now: real, delay: real)
    requires delay >= 5.0
    ensures Announces(Some((now + delay).Floor), now.Floor, Some(delay))
  {
  }

  lemma DecidingReports(s: State, o: Outcome, t: State)
    requires (s.pc.Building? || s.pc.Inspecting? || s.pc.Gating?) && t == Deciding(s, o)
    ensures ReportSafety(t)
  {
    if s.pc.Gating? && CooldownRemaining(s.pc.pub.status, s.world.now).Some? {
      FloorAnnounces(s.world.now, RestartDelay(s.pc.pub.status, s.world.now));
    }
  }

  lemma OpeningReports(s: State, o: Outcome, d: string, t: State)
    requires (s.pc.Stamping? || s.pc.Rotating? || s.pc.Recording? || s.pc.Creating?) && t == Opening(s, o, d)
    requires ReportSafety(s)
    ensures ReportSafety(t)
  {
  }

  lemma FetchingReports(s: State, o: Outcome, t: State)
    requires s.pc.Fetching? && t == Resolving(s, o) && ReportSafety(s)
    ensures ReportSafety(t)
  {
    FloorAnnounces(s.world.now, RestartDelay(s.pc.pub.status, s.world.now));
  }

  lemma RestartingReports(u: State, pub: Pub)
    requires u.pc == Restarting(pub, u.world.now)
    ensures ReportSafety(u)
  {
    FloorAnnounces(u.world.now, RestartDelay(pub.status, u.world.now));
  }

  lemma TimedOutReports(u: State, pub: Pub)
    requires DeletedAs(u.log, u.readAt, TimedOut) && u.pc == AfterDelete(pub, TimedOut, u.world.now)
    ensures ReportSafety(u)
  {
    FloorAnnounces(u.world.now, 5.0);
  }

  lemma NotUsableReports(u: State, pub: Pub)
    requires DeletedAs(u.log, u.readAt, NotUsable) && u.pc == AfterDelete(pub, NotUsable, u.world.now)
    ensures ReportSafety(u)
  {
    FloorAnnounces(u.world.now, RestartDelay(pub.status, u.world.now));
  }

  lemma DeliveredReports(u: State, pub: Pub, fingerprint: string)
    requires DeletedAs(u.log, u.readAt, Delivered(fingerprint)) && u.pc == AfterDelete(pub, Delivered(fingerprint), u.world.now)
    ensures ReportSafety(u)
  {
  }

  /** What follows a deletion that the log has. */
  lemma DeletedReports(u: State, pub: Pub, verdict: Verdict)
    requires DeletedAs(u.log, u.readAt, verdict) && u.pc == AfterDelete(pub, verdict, u.world.now)
    ensures ReportSafety(u)
  {
    match verdict {
      case Refused => RestartingReports(u, pub);
      case TimedOut => TimedOutReports(u, pub);
      case NotUsable => NotUsableReports(u, pub);
      case Delivered(fingerprint) => DeliveredReports(u, pub, fingerprint);
    }
  }

  lemma DeletingReports(s: State, o: Outcome, t: State)
    requires s.pc.Deleting? && t == Resolving(s, o) && s.readAt < |s.log|
    ensures ReportSafety(t)
  {
    if o.Done? {
      assert IsDeletion(t.log[|s.log|], s.pc.verdict);
      DeletedReports(t, s.pc.pub, s.pc.verdict);
    }
  }

  lemma InstallingReports(s: State, o: Outcome, t: State)
    requires (s.pc.Checking? || s.pc.Importing?) && t == Resolving(s, o)
    ensures ReportSafety(t)
  {
  }

  lemma MovingReports(s: State, a: Action, t: State)
    requires !a.Proceed? && t == Move(s, a) && ReportSafety(s)
    ensures ReportSafety(t)
  {
    assert s.log <= t.log && t.pc == s.pc && t.readAt == s.readAt;
    if s.pc.Reporting? {
      match s.pc.write.reason {
        case None =>
          if s.pc.write.markPublished {
            DeletedLater(s.log, t.log, s.readAt, Delivered(s.pc.write.publishedFingerprint.value));
          }
        case Some(SigningRequestNotSigned) => DeletedLater(s.log, t.log, s.readAt, TimedOut);
        case Some(UnusableCertificate) => DeletedLater(s.log, t.log, s.readAt, NotUsable);
        case _ =>
      }
    }
  }

  lemma EffectReports(s: State, o: Outcome, d: string, t: State)
    requires !s.pc.Idle? && t == Effect(s, o, d) && ReportSafety(s) && s.readAt < |s.log|
    ensures ReportSafety(t)
  {
    match s.pc {
      case Building(_) | Inspecting(_) | Gating(_, _) => DecidingReports(s, o, t);
      case Stamping(_, _, _) | Rotating(_, _, _) | Recording(_, _, _, _, _) | Creating(_, _, _) => OpeningReports(s, o, d, t);
      case Fetching(_, _) => FetchingReports(s, o, t);
      case Deleting(_, _, _) => DeletingReports(s, o, t);
      case Checking(_, _, _) | Importing(_, _, _) => InstallingReports(s, o, t);
      case Reporting(_, _, _, _) | Failing(_, _) =>
    }
  }

  lemma StepReports(s: State, a: Action, t: State)
    requires t == Step(s, a) && ReportSafety(s) && (!s.pc.Idle? ==> s.readAt < |s.log|)
    ensures ReportSafety(t)
  {
    if !a.Proceed? {
      MovingReports(s, a, t);
    } else if !a.outcome.Died? && !s.pc.Idle? {
      EffectReports(s, a.outcome, a.csrDigest, t);
    }
  }

  lemma {:induction false} RunReports(s: State, actions: seq<Action>)
    requires Initial(s)
    ensures ReportSafety(Run(s, actions))
  {
    if actions != [] {
      var before := actions[..|actions| - 1];
      RunReports(s, before);
      RunsAreSafe(s, before);
      StepReports(Run(s, before), actions[|actions| - 1], Run(s, actions));
    }
  }

  // -- Which reason goes with which phase ------------------------------------------------------------------------

  /** A status nobody has written, or a phase and one of its own reasons. */
  predicate ReasonFits(status: Status) {
    match status.phase
    case None => status.reason.None?
    case Some(Published) => status.reason == Some(CertificatePublished)
    case Some(Pending) => status.reason == Some(SigningRequestPending) || status.reason == Some(SigningRequestFailed)
    case Some(Error) =>
      || status.reason == Some(Misconfigured) || status.reason == Some(SigningCooldown)
      || status.reason == Some(SigningRequestNotSigned) || status.reason == Some(UnusableCertificate)
      || status.reason == Some(ReconcileError)
  }

  lemma OpeningFits(s: State, o: Outcome, d: string, t: State)
    requires (s.pc.Stamping? || s.pc.Rotating? || s.pc.Recording? || s.pc.Creating?) && t == Opening(s, o, d)
    requires ReasonFits(s.world.stored)
    ensures ReasonFits(t.world.stored)
  {
  }

  lemma ClosingFits(s: State, o: Outcome, t: State)
    requires (s.pc.Reporting? || s.pc.Failing?) && t == Closing(s, o) && ReasonFits(s.world.stored) && ReportSafety(s)
    ensures ReasonFits(t.world.stored)
  {
  }

  /** The other effects do not touch the status. */
  lemma StepFits(s: State, a: Action, t: State)
    requires t == Step(s, a) && ReasonFits(s.world.stored) && ReportSafety(s)
    ensures ReasonFits(t.world.stored)
  {
    if a.Proceed? && !a.outcome.Died? && !s.pc.Idle? {
      match s.pc {
        case Stamping(_, _, _) | Rotating(_, _, _) | Recording(_, _, _, _, _) | Creating(_, _, _) =>
          OpeningFits(s, a.outcome, a.csrDigest, t);
        case Reporting(_, _, _, _) | Failing(_, _) => ClosingFits(s, a.outcome, t);
        case _ =>
      }
    }
  }

  /** Over every run, whatever fails or dies, the reason stored is one of those of the phase stored. */
  lemma {:induction false} ReasonsFitPhases(s: State, actions: seq<Action>)
    requires Initial(s)
    ensures ReasonFits(Run(s, actions).world.stored)
  {
    if actions != [] {
      var before := actions[..|actions| - 1];
      ReasonsFitPhases(s, before);
      RunReports(s, before);
      StepFits(Run(s, before), actions[|actions| - 1], Run(s, actions));
    }
  }

  // -- What a pass leaves behind -----------------------------------------------------------------------------

  /** What the stored reason says of the rest of the status, and of when the pass asked to be run again. */
  ghost predicate StatusTells(status: Status, requeue: Option<real>) {
    match status.reason
    case Some(CertificatePublished) =>
      && status.phase == Some(Published) && IsReady(status) && PendingOf(status).None?
      && requeue.None? && status.nextRetryTime.None?
    case Some(Misconfigured) =>
      status.phase == Some(Error) && !IsReady(status) && requeue.None? && status.nextRetryTime.None?
    case Some(SigningRequestPending) =>
      status.phase == Some(Pending) && PendingOf(status).Some? && requeue == Some(120.0) && status.nextRetryTime.None?
    case Some(SigningRequestFailed) =>
      status.phase == Some(Pending) && PendingOf(status).None? && NamesItsRetry(status, requeue)
    case Some(SigningCooldown) =>
      status.phase == Some(Error) && !IsReady(status) && NamesItsRetry(status, requeue)
    case Some(SigningRequestNotSigned) =>
      && status.phase == Some(Error) && !IsReady(status) && PendingOf(status).None?
      && requeue == Some(5.0) && NamesItsRetry(status, requeue)
    case Some(UnusableCertificate) =>
      status.phase == Some(Error) && !IsReady(status) && PendingOf(status).None? && NamesItsRetry(status, requeue)
    case _ => false
  }

  /** The retry time is the moment of the write plus the requeue, to the second. */
  predicate NamesItsRetry(status: Status, requeue: Option<real>) {
    status.lastReconcileTime.Some? && Announces(status.nextRetryTime, status.lastReconcileTime.value, requeue)
  }

  /** A request given up as never signed, or as not usable, has just been deleted for that. */
  ghost predicate ReasonRests(status: Status, log: seq<Event>, since: nat) {
    && (status.reason == Some(SigningRequestNotSigned) ==> DeletedAs(log, since, TimedOut))
    && (status.reason == Some(UnusableCertificate) ==> DeletedAs(log, since, NotUsable))
  }

  lemma ReportedRests(s: State, t: State)
    requires s.pc.Reporting? && ReportTells(s) && t == Closing(s, Done)
    ensures ReasonRests(t.world.stored, t.log, t.readAt)
  {
    if s.pc.write.reason == Some(SigningRequestNotSigned) {
      DeletedLater(s.log, t.log, s.readAt, TimedOut);
    } else if s.pc.write.reason == Some(UnusableCertificate) {
      DeletedLater(s.log, t.log, s.readAt, NotUsable);
    }
  }

  lemma ReportedTells(s: State, t: State)
    requires s.pc.Reporting? && ReportTells(s) && CopyIsCurrent(s) && ReadinessSafety(s) && t == Closing(s, Done)
    ensures StatusTells(t.world.stored, t.requeue)
  {
    OpeningWriteTells(s.world.stored, s.pc.pub, s.pc.write, s.pc.at);
  }

  lemma SubmittedTells(s: State, d: string, t: State)
    requires s.pc.Creating? && ReportSafety(s) && CopyIsCurrent(s) && t == Opening(s, Done, d)
    ensures StatusTells(t.world.stored, t.requeue)
  {
  }

  /** Only a report, a submission or a recorded failure ends a pass whose effect is done. */
  lemma WhatEnds(s: State, d: string, t: State)
    requires !s.pc.Idle? && t == Effect(s, Done, d) && t.pc.Idle?
    ensures s.pc.Reporting? || s.pc.Creating? || s.pc.Failing?
  {
  }

  /**
   Whenever a pass ends without having failed, and its last effect was done and
   answered, the status it leaves gives one of seven reasons, and with it the phase,
   the readiness, whether a request is recorded, and a retry time that is the time
   of the write plus what the pass asked for, to the second. A request said not to
   have been signed, or not to be usable, has been deleted by that pass for that.
   */
  lemma EndingsAreHonest(s: State, actions: seq<Action>, d: string, retryIn: int)
    requires Initial(s) && !Run(s, actions).pc.Idle? && !Run(s, actions).pc.Failing?
    ensures var t := Step(Run(s, actions), Proceed(Done, d, retryIn));
      t.pc.Idle? ==> StatusTells(t.world.stored, t.requeue) && ReasonRests(t.world.stored, t.log, t.readAt)
  {
    var before := Run(s, actions);
    var t := Effect(before, Done, d);
    assert Step(before, Proceed(Done, d, retryIn)) == t;
    RunReports(s, actions);
    RunsAreSafe(s, actions);
    if t.pc.Idle? {
      WhatEnds(before, d, t);
      if before.pc.Reporting? {
        ReportedTells(before, t);
        ReportedRests(before, t);
      } else {
        SubmittedTells(before, d, t);
      }
    }
  }
}
