/**
 Readiness through renewal: a publication that is Pending and Ready is one whose
 host was found serving a good certificate when the last round was opened, and
 that has not failed since.
 */
module SigningReadiness {
  import opened Wrappers
  import opened Status
  import opened Renewal
  import opened SigningProtocol
  import opened SigningCopies
  import opened SigningKeys

  /** The decision a round was opened on is the one its pass's copy and the host's certificate call for. */
  predicate Decided(pub: Pub, d: Decision) {
    ReasonToRenew(d.installed, pub.spec, pub.status, d.decidedAt) == Success(Some(d.reason))
  }

  predicate RoundsDecided(log: seq<Event>) {
    forall k | 0 <= k < |log| && log[k].RoundOpened? :: Decided(log[k].pub, log[k].decision)
  }

  /** The last round in the log was opened for a routine renewal, and no Error has been stored since. */
  ghost predicate LastRoundRoutine(log: seq<Event>) {
    exists i :: 0 <= i < |log| && log[i].RoundOpened? && log[i].decision.reason == RoutineRenewal
                && forall k | i < k < |log| :: !log[k].RoundOpened? && !log[k].ErrorStored?
  }

  /** The phase and the readiness that are stored belong together. */
  ghost predicate PhaseTellsReadiness(status: Status, log: seq<Event>) {
    match status.phase
    case None => !IsReady(status) && !LastRoundRoutine(log)
    case Some(Published) => IsReady(status) && PendingOf(status).None?
    case Some(Error) => !IsReady(status) && !LastRoundRoutine(log)
    case Some(Pending) => IsReady(status) <==> LastRoundRoutine(log)
  }

  /** What a write about to be made would make of them. */
  ghost predicate WriteTells(write: Write, status: Status, log: seq<Event>) {
    match write.phase
    case Published => ReadyWritten(write) && (write.pendingRequest.Null? || PendingOf(status).None?)
    case Error => !ReadyWritten(write)
    case Pending => ReadyWritten(write) <==> LastRoundRoutine(log)
  }

  ghost predicate StageTells(s: State) {
    match s.pc
    case Gating(pub, d) => Decided(pub, d)
    case Stamping(pub, d, _) => Decided(pub, d)
    case Rotating(_, d, _) => d.reason == RoutineRenewal <==> LastRoundRoutine(s.log)
    case Recording(_, d, _, _, _) => d.reason == RoutineRenewal <==> LastRoundRoutine(s.log)
    case Reporting(_, write, _, _) =>
      WriteTells(write, s.world.stored, s.log) && (write.pendingRequest.Keep? || write.pendingRequest.Null?)
    case _ => true
  }

  ghost predicate ReadinessSafety(s: State) {
    RoundsDecided(s.log) && PhaseTellsReadiness(s.world.stored, s.log) && StageTells(s)
  }

  // -- Steps ---------------------------------------------------------------------------------------

  /** Only opening a round and storing an Error bear on what the last round was. */
  lemma RoutineSnoc(log: seq<Event>, e: Event)
    ensures !e.RoundOpened? && !e.ErrorStored? ==> (LastRoundRoutine(log) <==> LastRoundRoutine(log + [e]))
    ensures e.RoundOpened? ==> (e.decision.reason == RoutineRenewal <==> LastRoundRoutine(log + [e]))
    ensures e.ErrorStored? ==> !LastRoundRoutine(log + [e])
  {
    var longer := log + [e];
    if !e.RoundOpened? && !e.ErrorStored? && LastRoundRoutine(log) {
      var i :| 0 <= i < |log| && log[i].RoundOpened? && log[i].decision.reason == RoutineRenewal
               && forall k | i < k < |log| :: !log[k].RoundOpened? && !log[k].ErrorStored?;
      assert longer[i] == log[i];
    }
    if LastRoundRoutine(longer) {
      var i :| 0 <= i < |longer| && longer[i].RoundOpened? && longer[i].decision.reason == RoutineRenewal
               && forall k | i < k < |longer| :: !longer[k].RoundOpened? && !longer[k].ErrorStored?;
      assert longer[|log|] == e;
      if i < |log| {
        assert log[i] == longer[i];
        assert forall k | i < k < |log| :: log[k] == longer[k];
      }
    }
    if e.RoundOpened? && e.decision.reason == RoutineRenewal {
      assert longer[|log|] == e;
    }
  }

  /** A person clearing the stamp does not touch what readiness is read from. */
  lemma ReadyIgnoresStamp(status: Status, stamp: Option<int>)
    ensures IsReady(status.(lastSigningTime := stamp)) == IsReady(status)
  {
    assert ConditionsOf(status.(lastSigningTime := stamp)) == ConditionsOf(status);
  }

  lemma DecidingKeepsReadiness(s: State, o: Outcome)
    requires CopyIsCurrent(s) && KeySafety(s) && ReadinessSafety(s)
    requires s.pc.Idle? || s.pc.Building? || s.pc.Inspecting? || s.pc.Gating?
    ensures ReadinessSafety(Deciding(s, o))
  {
    RoutineSnoc(s.log, PublicationRead);
    RoutineSnoc(s.log, HostUnreadable);
  }

  lemma StampingKeepsReadiness(s: State, o: Outcome, d: string)
    requires ReadinessSafety(s) && s.pc.Stamping?
    ensures ReadinessSafety(Opening(s, o, d))
  {
    RoutineSnoc(s.log, RoundOpened(s.pc.pub, s.pc.decision));
    OpeningWriteTells(s.world.stored, s.pc.pub, OpenWrite(s.pc.decision), s.pc.at);
  }

  lemma RecordingKeepsReadiness(s: State, o: Outcome, d: string)
    requires ReadinessSafety(s) && s.pc.Recording?
    ensures ReadinessSafety(Opening(s, o, d))
  {
    OpeningWriteTells(s.world.stored, s.pc.pub, RecordWrite(s.pc.decision, s.pc.request), s.pc.at);
  }

  lemma OpeningKeepsReadiness(s: State, o: Outcome, d: string)
    requires ReadinessSafety(s)
    requires s.pc.Stamping? || s.pc.Rotating? || s.pc.Recording? || s.pc.Creating?
    ensures ReadinessSafety(Opening(s, o, d))
  {
    match s.pc {
      case Stamping(_, _, _) => StampingKeepsReadiness(s, o, d);
      case Recording(_, _, _, _, _) => RecordingKeepsReadiness(s, o, d);
      case _ =>
    }
  }

  /** The readiness a patch stores is the one its write gave, whatever it is merged into. */
  lemma OpeningWriteTells(stored: Status, pub: Pub, w: Write, at: int)
    ensures var after := Merge(stored, PatchFor(pub, w, at));
            after.phase == Some(w.phase) && (IsReady(after) <==> ReadyWritten(w))
  {
    WrittenConditions(pub.status, Some(pub.generation), w, at);
    assert ConditionsOf(Merge(stored, PatchFor(pub, w, at))) == ConditionsOf(Written(pub.status, Some(pub.generation), w, at));
  }

  /** While a request is recorded, the copy is Ready exactly when the last round was routine and nothing has failed since. */
  lemma ReadyCopyIsRoutine(s: State)
    requires CopyIsCurrent(s) && ReadinessSafety(s) && !s.pc.Idle? && !s.pc.Failing?
    requires PendingOf(s.pc.pub.status).Some?
    ensures IsReady(s.pc.pub.status) <==> LastRoundRoutine(s.log)
  {
    ReadyIgnoresStamp(s.pc.pub.status, None);
  }

  lemma FetchingKeepsReadiness(s: State, o: Outcome)
    requires CopyIsCurrent(s) && KeySafety(s) && ReadinessSafety(s) && s.pc.Fetching?
    ensures ReadinessSafety(Resolving(s, o))
  {
    ReadyCopyIsRoutine(s);
  }

  lemma DeletingKeepsReadiness(s: State, o: Outcome)
    requires CopyIsCurrent(s) && KeySafety(s) && ReadinessSafety(s) && s.pc.Deleting?
    ensures ReadinessSafety(Resolving(s, o))
  {
    ReadyCopyIsRoutine(s);
    RoutineSnoc(s.log, RequestDeleted(s.pc.request, s.pc.verdict));
    DeletedWriteTells(s.pc.pub, s.pc.verdict, s.world.now, s.world.stored, Resolving(s, o).log);
  }

  /** What follows a deletion claims readiness only where the copy had it. */
  lemma DeletedWriteTells(pub: Pub, verdict: Verdict, now: real, stored: Status, log: seq<Event>)
    requires IsReady(pub.status) <==> LastRoundRoutine(log)
    ensures var pc := AfterDelete(pub, verdict, now);
            pc.Reporting? && pc.write.pendingRequest.Null? && WriteTells(pc.write, stored, log)
  {
  }

  lemma ImportingKeepsReadiness(s: State, o: Outcome)
    requires ReadinessSafety(s) && (s.pc.Checking? || s.pc.Importing?)
    ensures ReadinessSafety(Resolving(s, o))
  {
    var called := ImportCalled(s.pc.cert, s.world.hostKey);
    RoutineSnoc(s.log, HostUnreadable);
    RoutineSnoc(s.log, called);
    RoutineSnoc(s.log + [called], ImportApplied(s.pc.cert));
  }

  /** A best-effort write that landed tells what it gave. */
  lemma ReportedKeepsReadiness(s: State, pub: Pub, write: Write, at: int)
    requires ReadinessSafety(s) && WriteTells(write, s.world.stored, s.log)
    requires write.pendingRequest.Keep? || write.pendingRequest.Null?
    ensures ReadinessSafety(Reported(s, pub, write, at).(pc := Idle))
  {
    OpeningWriteTells(s.world.stored, pub, write, at);
    RoutineSnoc(s.log, ErrorStored);
  }

  lemma ClosingKeepsReadiness(s: State, o: Outcome)
    requires ReadinessSafety(s) && (s.pc.Reporting? || s.pc.Failing?)
    ensures ReadinessSafety(Closing(s, o))
  {
    match s.pc {
      case Reporting(pub, write, at, _) => ReportedKeepsReadiness(s, pub, write, at);
      case Failing(pub, at) => ReportedKeepsReadiness(s, pub, FailWrite(at + s.retryDelay), at);
    }
  }

  lemma MovingKeepsReadiness(s: State, a: Action)
    requires ReadinessSafety(s) && !a.Proceed?
    ensures ReadinessSafety(Move(s, a))
  {
    var e := if a.EditSpec? then SpecEdited else if a.ClearSigning? then SigningCleared
             else if a.ReplaceHostCertificate? then HostReplaced(a.served) else PublicationRead;
    RoutineSnoc(s.log, e);
    ReadyIgnoresStamp(s.world.stored, None);
  }
}
