/**
 The history a run keeps is the one it had: nothing that bears on the promises
 happens without an event of its own, and no event is logged that did not happen.
 */
module SigningLog {
  import opened Wrappers
  import opened Status
  import opened Renewal
  import opened SigningProtocol
  import opened SigningReports

  // -- What happened is logged ---------------------------------------------------------------------------

  /** The host's key and its certificate change only with a round, an import or a replacement that is logged. */
  ghost predicate HostIsLogged(s: State, t: State, added: seq<Event>) {
    && (t.world.hostKey != s.world.hostKey ==> s.pc.Rotating? && t.rounds == s.rounds + [Round(s.readAt, s.pc.stamp)])
    && (t.world.served != s.world.served ==>
          || HostReplaced(t.world.served) in added
          || (s.pc.Importing? && ImportCalled(s.pc.cert, s.world.hostKey) in added && ImportApplied(s.pc.cert) in added))
  }

  /** A request goes only by itself or by a deletion that is logged. */
  ghost predicate RequestsAreLogged(s: State, a: Action, t: State, added: seq<Event>) {
    forall name | name in s.world.requests && name !in t.world.requests ::
      a == Vanish(name) || (s.pc.Deleting? && RequestDeleted(name, s.pc.verdict) in added)
  }

  /** So do an Error that is stored, a stamp that is set or cleared, an edit, and a read. */
  ghost predicate StatusIsLogged(s: State, a: Action, t: State, added: seq<Event>) {
    && (a.Proceed? && t.world.stored != s.world.stored && t.world.stored.phase == Some(Error) ==> ErrorStored in added)
    && (t.world.stored.lastSigningTime != s.world.stored.lastSigningTime ==>
          if t.world.stored.lastSigningTime.None? then SigningCleared in added
          else s.pc.Stamping? && RoundOpened(s.pc.pub, s.pc.decision) in added)
    && (t.world.spec != s.world.spec || t.world.generation != s.world.generation ==> SpecEdited in added)
    && (s.pc.Idle? && !t.pc.Idle? ==> added == [PublicationRead] && t.readAt == |s.log|)
  }

  // -- What is logged happened -----------------------------------------------------------------------------

  ghost predicate Happened(s: State, a: Action, t: State, e: Event) {
    match e
    case PublicationRead => s.pc.Idle? && t.pc.Building?
    case SpecEdited => a.EditSpec? && t.world.spec == a.spec && t.world.generation == s.world.generation + 1
    case SigningCleared => a.ClearSigning? && t.world.stored.lastSigningTime.None?
    case HostReplaced(served) => a == ReplaceHostCertificate(served) && t.world.served == served
    case HostUnreadable => a.Proceed? && (s.pc.Inspecting? || s.pc.Checking?) && !a.outcome.Done?
    case RoundOpened(pub, d) =>
      && s.pc.Stamping? && s.pc.pub == pub && s.pc.decision == d
      && t.world.stored.lastSigningTime == Some(s.pc.at) && t.world.stored.phase == Some(Pending)
    case ErrorStored => t.world.stored.phase == Some(Error)
    case RequestDeleted(name, verdict) =>
      && s.pc.Deleting? && s.pc.request == name && s.pc.verdict == verdict && name !in t.world.requests
    case ImportCalled(cert, key) => s.pc.Importing? && s.pc.cert == cert && key == s.world.hostKey
    case ImportApplied(cert) => s.pc.Importing? && s.pc.cert == cert && t.world.served == Some(Leaf(cert))
  }

  /** A step adds these events, has one for everything it changed, and made each of them happen. */
  ghost predicate TellsTruly(s: State, a: Action, t: State, added: seq<Event>) {
    && t.log == s.log + added
    && HostIsLogged(s, t, added) && RequestsAreLogged(s, a, t, added) && StatusIsLogged(s, a, t, added)
    && forall e | e in added :: Happened(s, a, t, e)
  }

  lemma ReadingTells(s: State, a: Action, t: State) returns (added: seq<Event>)
    requires s.pc.Idle? && a.Proceed? && t == Deciding(s.(retryDelay := a.retryIn), a.outcome)
    ensures TellsTruly(s, a, t, added)
  {
    added := if a.outcome.Done? then [PublicationRead] else [];
  }

  lemma DecidingTells(s: State, a: Action, t: State) returns (added: seq<Event>)
    requires (s.pc.Building? || s.pc.Inspecting? || s.pc.Gating?) && a.Proceed? && t == Deciding(s, a.outcome)
    ensures TellsTruly(s, a, t, added)
  {
    added := if s.pc.Inspecting? && !a.outcome.Done? then [HostUnreadable] else [];
  }

  lemma StampingTells(s: State, a: Action, t: State) returns (added: seq<Event>)
    requires s.pc.Stamping? && a.Proceed? && t == Opening(s, a.outcome, a.csrDigest)
    ensures TellsTruly(s, a, t, added)
  {
    added := if TookEffect(a.outcome) then [RoundOpened(s.pc.pub, s.pc.decision)] else [];
  }

  lemma SubmittingTells(s: State, a: Action, t: State) returns (added: seq<Event>)
    requires s.pc.Rotating? || s.pc.Recording? || s.pc.Creating?
    requires a.Proceed? && t == Opening(s, a.outcome, a.csrDigest)
    ensures TellsTruly(s, a, t, added)
  {
    added := [];
  }

  lemma FetchingTells(s: State, a: Action, t: State) returns (added: seq<Event>)
    requires (s.pc.Fetching? || s.pc.Checking?) && a.Proceed? && t == Resolving(s, a.outcome)
    ensures TellsTruly(s, a, t, added)
  {
    added := if s.pc.Checking? && !a.outcome.Done? then [HostUnreadable] else [];
  }

  lemma DeletingTells(s: State, a: Action, t: State) returns (added: seq<Event>)
    requires s.pc.Deleting? && a.Proceed? && t == Resolving(s, a.outcome)
    ensures TellsTruly(s, a, t, added)
  {
    added := if TookEffect(a.outcome) then [RequestDeleted(s.pc.request, s.pc.verdict)] else [];
  }

  lemma ImportingTells(s: State, a: Action, t: State) returns (added: seq<Event>)
    requires s.pc.Importing? && a.Proceed? && t == Resolving(s, a.outcome)
    ensures TellsTruly(s, a, t, added)
  {
    var called := ImportCalled(s.pc.cert, s.world.hostKey);
    added := if TookEffect(a.outcome) then [called, ImportApplied(s.pc.cert)] else [called];
  }

  lemma ClosingTells(s: State, a: Action, t: State) returns (added: seq<Event>)
    requires (s.pc.Reporting? || s.pc.Failing?) && ReportSafety(s)
    requires a.Proceed? && t == Closing(s, a.outcome)
    ensures TellsTruly(s, a, t, added)
  {
    added := if TookEffect(a.outcome) && (s.pc.Failing? || s.pc.write.phase.Error?) then [ErrorStored] else [];
  }

  lemma MovingTells(s: State, a: Action, t: State) returns (added: seq<Event>)
    requires !a.Proceed? && t == Move(s, a)
    ensures TellsTruly(s, a, t, added)
  {
    match a {
      case EditSpec(_) => added := [SpecEdited];
      case ClearSigning => added := [SigningCleared];
      case ReplaceHostCertificate(served) => added := [HostReplaced(served)];
      case _ => added := [];
    }
  }

  lemma EffectTells(s: State, a: Action, t: State) returns (added: seq<Event>)
    requires !s.pc.Idle? && a.Proceed? && t == Effect(s, a.outcome, a.csrDigest) && ReportSafety(s)
    ensures TellsTruly(s, a, t, added)
  {
    match s.pc {
      case Building(_) | Inspecting(_) | Gating(_, _) => added := DecidingTells(s, a, t);
      case Stamping(_, _, _) => added := StampingTells(s, a, t);
      case Rotating(_, _, _) | Recording(_, _, _, _, _) | Creating(_, _, _) => added := SubmittingTells(s, a, t);
      case Fetching(_, _) | Checking(_, _, _) => added := FetchingTells(s, a, t);
      case Deleting(_, _, _) => added := DeletingTells(s, a, t);
      case Importing(_, _, _) => added := ImportingTells(s, a, t);
      case Reporting(_, _, _, _) | Failing(_, _) => added := ClosingTells(s, a, t);
    }
  }

  lemma DyingTells(s: State, a: Action, t: State)
    requires a.Proceed? && t == s.(pc := Idle)
    ensures TellsTruly(s, a, t, [])
  {
  }

  lemma StepTells(s: State, a: Action, t: State) returns (added: seq<Event>)
    requires t == Step(s, a) && ReportSafety(s)
    ensures TellsTruly(s, a, t, added)
  {
    if !a.Proceed? {
      added := MovingTells(s, a, t);
    } else if a.outcome.Died? {
      DyingTells(s, a, t);
      added := [];
    } else if s.pc.Idle? {
      added := ReadingTells(s, a, t);
    } else {
      added := EffectTells(s, a, t);
    }
  }

  /**
   In every run, each action adds to the history events of which every one happened
   then, and nothing else did: the key, the certificate served, the requests, the
   stamp, an Error stored, the spec and the reads do not change without them.
   */
  lemma HistoryIsTrue(s: State, actions: seq<Action>, a: Action) returns (added: seq<Event>)
    requires Initial(s)
    ensures TellsTruly(Run(s, actions), a, Step(Run(s, actions), a), added)
  {
    RunReports(s, actions);
    added := StepTells(Run(s, actions), a, Step(Run(s, actions), a));
  }
}
