/**
 Imports and the signed material they use: a certificate is imported only by a
 pass that could not read the host or found it without that certificate, and a
 request is deleted as delivered only by a pass in which the host has served its
 certificate.
 */
module SigningImports {
  import opened Wrappers
  import opened Renewal
  import opened SigningProtocol

  // -- What the host serves, from the history ------------------------------------------

  /** What a host that served `first` at the start serves after these events. */
  function ServedAfter(first: Option<Pem>, log: seq<Event>): Option<Pem> {
    if log == [] then first
    else match log[|log| - 1]
      case HostReplaced(served) => served
      case ImportApplied(cert) => Some(Leaf(cert))
      case _ => ServedAfter(first, log[..|log| - 1])
  }

  /** How much of the history lies up to and including the last read of the publication: where the pass in hand begins. */
  function ReadEnd(log: seq<Event>): (n: nat)
    ensures n <= |log|
  {
    if log == [] then 0
    else if log[|log| - 1].PublicationRead? then |log|
    else ReadEnd(log[..|log| - 1])
  }

  /** Whether the host has served this certificate since the last read of the publication. */
  ghost predicate ServedInPass(first: Option<Pem>, log: seq<Event>, fingerprint: string) {
    exists j :: ReadEnd(log) <= j <= |log| && Serves(ServedAfter(first, log[..j]), fingerprint)
  }

  lemma ServedSnoc(first: Option<Pem>, log: seq<Event>, e: Event)
    ensures ServedAfter(first, log + [e]) ==
            match e
            case HostReplaced(served) => served
            case ImportApplied(cert) => Some(Leaf(cert))
            case _ => ServedAfter(first, log)
  {
    assert (log + [e])[..|log|] == log;
  }

  lemma ReadEndSnoc(log: seq<Event>, e: Event)
    ensures ReadEnd(log + [e]) == if e.PublicationRead? then |log| + 1 else ReadEnd(log)
  {
    assert (log + [e])[..|log|] == log;
  }

  lemma ServedInPassGrows(first: Option<Pem>, log: seq<Event>, e: Event, fingerprint: string)
    requires ServedInPass(first, log, fingerprint) && !e.PublicationRead?
    ensures ServedInPass(first, log + [e], fingerprint)
  {
    var j :| ReadEnd(log) <= j <= |log| && Serves(ServedAfter(first, log[..j]), fingerprint);
    ReadEndSnoc(log, e);
    assert (log + [e])[..j] == log[..j];
  }

  lemma ServingIsInPass(first: Option<Pem>, log: seq<Event>, fingerprint: string)
    requires Serves(ServedAfter(first, log), fingerprint)
    ensures ServedInPass(first, log, fingerprint)
  {
    assert log[..|log|] == log;
  }

  // -- Importing at most once ----------------------------------------------------------------

  /** What takes a certificate off the host. */
  predicate Replaces(e: Event, fingerprint: string) {
    e.HostReplaced? || (e.ImportApplied? && e.cert.fingerprint != fingerprint)
  }

  /** An import of this certificate has taken effect and nothing has replaced it since. */
  ghost predicate Held(log: seq<Event>, fingerprint: string) {
    exists i :: 0 <= i < |log| && log[i].ImportApplied? && log[i].cert.fingerprint == fingerprint
                && forall k | i < k < |log| :: !Replaces(log[k], fingerprint)
  }

  /** The host could not be read since the last read of the publication. */
  ghost predicate UnreadableInPass(log: seq<Event>) {
    exists k :: ReadEnd(log) <= k < |log| && log[k].HostUnreadable?
  }

  /** The host has served another certificate, or none, since the last read of the publication. */
  ghost predicate MissingInPass(first: Option<Pem>, log: seq<Event>, fingerprint: string) {
    exists j :: ReadEnd(log) <= j <= |log| && !Serves(ServedAfter(first, log[..j]), fingerprint)
  }

  /** The pass in hand could not read the host, or found it without this certificate, which is not known to be on it. */
  ghost predicate CalledFor(first: Option<Pem>, log: seq<Event>, fingerprint: string) {
    UnreadableInPass(log) || (MissingInPass(first, log, fingerprint) && !Held(log, fingerprint))
  }

  /** Every import was called for. */
  ghost predicate ImportedOnlyWhenCalledFor(first: Option<Pem>, log: seq<Event>) {
    forall k | 0 <= k < |log| && log[k].ImportCalled? ::
      ReadEnd(log[..k]) > 0 && CalledFor(first, log[..k], log[k].cert.fingerprint)
  }

  lemma CalledForSnoc(first: Option<Pem>, log: seq<Event>, e: Event, fingerprint: string)
    requires CalledFor(first, log, fingerprint) && !e.PublicationRead? && !e.ImportApplied?
    ensures CalledFor(first, log + [e], fingerprint)
  {
    ReadEndSnoc(log, e);
    HeldSnoc(log, e, fingerprint);
    if UnreadableInPass(log) {
      var k :| ReadEnd(log) <= k < |log| && log[k].HostUnreadable?;
      assert (log + [e])[k].HostUnreadable?;
    } else {
      var j :| ReadEnd(log) <= j <= |log| && !Serves(ServedAfter(first, log[..j]), fingerprint);
      assert (log + [e])[..j] == log[..j];
    }
  }

  /** A read that fails calls for the import, and so does one that finds another certificate. */
  lemma ReadingCallsFor(first: Option<Pem>, log: seq<Event>, fingerprint: string)
    ensures CalledFor(first, log + [HostUnreadable], fingerprint)
    ensures !Serves(ServedAfter(first, log), fingerprint) && !Held(log, fingerprint) ==> CalledFor(first, log, fingerprint)
  {
    ReadEndSnoc(log, HostUnreadable);
    assert (log + [HostUnreadable])[|log|].HostUnreadable?;
    assert log[..|log|] == log;
  }

  lemma HeldSnoc(log: seq<Event>, e: Event, fingerprint: string)
    ensures Held(log + [e], fingerprint) <==>
            || (e.ImportApplied? && e.cert.fingerprint == fingerprint)
            || (Held(log, fingerprint) && !Replaces(e, fingerprint))
  {
    var longer := log + [e];
    if Held(longer, fingerprint) {
      var i :| 0 <= i < |longer| && longer[i].ImportApplied? && longer[i].cert.fingerprint == fingerprint
               && forall k | i < k < |longer| :: !Replaces(longer[k], fingerprint);
      if i < |log| {
        assert log[i] == longer[i] && forall k | i < k < |log| :: log[k] == longer[k];
        assert !Replaces(longer[|log|], fingerprint);
      }
    }
    if Held(log, fingerprint) && !Replaces(e, fingerprint) {
      var i :| 0 <= i < |log| && log[i].ImportApplied? && log[i].cert.fingerprint == fingerprint
               && forall k | i < k < |log| :: !Replaces(log[k], fingerprint);
      assert longer[i] == log[i] && forall k | i < k < |log| :: longer[k] == log[k];
    }
    if e.ImportApplied? && e.cert.fingerprint == fingerprint {
      assert longer[|log|] == e;
    }
  }

  lemma OnceSnoc(first: Option<Pem>, log: seq<Event>, e: Event)
    requires ImportedOnlyWhenCalledFor(first, log)
    requires e.ImportCalled? ==> ReadEnd(log) > 0 && CalledFor(first, log, e.cert.fingerprint)
    ensures ImportedOnlyWhenCalledFor(first, log + [e])
  {
    var longer := log + [e];
    forall k | 0 <= k < |longer| && longer[k].ImportCalled?
      ensures ReadEnd(longer[..k]) > 0 && CalledFor(first, longer[..k], longer[k].cert.fingerprint)
    {
      assert longer[..k] == log[..k];
      if k == |log| { assert log[..k] == log; }
    }
  }

  // -- Deleting only what was delivered ---------------------------------------------------------

  /** A request was deleted as delivered only by a pass in which the host had served its certificate. */
  ghost predicate DeletedOnlyDelivered(first: Option<Pem>, log: seq<Event>) {
    forall k | 0 <= k < |log| && log[k].RequestDeleted? && log[k].verdict.Delivered? ::
      ReadEnd(log[..k]) > 0 && ServedInPass(first, log[..k], log[k].verdict.fingerprint)
  }

  lemma DeletedSnoc(first: Option<Pem>, log: seq<Event>, e: Event)
    requires DeletedOnlyDelivered(first, log)
    requires e.RequestDeleted? && e.verdict.Delivered? ==>
               ReadEnd(log) > 0 && ServedInPass(first, log, e.verdict.fingerprint)
    ensures DeletedOnlyDelivered(first, log + [e])
  {
    var longer := log + [e];
    forall k | 0 <= k < |longer| && longer[k].RequestDeleted? && longer[k].verdict.Delivered?
      ensures ReadEnd(longer[..k]) > 0 && ServedInPass(first, longer[..k], longer[k].verdict.fingerprint)
    {
      assert longer[..k] == log[..k];
      if k == |log| { assert log[..k] == log; }
    }
  }

  // -- The invariant ----------------------------------------------------------------------------

  /** The log's own account of imports and deletions. */
  ghost predicate LogOfImports(first: Option<Pem>, served: Option<Pem>, log: seq<Event>) {
    && served == ServedAfter(first, log)
    && ImportedOnlyWhenCalledFor(first, log)
    && DeletedOnlyDelivered(first, log)
    && (forall fingerprint | Held(log, fingerprint) :: Serves(served, fingerprint))
  }

  /** What a pass about to import or to delete as delivered knows. */
  ghost predicate StageOfImport(first: Option<Pem>, log: seq<Event>, pc: Pc) {
    && (!pc.Idle? ==> ReadEnd(log) > 0)
    && (pc.Importing? ==> CalledFor(first, log, pc.cert.fingerprint))
    && (pc.Deleting? && pc.verdict.Delivered? ==> ServedInPass(first, log, pc.verdict.fingerprint))
  }

  ghost predicate ImportSafety(first: Option<Pem>, s: State) {
    LogOfImports(first, s.world.served, s.log) && StageOfImport(first, s.log, s.pc)
  }

  /** A stage that makes no claim about imports. */
  predicate Unconcerned(pc: Pc) { !pc.Importing? && !(pc.Deleting? && pc.verdict.Delivered?) }

  /** One more event keeps the account, if an import or a delivery in it was justified. */
  lemma LogOfImportsSnoc(first: Option<Pem>, served: Option<Pem>, log: seq<Event>, e: Event)
    requires LogOfImports(first, served, log)
    requires e.ImportCalled? ==> ReadEnd(log) > 0 && CalledFor(first, log, e.cert.fingerprint)
    requires e.RequestDeleted? && e.verdict.Delivered? ==>
               ReadEnd(log) > 0 && ServedInPass(first, log, e.verdict.fingerprint)
    ensures LogOfImports(first, ServedAfter(first, log + [e]), log + [e])
  {
    ServedSnoc(first, log, e);
    OnceSnoc(first, log, e);
    DeletedSnoc(first, log, e);
    forall fingerprint | Held(log + [e], fingerprint)
      ensures Serves(ServedAfter(first, log + [e]), fingerprint)
    {
      HeldSnoc(log, e, fingerprint);
    }
  }

  /** One more event leaves a stage's claims alone, unless it applies an import or begins a pass. */
  lemma StageSnoc(first: Option<Pem>, log: seq<Event>, pc: Pc, e: Event)
    requires StageOfImport(first, log, pc) && !e.ImportApplied? && (e.PublicationRead? ==> pc.Idle?)
    ensures StageOfImport(first, log + [e], pc)
  {
    ReadEndSnoc(log, e);
    if pc.Importing? { CalledForSnoc(first, log, e, pc.cert.fingerprint); }
    if pc.Deleting? && pc.verdict.Delivered? { ServedInPassGrows(first, log, e, pc.verdict.fingerprint); }
  }

  /** What an event makes of the host's certificate. */
  function ServedBy(e: Event, served: Option<Pem>): Option<Pem> {
    match e
    case HostReplaced(now) => now
    case ImportApplied(cert) => Some(Leaf(cert))
    case _ => served
  }

  /** A step that records one event, and goes on to a stage that claims nothing new. */
  lemma OneEventKeepsImports(first: Option<Pem>, s: State, t: State, e: Event)
    requires ImportSafety(first, s) && t.log == s.log + [e] && t.world.served == ServedBy(e, s.world.served)
    requires !e.ImportApplied? && (e.PublicationRead? ==> s.pc.Idle?)
    requires e.ImportCalled? ==> !s.pc.Idle? && CalledFor(first, s.log, e.cert.fingerprint)
    requires e.RequestDeleted? && e.verdict.Delivered? ==>
               !s.pc.Idle? && ServedInPass(first, s.log, e.verdict.fingerprint)
    requires t.pc == s.pc || (Unconcerned(t.pc) && (s.pc.Idle? && !t.pc.Idle? ==> e.PublicationRead?))
    ensures ImportSafety(first, t)
  {
    LogOfImportsSnoc(first, s.world.served, s.log, e);
    ServedSnoc(first, s.log, e);
    ReadEndSnoc(s.log, e);
    if t.pc == s.pc { StageSnoc(first, s.log, s.pc, e); }
  }

  /** A step that records nothing, and goes on to a stage that claims nothing new. */
  lemma NoEventKeepsImports(first: Option<Pem>, s: State, t: State)
    requires ImportSafety(first, s) && t.log == s.log && t.world.served == s.world.served
    requires t.pc == s.pc || t.pc.Idle? || (Unconcerned(t.pc) && !s.pc.Idle?)
    ensures ImportSafety(first, t)
  {
  }

  // -- Steps ------------------------------------------------------------------------------------------

  lemma DecidingKeepsImports(first: Option<Pem>, s: State, o: Outcome)
    requires ImportSafety(first, s) && (s.pc.Idle? || s.pc.Building? || s.pc.Inspecting? || s.pc.Gating?)
    ensures ImportSafety(first, Deciding(s, o))
  {
    var t := Deciding(s, o);
    if s.pc.Idle? && o.Done? {
      OneEventKeepsImports(first, s, t, PublicationRead);
    } else if s.pc.Inspecting? && !o.Done? {
      OneEventKeepsImports(first, s, t, HostUnreadable);
    } else {
      NoEventKeepsImports(first, s, t);
    }
  }

  lemma OpeningKeepsImports(first: Option<Pem>, s: State, o: Outcome, d: string)
    requires ImportSafety(first, s) && (s.pc.Stamping? || s.pc.Rotating? || s.pc.Recording? || s.pc.Creating?)
    ensures ImportSafety(first, Opening(s, o, d))
  {
    var t := Opening(s, o, d);
    if s.pc.Stamping? && TookEffect(o) {
      OneEventKeepsImports(first, s, t, RoundOpened(s.pc.pub, s.pc.decision));
    } else {
      NoEventKeepsImports(first, s, t);
    }
  }

  lemma FetchingKeepsImports(first: Option<Pem>, s: State, o: Outcome)
    requires ImportSafety(first, s) && s.pc.Fetching?
    ensures ImportSafety(first, Resolving(s, o))
  {
    NoEventKeepsImports(first, s, Resolving(s, o));
  }

  lemma DeletingKeepsImports(first: Option<Pem>, s: State, o: Outcome)
    requires ImportSafety(first, s) && s.pc.Deleting?
    ensures ImportSafety(first, Resolving(s, o))
  {
    var t := Resolving(s, o);
    if TookEffect(o) {
      OneEventKeepsImports(first, s, t, RequestDeleted(s.pc.request, s.pc.verdict));
    } else {
      NoEventKeepsImports(first, s, t);
    }
  }

  lemma CheckingKeepsImports(first: Option<Pem>, s: State, o: Outcome)
    requires ImportSafety(first, s) && s.pc.Checking?
    ensures ImportSafety(first, Resolving(s, o))
  {
    if !o.Done? {
      LogOfImportsSnoc(first, s.world.served, s.log, HostUnreadable);
      ServedSnoc(first, s.log, HostUnreadable);
      ReadingCallsFor(first, s.log, s.pc.cert.fingerprint);
      ReadEndSnoc(s.log, HostUnreadable);
    } else if Serves(s.world.served, s.pc.cert.fingerprint) {
      ServingIsInPass(first, s.log, s.pc.cert.fingerprint);
    } else {
      ReadingCallsFor(first, s.log, s.pc.cert.fingerprint);
    }
  }

  /** An import that takes effect: the host serves the certificate from here on. */
  lemma ApplyingKeepsImports(first: Option<Pem>, s: State, t: State, cert: Certificate)
    requires ImportSafety(first, s) && !s.pc.Idle?
    requires t.log == s.log + [ImportApplied(cert)] && t.world.served == Some(Leaf(cert))
    requires Unconcerned(t.pc) || (t.pc.Deleting? && t.pc.verdict == Delivered(cert.fingerprint))
    ensures ImportSafety(first, t)
  {
    LogOfImportsSnoc(first, s.world.served, s.log, ImportApplied(cert));
    ServedSnoc(first, s.log, ImportApplied(cert));
    ReadEndSnoc(s.log, ImportApplied(cert));
    ServingIsInPass(first, t.log, cert.fingerprint);
  }

  lemma ImportingKeepsImports(first: Option<Pem>, s: State, o: Outcome)
    requires ImportSafety(first, s) && s.pc.Importing?
    ensures ImportSafety(first, Resolving(s, o))
  {
    var t, call := Resolving(s, o), ImportCalled(s.pc.cert, s.world.hostKey);
    if TookEffect(o) {
      var called := s.(log := s.log + [call]);
      OneEventKeepsImports(first, s, called, call);
      ApplyingKeepsImports(first, called, t, s.pc.cert);
    } else {
      OneEventKeepsImports(first, s, t, call);
    }
  }

  lemma ClosingKeepsImports(first: Option<Pem>, s: State, o: Outcome)
    requires ImportSafety(first, s) && (s.pc.Reporting? || s.pc.Failing?)
    ensures ImportSafety(first, Closing(s, o))
  {
    var t := Closing(s, o);
    if t.log != s.log {
      OneEventKeepsImports(first, s, t, ErrorStored);
    } else {
      NoEventKeepsImports(first, s, t);
    }
  }

  lemma MovingKeepsImports(first: Option<Pem>, s: State, a: Action)
    requires ImportSafety(first, s) && !a.Proceed?
    ensures ImportSafety(first, Move(s, a))
  {
    var t := Move(s, a);
    match a {
      case EditSpec(_) => OneEventKeepsImports(first, s, t, SpecEdited);
      case ClearSigning => OneEventKeepsImports(first, s, t, SigningCleared);
      case ReplaceHostCertificate(served) => OneEventKeepsImports(first, s, t, HostReplaced(served));
      case _ => NoEventKeepsImports(first, s, t);
    }
  }
}
