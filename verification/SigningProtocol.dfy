/**
 The host-keyed signing protocol as a state machine over its effects.

 One reconcile pass is a sequence of effects on the publication's status, the
 host and the cluster, and each of them may take effect, fail, take effect and
 be reported as failed, or be cut off by the death of the process. Between any
 two effects the world moves: time passes, the spec is edited, cert-manager
 answers, a request vanishes. A run is a sequence of such actions; `Step` says
 what each does, and the run's history records what happened in order.
 */
module SigningProtocol {
  import opened Wrappers
  import opened Status
  import opened Renewal
  import CR = CertificateRequests

  /** A live CertificateRequest: the key its CSR was minted from, its creation second, cert-manager's answer. */
  datatype Request = Request(key: nat, created: int, conditions: seq<CR.Condition>, certificate: Option<Pem>)

  /** Everything outside the operator's process, for one publication and its host. */
  datatype World = World(
    name: string, now: real, generation: int, spec: Spec, stored: Status,
    hostKey: nat, served: Option<Pem>, requests: map<string, Request>)

  /** The pass's own copy of the publication. */
  datatype Pub = Pub(generation: int, spec: Spec, status: Status)

  /** Why a certificate is wanted, and what was seen when that was decided. */
  datatype Decision = Decision(reason: RenewalReason, installed: Option<Pem>, decidedAt: real)

  /** Why a request is being deleted. */
  datatype Verdict = Refused | TimedOut | NotUsable | Delivered(fingerprint: string)

  // -- What happened ---------------------------------------------------------------

  datatype Event =
    | PublicationRead
    | SpecEdited
    | SigningCleared
    | HostReplaced(served: Option<Pem>)
    | HostUnreadable
    | RoundOpened(pub: Pub, decision: Decision)
    | ErrorStored
    | RequestDeleted(name: string, verdict: Verdict)
    | ImportCalled(cert: Certificate, hostKey: nat)
    | ImportApplied(cert: Certificate)

  /** A signing round that reached `generate_csr`: where in the log its pass read the publication, and its stamp. */
  datatype Round = Round(readAt: nat, stamp: int)

  // -- Where a pass stands -----------------------------------------------------------

  /** The next effect of the pass, with the locals it needs. */
  datatype Pc =
    | Idle
    | Building(pub: Pub)
    | Inspecting(pub: Pub)
    | Gating(pub: Pub, decision: Decision)
    | Stamping(pub: Pub, decision: Decision, at: int)
    | Rotating(pub: Pub, decision: Decision, stamp: int)
    | Recording(pub: Pub, decision: Decision, request: string, key: nat, at: int)
    | Creating(pub: Pub, request: string, key: nat)
    | Fetching(pub: Pub, request: string)
    | Deleting(pub: Pub, request: string, verdict: Verdict)
    | Checking(pub: Pub, request: string, cert: Certificate)
    | Importing(pub: Pub, request: string, cert: Certificate)
    | Reporting(pub: Pub, write: Write, at: int, requeue: Option<real>)
    | Failing(pub: Pub, at: int)

  /** `retryDelay` is what the queue's backoff answers should this pass fail; it shows in the retry time it then announces. */
  datatype State = State(
    world: World, pc: Pc, readAt: nat, requeue: Option<real>, retryDelay: int, log: seq<Event>, rounds: seq<Round>)

  // -- Actions -------------------------------------------------------------------------

  /** How the pass's next effect turns out. `Blank` is a host that answers without a readable certificate. */
  datatype Outcome = Done | Failed | LostReply | Blank | Died

  datatype Action =
    | Proceed(outcome: Outcome, csrDigest: string, retryIn: int)
    | Tick(to: real)
    | EditSpec(spec: Spec)
    | ClearSigning
    | ReplaceHostCertificate(served: Option<Pem>)
    | Vanish(request: string)
    | Answer(request: string, conditions: seq<CR.Condition>, certificate: Option<Pem>)

  /** Whether the effect happened, reported or not. */
  predicate TookEffect(o: Outcome) { o.Done? || o.LostReply? }

  // -- Effects on the world ---------------------------------------------------------------

  function Patched(w: World, patch: Patch): World { w.(stored := Merge(w.stored, patch)) }

  function Rotated(w: World): World { w.(hostKey := w.hostKey + 1) }

  /** A create that finds the name taken adopts what is there. */
  function WithRequest(w: World, request: string, key: nat): World {
    if request in w.requests then w
    else w.(requests := w.requests[request := Request(key, w.now.Floor, [], None)])
  }

  function WithoutRequest(w: World, request: string): World { w.(requests := w.requests - {request}) }

  function Installed(w: World, cert: Certificate): World { w.(served := Some(Leaf(cert))) }

  /** cert-manager signs the CSR it was given: the certificate certifies the request's key. */
  predicate Answers(r: Request, certificate: Option<Pem>) {
    certificate.Some? && certificate.value.Leaf? ==> certificate.value.cert.key == r.key
  }

  // -- The status writes of a pass -----------------------------------------------------------

  function PatchFor(pub: Pub, w: Write, at: int): Patch { PatchOf(pub.status, Some(pub.generation), w, at) }

  function Remember(pub: Pub, patch: Patch): Pub { pub.(status := Merge(pub.status, patch)) }

  function MisconfiguredWrite(): Write { Plain(Error, "Misconfigured", Some(Misconfigured)) }

  function UpToDateWrite(fingerprint: string): Write {
    Plain(Published, "Certificate up to date", None).(publishedFingerprint := Some(fingerprint))
  }

  function CooldownWrite(retryAt: int): Write {
    Plain(Error, "A signing round started less than an hour ago", Some(SigningCooldown)).(nextRetry := Some(retryAt))
  }

  function OpenWrite(d: Decision): Write {
    Plain(Pending, "Opening a signing round", Some(SigningRequestPending))
      .(markSigning := true, ready := Some(d.reason == RoutineRenewal))
  }

  function RecordWrite(d: Decision, request: string): Write {
    Plain(Pending, "Signing request submitted; awaiting issuance", Some(SigningRequestPending))
      .(pendingRequest := Set(request), ready := Some(d.reason == RoutineRenewal))
  }

  function AwaitingWrite(pub: Pub): Write {
    Plain(Pending, "Awaiting certificate issuance", Some(SigningRequestPending)).(ready := Some(IsReady(pub.status)))
  }

  function RestartWrite(pub: Pub, retryAt: int): Write {
    Plain(Pending, "A new signing request will be created", Some(SigningRequestFailed))
      .(pendingRequest := Null, nextRetry := Some(retryAt), ready := Some(IsReady(pub.status)))
  }

  function TimedOutWrite(retryAt: int): Write {
    Plain(Error, "Signing request was not signed in time", Some(SigningRequestNotSigned))
      .(pendingRequest := Null, nextRetry := Some(retryAt))
  }

  function NotUsableWrite(retryAt: int): Write {
    Plain(Error, "The signed certificate was not installed", Some(UnusableCertificate))
      .(pendingRequest := Null, nextRetry := Some(retryAt))
  }

  function DeliveredWrite(fingerprint: string): Write {
    Plain(Published, "Certificate published", None)
      .(publishedFingerprint := Some(fingerprint), markPublished := true, pendingRequest := Null)
  }

  function FailWrite(retryAt: int): Write {
    Plain(Error, "The reconcile failed", None).(nextRetry := Some(retryAt))
  }

  // -- The decisions between effects ------------------------------------------------------------

  function RequestName(w: World, csrDigest: string): string { w.name + "-" + csrDigest }

  /** After the host has been read: report, or go and see whether a round may open. */
  function AfterInspection(pub: Pub, installed: Option<Pem>, now: real): Pc {
    if RenewBeforeProblem(installed, pub.spec).Some? then Reporting(pub, MisconfiguredWrite(), now.Floor, None)
    else match ReasonToRenew(installed, pub.spec, pub.status, now)
      case Failure(_) => Failing(pub, now.Floor)
      case Success(None) =>
        Reporting(pub, UpToDateWrite(installed.value.cert.fingerprint), now.Floor, None)
      case Success(Some(reason)) => Gating(pub, Decision(reason, installed, now))
  }

  /** The signing cooldown refuses a round unless the spec changed since the status was last written. */
  function AfterGate(pub: Pub, d: Decision, now: real): Pc {
    var remaining := CooldownRemaining(pub.status, now);
    if !SpecChanged(pub.status, pub.generation) && remaining.Some? then
      var retryIn := remaining.value + 5.0;
      Reporting(pub, CooldownWrite((now + retryIn).Floor), now.Floor, Some(retryIn))
    else Stamping(pub, d, now.Floor)
  }

  /** `_restart_signing`: clear the request's name and come back when the cooldown allows. */
  function Restarting(pub: Pub, now: real): Pc {
    var delay := RestartDelay(pub.status, now);
    Reporting(pub, RestartWrite(pub, (now + delay).Floor), now.Floor, Some(delay))
  }

  /** What a fetched request calls for. */
  function AfterFetch(pub: Pub, request: string, found: Option<Request>, now: real): Pc {
    if found.None? then Restarting(pub, now)
    else
      var r := found.value;
      match CR.StateOf(r.conditions)
      case Rejected => Deleting(pub, request, Refused)
      case Waiting =>
        if now - r.created as real > REQUEST_TIMEOUT then Deleting(pub, request, TimedOut)
        else Reporting(pub, AwaitingWrite(pub), now.Floor, Some(AWAITING_ISSUANCE_REQUEUE))
      case Issued =>
        if r.certificate.None? then Failing(pub, now.Floor)
        else if Unusable(r.certificate.value, pub.spec) then Deleting(pub, request, NotUsable)
        else Checking(pub, request, r.certificate.value.cert)
  }

  function AfterDelete(pub: Pub, verdict: Verdict, now: real): Pc {
    match verdict
    case Refused => Restarting(pub, now)
    case TimedOut =>
      Reporting(pub, TimedOutWrite((now + RESTART_SIGNING_REQUEUE).Floor), now.Floor, Some(RESTART_SIGNING_REQUEUE))
    case NotUsable =>
      var delay := RestartDelay(pub.status, now);
      Reporting(pub, NotUsableWrite((now + delay).Floor), now.Floor, Some(delay))
    case Delivered(fingerprint) => Reporting(pub, DeliveredWrite(fingerprint), now.Floor, None)
  }

  /** The host serves the certificate with this fingerprint. */
  predicate Serves(served: Option<Pem>, fingerprint: string) {
    served.Some? && served.value.Leaf? && served.value.cert.fingerprint == fingerprint
  }

  // -- Steps ---------------------------------------------------------------------------------------

  function Find(w: World, request: string): Option<Request> {
    if request in w.requests then Some(w.requests[request]) else None
  }

  /** A best-effort status write that landed. */
  function Reported(s: State, pub: Pub, write: Write, at: int): State {
    s.(world := Patched(s.world, PatchFor(pub, write, at)),
       log := if write.phase.Error? then s.log + [ErrorStored] else s.log)
  }

  /** Reading the publication, building the provisioner, and deciding whether a round is wanted and allowed. */
  function Deciding(s: State, o: Outcome): State
    requires s.pc.Idle? || s.pc.Building? || s.pc.Inspecting? || s.pc.Gating?
  {
    var w, now := s.world, s.world.now;
    match s.pc
    case Idle =>
      if o.Done?
      then s.(pc := Building(Pub(w.generation, w.spec, w.stored)), readAt := |s.log|, log := s.log + [PublicationRead])
      else s
    case Building(pub) =>
      if o.Done?
      then s.(pc := if PendingOf(pub.status).Some? then Fetching(pub, PendingOf(pub.status).value) else Inspecting(pub))
      else s.(pc := Failing(pub, now.Floor))
    case Inspecting(pub) =>
      if o.Done? then s.(pc := AfterInspection(pub, w.served, now))
      else if o.Blank? then s.(pc := AfterInspection(pub, None, now), log := s.log + [HostUnreadable])
      else s.(pc := Failing(pub, now.Floor), log := s.log + [HostUnreadable])
    case Gating(pub, d) => s.(pc := AfterGate(pub, d, now))
  }

  /** The effects of `_start_signing`: stamp, rotate, record, create. */
  function Opening(s: State, o: Outcome, csrDigest: string): State
    requires s.pc.Stamping? || s.pc.Rotating? || s.pc.Recording? || s.pc.Creating?
  {
    var w, now := s.world, s.world.now;
    match s.pc
    case Stamping(pub, d, at) =>
      var patch := PatchFor(pub, OpenWrite(d), at);
      var t := if TookEffect(o) then s.(world := Patched(w, patch), log := s.log + [RoundOpened(pub, d)]) else s;
      t.(pc := if o.Done? then Rotating(Remember(pub, patch), d, at) else Failing(pub, now.Floor))
    case Rotating(pub, d, stamp) =>
      var t := s.(world := if TookEffect(o) then Rotated(w) else w, rounds := s.rounds + [Round(s.readAt, stamp)]);
      t.(pc := if o.Done? then Recording(pub, d, RequestName(w, csrDigest), w.hostKey + 1, now.Floor)
               else Failing(pub, now.Floor))
    case Recording(pub, d, request, key, at) =>
      var patch := PatchFor(pub, RecordWrite(d, request), at);
      var t := if TookEffect(o) then s.(world := Patched(w, patch)) else s;
      t.(pc := if o.Done? then Creating(Remember(pub, patch), request, key) else Failing(pub, now.Floor))
    case Creating(pub, request, key) =>
      var t := if TookEffect(o) then s.(world := WithRequest(w, request, key)) else s;
      if o.Done? then t.(pc := Idle, requeue := Some(AWAITING_ISSUANCE_REQUEUE))
      else t.(pc := Failing(pub, now.Floor))
  }

  /** The effects of `_resolve_pending_request` up to its last status write. */
  function Resolving(s: State, o: Outcome): State
    requires s.pc.Fetching? || s.pc.Deleting? || s.pc.Checking? || s.pc.Importing?
  {
    var w, now := s.world, s.world.now;
    match s.pc
    case Fetching(pub, request) =>
      if o.Done? then s.(pc := AfterFetch(pub, request, Find(w, request), now))
      else s.(pc := Failing(pub, now.Floor))
    case Deleting(pub, request, verdict) =>
      var t := if TookEffect(o)
               then s.(world := WithoutRequest(w, request), log := s.log + [RequestDeleted(request, verdict)])
               else s;
      t.(pc := if o.Done? then AfterDelete(pub, verdict, now) else Failing(pub, now.Floor))
    case Checking(pub, request, cert) =>
      if !o.Done? then s.(pc := Importing(pub, request, cert), log := s.log + [HostUnreadable])
      else if Serves(w.served, cert.fingerprint)
      then s.(pc := Deleting(pub, request, Delivered(cert.fingerprint)))
      else s.(pc := Importing(pub, request, cert))
    case Importing(pub, request, cert) =>
      var called := s.log + [ImportCalled(cert, w.hostKey)];
      var t := if TookEffect(o)
               then s.(world := Installed(w, cert), log := called + [ImportApplied(cert)])
               else s.(log := called);
      t.(pc := if o.Done? then Deleting(pub, request, Delivered(cert.fingerprint)) else Failing(pub, now.Floor))
  }

  /** The best-effort status write that ends a pass, and the controller's `_fail`. */
  function Closing(s: State, o: Outcome): State
    requires s.pc.Reporting? || s.pc.Failing?
  {
    match s.pc
    case Reporting(pub, write, at, requeue) =>
      var t := if TookEffect(o) then Reported(s, pub, write, at) else s;
      t.(pc := Idle, requeue := requeue)
    case Failing(pub, at) =>
      var t := if TookEffect(o) then Reported(s, pub, FailWrite(at + s.retryDelay), at) else s;
      t.(pc := Idle)
  }

  /** The next effect of a pass that has read the publication. */
  function Effect(s: State, o: Outcome, csrDigest: string): State
    requires !s.pc.Idle?
  {
    match s.pc
    case Building(_) | Inspecting(_) | Gating(_, _) => Deciding(s, o)
    case Stamping(_, _, _) | Rotating(_, _, _) | Recording(_, _, _, _, _) | Creating(_, _, _) => Opening(s, o, csrDigest)
    case Fetching(_, _) | Deleting(_, _, _) | Checking(_, _, _) | Importing(_, _, _) => Resolving(s, o)
    case Reporting(_, _, _, _) | Failing(_, _) => Closing(s, o)
  }

  /** The next effect. A raised exception leads to `Failing`; the death of the process forgets the pass. */
  function Advance(s: State, o: Outcome, csrDigest: string, retryIn: int): State {
    if o.Died? then s.(pc := Idle)
    else if s.pc.Idle? then Deciding(s.(retryDelay := retryIn), o)
    else Effect(s, o, csrDigest)
  }

  /** What the world makes of an action of its own; one that is not possible changes nothing. */
  function Moved(w: World, a: Action): World
    requires !a.Proceed?
  {
    match a
    case Tick(to) => if w.now <= to then w.(now := to) else w
    case EditSpec(spec) => w.(spec := spec, generation := w.generation + 1)
    case ClearSigning => w.(stored := w.stored.(lastSigningTime := None))
    case ReplaceHostCertificate(served) => w.(served := served)
    case Vanish(request) => WithoutRequest(w, request)
    case Answer(request, conditions, certificate) =>
      if request in w.requests && Answers(w.requests[request], certificate)
      then
        var r := w.requests[request].(conditions := conditions, certificate := certificate);
        w.(requests := w.requests[request := r])
      else w
  }

  function Move(s: State, a: Action): State
    requires !a.Proceed?
  {
    var t := s.(world := Moved(s.world, a));
    match a
    case EditSpec(_) => t.(log := s.log + [SpecEdited])
    case ClearSigning => t.(log := s.log + [SigningCleared])
    case ReplaceHostCertificate(served) => t.(log := s.log + [HostReplaced(served)])
    case _ => t
  }

  function Step(s: State, a: Action): State {
    match a
    case Proceed(o, csrDigest, retryIn) => Advance(s, o, csrDigest, retryIn)
    case _ => Move(s, a)
  }

  /** The state after a run. */
  function Run(s: State, actions: seq<Action>): State {
    if actions == [] then s else Step(Run(s, actions[..|actions| - 1]), actions[|actions| - 1])
  }

  /** The states a run goes through, one after each action. */
  ghost predicate GoesThrough(states: seq<State>, actions: seq<Action>) {
    && |states| == |actions| + 1
    && forall i {:trigger Step(states[i], actions[i])} | 0 <= i < |actions| :: states[i + 1] == Step(states[i], actions[i])
  }

  lemma GoesOneFurther(states: seq<State>, actions: seq<Action>, a: Action, next: State)
    requires GoesThrough(states, actions) && next == Step(states[|actions|], a)
    ensures GoesThrough(states + [next], actions + [a])
  {
    var longer, all := states + [next], actions + [a];
    forall i | 0 <= i < |all| ensures longer[i + 1] == Step(longer[i], all[i]) {
      if i < |actions| {
        assert states[i + 1] == Step(states[i], actions[i]);
      }
    }
  }

  lemma {:induction false} GoesThroughRun(states: seq<State>, actions: seq<Action>)
    requires GoesThrough(states, actions)
    ensures states[|actions|] == Run(states[0], actions)
    decreases |actions|
  {
    if actions != [] {
      var n := |actions| - 1;
      assert states[n + 1] == Step(states[n], actions[n]);
      GoesThroughRun(states[..n + 1], actions[..n]);
    }
  }

  /** A publication nobody has reconciled yet, on a host in any condition. */
  predicate Initial(s: State) {
    s.world.stored == Empty && s.world.requests == map[] && s.pc.Idle? && s.log == [] && s.rounds == []
  }

  /** One more action. */
  lemma RunGrows(s: State, actions: seq<Action>, a: Action, longer: seq<Action>)
    requires longer == actions + [a]
    ensures Run(s, longer) == Step(Run(s, actions), a)
  {
    assert longer[..|actions|] == actions;
  }

  /** Running some actions and then others is running them all. */
  lemma {:induction false} RunInTwo(s: State, first: seq<Action>, rest: seq<Action>)
    ensures Run(s, first + rest) == Run(Run(s, first), rest)
    decreases |rest|
  {
    if rest == [] {
      assert first + rest == first;
    } else {
      var n := |rest| - 1;
      RunInTwo(s, first, rest[..n]);
      assert first + rest == (first + rest[..n]) + [rest[n]];
      RunGrows(s, first + rest[..n], rest[n], first + rest);
      RunGrows(Run(s, first), rest[..n], rest[n], rest);
    }
  }

  lemma RunOne(s: State, a: Action)
    ensures Run(s, [a]) == Step(s, a)
  {
    assert [a][..0] == [];
  }

  /** Running one action and then the rest is running them all. */
  lemma RunFromFirst(s: State, a: Action, rest: seq<Action>)
    ensures Run(s, [a] + rest) == Run(Step(s, a), rest)
  {
    RunInTwo(s, [a], rest);
    RunOne(s, a);
  }
}
