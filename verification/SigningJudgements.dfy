/**
 What a pass makes of the request it fetches, and what the stages after it rest
 on: a request is deleted, and a certificate imported, only on what was found at
 the fetch.
 */
module SigningJudgements {
  import opened Wrappers
  import opened Status
  import opened Renewal
  import Durations
  import CR = CertificateRequests
  import opened SigningProtocol
  import opened SigningImports

  // -- At the fetch ------------------------------------------------------------------------------------

  /** The certificate carries every name of the spec. */
  predicate Covers(cert: Certificate, spec: Spec) {
    forall name | name in spec.dnsNames :: name in cert.dnsNames
  }

  /** The request was issued, and this is what it carries. */
  ghost predicate Carries(r: Request, pem: Pem) {
    CR.Signed(r.conditions) && r.certificate == Some(pem)
  }

  /** The request has no answer yet. */
  ghost predicate Unanswered(r: Request) {
    !CR.TurnedDown(r.conditions) && !CR.Signed(r.conditions)
  }

  /** A request that is there leads to this verdict on it, over a spec and at an instant. */
  ghost predicate Earns(r: Request, spec: Spec, now: real, verdict: Verdict) {
    match verdict
    case Refused => CR.TurnedDown(r.conditions)
    case TimedOut => Unanswered(r) && now - r.created as real > 3600.0
    case NotUsable =>
      || Carries(r, Garbage)
      || exists cert :: Carries(r, Leaf(cert)) && !Covers(cert, spec)
    case Delivered(fingerprint) =>
      exists cert :: Carries(r, Leaf(cert)) && cert.fingerprint == fingerprint && Covers(cert, spec)
  }

  lemma UnusableMeansMissing(pem: Pem, spec: Spec)
    ensures Unusable(pem, spec) <==> pem.Garbage? || !Covers(pem.cert, spec)
  {
    if pem.Leaf? {
      assert forall name | name in spec.dnsNames && name !in pem.cert.dnsNames :: name in Names(spec) - pem.cert.dnsNames;
      assert forall name | name in Names(spec) - pem.cert.dnsNames :: name in spec.dnsNames;
    }
  }

  lemma NotUsableExactly(r: Request, spec: Spec, now: real)
    requires r.certificate.Some?
    ensures Earns(r, spec, now, NotUsable) <==>
      CR.Signed(r.conditions) && (r.certificate.value.Garbage? || !Covers(r.certificate.value.cert, spec))
  {
    if CR.Signed(r.conditions) && r.certificate.value.Leaf? {
      assert Carries(r, Leaf(r.certificate.value.cert));
    }
  }

  /** What a fetch that is answered leads to, when the request is there. */
  lemma FoundIsJudged(pub: Pub, request: string, r: Request, now: real, pc: Pc)
    requires pc == AfterFetch(pub, request, Some(r), now)
    ensures pc.Deleting? <==>
      CR.TurnedDown(r.conditions) || Earns(r, pub.spec, now, TimedOut) || Earns(r, pub.spec, now, NotUsable)
    ensures pc.Deleting? ==>
      pc.pub == pub && pc.request == request && Earns(r, pub.spec, now, pc.verdict) && !pc.verdict.Delivered?
    ensures pc.Checking? <==> exists cert :: Carries(r, Leaf(cert)) && Covers(cert, pub.spec)
    ensures pc.Checking? ==>
      pc.pub == pub && pc.request == request && Carries(r, Leaf(pc.cert)) && Covers(pc.cert, pub.spec)
    ensures pc.Reporting? <==> Unanswered(r) && now - r.created as real <= 3600.0
    ensures pc.Reporting? ==>
      pc.requeue == Some(120.0) && pc.write.phase == Pending && pc.write.pendingRequest.Keep?
    ensures pc.Failing? <==> CR.Signed(r.conditions) && r.certificate.None?
  {
    CR.AnswersExactly(r.conditions);
    if r.certificate.Some? {
      UnusableMeansMissing(r.certificate.value, pub.spec);
      NotUsableExactly(r, pub.spec, now);
    }
  }

  /** A request that is gone has its name cleared. */
  lemma MissingIsCleared(pub: Pub, request: string, now: real, pc: Pc)
    requires pc == AfterFetch(pub, request, None, now)
    ensures pc.Reporting? && pc.write.phase == Pending && pc.write.pendingRequest.Null? && pc.requeue.Some?
  {
  }

  /**
   A fetch that is answered, exactly. A request that is gone is cleared. One that
   is there is deleted as refused when it was turned down, as timed out when it has
   no answer after more than an hour, and as not usable when what it was issued is
   no certificate or misses a name of the spec; a certificate that covers the spec
   goes on to the host; and otherwise the pass comes back in two minutes.
   */
  lemma FetchIsJudgedExactly(s: State, csrDigest: string, retryIn: int)
    requires s.pc.Fetching?
    ensures var t := Step(s, Proceed(Done, csrDigest, retryIn));
      && t.world == s.world && t.log == s.log
      && (if s.pc.request !in s.world.requests
          then t.pc.Reporting? && t.pc.write.pendingRequest.Null?
          else
            var r, spec, now := s.world.requests[s.pc.request], s.pc.pub.spec, s.world.now;
            && (t.pc == Deleting(s.pc.pub, s.pc.request, Refused) <==> Earns(r, spec, now, Refused))
            && (t.pc == Deleting(s.pc.pub, s.pc.request, TimedOut) <==> Earns(r, spec, now, TimedOut))
            && (t.pc == Deleting(s.pc.pub, s.pc.request, NotUsable) <==> Earns(r, spec, now, NotUsable))
            && (forall cert :: t.pc == Checking(s.pc.pub, s.pc.request, cert) <==> Carries(r, Leaf(cert)) && Covers(cert, spec))
            && (t.pc.Reporting? <==> Unanswered(r) && now - r.created as real <= 3600.0)
            && (t.pc.Reporting? ==> t.pc.requeue == Some(120.0) && t.pc.write.pendingRequest.Keep?)
            && (t.pc.Failing? <==> CR.Signed(r.conditions) && r.certificate.None?))
  {
    var t := Resolving(s, Done);
    assert Step(s, Proceed(Done, csrDigest, retryIn)) == t;
    if s.pc.request in s.world.requests {
      FoundIsJudged(s.pc.pub, s.pc.request, s.world.requests[s.pc.request], s.world.now, t.pc);
    } else {
      MissingIsCleared(s.pc.pub, s.pc.request, s.world.now, t.pc);
    }
  }

  // -- At the inspection ---------------------------------------------------------------------------------

  /** `renewBefore` cannot be read, or would make every instant of the certificate's life due. */
  ghost predicate NeverSatisfied(cert: Certificate, spec: Spec) {
    && RenewBefore(spec).Some?
    && var window := Durations.Parse(RenewBefore(spec).value);
       window.Failure? || window.value >= (cert.notAfter - cert.notBefore) as real
  }

  /** When the certificate is to be renewed: so long before its end, or after two thirds of its life. */
  function RenewFrom(cert: Certificate, spec: Spec): real
    requires RenewBefore(spec).Some? ==> Durations.Parse(RenewBefore(spec).value).Success?
  {
    if RenewBefore(spec).Some? then cert.notAfter as real - Durations.Parse(RenewBefore(spec).value).value
    else cert.notAfter as real - (cert.notAfter - cert.notBefore) as real / 3.0
  }

  /** The certificate is the published one, carries every name, and is neither early, nor expired, nor due. */
  ghost predicate DoesTheJob(cert: Certificate, spec: Spec, status: Status, now: real) {
    && PublishedOf(status) == Some(cert.fingerprint)
    && Covers(cert, spec)
    && cert.notBefore as real <= now < cert.notAfter as real
    && (RenewBefore(spec).Some? ==> Durations.Parse(RenewBefore(spec).value).Success?)
    && now < RenewFrom(cert, spec)
  }

  lemma InspectedIsJudged(pub: Pub, installed: Option<Pem>, now: real, pc: Pc)
    requires pc == AfterInspection(pub, installed, now)
    ensures pc.Reporting? || pc.Gating?
    ensures pc.Reporting? && pc.write.phase == Error <==>
      installed.Some? && installed.value.Leaf? && NeverSatisfied(installed.value.cert, pub.spec)
    ensures pc.Reporting? && pc.write.phase == Error ==>
      pc.write.reason == Some(Misconfigured) && pc.requeue.None?
    ensures pc.Reporting? && pc.write.phase == Published <==>
      && installed.Some? && installed.value.Leaf? && !NeverSatisfied(installed.value.cert, pub.spec)
      && DoesTheJob(installed.value.cert, pub.spec, pub.status, now)
    ensures pc.Reporting? && pc.write.phase == Published ==>
      pc.write.publishedFingerprint == Some(installed.value.cert.fingerprint) && pc.requeue.None?
    ensures pc.Gating? ==> pc.pub == pub && pc.decision.installed == installed && pc.decision.decidedAt == now
  {
    if installed.Some? && installed.value.Leaf? {
      UnusableMeansMissing(installed.value, pub.spec);
    }
  }

  /**
   What a pass makes of the host's certificate, exactly. A host that cannot be asked
   fails the pass, and one that answers without a readable certificate wants a
   round. `renewBefore` is reported when the certificate served can never satisfy
   it; otherwise the certificate is reported as published exactly when it does the
   job, and in every other case a round is wanted.
   */
  lemma InspectionIsJudgedExactly(s: State, o: Outcome, csrDigest: string, retryIn: int)
    requires s.pc.Inspecting? && !o.Died?
    ensures var t, pub, served := Step(s, Proceed(o, csrDigest, retryIn)), s.pc.pub, s.world.served;
      && t.world == s.world
      && (t.pc.Failing? <==> o.Failed? || o.LostReply?)
      && (o.Blank? ==> t.pc.Gating?)
      && (o.Done? ==>
            if served.Some? && served.value.Leaf? && NeverSatisfied(served.value.cert, pub.spec)
            then t.pc == Reporting(pub, MisconfiguredWrite(), s.world.now.Floor, None)
            else if served.Some? && served.value.Leaf? && DoesTheJob(served.value.cert, pub.spec, pub.status, s.world.now)
            then t.pc == Reporting(pub, UpToDateWrite(served.value.cert.fingerprint), s.world.now.Floor, None)
            else t.pc.Gating?)
  {
    var t := Deciding(s, o);
    assert Step(s, Proceed(o, csrDigest, retryIn)) == t;
    if o.Done? {
      InspectedIsJudged(s.pc.pub, s.world.served, s.world.now, t.pc);
    } else if o.Blank? {
      InspectedIsJudged(s.pc.pub, None, s.world.now, t.pc);
    }
  }

  // -- Effects that fail -----------------------------------------------------------------------------------

  /**
   What a failure does, stage by stage. It fails the pass at that instant, except
   that a host that cannot be asked does not block an import and a report that does
   not land ends the pass as if it had; and an effect that failed changed nothing.
   The death of the process forgets the pass and changes nothing else.
   */
  lemma FailuresAreRaised(s: State, o: Outcome, csrDigest: string, retryIn: int)
    requires !s.pc.Idle? && !s.pc.Gating? && (o.Failed? || o.LostReply? || o.Died?)
    ensures var t := Step(s, Proceed(o, csrDigest, retryIn));
      && (o.Failed? ==> t.world == s.world)
      && (if o.Died? then t == s.(pc := Idle)
          else if s.pc.Checking? then t.pc == Importing(s.pc.pub, s.pc.request, s.pc.cert)
          else if s.pc.Reporting? then t.pc.Idle? && t.requeue == s.pc.requeue
          else if s.pc.Failing? then t.pc.Idle?
          else t.pc == Failing(s.pc.pub, s.world.now.Floor))
  {
  }

  /** Before an import the host is asked, and the import is left out exactly when it is found to hold the certificate. */
  lemma HoldingIsJudgedExactly(s: State, o: Outcome, csrDigest: string, retryIn: int)
    requires s.pc.Checking? && !o.Died?
    ensures var t := Step(s, Proceed(o, csrDigest, retryIn));
      var held := exists cert :: s.world.served == Some(Leaf(cert)) && cert.fingerprint == s.pc.cert.fingerprint;
      t.pc == if o.Done? && held then Deleting(s.pc.pub, s.pc.request, Delivered(s.pc.cert.fingerprint))
              else Importing(s.pc.pub, s.pc.request, s.pc.cert)
  {
  }

  // -- Requests stand still ----------------------------------------------------------------------------------

  /** A request that is there before and after has the same key and the same creation. */
  ghost predicate SameRequest(w: World, v: World, name: string) {
    name in w.requests && name in v.requests ==>
      v.requests[name].key == w.requests[name].key && v.requests[name].created == w.requests[name].created
  }

  lemma StepKeepsRequest(s: State, a: Action, t: State, name: string)
    requires t == Step(s, a)
    ensures SameRequest(s.world, t.world, name)
  {
    if a.Proceed? && !a.outcome.Died? && !s.pc.Idle? {
      EffectKeepsRequest(s, a.outcome, a.csrDigest, t, name);
    }
  }

  lemma EffectKeepsRequest(s: State, o: Outcome, d: string, t: State, name: string)
    requires !s.pc.Idle? && t == Effect(s, o, d)
    ensures SameRequest(s.world, t.world, name)
  {
  }

  /** A pass that finds its name taken adopts what is there: a request that never goes away keeps its key and its creation. */
  lemma {:induction false} RequestsKeepTheirKey(s: State, actions: seq<Action>, i: nat, j: nat, name: string)
    requires i <= j <= |actions|
    requires forall k | i <= k <= j :: name in Run(s, actions[..k]).world.requests
    ensures SameRequest(Run(s, actions[..i]).world, Run(s, actions[..j]).world, name)
    decreases j
  {
    if i < j {
      var last := j - 1;
      RequestsKeepTheirKey(s, actions, i, last, name);
      assert actions[..j][..last] == actions[..last] && actions[..j][last] == actions[last];
      StepKeepsRequest(Run(s, actions[..last]), actions[last], Run(s, actions[..j]), name);
    }
  }

  // -- Over every run ------------------------------------------------------------------------------------

  /** A stage that rests on what was found at the fetch. */
  predicate IsJudged(pc: Pc) { pc.Deleting? || pc.Checking? || pc.Importing? }

  /** What the stage says of its request was so in this world. */
  ghost predicate RestsOn(w: World, pc: Pc)
    requires IsJudged(pc)
  {
    && pc.request in w.requests
    && var r := w.requests[pc.request];
       match pc
       case Deleting(pub, _, verdict) => Earns(r, pub.spec, w.now, verdict)
       case Checking(pub, _, cert) => Carries(r, Leaf(cert)) && Covers(cert, pub.spec)
       case Importing(pub, _, cert) => Carries(r, Leaf(cert)) && Covers(cert, pub.spec)
  }

  /** One stage took over from the other what it knows of the request. */
  ghost predicate TakesOver(before: Pc, after: Pc)
    requires IsJudged(after)
  {
    && IsJudged(before) && before.pub == after.pub && before.request == after.request
    && forall w :: RestsOn(w, before) ==> RestsOn(w, after)
  }

  /** The stage was reached from this state's fetch. */
  ghost predicate JudgedIn(s: State, pc: Pc)
    requires IsJudged(pc)
  {
    s.pc == Fetching(pc.pub, pc.request) && RestsOn(s.world, pc)
  }

  lemma FetchingJudges(s: State, o: Outcome, t: State)
    requires s.pc.Fetching? && t == Resolving(s, o) && IsJudged(t.pc)
    ensures JudgedIn(s, t.pc)
  {
    if s.pc.request in s.world.requests {
      FoundIsJudged(s.pc.pub, s.pc.request, s.world.requests[s.pc.request], s.world.now, t.pc);
    } else {
      MissingIsCleared(s.pc.pub, s.pc.request, s.world.now, t.pc);
    }
  }

  lemma InstallingTakesOver(s: State, o: Outcome, t: State)
    requires (s.pc.Checking? || s.pc.Importing?) && t == Resolving(s, o) && IsJudged(t.pc)
    ensures TakesOver(s.pc, t.pc)
  {
  }

  lemma DeletingEnds(s: State, o: Outcome, t: State)
    requires s.pc.Deleting? && t == Resolving(s, o)
    ensures !IsJudged(t.pc)
  {
  }

  lemma DecidingJudgesNothing(s: State, o: Outcome)
    requires s.pc.Building? || s.pc.Inspecting? || s.pc.Gating?
    ensures !IsJudged(Deciding(s, o).pc)
  {
  }

  lemma OpeningJudgesNothing(s: State, o: Outcome, d: string)
    requires s.pc.Stamping? || s.pc.Rotating? || s.pc.Recording? || s.pc.Creating?
    ensures !IsJudged(Opening(s, o, d).pc)
  {
  }

  lemma OtherEffectsJudgeNothing(s: State, o: Outcome, d: string, t: State)
    requires !s.pc.Idle? && !s.pc.Fetching? && !IsJudged(s.pc) && t == Effect(s, o, d)
    ensures !IsJudged(t.pc)
  {
    match s.pc {
      case Building(_) | Inspecting(_) | Gating(_, _) => DecidingJudgesNothing(s, o);
      case Stamping(_, _, _) | Rotating(_, _, _) | Recording(_, _, _, _, _) | Creating(_, _, _) => OpeningJudgesNothing(s, o, d);
      case Reporting(_, _, _, _) | Failing(_, _) =>
    }
  }

  lemma StepJudges(s: State, a: Action, t: State)
    requires t == Step(s, a) && IsJudged(t.pc)
    ensures t.pc == s.pc || JudgedIn(s, t.pc) || TakesOver(s.pc, t.pc)
  {
    if a.Proceed? && !a.outcome.Died? && !s.pc.Idle? {
      var o, d := a.outcome, a.csrDigest;
      match s.pc {
        case Fetching(_, _) => FetchingJudges(s, o, t);
        case Checking(_, _, _) | Importing(_, _, _) => InstallingTakesOver(s, o, t);
        case Deleting(_, _, _) => DeletingEnds(s, o, t);
        case _ => OtherEffectsJudgeNothing(s, o, d, t);
      }
    }
  }

  /** The fetch that the pass in hand rests on. */
  lemma {:induction false} RestsOnAFetch(s: State, actions: seq<Action>) returns (n: nat)
    requires s.pc.Idle? && IsJudged(Run(s, actions).pc)
    ensures n < |actions| && JudgedIn(Run(s, actions[..n]), Run(s, actions).pc)
  {
    if actions != [] {
      var last := |actions| - 1;
      var before := actions[..last];
      StepJudges(Run(s, before), actions[last], Run(s, actions));
      n := last;
      if !JudgedIn(Run(s, before), Run(s, actions).pc) {
        n := RestsOnAFetch(s, before);
        assert before[..n] == actions[..n];
      }
    }
  }

  // -- Where an event comes from ---------------------------------------------------------------------------

  /** The step that adds an event of deletion or import to the log is the one whose stage says so. */
  ghost predicate Explains(s: State, log: seq<Event>, k: nat)
    requires k < |log|
  {
    && (log[k].RequestDeleted? ==>
          |s.log| == k && s.pc.Deleting? && s.pc.request == log[k].name && s.pc.verdict == log[k].verdict)
    && (log[k].ImportCalled? ==> |s.log| == k && s.pc.Importing? && s.pc.cert == log[k].cert)
  }

  /** The log grows, by at most two events, and never by a read in the middle of a pass. */
  ghost predicate GrowsQuietly(log: seq<Event>, longer: seq<Event>) {
    log <= longer && forall k | |log| <= k < |longer| :: !longer[k].PublicationRead?
  }

  /** What a step of a pass in hand, or of the world, does to the log. */
  ghost predicate Extends(s: State, t: State) {
    && GrowsQuietly(s.log, t.log)
    && (forall k: nat | |s.log| <= k < |t.log| :: Explains(s, t.log, k))
    && (!t.pc.Idle? ==> !s.pc.Idle? && t.readAt == s.readAt && t.pc.pub.spec == s.pc.pub.spec)
  }

  lemma DecidingExtends(s: State, o: Outcome)
    requires s.pc.Building? || s.pc.Inspecting? || s.pc.Gating?
    ensures Extends(s, Deciding(s, o))
  {
  }

  lemma OpeningExtends(s: State, o: Outcome, d: string)
    requires s.pc.Stamping? || s.pc.Rotating? || s.pc.Recording? || s.pc.Creating?
    ensures Extends(s, Opening(s, o, d))
  {
  }

  lemma ResolvingExtends(s: State, o: Outcome)
    requires s.pc.Fetching? || s.pc.Deleting? || s.pc.Checking? || s.pc.Importing?
    ensures Extends(s, Resolving(s, o))
  {
  }

  lemma ClosingExtends(s: State, o: Outcome)
    requires s.pc.Reporting? || s.pc.Failing?
    ensures Extends(s, Closing(s, o))
  {
  }

  lemma MovingExtends(s: State, a: Action)
    requires !a.Proceed?
    ensures GrowsQuietly(s.log, Move(s, a).log)
    ensures forall k: nat | |s.log| <= k < |Move(s, a).log| :: Explains(s, Move(s, a).log, k)
    ensures Move(s, a).pc == s.pc && Move(s, a).readAt == s.readAt
  {
  }

  lemma EffectExtends(s: State, o: Outcome, d: string, t: State)
    requires !s.pc.Idle? && t == Effect(s, o, d)
    ensures Extends(s, t)
  {
    match s.pc {
      case Building(_) | Inspecting(_) | Gating(_, _) => DecidingExtends(s, o);
      case Stamping(_, _, _) | Rotating(_, _, _) | Recording(_, _, _, _, _) | Creating(_, _, _) => OpeningExtends(s, o, d);
      case Fetching(_, _) | Deleting(_, _, _) | Checking(_, _, _) | Importing(_, _, _) => ResolvingExtends(s, o);
      case Reporting(_, _, _, _) | Failing(_, _) => ClosingExtends(s, o);
    }
  }

  /** The step that begins a pass. */
  ghost predicate Begins(s: State, t: State) {
    && s.pc.Idle? && t.log == s.log + [PublicationRead] && t.readAt == |s.log|
    && t.pc.Building? && t.pc.pub.spec == s.world.spec
  }

  lemma StepExtends(s: State, a: Action, t: State)
    requires t == Step(s, a)
    ensures Extends(s, t) || Begins(s, t)
  {
    if !a.Proceed? {
      MovingExtends(s, a);
    } else if !a.outcome.Died? && !s.pc.Idle? {
      EffectExtends(s, a.outcome, a.csrDigest, t);
    }
  }

  lemma {:induction false} ReadEndStays(log: seq<Event>, longer: seq<Event>)
    requires GrowsQuietly(log, longer)
    ensures ReadEnd(longer) == ReadEnd(log)
    decreases |longer|
  {
    if |longer| == |log| {
      assert longer == log;
    } else {
      var n := |longer| - 1;
      assert log <= longer[..n] && longer == longer[..n] + [longer[n]];
      ReadEndStays(log, longer[..n]);
      ReadEndSnoc(longer[..n], longer[n]);
    }
  }

  /** The state in which the pass in hand read the publication. */
  ghost predicate HasRead(v: State, t: State)
    requires !t.pc.Idle?
  {
    v.pc.Idle? && |v.log| == t.readAt && v.world.spec == t.pc.pub.spec && ReadEnd(t.log) == t.readAt + 1
  }

  lemma HasReadStays(v: State, s: State, t: State)
    requires !s.pc.Idle? && HasRead(v, s) && Extends(s, t) && !t.pc.Idle?
    ensures HasRead(v, t)
  {
    ReadEndStays(s.log, t.log);
  }

  lemma {:induction false} PassHasRead(s: State, actions: seq<Action>) returns (m: nat)
    requires s.pc.Idle? && !Run(s, actions).pc.Idle?
    ensures m < |actions| && HasRead(Run(s, actions[..m]), Run(s, actions))
  {
    if actions != [] {
      var last := |actions| - 1;
      var before, t := Run(s, actions[..last]), Run(s, actions);
      StepExtends(before, actions[last], t);
      m := last;
      if Begins(before, t) {
        ReadEndSnoc(before.log, PublicationRead);
      } else {
        m := PassHasRead(s, actions[..last]);
        assert actions[..last][..m] == actions[..m];
        HasReadStays(Run(s, actions[..m]), before, t);
      }
    }
  }

  /** The action that logged an event. */
  lemma {:induction false} EventIsLogged(s: State, actions: seq<Action>, k: nat) returns (n: nat)
    requires |s.log| <= k < |Run(s, actions).log|
    requires Run(s, actions).log[k].RequestDeleted? || Run(s, actions).log[k].ImportCalled?
    ensures n < |actions| && Explains(Run(s, actions[..n]), Run(s, actions).log, k)
    ensures Run(s, actions[..n]).log <= Run(s, actions).log
  {
    if actions != [] {
      var last := |actions| - 1;
      var before, t := Run(s, actions[..last]), Run(s, actions);
      StepExtends(before, actions[last], t);
      n := last;
      if k < |before.log| {
        assert before.log[k] == t.log[k];
        n := EventIsLogged(s, actions[..last], k);
        assert actions[..last][..n] == actions[..n];
      }
    }
  }

  // -- The promises --------------------------------------------------------------------------------------------

  /** At some moment of the run a pass fetched this request, and what it found earned the verdict over the spec it had read. */
  ghost predicate EarnedAt(s: State, actions: seq<Action>, n: nat, request: string, verdict: Verdict)
    requires n <= |actions|
  {
    var u := Run(s, actions[..n]);
    && u.pc.Fetching? && u.pc.request == request && request in u.world.requests
    && Earns(u.world.requests[request], u.pc.pub.spec, u.world.now, verdict)
  }

  /** Every request that was ever deleted had been fetched by a pass that found its verdict earned. */
  lemma DeletionsAreEarned(s: State, actions: seq<Action>, k: nat) returns (n: nat)
    requires Initial(s) && k < |Run(s, actions).log| && Run(s, actions).log[k].RequestDeleted?
    ensures n < |actions| && EarnedAt(s, actions, n, Run(s, actions).log[k].name, Run(s, actions).log[k].verdict)
  {
    var d := EventIsLogged(s, actions, k);
    n := RestsOnAFetch(s, actions[..d]);
    assert actions[..d][..n] == actions[..n];
  }

  /** The request is not turned down, and no older than an hour, in this world. */
  ghost predicate Timely(w: World, request: string) {
    request in w.requests ==>
      !CR.TurnedDown(w.requests[request].conditions) && w.now - w.requests[request].created as real <= 3600.0
  }

  /**
   A request that is never denied, invalid or failed and never older than an hour
   is deleted by a pass only after a fetch that found it issued.
   */
  lemma TimelyRequestsAreKept(s: State, actions: seq<Action>, k: nat) returns (n: nat)
    requires Initial(s) && k < |Run(s, actions).log| && Run(s, actions).log[k].RequestDeleted?
    requires forall m | 0 <= m < |actions| :: Timely(Run(s, actions[..m]).world, Run(s, actions).log[k].name)
    ensures n < |actions|
    ensures var u, request := Run(s, actions[..n]), Run(s, actions).log[k].name;
      u.pc.Fetching? && u.pc.request == request && request in u.world.requests && CR.Signed(u.world.requests[request].conditions)
  {
    n := DeletionsAreEarned(s, actions, k);
    assert Timely(Run(s, actions[..n]).world, Run(s, actions).log[k].name);
  }

  /** A pass about to import, or to look whether it is held already, has a certificate for every name of its spec. */
  lemma InstallsOnlyWhatCovers(s: State, actions: seq<Action>)
    requires Initial(s) && (Run(s, actions).pc.Checking? || Run(s, actions).pc.Importing?)
    ensures Covers(Run(s, actions).pc.cert, Run(s, actions).pc.pub.spec)
  {
    var n := RestsOnAFetch(s, actions);
  }

  /**
   Every certificate an import was ever called with carries every name that the
   publication's spec had at the read of the pass that called it.
   */
  lemma ImportsCoverTheSpec(s: State, actions: seq<Action>, k: nat) returns (m: nat)
    requires Initial(s) && k < |Run(s, actions).log| && Run(s, actions).log[k].ImportCalled?
    ensures m < |actions| && Run(s, actions[..m]).pc.Idle?
    ensures ReadEnd(Run(s, actions).log[..k]) == |Run(s, actions[..m]).log| + 1
    ensures Covers(Run(s, actions).log[k].cert, Run(s, actions[..m]).world.spec)
  {
    var n := EventIsLogged(s, actions, k);
    InstallsOnlyWhatCovers(s, actions[..n]);
    m := PassHasRead(s, actions[..n]);
    assert actions[..n][..m] == actions[..m];
    assert Run(s, actions).log[..k] == Run(s, actions[..n]).log;
  }
}
