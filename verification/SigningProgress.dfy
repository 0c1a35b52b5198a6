/**
 The protocol is never wedged: from every reachable state the pass in hand can
 end, and what it takes for the publication to be settled after that.
 */
module SigningProgress {
  import opened Wrappers
  import Durations
  import opened Status
  import opened Renewal
  import opened SigningProtocol
  import opened SigningTiming
  import SigningRuns
  import opened SigningSteps

  // -- Runs in which nothing goes wrong --------------------------------------------------------------

  /** An effect that is done, time passing, or cert-manager answering. */
  predicate Helps(a: Action) {
    match a
    case Proceed(o, _, _) => o.Done?
    case Tick(_) | Answer(_, _, _) => true
    case _ => false
  }

  ghost predicate Helpful(actions: seq<Action>) { forall a | a in actions :: Helps(a) }

  /** Some such run comes from `s` to `t`. */
  ghost predicate Leads(s: State, t: State) {
    exists actions :: Helpful(actions) && Reaches(s, actions, t)
  }

  lemma LeadsToItself(s: State)
    ensures Leads(s, s)
  {
    ReachesItself(s);
    assert Helpful([]);
  }

  lemma LeadsByOne(s: State, a: Action, t: State)
    requires Helps(a) && Reaches(s, [] + [a], t)
    ensures Leads(s, t)
  {
    assert Helpful([] + [a]);
  }

  lemma LeadsFurther(s: State, t: State, u: State)
    requires Leads(s, t) && Leads(t, u)
    ensures Leads(s, u)
  {
    var a :| Helpful(a) && Reaches(s, a, t);
    var b :| Helpful(b) && Reaches(t, b, u);
    ReachesOn(s, a, t, b, u);
    assert Helpful(a + b);
  }

  /** One more effect that is done. */
  lemma Onward(s: State, t: State, u: State)
    requires Leads(s, t) && Reaches(t, [] + [GO_ON], u)
    ensures Leads(s, u)
  {
    LeadsByOne(t, GO_ON, u);
    LeadsFurther(s, t, u);
  }

  // -- A pass can always end ----------------------------------------------------------------------------

  /** How many effects a pass is from its end, at most. */
  function Remaining(pc: Pc): nat {
    match pc
    case Idle => 0
    case Failing(_, _) | Reporting(_, _, _, _) | Creating(_, _, _) => 1
    case Recording(_, _, _, _, _) | Deleting(_, _, _) => 2
    case Rotating(_, _, _) | Importing(_, _, _) => 3
    case Stamping(_, _, _) | Checking(_, _, _) => 4
    case Gating(_, _) | Fetching(_, _) => 5
    case Inspecting(_) => 6
    case Building(_) => 7
  }

  /** One effect nearer the end, and the spec is as it was. */
  predicate Nearer(t: State, u: State) {
    Remaining(u.pc) < Remaining(t.pc) && u.world.spec == t.world.spec
  }

  lemma DecidingBringsEndNearer(t: State)
    requires t.pc.Building? || t.pc.Inspecting? || t.pc.Gating?
    ensures Nearer(t, Deciding(t, Done))
  {
  }

  lemma OpeningBringsEndNearer(t: State)
    requires t.pc.Stamping? || t.pc.Rotating? || t.pc.Recording? || t.pc.Creating?
    ensures Nearer(t, Opening(t, Done, ""))
  {
  }

  lemma ResolvingBringsEndNearer(t: State)
    requires t.pc.Fetching? || t.pc.Deleting? || t.pc.Checking? || t.pc.Importing?
    ensures Nearer(t, Resolving(t, Done))
  {
  }

  lemma EffectBringsEndNearer(t: State, u: State)
    requires !t.pc.Idle? && u == Effect(t, Done, "")
    ensures Nearer(t, u)
  {
    match t.pc {
      case Building(_) | Inspecting(_) | Gating(_, _) => DecidingBringsEndNearer(t);
      case Stamping(_, _, _) | Rotating(_, _, _) | Recording(_, _, _, _, _) | Creating(_, _, _) => OpeningBringsEndNearer(t);
      case Fetching(_, _) | Deleting(_, _, _) | Checking(_, _, _) | Importing(_, _, _) => ResolvingBringsEndNearer(t);
      case Reporting(_, _, _, _) | Failing(_, _) =>
    }
  }

  /** The pass in hand ends after as many effects as it has left. */
  lemma {:induction false} PassCanEnd(first: Option<Pem>, t: State) returns (u: State)
    requires SigningRuns.Safe(first, t)
    ensures Leads(t, u) && u.pc.Idle? && u.world.spec == t.world.spec && SigningRuns.Safe(first, u)
    decreases Remaining(t.pc)
  {
    LeadsToItself(t);
    if t.pc.Idle? {
      u := t;
    } else {
      var next := Step(t, GO_ON);
      ReachesItself(t);
      ReachesOneFurther(t, [], t, GO_ON, next);
      EffectBringsEndNearer(t, next);
      SigningRuns.StepIsSafe(first, t, GO_ON);
      Onward(t, t, next);
      u := PassCanEnd(first, next);
      LeadsFurther(t, next, u);
    }
  }

  // -- A request that waits can be delivered -----------------------------------------------------------

  /** A certificate that cert-manager may answer this request with, and that settles the publication. */
  predicate WouldSettle(w: World, request: string, cert: Certificate) {
    && request in w.requests && cert.key == w.requests[request].key
    && cert.fingerprint != "" && Satisfied(w.spec, cert, w.now)
    && (Serves(w.served, cert.fingerprint) ==> w.served == Some(Leaf(cert)))
  }

  /** The request is answered with this certificate. */
  lemma Answered(t: State, request: string, cert: Certificate) returns (u: State)
    requires t.pc.Idle? && PendingOf(t.world.stored) == Some(request) && WouldSettle(t.world, request, cert)
    ensures Leads(t, u) && u.pc.Idle?
    ensures u.world == t.world.(requests := t.world.requests[request :=
      t.world.requests[request].(conditions := SIGNED, certificate := Some(Leaf(cert)))])
  {
    var a := Answer(request, SIGNED, Some(Leaf(cert)));
    ReachesItself(t);
    u := Moves(t, [], t, a);
    LeadsByOne(t, a, u);
  }

  /** The next pass finds it. */
  lemma Found(t: State, request: string, cert: Certificate) returns (u: State)
    requires t.pc.Idle? && PendingOf(t.world.stored) == Some(request) && !Unusable(Leaf(cert), t.world.spec)
    requires request in t.world.requests && t.world.requests[request].conditions == SIGNED
    requires t.world.requests[request].certificate == Some(Leaf(cert))
    ensures Leads(t, u) && u.world == t.world
    ensures u.pc == Checking(Pub(t.world.generation, t.world.spec, t.world.stored), request, cert)
  {
    LeadsToItself(t);
    ReachesItself(t);
    var read := Reads(t, [], t);
    Onward(t, t, read);
    ReachesItself(read);
    var built := Builds(read, [], read);
    Onward(t, read, built);
    ReachesItself(built);
    u := Fetches(built, [], built);
    Onward(t, built, u);
    SignedIsIssued();
  }

  /** It is imported unless the host holds it, and its request deleted. */
  lemma CheckedIsDelivered(t: State) returns (u: State)
    requires t.pc.Checking? && (Serves(t.world.served, t.pc.cert.fingerprint) ==> t.world.served == Some(Leaf(t.pc.cert)))
    ensures Leads(t, u) && u.pc.Reporting? && u.pc.pub == t.pc.pub && u.pc.write == DeliveredWrite(t.pc.cert.fingerprint)
    ensures u.world == t.world.(served := Some(Leaf(t.pc.cert)), requests := t.world.requests - {t.pc.request})
  {
    LeadsToItself(t);
    ReachesItself(t);
    var checked := Checks(t, [], t);
    Onward(t, t, checked);
    if checked.pc.Importing? {
      ReachesItself(checked);
      var imported := Imports(checked, [], checked);
      Onward(t, checked, imported);
      ReachesItself(imported);
      u := Deletes(imported, [], imported);
      Onward(t, imported, u);
    } else {
      ReachesItself(checked);
      u := Deletes(checked, [], checked);
      Onward(t, checked, u);
    }
  }

  lemma RequestCanBeDelivered(t: State, request: string, cert: Certificate) returns (u: State)
    requires t.pc.Idle? && PendingOf(t.world.stored) == Some(request) && WouldSettle(t.world, request, cert)
    ensures Leads(t, u) && Settled(u.world, cert)
  {
    var answered := Answered(t, request, cert);
    var found := Found(answered, request, cert);
    LeadsFurther(t, answered, found);
    var delivered := CheckedIsDelivered(found);
    LeadsFurther(t, found, delivered);
    ReachesItself(delivered);
    u := Reports(delivered, [], delivered);
    Onward(t, delivered, u);
  }

  // -- Which certificates would do ----------------------------------------------------------------------

  /** `renewBefore` is absent or a duration. */
  predicate Readable(spec: Spec) {
    RenewBefore(spec).Some? ==> Durations.Parse(RenewBefore(spec).value).Success?
  }

  /** Whole seconds enough for the window and then some. */
  function LongEnough(spec: Spec): int
    requires Readable(spec)
  {
    if RenewBefore(spec).Some? then Durations.Parse(RenewBefore(spec).value).value.Floor + 3 else 3
  }

  lemma LongEnoughIsSatisfied(spec: Spec, cert: Certificate, now: real)
    requires Readable(spec) && cert.dnsNames == Names(spec)
    requires cert.notBefore == now.Floor && cert.notAfter == now.Floor + LongEnough(spec)
    ensures Satisfied(spec, cert, now)
  {
    assert now - now.Floor as real < 1.0;
    if RenewBefore(spec).Some? {
      DurationsAreNotNegative(RenewBefore(spec).value);
    }
  }

  /** A readable spec can be met, whatever the host serves. */
  lemma SomeCertificateSettles(w: World, request: string) returns (cert: Certificate)
    requires request in w.requests && Readable(w.spec)
    ensures WouldSettle(w, request, cert)
  {
    var fingerprint := if Serves(w.served, "a") then "b" else "a";
    cert := Certificate(
      fingerprint, w.requests[request].key, Names(w.spec), w.now.Floor, w.now.Floor + LongEnough(w.spec));
    LongEnoughIsSatisfied(w.spec, cert, w.now);
  }

  // -- A round can be opened ------------------------------------------------------------------------------

  /** A recorded request that is gone is cleared. */
  lemma MissingRequestIsCleared(t: State, request: string) returns (u: State)
    requires t.pc.Idle? && PendingOf(t.world.stored) == Some(request) && t.world.requests == map[]
    ensures Leads(t, u) && u.pc.Idle? && u.world == t.world.(stored := u.world.stored) && PendingOf(u.world.stored).None?
  {
    LeadsToItself(t);
    ReachesItself(t);
    var read := Reads(t, [], t);
    Onward(t, t, read);
    ReachesItself(read);
    var built := Builds(read, [], read);
    Onward(t, read, built);
    ReachesItself(built);
    var fetched := Fetches(built, [], built);
    Onward(t, built, fetched);
    ReachesItself(fetched);
    u := Reports(fetched, [], fetched);
    Onward(t, fetched, u);
  }

  /** Time passes until the cooldown is over. */
  lemma CooldownCanPass(t: State) returns (u: State)
    requires t.pc.Idle?
    ensures Leads(t, u) && u.pc.Idle? && u.world == t.world.(now := u.world.now)
    ensures CooldownRemaining(u.world.stored, u.world.now).None?
  {
    var stamp := t.world.stored.lastSigningTime;
    var end := if stamp.None? then t.world.now else stamp.value as real + SIGNING_COOLDOWN;
    var a := Tick(if end < t.world.now then t.world.now else end);
    ReachesItself(t);
    u := Moves(t, [], t, a);
    LeadsByOne(t, a, u);
  }

  /** A pass finds out what the host serves and, past the gate, stamps the round. */
  lemma RoundCanBeStamped(t: State, d: Decision) returns (u: State)
    requires t.pc.Idle? && PendingOf(t.world.stored).None? && CooldownRemaining(t.world.stored, t.world.now).None?
    requires AfterInspection(Pub(t.world.generation, t.world.spec, t.world.stored), t.world.served, t.world.now)
             == Gating(Pub(t.world.generation, t.world.spec, t.world.stored), d)
    ensures Leads(t, u) && u.pc.Rotating? && u.world == t.world.(stored := u.world.stored)
  {
    LeadsToItself(t);
    ReachesItself(t);
    var read := Reads(t, [], t);
    Onward(t, t, read);
    ReachesItself(read);
    var built := Builds(read, [], read);
    Onward(t, read, built);
    ReachesItself(built);
    var inspected := Inspects(built, [], built);
    Onward(t, built, inspected);
    ReachesItself(inspected);
    var gated := Gates(inspected, [], inspected);
    Onward(t, inspected, gated);
    ReachesItself(gated);
    u := Stamps(gated, [], gated);
    Onward(t, gated, u);
  }

  /** Then the key is rotated, the request recorded and created. */
  lemma RequestCanBeCreated(t: State) returns (u: State)
    requires t.pc.Rotating?
    ensures Leads(t, u) && u.pc.Idle? && u.world.spec == t.world.spec && u.world.served == t.world.served
    ensures PendingOf(u.world.stored).Some? && PendingOf(u.world.stored).value in u.world.requests
  {
    LeadsToItself(t);
    ReachesItself(t);
    var rotated := Rotates(t, [], t);
    Onward(t, t, rotated);
    ReachesItself(rotated);
    var recorded := Records(rotated, [], rotated);
    Onward(t, rotated, recorded);
    ReachesItself(recorded);
    u := Creates(recorded, [], recorded);
    Onward(t, recorded, u);
  }

  /** With no request outstanding and nothing wrong with what the host serves, it does the job or a round is opened. */
  lemma RoundCanBeOpened(t: State) returns (u: State)
    requires t.pc.Idle? && t.world.requests == map[] && RenewBeforeProblem(t.world.served, t.world.spec).None?
    ensures Leads(t, u) && u.world.spec == t.world.spec
    ensures || (u.world.served.Some? && u.world.served.value.Leaf? && Settled(u.world, u.world.served.value.cert))
            || (u.pc.Idle? && PendingOf(u.world.stored).Some? && PendingOf(u.world.stored).value in u.world.requests)
  {
    var clear := t;
    LeadsToItself(t);
    if PendingOf(t.world.stored).Some? {
      clear := MissingRequestIsCleared(t, PendingOf(t.world.stored).value);
    }
    var calm := CooldownCanPass(clear);
    LeadsFurther(t, clear, calm);
    var w := calm.world;
    var pub := Pub(w.generation, w.spec, w.stored);
    DecisionNeverRaises(w.served, w.spec, w.stored, w.now);
    match ReasonToRenew(w.served, w.spec, w.stored, w.now) {
      case Success(None) =>
        u := calm;
      case Success(Some(reason)) =>
        var stamped := RoundCanBeStamped(calm, Decision(reason, w.served, w.now));
        LeadsFurther(t, calm, stamped);
        u := RequestCanBeCreated(stamped);
        LeadsFurther(t, stamped, u);
    }
  }

  /** From a state between passes. */
  lemma PromisingCanSettle(first: Option<Pem>, t: State) returns (u: State, cert: Certificate)
    requires SigningRuns.Safe(first, t) && t.pc.Idle? && Promising(t.world)
    ensures Leads(t, u) && Settled(u.world, cert)
  {
    var ready := t;
    LeadsToItself(t);
    if t.world.requests == map[] {
      ready := RoundCanBeOpened(t);
    } else {
      var name :| name in t.world.requests;
      assert PendingOf(t.world.stored) == Some(name);
    }
    if ready.world.served.Some? && ready.world.served.value.Leaf? && Settled(ready.world, ready.world.served.value.cert) {
      u, cert := ready, ready.world.served.value.cert;
    } else {
      var request := PendingOf(ready.world.stored).value;
      cert := SomeCertificateSettles(ready.world, request);
      u := RequestCanBeDelivered(ready, request, cert);
      LeadsFurther(t, ready, u);
    }
  }

  // -- And when it cannot ------------------------------------------------------------------------------------

  /** The spec can be met, and a request is outstanding or nothing is wrong with it over what the host serves. */
  predicate Promising(w: World) {
    Readable(w.spec) && (w.requests != map[] || RenewBeforeProblem(w.served, w.spec).None?)
  }

  /** Anything but an edit, a replaced host certificate, and a host that answers without a certificate. */
  predicate Routine(a: Action) {
    match a
    case Proceed(o, _, _) => !o.Blank?
    case EditSpec(_) | ReplaceHostCertificate(_) => false
    case _ => true
  }

  /** The pass in hand, if any, will find what the host serves misconfigured or its request gone. */
  predicate GoesNowhere(s: State) {
    match s.pc
    case Idle | Failing(_, _) | Reporting(_, _, _, _) | Fetching(_, _) => true
    case Building(pub) => pub.spec == s.world.spec
    case Inspecting(pub) => pub.spec == s.world.spec
    case _ => false
  }

  predicate Stuck(s: State) {
    s.world.requests == map[] && RenewBeforeProblem(s.world.served, s.world.spec).Some? && GoesNowhere(s)
  }

  lemma StuckDecision(s: State, o: Outcome)
    requires Stuck(s) && !o.Blank? && (s.pc.Idle? || s.pc.Building? || s.pc.Inspecting?)
    ensures Stuck(Deciding(s, o))
  {
  }

  lemma StuckFetch(s: State, o: Outcome)
    requires Stuck(s) && s.pc.Fetching?
    ensures Stuck(Resolving(s, o))
  {
  }

  lemma StuckReport(s: State, o: Outcome)
    requires Stuck(s) && (s.pc.Reporting? || s.pc.Failing?)
    ensures Stuck(Closing(s, o))
  {
  }

  lemma StuckMove(s: State, a: Action)
    requires Stuck(s) && !a.Proceed? && Routine(a)
    ensures Stuck(Move(s, a))
  {
  }

  lemma StuckStep(s: State, a: Action)
    requires Stuck(s) && Routine(a)
    ensures Stuck(Step(s, a))
  {
    if !a.Proceed? {
      StuckMove(s, a);
    } else if !a.outcome.Died? {
      match s.pc {
        case Idle => StuckDecision(s.(retryDelay := a.retryIn), a.outcome);
        case Building(_) | Inspecting(_) => StuckDecision(s, a.outcome);
        case Fetching(_, _) => StuckFetch(s, a.outcome);
        case Reporting(_, _, _, _) | Failing(_, _) => StuckReport(s, a.outcome);
      }
    }
  }

  lemma {:induction false} StaysStuck(s: State, actions: seq<Action>)
    requires Stuck(s) && forall a | a in actions :: Routine(a)
    ensures Stuck(Run(s, actions))
  {
    if actions != [] {
      var before := actions[..|actions| - 1];
      StaysStuck(s, before);
      StuckStep(Run(s, before), actions[|actions| - 1]);
    }
  }

  lemma OpeningKeepsSpec(s: State, o: Outcome, d: string)
    requires s.pc.Stamping? || s.pc.Rotating? || s.pc.Recording? || s.pc.Creating?
    ensures Opening(s, o, d).world.spec == s.world.spec
  {
  }

  lemma ResolvingKeepsSpec(s: State, o: Outcome)
    requires s.pc.Fetching? || s.pc.Deleting? || s.pc.Checking? || s.pc.Importing?
    ensures Resolving(s, o).world.spec == s.world.spec
  {
  }

  lemma EffectKeepsSpec(s: State, o: Outcome, d: string, t: State)
    requires !s.pc.Idle? && t == Effect(s, o, d)
    ensures t.world.spec == s.world.spec
  {
    match s.pc {
      case Building(_) | Inspecting(_) | Gating(_, _) =>
      case Stamping(_, _, _) | Rotating(_, _, _) | Recording(_, _, _, _, _) | Creating(_, _, _) =>
        assert t == Opening(s, o, d);
        OpeningKeepsSpec(s, o, d);
      case Fetching(_, _) | Deleting(_, _, _) | Checking(_, _, _) | Importing(_, _, _) =>
        assert t == Resolving(s, o);
        ResolvingKeepsSpec(s, o);
      case Reporting(_, _, _, _) | Failing(_, _) =>
    }
  }

  lemma StepKeepsSpec(s: State, a: Action)
    requires !a.EditSpec?
    ensures Step(s, a).world.spec == s.world.spec
  {
    if a.Proceed? && !a.outcome.Died? && !s.pc.Idle? {
      EffectKeepsSpec(s, a.outcome, a.csrDigest, Step(s, a));
    }
  }

  lemma {:induction false} SpecStays(s: State, actions: seq<Action>)
    requires forall a | a in actions :: Routine(a)
    ensures Run(s, actions).world.spec == s.world.spec
  {
    if actions != [] {
      var before := actions[..|actions| - 1];
      SpecStays(s, before);
      assert Routine(actions[|actions| - 1]);
      StepKeepsSpec(Run(s, before), actions[|actions| - 1]);
    }
  }

  /** A settled publication has a spec that can be read, and a host that serves a certificate it is right for. */
  lemma SettledIsPromising(w: World, cert: Certificate)
    requires Settled(w, cert)
    ensures Readable(w.spec) && RenewBeforeProblem(w.served, w.spec).None?
  {
  }

  lemma UnpromisingCannotSettle(t: State, actions: seq<Action>, cert: Certificate)
    requires t.pc.Idle? && !Promising(t.world) && forall a | a in actions :: Routine(a)
    ensures !Settled(Run(t, actions).world, cert)
  {
    var u := Run(t, actions);
    if Settled(u.world, cert) {
      SettledIsPromising(u.world, cert);
      SpecStays(t, actions);
      if Readable(t.world.spec) {
        StaysStuck(t, actions);
      }
    }
  }

  // -- The theorems ---------------------------------------------------------------------------------------------

  /** Some run with no edit, no hand on the host and no blank answer settles the publication, whatever fails in it. */
  ghost predicate CanSettle(s: State) {
    exists actions: seq<Action>, cert: Certificate ::
      (forall a | a in actions :: Routine(a)) && Settled(Run(s, actions).world, cert)
  }

  lemma LeadingSettles(t: State, u: State, cert: Certificate)
    requires Leads(t, u) && Settled(u.world, cert)
    ensures CanSettle(t)
  {
    var actions :| Helpful(actions) && Reaches(t, actions, u);
    ReachesRun(t, actions, u);
    assert forall a | a in actions :: Routine(a);
  }

  /**
   Between passes, in every reachable state, the publication can be settled
   without an edit, a hand on the host or a blank answer from it exactly when
   `renewBefore` can be read and either a request is outstanding or it is shorter
   than the lifetime of the certificate the host serves now, if it serves one: a
   certificate too short-lived for it keeps a better one from being asked for.
   */
  lemma SettlesExactly(start: State, past: seq<Action>)
    requires Initial(start) && Run(start, past).pc.Idle?
    ensures CanSettle(Run(start, past)) <==> Promising(Run(start, past).world)
  {
    var t := Run(start, past);
    SigningRuns.RunsAreSafe(start, past);
    if Promising(t.world) {
      var u, cert := PromisingCanSettle(start.world.served, t);
      LeadingSettles(t, u, cert);
    } else {
      forall actions: seq<Action>, cert: Certificate | forall a | a in actions :: Routine(a)
        ensures !Settled(Run(t, actions).world, cert)
      {
        UnpromisingCannotSettle(t, actions, cert);
      }
    }
  }

  /**
   From every reachable state, whatever has failed or died before, the pass in
   hand comes to its end by effects that are done; and if the spec leaves
   `renewBefore` out, effects that are done, time and an answer of cert-manager
   settle the publication.
   */
  lemma NeverWedged(start: State, past: seq<Action>)
    requires Initial(start)
    ensures exists u :: Leads(Run(start, past), u) && u.pc.Idle?
    ensures RenewBefore(Run(start, past).world.spec).None? ==>
              exists u, cert :: Leads(Run(start, past), u) && Settled(u.world, cert)
  {
    var t, first := Run(start, past), start.world.served;
    SigningRuns.RunsAreSafe(start, past);
    var ended := PassCanEnd(first, t);
    if RenewBefore(t.world.spec).None? {
      var u, cert := PromisingCanSettle(first, ended);
      LeadsFurther(t, ended, u);
    }
  }

  /**
   A host that still has a one-day factory certificate, and a spec that renews ten
   days early: the publication cannot be settled, although there are certificates
   that would satisfy it.
   */
  lemma FactoryCertificateBlocks(start: State, cert: Certificate)
    requires Initial(start) && start.world.spec.renewBefore == Some(Durations.Print(240, 0, 0))
    requires start.world.served == Some(Leaf(cert)) && cert.notAfter == cert.notBefore + 86400
    ensures !CanSettle(start)
    ensures exists better :: Satisfied(start.world.spec, better, start.world.now)
  {
    var w := start.world;
    Durations.PrintParseRoundTrip(240, 0, 0);
    assert RenewBefore(w.spec) == Some(Durations.Print(240, 0, 0));
    assert Run(start, []) == start;
    SettlesExactly(start, []);
    var better := Certificate("a", 0, Names(w.spec), w.now.Floor, w.now.Floor + LongEnough(w.spec));
    LongEnoughIsSatisfied(w.spec, better, w.now);
  }
}
