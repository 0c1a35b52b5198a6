/**
 The reconciler of host-keyed publications, effect by effect, and its agreement
 with the signing protocol.

 The `Site` is everything outside the process: it plays a script of actions, in
 which the world moves on its own between the effects a pass asks for, and says
 how each effect turns out. The methods below the classes are the source's
 functions. Whatever the script, running them is exactly running the protocol.
 */
module Reconcile {
  import opened Wrappers
  import opened Status
  import opened Renewal
  import CR = CertificateRequests
  import opened SigningProtocol
  import SigningRuns

  /** What an effect answers: a value, an exception, or nothing because the process died. */
  datatype Reply<+T> = Ok(value: T) | Raised | Dead

  /** A CSR: the digest its request is named by, and the key it was minted from. */
  datatype Csr = Csr(digest: string, key: nat)

  /** The in-memory publication a pass works on. */
  class Publication {
    const generation: int
    const spec: Spec
    var status: Status

    constructor (generation: int, spec: Spec, status: Status)
      ensures this.generation == generation && this.spec == spec && this.status == status
    {
      this.generation, this.spec, this.status := generation, spec, status;
    }

    function Copy(): Pub
      reads this
    {
      Pub(generation, spec, status)
    }
  }

  /** The write a pass is about to make, and the second it was made up at. */
  ghost predicate WritesNext(s: State, pub: Pub, w: Write, at: int) {
    match s.pc
    case Stamping(p, d, t) => p == pub && w == OpenWrite(d) && t == at
    case Recording(p, d, request, _, t) => p == pub && w == RecordWrite(d, request) && t == at
    case Reporting(p, write, t, _) => p == pub && w == write && t == at
    case Failing(p, t) => p == pub && t == at && w == FailWrite(at + s.retryDelay)
    case _ => false
  }

  /** Where a pass stands once its status patch has landed and been acknowledged. */
  ghost function AfterPatch(pc: Pc): Pc
    requires pc.Stamping? || pc.Recording? || pc.Reporting? || pc.Failing?
  {
    match pc
    case Stamping(pub, d, at) => Rotating(Remember(pub, PatchFor(pub, OpenWrite(d), at)), d, at)
    case Recording(pub, d, request, key, at) =>
      Creating(Remember(pub, PatchFor(pub, RecordWrite(d, request), at)), request, key)
    case _ => Idle
  }

  /** The world after a status write, which takes effect or not. */
  ghost function WithPatch(w: World, o: Outcome, patch: Patch): World {
    if TookEffect(o) then w.(stored := Merge(w.stored, patch)) else w
  }

  lemma StrictPatchStep(s: State, pub: Pub, w: Write, at: int, o: Outcome, csrDigest: string)
    requires WritesNext(s, pub, w, at) && (s.pc.Stamping? || s.pc.Recording?)
    ensures var t := Opening(s, o, csrDigest);
      && t.world == WithPatch(s.world, o, PatchFor(pub, w, at)) && t.retryDelay == s.retryDelay
      && t.pc == if o.Done? then AfterPatch(s.pc) else Failing(pub, s.world.now.Floor)
  {
  }

  lemma LenientPatchStep(s: State, pub: Pub, w: Write, at: int, o: Outcome)
    requires WritesNext(s, pub, w, at) && (s.pc.Reporting? || s.pc.Failing?)
    ensures var t := Closing(s, o);
      && t.world == WithPatch(s.world, o, PatchFor(pub, w, at)) && t.retryDelay == s.retryDelay
      && t.pc.Idle? && (s.pc.Reporting? ==> t.requeue == s.pc.requeue)
  {
  }

  /** What the protocol makes of a status write, however it turns out. */
  lemma PatchStep(s: State, pub: Pub, w: Write, at: int, a: Action)
    requires WritesNext(s, pub, w, at) && a.Proceed? && !a.outcome.Died?
    ensures var t, o := Step(s, a), a.outcome;
      && t.world == WithPatch(s.world, o, PatchFor(pub, w, at)) && t.retryDelay == s.retryDelay
      && t.pc == (if o.Done? then AfterPatch(s.pc)
                  else if s.pc.Reporting? || s.pc.Failing? then Idle
                  else Failing(pub, s.world.now.Floor))
      && (s.pc.Reporting? ==> t.requeue == s.pc.requeue)
  {
    if s.pc.Reporting? || s.pc.Failing? {
      LenientPatchStep(s, pub, w, at, a.outcome);
    } else {
      StrictPatchStep(s, pub, w, at, a.outcome, a.csrDigest);
    }
  }

  /** The backoff's answer changes only as a pass begins. */
  lemma StepKeepsDelay(s: State, a: Action)
    ensures Step(s, a).retryDelay == if s.pc.Idle? && a.Proceed? && !a.outcome.Died? then a.retryIn else s.retryDelay
  {
  }

  class Site {
    var world: World
    /** What the queue's backoff would answer if the pass in hand failed. */
    var retryDelay: int
    var script: seq<Action>
    /** The Events announced on the publication. */
    var announced: seq<Announcement>

    ghost const start: State
    ghost const plan: seq<Action>
    ghost var played: seq<Action>
    ghost var visited: seq<State>
    ghost var state: State

    /** The protocol's state is where the actions played so far have brought it. */
    ghost predicate Playing()
      reads this
    {
      && played + script == plan && GoesThrough(visited, played)
      && visited[0] == start && visited[|played|] == state
    }

    /** And the world is where the protocol says. */
    ghost predicate Valid()
      reads this
    {
      Playing() && state.world == world && state.retryDelay == retryDelay
    }

    constructor (ghost start: State, world: World, retryDelay: int, script: seq<Action>)
      requires start.world == world && start.retryDelay == retryDelay
      ensures Valid() && this.start == start && this.plan == script && state == start && this.script == script
      ensures announced == []
    {
      this.world, this.retryDelay, this.script, this.announced := world, retryDelay, script, [];
      this.start, this.plan, this.played, this.visited, this.state := start, script, [], [start], start;
    }

    /** Plays the next action of the script. */
    method Play() returns (a: Action)
      requires Playing() && script != []
      modifies this`script, this`played, this`visited, this`state
      ensures Playing() && a == old(script)[0] && script == old(script)[1..]
      ensures state == Step(old(state), a) && played == old(played) + [a]
    {
      a := script[0];
      state := Step(state, a);
      GoesOneFurther(visited, played, a, state);
      assert played + [a] + script[1..] == plan;
      played, visited, script := played + [a], visited + [state], script[1..];
    }

    /** One thing the world does on its own. */
    method Happen()
      requires Valid() && script != [] && !script[0].Proceed?
      modifies this
      ensures Valid() && script == old(script)[1..] && announced == old(announced)
      ensures state.pc == old(state.pc) && retryDelay == old(retryDelay)
    {
      StepKeepsDelay(state, script[0]);
      var a := Play();
      world := Moved(world, a);
    }

    /** Lets the world move until the outcome of the effect in hand is next, or the script has run out. */
    method Await()
      requires Valid()
      modifies this
      ensures Valid() && |script| <= |old(script)| && announced == old(announced)
      ensures script != [] ==> script[0].Proceed?
      ensures state.pc == old(state.pc) && retryDelay == old(retryDelay)
    {
      while script != [] && !script[0].Proceed?
        invariant Valid() && |script| <= |old(script)| && announced == old(announced)
        invariant state.pc == old(state.pc) && retryDelay == old(retryDelay)
        decreases |script|
      {
        Happen();
      }
    }

    /** Whether the action played last was an effect that was done and acknowledged. */
    ghost predicate LastDone()
      reads this
    {
      played != [] && played[|played| - 1].Proceed? && played[|played| - 1].outcome.Done?
    }

    /**
     Lets the world move, then takes the outcome of the effect in hand. The
     state it is taken in is `before`; a script that has run out is a process
     that died.
     */
    method NextOutcome() returns (a: Action, ghost before: State)
      requires Valid()
      modifies this
      ensures Playing() && a.Proceed? && before.world == world && before.pc == old(state.pc)
      ensures retryDelay == old(retryDelay) == before.retryDelay
      ensures |script| <= |old(script)| && (old(script) != [] ==> |script| < |old(script)|)
      ensures announced == old(announced)
      ensures a.outcome.Died? ==>
        && (state.pc.Idle? || (script == [] && state.pc == before.pc))
        && state.world == world && state.retryDelay == retryDelay
      ensures !a.outcome.Died? ==> state == Step(before, a) && (LastDone() <==> a.outcome.Done?)
      ensures !a.outcome.Died? ==> state.retryDelay == if before.pc.Idle? then a.retryIn else retryDelay
    {
      Await();
      before := state;
      if script == [] {
        return Proceed(Died, "", 0), before;
      }
      StepKeepsDelay(state, script[0]);
      a := Play();
    }

    // -- The effects --------------------------------------------------------------------

    /** `kube.get_publication` */
    method GetPublication() returns (r: Reply<Publication>)
      requires Valid() && state.pc.Idle?
      modifies this
      ensures Valid() && |script| <= |old(script)| && (old(script) != [] ==> |script| < |old(script)|)
      ensures announced == old(announced)
      ensures r.Ok? ==> fresh(r.value) && state.pc == Building(r.value.Copy())
      ensures !r.Ok? ==> state.pc.Idle?
      ensures r.Raised? ==> !LastDone()
    {
      var a, before := NextOutcome();
      var o := a.outcome;
      if o.Died? {
        return Dead;
      }
      retryDelay := a.retryIn;
      if !o.Done? {
        return Raised;
      }
      var pub := new Publication(world.generation, world.spec, world.stored);
      return Ok(pub);
    }

    /** `build_provisioner` */
    method BuildProvisioner(pub: Publication) returns (r: Reply<()>)
      requires Valid() && state.pc == Building(pub.Copy())
      modifies this
      ensures Valid() && |script| <= |old(script)| && announced == old(announced)
      ensures match r
        case Ok(_) => state.pc == (if PendingOf(pub.status).Some? then Fetching(pub.Copy(), PendingOf(pub.status).value)
                                   else Inspecting(pub.Copy()))
        case Raised => state.pc == Failing(pub.Copy(), world.now.Floor)
        case Dead => state.pc.Idle? || script == []
    {
      var a, before := NextOutcome();
      var o := a.outcome;
      return if o.Died? then Dead else if o.Done? then Ok(()) else Raised;
    }

    /** `prov.installed_certificate`, on deciding about a renewal. */
    method InstalledCertificate(pub: Publication) returns (r: Reply<Option<Pem>>)
      requires Valid() && state.pc == Inspecting(pub.Copy())
      modifies this
      ensures Valid() && |script| <= |old(script)| && announced == old(announced)
      ensures match r
        case Ok(installed) => state.pc == AfterInspection(pub.Copy(), installed, world.now)
        case Raised => state.pc == Failing(pub.Copy(), world.now.Floor)
        case Dead => state.pc.Idle? || script == []
    {
      var a, before := NextOutcome();
      var o := a.outcome;
      return match o
        case Died => Dead
        case Done => Ok(world.served)
        case Blank => Ok(None)
        case _ => Raised;
    }

    /** `_already_installed`: a read that fails must not block the import. */
    method AlreadyHolds(pub: Publication, request: string, cert: Certificate) returns (r: Reply<bool>)
      requires Valid() && state.pc == Checking(pub.Copy(), request, cert)
      modifies this
      ensures Valid() && |script| <= |old(script)| && announced == old(announced)
      ensures match r
        case Ok(held) =>
          state.pc == if held then Deleting(pub.Copy(), request, Delivered(cert.fingerprint))
                      else Importing(pub.Copy(), request, cert)
        case Raised => false
        case Dead => state.pc.Idle? || script == []
      ensures r.Ok? ==> (r.value <==> LastDone() && Serves(world.served, cert.fingerprint))
    {
      var a, before := NextOutcome();
      var o := a.outcome;
      return if o.Died? then Dead else Ok(o.Done? && Serves(world.served, cert.fingerprint));
    }

    /** `now_utc`, where time may have passed since the last effect. */
    method NowUtc(pub: Publication) returns (r: Reply<real>)
      requires Valid() && state.pc.Gating? && state.pc.pub == pub.Copy()
      modifies this
      ensures Valid() && |script| <= |old(script)| && announced == old(announced)
      ensures match r
        case Ok(now) => now == world.now && state.pc == AfterGate(pub.Copy(), old(state.pc).decision, now)
        case Raised => false
        case Dead => state.pc.Idle? || script == []
    {
      var a, before := NextOutcome();
      var o := a.outcome;
      return if o.Died? then Dead else Ok(world.now);
    }

    /** The write the pass is about to make, and the second it was made up at. */
    ghost predicate AboutToWrite(pub: Pub, w: Write, at: int)
      reads this
    {
      WritesNext(state, pub, w, at)
    }

    /** The outcome of a status write, and what the protocol makes of it. */
    method NextPatchOutcome(ghost pub: Pub, ghost w: Write, ghost at: int) returns (o: Outcome)
      requires Valid() && AboutToWrite(pub, w, at)
      modifies this
      ensures Playing() && |script| <= |old(script)| && announced == old(announced) && state.retryDelay == retryDelay
      ensures o.Died? ==> state.world == world && (state.pc.Idle? || script == [])
      ensures !o.Died? ==>
        && state.world == WithPatch(world, o, PatchFor(pub, w, at))
        && state.pc == (if o.Done? then AfterPatch(old(state.pc))
                        else if old(state.pc).Reporting? || old(state.pc).Failing? then Idle
                        else Failing(pub, world.now.Floor))
        && (old(state.pc).Reporting? ==> state.requeue == old(state.pc).requeue)
        && (LastDone() <==> o.Done?)
    {
      var a, before := NextOutcome();
      o := a.outcome;
      if !o.Died? {
        PatchStep(before, pub, w, at, a);
      }
    }

    /** `kube.patch_publication_status` */
    method PatchPublicationStatus(patch: Patch, ghost pub: Pub, ghost w: Write, ghost at: int) returns (r: Reply<()>)
      requires Valid() && AboutToWrite(pub, w, at) && patch == PatchFor(pub, w, at)
      modifies this
      ensures Valid() && |script| <= |old(script)| && announced == old(announced)
      ensures match r
        case Ok(_) => state.pc == AfterPatch(old(state.pc))
        case Raised => state.pc == if old(state.pc).Reporting? || old(state.pc).Failing? then Idle
                                   else Failing(pub, world.now.Floor)
        case Dead => state.pc.Idle? || script == []
      ensures old(state.pc).Reporting? && !r.Dead? ==> state.requeue == old(state.pc).requeue
      ensures !r.Dead? ==> (r.Ok? <==> LastDone())
      ensures r.Ok? ==> world.stored.phase == Some(w.phase) && world.stored.nextRetryTime == w.nextRetry
    {
      var o := NextPatchOutcome(pub, w, at);
      if o.Died? {
        return Dead;
      }
      if TookEffect(o) {
        world := world.(stored := Merge(world.stored, patch));
      }
      return if o.Done? then Ok(()) else Raised;
    }

    /** `prov.generate_csr` */
    method GenerateCsr(pub: Publication) returns (r: Reply<Csr>)
      requires Valid() && state.pc.Rotating? && state.pc.pub == pub.Copy()
      modifies this
      ensures Valid() && |script| <= |old(script)| && announced == old(announced)
      ensures match r
        case Ok(csr) => state.pc == Recording(pub.Copy(), old(state.pc).decision, RequestName(world, csr.digest),
                                             csr.key, world.now.Floor)
        case Raised => state.pc == Failing(pub.Copy(), world.now.Floor)
        case Dead => state.pc.Idle? || script == []
    {
      var a, before := NextOutcome();
      var o := a.outcome;
      if o.Died? {
        return Dead;
      }
      if TookEffect(o) {
        world := world.(hostKey := world.hostKey + 1);
      }
      return if o.Done? then Ok(Csr(a.csrDigest, world.hostKey)) else Raised;
    }

    /** `kube.create_certificate_request`: a name that is taken is adopted as it is. */
    method CreateCertificateRequest(pub: Publication, request: string, key: nat) returns (r: Reply<()>)
      requires Valid() && state.pc == Creating(pub.Copy(), request, key)
      modifies this
      ensures Valid() && |script| <= |old(script)| && announced == old(announced)
      ensures match r
        case Ok(_) => state.pc.Idle? && state.requeue == Some(AWAITING_ISSUANCE_REQUEUE)
        case Raised => state.pc == Failing(pub.Copy(), world.now.Floor)
        case Dead => state.pc.Idle? || script == []
    {
      var a, before := NextOutcome();
      var o := a.outcome;
      if o.Died? {
        return Dead;
      }
      if TookEffect(o) && request !in world.requests {
        world := world.(requests := world.requests[request := Request(key, world.now.Floor, [], None)]);
      }
      return if o.Done? then Ok(()) else Raised;
    }

    /** `kube.get_certificate_request` */
    method GetCertificateRequest(pub: Publication, request: string) returns (r: Reply<Option<Request>>)
      requires Valid() && state.pc == Fetching(pub.Copy(), request)
      modifies this
      ensures Valid() && |script| <= |old(script)| && announced == old(announced)
      ensures match r
        case Ok(found) => state.pc == AfterFetch(pub.Copy(), request, found, world.now)
        case Raised => state.pc == Failing(pub.Copy(), world.now.Floor)
        case Dead => state.pc.Idle? || script == []
    {
      var a, before := NextOutcome();
      var o := a.outcome;
      return if o.Died? then Dead else if o.Done? then Ok(Find(world, request)) else Raised;
    }

    /** `kube.delete_certificate_request` */
    method DeleteCertificateRequest(pub: Publication, request: string, ghost verdict: Verdict) returns (r: Reply<()>)
      requires Valid() && state.pc == Deleting(pub.Copy(), request, verdict)
      modifies this
      ensures Valid() && |script| <= |old(script)| && announced == old(announced)
      ensures match r
        case Ok(_) => state.pc == AfterDelete(pub.Copy(), verdict, world.now)
        case Raised => state.pc == Failing(pub.Copy(), world.now.Floor)
        case Dead => state.pc.Idle? || script == []
    {
      var a, before := NextOutcome();
      var o := a.outcome;
      if o.Died? {
        return Dead;
      }
      if TookEffect(o) {
        world := world.(requests := world.requests - {request});
      }
      return if o.Done? then Ok(()) else Raised;
    }

    /** `prov.import_certificate` */
    method ImportCertificate(pub: Publication, request: string, cert: Certificate) returns (r: Reply<()>)
      requires Valid() && state.pc == Importing(pub.Copy(), request, cert)
      modifies this
      ensures Valid() && |script| <= |old(script)| && announced == old(announced)
      ensures match r
        case Ok(_) => state.pc == Deleting(pub.Copy(), request, Delivered(cert.fingerprint))
        case Raised => state.pc == Failing(pub.Copy(), world.now.Floor)
        case Dead => state.pc.Idle? || script == []
    {
      var a, before := NextOutcome();
      var o := a.outcome;
      if o.Died? {
        return Dead;
      }
      if TookEffect(o) {
        world := world.(served := Some(Leaf(cert)));
      }
      return if o.Done? then Ok(()) else Raised;
    }

    // -- set_status ---------------------------------------------------------------------

    /** `set_status`: patch, then keep the copy in step and announce the outcome if it changed. */
    method SetStatus(pub: Publication, w: Write, strict: bool, ghost at: int) returns (r: Reply<()>)
      requires Valid() && AboutToWrite(pub.Copy(), w, at) && at == world.now.Floor
      requires strict <==> state.pc.Stamping? || state.pc.Recording?
      modifies this, pub
      ensures Valid() && |script| <= |old(script)|
      ensures match r
        case Ok(_) => state.pc == (if strict then AfterPatch(old(state.pc)) else Idle)
        case Raised => strict && state.pc == Failing(pub.Copy(), world.now.Floor)
        case Dead => state.pc.Idle? || script == []
      ensures old(state.pc).Reporting? && !r.Dead? ==> state.requeue == old(state.pc).requeue
      ensures strict && r.Ok? ==> LastDone()
      ensures !r.Dead? && LastDone() ==> world.stored.phase == Some(w.phase) && world.stored.nextRetryTime == w.nextRetry
      ensures
        if !r.Dead? && LastDone()
        then && pub.Copy() == Remember(old(pub.Copy()), PatchFor(old(pub.Copy()), w, at))
             && announced == old(announced) + Transition(old(pub.status), w)
        else pub.Copy() == old(pub.Copy()) && announced == old(announced)
    {
      var patch := BuildPatch(pub.status, Some(pub.generation), w, world.now.Floor);
      r := PatchPublicationStatus(patch, pub.Copy(), w, at);
      match r {
        case Dead =>
        case Raised =>
          if !strict {
            r := Ok(());
          }
        case Ok(_) =>
          announced := announced + Transition(pub.status, w);
          pub.status := Merge(pub.status, patch);
      }
    }
  }

  // -- The functions of the source ----------------------------------------------------------

  /** How a pass ends: with an answer, with an exception for `_fail`, or with the process. */
  ghost predicate Ended(site: Site, pub: Publication, r: Reply<Option<real>>)
    reads site, pub
  {
    match r
    case Ok(requeue) => site.state.pc.Idle? && site.state.requeue == requeue
    case Raised => site.state.pc == Failing(pub.Copy(), site.world.now.Floor)
    case Dead => site.state.pc.Idle? || site.script == []
  }

  /** A best-effort `set_status` and the `Result` after it, which is how most passes end. */
  method Report(site: Site, pub: Publication, w: Write, requeue: Option<real>) returns (r: Reply<Option<real>>)
    requires site.Valid() && site.state.pc == Reporting(pub.Copy(), w, site.world.now.Floor, requeue)
    modifies site, pub
    ensures site.Valid() && |site.script| <= |old(site.script)|
    ensures Ended(site, pub, r) && (r.Dead? || r == Ok(requeue))
  {
    var told := site.SetStatus(pub, w, false, site.world.now.Floor);
    return if told.Dead? then Dead else Ok(requeue);
  }

  /** `_reconcile_host_keyed`. The answer is when the pass wants to be run again. */
  method ReconcileHostKeyed(site: Site, pub: Publication) returns (r: Reply<Option<real>>)
    requires site.Valid() && site.state.pc == Building(pub.Copy())
    modifies site, pub
    ensures site.Valid() && |site.script| <= |old(site.script)|
    ensures Ended(site, pub, r)
  {
    var built := site.BuildProvisioner(pub);
    if !built.Ok? {
      return if built.Dead? then Dead else Raised;
    }
    var pending := PendingOf(pub.status);
    if pending.Some? {
      r := ResolvePendingRequest(site, pub, pending.value);
      return;
    }

    var reply := site.InstalledCertificate(pub);
    if !reply.Ok? {
      return if reply.Dead? then Dead else Raised;
    }
    var installed := reply.value;
    if RenewBeforeProblem(installed, pub.spec).Some? {
      r := Report(site, pub, MisconfiguredWrite(), None);
      return;
    }

    var decision := ReasonToRenew(installed, pub.spec, pub.status, site.world.now);
    if decision.Failure? {
      return Raised;
    }
    if decision.value.None? {
      r := Report(site, pub, UpToDateWrite(installed.value.cert.fingerprint), None);
      return;
    }
    var d := Decision(decision.value.value, installed, site.world.now);

    r := OpenUnlessCooling(site, pub, d);
  }

  /** The cooldown of a signing round, and the round if nothing stands in its way. */
  method OpenUnlessCooling(site: Site, pub: Publication, d: Decision) returns (r: Reply<Option<real>>)
    requires site.Valid() && site.state.pc == Gating(pub.Copy(), d)
    modifies site, pub
    ensures site.Valid() && |site.script| <= |old(site.script)|
    ensures Ended(site, pub, r)
  {
    var clock := site.NowUtc(pub);
    if clock.Dead? {
      return Dead;
    }
    var now := clock.value;
    var remaining := CooldownRemaining(pub.status, now);
    if !SpecChanged(pub.status, pub.generation) && remaining.Some? {
      var retryIn := remaining.value + 5.0;
      r := Report(site, pub, CooldownWrite((now + retryIn).Floor), Some(retryIn));
      return;
    }
    r := StartSigning(site, pub, d);
  }

  /** `_start_signing`: stamp the cooldown, rotate the key, record the name, create the request. */
  method StartSigning(site: Site, pub: Publication, d: Decision) returns (r: Reply<Option<real>>)
    requires site.Valid() && site.state.pc == Stamping(pub.Copy(), d, site.world.now.Floor)
    modifies site, pub
    ensures site.Valid() && |site.script| <= |old(site.script)|
    ensures Ended(site, pub, r)
  {
    var stamped := site.SetStatus(pub, OpenWrite(d), true, site.world.now.Floor);
    if !stamped.Ok? {
      return if stamped.Dead? then Dead else Raised;
    }
    var csr := site.GenerateCsr(pub);
    if !csr.Ok? {
      return if csr.Dead? then Dead else Raised;
    }
    r := SubmitRequest(site, pub, d, csr.value);
  }

  /** The second half of `_start_signing`: the name is recorded before the request exists. */
  method SubmitRequest(site: Site, pub: Publication, d: Decision, csr: Csr) returns (r: Reply<Option<real>>)
    requires site.Valid()
    requires site.state.pc ==
             Recording(pub.Copy(), d, RequestName(site.world, csr.digest), csr.key, site.world.now.Floor)
    modifies site, pub
    ensures site.Valid() && |site.script| <= |old(site.script)|
    ensures Ended(site, pub, r)
  {
    var request := RequestName(site.world, csr.digest);
    var recorded := site.SetStatus(pub, RecordWrite(d, request), true, site.world.now.Floor);
    if !recorded.Ok? {
      return if recorded.Dead? then Dead else Raised;
    }
    var created := site.CreateCertificateRequest(pub, request, csr.key);
    if !created.Ok? {
      return if created.Dead? then Dead else Raised;
    }
    return Ok(Some(AWAITING_ISSUANCE_REQUEUE));
  }

  /** `_restart_signing`: clear the request's name and say when the next round opens. */
  method RestartSigning(site: Site, pub: Publication) returns (r: Reply<Option<real>>)
    requires site.Valid() && site.state.pc == Restarting(pub.Copy(), site.world.now)
    modifies site, pub
    ensures site.Valid() && |site.script| <= |old(site.script)|
    ensures Ended(site, pub, r)
  {
    var now := site.world.now;
    var remaining := CooldownRemaining(pub.status, now);
    var delay := RESTART_SIGNING_REQUEUE;
    if remaining.Some? {
      delay := remaining.value + 5.0;
    }
    r := Report(site, pub, RestartWrite(pub.Copy(), (now + delay).Floor), Some(delay));
  }

  /** `_resolve_pending_request`: act on the outstanding request, if it has an answer yet. */
  method ResolvePendingRequest(site: Site, pub: Publication, pending: string) returns (r: Reply<Option<real>>)
    requires site.Valid() && site.state.pc == Fetching(pub.Copy(), pending)
    modifies site, pub
    ensures site.Valid() && |site.script| <= |old(site.script)|
    ensures Ended(site, pub, r)
  {
    var reply := site.GetCertificateRequest(pub, pending);
    if !reply.Ok? {
      return if reply.Dead? then Dead else Raised;
    }
    if reply.value.None? {
      r := RestartSigning(site, pub);
      return;
    }
    var request := reply.value.value;
    match CR.StateOf(request.conditions) {
      case Rejected =>
        var deleted := site.DeleteCertificateRequest(pub, pending, Refused);
        if !deleted.Ok? {
          return if deleted.Dead? then Dead else Raised;
        }
        r := RestartSigning(site, pub);
      case Waiting =>
        if site.world.now - request.created as real > REQUEST_TIMEOUT {
          var deleted := site.DeleteCertificateRequest(pub, pending, TimedOut);
          if !deleted.Ok? {
            return if deleted.Dead? then Dead else Raised;
          }
          var retryAt := (site.world.now + RESTART_SIGNING_REQUEUE).Floor;
          r := Report(site, pub, TimedOutWrite(retryAt), Some(RESTART_SIGNING_REQUEUE));
          return;
        }
        r := Report(site, pub, AwaitingWrite(pub.Copy()), Some(AWAITING_ISSUANCE_REQUEUE));
      case Issued =>
        if request.certificate.None? {
          return Raised;
        }
        r := InstallIssued(site, pub, pending, request.certificate.value);
    }
  }

  /** The second half of `_resolve_pending_request`: a signed certificate is refused, or imported and its request dropped. */
  method InstallIssued(site: Site, pub: Publication, pending: string, pem: Pem) returns (r: Reply<Option<real>>)
    requires site.Valid()
    requires site.state.pc == if Unusable(pem, pub.spec) then Deleting(pub.Copy(), pending, NotUsable)
                              else Checking(pub.Copy(), pending, pem.cert)
    modifies site, pub
    ensures site.Valid() && |site.script| <= |old(site.script)|
    ensures Ended(site, pub, r)
  {
    if Unusable(pem, pub.spec) {
      r := RefuseCertificate(site, pub, pending);
      return;
    }
    var cert := pem.cert;
    var held := site.AlreadyHolds(pub, pending, cert);
    if held.Dead? {
      return Dead;
    }
    if held.Ok? && !held.value {
      var imported := site.ImportCertificate(pub, pending, cert);
      if !imported.Ok? {
        return if imported.Dead? then Dead else Raised;
      }
    }
    r := DropDelivered(site, pub, pending, cert.fingerprint);
  }

  /** A signed certificate that does not cover the publication: its request goes, and the cooldown gates the next. */
  method RefuseCertificate(site: Site, pub: Publication, pending: string) returns (r: Reply<Option<real>>)
    requires site.Valid() && site.state.pc == Deleting(pub.Copy(), pending, NotUsable)
    modifies site, pub
    ensures site.Valid() && |site.script| <= |old(site.script)|
    ensures Ended(site, pub, r)
  {
    var deleted := site.DeleteCertificateRequest(pub, pending, NotUsable);
    if !deleted.Ok? {
      return if deleted.Dead? then Dead else Raised;
    }
    var now := site.world.now;
    var remaining := CooldownRemaining(pub.status, now);
    var delay := RESTART_SIGNING_REQUEUE;
    if remaining.Some? {
      delay := remaining.value + 5.0;
    }
    r := Report(site, pub, NotUsableWrite((now + delay).Floor), Some(delay));
  }

  /** The host holds the certificate: the request can go, and the publication is Published. */
  method DropDelivered(site: Site, pub: Publication, pending: string, fingerprint: string)
    returns (r: Reply<Option<real>>)
    requires site.Valid() && site.state.pc == Deleting(pub.Copy(), pending, Delivered(fingerprint))
    modifies site, pub
    ensures site.Valid() && |site.script| <= |old(site.script)|
    ensures Ended(site, pub, r)
  {
    var deleted := site.DeleteCertificateRequest(pub, pending, Delivered(fingerprint));
    if !deleted.Ok? {
      return if deleted.Dead? then Dead else Raised;
    }
    r := Report(site, pub, DeliveredWrite(fingerprint), None);
  }

  /**
   The controller's `_reconcile` for one publication: read it, run a pass, and
   record a failure. It answers when to run again, or that the pass failed; a
   failure that could be recorded is stored with the time of the retry.
   */
  method ReconcileOnce(site: Site) returns (r: Reply<Option<real>>)
    requires site.Valid() && site.state.pc.Idle? && site.script != []
    modifies site
    ensures site.Valid() && |site.script| < |old(site.script)|
    ensures site.state.pc.Idle? || site.script == []
    ensures r.Ok? ==> site.state.pc.Idle? && site.state.requeue == r.value
    ensures r.Raised? && site.LastDone() ==>
      site.world.stored.phase == Some(Error) && site.world.stored.nextRetryTime.Some?
  {
    var read := site.GetPublication();
    if !read.Ok? {
      return if read.Dead? then Dead else Raised;
    }
    var pub := read.value;
    r := ReconcileHostKeyed(site, pub);
    if r.Raised? {
      var now := site.world.now.Floor;
      var told := site.SetStatus(pub, FailWrite(now + site.retryDelay), false, now);
      if told.Dead? {
        return Dead;
      }
    }
  }

  /** Pass after pass, for as long as the script lasts: the operator does exactly what the protocol does. */
  method Operate(site: Site)
    requires site.Valid() && site.state.pc.Idle?
    modifies site
    ensures site.Valid() && site.script == []
    ensures site.state == Run(site.start, site.plan) && site.world == Run(site.start, site.plan).world
  {
    while site.script != []
      invariant site.Valid()
      invariant site.state.pc.Idle? || site.script == []
      decreases |site.script|
    {
      var result := ReconcileOnce(site);
    }
    assert site.played == site.plan;
    GoesThroughRun(site.visited, site.plan);
  }

  /** From a publication nobody has reconciled, under every script, the operator ends in a safe state. */
  method OperateSafely(world: World, retryDelay: int, script: seq<Action>) returns (site: Site)
    requires world.stored == Empty && world.requests == map[]
    ensures fresh(site) && site.Valid() && site.plan == script && site.script == []
    ensures SigningRuns.Safe(world.served, site.state) && site.state.world == site.world
  {
    ghost var start := State(world, Idle, 0, None, retryDelay, [], []);
    site := new Site(start, world, retryDelay, script);
    Operate(site);
    SigningRuns.RunsAreSafe(start, script);
  }
}
