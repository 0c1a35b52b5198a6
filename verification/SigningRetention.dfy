/**
 Retained signed material: when a usable signed certificate that waits on its
 request is sure to be delivered, and exactly when it can be thrown away.
 */
module SigningRetention {
  import opened Wrappers
  import opened Status
  import opened Renewal
  import CR = CertificateRequests
  import opened SigningProtocol
  import opened SigningCopies
  import opened SigningKeys
  import opened SigningImports
  import opened SigningRuns
  import opened SigningSteps

  /** The publication's recorded request is issued, with a certificate that covers the spec. */
  predicate Waits(w: World, request: string, cert: Certificate) {
    && PendingOf(w.stored) == Some(request)
    && request in w.requests
    && CR.StateOf(w.requests[request].conditions) == CR.Issued
    && w.requests[request].certificate == Some(Leaf(cert))
    && !Unusable(Leaf(cert), w.spec)
  }

  /**
   The pass in hand is set to throw the certificate away: it has judged the
   request before the certificate came, it works from a spec the certificate
   does not cover, or it is delivering another certificate the request carried.
   */
  predicate Discards(pc: Pc, cert: Certificate) {
    match pc
    case Building(pub) => Unusable(Leaf(cert), pub.spec)
    case Fetching(pub, _) => Unusable(Leaf(cert), pub.spec)
    case Checking(_, _, held) => held.fingerprint != cert.fingerprint
    case Importing(_, _, held) => held.fingerprint != cert.fingerprint
    case Deleting(_, _, verdict) => verdict != Delivered(cert.fingerprint)
    case _ => false
  }

  /**
   Failures, deaths, time, a cleared stamp, a replaced host certificate and edits
   that the certificate still covers; but no one else's hand on the request.
   */
  predicate LeavesRequestAlone(a: Action, cert: Certificate) {
    match a
    case EditSpec(spec) => !Unusable(Leaf(cert), spec)
    case Vanish(_) | Answer(_, _, _) => false
    case _ => true
  }

  // -- What the history says of the request -------------------------------------------------

  /** Nothing has been deleted since `from`. */
  ghost predicate NothingDeleted(log: seq<Event>, from: nat) {
    forall k | from <= k < |log| :: !log[k].RequestDeleted?
  }

  /** The first deletion since `from` is of this request, and the host had not got its certificate. */
  ghost predicate Lost(log: seq<Event>, from: nat, request: string, cert: Certificate) {
    exists k :: from <= k < |log| && NothingDeleted(log[..k], from)
                && log[k].RequestDeleted? && log[k].name == request && log[k].verdict != Delivered(cert.fingerprint)
  }

  /** It still waits, no key has been rotated and nothing deleted, and no pass is about to throw it away. */
  ghost predicate Kept(s: State, t: State, request: string, cert: Certificate) {
    && Waits(t.world, request, cert) && !Discards(t.pc, cert)
    && t.rounds == s.rounds && s.log <= t.log && NothingDeleted(t.log, |s.log|)
  }

  /** The step that deletes the request, in a pass in which the host has served its certificate. */
  ghost predicate Delivers(first: Option<Pem>, s: State, t: State, request: string, cert: Certificate) {
    && t.log == s.log + [RequestDeleted(request, Delivered(cert.fingerprint))]
    && ServedInPass(first, s.log, cert.fingerprint)
    && t.rounds == s.rounds
  }

  // -- The stages a pass can be at while a certificate waits ------------------------------------

  predicate StageOfWaiting(pc: Pc, request: string) {
    match pc
    case Idle | Failing(_, _) => true
    case Building(pub) => PendingOf(pub.status) == Some(request)
    case Fetching(_, name) => name == request
    case Checking(_, name, _) => name == request
    case Importing(_, name, _) => name == request
    case Deleting(_, name, _) => name == request
    case Reporting(_, write, _, _) => write.pendingRequest.Keep?
    case _ => false
  }

  /** The stored name is the one every copy carries, and no round can be open. */
  lemma WaitingStages(s: State, request: string, cert: Certificate)
    requires CopyIsCurrent(s) && KeySafety(s) && Waits(s.world, request, cert)
    ensures StageOfWaiting(s.pc, request)
  {
    if !s.pc.Idle? && !s.pc.Failing? {
      assert PendingOf(s.pc.pub.status) == PendingOf(s.world.stored);
    }
  }

  // -- A certificate that no pass is about to discard ----------------------------------------------

  lemma ReadingKeepsWaiting(s: State, o: Outcome, request: string, cert: Certificate)
    requires Waits(s.world, request, cert) && StageOfWaiting(s.pc, request) && !Discards(s.pc, cert)
    requires s.pc.Idle? || s.pc.Building?
    ensures Kept(s, Deciding(s, o), request, cert)
  {
  }

  lemma FetchingKeepsWaiting(s: State, o: Outcome, request: string, cert: Certificate)
    requires Waits(s.world, request, cert) && StageOfWaiting(s.pc, request) && !Discards(s.pc, cert)
    requires s.pc.Fetching?
    ensures Kept(s, Resolving(s, o), request, cert)
  {
  }

  lemma InstallingKeepsWaiting(s: State, o: Outcome, request: string, cert: Certificate)
    requires Waits(s.world, request, cert) && StageOfWaiting(s.pc, request) && !Discards(s.pc, cert)
    requires s.pc.Checking? || s.pc.Importing?
    ensures Kept(s, Resolving(s, o), request, cert)
  {
  }

  lemma DeletingDelivers(first: Option<Pem>, s: State, o: Outcome, request: string, cert: Certificate)
    requires ImportSafety(first, s) && Waits(s.world, request, cert)
    requires StageOfWaiting(s.pc, request) && !Discards(s.pc, cert) && s.pc.Deleting?
    ensures Kept(s, Resolving(s, o), request, cert) || Delivers(first, s, Resolving(s, o), request, cert)
  {
  }

  lemma ClosingKeepsWaiting(s: State, o: Outcome, request: string, cert: Certificate)
    requires Waits(s.world, request, cert) && StageOfWaiting(s.pc, request)
    requires s.pc.Reporting? || s.pc.Failing?
    ensures Kept(s, Closing(s, o), request, cert)
  {
  }

  lemma MovingKeepsWaiting(s: State, a: Action, request: string, cert: Certificate)
    requires Waits(s.world, request, cert) && !Discards(s.pc, cert) && !a.Proceed? && LeavesRequestAlone(a, cert)
    ensures Kept(s, Move(s, a), request, cert)
  {
  }

  lemma RetainedStep(first: Option<Pem>, s: State, a: Action, request: string, cert: Certificate)
    requires Safe(first, s) && Waits(s.world, request, cert) && !Discards(s.pc, cert) && LeavesRequestAlone(a, cert)
    ensures Kept(s, Step(s, a), request, cert) || Delivers(first, s, Step(s, a), request, cert)
  {
    WaitingStages(s, request, cert);
    if !a.Proceed? {
      MovingKeepsWaiting(s, a, request, cert);
    } else if !a.outcome.Died? {
      match s.pc {
        case Idle => ReadingKeepsWaiting(s.(retryDelay := a.retryIn), a.outcome, request, cert);
        case Building(_) => ReadingKeepsWaiting(s, a.outcome, request, cert);
        case Fetching(_, _) => FetchingKeepsWaiting(s, a.outcome, request, cert);
        case Checking(_, _, _) => InstallingKeepsWaiting(s, a.outcome, request, cert);
        case Importing(_, _, _) => InstallingKeepsWaiting(s, a.outcome, request, cert);
        case Deleting(_, _, _) => DeletingDelivers(first, s, a.outcome, request, cert);
        case Reporting(_, _, _, _) => ClosingKeepsWaiting(s, a.outcome, request, cert);
        case Failing(_, _) => ClosingKeepsWaiting(s, a.outcome, request, cert);
      }
    }
  }

  lemma KeptThrough(s: State, t: State, u: State, request: string, cert: Certificate)
    requires Kept(s, t, request, cert) && Kept(t, u, request, cert)
    ensures Kept(s, u, request, cert)
  {
    forall k | |s.log| <= k < |u.log| ensures !u.log[k].RequestDeleted? {
      if k < |t.log| { assert u.log[k] == t.log[k]; }
    }
  }

  /** Kept waiting over the first `k` actions, and delivered by the next. */
  ghost predicate DeliveredAt(first: Option<Pem>, s: State, actions: seq<Action>, k: nat, request: string, cert: Certificate)
    requires k < |actions|
  {
    && Kept(s, Run(s, actions[..k]), request, cert)
    && Delivers(first, Run(s, actions[..k]), Run(s, actions[..k + 1]), request, cert)
  }

  /** One more step of a run that has kept it waiting. */
  lemma KeptOneMore(first: Option<Pem>, s: State, t: State, a: Action, u: State, request: string, cert: Certificate)
    requires Safe(first, t) && Kept(s, t, request, cert) && LeavesRequestAlone(a, cert) && u == Step(t, a)
    ensures Kept(s, u, request, cert) || Delivers(first, t, u, request, cert)
  {
    RetainedStep(first, t, a, request, cert);
    if Kept(t, u, request, cert) {
      KeptThrough(s, t, u, request, cert);
    }
  }

  lemma KeptToTheEnd(first: Option<Pem>, s: State, actions: seq<Action>, request: string, cert: Certificate)
    requires var n := |actions| - 1;
      && n >= 0 && Safe(first, Run(s, actions[..n])) && Kept(s, Run(s, actions[..n]), request, cert)
      && LeavesRequestAlone(actions[n], cert)
    ensures Kept(s, Run(s, actions), request, cert) || DeliveredAt(first, s, actions, |actions| - 1, request, cert)
  {
    var n := |actions| - 1;
    assert actions[..n + 1] == actions;
    KeptOneMore(first, s, Run(s, actions[..n]), actions[n], Run(s, actions), request, cert);
  }

  lemma DeliveredStays(first: Option<Pem>, s: State, actions: seq<Action>, k: nat, request: string, cert: Certificate)
    requires k < |actions| - 1 && DeliveredAt(first, s, actions[..|actions| - 1], k, request, cert)
    ensures DeliveredAt(first, s, actions, k, request, cert)
  {
    var before := actions[..|actions| - 1];
    assert before[..k] == actions[..k] && before[..k + 1] == actions[..k + 1];
  }

  lemma {:induction false} StaysSafe(first: Option<Pem>, s: State, actions: seq<Action>)
    requires Safe(first, s)
    ensures Safe(first, Run(s, actions))
  {
    if actions != [] {
      var before := actions[..|actions| - 1];
      StaysSafe(first, s, before);
      StepIsSafe(first, Run(s, before), actions[|actions| - 1]);
    }
  }

  lemma {:induction false} KeptOrDelivered(
    first: Option<Pem>, s: State, actions: seq<Action>, request: string, cert: Certificate)
    requires Safe(first, s) && Waits(s.world, request, cert) && !Discards(s.pc, cert)
    requires forall a | a in actions :: LeavesRequestAlone(a, cert)
    ensures Kept(s, Run(s, actions), request, cert)
            || exists k: nat :: k < |actions| && DeliveredAt(first, s, actions, k, request, cert)
  {
    if actions != [] {
      var n := |actions| - 1;
      var before := actions[..n];
      KeptOrDelivered(first, s, before, request, cert);
      if Kept(s, Run(s, before), request, cert) {
        StaysSafe(first, s, before);
        KeptToTheEnd(first, s, actions, request, cert);
      } else {
        var k: nat :| k < n && DeliveredAt(first, s, before, k, request, cert);
        DeliveredStays(first, s, actions, k, request, cert);
      }
    }
  }

  /**
   In any reachable state where a usable certificate waits and the pass in hand
   is not about to discard it: over any run that leaves the request alone, with
   edits that the certificate still covers, and however many imports and
   deletions fail, no key is rotated, and either
   it still waits or it was delivered, its request deleted by a pass in which
   the host had served it.
   */
  lemma SignedMaterialIsRetained(
    start: State, past: seq<Action>, actions: seq<Action>, request: string, cert: Certificate)
    requires Initial(start)
    requires Waits(Run(start, past).world, request, cert) && !Discards(Run(start, past).pc, cert)
    requires forall a | a in actions :: LeavesRequestAlone(a, cert)
    ensures var s := Run(start, past);
            Kept(s, Run(s, actions), request, cert)
            || exists k: nat :: k < |actions| && DeliveredAt(start.world.served, s, actions, k, request, cert)
  {
    RunsAreSafe(start, past);
    KeptOrDelivered(start.world.served, Run(start, past), actions, request, cert);
  }

  // -- A certificate that is about to be discarded ---------------------------------------------------

  /** How far the pass in hand is from its deletion. */
  function Distance(pc: Pc): nat {
    match pc
    case Building(_) => 4
    case Fetching(_, _) => 3
    case Checking(_, _, _) => 2
    case Importing(_, _, _) => 1
    case _ => 0
  }

  /** A discarding pass whose effects are done goes on discarding. */
  lemma DiscardingGoesOn(s: State, request: string, cert: Certificate)
    requires Waits(s.world, request, cert) && StageOfWaiting(s.pc, request) && Discards(s.pc, cert) && !s.pc.Deleting?
    ensures var t := Step(s, GO_ON);
      && Waits(t.world, request, cert) && Discards(t.pc, cert) && Distance(t.pc) < Distance(s.pc)
      && s.log <= t.log && NothingDeleted(t.log, |s.log|)
  {
  }

  lemma LostLater(longer: seq<Event>, from: nat, mid: nat, request: string, cert: Certificate)
    requires from <= mid <= |longer| && NothingDeleted(longer[..mid], from) && Lost(longer, mid, request, cert)
    ensures Lost(longer, from, request, cert)
  {
    var k :| mid <= k < |longer| && NothingDeleted(longer[..k], mid)
             && longer[k].RequestDeleted? && longer[k].name == request && longer[k].verdict != Delivered(cert.fingerprint);
    forall j | from <= j < k ensures !longer[..k][j].RequestDeleted? {
      if j < mid { assert longer[..mid][j] == longer[j]; }
    }
  }

  /** A discarding pass at its deletion. */
  lemma DiscardingDeletes(s: State, request: string, cert: Certificate)
    requires StageOfWaiting(s.pc, request) && Discards(s.pc, cert) && s.pc.Deleting?
    ensures var t := Run(s, [GO_ON]); s.log <= t.log && Lost(t.log, |s.log|, request, cert)
  {
    RunOne(s, GO_ON);
    var t := Resolving(s, Done);
    assert Run(s, [GO_ON]) == t;
    assert t.log[..|s.log|] == s.log && t.log[|s.log|].RequestDeleted?;
  }

  /** The rest of a discarding pass, with nothing in its way. */
  lemma {:induction false} DiscardedMaterialIsLost(first: Option<Pem>, s: State, request: string, cert: Certificate)
    returns (actions: seq<Action>)
    requires Safe(first, s) && Waits(s.world, request, cert) && Discards(s.pc, cert)
    ensures forall a | a in actions :: a == GO_ON
    ensures s.log <= Run(s, actions).log && Lost(Run(s, actions).log, |s.log|, request, cert)
    decreases Distance(s.pc)
  {
    WaitingStages(s, request, cert);
    if s.pc.Deleting? {
      actions := [GO_ON];
      DiscardingDeletes(s, request, cert);
    } else {
      var t := Step(s, GO_ON);
      DiscardingGoesOn(s, request, cert);
      StepIsSafe(first, s, GO_ON);
      var rest := DiscardedMaterialIsLost(first, t, request, cert);
      actions := [GO_ON] + rest;
      RunFromFirst(s, GO_ON, rest);
      assert Run(s, actions) == Run(t, rest);
      LossIsEarlierStill(s, t, Run(t, rest), request, cert);
    }
  }

  lemma LossIsEarlierStill(s: State, t: State, end: State, request: string, cert: Certificate)
    requires s.log <= t.log <= end.log && NothingDeleted(t.log, |s.log|) && Lost(end.log, |t.log|, request, cert)
    ensures s.log <= end.log && Lost(end.log, |s.log|, request, cert)
  {
    assert end.log[..|t.log|] == t.log;
    LostLater(end.log, |s.log|, |t.log|, request, cert);
  }

  // -- Exactly when -------------------------------------------------------------------------------------

  lemma LogsGrowByStep(s: State, a: Action)
    ensures s.log <= Step(s, a).log
  {
    if a.Proceed? && !a.outcome.Died? {
      match s.pc {
        case Idle | Building(_) | Inspecting(_) | Gating(_, _) =>
        case Stamping(_, _, _) | Rotating(_, _, _) | Recording(_, _, _, _, _) | Creating(_, _, _) =>
        case Fetching(_, _) | Deleting(_, _, _) | Checking(_, _, _) | Importing(_, _, _) =>
        case Reporting(_, _, _, _) | Failing(_, _) =>
      }
    }
  }

  lemma {:induction false} LogsGrow(s: State, actions: seq<Action>, k: nat)
    requires k <= |actions|
    ensures Run(s, actions[..k]).log <= Run(s, actions).log
    decreases |actions|
  {
    if k == |actions| {
      assert actions[..k] == actions;
    } else {
      var n := |actions| - 1;
      LogsGrow(s, actions[..n], k);
      assert actions[..n][..k] == actions[..k];
      LogsGrowByStep(Run(s, actions[..n]), actions[n]);
    }
  }

  /**
   Some run that leaves the request alone, with no edit that the certificate does
   not cover, deletes the request before the host has its certificate.
   */
  ghost predicate CanBeLost(s: State, request: string, cert: Certificate) {
    exists actions: seq<Action> ::
      (forall a | a in actions :: LeavesRequestAlone(a, cert)) && Lost(Run(s, actions).log, |s.log|, request, cert)
  }

  lemma DeliveredIsNotLost(first: Option<Pem>, s: State, actions: seq<Action>, k: nat, request: string, cert: Certificate)
    requires k < |actions| && DeliveredAt(first, s, actions, k, request, cert)
    ensures !Lost(Run(s, actions).log, |s.log|, request, cert)
  {
    var log, t := Run(s, actions).log, Run(s, actions[..k]);
    LogsGrow(s, actions, k + 1);
    var d := |t.log|;
    assert log[d] == RequestDeleted(request, Delivered(cert.fingerprint));
    assert log[..d] == t.log;
    forall m | |s.log| <= m < |log| && log[m].RequestDeleted? && log[m].verdict != Delivered(cert.fingerprint)
      ensures !NothingDeleted(log[..m], |s.log|)
    {
      if m > d { assert log[..m][d].RequestDeleted?; }
    }
  }

  /**
   In any reachable state where a usable certificate waits, it can be lost
   undelivered, without an edit that it does not cover or anybody's hand on the
   request, exactly when
   the pass in hand is about to discard it: it is deleting the request on another
   verdict, it holds a spec the certificate does not cover, or it is delivering
   another certificate.
   */
  lemma MaterialCanBeLostExactly(start: State, past: seq<Action>, request: string, cert: Certificate)
    requires Initial(start) && Waits(Run(start, past).world, request, cert)
    ensures CanBeLost(Run(start, past), request, cert) <==> Discards(Run(start, past).pc, cert)
  {
    var s, first := Run(start, past), start.world.served;
    RunsAreSafe(start, past);
    if Discards(s.pc, cert) {
      var actions := DiscardedMaterialIsLost(first, s, request, cert);
      assert forall a | a in actions :: LeavesRequestAlone(a, cert);
    } else {
      forall actions: seq<Action> | forall a | a in actions :: LeavesRequestAlone(a, cert)
        ensures !Lost(Run(s, actions).log, |s.log|, request, cert)
      {
        KeptOrDelivered(first, s, actions, request, cert);
        if !Kept(s, Run(s, actions), request, cert) {
          var k: nat :| k < |actions| && DeliveredAt(first, s, actions, k, request, cert);
          DeliveredIsNotLost(first, s, actions, k, request, cert);
        }
      }
    }
  }
}
