/**
 One effect at a time: where a run of the signing protocol stands after one more
 action.
 */
module SigningSteps {
  import opened Wrappers
  import opened Status
  import opened Renewal
  import CR = CertificateRequests
  import opened SigningProtocol

  /** The next effect is done, and answered as done. */
  const GO_ON: Action := Proceed(Done, "", 0)

  /** It fails before it is done. */
  const FAIL: Action := Proceed(Failed, "", 0)

  /** cert-manager's answer that a request is issued. */
  const SIGNED: seq<CR.Condition> := [CR.Condition(CR.Ready, true, false)]

  lemma SignedIsIssued()
    ensures CR.StateOf(SIGNED) == CR.Issued
  {
    assert SIGNED[..0] == [];
  }

  /** A run from `s` over these actions comes to `t`. */
  ghost predicate Reaches(s: State, actions: seq<Action>, t: State) {
    exists states :: GoesThrough(states, actions) && states[0] == s && states[|actions|] == t
  }

  lemma ReachesItself(s: State)
    ensures Reaches(s, [], s)
  {
    assert GoesThrough([s], []);
  }

  lemma ReachesOneFurther(s: State, past: seq<Action>, t: State, a: Action, u: State)
    requires Reaches(s, past, t) && u == Step(t, a)
    ensures Reaches(s, past + [a], u)
  {
    var states :| GoesThrough(states, past) && states[0] == s && states[|past|] == t;
    GoesOneFurther(states, past, a, u);
    assert (states + [u])[|past + [a]|] == u;
  }

  /** The state a run was in before its last action. */
  lemma LastStep(t: State, actions: seq<Action>, u: State) returns (before: State)
    requires Reaches(t, actions, u) && actions != []
    ensures Reaches(t, actions[..|actions| - 1], before) && u == Step(before, actions[|actions| - 1])
  {
    var n := |actions| - 1;
    var states :| GoesThrough(states, actions) && states[0] == t && states[|actions|] == u;
    before := states[n];
    assert states[n + 1] == Step(states[n], actions[n]);
    assert GoesThrough(states[..n + 1], actions[..n]);
  }

  lemma {:induction false} ReachesOn(s: State, first: seq<Action>, t: State, rest: seq<Action>, u: State)
    requires Reaches(s, first, t) && Reaches(t, rest, u)
    ensures Reaches(s, first + rest, u)
    decreases |rest|
  {
    if rest == [] {
      assert first + rest == first;
    } else {
      var n := |rest| - 1;
      var before := LastStep(t, rest, u);
      ReachesOn(s, first, t, rest[..n], before);
      ReachesOneFurther(s, first + rest[..n], before, rest[n], u);
      assert (first + rest[..n]) + [rest[n]] == first + rest;
    }
  }

  lemma ReachesRun(s: State, actions: seq<Action>, t: State)
    requires Reaches(s, actions, t)
    ensures t == Run(s, actions)
  {
    var states :| GoesThrough(states, actions) && states[0] == s && states[|actions|] == t;
    GoesThroughRun(states, actions);
  }

  lemma Reads(s: State, past: seq<Action>, t: State) returns (u: State)
    requires Reaches(s, past, t) && t.pc.Idle?
    ensures Reaches(s, past + [GO_ON], u) && u.world == t.world && u.rounds == t.rounds
    ensures u.pc == Building(Pub(t.world.generation, t.world.spec, t.world.stored))
  {
    u := Step(t, GO_ON);
    ReachesOneFurther(s, past, t, GO_ON, u);
  }

  lemma Builds(s: State, past: seq<Action>, t: State) returns (u: State)
    requires Reaches(s, past, t) && t.pc.Building?
    ensures Reaches(s, past + [GO_ON], u) && u.world == t.world && u.rounds == t.rounds
    ensures u.pc == match PendingOf(t.pc.pub.status)
                    case None => Inspecting(t.pc.pub)
                    case Some(request) => Fetching(t.pc.pub, request)
  {
    u := Step(t, GO_ON);
    ReachesOneFurther(s, past, t, GO_ON, u);
  }

  lemma Inspects(s: State, past: seq<Action>, t: State) returns (u: State)
    requires Reaches(s, past, t) && t.pc.Inspecting?
    ensures Reaches(s, past + [GO_ON], u) && u.world == t.world && u.rounds == t.rounds
    ensures u.pc == AfterInspection(t.pc.pub, t.world.served, t.world.now)
  {
    u := Step(t, GO_ON);
    ReachesOneFurther(s, past, t, GO_ON, u);
  }

  lemma Gates(s: State, past: seq<Action>, t: State) returns (u: State)
    requires Reaches(s, past, t) && t.pc.Gating?
    ensures Reaches(s, past + [GO_ON], u) && u.world == t.world && u.rounds == t.rounds
    ensures u.pc == AfterGate(t.pc.pub, t.pc.decision, t.world.now)
  {
    u := Step(t, GO_ON);
    ReachesOneFurther(s, past, t, GO_ON, u);
  }

  lemma Stamps(s: State, past: seq<Action>, t: State) returns (u: State)
    requires Reaches(s, past, t) && t.pc.Stamping?
    ensures Reaches(s, past + [GO_ON], u) && u.rounds == t.rounds
    ensures u.world == t.world.(stored := Merge(t.world.stored, PatchFor(t.pc.pub, OpenWrite(t.pc.decision), t.pc.at)))
    ensures u.pc == Rotating(Remember(t.pc.pub, PatchFor(t.pc.pub, OpenWrite(t.pc.decision), t.pc.at)), t.pc.decision, t.pc.at)
  {
    u := Step(t, GO_ON);
    ReachesOneFurther(s, past, t, GO_ON, u);
  }

  lemma Rotates(s: State, past: seq<Action>, t: State) returns (u: State)
    requires Reaches(s, past, t) && t.pc.Rotating?
    ensures Reaches(s, past + [GO_ON], u) && u.world == t.world.(hostKey := t.world.hostKey + 1)
    ensures u.pc == Recording(t.pc.pub, t.pc.decision, RequestName(t.world, ""), t.world.hostKey + 1, t.world.now.Floor)
  {
    u := Step(t, GO_ON);
    ReachesOneFurther(s, past, t, GO_ON, u);
  }

  lemma Records(s: State, past: seq<Action>, t: State) returns (u: State)
    requires Reaches(s, past, t) && t.pc.Recording?
    ensures Reaches(s, past + [GO_ON], u)
    ensures u.world == t.world.(stored := u.world.stored) && PendingOf(u.world.stored) == NonEmpty(Some(t.pc.request))
    ensures u.pc.Creating? && u.pc.request == t.pc.request && u.pc.key == t.pc.key
  {
    u := Step(t, GO_ON);
    ReachesOneFurther(s, past, t, GO_ON, u);
  }

  lemma Creates(s: State, past: seq<Action>, t: State) returns (u: State)
    requires Reaches(s, past, t) && t.pc.Creating?
    ensures Reaches(s, past + [GO_ON], u) && u.world == WithRequest(t.world, t.pc.request, t.pc.key) && u.pc.Idle?
  {
    u := Step(t, GO_ON);
    ReachesOneFurther(s, past, t, GO_ON, u);
  }

  lemma Fetches(s: State, past: seq<Action>, t: State) returns (u: State)
    requires Reaches(s, past, t) && t.pc.Fetching?
    ensures Reaches(s, past + [GO_ON], u) && u.world == t.world
    ensures u.pc == AfterFetch(t.pc.pub, t.pc.request, Find(t.world, t.pc.request), t.world.now)
  {
    u := Step(t, GO_ON);
    ReachesOneFurther(s, past, t, GO_ON, u);
  }

  lemma Moves(s: State, past: seq<Action>, t: State, a: Action) returns (u: State)
    requires Reaches(s, past, t) && !a.Proceed?
    ensures Reaches(s, past + [a], u) && u == Move(t, a)
  {
    u := Move(t, a);
    ReachesOneFurther(s, past, t, a, u);
  }

  /** An effect that fails before it is done, at the stages used below. */
  lemma Fails(s: State, past: seq<Action>, t: State) returns (u: State)
    requires Reaches(s, past, t) && (t.pc.Building? || t.pc.Rotating?)
    ensures Reaches(s, past + [FAIL], u) && u.world == t.world
    ensures u.pc == Failing(t.pc.pub, t.world.now.Floor)
  {
    u := Step(t, FAIL);
    ReachesOneFurther(s, past, t, FAIL, u);
  }

  /** `_fail` records the failure, and with it the generation the pass read. */
  lemma RecordsFailure(s: State, past: seq<Action>, t: State) returns (u: State)
    requires Reaches(s, past, t) && t.pc.Failing?
    ensures Reaches(s, past + [GO_ON], u) && u.pc.Idle? && u.rounds == t.rounds
    ensures u.world == t.world.(stored := u.world.stored)
    ensures u.world.stored.phase == Some(Error) && u.world.stored.observedGeneration == Some(t.pc.pub.generation)
    ensures u.world.stored.lastSigningTime == t.world.stored.lastSigningTime
    ensures u.world.stored.pendingRequestName == t.world.stored.pendingRequestName
  {
    u := Step(t, GO_ON);
    ReachesOneFurther(s, past, t, GO_ON, u);
  }

  lemma Checks(s: State, past: seq<Action>, t: State) returns (u: State)
    requires Reaches(s, past, t) && t.pc.Checking?
    ensures Reaches(s, past + [GO_ON], u) && u.world == t.world
    ensures u.pc == if Serves(t.world.served, t.pc.cert.fingerprint)
                    then Deleting(t.pc.pub, t.pc.request, Delivered(t.pc.cert.fingerprint))
                    else Importing(t.pc.pub, t.pc.request, t.pc.cert)
  {
    u := Step(t, GO_ON);
    ReachesOneFurther(s, past, t, GO_ON, u);
  }

  lemma Imports(s: State, past: seq<Action>, t: State) returns (u: State)
    requires Reaches(s, past, t) && t.pc.Importing?
    ensures Reaches(s, past + [GO_ON], u) && u.world == t.world.(served := Some(Leaf(t.pc.cert)))
    ensures u.pc == Deleting(t.pc.pub, t.pc.request, Delivered(t.pc.cert.fingerprint))
  {
    u := Step(t, GO_ON);
    ReachesOneFurther(s, past, t, GO_ON, u);
  }

  lemma Deletes(s: State, past: seq<Action>, t: State) returns (u: State)
    requires Reaches(s, past, t) && t.pc.Deleting?
    ensures Reaches(s, past + [GO_ON], u) && u.world == WithoutRequest(t.world, t.pc.request)
    ensures u.pc == AfterDelete(t.pc.pub, t.pc.verdict, t.world.now)
  {
    u := Step(t, GO_ON);
    ReachesOneFurther(s, past, t, GO_ON, u);
  }

  lemma Reports(s: State, past: seq<Action>, t: State) returns (u: State)
    requires Reaches(s, past, t) && t.pc.Reporting?
    ensures Reaches(s, past + [GO_ON], u) && u.pc.Idle?
    ensures u.world == t.world.(stored := Merge(t.world.stored, PatchFor(t.pc.pub, t.pc.write, t.pc.at)))
  {
    u := Step(t, GO_ON);
    ReachesOneFurther(s, past, t, GO_ON, u);
  }
}
