/**
 Two runs of the signing protocol from a publication nobody has reconciled, on a
 host that serves nothing: one that loses a certificate just signed, and one
 that refuses a round right after an edit.
 */
module SigningWitnesses {
  import opened Wrappers
  import opened Status
  import opened Renewal
  import opened SigningProtocol
  import opened SigningRetention
  import opened SigningSteps

  predicate Fresh(s: State) { Initial(s) && s.world.served.None? }

  // -- A first round -----------------------------------------------------------------------------

  const FIVE: seq<Action> := [] + [GO_ON] + [GO_ON] + [GO_ON] + [GO_ON] + [GO_ON]

  /** Five effects in, the stamp is written and the key is about to be rotated. */
  lemma Stamped(s: State) returns (t: State)
    requires Fresh(s)
    ensures Reaches(s, FIVE, t) && t.pc.Rotating? && t.world == s.world.(stored := t.world.stored)
    ensures t.pc.pub == Pub(s.world.generation, s.world.spec, t.world.stored)
    ensures t.world.stored.lastSigningTime == Some(s.world.now.Floor) && PendingOf(t.world.stored).None?
  {
    ReachesItself(s);
    t := Reads(s, [], s);
    t := Builds(s, [] + [GO_ON], t);
    t := Inspects(s, [] + [GO_ON] + [GO_ON], t);
    t := Gates(s, [] + [GO_ON] + [GO_ON] + [GO_ON], t);
    t := Stamps(s, [] + [GO_ON] + [GO_ON] + [GO_ON] + [GO_ON], t);
  }

  const EIGHT: seq<Action> := FIVE + [GO_ON] + [GO_ON] + [GO_ON]

  /** Three more, and the request is created. */
  lemma Submitted(s: State) returns (t: State)
    requires Fresh(s)
    ensures Reaches(s, EIGHT, t) && t.pc.Idle? && PendingOf(t.world.stored) == Some(RequestName(s.world, ""))
    ensures t.world == s.world.(stored := t.world.stored, hostKey := s.world.hostKey + 1,
      requests := map[RequestName(s.world, "") := Request(s.world.hostKey + 1, s.world.now.Floor, [], None)])
  {
    t := Stamped(s);
    t := Rotates(s, FIVE, t);
    t := Records(s, FIVE + [GO_ON], t);
    t := Creates(s, FIVE + [GO_ON] + [GO_ON], t);
  }

  // -- The timeout races the approval --------------------------------------------------------------

  function Late(s: State): Action { Tick(s.world.now + 4000.0) }

  /** More than an hour later the next pass has found the request unanswered, and is about to delete it. */
  lemma TimingOut(s: State) returns (t: State)
    requires Fresh(s)
    ensures Reaches(s, EIGHT + [Late(s)] + [GO_ON] + [GO_ON] + [GO_ON], t)
    ensures t.pc.Deleting? && t.pc.request == RequestName(s.world, "") && t.pc.verdict == TimedOut
    ensures PendingOf(t.world.stored) == Some(RequestName(s.world, "")) && t.world.spec == s.world.spec
    ensures t.world.requests == map[RequestName(s.world, "") := Request(s.world.hostKey + 1, s.world.now.Floor, [], None)]
  {
    t := Submitted(s);
    t := Moves(s, EIGHT, t, Late(s));
    t := Reads(s, EIGHT + [Late(s)], t);
    t := Builds(s, EIGHT + [Late(s)] + [GO_ON], t);
    t := Fetches(s, EIGHT + [Late(s)] + [GO_ON] + [GO_ON], t);
  }

  function Approval(s: State, cert: Certificate): Action {
    Answer(RequestName(s.world, ""), SIGNED, Some(Leaf(cert)))
  }

  /** A first round, an hour and more of waiting, the pass that gives up on the request, and then the approval. */
  function Race(s: State, cert: Certificate): seq<Action> {
    EIGHT + [Late(s)] + [GO_ON] + [GO_ON] + [GO_ON] + [Approval(s, cert)]
  }

  /**
   A certificate that is signed while a pass is deleting its request as timed
   out is lost: it waits, it covers the spec, and the pass's own next effect
   throws it away.
   */
  lemma ApprovalRacesTimeout(s: State, cert: Certificate)
    requires Fresh(s) && cert.key == s.world.hostKey + 1 && !Unusable(Leaf(cert), s.world.spec)
    ensures var t, request := Run(s, Race(s, cert)), RequestName(s.world, "");
      && Waits(t.world, request, cert) && t.pc.Deleting? && t.pc.verdict == TimedOut
      && Lost(Run(t, [GO_ON]).log, |t.log|, request, cert)
  {
    var t := TimingOut(s);
    t := Moves(s, EIGHT + [Late(s)] + [GO_ON] + [GO_ON] + [GO_ON], t, Approval(s, cert));
    ReachesRun(s, Race(s, cert), t);
    SignedIsIssued();
    DiscardingDeletes(t, RequestName(s.world, ""), cert);
  }

  // -- A round refused right after an edit -----------------------------------------------------------

  /** A round that fails before the host has minted a CSR, and its failure recorded. */
  const BROKEN_ROUND: seq<Action> := FIVE + [FAIL] + [GO_ON]

  /** The spec is edited; the pass that follows fails, and its failure is recorded too. */
  function EditedInVain(spec: Spec): seq<Action> {
    BROKEN_ROUND + [EditSpec(spec)] + [GO_ON] + [FAIL] + [GO_ON]
  }

  lemma SpentEdit(s: State, spec: Spec) returns (t: State)
    requires Fresh(s)
    ensures Reaches(s, EditedInVain(spec), t) && t.pc.Idle? && t.world.served.None? && t.world.now == s.world.now
    ensures t.world.generation == s.world.generation + 1 && t.world.stored.observedGeneration == Some(t.world.generation)
    ensures t.world.stored.lastSigningTime == Some(s.world.now.Floor) && PendingOf(t.world.stored).None?
  {
    t := Stamped(s);
    t := Fails(s, FIVE, t);
    t := RecordsFailure(s, FIVE + [FAIL], t);
    t := Moves(s, BROKEN_ROUND, t, EditSpec(spec));
    t := Reads(s, BROKEN_ROUND + [EditSpec(spec)], t);
    t := Fails(s, BROKEN_ROUND + [EditSpec(spec)] + [GO_ON], t);
    t := RecordsFailure(s, BROKEN_ROUND + [EditSpec(spec)] + [GO_ON] + [FAIL], t);
  }

  /** The next pass, which the cooldown refuses although the spec was edited since the round it is counted from. */
  lemma EditIsSpent(s: State, spec: Spec)
    requires Fresh(s)
    ensures var t := Run(s, EditedInVain(spec) + [GO_ON] + [GO_ON] + [GO_ON] + [GO_ON]);
      && t.world.generation == s.world.generation + 1
      && t.pc.Reporting? && t.pc.write.reason == Some(SigningCooldown)
  {
    var past := EditedInVain(spec);
    var t := SpentEdit(s, spec);
    t := Reads(s, past, t);
    t := Builds(s, past + [GO_ON], t);
    t := Inspects(s, past + [GO_ON] + [GO_ON], t);
    t := Gates(s, past + [GO_ON] + [GO_ON] + [GO_ON], t);
    ReachesRun(s, past + [GO_ON] + [GO_ON] + [GO_ON] + [GO_ON], t);
  }
}
