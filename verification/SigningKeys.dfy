/**
 Requests and keys: no request is ever orphaned, and whatever is live or
 imported belongs to the key the host holds.

 It rests on the order of writes alone. The request's name is recorded before
 the request is created, it is cleared only once the request is gone, and a key
 is rotated only by a pass that found no name recorded.
 */
module SigningKeys {
  import opened Wrappers
  import opened Status
  import opened SigningProtocol
  import opened SigningCopies

  /** Every live request is the recorded one, and its CSR comes from the key the host holds. */
  ghost predicate RequestsAreOurs(w: World) {
    forall name | name in w.requests ::
      && PendingOf(w.stored) == Some(name)
      && w.requests[name].key == w.hostKey
      && Answers(w.requests[name], w.requests[name].certificate)
  }

  /** What each stage of a pass knows about the outstanding request. */
  ghost predicate StageKnows(s: State) {
    match s.pc
    case Idle | Building(_) | Failing(_, _) => true
    case Inspecting(pub) => PendingOf(pub.status).None?
    case Gating(pub, _) => PendingOf(pub.status).None?
    case Stamping(pub, _, _) => PendingOf(pub.status).None?
    case Rotating(pub, _, _) => PendingOf(pub.status).None?
    case Recording(pub, _, request, key, _) =>
      PendingOf(pub.status).None? && key == s.world.hostKey && request != ""
    case Creating(pub, request, key) =>
      PendingOf(pub.status) == Some(request) && key == s.world.hostKey && s.world.requests == map[]
    case Fetching(pub, request) => PendingOf(pub.status) == Some(request)
    case Deleting(pub, request, _) => PendingOf(pub.status) == Some(request)
    case Checking(pub, request, cert) => PendingOf(pub.status) == Some(request) && cert.key == s.world.hostKey
    case Importing(pub, request, cert) => PendingOf(pub.status) == Some(request) && cert.key == s.world.hostKey
    case Reporting(_, write, _, _) =>
      write.pendingRequest.Keep? || (write.pendingRequest.Null? && s.world.requests == map[])
  }

  /** Every import so far was of a certificate for the key the host held at that moment. */
  ghost predicate ImportsMatch(log: seq<Event>) {
    forall k | 0 <= k < |log| && log[k].ImportCalled? :: log[k].cert.key == log[k].hostKey
  }

  ghost predicate KeySafety(s: State) {
    RequestsAreOurs(s.world) && StageKnows(s) && ImportsMatch(s.log)
  }

  lemma DecidingKeepsKeys(s: State, o: Outcome)
    requires KeySafety(s) && (s.pc.Idle? || s.pc.Building? || s.pc.Inspecting? || s.pc.Gating?)
    ensures KeySafety(Deciding(s, o))
  {
  }

  lemma StampingKeepsKeys(s: State, o: Outcome, d: string)
    requires CopyIsCurrent(s) && KeySafety(s) && (s.pc.Stamping? || s.pc.Rotating?)
    ensures KeySafety(Opening(s, o, d))
  {
  }

  lemma RecordingKeepsKeys(s: State, o: Outcome, d: string)
    requires CopyIsCurrent(s) && KeySafety(s) && s.pc.Recording?
    ensures KeySafety(Opening(s, o, d))
  {
  }

  lemma CreatingKeepsKeys(s: State, o: Outcome, d: string)
    requires CopyIsCurrent(s) && KeySafety(s) && s.pc.Creating?
    ensures KeySafety(Opening(s, o, d))
  {
  }

  lemma OpeningKeepsKeys(s: State, o: Outcome, d: string)
    requires CopyIsCurrent(s) && KeySafety(s)
    requires s.pc.Stamping? || s.pc.Rotating? || s.pc.Recording? || s.pc.Creating?
    ensures KeySafety(Opening(s, o, d))
  {
    match s.pc {
      case Recording(_, _, _, _, _) => RecordingKeepsKeys(s, o, d);
      case Creating(_, _, _) => CreatingKeepsKeys(s, o, d);
      case _ => StampingKeepsKeys(s, o, d);
    }
  }

  lemma FetchingKeepsKeys(s: State, o: Outcome)
    requires CopyIsCurrent(s) && KeySafety(s) && s.pc.Fetching?
    ensures KeySafety(Resolving(s, o))
  {
    if s.pc.request !in s.world.requests {
      assert s.world.requests == map[];
    }
  }

  lemma DeletingKeepsKeys(s: State, o: Outcome)
    requires CopyIsCurrent(s) && KeySafety(s) && s.pc.Deleting?
    ensures KeySafety(Resolving(s, o))
  {
    assert WithoutRequest(s.world, s.pc.request).requests == map[];
  }

  lemma ImportingKeepsKeys(s: State, o: Outcome)
    requires CopyIsCurrent(s) && KeySafety(s) && (s.pc.Checking? || s.pc.Importing?)
    ensures KeySafety(Resolving(s, o))
  {
  }

  lemma ClosingKeepsKeys(s: State, o: Outcome)
    requires CopyIsCurrent(s) && KeySafety(s) && (s.pc.Reporting? || s.pc.Failing?)
    ensures KeySafety(Closing(s, o))
  {
  }

  lemma MovingKeepsKeys(s: State, a: Action)
    requires KeySafety(s) && !a.Proceed?
    ensures KeySafety(Move(s, a))
  {
  }

  /** At most one request is live. */
  lemma AtMostOneRequest(w: World)
    requires RequestsAreOurs(w)
    ensures |w.requests| <= 1
  {
    if w.requests != map[] {
      var name :| name in w.requests;
      assert w.requests.Keys == {name};
    }
  }
}
