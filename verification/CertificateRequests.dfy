/** How cert-manager answers a CertificateRequest, read off its conditions. */
module CertificateRequests {
  import opened Wrappers

  datatype Kind = Denied | InvalidRequest | Ready | OtherKind(name: string)

  /** A condition of a CertificateRequest; `failed` is a reason of "Failed". */
  datatype Condition = Condition(kind: Kind, isTrue: bool, failed: bool)

  datatype State = Issued | Waiting | Rejected

  /** The entry `{c["type"]: c for c in conditions}` keeps for a type: the last one. */
  function LastOf(conditions: seq<Condition>, kind: Kind): Option<Condition> {
    if conditions == [] then None
    else if conditions[|conditions| - 1].kind == kind then Some(conditions[|conditions| - 1])
    else LastOf(conditions[..|conditions| - 1], kind)
  }

  predicate Holds(conditions: seq<Condition>, kind: Kind) {
    var c := LastOf(conditions, kind);
    c.Some? && c.value.isTrue
  }

  /** `certificate_request_state`: the terminal types are looked at first. */
  function StateOf(conditions: seq<Condition>): State {
    if Holds(conditions, Denied) || Holds(conditions, InvalidRequest) then Rejected
    else
      var ready := LastOf(conditions, Ready);
      if ready.None? then Waiting
      else if ready.value.isTrue then Issued
      else if ready.value.failed then Rejected
      else Waiting
  }

  lemma {:induction false} LastOfAppended(conditions: seq<Condition>, c: Condition, kind: Kind)
    ensures LastOf(conditions + [c], kind) == if c.kind == kind then Some(c) else LastOf(conditions, kind)
  {
    assert (conditions + [c])[..|conditions|] == conditions;
  }

  lemma {:induction false} DenialStays(conditions: seq<Condition>, later: seq<Condition>)
    requires forall c | c in later :: c.kind != Denied && c.kind != InvalidRequest
    ensures LastOf(conditions + later, Denied) == LastOf(conditions, Denied)
    ensures LastOf(conditions + later, InvalidRequest) == LastOf(conditions, InvalidRequest)
  {
    if later == [] {
      assert conditions + later == conditions;
    } else {
      var init, c := later[..|later| - 1], later[|later| - 1];
      DenialStays(conditions, init);
      assert conditions + later == (conditions + init) + [c];
      LastOfAppended(conditions + init, c, Denied);
      LastOfAppended(conditions + init, c, InvalidRequest);
    }
  }

  /** Once denied, a request stays rejected whatever later conditions say about its readiness. */
  lemma DenialIsTerminal(conditions: seq<Condition>, later: seq<Condition>)
    requires Holds(conditions, Denied) || Holds(conditions, InvalidRequest)
    requires forall c | c in later :: c.kind != Denied && c.kind != InvalidRequest
    ensures StateOf(conditions + later) == Rejected
  {
    DenialStays(conditions, later);
  }

  // -- The answer, entry by entry ------------------------------------------------------------------

  /** Entry `i` is the last of its type. */
  ghost predicate IsLast(conditions: seq<Condition>, kind: Kind, i: nat) {
    && i < |conditions| && conditions[i].kind == kind
    && forall j | i < j < |conditions| :: conditions[j].kind != kind
  }

  /** The last entry of this type is True. */
  ghost predicate Says(conditions: seq<Condition>, kind: Kind) {
    exists i: nat :: IsLast(conditions, kind, i) && conditions[i].isTrue
  }

  /** The last Ready entry is not True, and its reason is Failed. */
  ghost predicate SaysFailed(conditions: seq<Condition>) {
    exists i: nat :: IsLast(conditions, Ready, i) && !conditions[i].isTrue && conditions[i].failed
  }

  /** The request is denied, invalid or failed. */
  ghost predicate TurnedDown(conditions: seq<Condition>) {
    Says(conditions, Denied) || Says(conditions, InvalidRequest) || SaysFailed(conditions)
  }

  /** The request is issued: neither denied nor invalid, and ready. */
  ghost predicate Signed(conditions: seq<Condition>) {
    !Says(conditions, Denied) && !Says(conditions, InvalidRequest) && Says(conditions, Ready)
  }

  lemma OneIsLast(conditions: seq<Condition>, kind: Kind, i: nat, j: nat)
    requires IsLast(conditions, kind, i) && IsLast(conditions, kind, j)
    ensures i == j
  {
  }

  /** Keeping the last entry of each type is looking for the last of one. */
  lemma {:induction false} KeptIsLast(conditions: seq<Condition>, kind: Kind)
    ensures match LastOf(conditions, kind)
      case None => forall i: nat :: !IsLast(conditions, kind, i)
      case Some(c) => exists i: nat :: IsLast(conditions, kind, i) && conditions[i] == c
    ensures LastOf(conditions, kind).None? ==> forall i | 0 <= i < |conditions| :: conditions[i].kind != kind
  {
    if conditions != [] {
      var n := |conditions| - 1;
      var before := conditions[..n];
      KeptIsLast(before, kind);
      if conditions[n].kind == kind {
        assert IsLast(conditions, kind, n);
      } else if LastOf(before, kind).Some? {
        var i: nat :| IsLast(before, kind, i) && before[i] == LastOf(before, kind).value;
        assert IsLast(conditions, kind, i) && conditions[i] == before[i];
      } else {
        forall i | 0 <= i < |conditions| ensures conditions[i].kind != kind {
          if i < n { assert conditions[i] == before[i]; }
        }
      }
    }
  }

  /** What the last entry of a type says. */
  lemma LastSays(conditions: seq<Condition>, kind: Kind)
    ensures Says(conditions, kind) <==> LastOf(conditions, kind).Some? && LastOf(conditions, kind).value.isTrue
    ensures kind == Ready ==>
      (SaysFailed(conditions) <==>
        LastOf(conditions, kind).Some? && !LastOf(conditions, kind).value.isTrue && LastOf(conditions, kind).value.failed)
  {
    KeptIsLast(conditions, kind);
    if LastOf(conditions, kind).Some? {
      var i: nat :| IsLast(conditions, kind, i) && conditions[i] == LastOf(conditions, kind).value;
      forall j: nat | IsLast(conditions, kind, j) ensures j == i {
        OneIsLast(conditions, kind, i, j);
      }
    }
  }

  /** cert-manager's answer, exactly: the last entry of each type decides, and the terminal ones come first. */
  lemma AnswersExactly(conditions: seq<Condition>)
    ensures StateOf(conditions) == Rejected <==> TurnedDown(conditions)
    ensures StateOf(conditions) == Issued <==> Signed(conditions)
    ensures StateOf(conditions) == Waiting <==> !TurnedDown(conditions) && !Signed(conditions)
  {
    LastSays(conditions, Denied);
    LastSays(conditions, InvalidRequest);
    LastSays(conditions, Ready);
  }
}
