/**
 The rotation throttle: the stamp that is written, strictly, before the host is
 asked for a CSR holds the next round back for an hour, over every failure and
 every death, unless a person edits the spec or clears the stamp.
 */
module SigningThrottle {
  import opened Wrappers
  import opened Status
  import opened Renewal
  import opened SigningProtocol
  import opened SigningCopies

  /** A later round may follow an earlier one within the hour only over a person's doing between their passes' reads. */
  ghost predicate Spaced(log: seq<Event>, earlier: Round, stamp: int, readAt: nat) {
    && earlier.readAt <= readAt
    && earlier.stamp <= stamp
    && (|| stamp as real >= earlier.stamp as real + SIGNING_COOLDOWN
        || EditedIn(log, earlier.readAt, readAt)
        || ClearedIn(log, earlier.readAt, readAt))
  }

  ghost predicate Throttled(log: seq<Event>, rounds: seq<Round>) {
    forall i | 0 <= i < |rounds| - 1 :: Spaced(log, rounds[i], rounds[i + 1].stamp, rounds[i + 1].readAt)
  }

  /** A status that still holds the next round back after `last`, up to what a person did before `upTo`. */
  ghost predicate HoldsBack(log: seq<Event>, last: Round, status: Status, generation: int, upTo: nat) {
    && ((status.lastSigningTime.Some? && status.lastSigningTime.value >= last.stamp)
        || ClearedIn(log, last.readAt, upTo))
    && (status.observedGeneration == Some(generation) || EditedIn(log, last.readAt, upTo))
  }

  /** What the stages of a pass that may still open a round know about the last one. */
  ghost predicate StageHoldsBack(s: State, last: Round) {
    match s.pc
    case Building(pub) => HoldsBack(s.log, last, pub.status, pub.generation, s.readAt)
    case Inspecting(pub) => HoldsBack(s.log, last, pub.status, pub.generation, s.readAt)
    case Gating(pub, _) => HoldsBack(s.log, last, pub.status, pub.generation, s.readAt)
    case Stamping(_, _, at) => Spaced(s.log, last, at, s.readAt)
    case Rotating(_, _, stamp) => Spaced(s.log, last, stamp, s.readAt)
    case _ => true
  }

  /** A pass about to rotate the key has its stamp in force, and has recorded the generation it read. */
  ghost predicate StampInForce(s: State) {
    && (s.pc.Stamping? ==> s.pc.at <= s.world.now.Floor)
    && (s.pc.Reporting? ==> !s.pc.write.markSigning)
    && (s.pc.Rotating? ==>
          && s.pc.stamp <= s.world.now.Floor
          && (s.world.stored.lastSigningTime == Some(s.pc.stamp) || ClearedIn(s.log, s.readAt, |s.log|))
          && s.world.stored.observedGeneration == Some(s.pc.pub.generation))
  }

  ghost predicate LastRoundHolds(s: State, last: Round) {
    && last.stamp <= s.world.now.Floor
    && last.readAt < |s.log|
    && HoldsBack(s.log, last, s.world.stored, s.world.generation, |s.log|)
    && (!s.pc.Idle? ==> last.readAt <= s.readAt)
    && StageHoldsBack(s, last)
  }

  ghost predicate Throttle(s: State) {
    && Throttled(s.log, s.rounds)
    && StampInForce(s)
    && (s.rounds != [] ==> LastRoundHolds(s, s.rounds[|s.rounds| - 1]))
  }

  // -- Steps ---------------------------------------------------------------------------------------

  lemma ThrottledGrows(log: seq<Event>, longer: seq<Event>, rounds: seq<Round>)
    requires Throttled(log, rounds) && log <= longer
    ensures Throttled(longer, rounds)
  {
    forall i | 0 <= i < |rounds| - 1
      ensures Spaced(longer, rounds[i], rounds[i + 1].stamp, rounds[i + 1].readAt)
    {
      HistoryGrows(log, longer, rounds[i].readAt, rounds[i + 1].readAt, rounds[i + 1].readAt);
    }
  }

  /** What is known about the last round carries over to a longer log. */
  lemma LastGrows(s: State, t: State)
    requires s.log <= t.log && s.rounds == t.rounds && Throttled(s.log, s.rounds)
    ensures Throttled(t.log, t.rounds)
    ensures s.rounds != [] ==>
              var last := s.rounds[|s.rounds| - 1];
              && (forall status, g :: HoldsBack(s.log, last, status, g, |s.log|) ==> HoldsBack(t.log, last, status, g, |t.log|))
              && (forall status, g :: HoldsBack(s.log, last, status, g, s.readAt) ==> HoldsBack(t.log, last, status, g, s.readAt))
              && (forall stamp :: Spaced(s.log, last, stamp, s.readAt) ==> Spaced(t.log, last, stamp, s.readAt))
  {
    ThrottledGrows(s.log, t.log, s.rounds);
    if s.rounds != [] {
      var last := s.rounds[|s.rounds| - 1];
      HistoryGrows(s.log, t.log, last.readAt, |s.log|, |t.log|);
      HistoryGrows(s.log, t.log, last.readAt, s.readAt, s.readAt);
    }
  }

  lemma ReadingKeepsThrottle(s: State, o: Outcome)
    requires CopyIsCurrent(s) && Throttle(s) && (s.pc.Idle? || s.pc.Building? || s.pc.Inspecting?)
    ensures Throttle(Deciding(s, o))
  {
    LastGrows(s, Deciding(s, o));
  }

  lemma FloorAtLeast(x: real, n: int)
    requires x >= n as real
    ensures x.Floor >= n
  {
  }

  /** Past the gate, either an hour has gone by since the last round's stamp or a person has stepped in. */
  lemma GateSpacesRounds(s: State, last: Round)
    requires s.pc.Gating? && last.readAt <= s.readAt && last.stamp <= s.world.now.Floor
    requires HoldsBack(s.log, last, s.pc.pub.status, s.pc.pub.generation, s.readAt)
    requires AfterGate(s.pc.pub, s.pc.decision, s.world.now).Stamping?
    ensures Spaced(s.log, last, s.world.now.Floor, s.readAt)
  {
    var status, now := s.pc.pub.status, s.world.now;
    if !SpecChanged(status, s.pc.pub.generation) && status.lastSigningTime.Some? && !ClearedIn(s.log, last.readAt, s.readAt) {
      assert CooldownRemaining(status, now).None?;
      assert now >= last.stamp as real + 3600.0;
      FloorAtLeast(now, last.stamp + 3600);
    }
  }

  lemma GatingKeepsThrottle(s: State, o: Outcome)
    requires CopyIsCurrent(s) && Throttle(s) && s.pc.Gating?
    ensures Throttle(Deciding(s, o))
  {
    if s.rounds != [] && AfterGate(s.pc.pub, s.pc.decision, s.world.now).Stamping? {
      GateSpacesRounds(s, s.rounds[|s.rounds| - 1]);
    }
  }

  lemma RotatingKeepsThrottle(s: State, o: Outcome, d: string)
    requires CopyIsCurrent(s) && Throttle(s) && s.pc.Rotating?
    ensures Throttle(Opening(s, o, d))
  {
  }

  lemma StampingKeepsThrottle(s: State, o: Outcome, d: string)
    requires CopyIsCurrent(s) && Throttle(s) && s.pc.Stamping?
    ensures Throttle(Opening(s, o, d))
  {
    LastGrows(s, Opening(s, o, d));
  }

  lemma SubmittingKeepsThrottle(s: State, o: Outcome, d: string)
    requires CopyIsCurrent(s) && Throttle(s) && (s.pc.Recording? || s.pc.Creating?)
    ensures Throttle(Opening(s, o, d))
  {
    LastGrows(s, Opening(s, o, d));
  }

  lemma FetchingKeepsThrottle(s: State, o: Outcome)
    requires CopyIsCurrent(s) && Throttle(s) && s.pc.Fetching?
    ensures Throttle(Resolving(s, o))
  {
    LastGrows(s, Resolving(s, o));
  }

  lemma DeletingKeepsThrottle(s: State, o: Outcome)
    requires CopyIsCurrent(s) && Throttle(s) && s.pc.Deleting?
    ensures Throttle(Resolving(s, o))
  {
    LastGrows(s, Resolving(s, o));
  }

  lemma InstallingKeepsThrottle(s: State, o: Outcome)
    requires CopyIsCurrent(s) && Throttle(s) && (s.pc.Checking? || s.pc.Importing?)
    ensures Throttle(Resolving(s, o))
  {
    LastGrows(s, Resolving(s, o));
  }

  lemma ClosingKeepsThrottle(s: State, o: Outcome)
    requires CopyIsCurrent(s) && Throttle(s) && (s.pc.Reporting? || s.pc.Failing?)
    ensures Throttle(Closing(s, o))
  {
    LastGrows(s, Closing(s, o));
  }

  lemma InterveningKeepsThrottle(s: State, a: Action)
    requires CopyIsCurrent(s) && Throttle(s) && (a.EditSpec? || a.ClearSigning?)
    ensures Throttle(Move(s, a))
  {
    var t := Move(s, a);
    LastGrows(s, t);
    LogGrows(s, t);
    if a.EditSpec? { assert t.log[|s.log|].SpecEdited?; } else { assert t.log[|s.log|].SigningCleared?; }
  }

  lemma DriftingKeepsThrottle(s: State, a: Action)
    requires CopyIsCurrent(s) && Throttle(s) && !a.Proceed? && !a.EditSpec? && !a.ClearSigning?
    ensures Throttle(Move(s, a))
  {
    LastGrows(s, Move(s, a));
    LogGrows(s, Move(s, a));
  }

  lemma MovingKeepsThrottle(s: State, a: Action)
    requires CopyIsCurrent(s) && Throttle(s) && !a.Proceed?
    ensures Throttle(Move(s, a))
  {
    if a.EditSpec? || a.ClearSigning? {
      InterveningKeepsThrottle(s, a);
    } else {
      DriftingKeepsThrottle(s, a);
    }
  }

  // -- Counting rounds ----------------------------------------------------------------------------

  predicate IsIntervention(e: Event) { e.SpecEdited? || e.SigningCleared? }

  /** How many edits and clears the log holds from one position up to another. */
  function Interventions(log: seq<Event>, lo: nat, hi: nat): nat
    requires lo <= hi
    decreases hi
  {
    if lo == hi then 0
    else Interventions(log, lo, hi - 1) + if hi - 1 < |log| && IsIntervention(log[hi - 1]) then 1 else 0
  }

  lemma {:induction false} InterventionsSplit(log: seq<Event>, lo: nat, mid: nat, hi: nat)
    requires lo <= mid <= hi
    ensures Interventions(log, lo, hi) == Interventions(log, lo, mid) + Interventions(log, mid, hi)
    decreases hi
  {
    if mid < hi {
      InterventionsSplit(log, lo, mid, hi - 1);
    }
  }

  lemma SomeIntervention(log: seq<Event>, lo: nat, hi: nat)
    requires lo <= hi && (EditedIn(log, lo, hi) || ClearedIn(log, lo, hi))
    ensures Interventions(log, lo, hi) >= 1
  {
    var k :| lo <= k < hi && k < |log| && IsIntervention(log[k]);
    InterventionsSplit(log, lo, k, hi);
    InterventionsSplit(log, k, k + 1, hi);
    assert Interventions(log, k, k + 1) == Interventions(log, k, k) + 1;
  }

  /** Among rounds stamped less than an hour apart, all but one are accounted for by edits and clears. */
  lemma {:induction false} RoundsNeedInterventions(log: seq<Event>, rounds: seq<Round>, i: nat, j: nat)
    requires Throttled(log, rounds) && i <= j < |rounds|
    requires rounds[j].stamp as real < rounds[i].stamp as real + SIGNING_COOLDOWN
    ensures rounds[i].readAt <= rounds[j].readAt
    ensures rounds[i].stamp <= rounds[j].stamp
    ensures j - i <= Interventions(log, rounds[i].readAt, rounds[j].readAt)
    decreases j - i
  {
    if i < j {
      assert Spaced(log, rounds[j - 1], rounds[j].stamp, rounds[j].readAt);
      RoundsNeedInterventions(log, rounds, i, j - 1);
      SomeIntervention(log, rounds[j - 1].readAt, rounds[j].readAt);
      InterventionsSplit(log, rounds[i].readAt, rounds[j - 1].readAt, rounds[j].readAt);
    }
  }
}
