/**
 The pass's own copy of the publication, against what is stored.

 A pass reads the publication once and then patches a copy of its status
 alongside the stored one. Every decision it takes rests on that copy.
 */
module SigningCopies {
  import opened Wrappers
  import opened Status
  import opened SigningProtocol

  // -- Reading the history ----------------------------------------------------------

  ghost predicate EditedIn(log: seq<Event>, from: nat, to: nat) {
    exists k :: from <= k < to && k < |log| && log[k].SpecEdited?
  }

  ghost predicate ClearedIn(log: seq<Event>, from: nat, to: nat) {
    exists k :: from <= k < to && k < |log| && log[k].SigningCleared?
  }

  /** What happened stays happened. */
  lemma HistoryGrows(log: seq<Event>, longer: seq<Event>, from: nat, to: nat, further: nat)
    requires log <= longer && to <= further
    ensures EditedIn(log, from, to) ==> EditedIn(longer, from, further)
    ensures ClearedIn(log, from, to) ==> ClearedIn(longer, from, further)
  {
    if EditedIn(log, from, to) {
      var k :| from <= k < to && k < |log| && log[k].SpecEdited?;
      assert longer[k].SpecEdited?;
    }
    if ClearedIn(log, from, to) {
      var k :| from <= k < to && k < |log| && log[k].SigningCleared?;
      assert longer[k].SigningCleared?;
    }
  }

  /** The same, as a pass sees it that read the publication at `s.readAt`. */
  lemma LogGrows(s: State, t: State)
    requires s.log <= t.log
    ensures EditedIn(s.log, s.readAt, |s.log|) ==> EditedIn(t.log, s.readAt, |t.log|)
    ensures ClearedIn(s.log, s.readAt, |s.log|) ==> ClearedIn(t.log, s.readAt, |t.log|)
  {
    HistoryGrows(s.log, t.log, s.readAt, |s.log|, |t.log|);
  }

  // -- The invariant ------------------------------------------------------------------

  /** What is stored is what the pass remembers, save that a person may have cleared the stamp since it read. */
  ghost predicate Agrees(s: State, memory: Status) {
    || s.world.stored == memory
    || (s.world.stored == memory.(lastSigningTime := None) && ClearedIn(s.log, s.readAt, |s.log|))
  }

  /** Until a write is lost, the copy agrees with the store; and its generation moves only with an edit. */
  ghost predicate CopyIsCurrent(s: State) {
    && (!s.pc.Idle? ==>
          && s.readAt < |s.log|
          && (s.pc.pub.generation == s.world.generation || EditedIn(s.log, s.readAt, |s.log|)))
    && (!s.pc.Idle? && !s.pc.Failing? ==> Agrees(s, s.pc.pub.status))
  }

  lemma DecidingKeepsCopy(s: State, o: Outcome)
    requires CopyIsCurrent(s) && (s.pc.Idle? || s.pc.Building? || s.pc.Inspecting? || s.pc.Gating?)
    ensures CopyIsCurrent(Deciding(s, o))
  {
    LogGrows(s, Deciding(s, o));
  }

  lemma OpeningKeepsCopy(s: State, o: Outcome, d: string)
    requires CopyIsCurrent(s) && (s.pc.Stamping? || s.pc.Rotating? || s.pc.Recording? || s.pc.Creating?)
    ensures CopyIsCurrent(Opening(s, o, d))
  {
    LogGrows(s, Opening(s, o, d));
  }

  lemma ResolvingKeepsCopy(s: State, o: Outcome)
    requires CopyIsCurrent(s) && (s.pc.Fetching? || s.pc.Deleting? || s.pc.Checking? || s.pc.Importing?)
    ensures CopyIsCurrent(Resolving(s, o))
  {
    LogGrows(s, Resolving(s, o));
  }

  lemma ClosingKeepsCopy(s: State, o: Outcome)
    requires CopyIsCurrent(s) && (s.pc.Reporting? || s.pc.Failing?)
    ensures CopyIsCurrent(Closing(s, o))
  {
    LogGrows(s, Closing(s, o));
  }

  lemma MovingKeepsCopy(s: State, a: Action)
    requires CopyIsCurrent(s) && !a.Proceed?
    ensures CopyIsCurrent(Move(s, a))
  {
    var t := Move(s, a);
    LogGrows(s, t);
    if a.EditSpec? { assert t.log[|s.log|].SpecEdited?; }
    if a.ClearSigning? { assert t.log[|s.log|].SigningCleared?; }
  }
}
